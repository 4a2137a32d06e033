/** Ticks, moves in basis points and the running extrema that every scoring script folds over them. */
module TickScan {
  import opened Common
  import ContractSizing

  datatype Tick = Tick(ts: int, mid: real)

  datatype Side = Buy | Sell

  /** The move from the entry mid, positive when it favours the side. */
  function Bp(entry: real, mid: real, side: Side): real
    requires entry > 0.0
  {
    var raw := (mid - entry) / entry * 10000.0;
    if side == Sell then -raw else raw
  }

  /** Python's `round(x, 2)`: what is stored about a move. */
  function Round2(x: real): real { ContractSizing.RoundHalfEven(x * 100.0) as real / 100.0 }

  lemma RoundOdd(y: real)
    ensures ContractSizing.RoundHalfEven(-y) == -ContractSizing.RoundHalfEven(y)
  {
    var f := y.Floor;
    assert y == f as real ==> (-y).Floor == -f;
    assert y > f as real ==> (-y).Floor == -f - 1;
  }

  lemma Round2Odd(x: real)
    ensures Round2(-x) == -Round2(x)
  {
    RoundOdd(x * 100.0);
    assert (-x) * 100.0 == -(x * 100.0);
  }

  lemma RoundMonotone(x: real, y: real)
    requires x <= y
    ensures ContractSizing.RoundHalfEven(x) <= ContractSizing.RoundHalfEven(y)
  {
    assert x.Floor <= y.Floor;
  }

  /** `n` hundredths make `r`, and no other number of them is nearer to `x`. */
  predicate InHundredths(x: real, r: real, n: int) { 100.0 * r == n as real && -0.5 <= 100.0 * x - n as real <= 0.5 }

  ghost predicate Hundredths(x: real, r: real) { exists n :: InHundredths(x, r, n) }

  lemma Round2IsNear(x: real)
    ensures Hundredths(x, Round2(x))
  {
    ContractSizing.RoundIsNearest(x * 100.0);
    assert InHundredths(x, Round2(x), ContractSizing.RoundHalfEven(x * 100.0));
  }

  /** Rounding keeps the order of moves. */
  lemma Round2Monotone(x: real, y: real)
    requires x <= y
    ensures Round2(x) <= Round2(y)
  {
    RoundMonotone(x * 100.0, y * 100.0);
  }

  /** The largest favourable move among the valid ticks of the first `n`, at least 0. */
  function Favor(entry: real, rows: seq<Tick>, side: Side, n: nat): (f: real)
    requires entry > 0.0 && n <= |rows|
    ensures f >= 0.0
  {
    if n == 0 then 0.0
    else
      var f := Favor(entry, rows, side, n - 1);
      if rows[n - 1].mid > 0.0 then Max(f, Bp(entry, rows[n - 1].mid, side)) else f
  }

  /** The largest adverse move among the valid ticks of the first `n`, at most 0. */
  function Adverse(entry: real, rows: seq<Tick>, side: Side, n: nat): (a: real)
    requires entry > 0.0 && n <= |rows|
    ensures a <= 0.0
  {
    if n == 0 then 0.0
    else
      var a := Adverse(entry, rows, side, n - 1);
      if rows[n - 1].mid > 0.0 then Min(a, Bp(entry, rows[n - 1].mid, side)) else a
  }

  /** The move at the last valid tick of the first `n`, 0 if there is none. */
  function Final(entry: real, rows: seq<Tick>, side: Side, n: nat): real
    requires entry > 0.0 && n <= |rows|
  {
    if n == 0 then 0.0
    else if rows[n - 1].mid > 0.0 then Bp(entry, rows[n - 1].mid, side)
    else Final(entry, rows, side, n - 1)
  }

  /** The move at tick `i`, the last valid one of the first `n`, is the final one. */
  lemma {:induction false} FinalIsLastValid(entry: real, rows: seq<Tick>, side: Side, n: nat, i: nat)
    requires entry > 0.0 && i < n <= |rows| && rows[i].mid > 0.0
    requires forall j :: i < j < n ==> rows[j].mid <= 0.0
    ensures Final(entry, rows, side, n) * entry ==
            10000.0 * if side == Buy then rows[i].mid - entry else entry - rows[i].mid
    decreases n
  {
    if rows[n - 1].mid > 0.0 {
      BpTimes(entry, rows[i].mid, side);
    } else {
      FinalIsLastValid(entry, rows, side, n - 1, i);
    }
  }

  lemma BpTimes(entry: real, mid: real, side: Side)
    requires entry > 0.0
    ensures Bp(entry, mid, side) * entry == 10000.0 * if side == Buy then mid - entry else entry - mid
  {
    var x := (mid - entry) / entry;
    assert x * entry == mid - entry;
  }

  /** The ticks up to the first one past the deadline. */
  function WindowRows(rows: seq<Tick>, deadline: int): (w: seq<Tick>)
    ensures |w| <= |rows|
  {
    if rows == [] || rows[0].ts > deadline then [] else [rows[0]] + WindowRows(rows[1..], deadline)
  }

  lemma {:induction false} WindowRowsMeaning(rows: seq<Tick>, deadline: int)
    ensures var w := WindowRows(rows, deadline);
      && w <= rows && (forall i :: 0 <= i < |w| ==> rows[i].ts <= deadline)
      && (|w| < |rows| ==> rows[|w|].ts > deadline)
  {
    if rows != [] && rows[0].ts <= deadline {
      WindowRowsMeaning(rows[1..], deadline);
      var w := WindowRows(rows[1..], deadline);
      assert forall i :: 0 < i <= |w| ==> rows[i] == rows[1..][i - 1] || i == |rows|;
    }
  }

  /** Those conditions determine the window. */
  lemma WindowRowsUnique(rows: seq<Tick>, deadline: int, n: nat)
    requires n <= |rows| && (forall i :: 0 <= i < n ==> rows[i].ts <= deadline)
    requires n < |rows| ==> rows[n].ts > deadline
    ensures WindowRows(rows, deadline) == rows[..n]
  {
    WindowRowsMeaning(rows, deadline);
    assert |WindowRows(rows, deadline)| == n;
  }

  predicate Increasing(rows: seq<Tick>) {
    forall i, j :: 0 <= i < j < |rows| ==> rows[i].ts < rows[j].ts
  }

  predicate NonDecreasing(rows: seq<Tick>) {
    forall i, j :: 0 <= i < j < |rows| ==> rows[i].ts <= rows[j].ts
  }
}
