/** Deciding again from the stored summary of a scan instead of its ticks. */
module Sweep {
  import opened Common
  import opened TickScan
  import opened OutcomeScans
  import ContractSizing

  /** sweep_tp_stop and deep_analysis: decide from the stored summary. */
  function OutcomeAt(s: Summary, tp: real, stop: real): Verdict {
    var tpHit, stopHit := s.favor >= tp, Abs(s.adverse) >= stop;
    if tpHit && stopHit then
      if s.tTp.Some? && s.tStop.Some? then (if s.tTp.value <= s.tStop.value then WouldTp else WouldStop)
      else WouldStop
    else if tpHit then WouldTp
    else if stopHit then WouldStop
    else Timeout
  }

  /** At the thresholds the scan was made with, the summary gives exactly the scan's outcome. */
  lemma SweepAtScoringThresholds(entry: real, ts: int, rows: seq<Tick>, side: Side, tp: real, stop: real)
    requires entry > 0.0 && tp > 0.0 && stop > 0.0
    ensures OutcomeAt(Scan(entry, ts, rows, side, tp, stop), tp, stop) == ByTime(entry, rows, side, tp, stop)
  {
    FavorReaches(entry, rows, side, tp, |rows|);
    AdverseReaches(entry, rows, side, stop, |rows|);
  }

  /** At any other thresholds it equals a fresh scan of the ticks unless both are reached. */
  lemma SweepElsewhere(entry: real, ts: int, rows: seq<Tick>, side: Side, tp: real, stop: real, tp': real, stop': real)
    requires entry > 0.0 && tp > 0.0 && stop > 0.0 && tp' > 0.0 && stop' > 0.0
    requires var s := Scan(entry, ts, rows, side, tp, stop); !(s.favor >= tp' && Abs(s.adverse) >= stop')
    ensures OutcomeAt(Scan(entry, ts, rows, side, tp, stop), tp', stop') == ByTime(entry, rows, side, tp', stop')
  {
    FavorReaches(entry, rows, side, tp', |rows|);
    AdverseReaches(entry, rows, side, stop', |rows|);
  }

  /** A lower threshold is first reached no later than a higher one. */
  lemma FirstTpMonotone(entry: real, rows: seq<Tick>, side: Side, lo: real, hi: real)
    requires entry > 0.0 && lo <= hi && FirstTp(entry, rows, side, hi, |rows|).Some?
    ensures FirstTp(entry, rows, side, lo, |rows|).Some?
    ensures FirstTp(entry, rows, side, lo, |rows|).value <= FirstTp(entry, rows, side, hi, |rows|).value
  {
    assert TpAt(entry, rows, side, lo, FirstTp(entry, rows, side, hi, |rows|).value);
  }

  lemma FirstStopMonotone(entry: real, rows: seq<Tick>, side: Side, lo: real, hi: real)
    requires entry > 0.0 && lo <= hi && FirstStop(entry, rows, side, hi, |rows|).Some?
    ensures FirstStop(entry, rows, side, lo, |rows|).Some?
    ensures FirstStop(entry, rows, side, lo, |rows|).value <= FirstStop(entry, rows, side, hi, |rows|).value
  {
    assert StopAt(entry, rows, side, lo, FirstStop(entry, rows, side, hi, |rows|).value);
  }

  /** When both new thresholds are reached the stored order is still right in the safe direction: a
      scored take-profit for an easier target and a wider stop, a scored stop for the reverse. */
  lemma SweepSafeDirections(entry: real, ts: int, rows: seq<Tick>, side: Side, tp: real, stop: real, tp': real,
                            stop': real)
    requires entry > 0.0 && tp > 0.0 && stop > 0.0 && tp' > 0.0 && stop' > 0.0 && NonDecreasing(rows)
    requires var s := Scan(entry, ts, rows, side, tp, stop);
      && s.tTp.Some? && s.tStop.Some?
      && ((tp' <= tp && stop <= stop' && s.tTp.value <= s.tStop.value)
          || (tp <= tp' && stop' <= stop && s.tTp.value > s.tStop.value))
    ensures OutcomeAt(Scan(entry, ts, rows, side, tp, stop), tp', stop') == ByTime(entry, rows, side, tp', stop')
  {
    FavorReaches(entry, rows, side, tp', |rows|);
    AdverseReaches(entry, rows, side, stop', |rows|);
    if tp' <= tp && FirstStop(entry, rows, side, stop', |rows|).Some? && stop <= stop' {
      FirstTpMonotone(entry, rows, side, tp', tp);
      FirstStopMonotone(entry, rows, side, stop, stop');
    }
    if tp <= tp' && stop' <= stop && FirstTp(entry, rows, side, tp', |rows|).Some? {
      FirstTpMonotone(entry, rows, side, tp, tp');
      FirstStopMonotone(entry, rows, side, stop', stop);
    }
  }

  // ----- When the sweep is right on all ticks -----

  /** Re-deciding at the new thresholds gives what a fresh scan would, on every window in time order. */
  ghost predicate RightOnAll(side: Side, tp: real, stop: real, tp': real, stop': real) {
    forall rows: seq<Tick>, ts: int :: Increasing(rows) && rows != [] && rows[0].mid > 0.0 ==>
      OutcomeAt(Scan(rows[0].mid, ts, rows, side, tp, stop), tp', stop') == ByTime(rows[0].mid, rows, side, tp', stop')
  }

  /** A valid tick can reach the threshold below the entry: prices are positive, so a fall is less than
      10000 bp. For a buy that is the stop, for a sell the take-profit. */
  predicate LowReachable(side: Side, tp: real, stop: real) { (if side == Buy then stop else tp) < 10000.0 }

  /** No tick falls by 10000 bp or more. */
  lemma FallIsBounded(entry: real, mid: real)
    requires entry > 0.0 && mid > 0.0
    ensures (mid - entry) / entry * 10000.0 > -10000.0
  {
    var q := (mid - entry) / entry;
    assert q * entry == mid - entry;
    AboveMinusOne(q, entry, mid);
  }

  lemma AboveMinusOne(q: real, entry: real, mid: real)
    requires entry > 0.0 && mid > 0.0 && q * entry == mid - entry
    ensures q > -1.0
  {
    assert (q + 1.0) * entry == mid;
    PositiveFactor(q + 1.0, entry);
  }

  lemma PositiveFactor(x: real, y: real)
    requires y > 0.0 && x * y > 0.0
    ensures x > 0.0
  {}

  lemma UnreachableIsNeverHit(entry: real, rows: seq<Tick>, side: Side, tp: real, stop: real)
    requires entry > 0.0 && !LowReachable(side, tp, stop)
    ensures FirstTp(entry, rows, side, tp, |rows|).None? || FirstStop(entry, rows, side, stop, |rows|).None?
  {
    forall i | 0 <= i < |rows|
      ensures if side == Buy then !StopAt(entry, rows, side, stop, i) else !TpAt(entry, rows, side, tp, i)
    {
      if rows[i].mid > 0.0 { FallIsBounded(entry, rows[i].mid); }
    }
  }

  /** The tick at which a position entered at 10000 has moved by `m` in its favour. */
  function MoveTick(side: Side, ts: int, m: real): Tick { Tick(ts, if side == Buy then 10000.0 + m else 10000.0 - m) }

  function Path(side: Side, m1: real, m2: real, m3: real): seq<Tick> {
    [Tick(0, 10000.0), MoveTick(side, 1, m1), MoveTick(side, 2, m2), MoveTick(side, 3, m3)]
  }

  predicate Possible(side: Side, m: real) { if side == Buy then m > -10000.0 else m < 10000.0 }

  lemma MoveIs(side: Side, ts: int, m: real)
    requires Possible(side, m)
    ensures MoveTick(side, ts, m).mid > 0.0 && Bp(10000.0, MoveTick(side, ts, m).mid, side) == m
  {}

  /** The first of three values that satisfies a test. */
  function FirstOf(a: bool, b: bool, c: bool): Option<nat> {
    if a then Some(1) else if b then Some(2) else if c then Some(3) else None
  }

  lemma PathTpHit(side: Side, m1: real, m2: real, m3: real, tp: real)
    requires Possible(side, m1) && Possible(side, m2) && Possible(side, m3) && tp > 0.0
    ensures var rows := Path(side, m1, m2, m3);
      FirstTp(10000.0, rows, side, tp, |rows|) == FirstOf(m1 >= tp, m2 >= tp, m3 >= tp)
  {
    var rows := Path(side, m1, m2, m3);
    MoveIs(side, 0, 0.0);
    MoveIs(side, 1, m1);
    MoveIs(side, 2, m2);
    MoveIs(side, 3, m3);
    assert forall k :: 0 <= k < 4 ==> (TpAt(10000.0, rows, side, tp, k) <==> [0.0, m1, m2, m3][k] >= tp);
    FirstTpIs(10000.0, rows, side, tp, FirstOf(m1 >= tp, m2 >= tp, m3 >= tp));
  }

  lemma PathStopHit(side: Side, m1: real, m2: real, m3: real, stop: real)
    requires Possible(side, m1) && Possible(side, m2) && Possible(side, m3) && stop > 0.0
    ensures var rows := Path(side, m1, m2, m3);
      FirstStop(10000.0, rows, side, stop, |rows|) == FirstOf(m1 <= -stop, m2 <= -stop, m3 <= -stop)
  {
    var rows := Path(side, m1, m2, m3);
    MoveIs(side, 0, 0.0);
    MoveIs(side, 1, m1);
    MoveIs(side, 2, m2);
    MoveIs(side, 3, m3);
    assert forall k :: 0 <= k < 4 ==> (StopAt(10000.0, rows, side, stop, k) <==> [0.0, m1, m2, m3][k] <= -stop);
    FirstStopIs(10000.0, rows, side, stop, FirstOf(m1 <= -stop, m2 <= -stop, m3 <= -stop));
  }

  lemma FirstTpIs(entry: real, rows: seq<Tick>, side: Side, tp: real, r: Option<nat>)
    requires entry > 0.0
    requires r.Some? ==> r.value < |rows| && TpAt(entry, rows, side, tp, r.value)
    requires forall i :: 0 <= i < (if r.Some? then r.value else |rows|) ==> !TpAt(entry, rows, side, tp, i)
    ensures FirstTp(entry, rows, side, tp, |rows|) == r
  {
    var f := FirstTp(entry, rows, side, tp, |rows|);
    assert f.Some? ==> TpAt(entry, rows, side, tp, f.value);
  }

  lemma FirstStopIs(entry: real, rows: seq<Tick>, side: Side, stop: real, r: Option<nat>)
    requires entry > 0.0
    requires r.Some? ==> r.value < |rows| && StopAt(entry, rows, side, stop, r.value)
    requires forall i :: 0 <= i < (if r.Some? then r.value else |rows|) ==> !StopAt(entry, rows, side, stop, i)
    ensures FirstStop(entry, rows, side, stop, |rows|) == r
  {
    var f := FirstStop(entry, rows, side, stop, |rows|);
    assert f.Some? ==> StopAt(entry, rows, side, stop, f.value);
  }

  /** What re-deciding gives, from the four hits. */
  function Redecide(a: Option<nat>, b: Option<nat>, a': Option<nat>, b': Option<nat>): Verdict {
    if a'.Some? && b'.Some? then
      if a.Some? && b.Some? then (if a.value <= b.value then WouldTp else WouldStop) else WouldStop
    else if a'.Some? then WouldTp
    else if b'.Some? then WouldStop
    else Timeout
  }

  function Fresh(a': Option<nat>, b': Option<nat>): Verdict {
    if a'.Some? && (b'.None? || a'.value <= b'.value) then WouldTp else if b'.Some? then WouldStop else Timeout
  }

  lemma PathVerdicts(side: Side, m1: real, m2: real, m3: real, tp: real, stop: real, tp': real, stop': real)
    requires Possible(side, m1) && Possible(side, m2) && Possible(side, m3)
    requires tp > 0.0 && stop > 0.0 && tp' > 0.0 && stop' > 0.0
    ensures var rows := Path(side, m1, m2, m3);
      var a, b := FirstOf(m1 >= tp, m2 >= tp, m3 >= tp), FirstOf(m1 <= -stop, m2 <= -stop, m3 <= -stop);
      var a', b' := FirstOf(m1 >= tp', m2 >= tp', m3 >= tp'), FirstOf(m1 <= -stop', m2 <= -stop', m3 <= -stop');
      && OutcomeAt(Scan(10000.0, 0, rows, side, tp, stop), tp', stop') == Redecide(a, b, a', b')
      && ByTime(10000.0, rows, side, tp', stop') == Fresh(a', b')
  {
    var rows := Path(side, m1, m2, m3);
    PathTpHit(side, m1, m2, m3, tp);
    PathTpHit(side, m1, m2, m3, tp');
    PathStopHit(side, m1, m2, m3, stop);
    PathStopHit(side, m1, m2, m3, stop');
    FavorReaches(10000.0, rows, side, tp', |rows|);
    AdverseReaches(10000.0, rows, side, stop', |rows|);
    assert forall i: nat :: i < 4 ==> rows[i].ts == i;
  }

  lemma PathBreaks(side: Side, m1: real, m2: real, m3: real, tp: real, stop: real, tp': real, stop': real)
    requires Possible(side, m1) && Possible(side, m2) && Possible(side, m3)
    requires tp > 0.0 && stop > 0.0 && tp' > 0.0 && stop' > 0.0
    requires Redecide(FirstOf(m1 >= tp, m2 >= tp, m3 >= tp), FirstOf(m1 <= -stop, m2 <= -stop, m3 <= -stop),
                      FirstOf(m1 >= tp', m2 >= tp', m3 >= tp'), FirstOf(m1 <= -stop', m2 <= -stop', m3 <= -stop'))
          != Fresh(FirstOf(m1 >= tp', m2 >= tp', m3 >= tp'), FirstOf(m1 <= -stop', m2 <= -stop', m3 <= -stop'))
    ensures !RightOnAll(side, tp, stop, tp', stop')
  {
    PathVerdicts(side, m1, m2, m3, tp, stop, tp', stop');
    var rows := Path(side, m1, m2, m3);
    assert Increasing(rows) && rows[0].mid == 10000.0;
  }

  /** A few ticks on which any other pair of thresholds is decided wrongly: the target first when it is
      easier; a tighter stop first, the scored stop last; the scored target first, then the stop; and the
      scored stop first, then the target. */
  lemma OtherThresholdsBreak(side: Side, tp: real, stop: real, tp': real, stop': real)
    requires tp > 0.0 && stop > 0.0 && tp' > 0.0 && stop' > 0.0
    requires LowReachable(side, tp', stop') && !(tp' == tp && stop' == stop)
    ensures !RightOnAll(side, tp, stop, tp', stop')
  {
    if tp' < tp || (stop' < stop && !Possible(side, -stop)) {
      PathBreaks(side, tp', -stop', -stop', tp, stop, tp', stop');
    } else if stop' < stop {
      PathBreaks(side, -stop', tp', -stop, tp, stop, tp', stop');
    } else if tp' > tp {
      PathBreaks(side, tp, -stop', tp', tp, stop, tp', stop');
    } else {
      PathBreaks(side, -stop, tp, -stop', tp, stop, tp', stop');
    }
  }

  /** Re-deciding from the summary is right on all ticks if and only if the thresholds are those of the
      scan, or the one below the entry is out of reach of any positive price. */
  lemma SweepRightIff(side: Side, tp: real, stop: real, tp': real, stop': real)
    requires tp > 0.0 && stop > 0.0 && tp' > 0.0 && stop' > 0.0
    ensures RightOnAll(side, tp, stop, tp', stop') <==> (tp' == tp && stop' == stop) || !LowReachable(side, tp', stop')
  {
    if tp' == tp && stop' == stop {
      forall rows: seq<Tick>, ts: int | Increasing(rows) && rows != [] && rows[0].mid > 0.0
        ensures OutcomeAt(Scan(rows[0].mid, ts, rows, side, tp, stop), tp', stop') ==
                ByTime(rows[0].mid, rows, side, tp', stop')
      {
        SweepAtScoringThresholds(rows[0].mid, ts, rows, side, tp, stop);
      }
    } else if LowReachable(side, tp', stop') {
      OtherThresholdsBreak(side, tp, stop, tp', stop');
    } else {
      forall rows: seq<Tick>, ts: int | Increasing(rows) && rows != [] && rows[0].mid > 0.0
        ensures OutcomeAt(Scan(rows[0].mid, ts, rows, side, tp, stop), tp', stop') ==
                ByTime(rows[0].mid, rows, side, tp', stop')
      {
        UnreachableIsNeverHit(rows[0].mid, rows, side, tp', stop');
        FavorReaches(rows[0].mid, rows, side, tp', |rows|);
        AdverseReaches(rows[0].mid, rows, side, stop', |rows|);
        SweepElsewhere(rows[0].mid, ts, rows, side, tp, stop, tp', stop');
      }
    }
  }

  /** With a target easier than the scored one that was never reached, the pessimistic fallback
      calls a take-profit a stop. */
  lemma FallbackMisreadsTakeProfit()
    ensures var rows := [Tick(0, 100.0), Tick(1, 101.0), Tick(2, 99.0)];
      && OutcomeAt(Scan(100.0, 0, rows, Buy, 200.0, 50.0), 50.0, 50.0) == WouldStop
      && ByTime(100.0, rows, Buy, 50.0, 50.0) == WouldTp
  {
    var rows := [Tick(0, 100.0), Tick(1, 101.0), Tick(2, 99.0)];
    assert Bp(100.0, 100.0, Buy) == 0.0 && Bp(100.0, 101.0, Buy) == 100.0 && Bp(100.0, 99.0, Buy) == -100.0;
    assert TpAt(100.0, rows, Buy, 50.0, 1) && StopAt(100.0, rows, Buy, 50.0, 2);
    assert !TpAt(100.0, rows, Buy, 50.0, 0) && !StopAt(100.0, rows, Buy, 50.0, 0) && !StopAt(100.0, rows, Buy, 50.0, 1);
    assert forall i :: 0 <= i < 3 ==> !TpAt(100.0, rows, Buy, 200.0, i);
    FavorReaches(100.0, rows, Buy, 50.0, 3);
    AdverseReaches(100.0, rows, Buy, 50.0, 3);
  }

  // ----- Rounded summaries -----

  predicate Hundredths(x: real) { x * 100.0 == (x * 100.0).Floor as real }

  /** A value that misses the threshold by at most half a hundredth. */
  predicate NearMiss(x: real, threshold: real) { threshold - 0.005 <= x < threshold }

  lemma RoundAgainstInteger(y: real, k: int)
    ensures y >= k as real ==> ContractSizing.RoundHalfEven(y) >= k
    ensures ContractSizing.RoundHalfEven(y) >= k ==> y >= k as real - 0.5
  {
    ContractSizing.RoundIsNearest(y);
  }

  lemma RoundingOnlyAddsNearMisses(x: real, threshold: real)
    requires Hundredths(threshold)
    ensures x >= threshold ==> Round2(x) >= threshold
    ensures Round2(x) >= threshold ==> x >= threshold || NearMiss(x, threshold)
  {
    RoundAgainstInteger(x * 100.0, (threshold * 100.0).Floor);
  }

  /** The value misses the threshold and is stored as reaching it. */
  predicate RoundsUp(x: real, threshold: real) { x < threshold && Round2(x) >= threshold }

  /** Re-deciding from the stored file at the scoring thresholds gives the scan's outcome if and only if
      the adverse extremum is not rounded up to the stop, and the favourable one to the take-profit only
      when the stop was really reached. */
  lemma StoredSweepIff(entry: real, ts: int, rows: seq<Tick>, side: Side, tp: real, stop: real)
    requires entry > 0.0 && tp > 0.0 && stop > 0.0 && Hundredths(tp) && Hundredths(stop)
    ensures var s := Scan(entry, ts, rows, side, tp, stop);
      OutcomeAt(Stored(s), tp, stop) == ByTime(entry, rows, side, tp, stop) <==>
        !RoundsUp(-s.adverse, stop) && (RoundsUp(s.favor, tp) ==> -s.adverse >= stop)
  {
    var s := Scan(entry, ts, rows, side, tp, stop);
    RoundingOnlyAddsNearMisses(s.favor, tp);
    RoundingOnlyAddsNearMisses(-s.adverse, stop);
    Round2Odd(-s.adverse);
    assert Round2(-s.adverse) >= 0.0 by { ContractSizing.RoundIsNearest(-s.adverse * 100.0); }
    assert Abs(Stored(s).adverse) == Round2(-s.adverse) && Abs(s.adverse) == -s.adverse;
    SweepAtScoringThresholds(entry, ts, rows, side, tp, stop);
    FavorReaches(entry, rows, side, tp, |rows|);
    AdverseReaches(entry, rows, side, stop, |rows|);
  }

  /** In particular unless an extremum missed its threshold by no more than half a hundredth. */
  lemma StoredSweepAtScoringThresholds(entry: real, ts: int, rows: seq<Tick>, side: Side, tp: real, stop: real)
    requires entry > 0.0 && tp > 0.0 && stop > 0.0 && Hundredths(tp) && Hundredths(stop)
    requires !NearMiss(Favor(entry, rows, side, |rows|), tp) && !NearMiss(-Adverse(entry, rows, side, |rows|), stop)
    ensures OutcomeAt(Stored(Scan(entry, ts, rows, side, tp, stop)), tp, stop) == ByTime(entry, rows, side, tp, stop)
  {
    var s := Scan(entry, ts, rows, side, tp, stop);
    RoundingOnlyAddsNearMisses(s.favor, tp);
    RoundingOnlyAddsNearMisses(-s.adverse, stop);
    StoredSweepIff(entry, ts, rows, side, tp, stop);
  }
}
