/** The three independently written outcome classifiers. */
module OutcomeScans {
  import opened Common
  import opened TickScan

  datatype Verdict = NoData | WouldTp | WouldStop | Timeout

  predicate TpAt(entry: real, rows: seq<Tick>, side: Side, tp: real, i: nat)
    requires entry > 0.0 && i < |rows|
  {
    rows[i].mid > 0.0 && Bp(entry, rows[i].mid, side) >= tp
  }

  predicate StopAt(entry: real, rows: seq<Tick>, side: Side, stop: real, i: nat)
    requires entry > 0.0 && i < |rows|
  {
    rows[i].mid > 0.0 && Bp(entry, rows[i].mid, side) <= -stop
  }

  /** Index of the first tick among the first `n` that reaches the take-profit. */
  function FirstTp(entry: real, rows: seq<Tick>, side: Side, tp: real, n: nat): (r: Option<nat>)
    requires entry > 0.0 && n <= |rows|
    ensures r.Some? ==> r.value < n && TpAt(entry, rows, side, tp, r.value)
    ensures forall i :: 0 <= i < (if r.Some? then r.value else n) ==> !TpAt(entry, rows, side, tp, i)
  {
    if n == 0 then None
    else
      var r := FirstTp(entry, rows, side, tp, n - 1);
      if r.Some? then r else if TpAt(entry, rows, side, tp, n - 1) then Some(n - 1) else None
  }

  /** Index of the first tick among the first `n` that reaches the stop. */
  function FirstStop(entry: real, rows: seq<Tick>, side: Side, stop: real, n: nat): (r: Option<nat>)
    requires entry > 0.0 && n <= |rows|
    ensures r.Some? ==> r.value < n && StopAt(entry, rows, side, stop, r.value)
    ensures forall i :: 0 <= i < (if r.Some? then r.value else n) ==> !StopAt(entry, rows, side, stop, i)
  {
    if n == 0 then None
    else
      var r := FirstStop(entry, rows, side, stop, n - 1);
      if r.Some? then r else if StopAt(entry, rows, side, stop, n - 1) then Some(n - 1) else None
  }

  /** Whichever threshold is hit at the earlier position decides. */
  function ByPosition(entry: real, rows: seq<Tick>, side: Side, tp: real, stop: real): Verdict
    requires entry > 0.0
  {
    var a, b := FirstTp(entry, rows, side, tp, |rows|), FirstStop(entry, rows, side, stop, |rows|);
    if a.Some? && (b.None? || a.value < b.value) then WouldTp
    else if b.Some? then WouldStop
    else Timeout
  }

  /** Whichever threshold has the earlier timestamp decides, the take-profit winning ties. */
  function ByTime(entry: real, rows: seq<Tick>, side: Side, tp: real, stop: real): Verdict
    requires entry > 0.0
  {
    var a, b := FirstTp(entry, rows, side, tp, |rows|), FirstStop(entry, rows, side, stop, |rows|);
    if a.Some? && (b.None? || rows[a.value].ts <= rows[b.value].ts) then WouldTp
    else if b.Some? then WouldStop
    else Timeout
  }

  /** The verdict on a fetched window, whose first tick is the entry. */
  function Reference(rows: seq<Tick>, side: Side, tp: real, stop: real): Verdict {
    if rows == [] || rows[0].mid <= 0.0 then NoData else ByPosition(rows[0].mid, rows, side, tp, stop)
  }

  /** What the reference verdict means, without the scan: the favourable threshold is reached
      before the adverse one, the adverse one before the favourable one, or neither is. */
  lemma ReferenceMeaning(rows: seq<Tick>, side: Side, tp: real, stop: real)
    requires tp > 0.0 && stop > 0.0 && rows != [] && rows[0].mid > 0.0
    ensures var e := rows[0].mid; var v := Reference(rows, side, tp, stop);
      && (v == WouldTp <==> exists i :: 0 <= i < |rows| && TpAt(e, rows, side, tp, i)
                              && forall j :: 0 <= j < i ==> !StopAt(e, rows, side, stop, j))
      && (v == WouldStop <==> exists i :: 0 <= i < |rows| && StopAt(e, rows, side, stop, i)
                                && forall j :: 0 <= j < i ==> !TpAt(e, rows, side, tp, j))
      && (v == Timeout <==> forall i :: 0 <= i < |rows| ==>
                              !TpAt(e, rows, side, tp, i) && !StopAt(e, rows, side, stop, i))
  {
    var e := rows[0].mid;
    var a, b := FirstTp(e, rows, side, tp, |rows|), FirstStop(e, rows, side, stop, |rows|);
    if a.Some? { assert TpAt(e, rows, side, tp, a.value); }
    if b.Some? { assert StopAt(e, rows, side, stop, b.value); }
  }

  /** A valid tick is as far from the entry as the take-profit: above it for a buy, below it for a sell. */
  predicate Reaches(entry: real, t: Tick, side: Side, tp: real) {
    t.mid > 0.0 && 10000.0 * (if side == Buy then t.mid - entry else entry - t.mid) >= tp * entry
  }

  predicate Falls(entry: real, t: Tick, side: Side, stop: real) {
    t.mid > 0.0 && 10000.0 * (if side == Buy then entry - t.mid else t.mid - entry) >= stop * entry
  }

  lemma Compare(x: real, bound: real, unit: real)
    requires unit > 0.0
    ensures x >= bound <==> x * unit >= bound * unit
    ensures x <= bound <==> x * unit <= bound * unit
  {
    assert (x - bound) * unit == x * unit - bound * unit;
    if x > bound { assert (x - bound) * unit > 0.0; }
    if x < bound { assert (bound - x) * unit > 0.0; }
  }

  lemma HitsInPrices(entry: real, rows: seq<Tick>, side: Side, tp: real, stop: real, i: nat)
    requires entry > 0.0 && i < |rows|
    ensures TpAt(entry, rows, side, tp, i) <==> Reaches(entry, rows[i], side, tp)
    ensures StopAt(entry, rows, side, stop, i) <==> Falls(entry, rows[i], side, stop)
  {
    var x := Bp(entry, rows[i].mid, side);
    BpTimes(entry, rows[i].mid, side);
    Compare(x, tp, entry);
    Compare(x, -stop, entry);
  }

  /** Tick `i` reaches the take-profit and none before it the stop. */
  predicate ReachesUnstopped(entry: real, rows: seq<Tick>, side: Side, tp: real, stop: real, i: nat) {
    i < |rows| && Reaches(entry, rows[i], side, tp) && forall j :: 0 <= j < i ==> !Falls(entry, rows[j], side, stop)
  }

  /** And the other way round. */
  predicate FallsUntaken(entry: real, rows: seq<Tick>, side: Side, tp: real, stop: real, i: nat) {
    i < |rows| && Falls(entry, rows[i], side, stop) && forall j :: 0 <= j < i ==> !Reaches(entry, rows[j], side, tp)
  }

  lemma BeforeInPrices(entry: real, rows: seq<Tick>, side: Side, tp: real, stop: real, i: nat)
    requires entry > 0.0 && i < |rows|
    ensures ReachesUnstopped(entry, rows, side, tp, stop, i) <==>
            TpAt(entry, rows, side, tp, i) && forall j :: 0 <= j < i ==> !StopAt(entry, rows, side, stop, j)
    ensures FallsUntaken(entry, rows, side, tp, stop, i) <==>
            StopAt(entry, rows, side, stop, i) && forall j :: 0 <= j < i ==> !TpAt(entry, rows, side, tp, j)
  {
    forall j: nat | j <= i
      ensures TpAt(entry, rows, side, tp, j) <==> Reaches(entry, rows[j], side, tp)
      ensures StopAt(entry, rows, side, stop, j) <==> Falls(entry, rows[j], side, stop)
    {
      HitsInPrices(entry, rows, side, tp, stop, j);
    }
  }

  /** The tick that decides the verdict, if any. */
  lemma DecidingTick(rows: seq<Tick>, side: Side, tp: real, stop: real) returns (i: nat)
    requires tp > 0.0 && stop > 0.0 && rows != [] && rows[0].mid > 0.0
    ensures var e, v := rows[0].mid, Reference(rows, side, tp, stop);
      && (v == WouldTp ==> ReachesUnstopped(e, rows, side, tp, stop, i))
      && (v == WouldStop ==> FallsUntaken(e, rows, side, tp, stop, i))
  {
    var e := rows[0].mid;
    var a, b := FirstTp(e, rows, side, tp, |rows|), FirstStop(e, rows, side, stop, |rows|);
    i := 0;
    if Reference(rows, side, tp, stop) == WouldTp {
      i := a.value;
      BeforeInPrices(e, rows, side, tp, stop, i);
    } else if Reference(rows, side, tp, stop) == WouldStop {
      i := b.value;
      BeforeInPrices(e, rows, side, tp, stop, i);
    }
  }

  /** And only that verdict has one. */
  lemma DecidesOnly(rows: seq<Tick>, side: Side, tp: real, stop: real, i: nat)
    requires tp > 0.0 && stop > 0.0 && rows != [] && rows[0].mid > 0.0 && i < |rows|
    ensures var e, v := rows[0].mid, Reference(rows, side, tp, stop);
      && (ReachesUnstopped(e, rows, side, tp, stop, i) ==> v == WouldTp)
      && (FallsUntaken(e, rows, side, tp, stop, i) ==> v == WouldStop)
  {
    BeforeInPrices(rows[0].mid, rows, side, tp, stop, i);
    var e := rows[0].mid;
    var a, b := FirstTp(e, rows, side, tp, |rows|), FirstStop(e, rows, side, stop, |rows|);
    if a.Some? { assert TpAt(e, rows, side, tp, a.value); }
    if b.Some? { assert StopAt(e, rows, side, stop, b.value); }
  }

  /** The verdict in prices: which threshold some valid tick reaches first. */
  lemma ReferenceInPrices(rows: seq<Tick>, side: Side, tp: real, stop: real)
    requires tp > 0.0 && stop > 0.0
    ensures var v := Reference(rows, side, tp, stop);
      if rows == [] || rows[0].mid <= 0.0 then v == NoData
      else
        && v != NoData
        && (v == WouldTp <==> exists i :: ReachesUnstopped(rows[0].mid, rows, side, tp, stop, i))
        && (v == WouldStop <==> exists i :: FallsUntaken(rows[0].mid, rows, side, tp, stop, i))
  {
    if rows != [] && rows[0].mid > 0.0 {
      var d := DecidingTick(rows, side, tp, stop);
      if i :| ReachesUnstopped(rows[0].mid, rows, side, tp, stop, i) { DecidesOnly(rows, side, tp, stop, i); }
      if i :| FallsUntaken(rows[0].mid, rows, side, tp, stop, i) { DecidesOnly(rows, side, tp, stop, i); }
    }
  }

  // ----- Extrema and hits -----

  /** The running favourable extremum reaches a positive threshold exactly when some tick does. */
  lemma {:induction false} FavorReaches(entry: real, rows: seq<Tick>, side: Side, tp: real, n: nat)
    requires entry > 0.0 && n <= |rows| && tp > 0.0
    ensures Favor(entry, rows, side, n) >= tp <==> FirstTp(entry, rows, side, tp, n).Some?
  {
    if n > 0 { FavorReaches(entry, rows, side, tp, n - 1); }
  }

  lemma {:induction false} AdverseReaches(entry: real, rows: seq<Tick>, side: Side, stop: real, n: nat)
    requires entry > 0.0 && n <= |rows| && stop > 0.0
    ensures Abs(Adverse(entry, rows, side, n)) >= stop <==> FirstStop(entry, rows, side, stop, n).Some?
  {
    if n > 0 { AdverseReaches(entry, rows, side, stop, n - 1); }
  }

  /** Later ticks do not change a first hit. */
  lemma {:induction false} FirstStays(entry: real, rows: seq<Tick>, side: Side, tp: real, stop: real, n: nat, m: nat)
    requires entry > 0.0 && n <= m <= |rows|
    ensures FirstTp(entry, rows, side, tp, n).Some? ==>
              FirstTp(entry, rows, side, tp, m) == FirstTp(entry, rows, side, tp, n)
    ensures FirstStop(entry, rows, side, stop, n).Some? ==>
              FirstStop(entry, rows, side, stop, m) == FirstStop(entry, rows, side, stop, n)
    decreases m
  {
    if n < m { FirstStays(entry, rows, side, tp, stop, n, m - 1); }
  }

  // ----- The classifiers -----

  /** backtest_filters: early exit on the running extrema, no timestamps. */
  method ClassifyByExtrema(rows: seq<Tick>, side: Side, tp: real, stop: real) returns (v: Verdict, value: real)
    requires tp > 0.0 && stop > 0.0
    ensures v == Reference(rows, side, tp, stop)
    ensures v == WouldTp ==> value >= tp
    ensures v == WouldStop ==> value <= -stop
    ensures v == Timeout ==> value == Favor(rows[0].mid, rows, side, |rows|) + Adverse(rows[0].mid, rows, side, |rows|)
  {
    if rows == [] { return NoData, 0.0; }
    var entry := rows[0].mid;
    if entry <= 0.0 { return NoData, 0.0; }
    var maxFavor, maxAdverse := 0.0, 0.0;
    var i := 0;
    while i < |rows|
      invariant 0 <= i <= |rows|
      invariant maxFavor == Favor(entry, rows, side, i) && maxAdverse == Adverse(entry, rows, side, i)
      invariant maxFavor < tp && Abs(maxAdverse) < stop
      invariant FirstTp(entry, rows, side, tp, i).None? && FirstStop(entry, rows, side, stop, i).None?
    {
      var mid := rows[i].mid;
      i := i + 1;
      if mid <= 0.0 { continue; }
      var bp := Bp(entry, mid, side);
      if bp > maxFavor { maxFavor := bp; }
      if bp < maxAdverse { maxAdverse := bp; }
      FirstStays(entry, rows, side, tp, stop, i, |rows|);
      if maxFavor >= tp && Abs(maxAdverse) < stop { return WouldTp, maxFavor; }
      if Abs(maxAdverse) >= stop && maxFavor < tp { return WouldStop, maxAdverse; }
    }
    if maxFavor >= tp { return WouldTp, maxFavor; }
    if Abs(maxAdverse) >= stop { return WouldStop, maxAdverse; }
    return Timeout, maxFavor + maxAdverse;
  }

  /** How many ticks that scan looks at: up to the one at which both thresholds have been hit. */
  function LookedAt(entry: real, rows: seq<Tick>, side: Side, tp: real, stop: real): (n: nat)
    requires entry > 0.0
    ensures n <= |rows|
  {
    var a, b := FirstTp(entry, rows, side, tp, |rows|), FirstStop(entry, rows, side, stop, |rows|);
    if a.Some? && b.Some? then (if a.value > b.value then a.value else b.value) + 1 else |rows|
  }

  /** Both hits are known after `n` ticks and were not before the last of them. */
  lemma LookedAtIs(entry: real, rows: seq<Tick>, side: Side, tp: real, stop: real, n: nat)
    requires entry > 0.0 && n <= |rows|
    requires n == |rows| || BothHit(entry, rows, side, tp, stop, n)
    requires n > 0 ==> !BothHit(entry, rows, side, tp, stop, n - 1)
    ensures LookedAt(entry, rows, side, tp, stop) == n
  {
    FirstStays(entry, rows, side, tp, stop, n, |rows|);
    if n > 0 { FirstStays(entry, rows, side, tp, stop, n - 1, |rows|); }
    var a, b := FirstTp(entry, rows, side, tp, |rows|), FirstStop(entry, rows, side, stop, |rows|);
    if a.Some? && b.Some? {
      HitBy(entry, rows, side, tp, stop, n);
      if n > 0 { HitBy(entry, rows, side, tp, stop, n - 1); }
    }
  }

  predicate BothHit(entry: real, rows: seq<Tick>, side: Side, tp: real, stop: real, n: nat)
    requires entry > 0.0 && n <= |rows|
  {
    FirstTp(entry, rows, side, tp, n).Some? && FirstStop(entry, rows, side, stop, n).Some?
  }

  /** A hit of the whole window is known after `n` ticks exactly when it is among them. */
  lemma HitBy(entry: real, rows: seq<Tick>, side: Side, tp: real, stop: real, n: nat)
    requires entry > 0.0 && n <= |rows|
    ensures var a := FirstTp(entry, rows, side, tp, |rows|);
      FirstTp(entry, rows, side, tp, n).Some? <==> a.Some? && a.value < n
    ensures var b := FirstStop(entry, rows, side, stop, |rows|);
      FirstStop(entry, rows, side, stop, n).Some? <==> b.Some? && b.value < n
  {
    FirstStays(entry, rows, side, tp, stop, n, |rows|);
    var a, b := FirstTp(entry, rows, side, tp, |rows|), FirstStop(entry, rows, side, stop, |rows|);
    assert a.Some? ==> TpAt(entry, rows, side, tp, a.value);
    assert b.Some? ==> StopAt(entry, rows, side, stop, b.value);
  }

  /** By then the hits are those of the whole window. */
  lemma KnownByThen(entry: real, rows: seq<Tick>, side: Side, tp: real, stop: real, n: nat)
    requires entry > 0.0 && n <= |rows|
    requires n == |rows| || BothHit(entry, rows, side, tp, stop, n)
    ensures FirstTp(entry, rows, side, tp, n) == FirstTp(entry, rows, side, tp, |rows|)
    ensures FirstStop(entry, rows, side, stop, n) == FirstStop(entry, rows, side, stop, |rows|)
  {
    FirstStays(entry, rows, side, tp, stop, n, |rows|);
  }

  /** The loop of analyze_filter_efficacy: timestamps of the first hits and the extrema so far, stopping
      once both are known. */
  method HitTimes(rows: seq<Tick>, entry: real, side: Side, tp: real, stop: real)
    returns (timeToTp: Option<int>, timeToStop: Option<int>, maxFavor: real, maxAdverse: real)
    requires tp > 0.0 && stop > 0.0 && entry > 0.0
    ensures timeToTp == Stamp(rows, FirstTp(entry, rows, side, tp, |rows|))
    ensures timeToStop == Stamp(rows, FirstStop(entry, rows, side, stop, |rows|))
    ensures var n := LookedAt(entry, rows, side, tp, stop);
      maxFavor == Favor(entry, rows, side, n) && maxAdverse == Adverse(entry, rows, side, n)
  {
    maxFavor, maxAdverse := 0.0, 0.0;
    timeToTp, timeToStop := None, None;
    var i := 0;
    while i < |rows|
      invariant 0 <= i <= |rows|
      invariant maxFavor == Favor(entry, rows, side, i) && maxAdverse == Adverse(entry, rows, side, i)
      invariant timeToTp == Stamp(rows, FirstTp(entry, rows, side, tp, i))
      invariant timeToStop == Stamp(rows, FirstStop(entry, rows, side, stop, i))
      invariant i < |rows| ==> !BothHit(entry, rows, side, tp, stop, i)
      invariant i > 0 ==> !BothHit(entry, rows, side, tp, stop, i - 1)
    {
      var tick := rows[i];
      StampNext(entry, rows, side, tp, stop, i);
      i := i + 1;
      if tick.mid <= 0.0 { continue; }
      var bp := Bp(entry, tick.mid, side);
      if bp > maxFavor { maxFavor := bp; }
      if bp < maxAdverse { maxAdverse := bp; }
      if maxFavor >= tp && timeToTp.None? { timeToTp := Some(tick.ts); }
      if maxAdverse <= -stop && timeToStop.None? { timeToStop := Some(tick.ts); }
      if timeToTp.Some? && timeToStop.Some? { break; }
    }
    KnownByThen(entry, rows, side, tp, stop, i);
    LookedAtIs(entry, rows, side, tp, stop, i);
  }

  /** analyze_filter_efficacy: whichever threshold carries the earlier timestamp, with the extrema of the
      ticks looked at. */
  method ClassifyByHitTimes(rows: seq<Tick>, side: Side, tp: real, stop: real)
    returns (v: Verdict, maxFavor: real, maxAdverse: real)
    requires tp > 0.0 && stop > 0.0
    ensures v == if rows == [] || rows[0].mid <= 0.0 then NoData else ByTime(rows[0].mid, rows, side, tp, stop)
    ensures v == NoData ==> maxFavor == 0.0 && maxAdverse == 0.0
    ensures v != NoData ==>
      var n := LookedAt(rows[0].mid, rows, side, tp, stop);
      maxFavor == Favor(rows[0].mid, rows, side, n) && maxAdverse == Adverse(rows[0].mid, rows, side, n)
  {
    if rows == [] { return NoData, 0.0, 0.0; }
    var entry := rows[0].mid;
    if entry <= 0.0 { return NoData, 0.0, 0.0; }
    var timeToTp, timeToStop, f, a := HitTimes(rows, entry, side, tp, stop);
    ByTimeFromStamps(entry, rows, side, tp, stop);
    assert ByTime(entry, rows, side, tp, stop) == Earlier(timeToTp, timeToStop);
    if timeToTp.Some? && timeToStop.Some? {
      return if timeToTp.value <= timeToStop.value then WouldTp else WouldStop, f, a;
    }
    if timeToTp.Some? { return WouldTp, f, a; }
    if timeToStop.Some? { return WouldStop, f, a; }
    return Timeout, f, a;
  }

  /** The earlier time decides, the take-profit winning ties. */
  function Earlier(tTp: Option<int>, tStop: Option<int>): Verdict {
    if tTp.Some? && (tStop.None? || tTp.value <= tStop.value) then WouldTp
    else if tStop.Some? then WouldStop
    else Timeout
  }

  lemma ByTimeFromStamps(entry: real, rows: seq<Tick>, side: Side, tp: real, stop: real)
    requires entry > 0.0
    ensures ByTime(entry, rows, side, tp, stop) ==
            Earlier(Stamp(rows, FirstTp(entry, rows, side, tp, |rows|)),
                    Stamp(rows, FirstStop(entry, rows, side, stop, |rows|)))
  {}

  /** A first hit is stamped at the tick where the running extremum first reaches its threshold. */
  lemma StampNext(entry: real, rows: seq<Tick>, side: Side, tp: real, stop: real, i: nat)
    requires entry > 0.0 && i < |rows| && tp > 0.0 && stop > 0.0
    ensures var was := Stamp(rows, FirstTp(entry, rows, side, tp, i));
      Stamp(rows, FirstTp(entry, rows, side, tp, i + 1)) ==
      if rows[i].mid > 0.0 && Favor(entry, rows, side, i + 1) >= tp && was.None? then Some(rows[i].ts) else was
    ensures var was := Stamp(rows, FirstStop(entry, rows, side, stop, i));
      Stamp(rows, FirstStop(entry, rows, side, stop, i + 1)) ==
      if rows[i].mid > 0.0 && Adverse(entry, rows, side, i + 1) <= -stop && was.None? then Some(rows[i].ts) else was
  {
    FavorReaches(entry, rows, side, tp, i);
    AdverseReaches(entry, rows, side, stop, i);
    FavorReaches(entry, rows, side, tp, i + 1);
    AdverseReaches(entry, rows, side, stop, i + 1);
  }

  function Stamp(rows: seq<Tick>, i: Option<nat>): Option<int>
    requires i.Some? ==> i.value < |rows|
  {
    if i.Some? then Some(rows[i.value].ts) else None
  }

  /** What a full scan stores about a candidate. */
  datatype Summary = Summary(favor: real, adverse: real, final: real, tTp: Option<int>, tStop: Option<int>)

  function Scan(entry: real, entryTs: int, rows: seq<Tick>, side: Side, tp: real, stop: real): Summary
    requires entry > 0.0
  {
    Summary(Favor(entry, rows, side, |rows|), Adverse(entry, rows, side, |rows|), Final(entry, rows, side, |rows|),
            Since(rows, FirstTp(entry, rows, side, tp, |rows|), entryTs),
            Since(rows, FirstStop(entry, rows, side, stop, |rows|), entryTs))
  }

  /** What a scan stores about its ticks: how long after the entry each threshold was first reached. */
  lemma StoredTimes(entry: real, entryTs: int, rows: seq<Tick>, side: Side, tp: real, stop: real, i: nat)
    requires entry > 0.0 && i < |rows|
    ensures Reaches(entry, rows[i], side, tp) && (forall j :: 0 <= j < i ==> !Reaches(entry, rows[j], side, tp)) ==>
      Scan(entry, entryTs, rows, side, tp, stop).tTp == Some(rows[i].ts - entryTs)
    ensures Falls(entry, rows[i], side, stop) && (forall j :: 0 <= j < i ==> !Falls(entry, rows[j], side, stop)) ==>
      Scan(entry, entryTs, rows, side, tp, stop).tStop == Some(rows[i].ts - entryTs)
  {
    forall j: nat | j < |rows|
      ensures TpAt(entry, rows, side, tp, j) <==> Reaches(entry, rows[j], side, tp)
      ensures StopAt(entry, rows, side, stop, j) <==> Falls(entry, rows[j], side, stop)
    {
      HitsInPrices(entry, rows, side, tp, stop, j);
    }
  }

  /** What goes to the file: the moves rounded to hundredths of a basis point. */
  function Stored(s: Summary): Summary {
    s.(favor := Round2(s.favor), adverse := Round2(s.adverse), final := Round2(s.final))
  }

  /** All three moves go to the file in hundredths, the times as they are. */
  lemma StoredInHundredths(s: Summary)
    ensures var r := Stored(s);
      && Hundredths(s.favor, r.favor) && Hundredths(s.adverse, r.adverse) && Hundredths(s.final, r.final)
      && r.tTp == s.tTp && r.tStop == s.tStop
  {
    Round2IsNear(s.favor);
    Round2IsNear(s.adverse);
    Round2IsNear(s.final);
  }

  /** How one more valid tick at move `bp`, `age` after the entry, changes a summary. */
  function Absorb(s: Summary, bp: real, age: int, tp: real, stop: real): Summary {
    Summary(Max(s.favor, bp), Min(s.adverse, bp), bp,
            if s.tTp.None? && bp >= tp then Some(age) else s.tTp,
            if s.tStop.None? && bp <= -stop then Some(age) else s.tStop)
  }

  /** The summary after the first `n` ticks, one tick at a time. */
  function Partial(entry: real, entryTs: int, rows: seq<Tick>, side: Side, tp: real, stop: real, n: nat): Summary
    requires entry > 0.0 && n <= |rows|
  {
    if n == 0 then Summary(0.0, 0.0, 0.0, None, None)
    else
      var s := Partial(entry, entryTs, rows, side, tp, stop, n - 1);
      if rows[n - 1].mid <= 0.0 then s
      else Absorb(s, Bp(entry, rows[n - 1].mid, side), rows[n - 1].ts - entryTs, tp, stop)
  }

  lemma {:induction false} PartialTp(entry: real, entryTs: int, rows: seq<Tick>, side: Side, tp: real, stop: real,
                                     n: nat)
    requires entry > 0.0 && n <= |rows|
    ensures Partial(entry, entryTs, rows, side, tp, stop, n).tTp ==
            Since(rows, FirstTp(entry, rows, side, tp, n), entryTs)
  {
    if n > 0 { PartialTp(entry, entryTs, rows, side, tp, stop, n - 1); }
  }

  lemma {:induction false} PartialStop(entry: real, entryTs: int, rows: seq<Tick>, side: Side, tp: real, stop: real,
                                       n: nat)
    requires entry > 0.0 && n <= |rows|
    ensures Partial(entry, entryTs, rows, side, tp, stop, n).tStop ==
            Since(rows, FirstStop(entry, rows, side, stop, n), entryTs)
  {
    if n > 0 { PartialStop(entry, entryTs, rows, side, tp, stop, n - 1); }
  }

  lemma {:induction false} PartialExtrema(entry: real, entryTs: int, rows: seq<Tick>, side: Side, tp: real, stop: real,
                                          n: nat)
    requires entry > 0.0 && n <= |rows|
    ensures var s := Partial(entry, entryTs, rows, side, tp, stop, n);
      && s.favor == Favor(entry, rows, side, n) && s.adverse == Adverse(entry, rows, side, n)
      && s.final == Final(entry, rows, side, n)
  {
    if n > 0 { PartialExtrema(entry, entryTs, rows, side, tp, stop, n - 1); }
  }

  lemma PartialFields(entry: real, entryTs: int, rows: seq<Tick>, side: Side, tp: real, stop: real, n: nat)
    requires entry > 0.0 && n <= |rows|
    ensures Partial(entry, entryTs, rows, side, tp, stop, n) ==
            Summary(Favor(entry, rows, side, n), Adverse(entry, rows, side, n), Final(entry, rows, side, n),
                    Since(rows, FirstTp(entry, rows, side, tp, n), entryTs),
                    Since(rows, FirstStop(entry, rows, side, stop, n), entryTs))
  {
    PartialTp(entry, entryTs, rows, side, tp, stop, n);
    PartialStop(entry, entryTs, rows, side, tp, stop, n);
    PartialExtrema(entry, entryTs, rows, side, tp, stop, n);
  }

  function Since(rows: seq<Tick>, i: Option<nat>, entryTs: int): Option<int>
    requires i.Some? ==> i.value < |rows|
  {
    if i.Some? then Some(rows[i.value].ts - entryTs) else None
  }

  /** The verdict and summary of the window that starts at `start`. */
  function ArrayScan(arr: seq<Tick>, start: nat, side: Side, tp: real, stop: real, window: int):
    (Verdict, Option<Summary>)
  {
    if start >= |arr| || arr[start].mid <= 0.0 then (NoData, None)
    else
      var entry := arr[start];
      var rows := WindowRows(arr[start..], entry.ts + window);
      (ByTime(entry.mid, rows, side, tp, stop), Some(Stored(Scan(entry.mid, entry.ts, rows, side, tp, stop))))
  }

  /** The loop of discover_filters: every valid tick up to the deadline. */
  method ScanWindow(rows: seq<Tick>, entry: real, entryTs: int, side: Side, tp: real, stop: real, deadline: int)
    returns (s: Summary)
    requires entry > 0.0
    ensures s == Scan(entry, entryTs, WindowRows(rows, deadline), side, tp, stop)
  {
    var maxFavor, maxAdverse, lastBp := 0.0, 0.0, 0.0;
    var tTp: Option<int>, tStop: Option<int> := None, None;
    var i := 0;
    while i < |rows|
      invariant 0 <= i <= |rows|
      invariant forall j :: 0 <= j < i ==> rows[j].ts <= deadline
      invariant Summary(maxFavor, maxAdverse, lastBp, tTp, tStop) == Partial(entry, entryTs, rows, side, tp, stop, i)
    {
      var tick := rows[i];
      if tick.ts > deadline { break; }
      i := i + 1;
      if tick.mid <= 0.0 { continue; }
      var bp := Bp(entry, tick.mid, side);
      lastBp := bp;
      if bp > maxFavor { maxFavor := bp; }
      if bp < maxAdverse { maxAdverse := bp; }
      if tTp.None? && bp >= tp { tTp := Some(tick.ts - entryTs); }
      if tStop.None? && bp <= -stop { tStop := Some(tick.ts - entryTs); }
    }
    WindowRowsUnique(rows, deadline, i);
    PrefixScan(entry, entryTs, rows, side, tp, stop, i);
    s := Summary(maxFavor, maxAdverse, lastBp, tTp, tStop);
  }

  /** discover_filters: one full scan of the array up to the deadline. */
  method ClassifyFromArray(arr: seq<Tick>, start: nat, side: Side, tp: real, stop: real, window: int)
    returns (v: Verdict, extras: Option<Summary>)
    ensures (v, extras) == ArrayScan(arr, start, side, tp, stop, window)
  {
    if start >= |arr| { return NoData, None; }
    var entry, entryTs := arr[start].mid, arr[start].ts;
    if entry <= 0.0 { return NoData, None; }
    var deadline := entryTs + window;
    var s := ScanWindow(arr[start..], entry, entryTs, side, tp, stop, deadline);
    extras := Some(s.(favor := Round2(s.favor), adverse := Round2(s.adverse), final := Round2(s.final)));
    ArrayScanVerdict(arr, start, side, tp, stop, window);
    ghost var spec := ArrayScan(arr, start, side, tp, stop, window);
    assert spec.0 == Earlier(s.tTp, s.tStop) && spec.1 == extras;
    if s.tTp.Some? && s.tStop.Some? {
      v := if s.tTp.value <= s.tStop.value then WouldTp else WouldStop;
    } else if s.tTp.Some? {
      v := WouldTp;
    } else if s.tStop.Some? {
      v := WouldStop;
    } else {
      v := Timeout;
    }
    assert (v, extras) == spec;
  }

  lemma ArrayScanVerdict(arr: seq<Tick>, start: nat, side: Side, tp: real, stop: real, window: int)
    requires start < |arr| && arr[start].mid > 0.0
    ensures var rows := WindowRows(arr[start..], arr[start].ts + window);
      var s := Scan(arr[start].mid, arr[start].ts, rows, side, tp, stop);
      ArrayScan(arr, start, side, tp, stop, window) == (Earlier(s.tTp, s.tStop), Some(Stored(s)))
  {
    var entry := arr[start];
    ByTimeFromTimes(entry.mid, entry.ts, WindowRows(arr[start..], entry.ts + window), side, tp, stop);
  }

  lemma {:induction false} PrefixFolds(entry: real, rows: seq<Tick>, side: Side, tp: real, stop: real, n: nat, m: nat)
    requires entry > 0.0 && m <= n <= |rows|
    ensures Favor(entry, rows[..n], side, m) == Favor(entry, rows, side, m)
    ensures Adverse(entry, rows[..n], side, m) == Adverse(entry, rows, side, m)
    ensures Final(entry, rows[..n], side, m) == Final(entry, rows, side, m)
    ensures FirstTp(entry, rows[..n], side, tp, m) == FirstTp(entry, rows, side, tp, m)
    ensures FirstStop(entry, rows[..n], side, stop, m) == FirstStop(entry, rows, side, stop, m)
    decreases m
  {
    if m > 0 { PrefixFolds(entry, rows, side, tp, stop, n, m - 1); }
  }

  lemma PrefixSince(rows: seq<Tick>, n: nat, i: Option<nat>, entryTs: int)
    requires n <= |rows| && (i.Some? ==> i.value < n)
    ensures Since(rows[..n], i, entryTs) == Since(rows, i, entryTs)
  {}

  lemma PrefixScan(entry: real, entryTs: int, rows: seq<Tick>, side: Side, tp: real, stop: real, n: nat)
    requires entry > 0.0 && n <= |rows|
    ensures Scan(entry, entryTs, rows[..n], side, tp, stop) == Partial(entry, entryTs, rows, side, tp, stop, n)
  {
    PrefixFolds(entry, rows, side, tp, stop, n, n);
    PrefixSince(rows, n, FirstTp(entry, rows, side, tp, n), entryTs);
    PrefixSince(rows, n, FirstStop(entry, rows, side, stop, n), entryTs);
    PartialFields(entry, entryTs, rows, side, tp, stop, n);
  }

  /** The stored times since entry decide like the timestamps. */
  lemma ByTimeFromTimes(entry: real, entryTs: int, rows: seq<Tick>, side: Side, tp: real, stop: real)
    requires entry > 0.0
    ensures var s := Scan(entry, entryTs, rows, side, tp, stop);
      ByTime(entry, rows, side, tp, stop) == Earlier(s.tTp, s.tStop)
  {}

  // ----- Agreement -----

  /** With strictly increasing timestamps the time-based and the position-based verdicts coincide,
      so the three classifiers agree on the same window. */
  lemma ClassifiersAgree(rows: seq<Tick>, side: Side, tp: real, stop: real)
    requires tp > 0.0 && stop > 0.0 && Increasing(rows) && rows != [] && rows[0].mid > 0.0
    ensures ByTime(rows[0].mid, rows, side, tp, stop) == Reference(rows, side, tp, stop)
  {}

  /** The array scan and the two window scans return one verdict on one window. */
  lemma OneWindowOneVerdict(arr: seq<Tick>, start: nat, side: Side, tp: real, stop: real, window: nat)
    requires tp > 0.0 && stop > 0.0 && start < |arr| && Increasing(arr[start..])
    ensures ArrayScan(arr, start, side, tp, stop, window).0 ==
            Reference(WindowRows(arr[start..], arr[start].ts + window), side, tp, stop)
  {
    var rows := WindowRows(arr[start..], arr[start].ts + window);
    assert rows[0] == arr[start..][0] == arr[start];
    WindowRowsMeaning(arr[start..], arr[start].ts + window);
    assert Increasing(rows);
    if arr[start].mid > 0.0 { ClassifiersAgree(rows, side, tp, stop); }
  }

  /** A stop and then a take-profit carry the same timestamp. */
  predicate TiedStopFirst(entry: real, rows: seq<Tick>, side: Side, tp: real, stop: real)
    requires entry > 0.0
  {
    var a, b := FirstTp(entry, rows, side, tp, |rows|), FirstStop(entry, rows, side, stop, |rows|);
    a.Some? && b.Some? && b.value < a.value && rows[a.value].ts == rows[b.value].ts
  }

  /** With timestamps that may repeat, they agree exactly when no stop is followed by the
      take-profit within one timestamp. */
  lemma ClassifiersAgreeIff(rows: seq<Tick>, side: Side, tp: real, stop: real)
    requires tp > 0.0 && stop > 0.0 && NonDecreasing(rows) && rows != [] && rows[0].mid > 0.0
    ensures ByTime(rows[0].mid, rows, side, tp, stop) == Reference(rows, side, tp, stop)
            <==> !TiedStopFirst(rows[0].mid, rows, side, tp, stop)
  {
    var e := rows[0].mid;
    var a, b := FirstTp(e, rows, side, tp, |rows|), FirstStop(e, rows, side, stop, |rows|);
    if a.Some? && b.Some? { assert TpAt(e, rows, side, tp, a.value) && StopAt(e, rows, side, stop, b.value); }
  }

  /** Ticks of one millisecond can tie, and then the scripts disagree. */
  lemma TiedTicksSplitTheClassifiers()
    ensures var rows := [Tick(0, 100.0), Tick(1, 99.0), Tick(1, 101.0)];
      && NonDecreasing(rows)
      && Reference(rows, Buy, 50.0, 50.0) == WouldStop && ByTime(100.0, rows, Buy, 50.0, 50.0) == WouldTp
  {
    var rows := [Tick(0, 100.0), Tick(1, 99.0), Tick(1, 101.0)];
    assert Bp(100.0, 100.0, Buy) == 0.0 && Bp(100.0, 99.0, Buy) == -100.0 && Bp(100.0, 101.0, Buy) == 100.0;
    assert TpAt(100.0, rows, Buy, 50.0, 2) && StopAt(100.0, rows, Buy, 50.0, 1);
    assert !TpAt(100.0, rows, Buy, 50.0, 0) && !TpAt(100.0, rows, Buy, 50.0, 1) && !StopAt(100.0, rows, Buy, 50.0, 0);
    assert FirstTp(100.0, rows, Buy, 50.0, 3) == Some(2) && FirstStop(100.0, rows, Buy, 50.0, 3) == Some(1);
  }
}
