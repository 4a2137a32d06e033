/** The one-pass scorer that reports running extrema at several deadlines at once. */
module MultiWindow {
  import opened Common
  import opened TickScan

  datatype Stats = Stats(favor: real, adverse: real, final: real)

  function StatsAt(entry: real, rows: seq<Tick>, side: Side, n: nat): Stats
    requires entry > 0.0 && n <= |rows|
  {
    Stats(Favor(entry, rows, side, n), Adverse(entry, rows, side, n), Final(entry, rows, side, n))
  }

  /** What is reported: each move rounded to hundredths. */
  function Rounded(s: Stats): Stats { Stats(Round2(s.favor), Round2(s.adverse), Round2(s.final)) }

  lemma ReportedInHundredths(s: Stats)
    ensures var r := Rounded(s);
      Hundredths(s.favor, r.favor) && Hundredths(s.adverse, r.adverse) && Hundredths(s.final, r.final)
  {
    Round2IsNear(s.favor);
    Round2IsNear(s.adverse);
    Round2IsNear(s.final);
  }

  // ----- sorted() on the window lengths -----

  predicate Sorted(ws: seq<int>) {
    forall i, j :: 0 <= i < j < |ws| ==> ws[i] <= ws[j]
  }

  function Insert(w: int, ws: seq<int>): (r: seq<int>)
    ensures |r| == |ws| + 1
  {
    if ws == [] || w <= ws[0] then [w] + ws else [ws[0]] + Insert(w, ws[1..])
  }

  function SortedWindows(ws: seq<int>): (r: seq<int>)
    ensures |r| == |ws|
  {
    if ws == [] then [] else Insert(ws[0], SortedWindows(ws[1..]))
  }

  lemma {:induction false} InsertKeeps(w: int, ws: seq<int>)
    ensures multiset(Insert(w, ws)) == multiset(ws) + multiset{w}
  {
    if ws != [] {
      assert ws == [ws[0]] + ws[1..];
      if !(w <= ws[0]) { InsertKeeps(w, ws[1..]); }
    }
  }

  lemma {:induction false} InsertSorts(w: int, ws: seq<int>)
    requires Sorted(ws)
    ensures Sorted(Insert(w, ws)) && Insert(w, ws)[0] == if ws != [] && ws[0] < w then ws[0] else w
  {
    if ws != [] && ws[0] < w { InsertSorts(w, ws[1..]); }
  }

  lemma {:induction false} SortSorts(ws: seq<int>)
    ensures Sorted(SortedWindows(ws)) && multiset(SortedWindows(ws)) == multiset(ws)
  {
    if ws != [] {
      SortSorts(ws[1..]);
      InsertKeeps(ws[0], SortedWindows(ws[1..]));
      InsertSorts(ws[0], SortedWindows(ws[1..]));
      assert ws == [ws[0]] + ws[1..];
    }
  }

  lemma WindowsSorted(ws: seq<int>)
    ensures Sorted(SortedWindows(ws))
  {
    SortSorts(ws);
  }

  lemma SameMembers(ws: seq<int>, w: int)
    ensures w in SortedWindows(ws) <==> w in ws
  {
    SortSorts(ws);
    assert w in multiset(SortedWindows(ws)) <==> w in multiset(ws);
  }

  function Longest(ws: seq<int>): int
    requires ws != []
  {
    if |ws| == 1 then ws[0]
    else
      var rest := Longest(ws[1..]);
      if ws[0] > rest then ws[0] else rest
  }

  lemma {:induction false} LongestIsMax(ws: seq<int>)
    requires ws != []
    ensures Longest(ws) in ws && forall w :: w in ws ==> w <= Longest(ws)
  {
    if |ws| > 1 {
      LongestIsMax(ws[1..]);
      assert forall w :: w in ws ==> w == ws[0] || w in ws[1..];
    }
  }

  lemma LastIsUpper(s: seq<int>, w: int)
    requires Sorted(s) && w in s
    ensures w <= s[|s| - 1]
  {
    var i :| 0 <= i < |s| && s[i] == w;
  }

  /** The last of the sorted windows is the longest. */
  lemma LastIsLongest(ws: seq<int>)
    requires ws != []
    ensures SortedWindows(ws)[|SortedWindows(ws)| - 1] == Longest(ws)
  {
    var sorted := SortedWindows(ws);
    var last := sorted[|sorted| - 1];
    LongestIsMax(ws);
    WindowsSorted(ws);
    assert last in sorted;
    SameMembers(ws, last);
    SameMembers(ws, Longest(ws));
    LastIsUpper(sorted, Longest(ws));
  }

  // ----- One window on its own -----

  predicate Crosses(t: Tick, deadline: int) { t.mid > 0.0 && t.ts > deadline }

  /** How many ticks one window's own scan folds: up to and including the first valid tick
      strictly past its deadline, or all of them. */
  function CutLen(rows: seq<Tick>, deadline: int): (n: nat)
    ensures n <= |rows|
  {
    if rows == [] then 0 else if Crosses(rows[0], deadline) then 1 else 1 + CutLen(rows[1..], deadline)
  }

  lemma {:induction false} CutLenMeaning(rows: seq<Tick>, deadline: int)
    ensures var n := CutLen(rows, deadline);
      && (forall i :: 0 <= i < n - 1 ==> !Crosses(rows[i], deadline))
      && (n < |rows| ==> n > 0 && Crosses(rows[n - 1], deadline))
  {
    if rows != [] && !Crosses(rows[0], deadline) {
      CutLenMeaning(rows[1..], deadline);
      var n := CutLen(rows[1..], deadline);
      assert forall i :: 0 < i < n ==> rows[i] == rows[1..][i - 1];
    }
  }

  /** Those conditions, and a cut that is not needlessly long, determine it. */
  lemma CutLenUnique(rows: seq<Tick>, deadline: int, n: nat)
    requires n <= |rows| && (forall i :: 0 <= i < n - 1 ==> !Crosses(rows[i], deadline))
    requires if n < |rows| then n > 0 && Crosses(rows[n - 1], deadline) else true
    ensures CutLen(rows, deadline) == n
  {
    var m := CutLen(rows, deadline);
    CutLenMeaning(rows, deadline);
    assert !(m < n) && !(n < m);
  }

  /** What a window on its own gives. */
  function OwnScan(entry: real, entryTs: int, rows: seq<Tick>, side: Side, w: int): Stats
    requires entry > 0.0
  {
    Rounded(StatsAt(entry, rows, side, CutLen(rows, entryTs + w)))
  }

  /** One entry per window, the rounded result of that window's own scan. */
  function Table(windows: seq<int>, entry: Tick, rows: seq<Tick>, side: Side): map<int, Stats>
    requires entry.mid > 0.0
  {
    map w | w in windows :: OwnScan(entry.mid, entry.ts, rows, side, w)
  }

  lemma ReportNext(table: map<int, Stats>, sorted: seq<int>, checkpoint: nat, entry: real, entryTs: int,
                   rows: seq<Tick>, side: Side, stats: Stats)
    requires entry > 0.0 && checkpoint < |sorted|
    requires Reported(table, sorted, checkpoint, entry, entryTs, rows, side)
    requires stats == StatsAt(entry, rows, side, CutLen(rows, entryTs + sorted[checkpoint]))
    ensures Reported(table[sorted[checkpoint] := Rounded(stats)], sorted, checkpoint + 1, entry, entryTs, rows, side)
  {
    assert sorted[..checkpoint + 1] == sorted[..checkpoint] + [sorted[checkpoint]];
  }

  /** Report the windows whose deadline `ts` is past, or all that remain when the data has ended. */
  method ReportPassed(table: map<int, Stats>, sorted: seq<int>, checkpoint: nat, ts: Option<int>, stats: Stats,
                      entry: real, entryTs: int, ghost rows: seq<Tick>, ghost n: nat, side: Side)
    returns (table': map<int, Stats>, checkpoint': nat)
    requires entry > 0.0 && checkpoint <= |sorted| && n <= |rows| && stats == StatsAt(entry, rows, side, n)
    requires Reported(table, sorted, checkpoint, entry, entryTs, rows, side)
    requires if ts.Some? then n > 0 && rows[n - 1].ts == ts.value && rows[n - 1].mid > 0.0 else n == |rows|
    requires NotCrossed(rows, if ts.Some? then n - 1 else n, sorted, checkpoint, entryTs)
    ensures checkpoint <= checkpoint' <= |sorted|
    ensures Reported(table', sorted, checkpoint', entry, entryTs, rows, side)
    ensures if checkpoint' == |sorted| then true else ts.Some? && ts.value <= entryTs + sorted[checkpoint']
  {
    table', checkpoint' := table, checkpoint;
    while checkpoint' < |sorted| && (ts.None? || ts.value > entryTs + sorted[checkpoint'])
      invariant checkpoint <= checkpoint' <= |sorted|
      invariant Reported(table', sorted, checkpoint', entry, entryTs, rows, side)
    {
      CutLenUnique(rows, entryTs + sorted[checkpoint'], n);
      ReportNext(table', sorted, checkpoint', entry, entryTs, rows, side, stats);
      table' := table'[sorted[checkpoint'] := Rounded(stats)];
      checkpoint' := checkpoint' + 1;
    }
  }

  lemma SameMap(m: map<int, Stats>, n: map<int, Stats>)
    requires (forall w :: w in m <==> w in n) && forall w :: w in m ==> m[w] == n[w]
    ensures m == n
  {
    assert m.Keys <= n.Keys by {
      forall w | w in m.Keys ensures w in n.Keys { assert w in m <==> w in n; }
    }
    assert n.Keys <= m.Keys by {
      forall w | w in n.Keys ensures w in m.Keys { assert w in m <==> w in n; }
    }
    assert m.Keys == n.Keys;
    assert forall w | w in m :: m[w] == n[w];
  }

  lemma ReportedIsTable(table: map<int, Stats>, windows: seq<int>, sorted: seq<int>, entry: Tick, rows: seq<Tick>,
                        side: Side)
    requires entry.mid > 0.0 && sorted == SortedWindows(windows)
    requires Reported(table, sorted, |sorted|, entry.mid, entry.ts, rows, side)
    ensures table == Table(windows, entry, rows, side)
  {
    assert sorted[..|sorted|] == sorted;
    var t := Table(windows, entry, rows, side);
    forall w ensures w in table <==> w in t { SameMembers(windows, w); }
    SameMap(table, t);
  }

  /** From the tick of the entry on, with a positive mid. */
  method ScanFromEntry(all: seq<Tick>, entry: Tick, side: Side, windows: seq<int>) returns (table: map<int, Stats>)
    requires windows != [] && entry.mid > 0.0
    ensures table == Table(windows, entry, WindowRows(all, entry.ts + Longest(windows)), side)
  {
    var sorted, longest := SortedWindows(windows), Longest(windows);
    WindowsSorted(windows);
    LastIsLongest(windows);
    table := OnePass(all, entry.mid, entry.ts, side, sorted, longest);
    ReportedIsTable(table, windows, sorted, entry, WindowRows(all, entry.ts + longest), side);
  }

  /** The one-pass scan refines one independent scan per window. */
  method SnapshotAtCheckpoints(arr: seq<Tick>, start: nat, side: Side, windows: seq<int>)
    returns (out: Option<map<int, Stats>>)
    requires windows != []
    ensures out.Some? <==> start < |arr| && arr[start].mid > 0.0
    ensures out.Some? ==>
      out.value == Table(windows, arr[start], WindowRows(arr[start..], arr[start].ts + Longest(windows)), side)
  {
    if start >= |arr| || arr[start].mid <= 0.0 { return None; }
    var table := ScanFromEntry(arr[start..], arr[start], side, windows);
    out := Some(table);
  }

  lemma WindowStep(all: seq<Tick>, deadline: int, i: nat)
    requires i < |all| && i <= |WindowRows(all, deadline)|
    ensures var rows := WindowRows(all, deadline);
      if all[i].ts > deadline then i == |rows| else i < |rows| && rows[i] == all[i]
  {
    WindowRowsMeaning(all, deadline);
  }

  method OnePass(all: seq<Tick>, entry: real, entryTs: int, side: Side, sorted: seq<int>, longest: int)
    returns (table: map<int, Stats>)
    requires entry > 0.0 && sorted != [] && Sorted(sorted) && longest == sorted[|sorted| - 1]
    ensures Reported(table, sorted, |sorted|, entry, entryTs, WindowRows(all, entryTs + longest), side)
  {
    ghost var rows := WindowRows(all, entryTs + longest);
    table := map[];
    var maxF, maxA, lastBp := 0.0, 0.0, 0.0;
    var checkpoint := 0;
    var i := 0;
    while i < |all|
      invariant 0 <= i <= |rows| && 0 <= checkpoint <= |sorted|
      invariant Stats(maxF, maxA, lastBp) == StatsAt(entry, rows, side, i)
      invariant Reported(table, sorted, checkpoint, entry, entryTs, rows, side)
      invariant NotCrossed(rows, i, sorted, checkpoint, entryTs)
    {
      var tick := all[i];
      WindowStep(all, entryTs + longest, i);
      if tick.ts > entryTs + longest { break; }
      assert i < |rows| && rows[i] == tick;
      i := i + 1;
      if tick.mid <= 0.0 { continue; }
      var bp := Bp(entry, tick.mid, side);
      lastBp := bp;
      if bp > maxF { maxF := bp; }
      if bp < maxA { maxA := bp; }
      ghost var before := checkpoint;
      table, checkpoint := ReportPassed(table, sorted, checkpoint, Some(tick.ts), Stats(maxF, maxA, lastBp),
                                        entry, entryTs, rows, i, side);
      StillAhead(rows, i, sorted, before, checkpoint, entryTs);
    }
    assert i == |rows|;
    table, checkpoint := ReportPassed(table, sorted, checkpoint, None, Stats(maxF, maxA, lastBp),
                                      entry, entryTs, rows, i, side);
  }

  /** The deadlines not yet reported are not passed by the tick just folded either. */
  lemma StillAhead(rows: seq<Tick>, n: nat, sorted: seq<int>, before: nat, checkpoint: nat, entryTs: int)
    requires 0 < n <= |rows| && before <= checkpoint <= |sorted| && Sorted(sorted)
    requires NotCrossed(rows, n - 1, sorted, before, entryTs)
    requires checkpoint < |sorted| ==> rows[n - 1].ts <= entryTs + sorted[checkpoint]
    ensures NotCrossed(rows, n, sorted, checkpoint, entryTs)
  {
    forall k, j | checkpoint <= k < |sorted| && 0 <= j < n ensures !Crosses(rows[j], entryTs + sorted[k]) {
      assert sorted[checkpoint] <= sorted[k];
    }
  }

  /** The windows before `checkpoint` are reported, each with its own scan's result. */
  ghost predicate Reported(table: map<int, Stats>, sorted: seq<int>, checkpoint: nat, entry: real, entryTs: int,
                           rows: seq<Tick>, side: Side)
    requires entry > 0.0 && checkpoint <= |sorted|
  {
    && (forall w :: w in table <==> w in sorted[..checkpoint])
    && (forall w :: w in table ==> table[w] == OwnScan(entry, entryTs, rows, side, w))
  }

  /** None of the first `n` ticks crosses a deadline still to be reported. */
  predicate NotCrossed(rows: seq<Tick>, n: int, sorted: seq<int>, checkpoint: nat, entryTs: int)
    requires n <= |rows|
  {
    forall k, j :: checkpoint <= k < |sorted| && 0 <= j < n ==> !Crosses(rows[j], entryTs + sorted[k])
  }

  // ----- What the reported numbers mean -----

  lemma {:induction false} FoldsMonotone(entry: real, rows: seq<Tick>, side: Side, n: nat, m: nat)
    requires entry > 0.0 && n <= m <= |rows|
    ensures Favor(entry, rows, side, n) <= Favor(entry, rows, side, m)
    ensures Adverse(entry, rows, side, n) >= Adverse(entry, rows, side, m)
    decreases m
  {
    if n < m { FoldsMonotone(entry, rows, side, n, m - 1); }
  }

  lemma CutLenMonotone(rows: seq<Tick>, d1: int, d2: int)
    requires d1 <= d2
    ensures CutLen(rows, d1) <= CutLen(rows, d2)
  {
    var n, m := CutLen(rows, d1), CutLen(rows, d2);
    CutLenMeaning(rows, d1);
    CutLenMeaning(rows, d2);
    assert !(m < n);
  }

  /** Across sorted windows the favourable extremum never falls and the adverse one never rises. */
  lemma ExtremaWiden(entry: Tick, rows: seq<Tick>, side: Side, w1: int, w2: int)
    requires entry.mid > 0.0 && w1 <= w2
    ensures var s1 := StatsAt(entry.mid, rows, side, CutLen(rows, entry.ts + w1));
      var s2 := StatsAt(entry.mid, rows, side, CutLen(rows, entry.ts + w2));
      && s1.favor <= s2.favor && s1.adverse >= s2.adverse
      && Rounded(s1).favor <= Rounded(s2).favor && Rounded(s1).adverse >= Rounded(s2).adverse
  {
    CutLenMonotone(rows, entry.ts + w1, entry.ts + w2);
    var n1, n2 := CutLen(rows, entry.ts + w1), CutLen(rows, entry.ts + w2);
    FoldsMonotone(entry.mid, rows, side, n1, n2);
    Round2Monotone(Favor(entry.mid, rows, side, n1), Favor(entry.mid, rows, side, n2));
    Round2Monotone(Adverse(entry.mid, rows, side, n2), Adverse(entry.mid, rows, side, n1));
  }

  /** The longest window is exact: it folds every tick inside it. */
  lemma LongestWindowIsExact(all: seq<Tick>, deadline: int)
    ensures CutLen(WindowRows(all, deadline), deadline) == |WindowRows(all, deadline)|
  {
    WindowRowsMeaning(all, deadline);
    CutLenUnique(WindowRows(all, deadline), deadline, |WindowRows(all, deadline)|);
  }

  /** The first valid tick past the deadline, if any, which the window folds although it is late. */
  function Overshoot(rows: seq<Tick>, deadline: int): Option<Tick> {
    var n := CutLen(rows, deadline);
    if n > 0 && Crosses(rows[n - 1], deadline) then Some(rows[n - 1]) else None
  }

  lemma {:induction false} SkipInvalid(entry: real, rows: seq<Tick>, side: Side, n: nat, m: nat)
    requires entry > 0.0 && n <= m <= |rows| && forall i :: n <= i < m ==> rows[i].mid <= 0.0
    ensures StatsAt(entry, rows, side, m) == StatsAt(entry, rows, side, n)
    decreases m
  {
    if n < m { SkipInvalid(entry, rows, side, n, m - 1); }
  }

  lemma TailIsLate(rows: seq<Tick>, deadline: int)
    requires NonDecreasing(rows)
    ensures forall i :: 0 <= i < |rows| ==> (i < |WindowRows(rows, deadline)| <==> rows[i].ts <= deadline)
  {
    WindowRowsMeaning(rows, deadline);
  }

  /** For ticks in time order, a window reports its exact extrema and final move, with at most one
      late tick folded in; so a reported extremum is exact if and only if that tick does not beat it. */
  lemma ReportedVersusExact(entry: real, rows: seq<Tick>, side: Side, deadline: int)
    requires entry > 0.0 && NonDecreasing(rows)
    ensures var inside := |WindowRows(rows, deadline)|;
      var exact := StatsAt(entry, rows, side, inside);
      var reported := StatsAt(entry, rows, side, CutLen(rows, deadline));
      match Overshoot(rows, deadline)
      case None => reported == exact
      case Some(late) =>
        var bp := Bp(entry, late.mid, side);
        && reported == Stats(Max(exact.favor, bp), Min(exact.adverse, bp), bp)
        && (reported.favor == exact.favor <==> bp <= exact.favor)
        && (reported.adverse == exact.adverse <==> bp >= exact.adverse)
  {
    var inside := |WindowRows(rows, deadline)|;
    var n := CutLen(rows, deadline);
    CutLenMeaning(rows, deadline);
    TailIsLate(rows, deadline);
    match Overshoot(rows, deadline)
    case None =>
      assert n == |rows|;
      assert forall i :: inside <= i < n ==> !Crosses(rows[i], deadline);
      SkipInvalid(entry, rows, side, inside, n);
    case Some(late) =>
      assert inside <= n - 1;
      assert forall i :: inside <= i < n - 1 ==> !Crosses(rows[i], deadline);
      SkipInvalid(entry, rows, side, inside, n - 1);
  }

  /** A late tick does change what a short window reports. */
  lemma LateTickIsFolded()
    ensures var rows := [Tick(0, 100.0), Tick(70000, 102.0)];
      && StatsAt(100.0, rows, Buy, CutLen(rows, 60000)).favor == 200.0
      && StatsAt(100.0, rows, Buy, |WindowRows(rows, 60000)|).favor == 0.0
  {
    var rows := [Tick(0, 100.0), Tick(70000, 102.0)];
    CutLenUnique(rows, 60000, 2);
    WindowRowsUnique(rows, 60000, 1);
    assert Bp(100.0, 100.0, Buy) == 0.0 && Bp(100.0, 102.0, Buy) == 200.0;
    assert Favor(100.0, rows, Buy, 1) == 0.0;
  }
}
