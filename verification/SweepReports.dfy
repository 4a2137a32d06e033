/** What the sweep reports over many candidates. */
module SweepReports {
  import opened Common
  import opened OutcomeScans
  import opened Sweep

  /** A missing summary is a candidate without data. */
  function Decided(cand: Option<Summary>, tp: real, stop: real): Verdict {
    if cand.None? then NoData else OutcomeAt(cand.value, tp, stop)
  }

  /** How often the summaries decide `v`. */
  function CountOf(cands: seq<Option<Summary>>, tp: real, stop: real, v: Verdict): nat {
    if cands == [] then 0
    else
      CountOf(cands[..|cands| - 1], tp, stop, v) + if Decided(cands[|cands| - 1], tp, stop) == v then 1 else 0
  }

  lemma CountNext(cands: seq<Option<Summary>>, tp: real, stop: real, i: nat)
    requires i < |cands|
    ensures var w := Decided(cands[i], tp, stop);
      forall v :: CountOf(cands[..i + 1], tp, stop, v) == CountOf(cands[..i], tp, stop, v) + if v == w then 1 else 0
  {
    assert cands[..i + 1][..i] == cands[..i];
  }

  const FEE_BP := 8.0

  function Gross(wins: real, losses: real, tp: real, stop: real): real { wins * tp - losses * stop }

  /** Gross result less the fee of every closed trade. */
  function Net(wins: real, losses: real, tp: real, stop: real): real {
    Gross(wins, losses, tp, stop) - (wins + losses) * FEE_BP
  }

  lemma NetPerTrade(wins: real, losses: real, tp: real, stop: real)
    ensures Net(wins, losses, tp, stop) == wins * (tp - FEE_BP) - losses * (stop + FEE_BP)
  {}

  const AVG_USD := 50.0

  /** Percentage of take-profits among the decided candidates. */
  function WinRate(wins: nat, losses: nat): real {
    if wins + losses == 0 then 0.0 else wins as real / (wins + losses) as real * 100.0
  }

  method Evaluate(cands: seq<Option<Summary>>, tp: real, stop: real)
    returns (tpN: nat, stopN: nat, toN: nat, ndN: nat, wr: real, grossBp: real, netUsd: real)
    ensures tpN == CountOf(cands, tp, stop, WouldTp) && stopN == CountOf(cands, tp, stop, WouldStop)
    ensures toN == CountOf(cands, tp, stop, Timeout) && ndN == CountOf(cands, tp, stop, NoData)
    ensures tpN + stopN + toN + ndN == |cands|
    ensures wr == WinRate(tpN, stopN)
    ensures grossBp == Gross(tpN as real, stopN as real, tp, stop)
    ensures netUsd == Net(tpN as real, stopN as real, tp, stop) / 10000.0 * AVG_USD
  {
    tpN, stopN, toN, ndN := Tally(cands, tp, stop);
    wr := WinRate(tpN, stopN);
    grossBp := Gross(tpN as real, stopN as real, tp, stop);
    var netBp := grossBp - (tpN as real + stopN as real) * FEE_BP;
    netUsd := netBp / 10000.0 * AVG_USD;
  }

  /** A win rate lies between 0 and 100, at 100 exactly when every decided candidate won. */
  lemma WinRateRange(wins: nat, losses: nat)
    ensures 0.0 <= WinRate(wins, losses) <= 100.0
    ensures WinRate(wins, losses) == 100.0 <==> wins > 0 && losses == 0
    ensures WinRate(wins, losses) * (wins + losses) as real == 100.0 * wins as real
  {
    if wins + losses > 0 {
      var q, n := wins as real / (wins + losses) as real, (wins + losses) as real;
      assert q * n == wins as real;
      Portion(q, wins as real, n);
    }
  }

  lemma Portion(q: real, a: real, n: real)
    requires n > 0.0 && 0.0 <= a <= n && q * n == a
    ensures 0.0 <= q <= 1.0 && (q == 1.0 <==> a == n)
  {
    assert (1.0 - q) * n == n - a;
  }

  method Tally(cands: seq<Option<Summary>>, tp: real, stop: real) returns (tpN: nat, stopN: nat, toN: nat, ndN: nat)
    ensures tpN == CountOf(cands, tp, stop, WouldTp) && stopN == CountOf(cands, tp, stop, WouldStop)
    ensures toN == CountOf(cands, tp, stop, Timeout) && ndN == CountOf(cands, tp, stop, NoData)
    ensures tpN + stopN + toN + ndN == |cands|
  {
    tpN, stopN, toN, ndN := 0, 0, 0, 0;
    for i := 0 to |cands|
      invariant tpN == CountOf(cands[..i], tp, stop, WouldTp) && stopN == CountOf(cands[..i], tp, stop, WouldStop)
      invariant toN == CountOf(cands[..i], tp, stop, Timeout) && ndN == CountOf(cands[..i], tp, stop, NoData)
      invariant tpN + stopN + toN + ndN == i
    {
      CountNext(cands, tp, stop, i);
      match Decided(cands[i], tp, stop)
      case NoData => ndN := ndN + 1;
      case WouldTp => tpN := tpN + 1;
      case WouldStop => stopN := stopN + 1;
      case Timeout => toN := toN + 1;
    }
    assert cands[..|cands|] == cands;
  }

  // ----- The running result of deep_analysis -----

  /** A candidate's time and its summary, if it has one. */
  datatype Candidate = Candidate(ts: int, summary: Option<Summary>)

  datatype Scored = Scored(ts: int, summary: Summary)

  function WithData(cands: seq<Candidate>): seq<Scored> {
    if cands == [] then []
    else
      (if cands[0].summary.Some? then [Scored(cands[0].ts, cands[0].summary.value)] else []) + WithData(cands[1..])
  }

  /** Before the first that is not earlier: equal times keep their order. */
  function InsertByTime(x: Scored, s: seq<Scored>): seq<Scored> {
    if s == [] || x.ts <= s[0].ts then [x] + s else [s[0]] + InsertByTime(x, s[1..])
  }

  function InTimeOrder(s: seq<Scored>): seq<Scored> {
    if s == [] then [] else InsertByTime(s[0], InTimeOrder(s[1..]))
  }

  predicate TimeOrdered(s: seq<Scored>) { forall i, j :: 0 <= i < j < |s| ==> s[i].ts <= s[j].ts }

  /** The candidates of one time, in order. */
  function AtTime(s: seq<Scored>, ts: int): seq<Scored> {
    if s == [] then [] else (if s[0].ts == ts then [s[0]] else []) + AtTime(s[1..], ts)
  }

  lemma {:induction false} InsertOrdered(x: Scored, s: seq<Scored>)
    requires TimeOrdered(s)
    ensures TimeOrdered(InsertByTime(x, s)) && InsertByTime(x, s) != []
    ensures InsertByTime(x, s)[0].ts == if s != [] && s[0].ts < x.ts then s[0].ts else x.ts
  {
    if s != [] && s[0].ts < x.ts { InsertOrdered(x, s[1..]); }
  }

  lemma {:induction false} InsertStable(x: Scored, s: seq<Scored>, ts: int)
    ensures AtTime(InsertByTime(x, s), ts) == if x.ts == ts then [x] + AtTime(s, ts) else AtTime(s, ts)
  {
    if s == [] || x.ts <= s[0].ts {
      assert ([x] + s)[1..] == s;
    } else {
      InsertStable(x, s[1..], ts);
      var r := InsertByTime(x, s[1..]);
      assert ([s[0]] + r)[1..] == r;
    }
  }

  /** The sort is by time and stable: the candidates of each time are the same, in the same order. */
  lemma {:induction false} SortIsStable(s: seq<Scored>, ts: int)
    ensures TimeOrdered(InTimeOrder(s)) && AtTime(InTimeOrder(s), ts) == AtTime(s, ts)
  {
    if s != [] {
      SortIsStable(s[1..], ts);
      InsertOrdered(s[0], InTimeOrder(s[1..]));
      InsertStable(s[0], InTimeOrder(s[1..]), ts);
    }
  }

  function Summaries(s: seq<Scored>): seq<Summary> { seq(|s|, i requires 0 <= i < |s| => s[i].summary) }

  function Gain(v: Verdict, tp: real, stop: real): real {
    match v
    case WouldTp => (tp - FEE_BP) / 10000.0 * AVG_USD
    case WouldStop => -((stop + FEE_BP) / 10000.0 * AVG_USD)
    case _ => 0.0
  }

  /** The equity curve of the first `n` candidates: 0, then one point for every decided one. */
  function Curve(cands: seq<Summary>, tp: real, stop: real, n: nat): (c: seq<real>)
    requires n <= |cands|
    ensures c != []
  {
    if n == 0 then [0.0]
    else
      var c, v := Curve(cands, tp, stop, n - 1), OutcomeAt(cands[n - 1], tp, stop);
      if v == Timeout then c else c + [c[|c| - 1] + Gain(v, tp, stop)]
  }

  /** The decided candidates among the first `n`, in order. */
  function Trades(cands: seq<Summary>, tp: real, stop: real, n: nat): seq<Verdict>
    requires n <= |cands|
  {
    if n == 0 then []
    else
      var v := OutcomeAt(cands[n - 1], tp, stop);
      Trades(cands, tp, stop, n - 1) + if v == Timeout then [] else [v]
  }

  /** Each point of the curve is the one before plus the gain of its trade. */
  lemma {:induction false} CurveIsRunningSum(cands: seq<Summary>, tp: real, stop: real, n: nat)
    requires n <= |cands|
    ensures var c, t := Curve(cands, tp, stop, n), Trades(cands, tp, stop, n);
      |c| == |t| + 1 && c[0] == 0.0 && forall i :: 0 <= i < |t| ==> c[i + 1] == c[i] + Gain(t[i], tp, stop)
  {
    if n > 0 { CurveIsRunningSum(cands, tp, stop, n - 1); }
  }

  function PeakOf(c: seq<real>): real
    requires c != []
  {
    if |c| == 1 then c[0] else Max(PeakOf(c[..|c| - 1]), c[|c| - 1])
  }

  function DrawdownOf(c: seq<real>): real
    requires c != []
  {
    if |c| == 1 then 0.0 else Max(DrawdownOf(c[..|c| - 1]), PeakOf(c) - c[|c| - 1])
  }

  lemma {:induction false} PeakMeaning(c: seq<real>)
    requires c != []
    ensures forall i :: 0 <= i < |c| ==> c[i] <= PeakOf(c)
    ensures exists i :: 0 <= i < |c| && c[i] == PeakOf(c)
    decreases |c|
  {
    if |c| > 1 {
      var b := c[..|c| - 1];
      PeakMeaning(b);
      var i :| 0 <= i < |b| && b[i] == PeakOf(b);
      assert c[i] == PeakOf(b) && PeakOf(c) == Max(PeakOf(b), c[|c| - 1]);
    } else {
      assert c[0] == PeakOf(c);
    }
  }

  lemma {:induction false} DrawdownBounds(c: seq<real>, i: int, j: int)
    requires 0 <= i <= j < |c|
    ensures c[i] - c[j] <= DrawdownOf(c)
    decreases |c|
  {
    if |c| > 1 {
      PeakMeaning(c);
      if j < |c| - 1 { DrawdownBounds(c[..|c| - 1], i, j); }
    }
  }

  lemma {:induction false} DrawdownReached(c: seq<real>)
    requires c != []
    ensures exists i, j :: 0 <= i <= j < |c| && c[i] - c[j] == DrawdownOf(c)
    decreases |c|
  {
    if |c| == 1 {
      assert c[0] - c[0] == DrawdownOf(c);
    } else {
      var b, n := c[..|c| - 1], |c| - 1;
      DrawdownReached(b);
      PeakMeaning(c);
      var i, j :| 0 <= i <= j < n && b[i] - b[j] == DrawdownOf(b);
      var t :| 0 <= t < |c| && c[t] == PeakOf(c);
      assert c[i] - c[j] == DrawdownOf(b) && c[t] - c[n] == PeakOf(c) - c[n];
    }
  }

  /** The peak is the maximum of the curve and the drawdown its largest fall from one point to the
      same or a later one. */
  lemma DrawdownMeaning(c: seq<real>)
    requires c != []
    ensures (forall i :: 0 <= i < |c| ==> c[i] <= PeakOf(c)) && (exists i :: 0 <= i < |c| && c[i] == PeakOf(c))
    ensures forall i, j :: 0 <= i <= j < |c| ==> c[i] - c[j] <= DrawdownOf(c)
    ensures exists i, j :: 0 <= i <= j < |c| && c[i] - c[j] == DrawdownOf(c)
  {
    PeakMeaning(c);
    forall i, j | 0 <= i <= j < |c| ensures c[i] - c[j] <= DrawdownOf(c) {
      DrawdownBounds(c, i, j);
    }
    DrawdownReached(c);
  }

  /** How many of the first `n` candidates decide `v`. */
  function CountUpTo(cands: seq<Summary>, tp: real, stop: real, v: Verdict, n: nat): nat
    requires n <= |cands|
  {
    if n == 0 then 0
    else CountUpTo(cands, tp, stop, v, n - 1) + if OutcomeAt(cands[n - 1], tp, stop) == v then 1 else 0
  }

  /** What the report says of candidates in time order. */
  datatype Report = Report(final: real, peak: real, maxDd: real, wins: nat, losses: nat, trajectory: seq<real>)

  /** deep_analysis: candidates without data are dropped, the others taken in time order. */
  method EvaluateCumulative(cands: seq<Candidate>, tp: real, stop: real) returns (r: Report)
    ensures var s := Summaries(InTimeOrder(WithData(cands)));
      var c := Curve(s, tp, stop, |s|);
      && [0.0] + r.trajectory == c && r.final == c[|c| - 1] && r.peak == PeakOf(c) && r.maxDd == DrawdownOf(c)
      && r.wins == CountUpTo(s, tp, stop, WouldTp, |s|) && r.losses == CountUpTo(s, tp, stop, WouldStop, |s|)
  {
    r := RunningResult(Summaries(InTimeOrder(WithData(cands))), tp, stop);
  }

  function AddPoint(r: Report, x: real): Report {
    var peak := Max(r.peak, x);
    r.(final := x, peak := peak, maxDd := Max(r.maxDd, peak - x), trajectory := r.trajectory + [x])
  }

  function Counted(r: Report, v: Verdict): Report {
    if v == WouldTp then r.(wins := r.wins + 1) else r.(losses := r.losses + 1)
  }

  function Advance(r: Report, v: Verdict, gain: real): Report {
    if v == Timeout then r else Counted(AddPoint(r, r.final + gain), v)
  }

  function ReportUpTo(s: seq<Summary>, tp: real, stop: real, n: nat): Report
    requires n <= |s|
  {
    if n == 0 then Report(0.0, 0.0, 0.0, 0, 0, [])
    else
      var v := OutcomeAt(s[n - 1], tp, stop);
      Advance(ReportUpTo(s, tp, stop, n - 1), v, Gain(v, tp, stop))
  }

  /** The loop over the candidates in time order. */
  method RunningResult(s: seq<Summary>, tp: real, stop: real) returns (r: Report)
    ensures var c := Curve(s, tp, stop, |s|);
      && [0.0] + r.trajectory == c && r.final == c[|c| - 1] && r.peak == PeakOf(c) && r.maxDd == DrawdownOf(c)
      && r.wins == CountUpTo(s, tp, stop, WouldTp, |s|) && r.losses == CountUpTo(s, tp, stop, WouldStop, |s|)
  {
    var final, peak, maxDd := 0.0, 0.0, 0.0;
    var wins, losses: nat, trajectory: seq<real> := 0, 0, [];
    for k := 0 to |s|
      invariant Report(final, peak, maxDd, wins, losses, trajectory) == ReportUpTo(s, tp, stop, k)
    {
      var v := OutcomeAt(s[k], tp, stop);
      if v == WouldTp {
        final, wins := final + (tp - FEE_BP) / 10000.0 * AVG_USD, wins + 1;
      } else if v == WouldStop {
        final, losses := final - (stop + FEE_BP) / 10000.0 * AVG_USD, losses + 1;
      } else {
        continue;
      }
      peak := Max(peak, final);
      maxDd := Max(maxDd, peak - final);
      trajectory := trajectory + [final];
    }
    r := Report(final, peak, maxDd, wins, losses, trajectory);
    ReportIsCurve(s, tp, stop, |s|);
    CountsAreCounts(s, tp, stop, |s|);
  }

  lemma {:induction false} CountsAreCounts(s: seq<Summary>, tp: real, stop: real, n: nat)
    requires n <= |s|
    ensures var r := ReportUpTo(s, tp, stop, n);
      r.wins == CountUpTo(s, tp, stop, WouldTp, n) && r.losses == CountUpTo(s, tp, stop, WouldStop, n)
  {
    if n > 0 { CountsAreCounts(s, tp, stop, n - 1); }
  }

  predicate Shows(r: Report, c: seq<real>)
    requires c != []
  {
    [0.0] + r.trajectory == c && r.final == c[|c| - 1] && r.peak == PeakOf(c) && r.maxDd == DrawdownOf(c)
  }

  lemma AddPointShows(r: Report, c: seq<real>, x: real)
    requires c != [] && Shows(r, c)
    ensures Shows(AddPoint(r, x), c + [x])
  {
    PointAdded(c, x);
    assert [0.0] + (r.trajectory + [x]) == [0.0] + r.trajectory + [x];
  }

  lemma AdvanceShows(r: Report, c: seq<real>, v: Verdict, gain: real)
    requires c != [] && Shows(r, c)
    ensures Shows(Advance(r, v, gain), if v == Timeout then c else c + [c[|c| - 1] + gain])
  {
    AddPointShows(r, c, r.final + gain);
  }

  lemma {:induction false} ReportIsCurve(s: seq<Summary>, tp: real, stop: real, n: nat)
    requires n <= |s|
    ensures Shows(ReportUpTo(s, tp, stop, n), Curve(s, tp, stop, n))
  {
    if n > 0 {
      var r, c, v := ReportUpTo(s, tp, stop, n - 1), Curve(s, tp, stop, n - 1), OutcomeAt(s[n - 1], tp, stop);
      ReportIsCurve(s, tp, stop, n - 1);
      AdvanceShows(r, c, v, Gain(v, tp, stop));
    }
  }

  lemma PointAdded(c: seq<real>, x: real)
    requires c != []
    ensures PeakOf(c + [x]) == Max(PeakOf(c), x)
    ensures DrawdownOf(c + [x]) == Max(DrawdownOf(c), Max(PeakOf(c), x) - x)
  {
    assert (c + [x])[..|c|] == c;
  }

  /** What `w` take-profits and `l` stops are worth in basis points after 8 bp of fees each. */
  function AfterFees(w: nat, l: nat, tp: real, stop: real): real { w as real * (tp - 8.0) - l as real * (stop + 8.0) }

  lemma OneMoreTrade(w: nat, l: nat, tp: real, stop: real, end: real)
    requires 200.0 * end == AfterFees(w, l, tp, stop)
    ensures 200.0 * (end + Gain(WouldTp, tp, stop)) == AfterFees(w + 1, l, tp, stop)
    ensures 200.0 * (end + Gain(WouldStop, tp, stop)) == AfterFees(w, l + 1, tp, stop)
  {
    assert (w + 1) as real * (tp - 8.0) == w as real * (tp - 8.0) + (tp - 8.0);
    assert (l + 1) as real * (stop + 8.0) == l as real * (stop + 8.0) + (stop + 8.0);
  }

  function CurveEnd(s: seq<Summary>, tp: real, stop: real, n: nat): real
    requires n <= |s|
  {
    Curve(s, tp, stop, n)[|Curve(s, tp, stop, n)| - 1]
  }

  lemma CurveEndNext(s: seq<Summary>, tp: real, stop: real, n: nat)
    requires n < |s|
    ensures var v := OutcomeAt(s[n], tp, stop);
      && v != NoData
      && CurveEnd(s, tp, stop, n + 1) == CurveEnd(s, tp, stop, n) + if v == Timeout then 0.0 else Gain(v, tp, stop)
  {}

  lemma {:induction false} CurveEndIsWorth(s: seq<Summary>, tp: real, stop: real, n: nat)
    requires n <= |s|
    ensures 200.0 * CurveEnd(s, tp, stop, n) ==
            AfterFees(CountUpTo(s, tp, stop, WouldTp, n), CountUpTo(s, tp, stop, WouldStop, n), tp, stop)
  {
    if n > 0 {
      CurveEndIsWorth(s, tp, stop, n - 1);
      CurveEndNext(s, tp, stop, n - 1);
      OneMoreTrade(CountUpTo(s, tp, stop, WouldTp, n - 1), CountUpTo(s, tp, stop, WouldStop, n - 1), tp, stop,
                   CurveEnd(s, tp, stop, n - 1));
    }
  }

  lemma NetIsWorth(w: nat, l: nat, tp: real, stop: real)
    ensures Net(w as real, l as real, tp, stop) / 10000.0 * AVG_USD == AfterFees(w, l, tp, stop) / 200.0
  {
    NetPerTrade(w as real, l as real, tp, stop);
    assert Net(w as real, l as real, tp, stop) == AfterFees(w, l, tp, stop);
  }

  /** The two reports agree: the running result of deep_analysis ends at what its counts are worth at 50
      dollars a trade, which is the net result the sweep gives for those counts. */
  lemma CurveEndsAtNet(s: seq<Summary>, tp: real, stop: real, n: nat, w: nat, l: nat)
    requires n <= |s| && w == CountUpTo(s, tp, stop, WouldTp, n) && l == CountUpTo(s, tp, stop, WouldStop, n)
    ensures CurveEnd(s, tp, stop, n) == AfterFees(w, l, tp, stop) / 200.0
    ensures CurveEnd(s, tp, stop, n) == Net(w as real, l as real, tp, stop) / 10000.0 * AVG_USD
  {
    CurveEndIsWorth(s, tp, stop, n);
    NetIsWorth(w, l, tp, stop);
  }
}
