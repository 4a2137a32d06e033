/** The two sliding-window order throttles: the 60-second list of the latency bot and the bounded
    queue of the stat-arb bot. */
module Throttle {
  import opened Common

  predicate Sorted(s: seq<real>) { forall i, j :: 0 <= i < j < |s| ==> s[i] <= s[j] }

  /** Any `limit` + 1 consecutive opens take at least, or strictly more than, `period`. */
  predicate Spaced(opens: seq<real>, limit: nat, period: real, strict: bool) {
    forall i, j :: 0 <= i < |opens| && 0 <= j < |opens| && j == i + limit ==>
      if strict then opens[j] - opens[i] > period else opens[j] - opens[i] >= period
  }

  /** The opens in a window that includes its start, and its end only when `closed`. */
  function InWindow(opens: seq<real>, start: real, period: real, closed: bool): set<int> {
    set i | 0 <= i < |opens| && start <= opens[i] &&
            (if closed then opens[i] <= start + period else opens[i] < start + period)
  }

  lemma IntervalSize(s: set<int>, lo: int, n: nat)
    requires forall i :: i in s ==> lo <= i < lo + n
    ensures |s| <= n
  {
    if n > 0 {
      IntervalSize(s - {lo + n - 1}, lo, n - 1);
    } else {
      assert s == {} by { assert forall i :: i !in s; }
    }
  }

  /** Spacing is the same thing as a bound on every window. */
  lemma SpacingBoundsEveryWindow(opens: seq<real>, limit: nat, period: real, strict: bool, start: real)
    requires Sorted(opens) && Spaced(opens, limit, period, strict) && period > 0.0
    ensures |InWindow(opens, start, period, strict)| <= limit
  {
    var s := InWindow(opens, start, period, strict);
    if i :| i in s {
      var lo := Lowest(opens, s, i);
      forall j | j in s ensures lo <= j < lo + limit { FarApart(opens, limit, period, strict, lo, j); }
      IntervalSize(s, lo, limit);
    }
  }

  lemma FarApart(opens: seq<real>, limit: nat, period: real, strict: bool, i: int, j: int)
    requires Sorted(opens) && Spaced(opens, limit, period, strict)
    ensures 0 <= i && i + limit <= j < |opens| ==>
      if strict then opens[j] - opens[i] > period else opens[j] - opens[i] >= period
  {
    if 0 <= i && i + limit < j < |opens| { assert opens[i + limit] <= opens[j]; }
  }

  lemma AppendEnd(opens: seq<real>, kept: seq<real>, bound: real, strict: bool, x: real)
    requires IsEnd(opens, kept, bound, strict)
    ensures IsEnd(opens + [x], kept + [x], bound, strict)
  {
    assert kept + [x] == (opens + [x])[|opens| - |kept|..];
  }

  lemma AppendSorted(opens: seq<real>, last: real, x: real)
    requires Sorted(opens) && (forall i :: 0 <= i < |opens| ==> opens[i] <= last) && last <= x
    ensures Sorted(opens + [x]) && forall i :: 0 <= i < |opens| + 1 ==> (opens + [x])[i] <= x
  {}

  /** Appending keeps the spacing when fewer than `limit` opens are within reach of the new one. */
  lemma AppendSpaced(opens: seq<real>, dropped: nat, limit: nat, period: real, strict: bool, x: real)
    requires dropped <= |opens| && |opens| - dropped < limit
    requires forall i :: 0 <= i < dropped ==> if strict then x - opens[i] > period else x - opens[i] >= period
    ensures Spaced(opens, limit, period, strict) ==> Spaced(opens + [x], limit, period, strict)
  {
    if !Spaced(opens, limit, period, strict) { return; }
    var next := opens + [x];
    forall i, j | 0 <= i < |next| && 0 <= j < |next| && j == i + limit
      ensures if strict then next[j] - next[i] > period else next[j] - next[i] >= period
    {
      if j < |opens| { assert next[j] == opens[j] && next[i] == opens[i]; }
    }
  }

  predicate Past(x: real, bound: real, strict: bool) { if strict then x < bound else x <= bound }

  /** The list is the end of the opens; everything before it is past the bound. */
  predicate IsEnd(opens: seq<real>, times: seq<real>, bound: real, strict: bool) {
    && |times| <= |opens| && times == opens[|opens| - |times|..]
    && forall i :: 0 <= i < |opens| - |times| ==> Past(opens[i], bound, strict)
  }

  /** Dropping a prefix of that end leaves an end. */
  lemma DropMore(opens: seq<real>, times: seq<real>, kept: seq<real>, bound: real, bound': real, strict: bool)
    requires IsEnd(opens, times, bound, strict) && IsEnd(times, kept, bound', strict) && bound <= bound'
    ensures IsEnd(opens, kept, bound', strict)
  {
    var off := |opens| - |times|;
    forall i | 0 <= i < |opens| - |kept| ensures Past(opens[i], bound', strict) {
      if i >= off { assert opens[i] == times[i - off]; }
    }
  }

  lemma {:induction false} Lowest(opens: seq<real>, s: set<int>, i: int) returns (lo: int)
    requires i in s && forall j :: j in s ==> 0 <= j
    ensures lo in s && forall j :: j in s ==> lo <= j
    decreases i
  {
    if j :| j in s && j < i { lo := Lowest(opens, s, j); } else { lo := i; }
  }

  // ----- flipster_latency_pick -----

  const MINUTE_MS := 60000.0

  /** A signal that reached the limiter: checked at `check`, and if it was not limited and trading is
      live, opened at `open`. */
  datatype Attempt = Attempt(check: real, open: real, live: bool)

  /** A nondecreasing clock: checks and opens never go back, and an open is not before its check. */
  predicate Clocked(ts: seq<Attempt>) {
    && (forall i :: 0 <= i < |ts| ==> ts[i].check <= ts[i].open)
    && (forall i, j :: 0 <= i < j < |ts| ==> ts[i].check <= ts[j].check && ts[i].open <= ts[j].open)
  }

  function Recent(times: seq<real>, t: real): seq<real> {
    if times == [] then []
    else if t - times[0] < MINUTE_MS then [times[0]] + Recent(times[1..], t)
    else Recent(times[1..], t)
  }

  datatype Limiter = Limiter(times: seq<real>, opens: seq<real>)

  function TryOpen(limit: nat, l: Limiter, a: Attempt): Limiter {
    var kept := Recent(l.times, a.check);
    if |kept| >= limit || !a.live then l.(times := kept)
    else Limiter(kept + [a.open], l.opens + [a.open])
  }

  function RunLimiter(limit: nat, l: Limiter, ts: seq<Attempt>): Limiter
    decreases |ts|
  {
    if ts == [] then l else RunLimiter(limit, TryOpen(limit, l, ts[0]), ts[1..])
  }

  lemma {:induction false} RecentIsEnd(times: seq<real>, t: real)
    requires Sorted(times)
    ensures IsEnd(times, Recent(times, t), t - MINUTE_MS, false)
  {
    if times != [] {
      RecentIsEnd(times[1..], t);
      if t - times[0] < MINUTE_MS {
        AllRecent(times, t);
      } else {
        assert forall i :: 1 <= i < |times| ==> times[i] == times[1..][i - 1];
      }
    }
  }

  lemma {:induction false} AllRecent(times: seq<real>, t: real)
    requires forall i :: 0 <= i < |times| ==> t - times[i] < MINUTE_MS
    ensures Recent(times, t) == times
  {
    if times != [] { AllRecent(times[1..], t); }
  }

  predicate LimiterInv(l: Limiter, now: real, last: real) {
    && IsEnd(l.opens, l.times, now - MINUTE_MS, false)
    && Sorted(l.opens) && forall i :: 0 <= i < |l.opens| ==> l.opens[i] <= last
  }

  /** Pruning at the check keeps the end of the opens that is recent. */
  lemma CheckKeepsEnd(l: Limiter, check: real, now: real, last: real)
    requires LimiterInv(l, now, last) && now <= check
    ensures IsEnd(l.opens, Recent(l.times, check), check - MINUTE_MS, false)
  {
    var off := |l.opens| - |l.times|;
    assert forall i :: 0 <= i < |l.times| ==> l.times[i] == l.opens[i + off];
    RecentIsEnd(l.times, check);
    DropMore(l.opens, l.times, Recent(l.times, check), now - MINUTE_MS, check - MINUTE_MS, false);
  }

  lemma TryOpenInv(limit: nat, l: Limiter, a: Attempt, now: real, last: real)
    requires LimiterInv(l, now, last) && now <= a.check <= a.open && last <= a.open
    ensures LimiterInv(TryOpen(limit, l, a), a.check, a.open)
  {
    CheckKeepsEnd(l, a.check, now, last);
    AppendEnd(l.opens, Recent(l.times, a.check), a.check - MINUTE_MS, false, a.open);
    AppendSorted(l.opens, last, a.open);
  }

  lemma TryOpenSpaced(limit: nat, l: Limiter, a: Attempt, now: real, last: real)
    requires LimiterInv(l, now, last) && now <= a.check <= a.open && last <= a.open
    requires Spaced(l.opens, limit, MINUTE_MS, false)
    ensures Spaced(TryOpen(limit, l, a).opens, limit, MINUTE_MS, false)
  {
    var k := Recent(l.times, a.check);
    CheckKeepsEnd(l, a.check, now, last);
    if |k| < limit { AppendSpaced(l.opens, |l.opens| - |k|, limit, MINUTE_MS, false, a.open); }
  }

  lemma {:induction false} RunLimiterInv(limit: nat, l: Limiter, ts: seq<Attempt>, now: real, last: real)
    requires LimiterInv(l, now, last) && Clocked(ts) && Spaced(l.opens, limit, MINUTE_MS, false)
    requires ts != [] ==> now <= ts[0].check && last <= ts[0].open
    ensures Sorted(RunLimiter(limit, l, ts).opens)
    ensures Spaced(RunLimiter(limit, l, ts).opens, limit, MINUTE_MS, false)
    decreases |ts|
  {
    if ts != [] {
      TryOpenInv(limit, l, ts[0], now, last);
      TryOpenSpaced(limit, l, ts[0], now, last);
      RunLimiterInv(limit, TryOpen(limit, l, ts[0]), ts[1..], ts[0].check, ts[0].open);
    }
  }

  /** Over every run with a nondecreasing clock, every 60-second window has at most
      `limit` opens, whatever limit the command line sets. */
  lemma RateLimitHolds(limit: nat, ts: seq<Attempt>, start: real)
    requires Clocked(ts)
    ensures |InWindow(RunLimiter(limit, Limiter([], []), ts).opens, start, MINUTE_MS, false)| <= limit
  {
    var now := if ts == [] then 0.0 else ts[0].check;
    var last := if ts == [] then 0.0 else ts[0].open;
    RunLimiterInv(limit, Limiter([], []), ts, now, last);
    SpacingBoundsEveryWindow(RunLimiter(limit, Limiter([], []), ts).opens, limit, MINUTE_MS, false, start);
  }

  /** The opens of the last minute before `t`. */
  function LastMinute(opens: seq<real>, t: real): set<int> {
    set i | 0 <= i < |opens| && t - opens[i] < 60000.0
  }

  lemma {:induction false} RecentAreRecent(times: seq<real>, t: real)
    ensures forall i :: 0 <= i < |Recent(times, t)| ==> t - Recent(times, t)[i] < MINUTE_MS
  {
    if times != [] { RecentAreRecent(times[1..], t); }
  }

  /** An end of the opens that holds exactly the indices of `s` is as long as `s`. */
  lemma EndSize(opens: seq<real>, kept: seq<real>, s: set<int>)
    requires |kept| <= |opens| && forall i :: i in s <==> |opens| - |kept| <= i < |opens|
    ensures |s| == |kept|
    decreases |kept|
  {
    if kept == [] {
      assert s == {} by { assert forall i :: i !in s; }
    } else {
      EndSize(opens, kept[1..], s - {|opens| - |kept|});
    }
  }

  lemma RecentSize(l: Limiter, check: real, now: real, last: real)
    requires LimiterInv(l, now, last) && now <= check
    ensures |Recent(l.times, check)| == |LastMinute(l.opens, check)|
  {
    var kept := Recent(l.times, check);
    CheckKeepsEnd(l, check, now, last);
    RecentAreRecent(l.times, check);
    var off := |l.opens| - |kept|;
    forall i ensures i in LastMinute(l.opens, check) <==> off <= i < |l.opens| {
      if off <= i < |l.opens| { assert l.opens[i] == kept[i - off]; }
      if 0 <= i < off { assert Past(l.opens[i], check - MINUTE_MS, false); }
    }
    EndSize(l.opens, kept, LastMinute(l.opens, check));
  }

  lemma {:induction false} RunKeepsInv(limit: nat, l: Limiter, ts: seq<Attempt>, now: real, last: real)
    requires LimiterInv(l, now, last) && Clocked(ts) && (ts != [] ==> now <= ts[0].check && last <= ts[0].open)
    ensures var n := |ts|;
      LimiterInv(RunLimiter(limit, l, ts), if n == 0 then now else ts[n - 1].check,
                 if n == 0 then last else ts[n - 1].open)
    decreases |ts|
  {
    if ts != [] {
      TryOpenInv(limit, l, ts[0], now, last);
      RunKeepsInv(limit, TryOpen(limit, l, ts[0]), ts[1..], ts[0].check, ts[0].open);
    }
  }

  /** And nothing is held back without need: after any such run a live signal opens exactly when fewer than
      `limit` opens lie in the minute before its check. */
  lemma OpensIff(limit: nat, ts: seq<Attempt>, a: Attempt)
    requires Clocked(ts + [a])
    ensures var opens := RunLimiter(limit, Limiter([], []), ts).opens;
      TryOpen(limit, RunLimiter(limit, Limiter([], []), ts), a).opens ==
        if a.live && |LastMinute(opens, a.check)| < limit then opens + [a.open] else opens
  {
    var all := ts + [a];
    assert all[..|ts|] == ts && all[|ts|] == a;
    assert Clocked(ts) by { assert forall i :: 0 <= i < |ts| ==> ts[i] == all[i]; }
    var now := if ts == [] then a.check else ts[0].check;
    var last := if ts == [] then a.open else ts[0].open;
    RunKeepsInv(limit, Limiter([], []), ts, now, last);
    if ts != [] { assert all[|ts| - 1].check <= a.check; }
    RecentSize(RunLimiter(limit, Limiter([], []), ts), a.check,
               if ts == [] then now else ts[|ts| - 1].check, if ts == [] then last else ts[|ts| - 1].open);
  }

  class RateLimiter {
    const limit: nat
    var tradeTimes: seq<real>
    ghost var opens: seq<real>

    constructor (limit: nat)
      ensures this.limit == limit && tradeTimes == [] && opens == []
    {
      this.limit, tradeTimes, opens := limit, [], [];
    }

    method RateLimited(t: real) returns (limited: bool)
      modifies this`tradeTimes
      ensures tradeTimes == Recent(old(tradeTimes), t) && limited == (|tradeTimes| >= limit)
    {
      var kept: seq<real> := [];
      var i := 0;
      while i < |tradeTimes|
        invariant 0 <= i <= |tradeTimes| && tradeTimes == old(tradeTimes)
        invariant Recent(old(tradeTimes), t) == kept + Recent(tradeTimes[i..], t)
      {
        assert tradeTimes[i..][0] == tradeTimes[i] && tradeTimes[i..][1..] == tradeTimes[i + 1..];
        if t - tradeTimes[i] < MINUTE_MS { kept := kept + [tradeTimes[i]]; }
        i := i + 1;
      }
      tradeTimes := kept;
      limited := |tradeTimes| >= limit;
    }

    /** The guarded part of `on_api_update`: check, then open. */
    method Enter(a: Attempt)
      modifies this
      ensures Limiter(tradeTimes, opens) == TryOpen(limit, Limiter(old(tradeTimes), old(opens)), a)
    {
      var limited := RateLimited(a.check);
      if limited || !a.live { return; }
      tradeTimes := tradeTimes + [a.open];
      opens := opens + [a.open];
    }
  }

  // ----- slow_statarb_v11 -----

  const QUEUE_MAXLEN := 200
  const MINUTE_S := 60.0

  function Prune(q: seq<real>, cutoff: real): seq<real> {
    if q != [] && q[0] < cutoff then Prune(q[1..], cutoff) else q
  }

  function Append(q: seq<real>, x: real): seq<real> {
    (if |q| == QUEUE_MAXLEN then q[1..] else q) + [x]
  }

  /** A decision checked against the loop's time stamp `check`; `live` is false when a later gate
      rejects it or the order queue is full. */
  function TryEnqueue(max: int, l: Limiter, a: Attempt): Limiter {
    var q := Prune(l.times, a.check - MINUTE_S);
    if |q| >= max || !a.live then l.(times := q)
    else Limiter(Append(q, a.open), l.opens + [a.open])
  }

  function RunQueue(max: int, l: Limiter, ts: seq<Attempt>): Limiter
    decreases |ts|
  {
    if ts == [] then l else RunQueue(max, TryEnqueue(max, l, ts[0]), ts[1..])
  }

  lemma {:induction false} PruneIsEnd(q: seq<real>, cutoff: real)
    ensures IsEnd(q, Prune(q, cutoff), cutoff, true)
    decreases |q|
  {
    if q != [] && q[0] < cutoff {
      PruneIsEnd(q[1..], cutoff);
      assert forall i :: 1 <= i < |q| ==> q[i] == q[1..][i - 1];
    }
  }

  predicate QueueInv(l: Limiter, now: real, last: real) {
    && IsEnd(l.opens, l.times, now - MINUTE_S, true) && |l.times| <= QUEUE_MAXLEN
    && Sorted(l.opens) && forall i :: 0 <= i < |l.opens| ==> l.opens[i] <= last
  }

  lemma TryEnqueueInv(max: nat, l: Limiter, a: Attempt, now: real, last: real)
    requires max <= QUEUE_MAXLEN
    requires QueueInv(l, now, last) && now <= a.check <= a.open && last <= a.open
    ensures QueueInv(TryEnqueue(max, l, a), a.check, a.open)
    ensures Spaced(l.opens, max, MINUTE_S, true) ==> Spaced(TryEnqueue(max, l, a).opens, max, MINUTE_S, true)
  {
    var q := Prune(l.times, a.check - MINUTE_S);
    PruneIsEnd(l.times, a.check - MINUTE_S);
    DropMore(l.opens, l.times, q, now - MINUTE_S, a.check - MINUTE_S, true);
    AppendEnd(l.opens, q, a.check - MINUTE_S, true, a.open);
    AppendSorted(l.opens, last, a.open);
    if |q| < max { AppendSpaced(l.opens, |l.opens| - |q|, max, MINUTE_S, true, a.open); }
  }

  lemma {:induction false} RunQueueInv(max: nat, l: Limiter, ts: seq<Attempt>, now: real, last: real)
    requires max <= QUEUE_MAXLEN && QueueInv(l, now, last) && Clocked(ts) && Spaced(l.opens, max, MINUTE_S, true)
    requires ts != [] ==> now <= ts[0].check && last <= ts[0].open
    ensures Sorted(RunQueue(max, l, ts).opens)
    ensures Spaced(RunQueue(max, l, ts).opens, max, MINUTE_S, true)
    decreases |ts|
  {
    if ts != [] {
      TryEnqueueInv(max, l, ts[0], now, last);
      RunQueueInv(max, TryEnqueue(max, l, ts[0]), ts[1..], ts[0].check, ts[0].open);
    }
  }

  /** With a limit the queue can hold, every closed 60-second window has at most that many entries,
      although the check uses an older time stamp than the append. */
  lemma GlobalThrottleHolds(max: nat, ts: seq<Attempt>, start: real)
    requires max <= QUEUE_MAXLEN && Clocked(ts)
    ensures |InWindow(RunQueue(max, Limiter([], []), ts).opens, start, MINUTE_S, true)| <= max
  {
    var now := if ts == [] then 0.0 else ts[0].check;
    var last := if ts == [] then 0.0 else ts[0].open;
    RunQueueInv(max, Limiter([], []), ts, now, last);
    SpacingBoundsEveryWindow(RunQueue(max, Limiter([], []), ts).opens, max, MINUTE_S, true, start);
  }

  /** The entries of the last minute before `t`, its start included. */
  function MinuteBefore(opens: seq<real>, t: real): set<int> { set i | 0 <= i < |opens| && opens[i] >= t - 60.0 }

  lemma PrunedSize(l: Limiter, check: real, now: real, last: real)
    requires QueueInv(l, now, last) && now <= check
    ensures |Prune(l.times, check - MINUTE_S)| == |MinuteBefore(l.opens, check)|
  {
    var q := Prune(l.times, check - MINUTE_S);
    PruneIsEnd(l.times, check - MINUTE_S);
    DropMore(l.opens, l.times, q, now - MINUTE_S, check - MINUTE_S, true);
    PrunedStartsLate(l.times, check - MINUTE_S);
    var off := |l.opens| - |q|;
    forall i ensures i in MinuteBefore(l.opens, check) <==> off <= i < |l.opens| {
      if off <= i < |l.opens| { assert l.opens[off] == q[0] && l.opens[off] <= l.opens[i]; }
      if 0 <= i < off { assert Past(l.opens[i], check - MINUTE_S, true); }
    }
    EndSize(l.opens, q, MinuteBefore(l.opens, check));
  }

  lemma {:induction false} PrunedStartsLate(q: seq<real>, cutoff: real)
    ensures Prune(q, cutoff) != [] ==> Prune(q, cutoff)[0] >= cutoff
    decreases |q|
  {
    if q != [] && q[0] < cutoff { PrunedStartsLate(q[1..], cutoff); }
  }

  lemma {:induction false} QueueKeepsInv(max: nat, l: Limiter, ts: seq<Attempt>, now: real, last: real)
    requires max <= QUEUE_MAXLEN && QueueInv(l, now, last) && Clocked(ts)
    requires ts != [] ==> now <= ts[0].check && last <= ts[0].open
    ensures var n := |ts|;
      QueueInv(RunQueue(max, l, ts), if n == 0 then now else ts[n - 1].check,
               if n == 0 then last else ts[n - 1].open)
    decreases |ts|
  {
    if ts != [] {
      TryEnqueueInv(max, l, ts[0], now, last);
      QueueKeepsInv(max, TryEnqueue(max, l, ts[0]), ts[1..], ts[0].check, ts[0].open);
    }
  }

  /** Nor does the queue: after any such run a live decision enters exactly when fewer than `max` entries lie
      in the minute before its check. */
  lemma EntersIff(max: nat, ts: seq<Attempt>, a: Attempt)
    requires max <= 200 && Clocked(ts + [a])
    ensures var opens := RunQueue(max, Limiter([], []), ts).opens;
      TryEnqueue(max, RunQueue(max, Limiter([], []), ts), a).opens ==
        if a.live && |MinuteBefore(opens, a.check)| < max then opens + [a.open] else opens
  {
    var all := ts + [a];
    assert all[..|ts|] == ts && all[|ts|] == a;
    assert Clocked(ts) by { assert forall i :: 0 <= i < |ts| ==> ts[i] == all[i]; }
    var now := if ts == [] then a.check else ts[0].check;
    var last := if ts == [] then a.open else ts[0].open;
    QueueKeepsInv(max, Limiter([], []), ts, now, last);
    if ts != [] { assert all[|ts| - 1].check <= a.check; }
    PrunedSize(RunQueue(max, Limiter([], []), ts), a.check,
               if ts == [] then now else ts[|ts| - 1].check, if ts == [] then last else ts[|ts| - 1].open);
  }

  function Burst(n: nat): seq<Attempt> { seq(n, _ => Attempt(0.0, 0.0, true)) }

  lemma {:induction false} BurstIsNeverLimited(max: int, l: Limiter, n: nat)
    requires max > QUEUE_MAXLEN && |l.times| <= QUEUE_MAXLEN && forall i :: 0 <= i < |l.times| ==> l.times[i] == 0.0
    ensures RunQueue(max, l, Burst(n)).opens == l.opens + seq(n, _ => 0.0)
    decreases n
  {
    if n > 0 {
      assert Burst(n)[1..] == Burst(n - 1);
      var next := TryEnqueue(max, l, Burst(n)[0]);
      assert Prune(l.times, 0.0 - MINUTE_S) == l.times;
      BurstIsNeverLimited(max, next, n - 1);
      assert l.opens + [0.0] + seq(n - 1, _ => 0.0) == l.opens + seq(n, _ => 0.0);
    }
  }

  /** The throttle keeps its promise on all runs if and only if the limit fits the queue. */
  lemma GlobalThrottleIff(max: nat)
    ensures max <= 200 <==>
      forall ts: seq<Attempt>, start: real :: Clocked(ts) ==>
        |InWindow(RunQueue(max, Limiter([], []), ts).opens, start, MINUTE_S, true)| <= max
  {
    if max <= QUEUE_MAXLEN {
      forall ts: seq<Attempt>, start: real | Clocked(ts)
        ensures |InWindow(RunQueue(max, Limiter([], []), ts).opens, start, MINUTE_S, true)| <= max
      {
        GlobalThrottleHolds(max, ts, start);
      }
    } else {
      BurstIsNeverLimited(max, Limiter([], []), max + 1);
      var opens := RunQueue(max, Limiter([], []), Burst(max + 1)).opens;
      assert Clocked(Burst(max + 1));
      RangeSize(max + 1);
      assert InWindow(opens, 0.0, MINUTE_S, true) == Range(max + 1);
    }
  }

  function Range(n: nat): set<int> { if n == 0 then {} else Range(n - 1) + {n - 1} }

  lemma {:induction false} RangeSize(n: nat)
    ensures |Range(n)| == n && forall i :: i in Range(n) <==> 0 <= i < n
  {
    if n > 0 { RangeSize(n - 1); }
  }

  class OrderQueue {
    const max: int
    var recentOrders: seq<real>
    ghost var opens: seq<real>

    constructor (max: int)
      ensures this.max == max && recentOrders == [] && opens == []
    {
      this.max := max;
      recentOrders, opens := [], [];
    }

    /** The throttle in `decide_order` and the append in `process_symbol`. */
    method Enqueue(a: Attempt)
      modifies this
      ensures Limiter(recentOrders, opens) == TryEnqueue(max, Limiter(old(recentOrders), old(opens)), a)
    {
      var cutoff := a.check - MINUTE_S;
      while recentOrders != [] && recentOrders[0] < cutoff
        invariant Prune(recentOrders, cutoff) == Prune(old(recentOrders), cutoff)
        invariant opens == old(opens)
        decreases |recentOrders|
      {
        recentOrders := recentOrders[1..];
      }
      if |recentOrders| >= max || !a.live { return; }
      if |recentOrders| == QUEUE_MAXLEN { recentOrders := recentOrders[1..]; }
      recentOrders := recentOrders + [a.open];
      opens := opens + [a.open];
    }
  }
}
