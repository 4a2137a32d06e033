/** The stat-arb bot's order count per symbol. A decision checks the count; the order then waits in a
    queue and with a worker, and is counted only once it was placed. A symbol whose entry waits too
    long becomes idle again, so several passed checks can be waiting at once. */
module OrderCount {
  import opened Common
  import opened Throttle

  const MAX_PER_MINUTE := 8
  const RETRY_S := 5.0

  /** `capacity` is how many orders the queue and the workers hold together. */
  datatype Config = Config(max: nat, fillWait: real, capacity: nat)

  datatype Phase = Idle | Pending(since: real) | Held

  /** What the exchange got: the counted entries, the ones it received although their call raised, and
      both together, dated by when the call came back. */
  datatype Sends = Sends(placed: seq<real>, raised: seq<real>, all: seq<real>)

  /** `waiting` holds the check times of entries that were queued and not yet placed or failed. `peak` is
      the largest number ever waiting, `overlaps` the number of checks that passed while another entry of
      the symbol was waiting. */
  datatype Sym = Sym(phase: Phase, cooldownUntil: real, times: seq<real>, waiting: seq<real>,
                     sends: Sends, peak: nat, overlaps: nat)

  const FRESH := Sym(Idle, 0.0, [], [], Sends([], [], []), 0, 0)

  /** What the exchange answered to a placed entry; `Unreadable` raises after it was counted. */
  datatype Answer = Filled | Resting | Unreadable

  /** A decision that reached the count (`live` is false when a later gate rejects it), the timeout of a
      pending entry, a worker's success and failure (`reached` when the exchange got the order although the
      call raised), and any other loop moving the symbol. */
  datatype Event =
    | Decide(t: real, live: bool)
    | Timeout(t: real)
    | Placed(t: real, i: nat, answer: Answer)
    | Failed(t: real, i: nat, reached: bool)
    | Moved(t: real, phase: Phase, cooldownUntil: real)

  function Without(s: seq<real>, i: nat): seq<real>
    requires i < |s|
  {
    s[..i] + s[i + 1..]
  }

  function Enqueue(s: Sym, q: seq<real>, t: real): Sym {
    var n := |s.waiting| + 1;
    s.(times := q, phase := Pending(t), waiting := s.waiting + [t],
       peak := if n > s.peak then n else s.peak,
       overlaps := if s.waiting == [] then s.overlaps else s.overlaps + 1)
  }

  function DecideEntry(cfg: Config, s: Sym, t: real, live: bool): Sym {
    if !s.phase.Idle? || t < s.cooldownUntil then s
    else
      var q := Prune(s.times, t - MINUTE_S);
      if |q| < cfg.max && live && |s.waiting| < cfg.capacity then Enqueue(s, q, t) else s.(times := q)
  }

  function CountPlaced(s: Sym, t: real, i: nat, answer: Answer): Sym
    requires i < |s.waiting|
  {
    var s1 := s.(times := Append(s.times, t), sends := SendPlaced(s.sends, t), waiting := Without(s.waiting, i));
    match answer
    case Filled => s1.(phase := Held)
    case Resting => s1.(phase := Pending(t))
    case Unreadable => s1.(phase := Idle, cooldownUntil := t + RETRY_S)
  }

  function SendPlaced(x: Sends, t: real): Sends { x.(placed := x.placed + [t], all := x.all + [t]) }

  function SendRaised(x: Sends, t: real): Sends { x.(raised := x.raised + [t], all := x.all + [t]) }

  /** A raising call leaves the count alone, whether or not the exchange got the order. */
  function DropFailed(s: Sym, t: real, i: nat, reached: bool): Sym
    requires i < |s.waiting|
  {
    s.(waiting := Without(s.waiting, i), phase := Idle, cooldownUntil := t + RETRY_S,
       sends := if reached then SendRaised(s.sends, t) else s.sends)
  }

  function Step(cfg: Config, s: Sym, e: Event): Sym {
    match e
    case Decide(t, live) => DecideEntry(cfg, s, t, live)
    case Timeout(t) =>
      if s.phase.Pending? && t - s.phase.since > cfg.fillWait
      then s.(phase := Idle, cooldownUntil := t + RETRY_S) else s
    case Placed(t, i, answer) => if i < |s.waiting| then CountPlaced(s, t, i, answer) else s
    case Failed(t, i, reached) => if i < |s.waiting| then DropFailed(s, t, i, reached) else s
    case Moved(_, phase, cooldownUntil) => s.(phase := phase, cooldownUntil := cooldownUntil)
  }

  function Run(cfg: Config, s: Sym, es: seq<Event>): Sym
    decreases |es|
  {
    if es == [] then s else Run(cfg, Step(cfg, s, es[0]), es[1..])
  }

  predicate NonDecreasingClock(es: seq<Event>) { forall i, j :: 0 <= i < j < |es| ==> es[i].t <= es[j].t }

  // ----- The bound -----

  /** Everything not on the list is too old, unless the list is full. */
  ghost predicate Covers(times: seq<real>, placed: seq<real>, cutoff: real) {
    && |times| <= |placed| && times == placed[|placed| - |times|..]
    && (|times| >= QUEUE_MAXLEN || IsEnd(placed, times, cutoff, true))
  }

  predicate OldUpTo(s: seq<real>, d: nat, cutoff: real) {
    d <= |s| && forall i :: 0 <= i < d ==> s[i] < cutoff
  }

  predicate Leaves(s: Sym, d: nat, limit: nat) { |s.sends.placed| - d + |s.waiting| <= limit }

  /** The entries of the last minute and the waiting ones together are at most `limit`. */
  ghost predicate Room(limit: nat, s: Sym, now: real) {
    exists d: nat :: OldUpTo(s.sends.placed, d, now - MINUTE_S) && Leaves(s, d, limit)
  }

  ghost predicate Inv(limit: nat, s: Sym, now: real) {
    && Covers(s.times, s.sends.placed, now - MINUTE_S)
    && Sorted(s.sends.placed) && (forall i :: 0 <= i < |s.sends.placed| ==> s.sends.placed[i] <= now)
    && Room(limit, s, now)
    && Spaced(s.sends.placed, limit, MINUTE_S, true)
    && |s.waiting| <= s.peak <= s.overlaps + 1
  }

  /** When pruning leaves fewer than a full list, everything before it is too old. */
  lemma PruneCovers(times: seq<real>, placed: seq<real>, was: real, cutoff: real)
    requires Covers(times, placed, was) && was <= cutoff && Sorted(placed)
    ensures Covers(Prune(times, cutoff), placed, cutoff)
  {
    var q := Prune(times, cutoff);
    PruneIsEnd(times, cutoff);
    if |times| < QUEUE_MAXLEN {
      DropMore(placed, times, q, was, cutoff, true);
    } else if |q| < QUEUE_MAXLEN {
      var off := |placed| - |times|;
      forall i | 0 <= i < |placed| - |q| ensures Past(placed[i], cutoff, true) {
        if i >= off {
          assert placed[i] == times[i - off];
        } else {
          assert placed[i] <= placed[off] == times[0];
        }
      }
    }
    assert q == placed[|placed| - |q|..];
  }

  lemma InvLater(limit: nat, s: Sym, now: real, t: real)
    requires Inv(limit, s, now) && now <= t
    ensures Inv(limit, s, t)
  {
    var d: nat :| OldUpTo(s.sends.placed, d, now - MINUTE_S) && Leaves(s, d, limit);
    assert OldUpTo(s.sends.placed, d, t - MINUTE_S);
  }

  /** A passed check sees everything placed in the last minute, so with it at most `max` + the others
      waiting can land in one window. */
  lemma DecideInv(cfg: Config, w: nat, s: Sym, t: real, live: bool)
    requires cfg.max <= QUEUE_MAXLEN && w > 0 && Inv(cfg.max + w - 1, s, t)
    requires DecideEntry(cfg, s, t, live).peak <= w
    ensures Inv(cfg.max + w - 1, DecideEntry(cfg, s, t, live), t)
  {
    var s1, limit := DecideEntry(cfg, s, t, live), cfg.max + w - 1;
    var q := Prune(s.times, t - MINUTE_S);
    PruneCovers(s.times, s.sends.placed, t - MINUTE_S, t - MINUTE_S);
    var d: nat :| OldUpTo(s.sends.placed, d, t - MINUTE_S) && Leaves(s, d, limit);
    if |s1.waiting| > |s.waiting| {
      var k := |s.sends.placed| - |q|;
      assert OldUpTo(s1.sends.placed, k, t - MINUTE_S) by {
        forall i | 0 <= i < k ensures s.sends.placed[i] < t - MINUTE_S {
          assert Past(s.sends.placed[i], t - MINUTE_S, true);
        }
      }
      assert Leaves(s1, k, limit);
    } else {
      assert OldUpTo(s1.sends.placed, d, t - MINUTE_S) && Leaves(s1, d, limit);
    }
  }

  lemma CountCovers(times: seq<real>, placed: seq<real>, t: real)
    requires Covers(times, placed, t - MINUTE_S)
    ensures Covers(Append(times, t), placed + [t], t - MINUTE_S)
  {
    var all := placed + [t];
    if |times| < QUEUE_MAXLEN {
      AppendEnd(placed, times, t - MINUTE_S, true, t);
    } else {
      assert Append(times, t) == all[|all| - |Append(times, t)|..];
    }
  }

  lemma PlacedInv(limit: nat, s: Sym, t: real, i: nat, answer: Answer)
    requires Inv(limit, s, t) && i < |s.waiting|
    ensures Inv(limit, CountPlaced(s, t, i, answer), t)
  {
    var s1 := CountPlaced(s, t, i, answer);
    CountCovers(s.times, s.sends.placed, t);
    AppendSorted(s.sends.placed, t, t);
    var d: nat :| OldUpTo(s.sends.placed, d, t - MINUTE_S) && Leaves(s, d, limit);
    AppendSpaced(s.sends.placed, d, limit, MINUTE_S, true, t);
    assert OldUpTo(s1.sends.placed, d, t - MINUTE_S) && Leaves(s1, d, limit);
  }

  lemma FewerWaiting(limit: nat, s: Sym, s1: Sym, t: real)
    requires Inv(limit, s, t) && s1.times == s.times && s1.sends.placed == s.sends.placed
    requires s1.peak == s.peak && s1.overlaps == s.overlaps && |s1.waiting| <= |s.waiting|
    ensures Inv(limit, s1, t)
  {
    var d: nat :| OldUpTo(s.sends.placed, d, t - MINUTE_S) && Leaves(s, d, limit);
    assert OldUpTo(s1.sends.placed, d, t - MINUTE_S) && Leaves(s1, d, limit);
  }

  lemma StepInv(cfg: Config, w: nat, s: Sym, e: Event, now: real)
    requires cfg.max <= QUEUE_MAXLEN && w > 0 && Step(cfg, s, e).peak <= w
    requires Inv(cfg.max + w - 1, s, now) && now <= e.t
    ensures Inv(cfg.max + w - 1, Step(cfg, s, e), e.t)
  {
    var limit := cfg.max + w - 1;
    InvLater(limit, s, now, e.t);
    match e {
      case Decide(t, live) => DecideInv(cfg, w, s, t, live);
      case Placed(t, i, answer) => if i < |s.waiting| { PlacedInv(limit, s, t, i, answer); }
      case _ => FewerWaiting(limit, s, Step(cfg, s, e), e.t);
    }
  }

  lemma {:induction false} PeakGrows(cfg: Config, s: Sym, es: seq<Event>)
    ensures s.peak <= Run(cfg, s, es).peak
    decreases |es|
  {
    if es != [] { PeakGrows(cfg, Step(cfg, s, es[0]), es[1..]); }
  }

  lemma {:induction false} RunInv(cfg: Config, w: nat, s: Sym, es: seq<Event>, now: real) returns (end: real)
    requires cfg.max <= QUEUE_MAXLEN && w > 0 && Run(cfg, s, es).peak <= w
    requires Inv(cfg.max + w - 1, s, now) && NonDecreasingClock(es) && (es != [] ==> now <= es[0].t)
    ensures Inv(cfg.max + w - 1, Run(cfg, s, es), end) && end == if es == [] then now else es[|es| - 1].t
    decreases |es|
  {
    end := now;
    if es != [] {
      PeakGrows(cfg, Step(cfg, s, es[0]), es[1..]);
      StepInv(cfg, w, s, es[0], now);
      end := RunInv(cfg, w, Step(cfg, s, es[0]), es[1..], es[0].t);
    }
  }

  lemma FreshInv(limit: nat, now: real)
    ensures Inv(limit, FRESH, now)
  {
    assert OldUpTo(FRESH.sends.placed, 0, now - MINUTE_S) && Leaves(FRESH, 0, limit);
  }

  function Excess(peak: nat): nat { if peak == 0 then 0 else peak - 1 }

  lemma CountedAreLimited(cfg: Config, es: seq<Event>, start: real)
    requires cfg.max <= QUEUE_MAXLEN && NonDecreasingClock(es)
    ensures var s := Run(cfg, FRESH, es);
      |InWindow(s.sends.placed, start, MINUTE_S, true)| <= cfg.max + Excess(s.peak) <= cfg.max + s.overlaps
  {
    var s, now := Run(cfg, FRESH, es), if es == [] then 0.0 else es[0].t;
    var w := if s.peak == 0 then 1 else s.peak;
    FreshInv(cfg.max + w - 1, now);
    var end := RunInv(cfg, w, FRESH, es, now);
    SpacingBoundsEveryWindow(s.sends.placed, cfg.max + w - 1, MINUTE_S, true, start);
  }

  lemma InWindowAppend(s: seq<real>, x: real, start: real)
    ensures |InWindow(s + [x], start, MINUTE_S, true)| ==
            |InWindow(s, start, MINUTE_S, true)| + if start <= x <= start + MINUTE_S then 1 else 0
  {
    var a, b := InWindow(s, start, MINUTE_S, true), InWindow(s + [x], start, MINUTE_S, true);
    assert b == if start <= x <= start + MINUTE_S then a + {|s|} else a;
  }

  /** In every window the sends are the counted ones and the raised ones. */
  ghost predicate Sums(x: Sends, start: real) {
    |InWindow(x.all, start, MINUTE_S, true)| ==
    |InWindow(x.placed, start, MINUTE_S, true)| + |InWindow(x.raised, start, MINUTE_S, true)|
  }

  lemma StepSums(cfg: Config, s: Sym, e: Event, start: real)
    requires Sums(s.sends, start)
    ensures Sums(Step(cfg, s, e).sends, start)
  {
    InWindowAppend(s.sends.all, e.t, start);
    InWindowAppend(s.sends.placed, e.t, start);
    InWindowAppend(s.sends.raised, e.t, start);
  }

  lemma {:induction false} RunSums(cfg: Config, s: Sym, es: seq<Event>, start: real)
    requires Sums(s.sends, start)
    ensures Sums(Run(cfg, s, es).sends, start)
    decreases |es|
  {
    if es != [] {
      StepSums(cfg, s, es[0], start);
      RunSums(cfg, Step(cfg, s, es[0]), es[1..], start);
    }
  }

  /** Whatever the queue, the workers and the other loops do, a closed 60-second window has at most the
      limit plus one send for every entry that waited beside another, and those are at most the checks
      that passed while one was waiting, plus the sends of the window whose call raised. */
  lemma SendsAreLimited(cfg: Config, es: seq<Event>, start: real)
    requires cfg.max <= QUEUE_MAXLEN && NonDecreasingClock(es)
    ensures var s := Run(cfg, FRESH, es);
      var raised := |InWindow(s.sends.raised, start, MINUTE_S, true)|;
      |InWindow(s.sends.all, start, MINUTE_S, true)|
        <= cfg.max + Excess(s.peak) + raised <= cfg.max + s.overlaps + raised
  {
    CountedAreLimited(cfg, es, start);
    RunSums(cfg, FRESH, es, start);
  }

  lemma WindowFits(s: seq<real>, start: real)
    ensures |InWindow(s, start, MINUTE_S, true)| <= |s|
  {
    IntervalSize(InWindow(s, start, MINUTE_S, true), 0, |s|);
  }

  /** In particular the limit holds when no check passes while an entry of the symbol is waiting and no
      raising call reaches the exchange. */
  lemma NoOverlapNoExcess(cfg: Config, es: seq<Event>, start: real)
    requires cfg.max <= QUEUE_MAXLEN && NonDecreasingClock(es)
    requires Run(cfg, FRESH, es).overlaps == 0 && Run(cfg, FRESH, es).sends.raised == []
    ensures |InWindow(Run(cfg, FRESH, es).sends.all, start, MINUTE_S, true)| <= cfg.max
  {
    SendsAreLimited(cfg, es, start);
    WindowFits(Run(cfg, FRESH, es).sends.raised, start);
  }

  // ----- Where the limit fails -----

  lemma {:induction false} RunAppend(cfg: Config, s: Sym, a: seq<Event>, b: seq<Event>)
    ensures Run(cfg, s, a + b) == Run(cfg, Run(cfg, s, a), b)
    decreases |a|
  {
    if a == [] {
      assert a + b == b;
    } else {
      assert (a + b)[1..] == a[1..] + b;
      RunAppend(cfg, Step(cfg, s, a[0]), a[1..], b);
    }
  }

  lemma RunTwo(cfg: Config, s: Sym, a: Event, b: Event)
    ensures Run(cfg, s, [a, b]) == Step(cfg, Step(cfg, s, a), b)
  {
    assert [a, b][1..] == [b] && [b][1..] == [];
    assert Run(cfg, Step(cfg, s, a), [b]) == Run(cfg, Step(cfg, Step(cfg, s, a), b), []);
  }

  /** Two clocked stretches in a row are clocked. */
  lemma JoinClock(a: seq<Event>, b: seq<Event>, t: real)
    requires NonDecreasingClock(a) && NonDecreasingClock(b)
    requires (forall i :: 0 <= i < |a| ==> a[i].t <= t) && (forall i :: 0 <= i < |b| ==> t <= b[i].t)
    ensures NonDecreasingClock(a + b)
  {}

  lemma AllInWindow(s: seq<real>, start: real)
    requires forall i :: 0 <= i < |s| ==> start <= s[i] <= start + MINUTE_S
    ensures |InWindow(s, start, MINUTE_S, true)| == |s|
  {
    RangeSize(|s|);
    assert InWindow(s, start, MINUTE_S, true) == Range(|s|);
  }

  function Period(cfg: Config): real { cfg.fillWait + 1.0 + RETRY_S }

  function Due(cfg: Config, k: nat): real { if k == 0 then 0.0 else Due(cfg, k - 1) + Period(cfg) }

  /** One entry that the worker does not get to before the symbol is idle again. */
  function Stuck(cfg: Config, k: nat): seq<Event> {
    [Decide(Due(cfg, k), true), Timeout(Due(cfg, k) + cfg.fillWait + 1.0)]
  }

  function Checks(cfg: Config, n: nat): seq<Event> { if n == 0 then [] else Checks(cfg, n - 1) + Stuck(cfg, n - 1) }

  function Landings(n: nat, t: real): seq<Event> { seq(n, _ => Placed(t, 0, Resting)) }

  /** After `n` such entries: all of them wait and nothing has been counted. */
  predicate AllWait(cfg: Config, s: Sym, n: nat) {
    && s.phase.Idle? && s.times == [] && s.sends == FRESH.sends && |s.waiting| == n
    && s.cooldownUntil <= Due(cfg, n)
  }

  lemma StuckWaits(cfg: Config, s: Sym, k: nat)
    requires cfg.max > 0 && cfg.fillWait >= 0.0 && k < cfg.capacity && AllWait(cfg, s, k)
    ensures AllWait(cfg, Run(cfg, s, Stuck(cfg, k)), k + 1)
  {
    var t := Due(cfg, k);
    RunTwo(cfg, s, Decide(t, true), Timeout(t + cfg.fillWait + 1.0));
    assert Step(cfg, s, Decide(t, true)) == Enqueue(s, [], t);
  }

  lemma {:induction false} ChecksAllPass(cfg: Config, n: nat)
    requires cfg.max > 0 && cfg.fillWait >= 0.0 && n <= cfg.capacity
    ensures AllWait(cfg, Run(cfg, FRESH, Checks(cfg, n)), n)
  {
    if n > 0 {
      ChecksAllPass(cfg, n - 1);
      RunAppend(cfg, FRESH, Checks(cfg, n - 1), Stuck(cfg, n - 1));
      StuckWaits(cfg, Run(cfg, FRESH, Checks(cfg, n - 1)), n - 1);
    }
  }

  lemma {:induction false} ChecksClocked(cfg: Config, n: nat)
    requires cfg.fillWait >= 0.0
    ensures NonDecreasingClock(Checks(cfg, n))
    ensures forall i :: 0 <= i < |Checks(cfg, n)| ==> Checks(cfg, n)[i].t <= Due(cfg, n)
  {
    if n > 0 {
      ChecksClocked(cfg, n - 1);
      JoinClock(Checks(cfg, n - 1), Stuck(cfg, n - 1), Due(cfg, n - 1));
    }
  }

  lemma {:induction false} LandingsAllCount(cfg: Config, s: Sym, n: nat, t: real)
    requires |s.waiting| == n
    ensures Run(cfg, s, Landings(n, t)).sends.all == s.sends.all + seq(n, _ => t)
    decreases n
  {
    if n > 0 {
      assert Landings(n, t)[1..] == Landings(n - 1, t);
      LandingsAllCount(cfg, Step(cfg, s, Landings(n, t)[0]), n - 1, t);
      assert s.sends.all + [t] + seq(n - 1, _ => t) == s.sends.all + seq(n, _ => t);
    }
  }

  /** With the default waiting time, and any other, as many entries of one symbol as the queue and the
      workers hold can pass the check one after the other and then be placed in one instant. */
  lemma BurstDefeatsTheLimit(cfg: Config, n: nat)
    requires cfg.max > 0 && cfg.fillWait >= 0.0 && n <= cfg.capacity
    ensures exists es, start ::
      NonDecreasingClock(es) && |InWindow(Run(cfg, FRESH, es).sends.all, start, MINUTE_S, true)| == n
  {
    var t := Due(cfg, n);
    var es := Checks(cfg, n) + Landings(n, t);
    ChecksAllPass(cfg, n);
    ChecksClocked(cfg, n);
    JoinClock(Checks(cfg, n), Landings(n, t), t);
    RunAppend(cfg, FRESH, Checks(cfg, n), Landings(n, t));
    LandingsAllCount(cfg, Run(cfg, FRESH, Checks(cfg, n)), n, t);
    var all := Run(cfg, FRESH, es).sends.all;
    assert all == seq(n, _ => t);
    AllInWindow(all, t);
  }

  // ----- Raised calls -----

  /** A check whose call raises after the exchange got the order, every RETRY_S. */
  function Raise(k: nat): seq<Event> { [Decide(Retry(k), true), Failed(Retry(k), 0, true)] }

  function Retry(k: nat): real { RETRY_S * k as real }

  function Raises(n: nat): seq<Event> { if n == 0 then [] else Raises(n - 1) + Raise(n - 1) }

  predicate AfterRaises(s: Sym, n: nat) {
    && s.phase.Idle? && s.times == [] && s.waiting == [] && s.cooldownUntil <= Retry(n)
    && s.sends == Sends([], seq(n, i => RETRY_S * i as real), seq(n, i => RETRY_S * i as real))
    && s.peak <= 1 && s.overlaps == 0
  }

  lemma RaiseRuns(cfg: Config, s: Sym, k: nat)
    requires AfterRaises(s, k) && cfg.max > 0 && cfg.capacity > 0
    ensures AfterRaises(Run(cfg, s, Raise(k)), k + 1)
  {
    RunTwo(cfg, s, Decide(Retry(k), true), Failed(Retry(k), 0, true));
    assert Step(cfg, s, Decide(Retry(k), true)) == Enqueue(s, [], Retry(k));
    assert Without([Retry(k)], 0) == [];
    assert seq(k + 1, i => RETRY_S * i as real) == seq(k, i => RETRY_S * i as real) + [RETRY_S * k as real];
  }

  lemma {:induction false} RaisesRun(cfg: Config, n: nat)
    requires cfg.max > 0 && cfg.capacity > 0
    ensures AfterRaises(Run(cfg, FRESH, Raises(n)), n)
    ensures NonDecreasingClock(Raises(n)) && forall i :: 0 <= i < |Raises(n)| ==> Raises(n)[i].t <= Retry(n)
  {
    if n > 0 {
      RaisesRun(cfg, n - 1);
      RunAppend(cfg, FRESH, Raises(n - 1), Raise(n - 1));
      RaiseRuns(cfg, Run(cfg, FRESH, Raises(n - 1)), n - 1);
      JoinClock(Raises(n - 1), Raise(n - 1), Retry(n - 1));
    }
  }

  /** Calls that raise after the exchange got the order are never counted: without any overlap they go on
      one every RETRY_S, thirteen in a minute, whatever the limit. */
  lemma RaisedSendsEscape(cfg: Config, n: nat)
    requires cfg.max > 0 && cfg.capacity > 0 && n <= 13
    ensures var s := Run(cfg, FRESH, Raises(n));
      NonDecreasingClock(Raises(n)) && s.overlaps == 0 && s.peak <= 1 && s.times == []
      && |InWindow(s.sends.all, 0.0, MINUTE_S, true)| == n
  {
    RaisesRun(cfg, n);
    AllInWindow(Run(cfg, FRESH, Raises(n)).sends.all, 0.0);
  }

  // ----- The exact condition, at the shipped settings -----

  /** Limit 8, waiting time 8 s, a queue of 200 and four workers. */
  const SHIPPED := Config(MAX_PER_MINUTE, 8.0, 204)

  /** One entry that is counted although its answer could not be read, so the symbol is idle again. */
  function Cycle(k: nat): seq<Event> { [Decide(Six(k), true), Placed(Six(k), 0, Unreadable)] }

  function Six(k: nat): real { 6.0 * k as real }

  function Cycles(from: nat, n: nat): seq<Event> { if n == 0 then [] else Cycles(from, n - 1) + Cycle(from + n - 1) }

  function Sixes(from: nat, n: nat): seq<real> { seq(n, i => 6.0 * (from + i) as real) }

  /** After `n` such entries from the time of number `from` on; `raised` was sent before. */
  predicate AfterCycles(s: Sym, raised: seq<real>, from: nat, n: nat) {
    && s.phase.Idle? && s.times == Sixes(from, n) && s.waiting == []
    && s.sends == Sends(Sixes(from, n), raised, raised + Sixes(from, n))
    && s.cooldownUntil <= Six(from + n) && s.peak <= 1
  }

  lemma NothingToPrune(q: seq<real>, cutoff: real)
    requires q != [] ==> q[0] >= cutoff
    ensures Prune(q, cutoff) == q
  {}

  lemma CycleDecides(s: Sym, raised: seq<real>, from: nat, k: nat)
    requires AfterCycles(s, raised, from, k) && k < MAX_PER_MINUTE
    ensures Step(SHIPPED, s, Cycle(from + k)[0]) == Enqueue(s, s.times, Six(from + k))
  {
    NothingToPrune(s.times, Six(from + k) - MINUTE_S);
  }

  lemma CycleRuns(s: Sym, raised: seq<real>, from: nat, k: nat)
    requires AfterCycles(s, raised, from, k) && k < MAX_PER_MINUTE
    ensures AfterCycles(Run(SHIPPED, s, Cycle(from + k)), raised, from, k + 1)
  {
    var t := Six(from + k);
    CycleDecides(s, raised, from, k);
    RunTwo(SHIPPED, s, Decide(t, true), Placed(t, 0, Unreadable));
    assert Sixes(from, k + 1) == Sixes(from, k) + [t];
    assert raised + Sixes(from, k) + [t] == raised + Sixes(from, k + 1);
    assert Without([t], 0) == [];
  }

  lemma {:induction false} CyclesRun(s: Sym, raised: seq<real>, from: nat, n: nat)
    requires AfterCycles(s, raised, from, 0) && n <= MAX_PER_MINUTE
    ensures AfterCycles(Run(SHIPPED, s, Cycles(from, n)), raised, from, n)
  {
    if n > 0 {
      CyclesRun(s, raised, from, n - 1);
      RunAppend(SHIPPED, s, Cycles(from, n - 1), Cycle(from + n - 1));
      CycleRuns(Run(SHIPPED, s, Cycles(from, n - 1)), raised, from, n - 1);
    }
  }

  lemma {:induction false} CyclesClocked(from: nat, n: nat)
    ensures NonDecreasingClock(Cycles(from, n))
    ensures forall i :: 0 <= i < |Cycles(from, n)| ==> Six(from) <= Cycles(from, n)[i].t <= Six(from + n)
  {
    if n > 0 {
      CyclesClocked(from, n - 1);
      JoinClock(Cycles(from, n - 1), Cycle(from + n - 1), Six(from + n - 1));
    }
  }

  const FIRST_WAITS := [Decide(42.0, true), Timeout(51.0)]

  const ONE_LANDS := [Decide(56.0, true), Placed(56.0, 0, Resting)]

  const OTHER_LANDS := [Placed(56.0, 0, Resting)]

  const BOTH_LAND := ONE_LANDS + OTHER_LANDS

  lemma FirstWaits(s: Sym)
    requires AfterCycles(s, [], 0, 7)
    ensures var e := Run(SHIPPED, s, FIRST_WAITS);
      && e.phase.Idle? && e.times == Sixes(0, 7) && e.sends == s.sends && e.waiting == [42.0]
      && e.cooldownUntil == 56.0 && e.peak == 1
  {
    NothingToPrune(s.times, 42.0 - MINUTE_S);
    RunTwo(SHIPPED, s, FIRST_WAITS[0], FIRST_WAITS[1]);
    assert Step(SHIPPED, s, FIRST_WAITS[0]) == Enqueue(s, s.times, 42.0);
  }

  lemma OneLands(s: Sym)
    requires s.phase.Idle? && s.times == Sixes(0, 7) && s.sends.all == Sixes(0, 7) && s.sends.raised == []
    requires s.waiting == [42.0] && s.cooldownUntil == 56.0 && s.peak == 1
    ensures var e := Run(SHIPPED, s, ONE_LANDS);
      e.sends.all == Sixes(0, 7) + [56.0] && e.sends.raised == [] && |e.waiting| == 1 && e.peak == 2
  {
    NothingToPrune(s.times, 56.0 - MINUTE_S);
    RunTwo(SHIPPED, s, ONE_LANDS[0], ONE_LANDS[1]);
    assert Step(SHIPPED, s, ONE_LANDS[0]) == Enqueue(s, s.times, 56.0);
  }

  lemma OtherLands(s: Sym)
    requires |s.waiting| == 1
    ensures var e := Run(SHIPPED, s, OTHER_LANDS);
      e.sends.all == s.sends.all + [56.0] && e.sends.raised == s.sends.raised && e.peak == s.peak
  {
    assert OTHER_LANDS[1..] == [];
    assert Run(SHIPPED, s, OTHER_LANDS) == Run(SHIPPED, Step(SHIPPED, s, OTHER_LANDS[0]), []);
  }

  lemma BothLand(s: Sym)
    requires s.phase.Idle? && s.times == Sixes(0, 7) && s.sends.all == Sixes(0, 7) && s.sends.raised == []
    requires s.waiting == [42.0] && s.cooldownUntil == 56.0 && s.peak == 1
    ensures var e := Run(SHIPPED, s, BOTH_LAND);
      e.sends.all == Sixes(0, 7) + [56.0, 56.0] && e.sends.raised == [] && e.peak == 2
  {
    OneLands(s);
    OtherLands(Run(SHIPPED, s, ONE_LANDS));
    RunAppend(SHIPPED, s, ONE_LANDS, OTHER_LANDS);
    assert Sixes(0, 7) + [56.0] + [56.0] == Sixes(0, 7) + [56.0, 56.0];
  }

  /** On every run at the shipped settings in which at most `w` entries of the symbol wait at once and at
      most `r` raised calls reach the exchange, the exchange gets at most 8 entries in any minute. */
  ghost predicate KeepsLimit(w: nat, r: nat) {
    forall es: seq<Event>, start: real ::
      NonDecreasingClock(es) && Run(SHIPPED, FRESH, es).peak <= w && |Run(SHIPPED, FRESH, es).sends.raised| <= r ==>
        |InWindow(Run(SHIPPED, FRESH, es).sends.all, start, MINUTE_S, true)| <= MAX_PER_MINUTE
  }

  /** A run with nine sends in the minute from 0 on. */
  ghost predicate Nine(es: seq<Event>, w: nat, r: nat) {
    var s := Run(SHIPPED, FRESH, es);
    && NonDecreasingClock(es) && s.peak <= w && |s.sends.raised| <= r
    && |InWindow(s.sends.all, 0.0, MINUTE_S, true)| == 9
  }

  lemma NineBreaks(es: seq<Event>, w: nat, r: nat)
    requires Nine(es, w, r)
    ensures !KeepsLimit(w, r)
  {}

  lemma LastTwoRun(s: Sym, last: seq<Event>)
    requires AfterCycles(s, [], 0, 7) && last == FIRST_WAITS + BOTH_LAND
    ensures var e := Run(SHIPPED, s, last);
      e.sends.all == Sixes(0, 7) + [56.0, 56.0] && e.sends.raised == [] && e.peak == 2
    ensures NonDecreasingClock(last) && forall i :: 0 <= i < |last| ==> 42.0 <= last[i].t
  {
    RunAppend(SHIPPED, s, FIRST_WAITS, BOTH_LAND);
    FirstWaits(s);
    BothLand(Run(SHIPPED, s, FIRST_WAITS));
  }

  lemma OverlapRun(n: nat, last: seq<Event>)
    requires n == 7 && last == FIRST_WAITS + BOTH_LAND
    ensures var s := Run(SHIPPED, FRESH, Cycles(0, n) + last);
      s.sends.all == Sixes(0, n) + [56.0, 56.0] && s.sends.raised == [] && s.peak == 2
    ensures NonDecreasingClock(Cycles(0, n) + last)
  {
    CyclesRun(FRESH, [], 0, n);
    CyclesClocked(0, n);
    RunAppend(SHIPPED, FRESH, Cycles(0, n), last);
    LastTwoRun(Run(SHIPPED, FRESH, Cycles(0, n)), last);
    JoinClock(Cycles(0, n), last, 42.0);
  }

  /** Seven entries placed at once, then two that wait together: nine within 56 seconds. */
  lemma NineByOverlap(n: nat, last: seq<Event>)
    requires n == 7 && last == FIRST_WAITS + BOTH_LAND
    ensures Nine(Cycles(0, n) + last, 2, 0)
  {
    OverlapRun(n, last);
    AllInWindow(Sixes(0, n) + [56.0, 56.0], 0.0);
  }

  lemma RaiseRun(n: nat)
    requires n == 8
    ensures var s := Run(SHIPPED, FRESH, Raise(0) + Cycles(1, n));
      s.sends.all == [0.0] + Sixes(1, n) && s.sends.raised == [0.0] && s.peak <= 1
    ensures NonDecreasingClock(Raise(0) + Cycles(1, n))
  {
    RaiseRuns(SHIPPED, FRESH, 0);
    var s := Run(SHIPPED, FRESH, Raise(0));
    assert AfterCycles(s, [0.0], 1, 0) by { assert s.sends.all == [0.0] + Sixes(1, 0); }
    CyclesRun(s, [0.0], 1, n);
    CyclesClocked(1, n);
    RunAppend(SHIPPED, FRESH, Raise(0), Cycles(1, n));
    JoinClock(Raise(0), Cycles(1, n), 0.0);
  }

  /** One raised call, then eight entries placed at once: nine within 48 seconds, never two waiting. */
  lemma NineByRaise(n: nat)
    requires n == 8
    ensures Nine(Raise(0) + Cycles(1, n), 1, 1)
  {
    RaiseRun(n);
    AllInWindow([0.0] + Sixes(1, n), 0.0);
  }

  lemma {:induction false} NothingPassed(cfg: Config, s: Sym, es: seq<Event>)
    requires s.waiting == [] && Run(cfg, s, es).peak == 0
    ensures Run(cfg, s, es).sends == s.sends
    decreases |es|
  {
    if es != [] {
      PeakGrows(cfg, Step(cfg, s, es[0]), es[1..]);
      NothingPassed(cfg, Step(cfg, s, es[0]), es[1..]);
    }
  }

  /** At the shipped settings the exchange gets at most 8 entries of a symbol in any minute if and only if
      no two of them wait at once and no raised call reaches it, or none is ever sent. */
  lemma LimitKeptIff(w: nat, r: nat)
    ensures KeepsLimit(w, r) <==> w == 0 || (w == 1 && r == 0)
  {
    if w == 0 || (w == 1 && r == 0) {
      forall es: seq<Event>, start: real
        | NonDecreasingClock(es) && Run(SHIPPED, FRESH, es).peak <= w && |Run(SHIPPED, FRESH, es).sends.raised| <= r
        ensures |InWindow(Run(SHIPPED, FRESH, es).sends.all, start, MINUTE_S, true)| <= MAX_PER_MINUTE
      {
        SendsAreLimited(SHIPPED, es, start);
        WindowFits(Run(SHIPPED, FRESH, es).sends.raised, start);
        if w == 0 { NothingPassed(SHIPPED, FRESH, es); }
      }
    } else {
      var n, m := 7, 8;
      if w > 1 {
        var last := FIRST_WAITS + BOTH_LAND;
        NineByOverlap(n, last);
        NineBreaks(Cycles(0, n) + last, w, r);
      } else {
        NineByRaise(m);
        NineBreaks(Raise(0) + Cycles(1, m), w, r);
      }
    }
  }

  // ----- When a check passes -----

  lemma PrunedCount(times: seq<real>, placed: seq<real>, cutoff: real, max: nat)
    requires Covers(times, placed, cutoff) && Sorted(placed) && max <= QUEUE_MAXLEN
    requires times != [] ==> times[0] >= cutoff
    ensures |times| < max <==> |MinuteBefore(placed, cutoff + MINUTE_S)| < max
  {
    var off, s := |placed| - |times|, MinuteBefore(placed, cutoff + MINUTE_S);
    forall i | off <= i < |placed| ensures i in s {
      assert placed[off] == times[0] && placed[off] <= placed[i];
    }
    if |times| < QUEUE_MAXLEN {
      forall i ensures i in s <==> off <= i < |placed| {
        if 0 <= i < off { assert Past(placed[i], cutoff, true); }
      }
      EndSize(placed, times, s);
    } else {
      var newest := set i | i in s && off <= i;
      EndSize(placed, times, newest);
      SubsetSize(newest, s);
    }
  }

  lemma SubsetSize(a: set<int>, b: set<int>)
    requires a <= b
    ensures |a| <= |b|
  {
    assert b == a + (b - a);
  }

  lemma CountOf(cfg: Config, es: seq<Event>, t: real)
    requires cfg.max <= QUEUE_MAXLEN && NonDecreasingClock(es) && (es != [] ==> es[|es| - 1].t <= t)
    ensures var s := Run(cfg, FRESH, es);
      |Prune(s.times, t - MINUTE_S)| < cfg.max <==> |MinuteBefore(s.sends.placed, t)| < cfg.max
  {
    var s := Run(cfg, FRESH, es);
    var w := if s.peak == 0 then 1 else s.peak;
    var start := if es == [] then t else es[0].t;
    assert Room(cfg.max + w - 1, FRESH, start) by {
      assert OldUpTo(FRESH.sends.placed, 0, start - MINUTE_S) && Leaves(FRESH, 0, cfg.max + w - 1);
    }
    var end := RunInv(cfg, w, FRESH, es, start);
    PruneCovers(s.times, s.sends.placed, end - MINUTE_S, t - MINUTE_S);
    PrunedStartsLate(s.times, t - MINUTE_S);
    PrunedCount(Prune(s.times, t - MINUTE_S), s.sends.placed, t - MINUTE_S, cfg.max);
  }

  /** After any run, a live decision is queued exactly when the symbol is idle and out of its cooldown, the
      queue has room, and fewer than `max` of its entries were counted in the minute before. */
  lemma PassesIff(cfg: Config, es: seq<Event>, t: real, live: bool)
    requires cfg.max <= QUEUE_MAXLEN && NonDecreasingClock(es) && (es != [] ==> es[|es| - 1].t <= t)
    ensures var s, s1 := Run(cfg, FRESH, es), Step(cfg, Run(cfg, FRESH, es), Decide(t, live));
      && s1.sends == s.sends
      && if live && s.phase.Idle? && t >= s.cooldownUntil && |s.waiting| < cfg.capacity
            && |MinuteBefore(s.sends.placed, t)| < cfg.max
         then s1.waiting == s.waiting + [t] && s1.phase == Pending(t)
         else s1.waiting == s.waiting && s1.phase == s.phase
  {
    CountOf(cfg, es, t);
  }

  /** No other loop moves the symbol. */
  predicate Unmoved(es: seq<Event>) { forall i :: 0 <= i < |es| ==> !es[i].Moved? }

  predicate Until(es: seq<Event>, t: real) { forall i :: 0 <= i < |es| ==> es[i].t < t }

  /** The symbol holds a position, its order is still given time, or it is cooling down. */
  predicate AtEase(cfg: Config, s: Sym, es: seq<Event>) {
    match s.phase
    case Held => true
    case Pending(since) => forall i :: 0 <= i < |es| ==> es[i].t <= since + cfg.fillWait
    case Idle => Until(es, s.cooldownUntil)
  }

  lemma {:induction false} NothingHappens(cfg: Config, s: Sym, es: seq<Event>)
    requires s.waiting == [] && Unmoved(es) && AtEase(cfg, s, es)
    ensures Run(cfg, s, es) == s
    decreases |es|
  {
    if es != [] {
      assert Step(cfg, s, es[0]) == s;
      NothingHappens(cfg, s, es[1..]);
    }
  }

  /** The events fall in the time in which this answer of time `t` keeps the symbol from sending. */
  predicate KeptBack(cfg: Config, t: real, answer: Answer, es: seq<Event>) {
    match answer
    case Filled => true
    case Resting => forall i :: 0 <= i < |es| ==> es[i].t <= t + cfg.fillWait
    case Unreadable => Until(es, t + 5.0)
  }

  /** What an answer to the only waiting entry means for the next one, unless another loop moves the symbol:
      after a fill nothing is sent any more, with the order on the book nothing while it is given time, and
      after an unreadable answer nothing for five seconds. */
  lemma AfterAnswer(cfg: Config, s: Sym, t: real, answer: Answer, es: seq<Event>)
    requires |s.waiting| == 1 && Unmoved(es) && KeptBack(cfg, t, answer, es)
    ensures var s1 := Run(cfg, Step(cfg, s, Placed(t, 0, answer)), es);
      s1.sends.all == s.sends.all + [t] && s1.sends.placed == s.sends.placed + [t] && s1.waiting == []
  {
    NothingHappens(cfg, Step(cfg, s, Placed(t, 0, answer)), es);
  }

  /** After a call that raised, or a pending entry that was given up once its time was over, nothing is sent
      for five seconds. */
  lemma AfterFailure(cfg: Config, s: Sym, t: real, reached: bool, es: seq<Event>)
    requires Unmoved(es) && Until(es, t + 5.0)
    ensures |s.waiting| == 1 ==>
      var s1 := Run(cfg, Step(cfg, s, Failed(t, 0, reached)), es);
      s1.sends.all == (if reached then s.sends.all + [t] else s.sends.all) && s1.sends.placed == s.sends.placed
    ensures s.waiting == [] && s.phase.Pending? && t > s.phase.since + cfg.fillWait ==>
      var s1 := Run(cfg, Step(cfg, s, Timeout(t)), es);
      s1.phase.Idle? && s1.sends == s.sends && s1.waiting == []
  {
    if |s.waiting| == 1 { NothingHappens(cfg, Step(cfg, s, Failed(t, 0, reached)), es); }
    if s.waiting == [] && s.phase.Pending? && t > s.phase.since + cfg.fillWait {
      NothingHappens(cfg, Step(cfg, s, Timeout(t)), es);
    }
  }

  // ----- The symbol -----

  class Tracker {
    const cfg: Config
    var phase: Phase
    var cooldownUntil: real
    var d: seq<real>
    var queue: seq<real>
    ghost var sends: Sends
    ghost var peak: nat
    ghost var overlaps: nat

    ghost function View(): Sym
      reads this
    {
      Sym(phase, cooldownUntil, d, queue, sends, peak, overlaps)
    }

    constructor (cfg: Config)
      ensures View() == FRESH && this.cfg == cfg
    {
      this.cfg, phase, cooldownUntil, d, queue := cfg, Idle, 0.0, [], [];
      sends, peak, overlaps := Sends([], [], []), 0, 0;
    }

    /** The check forgets the sends of more than a minute ago and compares the rest with the limit. */
    method CanSend(now: real) returns (ok: bool)
      modifies this`d
      ensures d == Prune(old(d), now - MINUTE_S) && ok == (|d| < cfg.max)
    {
      var cutoff := now - 60.0;
      while d != [] && d[0] < cutoff
        invariant Prune(d, cutoff) == Prune(old(d), cutoff)
        decreases |d|
      {
        d := d[1..];
      }
      ok := |d| < cfg.max;
    }

    method Increment(now: real)
      modifies this`d
      ensures d == Append(old(d), now)
    {
      if |d| == QUEUE_MAXLEN { d := d[1..]; }
      d := d + [now];
    }

    /** The entry path of an idle symbol; a full queue drops the order. */
    method TryEntry(t: real, live: bool)
      modifies this
      ensures View() == Step(cfg, old(View()), Decide(t, live))
    {
      if !phase.Idle? || t < cooldownUntil { return; }
      var ok := CanSend(t);
      if !ok || !live || |queue| >= cfg.capacity { return; }
      overlaps := if queue == [] then overlaps else overlaps + 1;
      queue := queue + [t];
      peak := if |queue| > peak then |queue| else peak;
      phase := Pending(t);
    }

    method CheckTimeout(t: real)
      modifies this
      ensures View() == Step(cfg, old(View()), Timeout(t))
    {
      if phase.Pending? && t - phase.since > cfg.fillWait {
        phase, cooldownUntil := Idle, t + 5.0;
      }
    }

    /** A worker's order for this symbol came back; None when placing it raised. */
    method WorkerDone(t: real, i: nat, answer: Option<Answer>, ghost reached: bool)
      modifies this
      ensures View() ==
        Step(cfg, old(View()), if answer.Some? then Placed(t, i, answer.value) else Failed(t, i, reached))
    {
      if i >= |queue| { return; }
      queue := queue[..i] + queue[i + 1..];
      if answer.Some? {
        Increment(t);
        sends := SendPlaced(sends, t);
      } else {
        sends := if reached then SendRaised(sends, t) else sends;
      }
      match answer
      case Some(Filled) => phase := Held;
      case Some(Resting) => phase := Pending(t);
      case _ => phase, cooldownUntil := Idle, t + 5.0;
    }
  }
}
