/** The evicting Binance price history, its look-back query and the momentum filter on top. */
module PriceHistory {
  import opened Common

  datatype Tick = Tick(ts: real, mid: real)

  datatype Side = Buy | Sell

  const MAXLEN := 4096
  const MAX_AGE_MS := 30000.0
  const MIN_TF_AGREE := 3
  const MOMENTUM_TF_MS := [1000.0, 5000.0, 10000.0, 20000.0]

  predicate NonDecreasing(s: seq<Tick>) {
    forall i, j :: 0 <= i < j < |s| ==> s[i].ts <= s[j].ts
  }

  function Evict(dq: seq<Tick>, cutoff: real): seq<Tick> {
    if dq != [] && dq[0].ts < cutoff then Evict(dq[1..], cutoff) else dq
  }

  /** `append` on a bounded deque, then the age eviction. */
  function Push(dq: seq<Tick>, t: Tick): seq<Tick> {
    Evict((if |dq| == MAXLEN then dq[1..] else dq) + [t], t.ts - MAX_AGE_MS)
  }

  /** A tick is young and recent enough to be kept. */
  predicate Keep(full: seq<Tick>, i: int)
    requires 0 <= i < |full|
  {
    i >= |full| - MAXLEN && full[i].ts >= full[|full| - 1].ts - MAX_AGE_MS
  }

  /** The deque is exactly the part of the full history that is worth keeping. */
  predicate Retains(full: seq<Tick>, dq: seq<Tick>) {
    && |dq| <= |full| && dq == full[|full| - |dq|..]
    && forall i :: 0 <= i < |full| ==> (i >= |full| - |dq| <==> Keep(full, i))
  }

  lemma {:induction false} EvictIsSuffix(dq: seq<Tick>, cutoff: real)
    requires NonDecreasing(dq)
    ensures var e := Evict(dq, cutoff);
      && |e| <= |dq| && e == dq[|dq| - |e|..]
      && forall i :: 0 <= i < |dq| ==> (i >= |dq| - |e| <==> dq[i].ts >= cutoff)
    decreases |dq|
  {
    if dq != [] && dq[0].ts < cutoff {
      EvictIsSuffix(dq[1..], cutoff);
      assert forall i :: 1 <= i < |dq| ==> dq[i] == dq[1..][i - 1];
    }
  }

  /** One more tick: what was not worth keeping stays that way. */
  lemma KeepNext(full: seq<Tick>, t: Tick, i: int)
    requires 0 <= i <= |full| && NonDecreasing(full + [t])
    ensures Keep(full + [t], i) <==>
            (i == |full| || Keep(full, i)) && i >= |full| + 1 - MAXLEN && (full + [t])[i].ts >= t.ts - MAX_AGE_MS
  {
    var next := full + [t];
    assert next[|next| - 1] == t;
    if i < |full| { assert next[i] == full[i] && next[|full| - 1].ts <= next[|full|].ts; }
  }

  lemma SuffixOfSuffix(s: seq<Tick>, a: seq<Tick>, b: seq<Tick>)
    requires |b| <= |a| <= |s| && a == s[|s| - |a|..] && b == a[|a| - |b|..]
    ensures b == s[|s| - |b|..]
  {}

  lemma SuffixAppend(s: seq<Tick>, a: seq<Tick>, t: Tick)
    requires |a| <= |s| && a == s[|s| - |a|..]
    ensures a + [t] == (s + [t])[|s| - |a|..]
  {}

  function Grown(dq: seq<Tick>, t: Tick): seq<Tick> { (if |dq| == MAXLEN then dq[1..] else dq) + [t] }

  lemma GrownIsSuffix(full: seq<Tick>, dq: seq<Tick>, t: Tick)
    requires Retains(full, dq)
    ensures var g, next := Grown(dq, t), full + [t]; |g| <= |next| && g == next[|next| - |g|..]
    ensures |dq| <= MAXLEN
    ensures |Grown(dq, t)| == if |dq| == MAXLEN then MAXLEN else |dq| + 1
  {
    assert |dq| <= MAXLEN by { assert |dq| > 0 ==> Keep(full, |full| - |dq|); }
    var kept := if |dq| == MAXLEN then dq[1..] else dq;
    SuffixOfSuffix(full, dq, kept);
    SuffixAppend(full, kept, t);
  }

  /** Of a retained history exactly the last 4096 ticks of the last 30 seconds are in the deque. */
  lemma KeepsRecent(full: seq<Tick>, dq: seq<Tick>, i: int)
    requires Retains(full, dq) && 0 <= i < |full|
    ensures i >= |full| - |dq| <==> i >= |full| - 4096 && full[i].ts >= full[|full| - 1].ts - 30000.0
  {
    assert Keep(full, i) <==> i >= |full| - |dq|;
  }

  lemma SuffixSorted(s: seq<Tick>, a: seq<Tick>)
    requires NonDecreasing(s) && |a| <= |s| && a == s[|s| - |a|..]
    ensures NonDecreasing(a)
  {}

  /** Position `i` of the longer history is in the new deque exactly when it is worth keeping. */
  lemma PushKeepsAt(full: seq<Tick>, dq: seq<Tick>, t: Tick, i: int)
    requires Retains(full, dq) && NonDecreasing(full + [t]) && 0 <= i <= |full|
    ensures i >= |full| + 1 - |Push(dq, t)| <==> Keep(full + [t], i)
  {
    var next, g, cutoff := full + [t], Grown(dq, t), t.ts - MAX_AGE_MS;
    GrownIsSuffix(full, dq, t);
    SuffixSorted(next, g);
    EvictIsSuffix(g, cutoff);
    GrownEvicts(next, g, Push(dq, t), cutoff, i);
    KeepNext(full, t, i);
  }

  lemma PushRetains(full: seq<Tick>, dq: seq<Tick>, t: Tick)
    requires Retains(full, dq) && NonDecreasing(full + [t])
    ensures Retains(full + [t], Push(dq, t))
  {
    var next, g, e := full + [t], Grown(dq, t), Push(dq, t);
    GrownIsSuffix(full, dq, t);
    SuffixSorted(next, g);
    EvictIsSuffix(g, t.ts - MAX_AGE_MS);
    SuffixOfSuffix(next, g, e);
    forall i | 0 <= i < |next| ensures i >= |next| - |e| <==> Keep(next, i) { PushKeepsAt(full, dq, t, i); }
  }

  lemma GrownEvicts(next: seq<Tick>, grown: seq<Tick>, e: seq<Tick>, cutoff: real, i: int)
    requires |e| <= |grown| <= |next| && grown == next[|next| - |grown|..] && 0 <= i < |next|
    requires forall j :: 0 <= j < |grown| ==> (j >= |grown| - |e| <==> grown[j].ts >= cutoff)
    ensures i >= |next| - |e| <==> i >= |next| - |grown| && next[i].ts >= cutoff
  {
    var off := |next| - |grown|;
    if i >= off { assert next[i] == grown[i - off]; }
  }

  // ----- Look-back -----

  /** `i` is the position of the last tick at or before the target. */
  predicate IsLast(s: seq<Tick>, target: real, i: int) {
    0 <= i < |s| && s[i].ts <= target && forall j :: i < j < |s| ==> s[j].ts > target
  }

  /** The scan: remember every tick at or before the target, stop at the first later one. */
  function LookBack(s: seq<Tick>, target: real): Option<real> {
    if s == [] || s[0].ts > target then None
    else
      var rest := LookBack(s[1..], target);
      if rest.Some? then rest else Some(s[0].mid)
  }

  lemma {:induction false} LookBackSound(s: seq<Tick>, target: real)
    requires NonDecreasing(s)
    ensures var r := LookBack(s, target);
      if r.None? then forall i :: 0 <= i < |s| ==> s[i].ts > target
      else exists i :: IsLast(s, target, i) && r.value == s[i].mid
    decreases |s|
  {
    if s != [] && s[0].ts <= target {
      var t := s[1..];
      LookBackSound(t, target);
      if LookBack(t, target).Some? {
        var i :| IsLast(t, target, i) && LookBack(t, target).value == t[i].mid;
        LastOfTail(s, target, i);
      } else {
        assert forall j :: 0 < j < |s| ==> s[j] == t[j - 1];
        assert IsLast(s, target, 0);
      }
    }
  }

  lemma LastOfTail(s: seq<Tick>, target: real, i: int)
    requires s != [] && IsLast(s[1..], target, i)
    ensures IsLast(s, target, i + 1)
  {
    assert forall j :: 0 < j < |s| ==> s[j] == s[1..][j - 1];
  }

  lemma LookBackFindsLast(s: seq<Tick>, target: real)
    requires NonDecreasing(s)
    ensures LookBack(s, target).None? <==> forall i :: 0 <= i < |s| ==> s[i].ts > target
    ensures forall i :: IsLast(s, target, i) ==> LookBack(s, target) == Some(s[i].mid)
    ensures LookBack(s, target).Some? ==> exists i :: IsLast(s, target, i)
  {
    LookBackSound(s, target);
  }

  /** Evicted history never lies: the price read from the deque is missing or that of the full
      history's last tick at or before the target, and it is that price exactly when the tick is
      young and recent enough to be kept. */
  lemma LookBackNeverLies(full: seq<Tick>, dq: seq<Tick>, target: real, i: int)
    requires Retains(full, dq) && NonDecreasing(full) && IsLast(full, target, i)
    ensures LookBack(dq, target) == if Keep(full, i) then Some(full[i].mid) else None
  {
    var off := |full| - |dq|;
    LookBackFindsLast(dq, target);
    if Keep(full, i) {
      assert IsLast(dq, target, i - off);
    } else {
      assert forall j :: 0 <= j < |dq| ==> dq[j] == full[j + off] && dq[j].ts > target;
    }
  }

  lemma NothingToFind(full: seq<Tick>, dq: seq<Tick>, target: real)
    requires Retains(full, dq) && NonDecreasing(full) && forall i :: 0 <= i < |full| ==> full[i].ts > target
    ensures LookBack(dq, target).None?
  {
    LookBackFindsLast(dq, target);
  }

  // ----- Momentum -----

  /** The move over one look-back window favours the side; a missing or non-positive price does not. */
  predicate Agrees(now: Tick, past: Option<real>, side: Side) {
    && past.Some? && past.value > 0.0
    && var bp := (now.mid - past.value) / past.value * 10000.0;
       (side == Buy && bp > 0.0) || (side == Sell && bp < 0.0)
  }

  /** How many of the first `n` windows agree, for past prices given by `past`. */
  function AgreeCount(now: Tick, past: seq<Option<real>>, side: Side): (n: nat)
    ensures n <= |past|
  {
    if past == [] then 0
    else AgreeCount(now, past[..|past| - 1], side) + if Agrees(now, past[|past| - 1], side) then 1 else 0
  }

  function Pasts(dq: seq<Tick>, n: nat): seq<Option<real>>
    requires dq != [] && n <= |MOMENTUM_TF_MS|
  {
    seq(n, k requires 0 <= k < n => LookBack(dq, dq[|dq| - 1].ts - MOMENTUM_TF_MS[k]))
  }

  predicate Passes(dq: seq<Tick>, side: Side) {
    && |dq| >= 2 && dq[|dq| - 1].mid > 0.0
    && AgreeCount(dq[|dq| - 1], Pasts(dq, 4), side) >= MIN_TF_AGREE
  }

  predicate Beats(now: real, past: real, side: Side) {
    past > 0.0 && if side == Buy then past < now else past > now
  }

  predicate FavoursAt(dq: seq<Tick>, window: real, side: Side, i: int)
    requires dq != []
  {
    IsLast(dq, dq[|dq| - 1].ts - window, i) && Beats(dq[|dq| - 1].mid, dq[i].mid, side)
  }

  /** The last tick at least `window` ms older than the newest has a positive mid, below the newest one for
      a buy and above it for a sell. */
  ghost predicate Favours(dq: seq<Tick>, window: real, side: Side)
    requires dq != []
  {
    exists i :: FavoursAt(dq, window, side, i)
  }

  ghost function One(b: bool): nat { if b then 1 else 0 }

  /** How many of the windows of 1, 5, 10 and 20 seconds favour the side. */
  ghost function WindowsFor(dq: seq<Tick>, side: Side): nat
    requires dq != []
  {
    One(Favours(dq, 1000.0, side)) + One(Favours(dq, 5000.0, side))
    + One(Favours(dq, 10000.0, side)) + One(Favours(dq, 20000.0, side))
  }

  lemma MoveSign(now: real, past: real)
    requires past > 0.0
    ensures (now - past) / past * 10000.0 > 0.0 <==> now > past
    ensures (now - past) / past * 10000.0 < 0.0 <==> now < past
  {
    var x := (now - past) / past;
    assert x * past == now - past;
  }

  lemma AgreesSign(now: Tick, past: Option<real>, side: Side)
    ensures Agrees(now, past, side) <==> past.Some? && Beats(now.mid, past.value, side)
  {
    if past.Some? && past.value > 0.0 { MoveSign(now.mid, past.value); }
  }

  lemma LastUnique(s: seq<Tick>, target: real, i: int, j: int)
    requires IsLast(s, target, i) && IsLast(s, target, j)
    ensures i == j
  {}

  lemma PastAt(dq: seq<Tick>, target: real, i: int)
    requires NonDecreasing(dq) && IsLast(dq, target, i)
    ensures LookBack(dq, target) == Some(dq[i].mid)
  {
    LookBackFindsLast(dq, target);
  }

  lemma LastOfPast(dq: seq<Tick>, target: real) returns (i: int)
    requires NonDecreasing(dq) && LookBack(dq, target).Some?
    ensures IsLast(dq, target, i)
  {
    LookBackFindsLast(dq, target);
    i :| IsLast(dq, target, i);
  }

  lemma FavoursByPast(dq: seq<Tick>, window: real, side: Side, past: Option<real>)
    requires dq != [] && NonDecreasing(dq) && past == LookBack(dq, dq[|dq| - 1].ts - window)
    ensures Favours(dq, window, side) <==> past.Some? && Beats(dq[|dq| - 1].mid, past.value, side)
  {
    var target := dq[|dq| - 1].ts - window;
    if past.Some? {
      var i := LastOfPast(dq, target);
      PastAt(dq, target, i);
      assert Beats(dq[|dq| - 1].mid, past.value, side) ==> FavoursAt(dq, window, side, i);
    }
    if k :| FavoursAt(dq, window, side, k) { PastAt(dq, target, k); }
  }

  lemma CountNext(dq: seq<Tick>, side: Side, n: nat)
    requires dq != [] && NonDecreasing(dq) && n < |MOMENTUM_TF_MS|
    ensures AgreeCount(dq[|dq| - 1], Pasts(dq, n + 1), side) ==
            AgreeCount(dq[|dq| - 1], Pasts(dq, n), side) + One(Favours(dq, MOMENTUM_TF_MS[n], side))
  {
    assert Pasts(dq, n + 1)[..n] == Pasts(dq, n);
    var now := dq[|dq| - 1];
    var past := LookBack(dq, now.ts - MOMENTUM_TF_MS[n]);
    assert Pasts(dq, n + 1)[n] == past;
    FavoursByPast(dq, MOMENTUM_TF_MS[n], side, past);
    AgreesSign(now, past, side);
  }

  lemma CountIsWindows(dq: seq<Tick>, side: Side)
    requires dq != [] && NonDecreasing(dq)
    ensures AgreeCount(dq[|dq| - 1], Pasts(dq, 4), side) == WindowsFor(dq, side)
  {
    CountNext(dq, side, 0);
    CountNext(dq, side, 1);
    CountNext(dq, side, 2);
    CountNext(dq, side, 3);
    assert Pasts(dq, 0) == [];
  }

  /** A history whose mids are positive and strictly rise, over at least 20 seconds. */
  predicate Rising(dq: seq<Tick>) {
    && NonDecreasing(dq) && |dq| >= 2 && dq[|dq| - 1].ts - dq[0].ts >= 20000.0 && dq[0].mid > 0.0
    && forall i, j :: 0 <= i < j < |dq| ==> dq[i].mid < dq[j].mid
  }

  lemma SomeLast(dq: seq<Tick>, target: real) returns (i: int)
    requires NonDecreasing(dq) && dq != [] && dq[0].ts <= target
    ensures IsLast(dq, target, i)
  {
    LookBackFindsLast(dq, target);
    i :| IsLast(dq, target, i);
  }

  lemma EarlierIsLower(dq: seq<Tick>, i: int)
    requires Rising(dq) && 0 <= i < |dq| - 1
    ensures 0.0 < dq[i].mid < dq[|dq| - 1].mid
  {
    assert i > 0 ==> dq[0].mid < dq[i].mid;
  }

  lemma RisingFavoursBuy(dq: seq<Tick>, window: real)
    requires Rising(dq) && 0.0 < window <= 20000.0
    ensures Favours(dq, window, Buy) && !Favours(dq, window, Sell)
  {
    var target := dq[|dq| - 1].ts - window;
    var i := SomeLast(dq, target);
    EarlierIsLower(dq, i);
    assert FavoursAt(dq, window, Buy, i);
    if k :| FavoursAt(dq, window, Sell, k) { LastUnique(dq, target, i, k); }
  }

  /** A side passes exactly when at least three windows favour it, on a positive newest mid. */
  lemma PassesIff(dq: seq<Tick>, side: Side)
    ensures NonDecreasing(dq) ==>
      (Passes(dq, side) <==> |dq| >= 2 && dq[|dq| - 1].mid > 0.0 && WindowsFor(dq, side) >= 3)
    ensures Rising(dq) ==> (Passes(dq, side) <==> side == Buy)
  {
    if NonDecreasing(dq) && dq != [] { CountIsWindows(dq, side); }
    if Rising(dq) {
      RisingFavoursBuy(dq, 1000.0);
      RisingFavoursBuy(dq, 5000.0);
      RisingFavoursBuy(dq, 10000.0);
      RisingFavoursBuy(dq, 20000.0);
    }
  }

  /** The filter. On a history in time order it passes a side exactly when at least three windows favour it
      on a positive newest mid, so a history that rises for 20 seconds passes a buy and no sell. */
  method MomentumAgree(dq: seq<Tick>, side: Side) returns (pass: bool, agree: nat)
    ensures NonDecreasing(dq) ==>
      (pass <==> |dq| >= 2 && dq[|dq| - 1].mid > 0.0 && WindowsFor(dq, side) >= 3)
    ensures Rising(dq) ==> (pass <==> side == Buy)
    ensures pass == Passes(dq, side)
  {
    pass, agree := CountWindows(dq, side);
    PassesIff(dq, side);
  }

  /** The inner loop: the last mid at or before the target. */
  method PastMid(dq: seq<Tick>, target: real) returns (past: Option<real>)
    ensures past == LookBack(dq, target)
  {
    past := None;
    var i := 0;
    while i < |dq|
      invariant 0 <= i <= |dq|
      invariant LookBack(dq, target) == Later(past, LookBack(dq[i..], target))
    {
      assert dq[i..][0] == dq[i] && dq[i..][1..] == dq[i + 1..];
      if dq[i].ts > target { return; }
      past := Some(dq[i].mid);
      i := i + 1;
    }
  }

  /** The loop over the windows. */
  method CountWindows(dq: seq<Tick>, side: Side) returns (pass: bool, agree: nat)
    ensures pass == Passes(dq, side)
  {
    if |dq| < 2 { return false, 0; }
    var now := dq[|dq| - 1];
    if now.mid <= 0.0 { return false, 0; }
    agree := 0;
    for k := 0 to |MOMENTUM_TF_MS|
      invariant agree == AgreeCount(now, Pasts(dq, k), side)
    {
      var past := PastMid(dq, now.ts - MOMENTUM_TF_MS[k]);
      assert Pasts(dq, k + 1)[..k] == Pasts(dq, k);
      if past.None? || past.value <= 0.0 { continue; }
      var bp := (now.mid - past.value) / past.value * 10000.0;
      if (side == Buy && bp > 0.0) || (side == Sell && bp < 0.0) { agree := agree + 1; }
    }
    pass := agree >= MIN_TF_AGREE;
  }

  function Later(past: Option<real>, rest: Option<real>): Option<real> { if rest.Some? then rest else past }

  lemma {:induction false} SidesShareWindows(now: Tick, past: seq<Option<real>>)
    ensures AgreeCount(now, past, Buy) + AgreeCount(now, past, Sell) <= |past|
  {
    if past != [] { SidesShareWindows(now, past[..|past| - 1]); }
  }

  /** On one history a buy and a sell can never both pass the 3-of-4 test. */
  lemma NeverBothSides(dq: seq<Tick>)
    ensures !(Passes(dq, Buy) && Passes(dq, Sell))
  {
    if |dq| >= 2 { SidesShareWindows(dq[|dq| - 1], Pasts(dq, 4)); }
  }

  /** The price of the full history's last tick at or before a target. */
  ghost function TruePast(full: seq<Tick>, target: real): Option<real> {
    if exists i :: IsLast(full, target, i) then
      var i :| IsLast(full, target, i);
      Some(full[i].mid)
    else None
  }

  ghost function TruePasts(full: seq<Tick>, n: nat): seq<Option<real>>
    requires full != [] && n <= |MOMENTUM_TF_MS|
  {
    seq(n, k requires 0 <= k < n => TruePast(full, full[|full| - 1].ts - MOMENTUM_TF_MS[k]))
  }

  lemma PastIsTrueOrMissing(full: seq<Tick>, dq: seq<Tick>, target: real)
    requires Retains(full, dq) && NonDecreasing(full)
    ensures LookBack(dq, target) in {None, TruePast(full, target)}
  {
    if i :| IsLast(full, target, i) {
      forall j | IsLast(full, target, j) ensures j == i { }
      LookBackNeverLies(full, dq, target, i);
    } else {
      LookBackFindsLast(full, target);
      NothingToFind(full, dq, target);
    }
  }

  lemma {:induction false} FewerAgree(now: Tick, a: seq<Option<real>>, b: seq<Option<real>>, side: Side)
    requires |a| == |b| && forall k :: 0 <= k < |a| ==> a[k].None? || a[k] == b[k]
    ensures AgreeCount(now, a, side) <= AgreeCount(now, b, side)
  {
    if a != [] { FewerAgree(now, a[..|a| - 1], b[..|b| - 1], side); }
  }

  /** A pass on the evicted deque is a pass on the full history: eviction can only withhold windows. */
  lemma PassIsTrue(full: seq<Tick>, dq: seq<Tick>, side: Side)
    requires Retains(full, dq) && NonDecreasing(full) && Passes(dq, side)
    ensures full != [] && AgreeCount(full[|full| - 1], TruePasts(full, 4), side) >= MIN_TF_AGREE
  {
    var a, b := Pasts(dq, 4), TruePasts(full, 4);
    assert dq[|dq| - 1] == full[|full| - 1];
    forall k | 0 <= k < 4 ensures a[k].None? || a[k] == b[k] {
      PastIsTrueOrMissing(full, dq, full[|full| - 1].ts - MOMENTUM_TF_MS[k]);
    }
    FewerAgree(full[|full| - 1], a, b, side);
  }

  // ----- The feed -----

  class History {
    var dq: seq<Tick>
    ghost var full: seq<Tick>

    constructor ()
      ensures dq == [] && full == [] && Retains(full, dq)
    {
      dq, full := [], [];
    }

    /** One feed message. For a nondecreasing clock the deque stays the kept part of the history. */
    method Append(ts: real, mid: real)
      requires Retains(full, dq) && NonDecreasing(full + [Tick(ts, mid)])
      modifies this
      ensures full == old(full) + [Tick(ts, mid)]
      ensures dq == Push(old(dq), Tick(ts, mid)) && Retains(full, dq)
    {
      var t := Tick(ts, mid);
      PushRetains(full, dq, t);
      if |dq| == MAXLEN { dq := dq[1..]; }
      dq := dq + [t];
      full := full + [t];
      var cutoff := ts - MAX_AGE_MS;
      ghost var grown := dq;
      while dq != [] && dq[0].ts < cutoff
        invariant Evict(dq, cutoff) == Evict(grown, cutoff)
        invariant full == old(full) + [t]
        decreases |dq|
      {
        dq := dq[1..];
      }
    }
  }
}
