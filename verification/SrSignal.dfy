/** The spread-reversion signal generator: per-coin state, one shared id counter, one output stream. */
module SrSignal {
  import opened Common

  type Coin = string

  const ENTRY_BP := 2.0
  const STOP_BP := 20.0
  const MAX_HOLD_S := 1800.0
  const COOLDOWN_S := 30.0
  const HISTORY_MAX := 1800
  const HISTORY_MIN := 600

  datatype Side = Long | Short

  datatype Quote = Quote(bid: real, ask: real)

  datatype Open = Open(side: Side, entryPx: real, entryT: real, mid: real, pid: nat)

  datatype S = S(binMid: Option<real>, bx: Option<Quote>, history: seq<real>,
                 lastSample: real, lastSignal: real, open: Option<Open>)

  const FRESH := S(None, None, [], 0.0, 0.0, None)

  datatype Signal = Signal(coin: Coin, entry: bool, side: Side, pid: nat, t: real)

  datatype World = World(coins: map<Coin, S>, nextPid: nat, log: seq<Signal>)

  /** A Binance quote, or a BingX quote with the clock reading taken when it is considered. */
  datatype Tick = Reference(coin: Coin, q: Quote) | Venue(coin: Coin, q: Quote, t: real)

  function Mid(q: Quote): real { (q.bid + q.ask) / 2.0 }

  // ----- The baseline -----

  function Insert(x: real, s: seq<real>): (r: seq<real>)
    ensures |r| == |s| + 1
  {
    if s == [] then [x] else if x <= s[0] then [x] + s else [s[0]] + Insert(x, s[1..])
  }

  function Sort(s: seq<real>): (r: seq<real>)
    ensures |r| == |s|
  {
    if s == [] then [] else Insert(s[0], Sort(s[1..]))
  }

  predicate Ascending(s: seq<real>) { forall i, j :: 0 <= i < j < |s| ==> s[i] <= s[j] }

  lemma {:induction false} InsertKeeps(x: real, s: seq<real>)
    ensures multiset(Insert(x, s)) == multiset(s) + multiset{x}
  {
    if s != [] {
      assert s == [s[0]] + s[1..];
      if !(x <= s[0]) {
        InsertKeeps(x, s[1..]);
      }
    }
  }

  lemma {:induction false} InsertAscends(x: real, s: seq<real>)
    requires Ascending(s)
    ensures Ascending(Insert(x, s)) && Insert(x, s)[0] == if s != [] && s[0] < x then s[0] else x
  {
    if s != [] && !(x <= s[0]) {
      InsertAscends(x, s[1..]);
    }
  }

  function Baseline(h: seq<real>): real
    requires h != []
  {
    Sort(h)[|h| / 2]
  }

  lemma {:induction false} SortSorts(s: seq<real>)
    ensures Ascending(Sort(s)) && multiset(Sort(s)) == multiset(s)
  {
    if s != [] {
      SortSorts(s[1..]);
      InsertKeeps(s[0], Sort(s[1..]));
      InsertAscends(s[0], Sort(s[1..]));
      assert s == [s[0]] + s[1..];
    }
  }

  /** The baseline is the (upper) middle element of the samples in ascending order. */
  lemma BaselineIsMedian(h: seq<real>)
    requires h != []
    ensures exists r :: Ascending(r) && multiset(r) == multiset(h) && |r| == |h| && Baseline(h) == r[|h| / 2]
  {
    SortSorts(h);
  }

  // ----- One tick -----

  function GapBp(bin: real, q: Quote): real
    requires bin != 0.0
  {
    (Mid(q) - bin) / bin * 10000.0
  }

  function Append(h: seq<real>, x: real): seq<real> {
    if |h| < HISTORY_MAX then h + [x] else h[1..] + [x]
  }

  /** One sample at most every second. */
  function Sampled(s: S, t: real): S
    requires s.binMid.Some? && s.bx.Some? && s.binMid.value != 0.0
  {
    if t - s.lastSample >= 1.0
    then s.(history := Append(s.history, GapBp(s.binMid.value, s.bx.value)), lastSample := t)
    else s
  }

  function Threshold(q: Quote): real {
    var spread := if Mid(q) != 0.0 then (q.ask - q.bid) / Mid(q) * 10000.0 else 0.0;
    spread / 2.0 + ENTRY_BP
  }

  predicate Ready(s: S) { s.binMid.Some? && s.bx.Some? && s.binMid.value != 0.0 && |s.history| >= HISTORY_MIN }

  function Dev(s: S): real
    requires Ready(s)
  {
    GapBp(s.binMid.value, s.bx.value) - Baseline(s.history)
  }

  function AdverseBp(op: Open, q: Quote): real
    requires op.mid != 0.0
  {
    (if op.side == Long then op.entryPx - q.ask else q.bid - op.entryPx) / op.mid * 10000.0
  }

  predicate MustExit(s: S, op: Open, t: real)
    requires Ready(s) && op.mid != 0.0
  {
    || AdverseBp(op, s.bx.value) >= STOP_BP
    || t - op.entryT >= MAX_HOLD_S
    || (if op.side == Long then Dev(s) > Threshold(s.bx.value) else Dev(s) < -Threshold(s.bx.value))
  }

  function EntrySide(s: S): Option<Side>
    requires Ready(s)
  {
    if Dev(s) > Threshold(s.bx.value) then Some(Short)
    else if Dev(s) < -Threshold(s.bx.value) then Some(Long)
    else None
  }

  function Put(w: World, c: Coin, s: S): World { w.(coins := w.coins[c := s]) }

  function Manage(w: World, c: Coin, s: S, op: Open, t: real): World
    requires Ready(s)
  {
    if op.mid == 0.0 || !MustExit(s, op, t) then Put(w, c, s)
    else Put(w, c, s.(open := None, lastSignal := t)).(log := w.log + [Signal(c, false, op.side, op.pid, t)])
  }

  function Enter(w: World, c: Coin, s: S, t: real): World
    requires Ready(s)
  {
    if t - s.lastSignal < COOLDOWN_S || EntrySide(s).None? then Put(w, c, s)
    else
      var side := EntrySide(s).value;
      var px := if side == Short then s.bx.value.bid else s.bx.value.ask;
      Put(w, c, s.(open := Some(Open(side, px, t, Mid(s.bx.value), w.nextPid)), lastSignal := t)).(
        nextPid := w.nextPid + 1, log := w.log + [Signal(c, true, side, w.nextPid, t)])
  }

  /** A division by zero raises inside a guard that swallows it: what was assigned before it stays. */
  function Consider(w: World, c: Coin, t: real): World
    requires c in w.coins
  {
    var s := w.coins[c];
    if s.binMid.None? || s.bx.None? || s.binMid.value == 0.0 then w
    else
      var s1 := Sampled(s, t);
      if |s1.history| < HISTORY_MIN then Put(w, c, s1)
      else if s1.open.Some? then Manage(w, c, s1, s1.open.value, t)
      else Enter(w, c, s1, t)
  }

  function Step(w: World, k: Tick): World {
    if k.coin !in w.coins then w
    else
      var s := w.coins[k.coin];
      match k
      case Reference(c, q) => Put(w, c, s.(binMid := Some(Mid(q))))
      case Venue(c, q, t) => Consider(Put(w, c, s.(bx := Some(q))), c, t)
  }

  function Run(w: World, ticks: seq<Tick>): World
    decreases |ticks|
  {
    if ticks == [] then w else Run(Step(w, ticks[0]), ticks[1..])
  }

  // ----- The language of the output -----

  function Of(log: seq<Signal>, c: Coin): seq<Signal> {
    if log == [] then []
    else
      var rest := Of(log[..|log| - 1], c);
      if log[|log| - 1].coin == c then rest + [log[|log| - 1]] else rest
  }

  function EntryIds(log: seq<Signal>): seq<nat> {
    if log == [] then []
    else
      var rest := EntryIds(log[..|log| - 1]);
      if log[|log| - 1].entry then rest + [log[|log| - 1].pid] else rest
  }

  /** `tr[i]` follows `tr[i - 1]` rightly: an exit answers its own entry, and an entry comes after an
      exit and waits out the cooldown. */
  predicate Follows(tr: seq<Signal>, i: nat)
    requires i < |tr|
  {
    if i == 0 then tr[0].entry
    else if tr[i].entry then !tr[i - 1].entry && tr[i].t - tr[i - 1].t >= COOLDOWN_S
    else tr[i - 1].entry && tr[i].side == tr[i - 1].side && tr[i].pid == tr[i - 1].pid
  }

  ghost predicate WellSpoken(tr: seq<Signal>) { forall i: nat :: i < |tr| ==> Follows(tr, i) }

  lemma Speaks(tr: seq<Signal>, x: Signal)
    requires WellSpoken(tr) && Follows(tr + [x], |tr|)
    ensures WellSpoken(tr + [x])
  {
    forall i: nat | i < |tr + [x]|
      ensures Follows(tr + [x], i)
    {
      assert i < |tr| ==> Follows(tr, i);
    }
  }

  lemma OfAppend(log: seq<Signal>, x: Signal, c: Coin)
    ensures Of(log + [x], c) == if x.coin == c then Of(log, c) + [x] else Of(log, c)
    ensures EntryIds(log + [x]) == if x.entry then EntryIds(log) + [x.pid] else EntryIds(log)
  {
    assert (log + [x])[..|log|] == log;
  }

  /** What a coin's state remembers of its signals. */
  ghost predicate Remembers(s: S, tr: seq<Signal>) {
    && WellSpoken(tr)
    && (s.open.Some? <==> tr != [] && tr[|tr| - 1].entry)
    && (s.open.Some? ==>
          var op := s.open.value; var last := tr[|tr| - 1];
          op.side == last.side && op.pid == last.pid && op.entryT == last.t)
    && (tr != [] ==> s.lastSignal == tr[|tr| - 1].t)
  }

  /** Entry ids are exactly 1, 2, 3, ... in the order of publication. */
  ghost predicate Numbered(w: World) {
    && EntryIds(w.log) == seq(|EntryIds(w.log)|, i => i + 1)
    && w.nextPid == |EntryIds(w.log)| + 1
  }

  ghost predicate Inv(w: World) {
    && Numbered(w)
    && (forall c :: c in w.coins ==> Remembers(w.coins[c], Of(w.log, c)))
  }

  ghost predicate Init(w: World) {
    w.nextPid == 1 && w.log == [] && forall c :: c in w.coins ==> w.coins[c] == FRESH
  }

  lemma InitInv(w: World)
    requires Init(w)
    ensures Inv(w)
  {}

  lemma SilentInv(w: World, c: Coin, s: S)
    requires Inv(w) && c in w.coins
    requires s.open == w.coins[c].open && s.lastSignal == w.coins[c].lastSignal
    ensures Inv(Put(w, c, s))
  {
    assert Remembers(w.coins[c], Of(w.log, c));
  }

  lemma SaidInv(w: World, c: Coin, s: S, x: Signal, w1: World)
    requires Inv(w) && c in w.coins && x.coin == c
    requires w1.coins == w.coins[c := s] && w1.log == w.log + [x]
    requires w1.nextPid == if x.entry then w.nextPid + 1 else w.nextPid
    requires x.entry ==> x.pid == w.nextPid
    requires Follows(Of(w.log, c) + [x], |Of(w.log, c)|)
    requires s.lastSignal == x.t && (s.open.Some? <==> x.entry)
    requires s.open.Some? ==> s.open.value.side == x.side && s.open.value.pid == x.pid && s.open.value.entryT == x.t
    ensures Inv(w1)
  {
    OfAppend(w.log, x, c);
    Speaks(Of(w.log, c), x);
    assert Remembers(s, Of(w1.log, c));
    forall d | d in w1.coins
      ensures Remembers(w1.coins[d], Of(w1.log, d))
    {
      OfAppend(w.log, x, d);
    }
  }

  lemma ManageInv(w: World, c: Coin, s: S, t: real)
    requires Inv(w) && c in w.coins && Ready(s) && s.open.Some?
    requires s.open == w.coins[c].open && s.lastSignal == w.coins[c].lastSignal
    ensures Inv(Manage(w, c, s, s.open.value, t))
  {
    var op := s.open.value;
    var w1 := Manage(w, c, s, op, t);
    if op.mid == 0.0 || !MustExit(s, op, t) {
      SilentInv(w, c, s);
    } else {
      assert Remembers(w.coins[c], Of(w.log, c));
      SaidInv(w, c, s.(open := None, lastSignal := t), Signal(c, false, op.side, op.pid, t), w1);
    }
  }

  lemma EnterInv(w: World, c: Coin, s: S, t: real)
    requires Inv(w) && c in w.coins && Ready(s) && s.open.None?
    requires s.open == w.coins[c].open && s.lastSignal == w.coins[c].lastSignal
    ensures Inv(Enter(w, c, s, t))
  {
    var w1 := Enter(w, c, s, t);
    if t - s.lastSignal < COOLDOWN_S || EntrySide(s).None? {
      SilentInv(w, c, s);
    } else {
      assert Remembers(w.coins[c], Of(w.log, c));
      SaidInv(w, c, w1.coins[c], Signal(c, true, EntrySide(s).value, w.nextPid, t), w1);
    }
  }

  lemma StepInv(w: World, k: Tick)
    requires Inv(w)
    ensures Inv(Step(w, k))
  {
    if k.coin in w.coins {
      var c, s := k.coin, w.coins[k.coin];
      match k {
        case Reference(_, q) => SilentInv(w, c, s.(binMid := Some(Mid(q))));
        case Venue(_, q, t) =>
          var w0 := Put(w, c, s.(bx := Some(q)));
          SilentInv(w, c, s.(bx := Some(q)));
          var s0 := w0.coins[c];
          if s0.binMid.Some? && s0.binMid.value != 0.0 {
            var s1 := Sampled(s0, t);
            if |s1.history| < HISTORY_MIN { SilentInv(w0, c, s1); }
            else if s1.open.Some? { ManageInv(w0, c, s1, t); }
            else { EnterInv(w0, c, s1, t); }
          }
      }
    }
  }

  /** Every run keeps what the coins remember of their published signals. */
  lemma {:induction false} RunInv(w: World, ticks: seq<Tick>)
    requires Inv(w)
    ensures Inv(Run(w, ticks))
    decreases |ticks|
  {
    if ticks != [] {
      StepInv(w, ticks[0]);
      RunInv(Step(w, ticks[0]), ticks[1..]);
    }
  }

  /** Whatever the ticks, a coin's signals alternate from an entry on, each exit carries its entry's
      side and id, entries wait out the cooldown, and entry ids count 1, 2, 3, ... over all coins. */
  lemma OutputLanguage(w: World, ticks: seq<Tick>, c: Coin)
    requires Init(w) && c in w.coins && c in Run(w, ticks).coins
    ensures var tr := Of(Run(w, ticks).log, c);
      && (forall i: nat :: i < |tr| ==> Follows(tr, i) && (tr[i].entry <==> i % 2 == 0))
    ensures var ids := EntryIds(Run(w, ticks).log); forall i :: 0 <= i < |ids| ==> ids[i] == i + 1
  {
    InitInv(w);
    RunInv(w, ticks);
    var tr := Of(Run(w, ticks).log, c);
    assert Remembers(Run(w, ticks).coins[c], tr);
    forall i: nat | i < |tr|
      ensures Follows(tr, i) && (tr[i].entry <==> i % 2 == 0)
    {
      Alternates(tr, i);
    }
  }

  lemma {:induction false} Alternates(tr: seq<Signal>, i: nat)
    requires WellSpoken(tr) && i < |tr|
    ensures Follows(tr, i) && (tr[i].entry <==> i % 2 == 0)
  {
    assert Follows(tr, i);
    if i > 0 {
      Alternates(tr, i - 1);
    }
  }

  // ----- How long a position lives -----

  /** A tick on an old position either closes it or cannot: it closes exactly when the mid stored at
      entry is not zero. */
  lemma TimeoutIff(w: World, c: Coin, q: Quote, t: real)
    requires c in w.coins && w.coins[c].open.Some? && w.coins[c].binMid.Some? && w.coins[c].binMid.value != 0.0
    requires |w.coins[c].history| >= HISTORY_MIN && t - w.coins[c].open.value.entryT >= MAX_HOLD_S
    ensures Step(w, Venue(c, q, t)).coins[c].open.None? <==> w.coins[c].open.value.mid != 0.0
  {}

  lemma StepKeepsStuck(w: World, c: Coin, k: Tick)
    requires c in w.coins && w.coins[c].open.Some? && w.coins[c].open.value.mid == 0.0
    ensures var w1 := Step(w, k); c in w1.coins && w1.coins[c].open == w.coins[c].open && Of(w1.log, c) == Of(w.log, c)
  {
    var w1 := Step(w, k);
    if |w1.log| > |w.log| {
      var x := w1.log[|w.log|];
      assert w1.log == w.log + [x];
      OfAppend(w.log, x, c);
    }
  }

  /** A position whose stored mid is zero is never closed and silences its coin for good. */
  lemma {:induction false} ZeroMidNeverCloses(w: World, c: Coin, ticks: seq<Tick>)
    requires c in w.coins && w.coins[c].open.Some? && w.coins[c].open.value.mid == 0.0
    ensures var r := Run(w, ticks); c in r.coins && r.coins[c].open == w.coins[c].open && Of(r.log, c) == Of(w.log, c)
    decreases |ticks|
  {
    if ticks != [] {
      StepKeepsStuck(w, c, ticks[0]);
      ZeroMidNeverCloses(Step(w, ticks[0]), c, ticks[1..]);
    }
  }

  /** The coin after the venue quote and, if one is due, its baseline sample. */
  function Seen(s: S, q: Quote, t: real): S
    requires s.binMid.Some? && s.binMid.value != 0.0
  {
    Sampled(s.(bx := Some(q)), t)
  }

  /** Such a position is opened by a venue quote whose mid is zero, an empty book for instance: it reads as
      a gap of -10000 bp. A flat coin out of its cooldown enters on it exactly when the baseline, with the
      sample this tick may add, is further than the entry threshold from that. */
  lemma EmptyBookEntersIff(w: World, c: Coin, q: Quote, t: real)
    requires c in w.coins && w.coins[c].binMid.Some? && w.coins[c].binMid.value != 0.0 && w.coins[c].open.None?
    requires Mid(q) == 0.0 && t - w.coins[c].lastSignal >= COOLDOWN_S
    requires |Seen(w.coins[c], q, t).history| >= HISTORY_MIN
    ensures var base := Baseline(Seen(w.coins[c], q, t).history);
      var open := Step(w, Venue(c, q, t)).coins[c].open;
      && (open.Some? <==> base > -9998.0 || base < -10002.0)
      && (open.Some? ==> open.value.mid == 0.0 && (open.value.side == Long <==> base > -9998.0))
  {
    var bin := w.coins[c].binMid.value;
    assert (0.0 - bin) / bin == -1.0;
    assert GapBp(bin, q) == -10000.0 && Threshold(q) == ENTRY_BP;
  }

  ghost predicate PositiveBooks(ticks: seq<Tick>) {
    forall i :: 0 <= i < |ticks| ==> ticks[i].q.bid > 0.0 && ticks[i].q.ask > 0.0
  }

  ghost predicate NoZeroMid(w: World) {
    forall c :: c in w.coins ==> Sane(w.coins[c])
  }

  predicate Sane(s: S) {
    (s.binMid.Some? ==> s.binMid.value > 0.0) && (s.open.Some? ==> s.open.value.mid > 0.0)
  }

  lemma StepNoZeroMid(w: World, k: Tick)
    requires NoZeroMid(w) && k.q.bid > 0.0 && k.q.ask > 0.0
    ensures NoZeroMid(Step(w, k))
  {
    if k.coin in w.coins {
      assert Sane(w.coins[k.coin]);
      match k {
        case Reference(c, q) => assert Sane(w.coins[c].(binMid := Some(Mid(q))));
        case Venue(c, q, t) => ConsiderNoZeroMid(Put(w, c, w.coins[c].(bx := Some(q))), c, t);
      }
    }
  }

  lemma ConsiderNoZeroMid(w: World, c: Coin, t: real)
    requires NoZeroMid(w) && c in w.coins && (w.coins[c].bx.Some? ==> Mid(w.coins[c].bx.value) > 0.0)
    ensures NoZeroMid(Consider(w, c, t))
  {
    assert Sane(w.coins[c]);
    assert Sane(Consider(w, c, t).coins[c]);
  }

  lemma {:induction false} RunNoZeroMid(w: World, ticks: seq<Tick>)
    requires NoZeroMid(w) && PositiveBooks(ticks)
    ensures NoZeroMid(Run(w, ticks))
    decreases |ticks|
  {
    if ticks != [] {
      assert ticks[0].q.bid > 0.0 && ticks[0].q.ask > 0.0;
      StepNoZeroMid(w, ticks[0]);
      RunNoZeroMid(Step(w, ticks[0]), ticks[1..]);
    }
  }

  lemma {:induction false} RunAppend(w: World, a: seq<Tick>, k: Tick)
    ensures Run(w, a + [k]) == Step(Run(w, a), k)
    decreases |a|
  {
    if a == [] {
      assert (a + [k])[1..] == [];
    } else {
      assert (a + [k])[1..] == a[1..] + [k];
      RunAppend(Step(w, a[0]), a[1..], k);
    }
  }

  /** With positive books, after any run no position survives a venue tick of its coin at age
      MAX_HOLD_S or more; a coin with an open position always has its full history behind it. */
  lemma HoldIsBounded(w: World, ticks: seq<Tick>, c: Coin, q: Quote, t: real)
    requires Init(w) && PositiveBooks(ticks + [Venue(c, q, t)])
    ensures var r := Run(w, ticks + [Venue(c, q, t)]);
      c in r.coins && r.coins[c].open.Some? ==> t - r.coins[c].open.value.entryT < MAX_HOLD_S
  {
    var k := Venue(c, q, t);
    assert forall i :: 0 <= i < |ticks| ==> ticks[i] == (ticks + [k])[i];
    RunAppend(w, ticks, k);
    RunNoZeroMid(w, ticks);
    RunSeasoned(w, ticks);
    var m := Run(w, ticks);
    if c in m.coins && m.coins[c].open.Some? && t - m.coins[c].open.value.entryT >= MAX_HOLD_S {
      TimeoutIff(m, c, q, t);
    }
  }

  /** A position is only ever open on a coin with both feeds and enough history. */
  ghost predicate Seasoned(w: World) {
    forall c :: c in w.coins && w.coins[c].open.Some? ==>
      w.coins[c].binMid.Some? && |w.coins[c].history| >= HISTORY_MIN
  }

  lemma {:induction false} RunSeasoned(w: World, ticks: seq<Tick>)
    requires Seasoned(w)
    ensures Seasoned(Run(w, ticks))
    decreases |ticks|
  {
    if ticks != [] {
      assert Seasoned(Step(w, ticks[0]));
      RunSeasoned(Step(w, ticks[0]), ticks[1..]);
    }
  }

  // ----- What one venue quote does, in prices -----

  /** The venue mid stands further above the reference mid than the baseline by more than half the quoted
      spread and 2 bp. */
  predicate Above(bin: real, q: Quote, base: real)
    requires bin != 0.0
  {
    var mid := (q.bid + q.ask) / 2.0;
    (mid - bin) / bin * 10000.0 > base + 2.0 + if mid != 0.0 then (q.ask - q.bid) / mid * 5000.0 else 0.0
  }

  /** And as far below it. */
  predicate Below(bin: real, q: Quote, base: real)
    requires bin != 0.0
  {
    var mid := (q.bid + q.ask) / 2.0;
    (mid - bin) / bin * 10000.0 < base - 2.0 - if mid != 0.0 then (q.ask - q.bid) / mid * 5000.0 else 0.0
  }

  /** A long lost, or a short gained against it, at least 0.2 % of the mid stored at entry. */
  predicate Stopped(op: Open, q: Quote) {
    var loss := if op.side == Long then op.entryPx - q.ask else q.bid - op.entryPx;
    if op.mid > 0.0 then loss >= 0.002 * op.mid else loss <= 0.002 * op.mid
  }

  /** The coin has both feeds, and `h` is long enough to act on. */
  predicate Acts(s: S, h: seq<real>) { s.binMid.Some? && s.binMid.value != 0.0 && |h| >= 600 }

  lemma StoppedIff(op: Open, q: Quote)
    requires op.mid != 0.0
    ensures AdverseBp(op, q) >= 20.0 <==> Stopped(op, q)
  {
    var loss := if op.side == Long then op.entryPx - q.ask else q.bid - op.entryPx;
    var x := loss / op.mid;
    assert x * op.mid == loss;
    assert (x - 0.002) * op.mid == loss - 0.002 * op.mid;
    SignOf(x - 0.002, op.mid, loss - 0.002 * op.mid);
  }

  lemma SignOf(x: real, m: real, product: real)
    requires m != 0.0 && x * m == product
    ensures x >= 0.0 <==> if m > 0.0 then product >= 0.0 else product <= 0.0
  {}

  lemma HalfSpread(width: real, mid: real)
    requires mid != 0.0
    ensures width / mid * 10000.0 / 2.0 == width / mid * 5000.0
  {}

  lemma SidesIff(s: S)
    requires Ready(s)
    ensures var q, base := s.bx.value, Baseline(s.history);
      && (Above(s.binMid.value, q, base) <==> Dev(s) > Threshold(q))
      && (Below(s.binMid.value, q, base) <==> Dev(s) < -Threshold(q))
  {
    var q := s.bx.value;
    if Mid(q) != 0.0 { HalfSpread(q.ask - q.bid, Mid(q)); }
  }

  /** The same coin with another position. */
  function Holding(w: World, c: Coin, op: Option<Open>): World
    requires c in w.coins
  {
    w.(coins := w.coins[c := w.coins[c].(open := op)])
  }

  lemma SamplesAfter(w: World, c: Coin, q: Quote, t: real, op: Option<Open>)
    requires c in w.coins && w.coins[c].binMid.Some? && w.coins[c].binMid.value != 0.0
    ensures var s1, seen := Step(Holding(w, c, op), Venue(c, q, t)).coins[c], Seen(w.coins[c], q, t);
      s1.history == seen.history && s1.lastSample == seen.lastSample
  {
    var s1 := Seen(w.coins[c].(open := op), q, t);
    assert Step(Holding(w, c, op), Venue(c, q, t)).coins[c].history == s1.history;
  }

  /** `h1` is the last 1800 of `h` and `x`. */
  predicate LastOf(h: seq<real>, x: real, h1: seq<real>) {
    && |h1| == (if |h| >= 1800 then 1800 else |h| + 1)
    && h1 == (h + [x])[|h| + 1 - |h1|..]
  }

  lemma AppendKeepsLast(h: seq<real>, x: real)
    requires |h| <= 1800
    ensures LastOf(h, x, Append(h, x))
  {}

  /** At most once a second a quote adds its gap to the samples, of which the last 1800 are kept. */
  lemma QuoteSamples(w: World, c: Coin, q: Quote, t: real, gap: real)
    requires c in w.coins && w.coins[c].binMid.Some? && w.coins[c].binMid.value != 0.0 && |w.coins[c].history| <= 1800
    requires gap * w.coins[c].binMid.value == 10000.0 * ((q.bid + q.ask) / 2.0 - w.coins[c].binMid.value)
    ensures var s, s1 := w.coins[c], Step(w, Venue(c, q, t)).coins[c];
      if t - s.lastSample < 1.0 then s1.history == s.history && s1.lastSample == s.lastSample
      else LastOf(s.history, gap, s1.history) && s1.lastSample == t
  {
    var s := w.coins[c];
    GapTimes(s.binMid.value, q, gap);
    AppendKeepsLast(s.history, gap);
    SamplesAfter(w, c, q, t, s.open);
    assert Holding(w, c, s.open) == w;
  }

  lemma GapTimes(bin: real, q: Quote, gap: real)
    requires bin != 0.0 && gap * bin == 10000.0 * ((q.bid + q.ask) / 2.0 - bin)
    ensures gap == GapBp(bin, q)
  {
    var x := (Mid(q) - bin) / bin;
    assert x * bin == Mid(q) - bin;
    assert (gap - x * 10000.0) * bin == 0.0;
  }

  /** A venue quote closes an open position exactly when it is 1800 seconds old, has lost 0.2 % of its stored
      mid, or the gap has crossed to the other side of the baseline. The exit carries its side and id. */
  lemma QuoteExitsIff(w: World, c: Coin, q: Quote, t: real)
    requires c in w.coins && w.coins[c].open.Some? && w.coins[c].open.value.mid != 0.0
    requires Acts(w.coins[c], Step(w, Venue(c, q, t)).coins[c].history)
    ensures var w1, op, bin := Step(w, Venue(c, q, t)), w.coins[c].open.value, w.coins[c].binMid.value;
      var base := Baseline(w1.coins[c].history);
      if || t - op.entryT >= 1800.0 || Stopped(op, q)
         || (if op.side == Long then Above(bin, q, base) else Below(bin, q, base))
      then
        && w1.coins[c].open.None? && w1.coins[c].lastSignal == t
        && w1.log == w.log + [Signal(c, false, op.side, op.pid, t)]
      else
        w1.coins[c].open == Some(op) && w1.coins[c].lastSignal == w.coins[c].lastSignal && w1.log == w.log
  {
    var s := Sampled(w.coins[c].(bx := Some(q)), t);
    StoppedIff(w.coins[c].open.value, q);
    SidesIff(s);
  }

  /** It opens one for a flat coin, 30 seconds after its last signal or later, exactly when the gap is that
      far from the baseline: short above it at the bid, long below it at the ask, under the next id. */
  lemma QuoteEntersIff(w: World, c: Coin, q: Quote, t: real)
    requires c in w.coins && w.coins[c].open.None?
    requires Acts(w.coins[c], Step(w, Venue(c, q, t)).coins[c].history)
    ensures var w1, bin := Step(w, Venue(c, q, t)), w.coins[c].binMid.value;
      var base, mid := Baseline(w1.coins[c].history), (q.bid + q.ask) / 2.0;
      if t - w.coins[c].lastSignal >= 30.0 && (Above(bin, q, base) || Below(bin, q, base)) then
        var side := if Above(bin, q, base) then Short else Long;
        && w1.coins[c].open == Some(Open(side, if side == Short then q.bid else q.ask, t, mid, w.nextPid))
        && w1.nextPid == w.nextPid + 1 && w1.coins[c].lastSignal == t
        && w1.log == w.log + [Signal(c, true, side, w.nextPid, t)]
      else
        w1.coins[c].open.None? && w1.nextPid == w.nextPid && w1.log == w.log
  {
    SidesIff(Sampled(w.coins[c].(bx := Some(q)), t));
  }

  /** A quote that would open a position on one side closes one held on the other. One held on its own side
      it closes, apart from age and stop, only when the gap counts as being on both sides. */
  lemma EntryQuoteClosesOpposite(w: World, c: Coin, q: Quote, t: real, op: Open)
    requires c in w.coins && op.mid != 0.0
    requires Acts(w.coins[c], Step(w, Venue(c, q, t)).coins[c].history)
    requires Step(Holding(w, c, None), Venue(c, q, t)).coins[c].open.Some?
    ensures var side := Step(Holding(w, c, None), Venue(c, q, t)).coins[c].open.value.side;
      var bin, base := w.coins[c].binMid.value, Baseline(Step(w, Venue(c, q, t)).coins[c].history);
      Step(Holding(w, c, Some(op)), Venue(c, q, t)).coins[c].open.None? <==>
        || op.side != side || t - op.entryT >= 1800.0 || Stopped(op, q)
        || (Above(bin, q, base) && Below(bin, q, base))
  {
    SamplesAfter(w, c, q, t, w.coins[c].open);
    SamplesAfter(w, c, q, t, None);
    SamplesAfter(w, c, q, t, Some(op));
    assert Holding(w, c, w.coins[c].open) == w;
    QuoteEntersIff(Holding(w, c, None), c, q, t);
    QuoteExitsIff(Holding(w, c, Some(op)), c, q, t);
  }

  /** Which it does not while the quoted bid is above the ask by less than 4 bp of a positive mid. */
  lemma NotBothSides(bin: real, q: Quote, base: real)
    requires bin != 0.0 && q.bid + q.ask > 0.0 && 2500.0 * (q.bid - q.ask) <= (q.bid + q.ask) / 2.0
    ensures !(Above(bin, q, base) && Below(bin, q, base))
  {
    var mid := (q.bid + q.ask) / 2.0;
    var x := (q.ask - q.bid) / mid;
    assert x * mid == q.ask - q.bid;
    assert (x + 0.0004) * mid == q.ask - q.bid + 0.0004 * mid;
    SignOf(x + 0.0004, mid, q.ask - q.bid + 0.0004 * mid);
  }

  // ----- The generator -----

  class Generator {
    var coins: map<Coin, S>
    var nextPid: nat
    var published: seq<Signal>

    ghost function View(): World
      reads this
    {
      World(coins, nextPid, published)
    }

    constructor (whitelist: set<Coin>)
      ensures Init(View()) && coins.Keys == whitelist
    {
      coins := map c | c in whitelist :: FRESH;
      nextPid, published := 1, [];
    }

    method AllocPid() returns (v: nat)
      modifies this`nextPid
      ensures v == old(nextPid) && nextPid == v + 1
    {
      v := nextPid;
      nextPid := nextPid + 1;
    }

    method Publish(x: Signal)
      modifies this`published
      ensures published == old(published) + [x]
    {
      published := published + [x];
    }

    method OnReference(c: Coin, q: Quote)
      modifies this
      ensures View() == Step(old(View()), Reference(c, q))
      ensures c in coins ==> coins[c].binMid == Some((q.bid + q.ask) / 2.0)
    {
      if c in coins {
        coins := coins[c := coins[c].(binMid := Some(Mid(q)))];
      }
    }

    method OnVenue(c: Coin, q: Quote, t: real)
      modifies this
      ensures View() == Step(old(View()), Venue(c, q, t))
    {
      if c in coins {
        coins := coins[c := coins[c].(bx := Some(q))];
        ConsiderCoin(c, t);
      }
    }

    /** Manages the coin's open position, or looks for an entry. */
    method ConsiderCoin(c: Coin, t: real)
      requires c in coins
      modifies this
      ensures View() == Consider(old(View()), c, t)
    {
      var s := coins[c];
      if s.binMid.None? || s.bx.None? { return; }
      var bin, q := s.binMid.value, s.bx.value;
      if bin == 0.0 { return; }
      if t - s.lastSample >= 1.0 {
        s := s.(history := Append(s.history, GapBp(bin, q)), lastSample := t);
        coins := coins[c := s];
      }
      if |s.history| < HISTORY_MIN { return; }
      var dev, threshold := GapBp(bin, q) - Baseline(s.history), Threshold(q);
      if s.open.Some? {
        var op := s.open.value;
        if op.mid == 0.0 { return; }
        var stop := AdverseBp(op, q) >= STOP_BP;
        var timeout := t - op.entryT >= MAX_HOLD_S;
        var reverse := (op.side == Long && dev > threshold) || (op.side == Short && dev < -threshold);
        if stop || timeout || reverse {
          Publish(Signal(c, false, op.side, op.pid, t));
          coins := coins[c := s.(open := None, lastSignal := t)];
        }
        return;
      }
      if t - s.lastSignal < COOLDOWN_S { return; }
      var side, px := Long, q.ask;
      if dev > threshold {
        side, px := Short, q.bid;
      } else if !(dev < -threshold) {
        return;
      }
      var pid := AllocPid();
      coins := coins[c := s.(open := Some(Open(side, px, t, Mid(q), pid)), lastSignal := t)];
      Publish(Signal(c, true, side, pid, t));
    }
  }
}
