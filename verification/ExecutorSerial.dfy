/** The executor object with its handlers run one at a time, and its tie to the interleaved machine. */
module ExecutorSerial {
  import opened Common
  import opened HedgeBooks
  import opened ExecutorMachine
  import opened ExecutorSafety
  import opened ContractSizing
  import opened FlipsterIoc
  import opened GateIoc

  datatype Config = Config(sizeUsd: real, whitelist: set<Base>, blacklist: set<Base>, specs: map<string, Spec>)

  const EDGE_RECHECK_MAX_ADVERSE_BP := 3.0

  datatype Core = Core(seenEntry: set<PosId>, seenExit: set<PosId>, open: map<PosId, Position>, books: Books)

  /** Everything the outside world answers while an entry runs. */
  datatype EntryReplies = EntryReplies(
    mid: Option<real>, ioc: Replies, filled: real,
    gateFilled: real, gate: GateReply,
    mark: real, reverted: real, revertOk: bool)

  /** Everything the outside world answers while a close runs. */
  datatype CloseReplies = CloseReplies(mark: real, flipClosed: real, flipOk: bool, gateClosed: real, gateOk: bool)

  datatype Signal = Signal(event: Event, fPrice: real, gPrice: real, entry: EntryReplies, close: CloseReplies)

  /** The contracts the hedge is taken to have filled, if any. */
  function Contracts(r: EntryReplies): Option<int> { FilledContracts(r.gate) }

  function GateSymbol(base: Base): string { base + "_USDT" }

  predicate Admitted(cfg: Config, base: Base) {
    (cfg.whitelist == {} || base in cfg.whitelist) && base !in cfg.blacklist
  }

  /** The Flipster mid has already moved in the signal's direction. */
  predicate EdgeDecayed(mid: Option<real>, fPrice: real, side: Side) {
    && mid.Some?
    && fPrice > 0.0
    && var move := (mid.value - fPrice) / fPrice * 10000.0;
       (if side == Long then move else -move) >= EDGE_RECHECK_MAX_ADVERSE_BP
  }

  function OnEntry(cfg: Config, c: Core, e: Event, fPrice: real, gPrice: real, r: EntryReplies): Core {
    var plan := HedgePlan(cfg.specs, GateSymbol(e.base), cfg.sizeUsd, gPrice);
    if EdgeDecayed(r.mid, fPrice, e.side) || plan.None? then c
    else
      var size := plan.value;
      var fill := Decide(r.ioc, size, fPrice);
      var k1 := FlipOrder(c.books, e.pid, e.base, e.side, r.filled, fill.Filled?);
      if fill.Filled? then Hedge(c.(books := k1), e, size, fill.size, r) else c.(books := k1)
  }

  /** The Gate order, and then either the record of the position or the compensating order. */
  function Hedge(c: Core, e: Event, size: real, flipSize: real, r: EntryReplies): Core {
    var k := GateOrder(c.books, e.pid, e.base, e.side, r.gateFilled, Contracts(r).Some?);
    if Contracts(r).Some? then
      c.(books := k, open := c.open[e.pid := Position(e.base, e.side, size, flipSize, Contracts(r).value)])
    else
      c.(books := Revert(k, e.pid, e.base, e.side, r.reverted, r.revertOk))
  }

  function OnExit(c: Core, pid: PosId, base: Base, side: Side, r: CloseReplies): Core {
    if pid !in c.open then c
    else
      var k1 := CloseFlip(c.books, pid, base, side, r.flipClosed, r.flipOk);
      c.(open := c.open - {pid}, books := CloseGate(k1, pid, base, side, r.gateClosed, r.gateOk))
  }

  function Dispatch(cfg: Config, c: Core, g: Signal): Core {
    var e := g.event;
    if e.Entry? then
      if e.pid in c.seenEntry then c
      else
        var c1 := c.(seenEntry := c.seenEntry + {e.pid});
        if Admitted(cfg, e.base) then OnEntry(cfg, c1, e, g.fPrice, g.gPrice, g.entry) else c1
    else if e.pid in c.seenExit then c
    else OnExit(c.(seenExit := c.seenExit + {e.pid}), e.pid, e.base, e.side, g.close)
  }

  function RunSerial(cfg: Config, c: Core, gs: seq<Signal>): Core
    decreases |gs|
  {
    if gs == [] then c else RunSerial(cfg, Dispatch(cfg, c, gs[0]), gs[1..])
  }

  // ----- What one signal does, in prices and quantities -----

  /** No Flipster mid is known, or it is less than 3 bp past the signal's price in the signal's direction. */
  predicate EdgeLeft(mid: Option<real>, fPrice: real, side: Side) {
    mid.None? || fPrice <= 0.0 ||
    if side == Long then mid.value * 10000.0 < fPrice * 10003.0 else mid.value * 10000.0 > fPrice * 9997.0
  }

  lemma EdgeLeftIff(mid: Option<real>, fPrice: real, side: Side)
    ensures EdgeLeft(mid, fPrice, side) <==> !EdgeDecayed(mid, fPrice, side)
  {
    if mid.Some? && fPrice > 0.0 {
      var move := (mid.value - fPrice) / fPrice;
      assert move * fPrice == mid.value - fPrice;
      Scaled(move, 0.0003, fPrice, mid.value - fPrice);
      Scaled(-move, 0.0003, fPrice, fPrice - mid.value);
    }
  }

  lemma Scaled(x: real, bound: real, unit: real, product: real)
    requires unit > 0.0 && product == x * unit
    ensures x >= bound <==> product >= bound * unit
  {
    assert (x - bound) * unit == product - bound * unit;
    if x < bound { assert (bound - x) * unit > 0.0; }
  }

  /** The signal gets as far as its Flipster order: a new id, a symbol on the list, an edge that is left
      and a hedge that can be sized. */
  predicate Enters(cfg: Config, c: Core, g: Signal) {
    var e := g.event;
    && e.Entry? && e.pid !in c.seenEntry
    && (cfg.whitelist == {} || e.base in cfg.whitelist) && e.base !in cfg.blacklist
    && EdgeLeft(g.entry.mid, g.fPrice, e.side)
    && HedgePlan(cfg.specs, e.base + "_USDT", cfg.sizeUsd, g.gPrice).Some?
  }

  /** The signal closes a tracked position whose exit id is new. */
  predicate Closes(c: Core, g: Signal) { g.event.Exit? && g.event.pid !in c.seenExit && g.event.pid in c.open }

  /** One more order of `kind` for `pid`, none of the others'. */
  predicate SendsOne(k: Books, k1: Books, kind: OrderKind, pid: PosId) { Sent(k1, kind, pid) == Sent(k, kind, pid) + 1 }

  lemma HedgeSends(c: Core, e: Event, size: real, flipSize: real, r: EntryReplies)
    ensures var k := Hedge(c, e, size, flipSize, r).books;
      && Sent(k, FlipEntry, e.pid) == Sent(c.books, FlipEntry, e.pid)
      && Sent(k, FlipClose, e.pid) == Sent(c.books, FlipClose, e.pid)
      && Sent(k, GateClose, e.pid) == Sent(c.books, GateClose, e.pid)
  {}

  lemma EntryIs(cfg: Config, c: Core, g: Signal)
    requires Enters(cfg, c, g)
    ensures var e, r := g.event, g.entry;
      var size := HedgePlan(cfg.specs, e.base + "_USDT", cfg.sizeUsd, g.gPrice).value;
      var fill, c1 := Decide(r.ioc, size, g.fPrice), c.(seenEntry := c.seenEntry + {e.pid});
      var k1 := FlipOrder(c.books, e.pid, e.base, e.side, r.filled, fill.Filled?);
      Dispatch(cfg, c, g) ==
        if fill.Filled? then Hedge(c1.(books := k1), e, size, fill.size, r) else c1.(books := k1)
  {
    EdgeLeftIff(g.entry.mid, g.fPrice, g.event.side);
  }

  lemma EntrySends(cfg: Config, c: Core, g: Signal)
    requires Enters(cfg, c, g)
    ensures var k, k1, pid := c.books, Dispatch(cfg, c, g).books, g.event.pid;
      && SendsOne(k, k1, FlipEntry, pid)
      && Sent(k1, FlipClose, pid) == Sent(k, FlipClose, pid) && Sent(k1, GateClose, pid) == Sent(k, GateClose, pid)
  {
    var e, r := g.event, g.entry;
    var size := HedgePlan(cfg.specs, e.base + "_USDT", cfg.sizeUsd, g.gPrice).value;
    var fill := Decide(r.ioc, size, g.fPrice);
    var k1 := FlipOrder(c.books, e.pid, e.base, e.side, r.filled, fill.Filled?);
    EntryIs(cfg, c, g);
    if fill.Filled? { HedgeSends(c.(seenEntry := c.seenEntry + {e.pid}, books := k1), e, size, fill.size, r); }
  }

  lemma ExitSends(cfg: Config, c: Core, g: Signal)
    requires Closes(c, g)
    ensures var k, k1, pid := c.books, Dispatch(cfg, c, g).books, g.event.pid;
      && Sent(k1, FlipEntry, pid) == Sent(k, FlipEntry, pid)
      && SendsOne(k, k1, FlipClose, pid) && SendsOne(k, k1, GateClose, pid)
  {}

  lemma OthersTradeNothing(cfg: Config, c: Core, g: Signal)
    requires !Enters(cfg, c, g) && !Closes(c, g)
    ensures Dispatch(cfg, c, g).books == c.books && Dispatch(cfg, c, g).open == c.open
  {
    EdgeLeftIff(g.entry.mid, g.fPrice, g.event.side);
  }

  /** A signal sends the Flipster entry exactly when it enters, both closes exactly when it closes, and
      otherwise nothing is traded. */
  lemma TradesIff(cfg: Config, c: Core, g: Signal)
    ensures var k, k1, pid := c.books, Dispatch(cfg, c, g).books, g.event.pid;
      && (Enters(cfg, c, g) <==> SendsOne(k, k1, FlipEntry, pid))
      && (Closes(c, g) <==> SendsOne(k, k1, FlipClose, pid)) && (Closes(c, g) <==> SendsOne(k, k1, GateClose, pid))
    ensures !Enters(cfg, c, g) && !Closes(c, g) ==>
      Dispatch(cfg, c, g).books == c.books && Dispatch(cfg, c, g).open == c.open
  {
    if Enters(cfg, c, g) {
      EntrySends(cfg, c, g);
    } else if Closes(c, g) {
      ExitSends(cfg, c, g);
    } else {
      OthersTradeNothing(cfg, c, g);
    }
  }

  function Direction(side: Side): real { if side == Long then 1.0 else -1.0 }

  /** Afterwards the venues hold `flip` and `gate` more of the base and nothing else changed. */
  ghost predicate Moves(k: Books, k1: Books, base: Base, flip: real, gate: real) {
    && At(k1.exposure, base, Flipster) == At(k.exposure, base, Flipster) + flip
    && At(k1.exposure, base, Gate) == At(k.exposure, base, Gate) + gate
    && forall b, v :: b != base ==> At(k1.exposure, b, v) == At(k.exposure, b, v)
  }

  lemma MovesThen(k: Books, k1: Books, k2: Books, base: Base, f1: real, g1: real, f2: real, g2: real)
    requires Moves(k, k1, base, f1, g1) && Moves(k1, k2, base, f2, g2)
    ensures Moves(k, k2, base, f1 + f2, g1 + g2)
  {
    forall b, v | b != base ensures At(k2.exposure, b, v) == At(k.exposure, b, v) {
      assert At(k2.exposure, b, v) == At(k1.exposure, b, v);
    }
  }

  lemma HedgeMoves(c: Core, e: Event, size: real, flipSize: real, r: EntryReplies)
    ensures var d, hedged := Direction(e.side), FilledContracts(r.gate).Some?;
      Moves(c.books, Hedge(c, e, size, flipSize, r).books, e.base,
            if hedged then 0.0 else -d * r.reverted, -d * r.gateFilled)
  {
    var k := GateOrder(c.books, e.pid, e.base, e.side, r.gateFilled, Contracts(r).Some?);
    assert Moves(c.books, k, e.base, 0.0, -Direction(e.side) * r.gateFilled);
    if Contracts(r).None? {
      var k1 := Revert(k, e.pid, e.base, e.side, r.reverted, r.revertOk);
      assert Moves(k, k1, e.base, -Direction(e.side) * r.reverted, 0.0);
      MovesThen(c.books, k, k1, e.base, 0.0, -Direction(e.side) * r.gateFilled, -Direction(e.side) * r.reverted, 0.0);
    }
  }

  lemma EntryMoves(c: Core, e: Event, size: real, fill: Outcome, r: EntryReplies)
    ensures var d, hedged := Direction(e.side), FilledContracts(r.gate).Some?;
      var k1 := FlipOrder(c.books, e.pid, e.base, e.side, r.filled, fill.Filled?);
      if fill.Filled? then
        Moves(c.books, Hedge(c.(books := k1), e, size, fill.size, r).books, e.base,
              d * r.filled - (if hedged then 0.0 else d * r.reverted), -d * r.gateFilled)
      else Moves(c.books, k1, e.base, d * r.filled, 0.0)
  {
    var d := Direction(e.side);
    var k1 := FlipOrder(c.books, e.pid, e.base, e.side, r.filled, fill.Filled?);
    assert Moves(c.books, k1, e.base, d * r.filled, 0.0);
    if fill.Filled? {
      HedgeMoves(c.(books := k1), e, size, fill.size, r);
      MovesThen(c.books, k1, Hedge(c.(books := k1), e, size, fill.size, r).books, e.base, d * r.filled, 0.0,
                if FilledContracts(r.gate).Some? then 0.0 else -d * r.reverted, -d * r.gateFilled);
    }
  }

  /** What an entry leaves. The Flipster leg is bought for a long and sold for a short; its hedge goes
      the other way and only after a reported fill. Without a hedge the leg is given back, with one the
      position is tracked with the sizes that were reported. */
  lemma EntryTrades(cfg: Config, c: Core, g: Signal)
    requires Enters(cfg, c, g)
    ensures var e, r, d := g.event, g.entry, Direction(g.event.side);
      var size := HedgePlan(cfg.specs, e.base + "_USDT", cfg.sizeUsd, g.gPrice).value;
      var fill, hedge := Decide(r.ioc, size, g.fPrice), FilledContracts(r.gate);
      && Moves(c.books, Dispatch(cfg, c, g).books, e.base,
               d * r.filled - (if fill.Filled? && hedge.None? then d * r.reverted else 0.0),
               if fill.Filled? then -d * r.gateFilled else 0.0)
      && Dispatch(cfg, c, g).open ==
         if fill.Filled? && hedge.Some?
         then c.open[e.pid := Position(e.base, e.side, size, fill.size, hedge.value)] else c.open
  {
    var e, r := g.event, g.entry;
    var size := HedgePlan(cfg.specs, e.base + "_USDT", cfg.sizeUsd, g.gPrice).value;
    EntryIs(cfg, c, g);
    EntryMoves(c.(seenEntry := c.seenEntry + {e.pid}), e, size, Decide(r.ioc, size, g.fPrice), r);
  }

  /** A close sells what a long bought and buys back what a short sold, on both venues, and stops tracking. */
  lemma ExitTrades(cfg: Config, c: Core, g: Signal)
    requires Closes(c, g)
    ensures var e, r, d := g.event, g.close, Direction(g.event.side);
      && Moves(c.books, Dispatch(cfg, c, g).books, e.base, -d * r.flipClosed, d * r.gateClosed)
      && Dispatch(cfg, c, g).open == c.open - {e.pid}
  {}

  // ----- Duplicates -----

  predicate SeenBy(seenEntry: set<PosId>, seenExit: set<PosId>, e: Event) {
    if e.Entry? then e.pid in seenEntry else e.pid in seenExit
  }

  /** The signals that are the first of their kind for their id. */
  function FirstOccurrences(seenEntry: set<PosId>, seenExit: set<PosId>, gs: seq<Signal>): seq<Signal>
    decreases |gs|
  {
    if gs == [] then []
    else
      var e := gs[0].event;
      if SeenBy(seenEntry, seenExit, e) then FirstOccurrences(seenEntry, seenExit, gs[1..])
      else if e.Entry? then [gs[0]] + FirstOccurrences(seenEntry + {e.pid}, seenExit, gs[1..])
      else [gs[0]] + FirstOccurrences(seenEntry, seenExit + {e.pid}, gs[1..])
  }

  predicate SameKey(a: Event, b: Event) { a.Entry? == b.Entry? && a.pid == b.pid }

  function Mark(seen: set<PosId>, e: Event, entry: bool): set<PosId> {
    if e.Entry? == entry then seen + {e.pid} else seen
  }

  lemma FirstOccurrencesStep(seenEntry: set<PosId>, seenExit: set<PosId>, gs: seq<Signal>)
    requires gs != []
    ensures var e := gs[0].event;
      var rest := FirstOccurrences(Mark(seenEntry, e, true), Mark(seenExit, e, false), gs[1..]);
      FirstOccurrences(seenEntry, seenExit, gs) == if SeenBy(seenEntry, seenExit, e) then rest else [gs[0]] + rest
  {
    var e := gs[0].event;
    if SeenBy(seenEntry, seenExit, e) {
      assert Mark(seenEntry, e, true) == seenEntry && Mark(seenExit, e, false) == seenExit;
    }
  }

  /** The filtered stream only has unseen signals, one per kind and id. */
  lemma {:induction false} FirstOccurrencesAreFirst(seenEntry: set<PosId>, seenExit: set<PosId>, gs: seq<Signal>)
    ensures var f := FirstOccurrences(seenEntry, seenExit, gs);
      && (forall i :: 0 <= i < |f| ==> f[i] in gs && !SeenBy(seenEntry, seenExit, f[i].event))
      && (forall i, j :: 0 <= i < j < |f| ==> !SameKey(f[i].event, f[j].event))
    decreases |gs|
  {
    if gs != [] {
      var e := gs[0].event;
      FirstOccurrencesStep(seenEntry, seenExit, gs);
      FirstOccurrencesAreFirst(Mark(seenEntry, e, true), Mark(seenExit, e, false), gs[1..]);
    }
  }

  /** And it misses none of the unseen kinds and ids. */
  lemma {:induction false} FirstOccurrencesAreAll(seenEntry: set<PosId>, seenExit: set<PosId>, gs: seq<Signal>,
                                                  g: Signal)
    requires g in gs && !SeenBy(seenEntry, seenExit, g.event)
    ensures exists i :: 0 <= i < |FirstOccurrences(seenEntry, seenExit, gs)| &&
              SameKey(FirstOccurrences(seenEntry, seenExit, gs)[i].event, g.event)
    decreases |gs|
  {
    var e := gs[0].event;
    var f := FirstOccurrences(seenEntry, seenExit, gs);
    FirstOccurrencesStep(seenEntry, seenExit, gs);
    if SameKey(e, g.event) {
      assert SameKey(f[0].event, g.event);
    } else {
      var rest := FirstOccurrences(Mark(seenEntry, e, true), Mark(seenExit, e, false), gs[1..]);
      FirstOccurrencesAreAll(Mark(seenEntry, e, true), Mark(seenExit, e, false), gs[1..], g);
      var i :| 0 <= i < |rest| && SameKey(rest[i].event, g.event);
      assert rest[i] == f[i + |f| - |rest|];
    }
  }

  lemma DispatchSeen(cfg: Config, c: Core, g: Signal)
    ensures SeenBy(c.seenEntry, c.seenExit, g.event) ==> Dispatch(cfg, c, g) == c
    ensures Dispatch(cfg, c, g).seenEntry == if g.event.Entry? then c.seenEntry + {g.event.pid} else c.seenEntry
    ensures Dispatch(cfg, c, g).seenExit == if g.event.Exit? then c.seenExit + {g.event.pid} else c.seenExit
  {}

  /** With handlers serialised, redelivery is invisible: a stream ends in the same state, orders
      and exposures included, as the stream of its first occurrences. */
  lemma {:induction false} DuplicatesAreInvisible(cfg: Config, c: Core, gs: seq<Signal>)
    ensures RunSerial(cfg, c, gs) == RunSerial(cfg, c, FirstOccurrences(c.seenEntry, c.seenExit, gs))
    decreases |gs|
  {
    if gs != [] {
      var next := Dispatch(cfg, c, gs[0]);
      DispatchSeen(cfg, c, gs[0]);
      DuplicatesAreInvisible(cfg, next, gs[1..]);
      if !SeenBy(c.seenEntry, c.seenExit, gs[0].event) {
        var f := FirstOccurrences(c.seenEntry, c.seenExit, gs);
        assert f == [gs[0]] + FirstOccurrences(next.seenEntry, next.seenExit, gs[1..]);
        assert f[1..] == FirstOccurrences(next.seenEntry, next.seenExit, gs[1..]);
      }
    }
  }

  // ----- A serial run is one of the interleavings -----

  function ToState(c: Core): State { State(c.seenEntry, c.seenExit, c.open, map[], c.books) }

  /** The atomic steps of one dispatch. */
  function Script(cfg: Config, c: Core, g: Signal): seq<Label> {
    var e := g.event;
    [Submit(0, e), Claim(0, Admitted(cfg, e.base))] +
    if SeenBy(c.seenEntry, c.seenExit, e) then []
    else if e.Exit? then
      [Pop(0)] +
      if e.pid in c.open then
        [CloseFlipLeg(0, g.close.mark, g.close.flipClosed, g.close.flipOk),
         CloseGateLeg(0, g.close.gateClosed, g.close.gateOk)]
      else []
    else if !Admitted(cfg, e.base) then []
    else EntryScript(cfg, e, g.fPrice, g.gPrice, g.entry)
  }

  function EntryScript(cfg: Config, e: Event, fPrice: real, gPrice: real, r: EntryReplies): seq<Label> {
    var plan := HedgePlan(cfg.specs, GateSymbol(e.base), cfg.sizeUsd, gPrice);
    if EdgeDecayed(r.mid, fPrice, e.side) || plan.None? then [Decline(0)]
    else
      var fill := Decide(r.ioc, plan.value, fPrice);
      if !fill.Filled? then [OrderFlip(0, plan.value, r.filled, None)]
      else
        [OrderFlip(0, plan.value, r.filled, Some(fill.size)),
         OrderGate(0, r.gateFilled, Contracts(r)),
         if Contracts(r).Some? then Record(0) else RevertFlip(0, r.mark, r.reverted, r.revertOk)]
  }

  lemma HedgeRuns(c: Core, e: Event, size: real, flipSize: real, r: EntryReplies)
    requires e.Entry?
    ensures Run(Goto(ToState(c), 0, FlipFilled(e.pid, e.base, e.side, size, flipSize)),
                [OrderGate(0, r.gateFilled, Contracts(r)),
                 if Contracts(r).Some? then Record(0) else RevertFlip(0, r.mark, r.reverted, r.revertOk)])
            == ToState(Hedge(c, e, size, flipSize, r))
  {
    var s := Goto(ToState(c), 0, FlipFilled(e.pid, e.base, e.side, size, flipSize));
    var last := if Contracts(r).Some? then Record(0) else RevertFlip(0, r.mark, r.reverted, r.revertOk);
    RunTwo(s, OrderGate(0, r.gateFilled, Contracts(r)), last);
    assert Step(s, OrderGate(0, r.gateFilled, Contracts(r))).tasks - {0} == map[];
  }

  lemma UnfilledEntryRuns(cfg: Config, c: Core, e: Event, fPrice: real, gPrice: real, r: EntryReplies)
    requires e.Entry? && |EntryScript(cfg, e, fPrice, gPrice, r)| == 1
    ensures Run(Goto(ToState(c), 0, Claimed(e.pid, e.base, e.side)), EntryScript(cfg, e, fPrice, gPrice, r))
            == ToState(OnEntry(cfg, c, e, fPrice, gPrice, r))
  {
    var s := Goto(ToState(c), 0, Claimed(e.pid, e.base, e.side));
    var ls := EntryScript(cfg, e, fPrice, gPrice, r);
    assert ls[1..] == [];
    assert s.tasks - {0} == map[];
  }

  lemma FilledEntryRuns(cfg: Config, c: Core, e: Event, fPrice: real, gPrice: real, r: EntryReplies)
    requires e.Entry? && |EntryScript(cfg, e, fPrice, gPrice, r)| != 1
    ensures Run(Goto(ToState(c), 0, Claimed(e.pid, e.base, e.side)), EntryScript(cfg, e, fPrice, gPrice, r))
            == ToState(OnEntry(cfg, c, e, fPrice, gPrice, r))
  {
    var s := Goto(ToState(c), 0, Claimed(e.pid, e.base, e.side));
    var ls := EntryScript(cfg, e, fPrice, gPrice, r);
    var size := HedgePlan(cfg.specs, GateSymbol(e.base), cfg.sizeUsd, gPrice).value;
    var flipSize := Decide(r.ioc, size, fPrice).size;
    var c1 := c.(books := FlipOrder(c.books, e.pid, e.base, e.side, r.filled, true));
    assert Step(s, ls[0]) == Goto(ToState(c1), 0, FlipFilled(e.pid, e.base, e.side, size, flipSize));
    HedgeRuns(c1, e, size, flipSize, r);
  }

  lemma EntryScriptRuns(cfg: Config, c: Core, e: Event, fPrice: real, gPrice: real, r: EntryReplies)
    requires e.Entry?
    ensures Run(Goto(ToState(c), 0, Claimed(e.pid, e.base, e.side)), EntryScript(cfg, e, fPrice, gPrice, r))
            == ToState(OnEntry(cfg, c, e, fPrice, gPrice, r))
  {
    if |EntryScript(cfg, e, fPrice, gPrice, r)| == 1 {
      UnfilledEntryRuns(cfg, c, e, fPrice, gPrice, r);
    } else {
      FilledEntryRuns(cfg, c, e, fPrice, gPrice, r);
    }
  }

  /** Where the seen-id check and the filter leave a dispatch. */
  function Opened(cfg: Config, c: Core, e: Event): State {
    if SeenBy(c.seenEntry, c.seenExit, e) then ToState(c)
    else if e.Exit? then Goto(ToState(c.(seenExit := c.seenExit + {e.pid})), 0, Exiting(e.pid, e.base, e.side))
    else
      var c1 := c.(seenEntry := c.seenEntry + {e.pid});
      if Admitted(cfg, e.base) then Goto(ToState(c1), 0, Claimed(e.pid, e.base, e.side)) else ToState(c1)
  }

  lemma OpeningRuns(cfg: Config, c: Core, e: Event)
    ensures Run(ToState(c), [Submit(0, e), Claim(0, Admitted(cfg, e.base))]) == Opened(cfg, c, e)
  {
    var s := ToState(c);
    RunTwo(s, Submit(0, e), Claim(0, Admitted(cfg, e.base)));
    assert s.tasks[0 := Submitted(e)] - {0} == map[];
  }

  lemma ScriptRuns(cfg: Config, c: Core, g: Signal)
    ensures Run(ToState(c), Script(cfg, c, g)) == ToState(Dispatch(cfg, c, g))
  {
    var e := g.event;
    var open := [Submit(0, e), Claim(0, Admitted(cfg, e.base))];
    var rest := Script(cfg, c, g)[2..];
    assert Script(cfg, c, g) == open + rest;
    RunAppend(ToState(c), open, rest);
    OpeningRuns(cfg, c, e);
    if !SeenBy(c.seenEntry, c.seenExit, e) {
      if e.Exit? {
        ExitScriptRuns(c.(seenExit := c.seenExit + {e.pid}), e, g.close, rest);
      } else if Admitted(cfg, e.base) {
        EntryScriptRuns(cfg, c.(seenEntry := c.seenEntry + {e.pid}), e, g.fPrice, g.gPrice, g.entry);
      }
    }
  }

  lemma LegsClose(s: State, e: Event, q: Position, r: CloseReplies)
    requires s.tasks == map[0 := Popped(e.pid, e.base, e.side, q)]
    ensures var k := CloseFlip(s.books, e.pid, e.base, e.side, r.flipClosed, r.flipOk);
      var s1 := Step(s, CloseFlipLeg(0, r.mark, r.flipClosed, r.flipOk));
      && s1 == s.(books := k, tasks := map[0 := FlipClosed(e.pid, e.base, e.side, q)])
      && Step(s1, CloseGateLeg(0, r.gateClosed, r.gateOk)) ==
         s.(books := CloseGate(k, e.pid, e.base, e.side, r.gateClosed, r.gateOk), tasks := map[])
  {
    var s1 := Step(s, CloseFlipLeg(0, r.mark, r.flipClosed, r.flipOk));
    assert s1.tasks == map[0 := FlipClosed(e.pid, e.base, e.side, q)];
    assert s1.tasks - {0} == map[];
  }

  lemma CloseRuns(c: Core, e: Event, r: CloseReplies, ls: seq<Label>)
    requires e.pid in c.open
    requires ls == [Pop(0), CloseFlipLeg(0, r.mark, r.flipClosed, r.flipOk), CloseGateLeg(0, r.gateClosed, r.gateOk)]
    ensures Run(Goto(ToState(c), 0, Exiting(e.pid, e.base, e.side)), ls)
            == ToState(OnExit(c, e.pid, e.base, e.side, r))
  {
    var s := Goto(ToState(c), 0, Exiting(e.pid, e.base, e.side));
    RunThree(s, ls[0], ls[1], ls[2]);
    var popped := map[0 := Popped(e.pid, e.base, e.side, c.open[e.pid])];
    assert Step(s, ls[0]) == s.(open := c.open - {e.pid}, tasks := popped);
    LegsClose(s.(open := c.open - {e.pid}, tasks := popped), e, c.open[e.pid], r);
  }

  lemma ExitScriptRuns(c: Core, e: Event, r: CloseReplies, ls: seq<Label>)
    requires ls == [Pop(0)] + if e.pid in c.open then
               [CloseFlipLeg(0, r.mark, r.flipClosed, r.flipOk), CloseGateLeg(0, r.gateClosed, r.gateOk)] else []
    ensures Run(Goto(ToState(c), 0, Exiting(e.pid, e.base, e.side)), ls)
            == ToState(OnExit(c, e.pid, e.base, e.side, r))
  {
    var s := Goto(ToState(c), 0, Exiting(e.pid, e.base, e.side));
    if e.pid in c.open {
      CloseRuns(c, e, r, ls);
    } else {
      assert ls == [Pop(0)] && ls[1..] == [];
      assert s.tasks - {0} == map[];
    }
  }

  /** Every serial run is an interleaving, so everything proved of all interleavings holds of it. */
  lemma {:induction false} SerialIsInterleaving(cfg: Config, c: Core, gs: seq<Signal>) returns (ls: seq<Label>)
    ensures Run(ToState(c), ls) == ToState(RunSerial(cfg, c, gs))
    decreases |gs|
  {
    if gs == [] {
      ls := [];
    } else {
      var rest := SerialIsInterleaving(cfg, Dispatch(cfg, c, gs[0]), gs[1..]);
      ScriptRuns(cfg, c, gs[0]);
      RunAppend(ToState(c), Script(cfg, c, gs[0]), rest);
      ls := Script(cfg, c, gs[0]) + rest;
    }
  }

  lemma ExitCounts(c: Core, pid: PosId, base: Base, side: Side, r: CloseReplies, q: PosId)
    ensures var k, one := OnExit(c, pid, base, side, r).books, if q == pid && pid in c.open then 1 else 0;
      && Sent(k, FlipClose, q) == Sent(c.books, FlipClose, q) + one
      && Sent(k, GateClose, q) == Sent(c.books, GateClose, q) + one
  {}

  // ----- The object -----

  class Executor {
    const cfg: Config
    var openPositions: map<PosId, Position>
    var seenEntryIds: set<PosId>
    var seenExitIds: set<PosId>
    ghost var books: Books

    ghost function View(): Core
      reads this
    {
      Core(seenEntryIds, seenExitIds, openPositions, books)
    }

    constructor (cfg: Config, seenEntryIds: set<PosId>, seenExitIds: set<PosId>)
      ensures this.cfg == cfg && View() == Core(seenEntryIds, seenExitIds, map[], EMPTY)
    {
      this.cfg := cfg;
      this.openPositions, this.seenEntryIds, this.seenExitIds := map[], seenEntryIds, seenExitIds;
      this.books := EMPTY;
    }

    method DispatchEvent(g: Signal)
      requires |g.entry.ioc.tries| == CANCEL_ATTEMPTS
      modifies this
      ensures View() == Dispatch(cfg, old(View()), g)
    {
      var e := g.event;
      match e
      case Entry(pid, base, side) =>
        if pid in seenEntryIds { return; }
        seenEntryIds := seenEntryIds + {pid};
        if cfg.whitelist != {} && base !in cfg.whitelist { return; }
        if base in cfg.blacklist { return; }
        HandleEntry(e, g.fPrice, g.gPrice, g.entry);
      case Exit(pid, base, side) =>
        if pid in seenExitIds { return; }
        seenExitIds := seenExitIds + {pid};
        HandleExit(pid, base, side, g.close);
    }

    method HandleEntry(e: Event, fPrice: real, gPrice: real, r: EntryReplies)
      requires |r.ioc.tries| == CANCEL_ATTEMPTS
      modifies this`openPositions, this`books
      ensures View() == OnEntry(cfg, old(View()), e, fPrice, gPrice, r)
    {
      if EdgeDecayed(r.mid, fPrice, e.side) { return; }
      var plan := HedgePlan(cfg.specs, GateSymbol(e.base), cfg.sizeUsd, gPrice);
      if plan.None? { return; }
      var size := plan.value;
      var fill, cancels, stuck := LimitIocEntry(r.ioc, size, fPrice);
      books := FlipOrder(books, e.pid, e.base, e.side, r.filled, fill.Filled?);
      if !fill.Filled? { return; }
      books := GateOrder(books, e.pid, e.base, e.side, r.gateFilled, Contracts(r).Some?);
      if Contracts(r).None? {
        books := Revert(books, e.pid, e.base, e.side, r.reverted, r.revertOk);
        return;
      }
      openPositions := openPositions[e.pid := Position(e.base, e.side, size, fill.size, Contracts(r).value)];
    }

    method HandleExit(pid: PosId, base: Base, side: Side, r: CloseReplies)
      modifies this`openPositions, this`books
      ensures View() == OnExit(old(View()), pid, base, side, r)
    {
      if pid !in openPositions { return; }
      openPositions := openPositions - {pid};
      books := CloseFlip(books, pid, base, side, r.flipClosed, r.flipOk);
      books := CloseGate(books, pid, base, side, r.gateClosed, r.gateOk);
    }

    /** The exit of a tracked position, counted: one more close on each venue for it, none for any other. */
    method CloseTracked(pid: PosId, base: Base, side: Side, r: CloseReplies)
      requires pid in openPositions
      modifies this`openPositions, this`books
      ensures openPositions == old(openPositions) - {pid}
      ensures forall q :: Sent(books, FlipClose, q) == old(Sent(books, FlipClose, q)) + if q == pid then 1 else 0
      ensures forall q :: Sent(books, GateClose, q) == old(Sent(books, GateClose, q)) + if q == pid then 1 else 0
    {
      ghost var was := View();
      HandleExit(pid, base, side, r);
      forall q
        ensures Sent(books, FlipClose, q) == Sent(was.books, FlipClose, q) + if q == pid then 1 else 0
        ensures Sent(books, GateClose, q) == Sent(was.books, GateClose, q) + if q == pid then 1 else 0
      {
        ExitCounts(was, pid, base, side, r, q);
      }
    }

    /** Shutdown: afterwards nothing is tracked, and every position that was open has been sent
        exactly one more close on each venue. */
    method EmergencyCloseAll(replies: PosId -> CloseReplies)
      modifies this`openPositions, this`books
      ensures openPositions == map[]
      ensures forall pid :: Sent(books, FlipClose, pid) ==
                old(Sent(books, FlipClose, pid)) + if pid in old(openPositions) then 1 else 0
      ensures forall pid :: Sent(books, GateClose, pid) ==
                old(Sent(books, GateClose, pid)) + if pid in old(openPositions) then 1 else 0
    {
      var snapshot := openPositions;
      var todo := snapshot.Keys;
      while exists pid :: pid in todo
        invariant todo <= snapshot.Keys
        invariant openPositions == snapshot - (snapshot.Keys - todo)
        invariant forall pid :: Sent(books, FlipClose, pid) ==
                    old(Sent(books, FlipClose, pid)) + if pid in snapshot && pid !in todo then 1 else 0
        invariant forall pid :: Sent(books, GateClose, pid) ==
                    old(Sent(books, GateClose, pid)) + if pid in snapshot && pid !in todo then 1 else 0
        decreases todo
      {
        var pid :| pid in todo;
        CloseTracked(pid, snapshot[pid].base, snapshot[pid].side, replies(pid));
        todo := todo - {pid};
      }
    }
  }
}
