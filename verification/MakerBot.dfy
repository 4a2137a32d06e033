/** The maker stat-arb bot: one order lifecycle per symbol, shared counters and a kill level. */
module MakerBot {
  import opened Common
  import ContractSizing

  type Base = string

  datatype Side = Buy | Sell

  datatype Phase = Idle | EntryPending | InPosition | ExitPending

  datatype Sym = Sym(phase: Phase, entrySide: Side, entryPrice: real, entryQty: real,
                     orderTime: real, since: real, exitTime: real, cooldownUntil: real)

  const FRESH := Sym(Idle, Buy, 0.0, 0.0, 0.0, 0.0, 0.0, 0.0)

  datatype Config = Config(amountUsd: real, fillWait: real, holdMax: real, exitThreshold: real, killPnl: real)

  datatype Exit = Exit(base: Base, pnlUsd: real, pnlBp: real)

  /** `lost` holds exits whose profit was booked although writing their log record raised; `dirty`
      says that happened since the last recorded exit. */
  datatype World = World(
    syms: map<Base, Sym>, realized: real,
    nSignals: nat, nFilled: nat, nCancelled: nat, nWins: nat,
    nRejected: nat, nRaised: nat, exits: seq<Exit>, lost: seq<Exit>, dirty: bool, stopped: bool)

  /** The average price field of a market order response; `NoOrder` is an empty order object, which is
      taken as if no order were given. */
  datatype AvgField = NoOrder | Missing | Price(value: real) | Unparsable

  datatype MarketReply = MarketFailed | MarketDone(avg: AvgField)

  /** A limit order's answer; `PlaceRaised` is a success status without a readable order. */
  datatype Placing = Accepted | Refused | PlaceRaised

  /** Everything a step reads: clock, quotes, the signal rule's answer and the exchange's replies. `pos`
      is the position the exchange reports, `before` what was executed for the symbol since its last
      step, and `after` what is executed later in this one: a fill racing a cancel, or a market order. */
  datatype Input = Input(
    now: real, bid: real, ask: real, signal: Option<Side>, qtyStep: real, dev: Option<real>,
    placed: Placing, pos: real, market: MarketReply, logOk: bool, before: real, after: real)

  function Sign(side: Side): real { if side == Buy then 1.0 else -1.0 }

  function Opposite(side: Side): Side { if side == Sell then Buy else Sell }

  /** Python's `round(x, decimals)` with `step` = 10 ** -decimals. */
  function RoundTo(x: real, step: real): real
    requires step > 0.0
  {
    ContractSizing.RoundHalfEven(x / step) as real * step
  }

  function Put(w: World, b: Base, s: Sym): World { w.(syms := w.syms[b := s]) }

  function ExitPnlBp(s: Sym, close: real): real
    requires s.entryPrice != 0.0
  {
    (close - s.entryPrice) / s.entryPrice * 10000.0 * Sign(s.entrySide)
  }

  function ExitAt(cfg: Config, b: Base, s: Sym, close: real): Exit
    requires s.entryPrice != 0.0
  {
    var bp := ExitPnlBp(s, close);
    Exit(b, bp * cfg.amountUsd / 10000.0, bp)
  }

  /** The price booked for a limit exit. */
  function LimitExitPrice(s: Sym, i: Input): real { if s.entrySide == Sell then i.bid else i.ask }

  function RecordExit(cfg: Config, w: World, b: Base, avg: Option<AvgField>, i: Input): World
    requires b in w.syms
  {
    var s := w.syms[b];
    if avg == Some(Unparsable) || s.entryPrice == 0.0 then w
    else
      var close := match avg
        case None => LimitExitPrice(s, i)
        case Some(NoOrder) => LimitExitPrice(s, i)
        case Some(Price(p)) => p
        case _ => i.bid;
      Book(cfg, w, b, ExitAt(cfg, b, s, close), i)
  }

  /** The totals come first; a failing log write raises before the symbol is released. */
  function Book(cfg: Config, w: World, b: Base, e: Exit, i: Input): World
    requires b in w.syms
  {
    var w1 := w.(realized := w.realized + e.pnlUsd, nWins := w.nWins + if e.pnlBp > 0.0 then 1 else 0);
    if !i.logOk then w1.(lost := w.lost + [e], dirty := true)
    else
      Put(w1, b, w.syms[b].(phase := Idle, cooldownUntil := i.now + 3.0)).(
        exits := w.exits + [e], dirty := false, stopped := w1.realized < cfg.killPnl)
  }

  function PendingEntry(s: Sym, now: real, side: Side, qty: real, price: real): Sym {
    s.(phase := EntryPending, orderTime := now, entrySide := side, entryQty := qty, entryPrice := price)
  }

  /** The pending entry that an idle symbol's signal asks for. */
  function EntryAsked(cfg: Config, s: Sym, i: Input): Option<Sym>
    requires i.qtyStep > 0.0
  {
    if i.now < s.cooldownUntil || i.signal.None? then None
    else
      var side := i.signal.value;
      var price := if side == Sell then i.ask else i.bid;
      if price == 0.0 then None
      else
        var qty := RoundTo(cfg.amountUsd / price, i.qtyStep);
        if qty <= 0.0 then None
        else Some(PendingEntry(s, i.now, side, qty, price))
  }

  function PlaceEntry(w: World, b: Base, entry: Sym, i: Input): World
    requires b in w.syms
  {
    var w1 := w.(nSignals := w.nSignals + 1);
    match i.placed
    case PlaceRaised => w1.(nRaised := w.nRaised + 1)
    case Refused => Put(w1, b, w.syms[b].(cooldownUntil := i.now + 5.0)).(nRejected := w.nRejected + 1)
    case Accepted => Put(w1, b, entry)
  }

  function StepIdle(cfg: Config, w: World, b: Base, i: Input): World
    requires b in w.syms && i.qtyStep > 0.0
  {
    var entry := EntryAsked(cfg, w.syms[b], i);
    if entry.None? then w else PlaceEntry(w, b, entry.value, i)
  }

  predicate EntryFilled(s: Sym, pos: real) { Abs(pos - Sign(s.entrySide) * s.entryQty) < s.entryQty * 0.1 }

  predicate Flat(s: Sym, pos: real) { Abs(pos) < s.entryQty * 0.1 }

  function StepEntryPending(cfg: Config, w: World, b: Base, i: Input): World
    requires b in w.syms
  {
    var s := w.syms[b];
    if EntryFilled(s, i.pos) then Put(w, b, s.(phase := InPosition, since := i.now)).(nFilled := w.nFilled + 1)
    else if i.now - s.orderTime > cfg.fillWait then
      Put(w, b, s.(phase := Idle, cooldownUntil := i.now + 3.0)).(nCancelled := w.nCancelled + 1)
    else w
  }

  predicate ShouldExit(cfg: Config, s: Sym, i: Input) {
    (i.dev.Some? && Abs(i.dev.value) < cfg.exitThreshold) || i.now - s.since > cfg.holdMax
  }

  function StepInPosition(cfg: Config, w: World, b: Base, i: Input): World
    requires b in w.syms
  {
    var s := w.syms[b];
    if !ShouldExit(cfg, s, i) then w
    else if i.placed.Accepted? then Put(w, b, s.(phase := ExitPending, exitTime := i.now))
    else if i.placed.PlaceRaised? || i.market.MarketFailed? then w
    else RecordExit(cfg, w, b, Some(i.market.avg), i)
  }

  function StepExitPending(cfg: Config, w: World, b: Base, i: Input): World
    requires b in w.syms
  {
    var s := w.syms[b];
    if Flat(s, i.pos) then RecordExit(cfg, w, b, None, i)
    else if i.now - s.exitTime > cfg.fillWait && i.market.MarketDone? then RecordExit(cfg, w, b, Some(i.market.avg), i)
    else w
  }

  /** One `step_symbol`; after the kill nothing runs any more. */
  function Step(cfg: Config, w: World, b: Base, i: Input): World
    requires i.qtyStep > 0.0
  {
    if w.stopped || b !in w.syms then w
    else match w.syms[b].phase
      case Idle => StepIdle(cfg, w, b, i)
      case EntryPending => StepEntryPending(cfg, w, b, i)
      case InPosition => StepInPosition(cfg, w, b, i)
      case ExitPending => StepExitPending(cfg, w, b, i)
  }

  datatype Event = Event(base: Base, input: Input)

  predicate WellFormed(evs: seq<Event>) { forall k :: 0 <= k < |evs| ==> evs[k].input.qtyStep > 0.0 }

  function Run(cfg: Config, w: World, evs: seq<Event>): World
    requires WellFormed(evs)
    decreases |evs|
  {
    if evs == [] then w else Run(cfg, Step(cfg, w, evs[0].base, evs[0].input), evs[1..])
  }

  // ----- Conservation -----

  function InPhase(syms: map<Base, Sym>, p: Phase): set<Base> { set b | b in syms && syms[b].phase == p }

  function SumUsd(es: seq<Exit>): real { if es == [] then 0.0 else SumUsd(es[..|es| - 1]) + es[|es| - 1].pnlUsd }

  function Wins(es: seq<Exit>): nat {
    if es == [] then 0 else Wins(es[..|es| - 1]) + if es[|es| - 1].pnlBp > 0.0 then 1 else 0
  }

  /** Every signal and every fill is accounted for, and the realised profit is that of the exits. */
  predicate Balanced(w: World) {
    && w.nSignals == w.nRejected + w.nRaised + w.nFilled + w.nCancelled + |InPhase(w.syms, EntryPending)|
    && w.nFilled == |w.exits| + |InPhase(w.syms, InPosition)| + |InPhase(w.syms, ExitPending)|
    && w.realized == SumUsd(w.exits) + SumUsd(w.lost)
    && w.nWins == Wins(w.exits) + Wins(w.lost)
  }

  /** Below the kill level the bot has stopped, unless an exit was booked without its record. */
  predicate KillRespected(cfg: Config, w: World) {
    && (!w.stopped && !w.dirty && w.exits != [] ==> w.realized >= cfg.killPnl)
    && (!w.stopped && !w.dirty && w.exits == [] ==> w.realized == 0.0)
    && (w.stopped ==> w.realized < cfg.killPnl && !w.dirty && w.exits != [])
    && (w.lost == [] ==> !w.dirty)
    && (w.exits == [] && !w.dirty ==> w.lost == [])
  }

  predicate Inv(cfg: Config, w: World) {
    Balanced(w) && KillRespected(cfg, w)
    && forall b :: b in w.syms && w.syms[b].phase != Idle ==> w.syms[b].entryPrice > 0.0 && w.syms[b].entryQty > 0.0
  }

  predicate Init(w: World) {
    w.syms.Values <= {FRESH} && w == World(w.syms, 0.0, 0, 0, 0, 0, 0, 0, [], [], false, false)
  }

  lemma InitInv(cfg: Config, w: World)
    requires Init(w)
    ensures Inv(cfg, w)
  {
    assert forall b :: b in w.syms ==> w.syms[b] in w.syms.Values;
    assert forall p :: p != Idle ==> InPhase(w.syms, p) == {};
  }

  /** Moving one symbol from phase to phase moves one unit between the counts. */
  lemma PhaseCount(syms: map<Base, Sym>, b: Base, s: Sym, p: Phase)
    requires b in syms
    ensures |InPhase(syms[b := s], p)| ==
            |InPhase(syms, p)| - (if syms[b].phase == p then 1 else 0) + (if s.phase == p then 1 else 0)
  {
    var before, after := InPhase(syms, p), InPhase(syms[b := s], p);
    if syms[b].phase == p && s.phase != p { assert after == before - {b}; }
    else if syms[b].phase != p && s.phase == p { assert after == before + {b}; }
    else { assert after == before; }
  }

  lemma SignsOfScaling(n: real, x: real, step: real)
    requires step > 0.0
    ensures n <= 0.0 ==> n * step <= 0.0
    ensures x <= 0.0 ==> x / step <= 0.0
  {}

  lemma RoundToPositive(x: real, step: real)
    requires step > 0.0 && RoundTo(x, step) > 0.0
    ensures x > 0.0
  {
    ContractSizing.RoundIsNearest(x / step);
    SignsOfScaling(ContractSizing.RoundHalfEven(x / step) as real, x, step);
  }

  lemma QuotientSign(a: real, p: real)
    requires a > 0.0 && p != 0.0 && a / p > 0.0
    ensures p > 0.0
  {}

  lemma RecordExitInv(cfg: Config, w: World, b: Base, avg: Option<AvgField>, i: Input)
    requires Inv(cfg, w) && b in w.syms && !w.stopped
    requires w.syms[b].phase.InPosition? || w.syms[b].phase.ExitPending?
    ensures Inv(cfg, RecordExit(cfg, w, b, avg, i))
  {
    var w' := RecordExit(cfg, w, b, avg, i);
    if w' != w {
      var e := if i.logOk then w'.exits[|w.exits|] else w'.lost[|w.lost|];
      assert w' == Book(cfg, w, b, e, i);
      BookInv(cfg, w, b, e, i);
    }
  }

  lemma SumsAppend(es: seq<Exit>, e: Exit)
    ensures SumUsd(es + [e]) == SumUsd(es) + e.pnlUsd
    ensures Wins(es + [e]) == Wins(es) + if e.pnlBp > 0.0 then 1 else 0
  {
    assert (es + [e])[..|es|] == es;
  }

  lemma ReleaseCounts(syms: map<Base, Sym>, b: Base, s: Sym)
    requires b in syms && (syms[b].phase.InPosition? || syms[b].phase.ExitPending?) && s.phase.Idle?
    ensures |InPhase(syms[b := s], EntryPending)| == |InPhase(syms, EntryPending)|
    ensures |InPhase(syms[b := s], InPosition)| + |InPhase(syms[b := s], ExitPending)| + 1 ==
            |InPhase(syms, InPosition)| + |InPhase(syms, ExitPending)|
  {
    PhaseCount(syms, b, s, EntryPending);
    PhaseCount(syms, b, s, InPosition);
    PhaseCount(syms, b, s, ExitPending);
  }

  lemma BookBalanced(cfg: Config, w: World, b: Base, e: Exit, i: Input)
    requires Balanced(w) && b in w.syms
    requires w.syms[b].phase.InPosition? || w.syms[b].phase.ExitPending?
    ensures Balanced(Book(cfg, w, b, e, i))
  {
    SumsAppend(w.exits, e);
    SumsAppend(w.lost, e);
    ReleaseCounts(w.syms, b, w.syms[b].(phase := Idle, cooldownUntil := i.now + 3.0));
  }

  lemma BookInv(cfg: Config, w: World, b: Base, e: Exit, i: Input)
    requires Inv(cfg, w) && b in w.syms && !w.stopped
    requires w.syms[b].phase.InPosition? || w.syms[b].phase.ExitPending?
    ensures Inv(cfg, Book(cfg, w, b, e, i))
  {
    BookBalanced(cfg, w, b, e, i);
    assert KillRespected(cfg, Book(cfg, w, b, e, i));
  }

  /** A symbol that stays idle, with one more signal that came to nothing. */
  lemma NoOrderInv(cfg: Config, w: World, b: Base, s: Sym, refused: nat, raised: nat)
    requires Inv(cfg, w) && b in w.syms && w.syms[b].phase.Idle? && s.phase.Idle?
    ensures Inv(cfg, Put(w, b, s).(nSignals := w.nSignals + refused + raised,
                                   nRejected := w.nRejected + refused, nRaised := w.nRaised + raised))
  {
    PhaseCount(w.syms, b, s, EntryPending);
    PhaseCount(w.syms, b, s, InPosition);
    PhaseCount(w.syms, b, s, ExitPending);
  }

  lemma OrderInv(cfg: Config, w: World, b: Base, s: Sym)
    requires Inv(cfg, w) && b in w.syms && w.syms[b].phase.Idle? && s.phase.EntryPending?
    requires s.entryPrice > 0.0 && s.entryQty > 0.0
    ensures Inv(cfg, Put(w, b, s).(nSignals := w.nSignals + 1))
  {
    PhaseCount(w.syms, b, s, EntryPending);
    PhaseCount(w.syms, b, s, InPosition);
    PhaseCount(w.syms, b, s, ExitPending);
  }

  lemma EntryAskedSound(cfg: Config, s: Sym, i: Input)
    requires i.qtyStep > 0.0 && cfg.amountUsd > 0.0 && EntryAsked(cfg, s, i).Some?
    ensures var e := EntryAsked(cfg, s, i).value; e.phase.EntryPending? && e.entryPrice > 0.0 && e.entryQty > 0.0
  {
    var price := EntryAsked(cfg, s, i).value.entryPrice;
    RoundToPositive(cfg.amountUsd / price, i.qtyStep);
    QuotientSign(cfg.amountUsd, price);
  }

  lemma StepIdleInv(cfg: Config, w: World, b: Base, i: Input)
    requires Inv(cfg, w) && b in w.syms && w.syms[b].phase.Idle? && i.qtyStep > 0.0 && cfg.amountUsd > 0.0 && !w.stopped
    ensures Inv(cfg, StepIdle(cfg, w, b, i))
  {
    var s := w.syms[b];
    if EntryAsked(cfg, s, i).Some? {
      EntryAskedSound(cfg, s, i);
      assert w.syms[b := s] == w.syms;
      match i.placed
      case PlaceRaised => NoOrderInv(cfg, w, b, s, 0, 1);
      case Refused => NoOrderInv(cfg, w, b, s.(cooldownUntil := i.now + 5.0), 1, 0);
      case Accepted => OrderInv(cfg, w, b, EntryAsked(cfg, s, i).value);
    }
  }

  lemma StepEntryPendingInv(cfg: Config, w: World, b: Base, i: Input)
    requires Inv(cfg, w) && b in w.syms && w.syms[b].phase.EntryPending? && !w.stopped
    ensures Inv(cfg, StepEntryPending(cfg, w, b, i))
  {
    var s' := StepEntryPending(cfg, w, b, i).syms[b];
    PhaseCount(w.syms, b, s', EntryPending);
    PhaseCount(w.syms, b, s', InPosition);
    PhaseCount(w.syms, b, s', ExitPending);
  }

  lemma StepInPositionInv(cfg: Config, w: World, b: Base, i: Input)
    requires Inv(cfg, w) && b in w.syms && w.syms[b].phase.InPosition? && !w.stopped
    ensures Inv(cfg, StepInPosition(cfg, w, b, i))
  {
    if i.placed.Refused? && i.market.MarketDone? {
      RecordExitInv(cfg, w, b, Some(i.market.avg), i);
    } else {
      forall p { PhaseCount(w.syms, b, StepInPosition(cfg, w, b, i).syms[b], p); }
    }
  }

  lemma StepInv(cfg: Config, w: World, b: Base, i: Input)
    requires Inv(cfg, w) && i.qtyStep > 0.0 && cfg.amountUsd > 0.0
    ensures Inv(cfg, Step(cfg, w, b, i))
  {
    if !w.stopped && b in w.syms {
      match w.syms[b].phase
      case Idle => StepIdleInv(cfg, w, b, i);
      case EntryPending => StepEntryPendingInv(cfg, w, b, i);
      case InPosition => StepInPositionInv(cfg, w, b, i);
      case ExitPending =>
        RecordExitInv(cfg, w, b, None, i);
        if i.market.MarketDone? { RecordExitInv(cfg, w, b, Some(i.market.avg), i); }
    }
  }

  /** Conservation in every reachable state of the bot, over any mix of replies and I/O failures. */
  lemma {:induction false} RunInv(cfg: Config, w: World, evs: seq<Event>)
    requires Inv(cfg, w) && WellFormed(evs) && cfg.amountUsd > 0.0
    ensures Inv(cfg, Run(cfg, w, evs))
    decreases |evs|
  {
    if evs != [] {
      StepInv(cfg, w, evs[0].base, evs[0].input);
      RunInv(cfg, Step(cfg, w, evs[0].base, evs[0].input), evs[1..]);
    }
  }

  // ----- Booking and its log record -----

  predicate Readable(m: MarketReply) { m.MarketDone? && !m.avg.Unparsable? }

  /** The step gets as far as booking an exit of the symbol. */
  predicate BooksExit(cfg: Config, s: Sym, i: Input) {
    match s.phase
    case InPosition => ShouldExit(cfg, s, i) && i.placed.Refused? && Readable(i.market)
    case ExitPending => Flat(s, i.pos) || (i.now - s.exitTime > cfg.fillWait && Readable(i.market))
    case _ => false
  }

  predicate Runs(w: World, b: Base) { !w.stopped && b in w.syms }

  predicate SameExits(w: World, w1: World) { w1.exits == w.exits && w1.lost == w.lost && w1.realized == w.realized }

  /** One exit was booked: recorded, with the symbol released, or lost, with every symbol as it was. */
  predicate Booked(w: World, w1: World, b: Base, logOk: bool) {
    if logOk then
      && |w1.exits| == |w.exits| + 1 && w1.lost == w.lost && b in w1.syms && w1.syms[b].phase.Idle?
      && w1.realized - w.realized == w1.exits[|w.exits|].pnlUsd
    else
      && w1.exits == w.exits && |w1.lost| == |w.lost| + 1 && w1.syms == w.syms
      && w1.realized - w.realized == w1.lost[|w.lost|].pnlUsd
  }

  lemma RecordBooks(cfg: Config, w: World, b: Base, avg: Option<AvgField>, i: Input)
    requires b in w.syms && w.syms[b].entryPrice > 0.0
    ensures if avg == Some(Unparsable) then RecordExit(cfg, w, b, avg, i) == w
            else Booked(w, RecordExit(cfg, w, b, avg, i), b, i.logOk)
  {
    if avg != Some(Unparsable) {
      var w1 := RecordExit(cfg, w, b, avg, i);
      var e := if i.logOk then w1.exits[|w.exits|] else w1.lost[|w.lost|];
      assert w1 == Book(cfg, w, b, e, i);
    }
  }

  lemma PositionBooked(cfg: Config, w: World, b: Base, i: Input)
    requires Inv(cfg, w) && b in w.syms && w.syms[b].phase.InPosition?
    ensures if BooksExit(cfg, w.syms[b], i) then Booked(w, StepInPosition(cfg, w, b, i), b, i.logOk)
            else SameExits(w, StepInPosition(cfg, w, b, i))
  {
    if i.market.MarketDone? { RecordBooks(cfg, w, b, Some(i.market.avg), i); }
  }

  lemma PendingBooked(cfg: Config, w: World, b: Base, i: Input)
    requires Inv(cfg, w) && b in w.syms && w.syms[b].phase.ExitPending?
    ensures if BooksExit(cfg, w.syms[b], i) then Booked(w, StepExitPending(cfg, w, b, i), b, i.logOk)
            else SameExits(w, StepExitPending(cfg, w, b, i))
  {
    RecordBooks(cfg, w, b, None, i);
    if i.market.MarketDone? { RecordBooks(cfg, w, b, Some(i.market.avg), i); }
  }

  /** A step that books an exit records it and releases the symbol if and only if its log record could be
      written; its profit is in the total either way. A step that does not book adds no exit. */
  lemma BookedReleasedIff(cfg: Config, w: World, b: Base, i: Input)
    requires Inv(cfg, w) && Runs(w, b) && i.qtyStep > 0.0
    ensures if BooksExit(cfg, w.syms[b], i) then Booked(w, Step(cfg, w, b, i), b, i.logOk)
            else SameExits(w, Step(cfg, w, b, i))
  {
    match w.syms[b].phase
    case Idle => assert SameExits(w, StepIdle(cfg, w, b, i));
    case EntryPending => assert SameExits(w, StepEntryPending(cfg, w, b, i));
    case InPosition => PositionBooked(cfg, w, b, i);
    case ExitPending => PendingBooked(cfg, w, b, i);
  }

  /** Every exit booked along the run finds its log writable. */
  predicate LogsWritten(cfg: Config, w: World, evs: seq<Event>)
    requires WellFormed(evs)
    decreases |evs|
  {
    evs == [] || (
      var b, i := evs[0].base, evs[0].input;
      && (Runs(w, b) && BooksExit(cfg, w.syms[b], i) ==> i.logOk)
      && LogsWritten(cfg, Step(cfg, w, b, i), evs[1..]))
  }

  /** No exit is lost exactly when every booked one finds its log writable. */
  lemma {:induction false} NothingLostIff(cfg: Config, w: World, evs: seq<Event>)
    requires Inv(cfg, w) && WellFormed(evs) && cfg.amountUsd > 0.0
    ensures |Run(cfg, w, evs).lost| >= |w.lost|
    ensures |Run(cfg, w, evs).lost| == |w.lost| <==> LogsWritten(cfg, w, evs)
    decreases |evs|
  {
    if evs != [] {
      var b, i := evs[0].base, evs[0].input;
      if Runs(w, b) { BookedReleasedIff(cfg, w, b, i); }
      StepInv(cfg, w, b, i);
      NothingLostIff(cfg, Step(cfg, w, b, i), evs[1..]);
    }
  }

  /** When every booked exit finds its log writable, the realised profit is exactly that of the recorded
      exits, and the bot has stopped exactly when there was one and the profit is below the kill level;
      for a level of at most 0 exactly when it is below. */
  lemma KillLevelHolds(cfg: Config, w: World, evs: seq<Event>)
    requires Init(w) && WellFormed(evs) && cfg.amountUsd > 0.0
    requires LogsWritten(cfg, w, evs)
    ensures Run(cfg, w, evs).realized == SumUsd(Run(cfg, w, evs).exits)
    ensures Run(cfg, w, evs).stopped <==> Run(cfg, w, evs).exits != [] && Run(cfg, w, evs).realized < cfg.killPnl
    ensures cfg.killPnl <= 0.0 ==> (Run(cfg, w, evs).stopped <==> Run(cfg, w, evs).realized < cfg.killPnl)
  {
    InitInv(cfg, w);
    RunInv(cfg, w, evs);
    NothingLostIff(cfg, w, evs);
  }

  /** One failed log write books a loss without a record and, below the kill level, without a stop;
      the position stays open and the next step books it again. */
  lemma LogFailureBooksTwice(cfg: Config, w: World, b: Base, i: Input)
    requires !w.stopped && b in w.syms && w.syms[b].phase.ExitPending? && w.syms[b].entryPrice > 0.0
    requires Flat(w.syms[b], i.pos) && !i.logOk && i.qtyStep > 0.0
    ensures var w1 := Step(cfg, w, b, i); var w2 := Step(cfg, w1, b, i.(logOk := true));
      && !w1.stopped && w1.syms == w.syms && w1.exits == w.exits
      && |w2.exits| == |w.exits| + 1
      && w2.realized - w.realized == 2.0 * w2.exits[|w.exits|].pnlUsd
  {}

  // ----- What one step does, in prices and quantities -----

  /** The exit order was found filled: less than a tenth of the quantity is left. */
  predicate FoundFlat(s: Sym, i: Input) { s.phase.ExitPending? && -s.entryQty < 10.0 * i.pos < s.entryQty }

  /** A position is closed at market after its limit exit was refused: it had converged or been held too
      long. A waiting exit order is replaced at market when it has waited too long. */
  predicate ClosesAtMarket(cfg: Config, s: Sym, i: Input) {
    && i.market.MarketDone? && !i.market.avg.Unparsable?
    && if s.phase.InPosition? then
         i.placed.Refused? &&
         ((i.dev.Some? && -cfg.exitThreshold < i.dev.value < cfg.exitThreshold) || i.now > s.since + cfg.holdMax)
       else s.phase.ExitPending? && i.now > s.exitTime + cfg.fillWait
  }

  lemma BooksExitIff(cfg: Config, s: Sym, i: Input)
    ensures BooksExit(cfg, s, i) <==> FoundFlat(s, i) || ClosesAtMarket(cfg, s, i)
  {}

  /** How many exits were booked, recorded or not. */
  function NBooked(w: World): nat { |w.exits| + |w.lost| }

  /** A step books one exit in exactly these cases. */
  lemma BookedIff(cfg: Config, w: World, b: Base, i: Input)
    requires Inv(cfg, w) && Runs(w, b) && i.qtyStep > 0.0
    ensures NBooked(Step(cfg, w, b, i)) ==
      NBooked(w) + if FoundFlat(w.syms[b], i) || ClosesAtMarket(cfg, w.syms[b], i) then 1 else 0
  {
    BookedReleasedIff(cfg, w, b, i);
    BooksExitIff(cfg, w.syms[b], i);
  }

  /** The price an exit is booked at: the average of the market order, the bid when it names none, and for
      a filled limit exit or an empty order the quote on the other side of the entry. */
  function ClosePrice(s: Sym, i: Input): real {
    if FoundFlat(s, i) || i.market.MarketFailed? || i.market.avg.NoOrder? then
      if s.entrySide == Buy then i.ask else i.bid
    else if i.market.avg.Price? then i.market.avg.value
    else i.bid
  }

  /** What the position gained per unit: a buy gains when the price rises, a sell when it falls. */
  function GainPerUnit(s: Sym, close: real): real {
    if s.entrySide == Buy then close - s.entryPrice else s.entryPrice - close
  }

  lemma PnlOf(cfg: Config, b: Base, s: Sym, close: real)
    requires s.entryPrice > 0.0
    ensures var e, gain := ExitAt(cfg, b, s, close), GainPerUnit(s, close);
      && e.base == b && e.pnlUsd * s.entryPrice == cfg.amountUsd * gain
      && e.pnlBp * s.entryPrice == 10000.0 * gain && (e.pnlBp > 0.0 <==> gain > 0.0)
  {
    var gain, q := GainPerUnit(s, close), (close - s.entryPrice) / s.entryPrice;
    assert q * s.entryPrice == close - s.entryPrice;
    var bp := ExitAt(cfg, b, s, close).pnlBp;
    assert bp == q * 10000.0 * Sign(s.entrySide);
    assert bp * s.entryPrice == 10000.0 * gain;
    UsdOf(bp, s.entryPrice, cfg.amountUsd, gain);
    SameSign(bp, s.entryPrice, 10000.0 * gain);
  }

  lemma UsdOf(bp: real, price: real, amount: real, gain: real)
    requires bp * price == 10000.0 * gain
    ensures bp * amount / 10000.0 * price == amount * gain
  {
    assert bp * amount / 10000.0 * price == amount * (bp * price) / 10000.0;
  }

  lemma SameSign(x: real, p: real, product: real)
    requires p > 0.0 && x * p == product
    ensures x > 0.0 <==> product > 0.0
  {}

  lemma RecordedAt(cfg: Config, w: World, b: Base, avg: Option<AvgField>, i: Input, close: real)
    requires b in w.syms && w.syms[b].entryPrice > 0.0 && avg != Some(Unparsable)
    requires close == match avg
      case None => LimitExitPrice(w.syms[b], i)
      case Some(NoOrder) => LimitExitPrice(w.syms[b], i)
      case Some(Price(p)) => p
      case _ => i.bid
    ensures RecordExit(cfg, w, b, avg, i) == Book(cfg, w, b, ExitAt(cfg, b, w.syms[b], close), i)
  {}

  /** A booked exit is worth the gain per unit on the traded amount, counts as a win exactly when there is
      one, and is recorded, with three seconds of cooldown, when its log record can be written. */
  lemma BookedInPrices(cfg: Config, w: World, b: Base, i: Input)
    requires Inv(cfg, w) && Runs(w, b) && i.qtyStep > 0.0
    requires FoundFlat(w.syms[b], i) || ClosesAtMarket(cfg, w.syms[b], i)
    ensures var s, w1 := w.syms[b], Step(cfg, w, b, i);
      var gain := GainPerUnit(s, ClosePrice(s, i));
      && (w1.realized - w.realized) * s.entryPrice == cfg.amountUsd * gain
      && w1.nWins == w.nWins + (if gain > 0.0 then 1 else 0)
      && (i.logOk ==> |w1.exits| == |w.exits| + 1 && w1.exits[|w.exits|].base == b
                      && w1.exits[|w.exits|].pnlBp * s.entryPrice == 10000.0 * gain
                      && w1.syms == w.syms[b := s.(phase := Idle, cooldownUntil := i.now + 3.0)])
  {
    var s := w.syms[b];
    var close := ClosePrice(s, i);
    assert s.entryPrice > 0.0;
    PnlOf(cfg, b, s, close);
    var avg := if FoundFlat(s, i) then None else Some(i.market.avg);
    RecordedAt(cfg, w, b, avg, i, close);
    BooksExitIff(cfg, s, i);
    assert Step(cfg, w, b, i) == RecordExit(cfg, w, b, avg, i);
  }

  lemma Quantised(amount: real, price: real, step: real)
    requires amount > 0.0 && step > 0.0 && price > 0.0
    ensures RoundTo(amount / price, step) > 0.0 <==> 2.0 * amount > price * step
    ensures var q := RoundTo(amount / price, step); 2.0 * Abs(q * price - amount) <= price * step
  {
    var x, n := amount / price / step, ContractSizing.RoundHalfEven(amount / price / step);
    var unit := price * step;
    assert unit > 0.0;
    assert x * unit == amount by { assert amount / price * price == amount; assert x * step == amount / price; }
    assert RoundTo(amount / price, step) * price == n as real * unit;
    HalfUnit(x, n, unit, amount);
    assert n as real * step > 0.0 <==> n > 0;
  }

  lemma HalfUnit(x: real, n: int, unit: real, amount: real)
    requires unit > 0.0 && x * unit == amount && n == ContractSizing.RoundHalfEven(x)
    ensures 2.0 * Abs(n as real * unit - amount) <= unit
    ensures n > 0 <==> 2.0 * amount > unit
  {
    ContractSizing.RoundIsNearest(x);
    ContractSizing.Distance(x, n, unit, amount);
    ContractSizing.Halves(Abs(x - n as real), unit, Abs(n as real * unit - amount));
    ContractSizing.Halves(x, unit, amount);
  }

  /** The quote an entry waits at: a sell at the ask, a buy at the bid. */
  function EntryQuote(side: Side, i: Input): real { if side == Sell then i.ask else i.bid }

  /** An idle symbol out of its cooldown asks for an order exactly when its signal's quote is positive and
      the amount buys more than half a step there. The order is for the quantity nearest to the amount. */
  predicate Asks(cfg: Config, s: Sym, i: Input) {
    && s.phase.Idle? && i.now >= s.cooldownUntil && i.signal.Some?
    && EntryQuote(i.signal.value, i) > 0.0 && 2.0 * cfg.amountUsd > EntryQuote(i.signal.value, i) * i.qtyStep
  }

  lemma AskedIff(cfg: Config, s: Sym, i: Input)
    requires i.qtyStep > 0.0 && cfg.amountUsd > 0.0 && s.phase.Idle?
    ensures EntryAsked(cfg, s, i).Some? <==> Asks(cfg, s, i)
    ensures Asks(cfg, s, i) ==>
      var e, price := EntryAsked(cfg, s, i).value, EntryQuote(i.signal.value, i);
      && e == s.(phase := EntryPending, orderTime := i.now, entrySide := i.signal.value, entryPrice := price,
                 entryQty := e.entryQty)
      && 2.0 * Abs(e.entryQty * price - cfg.amountUsd) <= price * i.qtyStep
  {
    if EntryAsked(cfg, s, i).Some? { EntryAskedSound(cfg, s, i); }
    if i.signal.Some? && EntryQuote(i.signal.value, i) > 0.0 {
      Quantised(cfg.amountUsd, EntryQuote(i.signal.value, i), i.qtyStep);
    }
  }

  /** What a step makes of an idle symbol: nothing, an order that waits at its quote, five seconds of
      cooldown after a refusal, or, when the call raised, a counted signal only. */
  lemma IdleStep(cfg: Config, w: World, b: Base, i: Input)
    requires Runs(w, b) && w.syms[b].phase.Idle? && i.qtyStep > 0.0 && cfg.amountUsd > 0.0
    ensures var s, w1 := w.syms[b], Step(cfg, w, b, i);
      if !Asks(cfg, s, i) then w1 == w
      else
        && w1.nSignals == w.nSignals + 1 && b in w1.syms
        && match i.placed
           case Accepted =>
             var e := w1.syms[b];
             && e.phase.EntryPending? && e.entrySide == i.signal.value && e.orderTime == i.now
             && e.entryPrice == EntryQuote(i.signal.value, i)
             && 2.0 * Abs(e.entryQty * e.entryPrice - cfg.amountUsd) <= e.entryPrice * i.qtyStep
           case Refused => w1.syms[b] == s.(cooldownUntil := i.now + 5.0)
           case PlaceRaised => w1.syms == w.syms
  {
    AskedIff(cfg, w.syms[b], i);
  }

  /** A waiting entry counts as filled within a tenth of its quantity on its own side; otherwise it is
      given up, with three seconds of cooldown, once it has waited too long. */
  lemma PendingStep(cfg: Config, w: World, b: Base, i: Input)
    requires Inv(cfg, w) && Runs(w, b) && w.syms[b].phase.EntryPending? && i.qtyStep > 0.0
    ensures var s := w.syms[b];
      var filled := if s.entrySide == Buy then 9.0 * s.entryQty < 10.0 * i.pos < 11.0 * s.entryQty
                    else -11.0 * s.entryQty < 10.0 * i.pos < -9.0 * s.entryQty;
      Step(cfg, w, b, i) ==
        if filled then
          w.(syms := w.syms[b := s.(phase := InPosition, since := i.now)], nFilled := w.nFilled + 1)
        else if i.now > s.orderTime + cfg.fillWait then
          w.(syms := w.syms[b := s.(phase := Idle, cooldownUntil := i.now + 3.0)], nCancelled := w.nCancelled + 1)
        else w
  {
    assert w.syms[b].entryQty > 0.0;
  }

  /** A step leaves a held position to wait, or puts its exit order in, unless it books an exit: the order
      goes in when the position is due and the exchange takes it. */
  lemma HeldStep(cfg: Config, w: World, b: Base, i: Input)
    requires Inv(cfg, w) && Runs(w, b) && i.qtyStep > 0.0
    requires w.syms[b].phase.InPosition? || w.syms[b].phase.ExitPending?
    requires !FoundFlat(w.syms[b], i) && !ClosesAtMarket(cfg, w.syms[b], i)
    ensures var s := w.syms[b];
      var due := (i.dev.Some? && -cfg.exitThreshold < i.dev.value < cfg.exitThreshold) || i.now > s.since + cfg.holdMax;
      Step(cfg, w, b, i) ==
        if s.phase.InPosition? && due && i.placed.Accepted?
        then w.(syms := w.syms[b := s.(phase := ExitPending, exitTime := i.now)]) else w
  {
    assert w.syms[b].entryPrice > 0.0 && w.syms[b].entryQty > 0.0;
  }

  // ----- IDLE and the exchange position -----

  /** What the exchange really holds, per symbol. */
  type Holdings = map<Base, real>

  function At(held: Holdings, b: Base): real { if b in held then held[b] else 0.0 }

  function HeldAfter(held: Holdings, w: World, b: Base, i: Input): Holdings {
    if Runs(w, b) then held[b := At(held, b) + i.before + i.after] else held
  }

  /** The step takes a busy symbol to IDLE: the entry timed out, or an exit was booked and recorded. */
  predicate EntersIdle(cfg: Config, s: Sym, i: Input) {
    || (s.phase.EntryPending? && !EntryFilled(s, i.pos) && i.now - s.orderTime > cfg.fillWait)
    || (BooksExit(cfg, s, i) && i.logOk)
  }

  lemma EntersIdleIff(cfg: Config, w: World, b: Base, i: Input)
    requires Inv(cfg, w) && Runs(w, b) && !w.syms[b].phase.Idle? && i.qtyStep > 0.0
    ensures Step(cfg, w, b, i).syms[b].phase.Idle? <==> EntersIdle(cfg, w.syms[b], i)
  {
    assert w.syms[b].entryPrice > 0.0;
  }

  /** Over every path into IDLE, a symbol enters it with a position on the exchange exactly when one of
      those happens and what was held and executed so far does not cancel out. */
  lemma EntersIdleHoldingIff(cfg: Config, w: World, held: Holdings, b: Base, i: Input)
    requires Inv(cfg, w) && Runs(w, b) && !w.syms[b].phase.Idle? && i.qtyStep > 0.0
    ensures Step(cfg, w, b, i).syms[b].phase.Idle? && At(HeldAfter(held, w, b, i), b) != 0.0 <==>
      EntersIdle(cfg, w.syms[b], i) && At(held, b) + i.before + i.after != 0.0
  {
    EntersIdleIff(cfg, w, b, i);
  }

  /** How much that can be when the reported position is the true one: a timed-out entry leaves anything
      not within a tenth of its target, an exit found flat anything below a tenth, each plus what is
      executed after the look. A market exit is not looked at again. */
  lemma ResidueBounds(cfg: Config, w: World, held: Holdings, b: Base, i: Input)
    requires Runs(w, b) && EntersIdle(cfg, w.syms[b], i) && i.pos == At(held, b) + i.before
    ensures var s, residue := w.syms[b], At(HeldAfter(held, w, b, i), b) - i.after;
      && (s.phase.EntryPending? ==> Abs(residue - Sign(s.entrySide) * s.entryQty) >= s.entryQty * 0.1)
      && (s.phase.ExitPending? && Flat(s, i.pos) ==> Abs(residue) < s.entryQty * 0.1)
  {}

  /** The step places an entry order for an idle symbol. */
  predicate PlacesEntry(cfg: Config, w: World, b: Base, i: Input)
    requires b in w.syms && i.qtyStep > 0.0
  {
    EntryAsked(cfg, w.syms[b], i).Some? && i.placed.Accepted?
  }

  /** Idle symbols hold nothing. */
  predicate IdleFlat(w: World, held: Holdings) {
    forall b :: b in w.syms ==> FlatIfIdle(w.syms[b], At(held, b))
  }

  predicate FlatIfIdle(s: Sym, x: real) { s.phase.Idle? ==> x == 0.0 }

  /** The step neither enters IDLE with a position nor sees a fill for a symbol that stays idle. */
  predicate Tidy(cfg: Config, w: World, held: Holdings, b: Base, i: Input)
    requires i.qtyStep > 0.0
  {
    Runs(w, b) ==>
      var sum := At(held, b) + i.before + i.after;
      if w.syms[b].phase.Idle? then PlacesEntry(cfg, w, b, i) || sum == 0.0
      else EntersIdle(cfg, w.syms[b], i) ==> sum == 0.0
  }

  predicate AllTidy(cfg: Config, w: World, held: Holdings, evs: seq<Event>)
    requires WellFormed(evs)
    decreases |evs|
  {
    evs == [] || (
      var b, i := evs[0].base, evs[0].input;
      Tidy(cfg, w, held, b, i) && AllTidy(cfg, Step(cfg, w, b, i), HeldAfter(held, w, b, i), evs[1..]))
  }

  predicate AlwaysIdleFlat(cfg: Config, w: World, held: Holdings, evs: seq<Event>)
    requires WellFormed(evs)
    decreases |evs|
  {
    IdleFlat(w, held) && (evs == [] || (
      var b, i := evs[0].base, evs[0].input;
      AlwaysIdleFlat(cfg, Step(cfg, w, b, i), HeldAfter(held, w, b, i), evs[1..])))
  }

  predicate OnlyChanges(w: World, w1: World, b: Base) {
    w1.syms.Keys == w.syms.Keys && forall c :: c in w.syms && c != b ==> w1.syms[c] == w.syms[c]
  }

  lemma RecordLocal(cfg: Config, w: World, b: Base, avg: Option<AvgField>, i: Input)
    requires b in w.syms
    ensures OnlyChanges(w, RecordExit(cfg, w, b, avg, i), b)
  {}

  lemma IdleLocal(cfg: Config, w: World, b: Base, i: Input)
    requires b in w.syms && i.qtyStep > 0.0
    ensures OnlyChanges(w, StepIdle(cfg, w, b, i), b)
  {
    assert forall e :: OnlyChanges(w, PlaceEntry(w, b, e, i), b);
  }

  /** A step of a symbol changes no other. */
  lemma StepLocal(cfg: Config, w: World, b: Base, i: Input)
    requires i.qtyStep > 0.0
    ensures OnlyChanges(w, Step(cfg, w, b, i), b)
  {
    if Runs(w, b) {
      match w.syms[b].phase
      case Idle => IdleLocal(cfg, w, b, i);
      case EntryPending => assert OnlyChanges(w, StepEntryPending(cfg, w, b, i), b);
      case InPosition =>
        if i.market.MarketDone? { RecordLocal(cfg, w, b, Some(i.market.avg), i); }
      case ExitPending =>
        RecordLocal(cfg, w, b, None, i);
        if i.market.MarketDone? { RecordLocal(cfg, w, b, Some(i.market.avg), i); }
    }
  }

  lemma TidyIff(cfg: Config, w: World, held: Holdings, b: Base, i: Input)
    requires Inv(cfg, w) && Runs(w, b) && i.qtyStep > 0.0 && FlatIfIdle(w.syms[b], At(held, b))
    ensures b in Step(cfg, w, b, i).syms
    ensures FlatIfIdle(Step(cfg, w, b, i).syms[b], At(HeldAfter(held, w, b, i), b)) <==> Tidy(cfg, w, held, b, i)
  {
    StepLocal(cfg, w, b, i);
    if !w.syms[b].phase.Idle? { EntersIdleIff(cfg, w, b, i); }
  }

  lemma IdleFlatStepIff(cfg: Config, w: World, held: Holdings, b: Base, i: Input)
    requires Inv(cfg, w) && IdleFlat(w, held) && i.qtyStep > 0.0
    ensures IdleFlat(Step(cfg, w, b, i), HeldAfter(held, w, b, i)) <==> Tidy(cfg, w, held, b, i)
  {
    if Runs(w, b) {
      StepLocal(cfg, w, b, i);
      TidyIff(cfg, w, held, b, i);
      var w1, h1 := Step(cfg, w, b, i), HeldAfter(held, w, b, i);
      forall c | c in w.syms && c != b ensures FlatIfIdle(w1.syms[c], At(h1, c)) {
        assert FlatIfIdle(w.syms[c], At(held, c));
      }
    }
  }

  /** IDLE means flat in every state of a run if and only if every step of it is tidy. */
  lemma {:induction false} IdleMeansFlatIff(cfg: Config, w: World, held: Holdings, evs: seq<Event>)
    requires Inv(cfg, w) && IdleFlat(w, held) && WellFormed(evs) && cfg.amountUsd > 0.0
    ensures AlwaysIdleFlat(cfg, w, held, evs) <==> AllTidy(cfg, w, held, evs)
    decreases |evs|
  {
    if evs != [] {
      var b, i := evs[0].base, evs[0].input;
      StepInv(cfg, w, b, i);
      IdleFlatStepIff(cfg, w, held, b, i);
      if Tidy(cfg, w, held, b, i) {
        IdleMeansFlatIff(cfg, Step(cfg, w, b, i), HeldAfter(held, w, b, i), evs[1..]);
      }
    }
  }

  // ----- The bot -----

  class Bot {
    const cfg: Config
    var sym: map<Base, Sym>
    var realizedPnl: real
    var nSignals: nat
    var nFilled: nat
    var nCancelled: nat
    var nWins: nat
    var stopped: bool
    ghost var nRejected: nat
    ghost var nRaised: nat
    ghost var exits: seq<Exit>
    ghost var lost: seq<Exit>
    ghost var dirty: bool
    ghost var held: map<Base, real>

    ghost function View(): World
      reads this
    {
      World(sym, realizedPnl, nSignals, nFilled, nCancelled, nWins, nRejected, nRaised, exits, lost, dirty, stopped)
    }

    constructor (cfg: Config, symbols: set<Base>)
      ensures this.cfg == cfg && Init(View()) && sym.Keys == symbols
    {
      this.cfg := cfg;
      sym := map b | b in symbols :: FRESH;
      realizedPnl, nSignals, nFilled, nCancelled, nWins, stopped := 0.0, 0, 0, 0, 0, false;
      nRejected, nRaised, exits, lost, dirty, held := 0, 0, [], [], false, map[];
    }

    /** `ok` is false when the step raised. */
    method RecordExitOf(b: Base, avg: Option<AvgField>, i: Input) returns (ok: bool)
      requires b in sym && !stopped
      modifies this`sym, this`realizedPnl, this`nWins, this`stopped, this`exits, this`lost, this`dirty
      ensures View() == RecordExit(cfg, old(View()), b, avg, i)
    {
      var s := sym[b];
      var close: real;
      match avg {
        case None => close := if s.entrySide == Sell then i.bid else i.ask;
        case Some(NoOrder) => close := if s.entrySide == Sell then i.bid else i.ask;
        case Some(Price(p)) => close := p;
        case Some(Missing) => close := i.bid;
        case Some(Unparsable) => return false;
      }
      if s.entryPrice == 0.0 { return false; }
      ok := BookExit(b, ExitAt(cfg, b, s, close), i);
    }

    method BookExit(b: Base, e: Exit, i: Input) returns (ok: bool)
      requires b in sym && !stopped
      modifies this`sym, this`realizedPnl, this`nWins, this`stopped, this`exits, this`lost, this`dirty
      ensures View() == Book(cfg, old(View()), b, e, i) && ok == i.logOk
    {
      realizedPnl := realizedPnl + e.pnlUsd;
      if e.pnlBp > 0.0 { nWins := nWins + 1; }
      if !i.logOk {
        lost, dirty := lost + [e], true;
        return false;
      }
      exits, dirty := exits + [e], false;
      sym := sym[b := sym[b].(phase := Idle, cooldownUntil := i.now + 3.0)];
      stopped := realizedPnl < cfg.killPnl;
      return true;
    }

    method StepSymbol(b: Base, i: Input)
      requires i.qtyStep > 0.0
      modifies this
      ensures View() == Step(cfg, old(View()), b, i)
      ensures held == HeldAfter(old(held), old(View()), b, i)
    {
      if stopped || b !in sym { return; }
      held := held[b := At(held, b) + i.before + i.after];
      match sym[b].phase
      case Idle => LookForSignal(b, i);
      case EntryPending => CheckEntry(b, i);
      case InPosition => LookForExit(b, i);
      case ExitPending => CheckExit(b, i);
    }

    method LookForSignal(b: Base, i: Input)
      requires i.qtyStep > 0.0 && b in sym && !stopped && sym[b].phase.Idle?
      modifies this`sym, this`nSignals, this`nRejected, this`nRaised
      ensures View() == StepIdle(cfg, old(View()), b, i)
    {
      var s := sym[b];
      if i.now < s.cooldownUntil || i.signal.None? { return; }
      var side := i.signal.value;
      var price := if side == Sell then i.ask else i.bid;
      if price == 0.0 { return; }
      var qty := RoundTo(cfg.amountUsd / price, i.qtyStep);
      if qty <= 0.0 { return; }
      nSignals := nSignals + 1;
      if i.placed.PlaceRaised? {
        nRaised := nRaised + 1;
        return;
      }
      if i.placed.Refused? {
        nRejected := nRejected + 1;
        sym := sym[b := s.(cooldownUntil := i.now + 5.0)];
        return;
      }
      sym := sym[b := PendingEntry(s, i.now, side, qty, price)];
    }

    method CheckEntry(b: Base, i: Input)
      requires b in sym && !stopped && sym[b].phase.EntryPending?
      modifies this`sym, this`nFilled, this`nCancelled
      ensures View() == StepEntryPending(cfg, old(View()), b, i)
    {
      var s := sym[b];
      if EntryFilled(s, i.pos) {
        sym := sym[b := s.(phase := InPosition, since := i.now)];
        nFilled := nFilled + 1;
      } else if i.now - s.orderTime > cfg.fillWait {
        nCancelled := nCancelled + 1;
        sym := sym[b := s.(phase := Idle, cooldownUntil := i.now + 3.0)];
      }
    }

    method LookForExit(b: Base, i: Input)
      requires b in sym && !stopped && sym[b].phase.InPosition?
      modifies this`sym, this`realizedPnl, this`nWins, this`stopped, this`exits, this`lost, this`dirty
      ensures View() == StepInPosition(cfg, old(View()), b, i)
    {
      var s := sym[b];
      if !ShouldExit(cfg, s, i) || i.placed.PlaceRaised? { return; }
      if i.placed.Accepted? {
        sym := sym[b := s.(phase := ExitPending, exitTime := i.now)];
      } else if i.market.MarketDone? {
        var _ := RecordExitOf(b, Some(i.market.avg), i);
      }
    }

    method CheckExit(b: Base, i: Input)
      requires b in sym && !stopped && sym[b].phase.ExitPending?
      modifies this`sym, this`realizedPnl, this`nWins, this`stopped, this`exits, this`lost, this`dirty
      ensures View() == StepExitPending(cfg, old(View()), b, i)
    {
      var s := sym[b];
      if Flat(s, i.pos) {
        var _ := RecordExitOf(b, None, i);
      } else if i.now - s.exitTime > cfg.fillWait && i.market.MarketDone? {
        var _ := RecordExitOf(b, Some(i.market.avg), i);
      }
    }

    /** The strategy loop over any schedule of steps: counters and profit balance throughout. */
    method StrategyLoop(evs: seq<Event>)
      requires Inv(cfg, View()) && WellFormed(evs) && cfg.amountUsd > 0.0
      modifies this
      ensures View() == Run(cfg, old(View()), evs) && Inv(cfg, View())
    {
      ghost var start := View();
      RunInv(cfg, start, evs);
      for k := 0 to |evs|
        invariant Run(cfg, View(), evs[k..]) == Run(cfg, start, evs)
      {
        assert evs[k..][1..] == evs[k + 1..];
        StepSymbol(evs[k].base, evs[k].input);
      }
    }
  }
}
