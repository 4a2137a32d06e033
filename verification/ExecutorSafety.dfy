/** Safety of the live executor over every interleaving. */
module ExecutorSafety {
  import opened Common
  import opened HedgeBooks
  import opened ExecutorMachine

  lemma {:induction false} RunInv(s: State, ls: seq<Label>)
    requires Inv(s)
    ensures Inv(Run(s, ls))
    decreases |ls|
  {
    if ls != [] {
      StepInv(s, ls[0]);
      RunInv(Step(s, ls[0]), ls[1..]);
    }
  }

  lemma {:induction false} RunAppend(s: State, l1: seq<Label>, l2: seq<Label>)
    ensures Run(s, l1 + l2) == Run(Run(s, l1), l2)
    decreases |l1|
  {
    if l1 == [] {
      assert l1 + l2 == l2;
    } else {
      assert (l1 + l2)[1..] == l1[1..] + l2;
      RunAppend(Step(s, l1[0]), l1[1..], l2);
    }
  }

  /** However the threads interleave, each position id reaches every kind of order at most once,
      and neither the hedge nor a close is ever sent before its Flipster fill was reported. */
  lemma OrdersAtMostOnce(s: State, ls: seq<Label>, pid: PosId)
    requires Init(s)
    ensures forall kind :: Sent(Run(s, ls).books, kind, pid) <= 1
    ensures forall kind :: kind != FlipEntry && Sent(Run(s, ls).books, kind, pid) > 0 ==>
              pid in Run(s, ls).books.flipReported && Sent(Run(s, ls).books, FlipEntry, pid) == 1
    ensures Sent(Run(s, ls).books, FlipRevert, pid) + Sent(Run(s, ls).books, FlipClose, pid) <= 1
  {
    InitInv(s);
    RunInv(s, ls);
    var e := Run(s, ls);
    assert PidOk(e, pid);
    if tid :| OwnedBy(e, tid, pid) { assert TaskOk(e, e.tasks[tid]); }
    assert AtMostOnce(e.books, pid);
    forall kind ensures Sent(e.books, kind, pid) <= 1 { match kind { case FlipEntry => case _ => } }
  }

  predicate Quiescent(s: State) {
    forall tid :: tid in s.tasks ==> !Owns(s.tasks[tid])
  }

  /** When no handler is in flight every position id stands in one of five ways: never traded,
      aborted before the hedge, hedge missed and reverted, live with both legs, or closed. */
  lemma EveryIdSettles(s: State, ls: seq<Label>, pid: PosId)
    requires Init(s) && Quiescent(Run(s, ls))
    ensures Settled(Run(s, ls), pid)
    ensures pid in Run(s, ls).open <==> pid in Run(s, ls).books.legs
    ensures pid in Run(s, ls).books.gateMissed ==> Sent(Run(s, ls).books, FlipRevert, pid) == 1
    ensures pid in Run(s, ls).open ==> pid in Run(s, ls).books.flipReported && pid in Run(s, ls).books.gateReported
  {
    InitInv(s);
    RunInv(s, ls);
    assert PidOk(Run(s, ls), pid);
  }

  /** Conservation: on each venue and base the true exposure is the signed sum of the legs of
      tracked and in-flight ids plus the ledger, in every reachable state. */
  lemma ExposureIsExplained(s: State, ls: seq<Label>, b: Base, v: Venue)
    requires Init(s)
    ensures At(Run(s, ls).books.exposure, b, v) ==
            SumLegs(Run(s, ls).books.legs, b, v) + SumLedger(Run(s, ls).books.ledger, b, v)
  {
    InitInv(s);
    RunInv(s, ls);
  }

  // ----- Truthful replies -----

  /** The exchange does what it reports, signals agree with the position they close, a base is
      entered only while no other id is live on it, and the 1.5x reduce-only order is large enough. */
  predicate Good(s: State, l: Label)
    requires Enabled(s, l)
  {
    var k := s.books;
    match l
    case OrderFlip(tid, _, filled, report) =>
      if report.Some? then
        && filled == report.value > 0.0
        && (forall p :: p in k.legs ==> k.legs[p].base != s.tasks[tid].base)
      else filled == 0.0
    case OrderGate(tid, filled, contracts) =>
      if contracts.Some? then contracts.value > 0 && filled == contracts.value as real else filled == 0.0
    case RevertFlip(tid, mark, closed, ok) =>
      var t := s.tasks[tid];
      ok ==> GoodReduce(k, t.pid, t.base, t.side, t.sizeUsd, mark, closed)
    case Pop(tid) =>
      var t := s.tasks[tid];
      t.pid in s.open ==> t.base == s.open[t.pid].base && t.side == s.open[t.pid].side
    case CloseFlipLeg(tid, mark, closed, ok) =>
      var t := s.tasks[tid];
      ok ==> GoodReduce(k, t.pid, t.base, t.side, t.position.sizeUsd, mark, closed)
    case CloseGateLeg(tid, closed, ok) =>
      var t := s.tasks[tid];
      ok ==> closed == ReduceOnly(At(k.exposure, t.base, Gate), t.side, Gate, t.position.gateSize as real)
    case _ => true
  }

  /** A successful reduce-only market order for 1.5 times the recorded notional, at a mark price
      at which that notional still covers the leg. */
  predicate GoodReduce(k: Books, pid: PosId, base: Base, side: Side, sizeUsd: real, mark: real, closed: real) {
    && mark > 0.0
    && LegOf(k, pid, base, side).flip <= 1.5 * sizeUsd / mark
    && closed == ReduceOnly(At(k.exposure, base, Flipster), side, Flipster, 1.5 * sizeUsd / mark)
  }

  ghost predicate GoodRun(s: State, ls: seq<Label>)
    decreases |ls|
  {
    ls == [] || ((Enabled(s, ls[0]) ==> Good(s, ls[0])) && GoodRun(Step(s, ls[0]), ls[1..]))
  }

  /** What the program recorded is what the venues filled. */
  predicate Matches(k: Books, pid: PosId, q: Position) {
    && HasLeg(k, pid, q.base, q.side)
    && q.flipSize > 0.0 && q.gateSize > 0
    && k.legs[pid].gate == q.gateSize as real
  }

  predicate TaskExact(s: State, t: Task) {
    var k := s.books;
    match t
    case FlipFilled(p, b, d, _, f) => p in k.legs && k.legs[p].flip == f > 0.0
    case Missed(p, b, d, _) => p in k.legs && k.legs[p].flip > 0.0
    case Hedged(p, q) => Matches(k, p, q) && k.legs[p].flip == q.flipSize
    case Popped(p, b, d, q) => Matches(k, p, q) && k.legs[p].flip == q.flipSize && b == q.base && d == q.side
    case FlipClosed(p, b, d, q) => Matches(k, p, q) && b == q.base && d == q.side
    case _ => true
  }

  ghost predicate Exact(s: State) {
    && Inv(s)
    && OneLive(s.books.legs)
    && (forall tid :: tid in s.tasks ==> TaskExact(s, s.tasks[tid]))
    && (forall pid :: pid in s.open ==>
          Matches(s.books, pid, s.open[pid]) && s.books.legs[pid].flip == s.open[pid].flipSize)
    && (forall b :: Untouched(s.books.ledger, b) || FlaggedOn(s.books.ledger, b))
  }

  lemma GoodReduceClosesLeg(k: Books, pid: PosId, sizeUsd: real, mark: real, closed: real)
    requires Conserved(k) && OneLive(k.legs) && pid in k.legs && k.legs[pid].flip >= 0.0
    requires Untouched(k.ledger, k.legs[pid].base)
    requires GoodReduce(k, pid, k.legs[pid].base, k.legs[pid].side, sizeUsd, mark, closed)
    ensures closed == k.legs[pid].flip
  {
    ExposureIsLeg(k, pid, Flipster);
  }

  lemma GoodGateClosesLeg(k: Books, pid: PosId, size: real, closed: real)
    requires Conserved(k) && OneLive(k.legs) && pid in k.legs && k.legs[pid].gate >= 0.0
    requires Untouched(k.ledger, k.legs[pid].base) && size == k.legs[pid].gate
    requires closed == ReduceOnly(At(k.exposure, k.legs[pid].base, Gate), k.legs[pid].side, Gate, size)
    ensures closed == k.legs[pid].gate
  {
    ExposureIsLeg(k, pid, Gate);
  }

  /** Adding one residue keeps every base either untouched or flagged, as long as an
      untouched base only ever receives a flagged one. */
  lemma LedgerStaysFlagged(ledger: seq<Residue>, e: Residue)
    requires forall b :: Untouched(ledger, b) || FlaggedOn(ledger, b)
    requires Untouched(ledger, e.base) ==> e.amount == 0.0 || Flagged(e.kind)
    ensures forall b :: Untouched(Ledger(ledger, e), b) || FlaggedOn(Ledger(ledger, e), b)
  {
    if e.amount != 0.0 {
      var next := ledger + [e];
      forall b ensures Untouched(next, b) || FlaggedOn(next, b) {
        if FlaggedOn(ledger, b) {
          var x :| x in ledger && x.base == b && Flagged(x.kind);
          assert x in next;
        } else if b == e.base {
          assert e in next;
        }
      }
    }
  }

  lemma RevertLedger(k: Books, pid: PosId, sizeUsd: real, mark: real, closed: real, ok: bool)
    requires Conserved(k) && OneLive(k.legs) && pid in k.legs && k.legs[pid].flip >= 0.0
    requires forall b :: Untouched(k.ledger, b) || FlaggedOn(k.ledger, b)
    requires ok ==> GoodReduce(k, pid, k.legs[pid].base, k.legs[pid].side, sizeUsd, mark, closed)
    ensures var next := Revert(k, pid, k.legs[pid].base, k.legs[pid].side, closed, ok).ledger;
      forall b :: Untouched(next, b) || FlaggedOn(next, b)
    ensures var next := CloseFlip(k, pid, k.legs[pid].base, k.legs[pid].side, closed, ok).ledger;
      forall b :: Untouched(next, b) || FlaggedOn(next, b)
  {
    var leg := k.legs[pid];
    if ok && Untouched(k.ledger, leg.base) { GoodReduceClosesLeg(k, pid, sizeUsd, mark, closed); }
    var rest := Signed(leg.side, Flipster, leg.flip) - Signed(leg.side, Flipster, closed);
    LedgerStaysFlagged(k.ledger, Residue(leg.base, Flipster, rest, if ok then RevertResidue else RevertFailed));
    LedgerStaysFlagged(k.ledger, Residue(leg.base, Flipster, rest, if ok then FlipCloseResidue else FlipCloseFailed));
  }

  lemma GateLedger(k: Books, pid: PosId, size: real, closed: real, ok: bool)
    requires Conserved(k) && OneLive(k.legs) && pid in k.legs && k.legs[pid].gate >= 0.0 && size == k.legs[pid].gate
    requires forall b :: Untouched(k.ledger, b) || FlaggedOn(k.ledger, b)
    requires ok ==> closed == ReduceOnly(At(k.exposure, k.legs[pid].base, Gate), k.legs[pid].side, Gate, size)
    ensures var next := CloseGate(k, pid, k.legs[pid].base, k.legs[pid].side, closed, ok).ledger;
      forall b :: Untouched(next, b) || FlaggedOn(next, b)
  {
    var leg := k.legs[pid];
    if ok && Untouched(k.ledger, leg.base) { GoodGateClosesLeg(k, pid, size, closed); }
    var rest := Signed(leg.side, Gate, leg.gate) - Signed(leg.side, Gate, closed);
    LedgerStaysFlagged(k.ledger, Residue(leg.base, Gate, rest, if ok then GateCloseResidue else GateCloseFailed));
  }

  lemma StepLedger(s: State, l: Label)
    requires Exact(s) && Enabled(s, l) && Good(s, l)
    ensures forall b :: Untouched(Effect(s, l).books.ledger, b) || FlaggedOn(Effect(s, l).books.ledger, b)
  {
    if l.tid in s.tasks {
      var t := s.tasks[l.tid];
      assert TaskOk(s, t) && TaskExact(s, t);
      match l
      case RevertFlip(_, mark, closed, ok) => RevertLedger(s.books, t.pid, t.sizeUsd, mark, closed, ok);
      case CloseFlipLeg(_, mark, closed, ok) => RevertLedger(s.books, t.pid, t.position.sizeUsd, mark, closed, ok);
      case CloseGateLeg(_, closed, ok) => GateLedger(s.books, t.pid, t.position.gateSize as real, closed, ok);
      case _ =>
    }
  }

  lemma StepOneLive(s: State, l: Label)
    requires Exact(s) && Enabled(s, l) && Good(s, l)
    ensures OneLive(Effect(s, l).books.legs)
  {
    if l.tid in s.tasks { assert TaskOk(s, s.tasks[l.tid]); }
  }

  lemma TaskExactSame(s: State, s': State, t: Task)
    requires TaskExact(s, t) && (Owns(t) ==> SamePid(s, s', t.pid))
    ensures TaskExact(s', t)
  {}

  lemma StepExactOrder(s: State, l: Label)
    requires Enabled(s, l) && Good(s, l) && (l.OrderFlip? || l.OrderGate?) && l.tid in Effect(s, l).tasks
    requires TaskOk(s, s.tasks[l.tid]) && TaskExact(s, s.tasks[l.tid])
    ensures TaskExact(Effect(s, l), Effect(s, l).tasks[l.tid])
  {}

  lemma StepExactOwn(s: State, l: Label)
    requires Exact(s) && Enabled(s, l) && Good(s, l) && l.tid in Effect(s, l).tasks
    ensures TaskExact(Effect(s, l), Effect(s, l).tasks[l.tid])
  {
    if l.tid in s.tasks {
      assert TaskOk(s, s.tasks[l.tid]) && TaskExact(s, s.tasks[l.tid]);
    }
    if l.OrderFlip? || l.OrderGate? { StepExactOrder(s, l); }
  }

  lemma StepExactTask(s: State, l: Label, tid: nat)
    requires Exact(s) && Enabled(s, l) && Good(s, l) && tid in Effect(s, l).tasks
    ensures TaskExact(Effect(s, l), Effect(s, l).tasks[tid])
  {
    if tid == l.tid {
      StepExactOwn(s, l);
    } else {
      TaskStays(s, l, tid);
      var t := s.tasks[tid];
      assert TaskExact(s, t);
      if Owns(t) { OwnedSame(s, l, tid); }
      TaskExactSame(s, Effect(s, l), t);
    }
  }

  lemma StepExactOpen(s: State, l: Label, pid: PosId)
    requires Exact(s) && Enabled(s, l) && Good(s, l) && pid in Effect(s, l).open
    ensures Matches(Effect(s, l).books, pid, Effect(s, l).open[pid])
    ensures Effect(s, l).books.legs[pid].flip == Effect(s, l).open[pid].flipSize
  {
    if l.tid in s.tasks && PidOf(s.tasks[l.tid]) == pid {
      assert TaskOk(s, s.tasks[l.tid]) && TaskExact(s, s.tasks[l.tid]);
    } else {
      StepLocal(s, l, pid);
    }
  }

  lemma {:induction false} RunExact(s: State, ls: seq<Label>)
    requires Exact(s) && GoodRun(s, ls)
    ensures Exact(Run(s, ls))
    decreases |ls|
  {
    if ls != [] {
      var l := ls[0];
      StepInv(s, l);
      if Enabled(s, l) {
        StepLedger(s, l);
        StepOneLive(s, l);
        forall tid | tid in Effect(s, l).tasks ensures TaskExact(Effect(s, l), Effect(s, l).tasks[tid]) {
          StepExactTask(s, l, tid);
        }
        forall pid | pid in Effect(s, l).open
          ensures Matches(Effect(s, l).books, pid, Effect(s, l).open[pid])
            && Effect(s, l).books.legs[pid].flip == Effect(s, l).open[pid].flipSize
        {
          StepExactOpen(s, l, pid);
        }
      }
      RunExact(Step(s, l), ls[1..]);
    }
  }

  /** The hedge theorem. When every reply is truthful and no handler is in flight, a base on which
      no manual-intervention failure was ever flagged is flat unless a recorded position is live on
      it, and then both venues hold exactly the recorded sizes, on opposite sides. */
  lemma HedgedUntilFlagged(s: State, ls: seq<Label>, b: Base)
    requires Init(s) && GoodRun(s, ls) && Quiescent(Run(s, ls))
    requires !FlaggedOn(Run(s, ls).books.ledger, b)
    ensures var e := Run(s, ls); var x := e.books.exposure;
      if exists pid :: pid in e.open && e.open[pid].base == b then
        forall pid :: pid in e.open && e.open[pid].base == b ==>
          var q := e.open[pid];
          && q.flipSize > 0.0 && q.gateSize > 0
          && At(x, b, Flipster) == Signed(q.side, Flipster, q.flipSize)
          && At(x, b, Gate) == Signed(q.side, Gate, q.gateSize as real)
          && At(x, b, Flipster) * At(x, b, Gate) < 0.0
      else At(x, b, Flipster) == 0.0 && At(x, b, Gate) == 0.0
  {
    InitInv(s);
    RunExact(s, ls);
    var e := Run(s, ls);
    assert Untouched(e.books.ledger, b);
    forall pid ensures pid in e.open <==> pid in e.books.legs { EveryIdSettles(s, ls, pid); }
    if exists pid :: pid in e.open && e.open[pid].base == b {
      forall pid | pid in e.open && e.open[pid].base == b
        ensures var q := e.open[pid];
          && q.flipSize > 0.0 && q.gateSize > 0
          && At(e.books.exposure, b, Flipster) == Signed(q.side, Flipster, q.flipSize)
          && At(e.books.exposure, b, Gate) == Signed(q.side, Gate, q.gateSize as real)
          && At(e.books.exposure, b, Flipster) * At(e.books.exposure, b, Gate) < 0.0
      {
        ExposureIsLeg(e.books, pid, Flipster);
        ExposureIsLeg(e.books, pid, Gate);
        Opposite(e.open[pid].side, e.open[pid].flipSize, e.open[pid].gateSize as real);
      }
    } else {
      forall p | p in e.books.legs ensures e.books.legs[p].base != b {
        assert p in e.open && Matches(e.books, p, e.open[p]);
      }
      SumLegsAbsent(e.books.legs, b, Flipster);
      SumLegsAbsent(e.books.legs, b, Gate);
      SumLedgerUntouched(e.books.ledger, b, Flipster);
      SumLedgerUntouched(e.books.ledger, b, Gate);
    }
  }

  lemma Opposite(side: Side, flip: real, gate: real)
    requires flip > 0.0 && gate > 0.0
    ensures Signed(side, Flipster, flip) * Signed(side, Gate, gate) < 0.0
  {
    assert flip * gate > 0.0;
  }

  /** The legs that the recorded positions claim. */
  function OpenLegs(open: map<PosId, Position>): map<PosId, Leg> {
    map pid | pid in open :: Leg(open[pid].base, open[pid].side, open[pid].flipSize, open[pid].gateSize as real)
  }

  /** With truthful replies and no handler in flight, on every base and venue, flagged or not, the
      exposure is the signed sum of the recorded sizes of the open positions plus the ledger. */
  lemma ExposureIsRecordedPlusLedger(s: State, ls: seq<Label>, b: Base, v: Venue)
    requires Init(s) && GoodRun(s, ls) && Quiescent(Run(s, ls))
    ensures var e := Run(s, ls);
      At(e.books.exposure, b, v) == SumLegs(OpenLegs(e.open), b, v) + SumLedger(e.books.ledger, b, v)
  {
    InitInv(s);
    RunExact(s, ls);
    var e := Run(s, ls);
    forall pid ensures pid in e.open <==> pid in e.books.legs { EveryIdSettles(s, ls, pid); }
    forall pid | pid in e.open ensures e.books.legs[pid] == OpenLegs(e.open)[pid] {
      assert Matches(e.books, pid, e.open[pid]);
    }
    assert e.books.legs == OpenLegs(e.open);
  }

  // ----- Where the obvious claims stop -----

  /** An id whose exit has been consumed while it is open, with no exit handler left for it. */
  predicate Stranded(s: State, pid: PosId) {
    && pid in s.open
    && pid in s.seenExit
    && (forall tid :: tid in s.tasks && s.tasks[tid].Exiting? ==> s.tasks[tid].pid != pid)
  }

  predicate NoShutdownOf(ls: seq<Label>, pid: PosId) {
    forall i :: 0 <= i < |ls| && ls[i].Shutdown? ==> ls[i].pid != pid
  }

  /** No signal, poll or take-profit ever closes a stranded position: only the shutdown handler can. */
  lemma {:induction false} OnlyShutdownClosesStranded(s: State, ls: seq<Label>, pid: PosId)
    requires Stranded(s, pid) && NoShutdownOf(ls, pid)
    ensures Stranded(Run(s, ls), pid)
    decreases |ls|
  {
    if ls != [] {
      assert Stranded(Step(s, ls[0]), pid);
      OnlyShutdownClosesStranded(Step(s, ls[0]), ls[1..], pid);
    }
  }

  /** The poll hands in what was not seen yet, like the feed, and drops the rest. */
  lemma PollDeliversUnseen(s: State, tid: nat, e: Event)
    ensures var seen := if e.Entry? then e.pid in s.seenEntry else e.pid in s.seenExit;
      Step(s, PollSubmit(tid, e)) == if seen then s else Step(s, Submit(tid, e))
    ensures tid !in s.tasks ==> Step(s, Submit(tid, e)) == s.(tasks := s.tasks[tid := Submitted(e)])
  {}

  function ClosingSteps(tid: nat, mark: real, flip: real, flipOk: bool, gate: real, gateOk: bool): seq<Label> {
    [Pop(tid), CloseFlipLeg(tid, mark, flip, flipOk), CloseGateLeg(tid, gate, gateOk)]
  }

  /** The position was taken off the record and one close sent on each venue. */
  predicate ClosesOne(s: State, e: State, pid: PosId) {
    && e.open == s.open - {pid}
    && Sent(e.books, FlipClose, pid) == Sent(s.books, FlipClose, pid) + 1
    && Sent(e.books, GateClose, pid) == Sent(s.books, GateClose, pid) + 1
  }

  lemma FlipLegSends(s: State, tid: nat, mark: real, closed: real, ok: bool)
    requires tid in s.tasks && s.tasks[tid].Popped?
    ensures var t, e := s.tasks[tid], Step(s, CloseFlipLeg(tid, mark, closed, ok));
      && e.open == s.open && e.tasks == s.tasks[tid := FlipClosed(t.pid, t.base, t.side, t.position)]
      && Sent(e.books, FlipClose, t.pid) == Sent(s.books, FlipClose, t.pid) + 1
      && Sent(e.books, GateClose, t.pid) == Sent(s.books, GateClose, t.pid)
  {}

  lemma GateLegSends(s: State, tid: nat, closed: real, ok: bool)
    requires tid in s.tasks && s.tasks[tid].FlipClosed?
    ensures var t, e := s.tasks[tid], Step(s, CloseGateLeg(tid, closed, ok));
      && e.open == s.open && e.tasks == s.tasks - {tid}
      && Sent(e.books, FlipClose, t.pid) == Sent(s.books, FlipClose, t.pid)
      && Sent(e.books, GateClose, t.pid) == Sent(s.books, GateClose, t.pid) + 1
  {}

  lemma ExitingCloses(s: State, tid: nat, pid: PosId, base: Base, side: Side, mark: real, flip: real, flipOk: bool,
                      gate: real, gateOk: bool)
    requires tid in s.tasks && s.tasks[tid] == Exiting(pid, base, side) && pid in s.open
    ensures ClosesOne(s, Run(s, ClosingSteps(tid, mark, flip, flipOk, gate, gateOk)), pid)
  {
    var ls := ClosingSteps(tid, mark, flip, flipOk, gate, gateOk);
    RunThree(s, ls[0], ls[1], ls[2]);
    var s1 := Step(s, ls[0]);
    assert s1.open == s.open - {pid} && s1.books == s.books && s1.tasks[tid] == Popped(pid, base, side, s.open[pid]);
    FlipLegSends(s1, tid, mark, flip, flipOk);
    GateLegSends(Step(s1, ls[1]), tid, gate, gateOk);
  }

  /** The shutdown closes any tracked position, stranded or not, the take-profit one whose exit id is not
      taken; it takes the id, and without a free id it does nothing. */
  lemma OwnExitsClose(s: State, tid: nat, pid: PosId, base: Base, side: Side, mark: real, flip: real, flipOk: bool,
                      gate: real, gateOk: bool)
    requires tid !in s.tasks && pid in s.open
    ensures var close := ClosingSteps(tid, mark, flip, flipOk, gate, gateOk);
      && ClosesOne(s, Run(Step(s, Shutdown(tid, pid, base, side)), close), pid)
      && Step(s, Shutdown(tid, pid, base, side)).seenExit == s.seenExit
      && if pid in s.seenExit then Step(s, TakeProfit(tid, pid, base, side)) == s
         else
           && ClosesOne(s, Run(Step(s, TakeProfit(tid, pid, base, side)), close), pid)
           && Step(s, TakeProfit(tid, pid, base, side)).seenExit == s.seenExit + {pid}
  {
    var s1, s2 := Step(s, Shutdown(tid, pid, base, side)), Step(s, TakeProfit(tid, pid, base, side));
    ExitingCloses(s1, tid, pid, base, side, mark, flip, flipOk, gate, gateOk);
    if pid !in s.seenExit { ExitingCloses(s2, tid, pid, base, side, mark, flip, flipOk, gate, gateOk); }
  }

  /** Recording a position strands it exactly when its exit id is taken and no exit handler of it is
      left, whoever took the id: an early exit, the take-profit, or the pre-seeding at start-up. */
  lemma RecordStrandsIff(s: State, tid: nat)
    requires Enabled(s, Record(tid))
    ensures var pid := s.tasks[tid].pid;
      Stranded(Step(s, Record(tid)), pid) <==> pid in s.seenExit && !ExitLeft(s, pid)
  {
    var pid, s1 := s.tasks[tid].pid, Step(s, Record(tid));
    assert forall x :: IsExit(s, x, pid) <==> IsExit(s1, x, pid);
    if Stranded(s1, pid) {
      assert forall x :: !IsExit(s1, x, pid);
    } else if pid in s1.seenExit {
      var x :| x in s1.tasks && s1.tasks[x].Exiting? && s1.tasks[x].pid == pid;
      assert IsExit(s1, x, pid);
    }
  }

  ghost predicate ExitLeft(s: State, pid: PosId) {
    exists tid :: IsExit(s, tid, pid)
  }

  predicate IsExit(s: State, tid: nat, pid: PosId) {
    tid in s.tasks && s.tasks[tid].Exiting? && s.tasks[tid].pid == pid
  }

  /** One of the exit handlers that wait in `s` for `pid` pops during the run. */
  ghost predicate PopsOf(s: State, ls: seq<Label>, pid: PosId) {
    exists i :: 0 <= i < |ls| && PopsAt(s, ls[i], pid)
  }

  predicate PopsAt(s: State, l: Label, pid: PosId) { l.Pop? && IsExit(s, l.tid, pid) }

  /** Tracked, with the exit id taken. */
  predicate Consumed(s: State, pid: PosId) { pid in s.open && pid in s.seenExit }

  /** Nothing can make the id tracked again. */
  ghost predicate Over(s: State, pid: PosId) {
    && pid !in s.open && pid in s.seenEntry
    && forall tid :: tid in s.tasks && Entering(s.tasks[tid]) ==> s.tasks[tid].pid != pid
  }

  predicate Entering(t: Task) { t.Claimed? || t.FlipFilled? || t.Hedged? || t.Missed? }

  lemma {:induction false} OverStays(s: State, ls: seq<Label>, pid: PosId)
    requires Over(s, pid)
    ensures Over(Run(s, ls), pid)
    decreases |ls|
  {
    if ls != [] {
      assert Over(Step(s, ls[0]), pid);
      OverStays(Step(s, ls[0]), ls[1..], pid);
    }
  }

  lemma PopEnds(s: State, l: Label, pid: PosId)
    requires Inv(s) && Consumed(s, pid) && PopsAt(s, l, pid)
    ensures Over(Step(s, l), pid)
  {
    OpenIsLive(s, pid);
    assert PidOk(s, pid);
    forall tid | tid in s.tasks && Entering(s.tasks[tid]) ensures s.tasks[tid].pid != pid {
      assert TaskOk(s, s.tasks[tid]);
    }
  }

  /** Any other step but a shutdown leaves it so, with the same exit handlers waiting. */
  lemma OtherStepKeeps(s: State, l: Label, pid: PosId)
    requires Consumed(s, pid) && !PopsAt(s, l, pid) && (l.Shutdown? ==> l.pid != pid)
    ensures Consumed(Step(s, l), pid)
    ensures forall tid :: IsExit(Step(s, l), tid, pid) <==> IsExit(s, tid, pid)
  {}

  lemma {:induction false} ConsumedUntilPopped(s: State, ls: seq<Label>, pid: PosId)
    requires Inv(s) && Consumed(s, pid) && NoShutdownOf(ls, pid)
    ensures pid in Run(s, ls).open <==> !PopsOf(s, ls, pid)
    decreases |ls|
  {
    if ls != [] {
      var l, s1 := ls[0], Step(s, ls[0]);
      StepInv(s, l);
      if PopsAt(s, l, pid) {
        PopEnds(s, l, pid);
        OverStays(s1, ls[1..], pid);
      } else {
        OtherStepKeeps(s, l, pid);
        ConsumedUntilPopped(s1, ls[1..], pid);
        assert forall i :: 0 <= i < |ls[1..]| ==> (PopsAt(s1, ls[1..][i], pid) <==> PopsAt(s, ls[i + 1], pid));
        if PopsOf(s1, ls[1..], pid) {
          var i :| 0 <= i < |ls[1..]| && PopsAt(s1, ls[1..][i], pid);
          assert PopsAt(s, ls[i + 1], pid);
        }
        if PopsOf(s, ls, pid) {
          var i :| 0 <= i < |ls| && PopsAt(s, ls[i], pid);
          assert PopsAt(s1, ls[1..][i - 1], pid);
        }
      }
    }
  }

  /** Over whole runs: when the exit id was taken before its entry records the position, and nothing
      shuts it down, the position is closed if and only if an exit handler that is still waiting at the
      record pops after it. An exit that popped before the record, and a pre-seeded id, never close it. */
  lemma ExitClosesIffPoppedAfterRecord(s: State, before: seq<Label>, tid: nat, after: seq<Label>)
    requires Init(s) && Enabled(Run(s, before), Record(tid))
    requires var m := Run(s, before); m.tasks[tid].pid in m.seenExit && NoShutdownOf(after, m.tasks[tid].pid)
    ensures var m := Run(s, before); var pid := m.tasks[tid].pid;
      pid in Run(s, before + [Record(tid)] + after).open <==> !PopsOf(m, after, pid)
  {
    InitInv(s);
    RunInv(s, before);
    var m := Run(s, before);
    var pid, m1 := m.tasks[tid].pid, Step(m, Record(tid));
    RunAppend(s, before + [Record(tid)], after);
    RunAppend(s, before, [Record(tid)]);
    assert [Record(tid)][1..] == [];
    StepInv(m, Record(tid));
    ConsumedUntilPopped(m1, after, pid);
    assert forall x :: IsExit(m, x, pid) <==> IsExit(m1, x, pid);
    assert forall i :: 0 <= i < |after| ==> (PopsAt(m, after[i], pid) <==> PopsAt(m1, after[i], pid));
  }

  function EntryFilled(t1: nat, pid: PosId, base: Base, side: Side, flip: real): seq<Label> {
    [Submit(t1, Entry(pid, base, side)), Claim(t1, true), OrderFlip(t1, 10.0, flip, Some(flip))]
  }

  function ExitHandled(t2: nat, pid: PosId, base: Base, side: Side): seq<Label> {
    [Submit(t2, Exit(pid, base, side)), Claim(t2, true), Pop(t2)]
  }

  function HedgeRecorded(t1: nat, gate: int): seq<Label> {
    [OrderGate(t1, gate as real, Some(gate)), Record(t1)]
  }

  lemma AfterEntryFilled(s: State, t1: nat, pid: PosId, base: Base, side: Side, flip: real)
    requires Init(s) && pid !in s.seenEntry
    ensures var e := Run(s, EntryFilled(t1, pid, base, side, flip));
      e.open == map[] && e.seenExit == s.seenExit && e.tasks == map[t1 := FlipFilled(pid, base, side, 10.0, flip)]
  {
    var ls := EntryFilled(t1, pid, base, side, flip);
    RunThree(s, ls[0], ls[1], ls[2]);
  }

  lemma AfterExitHandled(s: State, t1: nat, t2: nat, pid: PosId, base: Base, side: Side, t: Task)
    requires s.open == map[] && pid !in s.seenExit && s.tasks == map[t1 := t] && t1 != t2
    ensures var e := Run(s, ExitHandled(t2, pid, base, side));
      e.open == map[] && pid in e.seenExit && e.tasks == map[t1 := t]
  {
    var ls := ExitHandled(t2, pid, base, side);
    RunThree(s, ls[0], ls[1], ls[2]);
  }

  lemma AfterHedgeRecorded(s: State, t1: nat, pid: PosId, base: Base, side: Side, flip: real, gate: int)
    requires s.open == map[] && pid in s.seenExit && s.tasks == map[t1 := FlipFilled(pid, base, side, 10.0, flip)]
    ensures Stranded(Run(s, HedgeRecorded(t1, gate)), pid)
  {
    var ls := HedgeRecorded(t1, gate);
    RunTwo(s, ls[0], ls[1]);
  }

  /** An exit handled after its entry's Flipster fill and before that entry records the position
      is consumed, and strands it. */
  lemma EarlyExitStrands(s: State, pid: PosId, base: Base, side: Side, t1: nat, t2: nat, flip: real, gate: int)
    requires Init(s) && pid !in s.seenEntry && pid !in s.seenExit && t1 != t2
    ensures Stranded(Run(s, EntryFilled(t1, pid, base, side, flip) + ExitHandled(t2, pid, base, side)
                            + HedgeRecorded(t1, gate)), pid)
  {
    var a, b, c := EntryFilled(t1, pid, base, side, flip), ExitHandled(t2, pid, base, side), HedgeRecorded(t1, gate);
    AfterEntryFilled(s, t1, pid, base, side, flip);
    AfterExitHandled(Run(s, a), t1, t2, pid, base, side, FlipFilled(pid, base, side, 10.0, flip));
    AfterHedgeRecorded(Run(Run(s, a), b), t1, pid, base, side, flip, gate);
    RunAppend(s, a + b, c);
    RunAppend(s, a, b);
  }

  /** So does an exit id that the pre-seeding, or an exit ahead of its entry, had taken from the start. */
  lemma SeededExitStrands(s: State, pid: PosId, base: Base, side: Side, t1: nat, flip: real, gate: int)
    requires Init(s) && pid !in s.seenEntry && pid in s.seenExit
    ensures Stranded(Run(s, EntryFilled(t1, pid, base, side, flip) + HedgeRecorded(t1, gate)), pid)
  {
    var a := EntryFilled(t1, pid, base, side, flip);
    AfterEntryFilled(s, t1, pid, base, side, flip);
    AfterHedgeRecorded(Run(s, a), t1, pid, base, side, flip, gate);
    RunAppend(s, a, HedgeRecorded(t1, gate));
  }

  lemma RunTwo(s: State, x: Label, y: Label)
    ensures Run(s, [x, y]) == Step(Step(s, x), y)
  {
    assert [x, y][1..] == [y];
    assert Run(Step(s, x), [y]) == Run(Step(Step(s, x), y), [y][1..]);
    assert [y][1..] == [];
  }

  lemma RunThree(s: State, x: Label, y: Label, z: Label)
    ensures Run(s, [x, y, z]) == Step(Step(Step(s, x), y), z)
  {
    assert [x, y, z][1..] == [y, z];
    RunTwo(Step(s, x), y, z);
  }

  /** Two ids on one base: a successful reduce-only close of the first removes exactly its leg if and
      only if both are on the same side and exactly the leg is asked for. On the same side any buffer
      eats into the second; on opposite sides the close always falls short. */
  lemma SharedBaseClosesIff(k: Books, p: PosId, q: PosId, requested: real)
    requires Conserved(k) && p in k.legs && q in k.legs && p != q
    requires k.legs[p].base == k.legs[q].base
    requires k.legs[p].flip > 0.0 && k.legs[q].flip > 0.0
    requires OneLive(k.legs - {p}) && Untouched(k.ledger, k.legs[p].base)
    ensures ReduceOnly(At(k.exposure, k.legs[p].base, Flipster), k.legs[p].side, Flipster, requested) == k.legs[p].flip
            <==> k.legs[p].side == k.legs[q].side && requested == k.legs[p].flip
  {
    var b := k.legs[p].base;
    SumLegsRemove(k.legs, p, b, Flipster);
    assert (k.legs - {p})[q] == k.legs[q];
    SumLegsOnly(k.legs - {p}, q, Flipster);
    SumLedgerUntouched(k.ledger, b, Flipster);
  }

  function EntryDone(tid: nat, pid: PosId, base: Base, side: Side, flip: real, gate: int): seq<Label> {
    EntryFilled(tid, pid, base, side, flip) + HedgeRecorded(tid, gate)
  }

  /** The state after one complete entry. */
  predicate AddsLeg(s: State, e: State, pid: PosId, base: Base, side: Side, flip: real, gate: int) {
    && e.tasks == map[] && e.seenEntry == s.seenEntry + {pid}
    && e.open == s.open[pid := Position(base, side, 10.0, flip, gate)]
    && e.books.legs == s.books.legs[pid := Leg(base, side, flip, gate as real)]
    && e.books.ledger == s.books.ledger
  }

  lemma HalfEntry(s: State, tid: nat, pid: PosId, base: Base, side: Side, flip: real)
    requires s.tasks == map[] && pid !in s.seenEntry
    ensures var e := Run(s, EntryFilled(tid, pid, base, side, flip));
      && e.tasks == map[tid := FlipFilled(pid, base, side, 10.0, flip)] && e.seenEntry == s.seenEntry + {pid}
      && e.open == s.open && e.books.legs == s.books.legs[pid := Leg(base, side, flip, 0.0)]
      && e.books.ledger == s.books.ledger
  {
    var ls := EntryFilled(tid, pid, base, side, flip);
    RunThree(s, ls[0], ls[1], ls[2]);
  }

  lemma EntryCompletes(s: State, tid: nat, pid: PosId, base: Base, side: Side, flip: real, gate: int)
    requires s.tasks == map[] && pid !in s.seenEntry
    ensures AddsLeg(s, Run(s, EntryDone(tid, pid, base, side, flip, gate)), pid, base, side, flip, gate)
  {
    HalfEntry(s, tid, pid, base, side, flip);
    var m, h := Run(s, EntryFilled(tid, pid, base, side, flip)), HedgeRecorded(tid, gate);
    RunAppend(s, EntryFilled(tid, pid, base, side, flip), h);
    RunTwo(m, h[0], h[1]);
    var m1 := Step(m, h[0]);
    assert m1.books.legs == s.books.legs[pid := Leg(base, side, flip, gate as real)];
    assert m1.tasks - {tid} == map[];
  }

  /** Two signals with different ids on one base do reach that state, whatever their sides and fills. */
  lemma SharedBaseIsReached(s: State, base: Base, p: PosId, q: PosId, sp: Side, sq: Side, fp: real, fq: real, gate: int)
    requires Init(s) && p != q && p !in s.seenEntry && q !in s.seenEntry && fp > 0.0 && fq > 0.0
    ensures var e := Run(s, EntryDone(0, p, base, sp, fp, gate) + EntryDone(0, q, base, sq, fq, gate));
      && Inv(e) && p in e.open && q in e.open
      && e.books.legs == map[p := Leg(base, sp, fp, gate as real), q := Leg(base, sq, fq, gate as real)]
      && OneLive(e.books.legs - {p}) && Untouched(e.books.ledger, base)
  {
    var a, b := EntryDone(0, p, base, sp, fp, gate), EntryDone(0, q, base, sq, fq, gate);
    EntryCompletes(s, 0, p, base, sp, fp, gate);
    EntryCompletes(Run(s, a), 0, q, base, sq, fq, gate);
    RunAppend(s, a, b);
    InitInv(s);
    RunInv(s, a + b);
  }
}
