/** The live executor as a state machine over its atomic steps. The dispatcher pool, the
    fallback poll, the take-profit thread and the shutdown handler are tasks that run one
    lock section, dictionary operation or exchange call at a time, in any order; what an
    exchange fills and what it reports are inputs of the step. */
module ExecutorMachine {
  import opened Common
  import opened HedgeBooks

  /** A signal, as both the ZMQ feed and the QuestDB poll deliver it. */
  datatype Event =
    | Entry(pid: PosId, base: Base, side: Side)
    | Exit(pid: PosId, base: Base, side: Side)

  /** The record kept for an open position (sizes as the venues reported them). */
  datatype Position = Position(base: Base, side: Side, sizeUsd: real, flipSize: real, gateSize: int)

  datatype Task =
    | Submitted(event: Event)
    | Claimed(pid: PosId, base: Base, side: Side)
    | FlipFilled(pid: PosId, base: Base, side: Side, sizeUsd: real, flipSize: real)
    | Hedged(pid: PosId, position: Position)
    | Missed(pid: PosId, base: Base, side: Side, sizeUsd: real)
    | Exiting(pid: PosId, base: Base, side: Side)
    | Popped(pid: PosId, base: Base, side: Side, position: Position)
    | FlipClosed(pid: PosId, base: Base, side: Side, position: Position)

  datatype State = State(
    seenEntry: set<PosId>,
    seenExit: set<PosId>,
    open: map<PosId, Position>,
    tasks: map<nat, Task>,
    books: Books)

  datatype Label =
    | Submit(tid: nat, event: Event)
    | PollSubmit(tid: nat, event: Event)
    | Claim(tid: nat, admitted: bool)
    | Decline(tid: nat)
    | OrderFlip(tid: nat, sizeUsd: real, filled: real, report: Option<real>)
    | OrderGate(tid: nat, filled: real, contracts: Option<int>)
    | RevertFlip(tid: nat, mark: real, closed: real, ok: bool)
    | Record(tid: nat)
    | TakeProfit(tid: nat, pid: PosId, base: Base, side: Side)
    | Shutdown(tid: nat, pid: PosId, base: Base, side: Side)
    | Pop(tid: nat)
    | CloseFlipLeg(tid: nat, mark: real, closed: real, ok: bool)
    | CloseGateLeg(tid: nat, closed: real, ok: bool)

  predicate Seen(s: State, e: Event) {
    if e.Entry? then e.pid in s.seenEntry else e.pid in s.seenExit
  }

  predicate Enabled(s: State, l: Label) {
    match l
    case Submit(tid, _) => tid !in s.tasks
    case PollSubmit(tid, e) => tid !in s.tasks && !Seen(s, e)
    case Claim(tid, _) => tid in s.tasks && s.tasks[tid].Submitted?
    case Decline(tid) => tid in s.tasks && s.tasks[tid].Claimed?
    case OrderFlip(tid, _, _, _) => tid in s.tasks && s.tasks[tid].Claimed?
    case OrderGate(tid, _, _) => tid in s.tasks && s.tasks[tid].FlipFilled?
    case RevertFlip(tid, _, _, _) => tid in s.tasks && s.tasks[tid].Missed?
    case Record(tid) => tid in s.tasks && s.tasks[tid].Hedged?
    case TakeProfit(tid, pid, _, _) => tid !in s.tasks && pid !in s.seenExit
    case Shutdown(tid, _, _, _) => tid !in s.tasks
    case Pop(tid) => tid in s.tasks && s.tasks[tid].Exiting?
    case CloseFlipLeg(tid, _, _, _) => tid in s.tasks && s.tasks[tid].Popped?
    case CloseGateLeg(tid, _, _) => tid in s.tasks && s.tasks[tid].FlipClosed?
  }

  function Goto(s: State, tid: nat, t: Task): State { s.(tasks := s.tasks[tid := t]) }

  function Finish(s: State, tid: nat): State { s.(tasks := s.tasks - {tid}) }

  /** The seen-id check and the symbol filter that open a dispatch. */
  function ClaimEffect(s: State, tid: nat, e: Event, admitted: bool): State {
    if Seen(s, e) then Finish(s, tid)
    else if e.Exit? then Goto(s.(seenExit := s.seenExit + {e.pid}), tid, Exiting(e.pid, e.base, e.side))
    else
      var s1 := s.(seenEntry := s.seenEntry + {e.pid});
      if admitted then Goto(s1, tid, Claimed(e.pid, e.base, e.side)) else Finish(s1, tid)
  }

  function Effect(s: State, l: Label): State
    requires Enabled(s, l)
  {
    match l
    case Submit(tid, e) => Goto(s, tid, Submitted(e))
    case PollSubmit(tid, e) => Goto(s, tid, Submitted(e))
    case Claim(tid, admitted) => ClaimEffect(s, tid, s.tasks[tid].event, admitted)
    case Decline(tid) => Finish(s, tid)
    case OrderFlip(tid, sizeUsd, filled, report) =>
      var t := s.tasks[tid];
      var s1 := s.(books := FlipOrder(s.books, t.pid, t.base, t.side, filled, report.Some?));
      if report.Some? then Goto(s1, tid, FlipFilled(t.pid, t.base, t.side, sizeUsd, report.value))
      else Finish(s1, tid)
    case OrderGate(tid, filled, contracts) =>
      var t := s.tasks[tid];
      var s1 := s.(books := GateOrder(s.books, t.pid, t.base, t.side, filled, contracts.Some?));
      if contracts.Some? then
        Goto(s1, tid, Hedged(t.pid, Position(t.base, t.side, t.sizeUsd, t.flipSize, contracts.value)))
      else Goto(s1, tid, Missed(t.pid, t.base, t.side, t.sizeUsd))
    case RevertFlip(tid, _, closed, ok) =>
      var t := s.tasks[tid];
      Finish(s.(books := Revert(s.books, t.pid, t.base, t.side, closed, ok)), tid)
    case Record(tid) =>
      var t := s.tasks[tid];
      Finish(s.(open := s.open[t.pid := t.position]), tid)
    case TakeProfit(tid, pid, base, side) =>
      Goto(s.(seenExit := s.seenExit + {pid}), tid, Exiting(pid, base, side))
    case Shutdown(tid, pid, base, side) => Goto(s, tid, Exiting(pid, base, side))
    case Pop(tid) =>
      var t := s.tasks[tid];
      if t.pid in s.open then
        Goto(s.(open := s.open - {t.pid}), tid, Popped(t.pid, t.base, t.side, s.open[t.pid]))
      else Finish(s, tid)
    case CloseFlipLeg(tid, _, closed, ok) =>
      var t := s.tasks[tid];
      Goto(s.(books := CloseFlip(s.books, t.pid, t.base, t.side, closed, ok)), tid,
           FlipClosed(t.pid, t.base, t.side, t.position))
    case CloseGateLeg(tid, closed, ok) =>
      var t := s.tasks[tid];
      Finish(s.(books := CloseGate(s.books, t.pid, t.base, t.side, closed, ok)), tid)
  }

  function Step(s: State, l: Label): State {
    if Enabled(s, l) then Effect(s, l) else s
  }

  /** Every interleaving is some label sequence. */
  function Run(s: State, ls: seq<Label>): State
    decreases |ls|
  {
    if ls == [] then s else Run(Step(s, ls[0]), ls[1..])
  }

  /** Start-up: the seen ids are pre-seeded from recent signals, nothing else exists yet. */
  predicate Init(s: State) {
    s.open == map[] && s.tasks == map[] && s.books == EMPTY
  }

  // ----- Who is responsible for a position id -----

  /** The task is the only one allowed to trade for its position id. */
  predicate Owns(t: Task) {
    t.Claimed? || t.FlipFilled? || t.Hedged? || t.Missed? || t.Popped? || t.FlipClosed?
  }

  function Sent(k: Books, kind: OrderKind, pid: PosId): nat { k.orders[(kind, pid)] }

  predicate Orders(k: Books, pid: PosId, flip: nat, gate: nat, revert: nat, closeFlip: nat, closeGate: nat) {
    && Sent(k, FlipEntry, pid) == flip
    && Sent(k, GateEntry, pid) == gate
    && Sent(k, FlipRevert, pid) == revert
    && Sent(k, FlipClose, pid) == closeFlip
    && Sent(k, GateClose, pid) == closeGate
  }

  predicate AtMostOnce(k: Books, pid: PosId) {
    && Sent(k, FlipEntry, pid) <= 1
    && Sent(k, GateEntry, pid) <= 1
    && Sent(k, FlipRevert, pid) <= 1
    && Sent(k, FlipClose, pid) <= 1
    && Sent(k, GateClose, pid) <= 1
  }

  predicate HasLeg(k: Books, pid: PosId, base: Base, side: Side) {
    pid in k.legs && k.legs[pid].base == base && k.legs[pid].side == side
  }

  predicate Reports(k: Books, pid: PosId, flip: bool, gate: bool, missed: bool) {
    && (flip <==> pid in k.flipReported)
    && (gate <==> pid in k.gateReported)
    && (missed <==> pid in k.gateMissed)
  }

  /** What a task that owns a position id may assume about it. */
  predicate TaskOk(s: State, t: Task) {
    var k := s.books;
    Owns(t) ==>
      && t.pid in s.seenEntry
      && t.pid !in s.open
      && match t
         case Claimed(p, _, _) => Untraded(s, p)
         case FlipFilled(p, b, d, _, _) =>
           HasLeg(k, p, b, d) && k.legs[p].gate == 0.0
           && Orders(k, p, 1, 0, 0, 0, 0) && Reports(k, p, true, false, false)
         case Hedged(p, q) =>
           HasLeg(k, p, q.base, q.side) && Orders(k, p, 1, 1, 0, 0, 0) && Reports(k, p, true, true, false)
         case Missed(p, b, d, _) =>
           HasLeg(k, p, b, d) && k.legs[p].gate == 0.0
           && Orders(k, p, 1, 1, 0, 0, 0) && Reports(k, p, true, false, true)
         case Popped(p, _, _, q) =>
           HasLeg(k, p, q.base, q.side) && Orders(k, p, 1, 1, 0, 0, 0) && Reports(k, p, true, true, false)
         case FlipClosed(p, _, _, q) =>
           HasLeg(k, p, q.base, q.side) && k.legs[p].flip == 0.0 && Orders(k, p, 1, 1, 0, 1, 0)
           && Reports(k, p, true, true, false)
         case _ => true
  }

  // The five ways a position id can stand when no task is working on it.

  predicate Untraded(s: State, pid: PosId) {
    Orders(s.books, pid, 0, 0, 0, 0, 0) && Reports(s.books, pid, false, false, false)
    && pid !in s.books.legs && pid !in s.open
  }

  predicate Aborted(s: State, pid: PosId) {
    Orders(s.books, pid, 1, 0, 0, 0, 0) && Reports(s.books, pid, false, false, false)
    && pid !in s.books.legs && pid !in s.open
  }

  predicate Reverted(s: State, pid: PosId) {
    Orders(s.books, pid, 1, 1, 1, 0, 0) && Reports(s.books, pid, true, false, true)
    && pid !in s.books.legs && pid !in s.open
  }

  predicate Live(s: State, pid: PosId) {
    Orders(s.books, pid, 1, 1, 0, 0, 0) && Reports(s.books, pid, true, true, false)
    && pid in s.open && HasLeg(s.books, pid, s.open[pid].base, s.open[pid].side)
  }

  predicate Closed(s: State, pid: PosId) {
    Orders(s.books, pid, 1, 1, 0, 1, 1) && Reports(s.books, pid, true, true, false)
    && pid !in s.books.legs && pid !in s.open
  }

  predicate Settled(s: State, pid: PosId) {
    Untraded(s, pid) || Aborted(s, pid) || Reverted(s, pid) || Live(s, pid) || Closed(s, pid)
  }

  predicate OwnedBy(s: State, tid: nat, pid: PosId) {
    tid in s.tasks && Owns(s.tasks[tid]) && s.tasks[tid].pid == pid
  }

  ghost predicate Busy(s: State, pid: PosId) {
    exists tid :: OwnedBy(s, tid, pid)
  }

  ghost predicate PidOk(s: State, pid: PosId) {
    && (pid !in s.seenEntry ==> Untraded(s, pid))
    && (Settled(s, pid) || Busy(s, pid))
  }

  ghost predicate Inv(s: State) {
    && (forall tid :: tid in s.tasks ==> TaskOk(s, s.tasks[tid]))
    && (forall t1, t2, pid :: OwnedBy(s, t1, pid) && OwnedBy(s, t2, pid) ==> t1 == t2)
    && (forall pid :: PidOk(s, pid))
    && Conserved(s.books)
  }

  lemma InitInv(s: State)
    requires Init(s)
    ensures Inv(s)
  {
    forall b, v ensures At(s.books.exposure, b, v) == SumLegs(s.books.legs, b, v) + SumLedger(s.books.ledger, b, v) {
      SumLegsAbsent(s.books.legs, b, v);
    }
  }

  lemma StepConserves(s: State, l: Label)
    requires Inv(s) && Enabled(s, l)
    ensures Conserved(Effect(s, l).books)
  {
    match l
    case OrderFlip(tid, sizeUsd, filled, report) =>
      var t := s.tasks[tid];
      FlipOrderConserves(s.books, t.pid, t.base, t.side, filled, report.Some?);
    case OrderGate(tid, filled, contracts) =>
      var t := s.tasks[tid];
      GateOrderConserves(s.books, t.pid, t.base, t.side, filled, contracts.Some?);
    case RevertFlip(tid, _, closed, ok) =>
      var t := s.tasks[tid];
      RevertConserves(s.books, t.pid, t.base, t.side, closed, ok);
    case CloseFlipLeg(tid, _, closed, ok) =>
      var t := s.tasks[tid];
      CloseFlipConserves(s.books, t.pid, t.base, t.side, closed, ok);
    case CloseGateLeg(tid, closed, ok) =>
      var t := s.tasks[tid];
      CloseGateConserves(s.books, t.pid, t.base, t.side, closed, ok);
    case _ =>
  }

  /** A step changes no task but its own. */
  lemma TaskStays(s: State, l: Label, tid: nat)
    requires Enabled(s, l) && tid != l.tid
    ensures tid in Effect(s, l).tasks <==> tid in s.tasks
    ensures tid in s.tasks ==> Effect(s, l).tasks[tid] == s.tasks[tid]
  {}

  /** A task that takes an id over finds no other task working on it. */
  lemma TakesOver(s: State, l: Label, pid: PosId, other: nat)
    requires Inv(s) && Enabled(s, l) && (l.Claim? || l.Pop?) && other != l.tid
    requires OwnedBy(Effect(s, l), l.tid, pid)
    ensures !OwnedBy(s, other, pid)
  {
    OwnerKnown(s, other, pid);
  }

  lemma OwnerKnown(s: State, tid: nat, pid: PosId)
    requires Inv(s)
    ensures OwnedBy(s, tid, pid) ==> pid in s.seenEntry && pid !in s.open
  {
    assert tid in s.tasks ==> TaskOk(s, s.tasks[tid]);
  }

  lemma KeepsOwn(s: State, l: Label, pid: PosId)
    requires Enabled(s, l) && !l.Claim? && !l.Pop? && OwnedBy(Effect(s, l), l.tid, pid)
    ensures OwnedBy(s, l.tid, pid)
  {}

  lemma StepOwners(s: State, l: Label)
    requires Inv(s) && Enabled(s, l)
    ensures forall t1, t2, pid :: OwnedBy(Effect(s, l), t1, pid) && OwnedBy(Effect(s, l), t2, pid) ==> t1 == t2
  {
    forall t1, t2, pid | OwnedBy(Effect(s, l), t1, pid) && OwnedBy(Effect(s, l), t2, pid) ensures t1 == t2 {
      OneOwner(s, l, t1, t2, pid);
    }
  }

  lemma OneOwner(s: State, l: Label, t1: nat, t2: nat, pid: PosId)
    requires Inv(s) && Enabled(s, l) && OwnedBy(Effect(s, l), t1, pid) && OwnedBy(Effect(s, l), t2, pid)
    ensures t1 == t2
  {
    if t1 != l.tid { TaskStays(s, l, t1); }
    if t2 != l.tid { TaskStays(s, l, t2); }
    if t1 == l.tid {
      if t2 != l.tid { OwnsAlone(s, l, pid, t2); }
    } else if t2 == l.tid {
      OwnsAlone(s, l, pid, t1);
    } else {
      assert OwnedBy(s, t1, pid) && OwnedBy(s, t2, pid);
    }
  }

  lemma OwnsAlone(s: State, l: Label, pid: PosId, other: nat)
    requires Inv(s) && Enabled(s, l) && OwnedBy(Effect(s, l), l.tid, pid) && other != l.tid
    ensures !OwnedBy(s, other, pid)
  {
    if l.Claim? || l.Pop? {
      TakesOver(s, l, pid, other);
    } else {
      KeepsOwn(s, l, pid);
    }
  }

  /** Nothing about `pid` differs between the two books. */
  predicate SameBooks(k: Books, k': Books, pid: PosId) {
    && (pid in k.legs <==> pid in k'.legs)
    && (pid in k.legs ==> k.legs[pid] == k'.legs[pid])
    && (pid in k.flipReported <==> pid in k'.flipReported)
    && (pid in k.gateReported <==> pid in k'.gateReported)
    && (pid in k.gateMissed <==> pid in k'.gateMissed)
    && (forall kind :: Sent(k', kind, pid) == Sent(k, kind, pid))
  }

  /** Nothing about `pid` differs between the two states. */
  predicate SamePid(s: State, s': State, pid: PosId) {
    && (pid in s.seenEntry <==> pid in s'.seenEntry)
    && (pid in s.open <==> pid in s'.open)
    && (pid in s.open ==> s.open[pid] == s'.open[pid])
    && SameBooks(s.books, s'.books, pid)
  }

  function PidOf(t: Task): PosId { if t.Submitted? then t.event.pid else t.pid }

  lemma OrderLocal(k: Books, kind: OrderKind, pid: PosId, other: PosId)
    requires pid != other
    ensures forall kd :: (k.orders + multiset{(kind, pid)})[(kd, other)] == k.orders[(kd, other)]
  {}

  /** A step only concerns the position id of its own task. */
  lemma StepLocal(s: State, l: Label, pid: PosId)
    requires Enabled(s, l)
    requires l.tid in s.tasks ==> PidOf(s.tasks[l.tid]) != pid
    ensures SamePid(s, Effect(s, l), pid)
  {
    match l
    case OrderFlip(tid, _, _, _) => OrderLocal(s.books, FlipEntry, s.tasks[tid].pid, pid);
    case OrderGate(tid, _, _) => OrderLocal(s.books, GateEntry, s.tasks[tid].pid, pid);
    case RevertFlip(tid, _, _, _) => OrderLocal(s.books, FlipRevert, s.tasks[tid].pid, pid);
    case CloseFlipLeg(tid, _, _, _) => OrderLocal(s.books, FlipClose, s.tasks[tid].pid, pid);
    case CloseGateLeg(tid, _, _) => OrderLocal(s.books, GateClose, s.tasks[tid].pid, pid);
    case _ =>
  }

  lemma TaskOkSame(s: State, s': State, t: Task)
    requires Owns(t) ==> SamePid(s, s', t.pid)
    requires TaskOk(s, t)
    ensures TaskOk(s', t)
  {}

  /** A task that owns nothing never disturbs an owned id: duplicates and early exits are dropped. */
  lemma StepBystander(s: State, l: Label, pid: PosId)
    requires Enabled(s, l) && l.tid in s.tasks && !Owns(s.tasks[l.tid])
    requires pid in s.seenEntry && pid !in s.open
    ensures SamePid(s, Effect(s, l), pid)
  {}

  /** Another task's step changes nothing about the id a task owns. */
  lemma OwnedSame(s: State, l: Label, tid: nat)
    requires Inv(s) && Enabled(s, l) && tid in s.tasks && l.tid != tid && Owns(s.tasks[tid])
    ensures SamePid(s, Effect(s, l), s.tasks[tid].pid)
  {
    var t := s.tasks[tid];
    assert TaskOk(s, t) && OwnedBy(s, tid, t.pid);
    if l.tid in s.tasks && PidOf(s.tasks[l.tid]) == t.pid {
      assert !OwnedBy(s, l.tid, t.pid);
      StepBystander(s, l, t.pid);
    } else {
      StepLocal(s, l, t.pid);
    }
  }

  lemma StepTasks(s: State, l: Label, tid: nat)
    requires Inv(s) && Enabled(s, l) && tid in Effect(s, l).tasks && l.tid != tid
    ensures TaskOk(Effect(s, l), Effect(s, l).tasks[tid])
  {
    TaskStays(s, l, tid);
    var t := s.tasks[tid];
    assert TaskOk(s, t);
    if Owns(t) { OwnedSame(s, l, tid); }
    TaskOkSame(s, Effect(s, l), t);
  }

  lemma StepOrderTask(s: State, l: Label)
    requires Enabled(s, l) && (l.OrderFlip? || l.OrderGate? || l.CloseFlipLeg?) && l.tid in Effect(s, l).tasks
    requires TaskOk(s, s.tasks[l.tid])
    ensures TaskOk(Effect(s, l), Effect(s, l).tasks[l.tid])
  {
    match l
    case OrderFlip(_, _, _, report) =>
    case OrderGate(_, _, contracts) =>
    case CloseFlipLeg(_, _, _, _) =>
  }

  lemma StepOwnTask(s: State, l: Label)
    requires Enabled(s, l) && l.tid in Effect(s, l).tasks
    requires l.tid in s.tasks ==>
      TaskOk(s, s.tasks[l.tid]) &&
      var pid := PidOf(s.tasks[l.tid]);
      PidOk(s, pid) && (pid in s.open ==> Live(s, pid))
    ensures TaskOk(Effect(s, l), Effect(s, l).tasks[l.tid])
  {
    if l.OrderFlip? || l.OrderGate? || l.CloseFlipLeg? { StepOrderTask(s, l); }
  }

  lemma StepOwnPid(s: State, l: Label)
    requires Enabled(s, l) && l.tid in s.tasks
    requires TaskOk(s, s.tasks[l.tid]) && PidOk(s, PidOf(s.tasks[l.tid]))
    requires Owns(s.tasks[l.tid])
    ensures PidOk(Effect(s, l), PidOf(s.tasks[l.tid]))
  {
    var pid := PidOf(s.tasks[l.tid]);
    var s' := Effect(s, l);
    match l
    case OrderFlip(_, _, _, report) =>
      if report.Some? { assert OwnedBy(s', l.tid, pid); } else { assert Aborted(s', pid); }
    case OrderGate(_, _, _) => assert OwnedBy(s', l.tid, pid);
    case RevertFlip(_, _, _, _) => assert Reverted(s', pid);
    case CloseFlipLeg(_, _, _, _) => assert OwnedBy(s', l.tid, pid);
    case CloseGateLeg(_, _, _) => assert Closed(s', pid);
    case Record(_) => assert Live(s', pid);
    case _ =>
  }

  /** A pid that keeps its standing, or that the step's own task picks up or is busy with. */
  lemma StepPids(s: State, l: Label, pid: PosId)
    requires Inv(s) && Enabled(s, l)
    ensures PidOk(Effect(s, l), pid)
  {
    assert PidOk(s, pid);
    var s' := Effect(s, l);
    if l.tid in s.tasks && PidOf(s.tasks[l.tid]) == pid {
      assert TaskOk(s, s.tasks[l.tid]);
      if Owns(s.tasks[l.tid]) {
        StepOwnPid(s, l);
      } else if l.tid in s'.tasks && Owns(s'.tasks[l.tid]) {
        assert OwnedBy(s', l.tid, pid);
      } else {
        StepIdle(s, l, pid);
      }
    } else {
      StepOtherPid(s, l, pid);
    }
  }

  lemma StepOtherPid(s: State, l: Label, pid: PosId)
    requires Enabled(s, l) && PidOk(s, pid)
    requires l.tid in s.tasks ==> PidOf(s.tasks[l.tid]) != pid
    ensures PidOk(Effect(s, l), pid)
  {
    StepLocal(s, l, pid);
    StepKeepsOwner(s, l, pid);
    PidOkSame(s, Effect(s, l), pid);
  }

  lemma StepKeepsOwner(s: State, l: Label, pid: PosId)
    requires Enabled(s, l)
    requires l.tid in s.tasks ==> PidOf(s.tasks[l.tid]) != pid
    ensures forall tid :: OwnedBy(s, tid, pid) ==> OwnedBy(Effect(s, l), tid, pid)
  {}

  lemma PidOkSame(s: State, s': State, pid: PosId)
    requires PidOk(s, pid) && SamePid(s, s', pid)
    requires forall tid :: OwnedBy(s, tid, pid) ==> OwnedBy(s', tid, pid)
    ensures PidOk(s', pid)
  {
    if tid :| OwnedBy(s, tid, pid) { assert OwnedBy(s', tid, pid); }
  }

  lemma OpenIsLive(s: State, pid: PosId)
    requires Inv(s)
    ensures PidOk(s, pid) && (pid in s.open ==> Live(s, pid))
  {
    if tid :| OwnedBy(s, tid, pid) { assert TaskOk(s, s.tasks[tid]); }
  }

  /** A signal that is dropped or filtered out leaves the standing of its id alone. */
  lemma StepIdle(s: State, l: Label, pid: PosId)
    requires Enabled(s, l) && l.tid in s.tasks && !Owns(s.tasks[l.tid]) && PidOf(s.tasks[l.tid]) == pid
    requires l.tid in Effect(s, l).tasks ==> !Owns(Effect(s, l).tasks[l.tid])
    requires PidOk(s, pid)
    ensures PidOk(Effect(s, l), pid)
  {
    if tid :| OwnedBy(s, tid, pid) { assert OwnedBy(Effect(s, l), tid, pid); }
  }

  lemma StepInv(s: State, l: Label)
    requires Inv(s)
    ensures Inv(Step(s, l))
  {
    if Enabled(s, l) {
      StepConserves(s, l);
      StepOwners(s, l);
      forall tid | tid in Effect(s, l).tasks ensures TaskOk(Effect(s, l), Effect(s, l).tasks[tid]) {
        if tid == l.tid {
          if tid in s.tasks { OpenIsLive(s, PidOf(s.tasks[tid])); }
          StepOwnTask(s, l);
        } else { StepTasks(s, l, tid); }
      }
      forall pid ensures PidOk(Effect(s, l), pid) { StepPids(s, l, pid); }
    }
  }
}
