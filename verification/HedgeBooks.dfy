/** The exchange side of the two-leg executor: what the two venues really hold,
    which position every filled quantity belongs to, and a ledger of the
    quantities that no tracked position explains. */
module HedgeBooks {
  import opened Common

  type PosId = int
  type Base = string

  datatype Side = Long | Short
  datatype Venue = Flipster | Gate

  /** The signed exposure of a filled quantity of a position whose Flipster side is
      `side`: the Gate hedge is always the opposite of the Flipster leg. */
  function Signed(side: Side, venue: Venue, quantity: real): real {
    if (side == Long) == (venue == Flipster) then quantity else -quantity
  }

  /** What was really filled for one position id, in units of each venue. */
  datatype Leg = Leg(base: Base, side: Side, flip: real, gate: real)

  /** Where a quantity ended up that no tracked position explains. The three
      `Failed` kinds are the ones the program reports on its console. */
  datatype Kind =
    | EntryUnseen | GateUnseen
    | RevertFailed | RevertResidue
    | FlipCloseFailed | FlipCloseResidue
    | GateCloseFailed | GateCloseResidue

  predicate Flagged(k: Kind) {
    k.RevertFailed? || k.FlipCloseFailed? || k.GateCloseFailed?
  }

  datatype Residue = Residue(base: Base, venue: Venue, amount: real, kind: Kind)

  datatype OrderKind = FlipEntry | GateEntry | FlipRevert | FlipClose | GateClose

  datatype Books = Books(
    exposure: map<(Base, Venue), real>,
    legs: map<PosId, Leg>,
    ledger: seq<Residue>,
    orders: multiset<(OrderKind, PosId)>,
    flipReported: set<PosId>,
    gateReported: set<PosId>,
    gateMissed: set<PosId>)

  const EMPTY := Books(map[], map[], [], multiset{}, {}, {}, {})

  function At(exposure: map<(Base, Venue), real>, b: Base, v: Venue): real {
    if (b, v) in exposure then exposure[(b, v)] else 0.0
  }

  function Move(exposure: map<(Base, Venue), real>, b: Base, v: Venue, amount: real): map<(Base, Venue), real> {
    exposure[(b, v) := At(exposure, b, v) + amount]
  }

  function Ledger(ledger: seq<Residue>, e: Residue): seq<Residue> {
    if e.amount == 0.0 then ledger else ledger + [e]
  }

  /** The leg amount `held` on `legBase` is given up while `closed` leaves `closeBase`. */
  function Settle(ledger: seq<Residue>, v: Venue, legBase: Base, held: real,
                  closeBase: Base, closed: real, kind: Kind): seq<Residue> {
    if legBase == closeBase then
      Ledger(ledger, Residue(legBase, v, held - closed, kind))
    else
      Ledger(Ledger(ledger, Residue(legBase, v, held, kind)), Residue(closeBase, v, -closed, kind))
  }

  /** The leg of `pid`, or an empty one. */
  function LegOf(k: Books, pid: PosId, base: Base, side: Side): Leg {
    if pid in k.legs then k.legs[pid] else Leg(base, side, 0.0, 0.0)
  }

  // ----- The exchange calls, each with what was really filled and what was reported -----

  function FlipOrder(k: Books, pid: PosId, base: Base, side: Side, filled: real, reported: bool): Books {
    var amount := Signed(side, Flipster, filled);
    var k1 := k.(orders := k.orders + multiset{(FlipEntry, pid)}, exposure := Move(k.exposure, base, Flipster, amount));
    if reported then
      k1.(legs := k.legs[pid := Leg(base, side, filled, 0.0)], flipReported := k.flipReported + {pid})
    else
      k1.(ledger := Ledger(k.ledger, Residue(base, Flipster, amount, EntryUnseen)))
  }

  function GateOrder(k: Books, pid: PosId, base: Base, side: Side, filled: real, reported: bool): Books {
    var amount := Signed(side, Gate, filled);
    var k1 := k.(orders := k.orders + multiset{(GateEntry, pid)}, exposure := Move(k.exposure, base, Gate, amount));
    if reported then
      k1.(legs := k.legs[pid := LegOf(k, pid, base, side).(gate := filled)], gateReported := k.gateReported + {pid})
    else
      k1.(ledger := Ledger(k.ledger, Residue(base, Gate, amount, GateUnseen)), gateMissed := k.gateMissed + {pid})
  }

  /** The compensating order after a Gate miss: reduce-only on Flipster. */
  function Revert(k: Books, pid: PosId, base: Base, side: Side, closed: real, ok: bool): Books {
    var leg := LegOf(k, pid, base, side);
    var amount := Signed(side, Flipster, closed);
    k.(orders := k.orders + multiset{(FlipRevert, pid)},
    exposure := Move(k.exposure, base, Flipster, -amount),
    legs := k.legs - {pid},
    ledger := Settle(k.ledger, Flipster, leg.base, Signed(leg.side, Flipster, leg.flip),
                     base, amount, if ok then RevertResidue else RevertFailed))
  }

  function CloseFlip(k: Books, pid: PosId, base: Base, side: Side, closed: real, ok: bool): Books {
    var leg := LegOf(k, pid, base, side);
    var amount := Signed(side, Flipster, closed);
    k.(orders := k.orders + multiset{(FlipClose, pid)},
    exposure := Move(k.exposure, base, Flipster, -amount),
    legs := k.legs[pid := leg.(flip := 0.0)],
    ledger := Settle(k.ledger, Flipster, leg.base, Signed(leg.side, Flipster, leg.flip),
                     base, amount, if ok then FlipCloseResidue else FlipCloseFailed))
  }

  function CloseGate(k: Books, pid: PosId, base: Base, side: Side, closed: real, ok: bool): Books {
    var leg := LegOf(k, pid, base, side);
    var amount := Signed(side, Gate, closed);
    k.(orders := k.orders + multiset{(GateClose, pid)},
    exposure := Move(k.exposure, base, Gate, -amount),
    legs := k.legs - {pid},
    ledger := Settle(k.ledger, Gate, leg.base, Signed(leg.side, Gate, leg.gate),
                     base, amount, if ok then GateCloseResidue else GateCloseFailed))
  }

  // ----- Conservation -----

  function Share(leg: Leg, b: Base, v: Venue): real {
    if leg.base != b then 0.0
    else Signed(leg.side, v, if v == Flipster then leg.flip else leg.gate)
  }

  ghost function SumLegs(legs: map<PosId, Leg>, b: Base, v: Venue): real {
    if exists p :: p in legs then
      var p :| p in legs;
      Share(legs[p], b, v) + SumLegs(legs - {p}, b, v)
    else 0.0
  }

  function SumLedger(ledger: seq<Residue>, b: Base, v: Venue): real {
    if ledger == [] then 0.0
    else
      var e := ledger[|ledger| - 1];
      SumLedger(ledger[..|ledger| - 1], b, v) + if e.base == b && e.venue == v then e.amount else 0.0
  }

  /** Both venues hold exactly what the tracked and in-flight positions and the ledger explain. */
  ghost predicate Conserved(k: Books) {
    forall b, v :: At(k.exposure, b, v) == SumLegs(k.legs, b, v) + SumLedger(k.ledger, b, v)
  }

  lemma {:induction false} SumLegsRemove(legs: map<PosId, Leg>, pid: PosId, b: Base, v: Venue)
    requires pid in legs
    ensures SumLegs(legs, b, v) == Share(legs[pid], b, v) + SumLegs(legs - {pid}, b, v)
    decreases |legs|
  {
    var p :| p in legs && SumLegs(legs, b, v) == Share(legs[p], b, v) + SumLegs(legs - {p}, b, v);
    if p != pid {
      SumLegsRemove(legs - {p}, pid, b, v);
      SumLegsRemove(legs - {pid}, p, b, v);
      assert legs - {p} - {pid} == legs - {pid} - {p};
    }
  }

  lemma SumLegsPut(legs: map<PosId, Leg>, pid: PosId, leg: Leg, b: Base, v: Venue)
    ensures SumLegs(legs[pid := leg], b, v) ==
            SumLegs(legs - {pid}, b, v) + Share(leg, b, v)
    ensures pid !in legs ==> SumLegs(legs[pid := leg], b, v) == SumLegs(legs, b, v) + Share(leg, b, v)
  {
    var next := legs[pid := leg];
    SumLegsRemove(next, pid, b, v);
    assert next - {pid} == legs - {pid};
    if pid !in legs { assert legs - {pid} == legs; }
  }

  lemma SumLedgerAppend(ledger: seq<Residue>, e: Residue, b: Base, v: Venue)
    ensures SumLedger(Ledger(ledger, e), b, v) ==
            SumLedger(ledger, b, v) + if e.base == b && e.venue == v then e.amount else 0.0
  {
    if e.amount != 0.0 { assert (ledger + [e])[..|ledger|] == ledger; }
  }

  lemma SumLedgerSettle(ledger: seq<Residue>, v0: Venue, legBase: Base, held: real, closeBase: Base,
                        closed: real, kind: Kind, b: Base, v: Venue)
    ensures SumLedger(Settle(ledger, v0, legBase, held, closeBase, closed, kind), b, v) ==
            SumLedger(ledger, b, v)
            + (if v == v0 && b == legBase then held else 0.0)
            - (if v == v0 && b == closeBase then closed else 0.0)
  {
    if legBase == closeBase {
      SumLedgerAppend(ledger, Residue(legBase, v0, held - closed, kind), b, v);
    } else {
      SumLedgerAppend(ledger, Residue(legBase, v0, held, kind), b, v);
      SumLedgerAppend(Ledger(ledger, Residue(legBase, v0, held, kind)), Residue(closeBase, v0, -closed, kind), b, v);
    }
  }

  lemma FlipOrderConserves(k: Books, pid: PosId, base: Base, side: Side, filled: real, reported: bool)
    requires Conserved(k) && pid !in k.legs
    ensures Conserved(FlipOrder(k, pid, base, side, filled, reported))
  {
    var k' := FlipOrder(k, pid, base, side, filled, reported);
    forall b, v ensures At(k'.exposure, b, v) == SumLegs(k'.legs, b, v) + SumLedger(k'.ledger, b, v) {
      assert At(k.exposure, b, v) == SumLegs(k.legs, b, v) + SumLedger(k.ledger, b, v);
      SumLegsPut(k.legs, pid, Leg(base, side, filled, 0.0), b, v);
      SumLedgerAppend(k.ledger, Residue(base, Flipster, Signed(side, Flipster, filled), EntryUnseen), b, v);
    }
  }

  lemma GateOrderConserves(k: Books, pid: PosId, base: Base, side: Side, filled: real, reported: bool)
    requires Conserved(k) && pid in k.legs
    requires k.legs[pid].base == base && k.legs[pid].side == side && k.legs[pid].gate == 0.0
    ensures Conserved(GateOrder(k, pid, base, side, filled, reported))
  {
    var k' := GateOrder(k, pid, base, side, filled, reported);
    forall b, v ensures At(k'.exposure, b, v) == SumLegs(k'.legs, b, v) + SumLedger(k'.ledger, b, v) {
      assert At(k.exposure, b, v) == SumLegs(k.legs, b, v) + SumLedger(k.ledger, b, v);
      SumLegsRemove(k.legs, pid, b, v);
      SumLegsPut(k.legs, pid, k.legs[pid].(gate := filled), b, v);
      SumLedgerAppend(k.ledger, Residue(base, Gate, Signed(side, Gate, filled), GateUnseen), b, v);
    }
  }

  lemma RevertConserves(k: Books, pid: PosId, base: Base, side: Side, closed: real, ok: bool)
    requires Conserved(k) && pid in k.legs && k.legs[pid].gate == 0.0
    ensures Conserved(Revert(k, pid, base, side, closed, ok))
  {
    var k' := Revert(k, pid, base, side, closed, ok);
    var leg := k.legs[pid];
    forall b, v ensures At(k'.exposure, b, v) == SumLegs(k'.legs, b, v) + SumLedger(k'.ledger, b, v) {
      assert At(k.exposure, b, v) == SumLegs(k.legs, b, v) + SumLedger(k.ledger, b, v);
      SumLegsRemove(k.legs, pid, b, v);
      SumLedgerSettle(k.ledger, Flipster, leg.base, Signed(leg.side, Flipster, leg.flip), base,
                      Signed(side, Flipster, closed), if ok then RevertResidue else RevertFailed, b, v);
    }
  }

  lemma CloseFlipConserves(k: Books, pid: PosId, base: Base, side: Side, closed: real, ok: bool)
    requires Conserved(k) && pid in k.legs
    ensures Conserved(CloseFlip(k, pid, base, side, closed, ok))
  {
    var k' := CloseFlip(k, pid, base, side, closed, ok);
    var leg := k.legs[pid];
    forall b, v ensures At(k'.exposure, b, v) == SumLegs(k'.legs, b, v) + SumLedger(k'.ledger, b, v) {
      assert At(k.exposure, b, v) == SumLegs(k.legs, b, v) + SumLedger(k.ledger, b, v);
      SumLegsRemove(k.legs, pid, b, v);
      SumLegsPut(k.legs, pid, leg.(flip := 0.0), b, v);
      SumLedgerSettle(k.ledger, Flipster, leg.base, Signed(leg.side, Flipster, leg.flip), base,
                      Signed(side, Flipster, closed), if ok then FlipCloseResidue else FlipCloseFailed, b, v);
    }
  }

  lemma CloseGateConserves(k: Books, pid: PosId, base: Base, side: Side, closed: real, ok: bool)
    requires Conserved(k) && pid in k.legs && k.legs[pid].flip == 0.0
    ensures Conserved(CloseGate(k, pid, base, side, closed, ok))
  {
    var k' := CloseGate(k, pid, base, side, closed, ok);
    var leg := k.legs[pid];
    forall b, v ensures At(k'.exposure, b, v) == SumLegs(k'.legs, b, v) + SumLedger(k'.ledger, b, v) {
      assert At(k.exposure, b, v) == SumLegs(k.legs, b, v) + SumLedger(k.ledger, b, v);
      SumLegsRemove(k.legs, pid, b, v);
      SumLedgerSettle(k.ledger, Gate, leg.base, Signed(leg.side, Gate, leg.gate), base,
                      Signed(side, Gate, closed), if ok then GateCloseResidue else GateCloseFailed, b, v);
    }
  }

  // ----- One live position per base -----

  predicate OneLive(legs: map<PosId, Leg>) {
    forall p, q :: p in legs && q in legs && legs[p].base == legs[q].base ==> p == q
  }

  lemma {:induction false} SumLegsAbsent(legs: map<PosId, Leg>, b: Base, v: Venue)
    requires forall p :: p in legs ==> legs[p].base != b
    ensures SumLegs(legs, b, v) == 0.0
    decreases |legs|
  {
    if p :| p in legs {
      SumLegsRemove(legs, p, b, v);
      SumLegsAbsent(legs - {p}, b, v);
    }
  }

  /** With one live position per base, a base's tracked exposure is that position's own leg. */
  lemma SumLegsOnly(legs: map<PosId, Leg>, pid: PosId, v: Venue)
    requires OneLive(legs) && pid in legs
    ensures SumLegs(legs, legs[pid].base, v) == Share(legs[pid], legs[pid].base, v)
  {
    SumLegsRemove(legs, pid, legs[pid].base, v);
    SumLegsAbsent(legs - {pid}, legs[pid].base, v);
  }

  predicate Untouched(ledger: seq<Residue>, b: Base) {
    forall e :: e in ledger ==> e.base != b
  }

  predicate FlaggedOn(ledger: seq<Residue>, b: Base) {
    exists e :: e in ledger && e.base == b && Flagged(e.kind)
  }

  lemma {:induction false} SumLedgerUntouched(ledger: seq<Residue>, b: Base, v: Venue)
    requires Untouched(ledger, b)
    ensures SumLedger(ledger, b, v) == 0.0
  {
    if ledger != [] { SumLedgerUntouched(ledger[..|ledger| - 1], b, v); }
  }

  /** On a base the ledger never mentions, the venues hold exactly the live leg. */
  lemma ExposureIsLeg(k: Books, pid: PosId, v: Venue)
    requires Conserved(k) && OneLive(k.legs) && pid in k.legs
    requires Untouched(k.ledger, k.legs[pid].base)
    ensures At(k.exposure, k.legs[pid].base, v) == Share(k.legs[pid], k.legs[pid].base, v)
  {
    SumLegsOnly(k.legs, pid, v);
    SumLedgerUntouched(k.ledger, k.legs[pid].base, v);
  }

  /** What a reduce-only order closes of a venue's exposure when it is sent against a
      position of side `side`: never more than requested, never through zero. */
  function ReduceOnly(exposure: real, side: Side, v: Venue, requested: real): (closed: real)
    ensures requested >= 0.0 ==> 0.0 <= closed <= requested
    ensures requested >= 0.0 && Signed(side, v, exposure) >= 0.0 ==> closed <= Signed(side, v, exposure)
  {
    Min(requested, Max(0.0, Signed(side, v, exposure)))
  }
}
