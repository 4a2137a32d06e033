/** Reading the answer of Gate's immediate-or-cancel hedge order. */
module GateIoc {
  import opened Common

  /** The order call raised, or its answer with missing fields read as zero; `left` is what was not
      filled of `size`. */
  datatype GateReply = GateRaised | GateReply(ok: bool, fillPrice: real, size: int, left: int)

  function AbsInt(x: int): nat { if x >= 0 then x else -x }

  function FilledOf(g: GateReply): int
    requires g.GateReply?
  {
    var filled := AbsInt(g.size) - AbsInt(g.left);
    if filled >= 0 then filled else 0
  }

  /** The number of contracts to track, or None when the hedge failed and must be undone. */
  function FilledContracts(g: GateReply): Option<int> {
    if g.GateReply? && g.ok && g.fillPrice > 0.0 && FilledOf(g) > 0 then Some(FilledOf(g)) else None
  }

  /** `filled` contracts were executed of a signed request, and the answer says so: what is left keeps
      the sign of the request, and a price is given exactly when something was executed. */
  predicate Honest(g: GateReply, request: int, filled: int) {
    && 0 <= filled <= AbsInt(request)
    && (g.GateRaised? || !g.ok ==> filled == 0)
    && (g.GateReply? && g.ok ==>
          && g.size == request && g.left == (if request >= 0 then request - filled else request + filled)
          && (g.fillPrice > 0.0 <==> filled > 0))
  }

  /** With an honest answer the hedge counts as filled exactly when something was executed, partial
      fills included, with the executed number of contracts on either side. */
  lemma HonestFillIsTruth(g: GateReply, request: int, filled: int)
    requires Honest(g, request, filled)
    ensures FilledContracts(g) == if filled > 0 then Some(filled) else None
  {}

  /** An answer counts as a fill of `n` contracts exactly when it is a success, names a price, and `n` of the
      size it names are not left; a refusal, or an answer without a price, never does. */
  lemma FilledIff(g: GateReply, n: int)
    ensures FilledContracts(g) == Some(n) <==>
      && g.GateReply? && g.ok && g.fillPrice > 0.0 && n > 0
      && (if g.size >= 0 then g.size else -g.size) == n + (if g.left >= 0 then g.left else -g.left)
  {}

  /** Whatever the answer, tracked contracts are positive and at most the size it names; so they are at
      most the request when the answer names no more. */
  lemma TrackedWithinAnswer(g: GateReply, request: int)
    requires FilledContracts(g).Some?
    ensures 0 < FilledContracts(g).value <= AbsInt(g.size)
    ensures AbsInt(g.size) <= AbsInt(request) ==> FilledContracts(g).value <= AbsInt(request)
  {}
}
