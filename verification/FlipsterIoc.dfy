/** The manual immediate-or-cancel entry on Flipster: post a LIMIT, wait, cancel up to three
    times, then decide from the private feed whether a position exists. */
module FlipsterIoc {
  import opened Common

  datatype PostReply =
    | Raised
    | Accepted(avg: real, size: real, orderId: Option<string>)

  /** One cancel attempt. `gone` says that what was left of the order went off the book by then, because
      a cancel took effect or it was filled; whether the call raised does not matter, a raise is swallowed.
      `row` is the status of the order's row in the private feed, None when there is no row (or an empty
      one). */
  datatype Try = Try(gone: bool, row: Option<string>)

  /** Every answer the entry can get; `finalSize` is None when reading the feed failed. */
  datatype Replies = Replies(post: PostReply, tries: seq<Try>, finalSize: Option<real>, hasPosition: bool)

  datatype Outcome = Failed | NotFilled | Filled(size: real)

  const CANCEL_ATTEMPTS := 3

  predicate Immediate(r: Replies) {
    r.post.Accepted? && r.post.avg > 0.0 && r.post.size > 0.0
  }

  predicate Pending(r: Replies) {
    r.post.Accepted? && !Immediate(r) && r.post.orderId.Some?
  }

  // ----- Looking an order up in the feed -----

  const CLOSED_WORDS := ["FILL", "CANCEL", "REJECT", "EXPIR", "DONE"]

  function UpperChar(c: char): char { if 'a' <= c <= 'z' then c - 'a' + 'A' else c }

  function Upper(s: string): string { seq(|s|, i requires 0 <= i < |s| => UpperChar(s[i])) }

  predicate OccursAt(s: string, word: string, i: int) { 0 <= i <= |s| - |word| && s[i..i + |word|] == word }

  predicate Contains(s: string, word: string) { exists i :: 0 <= i <= |s| && OccursAt(s, word, i) }

  /** The status has one of the words for a closed order somewhere in it. */
  predicate HasClosedWord(status: string) {
    exists k :: 0 <= k < |CLOSED_WORDS| && Contains(Upper(status), CLOSED_WORDS[k])
  }

  /** What `flipster_order_open` answers: without a row, or with such a word, the order counts as closed. */
  predicate LooksOpen(row: Option<string>) { row.Some? && !HasClosedWord(row.value) }

  /** A partially filled order is open on the exchange and counts as closed. */
  lemma PartlyFilledLooksClosed()
    ensures !LooksOpen(Some("PARTIALLY_FILLED")) && !LooksOpen(Some("Partially_Filled")) && LooksOpen(Some("NEW"))
  {
    assert Upper("PARTIALLY_FILLED") == "PARTIALLY_FILLED" && Upper("Partially_Filled") == "PARTIALLY_FILLED";
    assert OccursAt("PARTIALLY_FILLED", "FILL", 10);
    assert Contains("PARTIALLY_FILLED", CLOSED_WORDS[0]);
    assert Upper("NEW") == "NEW";
    assert forall k :: 0 <= k < |CLOSED_WORDS| ==> |CLOSED_WORDS[k]| > |"NEW"|;
  }

  lemma UpperJoin(a: string, b: string)
    ensures Upper(a + b) == Upper(a) + Upper(b)
  {}

  /** Any status with one of these words in it counts as closed. */
  lemma ClosingWords(a: string, word: string, b: string)
    requires word in ["FILL", "CANCEL", "REJECT", "EXPIR", "DONE"]
    ensures !LooksOpen(Some(a + word + b))
  {
    UpperJoin(a + word, b);
    UpperJoin(a, word);
    assert Upper(word) == word;
    var s := Upper(a + word + b);
    assert s == Upper(a) + word + Upper(b);
    assert OccursAt(s, word, |a|);
    var k :| 0 <= k < 5 && ["FILL", "CANCEL", "REJECT", "EXPIR", "DONE"][k] == word;
    assert Contains(s, CLOSED_WORDS[k]);
  }

  // ----- The entry -----

  /** What the caller is told. */
  function Decide(r: Replies, amountUsd: real, price: real): Outcome {
    if r.post.Raised? then Failed
    else if Immediate(r) then Filled(r.post.size)
    else if r.post.orderId.None? then NotFilled
    else if r.finalSize.Some? && Abs(r.finalSize.value) > 0.0 then Filled(Abs(r.finalSize.value))
    else if r.hasPosition then Filled(if price > 0.0 then amountUsd / price else 0.0)
    else NotFilled
  }

  /** How many attempts are made: up to and including the first look that shows the order closed. */
  function Made(tries: seq<Try>): (n: nat)
    ensures n <= |tries|
    ensures forall i :: 0 <= i < n - 1 ==> LooksOpen(tries[i].row)
    ensures n > 0 && LooksOpen(tries[n - 1].row) ==> n == |tries|
    ensures n < |tries| ==> n > 0 && !LooksOpen(tries[n - 1].row)
  {
    if tries == [] then 0 else if !LooksOpen(tries[0].row) then 1 else 1 + Made(tries[1..])
  }

  /** Every look shows the order open; the only case that is reported as such. */
  predicate Stuck(r: Replies) {
    Pending(r) && forall i :: 0 <= i < |r.tries| ==> LooksOpen(r.tries[i].row)
  }

  /** The entry itself; `stuck` is the case reported as still open after the last cancel. */
  method LimitIocEntry(r: Replies, amountUsd: real, price: real) returns (outcome: Outcome, cancels: nat, stuck: bool)
    requires |r.tries| == CANCEL_ATTEMPTS
    ensures outcome == Decide(r, amountUsd, price)
    ensures cancels == if Pending(r) then Made(r.tries) else 0
    ensures stuck <==> Stuck(r)
    ensures cancels <= 3 && (stuck ==> cancels == 3)
  {
    cancels, stuck := 0, false;
    if r.post.Raised? { return Failed, cancels, stuck; }
    if r.post.avg > 0.0 && r.post.size > 0.0 { return Filled(r.post.size), cancels, stuck; }
    if r.post.orderId.None? { return NotFilled, cancels, stuck; }
    var done := false;
    while cancels < CANCEL_ATTEMPTS && !done
      invariant 0 <= cancels <= CANCEL_ATTEMPTS
      invariant forall i :: 0 <= i < cancels - 1 ==> LooksOpen(r.tries[i].row)
      invariant cancels > 0 ==> (done <==> !LooksOpen(r.tries[cancels - 1].row))
      invariant cancels == 0 ==> !done
      decreases CANCEL_ATTEMPTS - cancels
    {
      done := !LooksOpen(r.tries[cancels].row);
      cancels := cancels + 1;
    }
    MadeUnique(r.tries, cancels);
    stuck := !done;
    if r.finalSize.Some? && Abs(r.finalSize.value) > 0.0 { return Filled(Abs(r.finalSize.value)), cancels, stuck; }
    if r.hasPosition { return Filled(if price > 0.0 then amountUsd / price else 0.0), cancels, stuck; }
    return NotFilled, cancels, stuck;
  }

  lemma MadeUnique(tries: seq<Try>, n: nat)
    requires 0 < n <= |tries| && forall i :: 0 <= i < n - 1 ==> LooksOpen(tries[i].row)
    requires n == |tries| || !LooksOpen(tries[n - 1].row)
    ensures Made(tries) == n
  {
    assert Made(tries) == n;
  }

  // ----- What stays on the book -----

  /** The post left `unfilled` of the order on the book, and no attempt made took it off. A post can leave
      something there although its call raised. */
  predicate Rests(r: Replies, unfilled: real) {
    && unfilled > 0.0
    && (Pending(r) ==> forall i :: 0 <= i < Made(r.tries) ==> !r.tries[i].gone)
  }

  /** Look `k` is the first without an open order: the feed has no row, or a status with a closing word
      such as that of a partial fill, while the order is still on the book. */
  predicate MisreadAt(r: Replies, k: nat) {
    && k < |r.tries| && (forall i :: 0 <= i < k ==> LooksOpen(r.tries[i].row))
    && (r.tries[k].row.None? || HasClosedWord(r.tries[k].row.value))
    && (forall i :: 0 <= i <= k ==> !r.tries[i].gone)
  }

  /** What a post left unfilled stays on the book without the warning in exactly four cases: its call
      raised, it was an immediate partial fill, it came without an order id, or the cancels had no effect
      while the feed had no row for it or read as closed. */
  lemma RestsUnwarnedIff(r: Replies, unfilled: real)
    requires |r.tries| == CANCEL_ATTEMPTS
    ensures Rests(r, unfilled) && !Stuck(r) <==>
      && unfilled > 0.0
      && (r.post.Raised? || Immediate(r) || r.post.orderId.None? || exists k :: MisreadAt(r, k))
  {
    if Pending(r) {
      var n := Made(r.tries);
      if Rests(r, unfilled) && !Stuck(r) { assert MisreadAt(r, n - 1); }
      if k: nat :| MisreadAt(r, k) { MadeUnique(r.tries, k + 1); }
    }
  }

  /** The feed shows the order open exactly as long as it is on the book. */
  predicate TrueLooks(r: Replies) {
    forall k :: 0 <= k < |r.tries| ==> (LooksOpen(r.tries[k].row) <==> forall i :: 0 <= i <= k ==> !r.tries[i].gone)
  }

  /** With a feed that is true about it, a pending order is left on the book exactly when that is reported. */
  lemma TrueFeedWarnsIff(r: Replies, unfilled: real)
    requires |r.tries| == CANCEL_ATTEMPTS && Pending(r) && TrueLooks(r) && unfilled > 0.0
    ensures Rests(r, unfilled) <==> Stuck(r)
  {
    var n := Made(r.tries);
    assert LooksOpen(r.tries[n - 1].row) <==> forall i :: 0 <= i <= n - 1 ==> !r.tries[i].gone;
  }

  /** What the caller is told, field by field: a failure exactly when the call raised; a fill of the answer's
      own size when it names both a price and a size, and otherwise, for an order with an id, of the size in
      the feed, or of what the amount buys when the feed shows margin without a size. */
  lemma ReportedIff(r: Replies, amountUsd: real, price: real, size: real)
    ensures Decide(r, amountUsd, price) == Failed <==> r.post == Raised
    ensures Decide(r, amountUsd, price) == Filled(size) <==>
      && r.post.Accepted?
      && if r.post.avg > 0.0 && r.post.size > 0.0 then size == r.post.size
         else
           && r.post.orderId.Some?
           && if r.finalSize.Some? && r.finalSize.value != 0.0
              then size > 0.0 && (r.finalSize.value == size || r.finalSize.value == -size)
              else r.hasPosition && if price > 0.0 then size * price == amountUsd else size == 0.0
  {
    if price > 0.0 { Quotient(amountUsd, price, size); }
  }

  lemma Quotient(a: real, p: real, x: real)
    requires p > 0.0
    ensures x == a / p <==> x * p == a
  {
    assert a / p * p == a;
    if x * p == a { assert (x - a / p) * p == 0.0; }
  }

  /** The replies describe a symbol that was flat before the order and of which `filled` was executed
      by the time the entry returns. */
  predicate Honest(r: Replies, filled: real) {
    && filled >= 0.0
    && (r.post.Raised? ==> filled == 0.0)
    && (Immediate(r) ==> r.post.size == filled)
    && (r.post.Accepted? && !Immediate(r) && r.post.orderId.None? ==> filled == 0.0)
    && (Pending(r) ==> r.finalSize.Some? && Abs(r.finalSize.value) == filled && (r.hasPosition ==> filled > 0.0))
  }

  /** With an honest feed the outcome is the truth: a reported fill is the executed quantity, and
      anything else means that nothing was executed. */
  lemma HonestOutcomeIsTruth(r: Replies, filled: real, amountUsd: real, price: real)
    requires Honest(r, filled)
    ensures Decide(r, amountUsd, price) == Filled(filled) <==> filled > 0.0
    ensures Decide(r, amountUsd, price).Filled? <==> filled > 0.0
  {
    if Pending(r) { assert Abs(r.finalSize.value) == filled; }
  }

  /** A feed that shows margin but never a size is the one case where an approximate size is reported. */
  lemma MarginOnlyIsApproximate(r: Replies, amountUsd: real, price: real)
    requires Pending(r) && (r.finalSize.None? || r.finalSize.value == 0.0)
    ensures Decide(r, amountUsd, price).Filled? <==> r.hasPosition
    ensures r.hasPosition && price > 0.0 ==> Decide(r, amountUsd, price).size * price == amountUsd
  {}
}
