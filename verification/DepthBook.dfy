/** The delta-merged order book of the depth collector and its top levels. */
module DepthBook {
  import opened Common

  type Levels = map<real, real>

  /** A price level of a message; malformed ones cannot be unpacked or converted. */
  datatype Level = Pair(price: real, size: real) | Malformed

  datatype Action = Snapshot | Update | Other

  datatype Row = Row(symbol: string, bids: seq<Level>, asks: seq<Level>)

  datatype Entry = Entry(action: Action, rows: seq<Row>)

  datatype BookSide = Bids | Asks

  datatype Book = Book(bids: Levels, asks: Levels)

  const EMPTY := Book(map[], map[])

  // ----- What a message does, as elementary operations -----

  /** `Put` stores a snapshot level as it is; `Set` is an update, where size zero removes. */
  datatype Op = Clear | Put(price: real, size: real) | Set(price: real, size: real)

  function ApplyOp(m: Levels, op: Op): Levels {
    match op
    case Clear => map[]
    case Put(p, s) => m[p := s]
    case Set(p, s) => if s == 0.0 then m - {p} else m[p := s]
  }

  function Apply(b: Book, side: BookSide, op: Op): Book {
    if side == Bids then b.(bids := ApplyOp(b.bids, op)) else b.(asks := ApplyOp(b.asks, op))
  }

  function ApplyAll(b: Book, ops: seq<(BookSide, Op)>): Book
    decreases |ops|
  {
    if ops == [] then b else ApplyAll(Apply(b, ops[0].0, ops[0].1), ops[1..])
  }

  predicate Clean(ls: seq<Level>) { forall i :: 0 <= i < |ls| ==> ls[i].Pair? }

  /** The levels before the first malformed one. */
  function CleanPrefix(ls: seq<Level>): (p: seq<Level>)
    ensures p <= ls && Clean(p) && (|p| < |ls| ==> ls[|p|].Malformed?)
  {
    if ls == [] || ls[0].Malformed? then [] else [ls[0]] + CleanPrefix(ls[1..])
  }

  function SnapshotOps(side: BookSide, ls: seq<Level>): seq<(BookSide, Op)>
    requires Clean(ls)
  {
    [(side, Clear)] + seq(|ls|, i requires 0 <= i < |ls| => (side, Put(ls[i].price, ls[i].size)))
  }

  function UpdateOps(side: BookSide, ls: seq<Level>): seq<(BookSide, Op)>
    requires Clean(ls)
  {
    seq(|ls|, i requires 0 <= i < |ls| => (side, Set(ls[i].price, ls[i].size)))
  }

  /** The operations of one side of a row, and whether they all went through: a snapshot replaces
      the side only if every level is well formed, an update stops at the first malformed one. */
  function SideOps(action: Action, side: BookSide, ls: seq<Level>): (seq<(BookSide, Op)>, bool) {
    match action
    case Snapshot => if Clean(ls) then (SnapshotOps(side, ls), true) else ([], false)
    case Update => (UpdateOps(side, CleanPrefix(ls)), Clean(ls))
    case Other => ([], true)
  }

  function RowOps(symbol: string, action: Action, row: Row): (seq<(BookSide, Op)>, bool) {
    if row.symbol != symbol then ([], true)
    else
      var (b, ok) := SideOps(action, Bids, row.bids);
      if !ok then (b, false)
      else
        var (a, ok') := SideOps(action, Asks, row.asks);
        (b + a, ok')
  }

  function RowsOps(symbol: string, action: Action, rows: seq<Row>): (seq<(BookSide, Op)>, bool)
    decreases |rows|
  {
    if rows == [] then ([], true)
    else
      var (o, ok) := RowOps(symbol, action, rows[0]);
      if !ok then (o, false)
      else
        var (rest, ok') := RowsOps(symbol, action, rows[1..]);
        (o + rest, ok')
  }

  function MessageOps(symbol: string, data: seq<Entry>): (seq<(BookSide, Op)>, bool)
    decreases |data|
  {
    if data == [] then ([], true)
    else
      var (o, ok) := RowsOps(symbol, data[0].action, data[0].rows);
      if !ok then (o, false)
      else
        var (rest, ok') := MessageOps(symbol, data[1..]);
        (o + rest, ok')
  }

  // ----- The replay -----

  /** The size last written at a price since the latest snapshot of its side, None if removed. */
  function LastWrite(ops: seq<(BookSide, Op)>, side: BookSide, price: real): Option<real> {
    if ops == [] then None
    else
      var (s, op) := ops[|ops| - 1];
      if s != side then LastWrite(ops[..|ops| - 1], side, price)
      else match op
        case Clear => None
        case Put(p, z) => if p == price then Some(z) else LastWrite(ops[..|ops| - 1], side, price)
        case Set(p, z) =>
          if p != price then LastWrite(ops[..|ops| - 1], side, price)
          else if z == 0.0 then None else Some(z)
  }

  function SideOf(b: Book, side: BookSide): Levels { if side == Bids then b.bids else b.asks }

  function SizeAt(b: Book, side: BookSide, price: real): Option<real> {
    if price in SideOf(b, side) then Some(SideOf(b, side)[price]) else None
  }

  ghost predicate IsReplay(b: Book, ops: seq<(BookSide, Op)>) {
    forall side, price :: SizeAt(b, side, price) == LastWrite(ops, side, price)
  }

  lemma ApplyReplays(b: Book, past: seq<(BookSide, Op)>, side: BookSide, op: Op)
    requires IsReplay(b, past)
    ensures IsReplay(Apply(b, side, op), past + [(side, op)])
  {
    assert (past + [(side, op)])[..|past|] == past;
    forall s, price ensures SizeAt(Apply(b, side, op), s, price) == LastWrite(past + [(side, op)], s, price) {
      assert SizeAt(b, s, price) == LastWrite(past, s, price);
    }
  }

  lemma {:induction false} ApplyAllReplays(b: Book, past: seq<(BookSide, Op)>, ops: seq<(BookSide, Op)>)
    requires IsReplay(b, past)
    ensures IsReplay(ApplyAll(b, ops), past + ops)
    decreases |ops|
  {
    if ops == [] {
      assert past + ops == past;
    } else {
      ApplyReplays(b, past, ops[0].0, ops[0].1);
      ApplyAllReplays(Apply(b, ops[0].0, ops[0].1), past + [ops[0]], ops[1..]);
      assert past + [ops[0]] + ops[1..] == past + ops;
    }
  }

  lemma {:induction false} ApplyAllAppend(b: Book, x: seq<(BookSide, Op)>, y: seq<(BookSide, Op)>)
    ensures ApplyAll(b, x + y) == ApplyAll(ApplyAll(b, x), y)
    decreases |x|
  {
    if x == [] {
      assert x + y == y;
    } else {
      assert (x + y)[1..] == x[1..] + y;
      ApplyAllAppend(Apply(b, x[0].0, x[0].1), x[1..], y);
    }
  }

  function RunOps(symbol: string, ms: seq<seq<Entry>>): seq<(BookSide, Op)>
    decreases |ms|
  {
    if ms == [] then [] else MessageOps(symbol, ms[0]).0 + RunOps(symbol, ms[1..])
  }

  function BookAfter(symbol: string, b: Book, ms: seq<seq<Entry>>): Book
    decreases |ms|
  {
    if ms == [] then b else BookAfter(symbol, ApplyAll(b, MessageOps(symbol, ms[0]).0), ms[1..])
  }

  lemma {:induction false} BookAfterIsFold(symbol: string, b: Book, ms: seq<seq<Entry>>)
    ensures BookAfter(symbol, b, ms) == ApplyAll(b, RunOps(symbol, ms))
    decreases |ms|
  {
    if ms != [] {
      BookAfterIsFold(symbol, ApplyAll(b, MessageOps(symbol, ms[0]).0), ms[1..]);
      ApplyAllAppend(b, MessageOps(symbol, ms[0]).0, RunOps(symbol, ms[1..]));
    }
  }

  /** After any message sequence, malformed messages and reconnects included, each side holds exactly
      the last write per price since its latest snapshot. */
  lemma BookReplays(symbol: string, ms: seq<seq<Entry>>, side: BookSide, price: real)
    ensures SizeAt(BookAfter(symbol, EMPTY, ms), side, price) == LastWrite(RunOps(symbol, ms), side, price)
  {
    BookAfterIsFold(symbol, EMPTY, ms);
    ApplyAllReplays(EMPTY, [], RunOps(symbol, ms));
    assert [] + RunOps(symbol, ms) == RunOps(symbol, ms);
  }

  /** The last operation on the side that says something about the price. */
  function LastTouch(ops: seq<(BookSide, Op)>, side: BookSide, price: real): Option<Op> {
    if ops == [] then None
    else
      var (s, op) := ops[|ops| - 1];
      if s == side && (op.Clear? || op.price == price) then Some(op)
      else LastTouch(ops[..|ops| - 1], side, price)
  }

  lemma {:induction false} LastWriteByTouch(ops: seq<(BookSide, Op)>, side: BookSide, price: real)
    ensures LastWrite(ops, side, price) ==
      match LastTouch(ops, side, price)
      case None => None
      case Some(Clear) => None
      case Some(Put(_, z)) => Some(z)
      case Some(Set(_, z)) => if z == 0.0 then None else Some(z)
  {
    if ops != [] { LastWriteByTouch(ops[..|ops| - 1], side, price); }
  }

  /** A level of size zero is in the book exactly when the last thing said about its price is the latest
      snapshot's own zero; updates of size zero always take a price out. */
  lemma ZeroLevelIff(symbol: string, ms: seq<seq<Entry>>, side: BookSide, price: real)
    ensures SizeAt(BookAfter(symbol, EMPTY, ms), side, price) == Some(0.0) <==>
            LastTouch(RunOps(symbol, ms), side, price) == Some(Put(price, 0.0))
    ensures LastTouch(RunOps(symbol, ms), side, price) == Some(Set(price, 0.0)) ==>
            SizeAt(BookAfter(symbol, EMPTY, ms), side, price) == None
  {
    BookReplays(symbol, ms, side, price);
    LastWriteByTouch(RunOps(symbol, ms), side, price);
    TouchNamesPrice(RunOps(symbol, ms), side, price);
  }

  lemma {:induction false} TouchNamesPrice(ops: seq<(BookSide, Op)>, side: BookSide, price: real)
    ensures var t := LastTouch(ops, side, price); t.Some? && !t.value.Clear? ==> t.value.price == price
  {
    if ops != [] { TouchNamesPrice(ops[..|ops| - 1], side, price); }
  }

  /** A price removed by an update is absent, but a snapshot level of size zero is kept. */
  lemma ZeroSizeSnapshotIsKept(symbol: string, price: real, s: real)
    ensures var m := [Entry(Snapshot, [Row(symbol, [Pair(price, 0.0)], [])])];
      SizeAt(BookAfter(symbol, EMPTY, [m]), Bids, price) == Some(0.0)
    ensures
      var m := [Entry(Snapshot, [Row(symbol, [Pair(price, s)], [])]),
                Entry(Update, [Row(symbol, [Pair(price, 0.0)], [])])];
      SizeAt(BookAfter(symbol, EMPTY, [m]), Bids, price) == None
  {
    var snap := Entry(Snapshot, [Row(symbol, [Pair(price, 0.0)], [])]);
    var upd := Entry(Update, [Row(symbol, [Pair(price, 0.0)], [])]);
    RowsOne(symbol, Snapshot, snap.rows[0]);
    MessageOne(symbol, snap);
    BookReplays(symbol, [[snap]], Bids, price);
    assert RunOps(symbol, [[snap]]) == MessageOps(symbol, [snap]).0 by { assert [[snap]][1..] == []; }
    var ops1 := MessageOps(symbol, [snap]).0;
    assert ops1 == [(Bids, Clear), (Bids, Put(price, 0.0)), (Asks, Clear)];
    assert ops1[..2][1] == (Bids, Put(price, 0.0));

    var snap2 := Entry(Snapshot, [Row(symbol, [Pair(price, s)], [])]);
    RowsOne(symbol, Snapshot, snap2.rows[0]);
    RowsOne(symbol, Update, upd.rows[0]);
    MessageOne(symbol, upd);
    var m := [snap2, upd];
    assert m[1..] == [upd];
    BookReplays(symbol, [m], Bids, price);
    assert RunOps(symbol, [m]) == MessageOps(symbol, m).0 by { assert [m][1..] == []; }
    var ops2 := MessageOps(symbol, m).0;
    assert ops2[|ops2| - 1] == (Bids, Set(price, 0.0));
  }

  lemma RowsOne(symbol: string, action: Action, row: Row)
    ensures RowsOps(symbol, action, [row]) == RowOps(symbol, action, row)
  {
    assert [row][1..] == [];
    var o := RowOps(symbol, action, row).0;
    assert o + [] == o;
  }

  lemma MessageOne(symbol: string, e: Entry)
    ensures MessageOps(symbol, [e]) == RowsOps(symbol, e.action, e.rows)
  {
    assert [e][1..] == [];
    var o := RowsOps(symbol, e.action, e.rows).0;
    assert o + [] == o;
  }

  // ----- What a message does to a price, level by level -----

  /** The size the last of the levels gives for the price, if any does. */
  function LastLevel(ls: seq<Level>, price: real): Option<real> {
    if ls == [] then None
    else match ls[|ls| - 1]
      case Pair(p, z) => if p == price then Some(z) else LastLevel(ls[..|ls| - 1], price)
      case Malformed => LastLevel(ls[..|ls| - 1], price)
  }

  /** What one side of a row makes of the size at a price. A snapshot with well-formed levels says
      everything about its side, one with a malformed level nothing. An update speaks for the prices of the
      levels before the first malformed one, zero meaning that the level is gone. */
  function SizeAfter(action: Action, ls: seq<Level>, was: Option<real>, price: real): Option<real> {
    match action
    case Snapshot => if forall i :: 0 <= i < |ls| ==> ls[i].Pair? then LastLevel(ls, price) else was
    case Update =>
      var said := LastLevel(CleanPrefix(ls), price);
      if said.None? then was else if said == Some(0.0) then None else said
    case Other => was
  }

  lemma {:induction false} PutsWrite(b: Book, side: BookSide, ls: seq<Level>, s: BookSide, price: real)
    requires Clean(ls)
    ensures SizeAt(ApplyAll(b, SnapshotOps(side, ls)), s, price) ==
            if s == side then LastLevel(ls, price) else SizeAt(b, s, price)
    decreases |ls|
  {
    var n := |ls| - 1;
    if ls == [] {
      assert SnapshotOps(side, ls) == [(side, Clear)];
      ApplyOne(b, side, Clear);
    } else {
      assert ls == ls[..n + 1] && Clean(ls[..n]);
      OpsNext(side, ls, n);
      PutsWrite(b, side, ls[..n], s, price);
      ApplyAllAppend(b, SnapshotOps(side, ls[..n]), [(side, Put(ls[n].price, ls[n].size))]);
      ApplyOne(ApplyAll(b, SnapshotOps(side, ls[..n])), side, Put(ls[n].price, ls[n].size));
    }
  }

  lemma {:induction false} SetsWrite(b: Book, side: BookSide, ls: seq<Level>, s: BookSide, price: real)
    requires Clean(ls)
    ensures SizeAt(ApplyAll(b, UpdateOps(side, ls)), s, price) ==
            if s != side || LastLevel(ls, price).None? then SizeAt(b, s, price)
            else if LastLevel(ls, price) == Some(0.0) then None else LastLevel(ls, price)
    decreases |ls|
  {
    var n := |ls| - 1;
    if ls == [] {
      assert UpdateOps(side, ls) == [];
    } else {
      assert ls == ls[..n + 1] && Clean(ls[..n]);
      OpsNext(side, ls, n);
      SetsWrite(b, side, ls[..n], s, price);
      ApplyAllAppend(b, UpdateOps(side, ls[..n]), [(side, Set(ls[n].price, ls[n].size))]);
      ApplyOne(ApplyAll(b, UpdateOps(side, ls[..n])), side, Set(ls[n].price, ls[n].size));
    }
  }

  lemma SideAfter(b: Book, action: Action, side: BookSide, ls: seq<Level>, s: BookSide, price: real)
    ensures var (ops, ok) := SideOps(action, side, ls);
      && SizeAt(ApplyAll(b, ops), s, price) ==
         (if s == side then SizeAfter(action, ls, SizeAt(b, s, price), price) else SizeAt(b, s, price))
      && (ok <==> action == Other || forall i :: 0 <= i < |ls| ==> ls[i].Pair?)
  {
    match action
    case Snapshot => if Clean(ls) { PutsWrite(b, side, ls, s, price); }
    case Update => SetsWrite(b, side, CleanPrefix(ls), s, price);
    case Other =>
  }

  /** A row of another symbol does nothing. One of this symbol writes its bids and then its asks, and stops at
      a malformed level, so after a malformed bid its asks are not looked at. */
  lemma RowAfter(symbol: string, b: Book, action: Action, row: Row, price: real)
    ensures var (ops, ok) := RowOps(symbol, action, row); var b1 := ApplyAll(b, ops);
      if row.symbol != symbol then b1 == b && ok
      else
        var bidsOk := action == Other || forall i :: 0 <= i < |row.bids| ==> row.bids[i].Pair?;
        var asksOk := action == Other || forall i :: 0 <= i < |row.asks| ==> row.asks[i].Pair?;
        && SizeAt(b1, Bids, price) == SizeAfter(action, row.bids, SizeAt(b, Bids, price), price)
        && SizeAt(b1, Asks, price) ==
           (if bidsOk then SizeAfter(action, row.asks, SizeAt(b, Asks, price), price) else SizeAt(b, Asks, price))
        && (ok <==> bidsOk && asksOk)
  {
    if row.symbol == symbol {
      var x, y := SideOps(action, Bids, row.bids), SideOps(action, Asks, row.asks);
      var m := ApplyAll(b, x.0);
      SideAfter(b, action, Bids, row.bids, Bids, price);
      SideAfter(b, action, Bids, row.bids, Asks, price);
      SideAfter(m, action, Asks, row.asks, Bids, price);
      SideAfter(m, action, Asks, row.asks, Asks, price);
      ApplyAllAppend(b, x.0, y.0);
    }
  }

  lemma {:induction false} RowsAppend(symbol: string, action: Action, a: seq<Row>, c: seq<Row>)
    requires RowsOps(symbol, action, a).1
    ensures RowsOps(symbol, action, a + c) == Then(RowsOps(symbol, action, a).0, RowsOps(symbol, action, c))
    decreases |a|
  {
    if a == [] {
      assert a + c == c;
      ThenNothing(RowsOps(symbol, action, c));
    } else {
      assert (a + c)[1..] == a[1..] + c;
      RowsAppend(symbol, action, a[1..], c);
      ThenThen(RowOps(symbol, action, a[0]).0, RowsOps(symbol, action, a[1..]).0, RowsOps(symbol, action, c));
    }
  }

  /** Rows are taken in order up to one that fails. */
  lemma RowsInOrder(symbol: string, action: Action, a: seq<Row>, x: Row, rest: seq<Row>)
    requires RowsOps(symbol, action, a).1
    ensures var one := RowOps(symbol, action, x);
      RowsOps(symbol, action, a + ([x] + rest)) ==
        Then(RowsOps(symbol, action, a).0, if one.1 then Then(one.0, RowsOps(symbol, action, rest)) else one)
  {
    RowsAppend(symbol, action, a, [x] + rest);
    assert ([x] + rest)[1..] == rest;
  }

  lemma {:induction false} EntriesAppend(symbol: string, a: seq<Entry>, c: seq<Entry>)
    requires MessageOps(symbol, a).1
    ensures MessageOps(symbol, a + c) == Then(MessageOps(symbol, a).0, MessageOps(symbol, c))
    decreases |a|
  {
    if a == [] {
      assert a + c == c;
      ThenNothing(MessageOps(symbol, c));
    } else {
      assert (a + c)[1..] == a[1..] + c;
      EntriesAppend(symbol, a[1..], c);
      ThenThen(RowsOps(symbol, a[0].action, a[0].rows).0, MessageOps(symbol, a[1..]).0, MessageOps(symbol, c));
    }
  }

  /** So are the entries of a message. */
  lemma EntriesInOrder(symbol: string, a: seq<Entry>, x: Entry, rest: seq<Entry>)
    requires MessageOps(symbol, a).1
    ensures var one := RowsOps(symbol, x.action, x.rows);
      MessageOps(symbol, a + ([x] + rest)) ==
        Then(MessageOps(symbol, a).0, if one.1 then Then(one.0, MessageOps(symbol, rest)) else one)
  {
    EntriesAppend(symbol, a, [x] + rest);
    assert ([x] + rest)[1..] == rest;
  }

  // ----- Top levels -----

  predicate Better(side: BookSide, a: real, b: real) { if side == Bids then a > b else a < b }

  /** The best `n` levels of a side: strictly sorted, taken from the book with their sizes, as many
      as there are, and no omitted price better than a listed one. */
  ghost predicate IsTop(top: seq<(real, real)>, m: Levels, side: BookSide, n: nat) {
    && |top| == (if n < |m| then n else |m|)
    && (forall i :: 0 <= i < |top| ==> top[i].0 in m && m[top[i].0] == top[i].1)
    && (forall i, j :: 0 <= i < j < |top| ==> Better(side, top[i].0, top[j].0))
    && (forall p, i :: p in m && 0 <= i < |top| ==>
          (exists j :: 0 <= j < |top| && top[j].0 == p) || Better(side, top[i].0, p))
  }

  lemma {:induction false} BestExists(keys: set<real>, side: BookSide) returns (best: real)
    requires exists k :: k in keys
    ensures best in keys && forall k :: k in keys ==> k == best || Better(side, best, k)
    decreases keys
  {
    var k :| k in keys;
    var rest := keys - {k};
    assert forall x :: x in keys ==> x == k || x in rest;
    if exists x :: x in rest {
      var b := BestExists(rest, side);
      best := if Better(side, k, b) then k else b;
    } else {
      best := k;
    }
  }

  /** The dictionary's prices in order of preference. */
  method SortedPrices(keys: set<real>, side: BookSide) returns (s: seq<real>)
    ensures |s| == |keys|
    ensures forall k :: k in s <==> k in keys
    ensures forall i, j :: 0 <= i < j < |s| ==> Better(side, s[i], s[j])
  {
    s := [];
    var rest := keys;
    while exists k :: k in rest
      invariant rest <= keys && |s| + |rest| == |keys|
      invariant forall k :: k in keys <==> k in s || k in rest
      invariant forall i, k :: 0 <= i < |s| && k in rest ==> Better(side, s[i], k)
      invariant forall i, j :: 0 <= i < j < |s| ==> Better(side, s[i], s[j])
      decreases rest
    {
      ghost var some := BestExists(rest, side);
      var best :| best in rest && forall k :: k in rest ==> k == best || Better(side, best, k);
      s := s + [best];
      rest := rest - {best};
    }
  }

  method TopLevels(m: Levels, side: BookSide, n: nat) returns (top: seq<(real, real)>)
    ensures IsTop(top, m, side, n)
  {
    var prices := SortedPrices(m.Keys, side);
    assert |m.Keys| == |m|;
    var k := if n < |prices| then n else |prices|;
    top := seq(k, i requires 0 <= i < k => (assert prices[i] in prices; (prices[i], m[prices[i]])));
    forall p, i | p in m && 0 <= i < |top|
      ensures (exists j :: 0 <= j < |top| && top[j].0 == p) || Better(side, top[i].0, p)
    {
      var j :| 0 <= j < |prices| && prices[j] == p;
      if j < |top| { assert top[j].0 == p; }
    }
  }

  /** In prices: bids are listed from the highest down, asks from the lowest up, each with its size in the
      book, and a price of the book that is not listed is beyond all that are. */
  lemma TopInPrices(top: seq<(real, real)>, m: Levels, side: BookSide, n: nat, p: real)
    requires IsTop(top, m, side, n) && p in m && n > 0
    ensures top != [] && forall i, j :: 0 <= i < j < |top| ==>
                if side == Bids then top[j].0 < top[i].0 else top[j].0 > top[i].0
    ensures (p, m[p]) in top || forall i :: 0 <= i < |top| ==> if side == Bids then p < top[i].0 else p > top[i].0
  {
    assert |m| > 0 by { assert p in m.Keys; }
    if j :| 0 <= j < |top| && top[j].0 == p { assert top[j] == (p, m[p]); }
  }

  /** What is written for a message: nothing if a side is empty, otherwise both tops. */
  datatype Fields = Fields(bids: seq<(real, real)>, asks: seq<(real, real)>)

  // ----- The collector -----

  class Collector {
    const symbol: string
    const levels: nat
    var book: Book

    constructor (symbol: string, levels: nat)
      ensures this.symbol == symbol && this.levels == levels && book == EMPTY
    {
      this.symbol, this.levels, this.book := symbol, levels, EMPTY;
    }

    /** One side of a row; false when a level could not be unpacked. */
    method MergeSide(action: Action, side: BookSide, ls: seq<Level>) returns (ok: bool)
      modifies this
      ensures book == ApplyAll(old(book), SideOps(action, side, ls).0) && ok == SideOps(action, side, ls).1
    {
      match action
      case Other => return true;
      case Snapshot =>
        var m: Levels := map[];
        ghost var start := book;
        var i := 0;
        while i < |ls| && ls[i].Pair?
          invariant 0 <= i <= |ls| && Clean(ls[..i]) && book == start
          invariant ApplyAll(start, SnapshotOps(side, ls[..i])) == WithSide(start, side, m)
        {
          OpsNext(side, ls, i);
          ApplyAllAppend(start, SnapshotOps(side, ls[..i]), [(side, Put(ls[i].price, ls[i].size))]);
          ApplyOne(WithSide(start, side, m), side, Put(ls[i].price, ls[i].size));
          m := m[ls[i].price := ls[i].size];
          i := i + 1;
        }
        if i < |ls| {
          assert !Clean(ls) by { assert !ls[i].Pair?; }
          return false;
        }
        assert ls[..i] == ls;
        book := if side == Bids then book.(bids := m) else book.(asks := m);
        return true;
      case Update =>
        ghost var start := book;
        var i := 0;
        while i < |ls| && ls[i].Pair?
          invariant 0 <= i <= |ls| && Clean(ls[..i])
          invariant book == ApplyAll(start, UpdateOps(side, ls[..i]))
        {
          OpsNext(side, ls, i);
          ApplyAllAppend(start, UpdateOps(side, ls[..i]), [(side, Set(ls[i].price, ls[i].size))]);
          ApplyOne(book, side, Set(ls[i].price, ls[i].size));
          var m := if side == Bids then book.bids else book.asks;
          if ls[i].size == 0.0 { m := m - {ls[i].price}; } else { m := m[ls[i].price := ls[i].size]; }
          book := if side == Bids then book.(bids := m) else book.(asks := m);
          i := i + 1;
        }
        CleanPrefixUnique(ls, i);
        CleanUpTo(ls, i);
        return i == |ls|;
    }

    /** A row of a message; rows of other symbols are skipped. */
    method MergeRow(action: Action, row: Row) returns (ok: bool)
      modifies this
      ensures book == ApplyAll(old(book), RowOps(symbol, action, row).0) && ok == RowOps(symbol, action, row).1
    {
      if row.symbol != symbol { return true; }
      ghost var start := book;
      ok := MergeSide(action, Bids, row.bids);
      if !ok { return false; }
      ok := MergeSide(action, Asks, row.asks);
      ApplyAllAppend(start, SideOps(action, Bids, row.bids).0, SideOps(action, Asks, row.asks).0);
    }

    /** The rows of one entry. */
    method MergeRows(action: Action, rows: seq<Row>) returns (ok: bool)
      modifies this
      ensures book == ApplyAll(old(book), RowsOps(symbol, action, rows).0) && ok == RowsOps(symbol, action, rows).1
    {
      ghost var start := book;
      ghost var done: seq<(BookSide, Op)> := [];
      ThenNothing(RowsOps(symbol, action, rows));
      for j := 0 to |rows|
        invariant book == ApplyAll(start, done)
        invariant RowsOps(symbol, action, rows) == Then(done, RowsOps(symbol, action, rows[j..]))
      {
        assert rows[j..][0] == rows[j] && rows[j..][1..] == rows[j + 1..];
        ghost var o := RowOps(symbol, action, rows[j]);
        ok := MergeRow(action, rows[j]);
        ApplyAllAppend(start, done, o.0);
        ThenThen(done, o.0, RowsOps(symbol, action, rows[j + 1..]));
        done := done + o.0;
        if !ok { return false; }
      }
      assert done + [] == done;
      return true;
    }

    /** A whole message. When it went through and both sides are non-empty, the best levels of the
        merged book are emitted; a malformed level abandons the rest of the message. */
    method Process(data: seq<Entry>) returns (emitted: Option<Fields>)
      modifies this
      ensures book == ApplyAll(old(book), MessageOps(symbol, data).0)
      ensures emitted.Some? <==> MessageOps(symbol, data).1 && levels > 0 && |book.bids| > 0 && |book.asks| > 0
      ensures emitted.Some? ==>
        IsTop(emitted.value.bids, book.bids, Bids, levels) && IsTop(emitted.value.asks, book.asks, Asks, levels)
    {
      ghost var start := book;
      ghost var done: seq<(BookSide, Op)> := [];
      ThenNothing(MessageOps(symbol, data));
      for i := 0 to |data|
        invariant book == ApplyAll(start, done)
        invariant MessageOps(symbol, data) == Then(done, MessageOps(symbol, data[i..]))
      {
        assert data[i..][0] == data[i] && data[i..][1..] == data[i + 1..];
        ghost var o := RowsOps(symbol, data[i].action, data[i].rows);
        var ok := MergeRows(data[i].action, data[i].rows);
        ApplyAllAppend(start, done, o.0);
        ThenThen(done, o.0, MessageOps(symbol, data[i + 1..]));
        done := done + o.0;
        if !ok { return None; }
      }
      assert done + [] == done;
      var bids := TopLevels(book.bids, Bids, levels);
      var asks := TopLevels(book.asks, Asks, levels);
      if bids == [] || asks == [] { return None; }
      return Some(Fields(bids, asks));
    }
  }

  function WithSide(b: Book, side: BookSide, m: Levels): Book {
    if side == Bids then b.(bids := m) else b.(asks := m)
  }

  function Then(done: seq<(BookSide, Op)>, rest: (seq<(BookSide, Op)>, bool)): (seq<(BookSide, Op)>, bool) {
    (done + rest.0, rest.1)
  }

  lemma ThenNothing(r: (seq<(BookSide, Op)>, bool))
    ensures Then([], r) == r
  {
    assert [] + r.0 == r.0;
  }

  lemma ThenThen(done: seq<(BookSide, Op)>, o: seq<(BookSide, Op)>, rest: (seq<(BookSide, Op)>, bool))
    ensures Then(done, (o + rest.0, rest.1)) == Then(done + o, rest)
  {
    assert done + (o + rest.0) == done + o + rest.0;
  }

  lemma ApplyOne(b: Book, side: BookSide, op: Op)
    ensures ApplyAll(b, [(side, op)]) == Apply(b, side, op)
  {
    assert [(side, op)][1..] == [];
  }

  /** One more well-formed level is one more operation. */
  lemma OpsNext(side: BookSide, ls: seq<Level>, i: nat)
    requires i < |ls| && Clean(ls[..i]) && ls[i].Pair?
    ensures Clean(ls[..i + 1])
    ensures SnapshotOps(side, ls[..i + 1]) == SnapshotOps(side, ls[..i]) + [(side, Put(ls[i].price, ls[i].size))]
    ensures UpdateOps(side, ls[..i + 1]) == UpdateOps(side, ls[..i]) + [(side, Set(ls[i].price, ls[i].size))]
  {
    assert ls[..i + 1] == ls[..i] + [ls[i]];
    assert Clean(ls[..i + 1]);
  }

  lemma {:induction false} CleanPrefixUnique(ls: seq<Level>, n: nat)
    requires n <= |ls| && Clean(ls[..n]) && (n < |ls| ==> ls[n].Malformed?)
    ensures CleanPrefix(ls) == ls[..n]
    decreases n
  {
    if n > 0 {
      assert ls[..n][0].Pair?;
      assert ls[1..][..n - 1] == ls[..n][1..];
      CleanPrefixUnique(ls[1..], n - 1);
      assert ls[..n] == [ls[0]] + ls[1..][..n - 1];
    }
  }

  lemma CleanUpTo(ls: seq<Level>, n: nat)
    requires n <= |ls| && Clean(ls[..n]) && (n < |ls| ==> ls[n].Malformed?)
    ensures n == |ls| <==> Clean(ls)
  {
    assert ls[..|ls|] == ls;
  }
}
