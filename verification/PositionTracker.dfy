/** The private-feed position tracker, and the executor's own copy of its merge, against a replay
    of the message history. */
module PositionTracker {
  import opened Common

  type Key = string

  const MARGIN := "initMarginReserved"

  /** A field value of the feed: JSON null, something `float` accepts, or something it rejects. */
  datatype Field = Null | Num(value: real) | Junk

  type Row = map<string, Field>

  datatype Event = Update(key: Key, fields: Row) | Delete(key: Key)

  type Positions = map<Key, Row>

  function MarginOf(r: Row): Field { if MARGIN in r then r[MARGIN] else Null }

  /** Merge one update into the row, dropping the row when its margin is now zero. */
  function Apply(p: Positions, e: Event): Positions {
    match e
    case Delete(k) => p - {k}
    case Update(k, fields) =>
      var row := (if k in p then p[k] else map[]) + fields;
      if MarginOf(row) == Num(0.0) then p - {k} else p[k := row]
  }

  function ApplyAll(p: Positions, es: seq<Event>): Positions
    decreases |es|
  {
    if es == [] then p else ApplyAll(Apply(p, es[0]), es[1..])
  }

  /** The tracker converts the merged margin unguarded: a row with an unreadable one raises. */
  predicate Raises(p: Positions, e: Event) {
    e.Update? && MarginOf((if e.key in p then p[e.key] else map[]) + e.fields) == Junk
  }

  /** The events of a message the tracker gets through, the raising one included. */
  function Handled(p: Positions, es: seq<Event>): (h: seq<Event>)
    ensures h <= es
    decreases |es|
  {
    if es == [] then []
    else if Raises(p, es[0]) then [es[0]]
    else [es[0]] + Handled(Apply(p, es[0]), es[1..])
  }

  /** The map after a message, and whether its handling raised. */
  function Handle(p: Positions, es: seq<Event>): (Positions, bool)
    decreases |es|
  {
    if es == [] then (p, false)
    else if Raises(p, es[0]) then (Apply(p, es[0]), true)
    else Handle(Apply(p, es[0]), es[1..])
  }

  /** Handling applies exactly the handled events, all of them unless it raised. */
  lemma {:induction false} HandleAppliesHandled(p: Positions, es: seq<Event>)
    ensures Handle(p, es).0 == ApplyAll(p, Handled(p, es))
    ensures !Handle(p, es).1 ==> Handled(p, es) == es
    decreases |es|
  {
    if es != [] {
      if Raises(p, es[0]) {
        assert [es[0]][1..] == [];
      } else {
        HandleAppliesHandled(Apply(p, es[0]), es[1..]);
        var h := Handled(Apply(p, es[0]), es[1..]);
        assert ([es[0]] + h)[1..] == h;
      }
    }
  }

  // ----- The replay -----

  /** The event ends the life of `k`'s row, judged from the event alone. */
  predicate Closes(e: Event, k: Key) {
    e.key == k && (e.Delete? || (MARGIN in e.fields && e.fields[MARGIN] == Num(0.0)))
  }

  /** Some update of `k` came after its last close. */
  predicate Present(es: seq<Event>, k: Key) {
    if es == [] then false
    else
      var e := es[|es| - 1];
      if Closes(e, k) then false
      else if e.key == k then true
      else Present(es[..|es| - 1], k)
  }

  /** The last value written to field `f` of `k` since its last close. */
  function LastWrite(es: seq<Event>, k: Key, f: string): Option<Field> {
    if es == [] then None
    else
      var e := es[|es| - 1];
      if Closes(e, k) then None
      else if e.key == k && e.Update? && f in e.fields then Some(e.fields[f])
      else LastWrite(es[..|es| - 1], k, f)
  }

  predicate NoZeroMargin(p: Positions) {
    forall k :: k in p ==> MarginOf(p[k]) != Num(0.0)
  }

  function Lookup(p: Positions, k: Key, f: string): Option<Field> {
    if k in p && f in p[k] then Some(p[k][f]) else None
  }

  ghost predicate IsReplay(p: Positions, es: seq<Event>) {
    && NoZeroMargin(p)
    && (forall k :: k in p <==> Present(es, k))
    && (forall k, f :: Lookup(p, k, f) == LastWrite(es, k, f))
  }

  lemma ApplyReplays(p: Positions, es: seq<Event>, e: Event)
    requires IsReplay(p, es)
    ensures IsReplay(Apply(p, e), es + [e])
  {
    assert (es + [e])[..|es|] == es;
    var p' := Apply(p, e);
    forall k ensures k in p' <==> Present(es + [e], k) {
      assert k in p <==> Present(es, k);
    }
    forall k, f ensures Lookup(p', k, f) == LastWrite(es + [e], k, f) {
      assert Lookup(p, k, f) == LastWrite(es, k, f);
      assert k in p <==> Present(es, k);
    }
  }

  lemma {:induction false} ApplyAllReplays(p: Positions, past: seq<Event>, es: seq<Event>)
    requires IsReplay(p, past)
    ensures IsReplay(ApplyAll(p, es), past + es)
    decreases |es|
  {
    if es == [] {
      assert past + es == past;
    } else {
      ApplyReplays(p, past, es[0]);
      ApplyAllReplays(Apply(p, es[0]), past + [es[0]], es[1..]);
      assert past + [es[0]] + es[1..] == past + es;
    }
  }

  lemma {:induction false} ApplyAllAppend(p: Positions, a: seq<Event>, b: seq<Event>)
    ensures ApplyAll(p, a + b) == ApplyAll(ApplyAll(p, a), b)
    decreases |a|
  {
    if a == [] {
      assert a + b == b;
    } else {
      assert (a + b)[1..] == a[1..] + b;
      ApplyAllAppend(Apply(p, a[0]), a[1..], b);
    }
  }

  // ----- Whole runs -----

  /** A positions message: row updates by key, then deletions. */
  datatype Message = Message(updates: seq<(Key, Row)>, deletes: seq<Key>)

  function UpdateEvents(us: seq<(Key, Row)>): seq<Event> {
    seq(|us|, i requires 0 <= i < |us| => Update(us[i].0, us[i].1))
  }

  function DeleteEvents(ds: seq<Key>): seq<Event> { seq(|ds|, i requires 0 <= i < |ds| => Delete(ds[i])) }

  function Flatten(m: Message): seq<Event> {
    UpdateEvents(m.updates) + DeleteEvents(m.deletes)
  }

  function EventAt(m: Message, i: nat): Event
    requires i < |m.updates| + |m.deletes|
  {
    if i < |m.updates| then Update(m.updates[i].0, m.updates[i].1) else Delete(m.deletes[i - |m.updates|])
  }

  lemma NextEvent(p: Positions, m: Message, i: nat)
    requires i < |m.updates| + |m.deletes|
    ensures var es, e := Flatten(m), EventAt(m, i);
      && |es| == |m.updates| + |m.deletes|
      && Handle(p, es[i..]) == if Raises(p, e) then (Apply(p, e), true) else Handle(Apply(p, e), es[i + 1..])
  {
    var es := Flatten(m);
    assert es[i..][0] == EventAt(m, i) && es[i..][1..] == es[i + 1..];
  }

  /** The map after the first `i` events of a message. */
  function After(p: Positions, m: Message, i: nat): Positions
    requires i <= |m.updates| + |m.deletes|
  {
    if i == 0 then p else Apply(After(p, m, i - 1), EventAt(m, i - 1))
  }

  lemma AllAfter(p: Positions, m: Message)
    ensures After(p, m, |m.updates| + |m.deletes|) == ApplyAll(p, Flatten(m))
  {
    AfterIsApplyAll(p, m, |m.updates| + |m.deletes|);
    assert Flatten(m)[..|m.updates| + |m.deletes|] == Flatten(m);
  }

  lemma {:induction false} AfterIsApplyAll(p: Positions, m: Message, i: nat)
    requires i <= |m.updates| + |m.deletes|
    ensures After(p, m, i) == ApplyAll(p, Flatten(m)[..i])
  {
    if i > 0 {
      var es := Flatten(m);
      AfterIsApplyAll(p, m, i - 1);
      assert es[..i] == es[..i - 1] + [EventAt(m, i - 1)];
      ApplyAllAppend(p, es[..i - 1], [EventAt(m, i - 1)]);
      assert [EventAt(m, i - 1)][1..] == [];
    }
  }

  /** All events the tracker gets through over a run; a raise drops the rest of its message only. */
  function HandledRun(p: Positions, ms: seq<Message>): seq<Event>
    decreases |ms|
  {
    if ms == [] then []
    else
      var h := Handled(p, Flatten(ms[0]));
      h + HandledRun(ApplyAll(p, h), ms[1..])
  }

  function TrackerRun(p: Positions, ms: seq<Message>): Positions
    decreases |ms|
  {
    if ms == [] then p else TrackerRun(ApplyAll(p, Handled(p, Flatten(ms[0]))), ms[1..])
  }

  function AllEvents(ms: seq<Message>): seq<Event>
    decreases |ms|
  {
    if ms == [] then [] else Flatten(ms[0]) + AllEvents(ms[1..])
  }

  /** The executor's copy swallows the conversion error and goes on. */
  function ExecutorRun(p: Positions, ms: seq<Message>): Positions
    decreases |ms|
  {
    if ms == [] then p else ExecutorRun(ApplyAll(p, Flatten(ms[0])), ms[1..])
  }

  lemma {:induction false} TrackerRunIsFold(p: Positions, ms: seq<Message>)
    ensures TrackerRun(p, ms) == ApplyAll(p, HandledRun(p, ms))
    decreases |ms|
  {
    if ms != [] {
      var h := Handled(p, Flatten(ms[0]));
      TrackerRunIsFold(ApplyAll(p, h), ms[1..]);
      ApplyAllAppend(p, h, HandledRun(ApplyAll(p, h), ms[1..]));
    }
  }

  lemma {:induction false} ExecutorRunIsFold(p: Positions, ms: seq<Message>)
    ensures ExecutorRun(p, ms) == ApplyAll(p, AllEvents(ms))
    decreases |ms|
  {
    if ms != [] {
      ExecutorRunIsFold(ApplyAll(p, Flatten(ms[0])), ms[1..]);
      ApplyAllAppend(p, Flatten(ms[0]), AllEvents(ms[1..]));
    }
  }

  /** After any message sequence, malformed ones included, the tracker's map is field by field the
      last write since each key's last close, over the events it got through. */
  lemma TrackerReplays(ms: seq<Message>, k: Key, f: string)
    ensures k in TrackerRun(map[], ms) <==> Present(HandledRun(map[], ms), k)
    ensures Lookup(TrackerRun(map[], ms), k, f) == LastWrite(HandledRun(map[], ms), k, f)
    ensures NoZeroMargin(TrackerRun(map[], ms))
  {
    TrackerRunIsFold(map[], ms);
    ApplyAllReplays(map[], [], HandledRun(map[], ms));
    assert [] + HandledRun(map[], ms) == HandledRun(map[], ms);
  }

  /** And so is the executor's, over all events. */
  lemma ExecutorReplays(ms: seq<Message>, k: Key, f: string)
    ensures k in ExecutorRun(map[], ms) <==> Present(AllEvents(ms), k)
    ensures Lookup(ExecutorRun(map[], ms), k, f) == LastWrite(AllEvents(ms), k, f)
  {
    ExecutorRunIsFold(map[], ms);
    ApplyAllReplays(map[], [], AllEvents(ms));
    assert [] + AllEvents(ms) == AllEvents(ms);
  }

  predicate Readable(es: seq<Event>) {
    forall i :: 0 <= i < |es| && es[i].Update? && MARGIN in es[i].fields ==> es[i].fields[MARGIN] != Junk
  }

  predicate ReadableMargins(p: Positions) {
    forall k :: k in p ==> MarginOf(p[k]) != Junk
  }

  lemma {:induction false} ReadableIsHandled(p: Positions, es: seq<Event>)
    requires ReadableMargins(p) && Readable(es)
    ensures Handled(p, es) == es && ReadableMargins(ApplyAll(p, es))
    decreases |es|
  {
    if es != [] { ReadableIsHandled(Apply(p, es[0]), es[1..]); }
  }

  /** On messages whose margins can be read the two copies of the merge compute the same map. */
  lemma {:induction false} CopiesAgree(p: Positions, ms: seq<Message>)
    requires ReadableMargins(p) && forall i :: 0 <= i < |ms| ==> Readable(Flatten(ms[i]))
    ensures TrackerRun(p, ms) == ExecutorRun(p, ms)
    decreases |ms|
  {
    if ms != [] {
      ReadableIsHandled(p, Flatten(ms[0]));
      CopiesAgree(ApplyAll(p, Flatten(ms[0])), ms[1..]);
    }
  }

  // ----- When a raise makes no difference -----

  function RowAt(p: Positions, k: Key): Option<Row> { if k in p then Some(p[k]) else None }

  /** A message's updates are one JSON object. */
  predicate DistinctKeys(us: seq<(Key, Row)>) { forall i, j :: 0 <= i < j < |us| ==> us[i].0 != us[j].0 }

  lemma {:induction false} UntouchedByUpdates(p: Positions, us: seq<(Key, Row)>, k: Key)
    requires forall i :: 0 <= i < |us| ==> us[i].0 != k
    ensures RowAt(ApplyAll(p, UpdateEvents(us)), k) == RowAt(p, k)
    decreases |us|
  {
    if us != [] {
      assert UpdateEvents(us)[1..] == UpdateEvents(us[1..]);
      UntouchedByUpdates(Apply(p, Update(us[0].0, us[0].1)), us[1..], k);
    }
  }

  lemma {:induction false} OwnUpdateOnly(p: Positions, us: seq<(Key, Row)>, i: nat)
    requires DistinctKeys(us) && i < |us|
    ensures RowAt(ApplyAll(p, UpdateEvents(us)), us[i].0) == RowAt(Apply(p, Update(us[i].0, us[i].1)), us[i].0)
    decreases |us|
  {
    var p1 := Apply(p, Update(us[0].0, us[0].1));
    assert UpdateEvents(us)[1..] == UpdateEvents(us[1..]);
    if i == 0 {
      UntouchedByUpdates(p1, us[1..], us[0].0);
    } else {
      OwnUpdateOnly(p1, us[1..], i - 1);
      assert us[1..][i - 1] == us[i];
    }
  }

  lemma {:induction false} DeletesDelete(p: Positions, ds: seq<Key>, k: Key)
    ensures RowAt(ApplyAll(p, DeleteEvents(ds)), k) == if k in ds then None else RowAt(p, k)
    decreases |ds|
  {
    if ds != [] {
      assert DeleteEvents(ds)[1..] == DeleteEvents(ds[1..]);
      DeletesDelete(p - {ds[0]}, ds[1..], k);
      assert k in ds <==> k == ds[0] || k in ds[1..];
    }
  }

  /** The update writes nothing new into the key's row; on a key without a row, one that is dropped at
      once for its zero margin. */
  predicate LeavesRow(p: Positions, k: Key, fields: Row) {
    if k in p then p[k] + fields == p[k] && MarginOf(p[k]) != Num(0.0) else MarginOf(fields) == Num(0.0)
  }

  /** No delete names a row that is there, and every update of a key that is not deleted leaves its row. */
  predicate Changeless(p: Positions, us: seq<(Key, Row)>, ds: seq<Key>) {
    && (forall k :: k in ds ==> k !in p)
    && (forall i :: 0 <= i < |us| && us[i].0 !in ds ==> LeavesRow(p, us[i].0, us[i].1))
  }

  lemma LeavesRowIff(p: Positions, k: Key, fields: Row)
    ensures RowAt(Apply(p, Update(k, fields)), k) == RowAt(p, k) <==> LeavesRow(p, k, fields)
  {
    assert map[] + fields == fields;
  }

  lemma RowAfterAll(p: Positions, us: seq<(Key, Row)>, ds: seq<Key>, k: Key)
    ensures RowAt(ApplyAll(p, UpdateEvents(us) + DeleteEvents(ds)), k) ==
            if k in ds then None else RowAt(ApplyAll(p, UpdateEvents(us)), k)
  {
    ApplyAllAppend(p, UpdateEvents(us), DeleteEvents(ds));
    DeletesDelete(ApplyAll(p, UpdateEvents(us)), ds, k);
  }

  lemma SameRows(p: Positions, q: Positions)
    ensures p == q <==> forall k :: RowAt(p, k) == RowAt(q, k)
  {
    if forall k :: RowAt(p, k) == RowAt(q, k) {
      assert forall k :: (k in p <==> k in q) by {
        forall k ensures k in p <==> k in q { assert RowAt(p, k) == RowAt(q, k); }
      }
      assert forall k :: k in p ==> p[k] == q[k] by {
        forall k | k in p ensures p[k] == q[k] { assert RowAt(p, k) == RowAt(q, k); }
      }
    }
  }

  /** Updates with distinct keys, then deletes, leave the map as it is exactly when they are changeless. */
  lemma NothingChangesIff(p: Positions, us: seq<(Key, Row)>, ds: seq<Key>)
    requires DistinctKeys(us)
    ensures ApplyAll(p, UpdateEvents(us) + DeleteEvents(ds)) == p <==> Changeless(p, us, ds)
  {
    var q := ApplyAll(p, UpdateEvents(us) + DeleteEvents(ds));
    SameRows(q, p);
    if Changeless(p, us, ds) {
      forall k ensures RowAt(q, k) == RowAt(p, k) { ChangelessRow(p, us, ds, k); }
    }
    if q == p {
      forall k | k in ds ensures k !in p { RowAfterAll(p, us, ds, k); }
      forall i | 0 <= i < |us| && us[i].0 !in ds ensures LeavesRow(p, us[i].0, us[i].1) {
        RowAfterAll(p, us, ds, us[i].0);
        OwnUpdateOnly(p, us, i);
        LeavesRowIff(p, us[i].0, us[i].1);
      }
    }
  }

  lemma ChangelessRow(p: Positions, us: seq<(Key, Row)>, ds: seq<Key>, k: Key)
    requires DistinctKeys(us) && Changeless(p, us, ds)
    ensures RowAt(ApplyAll(p, UpdateEvents(us) + DeleteEvents(ds)), k) == RowAt(p, k)
  {
    RowAfterAll(p, us, ds, k);
    if k !in ds {
      if i :| 0 <= i < |us| && us[i].0 == k {
        OwnUpdateOnly(p, us, i);
        LeavesRowIff(p, k, us[i].1);
      } else {
        UntouchedByUpdates(p, us, k);
      }
    }
  }

  lemma {:induction false} OnlyUpdatesRaise(p: Positions, m: Message, i: nat)
    requires i <= |m.updates| + |m.deletes|
    ensures var r := Handled(p, Flatten(m)[i..]);
      && (Handle(p, Flatten(m)[i..]).1 ==> 0 < |r| && i + |r| <= |m.updates|)
    decreases |m.updates| + |m.deletes| - i
  {
    if i < |m.updates| + |m.deletes| {
      var es := Flatten(m);
      NextEvent(p, m, i);
      assert es[i..][0] == EventAt(m, i) && es[i..][1..] == es[i + 1..];
      if !Raises(p, EventAt(m, i)) { OnlyUpdatesRaise(Apply(p, EventAt(m, i)), m, i + 1); }
    }
  }

  /** On one message the two copies agree exactly when nothing raised, or what follows the raising update
      changes nothing: the deletes name no row, and each later update of a key that is not deleted leaves
      its row, as the rows are after the raise. */
  lemma MessageAgreesIff(p: Positions, m: Message)
    requires DistinctKeys(m.updates)
    ensures var es := Flatten(m);
      var (seen, raised) := Handle(p, es);
      seen == ApplyAll(p, es) <==>
        (raised ==> |Handled(p, es)| <= |m.updates| && Changeless(seen, m.updates[|Handled(p, es)|..], m.deletes))
  {
    var es := Flatten(m);
    var (seen, raised) := Handle(p, es);
    HandleAppliesHandled(p, es);
    if raised {
      var n := |Handled(p, es)|;
      assert es[0..] == es;
      OnlyUpdatesRaise(p, m, 0);
      var us := m.updates[n..];
      assert es == es[..n] + es[n..] && Handled(p, es) == es[..n];
      assert es[n..] == UpdateEvents(us) + DeleteEvents(m.deletes);
      ApplyAllAppend(p, es[..n], es[n..]);
      NothingChangesIff(seen, us, m.deletes);
    }
  }

  /** On an unreadable margin they part: the tracker never sees the rest of the message. */
  lemma JunkMarginSplitsTheCopies(k: Key, other: Key)
    requires k != other
    ensures var m := Message([(k, map[MARGIN := Junk]), (other, map[MARGIN := Num(5.0)])], []);
      other in ExecutorRun(map[], [m]) && other !in TrackerRun(map[], [m])
  {
    var m := Message([(k, map[MARGIN := Junk]), (other, map[MARGIN := Num(5.0)])], []);
    var es := Flatten(m);
    assert es == [Update(k, map[MARGIN := Junk]), Update(other, map[MARGIN := Num(5.0)])];
    assert [m][1..] == [];
    assert Handled(map[], es) == [es[0]];
    assert ApplyAll(map[], es) == Apply(Apply(map[], es[0]), es[1]) by {
      ApplyAllAppend(map[], [es[0]], [es[1]]);
      assert es == [es[0]] + [es[1]] && [es[0]][1..] == [] && [es[1]][1..] == [];
    }
    assert ApplyAll(map[], [es[0]]) == Apply(map[], es[0]) by { assert [es[0]][1..] == []; }
    assert map[] + map[MARGIN := Num(5.0)] == map[MARGIN := Num(5.0)];
    assert map[] + map[MARGIN := Junk] == map[MARGIN := Junk];
  }

  /** The answer of `has_position`, or the error of converting a null or unreadable margin. */
  datatype Answer = Answer(held: bool) | TypeError

  function HasPosition(p: Positions, k: Key): Answer {
    if k !in p then Answer(false)
    else if MARGIN !in p[k] then Answer(false)
    else match p[k][MARGIN]
      case Num(v) => Answer(v > 0.0)
      case _ => TypeError
  }

  /** `has_position` holds exactly when the last margin received since the key's last close is positive, which
      with nonnegative margins means that one was received; it raises exactly on a null or unreadable one. */
  lemma HasPositionMeansMargin(ms: seq<Message>, k: Key)
    ensures var margin := LastWrite(HandledRun(map[], ms), k, "initMarginReserved");
      var a := HasPosition(TrackerRun(map[], ms), k);
      && (a == Answer(true) <==> exists v :: margin == Some(Num(v)) && v > 0.0)
      && ((forall v :: margin == Some(Num(v)) ==> v >= 0.0) ==>
            (a == Answer(true) <==> exists v :: margin == Some(Num(v))))
      && (a == TypeError <==> margin in {Some(Null), Some(Junk)})
  {
    TrackerReplays(ms, k, MARGIN);
    var p := TrackerRun(map[], ms);
    if k in p && MARGIN in p[k] {
      assert Lookup(p, k, MARGIN) == Some(p[k][MARGIN]);
    }
  }

  const POSITION := "position"
  const AVG_ENTRY := "avgEntryPrice"

  datatype Holding = Holding(long: bool, quantity: real, entry: real)

  /** The side, size and entry price last reported since the key's last close; None when either field
      has not been received, cannot be read, or the size is zero. */
  lemma HoldingIsLastReported(ms: seq<Message>, k: Key)
    ensures var position := LastWrite(HandledRun(map[], ms), k, "position");
      var entry := LastWrite(HandledRun(map[], ms), k, "avgEntryPrice");
      match HoldingOf(TrackerRun(map[], ms), k)
      case Some(h) =>
        && position == Some(Num(if h.long then h.quantity else -h.quantity)) && entry == Some(Num(h.entry))
        && h.quantity > 0.0
      case None => !(exists q, e :: position == Some(Num(q)) && q != 0.0 && entry == Some(Num(e)))
  {
    TrackerReplays(ms, k, POSITION);
    TrackerReplays(ms, k, AVG_ENTRY);
  }

  function HoldingOf(p: Positions, k: Key): Option<Holding> {
    match (Lookup(p, k, POSITION), Lookup(p, k, AVG_ENTRY))
    case (Some(Num(q)), Some(Num(e))) => if q == 0.0 then None else Some(Holding(q > 0.0, Abs(q), e))
    case _ => None
  }

  // ----- The tracker -----

  class Tracker {
    var positions: Positions

    constructor ()
      ensures positions == map[]
    {
      positions := map[];
    }

    /** The WebSocket tracker: a conversion error leaves the merged row and ends the message. */
    method Process(m: Message) returns (raised: bool)
      modifies this
      ensures (positions, raised) == Handle(old(positions), Flatten(m))
    {
      ghost var es := Flatten(m);
      ghost var start := positions;
      var n := |m.updates|;
      for i := 0 to n
        invariant Handle(start, es) == Handle(positions, es[i..])
      {
        var (k, fields) := m.updates[i];
        NextEvent(positions, m, i);
        var row := (if k in positions then positions[k] else map[]) + fields;
        var margin := MarginOf(row);
        if margin == Junk {
          positions := positions[k := row];
          return true;
        }
        if margin == Num(0.0) { positions := positions - {k}; } else { positions := positions[k := row]; }
      }
      for j := n to n + |m.deletes|
        invariant Handle(start, es) == Handle(positions, es[j..])
      {
        NextEvent(positions, m, j);
        positions := positions - {m.deletes[j - n]};
      }
      assert es[n + |m.deletes|..] == [];
      raised := false;
    }

    /** One update of the executor's copy: merge, then drop the row if its margin is now zero. */
    method MergeSwallowing(k: Key, fields: Row)
      modifies this
      ensures positions == Apply(old(positions), Update(k, fields))
    {
      var row := (if k in positions then positions[k] else map[]) + fields;
      positions := positions[k := row];
      if MarginOf(row) == Num(0.0) { positions := positions - {k}; }
    }

    /** The executor's copy: conversion errors are ignored. */
    method ProcessSwallowing(m: Message)
      modifies this
      ensures positions == ApplyAll(old(positions), Flatten(m))
    {
      ghost var start := positions;
      for i := 0 to |m.updates|
        invariant positions == After(start, m, i)
      {
        MergeSwallowing(m.updates[i].0, m.updates[i].1);
      }
      DropRows(m, start);
      AllAfter(start, m);
    }

    method DropRows(m: Message, ghost start: Positions)
      requires positions == After(start, m, |m.updates|)
      modifies this
      ensures positions == After(start, m, |m.updates| + |m.deletes|)
    {
      var n := |m.updates|;
      for j := n to n + |m.deletes|
        invariant positions == After(start, m, j)
      {
        positions := positions - {m.deletes[j - n]};
      }
    }

    method Holds(k: Key) returns (a: Answer)
      ensures a == HasPosition(positions, k)
    {
      if k !in positions { return Answer(false); }
      if MARGIN !in positions[k] { return Answer(false); }
      match positions[k][MARGIN]
      case Num(v) => return Answer(v > 0.0);
      case _ => return TypeError;
    }

    method SideQtyEntry(k: Key) returns (h: Option<Holding>)
      ensures h == HoldingOf(positions, k)
    {
      if k !in positions || POSITION !in positions[k] || AVG_ENTRY !in positions[k] { return None; }
      var position, entry := positions[k][POSITION], positions[k][AVG_ENTRY];
      if position == Null || entry == Null { return None; }
      if position == Junk || entry == Junk { return None; }
      if position.value == 0.0 { return None; }
      return Some(Holding(position.value > 0.0, Abs(position.value), entry.value));
    }
  }
}
