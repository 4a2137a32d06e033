/** The spread chart's two-pointer join of Binance ticks with the last Flipster tick at or before them. */
module AsOfJoin {
  import opened Common

  datatype Tick = Tick(t: int, mid: real)

  datatype Point = Point(t: int, bp: real)

  predicate TimeSorted(s: seq<Tick>) { forall i, j :: 0 <= i < j < |s| ==> s[i].t <= s[j].t }

  /** `f[k]` is at or before `t` and its successor, if any, is after. */
  predicate LastAt(f: seq<Tick>, t: int, k: nat) {
    k < |f| && f[k].t <= t && (k + 1 < |f| ==> f[k + 1].t > t)
  }

  /** The last tick of `f` at or before time `t`, looked up from scratch. */
  function AsOf(f: seq<Tick>, t: int): Option<Tick> {
    if f == [] then None
    else if f[|f| - 1].t <= t then Some(f[|f| - 1])
    else AsOf(f[..|f| - 1], t)
  }

  function SpreadBp(bm: real, fm: real): real
    requires bm != 0.0
  {
    (fm - bm) / bm * 10000.0
  }

  /** What one Binance tick contributes. */
  function Emitted(b: Tick, f: seq<Tick>): seq<Point> {
    match AsOf(f, b.t)
    case None => []
    case Some(x) => if b.mid > 0.0 && x.mid > 0.0 then [Point(b.t, SpreadBp(b.mid, x.mid))] else []
  }

  function Join(b: seq<Tick>, f: seq<Tick>): seq<Point> {
    if b == [] then [] else Join(b[..|b| - 1], f) + Emitted(b[|b| - 1], f)
  }

  lemma {:induction false} LastAtOrBefore(f: seq<Tick>, t: int)
    requires AsOf(f, t).Some?
    ensures exists k: nat :: LastAt(f, t, k) && AsOf(f, t) == Some(f[k])
    decreases |f|
  {
    var n := |f| - 1;
    if f[n].t > t {
      LastAtOrBefore(f[..n], t);
      var k: nat :| LastAt(f[..n], t, k) && AsOf(f, t) == Some(f[..n][k]);
      assert LastAt(f, t, k);
    } else {
      assert LastAt(f, t, n);
    }
  }

  lemma {:induction false} NoneIsNone(f: seq<Tick>, t: int)
    ensures AsOf(f, t).None? <==> forall i :: 0 <= i < |f| ==> f[i].t > t
    decreases |f|
  {
    if f != [] {
      NoneIsNone(f[..|f| - 1], t);
    }
  }

  lemma LastAtUnique(f: seq<Tick>, t: int, j: nat, k: nat)
    requires TimeSorted(f) && LastAt(f, t, j) && LastAt(f, t, k)
    ensures j == k
  {}

  lemma LastIsAsOf(f: seq<Tick>, t: int, k: nat)
    requires TimeSorted(f) && LastAt(f, t, k)
    ensures AsOf(f, t) == Some(f[k])
  {
    NoneIsNone(f, t);
    LastAtOrBefore(f, t);
    var j: nat :| LastAt(f, t, j) && AsOf(f, t) == Some(f[j]);
    LastAtUnique(f, t, j, k);
  }

  /** `AsOf` on a sorted feed: nothing at or before `t`, or the tick after which everything is later. */
  lemma AsOfMeaning(f: seq<Tick>, t: int)
    requires TimeSorted(f)
    ensures AsOf(f, t).None? <==> forall i :: 0 <= i < |f| ==> f[i].t > t
    ensures forall k: nat :: LastAt(f, t, k) ==> AsOf(f, t) == Some(f[k])
  {
    NoneIsNone(f, t);
    forall k: nat | LastAt(f, t, k) ensures AsOf(f, t) == Some(f[k]) { LastIsAsOf(f, t, k); }
  }

  /** Flipster ticks later than every Binance tick never change the chart. */
  lemma {:induction false} LateTicksChangeNothing(b: seq<Tick>, f: seq<Tick>, later: seq<Tick>)
    requires forall i, j :: 0 <= i < |b| && 0 <= j < |later| ==> b[i].t < later[j].t
    ensures Join(b, f + later) == Join(b, f)
    decreases |b|
  {
    if b != [] {
      LateTicksChangeNothing(b[..|b| - 1], f, later);
      AsOfIgnoresLater(f, later, b[|b| - 1].t);
    }
  }

  lemma {:induction false} AsOfIgnoresLater(f: seq<Tick>, later: seq<Tick>, t: int)
    requires forall j :: 0 <= j < |later| ==> t < later[j].t
    ensures AsOf(f + later, t) == AsOf(f, t)
    decreases |later|
  {
    if later == [] {
      assert f + later == f;
    } else {
      var g := f + later;
      assert g[|g| - 1] == later[|later| - 1];
      assert g[..|g| - 1] == f + later[..|later| - 1];
      AsOfIgnoresLater(f, later[..|later| - 1], t);
    }
  }

  /** Points come out in tick order, one at most per Binance tick, each with the time of its tick. */
  lemma {:induction false} JoinIsOrdered(b: seq<Tick>, f: seq<Tick>)
    requires TimeSorted(b)
    ensures |Join(b, f)| <= |b|
    ensures forall i, j :: 0 <= i < j < |Join(b, f)| ==> Join(b, f)[i].t <= Join(b, f)[j].t
    ensures forall i :: 0 <= i < |Join(b, f)| ==> b != [] && Join(b, f)[i].t <= b[|b| - 1].t
    decreases |b|
  {
    if b != [] {
      JoinIsOrdered(b[..|b| - 1], f);
    }
  }

  /** A tick appears exactly when a Flipster tick at or before it exists and both mids are positive. */
  lemma EmittedIff(b: Tick, f: seq<Tick>)
    requires TimeSorted(f)
    ensures Emitted(b, f) != [] <==>
      exists k: nat :: LastAt(f, b.t, k) && b.mid > 0.0 && f[k].mid > 0.0
  {
    AsOfMeaning(f, b.t);
    if AsOf(f, b.t).Some? {
      LastAtOrBefore(f, b.t);
    }
  }

  /** `p` is the point of Binance tick `b` and Flipster tick `x`: its time, and how far the Flipster mid is
      above the Binance mid in basis points of the latter. */
  predicate PointOf(p: Point, b: Tick, x: Tick) {
    p.t == b.t && b.mid > 0.0 && x.mid > 0.0 && p.bp * b.mid == 10000.0 * (x.mid - b.mid)
  }

  /** Tick `i` of the one feed and tick `k` of the other, the last at or before it, give the point. */
  predicate Pairs(p: Point, b: seq<Tick>, f: seq<Tick>, i: nat, k: nat) {
    i < |b| && LastAt(f, b[i].t, k) && PointOf(p, b[i], f[k])
  }

  lemma SpreadTimes(bm: real, fm: real, bp: real)
    requires bm > 0.0
    ensures bp == SpreadBp(bm, fm) <==> bp * bm == 10000.0 * (fm - bm)
  {
    var x := (fm - bm) / bm;
    assert x * bm == fm - bm;
    if bp * bm == 10000.0 * (fm - bm) { assert (bp - x * 10000.0) * bm == 0.0; }
  }

  lemma EmittedOne(b: Tick, x: Tick, p: Point)
    ensures PointOf(p, b, x) <==> b.mid > 0.0 && x.mid > 0.0 && p == Point(b.t, SpreadBp(b.mid, x.mid))
  {
    if b.mid > 0.0 { SpreadTimes(b.mid, x.mid, p.bp); }
  }

  lemma EmittedMeaning(b: Tick, f: seq<Tick>, p: Point)
    requires TimeSorted(f)
    ensures p in Emitted(b, f) <==> exists k: nat :: LastAt(f, b.t, k) && PointOf(p, b, f[k])
  {
    AsOfMeaning(f, b.t);
    if AsOf(f, b.t).Some? {
      LastAtOrBefore(f, b.t);
      EmittedOne(b, AsOf(f, b.t).value, p);
    }
  }

  /** The chart has a point exactly for the pairs of ticks that give one. */
  lemma {:induction false} JoinMeaning(b: seq<Tick>, f: seq<Tick>, p: Point)
    requires TimeSorted(f)
    ensures p in Join(b, f) <==> exists i: nat, k: nat :: Pairs(p, b, f, i, k)
    decreases |b|
  {
    if b != [] {
      var n := |b| - 1;
      JoinMeaning(b[..n], f, p);
      EmittedMeaning(b[n], f, p);
      if p in Join(b[..n], f) {
        var i: nat, k: nat :| Pairs(p, b[..n], f, i, k);
        assert Pairs(p, b, f, i, k);
      } else if p in Emitted(b[n], f) {
        var k: nat :| LastAt(f, b[n].t, k) && PointOf(p, b[n], f[k]);
        assert Pairs(p, b, f, n, k);
      }
      if i: nat, k: nat :| Pairs(p, b, f, i, k) {
        assert if i == n then LastAt(f, b[n].t, k) && PointOf(p, b[n], f[k]) else Pairs(p, b[..n], f, i, k);
      }
    }
  }

  /** The two-pointer scan computes the join on sorted feeds, and its pointer moves forward at most
      |f| - 1 times in all; an empty feed on either side gives an empty chart. */
  method ComputeSpread(b: seq<Tick>, f: seq<Tick>) returns (points: seq<Point>, ghost moves: nat)
    requires TimeSorted(b) && TimeSorted(f)
    ensures points == Join(b, f)
    ensures moves <= if f == [] then 0 else |f| - 1
  {
    points, moves := [], 0;
    if |b| == 0 || |f| == 0 {
      JoinEmpty(b, f);
      return;
    }
    var fi := 0;
    for i := 0 to |b|
      invariant fi < |f| && moves == fi
      invariant fi > 0 && i < |b| ==> f[fi].t <= b[i].t
      invariant points == Join(b[..i], f)
    {
      while fi + 1 < |f| && f[fi + 1].t <= b[i].t
        invariant fi < |f| && moves == fi
        invariant fi > 0 ==> f[fi].t <= b[i].t
      {
        fi, moves := fi + 1, moves + 1;
      }
      assert b[..i + 1][..i] == b[..i];
      AsOfMeaning(f, b[i].t);
      if f[fi].t > b[i].t { continue; }
      assert LastAt(f, b[i].t, fi);
      var bm, fm := b[i].mid, f[fi].mid;
      if bm > 0.0 && fm > 0.0 {
        points := points + [Point(b[i].t, SpreadBp(bm, fm))];
      }
    }
    assert b[..|b|] == b;
  }

  lemma {:induction false} JoinEmpty(b: seq<Tick>, f: seq<Tick>)
    requires f == [] || b == []
    ensures Join(b, f) == []
    decreases |b|
  {
    if b != [] {
      JoinEmpty(b[..|b| - 1], f);
    }
  }
}
