/** Latency picking: the cross-book trigger, tick rounding and the entry/take-profit bracket. */
module Bracket {
  import opened Common
  import ContractSizing

  type Symbol = string

  const MAX_WEB_AGE_MS := 5000.0
  const ORDERBOOK_STALE_DIVERGE_BP := 2.0
  const ENTRY_MAX_SPREAD_BP := 6.0
  const MAX_CROSS_BP := 20.0

  datatype Side = Buy | Sell

  datatype Direction = Up | Down | Near

  // ----- Tick rounding -----

  /** Python's `int` of a float: truncation towards zero. */
  function Trunc(x: real): int { if x >= 0.0 then x.Floor else -((-x).Floor) }

  predicate HasTick(tick: Option<real>) { tick.Some? && tick.value > 0.0 }

  function Units(n: real, d: Direction): int {
    match d
    case Up => Trunc(n) + if n > Trunc(n) as real then 1 else 0
    case Down => Trunc(n)
    case Near => ContractSizing.RoundHalfEven(n)
  }

  function Line(k: int, t: real): real { k as real * t }

  function TickRound(tick: Option<real>, price: real, d: Direction): real {
    if !HasTick(tick) then price else Line(Units(price / tick.value, d), tick.value)
  }

  ghost predicate OnGrid(tick: Option<real>, price: real) {
    HasTick(tick) ==> exists k: int :: price == Line(k, tick.value)
  }

  /** `b - a` is less than one tick, and zero when there is no tick. */
  predicate WithinTick(tick: Option<real>, a: real, b: real) {
    if HasTick(tick) then 0.0 <= b - a < tick.value else a == b
  }

  lemma SignOfProduct(d: real, t: real)
    requires t > 0.0
    ensures d > 0.0 ==> d * t > 0.0
    ensures d < 0.0 ==> d * t < 0.0
  {}

  lemma Ordered(x: real, y: real, t: real, xt: real, yt: real)
    requires t > 0.0 && xt == x * t && yt == y * t
    ensures x <= y ==> xt <= yt
  {
    assert (y - x) * t == yt - xt;
    SignOfProduct(y - x, t);
  }

  lemma Near1(x: real, y: real, t: real, xt: real, yt: real)
    requires t > 0.0 && xt == x * t && yt == y * t
    ensures x - y < 1.0 ==> xt - yt < t
  {
    Ordered(x, y + 1.0, t, xt, (y + 1.0) * t);
    assert (y + 1.0) * t == yt + t;
    if x - y < 1.0 {
      SignOfProduct(y + 1.0 - x, t);
      assert (y + 1.0 - x) * t == (y + 1.0) * t - xt;
    }
  }

  lemma Scale(n: real, k: int, price: real, t: real)
    requires t > 0.0 && price == n * t
    ensures k as real <= n ==> Line(k, t) <= price
    ensures k as real >= n ==> Line(k, t) >= price
    ensures k as real - n < 1.0 ==> Line(k, t) - price < t
    ensures n - k as real < 1.0 ==> price - Line(k, t) < t
  {
    Ordered(k as real, n, t, Line(k, t), price);
    Ordered(n, k as real, t, price, Line(k, t));
    Near1(k as real, n, t, Line(k, t), price);
    Near1(n, k as real, t, price, Line(k, t));
  }

  lemma RoundsOnGrid(tick: Option<real>, price: real, d: Direction)
    ensures OnGrid(tick, TickRound(tick, price, d))
  {
    if HasTick(tick) {
      assert TickRound(tick, price, d) == Line(Units(price / tick.value, d), tick.value);
    }
  }

  /** Rounding up never lowers a price, whatever its sign, and moves it by less than a tick. */
  lemma RoundsUp(tick: Option<real>, price: real)
    ensures OnGrid(tick, TickRound(tick, price, Up)) && WithinTick(tick, price, TickRound(tick, price, Up))
  {
    RoundsOnGrid(tick, price, Up);
    if HasTick(tick) {
      var n := price / tick.value;
      assert price == n * tick.value;
      Scale(n, Units(n, Up), price, tick.value);
    }
  }

  /** Rounding down truncates, so it lowers (or keeps) a price, by less than a tick, unless the price
      is negative; there it raises everything that is off the grid. */
  lemma RoundsDownIff(tick: Option<real>, price: real)
    ensures OnGrid(tick, TickRound(tick, price, Down))
    ensures WithinTick(tick, TickRound(tick, price, Down), price) <==> price >= 0.0 || OnGrid(tick, price)
  {
    RoundsOnGrid(tick, price, Down);
    if HasTick(tick) {
      var t, n := tick.value, price / tick.value;
      var k := Units(n, Down);
      assert price == n * t;
      Scale(n, k, price, t);
      Scale(n, 0, price, t);
      if price < 0.0 {
        assert n < 0.0;
        assert k as real >= n;
        if OnGrid(tick, price) {
          var m: int :| price == Line(m, t);
          ContractSizing.CancelFactor(n, m as real, t);
        }
      }
    }
  }

  // ----- The smoothed web mid -----

  /** `alpha` is the weight of the new mid, strictly between 0 and 1. */
  function NextEma(prev: Option<real>, mid: real, alpha: real): real {
    if prev.None? || prev.value <= 0.0 then mid else prev.value + alpha * (mid - prev.value)
  }

  function Smoothed(mids: seq<real>, alphas: seq<real>): Option<real>
    requires |alphas| == |mids|
  {
    if mids == [] then None
    else Some(NextEma(Smoothed(mids[..|mids| - 1], alphas[..|mids| - 1]), mids[|mids| - 1], alphas[|mids| - 1]))
  }

  lemma Blend(p: real, m: real, alpha: real, lo: real, hi: real)
    requires lo <= p <= hi && lo <= m <= hi && 0.0 < alpha < 1.0
    ensures lo <= p + alpha * (m - p) <= hi
  {
    Mix(p, m, alpha, lo, hi);
    assert p + alpha * (m - p) == (1.0 - alpha) * p + alpha * m;
  }

  lemma NextInHull(prev: Option<real>, mid: real, alpha: real, lo: real, hi: real)
    requires (prev.Some? ==> lo <= prev.value <= hi) && lo <= mid <= hi && 0.0 < alpha < 1.0
    ensures lo <= NextEma(prev, mid, alpha) <= hi
  {
    if prev.Some? {
      Blend(prev.value, mid, alpha, lo, hi);
    }
  }

  /** Over positive mids the smoothed mid stays between the smallest and the largest of them. */
  lemma {:induction false} SmoothedInHull(mids: seq<real>, alphas: seq<real>, lo: real, hi: real)
    requires |alphas| == |mids| && 0.0 < lo
    requires forall i :: 0 <= i < |mids| ==> lo <= mids[i] <= hi && 0.0 < alphas[i] < 1.0
    ensures mids != [] ==> Smoothed(mids, alphas).Some? && lo <= Smoothed(mids, alphas).value <= hi
    decreases |mids|
  {
    if mids != [] {
      var n := |mids| - 1;
      SmoothedInHull(mids[..n], alphas[..n], lo, hi);
      NextInHull(Smoothed(mids[..n], alphas[..n]), mids[n], alphas[n], lo, hi);
    }
  }

  /** What is left of a distance after ticks with these weights. */
  function Left(distance: real, alphas: seq<real>): real {
    if alphas == [] then distance else (1.0 - alphas[|alphas| - 1]) * Left(distance, alphas[..|alphas| - 1])
  }

  /** The smoothed mid `from` after further ticks, all at `m`. */
  function Tracked(from: real, m: real, alphas: seq<real>): real {
    if alphas == [] then from
    else NextEma(Some(Tracked(from, m, alphas[..|alphas| - 1])), m, alphas[|alphas| - 1])
  }

  lemma NextShrinks(p: real, m: real, alpha: real, d: real)
    requires p > 0.0 && m > 0.0 && 0.0 < alpha < 1.0 && p - m == d
    ensures var x := NextEma(Some(p), m, alpha); x > 0.0 && x - m == (1.0 - alpha) * d
  {
    Blend(p, m, alpha, Min(p, m), Max(p, m));
  }

  /** While the mid stands at `m`, every tick takes its weight's share of the remaining distance to it off
      the smoothed mid. */
  lemma {:induction false} SmoothedConverges(from: real, m: real, alphas: seq<real>)
    requires from > 0.0 && m > 0.0 && forall i :: 0 <= i < |alphas| ==> 0.0 < alphas[i] < 1.0
    ensures Tracked(from, m, alphas) > 0.0 && Tracked(from, m, alphas) - m == Left(from - m, alphas)
    decreases |alphas|
  {
    if alphas != [] {
      var n := |alphas| - 1;
      SmoothedConverges(from, m, alphas[..n]);
      NextShrinks(Tracked(from, m, alphas[..n]), m, alphas[n], Left(from - m, alphas[..n]));
    }
  }

  // ----- The trigger -----

  datatype Ticker = Ticker(mid: real, ts: real)

  datatype Feed = Feed(apiBid: real, apiAsk: real, apiMid: real, apiTs: real,
                       webBid: real, webAsk: real, webTs: real, ticker: Option<Ticker>)

  function WebMid(f: Feed): real { (f.webBid + f.webAsk) / 2.0 }

  /** The gates before the smoothed mid is touched: freshness, agreement with the ticker, spreads. */
  predicate Screened(f: Feed) {
    var mid := WebMid(f);
    var seen := if f.ticker.None? then f.webTs else Max(f.webTs, f.ticker.value.ts);
    var apiSpread := if f.apiMid > 0.0 then (f.apiAsk - f.apiBid) / f.apiMid * 10000.0 else 999.0;
    && mid > 0.0
    && 0.0 <= f.apiTs - seen <= MAX_WEB_AGE_MS
    && (f.ticker.Some? && f.ticker.value.mid > 0.0 ==>
          Abs(f.ticker.value.mid - mid) / mid * 10000.0 <= ORDERBOOK_STALE_DIVERGE_BP)
    && Max((f.webAsk - f.webBid) / mid * 10000.0, apiSpread) <= ENTRY_MAX_SPREAD_BP
  }

  datatype Crossing = Crossing(side: Side, bp: real)

  function Bp(move: real, ema: real): real
    requires ema > 0.0
  {
    move / ema * 10000.0
  }

  function CrossOf(f: Feed, ema: real): Option<Crossing>
    requires ema > 0.0
  {
    if f.apiBid > f.webAsk then Some(Crossing(Buy, Bp(f.apiBid - f.webAsk, ema)))
    else if f.apiAsk < f.webBid then Some(Crossing(Sell, Bp(f.webBid - f.apiAsk, ema)))
    else None
  }

  function Trigger(minEdge: real, f: Feed, ema: real): Option<Side>
    requires ema > 0.0
  {
    var x := CrossOf(f, ema);
    if x.None? || x.value.bp < minEdge || x.value.bp > MAX_CROSS_BP then None else Some(x.value.side)
  }

  predicate WellFormed(f: Feed) { 0.0 < f.apiBid <= f.apiAsk && 0.0 < f.webBid <= f.webAsk }

  function Gap(side: Side, f: Feed): real {
    if side == Buy then f.apiBid - f.webAsk else f.webBid - f.apiAsk
  }

  predicate GapInRange(minEdge: real, gap: real, ema: real) {
    gap > 0.0 && minEdge * ema / 10000.0 <= gap <= MAX_CROSS_BP * ema / 10000.0
  }

  lemma BpBound(move: real, ema: real, bp: real)
    requires ema > 0.0
    ensures Bp(move, ema) < bp <==> move < bp * ema / 10000.0
    ensures Bp(move, ema) > bp <==> move > bp * ema / 10000.0
  {
    var q := move / ema;
    assert q * ema == move;
    var d := q - bp / 10000.0;
    assert d * ema == move - bp / 10000.0 * ema;
    assert bp / 10000.0 * ema == bp * ema / 10000.0;
    if d < 0.0 { assert d * ema < 0.0; }
    if d > 0.0 { assert d * ema > 0.0; }
  }

  /** On well-formed books a side is triggered exactly when its gap is open and within the edge
      range of the smoothed mid, and never both. */
  lemma TriggerIff(minEdge: real, f: Feed, ema: real, side: Side)
    requires WellFormed(f) && ema > 0.0
    ensures Trigger(minEdge, f, ema) == Some(side) <==> GapInRange(minEdge, Gap(side, f), ema)
    ensures !(Gap(Buy, f) > 0.0 && Gap(Sell, f) > 0.0)
  {
    BpBound(Gap(side, f), ema, minEdge);
    BpBound(Gap(side, f), ema, MAX_CROSS_BP);
  }

  // ----- The bracket -----

  function LimitPrice(tick: Option<real>, side: Side, f: Feed): real {
    if side == Buy then TickRound(tick, f.webAsk, Down) else TickRound(tick, f.webBid, Up)
  }

  function TargetPrice(tick: Option<real>, side: Side, f: Feed): real {
    if side == Buy then TickRound(tick, f.apiAsk, Up) else TickRound(tick, f.apiBid, Down)
  }

  /** What a sound bracket is: limit and target on the grid, within a tick of their source price, on
      the far sides of the gap, and at least the minimum edge apart. */
  ghost predicate Sound(minEdge: real, tick: Option<real>, side: Side, f: Feed, ema: real, limit: real, target: real) {
    && OnGrid(tick, limit) && OnGrid(tick, target)
    && (side == Buy ==>
          && limit <= f.webAsk < f.apiBid <= f.apiAsk <= target
          && WithinTick(tick, limit, f.webAsk) && WithinTick(tick, f.apiAsk, target)
          && target - limit >= f.apiBid - f.webAsk >= minEdge * ema / 10000.0)
    && (side == Sell ==>
          && target <= f.apiBid <= f.apiAsk < f.webBid <= limit
          && WithinTick(tick, f.webBid, limit) && WithinTick(tick, target, f.apiBid)
          && limit - target >= f.webBid - f.apiAsk >= minEdge * ema / 10000.0)
  }

  lemma BracketIsSound(minEdge: real, tick: Option<real>, side: Side, f: Feed, ema: real)
    requires WellFormed(f) && ema > 0.0 && Trigger(minEdge, f, ema) == Some(side)
    ensures Sound(minEdge, tick, side, f, ema, LimitPrice(tick, side, f), TargetPrice(tick, side, f))
  {
    TriggerIff(minEdge, f, ema, side);
    if side == Buy {
      RoundsDownIff(tick, f.webAsk);
      RoundsUp(tick, f.apiAsk);
    } else {
      RoundsUp(tick, f.webBid);
      RoundsDownIff(tick, f.apiBid);
    }
  }

  /** The take-profit order is placed only for a positive target: always for a buy, and for a sell
      exactly when the bid is at least one tick. */
  lemma TakeProfitPlacedIff(tick: Option<real>, side: Side, f: Feed)
    requires WellFormed(f)
    ensures TargetPrice(tick, side, f) > 0.0 <==> side == Buy || !HasTick(tick) || f.apiBid >= tick.value
  {
    if side == Buy {
      RoundsUp(tick, f.apiAsk);
    } else if HasTick(tick) {
      var t, n := tick.value, f.apiBid / tick.value;
      assert f.apiBid == n * t;
      Scale(n, 1, f.apiBid, t);
      Scale(n, Units(n, Down), f.apiBid, t);
      if n >= 1.0 {
        assert Units(n, Down) >= 1;
        SignOfProduct(Units(n, Down) as real, t);
      } else {
        assert n * t == f.apiBid;
        assert n >= 0.0;
        assert Units(n, Down) == 0 && Line(0, t) == 0.0;
      }
    }
  }

  /** What closing at the target is credited, in basis points of the fill. */
  function CreditBp(side: Side, fill: real, target: real): real
    requires fill != 0.0
  {
    var move := (target - fill) / fill * 10000.0;
    if side == Sell then -move else move
  }

  /** A fill at the limit or better earns, at the target, at least the measured gap. */
  lemma BracketEarnsTheGap(minEdge: real, tick: Option<real>, side: Side, f: Feed, ema: real, fill: real)
    requires WellFormed(f) && ema > 0.0 && Trigger(minEdge, f, ema) == Some(side)
    requires fill > 0.0
    requires if side == Buy then fill <= LimitPrice(tick, side, f) else fill >= LimitPrice(tick, side, f)
    ensures CreditBp(side, fill, TargetPrice(tick, side, f)) >= Gap(side, f) / fill * 10000.0 > 0.0
  {
    BracketIsSound(minEdge, tick, side, f, ema);
    TriggerIff(minEdge, f, ema, side);
    var target := TargetPrice(tick, side, f);
    var gain := if side == Buy then target - fill else fill - target;
    CreditOfGain(side, fill, target, gain);
    Ratio(Gap(side, f), gain, fill);
  }

  lemma CreditOfGain(side: Side, fill: real, target: real, gain: real)
    requires fill > 0.0 && gain == if side == Buy then target - fill else fill - target
    ensures CreditBp(side, fill, target) == gain / fill * 10000.0
  {}

  lemma Ratio(a: real, b: real, d: real)
    requires 0.0 < a <= b && d > 0.0
    ensures 0.0 < a / d <= b / d
  {}

  // ----- The entry path over whole runs -----

  datatype Position = Position(side: Side, entry: real, target: real)

  /** One opened position with the quotes and smoothed mid that triggered it. */
  datatype Opening = Opening(sym: Symbol, side: Side, f: Feed, ema: real, limit: real, target: real, entry: real)

  datatype World = World(emas: map<Symbol, real>, positions: map<Symbol, Position>, openings: seq<Opening>)

  /** One api tick: the quotes, the weight of the smoothing, whether the remaining filters admit it,
      and the fill reported for the entry order, if any. */
  datatype Event = Tick(sym: Symbol, f: Feed, alpha: real, admitted: bool, fill: Option<real>) | Closed(sym: Symbol)

  function Lookup<V>(m: map<Symbol, V>, k: Symbol): Option<V> { if k in m then Some(m[k]) else None }

  function Step(minEdge: real, ticks: map<Symbol, real>, w: World, e: Event): World {
    match e
    case Closed(s) => w.(positions := w.positions - {s})
    case Tick(s, f, alpha, admitted, fill) =>
      if !Screened(f) then w
      else
        var ema := NextEma(Lookup(w.emas, s), WebMid(f), alpha);
        var w1 := w.(emas := w.emas[s := ema]);
        if s in w.positions || ema <= 0.0 || Trigger(minEdge, f, ema).None? || !admitted || fill.None? then w1
        else Opened(ticks, w1, e, ema, Trigger(minEdge, f, ema).value)
  }

  function Opened(ticks: map<Symbol, real>, w: World, e: Event, ema: real, side: Side): World
    requires e.Tick? && e.fill.Some?
  {
    var limit, target := LimitPrice(Lookup(ticks, e.sym), side, e.f), TargetPrice(Lookup(ticks, e.sym), side, e.f);
    w.(positions := w.positions[e.sym := Position(side, e.fill.value, target)],
       openings := w.openings + [Opening(e.sym, side, e.f, ema, limit, target, e.fill.value)])
  }

  function Run(minEdge: real, ticks: map<Symbol, real>, w: World, evs: seq<Event>): World
    decreases |evs|
  {
    if evs == [] then w else Run(minEdge, ticks, Step(minEdge, ticks, w, evs[0]), evs[1..])
  }

  predicate GoodEvent(e: Event) { e.Tick? ==> WellFormed(e.f) && 0.0 < e.alpha < 1.0 }

  ghost predicate AllSound(minEdge: real, ticks: map<Symbol, real>, os: seq<Opening>) {
    forall i :: 0 <= i < |os| ==>
      Sound(minEdge, Lookup(ticks, os[i].sym), os[i].side, os[i].f, os[i].ema, os[i].limit, os[i].target)
  }

  /** Every live position is one of the openings, with its target. */
  ghost predicate Recorded(w: World) {
    forall s :: s in w.positions ==> exists i :: 0 <= i < |w.openings| && Matches(w.openings[i], s, w.positions[s])
  }

  predicate Matches(o: Opening, s: Symbol, p: Position) {
    o.sym == s && o.side == p.side && o.target == p.target && o.entry == p.entry
  }

  ghost predicate Inv(minEdge: real, ticks: map<Symbol, real>, w: World) {
    && (forall s :: s in w.emas ==> w.emas[s] > 0.0)
    && AllSound(minEdge, ticks, w.openings) && Recorded(w)
  }

  lemma OpenedInv(minEdge: real, ticks: map<Symbol, real>, w: World, e: Event, ema: real)
    requires Inv(minEdge, ticks, w) && e.Tick? && e.fill.Some? && GoodEvent(e)
    requires ema > 0.0 && Trigger(minEdge, e.f, ema).Some?
    ensures Inv(minEdge, ticks, Opened(ticks, w, e, ema, Trigger(minEdge, e.f, ema).value))
  {
    var side := Trigger(minEdge, e.f, ema).value;
    var w1 := Opened(ticks, w, e, ema, side);
    BracketIsSound(minEdge, Lookup(ticks, e.sym), side, e.f, ema);
    var n := |w.openings|;
    assert w1.openings[..n] == w.openings;
    forall s | s in w1.positions
      ensures exists i :: 0 <= i < |w1.openings| && Matches(w1.openings[i], s, w1.positions[s])
    {
      if s == e.sym {
        assert Matches(w1.openings[n], s, w1.positions[s]);
      } else {
        var i :| 0 <= i < n && Matches(w.openings[i], s, w.positions[s]);
        assert Matches(w1.openings[i], s, w1.positions[s]);
      }
    }
  }

  lemma StepInv(minEdge: real, ticks: map<Symbol, real>, w: World, e: Event)
    requires Inv(minEdge, ticks, w) && GoodEvent(e)
    ensures Inv(minEdge, ticks, Step(minEdge, ticks, w, e))
  {
    if e.Tick? && Screened(e.f) {
      var prev := Lookup(w.emas, e.sym);
      var ema := NextEma(prev, WebMid(e.f), e.alpha);
      if prev.Some? {
        Blend(prev.value, WebMid(e.f), e.alpha, Min(prev.value, WebMid(e.f)), Max(prev.value, WebMid(e.f)));
      }
      assert ema > 0.0;
      var w1 := w.(emas := w.emas[e.sym := ema]);
      assert Inv(minEdge, ticks, w1);
      if Trigger(minEdge, e.f, ema).Some? && e.fill.Some? {
        OpenedInv(minEdge, ticks, w1, e, ema);
      }
    }
  }

  /** In every run on well-formed books, every position ever opened had a sound bracket for the
      quotes that triggered it, and every live position still carries that bracket's target. */
  lemma {:induction false} RunInv(minEdge: real, ticks: map<Symbol, real>, w: World, evs: seq<Event>)
    requires Inv(minEdge, ticks, w) && forall i :: 0 <= i < |evs| ==> GoodEvent(evs[i])
    ensures Inv(minEdge, ticks, Run(minEdge, ticks, w, evs))
    decreases |evs|
  {
    if evs != [] {
      StepInv(minEdge, ticks, w, evs[0]);
      RunInv(minEdge, ticks, Step(minEdge, ticks, w, evs[0]), evs[1..]);
    }
  }

  // ----- What one tick opens, in prices -----

  /** The quotes pass: a positive web mid, an api tick at most 5 s after the web book or its ticker and not
      before either, a ticker within 2 bp of the web mid, and both spreads at most 6 bp. */
  predicate QuotesPass(f: Feed) {
    var mid := (f.webBid + f.webAsk) / 2.0;
    && mid > 0.0
    && f.apiTs >= f.webTs && (f.ticker.Some? ==> f.apiTs >= f.ticker.value.ts)
    && (f.apiTs <= f.webTs + 5000.0 || (f.ticker.Some? && f.apiTs <= f.ticker.value.ts + 5000.0))
    && (f.ticker.Some? && f.ticker.value.mid > 0.0 ==> 5000.0 * Abs(f.ticker.value.mid - mid) <= mid)
    && 10000.0 * (f.webAsk - f.webBid) <= 6.0 * mid
    && f.apiMid > 0.0 && 10000.0 * (f.apiAsk - f.apiBid) <= 6.0 * f.apiMid
  }

  lemma RatioBound(x: real, d: real, bound: real)
    requires d > 0.0
    ensures x / d * 10000.0 <= bound <==> 10000.0 * x <= bound * d
  {
    var q := x / d;
    assert q * d == x;
    assert (bound - q * 10000.0) * d == bound * d - 10000.0 * x;
    if q * 10000.0 > bound { assert (q * 10000.0 - bound) * d > 0.0; }
    if q * 10000.0 <= bound { assert (bound - q * 10000.0) * d >= 0.0; }
  }

  lemma QuotesPassIff(f: Feed)
    ensures QuotesPass(f) <==> Screened(f)
  {
    var mid := WebMid(f);
    if mid > 0.0 {
      if f.ticker.Some? { RatioBound(Abs(f.ticker.value.mid - mid), mid, 2.0); }
      RatioBound(f.webAsk - f.webBid, mid, 6.0);
      if f.apiMid > 0.0 { RatioBound(f.apiAsk - f.apiBid, f.apiMid, 6.0); }
    }
  }

  /** The gap is worth at least the minimum edge and at most 20 bp of the smoothed mid. */
  predicate Worth(minEdge: real, gap: real, ema: real) { minEdge * ema <= 10000.0 * gap <= 20.0 * ema }

  /** The side whose books have crossed far enough; a buy is looked at first. */
  function Crossed(minEdge: real, f: Feed, ema: real): Option<Side> {
    if f.apiBid > f.webAsk then (if Worth(minEdge, f.apiBid - f.webAsk, ema) then Some(Buy) else None)
    else if f.webBid > f.apiAsk && Worth(minEdge, f.webBid - f.apiAsk, ema) then Some(Sell)
    else None
  }

  lemma CrossedIff(minEdge: real, f: Feed, ema: real)
    requires ema > 0.0
    ensures Crossed(minEdge, f, ema) == Trigger(minEdge, f, ema)
  {
    BpBound(f.apiBid - f.webAsk, ema, minEdge);
    BpBound(f.apiBid - f.webAsk, ema, 20.0);
    BpBound(f.webBid - f.apiAsk, ema, minEdge);
    BpBound(f.webBid - f.apiAsk, ema, 20.0);
  }

  /** A tick whose quotes pass moves the symbol's smoothed mid. A flat symbol is entered exactly when its
      books have crossed far enough of that, the tick is admitted and the order fills; nothing else is. */
  lemma OpensIff(minEdge: real, ticks: map<Symbol, real>, w: World, e: Event)
    requires e.Tick? && 0.0 < e.alpha < 1.0
    ensures var w1, s := Step(minEdge, ticks, w, e), e.sym;
      if !QuotesPass(e.f) then w1 == w
      else
        var mid := (e.f.webBid + e.f.webAsk) / 2.0;
        var ema := NextEma(Lookup(w.emas, s), mid, e.alpha);
        var side := Crossed(minEdge, e.f, ema);
        && w1.emas == w.emas[s := ema]
        && if s !in w.positions && side.Some? && e.admitted && e.fill.Some? then
             && |w1.openings| == |w.openings| + 1
             && var o := w1.openings[|w.openings|];
                && w1.openings == w.openings + [Opening(s, side.value, e.f, ema, o.limit, o.target, e.fill.value)]
                && w1.positions == w.positions[s := Position(side.value, e.fill.value, o.target)]
           else
             w1.positions == w.positions && w1.openings == w.openings
  {
    QuotesPassIff(e.f);
    if Screened(e.f) {
      EmaPositive(Lookup(w.emas, e.sym), WebMid(e.f), e.alpha);
      CrossedIff(minEdge, e.f, NextEma(Lookup(w.emas, e.sym), WebMid(e.f), e.alpha));
    }
  }

  /** A close frees its symbol and no other: the next tick may enter it again. */
  lemma CloseFrees(minEdge: real, ticks: map<Symbol, real>, w: World, s: Symbol, e: Event)
    requires e.Tick? && e.sym == s && 0.0 < e.alpha < 1.0 && QuotesPass(e.f) && e.admitted && e.fill.Some?
    requires Crossed(minEdge, e.f, NextEma(Lookup(w.emas, s), (e.f.webBid + e.f.webAsk) / 2.0, e.alpha)).Some?
    ensures var w1 := Step(minEdge, ticks, w, Closed(s));
      && (forall x :: x in w1.positions <==> x in w.positions && x != s)
      && (forall x :: x in w1.positions ==> w1.positions[x] == w.positions[x])
      && |Step(minEdge, ticks, w1, e).openings| == |w.openings| + 1
  {
    OpensIff(minEdge, ticks, Step(minEdge, ticks, w, Closed(s)), e);
  }

  class Trader {
    const minEdge: real
    const ticks: map<Symbol, real>
    var webEma: map<Symbol, real>
    var positions: map<Symbol, Position>
    ghost var openings: seq<Opening>

    ghost function View(): World
      reads this
    {
      World(webEma, positions, openings)
    }

    constructor (minEdge: real, ticks: map<Symbol, real>)
      ensures this.minEdge == minEdge && this.ticks == ticks && Inv(minEdge, ticks, View())
    {
      this.minEdge, this.ticks := minEdge, ticks;
      webEma, positions, openings := map[], map[], [];
    }

    method UpdateWebEma(s: Symbol, mid: real, alpha: real) returns (ema: real)
      modifies this`webEma
      ensures ema == NextEma(Lookup(old(webEma), s), mid, alpha) && webEma == old(webEma)[s := ema]
    {
      if s !in webEma || webEma[s] <= 0.0 {
        webEma := webEma[s := mid];
        return mid;
      }
      ema := webEma[s] + alpha * (mid - webEma[s]);
      webEma := webEma[s := ema];
    }

    method OnApiUpdate(s: Symbol, f: Feed, alpha: real, admitted: bool, fill: Option<real>)
      requires 0.0 < alpha < 1.0
      modifies this
      ensures View() == Step(minEdge, ticks, old(View()), Tick(s, f, alpha, admitted, fill))
      ensures old(Inv(minEdge, ticks, View())) && WellFormed(f) ==> Inv(minEdge, ticks, View())
    {
      ghost var e := Tick(s, f, alpha, admitted, fill);
      if Inv(minEdge, ticks, View()) && WellFormed(f) {
        StepInv(minEdge, ticks, View(), e);
      }
      if !Screened(f) { return; }
      EmaPositive(Lookup(webEma, s), WebMid(f), alpha);
      var ema := UpdateWebEma(s, WebMid(f), alpha);
      var side, bp := Buy, 0.0;
      if f.apiBid > f.webAsk {
        bp := Bp(f.apiBid - f.webAsk, ema);
      } else if f.apiAsk < f.webBid {
        side, bp := Sell, Bp(f.webBid - f.apiAsk, ema);
      } else {
        return;
      }
      if s in positions || bp < minEdge || bp > MAX_CROSS_BP || !admitted { return; }
      OpenPosition(s, side, f, ema, fill, alpha, admitted);
    }

    /** Post-only entry at the web quote, then the target at the api quote. */
    method OpenPosition(s: Symbol, side: Side, f: Feed, ghost ema: real, fill: Option<real>, ghost alpha: real,
                        ghost admitted: bool)
      modifies this`positions, this`openings
      ensures View() == if fill.None? then old(View())
                        else Opened(ticks, old(View()), Tick(s, f, alpha, admitted, fill), ema, side)
    {
      var tick := Lookup(ticks, s);
      var limit := if side == Buy then TickRound(tick, f.webAsk, Down) else TickRound(tick, f.webBid, Up);
      if fill.None? { return; }
      var target := if side == Buy then TickRound(tick, f.apiAsk, Up) else TickRound(tick, f.apiBid, Down);
      positions := positions[s := Position(side, fill.value, target)];
      openings := openings + [Opening(s, side, f, ema, limit, target, fill.value)];
    }
  }

  lemma EmaPositive(prev: Option<real>, mid: real, alpha: real)
    requires mid > 0.0 && 0.0 < alpha < 1.0
    ensures NextEma(prev, mid, alpha) > 0.0
  {
    if prev.Some? && prev.value > 0.0 {
      Blend(prev.value, mid, alpha, Min(prev.value, mid), Max(prev.value, mid));
    }
  }
}
