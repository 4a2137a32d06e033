/** The price rule of the executor's take-profit thread: remember the best captured spread of a
    position and close it after a drawdown from there. */
module TakeProfit {
  import opened Common

  const MIN_ENTRY_SPREAD_BP := 8.0
  const MIN_PEAK_BP := 9999.0
  const DRAWDOWN_BP := 3.0
  const MIN_HOLD_SEC := 5.0
  const MAX_MID_AGE_SEC := 5.0

  datatype Quote = Quote(bid: real, ask: real, age: real)

  /** One look at a position: the clock, both venues' latest quotes, and whether its exit id has
      been taken by somebody else. */
  datatype Sample = Sample(now: real, f: Option<Quote>, g: Option<Quote>, taken: bool)

  datatype Position = Position(entrySpread: real, entryEpoch: real)

  function Mid(q: Quote): real { (q.bid + q.ask) / 2.0 }

  /** The sample passes every gate before the spread is computed. */
  predicate Usable(p: Position, x: Sample) {
    && Abs(p.entrySpread) >= MIN_ENTRY_SPREAD_BP
    && x.now - p.entryEpoch >= MIN_HOLD_SEC
    && x.f.Some? && x.g.Some?
    && x.f.value.age <= MAX_MID_AGE_SEC && x.g.value.age <= MAX_MID_AGE_SEC
    && Mid(x.f.value) > 0.0 && Mid(x.g.value) > 0.0
  }

  /** How much of the entry spread has gone. */
  function Captured(p: Position, x: Sample): real
    requires Usable(p, x)
  {
    var fm, gm := Mid(x.f.value), Mid(x.g.value);
    Abs(p.entrySpread) - Abs((fm - gm) / gm * 10000.0)
  }

  /** `peak` is the largest capture among the usable samples, at least 0. */
  ghost predicate IsPeak(p: Position, xs: seq<Sample>, peak: real) {
    && peak >= 0.0
    && (forall i :: 0 <= i < |xs| && Usable(p, xs[i]) ==> Captured(p, xs[i]) <= peak)
    && (peak == 0.0 || exists i :: 0 <= i < |xs| && Usable(p, xs[i]) && Captured(p, xs[i]) == peak)
  }

  /** The last sample closes the position, `peak` being the peak with it included. */
  predicate Fires(p: Position, x: Sample, peak: real) {
    Usable(p, x) && peak >= MIN_PEAK_BP && peak - Captured(p, x) >= DRAWDOWN_BP && !x.taken
  }

  lemma PeakUnique(p: Position, xs: seq<Sample>, a: real, b: real)
    requires IsPeak(p, xs, a) && IsPeak(p, xs, b)
    ensures a == b
  {}

  lemma PeakNext(p: Position, xs: seq<Sample>, peak: real, x: Sample)
    requires IsPeak(p, xs, peak)
    ensures IsPeak(p, xs + [x], if Usable(p, x) then Max(peak, Captured(p, x)) else peak)
  {
    var ys := xs + [x];
    assert forall i :: 0 <= i < |xs| ==> ys[i] == xs[i];
    assert ys[|xs|] == x;
    if i :| 0 <= i < |xs| && Usable(p, xs[i]) && Captured(p, xs[i]) == peak {
      assert Usable(p, ys[i]) && Captured(p, ys[i]) == peak;
    }
  }

  /** Nothing captured exceeds the entry spread, so with the shipped peak threshold the rule never
      fires, whatever the quotes, unless the position was entered at that spread or more. */
  lemma NeverFiresBelowThreshold(p: Position, xs: seq<Sample>, peak: real, x: Sample)
    requires IsPeak(p, xs, peak) && Fires(p, x, peak)
    ensures Abs(p.entrySpread) >= MIN_PEAK_BP
  {
    var i :| 0 <= i < |xs| && Usable(p, xs[i]) && Captured(p, xs[i]) == peak;
    var fm, gm := Mid(xs[i].f.value), Mid(xs[i].g.value);
    assert Abs((fm - gm) / gm * 10000.0) >= 0.0;
  }

  /** A look that counts: an entry spread of at least 8 bp, held for 5 s, and both venues quoted at positive
      mids not more than 5 s ago. */
  predicate Counts(p: Position, x: Sample) {
    && (p.entrySpread >= 8.0 || p.entrySpread <= -8.0) && x.now >= p.entryEpoch + 5.0
    && x.f.Some? && x.g.Some? && x.f.value.age <= 5.0 && x.g.value.age <= 5.0
    && x.f.value.bid + x.f.value.ask > 0.0 && x.g.value.bid + x.g.value.ask > 0.0
  }

  /** The distance of the venues' mids in basis points of Gate's. */
  function SpreadBp(x: Sample): real
    requires x.f.Some? && x.g.Some? && x.g.value.bid + x.g.value.ask > 0.0
  {
    var f, g := x.f.value.bid + x.f.value.ask, x.g.value.bid + x.g.value.ask;
    (if f >= g then f - g else g - f) / g * 10000.0
  }

  lemma CapturedIsNarrowing(p: Position, x: Sample)
    ensures Usable(p, x) <==> Counts(p, x)
    ensures Counts(p, x) ==> Captured(p, x) == Abs(p.entrySpread) - SpreadBp(x)
  {
    if Counts(p, x) {
      var f, g := x.f.value.bid + x.f.value.ask, x.g.value.bid + x.g.value.ask;
      Halved(f, g);
      var q := (f - g) / g;
      assert q * g == f - g;
      assert q >= 0.0 <==> f >= g;
      assert -q * g == g - f;
    }
  }

  lemma Halved(f: real, g: real)
    requires g > 0.0
    ensures (f / 2.0 - g / 2.0) / (g / 2.0) == (f - g) / g
  {
    var q := (f - g) / g;
    assert q * g == f - g;
    assert q * (g / 2.0) == f / 2.0 - g / 2.0;
  }

  /** At look `i` the spread had come in by 9999 bp from entry, and now it is at least 3 bp wider again. */
  predicate WidensFrom(p: Position, xs: seq<Sample>, i: nat, x: Sample)
    requires i < |xs| && Counts(p, x)
  {
    && Counts(p, xs[i]) && SpreadBp(x) >= SpreadBp(xs[i]) + 3.0
    && Abs(p.entrySpread) >= SpreadBp(xs[i]) + 9999.0
  }

  /** The rule in spreads: the last of the looks closes a position, unless its exit is taken, exactly when
      the spread has widened that far since some look. */
  lemma FiresIff(p: Position, xs: seq<Sample>, x: Sample, peak: real)
    requires x in xs && IsPeak(p, xs, peak)
    ensures Fires(p, x, peak) <==> !x.taken && Counts(p, x) && exists i: nat :: i < |xs| && WidensFrom(p, xs, i, x)
  {
    forall i | 0 <= i < |xs|
      ensures Usable(p, xs[i]) <==> Counts(p, xs[i])
      ensures Counts(p, xs[i]) ==> Captured(p, xs[i]) == Abs(p.entrySpread) - SpreadBp(xs[i])
    {
      CapturedIsNarrowing(p, xs[i]);
    }
    CapturedIsNarrowing(p, x);
    if Fires(p, x, peak) {
      var i :| 0 <= i < |xs| && Usable(p, xs[i]) && Captured(p, xs[i]) == peak;
      assert WidensFrom(p, xs, i, x);
    }
  }

  class Watched {
    const p: Position
    var peakCaptured: real
    ghost var seen: seq<Sample>

    constructor (p: Position)
      ensures this.p == p && seen == [] && IsPeak(p, seen, peakCaptured)
    {
      this.p, peakCaptured, seen := p, 0.0, [];
    }

    /** One poll. It closes exactly when the drawdown from the peak of all samples so far, this one
        included, is large enough and nobody else has taken the exit. */
    method Poll(x: Sample) returns (close: bool)
      requires IsPeak(p, seen, peakCaptured)
      modifies this
      ensures seen == old(seen) + [x] && IsPeak(p, seen, peakCaptured)
      ensures close == Fires(p, x, peakCaptured)
      ensures close ==> Abs(p.entrySpread) >= MIN_PEAK_BP
    {
      PeakNext(p, seen, peakCaptured, x);
      seen := seen + [x];
      if Abs(p.entrySpread) < MIN_ENTRY_SPREAD_BP { return false; }
      if x.now - p.entryEpoch < MIN_HOLD_SEC { return false; }
      if x.f.None? || x.g.None? { return false; }
      if x.f.value.age > MAX_MID_AGE_SEC || x.g.value.age > MAX_MID_AGE_SEC { return false; }
      var fm, gm := Mid(x.f.value), Mid(x.g.value);
      if fm <= 0.0 || gm <= 0.0 { return false; }
      var captured := Abs(p.entrySpread) - Abs((fm - gm) / gm * 10000.0);
      if captured > peakCaptured { peakCaptured := captured; }
      if peakCaptured < MIN_PEAK_BP { return false; }
      if peakCaptured - captured < DRAWDOWN_BP { return false; }
      if x.taken { return false; }
      NeverFiresBelowThreshold(p, seen, peakCaptured, x);
      return true;
    }
  }
}
