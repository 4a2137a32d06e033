/** Converting a USD notional to whole Gate contracts and matching the Flipster leg to it. */
module ContractSizing {
  import opened Common

  datatype Spec = Spec(multiplier: real, orderSizeMin: int)

  /** Python's `round`: to the nearest integer, ties to the even one. */
  function RoundHalfEven(r: real): int {
    var f := r.Floor;
    var d := r - f as real;
    if d < 0.5 then f else if d > 0.5 then f + 1 else if f % 2 == 0 then f else f + 1
  }

  function GateSizeFromUsd(specs: map<string, Spec>, contract: string, usd: real, price: real): int {
    if contract !in specs || price <= 0.0 then 1
    else CountFor(usd, price * specs[contract].multiplier, specs[contract].orderSizeMin)
  }

  function CountFor(usd: real, perContract: real, least: int): int {
    if perContract <= 0.0 then least
    else
      var contracts := RoundHalfEven(usd / perContract);
      if contracts >= least then contracts else least
  }

  function SpecOf(specs: map<string, Spec>, contract: string): Spec {
    if contract in specs then specs[contract] else Spec(1.0, 1)
  }

  function Notional(specs: map<string, Spec>, contract: string, contracts: int, price: real): real {
    contracts as real * SpecOf(specs, contract).multiplier * price
  }

  /** The notional used for the Flipster leg, or None when the contract is too coarse for the target. */
  function HedgePlan(specs: map<string, Spec>, contract: string, sizeUsd: real, price: real): Option<real> {
    var adjusted := Notional(specs, contract, GateSizeFromUsd(specs, contract, sizeUsd, price), price);
    if adjusted < 3.0 || adjusted > sizeUsd * 2.5 then None else Some(adjusted)
  }

  lemma RoundIsNearest(r: real)
    ensures -0.5 <= r - RoundHalfEven(r) as real <= 0.5
    ensures Abs(r - RoundHalfEven(r) as real) == 0.5 ==> RoundHalfEven(r) % 2 == 0
  {}

  lemma RoundOfInteger(n: int)
    ensures RoundHalfEven(n as real) == n
  {}

  lemma TimesPositive(x: real, y: real, p: real)
    requires x <= y && p > 0.0
    ensures x * p <= y * p
  {}

  lemma CancelFactor(x: real, y: real, p: real)
    requires p > 0.0 && x * p == y * p
    ensures x == y
  {}

  lemma AtMostHalfAbove(q: real, n: real, p: real, usd: real)
    requires p > 0.0 && q * p == usd && q <= n + 0.5
    ensures usd <= n * p + p / 2.0
    ensures usd <= (n + 0.5) * p
  {
    TimesPositive(q, n + 0.5, p);
    assert (n + 0.5) * p == n * p + 0.5 * p;
  }

  lemma AtMostHalfBelow(q: real, n: real, p: real, usd: real)
    requires p > 0.0 && q * p == usd && n - 0.5 <= q
    ensures n * p - p / 2.0 <= usd
  {
    TimesPositive(n - 0.5, q, p);
    assert (n - 0.5) * p == n * p - 0.5 * p;
  }

  lemma CountWithinHalf(usd: real, perContract: real, least: int)
    requires perContract > 0.0
    ensures var n := CountFor(usd, perContract, least);
      && n >= least
      && (n > least ==> Abs(n as real * perContract - usd) <= perContract / 2.0)
      && (n == least ==> usd <= (least as real + 0.5) * perContract)
  {
    var m := RoundHalfEven(usd / perContract);
    RoundIsNearest(usd / perContract);
    AtMostHalfAbove(usd / perContract, m as real, perContract, usd);
    AtMostHalfBelow(usd / perContract, m as real, perContract, usd);
    if m <= least { AtMostHalfAbove(usd / perContract, least as real, perContract, usd); }
  }

  /** The sized notional is within half a contract of the target, unless the exchange minimum was
      applied, and then the target was at most half a contract above the minimum. */
  lemma WithinHalfContract(specs: map<string, Spec>, contract: string, usd: real, price: real)
    requires contract in specs && price > 0.0 && specs[contract].multiplier > 0.0
    ensures var n := GateSizeFromUsd(specs, contract, usd, price);
      var perContract := price * specs[contract].multiplier;
      var least := specs[contract].orderSizeMin;
      && n >= least
      && (n > least ==> Abs(n as real * perContract - usd) <= perContract / 2.0)
      && (n == least ==> usd <= (least as real + 0.5) * perContract)
  {
    CountWithinHalf(usd, price * specs[contract].multiplier, specs[contract].orderSizeMin);
  }

  lemma CountBack(n: int, usd: real, perContract: real, least: int)
    requires perContract > 0.0 && n >= least && usd == n as real * perContract
    ensures CountFor(usd, perContract, least) == n
  {
    CancelFactor(usd / perContract, n as real, perContract);
    RoundOfInteger(n);
  }

  lemma Regroup(n: real, m: real, p: real)
    ensures n * m * p == n * (p * m)
  {}

  lemma CountOf(specs: map<string, Spec>, contract: string, usd: real, price: real, perContract: real)
    requires contract in specs && price > 0.0 && perContract == price * specs[contract].multiplier
    ensures GateSizeFromUsd(specs, contract, usd, price) == CountFor(usd, perContract, specs[contract].orderSizeMin)
  {}

  lemma ResizeWith(specs: map<string, Spec>, contract: string, usd: real, price: real, again: real, perContract: real)
    requires contract in specs && price > 0.0 && perContract == price * specs[contract].multiplier
    requires again == GateSizeFromUsd(specs, contract, usd, price) as real * perContract
    ensures GateSizeFromUsd(specs, contract, again, price) == GateSizeFromUsd(specs, contract, usd, price)
  {
    CountOf(specs, contract, usd, price, perContract);
    CountOf(specs, contract, again, price, perContract);
    var least := specs[contract].orderSizeMin;
    if perContract > 0.0 { CountBack(CountFor(usd, perContract, least), again, perContract, least); }
  }

  /** Sizing the adjusted notional again gives the same contract count, for every input. */
  lemma ResizeIsStable(specs: map<string, Spec>, contract: string, usd: real, price: real)
    ensures var n := GateSizeFromUsd(specs, contract, usd, price);
      GateSizeFromUsd(specs, contract, Notional(specs, contract, n, price), price) == n
  {
    if contract in specs && price > 0.0 {
      var n := GateSizeFromUsd(specs, contract, usd, price);
      Regroup(n as real, specs[contract].multiplier, price);
      ResizeWith(specs, contract, usd, price, Notional(specs, contract, n, price), price * specs[contract].multiplier);
    }
  }

  /** `m` contracts come nearest to the target; on a tie `m` is even. */
  predicate Nearest(m: int, usd: real, perContract: real) {
    && Abs(m as real * perContract - usd) <= perContract / 2.0
    && (Abs(m as real * perContract - usd) == perContract / 2.0 ==> m % 2 == 0)
  }

  lemma Distance(q: real, m: int, p: real, usd: real)
    requires p > 0.0 && q * p == usd
    ensures Abs(q - m as real) * p == Abs(m as real * p - usd)
  {
    assert (q - m as real) * p == usd - m as real * p;
  }

  lemma Halves(d: real, p: real, dp: real)
    requires p > 0.0 && dp == d * p
    ensures d <= 0.5 <==> dp <= p / 2.0
    ensures d == 0.5 <==> dp == p / 2.0
  {
    assert (d - 0.5) * p == dp - p / 2.0;
    if d > 0.5 { assert (d - 0.5) * p > 0.0; }
    if d < 0.5 { assert (0.5 - d) * p > 0.0; }
  }

  lemma NearestIsRounded(m: int, usd: real, perContract: real)
    requires perContract > 0.0
    ensures Nearest(m, usd, perContract) <==> m == RoundHalfEven(usd / perContract)
  {
    var q := usd / perContract;
    assert q * perContract == usd;
    Distance(q, m, perContract, usd);
    Halves(Abs(q - m as real), perContract, Abs(m as real * perContract - usd));
    RoundIsNearest(q);
  }

  lemma PlanOf(specs: map<string, Spec>, contract: string, sizeUsd: real, price: real, worth: real)
    requires worth == Notional(specs, contract, GateSizeFromUsd(specs, contract, sizeUsd, price), price)
    ensures HedgePlan(specs, contract, sizeUsd, price) == if 3.0 <= worth <= 2.5 * sizeUsd then Some(worth) else None
  {}

  /** A hedge of a known contract is planned exactly when `worth`, the notional of the nearest count `m` or
      the exchange minimum, is at least 3 and at most 2.5 times the target; the plan is that notional. */
  lemma PlanIff(specs: map<string, Spec>, contract: string, sizeUsd: real, price: real, m: int, worth: real)
    requires contract in specs && price > 0.0 && specs[contract].multiplier > 0.0
    requires Nearest(m, sizeUsd, price * specs[contract].multiplier)
    requires var least := specs[contract].orderSizeMin;
      worth == (if m >= least then m else least) as real * specs[contract].multiplier * price
    ensures HedgePlan(specs, contract, sizeUsd, price) == if 3.0 <= worth <= 2.5 * sizeUsd then Some(worth) else None
  {
    var perContract := price * specs[contract].multiplier;
    assert perContract > 0.0;
    NearestIsRounded(m, sizeUsd, perContract);
    CountOf(specs, contract, sizeUsd, price, perContract);
    PlanOf(specs, contract, sizeUsd, price, worth);
  }

  /** An unknown contract is taken as one contract of one unit. Without a positive price nothing is
      planned, nor for a contract without a positive multiplier. */
  lemma UnsizedPlanIff(specs: map<string, Spec>, contract: string, sizeUsd: real, price: real)
    ensures var plan := HedgePlan(specs, contract, sizeUsd, price);
      if contract !in specs then
        plan == if 3.0 <= price <= 2.5 * sizeUsd then Some(price) else None
      else
        var mult, least := specs[contract].multiplier, specs[contract].orderSizeMin;
        (price <= 0.0 <= mult || (mult <= 0.0 < price && least >= 0)) ==> plan.None?
  {
    if contract in specs {
      var mult, least := specs[contract].multiplier, specs[contract].orderSizeMin;
      if price <= 0.0 <= mult { NotPositive(-price, mult); }
      if mult <= 0.0 < price && least >= 0 {
        NotPositive(-mult, price);
        NotPositive(-mult, least as real);
        NotPositive(-(least as real * mult), price);
      }
    }
  }

  lemma NotPositive(a: real, b: real)
    requires a >= 0.0 && b >= 0.0
    ensures b * -a <= 0.0 && -a * b <= 0.0
  {
    assert a * b >= 0.0;
  }

  /** An accepted entry orders exactly the Flipster notional its Gate contracts are worth, at
      least 3 and at most 2.5 times the configured size. */
  lemma AcceptedEntryIsMatched(specs: map<string, Spec>, contract: string, sizeUsd: real, price: real)
    requires HedgePlan(specs, contract, sizeUsd, price).Some?
    ensures var flip := HedgePlan(specs, contract, sizeUsd, price).value;
      && flip == Notional(specs, contract, GateSizeFromUsd(specs, contract, flip, price), price)
      && 3.0 <= flip <= 2.5 * sizeUsd
  {
    ResizeIsStable(specs, contract, sizeUsd, price);
  }
}
