/** Venue constraints and the order checks (src/execution/specifications.py). */
module Venue {
  import opened Common

  datatype Specification = Specification(
    priceTick: real,
    quantityStep: real,
    minimumQuantity: real,
    minimumNotional: real,
    contractMultiplier: real,
    maxLeverage: real,
    marginModes: set<string>)
  {
    /** The step sizes are divisors, so the checks below raise unless both are positive. */
    ghost predicate Valid() {
      priceTick > 0.0 && quantityStep > 0.0
    }
  }

  const DEFAULT_VENUE := Specification(0.01, 0.001, 0.001, 1.0, 1.0, 20.0, {"isolated", "cross"})

  predicate IsMultiple(value: real, step: real)
    requires step > 0.0
  {
    var q := value / step;
    q == q.Floor as real
  }

  lemma MultipleOfStep(n: int, step: real, value: real)
    requires step > 0.0 && value == n as real * step
    ensures IsMultiple(value, step)
  {
    var q := value / step;
    assert q == n as real;
    assert q.Floor == n;
  }

  /** The rules that do not look at an order's size. */
  predicate Offered(v: Specification, symbol: string, price: real, leverage: real, marginMode: string)
    requires v.Valid()
  {
    symbol != "" && price > 0.0 && IsMultiple(price, v.priceTick) && 0.0 < leverage <= v.maxLeverage && marginMode in v.marginModes
  }

  /** The first rule an order breaks, in the order the venue checks them. */
  function ValidateOrder(v: Specification, symbol: string, quantity: real, price: real,
                         leverage: real, marginMode: string): (verdict: Option<string>)
    requires v.Valid()
    ensures verdict.None? ==> Offered(v, symbol, price, leverage, marginMode)
    ensures verdict.None? ==>
              quantity > 0.0 && IsMultiple(quantity, v.quantityStep)
              && v.minimumQuantity <= quantity && v.minimumNotional <= quantity * price * v.contractMultiplier
  {
    if symbol == "" then Some("symbol required")
    else if quantity <= 0.0 || !IsMultiple(quantity, v.quantityStep) then Some("quantity step")
    else if quantity < v.minimumQuantity then Some("minimum quantity")
    else if price <= 0.0 || !IsMultiple(price, v.priceTick) then Some("price tick")
    else if quantity * price * v.contractMultiplier < v.minimumNotional then Some("minimum notional")
    else if leverage <= 0.0 || leverage > v.maxLeverage then Some("max leverage")
    else if marginMode !in v.marginModes then Some("margin mode")
    else None
  }

  // ---- Which sizes are accepted ----------------------------------------------------------------

  /** That many venue steps. */
  function Steps(v: Specification, k: int): real { k as real * v.quantityStep }

  /** The smallest quantity worth the minimum notional at a price. */
  function LeastWorth(v: Specification, price: real): real
    requires price > 0.0 && v.contractMultiplier > 0.0
  {
    PositiveProduct(price, v.contractMultiplier);
    v.minimumNotional / (price * v.contractMultiplier)
  }

  /** The fewest steps an order at this price may have. */
  function LeastSteps(v: Specification, price: real): (k: int)
    requires v.Valid() && price > 0.0 && v.contractMultiplier > 0.0
    ensures k >= 1
  {
    MaxInt(1, MaxInt(Ceil(v.minimumQuantity / v.quantityStep), Ceil(LeastWorth(v, price) / v.quantityStep)))
  }

  lemma AtLeastSteps(bound: real, k: int, step: real, value: real)
    requires step > 0.0 && value == k as real * step
    ensures Ceil(bound / step) <= k <==> bound <= value
  {
    CeilAtMost(bound / step, k);
    QuotientAtMost(bound, k as real, step, value);
  }

  lemma QuotientAtMost(bound: real, k: real, step: real, value: real)
    requires step > 0.0 && value == k * step
    ensures bound / step <= k <==> bound <= value
  {
    DivideCancels(bound, step);
    if bound / step <= k {
      ScaledAtMost(bound / step, k, step, bound, value);
    } else {
      ScaledBelow(k, bound / step, step, value, bound);
    }
  }

  lemma WorthEnough(v: Specification, price: real, quantity: real)
    requires price > 0.0 && v.contractMultiplier > 0.0
    ensures LeastWorth(v, price) <= quantity <==> v.minimumNotional <= quantity * price * v.contractMultiplier
  {
    PositiveProduct(price, v.contractMultiplier);
    var unit := price * v.contractMultiplier;
    assert quantity * price * v.contractMultiplier == quantity * unit;
    QuotientAtMost(v.minimumNotional, quantity, unit, quantity * price * v.contractMultiplier);
  }

  lemma PositiveSteps(k: int, step: real, value: real)
    requires step > 0.0 && value == k as real * step
    ensures k >= 1 <==> value > 0.0
  {
    if k >= 1 {
      ScaledBelow(0.0, k as real, step, 0.0, value);
    } else {
      ScaledAtMost(k as real, 0.0, step, value, 0.0);
    }
  }

  lemma WholeSteps(v: Specification, price: real, k: int)
    requires v.Valid() && price > 0.0 && v.contractMultiplier > 0.0
    ensures IsMultiple(Steps(v, k), v.quantityStep)
    ensures k >= LeastSteps(v, price)
            <==> Steps(v, k) > 0.0 && v.minimumQuantity <= Steps(v, k)
                 && v.minimumNotional <= Steps(v, k) * price * v.contractMultiplier
  {
    hide IsMultiple, Ceil, LeastWorth;
    var q := Steps(v, k);
    MultipleOfStep(k, v.quantityStep, q);
    PositiveSteps(k, v.quantityStep, q);
    AtLeastSteps(v.minimumQuantity, k, v.quantityStep, q);
    AtLeastSteps(LeastWorth(v, price), k, v.quantityStep, q);
    WorthEnough(v, price, q);
  }

  lemma MultipleIsSteps(v: Specification, quantity: real) returns (k: int)
    requires v.Valid() && IsMultiple(quantity, v.quantityStep)
    ensures quantity == Steps(v, k)
  {
    k := (quantity / v.quantityStep).Floor;
    DivideCancels(quantity, v.quantityStep);
  }

  /**
   At given terms the accepted sizes are the step multiples from a least one upwards, and no others: what is
   accepted stays accepted when it grows by whole steps, and the smallest size is known in advance.
  */
  lemma AcceptedSizes(v: Specification, symbol: string, quantity: real, price: real, leverage: real, marginMode: string)
    requires v.Valid() && v.contractMultiplier > 0.0
    ensures ValidateOrder(v, symbol, quantity, price, leverage, marginMode).None?
            <==> Offered(v, symbol, price, leverage, marginMode) && exists k :: k >= LeastSteps(v, price) && quantity == Steps(v, k)
  {
    hide IsMultiple, LeastSteps, Steps;
    if Offered(v, symbol, price, leverage, marginMode) {
      if IsMultiple(quantity, v.quantityStep) {
        var k := MultipleIsSteps(v, quantity);
        WholeSteps(v, price, k);
      }
      forall k | k >= LeastSteps(v, price) && quantity == Steps(v, k)
        ensures ValidateOrder(v, symbol, quantity, price, leverage, marginMode).None? {
        WholeSteps(v, price, k);
      }
    }
  }
}
