/** Deterministic risk sizing (src/policy/sizing.py). */
module Sizing {
  import opened Common
  import opened FundingModel
  import opened Venue

  /** Slack of the quantity floor and of the exposure check. */
  const FLOOR_SLACK := 0.000000000001
  const EXPOSURE_SLACK := 0.000000001

  datatype Request = Request(
    side: Side, entry: real, stop: real, risk: real, minNotional: real, maxNotional: real,
    step: real, multiplier: real, equity: Option<real>, existing: real, maxTotal: Option<real>,
    providerQuantity: Option<real>)
  {
    /** Notional of one contract. */
    function Unit(): real { entry * multiplier }

    /** Loss of one contract at the stop. */
    function UnitRisk(): real { Abs(entry - stop) * multiplier }
  }

  datatype Size = Size(quantity: real, notional: real, effectiveRisk: real, requestedRisk: real,
                       capped: bool, raisedToMinimum: bool)

  /** The largest step multiple not above the value, give or take the slack. */
  function FloorStep(value: real, step: real): real
    requires step > 0.0
  {
    ((value + FLOOR_SLACK) / step).Floor as real * step
  }

  /** Inputs the sizing accepts: positive numbers, a stop on the losing side, no quantity from the provider. */
  predicate Acceptable(r: Request) {
    && r.providerQuantity.None?
    && r.entry > 0.0 && r.stop > 0.0 && r.risk > 0.0 && r.minNotional > 0.0 && r.maxNotional > 0.0
    && r.step > 0.0 && r.multiplier > 0.0
    && (r.equity.Some? ==> r.equity.value > 0.0)
    && r.existing >= 0.0 && r.minNotional <= r.maxNotional
    && (r.maxTotal.Some? ==> r.maxTotal.value > 0.0)
    && (if r.side == BUY then r.stop < r.entry else r.stop > r.entry)
  }

  /** What exposure limits leave for one more position. */
  function Room(r: Request): (room: real)
    ensures room <= r.maxNotional
    ensures r.maxTotal.Some? ==> room <= r.maxTotal.value - r.existing
    ensures r.equity.Some? ==> room <= r.equity.value
  {
    var a := if r.maxTotal.Some? then Min(r.maxNotional, r.maxTotal.value - r.existing) else r.maxNotional;
    if r.equity.Some? then Min(a, r.equity.value) else a
  }

  function RequestedNotional(r: Request): real
    requires Acceptable(r)
  {
    r.risk / r.UnitRisk() * r.entry * r.multiplier
  }

  function Target(r: Request): real
    requires Acceptable(r)
  {
    Min(Max(RequestedNotional(r), r.minNotional), Room(r))
  }

  function SizeForRisk(r: Request): Result<Size> {
    if !Acceptable(r) then Err("invalid sizing request")
    else if Room(r) <= 0.0 then Err("portfolio exposure or available equity exhausted")
    else
      var quantity := FloorStep(Target(r) / r.Unit(), r.step);
      var notional := quantity * r.entry * r.multiplier;
      if quantity <= 0.0 then Err("venue quantity step leaves no valid quantity")
      else if notional < r.minNotional then Err("quantity step cannot satisfy minimum notional")
      else if notional > Room(r) + EXPOSURE_SLACK then Err("quantity step exceeds portfolio exposure")
      else Ok(Size(quantity, notional, quantity * r.UnitRisk(), r.risk,
                   RequestedNotional(r) > Room(r), RequestedNotional(r) < r.minNotional))
  }

  // ---- The floor ------------------------------------------------------------------------------

  /** The floor is a step multiple, at most the slack above the value, and the next multiple is too large. */
  lemma FloorStepIsMaximal(value: real, step: real, q: real)
    requires step > 0.0 && q == FloorStep(value, step)
    ensures IsMultiple(q, step)
    ensures q <= value + FLOOR_SLACK < q + step
  {
    hide IsMultiple;
    FlooredSteps(value + FLOOR_SLACK, step, ((value + FLOOR_SLACK) / step).Floor, q);
  }

  lemma FlooredSteps(v: real, step: real, n: int, q: real)
    requires step > 0.0 && n == (v / step).Floor && q == n as real * step
    ensures IsMultiple(q, step) && q <= v < q + step
  {
    hide IsMultiple;
    DivideCancels(v, step);
    BetweenSteps(n as real, v / step, step, q, v);
    MultipleOfStep(n, step, q);
  }

  // ---- When a request is sized -----------------------------------------------------------------

  /** A request is turned down outright exactly when a number is not positive, the stop is not on the losing side, or the provider names a size. */
  lemma InvalidIff(r: Request)
    ensures SizeForRisk(r) == Err("invalid sizing request")
            <==> r.providerQuantity.Some? || r.entry <= 0.0 || r.stop <= 0.0 || r.risk <= 0.0 || r.minNotional <= 0.0
                 || r.maxNotional <= 0.0 || r.step <= 0.0 || r.multiplier <= 0.0 || (r.equity.Some? && r.equity.value <= 0.0)
                 || r.existing < 0.0 || r.minNotional > r.maxNotional || (r.maxTotal.Some? && r.maxTotal.value <= 0.0)
                 || (r.side == BUY && r.stop >= r.entry) || (r.side == SELL && r.stop <= r.entry)
  {
    hide FloorStep, Target, Room, RequestedNotional, Request.Unit, Request.UnitRisk;
  }

  /** What a size can be read for: a positive loss at the stop, on the side that loses. */
  lemma SizedIsAcceptable(r: Request)
    requires SizeForRisk(r).Ok?
    ensures r.entry > 0.0 && r.multiplier > 0.0 && (if r.side == BUY then r.stop < r.entry else r.entry < r.stop)
  {
    hide FloorStep, Target, Room, RequestedNotional, Request.Unit, Request.UnitRisk;
  }

  // ---- What a size promises -------------------------------------------------------------------

  /** A size is a maximal step multiple whose notional lies between the minimum and the room left. */
  lemma SizeIsMaximalWithinRoom(r: Request)
    requires SizeForRisk(r).Ok?
    ensures var s := SizeForRisk(r).value;
            && s.quantity > 0.0 && IsMultiple(s.quantity, r.step)
            && s.notional == s.quantity * r.entry * r.multiplier
            && r.minNotional <= s.notional <= Room(r) + EXPOSURE_SLACK
            && s.quantity <= Target(r) / r.Unit() + FLOOR_SLACK < s.quantity + r.step
            && (r.maxTotal.Some? ==> r.existing + s.notional <= r.maxTotal.value + EXPOSURE_SLACK)
  {
    hide FloorStep, Target, Room, IsMultiple, RequestedNotional, Request.Unit, Request.UnitRisk;
    UnitRiskPositive(r);
    FloorStepIsMaximal(Target(r) / r.Unit(), r.step, SizeForRisk(r).value.quantity);
    var room := Room(r);
  }

  /** A size of that many contracts breaks a limit, or risks more than requested although a smaller one would do. */
  ghost predicate TooMuch(r: Request, quantity: real) {
    var notional := quantity * r.entry * r.multiplier;
    || notional > r.maxNotional
    || (r.maxTotal.Some? && r.existing + notional > r.maxTotal.value)
    || (r.equity.Some? && notional > r.equity.value)
    || (notional > r.minNotional && quantity * (Abs(r.entry - r.stop) * r.multiplier) > r.risk)
  }

  lemma NotionalAbove(quantity: real, target: real, unit: real, notional: real)
    requires unit > 0.0 && notional == quantity * unit && quantity > target / unit
    ensures notional > target
  {
    DivideCancels(target, unit);
    ScaledBelow(target / unit, quantity, unit, target, notional);
  }

  /** Worth more than the requested risk buys, a size risks more. */
  lemma RiskAbove(quantity: real, risk: real, unitRisk: real, unit: real, requested: real, notional: real)
    requires unitRisk > 0.0 && unit > 0.0 && notional == quantity * unit && requested == risk / unitRisk * unit && notional > requested
    ensures quantity * unitRisk > risk
  {
    DivideCancels(risk, unitRisk);
    LargerFactor(quantity, risk / unitRisk, unit, notional, requested);
    ScaledBelow(risk / unitRisk, quantity, unitRisk, risk, quantity * unitRisk);
  }

  lemma LargerFactor(a: real, b: real, k: real, ak: real, bk: real)
    requires k > 0.0 && ak == a * k && bk == b * k && ak > bk
    ensures a > b
  {
    var gap := a - b;
    assert gap * k == ak - bk;
    DivideCancels(ak - bk, k);
    PositiveProduct(ak - bk, 1.0 / k);
  }

  lemma Regrouped(a: real, b: real, c: real, bc: real)
    requires bc == b * c
    ensures a * b * c == a * bc
  {
  }

  lemma AboveRoom(r: Request, notional: real)
    requires Acceptable(r) && notional > Target(r)
    ensures || notional > r.maxNotional || (r.maxTotal.Some? && r.existing + notional > r.maxTotal.value)
            || (r.equity.Some? && notional > r.equity.value)
            || (notional > r.minNotional && notional > RequestedNotional(r))
  {
    hide Acceptable, RequestedNotional;
  }

  lemma LossAbove(r: Request, quantity: real, notional: real)
    requires Acceptable(r) && notional == quantity * r.entry * r.multiplier && notional > RequestedNotional(r)
    ensures quantity * r.UnitRisk() > r.risk
  {
    hide Acceptable, RequestedNotional, Request.Unit, Request.UnitRisk;
    UnitRiskPositive(r);
    RequestedBuys(r);
    Regrouped(quantity, r.entry, r.multiplier, r.Unit());
    Regrouped(r.risk / r.UnitRisk(), r.entry, r.multiplier, r.Unit());
    RiskAbove(quantity, r.risk, r.UnitRisk(), r.Unit(), RequestedNotional(r), notional);
  }

  lemma NotionalAboveTarget(r: Request, quantity: real, notional: real)
    requires Acceptable(r) && quantity > Target(r) / r.Unit() && notional == quantity * r.entry * r.multiplier
    ensures notional > Target(r)
  {
    hide Acceptable, Target, Request.Unit, Request.UnitRisk;
    UnitRiskPositive(r);
    Regrouped(quantity, r.entry, r.multiplier, r.Unit());
    NotionalAbove(quantity, Target(r), r.Unit(), notional);
  }

  /** Every size above the target, however little, is too much. */
  lemma AboveTarget(r: Request, quantity: real)
    requires Acceptable(r) && quantity > Target(r) / r.Unit()
    ensures TooMuch(r, quantity)
  {
    hide Acceptable, RequestedNotional, Target, Request.Unit, Abs;
    var notional := quantity * r.entry * r.multiplier;
    NotionalAboveTarget(r, quantity, notional);
    AboveRoom(r, notional);
    if notional > RequestedNotional(r) {
      LossAbove(r, quantity, notional);
    }
  }

  lemma RequestedBuys(r: Request)
    requires Acceptable(r)
    ensures RequestedNotional(r) == r.risk / r.UnitRisk() * r.entry * r.multiplier
  {
  }

  /** One more step would be too much: a size is as large as the limits and the requested risk allow. */
  lemma NextStepIsTooMuch(r: Request)
    requires SizeForRisk(r).Ok?
    ensures TooMuch(r, SizeForRisk(r).value.quantity + r.step)
  {
    hide FloorStep, Target, Room, IsMultiple, RequestedNotional, Request.Unit, Request.UnitRisk, TooMuch;
    SizeIsMaximalWithinRoom(r);
    AboveTarget(r, SizeForRisk(r).value.quantity + r.step);
  }

  lemma MultiplesApart(a: real, b: real, step: real)
    requires step > 0.0 && IsMultiple(a, step) && IsMultiple(b, step) && a < b
    ensures a + step <= b
  {
    DivideCancels(a, step);
    DivideCancels(b, step);
    var m, n := (a / step).Floor, (b / step).Floor;
    if n <= m {
      ScaledAtMost(n as real, m as real, step, b, a);
    } else {
      StepAbove(m as real, n as real, step, a, b);
    }
  }

  lemma StepAbove(m: real, n: real, step: real, a: real, b: real)
    requires step > 0.0 && m + 1.0 <= n && a == m * step && b == n * step
    ensures a + step <= b
  {
    var next := (m + 1.0) * step;
    NextStep(m, m + 1.0, step, a, next);
    ScaledAtMost(m + 1.0, n, step, next, b);
  }

  /** A request is refused for its step only if every multiple worth the minimum is too much. */
  lemma RefusedIfNothingFits(r: Request, quantity: real)
    requires SizeForRisk(r) in {Err("venue quantity step leaves no valid quantity"), Err("quantity step cannot satisfy minimum notional")}
    requires r.step > 0.0 && IsMultiple(quantity, r.step) && quantity > 0.0 && quantity * r.entry * r.multiplier >= r.minNotional
    ensures TooMuch(r, quantity)
  {
    hide FloorStep, Target, Room, IsMultiple, RequestedNotional, Request.Unit, Request.UnitRisk, TooMuch;
    UnitRiskPositive(r);
    var q := FloorStep(Target(r) / r.Unit(), r.step);
    FloorStepIsMaximal(Target(r) / r.Unit(), r.step, q);
    if quantity <= q {
      Regrouped(quantity, r.entry, r.multiplier, r.Unit());
      Regrouped(q, r.entry, r.multiplier, r.Unit());
      ScaledAtMost(quantity, q, r.Unit(), quantity * r.entry * r.multiplier, q * r.entry * r.multiplier);
    } else {
      MultiplesApart(q, quantity, r.step);
      AboveTarget(r, quantity);
    }
  }

  /** Of the two refusals, the first is for a single step that is already beyond the target. */
  lemma StepRefusedIff(r: Request)
    requires Acceptable(r) && Room(r) > 0.0
    ensures SizeForRisk(r) == Err("venue quantity step leaves no valid quantity") <==> r.step > Target(r) / r.Unit() + FLOOR_SLACK
  {
    hide FloorStep, Target, Room, IsMultiple, RequestedNotional, Request.Unit, Request.UnitRisk;
    UnitRiskPositive(r);
    var value := Target(r) / r.Unit();
    var q := FloorStep(value, r.step);
    FloorStepIsMaximal(value, r.step, q);
    StepIsMultiple(r.step);
    if q > 0.0 {
      MultiplesApart(0.0, q, r.step);
    } else if q < 0.0 {
      MultiplesApart(q, 0.0, r.step);
    }
  }

  lemma StepIsMultiple(step: real)
    requires step > 0.0
    ensures IsMultiple(0.0, step)
  {
    MultipleOfStep(0, step, 0.0);
  }

  /** Exposure is exhausted exactly when what is held already fills the portfolio limit. */
  lemma ExhaustedIff(r: Request)
    ensures SizeForRisk(r) == Err("portfolio exposure or available equity exhausted")
            <==> Acceptable(r) && r.maxTotal.Some? && r.existing >= r.maxTotal.value
  {
    hide FloorStep, Target, RequestedNotional, Request.Unit, Request.UnitRisk;
  }

  /** The flags: capped when the requested risk would buy more than a limit allows, raised when it would buy less than the minimum. */
  lemma FlagsTell(r: Request, worth: real, loss: real)
    requires SizeForRisk(r).Ok? && worth == r.risk * (r.entry * r.multiplier) && loss == Abs(r.entry - r.stop) * r.multiplier
    ensures var s := SizeForRisk(r).value;
            && (s.capped <==> || worth > r.maxNotional * loss
                              || (r.maxTotal.Some? && worth > (r.maxTotal.value - r.existing) * loss)
                              || (r.equity.Some? && worth > r.equity.value * loss))
            && (s.raisedToMinimum <==> worth < r.minNotional * loss)
            && s.effectiveRisk == s.quantity * loss && s.requestedRisk == r.risk
  {
    hide SizeForRisk, Acceptable, Room, RequestedNotional, Request.UnitRisk, Abs;
    FlagsOf(r);
    RequestedWorth(r, worth, loss);
    RoomIsLeast(r);
    BoughtAbove(RequestedNotional(r), r.maxNotional, loss, worth, r.maxNotional * loss);
    BoughtAbove(RequestedNotional(r), r.minNotional, loss, worth, r.minNotional * loss);
    if r.maxTotal.Some? {
      BoughtAbove(RequestedNotional(r), r.maxTotal.value - r.existing, loss, worth, (r.maxTotal.value - r.existing) * loss);
    }
    if r.equity.Some? {
      BoughtAbove(RequestedNotional(r), r.equity.value, loss, worth, r.equity.value * loss);
    }
  }

  lemma FlagsOf(r: Request)
    requires SizeForRisk(r).Ok?
    ensures Acceptable(r)
    ensures var s := SizeForRisk(r).value;
            && (s.capped <==> RequestedNotional(r) > Room(r)) && (s.raisedToMinimum <==> RequestedNotional(r) < r.minNotional)
            && s.effectiveRisk == s.quantity * r.UnitRisk() && s.requestedRisk == r.risk
    ensures r.UnitRisk() == Abs(r.entry - r.stop) * r.multiplier
  {
    hide FloorStep, Target, Acceptable, Room, RequestedNotional, Request.Unit, Abs;
  }

  lemma RoomIsLeast(r: Request)
    ensures Room(r) == r.maxNotional || (r.maxTotal.Some? && Room(r) == r.maxTotal.value - r.existing)
            || (r.equity.Some? && Room(r) == r.equity.value)
  {
  }

  lemma RequestedWorth(r: Request, worth: real, loss: real)
    requires Acceptable(r) && worth == r.risk * (r.entry * r.multiplier) && loss == Abs(r.entry - r.stop) * r.multiplier
    ensures loss > 0.0 && RequestedNotional(r) * loss == worth
  {
    hide Acceptable, RequestedNotional, Request.Unit, Request.UnitRisk, Abs;
    UnitRiskPositive(r);
    RequestedBuys(r);
    Bought(r.risk, loss, r.entry, r.multiplier, r.Unit(), RequestedNotional(r), worth);
  }

  lemma Bought(risk: real, loss: real, entry: real, multiplier: real, unit: real, requested: real, worth: real)
    requires loss > 0.0 && unit == entry * multiplier && requested == risk / loss * entry * multiplier && worth == risk * unit
    ensures requested * loss == worth
  {
    Regrouped(risk / loss, entry, multiplier, unit);
    DivideCancels(risk, loss);
    assert risk / loss * unit * loss == risk / loss * loss * unit;
  }

  lemma BoughtAbove(requested: real, limit: real, loss: real, worth: real, bound: real)
    requires loss > 0.0 && requested * loss == worth && bound == limit * loss
    ensures requested > limit <==> worth > bound
    ensures requested < limit <==> worth < bound
  {
    if requested > limit {
      ScaledBelow(limit, requested, loss, bound, worth);
    } else if requested < limit {
      ScaledBelow(requested, limit, loss, worth, bound);
    }
  }

  lemma RiskPerNotional(risk: real, unitRisk: real, entry: real, multiplier: real, unit: real, target: real)
    requires unitRisk > 0.0 && unit > 0.0 && unit == entry * multiplier
    requires target <= risk / unitRisk * entry * multiplier
    ensures target / unit * unitRisk <= risk
  {
    var quantity := risk / unitRisk;
    assert quantity * entry * multiplier == quantity * unit;
    DivideScaled(target, quantity, unit);
    ScaleMonotone(target / unit, quantity, unitRisk);
    DivideCancels(risk, unitRisk);
  }

  /** Unless it was raised to the venue minimum, a size risks no more than requested, up to the slack of one floor. */
  lemma RiskIsBounded(r: Request)
    requires SizeForRisk(r).Ok? && !SizeForRisk(r).value.raisedToMinimum
    ensures SizeForRisk(r).value.effectiveRisk <= r.risk + FLOOR_SLACK * r.UnitRisk()
  {
    var s := SizeForRisk(r).value;
    FloorStepIsMaximal(Target(r) / r.Unit(), r.step, s.quantity);
    RiskOfTarget(r);
    hide FloorStep, Target, RequestedNotional;
    var perUnit := Target(r) / r.Unit();
    UnitRiskPositive(r);
    ScaleMonotone(s.quantity, perUnit + FLOOR_SLACK, r.UnitRisk());
    SlackDistributes(perUnit, r.UnitRisk());
  }

  lemma SlackDistributes(a: real, k: real)
    ensures (a + FLOOR_SLACK) * k == a * k + FLOOR_SLACK * k
  {
  }

  lemma UnitRiskPositive(r: Request)
    requires Acceptable(r)
    ensures r.UnitRisk() > 0.0 && r.UnitRisk() == Abs(r.entry - r.stop) * r.multiplier
    ensures r.Unit() > 0.0 && r.Unit() == r.entry * r.multiplier
  {
  }

  lemma TargetIsRequested(r: Request)
    requires Acceptable(r) && RequestedNotional(r) >= r.minNotional
    ensures Target(r) <= r.risk / r.UnitRisk() * r.entry * r.multiplier && r.entry > 0.0 && r.multiplier > 0.0
  {
  }

  lemma RiskOfTarget(r: Request)
    requires Acceptable(r) && RequestedNotional(r) >= r.minNotional
    ensures Target(r) / r.Unit() * r.UnitRisk() <= r.risk
  {
    hide Target, Acceptable, Request.Unit, Request.UnitRisk, RequestedNotional;
    UnitRiskPositive(r);
    TargetIsRequested(r);
    RiskPerNotional(r.risk, r.UnitRisk(), r.entry, r.multiplier, r.Unit(), Target(r));
  }

  lemma SlackInNotional(quantity: real, target: real, unit: real, room: real)
    requires unit > 0.0 && target <= room
    requires quantity <= target / unit + FLOOR_SLACK
    ensures quantity * unit <= room + FLOOR_SLACK * unit
  {
    ScaleMonotone(quantity, target / unit + FLOOR_SLACK, unit);
    SlackDistributes(target / unit, unit);
    DivideCancels(target, unit);
  }

  lemma UnitExceeds(notional: real, unit: real, room: real)
    requires notional <= room + FLOOR_SLACK * unit
    requires notional > room + EXPOSURE_SLACK
    ensures unit > 1000.0
  {
  }

  /** The final exposure check can only fire on contracts worth more than a thousand: below that the floor's slack is too small. */
  lemma ExposureErrorNeedsLargeContracts(r: Request)
    requires SizeForRisk(r) == Err("quantity step exceeds portfolio exposure")
    ensures r.Unit() > 1000.0
  {
    hide FloorStep, Target, Room, RequestedNotional;
    var quantity := FloorStep(Target(r) / r.Unit(), r.step);
    FloorStepIsMaximal(Target(r) / r.Unit(), r.step, quantity);
    UnitRiskPositive(r);
    TargetWithinRoom(r);
    SlackInNotional(quantity, Target(r), r.Unit(), Room(r));
    assert quantity * r.entry * r.multiplier == quantity * r.Unit();
    UnitExceeds(quantity * r.Unit(), r.Unit(), Room(r));
  }

  lemma TargetWithinRoom(r: Request)
    requires Acceptable(r)
    ensures Target(r) <= Room(r)
  {
  }
}
