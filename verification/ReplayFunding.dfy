/**
 What funding a replayed trade is billed, from the recorded rates of its bars: the amount, who pays, and what
 swapping the side or the rates does to it (src/evaluation/baseline.py).
*/
module ReplayFunding {
  import opened Common
  import opened FundingModel
  import opened ReplayModel

  /** The bars after i up to and including x. */
  function Later(i: nat, x: nat): seq<int>
    requires i <= x
  {
    seq(x - i, k requires 0 <= k < x - i => i + 1 + k)
  }

  /**
   The curve quotes each later bar's mark and the rate it is billed at: the recorded one if rates are to be taken
   as recorded, and otherwise the configured basis points in the direction of the recorded one.
  */
  ghost predicate Quotes(curve: Curve, cfg: ReplayConfig, w: seq<Snapshot>, i: nat, x: nat)
    requires i <= x < |w|
  {
    forall j :: i < j <= x ==>
      && curve.mark(j) == w[j].mark
      && var recorded := w[j].fundingRate;
         if recorded.None? then curve.rate(j) == 0.0
         else if cfg.realFunding then curve.rate(j) == recorded.value
         else if recorded.value > 0.0 then curve.rate(j) == cfg.fundingBps / 10000.0
         else if recorded.value < 0.0 then curve.rate(j) == -(cfg.fundingBps / 10000.0)
         else curve.rate(j) == 0.0
  }

  lemma QuotedRate(curve: Curve, cfg: ReplayConfig, w: seq<Snapshot>, i: nat, j: nat)
    requires i < j < |w| && Quotes(curve, cfg, w, i, j)
    ensures curve.mark(j) == w[j].mark && curve.rate(j) == RateAt(cfg, w[j])
  {
  }

  lemma LaterAppend(i: nat, j: nat)
    requires i < j
    ensures Later(i, j) == Later(i, j - 1) + [j]
  {
  }

  lemma NetFundingAppend(side: Side, quantity: real, ts: seq<int>, t: int, c: Curve, leg: real)
    requires leg == Sign(side) * (quantity * c.mark(t) * c.rate(t))
    ensures NetFunding(side, quantity, ts + [t], c) == NetFunding(side, quantity, ts, c) + leg
  {
    assert (ts + [t])[..|ts|] == ts;
  }

  /** One more bar's leg. */
  lemma BilledStep(cfg: ReplayConfig, w: seq<Snapshot>, i: nat, j: nat, e: Entry, leg: real)
    requires i < j < |w| && leg == Sign(e.side) * (e.quantity * w[j].mark * RateAt(cfg, w[j]))
    ensures PaidUpTo(cfg, w, i, j, e) - ReceivedUpTo(cfg, w, i, j, e)
         == PaidUpTo(cfg, w, i, j - 1, e) - ReceivedUpTo(cfg, w, i, j - 1, e) + leg
  {
    hide RateAt, SettlementLeg, Sign;
    LegNet(e.side, e.quantity, w[j].mark, RateAt(cfg, w[j]));
  }

  lemma NothingBilled(cfg: ReplayConfig, w: seq<Snapshot>, i: nat, e: Entry)
    requires i < |w|
    ensures PaidUpTo(cfg, w, i, i, e) - ReceivedUpTo(cfg, w, i, i, e) == 0.0
  {
  }

  lemma {:induction false} BillUpTo(curve: Curve, cfg: ReplayConfig, w: seq<Snapshot>, i: nat, j: nat, e: Entry)
    requires i <= j < |w| && Quotes(curve, cfg, w, i, j)
    ensures PaidUpTo(cfg, w, i, j, e) - ReceivedUpTo(cfg, w, i, j, e) == NetFunding(e.side, e.quantity, Later(i, j), curve)
    decreases j
  {
    hide RateAt, PaidUpTo, ReceivedUpTo, NetFunding, Sign;
    if i == j {
      NothingBilled(cfg, w, i, e);
      NothingFunded(e.side, e.quantity, curve);
      assert Later(i, j) == [];
    } else {
      BillUpTo(curve, cfg, w, i, j - 1, e);
      QuotedRate(curve, cfg, w, i, j);
      LaterAppend(i, j);
      var leg := Sign(e.side) * (e.quantity * w[j].mark * RateAt(cfg, w[j]));
      BilledStep(cfg, w, i, j, e, leg);
      NetFundingAppend(e.side, e.quantity, Later(i, j - 1), j, curve, leg);
    }
  }

  /** A replayed trade is billed the model's net funding over the bars it was held, at those marks and rates. */
  lemma TradeIsBilled(curve: Curve, cfg: ReplayConfig, w: seq<Snapshot>, end: nat, i: nat, e: Entry)
    requires i <= end < |w| && Quotes(curve, cfg, w, i, ExitIndex(w, end, i, e))
    ensures TradeAt(cfg, w, end, i, e).funding == NetFunding(e.side, e.quantity, Later(i, ExitIndex(w, end, i, e)), curve)
  {
    hide ExitIndex, PaidUpTo, ReceivedUpTo, NetFunding, ExecutionPrice;
    BillUpTo(curve, cfg, w, i, ExitIndex(w, end, i, e), e);
  }

  /** Such a curve always exists. */
  lemma CurveOf(cfg: ReplayConfig, w: seq<Snapshot>, i: nat, x: nat) returns (curve: Curve)
    requires i <= x < |w|
    ensures Quotes(curve, cfg, w, i, x)
  {
    curve := Curve((j: int) => if 0 <= j < |w| then w[j].mark else 0.0, (j: int) => if 0 <= j < |w| then RateAt(cfg, w[j]) else 0.0);
  }

  // ---- Who pays --------------------------------------------------------------------------------

  /** The later bars have positive marks and no negative recorded rate. */
  ghost predicate RatesUp(w: seq<Snapshot>, i: nat, x: nat)
    requires i <= x < |w|
  {
    forall j :: i < j <= x ==> w[j].mark > 0.0 && (w[j].fundingRate.Some? ==> w[j].fundingRate.value >= 0.0)
  }

  /** Some later bar has a positive recorded rate. */
  ghost predicate SomeRateUp(w: seq<Snapshot>, i: nat, x: nat)
    requires i <= x < |w|
  {
    exists j :: i < j <= x && w[j].fundingRate.Some? && w[j].fundingRate.value > 0.0
  }

  lemma BillSign(sigma: real, quantity: real, mark: real, rate: real, leg: real)
    requires sigma == 1.0 && quantity > 0.0 && mark > 0.0 && rate >= 0.0 && leg == sigma * (quantity * mark * rate)
    ensures leg >= 0.0 && (rate > 0.0 ==> leg > 0.0)
  {
    var worth := quantity * mark;
    PositiveProduct(quantity, mark);
    if rate > 0.0 {
      PositiveProduct(worth, rate);
    }
  }

  lemma {:induction false} LongsPayUpTo(curve: Curve, cfg: ReplayConfig, w: seq<Snapshot>, i: nat, j: nat, quantity: real)
    requires i <= j < |w| && Quotes(curve, cfg, w, i, j) && RatesUp(w, i, j)
    requires quantity > 0.0 && cfg.fundingBps >= 0.0
    ensures NetFunding(BUY, quantity, Later(i, j), curve) >= 0.0
    ensures SomeRateUp(w, i, j) && (cfg.realFunding || cfg.fundingBps > 0.0) ==> NetFunding(BUY, quantity, Later(i, j), curve) > 0.0
    decreases j
  {
    hide NetFunding;
    if i == j {
      NothingFunded(BUY, quantity, curve);
      assert Later(i, j) == [];
    } else {
      LongsPayUpTo(curve, cfg, w, i, j - 1, quantity);
      LaterAppend(i, j);
      var leg := Sign(BUY) * (quantity * curve.mark(j) * curve.rate(j));
      NetFundingAppend(BUY, quantity, Later(i, j - 1), j, curve, leg);
      BillSign(Sign(BUY), quantity, curve.mark(j), curve.rate(j), leg);
    }
  }

  /**
   With rates recorded at or above zero, a long never receives funding; it pays as soon as one later bar's rate is
   above zero and is billed at all.
  */
  lemma LongsPayPositiveRates(cfg: ReplayConfig, w: seq<Snapshot>, end: nat, i: nat, e: Entry)
    requires i <= end < |w| && e.side == BUY && e.quantity > 0.0 && cfg.fundingBps >= 0.0
    requires RatesUp(w, i, ExitIndex(w, end, i, e))
    ensures TradeAt(cfg, w, end, i, e).funding >= 0.0
    ensures SomeRateUp(w, i, ExitIndex(w, end, i, e)) && (cfg.realFunding || cfg.fundingBps > 0.0) ==> TradeAt(cfg, w, end, i, e).funding > 0.0
  {
    hide TradeAt, ExitIndex, NetFunding, RatesUp, SomeRateUp;
    var x := ExitIndex(w, end, i, e);
    var curve := CurveOf(cfg, w, i, x);
    TradeIsBilled(curve, cfg, w, end, i, e);
    LongsPayUpTo(curve, cfg, w, i, x, e.quantity);
  }

  // ---- Swapping sides and rates ------------------------------------------------------------------

  /** The same two levels held from the other side. */
  function Mirrored(e: Entry): Entry { e.(side := Opposite(e.side), stop := e.target, target := e.stop) }

  lemma {:induction false} MirroredExits(w: seq<Snapshot>, end: nat, i: nat, j: nat, e: Entry)
    requires i < j <= end + 1 <= |w|
    ensures ExitFrom(w, end, i, j, Mirrored(e)) == ExitFrom(w, end, i, j, e)
    decreases end + 1 - j
  {
    if j <= end {
      MirroredExits(w, end, i, j + 1, e);
    }
  }

  /** The other side of a trade leaves at the same bar with the opposite funding. */
  lemma MirroredFunding(cfg: ReplayConfig, w: seq<Snapshot>, end: nat, i: nat, e: Entry)
    requires i <= end < |w|
    ensures ExitIndex(w, end, i, Mirrored(e)) == ExitIndex(w, end, i, e)
    ensures TradeAt(cfg, w, end, i, Mirrored(e)).funding == -TradeAt(cfg, w, end, i, e).funding
  {
    hide TradeAt, NetFunding;
    MirroredExits(w, end, i, i + 1, e);
    var x := ExitIndex(w, end, i, e);
    var curve := CurveOf(cfg, w, i, x);
    TradeIsBilled(curve, cfg, w, end, i, e);
    TradeIsBilled(curve, cfg, w, end, i, Mirrored(e));
    FundingNegatesWithSide(e.side, e.quantity, Later(i, x), curve);
  }

  /** The same history with every recorded rate negated. */
  ghost predicate RatesNegated(w: seq<Snapshot>, v: seq<Snapshot>) {
    && |w| == |v|
    && forall j :: 0 <= j < |w| ==>
         v[j] == w[j].(fundingRate := if w[j].fundingRate.Some? then Some(-w[j].fundingRate.value) else None)
  }

  lemma {:induction false} NegatedExits(w: seq<Snapshot>, v: seq<Snapshot>, end: nat, i: nat, j: nat, e: Entry)
    requires RatesNegated(w, v) && i < j <= end + 1 <= |w|
    ensures ExitFrom(v, end, i, j, e) == ExitFrom(w, end, i, j, e)
    decreases end + 1 - j
  {
    if j <= end {
      NegatedExits(w, v, end, i, j + 1, e);
    }
  }

  lemma {:induction false} NegatedBill(side: Side, quantity: real, ts: seq<int>, a: Curve, b: Curve)
    requires forall t :: t in ts ==> b.mark(t) == a.mark(t) && b.rate(t) == -a.rate(t)
    ensures NetFunding(side, quantity, ts, b) == -NetFunding(side, quantity, ts, a)
  {
    hide Sign;
    if |ts| > 0 {
      var n := |ts| - 1;
      assert ts[n] in ts;
      NegatedBill(side, quantity, ts[..n], a, b);
      var t := ts[n];
      NegatedLeg(Sign(side), quantity, a.mark(t), a.rate(t), b.rate(t),
                 Sign(side) * (quantity * a.mark(t) * a.rate(t)), Sign(side) * (quantity * b.mark(t) * b.rate(t)));
    }
  }

  lemma NegatedLeg(sigma: real, quantity: real, mark: real, rate: real, negated: real, leg: real, opposite: real)
    requires negated == -rate && leg == sigma * (quantity * mark * rate) && opposite == sigma * (quantity * mark * negated)
    ensures opposite == -leg
  {
    var worth := quantity * mark;
    NegatedProduct(worth, rate, negated, worth * rate, worth * negated);
    NegatedProduct(sigma, worth * rate, worth * negated, leg, opposite);
  }

  lemma NegatedProduct(a: real, b: real, c: real, ab: real, ac: real)
    requires c == -b && ab == a * b && ac == a * c
    ensures ac == -ab
  {
  }

  lemma NegatedQuotes(curve: Curve, negated: Curve, cfg: ReplayConfig, w: seq<Snapshot>, v: seq<Snapshot>, i: nat, x: nat)
    requires RatesNegated(w, v) && i <= x < |w| && Quotes(curve, cfg, w, i, x) && Quotes(negated, cfg, v, i, x)
    ensures forall t :: t in Later(i, x) ==> negated.mark(t) == curve.mark(t) && negated.rate(t) == -curve.rate(t)
  {
    forall t | t in Later(i, x) ensures negated.mark(t) == curve.mark(t) && negated.rate(t) == -curve.rate(t) {
      assert i < t <= x;
      assert v[t].mark == w[t].mark;
    }
  }

  /** Negating every recorded rate negates a trade's funding, whether rates are taken as recorded or by direction. */
  lemma NegatedRatesNegateFunding(cfg: ReplayConfig, w: seq<Snapshot>, v: seq<Snapshot>, end: nat, i: nat, e: Entry)
    requires RatesNegated(w, v) && i <= end < |w|
    ensures TradeAt(cfg, v, end, i, e).funding == -TradeAt(cfg, w, end, i, e).funding
  {
    hide TradeAt, NetFunding, Quotes;
    NegatedExits(w, v, end, i, i + 1, e);
    var x := ExitIndex(w, end, i, e);
    var curve := CurveOf(cfg, w, i, x);
    var negated := CurveOf(cfg, v, i, x);
    TradeIsBilled(curve, cfg, w, end, i, e);
    TradeIsBilled(negated, cfg, v, end, i, e);
    NegatedQuotes(curve, negated, cfg, w, v, i, x);
    NegatedBill(e.side, e.quantity, Later(i, x), curve, negated);
  }
}
