/** Eight-hour funding settlements (src/evaluation/funding_model.py). */
module FundingModel {
  import opened Common

  const EIGHT_HOURS_MS := 28_800_000

  datatype Side = BUY | SELL

  function Opposite(side: Side): Side { if side == BUY then SELL else BUY }

  /** +1 for a long, -1 for a short. */
  function Sign(side: Side): real { if side == BUY then 1.0 else -1.0 }

  datatype FundingLeg = FundingLeg(tsMs: int, rate: real, mark: real, paid: real, received: real)

  predicate IsSettlement(tsMs: int) { tsMs % EIGHT_HOURS_MS == 0 }

  // ---- One settlement -----------------------------------------------------------

  /** (paid, received) of one settlement: the side that owes pays, the other receives. */
  function SettlementLeg(side: Side, quantity: real, mark: real, rate: real): (leg: (real, real))
    ensures leg.0 >= 0.0 && leg.1 >= 0.0 && (leg.0 == 0.0 || leg.1 == 0.0)
    ensures leg.0 - leg.1 == Sign(side) * (quantity * mark * rate)
  {
    var value := quantity * mark * rate;
    if side == BUY then (Max(value, 0.0), Max(-value, 0.0)) else (Max(-value, 0.0), Max(value, 0.0))
  }

  /** The non-settlement proxy accrual of the paper exchange. */
  function PerBarLeg(side: Side, quantity: real, mark: real, rate: real): (leg: (real, real)) {
    if side == BUY then (Max(quantity * mark * rate, 0.0), Max(-quantity * mark * rate, 0.0))
    else (Max(-quantity * mark * rate, 0.0), Max(quantity * mark * rate, 0.0))
  }

  /** One proxy accrual charges exactly what one settlement charges; only its frequency differs. */
  lemma PerBarChargesOneSettlement(side: Side, quantity: real, mark: real, rate: real)
    ensures PerBarLeg(side, quantity, mark, rate) == SettlementLeg(side, quantity, mark, rate)
  {
    assert -quantity * mark == -(quantity * mark);
    assert -quantity * mark * rate == -(quantity * mark * rate);
  }

  // ---- The settlement calendar --------------------------------------------------

  /** All settlements with a < k <= b, counted in whole eight-hour periods. */
  function Calendar(a: int, b: int): (ts: seq<int>) {
    if a >= b then [] else seq(b - a, i requires 0 <= i => (a + 1 + i) * EIGHT_HOURS_MS)
  }

  method SettlementTimestampsInRange(startMs: int, endMs: int) returns (out: seq<int>)
    ensures out == Calendar(startMs / EIGHT_HOURS_MS, endMs / EIGHT_HOURS_MS)
  {
    if endMs <= startMs {
      assert endMs / EIGHT_HOURS_MS <= startMs / EIGHT_HOURS_MS;
      return [];
    }
    var first := (startMs / EIGHT_HOURS_MS + 1) * EIGHT_HOURS_MS;
    out := [];
    var ts := first;
    while ts <= endMs
      invariant ts == (startMs / EIGHT_HOURS_MS + 1 + |out|) * EIGHT_HOURS_MS
      invariant ts <= endMs + EIGHT_HOURS_MS
      invariant out == Calendar(startMs / EIGHT_HOURS_MS, startMs / EIGHT_HOURS_MS + |out|)
    {
      out := out + [ts];
      ts := ts + EIGHT_HOURS_MS;
    }
  }

  /** The calendar is exactly the set of settlement times in (start, end], in order. */
  lemma CalendarIsTheSettlements(startMs: int, endMs: int)
    ensures var ts := Calendar(startMs / EIGHT_HOURS_MS, endMs / EIGHT_HOURS_MS);
            && (forall t :: t in ts <==> startMs < t <= endMs && t % (8 * 60 * 60 * 1000) == 0)
            && (forall i, j :: 0 <= i < j < |ts| ==> ts[i] < ts[j])
            && |ts| == MaxInt(0, endMs / EIGHT_HOURS_MS - startMs / EIGHT_HOURS_MS)
  {
    var a, b := startMs / EIGHT_HOURS_MS, endMs / EIGHT_HOURS_MS;
    var ts := Calendar(a, b);
    forall t ensures t in ts <==> startMs < t <= endMs && IsSettlement(t) {
      if startMs < t <= endMs && IsSettlement(t) {
        var k := t / EIGHT_HOURS_MS;
        assert t == k * EIGHT_HOURS_MS;
        assert a < k <= b;
        assert ts[k - a - 1] == t;
      }
    }
  }

  // ---- A whole position -----------------------------------------------------------

  /** Market data along a holding period: the mark and the rate at each settlement. */
  datatype Curve = Curve(mark: int -> real, rate: int -> real)

  /** Net funding (paid minus received) over the given settlements, as a signed notional sum. */
  ghost function NetFunding(side: Side, quantity: real, ts: seq<int>, c: Curve): real {
    if |ts| == 0 then 0.0
    else NetFunding(side, quantity, ts[..|ts| - 1], c)
         + Sign(side) * (quantity * c.mark(ts[|ts| - 1]) * c.rate(ts[|ts| - 1]))
  }

  ghost function PositionFunding(side: Side, quantity: real, entryMs: int, exitMs: int, c: Curve): real {
    NetFunding(side, quantity, Calendar(entryMs / EIGHT_HOURS_MS, exitMs / EIGHT_HOURS_MS), c)
  }

  ghost function Paid(legs: seq<FundingLeg>): real {
    if |legs| == 0 then 0.0 else Paid(legs[..|legs| - 1]) + legs[|legs| - 1].paid
  }

  ghost function Received(legs: seq<FundingLeg>): real {
    if |legs| == 0 then 0.0 else Received(legs[..|legs| - 1]) + legs[|legs| - 1].received
  }

  method ReconcileFundingLegs(legs: seq<FundingLeg>) returns (net: real)
    ensures net == Paid(legs) - Received(legs)
  {
    var paid, received := 0.0, 0.0;
    for i := 0 to |legs|
      invariant paid == Paid(legs[..i]) && received == Received(legs[..i])
    {
      assert legs[..i + 1][..i] == legs[..i];
      paid, received := paid + legs[i].paid, received + legs[i].received;
    }
    assert legs[..|legs|] == legs;
    net := paid - received;
  }

  lemma NothingFunded(side: Side, quantity: real, c: Curve)
    ensures NetFunding(side, quantity, [], c) == 0.0 && Paid([]) == 0.0 && Received([]) == 0.0
  {
  }

  lemma LegsAppend(legs: seq<FundingLeg>, leg: FundingLeg)
    ensures Paid(legs + [leg]) == Paid(legs) + leg.paid && Received(legs + [leg]) == Received(legs) + leg.received
  {
    assert (legs + [leg])[..|legs|] == legs;
  }

  lemma NetFundingStep(side: Side, quantity: real, ts: seq<int>, i: nat, c: Curve)
    requires i < |ts|
    ensures var (paid, received) := SettlementLeg(side, quantity, c.mark(ts[i]), c.rate(ts[i]));
            NetFunding(side, quantity, ts[..i + 1], c) == NetFunding(side, quantity, ts[..i], c) + paid - received
  {
    assert ts[..i + 1][..i] == ts[..i];
    LegNet(side, quantity, c.mark(ts[i]), c.rate(ts[i]));
    hide SettlementLeg;
  }

  lemma LegNet(side: Side, quantity: real, mark: real, rate: real)
    ensures var (paid, received) := SettlementLeg(side, quantity, mark, rate);
            paid - received == Sign(side) * (quantity * mark * rate)
  {
  }

  /** The funding bill of a position: it equals the signed sum over the calendar, and its own legs reconcile to it. */
  method ComputePositionFunding(side: Side, quantity: real, entryMs: int, exitMs: int, c: Curve)
    returns (net: real, legs: seq<FundingLeg>)
    ensures net == PositionFunding(side, quantity, entryMs, exitMs, c)
    ensures net == Paid(legs) - Received(legs)
    ensures |legs| == |Calendar(entryMs / EIGHT_HOURS_MS, exitMs / EIGHT_HOURS_MS)|
    ensures forall i :: 0 <= i < |legs| ==>
              && legs[i].tsMs == Calendar(entryMs / EIGHT_HOURS_MS, exitMs / EIGHT_HOURS_MS)[i]
              && (legs[i].paid, legs[i].received) == SettlementLeg(side, quantity, legs[i].mark, legs[i].rate)
  {
    hide SettlementLeg, IsSettlement, NetFunding, Paid, Received;
    NothingFunded(side, quantity, c);
    if exitMs <= entryMs {
      assert exitMs / EIGHT_HOURS_MS <= entryMs / EIGHT_HOURS_MS;
      return 0.0, [];
    }
    var totalPaid, totalReceived := 0.0, 0.0;
    legs := [];
    var ts := SettlementTimestampsInRange(entryMs, exitMs);
    for i := 0 to |ts|
      invariant |legs| == i
      invariant totalPaid == Paid(legs) && totalReceived == Received(legs)
      invariant totalPaid - totalReceived == NetFunding(side, quantity, ts[..i], c)
      invariant forall k :: 0 <= k < i ==>
                  && legs[k].tsMs == ts[k]
                  && (legs[k].paid, legs[k].received) == SettlementLeg(side, quantity, legs[k].mark, legs[k].rate)
    {
      var mark, rate := c.mark(ts[i]), c.rate(ts[i]);
      var (paid, received) := SettlementLeg(side, quantity, mark, rate);
      NetFundingStep(side, quantity, ts, i, c);
      var leg := FundingLeg(ts[i], rate, mark, paid, received);
      LegsAppend(legs, leg);
      totalPaid, totalReceived := totalPaid + paid, totalReceived + received;
      legs := legs + [leg];
    }
    assert ts[..|ts|] == ts;
    net := totalPaid - totalReceived;
  }

  lemma {:induction false} NetFundingConcat(side: Side, quantity: real, a: seq<int>, b: seq<int>, c: Curve)
    ensures NetFunding(side, quantity, a + b, c) == NetFunding(side, quantity, a, c) + NetFunding(side, quantity, b, c)
    decreases |b|
  {
    if |b| == 0 {
      assert a + b == a;
    } else {
      NetFundingConcat(side, quantity, a, b[..|b| - 1], c);
      assert (a + b)[..|a + b| - 1] == a + b[..|b| - 1];
    }
  }

  /** Funding is additive at every cut point: closing and reopening at the same instant costs nothing. */
  lemma FundingSplitsAtAnyCut(side: Side, quantity: real, entryMs: int, cutMs: int, exitMs: int, c: Curve)
    requires entryMs <= cutMs <= exitMs
    ensures PositionFunding(side, quantity, entryMs, exitMs, c)
         == PositionFunding(side, quantity, entryMs, cutMs, c) + PositionFunding(side, quantity, cutMs, exitMs, c)
  {
    var x, y, z := entryMs / EIGHT_HOURS_MS, cutMs / EIGHT_HOURS_MS, exitMs / EIGHT_HOURS_MS;
    assert Calendar(x, z) == Calendar(x, y) + Calendar(y, z);
    NetFundingConcat(side, quantity, Calendar(x, y), Calendar(y, z), c);
  }

  /** A long and a short of the same size settle to zero against each other. */
  lemma {:induction false} FundingNegatesWithSide(side: Side, quantity: real, ts: seq<int>, c: Curve)
    ensures NetFunding(Opposite(side), quantity, ts, c) == -NetFunding(side, quantity, ts, c)
  {
    if |ts| > 0 {
      FundingNegatesWithSide(side, quantity, ts[..|ts| - 1], c);
    }
  }
}
