/**
 The exchange and the funding model charge the same bill, and what reduce-only does and does not promise.
*/
module ExchangeFunding {
  import opened Common
  import opened FundingModel
  import opened Venue
  import opened Exchange
  import opened ExchangeLaws
  import opened ExchangeOrders

  // ---- Feeding settlements to the exchange ------------------------------------------------

  ghost function Feed(c: Config, b: Book, events: seq<MarketEvent>): (b': Book)
    requires c.Valid() && Fillable(b)
    ensures Fillable(b')
  {
    if |events| == 0 then b
    else
      var before := Feed(c, b, events[..|events| - 1]);
      EventKeepsFillable(c, before, events[|events| - 1]);
      ApplyEvent(c, before, events[|events| - 1])
  }

  lemma {:induction false} TouchAllGrowsFills(c: Config, b: Book, ids: seq<OrderId>, e: MarketEvent)
    requires c.Valid() && Fillable(b)
    ensures var b' := TouchAll(c, b, ids, e);
            && b.fills <= b'.fills && b'.lastSequence == b.lastSequence
            && (|b'.fills| == |b.fills| ==> b' == b)
  {
    hide Rebook, MakeFill, TouchQuantity, Triggers;
    if |ids| > 0 {
      TouchAllGrowsFills(c, b, ids[..|ids| - 1], e);
    }
  }

  /** An event never unwrites a fill; one that adds none only records its quote, sequence and funding. */
  lemma QuietEvent(c: Config, b: Book, e: MarketEvent)
    requires c.Valid() && Fillable(b)
    ensures var b' := ApplyEvent(c, b, e);
            && b.fills <= b'.fills
            && (Accepted(b, e) ==> b'.lastSequence == b.lastSequence[e.symbol := e.sequence])
            && (Accepted(b, e) && |b'.fills| == |b.fills| ==> b' == Quoted(b, e))
  {
    hide Rebook, MakeFill, Triggers, TouchAll, SettlementLeg, PerBarLeg, MarketPrice;
    if Accepted(b, e) {
      var quoted := Quoted(b, e);
      TouchAllGrowsFills(c, quoted, quoted.ids, e);
    }
  }

  /** One event per settlement, in order, carrying that settlement's mark and rate, none of them stale. */
  ghost predicate Settlements(b: Book, s: string, ts: seq<int>, curve: Curve, events: seq<MarketEvent>) {
    && |events| == |ts|
    && (forall i :: 0 <= i < |ts| ==>
          && IsSettlement(ts[i])
          && events[i].symbol == s && events[i].tsMs == ts[i]
          && events[i].mark == curve.mark(ts[i]) && events[i].fundingRate == curve.rate(ts[i])
          && (if s in b.lastSequence then b.lastSequence[s] else -1) < events[i].sequence)
    && (forall i, j :: 0 <= i < j < |ts| ==> events[i].sequence < events[j].sequence)
  }

  /**
   Fed one event per settlement, the exchange adds to a position no fill touches exactly the funding the
   model bills for it, and adds the same to its own totals.
  */
  lemma {:induction false} ExchangeAccruesModelFunding(
      c: Config, b: Book, s: string, ts: seq<int>, curve: Curve, events: seq<MarketEvent>)
    requires c.Valid() && Fillable(b) && s in b.positions
    requires Settlements(b, s, ts, curve, events)
    requires |Feed(c, b, events).fills| == |b.fills|
    ensures var b' := Feed(c, b, events);
            var p := b.positions[s];
            && b'.fills == b.fills
            && s in b'.positions
            && (b'.positions[s].side, b'.positions[s].quantity) == (p.side, p.quantity)
            && b'.positions[s].NetFunding() - p.NetFunding() == NetFunding(p.side, p.quantity, ts, curve)
            && (b'.fundingPaid - b'.fundingReceived) - (b.fundingPaid - b.fundingReceived)
               == NetFunding(p.side, p.quantity, ts, curve)
            && (|events| > 0 ==> s in b'.lastSequence && b'.lastSequence[s] == events[|events| - 1].sequence)
            && (|events| == 0 ==> b' == b)
    decreases |events|
  {
    hide ApplyEvent, Quoted, Sign, IsSettlement;
    if |events| > 0 {
      var n := |events| - 1;
      var before := Feed(c, b, events[..n]);
      FeedGrowsFills(c, b, events[..n]);
      QuietEvent(c, before, events[n]);
      ExchangeAccruesModelFunding(c, b, s, ts[..n], curve, events[..n]);
      assert Accepted(before, events[n]) by {
        if n > 0 { assert events[n - 1].sequence < events[n].sequence; }
      }
      assert Feed(c, b, events) == Quoted(before, events[n]);
      QuotedAccrues(before, events[n]);
      assert curve.mark(ts[n]) == events[n].mark && curve.rate(ts[n]) == events[n].fundingRate;
    }
  }

  lemma {:induction false} FeedGrowsFills(c: Config, b: Book, events: seq<MarketEvent>)
    requires c.Valid() && Fillable(b)
    ensures b.fills <= Feed(c, b, events).fills
  {
    if |events| > 0 {
      FeedGrowsFills(c, b, events[..|events| - 1]);
      QuietEvent(c, Feed(c, b, events[..|events| - 1]), events[|events| - 1]);
    }
  }

  lemma QuotedAccrues(b: Book, e: MarketEvent)
    requires e.symbol in b.positions
    ensures e.symbol in Quoted(b, e).positions
    ensures var b' := Quoted(b, e);
            var p, p' := b.positions[e.symbol], b'.positions[e.symbol];
            var bill := Sign(p.side) * (p.quantity * e.mark * e.fundingRate);
            && (p'.side, p'.quantity) == (p.side, p.quantity)
            && p'.NetFunding() - p.NetFunding() == bill
            && (b'.fundingPaid - b'.fundingReceived) - (b.fundingPaid - b.fundingReceived) == bill
  {
    hide SettlementLeg, PerBarLeg;
    var p := b.positions[e.symbol];
    PerBarChargesOneSettlement(p.side, p.quantity, e.mark, e.fundingRate);
  }

  // ---- With other traffic in between -------------------------------------------------------

  /** The sequence number an event in a symbol has to exceed. */
  function SequenceOf(b: Book, s: string): int { if s in b.lastSequence then b.lastSequence[s] else -1 }

  /** The same, once these events are in. */
  ghost function LastSequence(b: Book, s: string, events: seq<MarketEvent>): int {
    if |events| == 0 then SequenceOf(b, s)
    else
      var e, last := events[|events| - 1], LastSequence(b, s, events[..|events| - 1]);
      if e.symbol == s && last < e.sequence then e.sequence else last
  }

  ghost predicate Bills(e: MarketEvent, t: int, curve: Curve) {
    IsSettlement(t) && e.tsMs == t && e.mark == curve.mark(t) && e.fundingRate == curve.rate(t)
  }

  /**
   The events carry the bill of each settlement in s, in order and never stale; in between anything may come that
   is another symbol's, stale, or without a rate.
  */
  ghost predicate Carries(b: Book, s: string, ts: seq<int>, curve: Curve, events: seq<MarketEvent>)
    decreases |events|
  {
    if |events| == 0 then ts == []
    else
      var n, m := |events| - 1, |ts| - 1;
      var e, last := events[n], LastSequence(b, s, events[..n]);
      || ((e.symbol != s || e.sequence <= last || e.fundingRate == 0.0) && Carries(b, s, ts, curve, events[..n]))
      || (m >= 0 && e.symbol == s && last < e.sequence && Bills(e, ts[m], curve) && Carries(b, s, ts[..m], curve, events[..n]))
  }

  /** The fills from a position in the log onwards leave a symbol alone. */
  ghost predicate Untouched(fills: seq<Fill>, from: nat, s: string) {
    forall i :: from <= i < |fills| ==> fills[i].symbol != s
  }

  /** Whatever changed, it changed in this symbol: the log grew by its fills, and other positions stand. */
  ghost predicate OnlyIn(b: Book, b': Book, s: string) {
    && b.fills <= b'.fills && (forall i :: |b.fills| <= i < |b'.fills| ==> b'.fills[i].symbol == s)
    && b'.positions - {s} == b.positions - {s}
    && forall k :: k != s ==> SequenceOf(b', k) == SequenceOf(b, k)
  }

  lemma TouchOnlyIn(c: Config, b: Book, id: OrderId, e: MarketEvent)
    requires c.Valid() && Fillable(b)
    ensures OnlyIn(b, Touch(c, b, id, e), e.symbol)
  {
    hide TouchQuantity, Rebook;
    if id in b.orders && Triggers(b.orders[id], e) {
      var o := b.orders[id];
      var qty := TouchQuantity(c, o);
      TouchPositive(c, o);
      var o' := o.(status := if qty >= o.quantity - o.filled then FILLED else PARTIALLY_FILLED, filled := o.filled + qty);
      FillShape(c, b.(orders := b.orders[id := o']), o', qty, o.price.value);
    }
  }

  lemma OnlyInThenOnlyIn(a: Book, b: Book, c: Book, s: string)
    requires OnlyIn(a, b, s) && OnlyIn(b, c, s)
    ensures OnlyIn(a, c, s)
  {
    forall i | |a.fills| <= i < |c.fills| ensures c.fills[i].symbol == s {
      if i < |b.fills| { assert c.fills[i] == b.fills[i]; }
    }
  }

  lemma {:induction false} TouchAllOnlyIn(c: Config, b: Book, ids: seq<OrderId>, e: MarketEvent)
    requires c.Valid() && Fillable(b)
    ensures OnlyIn(b, TouchAll(c, b, ids, e), e.symbol)
  {
    hide Touch, OnlyIn, Fillable;
    if |ids| == 0 {
      NothingChanged(b, e.symbol);
    } else {
      var front := ids[..|ids| - 1];
      TouchAllOnlyIn(c, b, front, e);
      TouchOnlyIn(c, TouchAll(c, b, front, e), ids[|ids| - 1], e);
      OnlyInThenOnlyIn(b, TouchAll(c, b, front, e), TouchAll(c, b, ids, e), e.symbol);
    }
  }

  lemma NothingChanged(b: Book, s: string)
    ensures OnlyIn(b, b, s)
  {
  }

  lemma ProtectOnlyIn(c: Config, b: Book, e: MarketEvent)
    requires PositivePositions(b.positions)
    ensures OnlyIn(b, Protect(c, b, e), e.symbol)
  {
    hide Rebook, MakeFill;
    if e.symbol in b.positions && Breached(b.positions[e.symbol], e.mark) {
      var o := ProtectiveOrder(c, b, e);
      FillShape(c, b, o, o.quantity, o.price.value);
    }
  }

  lemma QuotedOnlyIn(b: Book, e: MarketEvent)
    ensures OnlyIn(b, Quoted(b, e), e.symbol)
  {
    hide SettlementLeg, PerBarLeg;
  }

  /** A market event changes nothing outside its symbol. */
  lemma EventOnlyIn(c: Config, b: Book, e: MarketEvent)
    requires c.Valid() && Fillable(b)
    ensures OnlyIn(b, ApplyEvent(c, b, e), e.symbol)
  {
    hide Quoted, TouchAll, Protect, OnlyIn, Fillable;
    NothingChanged(b, e.symbol);
    if Accepted(b, e) {
      var quoted := Quoted(b, e);
      QuotedOnlyIn(b, e);
      Exchange.QuotedKeepsFillable(b, e);
      TouchAllOnlyIn(c, quoted, quoted.ids, e);
      var touched := TouchAll(c, quoted, quoted.ids, e);
      FillableIsPositive(touched);
      ProtectOnlyIn(c, touched, e);
      OnlyInThenOnlyIn(b, quoted, touched, e.symbol);
      OnlyInThenOnlyIn(b, touched, Protect(c, touched, e), e.symbol);
    }
  }

  lemma FillableIsPositive(b: Book)
    requires Fillable(b)
    ensures PositivePositions(b.positions)
  {
  }

  /** What one event does to a position in s when it fills nothing there. */
  lemma QuietStep(c: Config, b: Book, e: MarketEvent, s: string)
    requires c.Valid() && Fillable(b) && s in b.positions && Untouched(ApplyEvent(c, b, e).fills, |b.fills|, s)
    ensures var b' := ApplyEvent(c, b, e);
            && s in b'.positions && SequenceOf(b', s) == (if e.symbol == s && SequenceOf(b, s) < e.sequence then e.sequence else SequenceOf(b, s))
            && var p, p' := b.positions[s], b'.positions[s];
               && (p'.side, p'.quantity) == (p.side, p.quantity)
               && p'.NetFunding() - p.NetFunding()
                  == if e.symbol == s && Accepted(b, e) then Sign(p.side) * (p.quantity * e.mark * e.fundingRate) else 0.0
  {
    hide ApplyEvent, Quoted, Fillable, Untouched;
    var b' := ApplyEvent(c, b, e);
    EventOnlyIn(c, b, e);
    if e.symbol != s {
      assert s in b.positions - {e.symbol} && (b'.positions - {e.symbol})[s] == (b.positions - {e.symbol})[s];
    } else if Accepted(b, e) {
      if |b'.fills| > |b.fills| {
        NewFillTouches(b, b', s);
      }
      QuietEvent(c, b, e);
      QuotedAccrues(b, e);
    } else {
      StaleEvent(c, b, e);
    }
  }

  lemma NewFillTouches(b: Book, b': Book, s: string)
    requires OnlyIn(b, b', s) && |b'.fills| > |b.fills|
    ensures !Untouched(b'.fills, |b.fills|, s)
  {
    assert b'.fills[|b.fills|].symbol == s;
  }

  lemma StaleEvent(c: Config, b: Book, e: MarketEvent)
    requires c.Valid() && Fillable(b) && !Accepted(b, e)
    ensures ApplyEvent(c, b, e) == b
  {
  }

  lemma FeedUntouched(c: Config, b: Book, s: string, events: seq<MarketEvent>)
    requires c.Valid() && Fillable(b) && |events| > 0 && Untouched(Feed(c, b, events).fills, |b.fills|, s)
    ensures var before := Feed(c, b, events[..|events| - 1]);
            Untouched(before.fills, |b.fills|, s) && Untouched(Feed(c, b, events).fills, |before.fills|, s)
  {
    hide ApplyEvent, Fillable;
    var n := |events| - 1;
    var before := Feed(c, b, events[..n]);
    FeedGrowsFills(c, b, events[..n]);
    QuietEvent(c, before, events[n]);
    forall i | |b.fills| <= i < |before.fills| ensures before.fills[i].symbol != s {
      assert Feed(c, b, events).fills[i] == before.fills[i];
    }
  }

  /**
   Whatever else the exchange is fed in between, a position no fill touches accrues exactly the funding the model
   bills it for the settlements among the events.
  */
  lemma {:induction false} PositionAccruesModelFunding(
      c: Config, b: Book, s: string, ts: seq<int>, curve: Curve, events: seq<MarketEvent>)
    requires c.Valid() && Fillable(b) && s in b.positions && Carries(b, s, ts, curve, events)
    requires Untouched(Feed(c, b, events).fills, |b.fills|, s)
    ensures var b' := Feed(c, b, events);
            var p := b.positions[s];
            && s in b'.positions && SequenceOf(b', s) == LastSequence(b, s, events)
            && (b'.positions[s].side, b'.positions[s].quantity) == (p.side, p.quantity)
            && b'.positions[s].NetFunding() - p.NetFunding() == NetFunding(p.side, p.quantity, ts, curve)
    decreases |events|
  {
    hide ApplyEvent, Untouched, Fillable, IsSettlement, Sign;
    if |events| > 0 {
      var n, m := |events| - 1, |ts| - 1;
      var e, before := events[n], Feed(c, b, events[..n]);
      FeedUntouched(c, b, s, events);
      if Carries(b, s, ts, curve, events[..n])
         && (e.symbol != s || e.sequence <= LastSequence(b, s, events[..n]) || e.fundingRate == 0.0) {
        PositionAccruesModelFunding(c, b, s, ts, curve, events[..n]);
      } else {
        PositionAccruesModelFunding(c, b, s, ts[..m], curve, events[..n]);
      }
      QuietStep(c, before, e, s);
    }
  }

  /** Over a whole holding period: the exchange's accrual is the model's bill for (entry, exit]. */
  lemma HoldingPeriodBill(c: Config, b: Book, s: string, entryMs: int, exitMs: int, curve: Curve, events: seq<MarketEvent>)
    requires c.Valid() && Fillable(b) && s in b.positions
    requires Carries(b, s, Calendar(entryMs / EIGHT_HOURS_MS, exitMs / EIGHT_HOURS_MS), curve, events)
    requires Untouched(Feed(c, b, events).fills, |b.fills|, s)
    ensures s in Feed(c, b, events).positions
    ensures Feed(c, b, events).positions[s].NetFunding() - b.positions[s].NetFunding()
         == PositionFunding(b.positions[s].side, b.positions[s].quantity, entryMs, exitMs, curve)
  {
    PositionAccruesModelFunding(c, b, s, Calendar(entryMs / EIGHT_HOURS_MS, exitMs / EIGHT_HOURS_MS), curve, events);
  }

  // ---- Reduce-only --------------------------------------------------------------------------

  function Exposure(b: Book, s: string): real {
    if s in b.positions then b.positions[s].quantity else 0.0
  }

  /** A fill of this size only takes away from an opposite position. */
  predicate OnlyReduces(b: Book, o: Order, quantity: real) {
    o.symbol in b.positions && b.positions[o.symbol].side != o.side && quantity <= b.positions[o.symbol].quantity
  }

  /** A fill shrinks the exposure by its full size exactly when it meets a large enough opposite position. */
  lemma FillShrinksIffOnlyReduces(c: Config, b: Book, o: Order, quantity: real, price: real)
    requires quantity > 0.0 && PositivePositions(b.positions)
    ensures Exposure(FillOrder(c, b, o, quantity, price), o.symbol) == Exposure(b, o.symbol) - quantity
            <==> OnlyReduces(b, o, quantity)
  {
    hide MakeFill, CloseTrade;
  }

  /** Executed on submission, a reduce-only order keeps its promise. */
  lemma ReduceOnlyHoldsAtOnce(c: Config, b: Book, r: OrderRequest)
    requires c.Valid() && Fillable(b) && r.reduceOnly && Client(r.id) !in b.orders
    requires Admit(c, b, r).status == FILLED
    ensures Exposure(Submit(c, b, r).book, r.symbol) == Exposure(b, r.symbol) - r.quantity
  {
    var o := Admit(c, b, r);
    FillShrinksIffOnlyReduces(c, PutOrder(b, o), o, r.quantity, o.price.value);
  }

  /** Executed later, it keeps it only if the position is still there: the rule is not checked again. */
  lemma RestingReduceOnlyHoldsIff(c: Config, b: Book, id: OrderId, e: MarketEvent)
    requires c.Valid() && Fillable(b) && id in b.orders && b.orders[id].reduceOnly && Triggers(b.orders[id], e)
    ensures var o := b.orders[id];
            var quantity := TouchQuantity(c, o);
            Exposure(Touch(c, b, id, e), o.symbol) == Exposure(b, o.symbol) - quantity
            <==> OnlyReduces(b, o, quantity)
  {
    hide TouchQuantity, FillOrder;
    var o := b.orders[id];
    var qty := TouchQuantity(c, o);
    TouchPositive(c, o);
    var o' := o.(status := if qty >= o.quantity - o.filled then FILLED else PARTIALLY_FILLED, filled := o.filled + qty);
    FillShrinksIffOnlyReduces(c, b.(orders := b.orders[id := o']), o', qty, o.price.value);
  }

  lemma {:induction false} OneTriggers(c: Config, b: Book, ids: seq<OrderId>, id: OrderId, e: MarketEvent)
    requires c.Valid() && Fillable(b) && id in b.orders
    requires forall i, j :: 0 <= i < j < |ids| ==> ids[i] != ids[j]
    requires forall k :: k in b.orders && k != id ==> !Triggers(b.orders[k], e)
    ensures TouchAll(c, b, ids, e) == if id in ids then Touch(c, b, id, e) else b
  {
    hide FillOrder, Triggers, TouchQuantity, Fillable;
    if |ids| > 0 {
      var n := |ids| - 1;
      OneTriggers(c, b, ids[..n], id, e);
      assert ids == ids[..n] + [ids[n]];
    }
  }

  /** After one order is touched, protection fires only if the position was breached before. */
  lemma TouchBreachesNothing(c: Config, b: Book, id: OrderId, e: MarketEvent)
    requires c.Valid() && Fillable(b) && id in b.orders && Triggers(b.orders[id], e)
    requires e.symbol in b.positions ==> !Breached(b.positions[e.symbol], e.mark)
    ensures var b' := Touch(c, b, id, e); e.symbol in b'.positions ==> !Breached(b'.positions[e.symbol], e.mark)
  {
    hide TouchQuantity, MakeFill, CloseTrade;
    TouchPositive(c, b.orders[id]);
  }

  lemma QuotedExposes(b: Book, e: MarketEvent, o: Order, quantity: real)
    requires o.symbol == e.symbol
    ensures var q := Quoted(b, e);
            && q.orders == b.orders && q.ids == b.ids && Exposure(q, e.symbol) == Exposure(b, e.symbol)
            && (OnlyReduces(q, o, quantity) <==> OnlyReduces(b, o, quantity))
            && (e.symbol in q.positions <==> e.symbol in b.positions)
            && (e.symbol in b.positions ==> (Breached(q.positions[e.symbol], e.mark) <==> Breached(b.positions[e.symbol], e.mark)))
  {
    hide SettlementLeg, PerBarLeg;
  }

  /**
   The same before the event, where a caller can still check it: of an event that reaches one order and no
   protective level in its symbol, a reduce-only order reduces by its touched size if and only if an opposite
   position of at least that size is open.
  */
  lemma ReduceOnlyEventHoldsIff(c: Config, b: Book, id: OrderId, e: MarketEvent)
    requires c.Valid() && Lifecycle(b) && Fillable(b) && Accepted(b, e)
    requires id in b.orders && b.orders[id].reduceOnly && Triggers(b.orders[id], e)
    requires forall k :: k in b.orders && k != id ==> !Triggers(b.orders[k], e)
    requires e.symbol in b.positions ==> !Breached(b.positions[e.symbol], e.mark)
    ensures var o := b.orders[id];
            var quantity := TouchQuantity(c, o);
            Exposure(ApplyEvent(c, b, e), e.symbol) == Exposure(b, e.symbol) - quantity <==> OnlyReduces(b, o, quantity)
  {
    hide Quoted, TouchQuantity, TouchAll, Touch, Breached, OpenOrders;
    var q, o := Quoted(b, e), b.orders[id];
    QuotedExposes(b, e, o, TouchQuantity(c, o));
    Exchange.QuotedKeepsFillable(b, e);
    LifecycleIds(b, id);
    UniqueIds(b);
    OneTriggers(c, q, q.ids, id, e);
    RestingReduceOnlyHoldsIff(c, q, id, e);
    TouchBreachesNothing(c, q, id, e);
  }

  /** Two contracts of X at market or at 110, on the default venue. */
  function Ticket(id: string, side: Side, price: Option<real>, reduceOnly: bool): OrderRequest {
    OrderRequest(id, "X", side, 2.0, price, GTC, reduceOnly, 1.0, "isolated", false)
  }

  const PLAIN := Config(0.0, 0.0, 1.0, DEFAULT_VENUE)

  lemma TicketAccepted(r: OrderRequest)
    requires r == Ticket(r.id, r.side, r.price, r.reduceOnly) && (r.price == None || r.price == Some(110.0))
    ensures PLAIN.Valid() && VenueVerdict(PLAIN, r) == None
  {
    assert 2.0 / 0.001 == 2000.0 && 100.0 / 0.01 == 10000.0 && 110.0 / 0.01 == 11000.0;
  }

  /** A market ticket trades two contracts at once and leaves other orders alone. */
  lemma MarketTicket(b: Book, id: string, side: Side)
    requires PLAIN.Valid() && Fillable(b) && Client(id) !in b.orders
    requires "X" in b.positions ==> b.positions["X"].side != side && b.positions["X"].quantity == 2.0
    ensures var b' := Submit(PLAIN, b, Ticket(id, side, None, false)).book;
            && b'.quotes == b.quotes && b'.lastSequence == b.lastSequence && b'.ids == b.ids + [Client(id)]
            && (exists o :: b'.orders == b.orders[Client(id) := o] && o.status == FILLED)
            && if "X" in b.positions then "X" !in b'.positions
               else "X" in b'.positions && b'.positions["X"].side == side && b'.positions["X"].quantity == 2.0
  {
    var r := Ticket(id, side, None, false);
    TicketAccepted(r);
    hide MakeFill, CloseTrade, VenueVerdict, MarketPrice;
    var o := Admit(PLAIN, b, r);
    assert Submit(PLAIN, b, r).book.orders == b.orders[Client(id) := o];
  }

  lemma RestingTicket(b: Book, id: string)
    requires PLAIN.Valid() && Fillable(b) && Client(id) !in b.orders && "X" !in b.quotes
    requires "X" in b.positions && b.positions["X"].side == BUY && b.positions["X"].quantity == 2.0
    ensures var r := Ticket(id, SELL, Some(110.0), true);
            var o := OrderOf(r, Some(110.0), NEW, 0.0);
            Submit(PLAIN, b, r).book == PutOrder(b, o)
  {
    TicketAccepted(Ticket(id, SELL, Some(110.0), true));
    hide VenueVerdict;
  }

  /** A lone resting order among finished ones is filled in full by a crossing event, whatever the position is by then. */
  lemma TouchOpensShort(b: Book, e: MarketEvent)
    requires PLAIN.Valid() && Fillable(b) && "X" !in b.positions && "X" !in b.lastSequence
    requires e == MarketEvent("X", 110.0, 111.0, 110.0, 1, 1, 0.0)
    requires b.ids == [Client("a"), Client("b"), Client("d")]
    requires Client("a") in b.orders && b.orders[Client("a")].status == FILLED
    requires Client("d") in b.orders && b.orders[Client("d")].status == FILLED
    requires Client("b") in b.orders && b.orders[Client("b")] == OrderOf(Ticket("b", SELL, Some(110.0), true), Some(110.0), NEW, 0.0)
    ensures var b' := ApplyEvent(PLAIN, b, e);
            && "X" in b'.positions && b'.positions["X"].side == SELL
            && Client("b") in b'.orders && b'.orders[Client("b")].reduceOnly && b'.orders[Client("b")].status == FILLED
  {
    hide MakeFill, CloseTrade, MarketPrice, TouchAll;
    var q := Quoted(b, e);
    OneRests(q, e);
  }

  lemma OneRests(b: Book, e: MarketEvent)
    requires PLAIN.Valid() && Fillable(b) && b.ids == [Client("a"), Client("b"), Client("d")]
    requires Client("a") in b.orders && b.orders[Client("a")].status == FILLED
    requires Client("d") in b.orders && b.orders[Client("d")].status == FILLED
    ensures TouchAll(PLAIN, b, b.ids, e) == Touch(PLAIN, b, Client("b"), e)
  {
    hide FillOrder;
    var two := [Client("a"), Client("b")];
    assert b.ids[..2] == two && two[..1] == [Client("a")] && [Client("a")][..0] == [];
    assert TouchAll(PLAIN, b, [Client("a")], e) == b;
    assert TouchAll(PLAIN, b, two, e) == Touch(PLAIN, b, Client("b"), e);
  }

  /** Buy two, rest a reduce-only sell of two above the market, then sell two at market: flat, with the exit still resting. */
  lemma RestedAndFlat() returns (actions: seq<Action>)
    ensures PLAIN.Valid()
    ensures var b := Run(PLAIN, actions);
            && "X" !in b.positions && "X" !in b.lastSequence && b.ids == [Client("a"), Client("b"), Client("d")]
            && Client("a") in b.orders && b.orders[Client("a")].status == FILLED
            && Client("d") in b.orders && b.orders[Client("d")].status == FILLED
            && Client("b") in b.orders && b.orders[Client("b")] == OrderOf(Ticket("b", SELL, Some(110.0), true), Some(110.0), NEW, 0.0)
  {
    hide Submit, Run;
    var buy, rest, sell := Ticket("a", BUY, None, false), Ticket("b", SELL, Some(110.0), true), Ticket("d", SELL, None, false);
    TicketAccepted(buy);
    NoCalls(PLAIN);
    RunAppend(PLAIN, [], DoSubmit(buy));
    MarketTicket(EMPTY_BOOK, "a", BUY);
    actions := [] + [DoSubmit(buy)];
    RunAppend(PLAIN, actions, DoSubmit(rest));
    RestingTicket(Run(PLAIN, actions), "b");
    actions := actions + [DoSubmit(rest)];
    RunAppend(PLAIN, actions, DoSubmit(sell));
    MarketTicket(Run(PLAIN, actions), "d", SELL);
    actions := actions + [DoSubmit(sell)];
  }

  /** The run that breaks it: once flat, a crossing event fills the resting reduce-only order and opens a short. */
  lemma RestingReduceOnlyCanOpenAShort()
    ensures exists actions: seq<Action>, id: OrderId :: PLAIN.Valid() &&
              var b := Run(PLAIN, actions);
              && id in b.orders && b.orders[id].reduceOnly && b.orders[id].status == FILLED
              && "X" in b.positions && b.positions["X"].side == SELL
  {
    hide ApplyEvent, Run, OrderOf, Fillable;
    var e := MarketEvent("X", 110.0, 111.0, 110.0, 1, 1, 0.0);
    var actions := RestedAndFlat();
    RunAppend(PLAIN, actions, DoEvent(e));
    TouchOpensShort(Run(PLAIN, actions), e);
    assert Client("b") in Run(PLAIN, actions + [DoEvent(e)]).orders;
  }

  lemma NoCalls(c: Config)
    requires c.Valid()
    ensures Run(c, []) == EMPTY_BOOK
  {
  }

  // ---- End-of-replay close -------------------------------------------------------------------

  /** Closing flattens the symbol exactly when there is a position, the id is new and the venue accepts its size. */
  lemma CloseFlattensIff(c: Config, b: Book, s: string, mark: real, id: string)
    requires c.Valid() && Fillable(b)
    ensures var reply := CloseAtEnd(c, b, s, mark, id);
            (s in b.positions && s !in reply.book.positions)
            <==> (s in b.positions && Client(id) !in b.orders
                  && VenueVerdict(c, ExitRequest(Some(b.positions[s]), s, id)).None?)
  {
    hide MakeFill, CloseTrade, VenueVerdict;
  }

  /** A flattening close charges the whole position at the final mark in one trade. */
  lemma CloseTradesWholePosition(c: Config, b: Book, s: string, mark: real, id: string)
    requires c.Valid() && Fillable(b) && s in b.positions
    requires s !in CloseAtEnd(c, b, s, mark, id).book.positions
    ensures var b' := CloseAtEnd(c, b, s, mark, id).book;
            var p := b.positions[s];
            && |b'.closed| == |b.closed| + 1 && b'.closed[..|b.closed|] == b.closed
            && b'.closed[|b.closed|].gross == (mark - p.Reference()) * p.quantity * Sign(p.side)
            && b'.closed[|b.closed|].funding == p.NetFunding()
            && b'.closed[|b.closed|].endOfReplay
            && |b'.fills| == |b.fills| + 1
            && b'.fundingPaid == b.fundingPaid && b'.fundingReceived == b.fundingReceived
  {
    hide MakeFill, VenueVerdict, CloseTrade, Admit, FillOrder, OpenOrders;
    CloseFlattensIff(c, b, s, mark, id);
    var p := b.positions[s];
    var marked := FinalMark(b, s, mark);
    ExitAdmitted(c, b, s, mark, id);
    var o := Admit(c, marked, ExitRequest(Some(p), s, id));
    FillClosesAll(c, PutOrder(marked, o), o, p.quantity, o.price.value);
    WholeTrade(c, p, o, MakeFill(c, PutOrder(marked, o), o, p.quantity, o.price.value), mark);
  }

  lemma ExitAdmitted(c: Config, b: Book, s: string, mark: real, id: string)
    requires c.Valid() && s in b.positions && b.positions[s].quantity > 0.0
    requires VenueVerdict(c, ExitRequest(Some(b.positions[s]), s, id)).None?
    ensures var o := Admit(c, FinalMark(b, s, mark), ExitRequest(Some(b.positions[s]), s, id));
            o.status == FILLED && o.endOfReplay && o.price.Some? && o.symbol == s && o.side == Opposite(b.positions[s].side)
  {
    hide VenueVerdict, MarketPrice;
  }

  lemma FillClosesAll(c: Config, b: Book, o: Order, quantity: real, price: real)
    requires quantity > 0.0 && o.symbol in b.positions
    requires b.positions[o.symbol].side != o.side && b.positions[o.symbol].quantity == quantity
    ensures var b' := FillOrder(c, b, o, quantity, price);
            && b'.closed == b.closed + [CloseTrade(c, b.positions[o.symbol], o, MakeFill(c, b, o, quantity, price),
                                                   QuoteOr(b, o.symbol, price).mark, quantity)]
            && |b'.fills| == |b.fills| + 1 && b'.fundingPaid == b.fundingPaid && b'.fundingReceived == b.fundingReceived
  {
    hide MakeFill, CloseTrade;
  }

  lemma WholeTrade(c: Config, p: Position, o: Order, f: Fill, mark: real)
    requires p.quantity > 0.0
    ensures var t := CloseTrade(c, p, o, f, mark, p.quantity);
            && t.gross == (mark - p.Reference()) * p.quantity * Sign(p.side)
            && t.funding == p.NetFunding() && t.endOfReplay == o.endOfReplay
  {
    SelfRatio(p.quantity);
  }
}
