/**
 What the paper exchange answers, told from the outside: the outcome of every submission and event in terms of
 prices, sizes and sequence numbers, without the functions that compute it (src/execution/fake_exchange.py).
*/
module ExchangeAnswers {
  import opened Common
  import opened FundingModel
  import opened Venue
  import opened Exchange
  import opened ExchangeOrders
  import opened ExchangeFunding

  // ---- Submissions ---------------------------------------------------------------------------

  /** A size and terms the venue takes; a missing or zero limit is judged at 100. */
  predicate Legal(c: Config, r: OrderRequest)
    requires c.Valid()
  {
    var price := if r.price.Some? && r.price.value != 0.0 then r.price.value else 100.0;
    ValidateOrder(c.venue, r.symbol, r.quantity, price, r.leverage, r.marginMode).None?
  }

  /** The quoted bid and ask of a symbol, a hundred before any is known. */
  function Bid(b: Book, s: string): real { if s in b.quotes then b.quotes[s].bid else 100.0 }

  function Ask(b: Book, s: string): real { if s in b.quotes then b.quotes[s].ask else 100.0 }

  /** An opposite position at least as large is open. */
  predicate CanReduce(b: Book, s: string, side: Side, quantity: real) {
    s in b.positions && b.positions[s].side == Opposite(side) && b.positions[s].quantity >= quantity
  }

  /** A limit at or beyond the other side's quote, or no limit at all. */
  predicate Marketable(b: Book, r: OrderRequest) {
    r.price.Some? ==> if r.side == BUY then r.price.value >= Ask(b, r.symbol) else r.price.value <= Bid(b, r.symbol)
  }

  /**
   A new order is rejected, filled, left resting or expired by what a caller can see beforehand; only a filled
   one books anything, one fill at its limit or at the slipped touch.
  */
  lemma SubmissionOutcome(c: Config, b: Book, r: OrderRequest)
    requires c.Valid() && Fillable(b) && Client(r.id) !in b.orders
    ensures var b' := Submit(c, b, r).book;
            var id := Client(r.id);
            var taken := Legal(c, r) && (r.reduceOnly ==> CanReduce(b, r.symbol, r.side, r.quantity));
            && id in b'.orders && b'.orders - {id} == b.orders - {id} && Submit(c, b, r).result == Ok(b'.orders[id])
            && (b'.orders[id].status == REJECTED <==> !taken)
            && (b'.orders[id].status == FILLED <==> taken && Marketable(b, r))
            && (b'.orders[id].status == NEW <==> taken && !Marketable(b, r) && r.timeInForce == GTC)
            && (b'.orders[id].status == EXPIRED <==> taken && !Marketable(b, r) && r.timeInForce != GTC)
            && if taken && Marketable(b, r) then
                 var f := b'.fills[|b.fills|];
                 && |b'.fills| == |b.fills| + 1 && (f.id, f.symbol, f.side, f.quantity) == (id, r.symbol, r.side, r.quantity)
                 && f.price == (if r.price.Some? then r.price.value
                                else if r.side == BUY then Ask(b, r.symbol) * (1.0 + c.slippageBps / 10000.0)
                                else Bid(b, r.symbol) * (1.0 - c.slippageBps / 10000.0))
               else b'.fills == b.fills && b'.positions == b.positions
  {
    hide ValidateOrder, FillOrder, OpenOrders, Admit, Legal, CanReduce, Marketable, Ask, Bid;
    var o := Admit(c, b, r);
    AdmissionOutcome(c, b, r);
    if o.status == FILLED {
      FillShape(c, PutOrder(b, o), o, r.quantity, o.price.value);
    }
  }

  lemma AdmissionOutcome(c: Config, b: Book, r: OrderRequest)
    requires c.Valid()
    ensures var o := Admit(c, b, r);
            var taken := Legal(c, r) && (r.reduceOnly ==> CanReduce(b, r.symbol, r.side, r.quantity));
            && (o.status == REJECTED <==> !taken)
            && (o.status == FILLED <==> taken && Marketable(b, r))
            && (o.status == NEW <==> taken && !Marketable(b, r) && r.timeInForce == GTC)
            && (o.status == EXPIRED <==> taken && !Marketable(b, r) && r.timeInForce != GTC)
            && (o.status == FILLED ==>
                  o.price == Some(if r.price.Some? then r.price.value
                                  else if r.side == BUY then Ask(b, r.symbol) * (1.0 + c.slippageBps / 10000.0)
                                  else Bid(b, r.symbol) * (1.0 - c.slippageBps / 10000.0)))
  {
    hide ValidateOrder, MarketPrice;
    AdmissionSlips(c, b, r);
  }

  /** Everything else a new order records: what it asked for, how much of it is filled, and why it was turned down. */
  lemma AdmissionRecord(c: Config, b: Book, r: OrderRequest)
    requires c.Valid() && Fillable(b) && Client(r.id) !in b.orders
    ensures var o := Submit(c, b, r).book.orders[Client(r.id)];
            var barred := Legal(c, r) && r.reduceOnly && !CanReduce(b, r.symbol, r.side, r.quantity);
            && (o.id, o.symbol, o.side, o.quantity, o.reduceOnly) == (Client(r.id), r.symbol, r.side, r.quantity, r.reduceOnly)
            && o.filled == (if o.status == FILLED then r.quantity else 0.0)
            && (o.status != FILLED || r.price.Some? ==> o.price == r.price)
            && o.endOfReplay == (r.endOfReplay && !barred)
            && (barred ==> o.reason == "REDUCE_ONLY_NO_POSITION")
            && (o.status != REJECTED ==> o.reason == "")
  {
    hide ValidateOrder, FillOrder, OpenOrders, MarketPrice;
    SubmissionOutcome(c, b, r);
    var o := Admit(c, b, r);
    if o.status == FILLED {
      FillShape(c, PutOrder(b, o), o, r.quantity, o.price.value);
    }
  }

  /** Closing where nothing is open leaves a rejected buy of zero, and no quote moves. */
  lemma CloseWithoutPosition(c: Config, b: Book, s: string, mark: real, id: string)
    requires c.Valid() && Fillable(b) && s !in b.positions && Client(id) !in b.orders
    ensures var reply := CloseAtEnd(c, b, s, mark, id);
            var reason := if s == "" then "symbol required" else "quantity step";
            && reply.result == Ok(Order(Client(id), s, BUY, 0.0, None, REJECTED, 0.0, reason, true, true))
            && reply.book.orders == b.orders[Client(id) := reply.result.value]
            && (reply.book.quotes, reply.book.fills, reply.book.positions) == (b.quotes, b.fills, b.positions)
  {
    hide OpenOrders;
  }

  lemma AdmissionSlips(c: Config, b: Book, r: OrderRequest)
    ensures MarketPrice(c, b, r.symbol, r.side)
         == if r.side == BUY then Ask(b, r.symbol) * (1.0 + c.slippageBps / 10000.0)
            else Bid(b, r.symbol) * (1.0 - c.slippageBps / 10000.0)
  {
    assert 1.0 * c.slippageBps / 10000.0 == c.slippageBps / 10000.0;
    assert 1.0 + -1.0 * c.slippageBps / 10000.0 == 1.0 - c.slippageBps / 10000.0;
  }

  /**
   A reduce-only market order of a size the venue takes lowers exposure by exactly its quantity if and only if an
   opposite position of at least that quantity is open; otherwise it books nothing and moves nothing.
  */
  lemma ReduceOnlyReducesIff(c: Config, b: Book, r: OrderRequest)
    requires c.Valid() && Fillable(b) && Client(r.id) !in b.orders && r.reduceOnly && r.price.None? && Legal(c, r)
    ensures var b' := Submit(c, b, r).book;
            var reduces := r.symbol in b.positions && b.positions[r.symbol].side != r.side && r.quantity <= b.positions[r.symbol].quantity;
            && (Exposure(b', r.symbol) == Exposure(b, r.symbol) - r.quantity <==> reduces)
            && (!reduces ==> b'.fills == b.fills && b'.positions == b.positions)
  {
    hide ValidateOrder, FillOrder, OpenOrders;
    SubmissionOutcome(c, b, r);
    var o := Admit(c, b, r);
    LegalIsPositive(c, r);
    if o.status == FILLED {
      FillShrinksIffOnlyReduces(c, PutOrder(b, o), o, r.quantity, o.price.value);
    }
  }

  lemma LegalIsPositive(c: Config, r: OrderRequest)
    requires c.Valid() && Legal(c, r)
    ensures r.quantity > 0.0
  {
  }

  /** An id used before changes nothing, and is answered with the first order if it asks for the same and with an error if not. */
  lemma ResubmissionOutcome(c: Config, b: Book, r: OrderRequest)
    requires c.Valid() && Fillable(b) && Client(r.id) in b.orders
    ensures var prior := b.orders[Client(r.id)];
            && Submit(c, b, r).book == b
            && (Submit(c, b, r).result.Ok? <==> (r.symbol, r.side, r.quantity) == (prior.symbol, prior.side, prior.quantity))
            && (Submit(c, b, r).result.Ok? ==> Submit(c, b, r).result.value == prior)
  {
  }

  // ---- Events and resting orders ---------------------------------------------------------------

  /**
   An accepted event leaves a resting order of its symbol alone exactly while the market is on the far side of
   its limit; otherwise a first touch fills the configured part of it and a second one the rest.
  */
  lemma RestsIff(c: Config, b: Book, e: MarketEvent, id: OrderId, limit: real)
    requires c.Valid() && Lifecycle(b) && Fillable(b) && Accepted(b, e)
    requires id in b.orders && b.orders[id].status in {NEW, PARTIALLY_FILLED}
    requires b.orders[id].symbol == e.symbol && b.orders[id].price == Some(limit)
    ensures var o := b.orders[id];
            var o' := ApplyEvent(c, b, e).orders;
            && id in o'
            && (o'[id] == o <==> if o.side == BUY then e.ask > limit else e.bid < limit)
            && (o'[id] != o ==> if o.status == NEW && c.partialFillRatio < 1.0 then
                                  o'[id] == o.(status := PARTIALLY_FILLED, filled := o.quantity * c.partialFillRatio)
                                else o'[id] == o.(status := FILLED, filled := o.quantity))
  {
    hide ApplyEvent, Lifecycle, OpenOrders, Touched;
    OrderAfterEvent(c, b, e, id);
    LifecycleOrder(b, id);
    TouchOutcome(c, b.orders[id], e, limit);
  }

  lemma TouchOutcome(c: Config, o: Order, e: MarketEvent, limit: real)
    requires c.Valid() && o.status in {NEW, PARTIALLY_FILLED} && o.symbol == e.symbol && o.price == Some(limit)
    requires (o.status == NEW ==> o.filled == 0.0) && o.filled < o.quantity
    ensures var o' := Touched(c, o, e);
            && (o' == o <==> if o.side == BUY then e.ask > limit else e.bid < limit)
            && (o' != o ==> if o.status == NEW && c.partialFillRatio < 1.0 then
                              o' == o.(status := PARTIALLY_FILLED, filled := o.quantity * c.partialFillRatio)
                            else o' == o.(status := FILLED, filled := o.quantity))
  {
    hide TouchQuantity;
    var part := o.quantity * c.partialFillRatio;
    TouchPart(c, o, part);
    TouchPositive(c, o);
    if o.status == NEW {
      LessThanWhole(o.quantity, c.partialFillRatio, part);
    }
  }

  lemma TouchPart(c: Config, o: Order, part: real)
    requires o.status in {NEW, PARTIALLY_FILLED} && (o.status == NEW ==> o.filled == 0.0) && o.filled < o.quantity
    requires part == o.quantity * c.partialFillRatio
    ensures TouchQuantity(c, o) == if o.status == NEW && c.partialFillRatio < 1.0 then part else o.quantity - o.filled
  {
    assert o.quantity - 0.0 == o.quantity;
  }

  lemma LessThanWhole(whole: real, ratio: real, part: real)
    requires whole > 0.0 && part == whole * ratio
    ensures ratio < 1.0 ==> part < whole
  {
    if ratio < 1.0 {
      ScaledBelow(ratio, 1.0, whole, part, whole);
    }
  }

  // ---- Stale events ------------------------------------------------------------------------------

  /** Every event of this symbol so far carries a smaller sequence number. */
  ghost predicate Newest(actions: seq<Action>, e: MarketEvent) {
    e.sequence >= 0 && forall i :: 0 <= i < |actions| && actions[i].DoEvent? && actions[i].event.symbol == e.symbol ==>
      actions[i].event.sequence < e.sequence
  }

  lemma StepSequence(c: Config, b: Book, a: Action, s: string)
    requires c.Valid() && Fillable(b)
    ensures SequenceOf(Step(c, b, a), s)
         == if a.DoEvent? && a.event.symbol == s && SequenceOf(b, s) < a.event.sequence then a.event.sequence else SequenceOf(b, s)
  {
    hide ApplyEvent, FillOrder, Admit, OpenOrders;
    match a
    case DoEvent(e) => EventSequence(c, b, e, s);
    case _ =>
  }

  lemma EventSequence(c: Config, b: Book, e: MarketEvent, s: string)
    requires c.Valid() && Fillable(b)
    ensures SequenceOf(ApplyEvent(c, b, e), s)
         == if e.symbol == s && SequenceOf(b, s) < e.sequence then e.sequence else SequenceOf(b, s)
  {
    if s == e.symbol {
      QuietEvent(c, b, e);
    } else {
      EventOnlyIn(c, b, e);
    }
    hide Quoted, TouchAll, Protect, OpenOrders;
  }

  lemma {:induction false} SequenceIsNewest(c: Config, actions: seq<Action>, s: string)
    requires c.Valid()
    ensures var last := SequenceOf(Run(c, actions), s);
            && last >= -1
            && (forall i :: 0 <= i < |actions| && actions[i].DoEvent? && actions[i].event.symbol == s ==> actions[i].event.sequence <= last)
            && (last >= 0 ==> exists i :: 0 <= i < |actions| && actions[i].DoEvent? && actions[i].event.symbol == s
                                          && actions[i].event.sequence == last)
  {
    hide Step;
    if |actions| > 0 {
      var n := |actions| - 1;
      SequenceIsNewest(c, actions[..n], s);
      StepSequence(c, Run(c, actions[..n]), actions[n], s);
      var last := SequenceOf(Run(c, actions[..n]), s);
      if last >= 0 {
        var i :| 0 <= i < n && actions[..n][i].DoEvent? && actions[..n][i].event.symbol == s && actions[..n][i].event.sequence == last;
        assert actions[i].DoEvent? && actions[i].event.symbol == s && actions[i].event.sequence == last;
      }
      forall i | 0 <= i < |actions| && actions[i].DoEvent? && actions[i].event.symbol == s
        ensures actions[i].event.sequence <= SequenceOf(Run(c, actions), s) {
        if i < n { assert actions[..n][i] == actions[i]; }
      }
    }
  }

  /** After any run an event counts exactly when it is newer than all before it in its symbol; then its quote stands, and otherwise nothing changes. */
  lemma EventCountsIffNewest(c: Config, actions: seq<Action>, e: MarketEvent)
    requires c.Valid()
    ensures var b := Run(c, actions);
            var b' := Step(c, b, DoEvent(e));
            && (Accepted(b, e) <==> Newest(actions, e))
            && (!Newest(actions, e) ==> b' == b)
            && (Newest(actions, e) ==>
                  && e.symbol in b'.quotes && b'.quotes[e.symbol] == Quote(e.bid, e.ask, e.mark)
                  && SequenceOf(b', e.symbol) == e.sequence)
  {
    hide Run, ApplyEvent, OpenOrders;
    var b := Run(c, actions);
    SequenceIsNewest(c, actions, e.symbol);
    EventSequence(c, b, e, e.symbol);
    if Accepted(b, e) { EventQuotes(c, b, e); }
    AcceptedBySequence(b, e);
    StaleUnlessAccepted(c, b, e);
    var last := SequenceOf(b, e.symbol);
    if Newest(actions, e) && last >= 0 {
      var i :| 0 <= i < |actions| && actions[i].DoEvent? && actions[i].event.symbol == e.symbol && actions[i].event.sequence == last;
    }
  }

  lemma AcceptedBySequence(b: Book, e: MarketEvent)
    ensures Accepted(b, e) <==> SequenceOf(b, e.symbol) < e.sequence
  {
  }

  lemma StaleUnlessAccepted(c: Config, b: Book, e: MarketEvent)
    requires c.Valid() && Fillable(b)
    ensures !Accepted(b, e) ==> Step(c, b, DoEvent(e)) == b
    ensures Step(c, b, DoEvent(e)) == ApplyEvent(c, b, e)
  {
  }

  lemma EventQuotes(c: Config, b: Book, e: MarketEvent)
    requires c.Valid() && Fillable(b) && Accepted(b, e)
    ensures var b' := ApplyEvent(c, b, e); e.symbol in b'.quotes && b'.quotes[e.symbol] == Quote(e.bid, e.ask, e.mark)
  {
    hide TouchAll, Protect, Quoted, Fillable;
    var quoted := Quoted(b, e);
    QuotedQuote(b, e);
    QuotedKeepsFillable(b, e);
    TouchAllKeepsQuotes(c, quoted, quoted.ids, e);
    ProtectKeepsQuotes(c, TouchAll(c, quoted, quoted.ids, e), e);
  }

  lemma QuotedQuote(b: Book, e: MarketEvent)
    ensures var q := Quoted(b, e); e.symbol in q.quotes && q.quotes[e.symbol] == Quote(e.bid, e.ask, e.mark)
  {
    hide SettlementLeg, PerBarLeg;
  }

  lemma ProtectKeepsQuotes(c: Config, b: Book, e: MarketEvent)
    requires Fillable(b)
    ensures Protect(c, b, e).quotes == b.quotes
  {
    hide FillOrder;
  }

  lemma {:induction false} TouchAllKeepsQuotes(c: Config, b: Book, ids: seq<OrderId>, e: MarketEvent)
    requires c.Valid() && Fillable(b)
    ensures TouchAll(c, b, ids, e).quotes == b.quotes
  {
    hide FillOrder, OpenOrders;
    if |ids| > 0 {
      TouchAllKeepsQuotes(c, b, ids[..|ids| - 1], e);
    }
  }

  // ---- Protection ----------------------------------------------------------------------------------

  /** The mark is strictly between the stop and the target of the position, as far as they are set. */
  predicate Inside(p: Position, mark: real) {
    && (p.stopLoss.Some? ==> if p.side == BUY then mark > p.stopLoss.value else mark < p.stopLoss.value)
    && (p.takeProfit.Some? ==> if p.side == BUY then mark < p.takeProfit.value else mark > p.takeProfit.value)
  }

  lemma {:induction false} NoneTriggers(c: Config, b: Book, ids: seq<OrderId>, e: MarketEvent)
    requires c.Valid() && Fillable(b) && forall k :: k in b.orders ==> !Triggers(b.orders[k], e)
    ensures TouchAll(c, b, ids, e) == b
  {
    hide FillOrder, Triggers, OpenOrders;
    if |ids| > 0 {
      NoneTriggers(c, b, ids[..|ids| - 1], e);
    }
  }

  /**
   Of an accepted event with no resting order in its symbol, a position survives with its side and size exactly
   while the mark is inside its levels, and is closed in full otherwise.
  */
  lemma SurvivesIffInside(c: Config, b: Book, e: MarketEvent)
    requires c.Valid() && Fillable(b) && Accepted(b, e) && e.symbol in b.positions
    requires forall k :: k in b.orders && b.orders[k].symbol == e.symbol ==> b.orders[k].status !in {NEW, PARTIALLY_FILLED}
    ensures var b' := ApplyEvent(c, b, e);
            && (e.symbol in b'.positions <==> Inside(b.positions[e.symbol], e.mark))
            && (e.symbol in b'.positions ==>
                  (b'.positions[e.symbol].side, b'.positions[e.symbol].quantity) == (b.positions[e.symbol].side, b.positions[e.symbol].quantity))
  {
    hide TouchAll, Protect, Quoted, OpenOrders;
    var q := Quoted(b, e);
    QuotedPosition(b, e);
    QuotedKeepsFillable(b, e);
    NoneTriggers(c, q, q.ids, e);
    ProtectsIff(c, q, e);
  }

  lemma QuotedPosition(b: Book, e: MarketEvent)
    requires e.symbol in b.positions
    ensures var q := Quoted(b, e);
            && q.orders == b.orders && q.ids == b.ids && q.fills == b.fills && e.symbol in q.positions
            && q.positions[e.symbol] == b.positions[e.symbol].(fundingPaid := q.positions[e.symbol].fundingPaid,
                                                             fundingReceived := q.positions[e.symbol].fundingReceived)
  {
    hide SettlementLeg, PerBarLeg;
  }

  lemma ProtectsIff(c: Config, b: Book, e: MarketEvent)
    requires PositivePositions(b.positions) && e.symbol in b.positions
    ensures var b' := Protect(c, b, e);
            && (e.symbol in b'.positions <==> Inside(b.positions[e.symbol], e.mark))
            && (e.symbol in b'.positions ==> b'.positions == b.positions)
  {
    hide MakeFill, CloseTrade, MarketPrice;
  }

  /** The exit is recorded as a filled market order against the position, for all of it, at the slipped touch of the event. */
  lemma ExitRecord(c: Config, b: Book, e: MarketEvent)
    requires c.Valid() && Fillable(b) && Accepted(b, e) && e.symbol in b.positions
    requires forall k :: k in b.orders && b.orders[k].symbol == e.symbol ==> b.orders[k].status !in {NEW, PARTIALLY_FILLED}
    requires !Inside(b.positions[e.symbol], e.mark)
    ensures var b', p, id := ApplyEvent(c, b, e), b.positions[e.symbol], Protection(e.symbol, e.sequence);
            var price := if p.side == SELL then e.ask * (1.0 + c.slippageBps / 10000.0) else e.bid * (1.0 - c.slippageBps / 10000.0);
            && id in b'.orders && b'.orders - {id} == b.orders - {id}
            && b'.orders[id] == Order(id, e.symbol, Opposite(p.side), p.quantity, Some(price), FILLED, p.quantity, "", false, false)
            && |b'.fills| == |b.fills| + 1 && b'.fills[..|b.fills|] == b.fills
            && var f := b'.fills[|b.fills|]; (f.id, f.symbol, f.side, f.quantity, f.price) == (id, e.symbol, Opposite(p.side), p.quantity, price)
  {
    hide TouchAll, Protect, Quoted, OpenOrders, FillOrder;
    var q := Quoted(b, e);
    QuotedPosition(b, e);
    QuotedQuote(b, e);
    QuotedKeepsFillable(b, e);
    NoneTriggers(c, q, q.ids, e);
    var p := b.positions[e.symbol];
    var price := if p.side == SELL then e.ask * (1.0 + c.slippageBps / 10000.0) else e.bid * (1.0 - c.slippageBps / 10000.0);
    var o := Order(Protection(e.symbol, e.sequence), e.symbol, Opposite(p.side), p.quantity, Some(price), FILLED, p.quantity, "", false, false);
    assert Ask(q, e.symbol) == e.ask && Bid(q, e.symbol) == e.bid;
    ExitOrder(c, q, e, o, price);
    FilledRecord(c, q, o);
  }

  lemma ExitOrder(c: Config, b: Book, e: MarketEvent, o: Order, price: real)
    requires PositivePositions(b.positions) && e.symbol in b.positions && !Inside(b.positions[e.symbol], e.mark)
    requires var p := b.positions[e.symbol];
             && price == (if p.side == SELL then Ask(b, e.symbol) * (1.0 + c.slippageBps / 10000.0)
                          else Bid(b, e.symbol) * (1.0 - c.slippageBps / 10000.0))
             && o == Order(Protection(e.symbol, e.sequence), e.symbol, Opposite(p.side), p.quantity, Some(price), FILLED, p.quantity, "", false, false)
    ensures Protect(c, b, e) == PutOrder(FillOrder(c, b, o, o.quantity, o.price.value), o)
  {
    hide MarketPrice, FillOrder;
    var p := b.positions[e.symbol];
    AdmissionSlips(c, b, ExitRequest(Some(p), e.symbol, ""));
    assert Breached(p, e.mark);
    assert MarketPrice(c, b, e.symbol, Opposite(p.side)) == price;
  }

  lemma FilledRecord(c: Config, b: Book, o: Order)
    requires o.quantity > 0.0 && o.price.Some? && (o.symbol in b.positions ==> b.positions[o.symbol].quantity > 0.0)
    ensures var b' := PutOrder(FillOrder(c, b, o, o.quantity, o.price.value), o);
            && o.id in b'.orders && b'.orders[o.id] == o && b'.orders - {o.id} == b.orders - {o.id}
            && |b'.fills| == |b.fills| + 1 && b'.fills[..|b.fills|] == b.fills
            && var f := b'.fills[|b.fills|]; (f.id, f.symbol, f.side, f.quantity, f.price) == (o.id, o.symbol, o.side, o.quantity, o.price.value)
  {
    hide FillOrder;
    FillShape(c, b, o, o.quantity, o.price.value);
  }

  // ---- Limits over whole runs ------------------------------------------------------------------------

  /** The limit under which an order id was first used: none for a market order, nothing for an id never used. */
  function Asked(actions: seq<Action>, name: string): Option<Option<real>> {
    if |actions| == 0 then None
    else
      var before := Asked(actions[..|actions| - 1], name);
      if before.Some? then before
      else
        match actions[|actions| - 1]
        case DoSubmit(r) => if r.id == name then Some(r.price) else None
        case DoClose(_, _, id) => if id == name then Some(None) else None
        case _ => None
  }

  /** The limit under which an id was first used, if it was used for a limit order. */
  function LimitOf(actions: seq<Action>, id: OrderId): Option<real> {
    if id.Client? && Asked(actions, id.name).Some? then Asked(actions, id.name).value else None
  }

  /** A fill under a limit executes at that limit, which is never better than the touch. */
  ghost predicate FillHonours(f: Fill, touch: real, limit: Option<real>) {
    limit.Some? ==> f.price == limit.value && Sign(f.side) * (f.price - touch) >= 0.0
  }

  ghost predicate LimitLaw(actions: seq<Action>, b: Book) {
    && |b.touches| == |b.fills|
    && (forall name :: Client(name) in b.orders <==> Asked(actions, name).Some?)
    && (forall id :: id in b.orders && LimitOf(actions, id).Some? ==> b.orders[id].price == LimitOf(actions, id))
    && forall i :: 0 <= i < |b.fills| ==>
         && (b.fills[i].id.Client? ==> b.fills[i].id in b.orders)
         && FillHonours(b.fills[i], b.touches[i], LimitOf(actions, b.fills[i].id))
  }

  lemma AskedAppend(actions: seq<Action>, a: Action, name: string)
    ensures Asked(actions + [a], name)
         == if Asked(actions, name).Some? then Asked(actions, name)
            else match a
                 case DoSubmit(r) => if r.id == name then Some(r.price) else None
                 case DoClose(_, _, id) => if id == name then Some(None) else None
                 case _ => None
  {
    assert (actions + [a])[..|actions|] == actions;
  }

  /** Nothing the law speaks of changed. */
  lemma LimitsTransfer(actions: seq<Action>, now: seq<Action>, b: Book, b': Book)
    requires LimitLaw(actions, b) && b'.fills == b.fills && b'.touches == b.touches && b'.orders.Keys == b.orders.Keys
    requires forall id :: id in b.orders ==> b'.orders[id].price == b.orders[id].price
    requires forall name :: Asked(now, name) == Asked(actions, name)
    ensures LimitLaw(now, b')
  {
    hide Asked;
    forall id | id in b'.orders ensures id in b.orders { assert id in b.orders.Keys; }
    forall id | id in b.orders ensures id in b'.orders { assert id in b'.orders.Keys; }
    forall i | 0 <= i < |b'.fills| ensures FillHonours(b'.fills[i], b'.touches[i], LimitOf(now, b'.fills[i].id)) {
      assert FillHonours(b.fills[i], b.touches[i], LimitOf(actions, b.fills[i].id));
    }
  }

  /** A new id enters under the limit it is asked for with. */
  lemma RecordKeepsLimits(actions: seq<Action>, now: seq<Action>, b: Book, o: Order)
    requires LimitLaw(actions, b) && o.id !in b.orders
    requires forall name :: o.id != Client(name) ==> Asked(now, name) == Asked(actions, name)
    requires o.id.Client? ==> Asked(now, o.id.name).Some? && (LimitOf(now, o.id).Some? ==> o.price == LimitOf(now, o.id))
    ensures LimitLaw(now, PutOrder(b, o))
  {
    hide Asked;
    var b' := PutOrder(b, o);
    forall i | 0 <= i < |b'.fills| ensures FillHonours(b'.fills[i], b'.touches[i], LimitOf(now, b'.fills[i].id)) {
      assert FillHonours(b.fills[i], b.touches[i], LimitOf(actions, b.fills[i].id));
      assert b.fills[i].id.Client? ==> b.fills[i].id != o.id;
    }
  }

  lemma FillKeepsLimits(c: Config, actions: seq<Action>, b: Book, o: Order, quantity: real, price: real)
    requires quantity > 0.0 && PositivePositions(b.positions) && LimitLaw(actions, b)
    requires o.id.Client? ==> o.id in b.orders
    requires LimitOf(actions, o.id).Some? ==>
               && price == LimitOf(actions, o.id).value
               && Sign(o.side) * (price - TouchOf(QuoteOr(b, o.symbol, price), o.side)) >= 0.0
    ensures LimitLaw(actions, FillOrder(c, b, o, quantity, price))
  {
    hide LimitOf, Asked, Rebook, TouchOf, QuoteOr;
    var b' := FillOrder(c, b, o, quantity, price);
    var f, touch := MakeFill(c, b, o, quantity, price), TouchOf(QuoteOr(b, o.symbol, price), o.side);
    assert b'.fills == b.fills + [f] && b'.touches == b.touches + [touch] && b'.orders == b.orders;
  }

  lemma SubmitKeepsLimits(c: Config, actions: seq<Action>, b: Book, r: OrderRequest, a: Action)
    requires c.Valid() && Fillable(b) && LimitLaw(actions, b)
    requires a == DoSubmit(r) || (a.DoClose? && a.exitId == r.id && r.price.None?)
    ensures LimitLaw(actions + [a], Submit(c, b, r).book)
  {
    hide LimitOf, FillOrder, Admit, LimitLaw, Fillable, Marketable;
    var now := actions + [a];
    forall name ensures Client(name) != Client(r.id) || Client(name) in b.orders ==> Asked(now, name) == Asked(actions, name) {
      AskedAppend(actions, a, name);
      UsedIsAsked(actions, b, name);
    }
    AskedAppend(actions, a, r.id);
    UsedIsAsked(actions, b, r.id);
    if Client(r.id) in b.orders {
      LimitsTransfer(actions, now, b, b);
    } else {
      var o := Admit(c, b, r);
      AskedLimit(now, r);
      AdmissionPrice(c, b, r);
      RecordKeepsLimits(actions, now, b, o);
      if o.status == FILLED {
        FillablePositions(b);
        FillKeepsLimits(c, now, PutOrder(b, o), o, r.quantity, o.price.value);
      }
    }
  }

  lemma FillablePositions(b: Book)
    requires Fillable(b)
    ensures PositivePositions(b.positions)
  {
  }

  lemma UsedIsAsked(actions: seq<Action>, b: Book, name: string)
    requires LimitLaw(actions, b)
    ensures Client(name) in b.orders <==> Asked(actions, name).Some?
  {
  }

  lemma AskedLimit(actions: seq<Action>, r: OrderRequest)
    requires Asked(actions, r.id) == Some(r.price)
    ensures LimitOf(actions, Client(r.id)) == r.price
  {
  }

  /** An order keeps the limit of its request, and one that fills at once is not better than the touch. */
  lemma AdmissionPrice(c: Config, b: Book, r: OrderRequest)
    requires c.Valid()
    ensures var o := Admit(c, b, r);
            r.price.Some? ==>
              && o.price == r.price
              && (o.status == FILLED ==> Sign(r.side) * (r.price.value - TouchOf(QuoteOr(b, r.symbol, r.price.value), r.side)) >= 0.0)
  {
    hide ValidateOrder, MarketPrice;
  }

  lemma TouchKeepsLimits(c: Config, actions: seq<Action>, b: Book, id: OrderId, e: MarketEvent)
    requires c.Valid() && Fillable(b) && LimitLaw(actions, b)
    requires e.symbol in b.quotes && b.quotes[e.symbol] == Quote(e.bid, e.ask, e.mark)
    ensures LimitLaw(actions, Touch(c, b, id, e))
  {
    hide FillOrder, LimitLaw, TouchQuantity, OpenOrders;
    if id in b.orders && Triggers(b.orders[id], e) {
      var o := b.orders[id];
      OpenHere(b, id);
      var qty := TouchQuantity(c, o);
      TouchPositive(c, o);
      var o' := o.(status := if qty >= o.quantity - o.filled then FILLED else PARTIALLY_FILLED, filled := o.filled + qty);
      var b1 := b.(orders := b.orders[id := o']);
      LimitsTransfer(actions, actions, b, b1);
      OrderHasLimit(actions, b, id);
      FillKeepsLimits(c, actions, b1, o', qty, o.price.value);
    }
  }

  lemma OpenHere(b: Book, id: OrderId)
    requires Fillable(b) && id in b.orders
    ensures b.orders[id].id == id && OpenOrder(b.orders[id])
  {
  }

  lemma OrderHasLimit(actions: seq<Action>, b: Book, id: OrderId)
    requires LimitLaw(actions, b) && id in b.orders
    ensures LimitOf(actions, id).Some? ==> b.orders[id].price == LimitOf(actions, id)
  {
  }

  lemma {:induction false} TouchAllKeepsLimits(c: Config, actions: seq<Action>, b: Book, ids: seq<OrderId>, e: MarketEvent)
    requires c.Valid() && Fillable(b) && LimitLaw(actions, b)
    requires e.symbol in b.quotes && b.quotes[e.symbol] == Quote(e.bid, e.ask, e.mark)
    ensures LimitLaw(actions, TouchAll(c, b, ids, e))
  {
    hide LimitLaw, Touch, Fillable;
    if |ids| > 0 {
      TouchAllKeepsLimits(c, actions, b, ids[..|ids| - 1], e);
      TouchAllKeepsQuotes(c, b, ids[..|ids| - 1], e);
      TouchKeepsLimits(c, actions, TouchAll(c, b, ids[..|ids| - 1], e), ids[|ids| - 1], e);
    }
  }

  lemma ProtectKeepsLimits(c: Config, actions: seq<Action>, b: Book, e: MarketEvent)
    requires Fillable(b) && LimitLaw(actions, b) && Protection(e.symbol, e.sequence) !in b.orders
    ensures LimitLaw(actions, Protect(c, b, e))
  {
    hide FillOrder, LimitLaw, MarketPrice, Asked, OpenOrders;
    if e.symbol in b.positions && Breached(b.positions[e.symbol], e.mark) {
      var o := ProtectiveOrder(c, b, e);
      FillKeepsLimits(c, actions, b, o, o.quantity, o.price.value);
      RecordKeepsLimits(actions, actions, FillOrder(c, b, o, o.quantity, o.price.value), o);
    }
  }

  lemma EventKeepsLimits(c: Config, actions: seq<Action>, b: Book, e: MarketEvent)
    requires c.Valid() && Lifecycle(b) && Fillable(b) && LimitLaw(actions, b)
    ensures LimitLaw(actions, ApplyEvent(c, b, e))
  {
    hide TouchAll, Protect, Quoted, LimitLaw, Lifecycle, Fillable;
    if Accepted(b, e) {
      var quoted := Quoted(b, e);
      QuotedKeepsLifecycle(b, e);
      QuotedQuote(b, e);
      QuotedOrders(b, e);
      LimitsTransfer(actions, actions, b, quoted);
      TouchAllKeepsLimits(c, actions, quoted, quoted.ids, e);
      TouchAllKeepsLifecycle(c, quoted, quoted.ids, e);
      ProtectKeepsLimits(c, actions, TouchAll(c, quoted, quoted.ids, e), e);
    }
  }

  lemma QuotedOrders(b: Book, e: MarketEvent)
    ensures var q := Quoted(b, e); q.orders == b.orders && q.fills == b.fills && q.touches == b.touches
  {
    hide SettlementLeg, PerBarLeg;
  }

  lemma StepKeepsLimits(c: Config, actions: seq<Action>, b: Book, a: Action)
    requires c.Valid() && Lifecycle(b) && Fillable(b) && LimitLaw(actions, b)
    ensures LimitLaw(actions + [a], Step(c, b, a))
  {
    hide LimitLaw, Submit, ApplyEvent, Lifecycle, Asked;
    match a
    case DoSubmit(r) => SubmitKeepsLimits(c, actions, b, r, a);
    case DoClose(s, mark, id) => CloseKeepsLimits(c, actions, b, s, mark, id);
    case DoEvent(e) =>
      EventKeepsLimits(c, actions, b, e);
      forall name ensures Asked(actions + [a], name) == Asked(actions, name) { AskedAppend(actions, a, name); }
      LimitsTransfer(actions, actions + [a], ApplyEvent(c, b, e), ApplyEvent(c, b, e));
    case _ =>
      forall name ensures Asked(actions + [a], name) == Asked(actions, name) { AskedAppend(actions, a, name); }
      LimitsTransfer(actions, actions + [a], b, Step(c, b, a));
  }

  lemma CloseKeepsLimits(c: Config, actions: seq<Action>, b: Book, s: string, mark: real, id: string)
    requires c.Valid() && Fillable(b) && LimitLaw(actions, b)
    ensures LimitLaw(actions + [DoClose(s, mark, id)], CloseAtEnd(c, b, s, mark, id).book)
  {
    hide LimitLaw, Submit, Asked;
    var a := DoClose(s, mark, id);
    if s in b.positions {
      var marked := FinalMark(b, s, mark);
      LimitsTransfer(actions, actions, b, marked);
      SubmitKeepsLimits(c, actions, marked, ExitRequest(Some(b.positions[s]), s, id), a);
    } else {
      SubmitKeepsLimits(c, actions, b, ExitRequest(None, s, id), a);
    }
  }

  /** On every run each order keeps the limit it was asked for with, and every fill under a limit is at it and never better than the touch. */
  lemma {:induction false} LimitsHoldOnEveryRun(c: Config, actions: seq<Action>)
    requires c.Valid()
    ensures LimitLaw(actions, Run(c, actions))
  {
    hide Step, LimitLaw, Lifecycle;
    if |actions| == 0 {
      NoLimitsYet(actions);
    } else {
      var n := |actions| - 1;
      LimitsHoldOnEveryRun(c, actions[..n]);
      LifecycleHoldsOnEveryRun(c, actions[..n]);
      StepKeepsLimits(c, actions[..n], Run(c, actions[..n]), actions[n]);
      assert actions[..n] + [actions[n]] == actions;
    }
  }

  lemma NoLimitsYet(actions: seq<Action>)
    requires |actions| == 0
    ensures LimitLaw(actions, EMPTY_BOOK)
  {
  }
}
