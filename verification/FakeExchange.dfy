/**
 The paper exchange itself: fields updated in place, call by call, each call proved to change the
 state exactly as the book functions say (src/execution/fake_exchange.py).
*/
module PaperVenue {
  import opened Common
  import opened FundingModel
  import opened Venue
  import opened Exchange
  import opened ExchangeLaws

  /** The fills of one order, or all fills. */
  function FillsOf(fills: seq<Fill>, id: Option<OrderId>): seq<Fill> {
    if |fills| == 0 then []
    else
      var f := fills[|fills| - 1];
      FillsOf(fills[..|fills| - 1], id) + if id.None? || f.id == id.value then [f] else []
  }

  /** Reading an order's fills accounts for everything it has filled. */
  lemma {:induction false} FillsOfSumToOrder(fills: seq<Fill>, id: OrderId)
    ensures Total(Ordered(id), FillsOf(fills, Some(id))) == Total(Ordered(id), fills)
    ensures forall f :: f in FillsOf(fills, Some(id)) ==> f.id == id && f in fills
  {
    if |fills| > 0 {
      var n := |fills| - 1;
      FillsOfSumToOrder(fills[..n], id);
      if fills[n].id == id {
        TotalAppend(Ordered(id), FillsOf(fills[..n], Some(id)), fills[n]);
      } else {
        assert FillsOf(fills, Some(id)) == FillsOf(fills[..n], Some(id));
      }
    }
  }

  /** A market order and the last fill booked under its id. */
  function Placed(c: Config, b: Book, id: string, symbol: string, side: Side, quantity: real): (Book, Result<Fill>)
    requires c.Valid()
    requires symbol in b.positions ==> b.positions[symbol].quantity > 0.0
  {
    var reply := Submit(c, b, MarketOrder(id, symbol, side, quantity));
    var mine := FillsOf(reply.book.fills, Some(Client(id)));
    (reply.book,
     if reply.result.Err? then Err(reply.result.error)
     else if |mine| > 0 then Ok(mine[|mine| - 1])
     else Err(if reply.result.value.reason != "" then reply.result.value.reason else "order not filled"))
  }

  class FakeExchange {
    const config: Config
    var orders: map<OrderId, Order>
    var ids: seq<OrderId>
    var fills: seq<Fill>
    var positions: map<string, Position>
    var closedTrades: seq<ClosedTrade>
    var quotes: map<string, Quote>
    var lastSequence: map<string, int>
    var fundingPaid: real
    var fundingReceived: real
    ghost var marks: seq<real>
    ghost var touches: seq<real>

    ghost function View(): Book
      reads this
    {
      Book(orders, ids, fills, marks, touches, positions, closedTrades, quotes, lastSequence, fundingPaid, fundingReceived)
    }

    ghost predicate Valid()
      reads this
    {
      config.Valid() && Fillable(View())
    }

    constructor (config: Config)
      requires config.Valid()
      ensures Valid() && View() == EMPTY_BOOK && this.config == config
    {
      this.config := config;
      orders, ids, fills, marks, touches, positions, closedTrades := map[], [], [], [], [], map[], [];
      quotes, lastSequence, fundingPaid, fundingReceived := map[], map[], 0.0, 0.0;
    }

    method PriceOf(symbol: string, side: Side) returns (price: real)
      ensures price == MarketPrice(config, View(), symbol, side)
    {
      var q := if symbol in quotes then quotes[symbol] else Quote(100.0, 100.0, 100.0);
      var base := if side == BUY then q.ask else q.bid;
      price := base * (1.0 + Sign(side) * config.slippageBps / 10000.0);
    }

    method Record(o: Order)
      modifies this`orders, this`ids
      ensures View() == PutOrder(old(View()), o)
    {
      if o.id !in orders {
        ids := ids + [o.id];
      }
      orders := orders[o.id := o];
    }

    /** Decide how a new order is taken: rejected, resting, expired, or filled at a price. */
    method Decide(request: OrderRequest) returns (order: Order)
      requires Valid()
      ensures order == Admit(config, View(), request)
    {
      hide ValidateOrder, MarketPrice;
      var verdict := ValidateOrder(config.venue, request.symbol, request.quantity, CheckedPrice(request.price),
                                   request.leverage, request.marginMode);
      if verdict.Some? {
        return OrderOf(request, request.price, REJECTED, 0.0).(reason := verdict.value);
      }
      if request.reduceOnly {
        if request.symbol !in positions || positions[request.symbol].side == request.side
           || request.quantity > positions[request.symbol].quantity {
          return OrderOf(request, request.price, REJECTED, 0.0).(reason := "REDUCE_ONLY_NO_POSITION", endOfReplay := false);
        }
      }
      var q := if request.symbol in quotes then quotes[request.symbol] else Quote(100.0, 100.0, 100.0);
      if request.price.Some? && !Crosses(request.side, request.price, q.bid, q.ask) {
        return OrderOf(request, request.price, if request.timeInForce == GTC then NEW else EXPIRED, 0.0);
      }
      var price;
      if request.price.Some? {
        price := request.price.value;
      } else {
        price := PriceOf(request.symbol, request.side);
      }
      return OrderOf(request, Some(price), FILLED, request.quantity);
    }

    method SubmitOrder(request: OrderRequest) returns (result: Result<Order>)
      requires Valid()
      modifies this
      ensures Valid()
      ensures Reply(View(), result) == Submit(config, old(View()), request)
      ensures old(Client(request.id) in orders) ==> unchanged(this)
    {
      hide FillOrder, Admit;
      SubmitKeepsFillable(config, View(), request);
      var id := Client(request.id);
      if id in orders {
        var prior := orders[id];
        if prior.symbol == request.symbol && prior.side == request.side && prior.quantity == request.quantity {
          return Ok(prior);
        }
        return Err("duplicate client order id");
      }
      var order := Decide(request);
      Record(order);
      if order.status == FILLED {
        Execute(order, request.quantity, order.price.value);
      }
      return Ok(order);
    }

    /** The market-order facade: the price a caller passes is not used. */
    method PlaceOrder(id: string, symbol: string, side: Side, quantity: real, price: real) returns (result: Result<Fill>)
      requires Valid()
      modifies this
      ensures Valid()
      ensures (View(), result) == Placed(config, old(View()), id, symbol, side, quantity)
    {
      var submitted := SubmitOrder(MarketOrder(id, symbol, side, quantity));
      if submitted.Err? {
        return Err(submitted.error);
      }
      var mine := ReadFills(Some(Client(id)));
      if |mine| == 0 {
        return Err(if submitted.value.reason != "" then submitted.value.reason else "order not filled");
      }
      return Ok(mine[|mine| - 1]);
    }

    method ReadFills(id: Option<OrderId>) returns (result: seq<Fill>)
      ensures result == FillsOf(fills, id)
    {
      result := [];
      for i := 0 to |fills|
        invariant result == FillsOf(fills[..i], id)
      {
        assert fills[..i + 1][..i] == fills[..i];
        if id.None? || fills[i].id == id.value {
          result := result + [fills[i]];
        }
      }
      assert fills[..|fills|] == fills;
    }

    /** Append a fill at the current quote and book it against the position. */
    method Execute(order: Order, quantity: real, price: real)
      requires quantity > 0.0 && PositivePositions(positions)
      modifies this`fills, this`marks, this`touches, this`positions, this`closedTrades
      ensures View() == FillOrder(config, old(View()), order, quantity, price)
    {
      var q := if order.symbol in quotes then quotes[order.symbol] else Quote(price, price, price);
      var quoted := if order.side == BUY then q.ask else q.bid;
      var fill := Fill(order.id, order.symbol, order.side, quantity, price, quantity * price * config.feeBps / 10000.0,
                       Abs(price - quoted) * quantity, Abs(quoted - q.mark) * quantity);
      assert fill == MakeFill(config, View(), order, quantity, price);
      fills, marks, touches := fills + [fill], marks + [q.mark], touches + [quoted];
      BookPosition(order, fill, quantity, q.mark);
    }

    method BookPosition(order: Order, fill: Fill, quantity: real, mark: real)
      requires quantity > 0.0 && PositivePositions(positions)
      modifies this`positions, this`closedTrades
      ensures View() == ApplyPosition(config, old(View()), order, fill, quantity, mark)
    {
      var left := quantity;
      if order.symbol in positions && positions[order.symbol].side != order.side {
        var prior := positions[order.symbol];
        var closeQty := Min(prior.quantity, quantity);
        closedTrades := closedTrades + [CloseTrade(config, prior, order, fill, mark, closeQty)];
        var rem := prior.quantity - closeQty;
        if rem <= 0.0 {
          positions := positions - {order.symbol};
        } else {
          positions := positions[order.symbol := Shrink(prior, closeQty)];
        }
        if quantity <= prior.quantity {
          return;
        }
        left := quantity - prior.quantity;
      }
      if order.symbol in positions {
        positions := positions[order.symbol := Grow(positions[order.symbol], fill, left, mark)];
      } else {
        positions := positions[order.symbol := Open(order, fill, left, mark)];
      }
    }

    /** Entry notional of everything held, each position visited once. */
    method GrossEntryNotional() returns (gross: real)
      ensures gross == Sum(EntryNotional(config.venue.contractMultiplier), positions)
    {
      hide Sum;
      ghost var measure := EntryNotional(config.venue.contractMultiplier);
      gross := 0.0;
      SumOfNone(measure);
      var rest := positions;
      while rest != map[]
        invariant gross + Sum(measure, rest) == Sum(measure, positions)
        decreases |rest|
      {
        if s :| s in rest {
          SumWithout(measure, rest, s);
          gross := gross + rest[s].quantity * rest[s].entryPrice * config.venue.contractMultiplier;
          rest := rest - {s};
        } else {
          break;
        }
      }
    }

    method CancelOrder(id: OrderId) returns (result: Result<Order>)
      requires Valid()
      modifies this`orders
      ensures Valid() && Reply(View(), result) == Cancel(old(View()), id)
    {
      if id !in orders {
        return Err("KeyError");
      }
      var order := orders[id];
      if order.status !in {NEW, PARTIALLY_FILLED} {
        return Ok(order);
      }
      orders := orders[id := order.(status := CANCEL_REQUESTED)];
      orders := orders[id := orders[id].(status := CANCELLED)];
      assert View().orders == old(View()).orders[id := order.(status := CANCELLED)];
      return Ok(orders[id]);
    }

    method AttachProtection(symbol: string, stop: Option<real>, target: Option<real>) returns (result: Result<()>)
      requires Valid()
      modifies this`positions
      ensures Valid()
      ensures var r := SetProtection(old(View()), symbol, stop, target);
              if r.Ok? then result == Ok(()) && View() == r.value
              else result == Err("KeyError") && View() == old(View())
    {
      if symbol !in positions {
        return Err("KeyError");
      }
      positions := positions[symbol := positions[symbol].(stopLoss := stop, takeProfit := target)];
      return Ok(());
    }

    method ApplyFundingSettlement(symbol: string, mark: real, rate: real)
      requires Valid()
      modifies this`positions, this`fundingPaid, this`fundingReceived
      ensures Valid() && View() == Settle(old(View()), symbol, mark, rate)
    {
      if symbol in positions {
        var p := positions[symbol];
        var (paid, received) := SettlementLeg(p.side, p.quantity, mark, rate);
        fundingPaid := fundingPaid + paid;
        fundingReceived := fundingReceived + received;
        positions := positions[symbol := p.(fundingPaid := p.fundingPaid + paid, fundingReceived := p.fundingReceived + received)];
      }
    }

    method ClosePositionAtEndOfReplay(symbol: string, finalMark: real, id: string) returns (result: Result<Order>)
      requires Valid()
      modifies this
      ensures Valid() && Reply(View(), result) == CloseAtEnd(config, old(View()), symbol, finalMark, id)
    {
      if symbol !in positions {
        result := SubmitOrder(ExitRequest(None, symbol, id));
        return;
      }
      var position := positions[symbol];
      var q := if symbol in quotes then quotes[symbol] else Quote(finalMark, finalMark, finalMark);
      quotes := quotes[symbol := Quote(q.bid, q.ask, finalMark)];
      result := SubmitOrder(ExitRequest(Some(position), symbol, id));
    }

    /** Funding of one event: a settlement on the eight-hour grid, the per-bar proxy off it. */
    method AccrueEvent(event: MarketEvent)
      requires Valid()
      modifies this`positions, this`fundingPaid, this`fundingReceived
      ensures Valid() && View() == Fund(old(View()), event)
    {
      if event.fundingRate != 0.0 {
        if IsSettlement(event.tsMs) {
          ApplyFundingSettlement(event.symbol, event.mark, event.fundingRate);
        } else if event.symbol in positions {
          var p := positions[event.symbol];
          var (paid, received) := PerBarLeg(p.side, p.quantity, event.mark, event.fundingRate);
          fundingPaid := fundingPaid + paid;
          fundingReceived := fundingReceived + received;
          positions := positions[event.symbol := p.(fundingPaid := p.fundingPaid + paid,
                                                    fundingReceived := p.fundingReceived + received)];
        }
      }
    }

    method FireProtection(event: MarketEvent) returns (fired: bool)
      requires Valid()
      modifies this`orders, this`ids, this`fills, this`marks, this`touches, this`positions, this`closedTrades
      ensures View() == Protect(config, old(View()), event)
      ensures old(fills) <= fills && |fills| == old(|fills|) + if fired then 1 else 0
      ensures fired ==> fills[|fills| - 1].id == Protection(event.symbol, event.sequence)
    {
      fired := false;
      if event.symbol in positions && Breached(positions[event.symbol], event.mark) {
        var p := positions[event.symbol];
        var side := Opposite(p.side);
        var price := PriceOf(event.symbol, side);
        var order := Order(Protection(event.symbol, event.sequence), event.symbol, side, p.quantity, Some(price), FILLED,
                           p.quantity, "", false, false);
        assert order == ProtectiveOrder(config, View(), event);
        Execute(order, p.quantity, price);
        Record(order);
        fired := true;
      }
    }

    /** Offer the event to every order known when it arrives, oldest first. */
    method TouchOrders(event: MarketEvent) returns (log: seq<OrderId>)
      requires Valid()
      modifies this`orders, this`fills, this`marks, this`touches, this`positions, this`closedTrades
      ensures Valid() && View() == TouchAll(config, old(View()), old(ids), event)
      ensures |fills| == old(|fills|) + |log|
      ensures forall i :: 0 <= i < |log| ==> fills[old(|fills|) + i].id == log[i]
    {
      hide Touch;
      log := [];
      ghost var n := |fills|;
      var snapshot := ids;
      ghost var quoted := View();
      assert snapshot[..0] == [] && TouchAll(config, quoted, [], event) == quoted;
      for i := 0 to |snapshot|
        invariant Valid() && View() == TouchAll(config, quoted, snapshot[..i], event)
        invariant |fills| == n + |log| && forall k :: 0 <= k < |log| ==> fills[n + k].id == log[k]
      {
        assert snapshot[..i + 1][..i] == snapshot[..i];
        var filled := TouchOrder(snapshot[i], event);
        if filled {
          log := log + [snapshot[i]];
        }
      }
      assert snapshot[..|snapshot|] == snapshot;
    }

    /** One market event; the log says which orders filled, in order, ending with a protective exit if there was one. */
    method ApplyMarketEvent(event: MarketEvent) returns (log: seq<OrderId>)
      requires Valid()
      modifies this
      ensures Valid() && View() == ApplyEvent(config, old(View()), event)
      ensures |fills| == old(|fills|) + |log|
      ensures forall i :: 0 <= i < |log| ==> fills[old(|fills|) + i].id == log[i]
    {
      hide Fund, TouchAll, Protect, PositivePositions, OpenOrders;
      log := [];
      EventKeepsFillable(config, View(), event);
      ghost var before := View();
      var previous := if event.symbol in lastSequence then lastSequence[event.symbol] else -1;
      if event.sequence <= previous {
        return;
      }
      lastSequence := lastSequence[event.symbol := event.sequence];
      quotes := quotes[event.symbol := Quote(event.bid, event.ask, event.mark)];
      AccrueEvent(event);
      assert View() == Quoted(before, event);
      log := TouchOrders(event);
      var fired := FireProtection(event);
      if fired {
        log := log + [Protection(event.symbol, event.sequence)];
      }
    }

    /** Fill one resting order if the event reaches its limit. */
    method TouchOrder(id: OrderId, event: MarketEvent) returns (filled: bool)
      requires Valid()
      modifies this`orders, this`fills, this`marks, this`touches, this`positions, this`closedTrades
      ensures Valid() && View() == Touch(config, old(View()), id, event)
      ensures old(fills) <= fills && |fills| == old(|fills|) + if filled then 1 else 0
      ensures filled ==> fills[|fills| - 1].id == id
    {
      hide FillOrder;
      if id !in orders || !Triggers(orders[id], event) {
        return false;
      }
      var order := orders[id];
      TouchPositive(config, order);
      var remaining := order.quantity - order.filled;
      var quantity;
      if order.status == PARTIALLY_FILLED {
        quantity := remaining;
      } else if remaining > 0.0 && config.partialFillRatio < 1.0 {
        quantity := Portion(remaining, config.partialFillRatio);
      } else {
        quantity := remaining;
      }
      var status := if quantity >= remaining then FILLED else PARTIALLY_FILLED;
      var touched := order.(status := status, filled := order.filled + quantity);
      orders := orders[id := touched];
      assert View() == old(View()).(orders := old(orders)[id := touched]);
      ghost var marked := View();
      Execute(touched, quantity, order.price.value);
      assert order == old(View()).orders[id] && quantity == TouchQuantity(config, order);
      assert View() == FillOrder(config, marked, touched, quantity, order.price.value);
      assert View() == Touch(config, old(View()), id, event);
      return true;
    }
  }
}
