/**
 The paper exchange as values: what one order, one fill and one market event do to the book
 (src/execution/fake_exchange.py). The class in FakeExchange.dfy updates its fields in place
 and is proved against these functions.

 Quantities and prices are exact reals; a remainder counts as dust only when it is zero.
*/
module Exchange {
  import opened Common
  import opened FundingModel
  import opened Venue

  datatype OrderStatus = NEW | PARTIALLY_FILLED | FILLED | CANCEL_REQUESTED | CANCELLED | REJECTED | EXPIRED

  datatype TimeInForce = GTC | IOC | FOK

  /** Client ids and the ids the exchange mints for protective exits never collide. */
  datatype OrderId = Client(name: string) | Protection(symbol: string, sequence: int)

  datatype OrderRequest = OrderRequest(
    id: string, symbol: string, side: Side, quantity: real, price: Option<real>,
    timeInForce: TimeInForce, reduceOnly: bool, leverage: real, marginMode: string, endOfReplay: bool)

  datatype Order = Order(
    id: OrderId, symbol: string, side: Side, quantity: real, price: Option<real>, status: OrderStatus,
    filled: real, reason: string, reduceOnly: bool, endOfReplay: bool)

  datatype Fill = Fill(
    id: OrderId, symbol: string, side: Side, quantity: real, price: real, fee: real,
    slippageCost: real, spreadCost: real)

  datatype Position = Position(
    symbol: string, side: Side, quantity: real, entryPrice: real,
    stopLoss: Option<real>, takeProfit: Option<real>, entryReference: Option<real>,
    entrySpread: real, entrySlippage: real, fundingPaid: real, fundingReceived: real)
  {
    function Reference(): real {
      if entryReference.Some? then entryReference.value else entryPrice
    }

    /** Funding paid and not got back. */
    function NetFunding(): real { fundingPaid - fundingReceived }
  }

  datatype ClosedTrade = ClosedTrade(
    symbol: string, gross: real, entryFee: real, exitFee: real, funding: real,
    spreadCost: real, slippageCost: real, net: real, endOfReplay: bool, reduceOnly: bool)

  datatype Quote = Quote(bid: real, ask: real, mark: real)

  datatype MarketEvent = MarketEvent(
    symbol: string, bid: real, ask: real, mark: real, sequence: int, tsMs: int, fundingRate: real)

  datatype Config = Config(feeBps: real, slippageBps: real, partialFillRatio: real, venue: Specification)
  {
    ghost predicate Valid() {
      0.0 < partialFillRatio <= 1.0 && venue.Valid()
    }
  }

  /**
   The whole state of the exchange. `ids` is the insertion order of `orders`, which the event loop
   follows. `marks` and `touches` are history variables: the mark each fill was booked against, and the quote
   on its side at that moment.
  */
  datatype Book = Book(
    orders: map<OrderId, Order>, ids: seq<OrderId>,
    fills: seq<Fill>, marks: seq<real>, touches: seq<real>,
    positions: map<string, Position>, closed: seq<ClosedTrade>,
    quotes: map<string, Quote>, lastSequence: map<string, int>,
    fundingPaid: real, fundingReceived: real)

  const EMPTY_BOOK := Book(map[], [], [], [], [], map[], [], map[], map[], 0.0, 0.0)

  function QuoteOr(b: Book, symbol: string, fallback: real): Quote {
    if symbol in b.quotes then b.quotes[symbol] else Quote(fallback, fallback, fallback)
  }

  /** The quote an order on this side trades against. */
  function TouchOf(q: Quote, side: Side): real { if side == BUY then q.ask else q.bid }

  /** The price a market order executes at: the touch, worsened by the slippage allowance. */
  function MarketPrice(c: Config, b: Book, symbol: string, side: Side): real {
    var q := QuoteOr(b, symbol, 100.0);
    TouchOf(q, side) * (1.0 + Sign(side) * c.slippageBps / 10000.0)
  }

  /** Record an order under its id; a new id goes to the end of the insertion order. */
  function PutOrder(b: Book, o: Order): Book {
    b.(orders := b.orders[o.id := o], ids := if o.id in b.orders then b.ids else b.ids + [o.id])
  }

  // ---- Fills and positions ----------------------------------------------------------

  function MakeFill(c: Config, b: Book, o: Order, quantity: real, price: real): (f: Fill)
    ensures (f.id, f.symbol, f.side, f.quantity, f.price) == (o.id, o.symbol, o.side, quantity, price)
  {
    var q := QuoteOr(b, o.symbol, price);
    var quoted := TouchOf(q, o.side);
    Fill(o.id, o.symbol, o.side, quantity, price, quantity * price * c.feeBps / 10000.0,
         Abs(price - quoted) * quantity, Abs(quoted - q.mark) * quantity)
  }

  function CloseTrade(c: Config, prior: Position, o: Order, f: Fill, mark: real, closeQty: real): ClosedTrade
    requires prior.quantity != 0.0
  {
    var gross := (mark - prior.Reference()) * closeQty * Sign(prior.side);
    var entryFee := prior.entryPrice * closeQty * c.feeBps / 10000.0;
    var ratio := closeQty / prior.quantity;
    var funding := prior.fundingPaid * ratio - prior.fundingReceived * ratio;
    var spread := prior.entrySpread * ratio + f.spreadCost;
    var slippage := prior.entrySlippage * ratio + f.slippageCost;
    ClosedTrade(o.symbol, gross, entryFee, f.fee, funding, spread, slippage,
                gross - entryFee - f.fee - funding - spread - slippage, o.endOfReplay, o.reduceOnly)
  }

  /** What is left of a position after closing part of it. */
  function Shrink(prior: Position, closeQty: real): Position
    requires prior.quantity != 0.0
  {
    var keep := 1.0 - closeQty / prior.quantity;
    prior.(quantity := prior.quantity - closeQty,
         entrySpread := prior.entrySpread * keep, entrySlippage := prior.entrySlippage * keep,
         fundingPaid := prior.fundingPaid * keep, fundingReceived := prior.fundingReceived * keep)
  }

  function Open(o: Order, f: Fill, quantity: real, mark: real): Position {
    Position(o.symbol, o.side, quantity, f.price, None, None, Some(mark), f.spreadCost, f.slippageCost, 0.0, 0.0)
  }

  function Grow(prior: Position, f: Fill, quantity: real, mark: real): Position
    requires prior.quantity + quantity != 0.0
  {
    var total := prior.quantity + quantity;
    prior.(quantity := total,
         entryPrice := (prior.entryPrice * prior.quantity + f.price * quantity) / total,
         entryReference := Some((prior.Reference() * prior.quantity + mark * quantity) / total),
         entrySpread := prior.entrySpread + f.spreadCost,
         entrySlippage := prior.entrySlippage + f.slippageCost)
  }

  /** The position a fill leaves behind, and the trade it closes, if any. */
  datatype Booking = Booking(position: Option<Position>, trade: Option<ClosedTrade>)

  /** Book a fill against the position in its symbol: open, add to, reduce, close or flip it. */
  function Rebook(c: Config, prior: Option<Position>, o: Order, f: Fill, quantity: real, mark: real): (r: Booking)
    requires quantity > 0.0
    requires prior.Some? ==> prior.value.quantity > 0.0
    ensures r.position.Some? ==> r.position.value.quantity > 0.0
    ensures r.trade.Some? ==> r.trade.value.symbol == o.symbol
  {
    if prior.Some? && prior.value.side != o.side then
      var p := prior.value;
      var closeQty := Min(p.quantity, quantity);
      Booking(if quantity < p.quantity then Some(Shrink(p, closeQty))
              else if quantity == p.quantity then None
              else Some(Open(o, f, quantity - p.quantity, mark)),
              Some(CloseTrade(c, p, o, f, mark, closeQty)))
    else if prior.Some? then Booking(Some(Grow(prior.value, f, quantity, mark)), None)
    else Booking(Some(Open(o, f, quantity, mark)), None)
  }

  function PositionAt(b: Book, s: string): Option<Position> {
    if s in b.positions then Some(b.positions[s]) else None
  }

  function WithPosition(ps: map<string, Position>, s: string, p: Option<Position>): map<string, Position> {
    if p.Some? then ps[s := p.value] else ps - {s}
  }

  function ApplyPosition(c: Config, b: Book, o: Order, f: Fill, quantity: real, mark: real): (b': Book)
    requires quantity > 0.0
    requires o.symbol in b.positions ==> b.positions[o.symbol].quantity > 0.0
    ensures b' == b.(positions := b'.positions, closed := b'.closed)
    ensures b'.positions - {o.symbol} == b.positions - {o.symbol}
    ensures o.symbol in b'.positions ==> b'.positions[o.symbol].quantity > 0.0
  {
    var r := Rebook(c, PositionAt(b, o.symbol), o, f, quantity, mark);
    b.(positions := WithPosition(b.positions, o.symbol, r.position),
       closed := if r.trade.Some? then b.closed + [r.trade.value] else b.closed)
  }

  function FillOrder(c: Config, b: Book, o: Order, quantity: real, price: real): (b': Book)
    requires quantity > 0.0
    requires o.symbol in b.positions ==> b.positions[o.symbol].quantity > 0.0
    ensures b' == b.(positions := b'.positions, closed := b'.closed, fills := b'.fills, marks := b'.marks, touches := b'.touches)
    ensures b'.positions - {o.symbol} == b.positions - {o.symbol}
    ensures o.symbol in b'.positions ==> b'.positions[o.symbol].quantity > 0.0
    ensures |b'.fills| == |b.fills| + 1 && b'.fills[..|b.fills|] == b.fills && b'.fills[|b.fills|].id == o.id
  {
    var f := MakeFill(c, b, o, quantity, price);
    var q := QuoteOr(b, o.symbol, price);
    var mark := q.mark;
    var logged := b.(fills := b.fills + [f], marks := b.marks + [mark], touches := b.touches + [TouchOf(q, o.side)]);
    ApplyPosition(c, logged, o, f, quantity, mark)
  }

  // ---- Orders -----------------------------------------------------------------------

  function OrderOf(r: OrderRequest, price: Option<real>, status: OrderStatus, filled: real): Order {
    Order(Client(r.id), r.symbol, r.side, r.quantity, price, status, filled, "", r.reduceOnly, r.endOfReplay)
  }

  /** Price the venue rules are checked at: a missing or zero limit is checked at 100. */
  function CheckedPrice(price: Option<real>): real {
    if price.Some? && price.value != 0.0 then price.value else 100.0
  }

  function VenueVerdict(c: Config, r: OrderRequest): Option<string>
    requires c.Valid()
  {
    ValidateOrder(c.venue, r.symbol, r.quantity, CheckedPrice(r.price), r.leverage, r.marginMode)
  }

  predicate ReduceOnlyAllowed(b: Book, r: OrderRequest) {
    && r.symbol in b.positions
    && b.positions[r.symbol].side != r.side
    && r.quantity <= b.positions[r.symbol].quantity
  }

  predicate Crosses(side: Side, price: Option<real>, bid: real, ask: real) {
    price.Some? && if side == BUY then price.value >= ask else price.value <= bid
  }

  datatype Reply = Reply(book: Book, result: Result<Order>)

  /** How a new order is recorded: rejected, resting, expired, or filled at once. */
  function Admit(c: Config, b: Book, r: OrderRequest): (o: Order)
    requires c.Valid()
    ensures (o.id, o.symbol, o.side, o.quantity) == (Client(r.id), r.symbol, r.side, r.quantity)
    ensures o.status in {REJECTED, NEW, EXPIRED, FILLED}
    ensures o.status == FILLED ==> o.filled == r.quantity && o.price.Some?
    ensures o.status != FILLED ==> o.filled == 0.0
    ensures o.status == NEW ==> o.price.Some?
    ensures o.status != REJECTED ==> VenueVerdict(c, r).None? && r.quantity > 0.0
  {
    var verdict := VenueVerdict(c, r);
    if verdict.Some? then
      OrderOf(r, r.price, REJECTED, 0.0).(reason := verdict.value)
    else if r.reduceOnly && !ReduceOnlyAllowed(b, r) then
      OrderOf(r, r.price, REJECTED, 0.0).(reason := "REDUCE_ONLY_NO_POSITION", endOfReplay := false)
    else
      var q := QuoteOr(b, r.symbol, 100.0);
      if r.price.Some? && !Crosses(r.side, r.price, q.bid, q.ask) then
        OrderOf(r, r.price, if r.timeInForce == GTC then NEW else EXPIRED, 0.0)
      else
        var price := if r.price.Some? then r.price.value else MarketPrice(c, b, r.symbol, r.side);
        OrderOf(r, Some(price), FILLED, r.quantity)
  }

  function Submit(c: Config, b: Book, r: OrderRequest): Reply
    requires c.Valid()
    requires r.symbol in b.positions ==> b.positions[r.symbol].quantity > 0.0
  {
    if Client(r.id) in b.orders then
      var prior := b.orders[Client(r.id)];
      Reply(b, if prior.symbol == r.symbol && prior.side == r.side && prior.quantity == r.quantity then Ok(prior)
               else Err("duplicate client order id"))
    else
      var o := Admit(c, b, r);
      var recorded := PutOrder(b, o);
      Reply(if o.status == FILLED then FillOrder(c, recorded, o, r.quantity, o.price.value) else recorded, Ok(o))
  }

  function Cancel(b: Book, id: OrderId): Reply {
    if id !in b.orders then Reply(b, Err("KeyError"))
    else if b.orders[id].status !in {NEW, PARTIALLY_FILLED} then Reply(b, Ok(b.orders[id]))
    else
      var o := b.orders[id].(status := CANCELLED);
      Reply(b.(orders := b.orders[id := o]), Ok(o))
  }

  function SetProtection(b: Book, symbol: string, stop: Option<real>, target: Option<real>): Result<Book> {
    if symbol !in b.positions then Err("KeyError")
    else Ok(b.(positions := b.positions[symbol := b.positions[symbol].(stopLoss := stop, takeProfit := target)]))
  }

  // ---- Market events ----------------------------------------------------------------

  function Accrue(b: Book, symbol: string, leg: (real, real)): Book
    requires symbol in b.positions
  {
    var p := b.positions[symbol];
    b.(fundingPaid := b.fundingPaid + leg.0, fundingReceived := b.fundingReceived + leg.1,
       positions := b.positions[symbol := p.(fundingPaid := p.fundingPaid + leg.0,
                                             fundingReceived := p.fundingReceived + leg.1)])
  }

  function Settle(b: Book, symbol: string, mark: real, rate: real): Book {
    if symbol !in b.positions then b
    else Accrue(b, symbol, SettlementLeg(b.positions[symbol].side, b.positions[symbol].quantity, mark, rate))
  }

  function SettlePerBar(b: Book, symbol: string, mark: real, rate: real): Book {
    if symbol !in b.positions then b
    else Accrue(b, symbol, PerBarLeg(b.positions[symbol].side, b.positions[symbol].quantity, mark, rate))
  }

  function Fund(b: Book, e: MarketEvent): Book {
    if e.fundingRate == 0.0 then b
    else if IsSettlement(e.tsMs) then Settle(b, e.symbol, e.mark, e.fundingRate)
    else SettlePerBar(b, e.symbol, e.mark, e.fundingRate)
  }

  predicate Resting(o: Order) { o.status == NEW || o.status == PARTIALLY_FILLED }

  predicate Triggers(o: Order, e: MarketEvent) {
    o.symbol == e.symbol && Resting(o) && Crosses(o.side, o.price, e.bid, e.ask)
  }

  /** The part of a quantity that a first touch fills. */
  function Portion(whole: real, ratio: real): (part: real)
    ensures whole > 0.0 && 0.0 < ratio <= 1.0 ==> 0.0 < part <= whole
  {
    PartOf(whole, ratio);
    whole * ratio
  }

  /** How much of a triggered order executes: a first touch may fill only part, a second touch the rest. */
  function TouchQuantity(c: Config, o: Order): real {
    var remaining := o.quantity - o.filled;
    if o.status == PARTIALLY_FILLED then remaining
    else if remaining > 0.0 && c.partialFillRatio < 1.0 then Portion(remaining, c.partialFillRatio)
    else remaining
  }

  ghost predicate PositivePositions(ps: map<string, Position>) {
    forall s :: s in ps ==> ps[s].quantity > 0.0
  }

  /** A resting order has something left to fill at a known limit. */
  ghost predicate OpenOrder(o: Order) {
    Resting(o) ==> 0.0 <= o.filled < o.quantity && o.price.Some?
  }

  ghost predicate OpenOrders(orders: map<OrderId, Order>) {
    forall id :: id in orders ==> orders[id].id == id && OpenOrder(orders[id])
  }

  /** What every call relies on: a touch executes a positive quantity against positive positions. */
  ghost predicate Fillable(b: Book) {
    PositivePositions(b.positions) && OpenOrders(b.orders)
  }

  lemma FillKeepsFillable(c: Config, b: Book, o: Order, quantity: real, price: real)
    requires Fillable(b) && quantity > 0.0
    ensures Fillable(FillOrder(c, b, o, quantity, price))
  {
    var b' := FillOrder(c, b, o, quantity, price);
    forall s | s in b'.positions ensures b'.positions[s].quantity > 0.0 {
      if s != o.symbol {
        assert s in b'.positions - {o.symbol} && s in b.positions - {o.symbol};
        assert (b'.positions - {o.symbol})[s] == (b.positions - {o.symbol})[s];
      }
    }
  }

  function Touch(c: Config, b: Book, id: OrderId, e: MarketEvent): (b': Book)
    requires c.Valid() && Fillable(b)
    ensures Fillable(b')
  {
    if id !in b.orders || !Triggers(b.orders[id], e) then b
    else
      var o := b.orders[id];
      var remaining := o.quantity - o.filled;
      var qty := TouchQuantity(c, o);
      TouchPositive(c, o);
      var o' := o.(status := if qty >= remaining then FILLED else PARTIALLY_FILLED, filled := o.filled + qty);
      var b1 := b.(orders := b.orders[id := o']);
      FillKeepsFillable(c, b1, o', qty, o.price.value);
      FillOrder(c, b1, o', qty, o.price.value)
  }

  lemma TouchPositive(c: Config, o: Order)
    requires c.Valid() && o.filled < o.quantity
    ensures 0.0 < TouchQuantity(c, o) <= o.quantity - o.filled
  {
    hide Portion;
    assert TouchQuantity(c, o) == o.quantity - o.filled || TouchQuantity(c, o) == Portion(o.quantity - o.filled, c.partialFillRatio);
  }

  function TouchAll(c: Config, b: Book, ids: seq<OrderId>, e: MarketEvent): (b': Book)
    requires c.Valid() && Fillable(b)
    ensures Fillable(b')
  {
    if |ids| == 0 then b
    else Touch(c, TouchAll(c, b, ids[..|ids| - 1], e), ids[|ids| - 1], e)
  }

  /** The mark is at or beyond the stop or the target of the position. */
  predicate Breached(p: Position, mark: real) {
    if p.side == BUY then
      (p.stopLoss.Some? && mark <= p.stopLoss.value) || (p.takeProfit.Some? && mark >= p.takeProfit.value)
    else
      (p.stopLoss.Some? && mark >= p.stopLoss.value) || (p.takeProfit.Some? && mark <= p.takeProfit.value)
  }

  /** The market order that closes a breached position in full. */
  function ProtectiveOrder(c: Config, b: Book, e: MarketEvent): (o: Order)
    requires e.symbol in b.positions
    ensures o.price.Some? && o.quantity == b.positions[e.symbol].quantity && o.symbol == e.symbol
  {
    var p := b.positions[e.symbol];
    var side := Opposite(p.side);
    Order(Protection(e.symbol, e.sequence), e.symbol, side, p.quantity, Some(MarketPrice(c, b, e.symbol, side)),
          FILLED, p.quantity, "", false, false)
  }

  function Protect(c: Config, b: Book, e: MarketEvent): Book
    requires PositivePositions(b.positions)
  {
    if e.symbol in b.positions && Breached(b.positions[e.symbol], e.mark) then
      var o := ProtectiveOrder(c, b, e);
      PutOrder(FillOrder(c, b, o, o.quantity, o.price.value), o)
    else b
  }

  predicate Accepted(b: Book, e: MarketEvent) {
    (if e.symbol in b.lastSequence then b.lastSequence[e.symbol] else -1) < e.sequence
  }

  /** The book once the event's quote and funding are in, before any order reacts to it. */
  function Quoted(b: Book, e: MarketEvent): Book {
    Fund(b.(lastSequence := b.lastSequence[e.symbol := e.sequence],
            quotes := b.quotes[e.symbol := Quote(e.bid, e.ask, e.mark)]), e)
  }

  function ApplyEvent(c: Config, b: Book, e: MarketEvent): Book
    requires c.Valid() && Fillable(b)
  {
    if !Accepted(b, e) then b
    else
      var quoted := Quoted(b, e);
      Protect(c, TouchAll(c, quoted, quoted.ids, e), e)
  }

  function FinalMark(b: Book, symbol: string, mark: real): Book {
    b.(quotes := b.quotes[symbol := QuoteOr(b, symbol, mark).(mark := mark)])
  }

  function ExitRequest(p: Option<Position>, symbol: string, id: string): OrderRequest {
    if p.Some? then
      OrderRequest(id, symbol, Opposite(p.value.side), p.value.quantity, None, GTC, true, 1.0, "isolated", true)
    else OrderRequest(id, symbol, BUY, 0.0, None, GTC, true, 1.0, "isolated", true)
  }

  function CloseAtEnd(c: Config, b: Book, symbol: string, mark: real, id: string): Reply
    requires c.Valid()
    requires symbol in b.positions ==> b.positions[symbol].quantity > 0.0
  {
    if symbol in b.positions then
      Submit(c, FinalMark(b, symbol, mark), ExitRequest(Some(b.positions[symbol]), symbol, id))
    else Submit(c, b, ExitRequest(None, symbol, id))
  }

  // ---- Runs -------------------------------------------------------------------------

  datatype Action =
    | DoSubmit(request: OrderRequest)
    | DoEvent(event: MarketEvent)
    | DoCancel(id: OrderId)
    | DoProtect(symbol: string, stop: Option<real>, target: Option<real>)
    | DoSettle(symbol: string, mark: real, rate: real)
    | DoClose(symbol: string, mark: real, exitId: string)

  /** One public call; a call that raises leaves the book as it was. */
  function Step(c: Config, b: Book, a: Action): Book
    requires c.Valid() && Fillable(b)
  {
    match a
    case DoSubmit(r) => Submit(c, b, r).book
    case DoEvent(e) => ApplyEvent(c, b, e)
    case DoCancel(id) => Cancel(b, id).book
    case DoProtect(s, stop, target) =>
      var r := SetProtection(b, s, stop, target);
      if r.Ok? then r.value else b
    case DoSettle(s, mark, rate) => Settle(b, s, mark, rate)
    case DoClose(s, mark, id) => CloseAtEnd(c, b, s, mark, id).book
  }

  lemma SubmitKeepsFillable(c: Config, b: Book, r: OrderRequest)
    requires c.Valid() && Fillable(b)
    ensures Fillable(Submit(c, b, r).book)
  {
    var o := Admit(c, b, r);
    if Client(r.id) !in b.orders && o.status == FILLED {
      FillKeepsFillable(c, PutOrder(b, o), o, r.quantity, o.price.value);
    }
  }

  lemma ProtectKeepsFillable(c: Config, b: Book, e: MarketEvent)
    requires Fillable(b)
    ensures Fillable(Protect(c, b, e))
  {
    hide FillOrder;
    if e.symbol in b.positions && Breached(b.positions[e.symbol], e.mark) {
      var o := ProtectiveOrder(c, b, e);
      FillKeepsFillable(c, b, o, o.quantity, o.price.value);
    }
  }

  lemma QuotedKeepsFillable(b: Book, e: MarketEvent)
    requires Fillable(b)
    ensures Fillable(Quoted(b, e))
  {
  }

  lemma EventKeepsFillable(c: Config, b: Book, e: MarketEvent)
    requires c.Valid() && Fillable(b)
    ensures Fillable(ApplyEvent(c, b, e))
  {
    hide Quoted, TouchAll, Protect, Fillable;
    if Accepted(b, e) {
      QuotedKeepsFillable(b, e);
      ProtectKeepsFillable(c, TouchAll(c, Quoted(b, e), Quoted(b, e).ids, e), e);
    }
  }

  lemma StepKeepsFillable(c: Config, b: Book, a: Action)
    requires c.Valid() && Fillable(b)
    ensures Fillable(Step(c, b, a))
  {
    match a
    case DoSubmit(r) => SubmitKeepsFillable(c, b, r);
    case DoEvent(e) => EventKeepsFillable(c, b, e);
    case DoCancel(id) =>
    case DoProtect(s, stop, target) =>
    case DoSettle(s, mark, rate) =>
    case DoClose(s, mark, id) =>
      if s in b.positions {
        SubmitKeepsFillable(c, FinalMark(b, s, mark), ExitRequest(Some(b.positions[s]), s, id));
      } else {
        SubmitKeepsFillable(c, b, ExitRequest(None, s, id));
      }
  }

  /** The book after any sequence of calls, from a fresh exchange. */
  function Run(c: Config, actions: seq<Action>): (b: Book)
    requires c.Valid()
    ensures Fillable(b)
  {
    if |actions| == 0 then EMPTY_BOOK
    else
      var b := Run(c, actions[..|actions| - 1]);
      StepKeepsFillable(c, b, actions[|actions| - 1]);
      Step(c, b, actions[|actions| - 1])
  }

  lemma RunAppend(c: Config, actions: seq<Action>, a: Action)
    requires c.Valid()
    ensures Run(c, actions + [a]) == Step(c, Run(c, actions), a)
  {
    assert (actions + [a])[..|actions|] == actions;
  }

  // ---- Market orders under a new id ----------------------------------------------------

  function MarketOrder(id: string, symbol: string, side: Side, quantity: real): OrderRequest {
    OrderRequest(id, symbol, side, quantity, None, GTC, false, 1.0, "isolated", false)
  }

  lemma AdmitMarket(c: Config, b: Book, name: string, symbol: string, side: Side, quantity: real)
    requires c.Valid()
    ensures var o := Admit(c, b, MarketOrder(name, symbol, side, quantity));
            && (o.id, o.symbol, o.side) == (Client(name), symbol, side)
            && (o.status == FILLED || o.status == REJECTED)
            && (o.status == FILLED ==> o.price == Some(MarketPrice(c, b, symbol, side)) && symbol != "" && quantity > 0.0)
  {
  }

  lemma FillShape(c: Config, b: Book, o: Order, quantity: real, price: real)
    requires quantity > 0.0 && (o.symbol in b.positions ==> b.positions[o.symbol].quantity > 0.0)
    ensures var b' := FillOrder(c, b, o, quantity, price);
            b'.fills == b.fills + [MakeFill(c, b, o, quantity, price)] && b'.orders == b.orders
  {
  }

  /** The book after a market order under a new name: its order recorded, and booked if it was accepted. */
  function AfterMarket(c: Config, b: Book, o: Order): Book
    requires o.status == FILLED ==> o.quantity > 0.0 && o.price.Some?
    requires o.symbol in b.positions ==> b.positions[o.symbol].quantity > 0.0
  {
    if o.status == FILLED then FillOrder(c, PutOrder(b, o), o, o.quantity, o.price.value) else PutOrder(b, o)
  }

  lemma SubmitFresh(c: Config, b: Book, name: string, symbol: string, side: Side, quantity: real)
    requires c.Valid() && PositivePositions(b.positions) && Client(name) !in b.orders
    ensures var r := MarketOrder(name, symbol, side, quantity);
            var o := Admit(c, b, r);
            Submit(c, b, r) == Reply(AfterMarket(c, b, o), Ok(o))
  {
    hide FillOrder;
    AdmitMarket(c, b, name, symbol, side, quantity);
  }
}
