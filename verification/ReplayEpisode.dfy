/**
 One replayed trade on its own exchange: the event-driven run of orders, quotes, funding and protective
 exits ends in exactly the trade the closed form predicts.
*/
module ReplayEpisode {
  import opened Common
  import opened FundingModel
  import opened Venue
  import opened Exchange
  import opened ReplayModel

  function EntryRequest(id: string, s: Snapshot, e: Entry): OrderRequest {
    OrderRequest(id, s.symbol, e.side, e.quantity, None, GTC, false, 1.0, "isolated", false)
  }

  /** The venue takes an order of this size; protective and final exits of the same size pass the same checks. */
  predicate Tradeable(symbol: string, quantity: real) {
    ValidateOrder(DEFAULT_VENUE, symbol, quantity, 100.0, 1.0, "isolated") == None
  }

  /** A fresh exchange that has only been told the bar's quote. */
  function Primed(s: Snapshot): Book {
    EMPTY_BOOK.(quotes := map[s.symbol := s.AsQuote()])
  }

  function EntryOrder(cfg: ReplayConfig, id: string, s: Snapshot, e: Entry): Order {
    OrderOf(EntryRequest(id, s, e), Some(ExecutionPrice(cfg, s, e.side)), FILLED, e.quantity)
  }

  function EntryFill(cfg: ReplayConfig, id: string, s: Snapshot, e: Entry): Fill {
    MakeFill(cfg.Venue(), Primed(s), EntryOrder(cfg, id, s, e), e.quantity, ExecutionPrice(cfg, s, e.side))
  }

  /** The open position after bar j of a trade entered at bar i. */
  function HeldPosition(cfg: ReplayConfig, w: seq<Snapshot>, id: string, i: nat, j: nat, e: Entry): Position
    requires i <= j < |w|
  {
    Position(w[i].symbol, e.side, e.quantity, ExecutionPrice(cfg, w[i], e.side), Some(e.stop), Some(e.target),
             Some(w[i].mark), EntryFill(cfg, id, w[i], e).spreadCost, EntryFill(cfg, id, w[i], e).slippageCost,
             PaidUpTo(cfg, w, i, j, e), ReceivedUpTo(cfg, w, i, j, e))
  }

  /** The whole exchange while the trade is open, after bar j. */
  function Holding(cfg: ReplayConfig, w: seq<Snapshot>, id: string, i: nat, j: nat, e: Entry): Book
    requires i <= j < |w|
  {
    var s := w[i].symbol;
    Book(map[Client(id) := EntryOrder(cfg, id, w[i], e)], [Client(id)],
         [EntryFill(cfg, id, w[i], e)], [w[i].mark], [w[i].Touch(e.side)],
         map[s := HeldPosition(cfg, w, id, i, j, e)], [],
         map[s := w[j].AsQuote()], if j == i then map[] else map[s := j],
         PaidUpTo(cfg, w, i, j, e), ReceivedUpTo(cfg, w, i, j, e))
  }

  ghost predicate OneSymbol(w: seq<Snapshot>) {
    forall j :: 0 <= j < |w| ==> w[j].symbol == w[0].symbol
  }

  /** The entry order fills in full exactly when the venue takes its size. */
  lemma EntryFillsIffTradeable(cfg: ReplayConfig, id: string, s: Snapshot, e: Entry)
    ensures cfg.Venue().Valid()
    ensures var reply := Submit(cfg.Venue(), Primed(s), EntryRequest(id, s, e));
            && reply.result.Ok?
            && (reply.result.value.filled != 0.0 <==> Tradeable(s.symbol, e.quantity))
            && (Tradeable(s.symbol, e.quantity) ==> reply.result.value == EntryOrder(cfg, id, s, e))
  {
    hide FillOrder;
    assert MarketPrice(cfg.Venue(), Primed(s), s.symbol, e.side) == ExecutionPrice(cfg, s, e.side);
  }

  /** Entering and attaching protection yields the holding state of the entry bar. */
  lemma EntryOpensHolding(cfg: ReplayConfig, w: seq<Snapshot>, id: string, i: nat, e: Entry)
    requires i < |w| && Tradeable(w[i].symbol, e.quantity) && cfg.Venue().Valid()
    ensures var b := Submit(cfg.Venue(), Primed(w[i]), EntryRequest(id, w[i], e)).book;
            SetProtection(b, w[i].symbol, Some(e.stop), Some(e.target)) == Ok(Holding(cfg, w, id, i, i, e))
  {
    hide MakeFill, ExecutionPrice, ValidateOrder, MarketPrice;
    EntryFillsIffTradeable(cfg, id, w[i], e);
    var s := w[i].symbol;
    var b := Submit(cfg.Venue(), Primed(w[i]), EntryRequest(id, w[i], e)).book;
    assert b.fills == [EntryFill(cfg, id, w[i], e)] by {
      assert MakeFill(cfg.Venue(), PutOrder(Primed(w[i]), EntryOrder(cfg, id, w[i], e)), EntryOrder(cfg, id, w[i], e),
                      e.quantity, ExecutionPrice(cfg, w[i], e.side)) == EntryFill(cfg, id, w[i], e) by {
        FillIgnoresOrders(cfg, w[i], EntryOrder(cfg, id, w[i], e), e.quantity, ExecutionPrice(cfg, w[i], e.side));
      }
    }
    var h := Holding(cfg, w, id, i, i, e);
    var p := SetProtection(b, s, Some(e.stop), Some(e.target)).value;
    assert p.positions[s] == h.positions[s];
    assert p.positions == h.positions && p.orders == h.orders && p.ids == h.ids && p.marks == h.marks && p.touches == h.touches;
  }

  lemma FillIgnoresOrders(cfg: ReplayConfig, s: Snapshot, o: Order, quantity: real, price: real)
    ensures MakeFill(cfg.Venue(), PutOrder(Primed(s), o), o, quantity, price)
         == MakeFill(cfg.Venue(), Primed(s), o, quantity, price)
  {
  }

  lemma HoldingIsFillable(cfg: ReplayConfig, w: seq<Snapshot>, id: string, i: nat, j: nat, e: Entry)
    requires i <= j < |w| && e.quantity > 0.0
    ensures Fillable(Holding(cfg, w, id, i, j, e))
  {
    hide EntryFill, ExecutionPrice;
  }

  /** The next bar's event either hits the protection, and only then closes the trade, or just moves the holding state on. */
  lemma EventAdvancesHolding(cfg: ReplayConfig, w: seq<Snapshot>, id: string, i: nat, j: nat, e: Entry)
    requires i < j < |w| && OneSymbol(w) && e.quantity > 0.0 && cfg.Venue().Valid()
    requires Fillable(Holding(cfg, w, id, i, j - 1, e)) && Fillable(Holding(cfg, w, id, i, j, e))
    ensures var b' := ApplyEvent(cfg.Venue(), Holding(cfg, w, id, i, j - 1, e), EventAt(cfg, w[j], j));
            b' == if Hit(e, w[j].mark) then Protect(cfg.Venue(), Holding(cfg, w, id, i, j, e), EventAt(cfg, w[j], j))
                  else Holding(cfg, w, id, i, j, e)
  {
    hide EntryFill, ExecutionPrice, RateAt, FillOrder, MarketPrice;
    var before, after := Holding(cfg, w, id, i, j - 1, e), Holding(cfg, w, id, i, j, e);
    var event := EventAt(cfg, w[j], j);
    assert w[j].symbol == w[i].symbol;
    assert Accepted(before, event);
    FundingAdvances(cfg, w, id, i, j, e);
    assert [Client(id)][..0] == [];
    assert TouchAll(cfg.Venue(), after, after.ids, event) == after;
    assert Breached(after.positions[event.symbol], event.mark) == Hit(e, w[j].mark);
  }

  lemma FundingStep(cfg: ReplayConfig, w: seq<Snapshot>, i: nat, j: nat, e: Entry)
    requires i < j < |w|
    ensures var leg := SettlementLeg(e.side, e.quantity, w[j].mark, RateAt(cfg, w[j]));
            && PaidUpTo(cfg, w, i, j, e) == PaidUpTo(cfg, w, i, j - 1, e) + leg.0
            && ReceivedUpTo(cfg, w, i, j, e) == ReceivedUpTo(cfg, w, i, j - 1, e) + leg.1
  {
  }

  /** An event on or off the settlement grid charges the position it finds one settlement. */
  lemma QuotedSettles(b: Book, e: MarketEvent)
    requires e.symbol in b.positions
    ensures var p := b.positions[e.symbol];
            Quoted(b, e) == Accrue(b.(lastSequence := b.lastSequence[e.symbol := e.sequence],
                                      quotes := b.quotes[e.symbol := Quote(e.bid, e.ask, e.mark)]),
                                   e.symbol, SettlementLeg(p.side, p.quantity, e.mark, e.fundingRate))
  {
    var p := b.positions[e.symbol];
    PerBarChargesOneSettlement(p.side, p.quantity, e.mark, e.fundingRate);
    if e.fundingRate == 0.0 {
      FreeSettlement(p.side, p.quantity, e.mark);
      assert b.positions[e.symbol := p] == b.positions;
    }
    hide SettlementLeg, PerBarLeg, IsSettlement;
  }

  lemma FreeSettlement(side: Side, quantity: real, mark: real)
    ensures SettlementLeg(side, quantity, mark, 0.0) == (0.0, 0.0)
  {
  }

  lemma FundingAdvances(cfg: ReplayConfig, w: seq<Snapshot>, id: string, i: nat, j: nat, e: Entry)
    requires i < j < |w| && OneSymbol(w)
    ensures Quoted(Holding(cfg, w, id, i, j - 1, e), EventAt(cfg, w[j], j)) == Holding(cfg, w, id, i, j, e)
  {
    hide EntryFill, EntryOrder, ExecutionPrice, RateAt, PaidUpTo, ReceivedUpTo, SettlementLeg, Quoted;
    var before, after := Holding(cfg, w, id, i, j - 1, e), Holding(cfg, w, id, i, j, e);
    assert w[j].symbol == w[i].symbol;
    FundingStep(cfg, w, i, j, e);
    QuotedSettles(before, EventAt(cfg, w[j], j));
    var got := Quoted(before, EventAt(cfg, w[j], j));
    assert got.quotes == after.quotes && got.lastSequence == after.lastSequence && got.positions == after.positions;
  }

  // ---- The exit ---------------------------------------------------------------------------

  /** The exchange's own record of a closed trade carries the same five amounts and the same net. */
  ghost predicate Matches(t: ClosedTrade, trade: Trade) {
    && t.gross == trade.gross && t.entryFee + t.exitFee == trade.fees
    && t.spreadCost == trade.spread && t.slippageCost == trade.slippage
    && t.funding == trade.funding && t.net == trade.Net()
  }

  /** A finished episode: flat, with one closed trade, and funding totals equal to what that trade was charged. */
  ghost predicate Finished(b: Book, symbol: string, trade: Trade) {
    && symbol !in b.positions
    && |b.closed| == 1 && Matches(b.closed[0], trade)
    && b.fundingPaid - b.fundingReceived == trade.funding
  }

  /** The order that takes a position off: opposite side, full size, at the touch of the exit bar. */
  ghost predicate ExitOrder(cfg: ReplayConfig, s: Snapshot, e: Entry, o: Order, price: real) {
    o.symbol == s.symbol && o.side == Opposite(e.side) && price == ExecutionPrice(cfg, s, o.side)
  }

  lemma ExitMatches(cfg: ReplayConfig, w: seq<Snapshot>, end: nat, id: string, i: nat, e: Entry, o: Order, f: Fill, x: nat)
    requires i <= x <= end < |w| && x == ExitIndex(w, end, i, e) && e.quantity > 0.0
    requires o.side == Opposite(e.side)
    requires var exitPrice := ExecutionPrice(cfg, w[x], o.side);
             && f.fee == e.quantity * exitPrice * cfg.feeBps / 10000.0
             && f.spreadCost == Abs(w[x].Touch(o.side) - w[x].mark) * e.quantity
             && f.slippageCost == Abs(exitPrice - w[x].Touch(o.side)) * e.quantity
    ensures Matches(CloseTrade(cfg.Venue(), HeldPosition(cfg, w, id, i, x, e), o, f, w[x].mark, e.quantity),
                    TradeAt(cfg, w, end, i, e))
  {
    hide ExecutionPrice, ExitIndex, PaidUpTo, ReceivedUpTo, Abs;
    SelfRatio(e.quantity);
    var t := CloseTrade(cfg.Venue(), HeldPosition(cfg, w, id, i, x, e), o, f, w[x].mark, e.quantity);
    var trade := TradeAt(cfg, w, end, i, e);
    assert t.gross == trade.gross;
    assert t.entryFee == e.quantity * ExecutionPrice(cfg, w[i], e.side) * cfg.feeBps / 10000.0;
  }

  /** Filling an exit order out of the holding state finishes the episode. */
  lemma ExitFinishes(cfg: ReplayConfig, w: seq<Snapshot>, end: nat, id: string, i: nat, e: Entry, b: Book, o: Order, price: real)
    requires i <= end < |w| && e.quantity > 0.0 && OneSymbol(w)
    requires var x := ExitIndex(w, end, i, e);
             && b == Holding(cfg, w, id, i, x, e).(orders := b.orders, ids := b.ids, quotes := map[w[i].symbol := w[x].AsQuote()])
             && ExitOrder(cfg, w[x], e, o, price)
    ensures Finished(FillOrder(cfg.Venue(), b, o, e.quantity, price), w[i].symbol, TradeAt(cfg, w, end, i, e))
  {
    hide ExecutionPrice, ExitIndex, PaidUpTo, ReceivedUpTo, CloseTrade, EntryFill, TradeAt;
    var x := ExitIndex(w, end, i, e);
    assert w[x].symbol == w[i].symbol;
    var f := MakeFill(cfg.Venue(), b, o, e.quantity, price);
    var p := HeldPosition(cfg, w, id, i, x, e);
    ExitMatches(cfg, w, end, id, i, e, o, f, x);
    var b' := FillOrder(cfg.Venue(), b, o, e.quantity, price);
    assert b'.closed == [CloseTrade(cfg.Venue(), p, o, f, w[x].mark, e.quantity)];
    TradeFunding(cfg, w, end, i, e);
  }

  lemma TradeFunding(cfg: ReplayConfig, w: seq<Snapshot>, end: nat, i: nat, e: Entry)
    requires i <= end < |w|
    ensures var x := ExitIndex(w, end, i, e);
            TradeAt(cfg, w, end, i, e).funding == PaidUpTo(cfg, w, i, x, e) - ReceivedUpTo(cfg, w, i, x, e)
  {
  }

  /** A protective exit at the first bar that hits finishes the episode. */
  lemma ProtectiveExitFinishes(cfg: ReplayConfig, w: seq<Snapshot>, end: nat, id: string, i: nat, e: Entry)
    requires i <= end < |w| && e.quantity > 0.0 && OneSymbol(w) && cfg.Venue().Valid()
    requires var x := ExitIndex(w, end, i, e); x > i && Hit(e, w[x].mark)
    ensures var x := ExitIndex(w, end, i, e);
            var h := Holding(cfg, w, id, i, x, e);
            PositivePositions(h.positions) && Finished(Protect(cfg.Venue(), h, EventAt(cfg, w[x], x)), w[i].symbol,
                                                       TradeAt(cfg, w, end, i, e))
  {
    hide ExitIndex, PaidUpTo, ReceivedUpTo, CloseTrade, EntryFill, TradeAt, FillOrder, RateAt;
    var x := ExitIndex(w, end, i, e);
    var h := Holding(cfg, w, id, i, x, e);
    var event := EventAt(cfg, w[x], x);
    assert w[x].symbol == w[i].symbol;
    HoldingIsFillable(cfg, w, id, i, x, e);
    var o := ProtectiveOrder(cfg.Venue(), h, event);
    assert o.price.value == ExecutionPrice(cfg, w[x], o.side);
    ExitFinishes(cfg, w, end, id, i, e, h, o, o.price.value);
    assert Protect(cfg.Venue(), h, event) == PutOrder(FillOrder(cfg.Venue(), h, o, e.quantity, o.price.value), o);
  }

  /**
   Still open on the last bar, the end-of-replay close always succeeds: a position of a size the venue
   accepted can always be taken off, so the error for a failed close is never raised.
  */
  lemma EndOfReplayAlwaysFlattens(cfg: ReplayConfig, w: seq<Snapshot>, end: nat, id: string, exitId: string, i: nat, e: Entry)
    requires i <= end < |w| && OneSymbol(w) && cfg.Venue().Valid() && id != exitId
    requires Tradeable(w[i].symbol, e.quantity) && ExitIndex(w, end, i, e) == end
    ensures var x := end;
            var h := Holding(cfg, w, id, i, x, e);
            && PositivePositions(h.positions)
            && var reply := CloseAtEnd(cfg.Venue(), h, w[i].symbol, w[x].mark, exitId);
               && reply.result.Ok? && reply.result.value.filled == e.quantity
               && Finished(reply.book, w[i].symbol, TradeAt(cfg, w, end, i, e))
  {
    hide ExitIndex, PaidUpTo, ReceivedUpTo, CloseTrade, EntryFill, TradeAt, FillOrder, ValidateOrder;
    var x := end;
    var h := Holding(cfg, w, id, i, x, e);
    var s := w[i].symbol;
    assert w[x].symbol == s;
    HoldingIsFillable(cfg, w, id, i, x, e);
    var marked := FinalMark(h, s, w[x].mark);
    assert marked.quotes == h.quotes;
    var r := ExitRequest(Some(h.positions[s]), s, exitId);
    assert VenueVerdict(cfg.Venue(), r) == None;
    var o := Admit(cfg.Venue(), marked, r);
    assert o.status == FILLED && o.price.value == ExecutionPrice(cfg, w[x], o.side);
    ExitFinishes(cfg, w, end, id, i, e, PutOrder(marked, o), o, o.price.value);
  }
}
