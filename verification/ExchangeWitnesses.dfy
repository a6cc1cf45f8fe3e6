/** Concrete runs on which the paper exchange's reports and its money part company. */
module ExchangeWitnesses {
  import opened Common
  import opened FundingModel
  import opened Venue
  import opened Exchange
  import opened ExchangeLaws
  import opened ExchangeCash

  /** Ten basis points of fee, no slippage, on the default venue. */
  const CHARGING := Config(10.0, 0.0, 1.0, DEFAULT_VENUE)

  lemma SizesAreLegal(quantity: real)
    requires quantity == 2.0 || quantity == 4.0
    ensures CHARGING.Valid() && ValidateOrder(DEFAULT_VENUE, "X", quantity, 100.0, 1.0, "isolated") == None
  {
    assert 2.0 / 0.001 == 2000.0 && 4.0 / 0.001 == 4000.0 && 100.0 / 0.01 == 10000.0;
  }

  /** A market order for two or four of X fills at once. */
  lemma MarketCall(actions: seq<Action>, name: string, side: Side, quantity: real) returns (o: Order)
    requires CHARGING.Valid() && (quantity == 2.0 || quantity == 4.0)
    requires Client(name) !in Run(CHARGING, actions).orders
    ensures (o.id, o.symbol, o.side) == (Client(name), "X", side)
    ensures var b := Run(CHARGING, actions);
            Run(CHARGING, actions + [DoSubmit(MarketOrder(name, "X", side, quantity))])
            == FillOrder(CHARGING, PutOrder(b, o), o, quantity, MarketPrice(CHARGING, b, "X", side))
  {
    hide ValidateOrder, Run, FillOrder, MarketPrice, OpenOrders;
    SizesAreLegal(quantity);
    var b := Run(CHARGING, actions);
    RunAppend(CHARGING, actions, DoSubmit(MarketOrder(name, "X", side, quantity)));
    SubmitFresh(CHARGING, b, name, "X", side, quantity);
    AdmitMarket(CHARGING, b, name, "X", side, quantity);
    o := Admit(CHARGING, b, MarketOrder(name, "X", side, quantity));
  }

  lemma NothingYet(c: Config)
    requires c.Valid()
    ensures Run(c, []) == EMPTY_BOOK
  {
  }

  // ---- A flip ----------------------------------------------------------------------------------------

  /** Buy two, then sell four. */
  const FLIP := [DoSubmit(MarketOrder("a", "X", BUY, 2.0)), DoSubmit(MarketOrder("b", "X", SELL, 4.0))]

  lemma FlipFills()
    ensures CHARGING.Valid()
    ensures var fills := Run(CHARGING, FLIP).fills;
            && |fills| == 2 && fills[0].symbol == fills[1].symbol == "X" && fills[0].price == fills[1].price == 100.0
            && (fills[0].side, fills[0].quantity) == (BUY, 2.0) && (fills[1].side, fills[1].quantity) == (SELL, 4.0)
  {
    hide Run, FillOrder, OpenOrders, ValidateOrder;
    SizesAreLegal(2.0);
    NothingYet(CHARGING);
    var a := MarketCall([], "a", BUY, 2.0);
    var one := [] + [FLIP[0]];
    FillShape(CHARGING, PutOrder(EMPTY_BOOK, a), a, 2.0, 100.0);
    var b := MarketCall(one, "b", SELL, 4.0);
    FillShape(CHARGING, PutOrder(Run(CHARGING, one), b), b, 4.0, 100.0);
    assert one + [FLIP[1]] == FLIP;
  }

  /** The second fill flips, so fees are charged twice on two contracts. */
  lemma FlipChargesFeesTwice()
    ensures exists actions :: CHARGING.Valid() &&
              var b := Run(CHARGING, actions);
              Closed(TradeFees("X"), b.closed) + FeesOf(CHARGING, PositionAt(b, "X")) != Total(Fees("X"), b.fills)
  {
    hide Run, Closed, FeesOf;
    FlipFills();
    var fills := Run(CHARGING, FLIP).fills;
    assert fills[..1] == [fills[0]] && [fills[0]][..0] == [];
    assert Total(Inventory("X"), [fills[0]]) == 2.0;
    assert Flips(fills, "X", 1);
    FeesConservedIffNoFlip(CHARGING, FLIP, "X");
  }

  // ---- A favourable touch ------------------------------------------------------------------------------

  /** The venue asks less than its own mark. */
  const BARGAIN := MarketEvent("X", 98.0, 99.0, 100.0, 1, 1, 0.0)

  /** Buy below the mark, sell again: flat, no flip. */
  const FAVOUR := [DoEvent(BARGAIN), DoSubmit(MarketOrder("a", "X", BUY, 2.0)), DoSubmit(MarketOrder("b", "X", SELL, 2.0))]

  lemma BargainQuote()
    ensures CHARGING.Valid()
    ensures var b := Run(CHARGING, [DoEvent(BARGAIN)]);
            b == EMPTY_BOOK.(quotes := map["X" := Quote(98.0, 99.0, 100.0)], lastSequence := map["X" := 1])
  {
    SizesAreLegal(2.0);
    NothingYet(CHARGING);
    RunAppend(CHARGING, [], DoEvent(BARGAIN));
    assert [] + [DoEvent(BARGAIN)] == [DoEvent(BARGAIN)];
  }

  lemma FavourFills()
    ensures CHARGING.Valid()
    ensures var b := Run(CHARGING, FAVOUR);
            && "X" !in b.positions && |b.fills| == |b.marks| == |b.touches| == 2
            && b.fills[0].symbol == b.fills[1].symbol == "X" && b.fills[0].price == 99.0 && b.fills[1].price == 98.0
            && (b.fills[0].side, b.fills[0].quantity) == (BUY, 2.0) && (b.fills[1].side, b.fills[1].quantity) == (SELL, 2.0)
            && b.marks[0] == 100.0 && b.touches[0] == 99.0
  {
    hide Run, CloseTrade;
    BargainQuote();
    var quoted := [DoEvent(BARGAIN)];
    var a := MarketCall(quoted, "a", BUY, 2.0);
    var bought := quoted + [FAVOUR[1]];
    var b := MarketCall(bought, "b", SELL, 2.0);
    assert bought + [FAVOUR[2]] == FAVOUR;
  }

  /** The advantage of the purchase is booked as a cost: the flat symbol's reported profit is less than its money. */
  lemma FavourableTouchCostsProfit()
    ensures exists actions :: CHARGING.Valid() && "X" !in Run(CHARGING, actions).positions &&
              var b := Run(CHARGING, actions);
              && (forall i :: 0 <= i < |b.fills| ==> !Flips(b.fills, "X", i))
              && Closed(TradeNet("X"), b.closed) != Money(b, "X")
  {
    hide Run, Closed, Money;
    FavourFills();
    var b := Run(CHARGING, FAVOUR);
    assert b.fills[..0] == [] && b.fills[..1] == [b.fills[0]] && [b.fills[0]][..0] == [];
    assert Total(Inventory("X"), b.fills[..1]) == 2.0;
    assert Favoured(b.fills[0], b.marks[0], b.touches[0]);
    assert AnyFavoured(b.fills, b.marks, b.touches, "X");
    NetIsMoneyIff(CHARGING, FAVOUR, "X");
  }
}
