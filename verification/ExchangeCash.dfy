/**
 Reported profit against money: over every run, the net profit of closed trades is the cash that moved at
 executed prices, less fees and funding, less exactly what flips charge twice and what favourable quotes
 and prices are charged as if they were costs.
*/
module ExchangeCash {
  import opened Common
  import opened FundingModel
  import opened Exchange
  import opened ExchangeLaws

  /**
   What a fill is charged although it gained: spread and slippage are booked as distances, so a touch better
   than the mark, or a price better than the touch, counts against the fill by twice its advantage.
  */
  function Overcharge(f: Fill, mark: real, touch: real): real {
    2.0 * Max(0.0, Sign(f.side) * (mark - touch)) * f.quantity + 2.0 * Max(0.0, Sign(f.side) * (touch - f.price)) * f.quantity
  }

  /** The fill traded at a touch better than its mark, or at a price better than its touch. */
  predicate Favoured(f: Fill, mark: real, touch: real) {
    Sign(f.side) * (mark - touch) > 0.0 || Sign(f.side) * (touch - f.price) > 0.0
  }

  /** The costs booked on a fill are what it paid beyond the mark, plus its overcharge. */
  ghost predicate Priced(f: Fill, mark: real, touch: real) {
    && f.quantity > 0.0 && f.spreadCost >= 0.0 && f.slippageCost >= 0.0
    && f.spreadCost + f.slippageCost == Sign(f.side) * (f.price - mark) * f.quantity + Overcharge(f, mark, touch)
  }

  /** A trade's net is its gross less its five costs. */
  ghost predicate NetAdds(t: ClosedTrade) {
    t.net == t.gross - t.entryFee - t.exitFee - t.funding - t.spreadCost - t.slippageCost
  }

  ghost predicate Booked(b: Book) {
    && |b.marks| == |b.touches| == |b.fills|
    && (forall i :: 0 <= i < |b.fills| ==> Priced(b.fills[i], b.marks[i], b.touches[i]))
    && forall t :: t in b.closed ==> NetAdds(t)
  }

  // ---- One fill ------------------------------------------------------------------------------------

  lemma DistancesAddUp(sigma: real, price: real, touch: real, mark: real, quantity: real)
    requires (sigma == 1.0 || sigma == -1.0) && quantity > 0.0
    ensures Abs(touch - mark) * quantity >= 0.0 && Abs(price - touch) * quantity >= 0.0
    ensures Abs(touch - mark) * quantity + Abs(price - touch) * quantity
         == sigma * (price - mark) * quantity
            + (2.0 * Max(0.0, sigma * (mark - touch)) * quantity + 2.0 * Max(0.0, sigma * (touch - price)) * quantity)
  {
    var spread, slip := Abs(touch - mark), Abs(price - touch);
    var a, b := Max(0.0, sigma * (mark - touch)), Max(0.0, sigma * (touch - price));
    var paid := sigma * (price - mark);
    assert spread + slip == paid + 2.0 * a + 2.0 * b;
    ThreeParts(spread, slip, paid, a, b, quantity);
    NonNegativeProduct(spread, quantity);
    NonNegativeProduct(slip, quantity);
  }

  lemma ThreeParts(spread: real, slip: real, paid: real, a: real, b: real, quantity: real)
    requires spread + slip == paid + 2.0 * a + 2.0 * b
    ensures spread * quantity + slip * quantity == paid * quantity + (2.0 * a * quantity + 2.0 * b * quantity)
  {
    assert (spread + slip) * quantity == (paid + 2.0 * a + 2.0 * b) * quantity;
  }

  lemma NonNegativeProduct(a: real, b: real)
    requires a >= 0.0 && b >= 0.0
    ensures a * b >= 0.0
  {
  }

  /** The costs booked on any fill, at any quote, are what it paid beyond the mark plus its overcharge. */
  lemma FillIsPriced(c: Config, b: Book, o: Order, quantity: real, price: real)
    requires quantity > 0.0
    ensures var q := QuoteOr(b, o.symbol, price); Priced(MakeFill(c, b, o, quantity, price), q.mark, TouchOf(q, o.side))
  {
    hide Max, Abs;
    var q := QuoteOr(b, o.symbol, price);
    DistancesAddUp(Sign(o.side), price, TouchOf(q, o.side), q.mark, quantity);
  }

  /** Slippage is against a market order exactly when it and the touch have the same sign: with both positive, always. */
  lemma MarketPaysTouchIff(c: Config, b: Book, symbol: string, side: Side)
    ensures var touch := TouchOf(QuoteOr(b, symbol, 100.0), side);
            Sign(side) * (MarketPrice(c, b, symbol, side) - touch) >= 0.0 <==> touch * c.slippageBps >= 0.0
  {
    var touch := TouchOf(QuoteOr(b, symbol, 100.0), side);
    WorsenedBy(touch, Sign(side), c.slippageBps);
  }

  lemma WorsenedBy(touch: real, sigma: real, bps: real)
    requires sigma == 1.0 || sigma == -1.0
    ensures sigma * (touch * (1.0 + sigma * bps / 10000.0) - touch) == touch * bps / 10000.0
  {
    var part := sigma * bps / 10000.0;
    assert touch * (1.0 + part) - touch == touch * part;
  }

  lemma RebookNets(c: Config, prior: Option<Position>, o: Order, f: Fill, quantity: real, mark: real)
    requires quantity > 0.0 && (prior.Some? ==> prior.value.quantity > 0.0)
    ensures var t := Rebook(c, prior, o, f, quantity, mark).trade; t.Some? ==> NetAdds(t.value)
  {
  }

  lemma FillKeepsBooked(c: Config, b: Book, o: Order, quantity: real, price: real)
    requires quantity > 0.0 && PositivePositions(b.positions) && Booked(b)
    ensures Booked(FillOrder(c, b, o, quantity, price))
  {
    hide Rebook, MakeFill, Priced, NetAdds;
    var f := MakeFill(c, b, o, quantity, price);
    var q := QuoteOr(b, o.symbol, price);
    FillIsPriced(c, b, o, quantity, price);
    RebookNets(c, PositionAt(b, o.symbol), o, f, quantity, q.mark);
    var b' := FillOrder(c, b, o, quantity, price);
    assert b'.fills == b.fills + [f] && b'.marks == b.marks + [q.mark] && b'.touches == b.touches + [TouchOf(q, o.side)];
  }

  // ---- One call ------------------------------------------------------------------------------------

  lemma SameHistoryKeepsBooked(b: Book, b': Book)
    requires Booked(b) && b'.fills == b.fills && b'.marks == b.marks && b'.touches == b.touches && b'.closed == b.closed
    ensures Booked(b')
  {
  }

  lemma SubmitKeepsBooked(c: Config, b: Book, r: OrderRequest)
    requires c.Valid() && Fillable(b) && Booked(b)
    ensures Booked(Submit(c, b, r).book)
  {
    hide FillOrder, Admit, Booked;
    if Client(r.id) !in b.orders {
      var o := Admit(c, b, r);
      SameHistoryKeepsBooked(b, PutOrder(b, o));
      if o.status == FILLED {
        FillKeepsBooked(c, PutOrder(b, o), o, r.quantity, o.price.value);
      }
    }
  }

  lemma TouchKeepsBooked(c: Config, b: Book, id: OrderId, e: MarketEvent)
    requires c.Valid() && Fillable(b) && Booked(b)
    ensures Booked(Touch(c, b, id, e))
  {
    hide FillOrder, Booked, TouchQuantity;
    if id in b.orders && Triggers(b.orders[id], e) {
      var o := b.orders[id];
      var qty := TouchQuantity(c, o);
      TouchPositive(c, o);
      var o' := o.(status := if qty >= o.quantity - o.filled then FILLED else PARTIALLY_FILLED, filled := o.filled + qty);
      var b1 := b.(orders := b.orders[id := o']);
      SameHistoryKeepsBooked(b, b1);
      FillKeepsBooked(c, b1, o', qty, o.price.value);
    }
  }

  lemma {:induction false} TouchAllKeepsBooked(c: Config, b: Book, ids: seq<OrderId>, e: MarketEvent)
    requires c.Valid() && Fillable(b) && Booked(b)
    ensures Booked(TouchAll(c, b, ids, e))
  {
    hide Booked, Touch;
    if |ids| > 0 {
      TouchAllKeepsBooked(c, b, ids[..|ids| - 1], e);
      TouchKeepsBooked(c, TouchAll(c, b, ids[..|ids| - 1], e), ids[|ids| - 1], e);
    }
  }

  lemma ProtectKeepsBooked(c: Config, b: Book, e: MarketEvent)
    requires Fillable(b) && Booked(b)
    ensures Booked(Protect(c, b, e))
  {
    hide FillOrder, Booked, MarketPrice;
    if e.symbol in b.positions && Breached(b.positions[e.symbol], e.mark) {
      var o := ProtectiveOrder(c, b, e);
      FillKeepsBooked(c, b, o, o.quantity, o.price.value);
      SameHistoryKeepsBooked(FillOrder(c, b, o, o.quantity, o.price.value), Protect(c, b, e));
    }
  }

  lemma QuotedKeepsBooked(b: Book, e: MarketEvent)
    requires Fillable(b) && Booked(b)
    ensures Booked(Quoted(b, e)) && Fillable(Quoted(b, e))
  {
    hide SettlementLeg, PerBarLeg, Booked;
    SameHistoryKeepsBooked(b, Quoted(b, e));
  }

  lemma StepKeepsBooked(c: Config, b: Book, a: Action)
    requires c.Valid() && Fillable(b) && Booked(b)
    ensures Booked(Step(c, b, a))
  {
    hide Submit, Booked, TouchAll, Protect, Quoted;
    match a
    case DoSubmit(r) => SubmitKeepsBooked(c, b, r);
    case DoEvent(e) =>
      if Accepted(b, e) {
        var quoted := Quoted(b, e);
        QuotedKeepsBooked(b, e);
        TouchAllKeepsBooked(c, quoted, quoted.ids, e);
        ProtectKeepsBooked(c, TouchAll(c, quoted, quoted.ids, e), e);
      }
    case DoClose(s, mark, id) =>
      if s in b.positions {
        SameHistoryKeepsBooked(b, FinalMark(b, s, mark));
        SubmitKeepsBooked(c, FinalMark(b, s, mark), ExitRequest(Some(b.positions[s]), s, id));
      } else {
        SubmitKeepsBooked(c, b, ExitRequest(None, s, id));
      }
    case _ => SameHistoryKeepsBooked(b, Step(c, b, a));
  }

  // ---- Every run -----------------------------------------------------------------------------------

  lemma {:induction false} BookedOnEveryRun(c: Config, actions: seq<Action>)
    requires c.Valid()
    ensures Booked(Run(c, actions))
  {
    hide Step;
    if |actions| > 0 {
      var n := |actions| - 1;
      BookedOnEveryRun(c, actions[..n]);
      StepKeepsBooked(c, Run(c, actions[..n]), actions[n]);
    }
  }

  /** Cash moved in a symbol at executed prices: received for sales, less paid for purchases. */
  function Cash(fills: seq<Fill>, s: string): real {
    if |fills| == 0 then 0.0
    else
      var f := fills[|fills| - 1];
      Cash(fills[..|fills| - 1], s) - if f.symbol == s then ValueAt(f.side, f.quantity, f.price) else 0.0
  }

  /** All overcharges of the fills in a symbol. */
  function Overcharged(fills: seq<Fill>, marks: seq<real>, touches: seq<real>, s: string): real
    requires |fills| == |marks| == |touches|
  {
    if |fills| == 0 then 0.0
    else
      var n := |fills| - 1;
      Overcharged(fills[..n], marks[..n], touches[..n], s)
      + if fills[n].symbol == s then Overcharge(fills[n], marks[n], touches[n]) else 0.0
  }

  lemma PricedValue(f: Fill, mark: real, touch: real)
    requires Priced(f, mark, touch)
    ensures ValueAt(f.side, f.quantity, f.price) + Overcharge(f, mark, touch)
         == ValueAt(f.side, f.quantity, mark) + f.spreadCost + f.slippageCost
  {
    hide Overcharge;
    assert Sign(f.side) * (f.price - mark) * f.quantity == Sign(f.side) * f.quantity * f.price - Sign(f.side) * f.quantity * mark;
  }

  /** Executed cash is the cash at marks, less booked spread and slippage, plus what of those was overcharged. */
  lemma {:induction false} CashIsFlowLessCosts(fills: seq<Fill>, marks: seq<real>, touches: seq<real>, s: string)
    requires |fills| == |marks| == |touches|
    requires forall i :: 0 <= i < |fills| ==> Priced(fills[i], marks[i], touches[i])
    ensures Cash(fills, s) == ReferenceFlow(fills, marks, s) - Total(Spread(s), fills) - Total(Slippage(s), fills)
                              + Overcharged(fills, marks, touches, s)
  {
    hide Priced, ValueAt, Overcharge;
    if |fills| > 0 {
      var n := |fills| - 1;
      CashIsFlowLessCosts(fills[..n], marks[..n], touches[..n], s);
      PricedValue(fills[n], marks[n], touches[n]);
    }
  }

  lemma {:induction false} NetSplits(trades: seq<ClosedTrade>, s: string)
    requires forall t :: t in trades ==> NetAdds(t)
    ensures Closed(TradeNet(s), trades)
         == Closed(TradeGross(s), trades) - Closed(TradeFees(s), trades) - Closed(TradeFundingIn(s), trades)
            - Closed(TradeSpread(s), trades) - Closed(TradeSlippage(s), trades)
  {
    if |trades| > 0 {
      NetSplits(trades[..|trades| - 1], s);
      assert NetAdds(trades[|trades| - 1]);
    }
  }

  /** What flips charge twice in a symbol, all costs together. */
  function DoubleCharged(c: Config, fills: seq<Fill>, s: string): real {
    FlipSurplus(FeeSurplus, c, fills, s) + FlipSurplus(SpreadSurplus, c, fills, s) + FlipSurplus(SlippageSurplus, c, fills, s)
  }

  /** Money: cash moved in a symbol at executed prices, less fees and funding. */
  function Money(b: Book, s: string): real {
    Cash(b.fills, s) - Total(Fees(s), b.fills) - Closed(TradeFundingIn(s), b.closed)
  }

  /** Whenever a symbol is flat, its reported net profit is its money less what was charged twice and overcharged. */
  lemma NetIsMoneyLessCharges(c: Config, actions: seq<Action>, s: string)
    requires c.Valid() && s !in Run(c, actions).positions
    ensures var b := Run(c, actions);
            && |b.marks| == |b.touches| == |b.fills|
            && Closed(TradeNet(s), b.closed)
               == Money(b, s) - DoubleCharged(c, b.fills, s) - Overcharged(b.fills, b.marks, b.touches, s)
  {
    hide Run, Cash, Total, Closed, FlipSurplus, ReferenceFlow, Overcharged;
    var b := Run(c, actions);
    BookedOnEveryRun(c, actions);
    AccountsHoldOnEveryRun(c, actions);
    assert SymbolLaws(c, b, s);
    CashIsFlowLessCosts(b.fills, b.marks, b.touches, s);
    NetSplits(b.closed, s);
  }

  // ---- When the report is the money ------------------------------------------------------------------

  /** Some fill in the symbol was favoured. */
  ghost predicate AnyFavoured(fills: seq<Fill>, marks: seq<real>, touches: seq<real>, s: string)
    requires |fills| == |marks| == |touches|
  {
    exists i :: 0 <= i < |fills| && fills[i].symbol == s && Favoured(fills[i], marks[i], touches[i])
  }

  lemma OverchargeSign(f: Fill, mark: real, touch: real)
    requires f.quantity > 0.0
    ensures Overcharge(f, mark, touch) >= 0.0 && (Overcharge(f, mark, touch) > 0.0 <==> Favoured(f, mark, touch))
  {
    var a, b := Max(0.0, Sign(f.side) * (mark - touch)), Max(0.0, Sign(f.side) * (touch - f.price));
    DoubledPart(a, f.quantity);
    DoubledPart(b, f.quantity);
  }

  lemma DoubledPart(a: real, quantity: real)
    requires a >= 0.0 && quantity > 0.0
    ensures 2.0 * a * quantity >= 0.0 && (2.0 * a * quantity > 0.0 <==> a > 0.0)
  {
    if a > 0.0 {
      assert a * quantity > 0.0;
    }
  }

  lemma {:induction false} OverchargedIffFavoured(fills: seq<Fill>, marks: seq<real>, touches: seq<real>, s: string)
    requires |fills| == |marks| == |touches|
    requires forall i :: 0 <= i < |fills| ==> fills[i].quantity > 0.0
    ensures Overcharged(fills, marks, touches, s) >= 0.0
    ensures Overcharged(fills, marks, touches, s) > 0.0 <==> AnyFavoured(fills, marks, touches, s)
  {
    hide Overcharge, Favoured;
    if |fills| > 0 {
      var n := |fills| - 1;
      OverchargedIffFavoured(fills[..n], marks[..n], touches[..n], s);
      OverchargeSign(fills[n], marks[n], touches[n]);
      if AnyFavoured(fills[..n], marks[..n], touches[..n], s) {
        var i :| 0 <= i < n && fills[..n][i].symbol == s && Favoured(fills[..n][i], marks[..n][i], touches[..n][i]);
        assert fills[i].symbol == s && Favoured(fills[i], marks[i], touches[i]);
      }
      if AnyFavoured(fills, marks, touches, s) && !(fills[n].symbol == s && Favoured(fills[n], marks[n], touches[n])) {
        var i :| 0 <= i < |fills| && fills[i].symbol == s && Favoured(fills[i], marks[i], touches[i]);
        assert fills[..n][i].symbol == s && Favoured(fills[..n][i], marks[..n][i], touches[..n][i]);
      }
    }
  }

  /** Flips apart, the reported profit of a flat symbol is its money exactly when no fill in it was favoured. */
  lemma NetIsMoneyIffNoneFavoured(c: Config, actions: seq<Action>, s: string)
    requires c.Valid() && s !in Run(c, actions).positions
    ensures var b := Run(c, actions);
            && |b.marks| == |b.touches| == |b.fills|
            && (Closed(TradeNet(s), b.closed) == Money(b, s) - DoubleCharged(c, b.fills, s)
                <==> !AnyFavoured(b.fills, b.marks, b.touches, s))
  {
    hide Run, Cash, Total, Closed, FlipSurplus, AnyFavoured, Money, Overcharged;
    var b := Run(c, actions);
    NetIsMoneyLessCharges(c, actions, s);
    BookedOnEveryRun(c, actions);
    forall i | 0 <= i < |b.fills| ensures b.fills[i].quantity > 0.0 { assert Priced(b.fills[i], b.marks[i], b.touches[i]); }
    OverchargedIffFavoured(b.fills, b.marks, b.touches, s);
  }

  lemma {:induction false} CostSurplusNonNegative(k: Surplus, c: Config, fills: seq<Fill>, s: string)
    requires k == SpreadSurplus || k == SlippageSurplus
    requires forall f :: f in fills ==> f.spreadCost >= 0.0 && f.slippageCost >= 0.0
    ensures FlipSurplus(k, c, fills, s) >= 0.0
  {
    if |fills| > 0 {
      CostSurplusNonNegative(k, c, fills[..|fills| - 1], s);
      assert fills[|fills| - 1] in fills;
    }
  }

  /**
   With a positive fee rate and positive prices, the reported profit of a flat symbol is its money exactly when
   no fill in it flipped and none was favoured.
  */
  lemma NetIsMoneyIff(c: Config, actions: seq<Action>, s: string)
    requires c.Valid() && s !in Run(c, actions).positions && c.feeBps > 0.0
    requires forall f :: f in Run(c, actions).fills ==> f.price > 0.0
    ensures var b := Run(c, actions);
            && |b.marks| == |b.touches| == |b.fills|
            && (Closed(TradeNet(s), b.closed) == Money(b, s)
                <==> !AnyFavoured(b.fills, b.marks, b.touches, s) && forall i :: 0 <= i < |b.fills| ==> !Flips(b.fills, s, i))
  {
    hide Run, Cash, Total, Closed, AnyFavoured, Money, Overcharged, FlipSurplus, Flips;
    var b := Run(c, actions);
    NetIsMoneyLessCharges(c, actions, s);
    BookedOnEveryRun(c, actions);
    forall i | 0 <= i < |b.fills|
      ensures b.fills[i].quantity > 0.0 && b.fills[i].spreadCost >= 0.0 && b.fills[i].slippageCost >= 0.0 {
      assert Priced(b.fills[i], b.marks[i], b.touches[i]);
    }
    OverchargedIffFavoured(b.fills, b.marks, b.touches, s);
    FeeSurplusNonNegative(c, b.fills, s);
    CostSurplusNonNegative(SpreadSurplus, c, b.fills, s);
    CostSurplusNonNegative(SlippageSurplus, c, b.fills, s);
    if forall i :: 0 <= i < |b.fills| ==> !Flips(b.fills, s, i) {
      SurplusFromFlips(FeeSurplus, c, b.fills, s);
      SurplusFromFlips(SpreadSurplus, c, b.fills, s);
      SurplusFromFlips(SlippageSurplus, c, b.fills, s);
    }
  }
}
