/** How a claimed cycle ends: normally, or by raising; and what the canonical entry point adds. */
module RuntimeEndings {
  import opened Common
  import opened FundingModel
  import opened Exchange
  import opened PaperVenue
  import opened Breakers
  import opened Ledger
  import opened RuntimeModel
  import opened RuntimeLaws
  import Sizing

  /** An order that closes the opposite position to the last contract. */
  predicate Flattens(b: Book, symbol: string, side: Side, quantity: real) {
    symbol in b.positions && b.positions[symbol].side != side && b.positions[symbol].quantity == quantity
  }

  lemma FillFlattensIff(c: Config, b: Book, o: Order, quantity: real, price: real)
    requires quantity > 0.0 && PositivePositions(b.positions)
    ensures o.symbol !in FillOrder(c, b, o, quantity, price).positions <==> Flattens(b, o.symbol, o.side, quantity)
  {
    hide MakeFill, CloseTrade, Shrink, Grow;
  }

  lemma AdmittedIffLegal(c: Config, b: Book, name: string, symbol: string, side: Side, quantity: real)
    requires c.Valid()
    ensures var r := MarketOrder(name, symbol, side, quantity);
            Admit(c, b, r).status == REJECTED <==> VenueVerdict(c, r).Some?
  {
  }

  lemma PlacedConfirms(u: Setup, b: Book, x: Cycle, d: Decision, quantity: real)
    requires u.exchange.Valid() && Fillable(b)
    requires Client(OrderName(x.Id())) !in b.orders && forall f :: f in b.fills ==> f.id != Client(OrderName(x.Id()))
    ensures var (b', fill) := Placed(u.exchange, b, OrderName(x.Id()), d.symbol, d.side, quantity);
            && (fill.Err? <==> VenueVerdict(u.exchange, MarketOrder(OrderName(x.Id()), d.symbol, d.side, quantity)).Some?)
            && (fill.Ok? ==> (d.symbol !in b'.positions <==> Flattens(b, d.symbol, d.side, quantity)))
  {
    hide Placed, VenueVerdict, MarketPrice, FillOrder, OrderName, OpenOrders, Admit;
    PlacedIsAdmitted(u.exchange, b, OrderName(x.Id()), d.symbol, d.side, quantity);
    var o := PlacedFresh(u.exchange, b, OrderName(x.Id()), d.symbol, d.side, quantity);
    AdmittedIffLegal(u.exchange, b, OrderName(x.Id()), d.symbol, d.side, quantity);
    if o.status == FILLED {
      FillFlattensIff(u.exchange, PutOrder(b, o), o, quantity, o.price.value);
    }
  }

  lemma PlacedIsAdmitted(c: Config, b: Book, name: string, symbol: string, side: Side, quantity: real)
    requires c.Valid() && Fillable(b) && Client(name) !in b.orders
    ensures var (b', fill) := Placed(c, b, name, symbol, side, quantity);
            Client(name) in b'.orders && b'.orders[Client(name)] == Admit(c, b, MarketOrder(name, symbol, side, quantity))
  {
    hide Admit, FillOrder, FillsOf, OpenOrders;
    AdmitMarket(c, b, name, symbol, side, quantity);
    SubmitFresh(c, b, name, symbol, side, quantity);
  }

  /** What makes a judgement raise: no valid size, an order the venue refuses, or an entry that flattens the position. */
  ghost predicate Fails(u: Setup, b: Book, x: Cycle, d: Decision)
    requires u.exchange.Valid()
  {
    var size := Sizing.SizeForRisk(SizeRequest(u.policy, u.exchange, b, d));
    || size.Err?
    || VenueVerdict(u.exchange, MarketOrder(OrderName(x.Id()), d.symbol, d.side, size.value.quantity)).Some?
    || Flattens(b, d.symbol, d.side, size.value.quantity)
  }

  /**
   A claimed cycle raises, and is left without a terminal status for ever, exactly when it passes every gate
   and then cannot be sized, is refused by the venue, or exactly flattens an opposite position.
  */
  lemma RaisesIff(u: Setup, w: World, x: Cycle)
    requires u.exchange.Valid() && Fillable(w.book) && Claims(u, w, x)
    requires Client(OrderName(x.Id())) !in w.book.orders && forall f :: f in w.book.fills ==> f.id != Client(OrderName(x.Id()))
    ensures var s := Process(u, w, x);
            && (s.result.Err? <==> s.world.cycles[x.Id()].None?)
            && (s.result.Err? <==> Earned(u, Watched(u, w, x).value.live.open, x) && Fails(u, w.book, x, x.reply.decision))
  {
    var open := Watched(u, w, x).value.live.open;
    JudgementRaisesIff(u, w.book, open, x);
    hide Judge, Fails, OrderName, OpenOrders, Staleness, UpToDate;
  }

  lemma JudgementRaisesIff(u: Setup, b: Book, open: Open, x: Cycle)
    requires u.exchange.Valid() && Fillable(b)
    requires Client(OrderName(x.Id())) !in b.orders && forall f :: f in b.fills ==> f.id != Client(OrderName(x.Id()))
    ensures Judge(u, b, open, x).result.Err? <==> Earned(u, open, x) && Fails(u, b, x, x.reply.decision)
  {
    hide SizeRequest, ProtectionVerdict, Placed, VenueVerdict, Ordering, OpenOrders, OrderName, Flattens, Sizing.SizeForRisk;
    if Earned(u, open, x) && Sizing.SizeForRisk(SizeRequest(u.policy, u.exchange, b, x.reply.decision)).Ok? {
      var d := x.reply.decision;
      PlacedConfirms(u, b, x, d, SizeOf(u, b, d));
      var placed := Placed(u.exchange, b, OrderName(x.Id()), d.symbol, d.side, SizeOf(u, b, d));
      assert Enter(u, b, x, d).result.Err? <==> placed.1.Err? || d.symbol !in placed.0.positions;
    }
  }

  // ---- Through the canonical entry point -------------------------------------------------------------

  lemma OfferKeepsSkips(u: Setup, w: World, a: Act, c: string)
    requires u.exchange.Valid() && Fillable(w.book) && !a.DoProcess?
    requires Count(Skips(c), w.log) > 0 ==> c in w.cycles && w.cycles[c].None?
    ensures var w' := Next(u, w, a); Count(Skips(c), w'.log) > 0 ==> c in w'.cycles && w'.cycles[c].None?
  {
    hide Count, Judge, Trades, Watched, Evaluated, OpenOrders, Staleness;
    match a
    case DoOffer(x) => ProcessCounts(Skips(c), u, w, x);
    case DoShadow(x) => ShadowCounts(Skips(c), w, x);
    case _ =>
  }

  /** Behind the canonical guard, only a cycle that raised is ever logged as a duplicate. */
  lemma {:induction false} OnlyRaisedCyclesAreSkipped(u: Setup, open: Open, actions: seq<Act>, c: string)
    requires u.exchange.Valid() && forall a :: a in actions ==> !a.DoProcess?
    ensures var w := After(u, open, actions); Count(Skips(c), w.log) > 0 ==> c in w.cycles && w.cycles[c].None?
  {
    hide Next;
    if |actions| > 0 {
      var n := |actions| - 1;
      assert actions[n] in actions;
      OnlyRaisedCyclesAreSkipped(u, open, actions[..n], c);
      OfferKeepsSkips(u, After(u, open, actions[..n]), actions[n], c);
    }
  }
}
