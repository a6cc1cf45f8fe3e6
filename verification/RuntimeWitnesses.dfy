/** Concrete runs of the paper runtime on which it does less than its design promises. */
module RuntimeWitnesses {
  import opened Common
  import opened FundingModel
  import opened Venue
  import opened Exchange
  import opened ExchangeLaws
  import opened PaperVenue
  import opened Breakers
  import opened RuntimeModel
  import opened RuntimeLaws
  import opened RuntimeEndings
  import opened RuntimeExposure
  import opened RuntimeInventory
  import opened Sizing

  /** Risk ten, at most a hundred a position and five hundred in all, whole contracts of one unit, no costs. */
  const DESK := Setup(Policy(60.0, 10.0, 1.0, 1.0, 100.0, 500.0, 1000.0, 1.0), Config(0.0, 0.0, 1.0, DEFAULT_VENUE), None, false)

  /** A fresh snapshot of X on which an entry is approved. */
  function Entry(hash: string, side: Side, entry: real, stop: real): Cycle {
    Cycle(RuntimeModel.Snapshot("X", 0, 0, hash, hash), 0, 0, Ok([]),
          Decided(Decision("ENTER", "X", side, entry, stop, entry, 100.0), true, "OK"), true)
  }

  lemma WholeContractsAreLegal(name: string, side: Side, quantity: real)
    requires quantity == 1.0 || quantity == 10.0
    ensures DESK.exchange.Valid() && VenueVerdict(DESK.exchange, MarketOrder(name, "X", side, quantity)) == None
  {
    assert 1.0 / 0.001 == 1000.0 && 10.0 / 0.001 == 10000.0 && 100.0 / 0.01 == 10000.0;
  }

  lemma FloorOfWhole(n: real)
    requires n == 1.0 || n == 10.0
    ensures FloorStep(n, 1.0) == n
  {
    var shifted := n + FLOOR_SLACK;
    assert shifted / 1.0 == shifted;
    assert shifted.Floor as real == n;
  }

  /** A hundred of notional is what every entry here is sized to. */
  lemma SizedToAHundred(b: Book, side: Side, entry: real, stop: real)
    requires (side, entry, stop) in {(BUY, 10.0, 9.0), (BUY, 100.0, 90.0), (SELL, 100.0, 110.0)}
    requires 0.0 <= Sum(EntryNotional(1.0), b.positions) <= 100.0
    ensures var d := Decision("ENTER", "X", side, entry, stop, entry, 100.0);
            && SizeForRisk(SizeRequest(DESK.policy, DESK.exchange, b, d)).Ok?
            && SizeOf(DESK, b, d) == if entry == 10.0 then 10.0 else 1.0
  {
    hide FloorStep, Sum;
    var d := Decision("ENTER", "X", side, entry, stop, entry, 100.0);
    var r := SizeRequest(DESK.policy, DESK.exchange, b, d);
    assert r == Request(side, entry, stop, 10.0, 1.0, 100.0, 1.0, 1.0, Some(1000.0), Sum(EntryNotional(1.0), b.positions), Some(500.0), None);
    assert RequestedNotional(r) == 100.0 && Target(r) == 100.0;
    FloorOfWhole(1.0);
    FloorOfWhole(10.0);
  }

  lemma AfterAppend(u: Setup, open: Open, actions: seq<Act>, a: Act)
    requires u.exchange.Valid()
    ensures After(u, open, actions + [a]) == Next(u, After(u, open, actions), a)
  {
    assert (actions + [a])[..|actions|] == actions;
  }

  /** From any idle world an entry here passes every gate and trades. */
  lemma EntryTrades(w: World, hash: string, side: Side, entry: real, stop: real)
    requires Fillable(w.book) && w.live.open == map[] && hash != "" && hash !in w.cycles
    requires Client(OrderName(hash)) !in w.book.orders && forall f :: f in w.book.fills ==> f.id != Client(OrderName(hash))
    requires (side, entry, stop) in {(BUY, 10.0, 9.0), (BUY, 100.0, 90.0), (SELL, 100.0, 110.0)}
    requires 0.0 <= Sum(EntryNotional(1.0), w.book.positions) <= 100.0
    ensures var x := Entry(hash, side, entry, stop);
            && DESK.exchange.Valid() && x.Id() == hash && Watched(DESK, w, x) == Ok(w) && Claims(DESK, w, x)
            && Earned(DESK, map[], x) && Trades(DESK, w.book, map[], x)
            && SizeForRisk(SizeRequest(DESK.policy, DESK.exchange, w.book, x.reply.decision)).Ok?
            && SizeOf(DESK, w.book, x.reply.decision) == if entry == 10.0 then 10.0 else 1.0
  {
    hide SizeRequest, SizeForRisk, Placed, VenueVerdict, Sum, OrderName, OpenOrders, SizeOf;
    var x := Entry(hash, side, entry, stop);
    var quantity := if entry == 10.0 then 10.0 else 1.0;
    WholeContractsAreLegal(OrderName(hash), side, quantity);
    SizedToAHundred(w.book, side, entry, stop);
    PlacedConfirms(DESK, w.book, x, x.reply.decision, quantity);
  }

  /** The very first entry, before any quote is known, trades at a hundred. */
  lemma FirstEntry(entry: real, stop: real)
    requires (entry, stop) in {(10.0, 9.0), (100.0, 90.0)}
    ensures DESK.exchange.Valid()
    ensures var x := Entry("c", BUY, entry, stop);
            var w := After(DESK, map[], [DoProcess(x)]);
            && w == Next(DESK, Fresh(map[]), DoProcess(x))
            && Gross(DESK, w) == (if entry == 10.0 then 10.0 else 1.0) * 100.0
            && Coherent({"c", "d"}, w)
  {
    hide DESK, After, Next, Coherent, Gross, Trades, Earned, SizeOf, Added, Fillable, SizeForRisk, SizeRequest, Claims;
    WholeContractsAreLegal("", BUY, 1.0);
    FirstStep(DESK, Entry("c", BUY, entry, stop));
    FirstGross(entry, stop);
  }

  /** With nothing held before, the gross entry notional is what the entry adds. */
  lemma FirstGross(entry: real, stop: real)
    requires (entry, stop) in {(10.0, 9.0), (100.0, 90.0)}
    ensures DESK.exchange.Valid()
    ensures Gross(DESK, Next(DESK, Fresh(map[]), DoProcess(Entry("c", BUY, entry, stop)))) == (if entry == 10.0 then 10.0 else 1.0) * 100.0
  {
    hide DESK, Next, Coherent, Trades, Earned, SizeOf, Added, Fillable, SizeForRisk, SizeRequest, Claims, Watched, Sum;
    WholeContractsAreLegal("", BUY, 1.0);
    var x, quantity := Entry("c", BUY, entry, stop), if entry == 10.0 then 10.0 else 1.0;
    FirstStep(DESK, x);
    SumOfNone(EntryNotional(1.0));
    SumOfNone(EntryNotional(DESK.exchange.venue.contractMultiplier));
    EntryTrades(Fresh(map[]), "c", BUY, entry, stop);
    FirstAdds(x, quantity);
    NextNotional({"c", "d"}, DESK, Fresh(map[]), DoProcess(x));
  }

  lemma FirstStep(u: Setup, x: Cycle)
    requires u.exchange.Valid() && x.Id() == "c"
    ensures After(u, map[], [DoProcess(x)]) == Next(u, Fresh(map[]), DoProcess(x))
    ensures Fillable(EMPTY_BOOK) && Distinct({"c", "d"})
    ensures Coherent({"c", "d"}, Fresh(map[])) && Coherent({"c", "d"}, After(u, map[], [DoProcess(x)]))
  {
    hide Process, Coherent, Distinct;
    NamesDiffer();
    assert [] + [DoProcess(x)] == [DoProcess(x)];
    AfterAppend(u, map[], [], DoProcess(x));
    CoherentOnEveryRun({"c", "d"}, u, map[], []);
    CoherentOnEveryRun({"c", "d"}, u, map[], [DoProcess(x)]);
  }

  lemma FirstAdds(x: Cycle, quantity: real)
    requires x.reply.Decided? && x.reply.decision.symbol == "X" && x.reply.decision.side == BUY && DESK.exchange.Valid()
    requires SizeForRisk(SizeRequest(DESK.policy, DESK.exchange, EMPTY_BOOK, x.reply.decision)).Ok?
    requires SizeOf(DESK, EMPTY_BOOK, x.reply.decision) == quantity
    ensures Added(DESK, EMPTY_BOOK, x.reply.decision) == quantity * 100.0
  {
    hide SizeOf, SizeForRisk, SizeRequest;
  }

  lemma NamesDiffer()
    ensures Distinct({"c", "d"})
  {
    assert OrderName("c")[6] == 'c' && OrderName("d")[6] == 'd';
  }

  // ---- The cap ---------------------------------------------------------------------------------------

  /** Sized at ten, filled at a hundred: a fresh exchange has no quote, and its fallback price is a hundred. */
  lemma OneEntryBreaksCap()
    ensures exists u: Setup, x: Cycle ::
              && u.exchange.Valid() && u.policy.contractMultiplier == u.exchange.venue.contractMultiplier > 0.0
              && Gross(u, After(u, map[], [DoProcess(x)])) > Cap(u)
  {
    FirstEntry(10.0, 9.0);
    assert Gross(DESK, After(DESK, map[], [DoProcess(Entry("c", BUY, 10.0, 9.0))])) > Cap(DESK);
  }

  // ---- Flattening ------------------------------------------------------------------------------------

  const FIRST := Entry("c", BUY, 100.0, 90.0)

  const SECOND := Entry("d", SELL, 100.0, 110.0)

  /** The first entry of one contract leaves one contract, bought, and an idle runtime. */
  lemma OneContractHeld()
    ensures DESK.exchange.Valid()
    ensures var w := Process(DESK, Fresh(map[]), FIRST).world;
            && "X" in w.book.positions && (w.book.positions["X"].side, w.book.positions["X"].quantity) == (BUY, 1.0)
            && w.live.open == map[] && w.cycles.Keys == {"c"}
  {
    hide Judge, SizeRequest, SizeForRisk, Placed, VenueVerdict, OrderName, Trades, Earned, SizeOf, FillTraded;
    WholeContractsAreLegal("", BUY, 1.0);
    SumOfNone(EntryNotional(1.0));
    EntryTrades(Fresh(map[]), "c", BUY, 100.0, 90.0);
    OneFillHeld();
  }

  lemma OneContractFilled() returns (f: Fill)
    ensures DESK.exchange.Valid()
    ensures Judge(DESK, EMPTY_BOOK, map[], FIRST).book.fills == [f]
    ensures (f.symbol, f.side, f.quantity) == ("X", BUY, 1.0)
  {
    hide SizeRequest, SizeForRisk, Placed, OrderName, Judge;
    SumOfNone(EntryNotional(1.0));
    EntryTrades(Fresh(map[]), "c", BUY, 100.0, 90.0);
    JudgementFills(DESK, EMPTY_BOOK, map[], FIRST);
    var o := PlacedFresh(DESK.exchange, EMPTY_BOOK, OrderName("c"), "X", BUY, 1.0);
    f := FillTraded(DESK, EMPTY_BOOK, map[], FIRST);
  }

  /** One fill of one contract is one contract of inventory. */
  lemma OneFillHeld()
    ensures DESK.exchange.Valid()
    ensures var b := Judge(DESK, EMPTY_BOOK, map[], FIRST).book;
            "X" in b.positions && (b.positions["X"].side, b.positions["X"].quantity) == (BUY, 1.0)
  {
    hide Judge, Exchange.Step, Exchange.Run, OpenOrders;
    var f := OneContractFilled();
    var calls := JudgementOnly(FIRST);
    var b := Judge(DESK, EMPTY_BOOK, map[], FIRST).book;
    AccountsHoldOnEveryRun(DESK.exchange, calls);
    AccountsOfSymbol(DESK.exchange, b, "X");
    assert [f][..0] == [];
    assert Total(Inventory("X"), [f]) == 1.0;
  }

  lemma JudgementOnly(x: Cycle) returns (calls: seq<Exchange.Action>)
    requires DESK.exchange.Valid()
    ensures Judge(DESK, EMPTY_BOOK, map[], x).book == Exchange.Run(DESK.exchange, calls)
  {
    hide Judge, Exchange.Step;
    calls := [];
    var made := JudgementCalls(DESK, EMPTY_BOOK, map[], x);
    if |made| > 0 {
      RunAppend(DESK.exchange, calls, made[0]);
      calls := calls + [made[0]];
    }
    if |made| > 1 {
      RunAppend(DESK.exchange, calls, made[1]);
      calls := calls + [made[1]];
    }
  }

  /** Selling exactly what is held books the exit and then raises: the cycle is claimed and never ends. */
  lemma FlatteningEntryRaises()
    ensures exists u: Setup, x: Cycle, y: Cycle :: u.exchange.Valid() && RaisesAfter(u, x, y)
  {
    hide RaisesAfter;
    SellsWhatIsHeld();
  }

  /** After one entry, a second one that can be sized and placed raises because it flattens the position. */
  ghost predicate RaisesAfter(u: Setup, x: Cycle, y: Cycle)
    requires u.exchange.Valid()
  {
    var w := After(u, map[], [DoProcess(x)]);
    && Claims(u, w, y) && y.reply.Decided? && SizeForRisk(SizeRequest(u.policy, u.exchange, w.book, y.reply.decision)).Ok?
    && Flattens(w.book, y.reply.decision.symbol, y.reply.decision.side, SizeOf(u, w.book, y.reply.decision))
    && Process(u, w, y).result.Err? && y.Id() in Process(u, w, y).world.cycles && Process(u, w, y).world.cycles[y.Id()].None?
  }

  lemma SellsWhatIsHeld()
    ensures DESK.exchange.Valid() && RaisesAfter(DESK, FIRST, SECOND)
  {
    hide SizeRequest, SizeForRisk, OrderName, Process, After, SizeOf, Sum, Linked, OrderLaw, OpenOrders, Trades, Fails, Earned, VenueVerdict;
    FirstEntry(100.0, 90.0);
    OneContractHeld();
    var w := After(DESK, map[], [DoProcess(FIRST)]);
    NamesDiffer();
    NameIsFree(w, {"c", "d"}, SECOND);
    EntryTrades(w, "d", SELL, 100.0, 110.0);
    RaisesIff(DESK, w, SECOND);
    FailsHere(w.book);
    ClaimedStays(w, SECOND);
  }

  lemma ClaimedStays(w: World, y: Cycle)
    requires DESK.exchange.Valid() && Fillable(w.book) && Claims(DESK, w, y)
    ensures y.Id() in Process(DESK, w, y).world.cycles
  {
    hide Judge, OpenOrders, Watched;
  }

  lemma FailsHere(b: Book)
    requires 0.0 <= Sum(EntryNotional(1.0), b.positions) <= 100.0
    requires "X" in b.positions && (b.positions["X"].side, b.positions["X"].quantity) == (BUY, 1.0)
    ensures DESK.exchange.Valid() && Fails(DESK, b, SECOND, SECOND.reply.decision)
  {
    hide SizeRequest, SizeForRisk, Sum;
    WholeContractsAreLegal("", BUY, 1.0);
    SizedToAHundred(b, SELL, 100.0, 110.0);
  }
}
