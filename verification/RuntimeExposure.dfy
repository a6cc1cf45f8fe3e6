/** How much the runtime can have at stake: gross entry notional against the portfolio cap, over every run. */
module RuntimeExposure {
  import opened Common
  import opened FundingModel
  import opened Exchange
  import opened ExchangeLaws
  import opened PaperVenue
  import opened Breakers
  import opened RuntimeModel
  import opened RuntimeLaws
  import opened RuntimeInventory
  import Sizing

  // ---- One fill ------------------------------------------------------------------------------------

  /** Entry notional of a position, if any. */
  function NotionalOf(k: real, p: Option<Position>): real { if p.Some? then p.value.quantity * p.value.entryPrice * k else 0.0 }

  /** What trading a quantity adds to the entry notional of a symbol: adding, reducing, flattening or flipping what is held. */
  function Delta(held: Option<Position>, side: Side, quantity: real, price: real, k: real): real {
    if held.None? || held.value.side == side then quantity * price * k
    else if quantity < held.value.quantity then -(quantity * held.value.entryPrice * k)
    else (quantity - held.value.quantity) * price * k - NotionalOf(k, held)
  }

  lemma GrownNotional(p: Position, f: Fill, quantity: real, mark: real, k: real)
    requires p.quantity > 0.0 && quantity > 0.0
    ensures NotionalOf(k, Some(Grow(p, f, quantity, mark))) == NotionalOf(k, Some(p)) + quantity * f.price * k
    ensures p.entryPrice >= 0.0 && f.price >= 0.0 ==> Grow(p, f, quantity, mark).entryPrice >= 0.0
  {
    var total := p.quantity + quantity;
    var spent := p.entryPrice * p.quantity + f.price * quantity;
    DivideCancels(spent, total);
    var average := spent / total;
    assert total * average * k == spent * k;
    if p.entryPrice >= 0.0 && f.price >= 0.0 {
      assert spent >= 0.0;
    }
  }

  /** A fill moves the entry notional of its symbol by exactly that much. */
  lemma RebookNotional(c: Config, prior: Option<Position>, o: Order, f: Fill, quantity: real, mark: real, k: real)
    requires quantity > 0.0 && (prior.Some? ==> prior.value.quantity > 0.0)
    ensures var p := Rebook(c, prior, o, f, quantity, mark).position;
            && NotionalOf(k, p) == NotionalOf(k, prior) + Delta(prior, o.side, quantity, f.price, k)
            && ((prior.Some? ==> prior.value.entryPrice >= 0.0) && f.price >= 0.0 && p.Some? ==> p.value.entryPrice >= 0.0)
  {
    hide Grow, CloseTrade;
    if prior.Some? && prior.value.side == o.side {
      GrownNotional(prior.value, f, quantity, mark, k);
    } else if prior.Some? {
      var p := prior.value;
      RestNotional(p.quantity, quantity, p.entryPrice, k);
    }
  }

  lemma RestNotional(held: real, quantity: real, price: real, k: real)
    ensures (held - quantity) * price * k == held * price * k - quantity * price * k
  {
  }

  lemma FillNotional(c: Config, b: Book, o: Order, quantity: real, price: real, k: real)
    requires quantity > 0.0 && PositivePositions(b.positions)
    ensures Sum(EntryNotional(k), FillOrder(c, b, o, quantity, price).positions)
         == Sum(EntryNotional(k), b.positions) + Delta(PositionAt(b, o.symbol), o.side, quantity, price, k)
  {
    hide Rebook, NotionalOf, Delta, At, Sum;
    var b' := FillOrder(c, b, o, quantity, price);
    var f := MakeFill(c, b, o, quantity, price);
    var mark := QuoteOr(b, o.symbol, price).mark;
    RebookNotional(c, PositionAt(b, o.symbol), o, f, quantity, mark, k);
    SumChange(EntryNotional(k), b.positions, b'.positions, o.symbol);
    NotionalAt(b, o.symbol, k);
    NotionalAt(b', o.symbol, k);
    assert PositionAt(b', o.symbol) == Rebook(c, PositionAt(b, o.symbol), o, f, quantity, mark).position;
  }

  lemma NotionalAt(b: Book, s: string, k: real)
    ensures At(EntryNotional(k), b.positions, s) == NotionalOf(k, PositionAt(b, s))
  {
  }

  lemma SamePart(p: Position, p': Position, k: real)
    requires p'.quantity == p.quantity && p'.entryPrice == p.entryPrice
    ensures PositionOf(EntryNotional(k), p') == PositionOf(EntryNotional(k), p)
  {
  }

  /** Only what carries no weight changed: protection levels and accrued funding. */
  lemma SameNotional(b: Book, ps: map<string, Position>, s: string, k: real)
    requires s in b.positions && s in ps && ps == b.positions[s := ps[s]]
    requires ps[s].quantity == b.positions[s].quantity && ps[s].entryPrice == b.positions[s].entryPrice
    ensures Sum(EntryNotional(k), ps) == Sum(EntryNotional(k), b.positions)
  {
    hide PositionOf, Sum;
    SamePart(b.positions[s], ps[s], k);
    assert ps - {s} == b.positions - {s};
    SumChange(EntryNotional(k), b.positions, ps, s);
  }

  // ---- One market event ------------------------------------------------------------------------------

  /** Whether an event closes the position in its symbol. */
  predicate Exits(b: Book, e: MarketEvent) {
    Accepted(b, e) && e.symbol in b.positions && Breached(b.positions[e.symbol], e.mark)
  }

  /** A protective exit takes the position's whole notional away, and nothing else. */
  lemma ExitNotional(c: Config, b: Book, e: MarketEvent, k: real)
    requires PositivePositions(b.positions)
    ensures var exits := e.symbol in b.positions && Breached(b.positions[e.symbol], e.mark);
            && Sum(EntryNotional(k), Protect(c, b, e).positions)
               == Sum(EntryNotional(k), b.positions) - (if exits then NotionalOf(k, PositionAt(b, e.symbol)) else 0.0)
            && Protect(c, b, e).positions == if exits then b.positions - {e.symbol} else b.positions
  {
    hide MakeFill, CloseTrade, Sum;
    if e.symbol in b.positions && Breached(b.positions[e.symbol], e.mark) {
      var b' := Protect(c, b, e);
      assert b'.positions == b.positions - {e.symbol};
      SumChange(EntryNotional(k), b.positions, b'.positions, e.symbol);
    }
  }

  lemma FundNotional(b: Book, e: MarketEvent, k: real)
    ensures var b' := Quoted(b, e);
            && Sum(EntryNotional(k), b'.positions) == Sum(EntryNotional(k), b.positions) && b'.orders == b.orders
            && b'.positions.Keys == b.positions.Keys
            && forall s :: s in b.positions ==>
                 b'.positions[s] == b.positions[s].(fundingPaid := b'.positions[s].fundingPaid, fundingReceived := b'.positions[s].fundingReceived)
  {
    hide Sum;
    if e.fundingRate != 0.0 && e.symbol in b.positions {
      SameNotional(b, Quoted(b, e).positions, e.symbol, k);
    }
  }

  ghost predicate NonNegativeEntries(ps: map<string, Position>) {
    forall s :: s in ps ==> ps[s].entryPrice >= 0.0
  }

  lemma MarketNotional(c: Config, b: Book, e: MarketEvent, k: real)
    requires c.Valid() && Fillable(b) && forall id :: id in b.orders ==> b.orders[id].status in {FILLED, REJECTED}
    ensures var b' := ApplyEvent(c, b, e);
            && Sum(EntryNotional(k), b'.positions)
               == Sum(EntryNotional(k), b.positions) - (if Exits(b, e) then NotionalOf(k, PositionAt(b, e.symbol)) else 0.0)
            && (NonNegativeEntries(b.positions) ==> NonNegativeEntries(b'.positions))
  {
    hide Sum, Quoted, Protect, TouchAll;
    if Accepted(b, e) {
      var quoted := Quoted(b, e);
      FundNotional(b, e, k);
      QuotedKeepsFillable(b, e);
      NothingRests(c, quoted, quoted.ids, e);
      ExitNotional(c, quoted, e, k);
    }
  }

  // ---- One cycle -------------------------------------------------------------------------------------

  /** What a cycle that trades will add, all of it known before the order is placed. */
  ghost function Added(u: Setup, b: Book, d: Decision): real
    requires Sizing.SizeForRisk(SizeRequest(u.policy, u.exchange, b, d)).Ok?
  {
    Delta(PositionAt(b, d.symbol), d.side, SizeOf(u, b, d), MarketPrice(u.exchange, b, d.symbol, d.side), u.exchange.venue.contractMultiplier)
  }

  lemma PlacedNotional(u: Setup, b: Book, x: Cycle, d: Decision)
    requires u.exchange.Valid() && Fillable(b)
    requires Client(OrderName(x.Id())) !in b.orders && forall f :: f in b.fills ==> f.id != Client(OrderName(x.Id()))
    requires Sizing.SizeForRisk(SizeRequest(u.policy, u.exchange, b, d)).Ok?
    ensures var (b', fill) := Placed(u.exchange, b, OrderName(x.Id()), d.symbol, d.side, SizeOf(u, b, d));
            var k := EntryNotional(u.exchange.venue.contractMultiplier);
            && Sum(k, b'.positions) == Sum(k, b.positions) + (if fill.Ok? then Added(u, b, d) else 0.0)
            && (NonNegativeEntries(b.positions) && 0.0 <= MarketPrice(u.exchange, b, d.symbol, d.side) ==> NonNegativeEntries(b'.positions))
            && (fill.Err? ==> b'.positions == b.positions)
  {
    hide SizeRequest, SizeOf, Placed, OpenOrders, Sizing.SizeForRisk, Sum, FillOrder, MarketPrice, OrderName, Delta;
    var o := PlacedFresh(u.exchange, b, OrderName(x.Id()), d.symbol, d.side, SizeOf(u, b, d));
    if o.status == FILLED {
      FillNotional(u.exchange, PutOrder(b, o), o, o.quantity, o.price.value, u.exchange.venue.contractMultiplier);
      if NonNegativeEntries(b.positions) && 0.0 <= o.price.value {
        FillKeepsEntries(u.exchange, PutOrder(b, o), o, o.quantity, o.price.value);
      }
    }
  }

  lemma FillKeepsEntries(c: Config, b: Book, o: Order, quantity: real, price: real)
    requires quantity > 0.0 && price >= 0.0 && PositivePositions(b.positions) && NonNegativeEntries(b.positions)
    ensures NonNegativeEntries(FillOrder(c, b, o, quantity, price).positions)
  {
    hide Rebook, NotionalOf, Delta;
    var b' := FillOrder(c, b, o, quantity, price);
    var f := MakeFill(c, b, o, quantity, price);
    RebookNotional(c, PositionAt(b, o.symbol), o, f, quantity, QuoteOr(b, o.symbol, price).mark, 1.0);
    forall s | s in b'.positions ensures b'.positions[s].entryPrice >= 0.0 {
      if s != o.symbol {
        assert s in b'.positions - {o.symbol} && (b'.positions - {o.symbol})[s] == (b.positions - {o.symbol})[s];
      } else {
        assert PositionAt(b', s) == Some(b'.positions[s]);
      }
    }
  }

  lemma ConfirmNotional(x: Cycle, d: Decision, b: Book, k: real)
    ensures var b' := Confirm(x, d, b).book;
            && Sum(EntryNotional(k), b'.positions) == Sum(EntryNotional(k), b.positions)
            && (NonNegativeEntries(b.positions) ==> NonNegativeEntries(b'.positions))
  {
    hide Sum, ProtectionVerdict;
    if d.symbol in b.positions {
      SameNotional(b, Confirm(x, d, b).book.positions, d.symbol, k);
    }
  }

  lemma JudgementNotional(u: Setup, b: Book, open: Open, x: Cycle)
    requires u.exchange.Valid() && Fillable(b)
    requires Client(OrderName(x.Id())) !in b.orders && forall f :: f in b.fills ==> f.id != Client(OrderName(x.Id()))
    ensures var b' := Judge(u, b, open, x).book;
            var k := EntryNotional(u.exchange.venue.contractMultiplier);
            && Sum(k, b'.positions) == Sum(k, b.positions) + (if Trades(u, b, open, x) then Added(u, b, x.reply.decision) else 0.0)
            && (NonNegativeEntries(b.positions) && FairlyPriced(u, b, open, x) ==> NonNegativeEntries(b'.positions))
  {
    hide SizeRequest, Placed, Confirm, Ordering, OpenOrders, Sizing.SizeForRisk, Sum, MarketPrice, OrderName, NonNegativeEntries, Added;
    if Earned(u, open, x) && Sizing.SizeForRisk(SizeRequest(u.policy, u.exchange, b, x.reply.decision)).Ok? {
      var d := x.reply.decision;
      var (b', fill) := Placed(u.exchange, b, OrderName(x.Id()), d.symbol, d.side, SizeOf(u, b, d));
      PlacedNotional(u, b, x, d);
      ConfirmNotional(x, d, b', u.exchange.venue.contractMultiplier);
    }
  }

  // ---- Every run -------------------------------------------------------------------------------------

  /** Entry notional of everything the runtime holds. */
  ghost function Gross(u: Setup, w: World): real {
    Sum(EntryNotional(u.exchange.venue.contractMultiplier), w.book.positions)
  }

  ghost function Entering(u: Setup, w: World, x: Cycle): real
    requires u.exchange.Valid() && Fillable(w.book)
  {
    if Claims(u, w, x) && Trades(u, w.book, Watched(u, w, x).value.live.open, x) then Added(u, w.book, x.reply.decision) else 0.0
  }

  /** What a step will do to the gross entry notional: an entry that trades adds, a protective exit takes away. */
  ghost function Change(u: Setup, w: World, a: Act): real
    requires u.exchange.Valid() && Fillable(w.book)
  {
    match a
    case DoProcess(x) => Entering(u, w, x)
    case DoOffer(x) => Entering(u, w, x)
    case DoMarket(e) =>
      if Exits(w.book, e) then -NotionalOf(u.exchange.venue.contractMultiplier, PositionAt(w.book, e.symbol)) else 0.0
    case _ => 0.0
  }

  lemma ProcessNotional(ids: set<string>, u: Setup, w: World, x: Cycle)
    requires u.exchange.Valid() && Distinct(ids) && x.Id() in ids && Coherent(ids, w)
    ensures Gross(u, Process(u, w, x).world) == Gross(u, w) + Change(u, w, DoProcess(x))
    ensures NonNegativeEntries(w.book.positions) && FairStep(u, w, DoProcess(x)) ==> NonNegativeEntries(Process(u, w, x).world.book.positions)
  {
    hide Judge, OrderName, Distinct, Linked, OrderLaw, OpenOrders, Watched, Evaluated, Sum, FairlyPriced, NonNegativeEntries, Added, Trades;
    if Claims(u, w, x) {
      NameIsFree(w, ids, x);
      JudgementNotional(u, w.book, Watched(u, w, x).value.live.open, x);
    }
  }

  /** Every step moves the gross entry notional by exactly what could be foretold. */
  lemma NextNotional(ids: set<string>, u: Setup, w: World, a: Act)
    requires u.exchange.Valid() && Distinct(ids) && Coherent(ids, w) && (HasCycle(a) ==> a.cycle.Id() in ids)
    ensures Gross(u, Next(u, w, a)) == Gross(u, w) + Change(u, w, a)
    ensures NonNegativeEntries(w.book.positions) && FairStep(u, w, a) ==> NonNegativeEntries(Next(u, w, a).book.positions)
  {
    hide Process, Shadow, ApplyEvent, Distinct, FairlyPriced, Linked, OpenOrders, NonNegativeEntries, Sum, Added, Trades, Exits, NotionalOf, Watched;
    match a
    case DoProcess(x) => ProcessNotional(ids, u, w, x);
    case DoOffer(x) => ProcessNotional(ids, u, w, x);
    case DoShadow(x) => ShadowKeepsBook(w, x);
    case DoMarket(e) => MarketNotional(u.exchange, w.book, e, u.exchange.venue.contractMultiplier);
    case _ =>
  }

  /** The gross entry notional after the first i steps of a run. */
  ghost function GrossAfter(u: Setup, open: Open, actions: seq<Act>, i: nat): real
    requires u.exchange.Valid() && i <= |actions|
  {
    Gross(u, After(u, open, actions[..i]))
  }

  /** What step i is about to make of it. */
  ghost function Foretold(u: Setup, open: Open, actions: seq<Act>, i: nat): real
    requires u.exchange.Valid() && i < |actions|
  {
    GrossAfter(u, open, actions, i) + Change(u, After(u, open, actions[..i]), actions[i])
  }

  lemma ForetoldComesTrue(ids: set<string>, u: Setup, open: Open, actions: seq<Act>, i: nat)
    requires u.exchange.Valid() && Distinct(ids) && Mentions(ids, actions) && i < |actions|
    ensures GrossAfter(u, open, actions, i + 1) == Foretold(u, open, actions, i)
  {
    hide Next, Distinct, Change, Coherent, Gross;
    assert Mentions(ids, actions[..i]) && actions[i] in actions;
    CoherentOnEveryRun(ids, u, open, actions[..i]);
    NextNotional(ids, u, After(u, open, actions[..i]), actions[i]);
    assert actions[..i + 1][..i] == actions[..i];
  }

  /** The gross entry notional stays within a limit all through a run exactly when no step is foretold to exceed it. */
  lemma GrossWithinIff(ids: set<string>, u: Setup, open: Open, actions: seq<Act>, limit: real)
    requires u.exchange.Valid() && Distinct(ids) && Mentions(ids, actions)
    ensures (forall i :: 0 <= i <= |actions| ==> GrossAfter(u, open, actions, i) <= limit)
            <==> 0.0 <= limit && forall i :: 0 <= i < |actions| ==> Foretold(u, open, actions, i) <= limit
  {
    NothingHeldAtFirst(u, open, actions);
    forall i | 0 <= i < |actions| ensures GrossAfter(u, open, actions, i + 1) == Foretold(u, open, actions, i) {
      ForetoldComesTrue(ids, u, open, actions, i);
    }
    hide GrossAfter, Foretold, Distinct, Mentions;
    if 0.0 <= limit && forall i :: 0 <= i < |actions| ==> Foretold(u, open, actions, i) <= limit {
      forall i | 0 <= i <= |actions| ensures GrossAfter(u, open, actions, i) <= limit {
        if i > 0 {
          assert Foretold(u, open, actions, i - 1) <= limit;
        }
      }
    }
    if forall i :: 0 <= i <= |actions| ==> GrossAfter(u, open, actions, i) <= limit {
      forall i | 0 <= i < |actions| ensures Foretold(u, open, actions, i) <= limit {
        assert GrossAfter(u, open, actions, i + 1) <= limit;
      }
    }
  }

  lemma NothingHeldAtFirst(u: Setup, open: Open, actions: seq<Act>)
    requires u.exchange.Valid()
    ensures GrossAfter(u, open, actions, 0) == 0.0
  {
    assert actions[..0] == [];
    EmptyGross(u, open);
  }

  lemma EmptyGross(u: Setup, open: Open)
    requires u.exchange.Valid()
    ensures Gross(u, After(u, open, [])) == 0.0
  {
  }

  lemma ShadowKeepsBook(w: World, x: Cycle)
    ensures Shadow(w, x).world.book == w.book
  {
  }

  // ---- The portfolio cap -------------------------------------------------------------------------------

  /** The price a cycle would fill at is not above the entry it was sized for. */
  ghost predicate FairlyPriced(u: Setup, b: Book, open: Open, x: Cycle)
    requires u.exchange.Valid() && PositivePositions(b.positions)
  {
    Trades(u, b, open, x) ==>
      0.0 <= MarketPrice(u.exchange, b, x.reply.decision.symbol, x.reply.decision.side) <= x.reply.decision.entry
  }

  /** The cycle this step claims, if any, is fairly priced. */
  ghost predicate FairStep(u: Setup, w: World, a: Act)
    requires u.exchange.Valid() && Fillable(w.book)
  {
    (a.DoProcess? || a.DoOffer?) && Claims(u, w, a.cycle) ==>
      FairlyPriced(u, w.book, Watched(u, w, a.cycle).value.live.open, a.cycle)
  }

  /** What the sizing allows for: the configured cap and the slack of its last check. */
  function Cap(u: Setup): real { Max(0.0, u.policy.maxTotalNotional + Sizing.EXPOSURE_SLACK) }

  lemma ScaledTwice(a: real, b: real, price: real, k: real)
    requires a <= b && price >= 0.0 && k >= 0.0
    ensures a * price * k <= b * price * k
  {
    ScaleMonotone(a, b, price);
    ScaleMonotone(a * price, b * price, k);
  }

  lemma CheaperNotional(quantity: real, price: real, entry: real, k: real)
    requires quantity > 0.0 && price <= entry && k > 0.0
    ensures quantity * price * k <= quantity * entry * k
  {
    ScaleMonotone(price, entry, quantity);
    ScaleMonotone(quantity * price, quantity * entry, k);
  }

  /** Against positions entered at non-negative prices, an order adds at most its own value. */
  lemma DeltaWithinValue(held: Option<Position>, side: Side, quantity: real, price: real, k: real)
    requires quantity > 0.0 && price >= 0.0 && k >= 0.0
    requires held.Some? ==> held.value.quantity > 0.0 && held.value.entryPrice >= 0.0
    ensures Delta(held, side, quantity, price, k) <= quantity * price * k
  {
    if held.Some? && held.value.side != side {
      var p := held.value;
      ScaledTwice(0.0, p.quantity, p.entryPrice, k);
      ScaledTwice(0.0, quantity, p.entryPrice, k);
      ScaledTwice(0.0, quantity, price, k);
      ScaledTwice(quantity - p.quantity, quantity, price, k);
    }
  }

  lemma SizedWithinCap(u: Setup, b: Book, d: Decision, price: real)
    requires Sizing.SizeForRisk(SizeRequest(u.policy, u.exchange, b, d)).Ok?
    requires u.policy.contractMultiplier == u.exchange.venue.contractMultiplier > 0.0 && price <= d.entry
    ensures SizeOf(u, b, d) > 0.0
    ensures Sum(EntryNotional(u.exchange.venue.contractMultiplier), b.positions)
            + SizeOf(u, b, d) * price * u.exchange.venue.contractMultiplier <= u.policy.maxTotalNotional + Sizing.EXPOSURE_SLACK
  {
    hide Sum, Sizing.SizeForRisk, Sizing.Target, Sizing.Room;
    var r := SizeRequest(u.policy, u.exchange, b, d);
    Sizing.SizeIsMaximalWithinRoom(r);
    CheaperNotional(SizeOf(u, b, d), price, d.entry, r.multiplier);
  }

  lemma FairStepWithinCap(u: Setup, w: World, a: Act)
    requires u.exchange.Valid() && Fillable(w.book) && NonNegativeEntries(w.book.positions) && FairStep(u, w, a)
    requires u.policy.contractMultiplier == u.exchange.venue.contractMultiplier > 0.0 && Gross(u, w) <= Cap(u)
    ensures Gross(u, w) + Change(u, w, a) <= Cap(u)
  {
    hide Sum, Sizing.SizeForRisk, SizeRequest, SizeOf, MarketPrice, Placed, Watched, Breached, Delta, OpenOrders;
    match a
    case DoProcess(x) => FairEntryWithinCap(u, w, x);
    case DoOffer(x) => FairEntryWithinCap(u, w, x);
    case DoMarket(e) =>
      if Exits(w.book, e) {
        ScaledTwice(0.0, w.book.positions[e.symbol].quantity, w.book.positions[e.symbol].entryPrice, u.exchange.venue.contractMultiplier);
      }
    case _ =>
  }

  lemma FairEntryWithinCap(u: Setup, w: World, x: Cycle)
    requires u.exchange.Valid() && Fillable(w.book) && NonNegativeEntries(w.book.positions) && FairStep(u, w, DoProcess(x))
    requires u.policy.contractMultiplier == u.exchange.venue.contractMultiplier > 0.0 && Gross(u, w) <= Cap(u)
    ensures Gross(u, w) + Change(u, w, DoProcess(x)) <= Cap(u)
  {
    hide Sum, Sizing.SizeForRisk, SizeRequest, SizeOf, MarketPrice, Placed, Watched, Delta, OpenOrders;
    if Claims(u, w, x) && Trades(u, w.book, Watched(u, w, x).value.live.open, x) {
      var d := x.reply.decision;
      var price := MarketPrice(u.exchange, w.book, d.symbol, d.side);
      SizedWithinCap(u, w.book, d, price);
      DeltaWithinValue(PositionAt(w.book, d.symbol), d.side, SizeOf(u, w.book, d), price, u.exchange.venue.contractMultiplier);
    }
  }

  /** Where no entry fills above the price it was sized at, the gross entry notional stays within the portfolio cap. */
  lemma {:induction false} FairRunsStayCapped(ids: set<string>, u: Setup, open: Open, actions: seq<Act>)
    requires u.exchange.Valid() && Distinct(ids) && Mentions(ids, actions)
    requires u.policy.contractMultiplier == u.exchange.venue.contractMultiplier > 0.0
    requires forall i :: 0 <= i < |actions| ==> FairStep(u, After(u, open, actions[..i]), actions[i])
    ensures var w := After(u, open, actions); NonNegativeEntries(w.book.positions) && Gross(u, w) <= Cap(u)
  {
    hide Next, Distinct, FairStep, Coherent, Gross, Change, Cap, NonNegativeEntries;
    if |actions| == 0 {
      EmptyGross(u, open);
      NoEntries(u);
    } else {
      var n := |actions| - 1;
      assert Mentions(ids, actions[..n]) && actions[n] in actions;
      forall i | 0 <= i < n ensures FairStep(u, After(u, open, actions[..n][..i]), actions[..n][i]) {
        assert actions[..n][..i] == actions[..i];
      }
      FairRunsStayCapped(ids, u, open, actions[..n]);
      CoherentOnEveryRun(ids, u, open, actions[..n]);
      FairStepWithinCap(u, After(u, open, actions[..n]), actions[n]);
      NextNotional(ids, u, After(u, open, actions[..n]), actions[n]);
    }
  }

  lemma NoEntries(u: Setup)
    ensures NonNegativeEntries(EMPTY_BOOK.positions) && 0.0 <= Cap(u)
  {
  }
}
