/** The log of the runtime against the exchange it drives: inventory and exposure. */
module RuntimeInventory {
  import opened Common
  import opened FundingModel
  import opened Exchange
  import opened ExchangeLaws
  import opened PaperVenue
  import opened Breakers
  import opened Ledger
  import opened LedgerReplay
  import opened LedgerLaws
  import opened RuntimeModel
  import opened RuntimeLaws
  import Sizing

  /** Distinct cycles that may come up have distinct order names. */
  ghost predicate Distinct(ids: set<string>) {
    forall a, b :: a in ids && b in ids && OrderName(a) == OrderName(b) ==> a == b
  }

  /** The runtime's orders trade at once or are rejected, and each is named after a claimed cycle. */
  ghost predicate OrderLaw(w: World) {
    && (forall id :: id in w.book.orders ==>
          w.book.orders[id].status in {FILLED, REJECTED}
          && (id.Client? ==> exists c :: c in w.cycles && id == Client(OrderName(c))))
    && forall i :: 0 <= i < |w.book.fills| && w.book.fills[i].id.Client? ==> w.book.fills[i].id in w.book.orders
  }

  /** Signed fills in a symbol: those of client orders, or those of protective exits. */
  function Part(clients: bool, fills: seq<Fill>, s: string): real {
    if |fills| == 0 then 0.0
    else
      var f := fills[|fills| - 1];
      Part(clients, fills[..|fills| - 1], s) + if f.symbol == s && f.id.Client? == clients then ExchangeLaws.Signed(f) else 0.0
  }

  lemma PartAppend(clients: bool, fills: seq<Fill>, f: Fill, s: string)
    ensures Part(clients, fills + [f], s)
         == Part(clients, fills, s) + if f.symbol == s && f.id.Client? == clients then ExchangeLaws.Signed(f) else 0.0
  {
    assert (fills + [f])[..|fills|] == fills;
  }

  lemma {:induction false} PartsMakeInventory(fills: seq<Fill>, s: string)
    ensures Total(Inventory(s), fills) == Part(true, fills, s) + Part(false, fills, s)
  {
    if |fills| > 0 {
      PartsMakeInventory(fills[..|fills| - 1], s);
    }
  }

  lemma {:induction false} SumConcat(c: Column, a: seq<Event>, b: seq<Event>)
    ensures ColumnSum(c, a + b) == ColumnSum(c, a) + ColumnSum(c, b)
  {
    if |b| == 0 {
      assert a + b == a;
    } else {
      SumConcat(c, a, b[..|b| - 1]);
      assert (a + b)[..|a + b| - 1] == a + b[..|b| - 1];
    }
  }

  lemma NoFillsNoInventory(s: string, events: seq<Event>)
    requires forall e :: e in events ==> e.kind != FILL_OBSERVED
    ensures ColumnSum(Ledger.Signed(s), events) == 0.0
  {
  }

  lemma OrderingInventory(s: string, x: Cycle, d: Decision, f: Fill)
    requires f.symbol == d.symbol && f.side == d.side
    ensures ColumnSum(Ledger.Signed(s), Ordering(x, d, f)) == if f.symbol == s then ExchangeLaws.Signed(f) else 0.0
  {
    var o := Ordering(x, d, f);
    assert o[..2] == [o[0], o[1]];
    NoFillsNoInventory(s, o[..2]);
    assert o[..3] == o;
    assert ColumnSum(Ledger.Signed(s), o) == ColumnSum(Ledger.Signed(s), o[..2]) + Entry(Ledger.Signed(s), o[2]);
  }

  // ---- One judgement -------------------------------------------------------------------------------

  /** The order name of a cycle nobody claimed is still free. */
  lemma NameIsFree(w: World, ids: set<string>, x: Cycle)
    requires OrderLaw(w) && Distinct(ids) && w.cycles.Keys <= ids && x.Id() in ids && x.Id() !in w.cycles
    ensures Client(OrderName(x.Id())) !in w.book.orders
    ensures forall f :: f in w.book.fills ==> f.id != Client(OrderName(x.Id()))
  {
    forall c | c in w.cycles ensures OrderName(c) != OrderName(x.Id()) {
      assert c in w.cycles.Keys;
    }
  }

  lemma ConfirmKeepsRecords(x: Cycle, d: Decision, b: Book)
    ensures var b' := Confirm(x, d, b).book; b'.orders == b.orders && b'.fills == b.fills
  {
  }

  /** A cycle that trades adds exactly its fill to the exchange; one that does not adds none. */
  lemma JudgementFills(u: Setup, b: Book, open: Open, x: Cycle)
    requires u.exchange.Valid() && Fillable(b) && Client(OrderName(x.Id())) !in b.orders
    requires forall f :: f in b.fills ==> f.id != Client(OrderName(x.Id()))
    ensures var b' := Judge(u, b, open, x).book;
            && b'.orders - {Client(OrderName(x.Id()))} == b.orders
            && (Client(OrderName(x.Id())) in b'.orders ==> b'.orders[Client(OrderName(x.Id()))].status in {FILLED, REJECTED})
            && if Trades(u, b, open, x) then
                 var f := FillTraded(u, b, open, x);
                 var d := x.reply.decision;
                 && b'.fills == b.fills + [f] && f.id == Client(OrderName(x.Id())) && f.id in b'.orders
                 && f.symbol == d.symbol && f.side == d.side && d.symbol != ""
               else b'.fills == b.fills
  {
    hide SizeRequest, Confirm, Placed, Ordering, OpenOrders, OrderName, Sizing.SizeForRisk, MarketPrice, AfterMarket, Staleness;
    if Earned(u, open, x) && Sizing.SizeForRisk(SizeRequest(u.policy, u.exchange, b, x.reply.decision)).Ok? {
      var d := x.reply.decision;
      var o := PlacedFresh(u.exchange, b, OrderName(x.Id()), d.symbol, d.side, SizeOf(u, b, d));
      var (b', fill) := Placed(u.exchange, b, OrderName(x.Id()), d.symbol, d.side, SizeOf(u, b, d));
      assert b'.orders - {Client(OrderName(x.Id()))} == b.orders;
      ConfirmKeepsRecords(x, d, b');
    }
  }

  // ---- The link between the two records ------------------------------------------------------------

  /** Signed fills in the log are the signed fills of client orders in the exchange. */
  ghost predicate Linked(w: World) {
    forall s :: s != "" ==> ColumnSum(Ledger.Signed(s), w.log) == Part(true, w.book.fills, s)
  }

  ghost predicate Coherent(ids: set<string>, w: World) {
    Fillable(w.book) && OrderLaw(w) && Linked(w) && w.cycles.Keys <= ids
  }

  lemma JudgementInventory(u: Setup, b: Book, open: Open, x: Cycle, s: string)
    requires u.exchange.Valid() && Fillable(b) && Client(OrderName(x.Id())) !in b.orders
    requires forall f :: f in b.fills ==> f.id != Client(OrderName(x.Id()))
    ensures var j := Judge(u, b, open, x);
            ColumnSum(Ledger.Signed(s), j.events) == Part(true, j.book.fills, s) - Part(true, b.fills, s)
  {
    hide Judge, Ordering, FillTraded, SizeRequest, SizeOf, Placed, ExchangeLaws.Signed, OpenOrders;
    var before, after := JudgementEvents(u, b, open, x);
    JudgementFills(u, b, open, x);
    NoFillsNoInventory(s, before);
    NoFillsNoInventory(s, after);
    if Trades(u, b, open, x) {
      var d, f := x.reply.decision, FillTraded(u, b, open, x);
      OrderingInventory(s, x, d, f);
      SumConcat(Ledger.Signed(s), before, Ordering(x, d, f));
      SumConcat(Ledger.Signed(s), before + Ordering(x, d, f), after);
      PartAppend(true, b.fills, f, s);
    }
  }

  lemma ProcessInventory(u: Setup, w: World, x: Cycle, s: string)
    requires u.exchange.Valid() && Fillable(w.book)
    requires Claims(u, w, x) ==> Client(OrderName(x.Id())) !in w.book.orders
                                 && forall f :: f in w.book.fills ==> f.id != Client(OrderName(x.Id()))
    ensures var w' := Process(u, w, x).world;
            ColumnSum(Ledger.Signed(s), w'.log) - ColumnSum(Ledger.Signed(s), w.log)
            == Part(true, w'.book.fills, s) - Part(true, w.book.fills, s)
  {
    hide Judge, Watched, Evaluated, ColumnSum, Part, OrderName, OpenOrders;
    var watched := Watched(u, w, x);
    if Claims(u, w, x) {
      var j := Judge(u, w.book, watched.value.live.open, x);
      var ended := Ending(x, j.result);
      var seen := [ObservedOf("paper", x)];
      JudgementInventory(u, w.book, watched.value.live.open, x, s);
      NoFillsNoInventory(s, seen);
      NoFillsNoInventory(s, ended);
      SumConcat(Ledger.Signed(s), w.log, seen);
      SumConcat(Ledger.Signed(s), w.log + seen, j.events);
      SumConcat(Ledger.Signed(s), w.log + seen + j.events, ended);
    } else if watched.Ok? {
      var skip := [TerminalOf("paper", x, Status("SKIPPED", "DUPLICATE_CYCLE"))];
      NoFillsNoInventory(s, skip);
      SumConcat(Ledger.Signed(s), w.log, skip);
    }
  }

  lemma ProcessKeepsOrders(u: Setup, w: World, x: Cycle)
    requires u.exchange.Valid() && Fillable(w.book) && OrderLaw(w)
    requires Claims(u, w, x) ==> Client(OrderName(x.Id())) !in w.book.orders
                                 && forall f :: f in w.book.fills ==> f.id != Client(OrderName(x.Id()))
    ensures OrderLaw(Process(u, w, x).world)
  {
    hide Judge, Watched, Evaluated, OrderName, Trades, FillTraded, OpenOrders;
    var w' := Process(u, w, x).world;
    if Claims(u, w, x) {
      JudgementFills(u, w.book, Watched(u, w, x).value.live.open, x);
      var id := Client(OrderName(x.Id()));
      forall k | k in w'.book.orders
        ensures w'.book.orders[k].status in {FILLED, REJECTED} && (k.Client? ==> exists c :: c in w'.cycles && k == Client(OrderName(c)))
      {
        if k == id {
          assert x.Id() in w'.cycles;
        } else {
          assert k in w'.book.orders - {id};
          assert (w'.book.orders - {id})[k] == w.book.orders[k];
          if k.Client? {
            var c :| c in w.cycles && k == Client(OrderName(c));
            assert c in w'.cycles;
          }
        }
      }
      forall i | 0 <= i < |w'.book.fills| && w'.book.fills[i].id.Client? ensures w'.book.fills[i].id in w'.book.orders {
        if i < |w.book.fills| {
          assert w'.book.fills[i] == w.book.fills[i];
          assert w.book.fills[i].id in w'.book.orders - {id};
        }
      }
    }
  }

  lemma ProcessKeepsCoherent(ids: set<string>, u: Setup, w: World, x: Cycle)
    requires u.exchange.Valid() && Distinct(ids) && x.Id() in ids && Coherent(ids, w)
    ensures Coherent(ids, Process(u, w, x).world)
  {
    hide Judge, OrderName, Part, ColumnSum, Distinct, OrderLaw, OpenOrders, PositivePositions, Watched, Evaluated;
    if Claims(u, w, x) {
      NameIsFree(w, ids, x);
    }
    ProcessKeepsFillable(u, w, x);
    ProcessKeepsOrders(u, w, x);
    var w' := Process(u, w, x).world;
    forall s | s != "" ensures ColumnSum(Ledger.Signed(s), w'.log) == Part(true, w'.book.fills, s) {
      ProcessInventory(u, w, x, s);
    }
  }

  // ---- Market events -------------------------------------------------------------------------------

  lemma {:induction false} NothingRests(c: Config, b: Book, ids: seq<OrderId>, e: MarketEvent)
    requires c.Valid() && Fillable(b) && forall id :: id in b.orders ==> b.orders[id].status in {FILLED, REJECTED}
    ensures TouchAll(c, b, ids, e) == b
  {
    hide FillOrder, Fillable;
    if |ids| > 0 {
      NothingRests(c, b, ids[..|ids| - 1], e);
    }
  }

  /** An event can only add a protective exit. */
  lemma EventFills(c: Config, b: Book, e: MarketEvent)
    requires c.Valid() && Fillable(b) && forall id :: id in b.orders ==> b.orders[id].status in {FILLED, REJECTED}
    ensures var b' := ApplyEvent(c, b, e);
            var exit := Protection(e.symbol, e.sequence);
            || (b'.fills == b.fills && b'.orders == b.orders)
            || (|b'.fills| == |b.fills| + 1 && b'.fills[..|b.fills|] == b.fills && b'.fills[|b.fills|].id == exit
                && b'.orders - {exit} == b.orders - {exit} && exit in b'.orders && b'.orders[exit].status == FILLED)
  {
    hide FillOrder, TouchAll, OpenOrder, ProtectiveOrder;
    if Accepted(b, e) {
      var quoted := Quoted(b, e);
      assert quoted.orders == b.orders && quoted.fills == b.fills;
      NothingRests(c, quoted, quoted.ids, e);
      if e.symbol in quoted.positions && Breached(quoted.positions[e.symbol], e.mark) {
        var o := ProtectiveOrder(c, quoted, e);
        ExitShape(c, quoted, e);
        var filled := FillOrder(c, quoted, o, o.quantity, o.price.value);
        assert PutOrder(filled, o).orders - {o.id} == b.orders - {o.id};
      }
    }
  }

  lemma ExitShape(c: Config, b: Book, e: MarketEvent)
    requires e.symbol in b.positions
    ensures var o := ProtectiveOrder(c, b, e); o.id == Protection(e.symbol, e.sequence) && o.status == FILLED
  {
  }

  lemma MarketKeepsCoherent(ids: set<string>, c: Config, w: World, e: MarketEvent)
    requires c.Valid() && Coherent(ids, w)
    ensures Coherent(ids, w.(book := ApplyEvent(c, w.book, e)))
  {
    hide ApplyEvent, OrderName, Part, ColumnSum, OpenOrders, PositivePositions;
    EventKeepsFillable(c, w.book, e);
    EventFills(c, w.book, e);
    var w' := w.(book := ApplyEvent(c, w.book, e));
    var exit := Protection(e.symbol, e.sequence);
    if w'.book.fills != w.book.fills {
      var n := |w.book.fills|;
      assert w'.book.fills == w.book.fills + [w'.book.fills[n]];
      forall s ensures Part(true, w'.book.fills, s) == Part(true, w.book.fills, s) {
        PartAppend(true, w.book.fills, w'.book.fills[n], s);
      }
      ExitKeepsOrders(w, w', exit);
    }
  }

  lemma ExitKeepsOrders(w: World, w': World, exit: OrderId)
    requires OrderLaw(w) && exit.Protection? && w'.cycles == w.cycles
    requires w'.book.orders - {exit} == w.book.orders - {exit} && exit in w'.book.orders && w'.book.orders[exit].status == FILLED
    requires |w'.book.fills| == |w.book.fills| + 1 && w'.book.fills[..|w.book.fills|] == w.book.fills
    requires w'.book.fills[|w.book.fills|].id == exit
    ensures OrderLaw(w')
  {
    hide OrderName;
    forall k | k in w'.book.orders
      ensures w'.book.orders[k].status in {FILLED, REJECTED} && (k.Client? ==> exists c :: c in w'.cycles && k == Client(OrderName(c)))
    {
      if k != exit {
        assert k in w'.book.orders - {exit} && (w'.book.orders - {exit})[k] == (w.book.orders - {exit})[k];
      }
    }
    forall i | 0 <= i < |w'.book.fills| && w'.book.fills[i].id.Client? ensures w'.book.fills[i].id in w'.book.orders {
      assert i < |w.book.fills| && w'.book.fills[..|w.book.fills|][i] == w.book.fills[i];
      assert w.book.fills[i].id in w.book.orders - {exit};
    }
  }

  // ---- Every run -----------------------------------------------------------------------------------

  /** All cycles a run mentions are among these. */
  ghost predicate Mentions(ids: set<string>, actions: seq<Act>) {
    forall a :: a in actions && HasCycle(a) ==> a.cycle.Id() in ids
  }

  lemma NextKeepsCoherent(ids: set<string>, u: Setup, w: World, a: Act)
    requires u.exchange.Valid() && Distinct(ids) && Coherent(ids, w) && (HasCycle(a) ==> a.cycle.Id() in ids)
    ensures Coherent(ids, Next(u, w, a))
  {
    hide Process, Shadow, Distinct, OpenOrders, PositivePositions, ApplyEvent, Part, ColumnSum, OrderLaw;
    match a
    case DoProcess(x) => ProcessKeepsCoherent(ids, u, w, x);
    case DoOffer(x) => ProcessKeepsCoherent(ids, u, w, x);
    case DoShadow(x) => ShadowKeepsCoherent(ids, w, x);
    case DoMarket(e) => MarketKeepsCoherent(ids, u.exchange, w, e);
    case _ => MonitorsKeepCoherent(ids, w, Next(u, w, a));
  }

  lemma MonitorsKeepCoherent(ids: set<string>, w: World, w': World)
    requires Coherent(ids, w) && w' == w.(live := w'.live, guard := w'.guard)
    ensures Coherent(ids, w')
  {
  }

  lemma ShadowKeepsCoherent(ids: set<string>, w: World, x: Cycle)
    requires Coherent(ids, w) && x.Id() in ids
    ensures Coherent(ids, Shadow(w, x).world)
  {
    hide OpenOrders, PositivePositions, Part, ColumnSum, OrderName;
    if x.Id() !in w.cycles {
      var w' := Shadow(w, x).world;
      var events := w'.log[|w.log|..];
      assert w'.log == w.log + events;
      forall s ensures ColumnSum(Ledger.Signed(s), w'.log) == ColumnSum(Ledger.Signed(s), w.log) {
        SumConcat(Ledger.Signed(s), w.log, events);
        NoFillsNoInventory(s, events);
      }
    }
  }

  lemma {:induction false} CoherentOnEveryRun(ids: set<string>, u: Setup, open: Open, actions: seq<Act>)
    requires u.exchange.Valid() && Distinct(ids) && Mentions(ids, actions)
    ensures Coherent(ids, After(u, open, actions))
  {
    hide Next, Distinct;
    if |actions| > 0 {
      var n := |actions| - 1;
      assert Mentions(ids, actions[..n]) && actions[n] in actions;
      CoherentOnEveryRun(ids, u, open, actions[..n]);
      NextKeepsCoherent(ids, u, After(u, open, actions[..n]), actions[n]);
    }
  }

  /**
   Replaying the log rebuilds the exchange: the position in a symbol is what the replay holds plus the
   protective exits, which the log never records.
  */
  lemma ReplayRebuildsInventory(ids: set<string>, u: Setup, open: Open, actions: seq<Act>, s: string)
    requires u.exchange.Valid() && Distinct(ids) && Mentions(ids, actions) && s != ""
    ensures var w := After(u, open, actions);
            InventoryOf(PositionAt(w.book, s)) == Held(Replayed(w.log, w.log), s) + Part(false, w.book.fills, s)
  {
    hide Next, Distinct, Mentions, Replayed, InventoryOf, Held;
    var w := After(u, open, actions);
    CoherentOnEveryRun(ids, u, open, actions);
    var calls := BookIsARun(u, open, actions);
    AccountsHoldOnEveryRun(u.exchange, calls);
    AccountsOfSymbol(u.exchange, w.book, s);
    PartsMakeInventory(w.book.fills, s);
    ReplayedInventory(w.log, w.log, s);
  }

  lemma ProcessAddsNoExit(u: Setup, w: World, x: Cycle, s: string)
    requires u.exchange.Valid() && Fillable(w.book)
    requires Claims(u, w, x) ==> Client(OrderName(x.Id())) !in w.book.orders
                                 && forall f :: f in w.book.fills ==> f.id != Client(OrderName(x.Id()))
    ensures Part(false, Process(u, w, x).world.book.fills, s) == Part(false, w.book.fills, s)
  {
    hide Judge, Watched, Evaluated, OrderName, FillTraded, Trades, OpenOrders, Part;
    if Claims(u, w, x) {
      var open := Watched(u, w, x).value.live.open;
      JudgementFills(u, w.book, open, x);
      if Trades(u, w.book, open, x) {
        PartAppend(false, w.book.fills, FillTraded(u, w.book, open, x), s);
      }
    }
  }

  lemma {:induction false} NoEventsNoExits(ids: set<string>, u: Setup, open: Open, actions: seq<Act>, s: string)
    requires u.exchange.Valid() && Distinct(ids) && Mentions(ids, actions)
    requires forall a :: a in actions ==> !a.DoMarket?
    ensures Part(false, After(u, open, actions).book.fills, s) == 0.0
  {
    hide Process, Distinct, OrderName, OrderLaw, OpenOrders;
    if |actions| > 0 {
      var n := |actions| - 1;
      var w := After(u, open, actions[..n]);
      assert Mentions(ids, actions[..n]) && actions[n] in actions;
      NoEventsNoExits(ids, u, open, actions[..n], s);
      CoherentOnEveryRun(ids, u, open, actions[..n]);
      match actions[n]
      case DoProcess(x) =>
        if Claims(u, w, x) { NameIsFree(w, ids, x); }
        ProcessAddsNoExit(u, w, x, s);
      case DoOffer(x) =>
        if Claims(u, w, x) { NameIsFree(w, ids, x); }
        ProcessAddsNoExit(u, w, x, s);
      case _ =>
    }
  }

  /** The runtime itself never feeds the exchange: left alone, the replayed log is the exchange's inventory. */
  lemma ReplayIsInventory(ids: set<string>, u: Setup, open: Open, actions: seq<Act>, s: string)
    requires u.exchange.Valid() && Distinct(ids) && Mentions(ids, actions) && s != ""
    requires forall a :: a in actions ==> !a.DoMarket?
    ensures var w := After(u, open, actions); InventoryOf(PositionAt(w.book, s)) == Held(Replayed(w.log, w.log), s)
  {
    hide After, Replayed, Distinct, Mentions;
    ReplayRebuildsInventory(ids, u, open, actions, s);
    NoEventsNoExits(ids, u, open, actions, s);
  }
}
