/**
 What every run of the paper runtime keeps: each cycle trades and ends at most once, every order was
 earned, and the log rebuilds the exchange.
*/
module RuntimeLaws {
  import opened Common
  import opened FundingModel
  import opened Exchange
  import opened ExchangeLaws
  import opened PaperVenue
  import opened Breakers
  import opened Ledger
  import opened RuntimeModel

  // ---- Runs ------------------------------------------------------------------------------------

  datatype Act =
    | DoProcess(cycle: Cycle)              // straight to the paper runtime
    | DoOffer(cycle: Cycle)                // through the canonical entry point
    | DoShadow(cycle: Cycle)               // a fixture observation sharing the ledger
    | DoTick(now: int, sample: Result<seq<string>>)   // a monitor driver between cycles
    | DoTrip(name: string, reason: Reason)
    | DoClear(name: string, actor: string)
    | DoMarket(event: MarketEvent)         // whoever feeds the exchange

  predicate HasCycle(a: Act) { a.DoProcess? || a.DoOffer? || a.DoShadow? }

  ghost function Next(u: Setup, w: World, a: Act): World
    requires u.exchange.Valid() && Fillable(w.book)
  {
    match a
    case DoProcess(x) => Process(u, w, x).world
    case DoOffer(x) => Offer(u, w, x).world
    case DoShadow(x) => Shadow(w, x).world
    case DoTick(now, sample) => Evaluated(u, w, now, sample)
    case DoTrip(name, reason) =>
      var r := Tripped(w.live.open, name, reason);
      if r.Ok? then w.(live := w.live.(open := r.value)) else w
    case DoClear(name, actor) =>
      var r := Cleared(w.live.open, name, actor);
      if r.Ok? then w.(live := w.live.(open := r.value)) else w
    case DoMarket(e) => w.(book := ApplyEvent(u.exchange, w.book, e))
  }

  // ---- The exchange under a cycle ----------------------------------------------------------------

  lemma NoFillsOf(fills: seq<Fill>, id: OrderId)
    requires forall f :: f in fills ==> f.id != id
    ensures FillsOf(fills, Some(id)) == []
  {
  }

  /** A market order under a new name either books one fill at the market price or only leaves a rejected order. */
  ghost predicate FreshPlacement(b: Book, r: OrderRequest, price: real, o: Order, b': Book, result: Result<Fill>) {
    && (o.id, o.symbol, o.side, o.quantity) == (Client(r.id), r.symbol, r.side, r.quantity)
    && b'.orders == b.orders[o.id := o]
    && match result
       case Ok(f) =>
         && o.status == FILLED && o.price == Some(price) && r.symbol != "" && r.quantity > 0.0
         && b'.fills == b.fills + [f]
         && (f.id, f.symbol, f.side, f.quantity, f.price) == (o.id, r.symbol, r.side, r.quantity, price)
       case Err(_) => o.status == REJECTED && b'.fills == b.fills && b'.positions == b.positions
  }

  lemma PlacedFresh(c: Config, b: Book, name: string, symbol: string, side: Side, quantity: real) returns (o: Order)
    requires c.Valid() && PositivePositions(b.positions) && Client(name) !in b.orders
    requires forall f :: f in b.fills ==> f.id != Client(name)
    ensures var (b', r) := Placed(c, b, name, symbol, side, quantity);
            FreshPlacement(b, MarketOrder(name, symbol, side, quantity), MarketPrice(c, b, symbol, side), o, b', r)
    ensures o.status == FILLED ==> o.quantity > 0.0 && o.price.Some?
    ensures Placed(c, b, name, symbol, side, quantity).0 == AfterMarket(c, b, o)
  {
    hide FillOrder, MakeFill, Admit, Submit, MarketPrice, FillsOf;
    NoFillsOf(b.fills, Client(name));
    AdmitMarket(c, b, name, symbol, side, quantity);
    SubmitFresh(c, b, name, symbol, side, quantity);
    o := Admit(c, b, MarketOrder(name, symbol, side, quantity));
    if o.status == FILLED {
      FillShape(c, PutOrder(b, o), o, quantity, o.price.value);
      LastFillOf(b.fills, MakeFill(c, PutOrder(b, o), o, quantity, o.price.value));
    }
  }

  lemma LastFillOf(fills: seq<Fill>, f: Fill)
    ensures FillsOf(fills + [f], Some(f.id)) == FillsOf(fills, Some(f.id)) + [f]
  {
    assert (fills + [f])[..|fills|] == fills;
  }

  // ---- Counting events ---------------------------------------------------------------------------

  datatype Tally = Submissions(cycleId: string) | Fillings(cycleId: string)
                 | Endings(cycleId: string) | Skips(cycleId: string)

  predicate Skipped(e: Event) { e.payload.disposition == Some("SKIPPED") }

  predicate Counts(t: Tally, e: Event) {
    e.cycleId == t.cycleId &&
    match t
    case Submissions(_) => e.kind == ORDER_SUBMITTED
    case Fillings(_) => e.kind == FILL_OBSERVED
    case Endings(_) => e.kind == CYCLE_TERMINAL && !Skipped(e)
    case Skips(_) => e.kind == CYCLE_TERMINAL && Skipped(e)
  }

  function Count(t: Tally, log: seq<Event>): nat {
    if |log| == 0 then 0 else Count(t, log[..|log| - 1]) + if Counts(t, log[|log| - 1]) then 1 else 0
  }

  lemma {:induction false} CountConcat(t: Tally, a: seq<Event>, b: seq<Event>)
    ensures Count(t, a + b) == Count(t, a) + Count(t, b)
  {
    if |b| == 0 {
      assert a + b == a;
    } else {
      CountConcat(t, a, b[..|b| - 1]);
      assert (a + b)[..|a + b| - 1] == a + b[..|b| - 1];
    }
  }

  lemma CountNone(t: Tally, log: seq<Event>)
    requires forall e :: e in log ==> !Counts(t, e)
    ensures Count(t, log) == 0
  {
  }

  lemma CountOne(t: Tally, e: Event)
    ensures Count(t, [e]) == if Counts(t, e) then 1 else 0
  {
    assert [e][..0] == [];
  }

  // ---- When a cycle trades -----------------------------------------------------------------------

  /** The gates: no breaker open, fresh data, and an approved entry. */
  predicate Earned(u: Setup, open: Open, x: Cycle) {
    open == map[] && UpToDate(x.snapshot, x.nowMs, u.policy.maxSnapshotAge) && Approves(x.reply)
  }

  /** Every gate passes, the size is found and the exchange takes the order. */
  ghost predicate Trades(u: Setup, b: Book, open: Open, x: Cycle)
    requires u.exchange.Valid() && PositivePositions(b.positions)
  {
    && Earned(u, open, x)
    && var d := x.reply.decision;
       var size := Sizing.SizeForRisk(SizeRequest(u.policy, u.exchange, b, d));
       size.Ok? && Placed(u.exchange, b, OrderName(x.Id()), d.symbol, d.side, SizeOf(u, b, d)).1.Ok?
  }

  ghost predicate Quiet(x: Cycle, events: seq<Event>) {
    forall e :: e in events ==> e.cycleId == x.Id() && e.kind !in {CYCLE_TERMINAL, ORDER_SUBMITTED, FILL_OBSERVED}
  }

  /** The fill of a cycle that trades. */
  ghost function FillTraded(u: Setup, b: Book, open: Open, x: Cycle): Fill
    requires u.exchange.Valid() && PositivePositions(b.positions) && Trades(u, b, open, x)
  {
    var d := x.reply.decision;
    Placed(u.exchange, b, OrderName(x.Id()), d.symbol, d.side, SizeOf(u, b, d)).1.value
  }

  /** The quantity the sizing settles on. */
  ghost function SizeOf(u: Setup, b: Book, d: Decision): real
    requires Sizing.SizeForRisk(SizeRequest(u.policy, u.exchange, b, d)).Ok?
  {
    Sizing.SizeForRisk(SizeRequest(u.policy, u.exchange, b, d)).value.quantity
  }

  /** A judgement logs an order and its fill exactly when the cycle trades, and nothing else that counts. */
  lemma JudgementEvents(u: Setup, b: Book, open: Open, x: Cycle) returns (before: seq<Event>, after: seq<Event>)
    requires u.exchange.Valid() && PositivePositions(b.positions)
    ensures Quiet(x, before) && Quiet(x, after)
    ensures var j := Judge(u, b, open, x);
            if Trades(u, b, open, x) then
              j.events == before + Ordering(x, x.reply.decision, FillTraded(u, b, open, x)) + after
            else j.events == before
  {
    hide Placed, SizeRequest, ProtectionVerdict, Ordering, OrderName, Sizing.SizeForRisk;
    before, after := Judge(u, b, open, x).events, [];
    if Earned(u, open, x) {
      var d := x.reply.decision;
      before := [EventOf("paper", x, AGENT_CONTEXT_BUILT, NO_PAYLOAD), DecisionOf(x, d)];
      if Trades(u, b, open, x) {
        var placed := Placed(u.exchange, b, OrderName(x.Id()), d.symbol, d.side, SizeOf(u, b, d));
        after := Confirm(x, d, placed.0).events;
        assert Judge(u, b, open, x).events == before + Ordering(x, d, placed.1.value) + after;
      }
    }
  }

  lemma JudgementStatus(u: Setup, b: Book, open: Open, x: Cycle)
    requires u.exchange.Valid() && PositivePositions(b.positions)
    ensures var r := Judge(u, b, open, x).result;
            r.Ok? ==> r.value.name in {"PARKED", "PARKED_PROVIDER", "NO_DECISION", "HELD", "REJECTED", "EXECUTED", "DEGRADED"}
  {
    hide Placed, SizeRequest, ProtectionVerdict;
  }

  /** Whether a cycle is about to be claimed rather than refused. */
  predicate Claims(u: Setup, w: World, x: Cycle) { Watched(u, w, x).Ok? && x.Id() !in w.cycles }

  function Gain(t: Tally, x: Cycle, trades: bool, ended: bool): nat {
    if t.cycleId != x.Id() then 0
    else
      match t
      case Submissions(_) | Fillings(_) => if trades then 1 else 0
      case Endings(_) => if ended then 1 else 0
      case Skips(_) => 0
  }

  lemma QuietCounts(t: Tally, x: Cycle, events: seq<Event>)
    requires Quiet(x, events)
    ensures Count(t, events) == 0
  {
    CountNone(t, events);
  }

  lemma OrderingCounts(t: Tally, x: Cycle, d: Decision, f: Fill)
    ensures Count(t, Ordering(x, d, f)) == Gain(t, x, true, false)
  {
    var o := Ordering(x, d, f);
    CountOne(t, o[0]);
    CountOne(t, o[1]);
    CountOne(t, o[2]);
    CountConcat(t, [o[0]], [o[1]]);
    CountConcat(t, [o[0]] + [o[1]], [o[2]]);
    assert o == [o[0]] + [o[1]] + [o[2]];
  }

  lemma JudgementCounts(t: Tally, u: Setup, b: Book, open: Open, x: Cycle)
    requires u.exchange.Valid() && PositivePositions(b.positions)
    ensures Count(t, Judge(u, b, open, x).events) == Gain(t, x, Trades(u, b, open, x), false)
  {
    hide Judge, Ordering, Count, FillTraded;
    var before, after := JudgementEvents(u, b, open, x);
    QuietCounts(t, x, before);
    QuietCounts(t, x, after);
    if Trades(u, b, open, x) {
      var ordering := Ordering(x, x.reply.decision, FillTraded(u, b, open, x));
      OrderingCounts(t, x, x.reply.decision, FillTraded(u, b, open, x));
      CountConcat(t, before, ordering);
      CountConcat(t, before + ordering, after);
    }
  }

  /** What one call through the paper runtime adds to every tally. */
  lemma ProcessCounts(t: Tally, u: Setup, w: World, x: Cycle)
    requires u.exchange.Valid() && PositivePositions(w.book.positions)
    ensures var s := Process(u, w, x);
            Count(t, s.world.log) == Count(t, w.log)
            + if Claims(u, w, x) then
                Gain(t, x, Trades(u, w.book, Watched(u, w, x).value.live.open, x), s.result.Ok?)
              else if s.result.Ok? && t == Skips(x.Id()) then 1 else 0
  {
    hide Judge, Count, Trades, Staleness;
    var watched := Watched(u, w, x);
    var s := Process(u, w, x);
    if watched.Ok? && x.Id() in w.cycles {
      var skip := TerminalOf("paper", x, Status("SKIPPED", "DUPLICATE_CYCLE"));
      CountConcat(t, w.log, [skip]);
      CountOne(t, skip);
    } else if watched.Ok? {
      var j := Judge(u, w.book, watched.value.live.open, x);
      var ended := Ending(x, j.result);
      JudgementCounts(t, u, w.book, watched.value.live.open, x);
      JudgementStatus(u, w.book, watched.value.live.open, x);
      EndingCounts(t, x, j.result);
      CountOne(t, ObservedOf("paper", x));
      CountConcat(t, w.log, [ObservedOf("paper", x)]);
      CountConcat(t, w.log + [ObservedOf("paper", x)], j.events);
      CountConcat(t, w.log + [ObservedOf("paper", x)] + j.events, ended);
    }
  }

  lemma EndingCounts(t: Tally, x: Cycle, r: Result<Status>)
    requires r.Ok? ==> r.value.name != "SKIPPED"
    ensures Count(t, Ending(x, r)) == Gain(t, x, false, r.Ok?)
  {
    if r.Ok? {
      CountOne(t, TerminalOf("paper", x, r.value));
    }
  }

  // ---- The exchange under the runtime --------------------------------------------------------------

  /** A judgement uses the exchange through its public calls: at most an order, then at most a protection. */
  lemma JudgementCalls(u: Setup, b: Book, open: Open, x: Cycle) returns (calls: seq<Exchange.Action>)
    requires u.exchange.Valid() && Fillable(b)
    ensures |calls| == 0 ==> Judge(u, b, open, x).book == b
    ensures |calls| == 1 ==> Judge(u, b, open, x).book == Exchange.Step(u.exchange, b, calls[0])
    ensures |calls| == 2 ==> Fillable(Exchange.Step(u.exchange, b, calls[0]))
                             && Judge(u, b, open, x).book == Exchange.Step(u.exchange, Exchange.Step(u.exchange, b, calls[0]), calls[1])
    ensures |calls| <= 2
  {
    hide SizeRequest, ProtectionVerdict, Submit, FillsOf, Ordering, Sizing.SizeForRisk;
    calls := [];
    if Earned(u, open, x) && Sizing.SizeForRisk(SizeRequest(u.policy, u.exchange, b, x.reply.decision)).Ok? {
      var d := x.reply.decision;
      var order := MarketOrder(OrderName(x.Id()), d.symbol, d.side, SizeOf(u, b, d));
      calls := [Exchange.DoSubmit(order)];
      SubmitKeepsFillable(u.exchange, b, order);
      var (b', fill) := Placed(u.exchange, b, OrderName(x.Id()), d.symbol, d.side, SizeOf(u, b, d));
      assert b' == Submit(u.exchange, b, order).book;
      if fill.Ok? && d.symbol in b'.positions {
        if x.protect {
          calls := calls + [Exchange.DoProtect(d.symbol, Some(d.stop), Some(d.target))];
        } else {
          assert b'.positions[d.symbol := b'.positions[d.symbol]] == b'.positions;
        }
      }
    }
  }

  lemma NextKeepsFillable(u: Setup, w: World, a: Act)
    requires u.exchange.Valid() && Fillable(w.book)
    ensures Fillable(Next(u, w, a).book)
  {
    hide Judge, Fillable, Exchange.Step;
    match a
    case DoMarket(e) => EventKeepsFillable(u.exchange, w.book, e);
    case DoProcess(x) => ProcessKeepsFillable(u, w, x);
    case DoOffer(x) => ProcessKeepsFillable(u, w, x);
    case _ =>
  }

  lemma ProcessKeepsFillable(u: Setup, w: World, x: Cycle)
    requires u.exchange.Valid() && Fillable(w.book)
    ensures Fillable(Process(u, w, x).world.book)
  {
    hide Judge, Exchange.Step;
    if Claims(u, w, x) {
      var open := Watched(u, w, x).value.live.open;
      var calls := JudgementCalls(u, w.book, open, x);
      if |calls| > 0 { StepKeepsFillable(u.exchange, w.book, calls[0]); }
      if |calls| > 1 { StepKeepsFillable(u.exchange, Exchange.Step(u.exchange, w.book, calls[0]), calls[1]); }
    }
  }

  /** A runtime starts with an empty ledger and a fresh exchange, and with whatever breakers were saved. */
  function Fresh(open: Open): World { World(map[], [], EMPTY_BOOK, Liveness(None, false, open), Guard(false, [], false)) }

  ghost function After(u: Setup, open: Open, actions: seq<Act>): (w: World)
    requires u.exchange.Valid()
    ensures Fillable(w.book)
  {
    if |actions| == 0 then Fresh(open)
    else
      var w := After(u, open, actions[..|actions| - 1]);
      NextKeepsFillable(u, w, actions[|actions| - 1]);
      Next(u, w, actions[|actions| - 1])
  }

  lemma ProcessCalls(u: Setup, w: World, x: Cycle, calls: seq<Exchange.Action>) returns (more: seq<Exchange.Action>)
    requires u.exchange.Valid() && w.book == Exchange.Run(u.exchange, calls)
    ensures Process(u, w, x).world.book == Exchange.Run(u.exchange, more)
  {
    hide Judge, Exchange.Step, Exchange.Run;
    more := calls;
    if Claims(u, w, x) {
      var open := Watched(u, w, x).value.live.open;
      var made := JudgementCalls(u, w.book, open, x);
      if |made| > 0 {
        RunAppend(u.exchange, more, made[0]);
        more := more + [made[0]];
      }
      if |made| > 1 {
        RunAppend(u.exchange, more, made[1]);
        more := more + [made[1]];
      }
    }
  }

  /** Whatever the runtime does, its exchange has only seen public calls: every law of the exchange holds under it. */
  lemma {:induction false} BookIsARun(u: Setup, open: Open, actions: seq<Act>) returns (calls: seq<Exchange.Action>)
    requires u.exchange.Valid()
    ensures After(u, open, actions).book == Exchange.Run(u.exchange, calls)
  {
    hide Process, Exchange.Step;
    calls := [];
    if |actions| > 0 {
      var w := After(u, open, actions[..|actions| - 1]);
      calls := BookIsARun(u, open, actions[..|actions| - 1]);
      match actions[|actions| - 1]
      case DoProcess(x) => calls := ProcessCalls(u, w, x, calls);
      case DoOffer(x) =>
        if !(x.Id() in w.cycles && w.cycles[x.Id()].Some?) {
          calls := ProcessCalls(u, w, x, calls);
        }
      case DoMarket(e) =>
        RunAppend(u.exchange, calls, Exchange.DoEvent(e));
        EventStep(u.exchange, w.book, e);
        calls := calls + [Exchange.DoEvent(e)];
      case _ =>
    }
  }

  lemma EventStep(c: Config, b: Book, e: MarketEvent)
    requires c.Valid() && Fillable(b)
    ensures Exchange.Step(c, b, Exchange.DoEvent(e)) == ApplyEvent(c, b, e)
  {
  }

  // ---- One order and one end for every cycle -------------------------------------------------------

  ghost predicate CycleOk(w: World, c: string) {
    && Count(Submissions(c), w.log) == Count(Fillings(c), w.log) <= 1
    && Count(Endings(c), w.log) == (if c in w.cycles && w.cycles[c].Some? then 1 else 0)
    && (c !in w.cycles ==> Count(Fillings(c), w.log) == 0 && Count(Skips(c), w.log) == 0)
  }

  lemma ProcessKeepsCycles(u: Setup, w: World, x: Cycle, c: string)
    requires u.exchange.Valid() && PositivePositions(w.book.positions) && CycleOk(w, c)
    ensures CycleOk(Process(u, w, x).world, c)
  {
    hide Count, Judge, Trades, Watched, Evaluated;
    ProcessCounts(Submissions(c), u, w, x);
    ProcessCounts(Fillings(c), u, w, x);
    ProcessCounts(Endings(c), u, w, x);
    ProcessCounts(Skips(c), u, w, x);
  }

  lemma ShadowCounts(t: Tally, w: World, x: Cycle)
    ensures Count(t, Shadow(w, x).world.log)
         == Count(t, w.log) + if x.Id() in w.cycles then 0 else Gain(t, x, false, true)
  {
    hide Count;
    if x.Id() !in w.cycles {
      var events := Shadow(w, x).world.log[|w.log|..];
      CountConcat(t, w.log, events);
      assert Shadow(w, x).world.log == w.log + events;
      CountOne(t, events[0]);
      CountOne(t, events[1]);
      CountOne(t, events[2]);
      CountConcat(t, [events[0]], [events[1]]);
      CountConcat(t, [events[0]] + [events[1]], [events[2]]);
      assert events == [events[0]] + [events[1]] + [events[2]];
    }
  }

  /** After any run: at most one order and one fill per cycle, and one ending exactly when the cycle has a terminal status. */
  lemma {:induction false} EachCycleOnce(u: Setup, open: Open, actions: seq<Act>, c: string)
    requires u.exchange.Valid()
    ensures CycleOk(After(u, open, actions), c)
  {
    hide Process, Shadow, CycleOk;
    if |actions| == 0 {
      FreshCycleOk(open, c);
    } else {
      var w := After(u, open, actions[..|actions| - 1]);
      EachCycleOnce(u, open, actions[..|actions| - 1], c);
      match actions[|actions| - 1]
      case DoProcess(x) => ProcessKeepsCycles(u, w, x, c);
      case DoOffer(x) => ProcessKeepsCycles(u, w, x, c);
      case DoShadow(x) => ShadowKeepsCycles(w, x, c);
      case _ => SameCycleOk(w, Next(u, w, actions[|actions| - 1]), c);
    }
  }

  lemma FreshCycleOk(open: Open, c: string)
    ensures CycleOk(Fresh(open), c)
  {
  }

  lemma SameCycleOk(w: World, w': World, c: string)
    requires CycleOk(w, c) && w'.log == w.log && w'.cycles == w.cycles
    ensures CycleOk(w', c)
  {
  }

  lemma ShadowKeepsCycles(w: World, x: Cycle, c: string)
    requires CycleOk(w, c)
    ensures CycleOk(Shadow(w, x).world, c)
  {
    hide Count;
    ShadowCounts(Submissions(c), w, x);
    ShadowCounts(Fillings(c), w, x);
    ShadowCounts(Endings(c), w, x);
    ShadowCounts(Skips(c), w, x);
  }

  // ---- A claim is for ever -------------------------------------------------------------------------

  lemma NextKeepsClaim(u: Setup, w: World, a: Act, c: string)
    requires u.exchange.Valid() && Fillable(w.book) && c in w.cycles
    ensures var w' := Next(u, w, a);
            && c in w'.cycles && w'.cycles[c] == w.cycles[c]
            && Count(Submissions(c), w'.log) == Count(Submissions(c), w.log)
            && Count(Endings(c), w'.log) == Count(Endings(c), w.log)
  {
    hide Count, Judge, Trades, Watched, Evaluated, OpenOrders;
    match a
    case DoProcess(x) =>
      ProcessCounts(Submissions(c), u, w, x);
      ProcessCounts(Endings(c), u, w, x);
    case DoOffer(x) =>
      ProcessCounts(Submissions(c), u, w, x);
      ProcessCounts(Endings(c), u, w, x);
    case DoShadow(x) =>
      ShadowCounts(Submissions(c), w, x);
      ShadowCounts(Endings(c), w, x);
    case _ =>
  }

  /** Once claimed, a cycle keeps its status and never orders or ends again: a cycle that raised is never retried. */
  lemma {:induction false} ClaimIsForever(u: Setup, open: Open, earlier: seq<Act>, later: seq<Act>, c: string)
    requires u.exchange.Valid() && c in After(u, open, earlier).cycles
    ensures var w, w' := After(u, open, earlier), After(u, open, earlier + later);
            && c in w'.cycles && w'.cycles[c] == w.cycles[c]
            && Count(Submissions(c), w'.log) == Count(Submissions(c), w.log)
            && Count(Endings(c), w'.log) == Count(Endings(c), w.log)
  {
    hide Next, Count;
    if |later| == 0 {
      assert earlier + later == earlier;
    } else {
      var n := |later| - 1;
      assert (earlier + later)[..|earlier + later| - 1] == earlier + later[..n];
      ClaimIsForever(u, open, earlier, later[..n], c);
      NextKeepsClaim(u, After(u, open, earlier + later[..n]), later[n], c);
    }
  }

  // ---- Every order was earned ----------------------------------------------------------------------

  /** The step that claimed a cycle, with no breaker open, fresh data and an approved entry. */
  ghost predicate Earns(u: Setup, w: World, a: Act, c: string) {
    && (a.DoProcess? || a.DoOffer?) && a.cycle.Id() == c && Claims(u, w, a.cycle)
    && Earned(u, Watched(u, w, a.cycle).value.live.open, a.cycle)
  }

  lemma NewFillIsEarned(u: Setup, w: World, a: Act, c: string)
    requires u.exchange.Valid() && Fillable(w.book)
    requires Count(Fillings(c), Next(u, w, a).log) > Count(Fillings(c), w.log)
    ensures Earns(u, w, a, c)
  {
    hide Count, Judge, Watched, Evaluated, OpenOrders, SizeRequest, SizeOf, Placed;
    match a
    case DoProcess(x) => ProcessCounts(Fillings(c), u, w, x);
    case DoOffer(x) => ProcessCounts(Fillings(c), u, w, x);
    case DoShadow(x) => ShadowCounts(Fillings(c), w, x);
    case _ =>
  }

  /** Behind every fill in the log is one step that claimed its cycle and passed every gate. */
  lemma {:induction false} EveryFillIsEarned(u: Setup, open: Open, actions: seq<Act>, c: string)
    requires u.exchange.Valid() && Count(Fillings(c), After(u, open, actions).log) > 0
    ensures exists k :: 0 <= k < |actions| && Earns(u, After(u, open, actions[..k]), actions[k], c)
  {
    hide Next, Earns;
    if |actions| > 0 {
      var n := |actions| - 1;
      var w := After(u, open, actions[..n]);
      if Count(Fillings(c), w.log) > 0 {
        EveryFillIsEarned(u, open, actions[..n], c);
        var k :| 0 <= k < n && Earns(u, After(u, open, actions[..n][..k]), actions[..n][k], c);
        assert actions[..n][..k] == actions[..k] && actions[..n][k] == actions[k];
      } else {
        NewFillIsEarned(u, w, actions[n], c);
      }
    }
  }

  /** Fail closed: a cycle that finds the host under pressure, or cannot look, is parked and places no order. */
  lemma PressureParks(u: Setup, w: World, x: Cycle)
    requires u.exchange.Valid() && Fillable(w.book) && Claims(u, w, x)
    requires u.guarded && Findings(x.sample) != []
    ensures var s := Process(u, w, x); s.result == Ok("PARKED") && s.world.book == w.book && RESOURCE in s.world.live.open
  {
    hide Ticked, Beaten, OpenOrders;
    var beaten := if u.maxGap.Some? then Beaten(w.live, x.beatMs) else Ok(w.live);
    var live := if u.maxGap.Some? then Ticked(u.maxGap.value, beaten.value, x.beatMs) else beaten.value;
    GuardFailsClosed(w.guard, live.open, x.sample);
  }
}
