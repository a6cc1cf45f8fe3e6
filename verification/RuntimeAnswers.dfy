/**
 What the paper runtime answers and records, told from the outside: when a cycle reaches sizing, what its status
 says, the limits every entry respects, and a log that mirrors the exchange deal by deal
 (src/runtime/paper_runtime.py, src/market/freshness.py, src/policy/sizing.py).
*/
module RuntimeAnswers {
  import opened Common
  import opened FundingModel
  import opened Venue
  import opened Exchange
  import opened ExchangeLaws
  import opened PaperVenue
  import opened Breakers
  import opened Ledger
  import opened RuntimeModel
  import opened RuntimeLaws
  import opened RuntimeInventory
  import ExchangeAnswers

  // ---- Reaching the sizing -----------------------------------------------------------------------

  /** Which of the conditions on a snapshot fails first. */
  ghost predicate FirstReason(x: Cycle, maxAge: real, why: string) {
    var age := (x.nowMs - x.snapshot.observedMs) as real;
    var skew := Abs((x.snapshot.observedMs - x.snapshot.sourceMs) as real);
    if age < 0.0 then why == "LOCAL_CLOCK_BEFORE_OBSERVATION"
    else if age > 1000.0 * maxAge then why == "STALE_MARKET_DATA"
    else if skew > 30000.0 then why == "SOURCE_CLOCK_SKEW"
    else why == "SNAPSHOT_HASH_INVALID"
  }

  /**
   A claimed cycle with no breaker open and an approved entry goes on to sizing and ordering exactly when its data
   is up to date; otherwise it is parked for the first condition that fails, and the exchange is left alone.
  */
  lemma SizesIffUpToDate(u: Setup, w: World, x: Cycle)
    requires u.exchange.Valid() && Fillable(w.book) && Claims(u, w, x)
    requires Watched(u, w, x).value.live.open == map[] && x.reply.Decided? && x.reply.approved && x.reply.decision.action == "ENTER"
    ensures var s := Process(u, w, x);
            var entered := Enter(u, w.book, x, x.reply.decision);
            && (s.result == Ok("PARKED") <==> !UpToDate(x.snapshot, x.nowMs, u.policy.maxSnapshotAge))
            && (s.result != Ok("PARKED") ==> s.world.book == entered.book && s.result.Ok? == entered.result.Ok?)
            && (s.result == Ok("PARKED") ==>
                  && s.world.book == w.book && |s.world.log| == |w.log| + 2
                  && var ending := s.world.log[|w.log| + 1];
                     && (ending.kind, ending.cycleId, ending.payload.disposition) == (CYCLE_TERMINAL, x.Id(), Some("PARKED"))
                     && ending.payload.reason.Some? && FirstReason(x, u.policy.maxSnapshotAge, ending.payload.reason.value))
  {
    hide Enter, Watched, OpenOrders, ObservedOf;
    EnteredStatus(u, w.book, x, x.reply.decision);
    if !UpToDate(x.snapshot, x.nowMs, u.policy.maxSnapshotAge) {
      var why := Staleness(x.snapshot, x.nowMs, u.policy.maxSnapshotAge).value;
      assert FirstReason(x, u.policy.maxSnapshotAge, why) && why != "";
      ParkedLog(w.log, ObservedOf("paper", x), TerminalOf("paper", x, Status("PARKED", why)));
    }
  }

  lemma ParkedLog(log: seq<Event>, a: Event, b: Event)
    ensures log + [a] + [] + [b] == log + [a, b]
  {
  }

  lemma EnteredStatus(u: Setup, b: Book, x: Cycle, d: Decision)
    requires u.exchange.Valid() && PositivePositions(b.positions)
    ensures Enter(u, b, x, d).result.Ok? ==> Enter(u, b, x, d).result.value.name in {"EXECUTED", "DEGRADED"}
  {
    hide Placed, SizeRequest, ProtectionVerdict, Sizing.SizeForRisk;
  }

  // ---- What a status says --------------------------------------------------------------------------

  /** The status of a claimed cycle that does not raise tells which gate ended it. */
  lemma StatusTellsGate(u: Setup, w: World, x: Cycle)
    requires u.exchange.Valid() && Fillable(w.book) && Claims(u, w, x) && Process(u, w, x).result.Ok?
    ensures var status := Process(u, w, x).result.value;
            var ready := Watched(u, w, x).value.live.open == map[] && UpToDate(x.snapshot, x.nowMs, u.policy.maxSnapshotAge);
            && (status == "PARKED" <==> !ready)
            && (status == "PARKED_PROVIDER" <==>
                  ready && (x.reply == Failed("PROVIDER_CIRCUIT_OPEN") || (x.reply.Malformed? && x.reply.circuitOpen)))
            && (status == "NO_DECISION" <==>
                  ready && ((x.reply.Failed? && x.reply.code != "PROVIDER_CIRCUIT_OPEN") || (x.reply.Malformed? && !x.reply.circuitOpen)))
            && (status == "REJECTED" <==> ready && x.reply.Decided? && !x.reply.approved && x.reply.verdict != "HOLD")
            && (status == "HELD" <==> ready && x.reply.Decided? && if x.reply.approved then x.reply.decision.action != "ENTER" else x.reply.verdict == "HOLD")
            && (status in {"EXECUTED", "DEGRADED"} <==> ready && x.reply.Decided? && x.reply.approved && x.reply.decision.action == "ENTER")
  {
    hide Enter, Watched, OpenOrders, ObservedOf, TerminalOf, UpToDate;
    if x.reply.Decided? {
      EnteredStatus(u, w.book, x, x.reply.decision);
    }
  }

  /** The position left by a cycle that executes carries its levels; the status says whether it has both. */
  lemma ExecutedIffProtected(u: Setup, w: World, x: Cycle)
    requires u.exchange.Valid() && Fillable(w.book) && Claims(u, w, x) && Process(u, w, x).result.Ok?
    requires Process(u, w, x).result.value in {"EXECUTED", "DEGRADED"}
    ensures x.reply.Decided?
    ensures var s, d := Process(u, w, x), x.reply.decision;
            && d.symbol in s.world.book.positions
            && var p := s.world.book.positions[d.symbol];
               && (s.result.value == "EXECUTED" <==> p.symbol != "" && p.quantity > 0.0 && p.stopLoss.Some? && p.takeProfit.Some?)
               && (x.protect ==> p.stopLoss == Some(d.stop) && p.takeProfit == Some(d.target))
  {
    hide Enter, Watched, OpenOrders, ObservedOf, TerminalOf, UpToDate;
    StatusTellsGate(u, w, x);
    EnteredPosition(u, w.book, x, x.reply.decision);
  }

  lemma EnteredPosition(u: Setup, b: Book, x: Cycle, d: Decision)
    requires u.exchange.Valid() && PositivePositions(b.positions) && Enter(u, b, x, d).result.Ok?
    ensures var j := Enter(u, b, x, d);
            && d.symbol in j.book.positions
            && var p := j.book.positions[d.symbol];
               && (j.result.value.name == "EXECUTED" <==> p.symbol != "" && p.quantity > 0.0 && p.stopLoss.Some? && p.takeProfit.Some?)
               && (x.protect ==> p.stopLoss == Some(d.stop) && p.takeProfit == Some(d.target))
  {
    hide Placed, SizeRequest, Sizing.SizeForRisk, Ordering;
  }

  /**
   An entry that does not raise logs its order and fill, then the verdict on the protection and a reconciliation in
   sync; the verdict is positive exactly when the cycle is executed.
  */
  lemma EntryLogs(u: Setup, b: Book, x: Cycle, d: Decision)
    requires u.exchange.Valid() && PositivePositions(b.positions) && Enter(u, b, x, d).result.Ok?
    ensures var j := Enter(u, b, x, d);
            && |j.events| == 5
            && (j.events[0].kind, j.events[1].kind, j.events[2].kind) == (INTENT_APPROVED, ORDER_SUBMITTED, FILL_OBSERVED)
            && (forall k :: 0 <= k < 3 ==> j.events[k].payload.orderId == Some(OrderName(x.Id())))
            && j.events[3].kind == (if j.result.value.name == "EXECUTED" then PROTECTION_VERIFIED else PROTECTION_FAILED)
            && (j.events[3].payload.status == Some("PROTECTED") <==> j.result.value.name == "EXECUTED")
            && j.events[4].kind == POSITION_RECONCILED && j.events[4].payload.inSync == Some(true)
            && j.result.value.reason == ""
  {
    hide Placed, SizeRequest, Sizing.SizeForRisk, OrderName;
  }

  /** Why a position is not protected: the first thing it lacks. */
  lemma ProtectionTells(p: Position)
    ensures var (protected, why) := ProtectionVerdict(p);
            && (protected <==> p.symbol != "" && p.quantity > 0.0 && p.stopLoss.Some? && p.takeProfit.Some?)
            && (why == "NO_SYMBOL" <==> p.symbol == "")
            && (why == "NO_OPEN_POSITION" <==> p.symbol != "" && p.quantity <= 0.0)
            && (why == "STOP_LOSS_MISSING" <==> p.symbol != "" && p.quantity > 0.0 && p.stopLoss.None?)
            && (why == "TAKE_PROFIT_MISSING" <==> p.symbol != "" && p.quantity > 0.0 && p.stopLoss.Some? && p.takeProfit.None?)
  {
  }

  /** An entry is recorded as a plain market order of the decision's symbol and side at the size found, whatever its levels. */
  lemma EntryIsPlain(u: Setup, b: Book, x: Cycle, d: Decision)
    requires u.exchange.Valid() && Fillable(b) && Client(OrderName(x.Id())) !in b.orders
    requires Sizing.SizeForRisk(SizeRequest(u.policy, u.exchange, b, d)).Ok?
    ensures var orders, id := Enter(u, b, x, d).book.orders, Client(OrderName(x.Id()));
            && id in orders
            && var o := orders[id];
               (o.symbol, o.side, o.quantity, o.reduceOnly, o.endOfReplay) == (d.symbol, d.side, SizeOf(u, b, d), false, false)
  {
    hide SizeRequest, Sizing.SizeForRisk, Confirm, Submit, OrderName, Ordering, OpenOrders;
    var name, quantity := OrderName(x.Id()), SizeOf(u, b, d);
    RecordedPlainly(u.exchange, b, name, d.symbol, d.side, quantity);
    ConfirmKeepsRecords(x, d, Placed(u.exchange, b, name, d.symbol, d.side, quantity).0);
  }

  lemma RecordedPlainly(c: Config, b: Book, name: string, symbol: string, side: Side, quantity: real)
    requires c.Valid() && Fillable(b) && Client(name) !in b.orders
    ensures var orders := Placed(c, b, name, symbol, side, quantity).0.orders;
            && Client(name) in orders
            && var o := orders[Client(name)]; (o.symbol, o.side, o.quantity, o.reduceOnly, o.endOfReplay) == (symbol, side, quantity, false, false)
  {
    hide ValidateOrder, FillsOf, Submit, OpenOrders;
    var r := OrderRequest(name, symbol, side, quantity, None, GTC, false, 1.0, "isolated", false);
    assert MarketOrder(name, symbol, side, quantity) == r;
    ExchangeAnswers.AdmissionRecord(c, b, r);
    ExchangeAnswers.SubmissionOutcome(c, b, r);
  }

  // ---- The limits every entry respects ---------------------------------------------------------------

  /** Sizes are whole steps of the policy or of the venue, whichever are coarser. */
  function CoarserStep(p: Policy, venue: Specification): real {
    if p.quantityStep >= venue.quantityStep then p.quantityStep else venue.quantityStep
  }

  /** An entry that can be sized respects the policy, the venue, the decision and what is already held, whichever is tightest. */
  lemma EntryWithinLimits(u: Setup, b: Book, d: Decision)
    requires Sizing.SizeForRisk(SizeRequest(u.policy, u.exchange, b, d)).Ok?
    ensures var p, venue, q := u.policy, u.exchange.venue, SizeOf(u, b, d);
            var notional := q * d.entry * p.contractMultiplier;
            && q > 0.0 && (d.side == BUY ==> d.stop < d.entry) && (d.side == SELL ==> d.entry < d.stop)
            && notional >= p.minNotional && notional >= venue.minimumNotional
            && notional <= p.maxPositionNotional + Sizing.EXPOSURE_SLACK && notional <= d.maxNotional + Sizing.EXPOSURE_SLACK
            && notional <= p.availableEquity + Sizing.EXPOSURE_SLACK
            && Sum(EntryNotional(venue.contractMultiplier), b.positions) + notional <= p.maxTotalNotional + Sizing.EXPOSURE_SLACK
            && exists step :: step == CoarserStep(p, venue) && step > 0.0 && IsMultiple(q, step)
  {
    hide Sum, Sizing.SizeForRisk, Sizing.Target, Sizing.Room, IsMultiple;
    var r := SizeRequest(u.policy, u.exchange, b, d);
    Sizing.SizeIsMaximalWithinRoom(r);
    Sizing.SizedIsAcceptable(r);
    var room := Sizing.Room(r);
    assert IsMultiple(SizeOf(u, b, d), r.step);
  }

  /** An entry is as large as it may be: one step more exceeds a limit, or the requested risk for more than the minimum. */
  lemma EntryIsLargest(u: Setup, b: Book, d: Decision, more: real, notional: real)
    requires Sizing.SizeForRisk(SizeRequest(u.policy, u.exchange, b, d)).Ok?
    requires more == SizeOf(u, b, d) + CoarserStep(u.policy, u.exchange.venue) && notional == more * d.entry * u.policy.contractMultiplier
    ensures var p, venue := u.policy, u.exchange.venue;
            || notional > p.maxPositionNotional || notional > d.maxNotional || notional > p.availableEquity
            || Sum(EntryNotional(venue.contractMultiplier), b.positions) + notional > p.maxTotalNotional
            || (notional > p.minNotional && notional > venue.minimumNotional
                && more * (Abs(d.entry - d.stop) * p.contractMultiplier) > p.requestedRisk)
  {
    hide Sum, Sizing.SizeForRisk, Abs;
    Sizing.NextStepIsTooMuch(SizeRequest(u.policy, u.exchange, b, d));
  }

  /** Unless it is raised to the minimum, an entry risks what the policy asks for at most, up to the slack of one floor. */
  lemma EntryRiskIsBounded(u: Setup, b: Book, d: Decision, loss: real)
    requires Sizing.SizeForRisk(SizeRequest(u.policy, u.exchange, b, d)).Ok? && loss == Abs(d.entry - d.stop) * u.policy.contractMultiplier
    ensures var p, worth := u.policy, u.policy.requestedRisk * (d.entry * u.policy.contractMultiplier);
            || worth < p.minNotional * loss || worth < u.exchange.venue.minimumNotional * loss
            || SizeOf(u, b, d) * loss <= p.requestedRisk + Sizing.FLOOR_SLACK * loss
  {
    hide Sum, Sizing.SizeForRisk, Abs;
    var r := SizeRequest(u.policy, u.exchange, b, d);
    Sizing.FlagsTell(r, r.risk * (r.entry * r.multiplier), loss);
    if !Sizing.SizeForRisk(r).value.raisedToMinimum {
      Sizing.RiskIsBounded(r);
    }
  }

  // ---- The log as a mirror of the exchange -----------------------------------------------------------

  /** What a fill event tells about a deal. */
  datatype Deal = Deal(orderId: Option<string>, symbol: Option<string>, side: Option<Side>,
                       quantity: Option<real>, price: Option<real>, fee: Option<real>)

  function LoggedDeals(log: seq<Event>): seq<Deal> {
    if |log| == 0 then []
    else
      var n, p := |log| - 1, log[|log| - 1].payload;
      LoggedDeals(log[..n])
      + if log[n].kind == FILL_OBSERVED then [Deal(p.orderId, p.symbol, p.side, p.quantity, p.price, p.fee)] else []
  }

  /** The exchange's fills of client orders. */
  function BookedDeals(fills: seq<Fill>): seq<Deal> {
    if |fills| == 0 then []
    else
      var n, f := |fills| - 1, fills[|fills| - 1];
      BookedDeals(fills[..n])
      + if f.id.Client? then [Deal(Some(f.id.name), Some(f.symbol), Some(f.side), Some(f.quantity), Some(f.price), Some(f.fee))] else []
  }

  lemma {:induction false} LoggedConcat(a: seq<Event>, b: seq<Event>)
    ensures LoggedDeals(a + b) == LoggedDeals(a) + LoggedDeals(b)
  {
    if |b| == 0 {
      assert a + b == a;
    } else {
      LoggedConcat(a, b[..|b| - 1]);
      assert (a + b)[..|a + b| - 1] == a + b[..|b| - 1];
    }
  }

  lemma {:induction false} NothingDealt(events: seq<Event>)
    requires forall e :: e in events ==> e.kind != FILL_OBSERVED
    ensures LoggedDeals(events) == []
  {
    if |events| > 0 {
      assert events[|events| - 1] in events;
      NothingDealt(events[..|events| - 1]);
    }
  }

  lemma BookedAppend(fills: seq<Fill>, f: Fill)
    ensures BookedDeals(fills + [f]) == BookedDeals(fills) + BookedDeals([f])
  {
    assert (fills + [f])[..|fills|] == fills && [f][..0] == [];
  }

  lemma OrderingDeals(x: Cycle, d: Decision, f: Fill)
    requires f.id == Client(OrderName(x.Id())) && f.symbol == d.symbol && f.side == d.side
    ensures LoggedDeals(Ordering(x, d, f)) == BookedDeals([f])
  {
    var o := Ordering(x, d, f);
    NothingDealt(o[..2]);
    assert o[..3] == o && [f][..0] == [];
  }

  lemma JudgementDeals(u: Setup, b: Book, open: Open, x: Cycle)
    requires u.exchange.Valid() && Fillable(b) && Client(OrderName(x.Id())) !in b.orders
    requires forall f :: f in b.fills ==> f.id != Client(OrderName(x.Id()))
    ensures var j := Judge(u, b, open, x); BookedDeals(j.book.fills) == BookedDeals(b.fills) + LoggedDeals(j.events)
  {
    hide Judge, Ordering, FillTraded, SizeRequest, SizeOf, Placed, OpenOrders, BookedDeals, LoggedDeals, OrderName;
    var before, after := JudgementEvents(u, b, open, x);
    JudgementFills(u, b, open, x);
    NothingDealt(before);
    NothingDealt(after);
    if Trades(u, b, open, x) {
      var d, f := x.reply.decision, FillTraded(u, b, open, x);
      OrderingDeals(x, d, f);
      LoggedConcat(before, Ordering(x, d, f));
      LoggedConcat(before + Ordering(x, d, f), after);
      BookedAppend(b.fills, f);
    }
  }

  ghost predicate Mirrors(w: World) { LoggedDeals(w.log) == BookedDeals(w.book.fills) }

  lemma ProcessMirrors(u: Setup, w: World, x: Cycle)
    requires u.exchange.Valid() && Fillable(w.book) && Mirrors(w)
    requires Claims(u, w, x) ==> Client(OrderName(x.Id())) !in w.book.orders
                                 && forall f :: f in w.book.fills ==> f.id != Client(OrderName(x.Id()))
    ensures Mirrors(Process(u, w, x).world)
  {
    hide Judge, Watched, Evaluated, LoggedDeals, BookedDeals, OrderName, OpenOrders;
    var watched := Watched(u, w, x);
    if Claims(u, w, x) {
      var j := Judge(u, w.book, watched.value.live.open, x);
      var seen, ended := [ObservedOf("paper", x)], Ending(x, j.result);
      JudgementDeals(u, w.book, watched.value.live.open, x);
      NothingDealt(seen);
      NothingDealt(ended);
      LoggedConcat(w.log, seen);
      LoggedConcat(w.log + seen, j.events);
      LoggedConcat(w.log + seen + j.events, ended);
    } else if watched.Ok? {
      var skip := [TerminalOf("paper", x, Status("SKIPPED", "DUPLICATE_CYCLE"))];
      NothingDealt(skip);
      LoggedConcat(w.log, skip);
    }
  }

  lemma MarketMirrors(u: Setup, w: World, e: MarketEvent)
    requires u.exchange.Valid() && Fillable(w.book) && OrderLaw(w) && Mirrors(w)
    ensures Mirrors(w.(book := ApplyEvent(u.exchange, w.book, e)))
  {
    hide ApplyEvent, LoggedDeals, OpenOrders;
    EventFills(u.exchange, w.book, e);
    var after := ApplyEvent(u.exchange, w.book, e);
    if after.fills != w.book.fills {
      var n := |w.book.fills|;
      assert after.fills == w.book.fills + [after.fills[n]];
      BookedAppend(w.book.fills, after.fills[n]);
    }
  }

  lemma ShadowMirrors(w: World, x: Cycle)
    requires Mirrors(w)
    ensures Mirrors(Shadow(w, x).world)
  {
    hide LoggedDeals, BookedDeals;
    if x.Id() !in w.cycles {
      var events := Shadow(w, x).world.log[|w.log|..];
      assert Shadow(w, x).world.log == w.log + events;
      NothingDealt(events);
      LoggedConcat(w.log, events);
    }
  }

  lemma NextMirrors(ids: set<string>, u: Setup, w: World, a: Act)
    requires u.exchange.Valid() && Distinct(ids) && Coherent(ids, w) && Mirrors(w) && (HasCycle(a) ==> a.cycle.Id() in ids)
    ensures Mirrors(Next(u, w, a))
  {
    hide Process, Shadow, Distinct, OpenOrders, ApplyEvent, Evaluated, LoggedDeals, BookedDeals, OrderLaw, Linked;
    match a
    case DoProcess(x) =>
      if Claims(u, w, x) { NameIsFree(w, ids, x); }
      ProcessMirrors(u, w, x);
    case DoOffer(x) =>
      if Claims(u, w, x) { NameIsFree(w, ids, x); }
      ProcessMirrors(u, w, x);
    case DoShadow(x) => ShadowMirrors(w, x);
    case DoMarket(e) => MarketMirrors(u, w, e);
    case _ =>
  }

  /**
   On every run whose cycles have distinct order names, the fills in the log are the exchange's fills of client
   orders, one for one and in order: same order, symbol, side, size, price and fee.
  */
  lemma {:induction false} LogMirrorsFills(ids: set<string>, u: Setup, open: Open, actions: seq<Act>)
    requires u.exchange.Valid() && Distinct(ids) && Mentions(ids, actions)
    ensures var w := After(u, open, actions); LoggedDeals(w.log) == BookedDeals(w.book.fills)
  {
    hide Next, Distinct, Coherent;
    if |actions| > 0 {
      var n := |actions| - 1;
      assert Mentions(ids, actions[..n]) && actions[n] in actions;
      LogMirrorsFills(ids, u, open, actions[..n]);
      CoherentOnEveryRun(ids, u, open, actions[..n]);
      NextMirrors(ids, u, After(u, open, actions[..n]), actions[n]);
    }
  }

  // ---- What the log says about the cycles --------------------------------------------------------------

  /** An event of this cycle, under its own name in every field that carries one. */
  predicate Owned(e: Event, c: string) {
    (e.cycleId, e.traceId, e.payload.cycleId, e.schema) == (c, c, Some(c), 1) && e.createdMs >= 1
  }

  predicate Ends(e: Event, c: string, status: string) {
    e.kind == CYCLE_TERMINAL && e.cycleId == c && e.payload.disposition == Some(status)
  }

  ghost predicate EndedAs(log: seq<Event>, c: string, status: string) {
    status != "SKIPPED" && exists e :: e in log && Ends(e, c, status)
  }

  /** Every event belongs to a claimed cycle, and a cycle's status is the one its ending logs. */
  ghost predicate LogTells(w: World) {
    && (forall e :: e in w.log ==> Owned(e, e.cycleId) && e.cycleId in w.cycles)
    && (forall c, status :: c in w.cycles ==> (w.cycles[c] == Some(status) <==> EndedAs(w.log, c, status)))
  }

  ghost predicate NoEnding(x: Cycle, events: seq<Event>) {
    forall e :: e in events ==> Owned(e, x.Id()) && e.kind != CYCLE_TERMINAL
  }

  /** A call stamps its events with its own time, at least one, and its snapshot's symbol, on the paper venue's product. */
  predicate Stamped(e: Event, x: Cycle) {
    && e.createdMs == (if x.nowMs > 1 then x.nowMs else 1)
    && (e.symbol, e.mode, e.productType) == (x.snapshot.symbol, "paper", "SUSDT-FUTURES")
    && Owned(e, x.Id())
  }

  lemma ConfirmStamps(x: Cycle, d: Decision, b: Book)
    ensures forall e :: e in Confirm(x, d, b).events ==> Stamped(e, x) && e.kind != CYCLE_TERMINAL
  {
    hide ProtectionVerdict;
  }

  lemma OrderingStamps(x: Cycle, d: Decision, f: Fill)
    ensures forall e :: e in Ordering(x, d, f) ==> Stamped(e, x) && e.kind != CYCLE_TERMINAL
  {
    hide OrderName;
  }

  lemma EntryStamps(u: Setup, b: Book, x: Cycle, d: Decision)
    requires u.exchange.Valid() && PositivePositions(b.positions)
    ensures forall e :: e in Enter(u, b, x, d).events ==> Stamped(e, x) && e.kind != CYCLE_TERMINAL
  {
    hide Placed, SizeRequest, OrderName, Sizing.SizeForRisk, Confirm, Ordering, Stamped;
    var size := Sizing.SizeForRisk(SizeRequest(u.policy, u.exchange, b, d));
    if size.Ok? {
      var (b', fill) := Placed(u.exchange, b, OrderName(x.Id()), d.symbol, d.side, size.value.quantity);
      if fill.Ok? {
        ConfirmStamps(x, d, b');
        OrderingStamps(x, d, fill.value);
      }
    }
  }

  lemma JudgementStamps(u: Setup, b: Book, open: Open, x: Cycle)
    requires u.exchange.Valid() && PositivePositions(b.positions)
    ensures forall e :: e in Judge(u, b, open, x).events ==> Stamped(e, x) && e.kind != CYCLE_TERMINAL
  {
    hide Enter, Staleness, UpToDate;
    if x.reply.Decided? {
      EntryStamps(u, b, x, x.reply.decision);
    }
  }

  lemma JudgementOwns(u: Setup, b: Book, open: Open, x: Cycle)
    requires u.exchange.Valid() && PositivePositions(b.positions)
    ensures NoEnding(x, Judge(u, b, open, x).events)
  {
    hide Judge;
    JudgementStamps(u, b, open, x);
  }

  lemma ProcessStamps(u: Setup, w: World, x: Cycle)
    requires u.exchange.Valid() && PositivePositions(w.book.positions)
    ensures var log := Process(u, w, x).world.log;
            w.log <= log && forall e :: e in log[|w.log|..] ==> Stamped(e, x)
  {
    hide Judge, Watched, Evaluated;
    var watched := Watched(u, w, x);
    if watched.Ok? && x.Id() !in w.cycles {
      JudgementStamps(u, w.book, watched.value.live.open, x);
      var j := Judge(u, w.book, watched.value.live.open, x);
      assert w.log + [ObservedOf("paper", x)] + j.events + Ending(x, j.result) == w.log + ([ObservedOf("paper", x)] + j.events + Ending(x, j.result));
    }
  }

  /** A claim adds events of its own cycle, the ending last if there is one. */
  lemma ClaimTells(w: World, w': World, x: Cycle, events: seq<Event>, ended: Option<Status>)
    requires LogTells(w) && x.Id() !in w.cycles && NoEnding(x, events) && (ended.Some? ==> ended.value.name != "SKIPPED")
    requires w'.cycles == w.cycles[x.Id() := if ended.Some? then Some(ended.value.name) else None]
    requires w'.log == w.log + events + if ended.Some? then [TerminalOf("paper", x, ended.value)] else []
    ensures LogTells(w')
  {
    forall c, status | c in w'.cycles ensures w'.cycles[c] == Some(status) <==> EndedAs(w'.log, c, status) {
      if c == x.Id() {
        if ended.Some? {
          var e := TerminalOf("paper", x, ended.value);
          assert e in w'.log && Ends(e, c, ended.value.name);
        }
      } else if EndedAs(w.log, c, status) {
        var e :| e in w.log && Ends(e, c, status);
        assert e in w'.log;
      }
    }
  }

  lemma ProcessTells(u: Setup, w: World, x: Cycle)
    requires u.exchange.Valid() && PositivePositions(w.book.positions) && LogTells(w)
    ensures LogTells(Process(u, w, x).world)
  {
    hide Judge, Watched, Evaluated, LogTells;
    var watched := Watched(u, w, x);
    if Claims(u, w, x) {
      var j := Judge(u, w.book, watched.value.live.open, x);
      JudgementOwns(u, w.book, watched.value.live.open, x);
      JudgementStatus(u, w.book, watched.value.live.open, x);
      var ended := if j.result.Ok? then Some(j.result.value) else None;
      assert w.log + [ObservedOf("paper", x)] + j.events == w.log + ([ObservedOf("paper", x)] + j.events);
      ClaimTells(w, Process(u, w, x).world, x, [ObservedOf("paper", x)] + j.events, ended);
    } else if watched.Ok? {
      SkipTells(w, Process(u, w, x).world, x);
    }
  }

  lemma SkipTells(w: World, w': World, x: Cycle)
    requires LogTells(w) && x.Id() in w.cycles && w'.cycles == w.cycles
    requires w'.log == w.log + [TerminalOf("paper", x, Status("SKIPPED", "DUPLICATE_CYCLE"))]
    ensures LogTells(w')
  {
    forall c, status ensures EndedAs(w'.log, c, status) <==> EndedAs(w.log, c, status) {
      if EndedAs(w.log, c, status) {
        var e :| e in w.log && Ends(e, c, status);
        assert e in w'.log;
      }
    }
  }

  lemma ShadowTells(w: World, x: Cycle)
    requires LogTells(w)
    ensures LogTells(Shadow(w, x).world)
  {
    if x.Id() !in w.cycles {
      var w' := Shadow(w, x).world;
      var e := w'.log[|w.log| + 2];
      assert e in w'.log && Ends(e, x.Id(), "SHADOW_ONLY");
      forall c, status | c in w.cycles ensures EndedAs(w'.log, c, status) <==> EndedAs(w.log, c, status) {
        if EndedAs(w.log, c, status) {
          var e :| e in w.log && Ends(e, c, status);
          assert e in w'.log;
        }
      }
    }
  }

  /**
   After any run every event belongs to a claimed cycle and names it throughout, and a cycle has a status exactly
   when an ending with that disposition is logged for it: the table and the log never disagree.
  */
  lemma {:induction false} LogTellsEveryStatus(u: Setup, open: Open, actions: seq<Act>)
    requires u.exchange.Valid()
    ensures LogTells(After(u, open, actions))
  {
    hide Process, Shadow, LogTells, Evaluated;
    if |actions| == 0 {
      FreshTells(open);
    } else {
      var w := After(u, open, actions[..|actions| - 1]);
      LogTellsEveryStatus(u, open, actions[..|actions| - 1]);
      match actions[|actions| - 1]
      case DoProcess(x) => ProcessTells(u, w, x);
      case DoOffer(x) => ProcessTells(u, w, x);
      case DoShadow(x) => ShadowTells(w, x);
      case _ => SameTells(w, Next(u, w, actions[|actions| - 1]));
    }
  }

  lemma FreshTells(open: Open)
    ensures LogTells(Fresh(open))
  {
  }

  lemma SameTells(w: World, w': World)
    requires LogTells(w) && w'.log == w.log && w'.cycles == w.cycles
    ensures LogTells(w')
  {
  }
}
