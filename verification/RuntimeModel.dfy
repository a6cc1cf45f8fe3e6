/**
 One cycle of the paper runtime as values: from heartbeat and claim to the terminal event
 (src/runtime/paper_runtime.py, src/runtime/canonical.py). The provider and the validation of its
 decision are an oracle: each cycle brings the reply it would get.
*/
module RuntimeModel {
  import opened Common
  import opened FundingModel
  import opened Venue
  import opened Exchange
  import opened ExchangeLaws
  import opened PaperVenue
  import opened Breakers
  import opened Ledger
  import opened Sizing

  datatype Policy = Policy(
    maxSnapshotAge: real, requestedRisk: real, quantityStep: real, minNotional: real, maxPositionNotional: real,
    maxTotalNotional: real, availableEquity: real, contractMultiplier: real)

  /** How a runtime is put together; without a heartbeat there is no largest gap. */
  datatype Setup = Setup(policy: Policy, exchange: Config, maxGap: Option<int>, guarded: bool)

  datatype Snapshot = Snapshot(symbol: string, observedMs: int, sourceMs: int, hash: string, computedHash: string)

  datatype Decision = Decision(
    action: string, symbol: string, side: Side, entry: real, stop: real, target: real, maxNotional: real)

  datatype ProviderReply =
    | Failed(code: string)
    | Malformed(why: string, circuitOpen: bool)
    | Decided(decision: Decision, approved: bool, verdict: string)

  /** One call: the snapshot, the clocks, the host sample, what the provider will say, and whether to attach protection. */
  datatype Cycle = Cycle(
    snapshot: Snapshot, nowMs: int, beatMs: int, sample: Result<seq<string>>, reply: ProviderReply, protect: bool)
  {
    function Id(): string { if snapshot.hash != "" then snapshot.hash else snapshot.computedHash }

    /** Snapshots name a symbol, and a digest is never empty. */
    predicate Valid() { snapshot.symbol != "" && snapshot.computedHash != "" }
  }

  /** Claimed cycles with their terminal status, the log, the exchange, and the monitors. */
  datatype World = World(cycles: map<string, Option<string>>, log: seq<Event>, book: Book, live: Liveness, guard: Guard)

  datatype Status = Status(name: string, reason: string)

  datatype Step = Step(world: World, result: Result<string>)

  // ---- Freshness -------------------------------------------------------------------------------

  const MAX_CLOCK_SKEW := 30.0

  /**
   Data that may be acted on: observed not in the future and at most that many seconds ago, by a clock within
   half a minute of its source, and unaltered since.
  */
  predicate UpToDate(s: Snapshot, nowMs: int, maxAge: real) {
    && 0.0 <= (nowMs - s.observedMs) as real <= 1000.0 * maxAge
    && -30000 <= s.observedMs - s.sourceMs <= 30000
    && s.hash != "" && s.hash == s.computedHash
  }

  /** Why a snapshot may not be acted on; None exactly when it may. */
  function Staleness(s: Snapshot, nowMs: int, maxAge: real): (why: Option<string>)
    ensures why.None? <==> UpToDate(s, nowMs, maxAge)
  {
    if nowMs < s.observedMs then Some("LOCAL_CLOCK_BEFORE_OBSERVATION")
    else if (nowMs - s.observedMs) as real / 1000.0 > maxAge then Some("STALE_MARKET_DATA")
    else if Abs((s.observedMs - s.sourceMs) as real) / 1000.0 > MAX_CLOCK_SKEW then Some("SOURCE_CLOCK_SKEW")
    else if s.hash == "" || s.hash != s.computedHash then Some("SNAPSHOT_HASH_INVALID")
    else None
  }

  // ---- Events ----------------------------------------------------------------------------------

  function EventOf(mode: string, x: Cycle, kind: Kind, p: Payload): Event {
    Event(kind, x.Id(), x.Id(), mode, "SUSDT-FUTURES", x.snapshot.symbol, MaxInt(1, x.nowMs), 1, p.(cycleId := Some(x.Id())))
  }

  function TerminalOf(mode: string, x: Cycle, s: Status): Event {
    EventOf(mode, x, CYCLE_TERMINAL,
            NO_PAYLOAD.(disposition := Some(s.name), reason := if s.reason == "" then None else Some(s.reason)))
  }

  function ObservedOf(mode: string, x: Cycle): Event {
    EventOf(mode, x, MARKET_OBSERVED, NO_PAYLOAD.(symbol := Some(x.snapshot.symbol)))
  }

  function FillOf(x: Cycle, id: string, d: Decision, f: Fill): Event {
    EventOf("paper", x, FILL_OBSERVED,
            NO_PAYLOAD.(orderId := Some(id), symbol := Some(d.symbol), side := Some(d.side), quantity := Some(f.quantity),
                        price := Some(f.price), fee := Some(f.fee)))
  }

  /** Orders are named after the first 24 characters of their cycle. */
  function OrderName(cycleId: string): string {
    "paper-" + if |cycleId| <= 24 then cycleId else cycleId[..24]
  }

  // ---- Entering a position ---------------------------------------------------------------------

  ghost function SizeRequest(p: Policy, c: Config, b: Book, d: Decision): Request {
    Request(d.side, d.entry, d.stop, p.requestedRisk, Max(p.minNotional, c.venue.minimumNotional),
            Min(p.maxPositionNotional, d.maxNotional), Max(p.quantityStep, c.venue.quantityStep), p.contractMultiplier,
            Some(p.availableEquity), Sum(EntryNotional(c.venue.contractMultiplier), b.positions),
            Some(p.maxTotalNotional), None)
  }

  /** What the runtime concludes about the protection of the position it just opened. */
  function ProtectionVerdict(p: Position): (bool, string) {
    if p.symbol == "" then (false, "NO_SYMBOL")
    else if p.quantity <= 0.0 then (false, "NO_OPEN_POSITION")
    else if p.stopLoss.None? then (false, "STOP_LOSS_MISSING")
    else if p.takeProfit.None? then (false, "TAKE_PROFIT_MISSING")
    else (true, "PROTECTED")
  }

  /** What follows the claim: the events it logs before the terminal one, the exchange after it, and how it ends. */
  datatype Judgement = Judgement(events: seq<Event>, book: Book, result: Result<Status>)

  function Confirm(x: Cycle, d: Decision, b: Book): Judgement {
    if d.symbol !in b.positions then Judgement([], b, Err("KeyError"))
    else
      var p := if x.protect then b.positions[d.symbol].(stopLoss := Some(d.stop), takeProfit := Some(d.target))
               else b.positions[d.symbol];
      var (protected, why) := ProtectionVerdict(p);
      Judgement([EventOf("paper", x, if protected then PROTECTION_VERIFIED else PROTECTION_FAILED, NO_PAYLOAD.(status := Some(why))),
                 EventOf("paper", x, POSITION_RECONCILED, NO_PAYLOAD.(inSync := Some(true)))],
                b.(positions := b.positions[d.symbol := p]),
                Ok(Status(if protected then "EXECUTED" else "DEGRADED", "")))
  }

  function Ordering(x: Cycle, d: Decision, f: Fill): seq<Event> {
    var id := OrderName(x.Id());
    [EventOf("paper", x, INTENT_APPROVED, NO_PAYLOAD.(orderId := Some(id))),
     EventOf("paper", x, ORDER_SUBMITTED, NO_PAYLOAD.(orderId := Some(id))),
     FillOf(x, id, d, f)]
  }

  ghost function Enter(u: Setup, b: Book, x: Cycle, d: Decision): Judgement
    requires u.exchange.Valid() && PositivePositions(b.positions)
  {
    var size := SizeForRisk(SizeRequest(u.policy, u.exchange, b, d));
    if size.Err? then Judgement([], b, Err(size.error))
    else
      var (b', fill) := Placed(u.exchange, b, OrderName(x.Id()), d.symbol, d.side, size.value.quantity);
      if fill.Err? then Judgement([], b', Err(fill.error))
      else
        var done := Confirm(x, d, b');
        done.(events := Ordering(x, d, fill.value) + done.events)
  }

  predicate Approves(r: ProviderReply) { r.Decided? && r.approved && r.decision.action == "ENTER" }

  /** The gates between a claim and an order, in the order the runtime checks them. */
  ghost function Judge(u: Setup, b: Book, open: Open, x: Cycle): Judgement
    requires u.exchange.Valid() && PositivePositions(b.positions)
  {
    var stale := Staleness(x.snapshot, x.nowMs, u.policy.maxSnapshotAge);
    var context := [EventOf("paper", x, AGENT_CONTEXT_BUILT, NO_PAYLOAD)];
    if open != map[] then Judgement([], b, Ok(Status("PARKED", "BREAKER_OPEN")))
    else if stale.Some? then Judgement([], b, Ok(Status("PARKED", stale.value)))
    else
      match x.reply
      case Failed(code) =>
        Judgement(context, b, Ok(Status(if code == "PROVIDER_CIRCUIT_OPEN" then "PARKED_PROVIDER" else "NO_DECISION", code)))
      case Malformed(why, circuitOpen) =>
        Judgement(context, b, Ok(Status(if circuitOpen then "PARKED_PROVIDER" else "NO_DECISION", "DECISION_PARSE:" + why)))
      case Decided(d, approved, verdict) =>
        var heard := context + [DecisionOf(x, d)];
        if !approved then Judgement(heard, b, Ok(Status(if verdict == "HOLD" then "HELD" else "REJECTED", verdict)))
        else if d.action != "ENTER" then Judgement(heard, b, Ok(Status("HELD", d.action)))
        else
          var entered := Enter(u, b, x, d);
          entered.(events := heard + entered.events)
  }

  function DecisionOf(x: Cycle, d: Decision): Event {
    EventOf("paper", x, AGENT_DECISION, NO_PAYLOAD.(symbol := Some(d.symbol), side := Some(d.side), action := Some(d.action)))
  }

  // ---- The whole cycle -------------------------------------------------------------------------

  /** Both monitors look once: a stall or pressure opens its breaker, recovery closes the monitor's own. */
  function Evaluated(u: Setup, w: World, now: int, sample: Result<seq<string>>): (w': World)
    ensures w' == w.(live := w'.live, guard := w'.guard)
  {
    var live := if u.maxGap.Some? then Ticked(u.maxGap.value, w.live, now) else w.live;
    if !u.guarded then w.(live := live)
    else
      var (guard, open) := Guarded(w.guard, live.open, sample);
      w.(live := live.(open := open), guard := guard)
  }

  /** The beat that opens every cycle, then the monitors' own evaluation at the same instant. */
  function Watched(u: Setup, w: World, x: Cycle): (r: Result<World>)
    ensures r.Ok? ==> r.value == w.(live := r.value.live, guard := r.value.guard)
  {
    var beaten := if u.maxGap.Some? then Beaten(w.live, x.beatMs) else Ok(w.live);
    if beaten.Err? then Err(beaten.error) else Ok(Evaluated(u, w.(live := beaten.value), x.beatMs, x.sample))
  }

  /** The terminal event of a judgement that did not raise. */
  function Ending(x: Cycle, r: Result<Status>): seq<Event> { if r.Ok? then [TerminalOf("paper", x, r.value)] else [] }

  ghost function Process(u: Setup, w: World, x: Cycle): Step
    requires u.exchange.Valid() && PositivePositions(w.book.positions)
  {
    var watched := Watched(u, w, x);
    if watched.Err? then Step(w, Err(watched.error))
    else if x.Id() in w.cycles then
      Step(watched.value.(log := w.log + [TerminalOf("paper", x, Status("SKIPPED", "DUPLICATE_CYCLE"))]), Ok("SKIPPED"))
    else
      var j := Judge(u, w.book, watched.value.live.open, x);
      Step(World(w.cycles[x.Id() := if j.result.Ok? then Some(j.result.value.name) else None],
                 w.log + [ObservedOf("paper", x)] + j.events + Ending(x, j.result), j.book, watched.value.live, watched.value.guard),
           if j.result.Ok? then Ok(j.result.value.name) else Err(j.result.error))
  }

  /** The canonical entry point answers a cycle that already ended without touching anything. */
  ghost function Offer(u: Setup, w: World, x: Cycle): Step
    requires u.exchange.Valid() && PositivePositions(w.book.positions)
  {
    if x.Id() in w.cycles && w.cycles[x.Id()].Some? then Step(w, Ok("SKIPPED")) else Process(u, w, x)
  }

  /** A cycle observed from a fixture: claimed, logged and closed, without an order. */
  function Shadow(w: World, x: Cycle): Step {
    if x.Id() in w.cycles then Step(w, Ok("SKIPPED"))
    else
      Step(w.(cycles := w.cycles[x.Id() := Some("SHADOW_ONLY")],
              log := w.log + [ObservedOf("fixture-shadow", x),
                              EventOf("fixture-shadow", x, SHADOW_TICK_OBSERVED, NO_PAYLOAD.(symbol := Some(x.snapshot.symbol))),
                              TerminalOf("fixture-shadow", x, Status("SHADOW_ONLY", ""))]),
           Ok("SHADOW_ONLY"))
  }
}
