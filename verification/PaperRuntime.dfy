/**
 The paper runtime and its canonical entry point, updating the ledger, the exchange and the breakers in
 place; every call is proved to do what the cycle functions say.
*/
module PaperRuntime {
  import opened Common
  import opened Exchange
  import opened PaperVenue
  import opened Breakers
  import opened Ledger
  import opened RuntimeModel
  import opened RuntimeLaws
  import Sizing

  ghost function EventsOf(rows: seq<Row>): seq<Event> { seq(|rows|, i requires 0 <= i < |rows| => rows[i].event) }

  const NO_BEAT := Liveness(None, false, map[])

  const NO_GUARD := Guard(false, [], false)

  class AutonomousPaperRuntime {
    const policy: Policy
    const ledger: EventLedger
    const exchange: FakeExchange
    const breakers: BreakerRegistry?
    const heartbeat: HeartbeatMonitor?
    const resources: ResourceMonitor?

    /** The monitors are attached to the registry the runtime checks. */
    ghost predicate Valid()
      reads this, ledger, exchange, heartbeat, resources
    {
      && exchange.Valid()
      && (heartbeat != null ==> breakers != null && heartbeat.registry == breakers)
      && (resources != null ==> breakers != null && resources.registry == breakers)
    }

    ghost function View(): World
      reads this, ledger, exchange, heartbeat, resources, breakers
    {
      World(ledger.cycles, EventsOf(ledger.rows), exchange.View(),
            Liveness(if heartbeat == null then None else heartbeat.lastBeatMs, heartbeat != null && heartbeat.trippedByMonitor,
                     if breakers == null then map[] else breakers.open),
            if resources == null then NO_GUARD else resources.View())
    }

    ghost function Made(): Setup
      reads this
    {
      Setup(policy, exchange.config, if heartbeat == null then None else Some(heartbeat.maxGapMs), resources != null)
    }

    constructor (policy: Policy, ledger: EventLedger, exchange: FakeExchange, breakers: BreakerRegistry?,
                 heartbeat: HeartbeatMonitor?, resources: ResourceMonitor?)
      requires exchange.Valid()
      requires heartbeat != null ==> breakers != null && heartbeat.registry == breakers
      requires resources != null ==> breakers != null && resources.registry == breakers
      ensures Valid() && this.policy == policy && this.ledger == ledger && this.exchange == exchange
      ensures this.breakers == breakers && this.heartbeat == heartbeat && this.resources == resources
    {
      this.policy, this.ledger, this.exchange, this.breakers := policy, ledger, exchange, breakers;
      this.heartbeat, this.resources := heartbeat, resources;
    }

    method Append(event: Event)
      requires WellFormed(event)
      modifies ledger`rows
      ensures EventsOf(ledger.rows) == old(EventsOf(ledger.rows)) + [event]
    {
      var _ := ledger.AppendEvent(event);
    }

    /** Log the end of a cycle and set its status. */
    method End(x: Cycle, status: Status)
      requires x.Valid() && x.Id() in ledger.cycles
      modifies ledger`rows, ledger`cycles
      ensures EventsOf(ledger.rows) == old(EventsOf(ledger.rows)) + [TerminalOf("paper", x, status)]
      ensures ledger.cycles == old(ledger.cycles)[x.Id() := Some(status.name)]
    {
      Append(TerminalOf("paper", x, status));
      ledger.SetTerminal(x.Id(), status.name);
    }

    /** Record that a cycle is running, then trip or clear the breakers from the monitors. */
    method BeatAndEvaluate(x: Cycle) returns (result: Result<()>)
      requires Valid()
      modifies heartbeat, resources, breakers
      ensures Valid()
      ensures var r := Watched(Made(), old(View()), x);
              && result.Ok? == r.Ok? && (r.Err? ==> result == Err(r.error))
              && View() == if r.Ok? then r.value else old(View())
    {
      if heartbeat != null {
        result := heartbeat.Beat(x.beatMs);
        if result.Err? {
          return;
        }
      }
      EvaluateMonitors(x.beatMs, x.sample);
      return Ok(());
    }

    /** What a timer calls between cycles. */
    method EvaluateMonitors(now: int, sample: Result<seq<string>>)
      requires Valid()
      modifies heartbeat, resources, breakers
      ensures Valid() && View() == Evaluated(Made(), old(View()), now, sample)
    {
      if heartbeat != null {
        var _ := heartbeat.Tick(now);
      }
      if resources != null {
        resources.Tick(sample);
      }
    }

    method Enter(x: Cycle, d: Decision) returns (result: Result<Status>)
      requires Valid() && x.Valid()
      modifies ledger`rows, exchange
      ensures Valid()
      ensures var j := RuntimeModel.Enter(Made(), old(exchange.View()), x, d);
              EventsOf(ledger.rows) == old(EventsOf(ledger.rows)) + j.events && exchange.View() == j.book && result == j.result
    {
      hide RuntimeModel.Confirm, Placed, EventsOf, EventOf, OrderName, Sizing.SizeForRisk, Fillable;
      var gross := exchange.GrossEntryNotional();
      var venue := exchange.config.venue;
      var size := Sizing.SizeForRisk(Sizing.Request(
        d.side, d.entry, d.stop, policy.requestedRisk, Max(policy.minNotional, venue.minimumNotional),
        Min(policy.maxPositionNotional, d.maxNotional), Max(policy.quantityStep, venue.quantityStep), policy.contractMultiplier,
        Some(policy.availableEquity), gross, Some(policy.maxTotalNotional), None));
      if size.Err? {
        return Err(size.error);
      }
      var id := OrderName(x.Id());
      var fill := exchange.PlaceOrder(id, d.symbol, d.side, size.value.quantity, d.entry);
      if fill.Err? {
        return Err(fill.error);
      }
      AppendStep(x, INTENT_APPROVED, NO_PAYLOAD.(orderId := Some(id)));
      AppendStep(x, ORDER_SUBMITTED, NO_PAYLOAD.(orderId := Some(id)));
      AppendStep(x, FILL_OBSERVED,
                 NO_PAYLOAD.(orderId := Some(id), symbol := Some(d.symbol), side := Some(d.side), quantity := Some(fill.value.quantity),
                             price := Some(fill.value.price), fee := Some(fill.value.fee)));
      result := Confirm(x, d);
    }

    method Confirm(x: Cycle, d: Decision) returns (result: Result<Status>)
      requires Valid() && x.Valid()
      modifies ledger`rows, exchange`positions
      ensures Valid()
      ensures var j := RuntimeModel.Confirm(x, d, old(exchange.View()));
              EventsOf(ledger.rows) == old(EventsOf(ledger.rows)) + j.events && exchange.View() == j.book && result == j.result
    {
      hide ProtectionVerdict, EventsOf, EventOf, Fillable;
      if x.protect {
        var attached := exchange.AttachProtection(d.symbol, Some(d.stop), Some(d.target));
        if attached.Err? {
          return Err(attached.error);
        }
      }
      if d.symbol !in exchange.positions {
        return Err("KeyError");
      }
      var position := exchange.positions[d.symbol];
      var (protected, why) := ProtectionVerdict(position);
      AppendStep(x, if protected then PROTECTION_VERIFIED else PROTECTION_FAILED, NO_PAYLOAD.(status := Some(why)));
      AppendStep(x, POSITION_RECONCILED, NO_PAYLOAD.(inSync := Some(true)));
      return Ok(Status(if protected then "EXECUTED" else "DEGRADED", ""));
    }

    /** The gates of a claimed cycle, in order: breakers, freshness, provider, verdict, entry. */
    method Judge(x: Cycle) returns (result: Result<Status>)
      requires Valid() && x.Valid()
      modifies ledger`rows, exchange
      ensures Valid()
      ensures var j := RuntimeModel.Judge(Made(), old(exchange.View()), old(View()).live.open, x);
              EventsOf(ledger.rows) == old(EventsOf(ledger.rows)) + j.events && exchange.View() == j.book && result == j.result
    {
      hide RuntimeModel.Enter, EventsOf, Fillable, EventOf;
      if breakers != null && breakers.EntriesParked() {
        return Ok(Status("PARKED", "BREAKER_OPEN"));
      }
      var stale := Staleness(x.snapshot, x.nowMs, policy.maxSnapshotAge);
      if stale.Some? {
        return Ok(Status("PARKED", stale.value));
      }
      AppendStep(x, AGENT_CONTEXT_BUILT, NO_PAYLOAD);
      match x.reply {
        case Failed(code) =>
          return Ok(Status(if code == "PROVIDER_CIRCUIT_OPEN" then "PARKED_PROVIDER" else "NO_DECISION", code));
        case Malformed(why, circuitOpen) =>
          return Ok(Status(if circuitOpen then "PARKED_PROVIDER" else "NO_DECISION", "DECISION_PARSE:" + why));
        case Decided(d, approved, verdict) =>
          AppendStep(x, AGENT_DECISION, NO_PAYLOAD.(symbol := Some(d.symbol), side := Some(d.side), action := Some(d.action)));
          if !approved {
            return Ok(Status(if verdict == "HOLD" then "HELD" else "REJECTED", verdict));
          }
          if d.action != "ENTER" {
            return Ok(Status("HELD", d.action));
          }
          result := Enter(x, d);
      }
    }

    method AppendStep(x: Cycle, kind: Kind, p: Payload)
      requires x.Valid() && !kind.OTHER?
      modifies ledger`rows
      ensures EventsOf(ledger.rows) == old(EventsOf(ledger.rows)) + [EventOf("paper", x, kind, p)]
    {
      Append(EventOf("paper", x, kind, p));
    }

    /** Log a cycle that somebody claimed before. */
    method Skip(x: Cycle)
      requires x.Valid()
      modifies ledger`rows
      ensures EventsOf(ledger.rows) == old(EventsOf(ledger.rows)) + [TerminalOf("paper", x, Status("SKIPPED", "DUPLICATE_CYCLE"))]
    {
      Append(TerminalOf("paper", x, Status("SKIPPED", "DUPLICATE_CYCLE")));
    }

    /** One cycle: beat, claim, observe, judge, and end unless something raised. */
    method Process(x: Cycle) returns (result: Result<string>)
      requires Valid() && x.Valid()
      modifies ledger`rows, ledger`cycles, exchange, heartbeat, resources, breakers
      ensures Valid() && Step(View(), result) == RuntimeModel.Process(Made(), old(View()), x)
    {
      hide RuntimeModel.Judge, EventsOf, PositivePositions, OpenOrders, ObservedOf, TerminalOf, Ending, Watched, FakeExchange.View;
      var beaten := BeatAndEvaluate(x);
      if beaten.Err? {
        return Err(beaten.error);
      }
      ghost var before := View();
      var claimed := ledger.ClaimCycle(x.Id());
      if !claimed.value {
        Skip(x);
        return Ok("SKIPPED");
      }
      result := Proceed(x);
    }

    /** A claimed cycle: observe, judge, and end unless something raised. */
    method Proceed(x: Cycle) returns (result: Result<string>)
      requires Valid() && x.Valid() && x.Id() in ledger.cycles && ledger.cycles[x.Id()].None?
      modifies ledger`rows, ledger`cycles, exchange
      ensures Valid()
      ensures var j := RuntimeModel.Judge(Made(), old(exchange.View()), old(View()).live.open, x);
              && EventsOf(ledger.rows) == old(EventsOf(ledger.rows)) + [ObservedOf("paper", x)] + j.events + Ending(x, j.result)
              && ledger.cycles == old(ledger.cycles)[x.Id() := if j.result.Ok? then Some(j.result.value.name) else None]
              && exchange.View() == j.book
              && result == if j.result.Ok? then Ok(j.result.value.name) else Err(j.result.error)
    {
      hide RuntimeModel.Judge, EventsOf, PositivePositions, OpenOrders, EventOf;
      AppendStep(x, MARKET_OBSERVED, NO_PAYLOAD.(symbol := Some(x.snapshot.symbol)));
      var judged := Judge(x);
      if judged.Err? {
        return Err(judged.error);
      }
      End(x, judged.value);
      return Ok(judged.value.name);
    }
  }

  /** The single entry point for offline runs: paper cycles, or fixture observations that place no orders. */
  class CanonicalOfflineRuntime {
    const mode: string
    const ledger: EventLedger
    const paperRuntime: AutonomousPaperRuntime?

    ghost predicate Valid()
      reads this, paperRuntime, if paperRuntime == null then {} else {paperRuntime.ledger, paperRuntime.exchange, paperRuntime.heartbeat, paperRuntime.resources}
    {
      && (mode == "paper" ==> paperRuntime != null)
      && (paperRuntime != null ==> paperRuntime.Valid() && paperRuntime.ledger == ledger)
    }

    constructor Paper(paperRuntime: AutonomousPaperRuntime)
      requires paperRuntime.Valid()
      ensures Valid() && mode == "paper" && this.paperRuntime == paperRuntime && ledger == paperRuntime.ledger
    {
      this.mode, this.ledger, this.paperRuntime := "paper", paperRuntime.ledger, paperRuntime;
    }

    constructor FixtureShadow(ledger: EventLedger)
      ensures Valid() && mode == "fixture-shadow" && paperRuntime == null && this.ledger == ledger
    {
      this.mode, this.ledger, this.paperRuntime := "fixture-shadow", ledger, null;
    }

    method Process(x: Cycle) returns (result: Result<string>)
      requires Valid() && x.Valid()
      modifies ledger`rows, ledger`cycles
      modifies if paperRuntime == null then {} else {paperRuntime.exchange, paperRuntime.heartbeat, paperRuntime.resources, paperRuntime.breakers}
      ensures Valid()
      ensures mode == "paper" ==> Step(paperRuntime.View(), result) == Offer(paperRuntime.Made(), old(paperRuntime.View()), x)
      ensures mode == "fixture-shadow" ==>
                var w := World(old(ledger.cycles), old(EventsOf(ledger.rows)), EMPTY_BOOK, NO_BEAT, NO_GUARD);
                Step(World(ledger.cycles, EventsOf(ledger.rows), EMPTY_BOOK, NO_BEAT, NO_GUARD), result) == Shadow(w, x)
    {
      if ledger.CycleStatus(x.Id()).Some? {
        return Ok("SKIPPED");
      }
      if mode == "paper" {
        result := paperRuntime.Process(x);
        return;
      }
      if mode != "fixture-shadow" {
        return Err("unsupported offline mode");
      }
      result := Observe(x);
    }

    method Observe(x: Cycle) returns (result: Result<string>)
      requires x.Valid()
      modifies ledger`rows, ledger`cycles
      ensures var w := World(old(ledger.cycles), old(EventsOf(ledger.rows)), EMPTY_BOOK, NO_BEAT, NO_GUARD);
              Step(World(ledger.cycles, EventsOf(ledger.rows), EMPTY_BOOK, NO_BEAT, NO_GUARD), result) == Shadow(w, x)
    {
      hide EventsOf, EventOf;
      var claimed := ledger.ClaimCycle(x.Id());
      if !claimed.value {
        return Ok("SKIPPED");
      }
      Note(x, MARKET_OBSERVED, NO_PAYLOAD.(symbol := Some(x.snapshot.symbol)));
      Note(x, SHADOW_TICK_OBSERVED, NO_PAYLOAD.(symbol := Some(x.snapshot.symbol)));
      Note(x, CYCLE_TERMINAL, NO_PAYLOAD.(disposition := Some("SHADOW_ONLY")));
      ledger.SetTerminal(x.Id(), "SHADOW_ONLY");
      return Ok("SHADOW_ONLY");
    }

    method Note(x: Cycle, kind: Kind, p: Payload)
      requires x.Valid() && !kind.OTHER?
      modifies ledger`rows
      ensures EventsOf(ledger.rows) == old(EventsOf(ledger.rows)) + [EventOf("fixture-shadow", x, kind, p)]
    {
      var _ := ledger.AppendEvent(EventOf("fixture-shadow", x, kind, p));
    }
  }
}
