/**
 Entry circuit breakers and the monitors that open them (src/policy/breakers.py, src/runtime/heartbeat.py,
 src/runtime/resource_monitor.py).
*/
module Breakers {
  import opened Common

  const BREAKER_NAMES := ["provider", "market_data", "rate_limit", "reconciliation",
                          "protection", "daily_loss", "drawdown", "heartbeat", "resource"]

  datatype Reason = Text(text: string) | NoHeartbeat(gapMs: int, maxMs: int) | Pressure(violations: seq<string>)

  type Open = map<string, Reason>

  function Tripped(open: Open, name: string, reason: Reason): Result<Open> {
    if name !in BREAKER_NAMES then Err("unknown breaker") else Ok(open[name := reason])
  }

  predicate MayClear(actor: string) { actor == "operator" || actor == "auto_recovery" }

  function Cleared(open: Open, name: string, actor: string): Result<Open> {
    if name !in BREAKER_NAMES then Err("unknown breaker")
    else if !MayClear(actor) then Err("only operator or verified auto-recovery may clear breakers")
    else Ok(open - {name})
  }

  class BreakerRegistry {
    var open: Open

    /** The registry starts from whatever its store had saved. */
    constructor (saved: Open)
      ensures open == saved
    {
      open := saved;
    }

    method Trip(name: string, reason: Reason) returns (result: Result<()>)
      modifies this
      ensures result.Ok? <==> name in BREAKER_NAMES
      ensures open == if result.Ok? then old(open)[name := reason] else old(open)
      ensures var r := Tripped(old(open), name, reason);
              result.Ok? == r.Ok? && (r.Ok? ==> open == r.value) && (r.Err? ==> result == Err(r.error))
    {
      if name !in BREAKER_NAMES {
        return Err("unknown breaker");
      }
      open := open[name := reason];
      return Ok(());
    }

    method Clear(name: string, actor: string) returns (result: Result<()>)
      modifies this
      ensures result.Ok? <==> name in BREAKER_NAMES && (actor == "operator" || actor == "auto_recovery")
      ensures open == if result.Ok? then old(open) - {name} else old(open)
      ensures var r := Cleared(old(open), name, actor);
              result.Ok? == r.Ok? && (r.Ok? ==> open == r.value) && (r.Err? ==> result == Err(r.error))
    {
      if name !in BREAKER_NAMES {
        return Err("unknown breaker");
      }
      if actor != "operator" && actor != "auto_recovery" {
        return Err("only operator or verified auto-recovery may clear breakers");
      }
      open := open - {name};
      return Ok(());
    }

    predicate EntriesParked()
      reads this
    {
      open != map[]
    }
  }

  // ---- The heartbeat ---------------------------------------------------------------------------

  datatype Pulse = UNKNOWN | HEALTHY | STALLED

  const HEARTBEAT := "heartbeat"

  /** What the monitor remembers and the breakers it is wired to. */
  datatype Liveness = Liveness(lastBeat: Option<int>, ownTrip: bool, open: Open)

  function StatusAt(maxGap: int, lastBeat: Option<int>, now: int): Pulse {
    if lastBeat.None? then UNKNOWN
    else if now - lastBeat.value > maxGap then STALLED
    else HEALTHY
  }

  function Beaten(s: Liveness, now: int): Result<Liveness> {
    if s.lastBeat.Some? && now < s.lastBeat.value then Err("heartbeat timestamp regressed")
    else if s.ownTrip && HEARTBEAT in s.open then Ok(Liveness(Some(now), false, s.open - {HEARTBEAT}))
    else Ok(s.(lastBeat := Some(now)))
  }

  function Ticked(maxGap: int, s: Liveness, now: int): Liveness {
    match StatusAt(maxGap, s.lastBeat, now)
    case UNKNOWN => s
    case STALLED =>
      if HEARTBEAT in s.open then s
      else s.(open := s.open[HEARTBEAT := NoHeartbeat(now - s.lastBeat.value, maxGap)], ownTrip := true)
    case HEALTHY =>
      if s.ownTrip then s.(open := s.open - {HEARTBEAT}, ownTrip := false) else s
  }

  /** After an evaluation the breaker is open on a stall; on a healthy pulse it is what somebody else opened; unheard, it stays. */
  lemma TickDecides(maxGap: int, s: Liveness, now: int)
    ensures var s' := Ticked(maxGap, s, now);
            && (HEARTBEAT in s'.open <==>
                  if s.lastBeat.None? then HEARTBEAT in s.open
                  else if now > s.lastBeat.value + maxGap then true
                  else HEARTBEAT in s.open && !s.ownTrip)
            && (HEARTBEAT in s'.open && HEARTBEAT !in s.open ==> s'.ownTrip && s'.open[HEARTBEAT] == NoHeartbeat(now - s.lastBeat.value, maxGap))
            && (HEARTBEAT in s.open && HEARTBEAT in s'.open ==> s'.open == s.open)
            && s'.open - {HEARTBEAT} == s.open - {HEARTBEAT} && s'.lastBeat == s.lastBeat
  {
  }

  /** A beat is refused only if it goes back in time; otherwise it is remembered and closes the monitor's own trip alone. */
  lemma BeatDecides(s: Liveness, now: int)
    ensures Beaten(s, now).Ok? <==> s.lastBeat.None? || s.lastBeat.value <= now
    ensures Beaten(s, now).Ok? ==>
              var s' := Beaten(s, now).value;
              && s'.lastBeat == Some(now) && (HEARTBEAT in s'.open <==> HEARTBEAT in s.open && !s.ownTrip)
              && (HEARTBEAT in s'.open ==> s'.open == s.open)
              && s'.open - {HEARTBEAT} == s.open - {HEARTBEAT}
  {
  }

  class HeartbeatMonitor {
    const maxGapMs: int
    var lastBeatMs: Option<int>
    var trippedByMonitor: bool
    var registry: BreakerRegistry?

    ghost function View(): Liveness
      requires registry != null
      reads this, registry
    {
      Liveness(lastBeatMs, trippedByMonitor, registry.open)
    }

    constructor (maxGapMs: int)
      requires maxGapMs > 0
      ensures this.maxGapMs == maxGapMs && lastBeatMs.None? && !trippedByMonitor && registry == null
    {
      this.maxGapMs := maxGapMs;
      lastBeatMs, trippedByMonitor, registry := None, false, null;
    }

    method Attach(registry: BreakerRegistry)
      modifies this`registry
      ensures this.registry == registry
    {
      this.registry := registry;
    }

    method Beat(now: int) returns (result: Result<()>)
      modifies this`lastBeatMs, this`trippedByMonitor, registry
      ensures registry == null ==>
                && trippedByMonitor == old(trippedByMonitor)
                && result.Ok? == (old(lastBeatMs).None? || old(lastBeatMs).value <= now)
                && lastBeatMs == if result.Ok? then Some(now) else old(lastBeatMs)
      ensures registry != null ==>
                var r := Beaten(old(View()), now);
                if r.Ok? then result.Ok? && View() == r.value else result == Err(r.error) && View() == old(View())
    {
      if lastBeatMs.Some? && now < lastBeatMs.value {
        return Err("heartbeat timestamp regressed");
      }
      lastBeatMs := Some(now);
      if registry != null && trippedByMonitor && HEARTBEAT in registry.open {
        var _ := registry.Clear(HEARTBEAT, "auto_recovery");
        trippedByMonitor := false;
      }
      return Ok(());
    }

    method Tick(now: int) returns (status: Pulse)
      modifies this`trippedByMonitor, registry
      ensures status == StatusAt(maxGapMs, lastBeatMs, now)
      ensures registry == null ==> trippedByMonitor == old(trippedByMonitor)
      ensures registry != null ==> View() == Ticked(maxGapMs, old(View()), now)
    {
      status := StatusAt(maxGapMs, lastBeatMs, now);
      if status == STALLED && registry != null {
        if HEARTBEAT !in registry.open {
          var _ := registry.Trip(HEARTBEAT, NoHeartbeat(now - lastBeatMs.value, maxGapMs));
          trippedByMonitor := true;
        }
      } else if status == HEALTHY && registry != null && trippedByMonitor {
        if HEARTBEAT in registry.open {
          var _ := registry.Clear(HEARTBEAT, "auto_recovery");
        }
        trippedByMonitor := false;
      }
    }
  }

  // ---- Host resources --------------------------------------------------------------------------

  const RESOURCE := "resource"

  /** What the resource monitor remembers: its last findings, and whether the breaker was its own doing. */
  datatype Guard = Guard(sampled: bool, violations: seq<string>, ownTrip: bool)

  /** What an observation of the host finds wrong; one that fails counts as pressure. */
  function Findings(sample: Result<seq<string>>): seq<string> {
    if sample.Ok? then sample.value else ["SNAPSHOT_ERROR"]
  }

  function Guarded(g: Guard, open: Open, sample: Result<seq<string>>): (Guard, Open) {
    var found := Findings(sample);
    if found == [] then (Guard(true, found, false), if g.ownTrip then open - {RESOURCE} else open)
    else if RESOURCE in open then (Guard(true, found, g.ownTrip), open)
    else (Guard(true, found, true), open[RESOURCE := Pressure(found)])
  }

  /** After a sample under pressure the breaker is open; a clean one closes only what the monitor itself opened. */
  lemma GuardFailsClosed(g: Guard, open: Open, sample: Result<seq<string>>)
    ensures var (g', open') := Guarded(g, open, sample);
            && (RESOURCE in open' <==> Findings(sample) != [] || (RESOURCE in open && !g.ownTrip))
            && (RESOURCE in open && Findings(sample) != [] ==> open' == open)
            && (RESOURCE !in open && Findings(sample) != [] ==> open' == open[RESOURCE := Pressure(Findings(sample))])
            && g' == Guard(true, Findings(sample), Findings(sample) != [] && (RESOURCE in open ==> g.ownTrip))
            && open' - {RESOURCE} == open - {RESOURCE}
  {
  }

  class ResourceMonitor {
    var sampled: bool
    var violations: seq<string>
    var trippedByMonitor: bool
    var registry: BreakerRegistry?

    ghost function View(): Guard
      reads this
    {
      Guard(sampled, violations, trippedByMonitor)
    }

    constructor ()
      ensures !sampled && violations == [] && !trippedByMonitor && registry == null
    {
      sampled, violations, trippedByMonitor, registry := false, [], false, null;
    }

    method Attach(registry: BreakerRegistry)
      modifies this`registry
      ensures this.registry == registry
    {
      this.registry := registry;
    }

    /** Observe once, then open the breaker under pressure or close what this monitor opened. */
    method Tick(sample: Result<seq<string>>)
      modifies this`sampled, this`violations, this`trippedByMonitor, registry
      ensures registry == null ==> View() == Guard(true, Findings(sample), old(trippedByMonitor))
      ensures registry != null ==> (View(), registry.open) == Guarded(old(View()), old(registry.open), sample)
    {
      sampled, violations := true, Findings(sample);
      if violations != [] && registry != null {
        if RESOURCE !in registry.open {
          var _ := registry.Trip(RESOURCE, Pressure(violations));
          trippedByMonitor := true;
        }
      } else if violations == [] && registry != null && trippedByMonitor {
        assert RESOURCE !in registry.open ==> registry.open - {RESOURCE} == registry.open;
        if RESOURCE in registry.open {
          var _ := registry.Clear(RESOURCE, "auto_recovery");
        }
        trippedByMonitor := false;
      }
    }
  }
}
