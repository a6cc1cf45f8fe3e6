/**
 The watchdog that ticks the heartbeat monitor on a timer, and what every interleaving of cycles,
 polls and operator actions does to the heartbeat breaker (src/runtime/monitor_watchdog.py).
*/
module Watchdog {
  import opened Common
  import opened Breakers

  predicate Due(lastTick: Option<int>, interval: int, now: int) {
    lastTick.None? || now - lastTick.value >= interval
  }

  class MonitorWatchdog {
    const monitor: HeartbeatMonitor
    const interval: int
    var running: bool
    var lastTick: Option<int>
    var tickCount: nat

    constructor (monitor: HeartbeatMonitor, interval: int)
      requires interval > 0
      ensures this.monitor == monitor && this.interval == interval
      ensures !running && lastTick.None? && tickCount == 0
    {
      this.monitor, this.interval := monitor, interval;
      running, lastTick, tickCount := false, None, 0;
    }

    method TickOnce(now: int)
      requires monitor.registry != null
      modifies this`lastTick, this`tickCount, monitor`trippedByMonitor, monitor.registry
      ensures monitor.View() == Ticked(monitor.maxGapMs, old(monitor.View()), now)
      ensures lastTick == Some(now) && tickCount == old(tickCount) + 1
    {
      var _ := monitor.Tick(now);
      lastTick := Some(now);
      tickCount := tickCount + 1;
    }

    /** The timer loop, one pass for each clock reading, until it is stopped. */
    method Run(clock: seq<int>)
      requires monitor.registry != null
      modifies this, monitor`trippedByMonitor, monitor.registry
      ensures (monitor.View(), lastTick)
           == Polled(monitor.maxGapMs, interval, old(monitor.View()), old(lastTick), clock)
      ensures tickCount == old(tickCount) + Ticks(interval, old(lastTick), clock)
      ensures !running
    {
      running := true;
      assert clock[..0] == [];
      for i := 0 to |clock|
        invariant monitor.registry == old(monitor.registry) && monitor.lastBeatMs == old(monitor.lastBeatMs)
        invariant (monitor.View(), lastTick)
               == Polled(monitor.maxGapMs, interval, old(monitor.View()), old(lastTick), clock[..i])
        invariant tickCount == old(tickCount) + Ticks(interval, old(lastTick), clock[..i])
      {
        assert clock[..i + 1][..i] == clock[..i];
        PolledTick(monitor.maxGapMs, interval, old(monitor.View()), old(lastTick), clock[..i]);
        if Due(lastTick, interval, clock[i]) {
          TickOnce(clock[i]);
        }
      }
      assert clock[..|clock|] == clock;
      running := false;
    }

    method Stop()
      modifies this`running
      ensures !running
    {
      running := false;
    }
  }

  /** The monitor and the last tick time after polling at each of the given instants. */
  function Polled(maxGap: int, interval: int, s: Liveness, lastTick: Option<int>, clock: seq<int>): (Liveness, Option<int>) {
    if |clock| == 0 then (s, lastTick)
    else
      var (s', last) := Polled(maxGap, interval, s, lastTick, clock[..|clock| - 1]);
      var now := clock[|clock| - 1];
      if Due(last, interval, now) then (Ticked(maxGap, s', now), Some(now)) else (s', last)
  }

  function LastTick(interval: int, lastTick: Option<int>, clock: seq<int>): Option<int> {
    if |clock| == 0 then lastTick
    else
      var last := LastTick(interval, lastTick, clock[..|clock| - 1]);
      if Due(last, interval, clock[|clock| - 1]) then Some(clock[|clock| - 1]) else last
  }

  function Ticks(interval: int, lastTick: Option<int>, clock: seq<int>): nat {
    if |clock| == 0 then 0
    else
      Ticks(interval, lastTick, clock[..|clock| - 1])
      + if Due(LastTick(interval, lastTick, clock[..|clock| - 1]), interval, clock[|clock| - 1]) then 1 else 0
  }

  lemma {:induction false} PolledTick(maxGap: int, interval: int, s: Liveness, lastTick: Option<int>, clock: seq<int>)
    ensures Polled(maxGap, interval, s, lastTick, clock).1 == LastTick(interval, lastTick, clock)
  {
    if |clock| > 0 {
      PolledTick(maxGap, interval, s, lastTick, clock[..|clock| - 1]);
    }
  }

  /** Ticks are at least an interval apart, and after each poll the last one is less than an interval old. */
  lemma {:induction false} TicksFitInSpan(interval: int, lastTick: int, clock: seq<int>)
    requires interval > 0
    ensures var last := LastTick(interval, Some(lastTick), clock);
            && last.Some? && Ticks(interval, Some(lastTick), clock) * interval <= last.value - lastTick
            && (|clock| > 0 ==> clock[|clock| - 1] - last.value < interval)
  {
    if |clock| > 0 {
      var before := clock[..|clock| - 1];
      TicksFitInSpan(interval, lastTick, before);
      var k := Ticks(interval, Some(lastTick), before);
      assert (k + 1) * interval == k * interval + interval;
    }
  }

  // ---- Every interleaving ----------------------------------------------------------------------

  /** The timing: largest healthy gap, tick interval, longest time between two polls. */
  datatype Timing = Timing(maxGap: int, interval: int, poll: int)
  {
    ghost predicate Valid() { maxGap > 0 && interval > 0 && poll >= 0 }
  }

  /** `lastPoll` and `lastClear` are history: the last poll, and the last time anyone cleared the heartbeat breaker. */
  datatype Daemon = Daemon(
    live: Liveness, now: int, lastTick: Option<int>, lastPoll: Option<int>, lastClear: Option<int>)

  datatype Action =
    | Advance(to: int)                        // time passes
    | Cycle                                   // the runtime beats, then evaluates its monitors
    | Tick                                    // some other driver evaluates the monitors
    | Poll                                    // one pass of the watchdog loop
    | Trip(name: string, reason: Reason)
    | Clear(name: string, actor: string)

  /** Time only moves forward, and never past the instant the next poll is owed. */
  predicate Timely(t: Timing, d: Daemon, a: Action) {
    a.Advance? ==> d.now <= a.to && (d.lastPoll.Some? ==> a.to <= d.lastPoll.value + t.poll)
  }

  function Next(t: Timing, d: Daemon, a: Action): Daemon {
    match a
    case Advance(to) => d.(now := to)
    case Cycle =>
      var r := Beaten(d.live, d.now);
      if r.Ok? then d.(live := Ticked(t.maxGap, r.value, d.now)) else d
    case Tick => d.(live := Ticked(t.maxGap, d.live, d.now))
    case Poll =>
      var (live, last) := Polled(t.maxGap, t.interval, d.live, d.lastTick, [d.now]);
      d.(live := live, lastTick := last, lastPoll := Some(d.now))
    case Trip(name, reason) =>
      var r := Tripped(d.live.open, name, reason);
      if r.Ok? then d.(live := d.live.(open := r.value)) else d
    case Clear(name, actor) =>
      var r := Cleared(d.live.open, name, actor);
      if r.Ok? then
        d.(live := d.live.(open := r.value), lastClear := if name == HEARTBEAT then Some(d.now) else d.lastClear)
      else d
  }

  ghost predicate Feasible(t: Timing, d: Daemon, actions: seq<Action>)
    decreases |actions|
  {
    |actions| == 0 || (Timely(t, d, actions[0]) && Feasible(t, Next(t, d, actions[0]), actions[1..]))
  }

  function Run(t: Timing, d: Daemon, actions: seq<Action>): Daemon
    decreases |actions|
  {
    if |actions| == 0 then d else Run(t, Next(t, d, actions[0]), actions[1..])
  }

  /** A process starts with breakers from its store and a monitor that has seen nothing. */
  function Started(open: Open, now: int): Daemon {
    Daemon(Liveness(None, false, open), now, None, None, None)
  }

  /** The last watchdog tick saw a stall, and nobody has cleared the heartbeat breaker since. */
  ghost predicate SawStall(t: Timing, d: Daemon) {
    && d.lastTick.Some? && d.live.lastBeat.Some?
    && d.lastTick.value - d.live.lastBeat.value > t.maxGap
    && (d.lastClear.Some? ==> d.lastClear.value < d.lastTick.value)
  }

  ghost predicate Watching(t: Timing, d: Daemon) {
    && (d.live.lastBeat.Some? ==> d.live.lastBeat.value <= d.now)
    && (d.lastTick.Some? ==> d.lastTick.value <= d.now)
    && (d.lastPoll.Some? <==> d.lastTick.Some?)
    && (d.lastPoll.Some? ==> d.lastPoll.value <= d.now <= d.lastPoll.value + t.poll
                             && d.lastPoll.value - d.lastTick.value < t.interval)
    && (SawStall(t, d) ==> HEARTBEAT in d.live.open)
  }

  lemma StepKeepsWatching(t: Timing, d: Daemon, a: Action)
    requires t.Valid() && Watching(t, d) && Timely(t, d, a)
    ensures Watching(t, Next(t, d, a))
  {
    if a.Poll? {
      assert [d.now][..0] == [];
      assert Polled(t.maxGap, t.interval, d.live, d.lastTick, []) == (d.live, d.lastTick);
    }
  }

  lemma {:induction false} WatchingHolds(t: Timing, d: Daemon, actions: seq<Action>)
    requires t.Valid() && Watching(t, d) && Feasible(t, d, actions)
    ensures Watching(t, Run(t, d, actions))
    decreases |actions|
  {
    if |actions| > 0 {
      StepKeepsWatching(t, d, actions[0]);
      WatchingHolds(t, Next(t, d, actions[0]), actions[1..]);
    }
  }

  /**
   Whatever happens in whatever order, the heartbeat breaker is open once the last beat is older than the
   largest gap plus one interval plus one poll, unless someone cleared it within that last interval and poll.
  */
  lemma StallIsDetected(t: Timing, open: Open, start: int, actions: seq<Action>)
    requires t.Valid() && Feasible(t, Started(open, start), actions)
    ensures var d := Run(t, Started(open, start), actions);
            && d.lastTick.Some? && d.live.lastBeat.Some?
            && d.now >= d.live.lastBeat.value + t.maxGap + t.interval + t.poll
            && (d.lastClear.Some? ==> d.now >= d.lastClear.value + t.interval + t.poll)
            ==> HEARTBEAT in d.live.open
  {
    WatchingHolds(t, Started(open, start), actions);
  }

  /**
   There is no false alarm: with nobody tripping it, the heartbeat breaker opens at an evaluation that finds the last
   beat more than the largest gap old, and at no other step; a poll evaluates exactly when its interval has passed.
  */
  lemma OpensIffStalled(t: Timing, d: Daemon, a: Action)
    requires t.Valid() && HEARTBEAT !in d.live.open && !(a.Trip? && a.name == HEARTBEAT)
    ensures HEARTBEAT in Next(t, d, a).live.open
            <==> && (a.Tick? || (a.Poll? && (d.lastTick.None? || d.now >= d.lastTick.value + t.interval)))
                 && d.live.lastBeat.Some? && d.now > d.live.lastBeat.value + t.maxGap
  {
    if a.Poll? {
      assert [d.now][..0] == [];
      assert Polled(t.maxGap, t.interval, d.live, d.lastTick, []) == (d.live, d.lastTick);
    }
  }

  // ---- Who may close a trip --------------------------------------------------------------------

  predicate ClearsHeartbeat(a: Action) { a.Clear? && a.name == HEARTBEAT && (a.actor == "operator" || a.actor == "auto_recovery") }

  /** A trip the monitor does not take for its own outlives every beat, tick and poll. */
  lemma {:induction false} OperatorTripSurvives(t: Timing, d: Daemon, actions: seq<Action>)
    requires HEARTBEAT in d.live.open && !d.live.ownTrip
    requires forall a :: a in actions ==> !ClearsHeartbeat(a)
    ensures var d' := Run(t, d, actions); HEARTBEAT in d'.live.open && !d'.live.ownTrip
    decreases |actions|
  {
    if |actions| > 0 {
      var d1 := Next(t, d, actions[0]);
      assert actions[0] in actions;
      if actions[0].Poll? {
        assert Polled(t.maxGap, t.interval, d.live, d.lastTick, []) == (d.live, d.lastTick);
      }
      OperatorTripSurvives(t, d1, actions[1..]);
    }
  }

  /** So a trip restored from the store at start-up outlives every beat, tick and poll until an allowed clear. */
  lemma StoredTripSurvives(t: Timing, open: Open, start: int, actions: seq<Action>)
    requires HEARTBEAT in open && forall a :: a in actions ==> !ClearsHeartbeat(a)
    ensures HEARTBEAT in Run(t, Started(open, start), actions).live.open
  {
    OperatorTripSurvives(t, Started(open, start), actions);
  }

  /** Only the own-trip flag decides: a cycle keeps an open breaker open exactly when the monitor does not own it. */
  lemma CycleKeepsTripIff(t: Timing, d: Daemon)
    requires t.Valid() && HEARTBEAT in d.live.open && Beaten(d.live, d.now).Ok?
    ensures HEARTBEAT in Next(t, d, Cycle).live.open <==> !d.live.ownTrip
    ensures !Next(t, d, Cycle).live.ownTrip
  {
  }

  /** So a stall the monitor tripped never parks the cycle that follows it: the cycle beats before it checks. */
  lemma StallNeverParksTheNextCycle(t: Timing, d: Daemon, later: int)
    requires t.Valid() && d.live.open == map[] && d.live.lastBeat.Some? && later > d.live.lastBeat.value + t.maxGap
    ensures var tripped := Next(t, d.(now := later), Tick);
            HEARTBEAT in tripped.live.open && Next(t, tripped, Cycle).live.open == map[]
  {
  }

  /**
   The flag outlives an operator's clear, so a trip the operator makes next is taken for the monitor's own
   and undone by the next beat.
  */
  lemma OperatorTripCanBeUndone(t: Timing, reason: Reason)
    requires t.Valid()
    ensures var d := Run(t, Started(map[], 0), [Cycle, Advance(t.maxGap + 1), Tick, Clear(HEARTBEAT, "operator"), Trip(HEARTBEAT, reason)]);
            HEARTBEAT in d.live.open && HEARTBEAT !in Next(t, d, Cycle).live.open
  {
    var d0 := Started(map[], 0);
    var d1 := Next(t, d0, Cycle);
    var d2 := Next(t, d1, Advance(t.maxGap + 1));
    var d3 := Next(t, d2, Tick);
    var d4 := Next(t, d3, Clear(HEARTBEAT, "operator"));
    var d5 := Next(t, d4, Trip(HEARTBEAT, reason));
    assert d5.live.ownTrip && HEARTBEAT in d5.live.open;
    assert Run(t, d5, []) == d5;
    assert Run(t, d4, [Trip(HEARTBEAT, reason)]) == d5;
    assert Run(t, d3, [Clear(HEARTBEAT, "operator"), Trip(HEARTBEAT, reason)]) == d5;
    assert Run(t, d2, [Tick, Clear(HEARTBEAT, "operator"), Trip(HEARTBEAT, reason)]) == d5;
    assert Run(t, d1, [Advance(t.maxGap + 1), Tick, Clear(HEARTBEAT, "operator"), Trip(HEARTBEAT, reason)]) == d5;
  }

  /** No other actor can clear a breaker: whatever it calls, everything that was open stays open. */
  lemma {:induction false} UnauthorisedClearNothing(t: Timing, d: Daemon, actions: seq<Action>, name: string)
    requires name in d.live.open && name != HEARTBEAT
    requires forall a :: a in actions ==> a.Clear? ==> a.name != name || a.actor !in {"operator", "auto_recovery"}
    ensures name in Run(t, d, actions).live.open
    decreases |actions|
  {
    if |actions| > 0 {
      assert actions[0] in actions;
      if actions[0].Poll? {
        assert Polled(t.maxGap, t.interval, d.live, d.lastTick, []) == (d.live, d.lastTick);
      }
      UnauthorisedClearNothing(t, Next(t, d, actions[0]), actions[1..], name);
    }
  }
}
