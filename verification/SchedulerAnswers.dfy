/**
 What the scheduler answers on every run, read off its history instead of its tables: when it takes a snapshot,
 when it starts one, and what it remembers as parked (src/runtime/scheduler.py).
*/
module SchedulerAnswers {
  import opened Scheduler

  // ---- The tables against the history ----------------------------------------------------------

  /** The last normal finish of a symbol. */
  ghost predicate LastFinish(log: seq<Mark>, symbol: string, i: nat) {
    && i < |log| && log[i].FinishOf? && log[i].symbol == symbol
    && forall j :: i < j < |log| && log[j].FinishOf? ==> log[j].symbol != symbol
  }

  /** A finish that parked its symbol. */
  predicate ParkedBy(m: Mark, symbol: string) {
    m.FinishOf? && m.symbol == symbol
    && (m.status == "PARKED_PROVIDER" || m.status == "PARKED" || m.status == "PARKED_KILL_SWITCH"
        || m.status == "PARKED_RECONCILIATION" || m.status == "PARKED_RISK")
  }

  ghost predicate LastParking(log: seq<Mark>, symbol: string, i: nat) {
    i < |log| && ParkedBy(log[i], symbol) && forall j :: i < j < |log| ==> !ParkedBy(log[j], symbol)
  }

  /** The last run and the parked status of a symbol are those of its last finish and its last parking. */
  ghost predicate Remembers(w: World, symbol: string) {
    && (forall i: nat :: LastFinish(w.log, symbol, i) ==> symbol in w.state.lastRun && w.state.lastRun[symbol] == w.log[i].at)
    && (symbol in w.state.lastRun ==> exists i: nat :: LastFinish(w.log, symbol, i))
    && (forall i: nat :: LastParking(w.log, symbol, i) ==> symbol in w.state.parked && w.state.parked[symbol] == w.log[i].status)
    && (symbol in w.state.parked ==> exists i: nat :: LastParking(w.log, symbol, i))
  }

  lemma FinishAppend(log: seq<Mark>, m: Mark, symbol: string, i: nat)
    ensures LastFinish(log + [m], symbol, i)
            <==> if m.FinishOf? && m.symbol == symbol then i == |log| else LastFinish(log, symbol, i)
  {
    var more := log + [m];
    if i < |log| {
      assert more[|log|] == m && forall j :: i <= j < |log| ==> more[j] == log[j];
    }
  }

  lemma ParkingAppend(log: seq<Mark>, m: Mark, symbol: string, i: nat)
    ensures LastParking(log + [m], symbol, i) <==> if ParkedBy(m, symbol) then i == |log| else LastParking(log, symbol, i)
  {
    hide ParkedBy;
    var more := log + [m];
    if i < |log| {
      assert more[|log|] == m && forall j :: i <= j < |log| ==> more[j] == log[j];
    }
  }

  lemma LastIsThere(log: seq<Mark>, symbol: string, i: nat)
    requires LastFinish(log, symbol, i) || LastParking(log, symbol, i)
    ensures i < |log|
  {
  }

  /** One more mark, with the tables a normal finish leaves. */
  lemma MarkRemembered(w: World, w': World, m: Mark, symbol: string)
    requires Remembers(w, symbol) && w'.log == w.log + [m]
    requires if m.FinishOf? then w'.state.lastRun == w.state.lastRun[m.symbol := m.at] else w'.state.lastRun == w.state.lastRun
    requires w'.state.parked == if ParkedBy(m, m.symbol) then w.state.parked[m.symbol := m.status] else w.state.parked
    ensures Remembers(w', symbol)
  {
    hide LastFinish, LastParking;
    forall i: nat
      ensures LastFinish(w'.log, symbol, i) <==> if m.FinishOf? && m.symbol == symbol then i == |w.log| else LastFinish(w.log, symbol, i)
      ensures LastParking(w'.log, symbol, i) <==> if ParkedBy(m, symbol) then i == |w.log| else LastParking(w.log, symbol, i)
      ensures LastFinish(w.log, symbol, i) || LastParking(w.log, symbol, i) ==> i < |w.log| && w'.log[i] == w.log[i] {
      if LastFinish(w.log, symbol, i) || LastParking(w.log, symbol, i) { LastIsThere(w.log, symbol, i); }
      FinishAppend(w.log, m, symbol, i);
      ParkingAppend(w.log, m, symbol, i);
    }
    if m.FinishOf? && m.symbol == symbol {
      assert LastFinish(w'.log, symbol, |w.log|);
    } else if symbol in w.state.lastRun {
      var i: nat :| LastFinish(w.log, symbol, i);
      assert LastFinish(w'.log, symbol, i);
    }
    if ParkedBy(m, symbol) {
      assert LastParking(w'.log, symbol, |w.log|);
    } else if symbol in w.state.parked {
      var i: nat :| LastParking(w.log, symbol, i);
      assert LastParking(w'.log, symbol, i);
    }
  }

  lemma StepRemembers(minInterval: real, w: World, a: Action, symbol: string)
    requires Remembers(w, symbol)
    ensures Remembers(Next(minInterval, w, a), symbol)
  {
    hide Remembers, Begun, Enqueued, Without;
    var w' := Next(minInterval, w, a);
    match a
    case Begin =>
      BegunKeepsTables(minInterval, w.state, w.now);
      var outcome := Begun(minInterval, w.state, w.now).1;
      if outcome.Started? {
        MarkRemembered(w, w', StartOf(outcome.snapshot.symbol, w.now), symbol);
      } else {
        SameRemembered(w, w', symbol);
      }
    case Finish(k, status) =>
      if k < |w.inFlight| {
        MarkRemembered(w, w', FinishOf(w.inFlight[k].symbol, w.now, status), symbol);
      }
    case Offer(x) =>
      EnqueuedKeepsTables(w.state, x);
      SameRemembered(w, w', symbol);
    case _ => SameRemembered(w, w', symbol);
  }

  lemma BegunKeepsTables(minInterval: real, s: State, now: real)
    ensures var s' := Begun(minInterval, s, now).0; s'.lastRun == s.lastRun && s'.parked == s.parked
  {
  }

  lemma EnqueuedKeepsTables(s: State, x: Snapshot)
    ensures var s' := Enqueued(s, x).0; s'.lastRun == s.lastRun && s'.parked == s.parked
  {
  }

  lemma SameRemembered(w: World, w': World, symbol: string)
    requires Remembers(w, symbol) && w'.log == w.log && w'.state.lastRun == w.state.lastRun && w'.state.parked == w.state.parked
    ensures Remembers(w', symbol)
  {
  }

  lemma {:induction false} RemembersOnEveryRun(minInterval: real, actions: seq<Action>, symbol: string)
    ensures Remembers(Run(minInterval, actions), symbol)
  {
    hide Next, Remembers;
    if |actions| == 0 {
      NothingRemembered(symbol);
    } else {
      RemembersOnEveryRun(minInterval, actions[..|actions| - 1], symbol);
      StepRemembers(minInterval, Run(minInterval, actions[..|actions| - 1]), actions[|actions| - 1], symbol);
    }
  }

  lemma NothingRemembered(symbol: string)
    ensures Remembers(FRESH, symbol)
  {
  }

  // ---- What it answers ----------------------------------------------------------------------------

  ghost predicate InFlight(w: World, symbol: string) { exists x :: x in w.inFlight && x.symbol == symbol }

  /** Some run of the symbol finished less than the minimum interval ago. */
  ghost predicate Recent(minInterval: real, w: World, symbol: string) {
    exists i :: 0 <= i < |w.log| && w.log[i].FinishOf? && w.log[i].symbol == symbol && w.now - w.log[i].at < minInterval
  }

  /** A snapshot is taken exactly when no equal one waits and no run of its symbol is in flight. */
  lemma OfferTakenIff(minInterval: real, actions: seq<Action>, x: Snapshot)
    ensures var w, w' := Run(minInterval, actions), Next(minInterval, Run(minInterval, actions), Offer(x));
            var taken := !InFlight(w, x.symbol) && forall y :: y in w.state.queue ==> y.symbol != x.symbol || y.digest != x.digest;
            w'.state.queue == (if taken then w.state.queue + [x] else w.state.queue)
            && w'.accepted == if taken then w.accepted + multiset{x} else w.accepted
  {
    LawsHoldOnEveryRun(minInterval, actions);
    hide Run;
    var w := Run(minInterval, actions);
    ActiveIffInFlight(w, x.symbol);
    assert Key(x) in w.state.queued <==> exists y :: y in w.state.queue && y.symbol == x.symbol && y.digest == x.digest;
  }

  lemma ActiveIffInFlight(w: World, symbol: string)
    requires FlightLaw(w.state.active, w.inFlight)
    ensures symbol in w.state.active <==> InFlight(w, symbol)
  {
    if symbol in w.state.active {
      var i :| 0 <= i < |w.inFlight| && w.inFlight[i].symbol == symbol;
      assert w.inFlight[i] in w.inFlight;
    }
  }

  lemma TooSoonIffRecent(minInterval: real, actions: seq<Action>, symbol: string)
    ensures var w := Run(minInterval, actions); TooSoon(w.state, symbol, w.now, minInterval) <==> Recent(minInterval, w, symbol)
  {
    LawsHoldOnEveryRun(minInterval, actions);
    RemembersOnEveryRun(minInterval, actions, symbol);
    hide Run, QueueLaw, FlightLaw, ConservationLaw;
    var w := Run(minInterval, actions);
    if symbol in w.state.lastRun {
      var i: nat :| LastFinish(w.log, symbol, i);
    }
  }

  /**
   On every run, the head of the queue is started exactly when the scheduler runs, no run of its symbol is in flight
   and none finished within the minimum interval; in that last case it goes to the back of the queue.
  */
  lemma StartsIff(minInterval: real, actions: seq<Action>)
    ensures var w := Run(minInterval, actions);
            var outcome := Begun(minInterval, w.state, w.now).1;
            && (outcome == Idle <==> !w.state.running || w.state.queue == [])
            && (outcome.Started? <==> w.state.running && w.state.queue != [] && !InFlight(w, w.state.queue[0].symbol)
                                      && !Recent(minInterval, w, w.state.queue[0].symbol))
            && (outcome == Requeued <==> w.state.running && w.state.queue != [] && !InFlight(w, w.state.queue[0].symbol)
                                         && Recent(minInterval, w, w.state.queue[0].symbol))
            && (outcome == Requeued ==> Begun(minInterval, w.state, w.now).0.queue == w.state.queue[1..] + [w.state.queue[0]])
  {
    LawsHoldOnEveryRun(minInterval, actions);
    hide Run, ConservationLaw, SpacingLaw, InFlight, Recent, TooSoon, FlightLaw, QueueLaw, Key;
    var w := Run(minInterval, actions);
    if w.state.running && w.state.queue != [] {
      TooSoonIffRecent(minInterval, actions, w.state.queue[0].symbol);
      ActiveIffInFlight(w, w.state.queue[0].symbol);
      BeginMoves(minInterval, w.state, w.now);
    }
  }

  /** A symbol is remembered as parked exactly when a run of it ever ended so, with the status of the last one: no later success forgets it. */
  lemma ParkedIsForever(minInterval: real, actions: seq<Action>, symbol: string)
    ensures var w := Run(minInterval, actions);
            && (symbol in w.state.parked <==> exists i: nat :: LastParking(w.log, symbol, i))
            && (forall i: nat :: LastParking(w.log, symbol, i) ==> w.state.parked[symbol] == w.log[i].status)
  {
    RemembersOnEveryRun(minInterval, actions, symbol);
  }

  // ---- Stopping --------------------------------------------------------------------------------------

  /** Stopping empties the queue at once, and until the scheduler is resumed nothing starts, whatever is offered or finishes. */
  lemma {:induction false} NothingStartsWhileStopped(minInterval: real, earlier: seq<Action>, later: seq<Action>)
    requires forall a :: a in later ==> !a.Resume?
    ensures var stopped, w := Next(minInterval, Run(minInterval, earlier), Stop), Run(minInterval, earlier + [Stop] + later);
            && stopped.state.queue == [] && !w.state.running && stopped.log <= w.log
            && (forall i :: |stopped.log| <= i < |w.log| ==> w.log[i].FinishOf?)
            && Next(minInterval, w, Resume).state.running
  {
    hide Begun, Enqueued, Without, Run;
    var actions := earlier + [Stop];
    if |later| == 0 {
      assert actions + later == actions;
      RunAppend(minInterval, earlier, Stop);
    } else {
      var n := |later| - 1;
      NothingStartsWhileStopped(minInterval, earlier, later[..n]);
      assert actions + later == actions + later[..n] + [later[n]];
      assert later[n] in later;
      RunAppend(minInterval, actions + later[..n], later[n]);
      StoppedStep(minInterval, Run(minInterval, actions + later[..n]), later[n]);
    }
  }

  lemma StoppedStep(minInterval: real, w: World, a: Action)
    requires !w.state.running && !a.Resume?
    ensures var w' := Next(minInterval, w, a);
            && !w'.state.running && w.log <= w'.log
            && forall i :: |w.log| <= i < |w'.log| ==> w'.log[i].FinishOf?
  {
    hide Without;
  }
}
