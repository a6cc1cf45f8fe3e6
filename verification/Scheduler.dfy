/**
 The bounded scheduler: one active cycle per symbol, under any interleaving of enqueues and
 overlapping runs (src/runtime/scheduler.py).
*/
module Scheduler {
  import opened Common

  datatype Snapshot = Snapshot(symbol: string, digest: string, body: nat)

  function Key(x: Snapshot): (string, string) { (x.symbol, x.digest) }

  function Keys(queue: seq<Snapshot>): set<(string, string)> { set x | x in queue :: Key(x) }

  datatype State = State(
    queue: seq<Snapshot>, queued: set<(string, string)>, active: set<string>,
    lastRun: map<string, real>, parked: map<string, string>, running: bool)

  /** What the locked section of a run did: nothing, lose the head, put it back, or start it. */
  datatype Outcome = Idle | Dropped(lost: Snapshot) | Requeued | Started(snapshot: Snapshot)

  function Enqueued(s: State, x: Snapshot): (State, bool) {
    if Key(x) in s.queued || x.symbol in s.active then (s, false)
    else (s.(queue := s.queue + [x], queued := s.queued + {Key(x)}), true)
  }

  predicate TooSoon(s: State, symbol: string, now: real, minInterval: real) {
    symbol in s.lastRun && now - s.lastRun[symbol] < minInterval
  }

  function Begun(minInterval: real, s: State, now: real): (State, Outcome) {
    if s.queue == [] || !s.running then (s, Idle)
    else
      var x := s.queue[0];
      var popped := s.(queue := s.queue[1..], queued := s.queued - {Key(x)});
      if x.symbol in s.active then (popped, Dropped(x))
      else if TooSoon(s, x.symbol, now, minInterval) then (Enqueued(popped, x).0, Requeued)
      else (popped.(active := s.active + {x.symbol}), Started(x))
  }

  predicate Parks(status: string) {
    status in {"PARKED_PROVIDER", "PARKED", "PARKED_KILL_SWITCH", "PARKED_RECONCILIATION", "PARKED_RISK"}
  }

  function Finished(s: State, symbol: string, now: real, status: string): State {
    s.(active := s.active - {symbol}, lastRun := s.lastRun[symbol := now],
       parked := if Parks(status) then s.parked[symbol := status] else s.parked)
  }

  function Raised(s: State, symbol: string): State { s.(active := s.active - {symbol}) }

  function Stopped(s: State): State { s.(queue := [], queued := {}, running := false) }

  class PaperScheduler {
    const minInterval: real
    var queue: seq<Snapshot>
    var queued: set<(string, string)>
    var active: set<string>
    var lastRun: map<string, real>
    var parked: map<string, string>
    var running: bool

    ghost function View(): State
      reads this
    {
      State(queue, queued, active, lastRun, parked, running)
    }

    constructor (minInterval: real)
      ensures this.minInterval == Max(minInterval, 0.0)
      ensures View() == State([], {}, {}, map[], map[], true)
    {
      this.minInterval := Max(minInterval, 0.0);
      queue, queued, active, lastRun, parked, running := [], {}, {}, map[], map[], true;
    }

    method Enqueue(x: Snapshot) returns (accepted: bool)
      modifies this`queue, this`queued
      ensures (View(), accepted) == Enqueued(old(View()), x)
    {
      if Key(x) in queued || x.symbol in active {
        return false;
      }
      queue := queue + [x];
      queued := queued + {Key(x)};
      return true;
    }

    /** The locked part of a run: nothing else runs between its first and last statement. */
    method BeginRun(now: real) returns (outcome: Outcome)
      modifies this`queue, this`queued, this`active
      ensures (View(), outcome) == Begun(minInterval, old(View()), now)
    {
      if queue == [] || !running {
        return Idle;
      }
      var x := queue[0];
      queue := queue[1..];
      queued := queued - {Key(x)};
      if x.symbol in active {
        var again := Enqueue(x);
        return Dropped(x);
      }
      if x.symbol in lastRun && now - lastRun[x.symbol] < minInterval {
        var again := Enqueue(x);
        return Requeued;
      }
      active := active + {x.symbol};
      return Started(x);
    }

    /** What a run does once the runtime has returned a status. */
    method FinishRun(symbol: string, now: real, status: string)
      modifies this`active, this`lastRun, this`parked
      ensures View() == Finished(old(View()), symbol, now, status)
    {
      if Parks(status) {
        parked := parked[symbol := status];
      }
      lastRun := lastRun[symbol := now];
      active := active - {symbol};
    }

    /** What a run does when the runtime raises instead. */
    method FailRun(symbol: string)
      modifies this`active
      ensures View() == Raised(old(View()), symbol)
    {
      active := active - {symbol};
    }

    method Stop()
      modifies this`queue, this`queued, this`running
      ensures View() == Stopped(old(View()))
    {
      running, queue, queued := false, [], {};
    }
  }

  // ---- Every interleaving ----------------------------------------------------------------------

  /** A start, or a normal finish with its status, and its time. */
  datatype Mark = StartOf(symbol: string, at: real) | FinishOf(symbol: string, at: real, status: string)

  /** The scheduler with its history: what was accepted, and where each accepted snapshot went. */
  datatype World = World(
    state: State, now: real, accepted: multiset<Snapshot>, inFlight: seq<Snapshot>, done: multiset<Snapshot>,
    failed: multiset<Snapshot>, dropped: multiset<Snapshot>, cleared: multiset<Snapshot>, log: seq<Mark>)

  const FRESH := World(State([], {}, {}, map[], map[], true), 0.0, multiset{}, [], multiset{}, multiset{}, multiset{}, multiset{}, [])

  datatype Action =
    | Advance(to: real)
    | Offer(snapshot: Snapshot)
    | Begin
    | Finish(run: nat, status: string)
    | Raise(run: nat)
    | Stop
    | Resume

  function Without(runs: seq<Snapshot>, k: nat): seq<Snapshot>
    requires k < |runs|
  {
    runs[..k] + runs[k + 1..]
  }

  function Next(minInterval: real, w: World, a: Action): World {
    match a
    case Advance(to) => w.(now := Max(w.now, to))
    case Offer(x) =>
      var (s, ok) := Enqueued(w.state, x);
      w.(state := s, accepted := if ok then w.accepted + multiset{x} else w.accepted)
    case Begin =>
      var (s, outcome) := Begun(minInterval, w.state, w.now);
      (match outcome
       case Dropped(x) => w.(state := s, dropped := w.dropped + multiset{x})
       case Started(x) => w.(state := s, inFlight := w.inFlight + [x], log := w.log + [StartOf(x.symbol, w.now)])
       case _ => w.(state := s))
    case Finish(k, status) =>
      if k >= |w.inFlight| then w
      else
        var x := w.inFlight[k];
        w.(state := Finished(w.state, x.symbol, w.now, status), inFlight := Without(w.inFlight, k),
           done := w.done + multiset{x}, log := w.log + [FinishOf(x.symbol, w.now, status)])
    case Raise(k) =>
      if k >= |w.inFlight| then w
      else
        var x := w.inFlight[k];
        w.(state := Raised(w.state, x.symbol), inFlight := Without(w.inFlight, k), failed := w.failed + multiset{x})
    case Stop => w.(state := Stopped(w.state), cleared := w.cleared + multiset(w.state.queue))
    case Resume => w.(state := w.state.(running := true))
  }

  function Run(minInterval: real, actions: seq<Action>): World {
    if |actions| == 0 then FRESH
    else Next(minInterval, Run(minInterval, actions[..|actions| - 1]), actions[|actions| - 1])
  }

  /** The key set is exactly the keys of a queue without duplicates. */
  ghost predicate QueueLaw(s: State) {
    && s.queued == Keys(s.queue)
    && forall i, j :: 0 <= i < j < |s.queue| ==> Key(s.queue[i]) != Key(s.queue[j])
  }

  /** The active set is exactly the symbols in flight, each flying once. */
  ghost predicate FlightLaw(active: set<string>, runs: seq<Snapshot>) {
    && (forall i :: 0 <= i < |runs| ==> runs[i].symbol in active)
    && (forall s :: s in active ==> exists i :: 0 <= i < |runs| && runs[i].symbol == s)
    && forall i, j :: 0 <= i < j < |runs| ==> runs[i].symbol != runs[j].symbol
  }

  /** Every accepted snapshot is in exactly one place. */
  ghost predicate ConservationLaw(w: World) {
    forall x :: w.accepted[x] == Places(w, x)
  }

  /** How often a snapshot is waiting, in flight, or accounted for. */
  ghost function Places(w: World, x: Snapshot): int {
    multiset(w.state.queue)[x] + multiset(w.inFlight)[x] + w.done[x] + w.failed[x] + w.dropped[x] + w.cleared[x]
  }

  /** A start comes at least the minimum interval after every earlier normal finish of its symbol. */
  ghost predicate Spaced(minInterval: real, log: seq<Mark>) {
    forall i, j :: 0 <= i < j < |log| && log[i].FinishOf? && log[j].StartOf? && log[i].symbol == log[j].symbol
      ==> log[j].at - log[i].at >= minInterval
  }

  ghost predicate SpacingLaw(minInterval: real, w: World) {
    && Spaced(minInterval, w.log)
    && forall i :: 0 <= i < |w.log| && w.log[i].FinishOf? ==>
         w.log[i].symbol in w.state.lastRun && w.log[i].at <= w.state.lastRun[w.log[i].symbol] <= w.now
  }

  ghost predicate Laws(minInterval: real, w: World) {
    QueueLaw(w.state) && FlightLaw(w.state.active, w.inFlight) && ConservationLaw(w) && SpacingLaw(minInterval, w)
  }

  lemma EnqueueKeepsQueue(s: State, x: Snapshot)
    requires QueueLaw(s)
    ensures QueueLaw(Enqueued(s, x).0)
  {
    var s' := Enqueued(s, x).0;
    if Key(x) !in s.queued && x.symbol !in s.active {
      forall y | y in s.queue ensures Key(y) in Keys(s.queue) && Key(y) != Key(x) {}
      assert Keys(s'.queue) == Keys(s.queue) + {Key(x)};
    }
  }

  lemma PopKeepsQueue(s: State)
    requires QueueLaw(s) && s.queue != []
    ensures QueueLaw(s.(queue := s.queue[1..], queued := s.queued - {Key(s.queue[0])}))
  {
    var rest := s.queue[1..];
    forall y | y in rest ensures Key(y) in Keys(s.queue) && Key(y) != Key(s.queue[0]) {
      var i :| 0 <= i < |rest| && rest[i] == y;
      assert s.queue[i + 1] == y;
    }
    assert s.queue == [s.queue[0]] + rest;
    assert Keys(s.queue) == {Key(s.queue[0])} + Keys(rest);
  }

  lemma BeginKeepsQueue(minInterval: real, s: State, now: real)
    requires QueueLaw(s)
    ensures QueueLaw(Begun(minInterval, s, now).0)
  {
    if s.queue != [] && s.running {
      PopKeepsQueue(s);
      EnqueueKeepsQueue(s.(queue := s.queue[1..], queued := s.queued - {Key(s.queue[0])}), s.queue[0]);
    }
  }

  lemma LandingKeepsFlight(active: set<string>, runs: seq<Snapshot>, k: nat)
    requires FlightLaw(active, runs) && k < |runs|
    ensures FlightLaw(active - {runs[k].symbol}, Without(runs, k))
  {
    var rest, left := Without(runs, k), active - {runs[k].symbol};
    forall i | 0 <= i < |rest| ensures rest[i] == runs[if i < k then i else i + 1] && rest[i].symbol in left {}
    forall y | y in left ensures exists i :: 0 <= i < |rest| && rest[i].symbol == y {
      var i :| 0 <= i < |runs| && runs[i].symbol == y;
      assert rest[if i < k then i else i - 1].symbol == y;
    }
  }

  lemma TakeoffKeepsFlight(active: set<string>, runs: seq<Snapshot>, x: Snapshot)
    requires FlightLaw(active, runs) && x.symbol !in active
    ensures FlightLaw(active + {x.symbol}, runs + [x])
  {
    var more := runs + [x];
    forall y | y in active + {x.symbol} ensures exists i :: 0 <= i < |more| && more[i].symbol == y {
      if y == x.symbol {
        assert more[|runs|].symbol == y;
      } else {
        var i :| 0 <= i < |runs| && runs[i].symbol == y;
        assert more[i].symbol == y;
      }
    }
  }

  lemma RemoveOne(runs: seq<Snapshot>, k: nat)
    requires k < |runs|
    ensures forall x :: multiset(runs)[x] == multiset(Without(runs, k))[x] + multiset{runs[k]}[x]
  {
    assert runs == runs[..k] + [runs[k]] + runs[k + 1..];
  }

  lemma StepKeepsQueue(minInterval: real, w: World, a: Action)
    requires QueueLaw(w.state)
    ensures QueueLaw(Next(minInterval, w, a).state)
  {
    hide QueueLaw, Enqueued, Begun;
    match a
    case Offer(x) => EnqueueKeepsQueue(w.state, x);
    case Begin => BeginKeepsQueue(minInterval, w.state, w.now);
    case Stop => EmptyQueueLaw(Stopped(w.state));
    case _ => SameQueueLaw(w.state, Next(minInterval, w, a).state);
  }

  lemma EmptyQueueLaw(s: State)
    requires s.queue == [] && s.queued == {}
    ensures QueueLaw(s)
  {
  }

  lemma SameQueueLaw(s: State, s': State)
    requires QueueLaw(s) && s'.queue == s.queue && s'.queued == s.queued
    ensures QueueLaw(s')
  {
  }

  lemma StepKeepsFlight(minInterval: real, w: World, a: Action)
    requires FlightLaw(w.state.active, w.inFlight)
    ensures var w' := Next(minInterval, w, a); FlightLaw(w'.state.active, w'.inFlight)
  {
    hide FlightLaw, Without;
    match a
    case Begin =>
      if w.state.queue != [] && w.state.queue[0].symbol !in w.state.active {
        TakeoffKeepsFlight(w.state.active, w.inFlight, w.state.queue[0]);
      }
    case Finish(k, status) => if k < |w.inFlight| { LandingKeepsFlight(w.state.active, w.inFlight, k); }
    case Raise(k) => if k < |w.inFlight| { LandingKeepsFlight(w.state.active, w.inFlight, k); }
    case _ =>
  }

  /** The head goes to the back of the queue, into flight, or to the losses; the rest of the queue stays. */
  lemma BeginMoves(minInterval: real, s: State, now: real)
    requires s.queue != [] && s.running && QueueLaw(s)
    ensures var (s', outcome) := Begun(minInterval, s, now);
            && !outcome.Idle?
            && s'.queue == s.queue[1..] + (if outcome.Requeued? then [s.queue[0]] else [])
            && (outcome.Started? ==> outcome.snapshot == s.queue[0])
            && (outcome.Dropped? ==> outcome.lost == s.queue[0])
  {
    hide QueueLaw;
  }

  /** However a run begins, the popped snapshot is back in the queue, in flight, or dropped. */
  lemma BeginMovesOne(minInterval: real, w: World, y: Snapshot)
    requires QueueLaw(w.state) && w.state.queue != [] && w.state.running
    ensures var w' := Next(minInterval, w, Begin);
            && w' == w.(state := w'.state, inFlight := w'.inFlight, dropped := w'.dropped, log := w'.log)
            && multiset(w'.state.queue)[y] + multiset(w'.inFlight)[y] + w'.dropped[y]
               == multiset(w.state.queue)[y] + multiset(w.inFlight)[y] + w.dropped[y]
  {
    hide Begun, QueueLaw;
    BeginMoves(minInterval, w.state, w.now);
    var x, rest := w.state.queue[0], w.state.queue[1..];
    assert w.state.queue == [x] + rest;
    match Begun(minInterval, w.state, w.now).1
    case Dropped(_) => assert rest + [] == rest;
    case Started(_) => assert rest + [] == rest;
    case Requeued => assert multiset(rest + [x])[y] == multiset(rest)[y] + multiset{x}[y];
    case Idle =>
  }

  lemma BeginKeepsConservation(minInterval: real, w: World)
    requires ConservationLaw(w) && QueueLaw(w.state)
    ensures ConservationLaw(Next(minInterval, w, Begin))
  {
    hide Begun, QueueLaw, Next;
    var w' := Next(minInterval, w, Begin);
    if w.state.queue == [] || !w.state.running {
      IdleBegin(minInterval, w);
    } else {
      forall y ensures w'.accepted[y] == Places(w', y) {
        BeginMovesOne(minInterval, w, y);
        assert w.accepted[y] == Places(w, y);
      }
    }
  }

  lemma IdleBegin(minInterval: real, w: World)
    requires w.state.queue == [] || !w.state.running
    ensures Next(minInterval, w, Begin) == w
  {
  }

  lemma StepKeepsConservation(minInterval: real, w: World, a: Action)
    requires ConservationLaw(w) && QueueLaw(w.state)
    ensures ConservationLaw(Next(minInterval, w, a))
  {
    hide Without, Begun, QueueLaw;
    match a
    case Begin => BeginKeepsConservation(minInterval, w);
    case Finish(k, status) => if k < |w.inFlight| { RemoveOne(w.inFlight, k); }
    case Raise(k) => if k < |w.inFlight| { RemoveOne(w.inFlight, k); }
    case _ =>
  }

  lemma StartWaits(minInterval: real, s: State, now: real)
    ensures var (s', outcome) := Begun(minInterval, s, now);
            && s'.lastRun == s.lastRun
            && (outcome.Started? && outcome.snapshot.symbol in s.lastRun ==> now - s.lastRun[outcome.snapshot.symbol] >= minInterval)
  {
  }

  lemma BeginKeepsSpacing(minInterval: real, w: World)
    requires SpacingLaw(minInterval, w)
    ensures SpacingLaw(minInterval, Next(minInterval, w, Begin))
  {
    hide Begun;
    StartWaits(minInterval, w.state, w.now);
    var w' := Next(minInterval, w, Begin);
    var outcome := Begun(minInterval, w.state, w.now).1;
    if outcome.Started? {
      var x := outcome.snapshot;
      assert w'.log == w.log + [StartOf(x.symbol, w.now)];
      forall i | 0 <= i < |w.log| && w.log[i].FinishOf? && w.log[i].symbol == x.symbol ensures w.now - w.log[i].at >= minInterval {
      }
    }
  }

  lemma StepKeepsSpacing(minInterval: real, w: World, a: Action)
    requires SpacingLaw(minInterval, w)
    ensures SpacingLaw(minInterval, Next(minInterval, w, a))
  {
    hide Without, Begun;
    if a.Begin? {
      BeginKeepsSpacing(minInterval, w);
    }
  }

  lemma StepKeepsLaws(minInterval: real, w: World, a: Action)
    requires Laws(minInterval, w)
    ensures Laws(minInterval, Next(minInterval, w, a))
  {
    hide QueueLaw, FlightLaw, ConservationLaw, SpacingLaw, Next;
    StepKeepsQueue(minInterval, w, a);
    StepKeepsFlight(minInterval, w, a);
    StepKeepsConservation(minInterval, w, a);
    StepKeepsSpacing(minInterval, w, a);
  }

  /** Under every interleaving: keys match the queue, symbols fly alone, nothing accepted is lost, starts are spaced. */
  lemma {:induction false} LawsHoldOnEveryRun(minInterval: real, actions: seq<Action>)
    ensures Laws(minInterval, Run(minInterval, actions))
  {
    if |actions| > 0 {
      LawsHoldOnEveryRun(minInterval, actions[..|actions| - 1]);
      StepKeepsLaws(minInterval, Run(minInterval, actions[..|actions| - 1]), actions[|actions| - 1]);
    }
  }

  /** The count of accepted snapshots is the count in the queue, in flight, finished, raised, lost and cleared. */
  lemma NothingIsLost(minInterval: real, actions: seq<Action>)
    ensures var w := Run(minInterval, actions);
            |w.accepted| == |w.state.queue| + |w.inFlight| + |w.done| + |w.failed| + |w.dropped| + |w.cleared|
  {
    LawsHoldOnEveryRun(minInterval, actions);
    hide Run, QueueLaw, FlightLaw, SpacingLaw;
    var w := Run(minInterval, actions);
    assert w.accepted == multiset(w.state.queue) + multiset(w.inFlight) + w.done + w.failed + w.dropped + w.cleared;
  }

  /** A run loses the snapshot it pops exactly when that symbol is already in flight: putting it back is refused. */
  lemma DropsIffSymbolInFlight(minInterval: real, actions: seq<Action>)
    ensures var w := Run(minInterval, actions);
            Begun(minInterval, w.state, w.now).1.Dropped?
            <==> w.state.running && w.state.queue != [] && exists x :: x in w.inFlight && x.symbol == w.state.queue[0].symbol
  {
    LawsHoldOnEveryRun(minInterval, actions);
    var w := Run(minInterval, actions);
    if w.state.queue != [] && w.state.queue[0].symbol in w.state.active {
      var i :| 0 <= i < |w.inFlight| && w.inFlight[i].symbol == w.state.queue[0].symbol;
      assert w.inFlight[i] in w.inFlight;
    }
  }

  /** With one worker nothing is ever lost: each run ends before the next begins. */
  lemma {:induction false} OneWorkerDropsNothing(minInterval: real, actions: seq<Action>)
    requires forall i :: 0 <= i < |actions| && actions[i].Begin? ==> Run(minInterval, actions[..i]).inFlight == []
    ensures Run(minInterval, actions).dropped == multiset{}
  {
    if |actions| > 0 {
      var n := |actions| - 1;
      forall i | 0 <= i < n && actions[..n][i].Begin? ensures Run(minInterval, actions[..n][..i]).inFlight == [] {
        assert actions[..n][..i] == actions[..i];
      }
      OneWorkerDropsNothing(minInterval, actions[..n]);
      LawsHoldOnEveryRun(minInterval, actions[..n]);
      hide Next, QueueLaw, ConservationLaw, SpacingLaw, FlightLaw;
      LoneStepDropsNothing(minInterval, Run(minInterval, actions[..n]), actions[n]);
    }
  }

  lemma LoneStepDropsNothing(minInterval: real, w: World, a: Action)
    requires FlightLaw(w.state.active, w.inFlight) && (a.Begin? ==> w.inFlight == [])
    ensures Next(minInterval, w, a).dropped == w.dropped
  {
    hide Enqueued, Without;
  }

  lemma RunAppend(minInterval: real, actions: seq<Action>, a: Action)
    ensures Run(minInterval, actions + [a]) == Next(minInterval, Run(minInterval, actions), a)
  {
    assert (actions + [a])[..|actions|] == actions;
  }

  /** With two workers a queued snapshot can be lost: offered twice for one symbol, begun twice, and never processed. */
  lemma TwoWorkersCanDrop()
    ensures exists actions: seq<Action> :: (forall a :: a in actions ==> a.Offer? || a.Begin?) && Run(0.0, actions).dropped != multiset{}
  {
    hide Run, Next;
    var a, b := Snapshot("S", "a", 0), Snapshot("S", "b", 0);
    var two := TwoOffered(a, b);
    SecondBeginDrops(Run(0.0, two), a, b);
    RunAppend(0.0, two, Begin);
    RunAppend(0.0, two + [Begin], Begin);
    var actions := two + [Begin] + [Begin];
    assert forall x :: x in actions ==> x.Offer? || x.Begin?;
    assert b in Run(0.0, actions).dropped;
  }

  lemma TwoOffered(a: Snapshot, b: Snapshot) returns (actions: seq<Action>)
    requires a.symbol == b.symbol && a.digest != b.digest
    ensures forall x :: x in actions ==> x.Offer?
    ensures var w := Run(0.0, actions);
            w.state.running && w.state.active == {} && w.state.queue == [a, b] && w.state.lastRun == map[]
  {
    RunAppend(0.0, [], Offer(a));
    RunAppend(0.0, [Offer(a)], Offer(b));
    actions := [Offer(a)] + [Offer(b)];
    assert [] + [Offer(a)] == [Offer(a)];
    assert Run(0.0, []) == FRESH;
  }

  /** Two snapshots of one symbol, nothing in flight: the first begins, and the second is popped and cannot be put back. */
  lemma SecondBeginDrops(w: World, a: Snapshot, b: Snapshot)
    requires w.state.running && w.state.active == {} && w.state.queue == [a, b] && a.symbol == b.symbol
    requires a.symbol !in w.state.lastRun
    ensures b in Next(0.0, Next(0.0, w, Begin), Begin).dropped
  {
    var w' := Next(0.0, w, Begin);
    assert w'.state.queue == [b] && w'.state.active == {a.symbol};
  }
}
