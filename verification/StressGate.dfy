/**
 "Higher costs never add trades": when the run-time assertion of the stress runs can fail and when it
 cannot (src/evaluation/stress.py, src/strategies/base.py, src/evaluation/baseline.py).
*/
module StressGate {
  import opened Common
  import opened FundingModel
  import opened Exchange
  import opened ReplayModel
  import opened ReplayEpisode
  import opened ReplayReport

  // ---- Busy-until selection on its own ------------------------------------------------------

  datatype Selection = Selection(count: nat, busy: int)

  /** Take every passing bar that is not inside the last taken holding. */
  function Greedy(pass: seq<bool>, exits: seq<int>): Selection
    requires |pass| == |exits|
  {
    if |pass| == 0 then Selection(0, -1)
    else
      var n := |pass| - 1;
      var s := Greedy(pass[..n], exits[..n]);
      if pass[n] && n > s.busy then Selection(s.count + 1, exits[n]) else s
  }

  ghost predicate Subset(fewer: seq<bool>, more: seq<bool>)
    requires |fewer| == |more|
  {
    forall i :: 0 <= i < |fewer| && fewer[i] ==> more[i]
  }

  /** A later entry never leaves before an earlier one. */
  ghost predicate ExitsInOrder(pass: seq<bool>, exits: seq<int>)
    requires |pass| == |exits|
  {
    && (forall i :: 0 <= i < |pass| ==> i <= exits[i])
    && (forall i, j :: 0 <= i < j < |pass| && pass[i] && pass[j] ==> exits[i] <= exits[j])
  }

  lemma {:induction false} BusyIsSomeExit(pass: seq<bool>, exits: seq<int>)
    requires |pass| == |exits|
    ensures var s := Greedy(pass, exits);
            s.busy == -1 || exists j :: 0 <= j < |pass| && pass[j] && exits[j] == s.busy
  {
    if |pass| > 0 {
      var n := |pass| - 1;
      BusyIsSomeExit(pass[..n], exits[..n]);
      var s := Greedy(pass[..n], exits[..n]);
      if s.busy != -1 {
        var j :| 0 <= j < n && pass[..n][j] && exits[..n][j] == s.busy;
        assert pass[j] && exits[j] == s.busy;
      }
    }
  }

  /** With exits in order, removing candidate bars never lets the greedy selection take more. */
  lemma {:induction false} FewerCandidatesFewerTrades(fewer: seq<bool>, more: seq<bool>, exits: seq<int>)
    requires |fewer| == |more| == |exits| && Subset(fewer, more) && ExitsInOrder(more, exits)
    ensures var f, m := Greedy(fewer, exits), Greedy(more, exits);
            f.count <= m.count && (f.count == m.count ==> m.busy <= f.busy)
  {
    if |fewer| > 0 {
      var n := |fewer| - 1;
      FewerCandidatesFewerTrades(fewer[..n], more[..n], exits[..n]);
      BusyIsSomeExit(more[..n], exits[..n]);
      var m := Greedy(more[..n], exits[..n]);
      if fewer[n] && m.busy != -1 {
        var j :| 0 <= j < n && more[..n][j] && exits[..n][j] == m.busy;
        assert more[j] && exits[j] <= exits[n];
      }
    }
  }

  // ---- The most any selection could take ------------------------------------------------------

  /** Exits come no earlier than entries. */
  ghost predicate Holds(exits: seq<int>) { forall i :: 0 <= i < |exits| ==> i <= exits[i] }

  /** The first bar that may be entered after leaving at bar x. */
  function After(exits: seq<int>, i: nat): (next: nat)
    requires i < |exits| && Holds(exits)
    ensures i < next <= |exits|
  {
    MinInt(|exits|, exits[i] + 1)
  }

  /** The most passing bars from bar `from` on that can be taken one after the other, each after the last has left. */
  function Best(pass: seq<bool>, exits: seq<int>, from: nat): nat
    requires |pass| == |exits| && from <= |pass| && Holds(exits)
    decreases |pass| - from
  {
    if from == |pass| then 0
    else
      var skip := Best(pass, exits, from + 1);
      if pass[from] then MaxInt(skip, 1 + Best(pass, exits, After(exits, from))) else skip
  }

  lemma {:induction false} BestFallsWithStart(pass: seq<bool>, exits: seq<int>, from: nat, later: nat)
    requires |pass| == |exits| && from <= later <= |pass| && Holds(exits)
    ensures Best(pass, exits, later) <= Best(pass, exits, from)
    decreases later - from
  {
    if from < later {
      BestFallsWithStart(pass, exits, from + 1, later);
    }
  }

  /** Where the greedy selection may enter next after its first n bars. */
  function NextEntry(s: Selection, n: nat, limit: nat): (next: nat)
    requires n <= limit
    ensures next <= limit
  {
    if s.busy < n then n else MinInt(limit, s.busy + 1)
  }

  /** What the greedy selection has taken and the best that is left to it never exceed the best there was. */
  lemma {:induction false} GreedyWithinBest(pass: seq<bool>, exits: seq<int>, n: nat)
    requires |pass| == |exits| && n <= |pass| && Holds(exits)
    ensures var s := Greedy(pass[..n], exits[..n]);
            s.count + Best(pass, exits, NextEntry(s, n, |pass|)) <= Best(pass, exits, 0)
  {
    if n > 0 {
      GreedyWithinBest(pass, exits, n - 1);
      assert pass[..n][..n - 1] == pass[..n - 1] && exits[..n][..n - 1] == exits[..n - 1];
      var s := Greedy(pass[..n - 1], exits[..n - 1]);
      if s.busy < n - 1 && !pass[n - 1] {
        BestFallsWithStart(pass, exits, n - 1, n);
      }
    }
  }

  lemma {:induction false} BestGrowsWithCandidates(fewer: seq<bool>, more: seq<bool>, exits: seq<int>, from: nat)
    requires |fewer| == |more| == |exits| && Subset(fewer, more) && from <= |more| && Holds(exits)
    ensures Best(fewer, exits, from) <= Best(more, exits, from)
    decreases |more| - from
  {
    if from < |more| {
      BestGrowsWithCandidates(fewer, more, exits, from + 1);
      BestGrowsWithCandidates(fewer, more, exits, After(exits, from));
    }
  }

  /** A best selection itself, as the set of bars it takes. */
  function Chosen(pass: seq<bool>, exits: seq<int>, from: nat): (mask: seq<bool>)
    requires |pass| == |exits| && from <= |pass| && Holds(exits)
    ensures |mask| == |pass| && forall i :: 0 <= i < |mask| && mask[i] ==> from <= i && pass[i]
    decreases |pass| - from
  {
    if from == |pass| then seq(|pass|, i => false)
    else if pass[from] && 1 + Best(pass, exits, After(exits, from)) >= Best(pass, exits, from + 1) then
      Chosen(pass, exits, After(exits, from))[from := true]
    else Chosen(pass, exits, from + 1)
  }

  /** Adding one bar whose holding ends before the first bar of a selection adds exactly one pick. */
  lemma {:induction false} OneMorePick(mask: seq<bool>, exits: seq<int>, i: nat, n: nat)
    requires |mask| == |exits| && i < |mask| && n <= |mask| && Holds(exits)
    requires forall k :: 0 <= k < |mask| && mask[k] ==> After(exits, i) <= k
    ensures var s, s' := Greedy(mask[..n], exits[..n]), Greedy(mask[i := true][..n], exits[..n]);
            if n <= i then s == s' == Selection(0, -1)
            else s'.count == s.count + 1
                 && if s.count == 0 then s.busy == -1 && s'.busy == exits[i] else s'.busy == s.busy
  {
    if n > 0 {
      OneMorePick(mask, exits, i, n - 1);
      var mask' := mask[i := true];
      assert mask[..n][..n - 1] == mask[..n - 1] && mask'[..n][..n - 1] == mask'[..n - 1];
      assert exits[..n][..n - 1] == exits[..n - 1];
    }
  }

  lemma {:induction false} NothingPicked(mask: seq<bool>, exits: seq<int>)
    requires |mask| == |exits| && forall i :: 0 <= i < |mask| ==> !mask[i]
    ensures Greedy(mask, exits) == Selection(0, -1)
  {
    if |mask| > 0 {
      NothingPicked(mask[..|mask| - 1], exits[..|mask| - 1]);
    }
  }

  /** Offered only the bars of a best selection, the greedy one takes all of them. */
  lemma {:induction false} GreedyTakesChosen(pass: seq<bool>, exits: seq<int>, from: nat)
    requires |pass| == |exits| && from <= |pass| && Holds(exits)
    ensures Greedy(Chosen(pass, exits, from), exits).count == Best(pass, exits, from)
    decreases |pass| - from
  {
    if from == |pass| {
      NothingPicked(Chosen(pass, exits, from), exits);
    } else {
      GreedyTakesChosen(pass, exits, from + 1);
      if pass[from] && 1 + Best(pass, exits, After(exits, from)) >= Best(pass, exits, from + 1) {
        GreedyTakesChosen(pass, exits, After(exits, from));
        var mask := Chosen(pass, exits, After(exits, from));
        OneMorePick(mask, exits, from, |mask|);
        assert mask[..|mask|] == mask && mask[from := true][..|mask|] == mask[from := true] && exits[..|mask|] == exits;
      }
    }
  }

  /** The greedy selection already takes as many bars as any selection could. */
  predicate Saturated(pass: seq<bool>, exits: seq<int>)
    requires |pass| == |exits| && Holds(exits)
  {
    Greedy(pass, exits).count == Best(pass, exits, 0)
  }

  /** Any selection takes at most the best of what it may choose from. */
  lemma GreedyAtMostBest(fewer: seq<bool>, more: seq<bool>, exits: seq<int>)
    requires |fewer| == |more| == |exits| && Subset(fewer, more) && Holds(exits)
    ensures Greedy(fewer, exits).count <= Best(more, exits, 0)
  {
    GreedyWithinBest(fewer, exits, |fewer|);
    assert fewer[..|fewer|] == fewer && exits[..|fewer|] == exits;
    BestGrowsWithCandidates(fewer, more, exits, 0);
  }

  /** Removing candidate bars can never add a trade, whichever bars are removed, exactly when the selection is saturated. */
  lemma ThinningNeverAddsIff(more: seq<bool>, exits: seq<int>)
    requires |more| == |exits| && Holds(exits)
    ensures (forall fewer: seq<bool> :: |fewer| == |more| && Subset(fewer, more)
               ==> Greedy(fewer, exits).count <= Greedy(more, exits).count)
            <==> Saturated(more, exits)
  {
    GreedyAtMostBest(more, more, exits);
    forall fewer: seq<bool> | |fewer| == |more| && Subset(fewer, more) ensures Greedy(fewer, exits).count <= Best(more, exits, 0) {
      GreedyAtMostBest(fewer, more, exits);
    }
    var chosen := Chosen(more, exits, 0);
    GreedyTakesChosen(more, exits, 0);
    assert Subset(chosen, more);
  }

  /** Exits in entry order are one way to be saturated. */
  lemma OrderedExitsSaturate(pass: seq<bool>, exits: seq<int>)
    requires |pass| == |exits| && ExitsInOrder(pass, exits)
    ensures Saturated(pass, exits)
  {
    forall fewer: seq<bool> | |fewer| == |pass| && Subset(fewer, pass)
      ensures Greedy(fewer, exits).count <= Greedy(pass, exits).count {
      FewerCandidatesFewerTrades(fewer, pass, exits);
    }
    ThinningNeverAddsIff(pass, exits);
  }

  // ---- Strategies that price their own costs ------------------------------------------------

  /** What a strategy sees in a bar before costs. */
  datatype Signal = Signal(side: Side, entry: real, stop: real, target: real, move: real)

  datatype Strategy = Strategy(name: string, signal: Snapshot -> Option<Signal>)

  function CostFraction(s: Snapshot, c: CostAssumptions): real {
    (2.0 * c.feeBps + c.fundingBps + (if s.mark == 0.0 then 0.0 else s.SpreadBps()) + c.slippageBps) / 10000.0
  }

  function ExpectedCost(s: Snapshot, sig: Signal, c: CostAssumptions): real { sig.entry * CostFraction(s, c) }

  /** A signal becomes a candidate only if its expected move beats its expected cost. */
  function MakeCandidate(s: Snapshot, sig: Signal, c: CostAssumptions): seq<Candidate> {
    if sig.move <= ExpectedCost(s, sig, c) then []
    else [Candidate(sig.side, sig.stop, sig.target, ExpectedCost(s, sig, c), sig.move)]
  }

  function Propose(st: Strategy): (Snapshot, CostAssumptions) -> seq<Candidate> {
    (s: Snapshot, c: CostAssumptions) => if st.signal(s).None? then [] else MakeCandidate(s, st.signal(s).value, c)
  }

  function Registry(sts: seq<Strategy>): seq<Generator> {
    seq(|sts|, k requires 0 <= k < |sts| => Generator(sts[k].name, Propose(sts[k])))
  }

  ghost predicate DistinctNames(sts: seq<Strategy>) {
    forall i, j :: 0 <= i < j < |sts| ==> sts[i].name != sts[j].name
  }

  /** The bar yields an order: a signal, an edge over cost at the required coverage, and a size the venue takes. */
  ghost predicate Passes(cfg: ReplayConfig, st: Strategy, s: Snapshot) {
    && st.signal(s).Some?
    && Tradeable(s.symbol, OrderQuantity(cfg, s))
    && var sig := st.signal(s).value;
       var cost := ExpectedCost(s, sig, cfg.Costs());
       cost < sig.move && cfg.minEdgeCoverage * cost <= sig.move
  }

  lemma SharesAdd(a: real, b: real, bps: real, share: real)
    requires bps == share * 10000.0
    ensures (a + bps + b) / 10000.0 == (a + b) / 10000.0 + share
  {
  }

  /**
   A bar passes exactly when its signal's move beats and covers the cost of a round trip: twice the fee, the
   funding, the slippage, and the quoted spread as a share of the mark, all of the entry price.
  */
  lemma PassesIff(cfg: ReplayConfig, st: Strategy, s: Snapshot, sig: Signal, cost: real)
    requires st.signal(s) == Some(sig)
    requires cost == sig.entry * ((2.0 * cfg.feeBps + cfg.fundingBps + cfg.slippageBps) / 10000.0
                                  + if s.mark == 0.0 then 0.0 else (s.ask - s.bid) / s.mark)
    ensures Passes(cfg, st, s) <==> cost < sig.move && cfg.minEdgeCoverage * cost <= sig.move
                                    && Tradeable(s.symbol, FloorToStep(EffectiveQuantity(cfg, s.mark), 0.001))
  {
    hide Tradeable, FloorToStep, EffectiveQuantity;
    var spread := if s.mark == 0.0 then 0.0 else (s.ask - s.bid) / s.mark;
    SharesAdd(2.0 * cfg.feeBps + cfg.fundingBps, cfg.slippageBps, spread * 10000.0, spread);
    assert CostFraction(s, cfg.Costs()) == (2.0 * cfg.feeBps + cfg.fundingBps + cfg.slippageBps) / 10000.0 + spread;
  }

  /** Which bars of the history a replay of bars `start` to `end` lets a strategy enter. */
  ghost function PassSeq(cfg: ReplayConfig, st: Strategy, w: seq<Snapshot>, start: nat, end: nat): (pass: seq<bool>)
    ensures |pass| == |w|
  {
    seq(|w|, i requires 0 <= i < |w| => start <= i <= end && Passes(cfg, st, w[i]))
  }

  /** Where a trade entered at bar i leaves; it depends on the marks and the levels only, never on costs. */
  function ExitOf(st: Strategy, w: seq<Snapshot>, end: nat, i: nat): (x: int)
    requires i < |w| && end < |w|
    ensures i <= x
  {
    if i > end || st.signal(w[i]).None? then i
    else
      var sig := st.signal(w[i]).value;
      ExitIndex(w, end, i, Entry(st.name, sig.side, 0.0, sig.stop, sig.target))
  }

  ghost function ExitSeq(st: Strategy, w: seq<Snapshot>, end: nat): (exits: seq<int>)
    requires end < |w|
    ensures |exits| == |w| && Holds(exits)
  {
    seq(|w|, i requires 0 <= i < |w| => ExitOf(st, w, end, i))
  }

  ghost function Picks(cfg: ReplayConfig, st: Strategy, w: seq<Snapshot>, start: nat, end: nat, n: nat): Selection
    requires end < |w| && n <= |w|
  {
    Greedy(PassSeq(cfg, st, w, start, end)[..n], ExitSeq(st, w, end)[..n])
  }

  lemma {:induction false} ExitIgnoresSize(w: seq<Snapshot>, end: nat, i: nat, j: nat, a: Entry, b: Entry)
    requires i < j <= end + 1 <= |w| && (a.side, a.stop, a.target) == (b.side, b.stop, b.target)
    ensures ExitFrom(w, end, i, j, a) == ExitFrom(w, end, i, j, b)
    decreases end + 1 - j
  {
    if j <= end && !Hit(a, w[j].mark) {
      ExitIgnoresSize(w, end, i, j + 1, a, b);
    }
  }

  // ---- The replay takes exactly the greedy picks of each strategy ---------------------------

  ghost function PickSum(cfg: ReplayConfig, sts: seq<Strategy>, w: seq<Snapshot>, start: nat, end: nat, k: nat, n: nat): nat
    requires end < |w| && k <= |sts| && n <= |w|
  {
    if k == 0 then 0 else PickSum(cfg, sts, w, start, end, k - 1, n) + Picks(cfg, sts[k - 1], w, start, end, n).count
  }

  lemma PicksStep(cfg: ReplayConfig, st: Strategy, w: seq<Snapshot>, start: nat, end: nat, n: nat)
    requires end < |w| && n < |w|
    ensures var s := Picks(cfg, st, w, start, end, n);
            Picks(cfg, st, w, start, end, n + 1)
            == if start <= n <= end && Passes(cfg, st, w[n]) && n > s.busy then Selection(s.count + 1, ExitOf(st, w, end, n)) else s
  {
    hide Passes, ExitOf;
    var pass, exits := PassSeq(cfg, st, w, start, end)[..n + 1], ExitSeq(st, w, end)[..n + 1];
    assert pass[..n] == PassSeq(cfg, st, w, start, end)[..n] && exits[..n] == ExitSeq(st, w, end)[..n];
  }

  /** One visit does to the replay what one step does to the selection. */
  lemma VisitIsGreedy(cfg: ReplayConfig, w: seq<Snapshot>, start: nat, end: nat, st: Strategy, n: nat, p: Progress)
    requires start <= n <= end < |w| && BusyUntil(p, st.name) == Picks(cfg, st, w, start, end, n).busy
    ensures var p' := Visit(cfg, w, end, Generator(st.name, Propose(st)), n, p);
            && BusyUntil(p', st.name) == Picks(cfg, st, w, start, end, n + 1).busy
            && |p'.trades| - |p.trades| == Picks(cfg, st, w, start, end, n + 1).count - Picks(cfg, st, w, start, end, n).count
            && forall name :: name != st.name ==> BusyUntil(p', name) == BusyUntil(p, name)
  {
    hide OrderQuantity, Tradeable, CostFraction, Picks, Greedy, TradeAt;
    PicksStep(cfg, st, w, start, end, n);
    if st.signal(w[n]).Some? {
      var sig := st.signal(w[n]).value;
      var e := Entry(st.name, sig.side, OrderQuantity(cfg, w[n]), sig.stop, sig.target);
      ExitIgnoresSize(w, end, n, n + 1, e, Entry(st.name, sig.side, 0.0, sig.stop, sig.target));
      TradeIdentity(cfg, w, end, n, e);
    }
  }

  /** After k strategies have looked at bar n, the first k have made n+1 greedy steps and the others n. */
  ghost predicate InStep(cfg: ReplayConfig, w: seq<Snapshot>, start: nat, end: nat, sts: seq<Strategy>, k: nat, n: nat, p: Progress)
    requires end < |w| && n < |w| && k <= |sts|
  {
    && (forall j :: 0 <= j < |sts| ==>
          BusyUntil(p, sts[j].name) == Picks(cfg, sts[j], w, start, end, if j < k then n + 1 else n).busy)
    && |p.trades| == PickSum(cfg, sts, w, start, end, k, n + 1) + PickSum(cfg, sts, w, start, end, |sts|, n)
                     - PickSum(cfg, sts, w, start, end, k, n)
  }

  lemma {:induction false} VisitsStayInStep(cfg: ReplayConfig, w: seq<Snapshot>, start: nat, end: nat, sts: seq<Strategy>,
                                            k: nat, n: nat, p: Progress)
    requires start <= n <= end < |w| && k <= |sts| && DistinctNames(sts) && InStep(cfg, w, start, end, sts, 0, n, p)
    ensures InStep(cfg, w, start, end, sts, k, n, VisitAll(cfg, w, end, Registry(sts), k, n, p))
  {
    hide Picks, Visit, BusyUntil;
    if k > 0 {
      VisitsStayInStep(cfg, w, start, end, sts, k - 1, n, p);
      var before := VisitAll(cfg, w, end, Registry(sts), k - 1, n, p);
      VisitIsGreedy(cfg, w, start, end, sts[k - 1], n, before);
      var after := Visit(cfg, w, end, Registry(sts)[k - 1], n, before);
      forall j | 0 <= j < |sts|
        ensures BusyUntil(after, sts[j].name) == Picks(cfg, sts[j], w, start, end, if j < k then n + 1 else n).busy {
        if j != k - 1 {
          assert sts[j].name != sts[k - 1].name;
        }
      }
    }
  }

  /** A replay closes exactly as many trades as the strategies' independent greedy selections pick. */
  lemma {:induction false} ReplayIsGreedy(cfg: ReplayConfig, w: seq<Snapshot>, start: nat, end: nat, sts: seq<Strategy>, n: nat)
    requires end < |w| && n <= |w| && DistinctNames(sts)
    ensures var p := Bars(cfg, w, start, end, Registry(sts), n);
            && (forall j :: 0 <= j < |sts| ==> BusyUntil(p, sts[j].name) == Picks(cfg, sts[j], w, start, end, n).busy)
            && |p.trades| == PickSum(cfg, sts, w, start, end, |sts|, n)
  {
    hide Picks, VisitAll, InStep, PickSum;
    if n == 0 {
      NothingPickedYet(cfg, w, start, end, sts, |sts|);
    } else {
      ReplayIsGreedy(cfg, w, start, end, sts, n - 1);
      var p := Bars(cfg, w, start, end, Registry(sts), n - 1);
      if start <= n - 1 <= end {
        EntersInStep(cfg, w, start, end, sts, n - 1, p);
        VisitsStayInStep(cfg, w, start, end, sts, |sts|, n - 1, p);
        LeavesInStep(cfg, w, start, end, sts, n - 1, VisitAll(cfg, w, end, Registry(sts), |sts|, n - 1, p));
      } else {
        PassedOver(cfg, w, start, end, sts, |sts|, n - 1);
      }
    }
  }

  lemma EntersInStep(cfg: ReplayConfig, w: seq<Snapshot>, start: nat, end: nat, sts: seq<Strategy>, n: nat, p: Progress)
    requires end < |w| && n < |w|
    requires forall j :: 0 <= j < |sts| ==> BusyUntil(p, sts[j].name) == Picks(cfg, sts[j], w, start, end, n).busy
    requires |p.trades| == PickSum(cfg, sts, w, start, end, |sts|, n)
    ensures InStep(cfg, w, start, end, sts, 0, n, p)
  {
    hide Picks, BusyUntil;
  }

  lemma LeavesInStep(cfg: ReplayConfig, w: seq<Snapshot>, start: nat, end: nat, sts: seq<Strategy>, n: nat, p: Progress)
    requires end < |w| && n < |w| && InStep(cfg, w, start, end, sts, |sts|, n, p)
    ensures forall j :: 0 <= j < |sts| ==> BusyUntil(p, sts[j].name) == Picks(cfg, sts[j], w, start, end, n + 1).busy
    ensures |p.trades| == PickSum(cfg, sts, w, start, end, |sts|, n + 1)
  {
    hide Picks, BusyUntil;
  }

  lemma {:induction false} NothingPickedYet(cfg: ReplayConfig, w: seq<Snapshot>, start: nat, end: nat, sts: seq<Strategy>, k: nat)
    requires end < |w| && k <= |sts|
    ensures PickSum(cfg, sts, w, start, end, k, 0) == 0
    ensures forall j :: 0 <= j < k ==> Picks(cfg, sts[j], w, start, end, 0).busy == -1
  {
    if k > 0 {
      NothingPickedYet(cfg, w, start, end, sts, k - 1);
    }
  }

  /** A bar outside the window moves no selection. */
  lemma {:induction false} PassedOver(cfg: ReplayConfig, w: seq<Snapshot>, start: nat, end: nat, sts: seq<Strategy>, k: nat, n: nat)
    requires end < |w| && n < |w| && (n < start || n > end) && k <= |sts|
    ensures PickSum(cfg, sts, w, start, end, k, n + 1) == PickSum(cfg, sts, w, start, end, k, n)
    ensures forall j :: 0 <= j < k ==> Picks(cfg, sts[j], w, start, end, n + 1) == Picks(cfg, sts[j], w, start, end, n)
  {
    hide Picks;
    if k > 0 {
      PassedOver(cfg, w, start, end, sts, k - 1, n);
      PicksStep(cfg, sts[k - 1], w, start, end, n);
    }
  }

  // ---- Raising costs --------------------------------------------------------------------------

  /** The same configuration with no cost lowered. */
  ghost predicate CostsRaised(cfg: ReplayConfig, dearer: ReplayConfig) {
    && dearer == cfg.(feeBps := dearer.feeBps, fundingBps := dearer.fundingBps, slippageBps := dearer.slippageBps)
    && cfg.feeBps <= dearer.feeBps && cfg.fundingBps <= dearer.fundingBps && cfg.slippageBps <= dearer.slippageBps
  }

  ghost predicate PositiveEntries(st: Strategy, w: seq<Snapshot>) {
    forall i :: 0 <= i < |w| && st.signal(w[i]).Some? ==> st.signal(w[i]).value.entry > 0.0
  }

  /** Dearer costs only shrink the set of bars that pass. */
  lemma DearerCostsPassFewer(cfg: ReplayConfig, dearer: ReplayConfig, st: Strategy, s: Snapshot)
    requires CostsRaised(cfg, dearer) && cfg.minEdgeCoverage >= 1.0
    requires st.signal(s).Some? ==> st.signal(s).value.entry > 0.0
    ensures Passes(dearer, st, s) ==> Passes(cfg, st, s)
  {
    hide Tradeable;
    if st.signal(s).Some? {
      var sig := st.signal(s).value;
      var cheap, dear := ExpectedCost(s, sig, cfg.Costs()), ExpectedCost(s, sig, dearer.Costs());
      assert OrderQuantity(dearer, s) == OrderQuantity(cfg, s);
      CostRises(cfg, dearer, s, sig);
      ScaleMonotone(cheap, dear, cfg.minEdgeCoverage);
      var a, b := cfg.minEdgeCoverage * cheap, dearer.minEdgeCoverage * dear;
      assert a <= b;
    }
  }

  lemma CostRises(cfg: ReplayConfig, dearer: ReplayConfig, s: Snapshot, sig: Signal)
    requires CostsRaised(cfg, dearer) && sig.entry > 0.0
    ensures ExpectedCost(s, sig, cfg.Costs()) <= ExpectedCost(s, sig, dearer.Costs())
  {
    ScaleMonotone(CostFraction(s, cfg.Costs()), CostFraction(s, dearer.Costs()), sig.entry);
  }

  /** What a caller can check beforehand: at the cheaper costs, no selection could take more bars than the greedy one does. */
  ghost predicate AllSaturated(cfg: ReplayConfig, sts: seq<Strategy>, w: seq<Snapshot>, start: nat, end: nat)
    requires end < |w|
  {
    forall k :: 0 <= k < |sts| ==> Saturated(PassSeq(cfg, sts[k], w, start, end), ExitSeq(sts[k], w, end))
  }

  /** One passing set for each strategy, contained in what passes at the given costs. */
  ghost predicate Thinned(masks: seq<seq<bool>>, cfg: ReplayConfig, sts: seq<Strategy>, w: seq<Snapshot>, start: nat, end: nat) {
    && |masks| == |sts|
    && forall k :: 0 <= k < |sts| ==> |masks[k]| == |w| && Subset(masks[k], PassSeq(cfg, sts[k], w, start, end))
  }

  /** What the strategies pick together when each may enter only the bars of its mask. */
  ghost function MaskedPicks(masks: seq<seq<bool>>, sts: seq<Strategy>, w: seq<Snapshot>, end: nat, k: nat): nat
    requires end < |w| && k <= |sts| == |masks| && forall j :: 0 <= j < |masks| ==> |masks[j]| == |w|
  {
    if k == 0 then 0
    else MaskedPicks(masks, sts, w, end, k - 1) + Greedy(masks[k - 1], ExitSeq(sts[k - 1], w, end)).count
  }

  ghost function Masks(cfg: ReplayConfig, sts: seq<Strategy>, w: seq<Snapshot>, start: nat, end: nat): seq<seq<bool>> {
    seq(|sts|, k requires 0 <= k < |sts| => PassSeq(cfg, sts[k], w, start, end))
  }

  /** The picks of a configuration are those of its own passing sets. */
  lemma {:induction false} PicksAreMasked(cfg: ReplayConfig, sts: seq<Strategy>, w: seq<Snapshot>, start: nat, end: nat, k: nat)
    requires end < |w| && k <= |sts|
    ensures PickSum(cfg, sts, w, start, end, k, |w|) == MaskedPicks(Masks(cfg, sts, w, start, end), sts, w, end, k)
  {
    hide PassSeq, ExitSeq;
    if k > 0 {
      PicksAreMasked(cfg, sts, w, start, end, k - 1);
      var pass, exits := PassSeq(cfg, sts[k - 1], w, start, end), ExitSeq(sts[k - 1], w, end);
      assert pass[..|w|] == pass && exits[..|w|] == exits;
    }
  }

  lemma {:induction false} MaskedWithinBest(masks: seq<seq<bool>>, cfg: ReplayConfig, sts: seq<Strategy>, w: seq<Snapshot>,
                                            start: nat, end: nat, k: nat)
    requires end < |w| && k <= |sts| && Thinned(masks, cfg, sts, w, start, end) && AllSaturated(cfg, sts, w, start, end)
    ensures MaskedPicks(masks, sts, w, end, k) <= MaskedPicks(Masks(cfg, sts, w, start, end), sts, w, end, k)
  {
    hide PassSeq, ExitSeq, Greedy, Best;
    if k > 0 {
      MaskedWithinBest(masks, cfg, sts, w, start, end, k - 1);
      var more, exits := PassSeq(cfg, sts[k - 1], w, start, end), ExitSeq(sts[k - 1], w, end);
      GreedyAtMostBest(masks[k - 1], more, exits);
      assert Saturated(more, exits);
    }
  }

  /** Thinning one strategy alone changes the sum by what that strategy's selection changes. */
  lemma {:induction false} OneMaskChanged(masks: seq<seq<bool>>, mask: seq<bool>, i: nat, sts: seq<Strategy>, w: seq<Snapshot>, end: nat, k: nat)
    requires end < |w| && k <= |sts| == |masks| && (forall j :: 0 <= j < |masks| ==> |masks[j]| == |w|)
    requires i < |masks| && |mask| == |w|
    ensures var exits := ExitSeq(sts[i], w, end);
            MaskedPicks(masks[i := mask], sts, w, end, k)
            == MaskedPicks(masks, sts, w, end, k)
               + if i < k then Greedy(mask, exits).count - Greedy(masks[i], exits).count else 0
  {
    hide Greedy, ExitSeq;
    if k > 0 {
      OneMaskChanged(masks, mask, i, sts, w, end, k - 1);
    }
  }

  /**
   A replay is safe from thinning, whichever of its passing bars are taken from whichever strategies, exactly
   when every strategy already takes as many as any selection could.
  */
  lemma ReplayNeverGainsIff(cfg: ReplayConfig, sts: seq<Strategy>, w: seq<Snapshot>, start: nat, end: nat)
    requires end < |w| && DistinctNames(sts)
    ensures (forall masks :: Thinned(masks, cfg, sts, w, start, end)
               ==> MaskedPicks(masks, sts, w, end, |sts|) <= |Bars(cfg, w, start, end, Registry(sts), |w|).trades|)
            <==> AllSaturated(cfg, sts, w, start, end)
  {
    hide Bars, PickSum, PassSeq, ExitSeq, Greedy, Best, MaskedPicks, BusyUntil, Registry, Picks;
    ReplayIsGreedy(cfg, w, start, end, sts, |w|);
    PicksAreMasked(cfg, sts, w, start, end, |sts|);
    var full := Masks(cfg, sts, w, start, end);
    if AllSaturated(cfg, sts, w, start, end) {
      forall masks | Thinned(masks, cfg, sts, w, start, end)
        ensures MaskedPicks(masks, sts, w, end, |sts|) <= MaskedPicks(full, sts, w, end, |sts|) {
        MaskedWithinBest(masks, cfg, sts, w, start, end, |sts|);
      }
    } else {
      var k :| 0 <= k < |sts| && !Saturated(PassSeq(cfg, sts[k], w, start, end), ExitSeq(sts[k], w, end));
      var masks := GainingMasks(cfg, sts, w, start, end, k);
    }
  }

  /** Where a strategy is not saturated, leaving it only a best selection of its bars gains trades. */
  lemma GainingMasks(cfg: ReplayConfig, sts: seq<Strategy>, w: seq<Snapshot>, start: nat, end: nat, k: nat) returns (masks: seq<seq<bool>>)
    requires end < |w| && k < |sts|
    requires !Saturated(PassSeq(cfg, sts[k], w, start, end), ExitSeq(sts[k], w, end))
    ensures Thinned(masks, cfg, sts, w, start, end)
    ensures MaskedPicks(masks, sts, w, end, |sts|) > MaskedPicks(Masks(cfg, sts, w, start, end), sts, w, end, |sts|)
  {
    hide PassSeq, ExitSeq, Greedy, Best, MaskedPicks, Chosen;
    var full := Masks(cfg, sts, w, start, end);
    var pass, exits := PassSeq(cfg, sts[k], w, start, end), ExitSeq(sts[k], w, end);
    GreedyTakesChosen(pass, exits, 0);
    GreedyAtMostBest(pass, pass, exits);
    var chosen := Chosen(pass, exits, 0);
    masks := full[k := chosen];
    OneMaskChanged(full, chosen, k, sts, w, end, |sts|);
  }

  lemma DearerIsThinned(cfg: ReplayConfig, dearer: ReplayConfig, sts: seq<Strategy>, w: seq<Snapshot>, start: nat, end: nat)
    requires CostsRaised(cfg, dearer) && cfg.minEdgeCoverage >= 1.0
    requires forall j :: 0 <= j < |sts| ==> PositiveEntries(sts[j], w)
    ensures Thinned(Masks(dearer, sts, w, start, end), cfg, sts, w, start, end)
  {
    hide Passes;
    forall k, i | 0 <= k < |sts| && 0 <= i < |w| && PassSeq(dearer, sts[k], w, start, end)[i]
      ensures PassSeq(cfg, sts[k], w, start, end)[i] {
      assert PositiveEntries(sts[k], w);
      DearerCostsPassFewer(cfg, dearer, sts[k], w[i]);
    }
  }

  /** Raising fee, funding or slippage never adds trades to a replay whose strategies are saturated. */
  lemma DearerCostsNeverAddTrades(cfg: ReplayConfig, dearer: ReplayConfig, sts: seq<Strategy>, w: seq<Snapshot>, start: nat, end: nat)
    requires end < |w| && DistinctNames(sts) && CostsRaised(cfg, dearer) && cfg.minEdgeCoverage >= 1.0
    requires AllSaturated(cfg, sts, w, start, end)
    requires forall j :: 0 <= j < |sts| ==> PositiveEntries(sts[j], w)
    ensures |Bars(dearer, w, start, end, Registry(sts), |w|).trades| <= |Bars(cfg, w, start, end, Registry(sts), |w|).trades|
  {
    hide Bars, PickSum, MaskedPicks, AllSaturated, Thinned, BusyUntil, Registry, Picks;
    ReplayIsGreedy(dearer, w, start, end, sts, |w|);
    PicksAreMasked(dearer, sts, w, start, end, |sts|);
    DearerIsThinned(cfg, dearer, sts, w, start, end);
    ReplayNeverGainsIff(cfg, sts, w, start, end);
  }

  function Stressed(cfg: ReplayConfig, feeMult: real, fundingMult: real, slippageMult: real): ReplayConfig {
    cfg.(feeBps := cfg.feeBps * feeMult, fundingBps := cfg.fundingBps * fundingMult, slippageBps := cfg.slippageBps * slippageMult)
  }

  /** Trusted data and a coverage multiple of at least one: what both replays demand. */
  ghost predicate StressInputs(snapshots: seq<Snapshot>, cfg: ReplayConfig) {
    ValidHistory(snapshots) && |snapshots| > 0 && cfg.minEdgeCoverage >= 1.0
  }

  /** Multipliers that do not lower costs, distinct strategies, and every strategy saturated at the cheaper costs. */
  ghost predicate CalmStress(snapshots: seq<Snapshot>, cfg: ReplayConfig, sts: seq<Strategy>,
                             feeMult: real, fundingMult: real, slippageMult: real)
    requires |snapshots| > 0
  {
    && feeMult >= 1.0 && fundingMult >= 1.0 && slippageMult >= 1.0
    && cfg.feeBps >= 0.0 && cfg.fundingBps >= 0.0 && cfg.slippageBps >= 0.0
    && DistinctNames(sts) && (forall j :: 0 <= j < |sts| ==> PositiveEntries(sts[j], snapshots))
    && AllSaturated(cfg, sts, snapshots, 0, |snapshots| - 1)
  }

  /** Trades closed by a replay of a whole history. */
  function TradesOf(cfg: ReplayConfig, w: seq<Snapshot>, sts: seq<Strategy>): nat
    requires |w| > 0
  {
    |Bars(cfg, w, 0, |w| - 1, Registry(sts), |w|).trades|
  }

  /** The assertion between the two replays fails exactly when the dearer one closes more; a calm stress never does. */
  method RunCombinedStress(snapshots: seq<Snapshot>, cfg: ReplayConfig, sts: seq<Strategy>, classify: Snapshot -> Regime,
                           feeMult: real, fundingMult: real, slippageMult: real) returns (r: Result<Report>)
    ensures var w := snapshots;
            var dear := cfg.(feeBps := cfg.feeBps * feeMult, fundingBps := cfg.fundingBps * fundingMult,
                             slippageBps := cfg.slippageBps * slippageMult);
            && (r.Ok? <==> StressInputs(w, cfg) && TradesOf(dear, w, sts) <= TradesOf(cfg, w, sts))
            && (r.Ok? ==> r.value == ReplayOf(dear, w, 0, |w| - 1, Registry(sts), classify))
            && (StressInputs(w, cfg) && CalmStress(w, cfg, sts, feeMult, fundingMult, slippageMult) ==> r.Ok?)
  {
    hide ReplayOf, TradesOf, CalmStress, ValidHistory, Registry;
    var gens := Registry(sts);
    var base := RunBaseline(snapshots, cfg, 0, None, gens, classify);
    if base.Err? {
      return base;
    }
    var dear := Stressed(cfg, feeMult, fundingMult, slippageMult);
    assert dear == cfg.(feeBps := cfg.feeBps * feeMult, fundingBps := cfg.fundingBps * fundingMult,
                        slippageBps := cfg.slippageBps * slippageMult);
    var stressed := RunBaseline(snapshots, dear, 0, None, gens, classify);
    if stressed.Err? {
      return stressed;
    }
    ReportCountsTrades(snapshots, cfg, sts, classify);
    ReportCountsTrades(snapshots, dear, sts, classify);
    if CalmStress(snapshots, cfg, sts, feeMult, fundingMult, slippageMult) {
      CalmStressAddsNothing(snapshots, cfg, sts, feeMult, fundingMult, slippageMult);
    }
    if stressed.value.closedTrades > base.value.closedTrades {
      return Err("combined stress added trades versus baseline");
    }
    return stressed;
  }

  lemma CalmStressAddsNothing(w: seq<Snapshot>, cfg: ReplayConfig, sts: seq<Strategy>,
                              feeMult: real, fundingMult: real, slippageMult: real)
    requires StressInputs(w, cfg) && CalmStress(w, cfg, sts, feeMult, fundingMult, slippageMult)
    ensures TradesOf(Stressed(cfg, feeMult, fundingMult, slippageMult), w, sts) <= TradesOf(cfg, w, sts)
  {
    hide Bars, ValidHistory, Registry, AllSaturated;
    ScaleMonotone(1.0, feeMult, cfg.feeBps);
    ScaleMonotone(1.0, fundingMult, cfg.fundingBps);
    ScaleMonotone(1.0, slippageMult, cfg.slippageBps);
    DearerCostsNeverAddTrades(cfg, Stressed(cfg, feeMult, fundingMult, slippageMult), sts, w, 0, |w| - 1);
  }

  lemma ReportCountsTrades(w: seq<Snapshot>, cfg: ReplayConfig, sts: seq<Strategy>, classify: Snapshot -> Regime)
    requires |w| > 0
    ensures ReplayOf(cfg, w, 0, |w| - 1, Registry(sts), classify).closedTrades == TradesOf(cfg, w, sts)
  {
  }

  // ---- Without saturation the claim is false -------------------------------------------------

  function Bar(hash: string, mark: real): Snapshot {
    Snapshot("X", mark, mark, mark, None, 0, 0, hash, hash, [])
  }

  const FOUR_BARS := [Bar("0", 100.0), Bar("1", 100.0), Bar("2", 101.0), Bar("3", 101.0)]

  /** A thin early signal that would hold to the end, and two fat ones, the first of which leaves one bar later. */
  const EARLY_BIRD := Strategy("s", (s: Snapshot) =>
    if s.hash == "0" then Some(Signal(BUY, 100.0, 50.0, 200.0, 0.025))
    else if s.hash == "1" then Some(Signal(BUY, 100.0, 50.0, 101.0, 1.0))
    else if s.hash == "3" then Some(Signal(BUY, 101.0, 50.0, 200.0, 1.0))
    else None)

  const ONE_BPS := ReplayConfig(1.0, 1.0, 0.0, 0.0, false, 1.0, 0.0)

  lemma OneContractTrades()
    ensures OrderQuantity(ONE_BPS, FOUR_BARS[0]) == 1.0 && Tradeable("X", 1.0)
    ensures forall s: Snapshot :: OrderQuantity(ONE_BPS, s) == OrderQuantity(ONE_BPS, FOUR_BARS[0])
  {
    assert 1.0 / 0.001 == 1000.0 && 100.0 / 0.01 == 10000.0;
    assert StepsIn(1.0, 0.001) == 1000;
  }

  /** One contract at a price near a hundred costs a basis point twice over, which each of the edges is compared with. */
  lemma FourBarPass(feeBps: real, i: nat)
    requires (feeBps == 1.0 || feeBps == 1.5) && i < 4
    ensures Passes(ONE_BPS.(feeBps := feeBps), EARLY_BIRD, FOUR_BARS[i]) == [feeBps == 1.0, true, false, true][i]
  {
    OneContractTrades();
    hide Tradeable, FloorToStep, OrderQuantity;
    var cfg := ONE_BPS.(feeBps := feeBps);
    SameQuantity(feeBps, FOUR_BARS[i]);
  }

  lemma SameQuantity(feeBps: real, s: Snapshot)
    ensures OrderQuantity(ONE_BPS.(feeBps := feeBps), s) == OrderQuantity(ONE_BPS, s)
  {
    hide FloorToStep;
  }

  lemma FourBarPasses(feeBps: real)
    requires feeBps == 1.0 || feeBps == 1.5
    ensures PassSeq(ONE_BPS.(feeBps := feeBps), EARLY_BIRD, FOUR_BARS, 0, 3) == [feeBps == 1.0, true, false, true]
  {
    hide Passes;
    forall i | 0 <= i < 4
      ensures PassSeq(ONE_BPS.(feeBps := feeBps), EARLY_BIRD, FOUR_BARS, 0, 3)[i] == [feeBps == 1.0, true, false, true][i] {
      FourBarPass(feeBps, i);
    }
  }

  lemma FourBarExits()
    ensures ExitSeq(EARLY_BIRD, FOUR_BARS, 3) == [3, 2, 2, 3]
  {
    var exits := ExitSeq(EARLY_BIRD, FOUR_BARS, 3);
    assert exits[0] == 3 && exits[1] == 2 && exits[2] == 2 && exits[3] == 3;
  }

  lemma FourPicks(early: bool)
    ensures Greedy([early, true, false, true], [3, 2, 2, 3]).count == if early then 1 else 2
  {
    var pass, exits := [early, true, false, true], [3, 2, 2, 3];
    assert pass[..3] == [early, true, false] && exits[..3] == [3, 2, 2];
    assert [early, true, false][..2] == [early, true] && [3, 2, 2][..2] == [3, 2];
    assert [early, true][..1] == [early] && [3, 2][..1] == [3];
    var none: seq<bool> := [];
    assert [early][..0] == none && Greedy(none, []) == Selection(0, -1);
    assert Greedy([early], [3]) == if early then Selection(1, 3) else Selection(0, -1);
    assert Greedy([early, true], [3, 2]) == if early then Selection(1, 3) else Selection(1, 2);
    assert Greedy([early, true, false], [3, 2, 2]) == Greedy([early, true], [3, 2]);
  }

  /** Half as much fee again drops the early entry and frees the strategy for two trades instead of one. */
  lemma StressCanAddTrades()
    ensures var dear := Stressed(ONE_BPS, 1.5, 2.0, 1.5);
            && ValidHistory(FOUR_BARS) && CostsRaised(ONE_BPS, dear)
            && TradesOf(ONE_BPS, FOUR_BARS, [EARLY_BIRD]) == 1 && TradesOf(dear, FOUR_BARS, [EARLY_BIRD]) == 2
  {
    hide Bars, Passes, ExitOf, PassSeq, ExitSeq, BusyUntil, Greedy;
    var dear := Stressed(ONE_BPS, 1.5, 2.0, 1.5);
    assert dear == ONE_BPS.(feeBps := 1.5);
    FourBarPasses(1.0);
    FourBarPasses(1.5);
    FourBarExits();
    FourPicks(true);
    FourPicks(false);
    ReplayIsGreedy(ONE_BPS, FOUR_BARS, 0, 3, [EARLY_BIRD], 4);
    ReplayIsGreedy(dear, FOUR_BARS, 0, 3, [EARLY_BIRD], 4);
    OneStrategy(ONE_BPS);
    OneStrategy(dear);
  }

  lemma OneStrategy(cfg: ReplayConfig)
    ensures PickSum(cfg, [EARLY_BIRD], FOUR_BARS, 0, 3, 1, 4)
         == Greedy(PassSeq(cfg, EARLY_BIRD, FOUR_BARS, 0, 3), ExitSeq(EARLY_BIRD, FOUR_BARS, 3)).count
  {
    hide Passes, ExitOf, Greedy;
    var pass, exits := PassSeq(cfg, EARLY_BIRD, FOUR_BARS, 0, 3), ExitSeq(EARLY_BIRD, FOUR_BARS, 3);
    assert pass[..4] == pass && exits[..4] == exits;
  }
}
