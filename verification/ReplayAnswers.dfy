/**
 What a replay's report says about its trades, column by column, and when a strategy enters a bar or is gated
 (src/evaluation/baseline.py).
*/
module ReplayAnswers {
  import opened Common
  import opened Venue
  import opened ReplayModel
  import opened ReplayEpisode
  import opened ReplayReport
  import opened ReplayLaws

  // ---- The columns of a row ----------------------------------------------------------------------

  ghost function SumBy(trades: seq<Trade>, value: Trade -> real): real {
    if |trades| == 0 then 0.0 else SumBy(trades[..|trades| - 1], value) + value(trades[|trades| - 1])
  }

  /** Counts a value only for the trades that carry the key. */
  ghost function Only<K>(key: Trade -> K, k: K, value: Trade -> real): Trade -> real {
    (t: Trade) => if key(t) == k then value(t) else 0.0
  }

  ghost function Carriers<K>(key: Trade -> K, k: K, trades: seq<Trade>): set<nat> {
    set i: nat | i < |trades| && key(trades[i]) == k
  }

  /** Every column of a row adds up that column over the trades that carry its key, and it counts them. */
  ghost predicate AddsUp<K>(key: Trade -> K, k: K, trades: seq<Trade>, r: Row) {
    && r.closed == |Carriers(key, k, trades)|
    && r.gross == SumBy(trades, Only(key, k, (t: Trade) => t.gross))
    && r.fees == SumBy(trades, Only(key, k, (t: Trade) => t.fees))
    && r.spread == SumBy(trades, Only(key, k, (t: Trade) => t.spread))
    && r.slippage == SumBy(trades, Only(key, k, (t: Trade) => t.slippage))
    && r.funding == SumBy(trades, Only(key, k, (t: Trade) => t.funding))
  }

  lemma {:induction false} RowAddsUp<K>(key: Trade -> K, k: K, trades: seq<Trade>)
    ensures AddsUp(key, k, trades, RowFor(key, k, trades))
  {
    if |trades| > 0 {
      var n := |trades| - 1;
      RowAddsUp(key, k, trades[..n]);
      assert Carriers(key, k, trades) == Carriers(key, k, trades[..n]) + if key(trades[n]) == k then {n} else {};
    } else {
      assert Carriers(key, k, trades) == {};
    }
  }

  lemma {:induction false} NotionalAddsUp(trades: seq<Trade>)
    ensures NotionalSum(trades) == SumBy(trades, (t: Trade) => t.notional)
  {
    if |trades| > 0 {
      NotionalAddsUp(trades[..|trades| - 1]);
    }
  }

  ghost function LeftAtEnd(trades: seq<Trade>): set<nat> { set i: nat | i < |trades| && trades[i].endOfReplay }

  lemma {:induction false} EndClosesAreCounted(trades: seq<Trade>)
    ensures EndCloses(trades) == |LeftAtEnd(trades)|
  {
    if |trades| > 0 {
      var n := |trades| - 1;
      EndClosesAreCounted(trades[..n]);
      assert LeftAtEnd(trades) == LeftAtEnd(trades[..n]) + if trades[n].endOfReplay then {n} else {};
    }
  }

  lemma {:induction false} HashesOfWindow(w: seq<Snapshot>, start: nat, end: nat, n: nat, k: nat)
    requires start <= end && n <= |w|
    ensures |Hashes(w, start, end, n)| == MaxInt(0, MinInt(n, end + 1) - start)
    ensures k < |Hashes(w, start, end, n)| ==> Hashes(w, start, end, n)[k] == w[start + k].hash
  {
    if n > 0 {
      HashesOfWindow(w, start, end, n - 1, k);
    }
  }

  /**
   A report is its trades added up: every column of the totals, of each strategy and of each regime, the counts,
   the profits in order, the average notional, the visited bars, and the reason.
  */
  lemma ReportAddsUp(cfg: ReplayConfig, w: seq<Snapshot>, start: nat, end: nat, gens: seq<Generator>, classify: Snapshot -> Regime, k: nat)
    requires start <= end < |w|
    ensures var trades := Bars(cfg, w, start, end, gens, |w|).trades;
            var r := ReplayOf(cfg, w, start, end, gens, classify);
            && AddsUp(AllKey(), true, trades, r.totals)
            && (forall name :: name in r.byStrategy ==> AddsUp(NameKey(), name, trades, r.byStrategy[name]))
            && (forall c :: c in r.byRegime && AddsUp(RegimeKey(classify), c, trades, r.byRegime[c]))
            && (forall g :: g in gens ==> g.name in r.byStrategy)
            && r.closedTrades == |trades| && r.endOfReplayCloses == |LeftAtEnd(trades)|
            && |r.tradePnls| == |trades|
            && (k < |trades| ==> var t := trades[k]; r.tradePnls[k] == t.gross - t.fees - t.spread - t.slippage - t.funding)
            && (if |trades| == 0 then r.averageNotional == 0.0
                else r.averageNotional * (|trades| as real) == SumBy(trades, (t: Trade) => t.notional))
            && |r.hashes| == end - start + 1 && (k <= end - start ==> r.hashes[k] == w[start + k].hash)
            && (r.reason == "INCONCLUSIVE_NO_CLOSED_TRADES" <==> |trades| == 0)
            && (r.reason == "NEGATIVE_NET_PNL" <==> |trades| > 0 && SumReals(r.tradePnls) < 0.0)
            && (r.reason == "POSITIVE_EVIDENCE_REQUIRED" <==> |trades| > 0 && SumReals(r.tradePnls) >= 0.0)
  {
    hide Bars, Hashes, AddsUp, RowFor, LeftAtEnd, SumBy, SumReals;
    var trades := Bars(cfg, w, start, end, gens, |w|).trades;
    RowAddsUp(AllKey(), true, trades);
    forall name ensures AddsUp(NameKey(), name, trades, RowFor(NameKey(), name, trades)) { RowAddsUp(NameKey(), name, trades); }
    forall c ensures c in REGIMES && AddsUp(RegimeKey(classify), c, trades, RowFor(RegimeKey(classify), c, trades)) {
      RegimesAreAll(c);
      RowAddsUp(RegimeKey(classify), c, trades);
    }
    forall g | g in gens ensures g.name in Names(gens) { }
    EndClosesAreCounted(trades);
    NotionalAddsUp(trades);
    HashesOfWindow(w, start, end, |w|, k);
    TotalsAgree(cfg, w, start, end, gens, classify);
    if |trades| > 0 {
      DivideCancels(NotionalSum(trades), |trades| as real);
    }
  }

  // ---- Which bars a strategy enters ----------------------------------------------------------------

  ghost predicate DistinctGenerators(gens: seq<Generator>) {
    forall a, b :: 0 <= a < b < |gens| ==> gens[a].name != gens[b].name
  }

  /** No trade of that strategy still runs at bar j. */
  ghost predicate Free(trades: seq<Trade>, name: string, j: int) {
    forall t :: t in trades && t.name == name ==> !(t.entryIndex < j <= t.exitIndex)
  }

  /** What the strategy proposes at a bar when told the configured costs. */
  function Proposals(cfg: ReplayConfig, w: seq<Snapshot>, g: Generator, j: nat): seq<Candidate>
    requires j < |w|
  {
    g.propose(w[j], CostAssumptions(cfg.feeBps, cfg.fundingBps, cfg.slippageBps))
  }

  /** Its first proposal has an edge that covers its cost as often as demanded. */
  predicate Covers(cfg: ReplayConfig, w: seq<Snapshot>, g: Generator, j: nat)
    requires j < |w|
  {
    var cs := Proposals(cfg, w, g, j);
    |cs| > 0 && cfg.minEdgeCoverage * cs[0].expectedCost <= cs[0].expectedMove
  }

  /** The trade a strategy would make at a bar: the side and levels of its first proposal, the size of the configuration. */
  function TradeOf(cfg: ReplayConfig, w: seq<Snapshot>, end: nat, g: Generator, j: nat): Trade
    requires j <= end < |w| && Covers(cfg, w, g, j)
  {
    var c := Proposals(cfg, w, g, j)[0];
    TradeAt(cfg, w, end, j, Entry(g.name, c.side, OrderQuantity(cfg, w[j]), c.stop, c.target))
  }

  lemma TradeOfIdentity(cfg: ReplayConfig, w: seq<Snapshot>, end: nat, g: Generator, j: nat)
    requires j <= end < |w| && Covers(cfg, w, g, j)
    ensures var t := TradeOf(cfg, w, end, g, j); (t.name, t.entryIndex) == (g.name, j) && j <= t.exitIndex
  {
    hide TradeAt;
    var c := Proposals(cfg, w, g, j)[0];
    TradeIdentity(cfg, w, end, j, Entry(g.name, c.side, OrderQuantity(cfg, w[j]), c.stop, c.target));
  }

  predicate Sizeable(cfg: ReplayConfig, s: Snapshot) { Tradeable(s.symbol, OrderQuantity(cfg, s)) }

  /** The trades hold an entry of this strategy at bar j exactly when it was free, covered its cost and had a size. */
  ghost predicate Decided(cfg: ReplayConfig, w: seq<Snapshot>, end: nat, g: Generator, j: nat, trades: seq<Trade>)
    requires j <= end < |w|
  {
    && (Free(trades, g.name, j) && Covers(cfg, w, g, j) && Sizeable(cfg, w[j]) ==> TradeOf(cfg, w, end, g, j) in trades)
    && forall t :: t in trades && t.name == g.name && t.entryIndex == j ==>
         Free(trades, g.name, j) && Covers(cfg, w, g, j) && Sizeable(cfg, w[j]) && t == TradeOf(cfg, w, end, g, j)
  }

  /** A bar and a strategy that a replay reaches before it shows bar i to strategy k. */
  predicate Reached(start: nat, end: nat, n: nat, j: nat, m: nat, i: nat, k: nat) {
    start <= j <= end && m < n && (j < i || (j == i && m < k))
  }

  /** Visits that found the strategy free but its first proposal too thin. */
  ghost function Gated(cfg: ReplayConfig, w: seq<Snapshot>, start: nat, end: nat, gens: seq<Generator>,
                       trades: seq<Trade>, i: nat, k: nat): set<(nat, nat)>
    requires end < |w|
  {
    set j: nat, m: nat | j <= end && m < |gens| && Reached(start, end, |gens|, j, m, i, k)
                         && Free(trades, gens[m].name, j) && |Proposals(cfg, w, gens[m], j)| > 0 && !Covers(cfg, w, gens[m], j) :: (j, m)
  }

  /** Everything reached so far is decided, nothing else has been entered, and each strategy is busy until its last exit. */
  ghost predicate Told(cfg: ReplayConfig, w: seq<Snapshot>, start: nat, end: nat, gens: seq<Generator>, i: nat, k: nat, p: Progress)
    requires end < |w|
  {
    && (forall j: nat, m: nat {:trigger Reached(start, end, |gens|, j, m, i, k)} ::
          Reached(start, end, |gens|, j, m, i, k) ==> Decided(cfg, w, end, gens[m], j, p.trades))
    && (forall t :: t in p.trades ==> exists m: nat :: m < |gens| && t.name == gens[m].name
                                                       && t.entryIndex >= 0 && Reached(start, end, |gens|, t.entryIndex, m, i, k))
    && (forall t :: t in p.trades ==> t.exitIndex <= BusyUntil(p, t.name))
    && (forall g :: g in gens && BusyUntil(p, g.name) >= 0 ==> exists t :: t in p.trades && t.name == g.name && t.exitIndex == BusyUntil(p, g.name))
    && p.skipped == |Gated(cfg, w, start, end, gens, p.trades, i, k)|
  }

  lemma FreeIffIdle(cfg: ReplayConfig, w: seq<Snapshot>, start: nat, end: nat, gens: seq<Generator>, i: nat, k: nat, p: Progress)
    requires end < |w| && k < |gens| && DistinctGenerators(gens) && Told(cfg, w, start, end, gens, i, k, p)
    ensures Free(p.trades, gens[k].name, i) <==> i > BusyUntil(p, gens[k].name)
  {
    hide Decided, Gated, BusyUntil;
    assert gens[k] in gens;
    forall t | t in p.trades && t.name == gens[k].name ensures t.entryIndex < i {
      var m: nat :| m < |gens| && t.name == gens[m].name && t.entryIndex >= 0 && Reached(start, end, |gens|, t.entryIndex, m, i, k);
    }
  }

  lemma ReachedNext(start: nat, end: nat, n: nat, j: nat, m: nat, i: nat, k: nat)
    requires start <= i <= end && k < n
    ensures Reached(start, end, n, j, m, i, k + 1) <==> Reached(start, end, n, j, m, i, k) || (j == i && m == k)
  {
  }

  lemma NotYetReached(start: nat, end: nat, n: nat, i: nat, k: nat)
    ensures !Reached(start, end, n, i, k, i, k)
  {
  }

  lemma GatedNext(cfg: ReplayConfig, w: seq<Snapshot>, start: nat, end: nat, gens: seq<Generator>, trades: seq<Trade>, i: nat, k: nat)
    requires start <= i <= end < |w| && k < |gens|
    ensures var thin := Free(trades, gens[k].name, i) && |Proposals(cfg, w, gens[k], i)| > 0 && !Covers(cfg, w, gens[k], i);
            |Gated(cfg, w, start, end, gens, trades, i, k + 1)| == |Gated(cfg, w, start, end, gens, trades, i, k)| + if thin then 1 else 0
  {
    hide Free, Proposals, Covers, Reached;
    var thin := Free(trades, gens[k].name, i) && |Proposals(cfg, w, gens[k], i)| > 0 && !Covers(cfg, w, gens[k], i);
    forall j: nat, m: nat
      ensures Reached(start, end, |gens|, j, m, i, k + 1) <==> Reached(start, end, |gens|, j, m, i, k) || (j == i && m == k) {
      ReachedNext(start, end, |gens|, j, m, i, k);
    }
    assert !Reached(start, end, |gens|, i, k, i, k) by { NotYetReached(start, end, |gens|, i, k); }
    assert Gated(cfg, w, start, end, gens, trades, i, k + 1) == Gated(cfg, w, start, end, gens, trades, i, k) + if thin then {(i, k)} else {};
  }

  /** A visit that enters nothing. */
  lemma StaysTold(cfg: ReplayConfig, w: seq<Snapshot>, start: nat, end: nat, gens: seq<Generator>, i: nat, k: nat, p: Progress, p': Progress)
    requires start <= i <= end < |w| && k < |gens| && DistinctGenerators(gens) && Told(cfg, w, start, end, gens, i, k, p)
    requires !(Free(p.trades, gens[k].name, i) && Covers(cfg, w, gens[k], i) && Sizeable(cfg, w[i]))
    requires p' == p.(skipped := p.skipped + if Free(p.trades, gens[k].name, i) && |Proposals(cfg, w, gens[k], i)| > 0 && !Covers(cfg, w, gens[k], i) then 1 else 0)
    ensures Told(cfg, w, start, end, gens, i, k + 1, p')
  {
    hide Gated, Free, Covers, Proposals, Sizeable, TradeOf;
    GatedNext(cfg, w, start, end, gens, p.trades, i, k);
    forall t | t in p.trades && t.name == gens[k].name ensures t.entryIndex != i {
      var m: nat :| m < |gens| && t.name == gens[m].name && t.entryIndex >= 0 && Reached(start, end, |gens|, t.entryIndex, m, i, k);
    }
    forall j: nat, m: nat | Reached(start, end, |gens|, j, m, i, k + 1) ensures Decided(cfg, w, end, gens[m], j, p.trades) {
      ReachedNext(start, end, |gens|, j, m, i, k);
    }
    forall t | t in p.trades
      ensures exists m: nat :: m < |gens| && t.name == gens[m].name && t.entryIndex >= 0 && Reached(start, end, |gens|, t.entryIndex, m, i, k + 1) {
      var m: nat :| m < |gens| && t.name == gens[m].name && t.entryIndex >= 0 && Reached(start, end, |gens|, t.entryIndex, m, i, k);
      ReachedNext(start, end, |gens|, t.entryIndex, m, i, k);
    }
  }

  /** A trade entered at bar i keeps nobody from bars up to i. */
  lemma FreeBefore(trades: seq<Trade>, t: Trade, name: string, j: int)
    requires j <= t.entryIndex
    ensures Free(trades + [t], name, j) <==> Free(trades, name, j)
  {
    forall s | s in trades ensures s in trades + [t] { }
  }

  lemma GatedBefore(cfg: ReplayConfig, w: seq<Snapshot>, start: nat, end: nat, gens: seq<Generator>, trades: seq<Trade>, t: Trade, i: nat, k: nat)
    requires end < |w| && t.entryIndex == i
    ensures Gated(cfg, w, start, end, gens, trades + [t], i, k) == Gated(cfg, w, start, end, gens, trades, i, k)
  {
    hide Free, Proposals, Covers;
    forall j: nat, m: nat | m < |gens| && Reached(start, end, |gens|, j, m, i, k)
      ensures Free(trades + [t], gens[m].name, j) <==> Free(trades, gens[m].name, j) {
      FreeBefore(trades, t, gens[m].name, j);
    }
  }

  lemma DecidedBefore(cfg: ReplayConfig, w: seq<Snapshot>, end: nat, g: Generator, j: nat, trades: seq<Trade>, t: Trade)
    requires j <= end < |w| && j <= t.entryIndex && (t.name != g.name || j < t.entryIndex) && Decided(cfg, w, end, g, j, trades)
    ensures Decided(cfg, w, end, g, j, trades + [t])
  {
    hide Free, Covers, Proposals, Sizeable, TradeOf;
    FreeBefore(trades, t, g.name, j);
  }

  /** A visit that enters. */
  lemma EntersTold(cfg: ReplayConfig, w: seq<Snapshot>, start: nat, end: nat, gens: seq<Generator>, i: nat, k: nat, p: Progress, p': Progress)
    requires start <= i <= end < |w| && k < |gens| && DistinctGenerators(gens) && Told(cfg, w, start, end, gens, i, k, p)
    requires Free(p.trades, gens[k].name, i) && Covers(cfg, w, gens[k], i) && Sizeable(cfg, w[i])
    requires var t := TradeOf(cfg, w, end, gens[k], i);
             p' == p.(trades := p.trades + [t], busy := p.busy[gens[k].name := t.exitIndex])
    requires i > BusyUntil(p, gens[k].name)
    ensures Told(cfg, w, start, end, gens, i, k + 1, p')
  {
    hide Gated, Free, Covers, Proposals, Sizeable, TradeOf;
    var g, t := gens[k], TradeOf(cfg, w, end, gens[k], i);
    TradeOfIdentity(cfg, w, end, g, i);
    GatedNext(cfg, w, start, end, gens, p'.trades, i, k);
    GatedBefore(cfg, w, start, end, gens, p.trades, t, i, k);
    FreeBefore(p.trades, t, g.name, i);
    forall s | s in p.trades && s.name == g.name ensures s.entryIndex != i && s.exitIndex <= BusyUntil(p, g.name) {
      var m: nat :| m < |gens| && s.name == gens[m].name && s.entryIndex >= 0 && Reached(start, end, |gens|, s.entryIndex, m, i, k);
    }
    forall j: nat, m: nat | Reached(start, end, |gens|, j, m, i, k + 1) ensures Decided(cfg, w, end, gens[m], j, p'.trades) {
      ReachedNext(start, end, |gens|, j, m, i, k);
      if !(j == i && m == k) {
        DecidedBefore(cfg, w, end, gens[m], j, p.trades, t);
      }
    }
    forall s | s in p'.trades
      ensures exists m: nat :: m < |gens| && s.name == gens[m].name && s.entryIndex >= 0 && Reached(start, end, |gens|, s.entryIndex, m, i, k + 1) {
      if s in p.trades {
        var m: nat :| m < |gens| && s.name == gens[m].name && s.entryIndex >= 0 && Reached(start, end, |gens|, s.entryIndex, m, i, k);
        ReachedNext(start, end, |gens|, s.entryIndex, m, i, k);
      } else {
        assert Reached(start, end, |gens|, i, k, i, k + 1);
      }
    }
    BusyTold(gens, p, p', t, g.name);
  }

  /** The strategy that entered is busy until its trade's exit, the others as before. */
  lemma BusyTold(gens: seq<Generator>, p: Progress, p': Progress, t: Trade, name: string)
    requires p' == p.(trades := p.trades + [t], busy := p.busy[name := t.exitIndex]) && t.name == name
    requires forall s :: s in p.trades ==> s.exitIndex <= BusyUntil(p, s.name)
    requires BusyUntil(p, name) <= t.exitIndex
    requires forall g :: g in gens && BusyUntil(p, g.name) >= 0 ==> exists s :: s in p.trades && s.name == g.name && s.exitIndex == BusyUntil(p, g.name)
    ensures forall s :: s in p'.trades ==> s.exitIndex <= BusyUntil(p', s.name)
    ensures forall g :: g in gens && BusyUntil(p', g.name) >= 0 ==> exists s :: s in p'.trades && s.name == g.name && s.exitIndex == BusyUntil(p', g.name)
  {
    forall g | g in gens && BusyUntil(p', g.name) >= 0
      ensures exists s :: s in p'.trades && s.name == g.name && s.exitIndex == BusyUntil(p', g.name) {
      if g.name == name {
        assert t in p'.trades;
      } else {
        var s :| s in p.trades && s.name == g.name && s.exitIndex == BusyUntil(p, g.name);
        assert s in p'.trades;
      }
    }
  }

  lemma VisitTells(cfg: ReplayConfig, w: seq<Snapshot>, start: nat, end: nat, gens: seq<Generator>, i: nat, k: nat, p: Progress)
    requires start <= i <= end < |w| && k < |gens| && DistinctGenerators(gens) && Told(cfg, w, start, end, gens, i, k, p)
    ensures Told(cfg, w, start, end, gens, i, k + 1, Visit(cfg, w, end, gens[k], i, p))
  {
    hide Told, TradeAt, OrderQuantity, Tradeable, Free, BusyUntil;
    FreeIffIdle(cfg, w, start, end, gens, i, k, p);
    var p' := Visit(cfg, w, end, gens[k], i, p);
    if Free(p.trades, gens[k].name, i) && Covers(cfg, w, gens[k], i) && Sizeable(cfg, w[i]) {
      EntersTold(cfg, w, start, end, gens, i, k, p, p');
    } else {
      StaysTold(cfg, w, start, end, gens, i, k, p, p');
    }
  }

  lemma {:induction false} VisitsTell(cfg: ReplayConfig, w: seq<Snapshot>, start: nat, end: nat, gens: seq<Generator>, k: nat, i: nat, p: Progress)
    requires start <= i <= end < |w| && k <= |gens| && DistinctGenerators(gens) && Told(cfg, w, start, end, gens, i, 0, p)
    ensures Told(cfg, w, start, end, gens, i, k, VisitAll(cfg, w, end, gens, k, i, p))
  {
    hide Told, Visit;
    if k > 0 {
      VisitsTell(cfg, w, start, end, gens, k - 1, i, p);
      VisitTells(cfg, w, start, end, gens, i, k - 1, VisitAll(cfg, w, end, gens, k - 1, i, p));
    }
  }

  /** After the last strategy, or over a bar outside the window, the next bar is due. */
  lemma NextBarTold(cfg: ReplayConfig, w: seq<Snapshot>, start: nat, end: nat, gens: seq<Generator>, i: nat, k: nat, p: Progress)
    requires end < |w| && Told(cfg, w, start, end, gens, i, k, p) && (k == |gens| || !(start <= i <= end))
    ensures Told(cfg, w, start, end, gens, i + 1, 0, p)
  {
    hide Decided, Free, Covers, Proposals;
    forall j: nat, m: nat | Reached(start, end, |gens|, j, m, i + 1, 0) ensures Decided(cfg, w, end, gens[m], j, p.trades) {
      assert Reached(start, end, |gens|, j, m, i, k);
    }
    forall t | t in p.trades
      ensures exists m: nat :: m < |gens| && t.name == gens[m].name && t.entryIndex >= 0 && Reached(start, end, |gens|, t.entryIndex, m, i + 1, 0) {
      var m: nat :| m < |gens| && t.name == gens[m].name && t.entryIndex >= 0 && Reached(start, end, |gens|, t.entryIndex, m, i, k);
      assert Reached(start, end, |gens|, t.entryIndex, m, i + 1, 0);
    }
    assert Gated(cfg, w, start, end, gens, p.trades, i + 1, 0) == Gated(cfg, w, start, end, gens, p.trades, i, k);
  }

  lemma NothingTold(cfg: ReplayConfig, w: seq<Snapshot>, start: nat, end: nat, gens: seq<Generator>)
    requires end < |w|
    ensures Told(cfg, w, start, end, gens, 0, 0, START)
  {
    assert Gated(cfg, w, start, end, gens, [], 0, 0) == {};
  }

  lemma {:induction false} EveryVisitTold(cfg: ReplayConfig, w: seq<Snapshot>, start: nat, end: nat, gens: seq<Generator>, n: nat)
    requires end < |w| && n <= |w| && DistinctGenerators(gens)
    ensures Told(cfg, w, start, end, gens, n, 0, Bars(cfg, w, start, end, gens, n))
  {
    hide Told, VisitAll;
    if n == 0 {
      NothingTold(cfg, w, start, end, gens);
    } else {
      EveryVisitTold(cfg, w, start, end, gens, n - 1);
      var p := Bars(cfg, w, start, end, gens, n - 1);
      if start <= n - 1 <= end {
        VisitsTell(cfg, w, start, end, gens, |gens|, n - 1, p);
        NextBarTold(cfg, w, start, end, gens, n - 1, |gens|, VisitAll(cfg, w, end, gens, |gens|, n - 1, p));
      } else {
        NextBarTold(cfg, w, start, end, gens, n - 1, 0, p);
      }
    }
  }

  /**
   In every replay of distinctly named strategies, a strategy enters a bar of the window exactly when none of its
   trades still runs there, its first proposal covers its cost, and the venue takes the size; the trade is the one
   that proposal makes, and the skipped count is the number of free visits whose proposal was too thin.
  */
  lemma EntersIff(cfg: ReplayConfig, w: seq<Snapshot>, start: nat, end: nat, gens: seq<Generator>, classify: Snapshot -> Regime, j: nat, m: nat)
    requires start <= j <= end < |w| && m < |gens| && DistinctGenerators(gens)
    ensures var trades, g := Bars(cfg, w, start, end, gens, |w|).trades, gens[m];
            && ((exists t :: t in trades && t.name == g.name && t.entryIndex == j)
                <==> Free(trades, g.name, j) && Covers(cfg, w, g, j)
                     && Tradeable(w[j].symbol, FloorToStep(EffectiveQuantity(cfg, w[j].mark), DEFAULT_VENUE.quantityStep)))
            && (forall t :: t in trades && t.name == g.name && t.entryIndex == j ==> Covers(cfg, w, g, j) && t == TradeOf(cfg, w, end, g, j))
            && ReplayOf(cfg, w, start, end, gens, classify).skipped == |Gated(cfg, w, start, end, gens, trades, |w|, 0)|
  {
    hide Bars, Free, Covers, Proposals, TradeOf, Gated, Hashes, Tradeable, FloorToStep, EffectiveQuantity;
    EveryVisitTold(cfg, w, start, end, gens, |w|);
    assert Reached(start, end, |gens|, j, m, |w|, 0);
    if Covers(cfg, w, gens[m], j) {
      TradeOfIdentity(cfg, w, end, gens[m], j);
    }
  }

  // ---- Which sizes a replay can trade ----------------------------------------------------------------

  lemma DefaultLeast()
    ensures DEFAULT_VENUE.Valid() && LeastSteps(DEFAULT_VENUE, 100.0) == 10
    ensures Offered(DEFAULT_VENUE, "X", 100.0, 1.0, "isolated")
  {
    assert 0.001 / 0.001 == 1.0 && 1.0 / (100.0 * 1.0) == 0.01 && 0.01 / 0.001 == 10.0 && 100.0 / 0.01 == 10000.0;
  }

  function Thousandths(k: int): real { k as real * 0.001 }

  /** The replay's venue takes whole thousandths of a contract from one hundredth upwards, in any named symbol. */
  lemma TradeableIff(symbol: string, quantity: real)
    ensures Tradeable(symbol, quantity) <==> symbol != "" && exists k :: k >= 10 && quantity == Thousandths(k)
  {
    hide LeastSteps;
    DefaultLeast();
    AcceptedSizes(DEFAULT_VENUE, symbol, quantity, 100.0, 1.0, "isolated");
    assert forall k :: Steps(DEFAULT_VENUE, k) == Thousandths(k);
  }

  // ---- Which histories are trusted -----------------------------------------------------------------

  ghost predicate Sorted(ts: seq<int>) { forall i, j :: 0 <= i < j < |ts| ==> ts[i] <= ts[j] }

  lemma {:induction false} OrderedIsSorted(ts: seq<int>)
    ensures Ordered(ts) <==> Sorted(ts)
  {
    if |ts| > 1 {
      var n := |ts| - 1;
      OrderedIsSorted(ts[..n]);
      if Ordered(ts) {
        forall i, j | 0 <= i < j < |ts| ensures ts[i] <= ts[j] {
          assert ts[..n][i] <= ts[..n][n - 1] || i == n - 1;
        }
      }
    }
  }

  function ObservedTimes(w: seq<Snapshot>): seq<int> { seq(|w|, k requires 0 <= k < |w| => w[k].observedTs) }

  function SourceTimes(w: seq<Snapshot>): seq<int> { seq(|w|, k requires 0 <= k < |w| => w[k].sourceTs) }

  /** Each bar is what its hash says, all share a symbol, and neither bars nor candles ever go back in time. */
  ghost predicate Trusted(w: seq<Snapshot>) {
    && (forall k :: 0 <= k < |w| ==> w[k].hash != "" && w[k].hash == w[k].computedHash)
    && (forall j, k :: 0 <= j < |w| && 0 <= k < |w| ==> w[j].symbol == w[k].symbol)
    && (forall k, c :: 0 <= k < |w| && c in w[k].candleTimes ==> Sorted(c))
    && Sorted(ObservedTimes(w)) && Sorted(SourceTimes(w))
  }

  /** The bar-by-bar check accepts exactly the trusted histories. */
  lemma ValidIffTrusted(w: seq<Snapshot>)
    ensures ValidHistory(w) <==> Trusted(w)
  {
    hide Sorted;
    forall c ensures Ordered(c) <==> Sorted(c) { OrderedIsSorted(c); }
    var observed, source := ObservedTimes(w), SourceTimes(w);
    if ValidHistory(w) {
      forall k | 0 < k < |w| ensures observed[k - 1] <= observed[k] && source[k - 1] <= source[k] {
        assert ValidBar(w, k);
      }
      forall k | 0 <= k < |w|
        ensures w[k].hash != "" && w[k].hash == w[k].computedHash && w[k].symbol == w[0].symbol
        ensures forall c :: c in w[k].candleTimes ==> Sorted(c) {
        assert ValidBar(w, k);
      }
      assert Ordered(observed) && Ordered(source);
    }
    if Trusted(w) {
      assert Ordered(observed) && Ordered(source);
      forall k: nat | k < |w| ensures ValidBar(w, k) {
        assert k > 0 ==> observed[k - 1] <= observed[k] && source[k - 1] <= source[k];
      }
    }
  }
}
