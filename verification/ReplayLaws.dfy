/** Laws of every replay: redundant totals agree, holdings never overlap, and each strategy trades greedily. */
module ReplayLaws {
  import opened Common
  import opened FundingModel
  import opened ReplayModel
  import opened ReplayEpisode
  import opened ReplayReport

  // ---- The redundant totals -------------------------------------------------------------------

  ghost function SumReals(xs: seq<real>): real {
    if |xs| == 0 then 0.0 else SumReals(xs[..|xs| - 1]) + xs[|xs| - 1]
  }

  /** Sum of a value over a finite set of keys. */
  ghost function SumOver<K>(keys: set<K>, f: K -> real): real {
    if keys == {} then 0.0
    else
      var k :| k in keys;
      f(k) + SumOver(keys - {k}, f)
  }

  lemma {:induction false} SumOverWithout<K>(keys: set<K>, f: K -> real, k: K)
    requires k in keys
    ensures SumOver(keys, f) == f(k) + SumOver(keys - {k}, f)
  {
    var first :| first in keys && SumOver(keys, f) == f(first) + SumOver(keys - {first}, f);
    if first != k {
      SumOverWithout(keys - {first}, f, k);
      SumOverWithout(keys - {k}, f, first);
      assert keys - {first} - {k} == keys - {k} - {first};
    }
  }

  lemma {:induction false} SumOverSame<K>(keys: set<K>, f: K -> real, g: K -> real)
    requires forall k :: k in keys ==> f(k) == g(k)
    ensures SumOver(keys, f) == SumOver(keys, g)
  {
    if keys != {} {
      var k :| k in keys;
      SumOverWithout(keys, f, k);
      SumOverWithout(keys, g, k);
      SumOverSame(keys - {k}, f, g);
    }
  }

  lemma SumOverChange<K>(keys: set<K>, f: K -> real, g: K -> real, k: K)
    requires k in keys && forall j :: j in keys && j != k ==> f(j) == g(j)
    ensures SumOver(keys, g) - SumOver(keys, f) == g(k) - f(k)
  {
    SumOverWithout(keys, f, k);
    SumOverWithout(keys, g, k);
    SumOverSame(keys - {k}, f, g);
  }

  lemma {:induction false} SumOverZero<K>(keys: set<K>, f: K -> real)
    requires forall k :: k in keys ==> f(k) == 0.0
    ensures SumOver(keys, f) == 0.0
  {
    if keys != {} {
      var k :| k in keys;
      SumOverWithout(keys, f, k);
      SumOverZero(keys - {k}, f);
    }
  }

  function NetOf<K(==)>(key: Trade -> K, trades: seq<Trade>): K -> real {
    k => RowFor(key, k, trades).net
  }

  /** Splitting trades by any key with a known range loses nothing: the row nets add up to the trade nets. */
  lemma {:induction false} RowsPartitionNet<K>(key: Trade -> K, keys: set<K>, trades: seq<Trade>)
    requires forall t :: t in trades ==> key(t) in keys
    ensures SumOver(keys, NetOf(key, trades)) == SumReals(Nets(trades))
  {
    if |trades| == 0 {
      SumOverZero(keys, NetOf(key, trades));
    } else {
      var n := |trades| - 1;
      var t := trades[n];
      RowsPartitionNet(key, keys, trades[..n]);
      RowNet(key, key(t), trades[..n]);
      SumOverChange(keys, NetOf(key, trades[..n]), NetOf(key, trades), key(t));
      assert Nets(trades)[..n] == Nets(trades[..n]);
    }
  }

  lemma {:induction false} VisitKeepsNames(cfg: ReplayConfig, w: seq<Snapshot>, end: nat, gens: seq<Generator>, k: nat, i: nat, p: Progress)
    requires i <= end < |w| && k <= |gens| && forall t :: t in p.trades ==> t.name in Names(gens)
    ensures forall t :: t in VisitAll(cfg, w, end, gens, k, i, p).trades ==> t.name in Names(gens)
  {
    hide TradeAt, OrderQuantity, Tradeable, Visit;
    if k > 0 {
      VisitKeepsNames(cfg, w, end, gens, k - 1, i, p);
      VisitStep(cfg, w, end, gens[k - 1], i, VisitAll(cfg, w, end, gens, k - 1, i, p));
      assert gens[k - 1].name in Names(gens);
    }
  }

  lemma {:induction false} NamesKnown(cfg: ReplayConfig, w: seq<Snapshot>, start: nat, end: nat, gens: seq<Generator>, n: nat)
    requires end < |w| && n <= |w|
    ensures forall t :: t in Bars(cfg, w, start, end, gens, n).trades ==> t.name in Names(gens)
  {
    hide VisitAll;
    if n > 0 {
      NamesKnown(cfg, w, start, end, gens, n - 1);
      if start <= n - 1 <= end {
        VisitKeepsNames(cfg, w, end, gens, |gens|, n - 1, Bars(cfg, w, start, end, gens, n - 1));
      }
    }
  }

  /** What one visit can do: nothing, count a gated proposal, or append one closed-form trade and mark its strategy busy. */
  lemma VisitStep(cfg: ReplayConfig, w: seq<Snapshot>, end: nat, g: Generator, i: nat, p: Progress)
    requires i <= end < |w|
    ensures var p' := Visit(cfg, w, end, g, i, p);
            || (p'.trades == p.trades && p'.busy == p.busy)
            || (exists e: Entry :: e.name == g.name && BusyUntil(p, g.name) < i
                  && p'.trades == p.trades + [TradeAt(cfg, w, end, i, e)]
                  && p'.busy == p.busy[g.name := ExitIndex(w, end, i, e)]
                  && TradeAt(cfg, w, end, i, e).name == g.name)
  {
    var candidates := g.propose(w[i], cfg.Costs());
    if |candidates| > 0 {
      var e := EntryOf(cfg, g.name, w[i], candidates[0]);
      TradeIdentity(cfg, w, end, i, e);
    }
  }

  /** Net profit, the sum of trade profits, the strategy rows and the regime rows are one number; so are the counts. */
  lemma TotalsAgree(cfg: ReplayConfig, w: seq<Snapshot>, start: nat, end: nat, gens: seq<Generator>, classify: Snapshot -> Regime)
    requires end < |w|
    ensures var trades := Bars(cfg, w, start, end, gens, |w|).trades;
            var r := ReplayOf(cfg, w, start, end, gens, classify);
            && r.totals.net == SumReals(r.tradePnls)
            && SumOver(Names(gens), NetOf(NameKey(), trades)) == r.totals.net
            && SumOver(REGIMES, NetOf(RegimeKey(classify), trades)) == r.totals.net
            && r.closedTrades == r.protectionAttachments == r.totals.closed
            && r.orders == r.closedTrades + r.endOfReplayCloses
            && r.endOfReplayCloses <= r.closedTrades
  {
    hide TradeAt, Visit, Bars, Hashes;
    var trades := Bars(cfg, w, start, end, gens, |w|).trades;
    NamesKnown(cfg, w, start, end, gens, |w|);
    RowsPartitionNet(NameKey(), Names(gens), trades);
    forall t | t in trades ensures RegimeKey(classify)(t) in REGIMES { RegimesAreAll(classify(t.bar)); }
    RowsPartitionNet(RegimeKey(classify), REGIMES, trades);
    RowsPartitionNet(AllKey(), {true}, trades);
    SumOverWithout({true}, NetOf(AllKey(), trades), true);
    assert {true} - {true} == {};
    CountAll(trades);
  }

  lemma {:induction false} CountAll(trades: seq<Trade>)
    ensures RowFor(AllKey(), true, trades).closed == |trades|
    ensures EndCloses(trades) <= |trades|
  {
    if |trades| > 0 {
      CountAll(trades[..|trades| - 1]);
    }
  }

  // ---- Holdings ---------------------------------------------------------------------------------

  /** Each strategy's trades follow one another: a new one starts strictly after the last one ended. */
  ghost predicate Disjoint(trades: seq<Trade>) {
    forall a, b :: 0 <= a < b < |trades| && trades[a].name == trades[b].name ==>
      trades[a].exitIndex < trades[b].entryIndex
  }

  ghost predicate Sound(start: nat, end: nat, p: Progress) {
    && Disjoint(p.trades)
    && (forall t :: t in p.trades ==> t.name in p.busy && t.exitIndex <= p.busy[t.name])
    && (forall t :: t in p.trades ==> start <= t.entryIndex <= t.exitIndex <= end)
  }

  lemma VisitKeepsSound(cfg: ReplayConfig, w: seq<Snapshot>, start: nat, end: nat, g: Generator, i: nat, p: Progress)
    requires start <= i <= end < |w| && Sound(start, end, p)
    ensures Sound(start, end, Visit(cfg, w, end, g, i, p))
  {
    hide TradeAt, Visit, ExitIndex;
    VisitStep(cfg, w, end, g, i, p);
    var p' := Visit(cfg, w, end, g, i, p);
    if p'.trades != p.trades {
      var e: Entry :| e.name == g.name && BusyUntil(p, g.name) < i
                      && p'.trades == p.trades + [TradeAt(cfg, w, end, i, e)]
                      && p'.busy == p.busy[g.name := ExitIndex(w, end, i, e)];
      TradeIdentity(cfg, w, end, i, e);
    }
  }

  lemma {:induction false} VisitAllKeepsSound(cfg: ReplayConfig, w: seq<Snapshot>, start: nat, end: nat, gens: seq<Generator>,
                                              k: nat, i: nat, p: Progress)
    requires start <= i <= end < |w| && k <= |gens| && Sound(start, end, p)
    ensures Sound(start, end, VisitAll(cfg, w, end, gens, k, i, p))
  {
    hide Visit, Sound;
    if k > 0 {
      VisitAllKeepsSound(cfg, w, start, end, gens, k - 1, i, p);
      VisitKeepsSound(cfg, w, start, end, gens[k - 1], i, VisitAll(cfg, w, end, gens, k - 1, i, p));
    }
  }

  /** In every replay the holdings of a strategy are disjoint and lie inside the evaluation window. */
  lemma {:induction false} HoldingsAreDisjoint(cfg: ReplayConfig, w: seq<Snapshot>, start: nat, end: nat, gens: seq<Generator>, n: nat)
    requires end < |w| && n <= |w|
    ensures Sound(start, end, Bars(cfg, w, start, end, gens, n))
  {
    hide VisitAll;
    if n > 0 {
      HoldingsAreDisjoint(cfg, w, start, end, gens, n - 1);
      if start <= n - 1 <= end {
        VisitAllKeepsSound(cfg, w, start, end, gens, |gens|, n - 1, Bars(cfg, w, start, end, gens, n - 1));
      }
    }
  }

  // ---- What a replay can see --------------------------------------------------------------------

  /** Two histories of any length that hold the same bars from `start` to `end`. */
  ghost predicate Agree(a: seq<Snapshot>, b: seq<Snapshot>, start: nat, end: nat) {
    end < |a| && end < |b| && forall k :: start <= k <= end ==> a[k] == b[k]
  }

  /** A ride looks at no bar beyond the last one of its window, nor before its entry. */
  lemma {:induction false} ExitSeesWindow(a: seq<Snapshot>, b: seq<Snapshot>, start: nat, end: nat, i: nat, j: nat, e: Entry)
    requires Agree(a, b, start, end) && start <= i < j <= end + 1
    ensures ExitFrom(a, end, i, j, e) == ExitFrom(b, end, i, j, e)
    decreases end + 1 - j
  {
    if j <= end {
      ExitSeesWindow(a, b, start, end, i, j + 1, e);
    }
  }

  lemma {:induction false} FundingSeesWindow(cfg: ReplayConfig, a: seq<Snapshot>, b: seq<Snapshot>, start: nat, end: nat,
                                             i: nat, j: nat, e: Entry)
    requires Agree(a, b, start, end) && start <= i <= j <= end
    ensures PaidUpTo(cfg, a, i, j, e) == PaidUpTo(cfg, b, i, j, e)
    ensures ReceivedUpTo(cfg, a, i, j, e) == ReceivedUpTo(cfg, b, i, j, e)
    decreases j
  {
    hide SettlementLeg;
    if i < j {
      FundingSeesWindow(cfg, a, b, start, end, i, j - 1, e);
    }
  }

  /** A trade entered inside the window is the same in both histories: exit bar, prices, costs, funding and net. */
  lemma TradeSeesWindow(cfg: ReplayConfig, a: seq<Snapshot>, b: seq<Snapshot>, start: nat, end: nat, i: nat, e: Entry)
    requires Agree(a, b, start, end) && start <= i <= end
    ensures TradeAt(cfg, a, end, i, e) == TradeAt(cfg, b, end, i, e)
  {
    hide ExitFrom, PaidUpTo, ReceivedUpTo, ExecutionPrice, Abs;
    ExitSeesWindow(a, b, start, end, i, i + 1, e);
    FundingSeesWindow(cfg, a, b, start, end, i, ExitIndex(a, end, i, e), e);
  }

  lemma {:induction false} VisitsSeeWindow(cfg: ReplayConfig, a: seq<Snapshot>, b: seq<Snapshot>, start: nat, end: nat,
                                           gens: seq<Generator>, k: nat, i: nat, p: Progress)
    requires Agree(a, b, start, end) && start <= i <= end && k <= |gens|
    ensures VisitAll(cfg, a, end, gens, k, i, p) == VisitAll(cfg, b, end, gens, k, i, p)
  {
    hide TradeAt, Tradeable, OrderQuantity;
    if k > 0 {
      VisitsSeeWindow(cfg, a, b, start, end, gens, k - 1, i, p);
      forall e ensures TradeAt(cfg, a, end, i, e) == TradeAt(cfg, b, end, i, e) { TradeSeesWindow(cfg, a, b, start, end, i, e); }
    }
  }

  /** Bar by bar, the two replays make the same progress and visit the same bars. */
  lemma {:induction false} BarsSeeWindow(cfg: ReplayConfig, a: seq<Snapshot>, b: seq<Snapshot>, start: nat, end: nat,
                                         gens: seq<Generator>, n: nat)
    requires Agree(a, b, start, end) && n <= |a| && n <= |b|
    ensures Bars(cfg, a, start, end, gens, n) == Bars(cfg, b, start, end, gens, n)
    ensures Hashes(a, start, end, n) == Hashes(b, start, end, n)
  {
    hide VisitAll;
    if n > 0 {
      BarsSeeWindow(cfg, a, b, start, end, gens, n - 1);
      if start <= n - 1 <= end {
        VisitsSeeWindow(cfg, a, b, start, end, gens, |gens|, n - 1, Bars(cfg, a, start, end, gens, n - 1));
      }
    }
  }

  /** The bars after the window change nothing. */
  lemma {:induction false} LaterBarsChangeNothing(cfg: ReplayConfig, w: seq<Snapshot>, start: nat, end: nat, gens: seq<Generator>, n: nat)
    requires end < n <= |w|
    ensures Bars(cfg, w, start, end, gens, n) == Bars(cfg, w, start, end, gens, end + 1)
    ensures Hashes(w, start, end, n) == Hashes(w, start, end, end + 1)
  {
    hide VisitAll;
    if n > end + 1 {
      LaterBarsChangeNothing(cfg, w, start, end, gens, n - 1);
    }
  }

  /**
   Histories of any length that agree on the evaluation window replay to the same report, up to the number of
   snapshots it quotes, although the replay walks every bar of both.
  */
  lemma NoBarOutsideMatters(a: seq<Snapshot>, b: seq<Snapshot>, cfg: ReplayConfig, start: nat, end: nat,
                            gens: seq<Generator>, classify: Snapshot -> Regime)
    requires Agree(a, b, start, end)
    ensures ReplayOf(cfg, a, start, end, gens, classify).(snapshots := |b|) == ReplayOf(cfg, b, start, end, gens, classify)
  {
    hide Bars, Hashes;
    LaterBarsChangeNothing(cfg, a, start, end, gens, |a|);
    LaterBarsChangeNothing(cfg, b, start, end, gens, |b|);
    BarsSeeWindow(cfg, a, b, start, end, gens, end + 1);
  }
}
