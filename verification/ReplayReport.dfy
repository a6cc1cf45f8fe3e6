/**
 A whole replay: the fold over bars and strategies, the report's redundant totals, and the laws that tie
 them together (src/evaluation/baseline.py).
*/
module ReplayReport {
  import opened Common
  import opened Exchange
  import opened ReplayModel
  import opened ReplayEpisode
  import opened ReplayEngine

  // ---- The run as a fold ----------------------------------------------------------------------

  /** What the loop carries: the trades so far, each strategy's last busy bar, and the gated proposals. */
  datatype Progress = Progress(trades: seq<Trade>, busy: map<string, int>, skipped: nat)

  const START := Progress([], map[], 0)

  function BusyUntil(p: Progress, name: string): int { if name in p.busy then p.busy[name] else -1 }

  function EntryOf(cfg: ReplayConfig, name: string, s: Snapshot, c: Candidate): Entry {
    Entry(name, c.side, OrderQuantity(cfg, s), c.stop, c.target)
  }

  /** One strategy looks at one bar of a replay that ends at bar `end`. */
  function Visit(cfg: ReplayConfig, w: seq<Snapshot>, end: nat, g: Generator, i: nat, p: Progress): Progress
    requires i <= end < |w|
  {
    if i <= BusyUntil(p, g.name) then p
    else
      var candidates := g.propose(w[i], cfg.Costs());
      if |candidates| == 0 then p
      else
        var c := candidates[0];
        if c.expectedMove < cfg.minEdgeCoverage * c.expectedCost then p.(skipped := p.skipped + 1)
        else
          var e := EntryOf(cfg, g.name, w[i], c);
          if !Tradeable(w[i].symbol, e.quantity) then p
          else
            var t := TradeAt(cfg, w, end, i, e);
            p.(trades := p.trades + [t], busy := p.busy[g.name := t.exitIndex])
  }

  /** The first k strategies look at bar i, in registry order. */
  function VisitAll(cfg: ReplayConfig, w: seq<Snapshot>, end: nat, gens: seq<Generator>, k: nat, i: nat, p: Progress): Progress
    requires i <= end < |w| && k <= |gens|
  {
    if k == 0 then p else Visit(cfg, w, end, gens[k - 1], i, VisitAll(cfg, w, end, gens, k - 1, i, p))
  }

  /** The first n bars of the history; those outside the evaluation window are passed over. */
  function Bars(cfg: ReplayConfig, w: seq<Snapshot>, start: nat, end: nat, gens: seq<Generator>, n: nat): Progress
    requires end < |w| && n <= |w|
  {
    if n == 0 then START
    else
      var p := Bars(cfg, w, start, end, gens, n - 1);
      if n - 1 < start || n - 1 > end then p else VisitAll(cfg, w, end, gens, |gens|, n - 1, p)
  }

  /** The hashes of the bars visited among the first n. */
  function Hashes(w: seq<Snapshot>, start: nat, end: nat, n: nat): seq<string>
    requires n <= |w|
  {
    if n == 0 then []
    else
      var before := Hashes(w, start, end, n - 1);
      if n - 1 < start || n - 1 > end then before else before + [w[n - 1].hash]
  }

  // ---- Rows -------------------------------------------------------------------------------------

  datatype Regime = TRENDING | RANGING | HIGH_VOLATILITY | LOW_VOLATILITY | LIQUIDATION_EVENT | DATA_DEGRADED

  const REGIMES := {TRENDING, RANGING, HIGH_VOLATILITY, LOW_VOLATILITY, LIQUIDATION_EVENT, DATA_DEGRADED}

  datatype Row = Row(closed: nat, gross: real, fees: real, spread: real, slippage: real, funding: real, net: real)

  const EMPTY_ROW := Row(0, 0.0, 0.0, 0.0, 0.0, 0.0, 0.0)

  /** Add a trade to a row; the net is recomputed from the accumulated amounts. */
  function AddTrade(r: Row, t: Trade): Row {
    var gross, fees := r.gross + t.gross, r.fees + t.fees;
    var spread, slippage, funding := r.spread + t.spread, r.slippage + t.slippage, r.funding + t.funding;
    Row(r.closed + 1, gross, fees, spread, slippage, funding, gross - fees - spread - slippage - funding)
  }

  /** The row of one key: all trades that carry it. */
  function RowFor<K(==)>(key: Trade -> K, k: K, trades: seq<Trade>): Row {
    if |trades| == 0 then EMPTY_ROW
    else
      var n := |trades| - 1;
      var r := RowFor(key, k, trades[..n]);
      if key(trades[n]) == k then AddTrade(r, trades[n]) else r
  }

  function NameKey(): Trade -> string { (t: Trade) => t.name }

  function RegimeKey(classify: Snapshot -> Regime): Trade -> Regime { (t: Trade) => classify(t.bar) }

  function AllKey(): Trade -> bool { (t: Trade) => true }

  function Names(gens: seq<Generator>): set<string> { set k | 0 <= k < |gens| :: gens[k].name }

  function EndCloses(trades: seq<Trade>): nat {
    if |trades| == 0 then 0 else EndCloses(trades[..|trades| - 1]) + if trades[|trades| - 1].endOfReplay then 1 else 0
  }

  function Nets(trades: seq<Trade>): seq<real> { seq(|trades|, k requires 0 <= k < |trades| => trades[k].Net()) }

  function NotionalSum(trades: seq<Trade>): real {
    if |trades| == 0 then 0.0 else NotionalSum(trades[..|trades| - 1]) + trades[|trades| - 1].notional
  }

  datatype Report = Report(
    snapshots: nat, orders: nat, closedTrades: nat, endOfReplayCloses: nat, protectionAttachments: nat,
    totals: Row, byStrategy: map<string, Row>, byRegime: map<Regime, Row>,
    skipped: nat, reason: string, hashes: seq<string>, tradePnls: seq<real>, averageNotional: real)

  function ReasonFor(closed: nat, net: real): string {
    if closed == 0 then "INCONCLUSIVE_NO_CLOSED_TRADES"
    else if net < 0.0 then "NEGATIVE_NET_PNL" else "POSITIVE_EVIDENCE_REQUIRED"
  }

  function StrategyRows(gens: seq<Generator>, trades: seq<Trade>): map<string, Row> {
    map name | name in Names(gens) :: RowFor(NameKey(), name, trades)
  }

  function RegimeRows(classify: Snapshot -> Regime, trades: seq<Trade>): map<Regime, Row> {
    map r | r in REGIMES :: RowFor(RegimeKey(classify), r, trades)
  }

  function ReportOf(n: nat, hashes: seq<string>, gens: seq<Generator>, classify: Snapshot -> Regime, p: Progress): Report {
    var totals := RowFor(AllKey(), true, p.trades);
    Report(n, |p.trades| + EndCloses(p.trades), |p.trades|, EndCloses(p.trades), |p.trades|, totals,
           StrategyRows(gens, p.trades), RegimeRows(classify, p.trades),
           p.skipped, ReasonFor(|p.trades|, totals.net), hashes, Nets(p.trades),
           if |p.trades| == 0 then 0.0 else NotionalSum(p.trades) / (|p.trades| as real))
  }

  // ---- Input checks -----------------------------------------------------------------------------

  predicate Ordered(ts: seq<int>) { forall i :: 0 < i < |ts| ==> ts[i - 1] <= ts[i] }

  /** A bar that is what its hash says, of the history's symbol, and not before the bar in front of it. */
  ghost predicate ValidBar(snapshots: seq<Snapshot>, k: nat)
    requires k < |snapshots|
  {
    && snapshots[k].hash != "" && snapshots[k].hash == snapshots[k].computedHash
    && snapshots[k].symbol == snapshots[0].symbol
    && (forall c :: c in snapshots[k].candleTimes ==> Ordered(c))
    && (k > 0 ==> snapshots[k - 1].observedTs <= snapshots[k].observedTs && snapshots[k - 1].sourceTs <= snapshots[k].sourceTs)
  }

  ghost predicate ValidHistory(snapshots: seq<Snapshot>) {
    forall k :: 0 <= k < |snapshots| ==> ValidBar(snapshots, k)
  }

  lemma ValidAppend(snapshots: seq<Snapshot>, n: nat)
    requires n < |snapshots| && ValidHistory(snapshots[..n])
    ensures ValidHistory(snapshots[..n + 1]) <==> ValidBar(snapshots, n)
  {
    var more := snapshots[..n + 1];
    forall k | 0 <= k < n ensures ValidBar(more, k) {
      assert ValidBar(snapshots[..n], k);
    }
    assert ValidBar(more, n) <==> ValidBar(snapshots, n);
  }

  lemma ValidIsOneSymbol(snapshots: seq<Snapshot>)
    requires ValidHistory(snapshots)
    ensures OneSymbol(snapshots)
  {
    forall k | 0 <= k < |snapshots| ensures snapshots[k].symbol == snapshots[0].symbol { assert ValidBar(snapshots, k); }
  }

  lemma NoBars()
    ensures ValidHistory([])
  {
  }

  lemma InvalidBar(snapshots: seq<Snapshot>, k: nat)
    requires k < |snapshots| && !ValidBar(snapshots, k)
    ensures !ValidHistory(snapshots)
  {
  }

  method CandlesOrdered(series: seq<seq<int>>) returns (ok: bool)
    ensures ok <==> forall c :: c in series ==> Ordered(c)
  {
    for i := 0 to |series|
      invariant forall c :: c in series[..i] ==> Ordered(c)
    {
      for j := 0 to |series[i]|
        invariant forall k :: 0 < k < j ==> series[i][k - 1] <= series[i][k]
      {
        if j > 0 && series[i][j] < series[i][j - 1] {
          assert !Ordered(series[i]);
          return false;
        }
      }
      assert Ordered(series[i]);
    }
    return true;
  }

  method ValidateReplaySnapshots(snapshots: seq<Snapshot>) returns (error: Option<string>)
    ensures error.None? <==> ValidHistory(snapshots)
  {
    hide ValidHistory;
    NoBars();
    assert snapshots[..0] == [];
    for k := 0 to |snapshots|
      invariant ValidHistory(snapshots[..k])
    {
      var s := snapshots[k];
      ValidAppend(snapshots, k);
      if !ValidBar(snapshots, k) { InvalidBar(snapshots, k); }
      if s.hash == "" || s.hash != s.computedHash {
        return Some("evaluation data snapshot hash mismatch");
      }
      if s.symbol != snapshots[0].symbol {
        return Some("evaluation data symbol mismatch");
      }
      if k > 0 && (s.observedTs < snapshots[k - 1].observedTs || s.sourceTs < snapshots[k - 1].sourceTs) {
        return Some("evaluation data timestamp regression");
      }
      var ok := CandlesOrdered(s.candleTimes);
      if !ok {
        return Some("evaluation data candle timestamp regression");
      }
    }
    assert snapshots[..|snapshots|] == snapshots;
    return None;
  }

  // ---- The engine ---------------------------------------------------------------------------------

  /** The running variables of the loop. */
  datatype Running = Running(
    orders: nat, closed: nat, endCloses: nat, attachments: nat, totals: Row,
    strategy: map<string, Row>, regime: map<Regime, Row>, busy: map<string, int>, skipped: nat,
    pnls: seq<real>, notional: real)

  /** What the running variables must show for a given progress. */
  ghost function Shown(gens: seq<Generator>, classify: Snapshot -> Regime, p: Progress): Running {
    Running(|p.trades| + EndCloses(p.trades), |p.trades|, EndCloses(p.trades), |p.trades|,
            RowFor(AllKey(), true, p.trades), StrategyRows(gens, p.trades), RegimeRows(classify, p.trades),
            p.busy, p.skipped, Nets(p.trades), NotionalSum(p.trades))
  }

  lemma RowAppend<K>(key: Trade -> K, k: K, trades: seq<Trade>, t: Trade)
    ensures RowFor(key, k, trades + [t])
         == if key(t) == k then AddTrade(RowFor(key, k, trades), t) else RowFor(key, k, trades)
  {
    assert (trades + [t])[..|trades|] == trades;
  }

  lemma RegimesAreAll(r: Regime)
    ensures r in REGIMES
  {
  }

  /** The running variables once a trade is recorded under its strategy and its regime. */
  function Recorded(r: Running, regime: Regime, t: Trade): Running
    requires t.name in r.strategy && regime in r.regime
  {
    Running(r.orders + 1 + (if t.endOfReplay then 1 else 0), r.closed + 1,
            r.endCloses + (if t.endOfReplay then 1 else 0), r.attachments + 1, AddTrade(r.totals, t),
            r.strategy[t.name := AddTrade(r.strategy[t.name], t)], r.regime[regime := AddTrade(r.regime[regime], t)],
            r.busy[t.name := t.exitIndex], r.skipped,
            r.pnls + [t.gross - t.fees - t.spread - t.slippage - t.funding], r.notional + t.notional)
  }

  /** Recording a trade changes the running variables the way the loop does. */
  lemma ShownAppend(gens: seq<Generator>, classify: Snapshot -> Regime, p: Progress, t: Trade)
    requires t.name in Names(gens)
    ensures var r, c := Shown(gens, classify, p), classify(t.bar);
            && t.name in r.strategy && c in r.regime
            && Shown(gens, classify, p.(trades := p.trades + [t], busy := p.busy[t.name := t.exitIndex]))
               == Recorded(r, c, t)
  {
    hide AddTrade;
    var trades := p.trades + [t];
    var r, c := Shown(gens, classify, p), classify(t.bar);
    RegimesAreAll(c);
    assert trades[..|p.trades|] == p.trades;
    RowAppend(AllKey(), true, p.trades, t);
    forall name | name in Names(gens)
      ensures RowFor(NameKey(), name, trades) == if t.name == name then AddTrade(RowFor(NameKey(), name, p.trades), t)
                                                 else RowFor(NameKey(), name, p.trades) {
      RowAppend(NameKey(), name, p.trades, t);
    }
    assert StrategyRows(gens, trades) == r.strategy[t.name := AddTrade(r.strategy[t.name], t)];
    forall g | g in REGIMES
      ensures RowFor(RegimeKey(classify), g, trades) == if c == g then AddTrade(RowFor(RegimeKey(classify), g, p.trades), t)
                                                        else RowFor(RegimeKey(classify), g, p.trades) {
      RowAppend(RegimeKey(classify), g, p.trades, t);
    }
    assert RegimeRows(classify, trades) == r.regime[c := AddTrade(r.regime[c], t)];
    assert Nets(trades) == r.pnls + [t.Net()];
  }

  /** One strategy at one bar: gate, size, replay, and record. */
  method VisitStrategy(cfg: ReplayConfig, w: seq<Snapshot>, end: nat, gens: seq<Generator>, k: nat, i: nat,
                       classify: Snapshot -> Regime, before: Running, ghost p: Progress) returns (after: Running)
    requires i <= end < |w| && k < |gens| && OneSymbol(w)
    requires before == Shown(gens, classify, p)
    ensures after == Shown(gens, classify, Visit(cfg, w, end, gens[k], i, p))
  {
    hide TradeAt, OrderQuantity, Tradeable, StrategyRows, RegimeRows, Recorded, RowFor, Nets;
    var g := gens[k];
    assert g.name in Names(gens);
    after := before;
    if i <= if g.name in before.busy then before.busy[g.name] else -1 {
      return;
    }
    var quantity := OrderQuantity(cfg, w[i]);
    var candidates := g.propose(w[i], cfg.Costs());
    if |candidates| == 0 {
      return;
    }
    var c := candidates[0];
    if c.expectedMove < cfg.minEdgeCoverage * c.expectedCost {
      after := before.(skipped := before.skipped + 1);
      return;
    }
    var e := Entry(g.name, c.side, quantity, c.stop, c.target);
    var trade := ReplayTrade(cfg, w, end, i, e);
    if trade.None? {
      return;
    }
    var t := trade.value;
    TradeIdentity(cfg, w, end, i, e);
    ShownAppend(gens, classify, p, t);
    after := Recorded(before, classify(t.bar), t);
  }

  /** What a replay of bars `start` to `end` of a history reports. */
  function ReplayOf(cfg: ReplayConfig, w: seq<Snapshot>, start: nat, end: nat, gens: seq<Generator>,
                    classify: Snapshot -> Regime): Report
    requires end < |w|
  {
    ReportOf(|w|, Hashes(w, start, end, |w|), gens, classify, Bars(cfg, w, start, end, gens, |w|))
  }

  /**
   Replay a window of a history, walking every bar and passing over those outside the window. It fails only on
   untrusted data, a coverage multiple below one, or a window outside the history.
  */
  method RunBaseline(snapshots: seq<Snapshot>, cfg: ReplayConfig, start: int, last: Option<int>,
                     gens: seq<Generator>, classify: Snapshot -> Regime) returns (r: Result<Report>)
    ensures var end := if last.Some? then last.value else |snapshots| - 1;
            && (r.Ok? <==> ValidHistory(snapshots) && cfg.minEdgeCoverage >= 1.0 && 0 <= start <= end < |snapshots|)
            && (r.Ok? ==> r.value == ReplayOf(cfg, snapshots, start, end, gens, classify))
  {
    hide Visit, Shown, RowFor, StrategyRows, RegimeRows, EndCloses, Nets, NotionalSum;
    var error := ValidateReplaySnapshots(snapshots);
    if error.Some? {
      return Err(error.value);
    }
    if cfg.minEdgeCoverage < 1.0 {
      return Err("min_edge_coverage must be a finite number greater than or equal to 1.0");
    }
    var end := if last.Some? then last.value else |snapshots| - 1;
    if !(0 <= start <= end < |snapshots|) {
      return Err("evaluation window must be within snapshots");
    }
    ValidIsOneSymbol(snapshots);
    ghost var p := START;
    var run := Running(0, 0, 0, 0, EMPTY_ROW, map name | name in Names(gens) :: EMPTY_ROW,
                       map r | r in REGIMES :: EMPTY_ROW, map[], 0, [], 0.0);
    ShownAtStart(gens, classify);
    var hashes := [];
    for i := 0 to |snapshots|
      invariant hashes == Hashes(snapshots, start, end, i)
      invariant p == Bars(cfg, snapshots, start, end, gens, i) && run == Shown(gens, classify, p)
    {
      if i < start || i > end {
        continue;
      }
      hashes := hashes + [snapshots[i].hash];
      run := VisitBar(snapshots, cfg, end, i, gens, classify, run, p);
      p := VisitAll(cfg, snapshots, end, gens, |gens|, i, p);
    }
    return Ok(Finish(|snapshots|, hashes, gens, classify, run, p));
  }

  /** Every strategy, in registry order, at one bar. */
  method VisitBar(snapshots: seq<Snapshot>, cfg: ReplayConfig, end: nat, i: nat, gens: seq<Generator>,
                  classify: Snapshot -> Regime, before: Running, ghost p: Progress) returns (run: Running)
    requires i <= end < |snapshots| && OneSymbol(snapshots) && before == Shown(gens, classify, p)
    ensures run == Shown(gens, classify, VisitAll(cfg, snapshots, end, gens, |gens|, i, p))
  {
    hide Visit, Shown;
    run := before;
    for k := 0 to |gens|
      invariant run == Shown(gens, classify, VisitAll(cfg, snapshots, end, gens, k, i, p))
    {
      run := VisitStrategy(cfg, snapshots, end, gens, k, i, classify, run, VisitAll(cfg, snapshots, end, gens, k, i, p));
    }
  }

  /** The report read off the running variables; its net is recomputed from the accumulated amounts. */
  function Finish(n: nat, hashes: seq<string>, gens: seq<Generator>, classify: Snapshot -> Regime, run: Running,
                  ghost p: Progress): (r: Report)
    requires run == Shown(gens, classify, p)
    ensures r == ReportOf(n, hashes, gens, classify, p)
  {
    RowNet(AllKey(), true, p.trades);
    var net := run.totals.gross - run.totals.fees - run.totals.spread - run.totals.slippage - run.totals.funding;
    Report(n, run.orders, run.closed, run.endCloses, run.attachments, run.totals.(net := net),
           run.strategy, run.regime, run.skipped, ReasonFor(run.closed, net), hashes, run.pnls,
           if run.closed == 0 then 0.0 else run.notional / (run.closed as real))
  }

  lemma ShownAtStart(gens: seq<Generator>, classify: Snapshot -> Regime)
    ensures Shown(gens, classify, START)
         == Running(0, 0, 0, 0, EMPTY_ROW, map name | name in Names(gens) :: EMPTY_ROW,
                    map r | r in REGIMES :: EMPTY_ROW, map[], 0, [], 0.0)
  {
    assert StrategyRows(gens, []) == map name | name in Names(gens) :: EMPTY_ROW;
    assert RegimeRows(classify, []) == map r | r in REGIMES :: EMPTY_ROW;
    assert Nets([]) == [];
  }

  /** A row's net is always its gross less its costs. */
  lemma RowNet<K>(key: Trade -> K, k: K, trades: seq<Trade>)
    ensures var r := RowFor(key, k, trades); r.net == r.gross - r.fees - r.spread - r.slippage - r.funding
  {
  }
}
