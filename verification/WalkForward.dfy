/** Walk-forward evaluation: one replay per embargoed test window (src/evaluation/baseline.py). */
module WalkForward {
  import opened Common
  import opened ReplayModel
  import opened ReplayReport
  import opened ReplayLaws
  import opened Windows

  datatype WindowRow = WindowRow(trainEnd: int, testStart: int, testEnd: int, report: Report)

  /** The row of the test window that starts at a given bar: the replay of the whole history over that window. */
  ghost predicate IsRow(row: WindowRow, snapshots: seq<Snapshot>, cfg: ReplayConfig, gens: seq<Generator>,
                        classify: Snapshot -> Regime, e: int, w: nat, start: int) {
    && (row.trainEnd, row.testStart, row.testEnd) == (start - e - 1, start, start + w - 1)
    && 0 <= start && start + w <= |snapshots|
    && w >= 1 && row.report == ReplayOf(cfg, snapshots, start, start + w - 1, gens, classify)
  }

  /** One row for each of the windows that start where they should. */
  ghost predicate Rows(rows: seq<WindowRow>, count: nat, snapshots: seq<Snapshot>, cfg: ReplayConfig, gens: seq<Generator>,
                       classify: Snapshot -> Regime, cut: int, e: int, w: nat) {
    |rows| == count && forall k :: 0 <= k < count ==> IsRow(rows[k], snapshots, cfg, gens, classify, e, w, StartOf(cut, e, w, k))
  }

  method RunWalkForward(snapshots: seq<Snapshot>, cfg: ReplayConfig, fraction: real, e: int, w: int,
                        gens: seq<Generator>, classify: Snapshot -> Regime) returns (r: Result<seq<WindowRow>>)
    ensures r.Ok? <==> 0.0 < fraction < 1.0 && e >= 0 && w >= 1 && ValidHistory(snapshots) && |snapshots| > 0
                       && WindowCount(|snapshots|, CutOf(|snapshots|, fraction), e, w) > 0 && cfg.minEdgeCoverage >= 1.0
    ensures r.Ok? ==> var starts := Starts(|snapshots|, CutOf(|snapshots|, fraction), e, w);
              && |r.value| == |starts|
              && forall k :: 0 <= k < |starts| ==> IsRow(r.value[k], snapshots, cfg, gens, classify, e, w, starts[k])
    ensures r.Ok? ==> |r.value| > 0 && IsCut(r.value[0].testStart - e, |snapshots|, fraction)
                      && forall k :: 0 <= k < |r.value| ==> r.value[k].testStart >= r.value[0].testStart
  {
    hide IsCut, IsRow, WindowCount, ValidHistory, ReplayOf, CutOf, StartOf, Starts, StartsUpTo, Rows;
    if !(0.0 < fraction < 1.0) || e < 0 || w < 1 {
      return Err("walk-forward parameters must have 0 < train_fraction < 1, embargo >= 0, and test_window >= 1");
    }
    var error := ValidateReplaySnapshots(snapshots);
    if error.Some? {
      return Err(error.value);
    }
    if |snapshots| == 0 {
      return Err("walk-forward requires snapshots");
    }
    var cut := CutOf(|snapshots|, fraction);
    r := WalkWindows(snapshots, cfg, cut, e, w, gens, classify);
    if r.Ok? {
      RowsAtStarts(r.value, snapshots, cfg, gens, classify, cut, e, w);
      StartsFollowTraining(|snapshots|, fraction, e, w);
      RowsStart(r.value, Starts(|snapshots|, cut, e, w), snapshots, cfg, gens, classify, e, w);
    }
  }

  lemma RowsStart(rows: seq<WindowRow>, starts: seq<int>, snapshots: seq<Snapshot>, cfg: ReplayConfig, gens: seq<Generator>,
                  classify: Snapshot -> Regime, e: nat, w: nat)
    requires |rows| == |starts| && forall k :: 0 <= k < |starts| ==> IsRow(rows[k], snapshots, cfg, gens, classify, e, w, starts[k])
    ensures forall k :: 0 <= k < |starts| ==> rows[k].testStart == starts[k]
  {
    hide ReplayOf;
  }

  lemma RowsAtStarts(rows: seq<WindowRow>, snapshots: seq<Snapshot>, cfg: ReplayConfig, gens: seq<Generator>,
                     classify: Snapshot -> Regime, cut: int, e: nat, w: nat)
    requires w >= 1 && Rows(rows, WindowCount(|snapshots|, cut, e, w), snapshots, cfg, gens, classify, cut, e, w)
    ensures var starts := Starts(|snapshots|, cut, e, w);
            |rows| == |starts| == WindowCount(|snapshots|, cut, e, w) && forall k :: 0 <= k < |starts| ==> IsRow(rows[k], snapshots, cfg, gens, classify, e, w, starts[k])
  {
    hide IsRow, WindowCount, StartOf, Starts;
    StartsAre(|snapshots|, cut, e, w);
  }

  /** The loop over the test windows: the first error of a replay ends it, and so does having no window at all. */
  method WalkWindows(snapshots: seq<Snapshot>, cfg: ReplayConfig, cut: nat, e: nat, w: nat,
                     gens: seq<Generator>, classify: Snapshot -> Regime) returns (r: Result<seq<WindowRow>>)
    requires w >= 1 && ValidHistory(snapshots)
    ensures r.Ok? <==> WindowCount(|snapshots|, cut, e, w) > 0 && cfg.minEdgeCoverage >= 1.0
    ensures r.Ok? ==> Rows(r.value, WindowCount(|snapshots|, cut, e, w), snapshots, cfg, gens, classify, cut, e, w)
  {
    hide IsRow, WindowCount, ValidHistory, ReplayOf, StartOf;
    var n := |snapshots|;
    var rows: seq<WindowRow> := [];
    var start := cut + e;
    FirstStart(cut, e, w);
    FitsIffCounted(n, cut, e, w, 0);
    while start + w <= n
      invariant start == StartOf(cut, e, w, |rows|) && |rows| <= WindowCount(n, cut, e, w)
      invariant start + w <= n <==> |rows| < WindowCount(n, cut, e, w)
      invariant |rows| > 0 ==> cfg.minEdgeCoverage >= 1.0
      invariant Rows(rows, |rows|, snapshots, cfg, gens, classify, cut, e, w)
      decreases n - start
    {
      var testEnd := start + w - 1;
      var result := RunBaseline(snapshots, cfg, start, Some(testEnd), gens, classify);
      if result.Err? {
        return Err(result.error);
      }
      var row := WindowRow(start - e - 1, start, testEnd, result.value);
      RowIs(row, snapshots, cfg, gens, classify, e, w, start);
      NextStart(cut, e, w, |rows|);
      FitsIffCounted(n, cut, e, w, |rows| + 1);
      rows := rows + [row];
      start := testEnd + 1 + e;
    }
    if |rows| == 0 {
      return Err("walk-forward requires at least one complete test window");
    }
    return Ok(rows);
  }

  lemma FirstStart(cut: int, e: int, w: int)
    ensures StartOf(cut, e, w, 0) == cut + e
  {
  }

  lemma StartsAre(n: int, cut: int, e: int, w: int)
    requires w + e >= 1
    ensures var starts := Starts(n, cut, e, w);
            |starts| == WindowCount(n, cut, e, w) && forall k :: 0 <= k < |starts| ==> starts[k] == StartOf(cut, e, w, k)
  {
  }

  lemma RowIs(row: WindowRow, snapshots: seq<Snapshot>, cfg: ReplayConfig, gens: seq<Generator>,
              classify: Snapshot -> Regime, e: int, w: nat, start: int)
    requires (row.trainEnd, row.testStart, row.testEnd) == (start - e - 1, start, start + w - 1)
    requires w >= 1 && 0 <= start && start + w <= |snapshots|
    requires row.report == ReplayOf(cfg, snapshots, start, start + w - 1, gens, classify)
    ensures IsRow(row, snapshots, cfg, gens, classify, e, w, start)
  {
  }

  /**
   Walk-forward rows see no future and no past. Take two histories of any length, walk both, and take any window
   of the first on whose bars the histories agree: where the second has a window there, the rows are equal, up to
   the number of snapshots the report quotes.
  */
  lemma RowsSeeOnlyTheirWindow(a: WindowRow, b: WindowRow, ha: seq<Snapshot>, hb: seq<Snapshot>, cfg: ReplayConfig,
                               gens: seq<Generator>, classify: Snapshot -> Regime, e: int, w: nat, start: nat)
    requires IsRow(a, ha, cfg, gens, classify, e, w, start) && IsRow(b, hb, cfg, gens, classify, e, w, start)
    requires Agree(ha, hb, start, start + w - 1)
    ensures a.(report := a.report.(snapshots := |hb|)) == b
  {
    hide ReplayOf, Agree;
    NoBarOutsideMatters(ha, hb, cfg, start, start + w - 1, gens, classify);
  }

  lemma ReportQuotesLength(cfg: ReplayConfig, h: seq<Snapshot>, start: nat, end: nat, gens: seq<Generator>, classify: Snapshot -> Regime)
    requires end < |h|
    ensures ReplayOf(cfg, h, start, end, gens, classify).snapshots == |h|
  {
  }

  /** So bars from t on, the future of every window that ends before t, cannot change any of those windows' rows. */
  lemma RowsBeforeAChangeStand(ra: seq<WindowRow>, rb: seq<WindowRow>, ha: seq<Snapshot>, hb: seq<Snapshot>, cfg: ReplayConfig,
                               gens: seq<Generator>, classify: Snapshot -> Regime, e: int, w: nat, starts: seq<int>, t: nat)
    requires |ha| == |hb| && t <= |ha| && forall k :: 0 <= k < t ==> ha[k] == hb[k]
    requires |ra| == |rb| == |starts|
    requires forall k :: 0 <= k < |starts| ==> IsRow(ra[k], ha, cfg, gens, classify, e, w, starts[k])
                                               && IsRow(rb[k], hb, cfg, gens, classify, e, w, starts[k])
    ensures forall k :: 0 <= k < |starts| && starts[k] + w <= t ==> ra[k] == rb[k]
  {
    hide ReplayOf;
    forall k | 0 <= k < |starts| && starts[k] + w <= t ensures ra[k] == rb[k] {
      RowsSeeOnlyTheirWindow(ra[k], rb[k], ha, hb, cfg, gens, classify, e, w, starts[k]);
      ReportQuotesLength(cfg, ha, starts[k], starts[k] + w - 1, gens, classify);
    }
  }
}
