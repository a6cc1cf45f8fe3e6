/**
 The walk-forward window geometry. The same loop is written out in six places of the program, two of them
 word for word; each form of it is proved to produce one closed form (src/evaluation/walk_forward_coverage.py,
 baseline.py, walk_forward_quality.py, regime_attribution.py, orderflow_evaluation.py, funding_basis_evaluation.py).
*/
module Windows {
  import opened Common

  // ---- The closed form ------------------------------------------------------------------------

  function Truncate(x: real): int { if x >= 0.0 then x.Floor else -(-x).Floor }

  /** Bars before the first embargo: at least one. */
  function CutOf(n: nat, fraction: real): nat { MaxInt(1, Truncate((n as real) * fraction)) }

  /** The training part: the whole bars in that fraction of the data, or one bar where that is less than one. */
  predicate IsCut(c: int, n: nat, fraction: real) {
    var share := (n as real) * fraction;
    (c as real <= share < c as real + 1.0 && c >= 1) || (c == 1 && share < 2.0)
  }

  lemma CutIsShare(n: nat, fraction: real)
    ensures IsCut(CutOf(n, fraction), n, fraction)
    ensures forall c :: IsCut(c, n, fraction) ==> c == CutOf(n, fraction)
  {
  }

  /** Complete windows of w bars, each preceded by an embargo of e bars, in the bars from cut to n. */
  function WindowCount(n: int, cut: int, e: int, w: int): nat
    requires w + e >= 1
  {
    if n <= cut then 0 else (n - cut) / (w + e)
  }

  function StartOf(cut: int, e: int, w: int, k: nat): int { cut + e + k * (w + e) }

  /** The first test bars of all windows. */
  function Starts(n: int, cut: int, e: int, w: int): seq<int>
    requires w + e >= 1
  {
    StartsUpTo(cut, e, w, WindowCount(n, cut, e, w))
  }

  function StartsUpTo(cut: int, e: int, w: int, count: nat): seq<int> {
    seq(count, k requires 0 <= k => StartOf(cut, e, w, k))
  }

  /** The first test window starts an embargo behind the training part, and no other starts earlier. */
  lemma StartsFollowTraining(n: nat, fraction: real, e: int, w: int)
    requires w + e >= 1
    ensures var starts := Starts(n, CutOf(n, fraction), e, w);
            |starts| > 0 ==> IsCut(starts[0] - e, n, fraction) && forall k :: 0 <= k < |starts| ==> starts[k] >= starts[0]
  {
    hide CutOf, IsCut, WindowCount;
    CutIsShare(n, fraction);
    var starts := Starts(n, CutOf(n, fraction), e, w);
    forall k | 0 <= k < |starts| ensures starts[k] >= starts[0] {
      StepTimes(k, w + e);
    }
  }

  lemma DivAtLeast(a: int, b: int, m: int)
    requires b >= 1 && a >= 0
    ensures a / b >= m <==> m * b <= a
  {
    var q := a / b;
    assert q * b <= a < (q + 1) * b;
    if q >= m { assert m * b <= q * b; }
    if m > q { assert (q + 1) * b <= m * b; }
  }

  /** A window fits exactly while its index is below the count: the guard every copy of the loop tests. */
  lemma FitsIffCounted(n: int, cut: int, e: int, w: int, k: nat)
    requires w + e >= 1
    ensures StartOf(cut, e, w, k) + w <= n <==> k < WindowCount(n, cut, e, w)
  {
    var step := w + e;
    assert StartOf(cut, e, w, k) + w - cut == (k + 1) * step;
    if n > cut {
      DivAtLeast(n - cut, step, k + 1);
    } else {
      assert (k + 1) * step >= 1;
    }
  }

  lemma CutIsPositive(n: nat, fraction: real)
    ensures CutOf(n, fraction) >= 1
  {
  }

  lemma NoBarsNoWindows(fraction: real, e: int, w: int)
    requires e >= 0 && w >= 1
    ensures WindowCount(0, CutOf(0, fraction), e, w) == 0
  {
  }

  lemma FirstStart(cut: int, e: int, w: int)
    ensures StartOf(cut, e, w, 0) == cut + e
  {
  }

  lemma NextStart(cut: int, e: int, w: int, k: nat)
    ensures StartOf(cut, e, w, k + 1) == StartOf(cut, e, w, k) + w + e
    ensures StartsUpTo(cut, e, w, k + 1) == StartsUpTo(cut, e, w, k) + [StartOf(cut, e, w, k)]
  {
    assert (k + 1) * (w + e) == k * (w + e) + w + e;
  }

  /** Windows stay inside the data, never overlap, and leave exactly the embargo between neighbours. */
  lemma WindowsAreEmbargoed(n: nat, cut: nat, e: nat, w: nat, i: nat, j: nat)
    requires w >= 1 && i < j < WindowCount(n, cut, e, w)
    ensures var a, b := StartOf(cut, e, w, i), StartOf(cut, e, w, j);
            && cut + e <= a && a + w - 1 + e < b && b + w <= n
            && (j == i + 1 ==> b == (a + w - 1) + e + 1)
  {
    FitsIffCounted(n, cut, e, w, j);
    hide WindowCount;
    StepTimes(i, w + e);
    StepTimes(j - i, w + e);
    assert j * (w + e) == i * (w + e) + (j - i) * (w + e);
  }

  lemma StepTimes(k: nat, step: nat)
    ensures k * step >= 0
    ensures k >= 1 ==> k * step >= step
    ensures k == 1 ==> k * step == step
  {
  }

  // ---- Copy 1: counting, and the search for a recommended length ---------------------------------

  method CountWindows(n: int, cut: int, e: int, w: int) returns (count: nat)
    requires w >= 1 ==> w + e >= 1
    ensures count == if w < 1 || cut < 0 || n <= 0 then 0 else WindowCount(n, cut, e, w)
  {
    if w < 1 || cut < 0 || n <= 0 {
      return 0;
    }
    count := 0;
    var testStart := cut + e;
    FitsIffCounted(n, cut, e, w, 0);
    while testStart + w <= n
      invariant testStart == StartOf(cut, e, w, count) && count <= WindowCount(n, cut, e, w)
      invariant testStart + w <= n <==> count < WindowCount(n, cut, e, w)
      decreases n - testStart
    {
      NextStart(cut, e, w, count);
      FitsIffCounted(n, cut, e, w, count + 1);
      count := count + 1;
      testStart := testStart + w + e;
    }
  }

  /** The longest window that still yields m windows, in closed form; `RecommendedFromShare` says it without the cut. */
  function Recommended(n: nat, fraction: real, e: nat, m: int): int {
    var cut := CutOf(n, fraction);
    var available := n - cut - e;
    if available < 1 then 0
    else if m < 1 then available
    else MaxInt(1, (n - cut) / m - e)
  }

  lemma RecommendedFromShare(n: nat, fraction: real, e: nat, m: int, training: int)
    requires IsCut(training, n, fraction)
    ensures Recommended(n, fraction, e, m)
         == if n < training + e + 1 then 0 else if m < 1 then n - training - e else MaxInt(1, (n - training) / m - e)
  {
    hide IsCut, CutOf;
    CutIsShare(n, fraction);
  }

  /** Enough windows of length w fit exactly up to a threshold length. */
  lemma EnoughIffShort(n: int, cut: int, e: nat, w: int, m: int)
    requires w >= 1 && n > cut && m >= 1
    ensures WindowCount(n, cut, e, w) >= m <==> w <= (n - cut) / m - e
  {
    DivAtLeast(n - cut, w + e, m);
    DivAtLeast(n - cut, m, w + e);
    assert m * (w + e) == (w + e) * m;
  }

  method RecommendTestWindow(n: nat, fraction: real, e: nat, m: int) returns (length: int)
    ensures length == Recommended(n, fraction, e, m)
  {
    var cut := CutOf(n, fraction);
    var available := n - cut - e;
    if available < 1 {
      return 0;
    }
    if m >= 1 {
      DivAtLeast(n - cut, m, n - cut + 1);
      assert m * (n - cut + 1) >= n - cut + 1;
    }
    var w := available;
    while w > 0
      invariant 0 <= w <= available
      invariant m >= 1 ==> (n - cut) / m - e <= w || w == 0
      invariant m >= 1 && w == 0 ==> (n - cut) / m - e < 1
      invariant m < 1 ==> w == available
    {
      var count := CountWindows(n, cut, e, w);
      if m >= 1 { EnoughIffShort(n, cut, e, w, m); }
      if count >= m {
        return w;
      }
      w := w - 1;
    }
    return 1;
  }

  /** The recommendation is the maximum: it yields m windows whenever any length does, and no longer length does. */
  lemma RecommendationIsMaximal(n: nat, fraction: real, e: nat, m: int, w: int)
    requires m >= 1 && w >= 1 && n > CutOf(n, fraction) + e
    ensures var cut := CutOf(n, fraction);
            var best := Recommended(n, fraction, e, m);
            && (WindowCount(n, cut, e, w) >= m ==> w <= best && WindowCount(n, cut, e, best) >= m)
            && best >= 1
  {
    var cut := CutOf(n, fraction);
    EnoughIffShort(n, cut, e, w, m);
    EnoughIffShort(n, cut, e, Recommended(n, fraction, e, m), m);
  }

  // ---- Copies 2 to 4: the plan with timestamps, the regime bounds, the order-flow windows --------

  datatype PlanRow = PlanRow(
    index: nat, trainEnd: int, testStart: int, testEnd: int,
    trainStartMs: int, trainEndMs: int, testStartMs: int, testEndMs: int)

  method WindowPlanFromDataset(ts: seq<int>, fraction: real, e: int, w: int) returns (r: Result<seq<PlanRow>>)
    ensures r.Ok? <==> 0.0 < fraction < 1.0 && e >= 0 && w >= 1 && WindowCount(|ts|, CutOf(|ts|, fraction), e, w) > 0
    ensures r.Ok? ==> var cut := CutOf(|ts|, fraction);
              && |r.value| == WindowCount(|ts|, cut, e, w)
              && forall k :: 0 <= k < |r.value| ==>
                   var start := StartOf(cut, e, w, k);
                   && e + 1 <= start && start + w <= |ts|
                   && r.value[k] == PlanRow(k, start - e - 1, start, start + w - 1, ts[0], ts[start - e - 1], ts[start], ts[start + w - 1])
    ensures r.Ok? ==> IsCut(r.value[0].testStart - e, |ts|, fraction)
                      && forall k :: 0 <= k < |r.value| ==> r.value[k].testStart >= r.value[0].testStart
  {
    hide CutOf, IsCut, WindowCount, StartOf;
    if !(0.0 < fraction < 1.0) {
      return Err("train_fraction must be in (0, 1)");
    }
    if e < 0 || w < 1 {
      return Err("embargo must be >= 0 and test_window >= 1");
    }
    var n := |ts|;
    var cut := CutOf(n, fraction);
    if n < 1 {
      NoBarsNoWindows(fraction, e, w);
      return Err("window plan requires at least one candle");
    }
    var rows: seq<PlanRow> := [];
    var start := cut + e;
    CutIsPositive(n, fraction);
    FirstStart(cut, e, w);
    FitsIffCounted(n, cut, e, w, 0);
    while start + w <= n
      invariant start == StartOf(cut, e, w, |rows|) && |rows| <= WindowCount(n, cut, e, w)
      invariant start + w <= n <==> |rows| < WindowCount(n, cut, e, w)
      invariant e + 1 <= start
      invariant forall k :: 0 <= k < |rows| ==>
                  var s := StartOf(cut, e, w, k);
                  e + 1 <= s && s + w <= n && rows[k] == PlanRow(k, s - e - 1, s, s + w - 1, ts[0], ts[s - e - 1], ts[s], ts[s + w - 1])
      decreases n - start
    {
      var testEnd := start + w - 1;
      var trainEnd := MaxInt(start - e - 1, 0);
      NextStart(cut, e, w, |rows|);
      FitsIffCounted(n, cut, e, w, |rows| + 1);
      rows := rows + [PlanRow(|rows|, trainEnd, start, testEnd, ts[0], ts[trainEnd], ts[start], ts[testEnd])];
      start := testEnd + 1 + e;
    }
    if |rows| == 0 {
      return Err("walk-forward plan requires at least one complete test window");
    }
    StartsFollowTraining(n, fraction, e, w);
    assert forall k :: 0 <= k < |rows| ==> rows[k].testStart == Starts(n, cut, e, w)[k];
    return Ok(rows);
  }

  /** The regime labels use the same windows, with their midpoints. */
  method WindowBounds(n: nat, fraction: real, e: int, w: int) returns (r: Result<seq<(int, int, int)>>)
    ensures r.Ok? <==> 0.0 < fraction < 1.0 && e >= 0 && w >= 1 && WindowCount(n, CutOf(n, fraction), e, w) > 0
    ensures r.Ok? ==> var starts := Starts(n, CutOf(n, fraction), e, w);
              && |r.value| == |starts|
              && forall k :: 0 <= k < |starts| ==>
                   && r.value[k].0 == starts[k] && r.value[k].1 == starts[k] + w - 1
                   && r.value[k].2 == (r.value[k].0 + r.value[k].1) / 2 && r.value[k].0 <= r.value[k].2 <= r.value[k].1
    ensures r.Ok? ==> IsCut(r.value[0].0 - e, n, fraction) && forall k :: 0 <= k < |r.value| ==> r.value[k].0 >= r.value[0].0
  {
    hide CutOf, IsCut, WindowCount, StartOf;
    if !(0.0 < fraction < 1.0) || e < 0 || w < 1 {
      return Err("walk-forward parameters out of range");
    }
    var cut := CutOf(n, fraction);
    var bounds: seq<(int, int, int)> := [];
    var start := cut + e;
    FirstStart(cut, e, w);
    FitsIffCounted(n, cut, e, w, 0);
    while start + w <= n
      invariant start == StartOf(cut, e, w, |bounds|) && |bounds| <= WindowCount(n, cut, e, w)
      invariant start + w <= n <==> |bounds| < WindowCount(n, cut, e, w)
      invariant forall k :: 0 <= k < |bounds| ==>
                  var s := StartOf(cut, e, w, k); bounds[k] == (s, s + w - 1, (s + s + w - 1) / 2)
      decreases n - start
    {
      var testEnd := start + w - 1;
      NextStart(cut, e, w, |bounds|);
      FitsIffCounted(n, cut, e, w, |bounds| + 1);
      bounds := bounds + [(start, testEnd, (start + testEnd) / 2)];
      start := testEnd + 1 + e;
    }
    if |bounds| == 0 {
      return Err("walk-forward requires at least one complete test window");
    }
    StartsFollowTraining(n, fraction, e, w);
    return Ok(bounds);
  }

  /** The order-flow and funding-basis copies report the same windows and fail on none. */
  method WalkForwardWindows(n: nat, fraction: real, e: int, w: int) returns (starts: seq<int>)
    requires w + e >= 1
    ensures starts == Starts(n, CutOf(n, fraction), e, w)
    ensures |starts| > 0 ==> IsCut(starts[0] - e, n, fraction) && forall k :: 0 <= k < |starts| ==> starts[k] >= starts[0]
  {
    StartsFollowTraining(n, fraction, e, w);
    var cut := CutOf(n, fraction);
    starts := [];
    var start := cut + e;
    FitsIffCounted(n, cut, e, w, 0);
    while start + w <= n
      invariant start == StartOf(cut, e, w, |starts|) && |starts| <= WindowCount(n, cut, e, w)
      invariant start + w <= n <==> |starts| < WindowCount(n, cut, e, w)
      invariant starts == StartsUpTo(cut, e, w, |starts|)
      decreases WindowCount(n, cut, e, w) - |starts|
    {
      NextStart(cut, e, w, |starts|);
      FitsIffCounted(n, cut, e, w, |starts| + 1);
      starts := starts + [start];
      start := start + w - 1 + 1 + e;
    }
  }

  // ---- Purged labels -------------------------------------------------------------------------------

  datatype LabelRow = LabelRow(
    forwardReturn: real, entry: nat, exit: nat, entryMs: int, exitMs: int, window: nat, testStart: int, testEnd: int)

  /** The label of entry bar i in window k. */
  function LabelAt(closes: seq<real>, period: nat, startMs: int, k: nat, start: int, w: int, i: nat): LabelRow
    requires i + period < |closes|
  {
    LabelRow(if closes[i] == 0.0 then 0.0 else closes[i + period] / closes[i] - 1.0, i, i + period,
             startMs + i * 60000, startMs + (i + period) * 60000, k, start, start + w - 1)
  }

  /** Labels emitted per window. */
  function LabelsPerWindow(w: int, period: int): nat { MaxInt(0, w - period) }

  predicate Fits(start: int, w: int, n: nat) { 0 <= start && start + w <= n }

  function LabelsOfWindow(closes: seq<real>, period: nat, startMs: int, k: nat, start: int, w: int, count: nat): seq<LabelRow>
    requires Fits(start, w, |closes|) && count <= LabelsPerWindow(w, period)
  {
    seq(count, t requires 0 <= t < count => LabelAt(closes, period, startMs, k, start, w, start + t))
  }

  /** Window after window, the labels of the bars whose exit stays inside their window. */
  function AllLabels(closes: seq<real>, period: nat, startMs: int, starts: seq<int>, w: int): seq<LabelRow>
    requires forall s :: s in starts ==> Fits(s, w, |closes|)
  {
    if |starts| == 0 then []
    else
      var k := |starts| - 1;
      AllLabels(closes, period, startMs, starts[..k], w)
      + LabelsOfWindow(closes, period, startMs, k, starts[k], w, LabelsPerWindow(w, period))
  }

  /** No label divides by a zero close. */
  ghost predicate EntriesNonZero(closes: seq<real>, period: nat, start: int, w: int)
    requires Fits(start, w, |closes|)
  {
    forall i :: start <= i < start + w - period ==> closes[i] != 0.0
  }

  lemma StartsFit(n: nat, cut: int, e: int, w: int)
    requires w >= 1 && w + e >= 1 && cut + e >= 0
    ensures forall s :: s in Starts(n, cut, e, w) ==> Fits(s, w, n)
  {
    var starts := Starts(n, cut, e, w);
    forall k | 0 <= k < |starts| ensures Fits(starts[k], w, n) {
      FitsIffCounted(n, cut, e, w, k);
      StepTimes(k, w + e);
    }
  }

  /**
   Forward-return labels over all windows that advance and start inside the data: an error for a non-positive period or window or a zero entry
   close, nothing for fewer than two bars, and otherwise exactly the purged labels.
  */
  method EvaluatePurged(closes: seq<real>, period: int, w: int, e: int, fraction: real, startMs: int)
    returns (r: Result<seq<LabelRow>>)
    requires w >= 1 && |closes| > 1 ==> w + e >= 1 && CutOf(|closes|, fraction) + e >= 0
    ensures period < 1 || w < 1 ==> r.Err?
    ensures period >= 1 && w >= 1 && |closes| <= 1 ==> r == Ok([])
    ensures period >= 1 && w >= 1 && |closes| > 1 ==>
              var starts := Starts(|closes|, CutOf(|closes|, fraction), e, w);
              && (forall s :: s in starts ==> Fits(s, w, |closes|))
              && (r.Ok? <==> forall s :: s in starts ==> EntriesNonZero(closes, period, s, w))
              && (r.Ok? ==> r.value == AllLabels(closes, period, startMs, starts, w))
    ensures r.Ok? ==> forall l :: l in r.value ==> (l.entry - e + 1) as real > |closes| as real * fraction
  {
    if period <= 0 {
      return Err("holding period must be positive");
    }
    if w < 1 {
      return Err("test_window must be positive");
    }
    var n := |closes|;
    if n <= 1 {
      return Ok([]);
    }
    var starts := WalkForwardWindows(n, fraction, e, w);
    StartsFit(n, CutOf(n, fraction), e, w);
    var labels: seq<LabelRow> := [];
    for k := 0 to |starts|
      invariant labels == AllLabels(closes, period, startMs, starts[..k], w)
      invariant forall s :: s in starts[..k] ==> EntriesNonZero(closes, period, s, w)
    {
      assert starts[k] in starts;
      var emitted := WindowLabels(closes, period, startMs, k, starts[k], w);
      if emitted.Err? {
        return Err(emitted.error);
      }
      assert starts[..k + 1][..k] == starts[..k];
      labels := labels + emitted.value;
    }
    assert starts[..|starts|] == starts;
    LabelsFollowTraining(closes, period, startMs, fraction, e, w, starts);
    return Ok(labels);
  }

  /** One window: entries from its first bar while the exit stays inside it. */
  method WindowLabels(closes: seq<real>, period: nat, startMs: int, k: nat, start: int, w: int) returns (r: Result<seq<LabelRow>>)
    requires period >= 1 && w >= 1 && Fits(start, w, |closes|)
    ensures r.Ok? <==> EntriesNonZero(closes, period, start, w)
    ensures r.Ok? ==> r.value == LabelsOfWindow(closes, period, startMs, k, start, w, LabelsPerWindow(w, period))
  {
    var testEnd := start + w - 1;
    var stop := MinInt(testEnd - period + 1, |closes| - period);
    var labels: seq<LabelRow> := [];
    var i := start;
    while i < stop
      invariant i - start == |labels| <= LabelsPerWindow(w, period)
      invariant labels == LabelsOfWindow(closes, period, startMs, k, start, w, |labels|)
      invariant forall j :: start <= j < i ==> closes[j] != 0.0
    {
      if i + period >= |closes| {
        break;
      }
      if closes[i] == 0.0 {
        return Err("float division by zero");
      }
      var row := LabelRow(closes[i + period] / closes[i] - 1.0, i, i + period, startMs + i * 60000,
                            startMs + (i + period) * 60000, k, start, testEnd);
      assert row == LabelAt(closes, period, startMs, k, start, w, start + |labels|);
      labels := labels + [row];
      i := i + 1;
    }
    return Ok(labels);
  }

  /** No label enters before the embargo behind the training part has passed. */
  lemma LabelsFollowTraining(closes: seq<real>, period: nat, startMs: int, fraction: real, e: int, w: int, starts: seq<int>)
    requires period >= 1 && w + e >= 1 && starts == Starts(|closes|, CutOf(|closes|, fraction), e, w)
    requires forall s :: s in starts ==> Fits(s, w, |closes|)
    ensures forall l :: l in AllLabels(closes, period, startMs, starts, w) ==> (l.entry - e + 1) as real > |closes| as real * fraction
  {
    hide CutOf, Starts, AllLabels;
    StartsFollowTraining(|closes|, fraction, e, w);
    forall l | l in AllLabels(closes, period, startMs, starts, w)
      ensures (l.entry - e + 1) as real > |closes| as real * fraction {
      LabelsArePurged(closes, period, startMs, starts, w, l);
    }
  }

  ghost predicate InsideItsWindow(l: LabelRow, starts: seq<int>, w: int) {
    && l.window < |starts| && l.testStart == starts[l.window] && l.testEnd == starts[l.window] + w - 1
    && l.testStart <= l.entry < l.exit <= l.testEnd
  }

  /** What a label records: the return over the period from its entry, and both times a minute a bar from the start. */
  ghost predicate Records(l: LabelRow, closes: seq<real>, period: nat, startMs: int) {
    && l.exit == l.entry + period && l.exit < |closes|
    && l.entryMs == startMs + 60000 * l.entry && l.exitMs == startMs + 60000 * l.exit
    && (closes[l.entry] != 0.0 ==> (1.0 + l.forwardReturn) * closes[l.entry] == closes[l.exit])
  }

  lemma LabelRecords(closes: seq<real>, period: nat, startMs: int, k: nat, start: int, w: int, i: nat)
    requires i + period < |closes|
    ensures Records(LabelAt(closes, period, startMs, k, start, w, i), closes, period, startMs)
  {
    if closes[i] != 0.0 {
      DivideCancels(closes[i + period], closes[i]);
    }
  }

  lemma WindowLabelsInside(closes: seq<real>, period: nat, startMs: int, starts: seq<int>, w: int, k: nat)
    requires period >= 1 && k < |starts| && Fits(starts[k], w, |closes|)
    ensures forall l :: l in LabelsOfWindow(closes, period, startMs, k, starts[k], w, LabelsPerWindow(w, period)) ==>
              InsideItsWindow(l, starts, w) && Records(l, closes, period, startMs)
  {
    var last := LabelsOfWindow(closes, period, startMs, k, starts[k], w, LabelsPerWindow(w, period));
    forall l | l in last ensures InsideItsWindow(l, starts, w) && Records(l, closes, period, startMs) {
      var t :| 0 <= t < |last| && last[t] == l;
      LabelRecords(closes, period, startMs, k, starts[k], w, starts[k] + t);
      assert l == LabelAt(closes, period, startMs, k, starts[k], w, starts[k] + t);
    }
  }

  /** Exactly max(0, w - period) labels per window. */
  lemma {:induction false} LabelCount(closes: seq<real>, period: nat, startMs: int, starts: seq<int>, w: int)
    requires forall s :: s in starts ==> Fits(s, w, |closes|)
    ensures |AllLabels(closes, period, startMs, starts, w)| == |starts| * LabelsPerWindow(w, period)
  {
    if |starts| > 0 {
      var k := |starts| - 1;
      LabelCount(closes, period, startMs, starts[..k], w);
      var per := LabelsPerWindow(w, period);
      assert (k + 1) * per == k * per + per;
    }
  }

  /** Every label enters and exits inside its own window, so none sees an embargo or a later window, and records the return in between. */
  lemma {:induction false} LabelsArePurged(closes: seq<real>, period: nat, startMs: int, starts: seq<int>, w: int, l: LabelRow)
    requires period >= 1 && forall s :: s in starts ==> Fits(s, w, |closes|)
    requires l in AllLabels(closes, period, startMs, starts, w)
    ensures InsideItsWindow(l, starts, w) && Records(l, closes, period, startMs)
  {
    var k := |starts| - 1;
    if l in AllLabels(closes, period, startMs, starts[..k], w) {
      LabelsArePurged(closes, period, startMs, starts[..k], w, l);
    } else {
      WindowLabelsInside(closes, period, startMs, starts, w, k);
    }
  }
}
