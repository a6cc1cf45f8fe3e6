/** Holm's step-down correction is a closed test (src/evaluation/walk_forward_strength.py). */
module Holm {
  import opened Common
  import opened Sorting

  /** Threshold of the hypothesis at 0-based position k of m. */
  function Threshold(alpha: real, m: nat, k: nat): real
    requires k < m
  {
    alpha / ((m - k) as real)
  }

  /** A hypothesis set is rejected when some member clears the Bonferroni level of the set. */
  ghost predicate LocalReject(ps: seq<real>, alpha: real, s: set<nat>)
    requires s != {} && forall j :: j in s ==> j < |ps|
  {
    exists j :: j in s && ps[j] <= alpha / (|s| as real)
  }

  /** Closed testing: hypothesis i is rejected when every set of hypotheses containing it is. */
  ghost predicate ClosedReject(ps: seq<real>, alpha: real, i: nat) {
    forall s: set<nat> :: i in s && (forall j :: j in s ==> j < |ps|) ==> LocalReject(ps, alpha, s)
  }

  /** How far the step-down gets along an order: everything before `cut` clears its threshold, and `cut` does not. */
  ghost predicate Cut(order: seq<nat>, ps: seq<real>, alpha: real, cut: nat) {
    && SortOrder(order, ps) && cut <= |ps|
    && (forall k :: 0 <= k < cut ==> ps[order[k]] <= Threshold(alpha, |ps|, k))
    && (cut < |ps| ==> ps[order[cut]] > Threshold(alpha, |ps|, cut))
  }

  lemma DivideMonotone(alpha: real, a: real, b: real)
    requires alpha > 0.0 && 0.0 < a <= b
    ensures alpha / b <= alpha / a
  {
  }

  lemma FirstMember(order: seq<nat>, s: set<nat>, r: nat) returns (t: nat)
    requires r < |order| && order[r] in s
    ensures t <= r && order[t] in s && forall k :: 0 <= k < t ==> order[k] !in s
  {
    t := 0;
    while order[t] !in s
      invariant t <= r && forall k :: 0 <= k < t ==> order[k] !in s
      decreases r - t
    {
      t := t + 1;
    }
  }

  /** What the step-down rejects, every closed test rejects. */
  lemma CutRejectsClosed(order: seq<nat>, ps: seq<real>, alpha: real, cut: nat, r: nat)
    requires alpha > 0.0 && Cut(order, ps, alpha, cut) && r < cut
    ensures ClosedReject(ps, alpha, order[r])
  {
    forall s: set<nat> | order[r] in s && forall j :: j in s ==> j < |ps| ensures LocalReject(ps, alpha, s) {
      var t := FirstMember(order, s, r);
      var tail := order[t..];
      forall j | j in s ensures j in Elements(tail) {
        InjectiveCovers(order, j);
        var k :| 0 <= k < |order| && order[k] == j;
        assert tail[k - t] == j;
      }
      ElementsCount(tail);
      SubsetCount(s, Elements(tail));
      SubsetCount({order[r]}, s);
      DivideMonotone(alpha, |s| as real, (|ps| - t) as real);
      assert order[t] in s && ps[order[t]] <= alpha / (|s| as real);
    }
  }

  /** What the step-down keeps, the set of everything not yet rejected keeps. */
  lemma CutKeepsClosed(order: seq<nat>, ps: seq<real>, alpha: real, cut: nat, r: nat)
    requires Cut(order, ps, alpha, cut) && cut <= r < |ps|
    ensures !ClosedReject(ps, alpha, order[r])
  {
    var s := Elements(order[cut..]);
    ElementsCount(order[cut..]);
    assert order[cut..][r - cut] == order[r];
    assert order[r] in s;
    forall j | j in s ensures j < |ps| && ps[j] > alpha / (|s| as real) {
      var k :| 0 <= k < |order| - cut && order[cut..][k] == j;
      assert order[cut + k] == j;
    }
    assert !LocalReject(ps, alpha, s);
  }

  /** The rejected mask of a step-down. */
  ghost predicate MaskOf(order: seq<nat>, cut: nat, mask: seq<bool>) {
    && |mask| == |order|
    && forall k :: 0 <= k < |order| && order[k] < |mask| ==> (mask[order[k]] <==> k < cut)
  }

  lemma MaskIsClosedTest(order: seq<nat>, ps: seq<real>, alpha: real, cut: nat, mask: seq<bool>, i: nat)
    requires alpha > 0.0 && Cut(order, ps, alpha, cut) && MaskOf(order, cut, mask) && i < |ps|
    ensures mask[i] <==> ClosedReject(ps, alpha, i)
  {
    InjectiveCovers(order, i);
    var k :| 0 <= k < |order| && order[k] == i;
    if k < cut {
      CutRejectsClosed(order, ps, alpha, cut, k);
    } else {
      CutKeepsClosed(order, ps, alpha, cut, k);
    }
  }

  /** The step-down: a mask that is the closed test, and the number of rejections. */
  method HolmStepdown(ps: seq<real>, alpha: real) returns (r: Result<(seq<bool>, nat)>)
    ensures r.Err? <==> |ps| > 0 && !(0.0 < alpha < 1.0)
    ensures r.Ok? ==>
              && |r.value.0| == |ps|
              && (forall i :: 0 <= i < |ps| ==> (r.value.0[i] <==> ClosedReject(ps, alpha, i)))
              && r.value.1 == |set i: nat | i < |ps| && r.value.0[i]|
  {
    var m := |ps|;
    if m == 0 {
      return Ok(([], 0));
    }
    if !(0.0 < alpha < 1.0) {
      return Err("alpha must be in (0, 1)");
    }
    var order := Order(ps, m);
    SortOrderExists(ps);
    var rejected := seq(m, _ => false);
    var count := 0;
    var stopped := false;
    while count < m && !stopped
      invariant count <= m && |rejected| == m
      invariant forall k :: 0 <= k < count ==> ps[order[k]] <= Threshold(alpha, m, k)
      invariant MaskOf(order, count, rejected)
      invariant stopped ==> count < m && ps[order[count]] > Threshold(alpha, m, count)
      decreases m - count, if stopped then 0 else 1
    {
      if ps[order[count]] <= alpha / ((m - count) as real) {
        rejected := rejected[order[count] := true];
        count := count + 1;
      } else {
        stopped := true;
      }
    }
    forall i | 0 <= i < m ensures rejected[i] <==> ClosedReject(ps, alpha, i) {
      MaskIsClosedTest(order, ps, alpha, count, rejected, i);
    }
    MaskCount(order, count, rejected);
    return Ok((rejected, count));
  }

  lemma MaskCount(order: seq<nat>, cut: nat, mask: seq<bool>)
    requires Injective(order) && Below(order, |order|)
    requires cut <= |order| && MaskOf(order, cut, mask)
    ensures |set i: nat | i < |mask| && mask[i]| == cut
  {
    var head := order[..cut];
    ElementsCount(head);
    forall i: nat | i < |mask| ensures mask[i] <==> i in Elements(head) {
      InjectiveCovers(order, i);
      var k :| 0 <= k < |order| && order[k] == i;
      if k < cut { assert head[k] == i; }
      if i in Elements(head) {
        var h :| 0 <= h < cut && head[h] == i;
      }
    }
    assert (set i: nat | i < |mask| && mask[i]) == Elements(head);
  }

  // ---- What follows from being a closed test --------------------------------------------------

  /** Two orders that break ties differently reject the same hypotheses. */
  lemma TieOrderIsIrrelevant(a: seq<nat>, b: seq<nat>, ps: seq<real>, alpha: real, cutA: nat, cutB: nat,
                             maskA: seq<bool>, maskB: seq<bool>)
    requires alpha > 0.0 && Cut(a, ps, alpha, cutA) && Cut(b, ps, alpha, cutB)
    requires MaskOf(a, cutA, maskA) && MaskOf(b, cutB, maskB)
    ensures maskA == maskB
  {
    forall i | 0 <= i < |ps| ensures maskA[i] == maskB[i] {
      MaskIsClosedTest(a, ps, alpha, cutA, maskA, i);
      MaskIsClosedTest(b, ps, alpha, cutB, maskB, i);
    }
  }

  /** Every Bonferroni rejection is a Holm rejection. */
  lemma BonferroniIsContained(ps: seq<real>, alpha: real, i: nat)
    requires alpha > 0.0 && i < |ps| && ps[i] <= alpha / (|ps| as real)
    ensures ClosedReject(ps, alpha, i)
  {
    forall s: set<nat> | i in s && forall j :: j in s ==> j < |ps| ensures LocalReject(ps, alpha, s) {
      SubsetCount(s, Range(|ps|));
      SubsetCount({i}, s);
      DivideMonotone(alpha, |s| as real, |ps| as real);
      assert ps[i] <= alpha / (|s| as real);
    }
  }

  /** Lowering p-values, anywhere and by any amount, never loses a rejection. */
  lemma LowerPValuesKeepRejections(ps: seq<real>, lower: seq<real>, alpha: real, i: nat)
    requires |lower| == |ps| && forall j :: 0 <= j < |ps| ==> lower[j] <= ps[j]
    requires ClosedReject(ps, alpha, i)
    ensures ClosedReject(lower, alpha, i)
  {
    forall s: set<nat> | i in s && forall j :: j in s ==> j < |lower| ensures LocalReject(lower, alpha, s) {
      assert LocalReject(ps, alpha, s);
      var j :| j in s && ps[j] <= alpha / (|s| as real);
      assert lower[j] <= alpha / (|s| as real);
    }
  }
}
