/** Average ranks and the probability of backtest overfitting (src/evaluation/cscv.py). */
module Cscv {
  import opened Common
  import opened Sorting

  // ---- Ranks ------------------------------------------------------------------------------------

  function Greater(values: seq<real>, v: real): set<nat> { set k: nat | k < |values| && values[k] > v }

  function Equal(values: seq<real>, v: real): set<nat> { set k: nat | k < |values| && values[k] == v }

  /** The counting formula: one more than the number above, plus half of the other ties. */
  function RankOf(values: seq<real>, i: nat): real
    requires i < |values|
  {
    1.0 + (|Greater(values, values[i])| as real) + ((|Equal(values, values[i])| - 1) as real) / 2.0
  }

  function Negated(values: seq<real>): seq<real> {
    seq(|values|, k requires 0 <= k < |values| => -values[k])
  }

  ghost function Sum(xs: seq<real>): real {
    if |xs| == 0 then 0.0 else Sum(xs[..|xs| - 1]) + xs[|xs| - 1]
  }

  lemma {:induction false} SumUpdate(xs: seq<real>, i: nat, v: real)
    requires i < |xs|
    ensures Sum(xs[i := v]) == Sum(xs) - xs[i] + v
  {
    var n := |xs| - 1;
    if i < n {
      SumUpdate(xs[..n], i, v);
      assert xs[i := v][..n] == xs[..n][i := v];
    } else {
      assert xs[i := v][..n] == xs[..n];
    }
  }

  lemma {:induction false} SumZeros(n: nat)
    ensures Sum(seq(n, _ => 0.0)) == 0.0
  {
    if n > 0 {
      SumZeros(n - 1);
      assert seq(n, _ => 0.0)[..n - 1] == seq(n - 1, _ => 0.0);
    }
  }

  /** Positions i..j of a descending order hold one group of ties, separated from everything before and after. */
  ghost predicate TieGroup(values: seq<real>, order: seq<nat>, i: nat, j: nat) {
    && |order| == |values| && Injective(order) && Below(order, |values|) && i <= j < |order|
    && (forall a :: 0 <= a < i ==> values[order[a]] > values[order[i]])
    && (forall a :: i <= a <= j ==> values[order[a]] == values[order[i]])
    && (forall a :: j < a < |order| ==> values[order[a]] < values[order[i]])
  }

  /** Before a tie group stand exactly the greater values, and in it exactly the equal ones. */
  lemma GroupSets(values: seq<real>, order: seq<nat>, i: nat, j: nat)
    requires TieGroup(values, order, i, j)
    ensures Greater(values, values[order[i]]) == Elements(order[..i])
    ensures Equal(values, values[order[i]]) == Elements(order[i..j + 1])
  {
    var v := values[order[i]];
    var above, tied := order[..i], order[i..j + 1];
    forall k: nat | k < |values| ensures (k in Greater(values, v) <==> k in Elements(above))
                                      && (k in Equal(values, v) <==> k in Elements(tied)) {
      InjectiveCovers(order, k);
      var p :| 0 <= p < |order| && order[p] == k;
      if p < i { assert above[p] == k; }
      else if p <= j { assert tied[p - i] == k; }
      if k in Elements(above) { var q :| 0 <= q < i && above[q] == k; assert order[q] == k; }
      if k in Elements(tied) { var q :| 0 <= q < |tied| && tied[q] == k; assert order[i + q] == k; }
    }
    assert Greater(values, v) == Elements(above);
    assert Equal(values, v) == Elements(tied);
  }

  /** The average 1-based position of a tie group is the counting formula for each of its members. */
  lemma GroupRank(values: seq<real>, order: seq<nat>, i: nat, j: nat, a: nat)
    requires TieGroup(values, order, i, j) && i <= a <= j
    ensures RankOf(values, order[a]) == ((i + j) as real) / 2.0 + 1.0
  {
    hide Greater, Equal, Elements;
    GroupSets(values, order, i, j);
    ElementsCount(order[..i]);
    ElementsCount(order[i..j + 1]);
  }

  /** Rank by value, highest first, ties averaged: each rank is the counting formula, and they add up to n(n+1)/2. */
  method RankDesc(values: seq<real>) returns (ranks: seq<real>)
    ensures |ranks| == |values|
    ensures forall i :: 0 <= i < |values| ==> ranks[i] == RankOf(values, i)
    ensures 2.0 * Sum(ranks) == (|values| * (|values| + 1)) as real
  {
    hide Sum, RankOf;
    var n := |values|;
    var order := DescendingOrder(values);
    ranks := seq(n, _ => 0.0);
    SumZeros(n);
    var i := 0;
    while i < n
      invariant i <= n && |ranks| == n
      invariant i < n ==> forall a :: 0 <= a < i ==> values[order[a]] > values[order[i]]
      invariant forall a :: 0 <= a < i ==> ranks[order[a]] == RankOf(values, order[a])
      invariant forall a :: i <= a < n ==> ranks[order[a]] == 0.0
      invariant 2.0 * Sum(ranks) == (i * (i + 1)) as real
    {
      var j := GroupEnd(values, order, i);
      var avg := ((i + j) as real) / 2.0 + 1.0;
      ranks := FillGroup(ranks, order, i, j, avg);
      forall a | i <= a <= j ensures ranks[order[a]] == RankOf(values, order[a]) { GroupRank(values, order, i, j, a); }
      GroupSum(i, j, avg);
      i := j + 1;
    }
    forall k | 0 <= k < n ensures ranks[k] == RankOf(values, k) {
      InjectiveCovers(order, k);
    }
  }

  /** Indices by value, highest first. */
  method DescendingOrder(values: seq<real>) returns (order: seq<nat>)
    ensures Descending(values, order)
  {
    order := Order(Negated(values), |values|);
    SortOrderExists(Negated(values));
    assert Descending(values, order) by {
      forall a, b | 0 <= a < b < |values| ensures values[order[a]] >= values[order[b]] {
        assert Negated(values)[order[a]] <= Negated(values)[order[b]];
      }
    }
  }

  /** The last position tied with a group's first. */
  method GroupEnd(values: seq<real>, order: seq<nat>, i: nat) returns (j: nat)
    requires Descending(values, order) && i < |order|
    requires forall a :: 0 <= a < i ==> values[order[a]] > values[order[i]]
    ensures i <= j < |order| && TieGroup(values, order, i, j)
    ensures j + 1 < |order| ==> forall a :: 0 <= a < j + 1 ==> values[order[a]] > values[order[j + 1]]
  {
    j := i;
    while j + 1 < |values| && values[order[j + 1]] == values[order[i]]
      invariant i <= j < |values|
      invariant forall a :: i <= a <= j ==> values[order[a]] == values[order[i]]
    {
      j := j + 1;
    }
    GroupEnds(values, order, i, j);
  }

  /** Give every position of a group the same rank. */
  method FillGroup(ranks: seq<real>, order: seq<nat>, i: nat, j: nat, avg: real) returns (filled: seq<real>)
    requires i <= j < |order| == |ranks| && Injective(order) && Below(order, |ranks|)
    requires forall a :: i <= a < |order| ==> ranks[order[a]] == 0.0
    ensures |filled| == |ranks|
    ensures forall a :: 0 <= a < |order| ==> filled[order[a]] == if i <= a <= j then avg else ranks[order[a]]
    ensures Sum(filled) == Sum(ranks) + ((j + 1 - i) as real) * avg
  {
    hide Sum;
    filled := ranks;
    for k := i to j + 1
      invariant |filled| == |ranks|
      invariant forall a :: 0 <= a < |order| ==> filled[order[a]] == if i <= a < k then avg else ranks[order[a]]
      invariant Sum(filled) == Sum(ranks) + ((k - i) as real) * avg
    {
      SumUpdate(filled, order[k], avg);
      var next := filled[order[k] := avg];
      assert ((k + 1 - i) as real) * avg == ((k - i) as real) * avg + avg;
      filled := next;
    }
  }

  ghost predicate Descending(values: seq<real>, order: seq<nat>) {
    && |order| == |values| && Injective(order) && Below(order, |values|)
    && forall a, b :: 0 <= a < b < |order| ==> values[order[a]] >= values[order[b]]
  }

  lemma GroupEnds(values: seq<real>, order: seq<nat>, i: nat, j: nat)
    requires Descending(values, order) && i <= j < |order|
    requires forall a :: 0 <= a < i ==> values[order[a]] > values[order[i]]
    requires forall a :: i <= a <= j ==> values[order[a]] == values[order[i]]
    requires j + 1 < |order| ==> values[order[j + 1]] != values[order[i]]
    ensures TieGroup(values, order, i, j)
    ensures j + 1 < |order| ==> forall a :: 0 <= a < j + 1 ==> values[order[a]] > values[order[j + 1]]
  {
    if j + 1 < |order| {
      assert values[order[j]] >= values[order[j + 1]];
      forall a | j < a < |order| ensures values[order[a]] < values[order[i]] {
        if a > j + 1 { assert values[order[j + 1]] >= values[order[a]]; }
      }
    }
  }

  lemma GroupSum(i: nat, j: nat, avg: real)
    requires i <= j && avg == ((i + j) as real) / 2.0 + 1.0
    ensures (i * (i + 1)) as real + 2.0 * (((j + 1 - i) as real) * avg) == ((j + 1) * (j + 2)) as real
  {
    var x, z, width := i as real, (j + 1) as real, (j + 1 - i) as real;
    Consecutive(i, x);
    Consecutive(j + 1, z);
    GroupArea(x, z, width, avg);
  }

  lemma Consecutive(i: nat, x: real)
    requires x == i as real
    ensures (i * (i + 1)) as real == x * (x + 1.0)
  {
    RealProduct(i, i + 1);
  }

  lemma RealProduct(a: nat, b: nat)
    ensures (a * b) as real == a as real * b as real
  {
  }

  lemma GroupArea(x: real, z: real, width: real, avg: real)
    requires width == z - x && 2.0 * avg == x + z + 1.0
    ensures x * (x + 1.0) + 2.0 * (width * avg) == z * (z + 1.0)
  {
    assert 2.0 * (width * avg) == width * (x + z + 1.0);
    assert width * (x + z + 1.0) == (z - x) * (x + z + 1.0);
  }

  /** A better value has a strictly better rank. */
  lemma RankOrder(values: seq<real>, i: nat, k: nat)
    requires i < |values| && k < |values|
    ensures RankOf(values, i) < RankOf(values, k) <==> values[i] > values[k]
    ensures RankOf(values, i) == RankOf(values, k) <==> values[i] == values[k]
  {
    if values[i] > values[k] {
      StrictRank(values, i, k);
    } else if values[i] < values[k] {
      StrictRank(values, k, i);
    }
  }

  lemma StrictRank(values: seq<real>, i: nat, k: nat)
    requires i < |values| && k < |values| && values[i] > values[k]
    ensures RankOf(values, i) < RankOf(values, k)
  {
    var gi, ei, gk, ek := Greater(values, values[i]), Equal(values, values[i]), Greater(values, values[k]), Equal(values, values[k]);
    SubsetCount(gi + ei, gk);
    assert |gi + ei| == |gi| + |ei| by { assert gi * ei == {}; }
    SubsetCount({k}, ek);
    SubsetCount({i}, ei);
  }

  // ---- Splits of the blocks into train and test ----------------------------------------------

  /** Half of the blocks, each once: what the split enumeration, or a sample of it, yields. */
  ghost predicate ValidSplit(blocks: nat, train: seq<nat>) {
    |train| == blocks / 2 && Injective(train) && Below(train, blocks)
  }

  ghost predicate ValidMatrix(matrix: seq<seq<real>>) {
    && |matrix| >= 2 && |matrix[0]| >= 4 && |matrix[0]| % 2 == 0
    && forall k :: 0 <= k < |matrix| ==> |matrix[k]| == |matrix[0]|
  }

  /** Choices of k numbers from `from` to n - 1, each ascending, in the order the enumeration yields them. */
  function Combinations(from: nat, n: nat, k: nat): seq<seq<nat>>
    decreases n - from
  {
    if k == 0 then [[]]
    else if from >= n then []
    else Behind(from, Combinations(from + 1, n, k - 1)) + Combinations(from + 1, n, k)
  }

  /** The same choices with one number put in front of each. */
  function Behind(first: nat, choices: seq<seq<nat>>): seq<seq<nat>> {
    seq(|choices|, i requires 0 <= i < |choices| => [first] + choices[i])
  }

  ghost predicate Choice(c: seq<nat>, from: nat, n: nat, k: nat) {
    && |c| == k && (forall i :: 0 <= i < |c| ==> from <= c[i] < n)
    && forall i, j :: 0 <= i < j < |c| ==> c[i] < c[j]
  }

  lemma BehindHolds(first: nat, choices: seq<seq<nat>>, c: seq<nat>)
    ensures c in Behind(first, choices) <==> |c| > 0 && c[0] == first && c[1..] in choices
  {
    if c in Behind(first, choices) {
      var i :| 0 <= i < |choices| && Behind(first, choices)[i] == c;
      assert c[1..] == choices[i];
    }
    if |c| > 0 && c[0] == first && c[1..] in choices {
      var i :| 0 <= i < |choices| && choices[i] == c[1..];
      assert Behind(first, choices)[i] == c;
    }
  }

  lemma ChoiceSplits(c: seq<nat>, from: nat, n: nat, k: nat)
    requires k > 0 && from < n
    ensures Choice(c, from, n, k)
            <==> (|c| > 0 && c[0] == from && Choice(c[1..], from + 1, n, k - 1)) || Choice(c, from + 1, n, k)
  {
    if |c| > 0 && c[0] == from && Choice(c[1..], from + 1, n, k - 1) {
      forall i | 1 <= i < |c| ensures from + 1 <= c[i] < n { assert c[i] == c[1..][i - 1]; }
      forall i, j | 1 <= i < j < |c| ensures c[i] < c[j] { assert c[1..][i - 1] < c[1..][j - 1]; }
    }
  }

  lemma NoMoreChoices(from: nat, n: nat, k: nat, c: seq<nat>)
    requires k == 0 || from >= n
    ensures c in Combinations(from, n, k) <==> Choice(c, from, n, k)
  {
    if k == 0 {
      assert Combinations(from, n, k) == [[]];
    } else if |c| > 0 {
      assert from <= c[0] < n ==> false;
    }
  }

  lemma InEither(a: seq<seq<nat>>, b: seq<seq<nat>>, c: seq<nat>)
    ensures c in a + b <==> c in a || c in b
  {
  }

  /** The enumeration yields exactly the ascending choices. */
  lemma {:induction false} CombinationsAreChoices(from: nat, n: nat, k: nat, c: seq<nat>)
    ensures c in Combinations(from, n, k) <==> Choice(c, from, n, k)
    decreases n - from
  {
    hide Behind, Choice;
    if k == 0 || from >= n {
      NoMoreChoices(from, n, k, c);
    } else {
      var first, rest := Combinations(from + 1, n, k - 1), Combinations(from + 1, n, k);
      BehindHolds(from, first, c);
      InEither(Behind(from, first), rest, c);
      if |c| > 0 {
        CombinationsAreChoices(from + 1, n, k - 1, c[1..]);
      }
      CombinationsAreChoices(from + 1, n, k, c);
      ChoiceSplits(c, from, n, k);
    }
  }

  ghost predicate Different(choices: seq<seq<nat>>) {
    forall i, j :: 0 <= i < j < |choices| ==> choices[i] != choices[j]
  }

  lemma BehindDiffer(first: nat, choices: seq<seq<nat>>)
    requires Different(choices)
    ensures Different(Behind(first, choices))
  {
    var b := Behind(first, choices);
    forall i, j | 0 <= i < j < |b| ensures b[i] != b[j] {
      assert b[i][1..] == choices[i] && b[j][1..] == choices[j];
    }
  }

  lemma JoinedDiffer(a: seq<seq<nat>>, b: seq<seq<nat>>)
    requires Different(a) && Different(b) && forall c :: c in a ==> c !in b
    ensures Different(a + b)
  {
    forall i, j | 0 <= i < j < |a + b| ensures (a + b)[i] != (a + b)[j] {
      if i < |a| <= j {
        assert a[i] in a && b[j - |a|] in b;
      }
    }
  }

  /** And each of them once. */
  lemma {:induction false} CombinationsDiffer(from: nat, n: nat, k: nat)
    ensures Different(Combinations(from, n, k))
    decreases n - from
  {
    hide Behind, Different;
    if k == 0 || from >= n {
      FewDiffer(from, n, k);
    } else {
      var first, rest := Combinations(from + 1, n, k - 1), Combinations(from + 1, n, k);
      CombinationsDiffer(from + 1, n, k - 1);
      CombinationsDiffer(from + 1, n, k);
      BehindDiffer(from, first);
      forall c | c in Behind(from, first) ensures c !in rest {
        BehindHolds(from, first, c);
        CombinationsAreChoices(from + 1, n, k, c);
      }
      JoinedDiffer(Behind(from, first), rest);
    }
  }

  lemma FewDiffer(from: nat, n: nat, k: nat)
    requires k == 0 || from >= n
    ensures Different(Combinations(from, n, k))
  {
  }

  /** Every way to take half of the blocks for training. */
  function Splits(blocks: nat): seq<seq<nat>> { Combinations(0, blocks, blocks / 2) }

  predicate Sampling(blocks: nat, limit: Option<int>) {
    limit.Some? && limit.value >= 1 && |Splits(blocks)| > limit.value
  }

  /** What the random draw yields when there are more splits than allowed: that many different positions. */
  ghost predicate Drawn(blocks: nat, limit: Option<int>, sample: seq<nat>) {
    Sampling(blocks, limit) ==> |sample| == limit.value && Injective(sample) && Below(sample, |Splits(blocks)|)
  }

  function Chosen(blocks: nat, limit: Option<int>, sample: seq<nat>): seq<seq<nat>>
    requires Drawn(blocks, limit, sample)
  {
    var all := Splits(blocks);
    if Sampling(blocks, limit) then seq(|sample|, i requires 0 <= i < |sample| => all[sample[i]]) else all
  }

  /** Sampled or not, only half splits are evaluated. */
  lemma ChosenAreValid(blocks: nat, limit: Option<int>, sample: seq<nat>)
    requires Drawn(blocks, limit, sample)
    ensures forall k :: 0 <= k < |Chosen(blocks, limit, sample)| ==> ValidSplit(blocks, Chosen(blocks, limit, sample)[k])
    ensures |Chosen(blocks, limit, sample)| == if Sampling(blocks, limit) then limit.value else |Splits(blocks)|
  {
    hide Combinations;
    var all, chosen := Splits(blocks), Chosen(blocks, limit, sample);
    forall k | 0 <= k < |chosen| ensures ValidSplit(blocks, chosen[k]) {
      assert chosen[k] in all by { if Sampling(blocks, limit) { assert all[sample[k]] in all; } }
      CombinationsAreChoices(0, blocks, blocks / 2, chosen[k]);
    }
  }

  lemma ChosenOrAll(blocks: nat, limit: Option<int>, sample: seq<nat>)
    requires Drawn(blocks, limit, sample)
    ensures var all, chosen := Splits(blocks), Chosen(blocks, limit, sample);
            if limit.Some? && 1 <= limit.value < |all| then |chosen| == limit.value else chosen == all
  {
    hide Splits;
  }

  /** Blocks below n that are not in train, ascending. */
  function Complement(n: nat, train: seq<nat>): (test: seq<nat>)
    ensures Below(test, n) && Injective(test)
    ensures forall b: nat :: b in test <==> b < n && b !in train
  {
    if n == 0 then []
    else
      var rest := Complement(n - 1, train);
      assert n - 1 !in rest;
      if n - 1 in train then rest else rest + [n - 1]
  }

  function BlockSum(row: seq<real>, blocks: seq<nat>): real
    requires Below(blocks, |row|)
  {
    if |blocks| == 0 then 0.0 else BlockSum(row, blocks[..|blocks| - 1]) + row[blocks[|blocks| - 1]]
  }

  function Means(matrix: seq<seq<real>>, blocks: seq<nat>, half: nat): seq<real>
    requires half > 0 && forall k :: 0 <= k < |matrix| ==> Below(blocks, |matrix[k]|)
  {
    seq(|matrix|, k requires 0 <= k < |matrix| => BlockSum(matrix[k], blocks) / (half as real))
  }

  /** The first index holding the largest value. */
  ghost predicate FirstBest(values: seq<real>, b: nat) {
    b < |values| && (forall k :: 0 <= k < |values| ==> values[k] <= values[b]) && forall k :: 0 <= k < b ==> values[k] < values[b]
  }

  method MinRank(ranks: seq<real>) returns (b: nat)
    requires |ranks| > 0
    ensures b < |ranks| && (forall k :: 0 <= k < |ranks| ==> ranks[b] <= ranks[k]) && forall k :: 0 <= k < b ==> ranks[b] < ranks[k]
  {
    b := 0;
    for i := 1 to |ranks|
      invariant b < i && (forall k :: 0 <= k < i ==> ranks[b] <= ranks[k]) && forall k :: 0 <= k < b ==> ranks[b] < ranks[k]
    {
      if ranks[i] < ranks[b] {
        b := i;
      }
    }
  }

  /** The train-best strategy lands in the bottom half out of sample. */
  ghost predicate Overfit(matrix: seq<seq<real>>, train: seq<nat>)
    requires ValidMatrix(matrix) && ValidSplit(|matrix[0]|, train)
  {
    var half := |matrix[0]| / 2;
    var test := Means(matrix, Complement(|matrix[0]|, train), half);
    exists b: nat :: FirstBest(Means(matrix, train, half), b) && 2 * (1 + |Greater(test, test[b])|) > |matrix|
  }

  /** Told by those it is at least as good as, itself included: they are at most half of the strategies, rounded up. */
  lemma OverfitIffFewBelow(matrix: seq<seq<real>>, train: seq<nat>, b: nat, test: seq<real>)
    requires ValidMatrix(matrix) && ValidSplit(|matrix[0]|, train) && FirstBest(Means(matrix, train, |matrix[0]| / 2), b)
    requires test == Means(matrix, Complement(|matrix[0]|, train), |matrix[0]| / 2)
    ensures Overfit(matrix, train) <==> |set k: nat | k < |matrix| && test[k] <= test[b]| <= (|matrix| + 1) / 2
  {
    var below := set k: nat | k < |matrix| && test[k] <= test[b];
    assert below == Range(|matrix|) - Greater(test, test[b]);
    assert Greater(test, test[b]) <= Range(|matrix|);
    forall a: nat | FirstBest(Means(matrix, train, |matrix[0]| / 2), a) ensures a == b {
      FirstBestUnique(Means(matrix, train, |matrix[0]| / 2), a, b);
    }
  }

  ghost function OverfitCount(matrix: seq<seq<real>>, chosen: seq<seq<nat>>): nat
    requires ValidMatrix(matrix) && forall k :: 0 <= k < |chosen| ==> ValidSplit(|matrix[0]|, chosen[k])
  {
    if |chosen| == 0 then 0
    else OverfitCount(matrix, chosen[..|chosen| - 1]) + if Overfit(matrix, chosen[|chosen| - 1]) then 1 else 0
  }

  datatype Risk = HIGH | MEDIUM | LOW

  datatype PboReport = PboReport(strategies: nat, blocks: nat, combinations: nat, pbo: real, risk: Risk)

  function RiskOf(pbo: real): Risk { if pbo >= 0.5 then HIGH else if pbo >= 0.4 then MEDIUM else LOW }

  lemma FirstBestUnique(values: seq<real>, a: nat, b: nat)
    requires FirstBest(values, a) && FirstBest(values, b)
    ensures a == b
  {
    assert values[a] <= values[b] <= values[a];
  }

  method CountGreater(values: seq<real>, v: real) returns (n: nat)
    ensures n == |Greater(values, v)|
  {
    n := 0;
    assert Greater(values[..0], v) == {};
    for k := 0 to |values|
      invariant n == |Greater(values[..k], v)|
    {
      assert Greater(values[..k + 1], v) == Greater(values[..k], v) + if values[k] > v then {k} else {};
      if values[k] > v {
        n := n + 1;
      }
    }
    assert values[..|values|] == values;
  }

  /** One split: rank the train means, take the best rank, and look where it lands on the test means. */
  method SplitOverfits(matrix: seq<seq<real>>, train: seq<nat>) returns (overfit: bool)
    requires ValidMatrix(matrix) && ValidSplit(|matrix[0]|, train)
    ensures overfit <==> Overfit(matrix, train)
  {
    hide RankOf, Sum, Greater;
    var half := |matrix[0]| / 2;
    var trainMeans := Means(matrix, train, half);
    var testMeans := Means(matrix, Complement(|matrix[0]|, train), half);
    var trainRanks := RankDesc(trainMeans);
    var best := MinRank(trainRanks);
    forall k | 0 <= k < |matrix| ensures trainMeans[k] <= trainMeans[best] && (k < best ==> trainMeans[k] < trainMeans[best]) {
      RankOrder(trainMeans, k, best);
      RankOrder(trainMeans, best, k);
    }
    assert FirstBest(trainMeans, best);
    var above := CountGreater(testMeans, testMeans[best]);
    overfit := ((1 + above) as real) > (|matrix| as real) / 2.0;
    forall b: nat | FirstBest(trainMeans, b) ensures b == best { FirstBestUnique(trainMeans, b, best); }
  }

  method CheckMatrix(matrix: seq<seq<real>>) returns (error: Option<string>)
    ensures error.None? <==> ValidMatrix(matrix)
  {
    if |matrix| == 0 {
      return Some("cscv_pbo requires at least one strategy row");
    }
    for k := 0 to |matrix|
      invariant forall j :: 0 <= j < k ==> |matrix[j]| == |matrix[0]|
    {
      if |matrix[k]| != |matrix[0]| {
        return Some("cscv_pbo requires every strategy row to have the same number of blocks");
      }
    }
    if |matrix| < 2 {
      return Some("cscv_pbo requires at least 2 strategies");
    }
    if |matrix[0]| < 4 {
      return Some("cscv_pbo requires at least 4 blocks");
    }
    if |matrix[0]| % 2 != 0 {
      return Some("cscv_pbo requires an even number of blocks");
    }
    return None;
  }

  method CountOverfits(matrix: seq<seq<real>>, chosen: seq<seq<nat>>) returns (count: nat)
    requires ValidMatrix(matrix) && forall k :: 0 <= k < |chosen| ==> ValidSplit(|matrix[0]|, chosen[k])
    ensures count == OverfitCount(matrix, chosen) && count <= |chosen|
  {
    hide Overfit, ValidSplit;
    count := 0;
    for k := 0 to |chosen|
      invariant count == OverfitCount(matrix, chosen[..k]) && count <= k
    {
      assert chosen[..k + 1][..k] == chosen[..k];
      var overfit := SplitOverfits(matrix, chosen[k]);
      if overfit {
        count := count + 1;
      }
    }
    assert chosen[..|chosen|] == chosen;
  }

  /** The share of the evaluated splits that overfit: all half splits, or the drawn ones when those are too many. */
  method CscvPbo(matrix: seq<seq<real>>, limit: Option<int>, sample: seq<nat>) returns (r: Result<PboReport>)
    requires ValidMatrix(matrix) ==> Drawn(|matrix[0]|, limit, sample)
    ensures r.Ok? <==> ValidMatrix(matrix)
    ensures r.Ok? ==>
              var chosen := Chosen(|matrix[0]|, limit, sample);
              && (forall k :: 0 <= k < |chosen| ==> ValidSplit(|matrix[0]|, chosen[k]))
              && (r.value.strategies, r.value.blocks, r.value.combinations) == (|matrix|, |matrix[0]|, |chosen|)
              && r.value.pbo * (|chosen| as real) == OverfitCount(matrix, chosen) as real
              && 0.0 <= r.value.pbo <= 1.0
              && var overfits := OverfitCount(matrix, chosen);
                 && (r.value.risk == HIGH <==> |chosen| > 0 && 2 * overfits >= |chosen|)
                 && (r.value.risk == LOW <==> |chosen| == 0 || 5 * overfits < 2 * |chosen|)
    ensures r.Ok? ==>
              var all := Splits(|matrix[0]|);
              if limit.Some? && 1 <= limit.value < |all| then r.value.combinations == limit.value
              else r.value.combinations == |all| && Chosen(|matrix[0]|, limit, sample) == all
  {
    hide Overfit, OverfitCount, ValidSplit, Combinations, Sampling, Chosen, Drawn, RiskOf;
    var error := CheckMatrix(matrix);
    if error.Some? {
      return Err(error.value);
    }
    var blocks := |matrix[0]|;
    var chosen := Chosen(blocks, limit, sample);
    ChosenAreValid(blocks, limit, sample);
    ChosenOrAll(blocks, limit, sample);
    var count := CountOverfits(matrix, chosen);
    var pbo := if |chosen| > 0 then (count as real) / (|chosen| as real) else 0.0;
    ShareBounds(count, |chosen|, pbo);
    RiskInCounts(count, |chosen|, pbo);
    return Ok(PboReport(|matrix|, blocks, |chosen|, pbo, RiskOf(pbo)));
  }

  lemma ShareBounds(count: nat, n: nat, share: real)
    requires count <= n && share == if n > 0 then (count as real) / (n as real) else 0.0
    ensures share * (n as real) == count as real && 0.0 <= share <= 1.0
  {
    if n > 0 {
      DivideCancels(count as real, n as real);
    }
  }

  /** High risk is at least half of the splits, low risk less than two in five. */
  lemma RiskInCounts(count: nat, n: nat, share: real)
    requires count <= n && share == if n > 0 then (count as real) / (n as real) else 0.0
    ensures RiskOf(share) == HIGH <==> n > 0 && 2 * count >= n
    ensures RiskOf(share) == LOW <==> n == 0 || 5 * count < 2 * n
  {
    if n > 0 {
      AtLeastShare(count as real, n as real, share, 0.5, 0.5 * (n as real));
      AtLeastShare(count as real, n as real, share, 0.4, 0.4 * (n as real));
    }
  }

  lemma AtLeastShare(a: real, n: real, share: real, bound: real, least: real)
    requires n > 0.0 && share == a / n && least == bound * n
    ensures share >= bound <==> a >= least
  {
    DivideCancels(a, n);
    if share >= bound {
      ScaledAtMost(bound, share, n, least, a);
    } else {
      ScaledBelow(share, bound, n, a, least);
    }
  }

  // ---- A robust edge is never called overfit ----------------------------------------------------

  /** Strategy d is strictly best in every block. */
  ghost predicate Dominates(matrix: seq<seq<real>>, d: nat) {
    && d < |matrix|
    && forall k, b :: 0 <= k < |matrix| && k != d && 0 <= b < |matrix[k]| && b < |matrix[d]| ==> matrix[k][b] < matrix[d][b]
  }

  lemma {:induction false} SumDominates(low: seq<real>, high: seq<real>, blocks: seq<nat>)
    requires |low| == |high| && Below(blocks, |low|)
    requires forall b :: 0 <= b < |low| ==> low[b] < high[b]
    ensures BlockSum(low, blocks) <= BlockSum(high, blocks)
    ensures |blocks| > 0 ==> BlockSum(low, blocks) < BlockSum(high, blocks)
  {
    if |blocks| > 0 {
      SumDominates(low, high, blocks[..|blocks| - 1]);
      assert low[blocks[|blocks| - 1]] < high[blocks[|blocks| - 1]];
    }
  }

  lemma MeansDominate(matrix: seq<seq<real>>, d: nat, blocks: seq<nat>, half: nat, k: nat)
    requires ValidMatrix(matrix) && Dominates(matrix, d) && Below(blocks, |matrix[0]|)
    requires half > 0 && |blocks| > 0 && k < |matrix| && k != d
    ensures Means(matrix, blocks, half)[k] < Means(matrix, blocks, half)[d]
  {
    SumDominates(matrix[k], matrix[d], blocks);
    DivideStrict(BlockSum(matrix[k], blocks), BlockSum(matrix[d], blocks), half as real);
  }

  lemma DivideStrict(a: real, b: real, k: real)
    requires a < b && k > 0.0
    ensures a / k < b / k
  {
    assert b / k - a / k == (b - a) / k;
  }

  lemma ComplementNonEmpty(n: nat, train: seq<nat>)
    requires |train| < n
    ensures |Complement(n, train)| > 0
  {
    if |Complement(n, train)| == 0 {
      forall b | b in Range(n) ensures b in Elements(train) {
        assert b !in Complement(n, train);
        var k :| 0 <= k < |train| && train[k] == b;
      }
      SubsetCount(Range(n), Elements(train));
      ElementsAtMost(train);
    }
  }

  lemma {:induction false} ElementsAtMost(s: seq<nat>)
    ensures |Elements(s)| <= |s|
  {
    if |s| > 0 {
      var n := |s| - 1;
      ElementsAtMost(s[..n]);
      assert Elements(s) == Elements(s[..n]) + {s[n]};
    }
  }

  /** A strategy strictly best in every block is train-best and test-best in every split, so no split overfits. */
  lemma DominantNeverOverfits(matrix: seq<seq<real>>, d: nat, train: seq<nat>)
    requires ValidMatrix(matrix) && ValidSplit(|matrix[0]|, train) && Dominates(matrix, d)
    ensures !Overfit(matrix, train)
  {
    var half := |matrix[0]| / 2;
    var rest := Complement(|matrix[0]|, train);
    ComplementNonEmpty(|matrix[0]|, train);
    var trainMeans, test := Means(matrix, train, half), Means(matrix, rest, half);
    forall k | 0 <= k < |matrix| && k != d ensures trainMeans[k] < trainMeans[d] && test[k] < test[d] {
      MeansDominate(matrix, d, train, half, k);
      MeansDominate(matrix, d, rest, half, k);
    }
    assert FirstBest(trainMeans, d);
    assert Greater(test, test[d]) == {};
    forall b: nat | FirstBest(trainMeans, b) ensures b == d { FirstBestUnique(trainMeans, b, d); }
  }

  /** Hence its reported probability of overfitting is zero over any list of splits, sampled or exhaustive. */
  lemma {:induction false} DominantHasZeroPbo(matrix: seq<seq<real>>, d: nat, chosen: seq<seq<nat>>)
    requires ValidMatrix(matrix) && Dominates(matrix, d)
    requires forall k :: 0 <= k < |chosen| ==> ValidSplit(|matrix[0]|, chosen[k])
    ensures OverfitCount(matrix, chosen) == 0
  {
    if |chosen| > 0 {
      DominantHasZeroPbo(matrix, d, chosen[..|chosen| - 1]);
      DominantNeverOverfits(matrix, d, chosen[|chosen| - 1]);
    }
  }

  /** A train-best strategy that is strictly worst out of sample always counts as overfit. */
  lemma WorstOutOfSampleOverfits(matrix: seq<seq<real>>, b: nat, train: seq<nat>, test: seq<real>)
    requires ValidMatrix(matrix) && ValidSplit(|matrix[0]|, train)
    requires test == Means(matrix, Complement(|matrix[0]|, train), |matrix[0]| / 2)
    requires FirstBest(Means(matrix, train, |matrix[0]| / 2), b)
    requires forall k :: 0 <= k < |test| && k != b ==> test[b] < test[k]
    ensures Overfit(matrix, train)
  {
    assert Greater(test, test[b]) == Range(|matrix|) - {b};
  }
}
