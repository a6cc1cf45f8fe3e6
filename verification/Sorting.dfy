/** Index orders: what sorting indices by a key returns, and how sets of indices are counted. */
module Sorting {
  /** Indices below n, each once, by ascending key. */
  ghost predicate SortOrder(order: seq<nat>, keys: seq<real>) {
    && |order| == |keys|
    && Below(order, |keys|)
    && Injective(order)
    && Ascending(order, keys)
  }

  ghost predicate Ascending(order: seq<nat>, keys: seq<real>)
    requires Below(order, |keys|)
  {
    forall a, b :: 0 <= a < b < |order| ==> keys[order[a]] <= keys[order[b]]
  }

  ghost predicate Below(s: seq<nat>, n: nat) {
    forall a :: 0 <= a < |s| ==> s[a] < n
  }

  ghost predicate Injective(s: seq<nat>) {
    forall a, b :: 0 <= a < b < |s| ==> s[a] != s[b]
  }

  /** Insert index i behind every index whose key is not larger. */
  function Insert(order: seq<nat>, keys: seq<real>, i: nat): (r: seq<nat>)
    requires i < |keys| && Below(order, |keys|)
    ensures |r| == |order| + 1 && Below(r, |keys|)
    ensures forall x :: x in r <==> x in order || x == i
  {
    if |order| == 0 then [i]
    else
      var n := |order| - 1;
      if keys[order[n]] <= keys[i] then order + [i] else Insert(order[..n], keys, i) + [order[n]]
  }

  /** A stable sort of the first n indices. */
  function Order(keys: seq<real>, n: nat): (r: seq<nat>)
    requires n <= |keys|
    ensures |r| == n && Below(r, |keys|) && forall x :: x in r ==> x < n
  {
    if n == 0 then [] else Insert(Order(keys, n - 1), keys, n - 1)
  }

  lemma AppendSorted(order: seq<nat>, keys: seq<real>, i: nat)
    requires i < |keys| && Below(order, |keys|) && Injective(order) && Ascending(order, keys)
    requires forall a :: 0 <= a < |order| ==> order[a] != i && keys[order[a]] <= keys[i]
    ensures Injective(order + [i]) && Below(order + [i], |keys|) && Ascending(order + [i], keys)
  {
  }

  lemma {:induction false} InsertSorted(order: seq<nat>, keys: seq<real>, i: nat)
    requires i < |keys| && i !in order && Injective(order)
    requires Below(order, |keys|)
    requires Ascending(order, keys)
    ensures var r := Insert(order, keys, i); Injective(r) && Ascending(r, keys)
  {
    if |order| > 0 {
      var n := |order| - 1;
      if keys[order[n]] <= keys[i] {
        assert forall a :: 0 <= a < n ==> keys[order[a]] <= keys[order[n]];
        AppendSorted(order, keys, i);
      } else {
        InsertSorted(order[..n], keys, i);
        var head := Insert(order[..n], keys, i);
        forall a | 0 <= a < |head| ensures keys[head[a]] <= keys[order[n]] && head[a] != order[n] {
          assert head[a] in head;
          if head[a] != i {
            var k :| 0 <= k < n && order[..n][k] == head[a];
            assert order[k] == head[a];
          }
        }
        AppendSorted(head, keys, order[n]);
      }
    }
  }

  lemma {:induction false} OrderSorts(keys: seq<real>, n: nat)
    requires n <= |keys|
    ensures var r := Order(keys, n); Injective(r) && Ascending(r, keys)
  {
    hide Insert, Injective, Ascending;
    if n == 0 {
      NothingToSort(keys);
    } else {
      OrderSorts(keys, n - 1);
      InsertSorted(Order(keys, n - 1), keys, n - 1);
    }
  }

  lemma NothingToSort(keys: seq<real>)
    ensures Injective([]) && Ascending([], keys)
  {
  }

  lemma SortOrderExists(keys: seq<real>)
    ensures SortOrder(Order(keys, |keys|), keys)
  {
    OrderSorts(keys, |keys|);
  }

  // ---- Counting ---------------------------------------------------------------------------------

  function Elements(s: seq<nat>): set<nat> { set k | 0 <= k < |s| :: s[k] }

  lemma {:induction false} ElementsCount(s: seq<nat>)
    requires Injective(s)
    ensures |Elements(s)| == |s|
  {
    if |s| > 0 {
      var n := |s| - 1;
      ElementsCount(s[..n]);
      assert Elements(s) == Elements(s[..n]) + {s[n]};
    }
  }

  lemma {:induction false} SubsetCount<T>(a: set<T>, b: set<T>)
    requires a <= b
    ensures |a| <= |b|
  {
    if a != {} {
      var x :| x in a;
      SubsetCount(a - {x}, b - {x});
    }
  }

  function Range(n: nat): (r: set<nat>)
    ensures forall k: nat :: k in r <==> k < n
    ensures |r| == n
  {
    if n == 0 then {} else Range(n - 1) + {n - 1}
  }

  /** n distinct indices below n are all of them. */
  lemma InjectiveCovers(s: seq<nat>, i: nat)
    requires Injective(s) && Below(s, |s|) && i < |s|
    ensures i in s
  {
    ElementsCount(s);
    if i !in s {
      assert Elements(s) <= Range(|s|) - {i};
      SubsetCount(Elements(s), Range(|s|) - {i});
    }
  }
}
