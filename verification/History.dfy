/** Backward pagination of a candle history (src/market/history.py). */
module History {
  import opened Common

  datatype Candle = Candle(ts: int, close: real)

  /** A server answers the k-th request for `need` candles up to a cursor with any page at all. */
  type Server = (nat, nat, int) -> seq<Candle>

  ghost predicate Ascending(s: seq<Candle>) {
    forall i, j :: 0 <= i < j < |s| ==> s[i].ts < s[j].ts
  }

  /** How many candles of an ascending history are at or before a time. */
  function UpTo(h: seq<Candle>, t: int): (n: nat)
    ensures n <= |h|
  {
    if |h| == 0 then 0 else if h[|h| - 1].ts <= t then |h| else UpTo(h[..|h| - 1], t)
  }

  lemma {:induction false} UpToSplits(h: seq<Candle>, t: int)
    requires Ascending(h)
    ensures forall i :: 0 <= i < |h| ==> (h[i].ts <= t <==> i < UpTo(h, t))
  {
    if |h| > 0 && h[|h| - 1].ts > t {
      var n := |h| - 1;
      UpToSplits(h[..n], t);
      forall i | 0 <= i < |h| ensures h[i].ts <= t <==> i < UpTo(h, t) {
        if i < n { assert h[..n][i] == h[i]; }
      }
    }
  }

  lemma UpToIs(h: seq<Candle>, t: int, n: nat)
    requires Ascending(h) && n <= |h|
    requires n > 0 ==> h[n - 1].ts <= t
    requires n < |h| ==> h[n].ts > t
    ensures UpTo(h, t) == n
  {
    UpToSplits(h, t);
  }

  /** The latest `need` candles at or before a time. */
  function Latest(h: seq<Candle>, need: nat, t: int): seq<Candle> {
    h[MaxInt(0, UpTo(h, t) - need)..UpTo(h, t)]
  }

  /** A truthful venue: every page is the latest candles of one fixed history up to the cursor. */
  ghost predicate Truthful(server: Server, h: seq<Candle>) {
    && Ascending(h) && (forall i :: 0 <= i < |h| ==> h[i].ts > 0)
    && forall k, need, cursor :: server(k, need, cursor) == Latest(h, need, cursor)
  }

  // ---- Collecting and sorting --------------------------------------------------------------------

  function Times(s: seq<Candle>): set<int> { set c | c in s :: c.ts }

  ghost predicate DistinctTimes(s: seq<Candle>) {
    forall i, j :: 0 <= i < j < |s| ==> s[i].ts != s[j].ts
  }

  /** Add the candles of a page whose time is not yet known, in page order. */
  function Merge(s: seq<Candle>, page: seq<Candle>): seq<Candle> {
    if |page| == 0 then s
    else
      var m := Merge(s, page[..|page| - 1]);
      var c := page[|page| - 1];
      if c.ts in Times(m) then m else m + [c]
  }

  lemma {:induction false} MergeKeepsDistinct(s: seq<Candle>, page: seq<Candle>)
    requires DistinctTimes(s)
    ensures DistinctTimes(Merge(s, page)) && |s| <= |Merge(s, page)|
  {
    if |page| > 0 {
      MergeKeepsDistinct(s, page[..|page| - 1]);
      var m := Merge(s, page[..|page| - 1]);
      forall i | 0 <= i < |m| ensures m[i].ts in Times(m) { assert m[i] in m; }
    }
  }

  function InsertByTime(s: seq<Candle>, c: Candle): seq<Candle> {
    if |s| == 0 || s[|s| - 1].ts < c.ts then s + [c] else InsertByTime(s[..|s| - 1], c) + [s[|s| - 1]]
  }

  function SortByTime(s: seq<Candle>): seq<Candle> {
    if |s| == 0 then [] else InsertByTime(SortByTime(s[..|s| - 1]), s[|s| - 1])
  }

  lemma {:induction false} InsertAscends(s: seq<Candle>, c: Candle)
    requires Ascending(s) && forall i :: 0 <= i < |s| ==> s[i].ts != c.ts
    ensures Ascending(InsertByTime(s, c)) && forall x :: x in InsertByTime(s, c) <==> x in s || x == c
  {
    if |s| > 0 && s[|s| - 1].ts > c.ts {
      var n := |s| - 1;
      InsertAscends(s[..n], c);
      var head := InsertByTime(s[..n], c);
      assert s == s[..n] + [s[n]];
      forall i | 0 <= i < |head| ensures head[i].ts < s[n].ts { assert head[i] in head; }
    }
  }

  lemma {:induction false} SortAscends(s: seq<Candle>)
    requires DistinctTimes(s)
    ensures Ascending(SortByTime(s)) && forall x :: x in SortByTime(s) <==> x in s
  {
    if |s| > 0 {
      var n := |s| - 1;
      SortAscends(s[..n]);
      var sorted := SortByTime(s[..n]);
      forall i | 0 <= i < |sorted| ensures sorted[i].ts != s[n].ts { assert sorted[i] in s[..n]; }
      InsertAscends(sorted, s[n]);
      assert s == s[..n] + [s[n]];
    }
  }

  lemma FirstIsMember(s: seq<Candle>)
    ensures |s| > 0 ==> s[0] in s
  {
  }

  /** What an ascending sequence holds before its last candle. */
  lemma FrontMembers(a: seq<Candle>, c: Candle)
    requires Ascending(a) && |a| > 0
    ensures c in a[..|a| - 1] <==> c in a && c != a[|a| - 1]
    ensures c in a ==> c.ts <= a[|a| - 1].ts
  {
    var n := |a| - 1;
    assert a == a[..n] + [a[n]];
    if c in a[..n] {
      var i :| 0 <= i < n && a[..n][i] == c;
      assert a[i].ts < a[n].ts;
    }
  }

  lemma SameLast(a: seq<Candle>, b: seq<Candle>)
    requires Ascending(a) && Ascending(b) && (forall x :: x in a <==> x in b) && |a| > 0
    ensures |b| > 0 && a[|a| - 1] == b[|b| - 1]
  {
    var x := a[|a| - 1];
    assert x in b;
    var y := b[|b| - 1];
    assert y in a;
    FrontMembers(a, y);
    FrontMembers(b, x);
  }

  /** There is only one ascending sequence with given candles. */
  lemma {:induction false} AscendingUnique(a: seq<Candle>, b: seq<Candle>)
    requires Ascending(a) && Ascending(b) && forall x :: x in a <==> x in b
    ensures a == b
    decreases |a|
  {
    if |a| > 0 {
      SameLast(a, b);
      var a', b' := a[..|a| - 1], b[..|b| - 1];
      forall c ensures c in a' <==> c in b' {
        FrontMembers(a, c);
        FrontMembers(b, c);
      }
      AscendingUnique(a', b');
      assert a == a' + [a[|a| - 1]] && b == b' + [b[|b| - 1]];
    } else {
      FirstIsMember(b);
    }
  }

  /** Merge one page; report how many candles were new and the earliest time seen. */
  method MergePage(collected: seq<Candle>, page: seq<Candle>) returns (merged: seq<Candle>, added: nat, earliest: int)
    requires DistinctTimes(collected) && |page| > 0
    ensures merged == Merge(collected, page) && |merged| == |collected| + added
    ensures (forall i :: 0 <= i < |page| ==> earliest <= page[i].ts) && exists i :: 0 <= i < |page| && earliest == page[i].ts
  {
    merged, added, earliest := collected, 0, page[0].ts;
    for k := 0 to |page|
      invariant merged == Merge(collected, page[..k]) && |merged| == |collected| + added
      invariant (forall i :: 0 <= i < k ==> earliest <= page[i].ts) && exists i :: 0 <= i < |page| && earliest == page[i].ts
    {
      assert page[..k + 1][..k] == page[..k];
      if page[k].ts !in Times(merged) {
        merged := merged + [page[k]];
        added := added + 1;
      }
      if page[k].ts < earliest {
        earliest := page[k].ts;
      }
    }
    assert page[..|page|] == page;
  }

  // ---- Against a truthful server ------------------------------------------------------------------

  /** Exactly the candles of a slice of the history, in some order. */
  ghost predicate Holds(s: seq<Candle>, h: seq<Candle>, from: nat, to: nat)
    requires from <= to <= |h|
  {
    |s| == to - from && forall x :: x in s <==> x in h[from..to]
  }

  /** Merging the slice just below what is collected adds exactly that slice. */
  lemma {:induction false} MergeBelow(h: seq<Candle>, s: seq<Candle>, down: nat, k: nat, from: nat, to: nat)
    requires Ascending(h) && down + k <= from <= to <= |h| && Holds(s, h, from, to)
    ensures var m := Merge(s, h[down..down + k]);
            |m| == |s| + k && forall x :: x in m <==> x in h[down..down + k] || x in h[from..to]
  {
    if k > 0 {
      MergeBelow(h, s, down, k - 1, from, to);
      assert h[down..down + k][..k - 1] == h[down..down + k - 1];
      assert h[down..down + k] == h[down..down + k - 1] + [h[down + k - 1]];
      var m := Merge(s, h[down..down + k - 1]);
      forall x | x in m ensures x.ts != h[down + k - 1].ts {
        assert x in h[down..down + k - 1] || x in h[from..to];
      }
    } else {
      assert h[down..down] == [];
    }
  }

  /** A truthful page extends the collected slice downwards and moves the cursor to just before it. */
  lemma TruthfulPage(h: seq<Candle>, s: seq<Candle>, from: nat, to: nat, need: nat, cursor: int, earliest: int, down: nat)
    requires Ascending(h) && (forall i :: 0 <= i < |h| ==> h[i].ts > 0)
    requires from <= to <= |h| && Holds(s, h, from, to) && UpTo(h, cursor) == from && need >= 1 && from > 0
    requires down == MaxInt(0, from - need)
    requires var page := Latest(h, need, cursor);
             (forall i :: 0 <= i < |page| ==> earliest <= page[i].ts) && exists i :: 0 <= i < |page| && earliest == page[i].ts
    ensures Holds(Merge(s, Latest(h, need, cursor)), h, down, to)
    ensures UpTo(h, earliest - 1) == down && (earliest <= 1 ==> down == 0)
  {
    hide Merge;
    MergeBelow(h, s, down, from - down, from, to);
    assert Latest(h, need, cursor) == h[down..down + (from - down)];
    SlicesJoin(h, Merge(s, Latest(h, need, cursor)), down, from, to);
    FirstIsEarliest(h, from, need, cursor, earliest, down);
    UpToIs(h, earliest - 1, down);
  }

  lemma SlicesJoin(h: seq<Candle>, m: seq<Candle>, down: nat, from: nat, to: nat)
    requires down <= from <= to <= |h| && |m| == to - down
    requires forall x :: x in m <==> x in h[down..from] || x in h[from..to]
    ensures Holds(m, h, down, to)
  {
    assert h[down..to] == h[down..from] + h[from..to];
  }

  lemma FirstIsEarliest(h: seq<Candle>, from: nat, need: nat, cursor: int, earliest: int, down: nat)
    requires Ascending(h) && UpTo(h, cursor) == from && need >= 1 && from > 0 && down == MaxInt(0, from - need)
    requires var page := Latest(h, need, cursor);
             (forall i :: 0 <= i < |page| ==> earliest <= page[i].ts) && exists i :: 0 <= i < |page| && earliest == page[i].ts
    ensures earliest == h[down].ts && (down > 0 ==> h[down - 1].ts < earliest)
  {
    assert Latest(h, need, cursor)[0] == h[down];
  }

  /** Requests for at most a page and at most what is wanted, the first for as much as both allow. */
  ghost predicate Asks(asked: seq<nat>, page: int, max: int) {
    && (forall k :: 0 <= k < |asked| ==> 1 <= asked[k] <= page && asked[k] <= max)
    && (|asked| > 0 ==> asked[0] == MinInt(page, max))
  }

  lemma NothingAsked()
    ensures forall page, max :: Asks([], page, max)
  {
  }

  lemma AskMore(asked: seq<nat>, page: int, max: int, need: nat)
    requires Asks(asked, page, max) && 1 <= need <= page && need <= max && (asked == [] ==> need == MinInt(page, max))
    ensures Asks(asked + [need], page, max)
  {
  }

  /** A page is what the caller sets, at least one and at most a thousand. */
  lemma AskedFirst(asked: seq<nat>, pageSize: int, max: int)
    requires Asks(asked, MinInt(MaxInt(pageSize, 1), 1000), max)
    ensures forall k :: 0 <= k < |asked| ==> 1 <= asked[k] <= 1000 && (asked[k] == 1 || asked[k] <= pageSize) && asked[k] <= max
    ensures |asked| > 0 ==> asked[0] == MinInt(max, if pageSize < 1 then 1 else if pageSize > 1000 then 1000 else pageSize)
  {
  }

  /**
   Collect up to `max` candles backwards from a time. Whatever the server answers, it is asked at most
   `max` times and the result is strictly ascending; a truthful server's answer is one big query.
  */
  method FetchCandleHistory(server: Server, endMs: int, max: int, pageSize: int, ghost h: seq<Candle>)
    returns (r: Result<seq<Candle>>, requests: nat, ghost asked: seq<nat>)
    ensures r.Ok? <==> max >= 1 && endMs > 0
    ensures |asked| == requests && forall k :: 0 <= k < requests ==> 1 <= asked[k] <= 1000 && (asked[k] == 1 || asked[k] <= pageSize) && asked[k] <= max
    ensures r.Ok? ==> requests >= 1 && asked[0] == MinInt(max, if pageSize < 1 then 1 else if pageSize > 1000 then 1000 else pageSize)
    ensures r.Err? ==> requests == 0
    ensures r.Ok? ==> requests <= max && Ascending(r.value)
    ensures r.Ok? && Truthful(server, h) ==> r.value == Latest(h, max, endMs)
  {
    requests, asked := 0, [];
    if max < 1 {
      return Err("max_candles must be >= 1"), 0, [];
    }
    if endMs <= 0 {
      return Err("end_time_ms must be positive"), 0, [];
    }
    hide Merge, Latest, UpTo, SortByTime, Truthful, Ascending, DistinctTimes, Asks, OnTrack;
    NothingAsked();
    var page := MinInt(MaxInt(pageSize, 1), 1000);
    var collected: seq<Candle> := [];
    var cursor := endMs;
    ghost var to: nat := UpTo(h, endMs);
    ghost var from: nat := to;
    NothingHeld(server, h, to, endMs, max);
    var more := true;
    while |collected| < max && more
      invariant DistinctTimes(collected) && requests <= max && (more ==> requests <= |collected|)
      invariant |asked| == requests && Asks(asked, page, max) && (requests == 0 ==> collected == [] && more)
      invariant OnTrack(server, h, collected, from, to, cursor, max, more)
      decreases max - requests, if more then 1 else 0
    {
      var need := MinInt(page, max - |collected|);
      var candles := server(requests, need, cursor);
      AskMore(asked, page, max, need);
      if |candles| == 0 {
        EmptyPage(server, h, collected, from, to, cursor, max, requests, need);
        more := false;
      } else {
        MergeKeepsDistinct(collected, candles);
        ghost var before, upTo := collected, cursor;
        var added, earliest;
        collected, added, earliest := MergePage(collected, candles);
        from := FullPage(server, h, before, from, to, upTo, max, requests, need, earliest);
        cursor := earliest - 1;
        if added == 0 || cursor <= 0 {
          more := false;
        }
      }
      requests, asked := requests + 1, asked + [need];
    }
    AskedFirst(asked, pageSize, max);
    SortAscends(collected);
    if Truthful(server, h) { CollectedIsLatest(server, h, collected, from, to, cursor, more, max, endMs); }
    return Ok(SortByTime(collected)), requests, asked;
  }

  /** Against a truthful server: what is collected is a slice of the history, and the cursor is just below it. */
  ghost predicate OnTrack(server: Server, h: seq<Candle>, s: seq<Candle>, from: nat, to: nat, cursor: int, max: int, more: bool) {
    && from <= to <= |h|
    && (Truthful(server, h) ==> Holds(s, h, from, to) && to - from <= max && if more then UpTo(h, cursor) == from else from == 0)
  }

  lemma NothingHeld(server: Server, h: seq<Candle>, to: nat, endMs: int, max: int)
    requires to == UpTo(h, endMs) && max >= 1
    ensures OnTrack(server, h, [], to, to, endMs, max, true) && DistinctTimes([])
  {
  }

  /** A truthful server has nothing to answer only below the start of its history. */
  lemma EmptyPage(server: Server, h: seq<Candle>, s: seq<Candle>, from: nat, to: nat, cursor: int, max: int, k: nat, need: nat)
    requires OnTrack(server, h, s, from, to, cursor, max, true) && need >= 1 && server(k, need, cursor) == []
    ensures OnTrack(server, h, s, from, to, cursor, max, false)
  {
    hide Holds, UpTo;
    if Truthful(server, h) {
      Answers(server, h, k, need, cursor);
    }
  }

  lemma FullPage(server: Server, h: seq<Candle>, s: seq<Candle>, from: nat, to: nat, cursor: int, max: int, k: nat, need: nat,
                 earliest: int) returns (down: nat)
    requires OnTrack(server, h, s, from, to, cursor, max, true) && 1 <= need <= max - |s|
    requires var page := server(k, need, cursor);
             (forall i :: 0 <= i < |page| ==> earliest <= page[i].ts) && exists i :: 0 <= i < |page| && earliest == page[i].ts
    ensures var merged := Merge(s, server(k, need, cursor));
            var more := |merged| != |s| && earliest - 1 > 0;
            OnTrack(server, h, merged, down, to, earliest - 1, max, more)
  {
    down := from;
    if Truthful(server, h) {
      hide Merge, Holds, Latest, UpTo, Truthful;
      Answers(server, h, k, need, cursor);
      PageFacts(h, s, from, to, need, cursor);
      down := MaxInt(0, from - need);
      TruthfulPage(h, s, from, to, need, cursor, earliest, down);
    }
  }

  lemma Answers(server: Server, h: seq<Candle>, k: nat, need: nat, cursor: int)
    requires Truthful(server, h)
    ensures server(k, need, cursor) == Latest(h, need, cursor)
    ensures Ascending(h) && forall i :: 0 <= i < |h| ==> h[i].ts > 0
  {
  }

  lemma PageFacts(h: seq<Candle>, s: seq<Candle>, from: nat, to: nat, need: nat, cursor: int)
    requires from <= to <= |h| && Holds(s, h, from, to) && UpTo(h, cursor) == from && need >= 1
    ensures |s| == to - from
    ensures |Latest(h, need, cursor)| == MinInt(need, from) && (|Latest(h, need, cursor)| == 0 <==> from == 0)
    ensures forall m: seq<Candle>, down: nat :: down <= to && Holds(m, h, down, to) ==> |m| == to - down
  {
  }

  /** What is held when the loop ends, sorted, is the answer of a single query. */
  lemma CollectedIsLatest(server: Server, h: seq<Candle>, s: seq<Candle>, from: nat, to: nat, cursor: int, more: bool, max: nat, endMs: int)
    requires Truthful(server, h) && OnTrack(server, h, s, from, to, cursor, max, more) && DistinctTimes(s) && to == UpTo(h, endMs)
    requires |s| >= max || !more
    ensures SortByTime(s) == Latest(h, max, endMs)
  {
    hide UpTo, SortByTime;
    SortAscends(s);
    AscendingUnique(SortByTime(s), h[from..to]);
  }
}
