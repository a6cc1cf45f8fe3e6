/**
 What a replayed state says about the log it came from, field by field: the last word on breakers, reconciliation
 and protection, one count per ending, every closed trade in order, and the last fill of each position
 (scripts/replay_ledger.py).
*/
module LedgerState {
  import opened Common
  import opened Ledger
  import opened LedgerReplay

  // ---- Breakers and reconciliation ---------------------------------------------------------------

  /** Event k opened the breaker and none closed it afterwards. */
  ghost predicate LeftOpen(events: seq<Event>, k: nat) {
    k < |events| && events[k].kind == RISK_BREAKER_OPEN && forall j :: k < j < |events| ==> events[j].kind != RISK_BREAKER_CLOSED
  }

  lemma MovesBreaker(all: seq<Event>, r: Replay, e: Event)
    ensures BookEvent(all, r, e).riskBreaker
            == if e.kind == RISK_BREAKER_OPEN then "OPEN" else if e.kind == RISK_BREAKER_CLOSED then "CLOSED" else r.riskBreaker
  {
    hide SignedQuantity, HoldingAt, ProtectedSymbol, OrZero;
  }

  lemma OpenAppend(events: seq<Event>)
    requires |events| > 0
    ensures var n := |events| - 1;
            (exists k :: LeftOpen(events, k))
            <==> events[n].kind == RISK_BREAKER_OPEN || (events[n].kind != RISK_BREAKER_CLOSED && exists k :: LeftOpen(events[..n], k))
  {
    var n := |events| - 1;
    assert events[n].kind == RISK_BREAKER_OPEN ==> LeftOpen(events, n);
    forall k: nat | k < n && events[n].kind != RISK_BREAKER_CLOSED ensures LeftOpen(events, k) <==> LeftOpen(events[..n], k) {
    }
  }

  /** The replayed breaker is open exactly when some event left it so. */
  lemma {:induction false} BreakerIsLastWord(all: seq<Event>, events: seq<Event>)
    ensures Replayed(all, events).riskBreaker == if exists k :: LeftOpen(events, k) then "OPEN" else "CLOSED"
  {
    hide BookEvent, LeftOpen;
    if |events| == 0 {
      assert !exists k :: LeftOpen(events, k) by { NoneOpen(); }
    } else {
      var n := |events| - 1;
      BreakerIsLastWord(all, events[..n]);
      MovesBreaker(all, Replayed(all, events[..n]), events[n]);
      OpenAppend(events);
    }
  }

  lemma NoneOpen()
    ensures forall k :: !LeftOpen([], k)
  {
  }

  /** The last reconciliation decides; without one nothing is known. */
  lemma {:induction false} ReconciliationIsLastWord(all: seq<Event>, events: seq<Event>, k: nat)
    requires k < |events| && events[k].kind == POSITION_RECONCILED
    requires forall j :: k < j < |events| ==> events[j].kind != POSITION_RECONCILED
    ensures Replayed(all, events).reconciliation == if events[k].payload.inSync == Some(true) then "IN_SYNC" else "DEGRADED"
  {
    hide SignedQuantity, HoldingAt, ProtectedSymbol;
    var n := |events| - 1;
    if k < n {
      ReconciliationIsLastWord(all, events[..n], k);
    }
  }

  lemma {:induction false} NeverReconciled(all: seq<Event>, events: seq<Event>)
    requires forall e :: e in events ==> e.kind != POSITION_RECONCILED
    ensures Replayed(all, events).reconciliation == "UNKNOWN"
  {
    hide SignedQuantity, HoldingAt, ProtectedSymbol;
    if |events| > 0 {
      var n := |events| - 1;
      assert events[n] in events;
      NeverReconciled(all, events[..n]);
    }
  }

  // ---- Endings and closed trades -----------------------------------------------------------------

  /** The cycle ended with this disposition; one that names none ended as unknown. */
  predicate EndsAs(e: Event, d: string) {
    e.kind == CYCLE_TERMINAL && (e.payload.disposition == Some(d) || (e.payload.disposition.None? && d == "UNKNOWN"))
  }

  ghost function Endings(events: seq<Event>, d: string): set<nat> { set k: nat | k < |events| && EndsAs(events[k], d) }

  /** Positions of the trade closings among the first n events. */
  ghost function Closings(events: seq<Event>, n: nat): set<nat>
    requires n <= |events|
  {
    set k: nat | k < n && events[k].kind == TRADE_CLOSED
  }

  function CountOf(counts: map<string, nat>, d: string): nat { if d in counts then counts[d] else 0 }

  lemma CountsOneEnding(all: seq<Event>, r: Replay, e: Event, d: string)
    ensures var counts := BookEvent(all, r, e).dispositions;
            && CountOf(counts, d) == CountOf(r.dispositions, d) + (if EndsAs(e, d) then 1 else 0)
            && (d in counts <==> d in r.dispositions || EndsAs(e, d))
  {
    hide SignedQuantity, HoldingAt, ProtectedSymbol;
  }

  lemma EndingsAppend(events: seq<Event>, d: string)
    requires |events| > 0
    ensures var n := |events| - 1;
            |Endings(events, d)| == |Endings(events[..n], d)| + if EndsAs(events[n], d) then 1 else 0
  {
    var n := |events| - 1;
    assert Endings(events, d) == Endings(events[..n], d) + if EndsAs(events[n], d) then {n} else {};
  }

  /** A disposition is counted once for every cycle that ended with it, and listed only if one did. */
  lemma {:induction false} DispositionsCountEndings(all: seq<Event>, events: seq<Event>, d: string)
    ensures var counts := Replayed(all, events).dispositions;
            CountOf(counts, d) == |Endings(events, d)| && (d in counts <==> |Endings(events, d)| > 0)
  {
    hide BookEvent, Endings, EndsAs, CountOf;
    if |events| == 0 {
      NoEndings(d);
    } else {
      var n := |events| - 1;
      DispositionsCountEndings(all, events[..n], d);
      CountsOneEnding(all, Replayed(all, events[..n]), events[n], d);
      EndingsAppend(events, d);
    }
  }

  lemma NoEndings(d: string)
    ensures Endings([], d) == {} && CountOf(map[], d) == 0
  {
  }

  lemma ListsClosing(all: seq<Event>, r: Replay, e: Event)
    ensures BookEvent(all, r, e).closedTrades == if e.kind == TRADE_CLOSED then r.closedTrades + [e.payload] else r.closedTrades
  {
    hide SignedQuantity, HoldingAt, ProtectedSymbol;
  }

  lemma ClosingsAppend(events: seq<Event>, k: nat)
    requires 0 < |events| && k < |events|
    ensures var n := |events| - 1;
            && Closings(events, k) == Closings(events[..n], k)
            && |Closings(events, |events|)| == |Closings(events[..n], n)| + if events[n].kind == TRADE_CLOSED then 1 else 0
  {
    var n := |events| - 1;
    assert Closings(events, |events|) == Closings(events[..n], n) + if events[n].kind == TRADE_CLOSED then {n} else {};
  }

  /** The closed trades are the payloads of all closings, in their order. */
  lemma {:induction false} ClosedTradesInOrder(all: seq<Event>, events: seq<Event>, k: nat)
    ensures var trades := Replayed(all, events).closedTrades;
            && |trades| == |Closings(events, |events|)|
            && (k < |events| && events[k].kind == TRADE_CLOSED ==>
                  |Closings(events, k)| < |trades| && trades[|Closings(events, k)|] == events[k].payload)
  {
    hide BookEvent, Closings;
    if |events| == 0 {
      NoClosings();
    } else {
      var n := |events| - 1;
      ClosedTradesInOrder(all, events[..n], k);
      ListsClosing(all, Replayed(all, events[..n]), events[n]);
      ClosingsAppend(events, if k < n then k else n);
    }
  }

  lemma NoClosings()
    ensures Closings([], 0) == {}
  {
  }

  // ---- Positions ---------------------------------------------------------------------------------

  predicate FillsIn(e: Event, s: string) { e.kind == FILL_OBSERVED && e.payload.symbol == Some(s) }

  /** The last fill in a symbol gives the position its side and its entry price. */
  lemma {:induction false} LastFillRules(all: seq<Event>, events: seq<Event>, s: string, k: nat)
    requires s != "" && k < |events| && FillsIn(events[k], s)
    requires forall j :: k < j < |events| ==> !FillsIn(events[j], s)
    ensures var r := Replayed(all, events);
            && s in r.holdings
            && (r.holdings[s].side, r.holdings[s].entryPrice) == (events[k].payload.side, events[k].payload.price)
  {
    hide SignedQuantity, ProtectedSymbol;
    var n := |events| - 1;
    if k < n {
      LastFillRules(all, events[..n], s, k);
    }
  }

  function FeesIn(events: seq<Event>, s: string): real {
    if |events| == 0 then 0.0
    else FeesIn(events[..|events| - 1], s) + if FillsIn(events[|events| - 1], s) then OrZero(events[|events| - 1].payload.fee) else 0.0
  }

  lemma {:induction false} HoldingCarriesFees(all: seq<Event>, events: seq<Event>, s: string)
    requires s != ""
    ensures var r := Replayed(all, events); (if s in r.holdings then r.holdings[s].fees else 0.0) == FeesIn(events, s)
  {
    hide SignedQuantity, ProtectedSymbol;
    if |events| > 0 {
      HoldingCarriesFees(all, events[..|events| - 1], s);
    }
  }

  // ---- Protection --------------------------------------------------------------------------------

  /** The first event of a cycle that names a symbol names this one. */
  ghost predicate NamesFirst(all: seq<Event>, cycleId: string, s: string, k: nat) {
    && k < |all| && all[k].payload.cycleId == Some(cycleId) && s != "" && all[k].payload.symbol == Some(s)
    && forall j :: 0 <= j < k && all[j].payload.cycleId == Some(cycleId) ==> all[j].payload.symbol in {None, Some("")}
  }

  lemma {:induction false} SymbolIsFirst(all: seq<Event>, cycleId: string, s: string)
    ensures SymbolOf(all, cycleId) == Some(s) <==> exists k :: NamesFirst(all, cycleId, s, k)
    ensures SymbolOf(all, cycleId).None? <==> forall e :: e in all && e.payload.cycleId == Some(cycleId) ==> e.payload.symbol in {None, Some("")}
  {
    if |all| > 0 {
      var n := |all| - 1;
      SymbolIsFirst(all[..n], cycleId, s);
      forall k: nat | k < n ensures NamesFirst(all, cycleId, s, k) <==> NamesFirst(all[..n], cycleId, s, k) {
      }
      if NamesFirst(all, cycleId, s, n) {
        assert SymbolOf(all[..n], cycleId).None?;
      }
      assert all == all[..n] + [all[n]];
    }
  }

  /** The event judged the protection of this symbol, which it names or its cycle named first. */
  ghost predicate Judges(all: seq<Event>, e: Event, s: string) {
    && e.kind in {PROTECTION_VERIFIED, PROTECTION_FAILED}
    && if Named(e.payload) then e.payload.symbol == Some(s)
       else e.payload.cycleId.Some? && e.payload.cycleId != Some("") && exists k :: NamesFirst(all, e.payload.cycleId.value, s, k)
  }

  lemma JudgedSymbol(all: seq<Event>, e: Event, s: string)
    requires e.kind in {PROTECTION_VERIFIED, PROTECTION_FAILED}
    ensures ProtectedSymbol(all, e.payload) == Some(s) <==> Judges(all, e, s)
  {
    hide NamesFirst, SymbolOf;
    if e.payload.cycleId.Some? {
      SymbolIsFirst(all, e.payload.cycleId.value, s);
    }
  }

  lemma BooksJudgement(all: seq<Event>, r: Replay, e: Event, s: string)
    ensures var r' := BookEvent(all, r, e);
            if Judges(all, e, s) then
              var status := if e.payload.status.Some? then e.payload.status.value else "FAILED";
              && s in r'.protection && r'.protection[s] == status
              && s in r'.holdings && r'.holdings[s].protection == Some(status)
            else
              && (s in r'.protection <==> s in r.protection) && (s in r.protection ==> r'.protection[s] == r.protection[s])
              && (s in r.holdings ==> s in r'.holdings && r'.holdings[s].protection == r.holdings[s].protection)
  {
    hide Judges, ProtectedSymbol, SignedQuantity;
    if e.kind in {PROTECTION_VERIFIED, PROTECTION_FAILED} {
      JudgedSymbol(all, e, s);
    } else {
      OnlyProtectionJudges(all, e, s);
    }
  }

  lemma OnlyProtectionJudges(all: seq<Event>, e: Event, s: string)
    requires e.kind !in {PROTECTION_VERIFIED, PROTECTION_FAILED}
    ensures !Judges(all, e, s)
  {
  }

  /** The last judgement on a symbol is its protection, on the list and on its position. */
  lemma {:induction false} LastJudgementRules(all: seq<Event>, events: seq<Event>, s: string, k: nat)
    requires k < |events| && Judges(all, events[k], s)
    requires forall j :: k < j < |events| ==> !Judges(all, events[j], s)
    ensures var r, p := Replayed(all, events), events[k].payload;
            var status := if p.status.Some? then p.status.value else "FAILED";
            && s in r.protection && r.protection[s] == status
            && s in r.holdings && r.holdings[s].protection == Some(status)
  {
    hide Judges, BookEvent;
    var n := |events| - 1;
    BooksJudgement(all, Replayed(all, events[..n]), events[n], s);
    if k < n {
      LastJudgementRules(all, events[..n], s, k);
    }
  }

  lemma {:induction false} NeverJudged(all: seq<Event>, events: seq<Event>, s: string)
    requires forall e :: e in events ==> !Judges(all, e, s)
    ensures s !in Replayed(all, events).protection
  {
    hide Judges, BookEvent;
    if |events| > 0 {
      var n := |events| - 1;
      assert events[n] in events;
      NeverJudged(all, events[..n], s);
      BooksJudgement(all, Replayed(all, events[..n]), events[n], s);
    }
  }

  // ---- Which rows a scope selects ------------------------------------------------------------------

  /** Rows of one run among the first n. */
  ghost function RunRows(rows: seq<Row>, run: string, n: nat): set<nat>
    requires n <= |rows|
  {
    set k: nat | k < n && rows[k].runId == run
  }

  lemma RunRowsAppend(rows: seq<Row>, run: string, k: nat)
    requires 0 < |rows| && k < |rows|
    ensures var n := |rows| - 1;
            && RunRows(rows, run, k) == RunRows(rows[..n], run, k)
            && |RunRows(rows, run, |rows|)| == |RunRows(rows[..n], run, n)| + if rows[n].runId == run then 1 else 0
  {
    var n := |rows| - 1;
    assert RunRows(rows, run, |rows|) == RunRows(rows[..n], run, n) + if rows[n].runId == run then {n} else {};
  }

  /** A named run's scope is its own rows, in their order. */
  lemma {:induction false} RunScope(rows: seq<Row>, run: string, k: nat)
    requires run != ""
    ensures var events := Scoped(rows, run);
            && |events| == |RunRows(rows, run, |rows|)|
            && (k < |rows| && rows[k].runId == run ==>
                  |RunRows(rows, run, k)| < |events| && events[|RunRows(rows, run, k)|] == rows[k].event)
  {
    hide RunRows;
    if |rows| == 0 {
      NoRows(run);
    } else {
      var n := |rows| - 1;
      RunScope(rows[..n], run, k);
      RunRowsAppend(rows, run, if k < n then k else n);
    }
  }

  lemma NoRows(run: string)
    ensures RunRows([], run, 0) == {}
  {
  }

  /** The empty scope is every row. */
  lemma {:induction false} GlobalScope(rows: seq<Row>, k: nat)
    ensures |Scoped(rows, "")| == |rows| && (k < |rows| ==> Scoped(rows, "")[k] == rows[k].event)
  {
    if |rows| > 0 {
      GlobalScope(rows[..|rows| - 1], k);
    }
  }
}
