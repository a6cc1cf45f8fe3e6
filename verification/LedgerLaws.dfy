/** When a one-pass replay of a log and the ledger's queries over it agree, and by how much they differ. */
module LedgerLaws {
  import opened Common
  import opened Ledger
  import opened LedgerReplay

  /** Position of the first fill that names a symbol and carries a funding key; the length of the log if there is none. */
  function FirstFunded(events: seq<Event>): (k: nat)
    ensures k <= |events|
    ensures k < |events| ==> FundsItself(events[k]) && Named(events[k].payload)
    ensures forall i :: 0 <= i < k ==> !(FundsItself(events[i]) && Named(events[i].payload))
  {
    if |events| == 0 then 0
    else
      var n := |events| - 1;
      var k := FirstFunded(events[..n]);
      if k < n then k else if FundsItself(events[n]) && Named(events[n].payload) then n else n + 1
  }

  /** What one event adds to the totals. */
  lemma BookTotals(all: seq<Event>, r: Replay, e: Event)
    ensures var r' := BookEvent(all, r, e);
            && r'.fees == r.fees + Entry(FillFee, e) - Entry(UnnamedFee, e)
            && r'.netPnl == r.netPnl + Entry(TradePnl, e)
            && r'.fillFundingSeen == (r.fillFundingSeen || (FundsItself(e) && Named(e.payload)))
            && r'.funding == r.funding + Entry(FillFunding, e) - Entry(UnnamedFunding, e)
                             + if r.fillFundingSeen then 0.0 else Entry(TradeFunding, e)
  {
    if e.kind !in {FILL_OBSERVED, TRADE_CLOSED} {
      OthersKeepTotals(all, r, e);
    }
  }

  /** What the one pass adds up: named fills, all trade results, and trade funding only until a funded fill appears. */
  lemma {:induction false} ReplayTotals(all: seq<Event>, events: seq<Event>)
    ensures var r := Replayed(all, events);
            && r.fees == ColumnSum(FillFee, events) - ColumnSum(UnnamedFee, events)
            && r.netPnl == ColumnSum(TradePnl, events)
            && r.fillFundingSeen == (FirstFunded(events) < |events|)
            && r.funding == ColumnSum(FillFunding, events) - ColumnSum(UnnamedFunding, events)
                            + ColumnSum(TradeFunding, events[..FirstFunded(events)])
  {
    hide BookEvent, Entry;
    if |events| > 0 {
      var n := |events| - 1;
      ReplayTotals(all, events[..n]);
      BookTotals(all, Replayed(all, events[..n]), events[n]);
      var k := FirstFunded(events[..n]);
      assert events[..n][..k] == events[..k];
      assert events[..n + 1] == events;
      assert events[n].kind == FILL_OBSERVED ==> Entry(TradeFunding, events[n]) == 0.0 by { FillsFundNoTrade(events[n]); }
    }
  }

  lemma FillsFundNoTrade(e: Event)
    ensures e.kind == FILL_OBSERVED ==> Entry(TradeFunding, e) == 0.0
  {
  }

  lemma OthersKeepTotals(all: seq<Event>, r: Replay, e: Event)
    requires e.kind !in {FILL_OBSERVED, TRADE_CLOSED}
    ensures KeepsTotals(r, BookEvent(all, r, e))
  {
    hide ProtectedSymbol, BookProtection, BookTerminal;
    BookTerminalKeeps(r, e.payload);
    forall s, status ensures KeepsTotals(r, BookProtection(r, s, status)) {
      BookProtectionKeeps(r, s, status);
    }
  }

  ghost predicate KeepsTotals(r: Replay, r': Replay) {
    && r'.fees == r.fees && r'.netPnl == r.netPnl && r'.funding == r.funding && r'.fillFundingSeen == r.fillFundingSeen
    && forall s :: Held(r', s) == Held(r, s)
  }

  lemma BookTerminalKeeps(r: Replay, p: Payload)
    ensures KeepsTotals(r, BookTerminal(r, p))
  {
  }

  lemma BookProtectionKeeps(r: Replay, s: string, status: string)
    ensures KeepsTotals(r, BookProtection(r, s, status))
  {
  }

  /** Signed quantity a replay holds in a symbol. */
  function Held(r: Replay, s: string): real { if s in r.holdings then r.holdings[s].quantity else 0.0 }

  /** A replayed position is the signed sum of the fills in its symbol. */
  lemma {:induction false} ReplayedInventory(all: seq<Event>, events: seq<Event>, s: string)
    requires s != ""
    ensures Held(Replayed(all, events), s) == ColumnSum(Signed(s), events)
  {
    hide SymbolOf, SignedQuantity, BookProtection, BookTerminal, ProtectedSymbol;
    if |events| > 0 {
      var n := |events| - 1;
      ReplayedInventory(all, events[..n], s);
      if events[n].kind !in {FILL_OBSERVED, TRADE_CLOSED} {
        OthersKeepTotals(all, Replayed(all, events[..n]), events[n]);
      }
    }
  }

  /** A replay reports a position exactly where the signed fills do not cancel to dust. */
  lemma ReportedIffOpen(events: seq<Event>, s: string)
    requires s != ""
    ensures s in Replayed(events, events).Positions() <==> Abs(ColumnSum(Signed(s), events)) > DUST
  {
    hide Replayed;
    ReplayedInventory(events, events, s);
  }

  /** Every fill of the log names its symbol. */
  ghost predicate AllNamed(events: seq<Event>) {
    forall e :: e in events && e.kind == FILL_OBSERVED ==> Named(e.payload)
  }

  lemma {:induction false} NamedLeaveNothing(events: seq<Event>)
    requires AllNamed(events)
    ensures ColumnSum(UnnamedFee, events) == 0.0 && ColumnSum(UnnamedFunding, events) == 0.0
    ensures FillsFund(events) <==> FirstFunded(events) < |events|
  {
    if |events| > 0 {
      var n := |events| - 1;
      assert events[n] in events;
      assert AllNamed(events[..n]);
      NamedLeaveNothing(events[..n]);
    }
  }

  /** Trade funding the one pass has already added when the first funded fill tells it to stop. */
  function EarlyTradeFunding(events: seq<Event>): real {
    if FirstFunded(events) < |events| then ColumnSum(TradeFunding, events[..FirstFunded(events)]) else 0.0
  }

  /**
   On a log whose fills all name a symbol, replay and ledger report the same fees and the same profit, and
   their funding differs by exactly the trade funding recorded before the first fill carrying funding.
  */
  lemma ReplayAgreesWithLedger(events: seq<Event>)
    requires AllNamed(events)
    ensures var r := Replayed(events, events);
            && r.fees == ColumnSum(FillFee, events)
            && r.netPnl == ColumnSum(TradePnl, events)
            && r.funding - FundingTotal(events) == EarlyTradeFunding(events)
  {
    hide Replayed;
    ReplayTotals(events, events);
    NamedLeaveNothing(events);
    assert events[..|events|] == events;
  }

  lemma {:induction false} UnfundedLeaveNothing(events: seq<Event>)
    requires !FillsFund(events)
    ensures ColumnSum(UnnamedFunding, events) == 0.0 && FirstFunded(events) == |events|
  {
    if |events| > 0 {
      UnfundedLeaveNothing(events[..|events| - 1]);
    }
  }

  /**
   On any log at all, the two funding figures agree exactly when no fill carries funding, or the trade funding
   added before the first named one to do so equals what the fills without a symbol carry.
  */
  lemma FundingAgreesIff(events: seq<Event>)
    ensures Replayed(events, events).funding == FundingTotal(events)
            <==> FillsFund(events) ==> ColumnSum(TradeFunding, events[..FirstFunded(events)]) == ColumnSum(UnnamedFunding, events)
  {
    hide Replayed;
    ReplayTotals(events, events);
    if !FillsFund(events) {
      UnfundedLeaveNothing(events);
      assert events[..|events|] == events;
    }
  }

  function Funded(kind: Kind, funding: real): Event {
    Event(kind, "c", "c", "paper", "SUSDT-FUTURES", "S", 1, 1, NO_PAYLOAD.(symbol := Some("S"), funding := Some(funding)))
  }

  /** A trade closed with funding one, then a fill that carries a zero: the replay says one and the ledger none. */
  lemma FundingFiguresCanDiffer()
    ensures exists events :: AllNamed(events) && (forall e :: e in events ==> WellFormed(e))
              && Replayed(events, events).funding == 1.0 && FundingTotal(events) == 0.0
  {
    hide Replayed, ColumnSum, FillsFund;
    var trade, fill := Funded(TRADE_CLOSED, 1.0), Funded(FILL_OBSERVED, 0.0);
    var events := [] + [trade] + [fill];
    NothingSummed();
    SumAppend(TradeFunding, [], trade);
    SumAppend(FillFunding, [], trade);
    SumAppend(FillFunding, [] + [trade], fill);
    FundsAppend([] + [trade], fill);
    FirstFill(trade, fill);
    assert events[..1] == [] + [trade];
    ReplayAgreesWithLedger(events);
  }

  lemma FirstFill(trade: Event, fill: Event)
    requires trade.kind == TRADE_CLOSED && FundsItself(fill) && Named(fill.payload)
    ensures FirstFunded([] + [trade] + [fill]) == 1
  {
    var events := [] + [trade] + [fill];
    assert events[0] == trade && events[1] == fill;
    assert FirstFunded(events) < 2;
  }

  /** On any log at all, fees agree exactly when the fills without a symbol cost nothing in sum. */
  lemma FeesAgreeIff(events: seq<Event>)
    ensures Replayed(events, events).fees == ColumnSum(FillFee, events) <==> ColumnSum(UnnamedFee, events) == 0.0
  {
    hide Replayed;
    ReplayTotals(events, events);
  }

  // ---- Which runs the two sides look at --------------------------------------------------------

  /** Replaying the state filters by run only when a run is asked for; the queries fall back to the ledger's own run. */
  function ReplayScope(runId: Option<string>): string { if runId.Some? then runId.value else "" }

  const COSTLY_FILL :=
    Event(FILL_OBSERVED, "c", "c", "paper", "SUSDT-FUTURES", "S", 1, 1, NO_PAYLOAD.(symbol := Some("S"), fee := Some(1.0)))

  /** The replayed state and the queries look at the same rows of every log exactly when a run is named or the ledger has none. */
  lemma StateScopesAgreeIff(runId: Option<string>, own: Option<string>)
    ensures (forall rows :: Scoped(rows, ReplayScope(runId)) == Scoped(rows, QueryScope(runId, own)))
            <==> runId.Some? || own.None? || own.value == ""
  {
    if runId.None? && own.Some? && own.value != "" {
      var rows := [Row(COSTLY_FILL, "")];
      OneGlobalRow(own.value);
      assert Scoped(rows, ReplayScope(runId)) != Scoped(rows, QueryScope(runId, own));
    }
  }

  /** Where the rows differ, so can the figures: a fee booked before runs were named counts for the one and not for the other. */
  lemma ScopesCanSplitFees(own: string)
    requires own != ""
    ensures exists rows :: ColumnSum(FillFee, Scoped(rows, ReplayScope(None))) != ColumnSum(FillFee, Scoped(rows, QueryScope(None, Some(own))))
  {
    hide Scoped, ColumnSum, FillsFund;
    var rows := [Row(COSTLY_FILL, "")];
    OneGlobalRow(own);
    NothingSummed();
    SumAppend(FillFee, [], COSTLY_FILL);
    assert [] + [COSTLY_FILL] == [COSTLY_FILL];
    assert ColumnSum(FillFee, Scoped(rows, ReplayScope(None))) == 1.0;
    assert ColumnSum(FillFee, Scoped(rows, QueryScope(None, Some(own)))) == 0.0;
  }

  /** A row no run owns is in the global scope and in no other. */
  lemma OneGlobalRow(own: string)
    requires own != ""
    ensures var rows := [Row(COSTLY_FILL, "")]; Scoped(rows, "") == [COSTLY_FILL] && Scoped(rows, own) == []
  {
    var rows, none := [Row(COSTLY_FILL, "")], [];
    assert rows[..0] == none;
    assert Scoped(none, "") == [] && Scoped(none, own) == [];
  }
}
