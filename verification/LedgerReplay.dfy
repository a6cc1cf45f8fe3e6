/** Replaying a log in one pass, against the ledger's aggregate queries (scripts/replay_ledger.py). */
module LedgerReplay {
  import opened Common
  import opened FundingModel
  import opened Ledger

  /** Below this a replayed position counts as flat. */
  const DUST := 0.000000000001

  datatype Holding = Holding(quantity: real, side: Option<Side>, entryPrice: Option<real>, fees: real, protection: Option<string>)

  const NO_HOLDING := Holding(0.0, None, None, 0.0, None)

  datatype Replay = Replay(
    dispositions: map<string, nat>, holdings: map<string, Holding>, protection: map<string, string>,
    reconciliation: string, riskBreaker: string, closedTrades: seq<Payload>,
    netPnl: real, fees: real, funding: real, fillFundingSeen: bool)
  {
    /** The positions a replay reports: those that are not flat. */
    function Positions(): map<string, Holding> {
      map s | s in holdings && Abs(holdings[s].quantity) > DUST :: holdings[s]
    }
  }

  const NOTHING := Replay(map[], map[], map[], "UNKNOWN", "CLOSED", [], 0.0, 0.0, 0.0, false)

  /** The first symbol any event of a cycle names. */
  function SymbolOf(events: seq<Event>, cycleId: string): Option<string> {
    if |events| == 0 then None
    else
      var earlier := SymbolOf(events[..|events| - 1], cycleId);
      var p := events[|events| - 1].payload;
      if earlier.Some? then earlier else if p.cycleId == Some(cycleId) && Named(p) then p.symbol else None
  }

  method SymbolForCycle(events: seq<Event>, cycleId: Option<string>) returns (symbol: Option<string>)
    ensures symbol == if cycleId.None? || cycleId.value == "" then None else SymbolOf(events, cycleId.value)
  {
    if cycleId.None? || cycleId.value == "" {
      return None;
    }
    for i := 0 to |events|
      invariant SymbolOf(events[..i], cycleId.value).None?
    {
      assert events[..i + 1][..i] == events[..i];
      var p := events[i].payload;
      if p.cycleId == cycleId && Named(p) {
        SymbolOfPrefix(events, i + 1, cycleId.value);
        return p.symbol;
      }
    }
    assert events[..|events|] == events;
    return None;
  }

  lemma {:induction false} SymbolOfPrefix(events: seq<Event>, n: nat, cycleId: string)
    requires n <= |events| && SymbolOf(events[..n], cycleId).Some?
    ensures SymbolOf(events, cycleId) == SymbolOf(events[..n], cycleId)
  {
    if n == |events| {
      assert events[..n] == events;
    } else {
      assert events[..|events| - 1][..n] == events[..n];
      SymbolOfPrefix(events[..|events| - 1], n, cycleId);
    }
  }

  function HoldingAt(holdings: map<string, Holding>, s: string, side: Option<Side>): Holding {
    if s in holdings then holdings[s] else NO_HOLDING.(side := side)
  }

  function BookFill(r: Replay, p: Payload): Replay
    requires Named(p)
  {
    var h := HoldingAt(r.holdings, p.symbol.value, p.side);
    r.(holdings := r.holdings[p.symbol.value := h.(quantity := h.quantity + SignedQuantity(p), side := p.side,
                                                   entryPrice := p.price, fees := h.fees + OrZero(p.fee))],
       fees := r.fees + OrZero(p.fee), funding := r.funding + OrZero(p.funding),
       fillFundingSeen := r.fillFundingSeen || p.funding.Some?)
  }

  function ProtectedSymbol(all: seq<Event>, p: Payload): Option<string> {
    if Named(p) then p.symbol
    else if p.cycleId.Some? && p.cycleId.value != "" then SymbolOf(all, p.cycleId.value)
    else None
  }

  function BookProtection(r: Replay, s: string, status: string): Replay {
    r.(protection := r.protection[s := status],
       holdings := r.holdings[s := HoldingAt(r.holdings, s, None).(protection := Some(status))])
  }

  function BookTerminal(r: Replay, p: Payload): Replay {
    var d := if p.disposition.Some? then p.disposition.value else "UNKNOWN";
    r.(dispositions := r.dispositions[d := 1 + if d in r.dispositions then r.dispositions[d] else 0])
  }

  function BookEvent(all: seq<Event>, r: Replay, e: Event): Replay {
    match e.kind
    case FILL_OBSERVED => if Named(e.payload) then BookFill(r, e.payload) else r
    case PROTECTION_VERIFIED | PROTECTION_FAILED =>
      var s := ProtectedSymbol(all, e.payload);
      if s.Some? then BookProtection(r, s.value, if e.payload.status.Some? then e.payload.status.value else "FAILED") else r
    case POSITION_RECONCILED => r.(reconciliation := if e.payload.inSync == Some(true) then "IN_SYNC" else "DEGRADED")
    case TRADE_CLOSED =>
      r.(closedTrades := r.closedTrades + [e.payload], netPnl := r.netPnl + OrZero(e.payload.netPnl),
         funding := if r.fillFundingSeen then r.funding else r.funding + OrZero(e.payload.funding))
    case RISK_BREAKER_OPEN => r.(riskBreaker := "OPEN")
    case RISK_BREAKER_CLOSED => r.(riskBreaker := "CLOSED")
    case CYCLE_TERMINAL => BookTerminal(r, e.payload)
    case _ => r
  }

  function Replayed(all: seq<Event>, events: seq<Event>): Replay {
    if |events| == 0 then NOTHING
    else BookEvent(all, Replayed(all, events[..|events| - 1]), events[|events| - 1])
  }

  lemma NothingReplayed(all: seq<Event>)
    ensures Replayed(all, all[..0]) == NOTHING
  {
  }

  lemma ReplayedStep(all: seq<Event>, i: nat)
    requires i < |all|
    ensures Replayed(all, all[..i + 1]) == BookEvent(all, Replayed(all, all[..i]), all[i])
  {
    assert all[..i + 1][..i] == all[..i];
  }

  method ReplayEvents(events: seq<Event>) returns (r: Replay)
    ensures r == Replayed(events, events)
  {
    hide SymbolOf, HoldingAt, SignedQuantity, OrZero, Replayed;
    var dispositions: map<string, nat>, holdings: map<string, Holding>, protection := map[], map[], map[];
    var reconciliation, riskBreaker, closedTrades := "UNKNOWN", "CLOSED", [];
    var netPnl, fees, funding, fillFundingSeen := 0.0, 0.0, 0.0, false;
    r := NOTHING;
    NothingReplayed(events);
    for i := 0 to |events|
      invariant r == Replay(dispositions, holdings, protection, reconciliation, riskBreaker, closedTrades,
                            netPnl, fees, funding, fillFundingSeen)
      invariant r == Replayed(events, events[..i])
    {
      ReplayedStep(events, i);
      var p := events[i].payload;
      match events[i].kind {
        case FILL_OBSERVED =>
          if Named(p) {
            var s := p.symbol.value;
            var h := HoldingAt(holdings, s, p.side);
            holdings := holdings[s := h.(quantity := h.quantity + SignedQuantity(p), side := p.side, entryPrice := p.price,
                                         fees := h.fees + OrZero(p.fee))];
            fees := fees + OrZero(p.fee);
            funding := funding + OrZero(p.funding);
            fillFundingSeen := fillFundingSeen || p.funding.Some?;
          }
        case PROTECTION_VERIFIED | PROTECTION_FAILED =>
          var s := p.symbol;
          if !Named(p) {
            s := SymbolForCycle(events, p.cycleId);
          }
          if s.Some? {
            var status := if p.status.Some? then p.status.value else "FAILED";
            protection := protection[s.value := status];
            holdings := holdings[s.value := HoldingAt(holdings, s.value, None).(protection := Some(status))];
          }
        case POSITION_RECONCILED =>
          reconciliation := if p.inSync == Some(true) then "IN_SYNC" else "DEGRADED";
        case TRADE_CLOSED =>
          closedTrades := closedTrades + [p];
          netPnl := netPnl + OrZero(p.netPnl);
          if !fillFundingSeen {
            funding := funding + OrZero(p.funding);
          }
        case RISK_BREAKER_OPEN =>
          riskBreaker := "OPEN";
        case RISK_BREAKER_CLOSED =>
          riskBreaker := "CLOSED";
        case CYCLE_TERMINAL =>
          var d := if p.disposition.Some? then p.disposition.value else "UNKNOWN";
          dispositions := dispositions[d := 1 + if d in dispositions then dispositions[d] else 0];
        case _ =>
      }
      r := Replay(dispositions, holdings, protection, reconciliation, riskBreaker, closedTrades, netPnl, fees, funding,
                  fillFundingSeen);
    }
    assert events[..|events|] == events;
  }
}
