/** The event ledger: cycle claims, the append-only log and its aggregate queries (src/ledger/sqlite.py). */
module Ledger {
  import opened Common
  import opened FundingModel

  datatype Kind =
    | MARKET_OBSERVED | AGENT_CONTEXT_BUILT | AGENT_DECISION | INTENT_APPROVED | ORDER_SUBMITTED | FILL_OBSERVED
    | PROTECTION_VERIFIED | PROTECTION_FAILED | POSITION_RECONCILED | TRADE_CLOSED
    | RISK_BREAKER_OPEN | RISK_BREAKER_CLOSED | SHADOW_TICK_OBSERVED | CYCLE_TERMINAL | OTHER(name: string)

  /** The payload keys anything here reads; a key that is absent is None. */
  datatype Payload = Payload(
    cycleId: Option<string>, symbol: Option<string>, orderId: Option<string>, side: Option<Side>,
    quantity: Option<real>, price: Option<real>, fee: Option<real>, funding: Option<real>, netPnl: Option<real>,
    status: Option<string>, inSync: Option<bool>, disposition: Option<string>, reason: Option<string>,
    action: Option<string>)

  const NO_PAYLOAD := Payload(None, None, None, None, None, None, None, None, None, None, None, None, None, None)

  datatype Event = Event(
    kind: Kind, cycleId: string, traceId: string, mode: string, productType: string, symbol: string, createdMs: int,
    schema: int, payload: Payload)

  datatype Row = Row(event: Event, runId: string)

  function OrZero(x: Option<real>): real { if x.Some? then x.value else 0.0 }

  /** The event types nothing here reacts to but the ledger still accepts. */
  const OTHER_KINDS := ["CONTEXT_BUILT", "DECISION_REJECTED", "ORDER_ACKNOWLEDGED", "PROTECTION_REQUESTED",
                        "RECONCILIATION_DRIFT", "CIRCUIT_BREAKER", "KILL_SWITCH", "POLICY_REJECTED", "SHADOW_STARTED",
                        "SHADOW_FINISHED", "PROVIDER_DEGRADED", "PROTECTION_TRIGGERED"]

  /** A known type, and the identity every event must carry. */
  predicate WellFormed(e: Event) {
    && (e.kind.OTHER? ==> e.kind.name in OTHER_KINDS)
    && e.cycleId != "" && e.traceId != "" && e.mode != "" && e.productType != "" && e.symbol != ""
    && e.createdMs > 0 && e.schema >= 1
  }

  // ---- What the queries mean -------------------------------------------------------------------

  /** Fills the replay books are those that name a symbol. */
  predicate Named(p: Payload) { p.symbol.Some? && p.symbol.value != "" }

  datatype Column =
    | FillFee | FillFunding | TradeFunding | TradePnl   // what the ledger queries add up
    | UnnamedFee | UnnamedFunding                       // the part of it a replay passes over
    | Signed(symbol: string)                            // bought less sold

  function SignedQuantity(p: Payload): real {
    if p.side == Some(BUY) then OrZero(p.quantity) else -OrZero(p.quantity)
  }

  function Entry(c: Column, e: Event): real {
    match c
    case FillFee => if e.kind == FILL_OBSERVED then OrZero(e.payload.fee) else 0.0
    case FillFunding => if e.kind == FILL_OBSERVED then OrZero(e.payload.funding) else 0.0
    case TradeFunding => if e.kind == TRADE_CLOSED then OrZero(e.payload.funding) else 0.0
    case TradePnl => if e.kind == TRADE_CLOSED then OrZero(e.payload.netPnl) else 0.0
    case UnnamedFee => if e.kind == FILL_OBSERVED && !Named(e.payload) then OrZero(e.payload.fee) else 0.0
    case UnnamedFunding => if e.kind == FILL_OBSERVED && !Named(e.payload) then OrZero(e.payload.funding) else 0.0
    case Signed(s) => if e.kind == FILL_OBSERVED && e.payload.symbol == Some(s) then SignedQuantity(e.payload) else 0.0
  }

  function ColumnSum(c: Column, events: seq<Event>): real {
    if |events| == 0 then 0.0 else ColumnSum(c, events[..|events| - 1]) + Entry(c, events[|events| - 1])
  }

  /** A fill that carries a funding key, even a zero one. */
  predicate FundsItself(e: Event) { e.kind == FILL_OBSERVED && e.payload.funding.Some? }

  predicate FillsFund(events: seq<Event>) {
    |events| > 0 && (FillsFund(events[..|events| - 1]) || FundsItself(events[|events| - 1]))
  }

  lemma {:induction false} FillsFundIff(events: seq<Event>)
    ensures FillsFund(events) <==> exists e :: e in events && FundsItself(e)
  {
    if |events| > 0 {
      FillsFundIff(events[..|events| - 1]);
      assert events == events[..|events| - 1] + [events[|events| - 1]];
    }
  }

  /** Funding as the ledger reports it: the fills' own, or the closed trades' when no fill carries any. */
  function FundingTotal(events: seq<Event>): real {
    ColumnSum(FillFunding, events) + if FillsFund(events) then 0.0 else ColumnSum(TradeFunding, events)
  }

  predicate InScope(scope: string, r: Row) { scope == "" || r.runId == scope }

  /** The events of one run, or of all runs when the scope is empty. */
  function Scoped(rows: seq<Row>, scope: string): seq<Event> {
    if |rows| == 0 then []
    else
      var before := Scoped(rows[..|rows| - 1], scope);
      if InScope(scope, rows[|rows| - 1]) then before + [rows[|rows| - 1].event] else before
  }

  function QueryScope(runId: Option<string>, own: Option<string>): string {
    if runId.Some? then runId.value else if own.Some? then own.value else ""
  }

  lemma SumAppend(c: Column, events: seq<Event>, e: Event)
    ensures ColumnSum(c, events + [e]) == ColumnSum(c, events) + Entry(c, e)
  {
    assert (events + [e])[..|events|] == events;
  }

  lemma NothingSummed()
    ensures !FillsFund([]) && forall c :: ColumnSum(c, []) == 0.0
  {
  }

  lemma FundsAppend(events: seq<Event>, e: Event)
    ensures FillsFund(events + [e]) == (FillsFund(events) || FundsItself(e))
  {
    assert (events + [e])[..|events|] == events;
  }

  class EventLedger {
    const runId: Option<string>
    var cycles: map<string, Option<string>>
    var rows: seq<Row>

    constructor (runId: Option<string>)
      ensures this.runId == runId && cycles == map[] && rows == []
    {
      this.runId := runId;
      cycles, rows := map[], [];
    }

    /** A cycle can be claimed once; the claim inserts its row without a terminal status. */
    method ClaimCycle(cycleId: string) returns (result: Result<bool>)
      modifies this`cycles
      ensures cycleId == "" ==> result.Err? && cycles == old(cycles)
      ensures cycleId != "" ==>
                && result == Ok(cycleId !in old(cycles))
                && cycles == if cycleId in old(cycles) then old(cycles) else old(cycles)[cycleId := None]
    {
      if cycleId == "" {
        return Err("missing cycle_id");
      }
      if cycleId in cycles {
        return Ok(false);
      }
      cycles := cycles[cycleId := None];
      return Ok(true);
    }

    method SetTerminal(cycleId: string, status: string)
      modifies this`cycles
      ensures cycles == if cycleId in old(cycles) then old(cycles)[cycleId := Some(status)] else old(cycles)
    {
      if cycleId in cycles {
        cycles := cycles[cycleId := Some(status)];
      }
    }

    function CycleStatus(cycleId: string): Option<string>
      reads this
    {
      if cycleId in cycles then cycles[cycleId] else None
    }

    method AppendEvent(event: Event) returns (result: Result<nat>)
      modifies this`rows
      ensures result.Ok? <==> && (event.kind.OTHER? ==> event.kind.name in OTHER_KINDS)
                              && event.cycleId != "" && event.traceId != "" && event.mode != "" && event.productType != ""
                              && event.symbol != "" && event.createdMs > 0 && event.schema >= 1
      ensures rows == if result.Ok? then old(rows) + [Row(event, if runId.Some? then runId.value else "")] else old(rows)
      ensures result.Ok? ==> result.value == |rows|
    {
      if !WellFormed(event) {
        return Err("invalid event");
      }
      rows := rows + [Row(event, if runId.Some? then runId.value else "")];
      return Ok(|rows|);
    }

    method Fees(scopeId: Option<string>) returns (total: real)
      ensures total == ColumnSum(FillFee, Scoped(rows, QueryScope(scopeId, runId)))
    {
      hide ColumnSum, FillsFund;
      NothingSummed();
      var scope := QueryScope(scopeId, runId);
      total := 0.0;
      for i := 0 to |rows|
        invariant total == ColumnSum(FillFee, Scoped(rows[..i], scope))
      {
        assert rows[..i + 1][..i] == rows[..i];
        SumAppend(FillFee, Scoped(rows[..i], scope), rows[i].event);
        if rows[i].event.kind == FILL_OBSERVED && InScope(scope, rows[i]) {
          total := total + OrZero(rows[i].event.payload.fee);
        }
      }
      assert rows[..|rows|] == rows;
    }

    method RealizedPnl(scopeId: Option<string>) returns (total: real)
      ensures total == ColumnSum(TradePnl, Scoped(rows, QueryScope(scopeId, runId)))
    {
      hide ColumnSum, FillsFund;
      NothingSummed();
      var scope := QueryScope(scopeId, runId);
      total := 0.0;
      for i := 0 to |rows|
        invariant total == ColumnSum(TradePnl, Scoped(rows[..i], scope))
      {
        assert rows[..i + 1][..i] == rows[..i];
        SumAppend(TradePnl, Scoped(rows[..i], scope), rows[i].event);
        if rows[i].event.kind == TRADE_CLOSED && InScope(scope, rows[i]) {
          total := total + OrZero(rows[i].event.payload.netPnl);
        }
      }
      assert rows[..|rows|] == rows;
    }

    method Funding(scopeId: Option<string>) returns (total: real)
      ensures total == FundingTotal(Scoped(rows, QueryScope(scopeId, runId)))
    {
      hide ColumnSum, FillsFund;
      NothingSummed();
      var scope := QueryScope(scopeId, runId);
      total := 0.0;
      var fillFundingSeen := false;
      for i := 0 to |rows|
        invariant total == ColumnSum(FillFunding, Scoped(rows[..i], scope))
        invariant fillFundingSeen == FillsFund(Scoped(rows[..i], scope))
      {
        assert rows[..i + 1][..i] == rows[..i];
        SumAppend(FillFunding, Scoped(rows[..i], scope), rows[i].event);
        FundsAppend(Scoped(rows[..i], scope), rows[i].event);
        if InScope(scope, rows[i]) && rows[i].event.kind == FILL_OBSERVED {
          total := total + OrZero(rows[i].event.payload.funding);
          if rows[i].event.payload.funding.Some? {
            fillFundingSeen := true;
          }
        }
      }
      assert rows[..|rows|] == rows;
      if !fillFundingSeen {
        ghost var own := total;
        for i := 0 to |rows|
          invariant total == own + ColumnSum(TradeFunding, Scoped(rows[..i], scope))
        {
          assert rows[..i + 1][..i] == rows[..i];
          SumAppend(TradeFunding, Scoped(rows[..i], scope), rows[i].event);
          if InScope(scope, rows[i]) && rows[i].event.kind == TRADE_CLOSED {
            total := total + OrZero(rows[i].event.payload.funding);
          }
        }
      }
    }
  }
}
