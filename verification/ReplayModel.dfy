/**
 The replay engine's inputs and the closed form of one replayed trade
 (src/evaluation/baseline.py, src/strategies/base.py).
*/
module ReplayModel {
  import opened Common
  import opened FundingModel
  import opened Venue
  import opened Exchange

  /** One bar. Everything else a strategy can look at is identified by the hash. */
  datatype Snapshot = Snapshot(
    symbol: string, mark: real, bid: real, ask: real, fundingRate: Option<real>,
    observedTs: int, sourceTs: int, hash: string, computedHash: string, candleTimes: seq<seq<int>>)
  {
    function SpreadBps(): real
      requires mark != 0.0
    {
      (ask - bid) / mark * 10000.0
    }

    function AsQuote(): Quote { Quote(bid, ask, mark) }

    /** Where a market order on this side trades before slippage. */
    function Touch(side: Side): real { if side == BUY then ask else bid }
  }

  datatype CostAssumptions = CostAssumptions(feeBps: real, fundingBps: real, slippageBps: real)

  /** The fields of a strategy candidate the engine reads. */
  datatype Candidate = Candidate(side: Side, stop: real, target: real, expectedCost: real, expectedMove: real)

  /** A named strategy: any function of the bar and the cost assumptions. */
  datatype Generator = Generator(name: string, propose: (Snapshot, CostAssumptions) -> seq<Candidate>)

  datatype ReplayConfig = ReplayConfig(
    quantity: real, feeBps: real, fundingBps: real, slippageBps: real,
    realFunding: bool, minEdgeCoverage: real, maxNotional: real)
  {
    function Costs(): CostAssumptions { CostAssumptions(feeBps, fundingBps, slippageBps) }

    function Venue(): Config { Config(feeBps, slippageBps, 0.5, DEFAULT_VENUE) }
  }

  // ---- Sizing -----------------------------------------------------------------------------

  function EffectiveQuantity(cfg: ReplayConfig, mark: real): (q: real)
    ensures q <= cfg.quantity
    ensures cfg.maxNotional > 0.0 && mark > 0.0 ==> q * mark <= cfg.maxNotional
    ensures q == cfg.quantity || (mark > 0.0 && q * mark == cfg.maxNotional)
  {
    if cfg.maxNotional == 0.0 || mark <= 0.0 then cfg.quantity
    else
      var capped := cfg.maxNotional / mark;
      DivideCancels(cfg.maxNotional, mark);
      if cfg.quantity <= capped then
        ScaleMonotoneIf(cfg.quantity, capped, mark);
        cfg.quantity
      else capped
  }

  lemma ScaleMonotoneIf(a: real, b: real, k: real)
    requires a <= b
    ensures 0.0 <= k ==> a * k <= b * k
  {
  }

  /** Whole venue steps in a quantity, rounded towards zero. */
  function StepsIn(qty: real, step: real): int
    requires step > 0.0
  {
    if qty >= 0.0 then (qty / step).Floor else -(-qty / step).Floor
  }

  /** Snap towards zero to a multiple of the venue step. */
  function FloorToStep(qty: real, step: real): (q: real)
    ensures step > 0.0 && qty >= 0.0 ==> 0.0 <= q <= qty < q + step && IsMultiple(q, step)
  {
    if step <= 0.0 then qty
    else
      var n := StepsIn(qty, step);
      var q := (n as real) * step;
      StepsFacts(qty, step, n, q);
      q
  }

  lemma RatioNonNegative(qty: real, step: real)
    requires step > 0.0 && qty >= 0.0
    ensures qty / step >= 0.0
  {
  }

  lemma StepsFacts(qty: real, step: real, n: int, q: real)
    requires step > 0.0 && n == StepsIn(qty, step) && q == (n as real) * step
    ensures qty >= 0.0 ==> 0.0 <= q <= qty < q + step
    ensures IsMultiple(q, step)
  {
    MultipleOfStep(n, step, q);
    if qty >= 0.0 {
      RatioNonNegative(qty, step);
      DivideCancels(qty, step);
      ScaledAtMost(0.0, n as real, step, 0.0, q);
      BetweenSteps(n as real, qty / step, step, q, qty);
    }
  }

  function OrderQuantity(cfg: ReplayConfig, s: Snapshot): real {
    FloorToStep(EffectiveQuantity(cfg, s.mark), DEFAULT_VENUE.quantityStep)
  }

  /** The derived order never exceeds the configured size or the notional cap, and misses it by less than a step. */
  lemma OrderStaysUnderCap(cfg: ReplayConfig, s: Snapshot)
    requires s.mark > 0.0 && cfg.quantity >= 0.0 && cfg.maxNotional >= 0.0
    ensures var q := OrderQuantity(cfg, s);
            && 0.0 <= q <= cfg.quantity
            && (cfg.maxNotional > 0.0 ==> q * s.mark <= cfg.maxNotional)
            && EffectiveQuantity(cfg, s.mark) < q + DEFAULT_VENUE.quantityStep
            && IsMultiple(q, DEFAULT_VENUE.quantityStep)
  {
    var capped := EffectiveQuantity(cfg, s.mark);
    assert capped >= 0.0 by {
      if cfg.maxNotional > 0.0 { assert cfg.maxNotional / s.mark >= 0.0; }
    }
    ScaleMonotoneIf(OrderQuantity(cfg, s), capped, s.mark);
  }

  // ---- Funding rates along a replay ----------------------------------------------------------

  /** The stress rate keeps only the direction of the recorded rate. */
  function ReplayFundingRate(s: Snapshot, fundingBps: real): real {
    var raw := if s.fundingRate.Some? then s.fundingRate.value else 0.0;
    if raw == 0.0 then 0.0 else (if raw > 0.0 then 1.0 else -1.0) * fundingBps / 10000.0
  }

  function RateAt(cfg: ReplayConfig, s: Snapshot): real {
    if cfg.realFunding && s.fundingRate.Some? then s.fundingRate.value else ReplayFundingRate(s, cfg.fundingBps)
  }

  function EventAt(cfg: ReplayConfig, s: Snapshot, index: int): MarketEvent {
    MarketEvent(s.symbol, s.bid, s.ask, s.mark, index, s.sourceTs, RateAt(cfg, s))
  }

  // ---- The closed form of one trade --------------------------------------------------------

  datatype Entry = Entry(name: string, side: Side, quantity: real, stop: real, target: real)

  predicate Hit(e: Entry, mark: real) {
    if e.side == BUY then mark <= e.stop || mark >= e.target else mark >= e.stop || mark <= e.target
  }

  /** The first later bar up to `end` whose mark reaches the stop or the target, else the bar `end` itself. */
  function ExitIndex(w: seq<Snapshot>, end: nat, i: nat, e: Entry): (x: nat)
    requires i <= end < |w|
    ensures i <= x <= end
    ensures forall j :: i < j < x ==> !Hit(e, w[j].mark)
    ensures x == end || (x > i && Hit(e, w[x].mark))
  {
    ExitFrom(w, end, i, i + 1, e)
  }

  function ExitFrom(w: seq<Snapshot>, end: nat, i: nat, j: nat, e: Entry): (x: nat)
    requires i < j <= end + 1 <= |w|
    ensures i <= x <= end && j - 1 <= x
    ensures forall k :: j <= k < x ==> !Hit(e, w[k].mark)
    ensures x == end || (x >= j && Hit(e, w[x].mark))
    decreases end + 1 - j
  {
    if j == end + 1 then end
    else if Hit(e, w[j].mark) then j
    else ExitFrom(w, end, i, j + 1, e)
  }

  /** Funding paid and received on the bars after i up to and including j. */
  function PaidUpTo(cfg: ReplayConfig, w: seq<Snapshot>, i: nat, j: nat, e: Entry): real
    requires j < |w|
    decreases j
  {
    if j <= i then 0.0
    else PaidUpTo(cfg, w, i, j - 1, e) + SettlementLeg(e.side, e.quantity, w[j].mark, RateAt(cfg, w[j])).0
  }

  function ReceivedUpTo(cfg: ReplayConfig, w: seq<Snapshot>, i: nat, j: nat, e: Entry): real
    requires j < |w|
    decreases j
  {
    if j <= i then 0.0
    else ReceivedUpTo(cfg, w, i, j - 1, e) + SettlementLeg(e.side, e.quantity, w[j].mark, RateAt(cfg, w[j])).1
  }

  function ExecutionPrice(cfg: ReplayConfig, s: Snapshot, side: Side): real {
    s.Touch(side) * (1.0 + Sign(side) * cfg.slippageBps / 10000.0)
  }

  datatype Trade = Trade(
    name: string, entryIndex: int, exitIndex: int, endOfReplay: bool,
    gross: real, fees: real, spread: real, slippage: real, funding: real, notional: real, bar: Snapshot)
  {
    function Net(): real { gross - fees - spread - slippage - funding }
  }

  /** A trade entered at bar i of a replay that ends at bar `end`, read off the two bars and the path between. */
  function TradeAt(cfg: ReplayConfig, w: seq<Snapshot>, end: nat, i: nat, e: Entry): Trade
    requires i <= end < |w|
  {
    var x := ExitIndex(w, end, i, e);
    var out := Opposite(e.side);
    var entryPrice, exitPrice := ExecutionPrice(cfg, w[i], e.side), ExecutionPrice(cfg, w[x], out);
    Trade(e.name, i, x, !(x > i && Hit(e, w[x].mark)),
          Sign(e.side) * e.quantity * (w[x].mark - w[i].mark),
          e.quantity * entryPrice * cfg.feeBps / 10000.0 + e.quantity * exitPrice * cfg.feeBps / 10000.0,
          Abs(w[i].Touch(e.side) - w[i].mark) * e.quantity + Abs(w[x].Touch(out) - w[x].mark) * e.quantity,
          Abs(entryPrice - w[i].Touch(e.side)) * e.quantity + Abs(exitPrice - w[x].Touch(out)) * e.quantity,
          PaidUpTo(cfg, w, i, x, e) - ReceivedUpTo(cfg, w, i, x, e),
          e.quantity * w[i].mark, w[i])
  }

  lemma TradeIdentity(cfg: ReplayConfig, w: seq<Snapshot>, end: nat, i: nat, e: Entry)
    requires i <= end < |w|
    ensures var x := ExitIndex(w, end, i, e);
            var t := TradeAt(cfg, w, end, i, e);
            && (t.name, t.entryIndex, t.exitIndex, t.bar) == (e.name, i, x, w[i])
            && t.endOfReplay == !(x > i && Hit(e, w[x].mark))
            && t.notional == e.quantity * w[i].mark
  {
  }
}
