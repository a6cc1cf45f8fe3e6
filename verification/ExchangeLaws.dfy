/**
 Conservation over every run of the paper exchange: positions, fills and closed trades are three
 records of one history, and these laws say exactly how they agree.
*/
module ExchangeLaws {
  import opened Common
  import opened FundingModel
  import opened Exchange

  // ---- Sums over the fill log ---------------------------------------------------------

  datatype Measure = Inventory(symbol: string) | Ordered(id: OrderId) | Fees(symbol: string)
                   | Spread(symbol: string) | Slippage(symbol: string)

  function Signed(f: Fill): real { Sign(f.side) * f.quantity }

  function Of(m: Measure, f: Fill): real {
    match m
    case Inventory(s) => if f.symbol == s then Signed(f) else 0.0
    case Ordered(id) => if f.id == id then f.quantity else 0.0
    case Fees(s) => if f.symbol == s then f.fee else 0.0
    case Spread(s) => if f.symbol == s then f.spreadCost else 0.0
    case Slippage(s) => if f.symbol == s then f.slippageCost else 0.0
  }

  function Total(m: Measure, fills: seq<Fill>): real {
    if |fills| == 0 then 0.0 else Total(m, fills[..|fills| - 1]) + Of(m, fills[|fills| - 1])
  }

  /** Value of a signed quantity at a mark. */
  function ValueAt(side: Side, quantity: real, mark: real): real { Sign(side) * quantity * mark }

  /** Cash spent and received in a symbol had every fill traded at its reference mark. */
  function ReferenceFlow(fills: seq<Fill>, marks: seq<real>, s: string): real
    requires |fills| == |marks|
  {
    if |fills| == 0 then 0.0
    else
      var n := |fills| - 1;
      ReferenceFlow(fills[..n], marks[..n], s) - (if fills[n].symbol == s then ValueAt(fills[n].side, fills[n].quantity, marks[n]) else 0.0)
  }

  /** What a fill trades beyond flat: the part that opens the opposite position. Zero unless it flips. */
  function FlipRemainder(inventory: real, f: Fill): real {
    if inventory * Sign(f.side) < 0.0 && f.quantity > Abs(inventory) then f.quantity - Abs(inventory) else 0.0
  }

  datatype Surplus = FeeSurplus | SpreadSurplus | SlippageSurplus

  /** What one fill is charged twice, judged from the fill log alone. */
  function SurplusOf(k: Surplus, c: Config, inventory: real, f: Fill): real {
    var rem := FlipRemainder(inventory, f);
    match k
    case FeeSurplus => rem * f.price * c.feeBps / 10000.0
    case SpreadSurplus => if rem > 0.0 then f.spreadCost else 0.0
    case SlippageSurplus => if rem > 0.0 then f.slippageCost else 0.0
  }

  function FlipSurplus(k: Surplus, c: Config, fills: seq<Fill>, s: string): real {
    if |fills| == 0 then 0.0
    else
      var n := |fills| - 1;
      FlipSurplus(k, c, fills[..n], s)
      + if fills[n].symbol == s then SurplusOf(k, c, Total(Inventory(s), fills[..n]), fills[n]) else 0.0
  }

  // ---- Sums over closed trades and open positions ---------------------------------------

  datatype TradeMeasure = TradeGross(symbol: string) | TradeFees(symbol: string) | TradeSpread(symbol: string)
                        | TradeSlippage(symbol: string) | TradeFunding
                        | TradeFundingIn(symbol: string) | TradeNet(symbol: string)

  function TradeOf(m: TradeMeasure, t: ClosedTrade): real {
    match m
    case TradeGross(s) => if t.symbol == s then t.gross else 0.0
    case TradeFees(s) => if t.symbol == s then t.entryFee + t.exitFee else 0.0
    case TradeSpread(s) => if t.symbol == s then t.spreadCost else 0.0
    case TradeSlippage(s) => if t.symbol == s then t.slippageCost else 0.0
    case TradeFunding => t.funding
    case TradeFundingIn(s) => if t.symbol == s then t.funding else 0.0
    case TradeNet(s) => if t.symbol == s then t.net else 0.0
  }

  function Closed(m: TradeMeasure, trades: seq<ClosedTrade>): real {
    if |trades| == 0 then 0.0 else Closed(m, trades[..|trades| - 1]) + TradeOf(m, trades[|trades| - 1])
  }

  // What an open position (if any) contributes to each account.

  function InventoryOf(p: Option<Position>): real {
    if p.Some? then Sign(p.value.side) * p.value.quantity else 0.0
  }

  /** Signed quantity at the average reference mark of its entries. */
  function ReferenceOf(p: Option<Position>): real {
    if p.Some? then ValueAt(p.value.side, p.value.quantity, p.value.Reference()) else 0.0
  }

  /** Entry fee a position will be charged when it closes. */
  function FeesOf(c: Config, p: Option<Position>): real {
    if p.Some? then p.value.entryPrice * p.value.quantity * c.feeBps / 10000.0 else 0.0
  }

  function SpreadOf(p: Option<Position>): real { if p.Some? then p.value.entrySpread else 0.0 }

  function SlippageOf(p: Option<Position>): real { if p.Some? then p.value.entrySlippage else 0.0 }

  function FundingOf(p: Option<Position>): real { if p.Some? then p.value.NetFunding() else 0.0 }

  function TradePart(m: TradeMeasure, t: Option<ClosedTrade>): real { if t.Some? then TradeOf(m, t.value) else 0.0 }

  datatype PositionMeasure = FundingHeld | EntryNotional(multiplier: real)

  function PositionOf(m: PositionMeasure, p: Position): real {
    match m
    case FundingHeld => p.NetFunding()
    case EntryNotional(k) => p.quantity * p.entryPrice * k
  }

  /** A measure summed over all open positions, in whatever order the map is visited. */
  ghost function Sum(m: PositionMeasure, ps: map<string, Position>): real {
    if ps == map[] then 0.0
    else
      var s :| s in ps;
      PositionOf(m, ps[s]) + Sum(m, ps - {s})
  }

  lemma SumOfNone(m: PositionMeasure)
    ensures Sum(m, map[]) == 0.0
  {
  }

  lemma {:induction false} SumWithout(m: PositionMeasure, ps: map<string, Position>, s: string)
    requires s in ps
    ensures Sum(m, ps) == PositionOf(m, ps[s]) + Sum(m, ps - {s})
    decreases |ps|
  {
    var first :| first in ps && Sum(m, ps) == PositionOf(m, ps[first]) + Sum(m, ps - {first});
    if first != s {
      SumWithout(m, ps - {first}, s);
      SumWithout(m, ps - {s}, first);
      assert ps - {first} - {s} == ps - {s} - {first};
    }
  }

  function At(m: PositionMeasure, ps: map<string, Position>, s: string): real {
    if s in ps then PositionOf(m, ps[s]) else 0.0
  }

  /** Changing one position changes the sum by exactly that position's change. */
  lemma SumChange(m: PositionMeasure, ps: map<string, Position>, ps': map<string, Position>, s: string)
    requires ps' - {s} == ps - {s}
    ensures Sum(m, ps') - Sum(m, ps) == At(m, ps', s) - At(m, ps, s)
  {
    if s in ps { SumWithout(m, ps, s); } else { assert ps - {s} == ps; }
    if s in ps' { SumWithout(m, ps', s); } else { assert ps' - {s} == ps'; }
  }

  // ---- What one booking does: exact real arithmetic on one position -------------------------

  lemma {:induction false} RebookInventory(c: Config, prior: Option<Position>, o: Order, f: Fill, quantity: real, mark: real)
    requires quantity > 0.0 && (prior.Some? ==> prior.value.quantity > 0.0)
    ensures InventoryOf(Rebook(c, prior, o, f, quantity, mark).position) == InventoryOf(prior) + Sign(o.side) * quantity
  {
  }

  /** Profit on the part that closes, against the reference value of what stays open. */
  lemma GrossOfClose(sigma: real, held: real, quantity: real, ref: real, mark: real)
    ensures (mark - ref) * quantity * sigma - sigma * (held - quantity) * ref
         == sigma * quantity * mark - sigma * held * ref
    ensures (mark - ref) * held * sigma - -sigma * (quantity - held) * mark
         == sigma * quantity * mark - sigma * held * ref
  {
    assert (mark - ref) * quantity * sigma == sigma * quantity * mark - sigma * quantity * ref;
    assert sigma * (held - quantity) * ref == sigma * held * ref - sigma * quantity * ref;
    assert (mark - ref) * held * sigma == sigma * held * mark - sigma * held * ref;
    assert -sigma * (quantity - held) * mark == sigma * held * mark - sigma * quantity * mark;
  }

  lemma GrownReference(p: Position, f: Fill, quantity: real, mark: real)
    requires p.quantity > 0.0 && quantity > 0.0
    ensures ReferenceOf(Some(Grow(p, f, quantity, mark))) == ReferenceOf(Some(p)) + Sign(p.side) * quantity * mark
  {
    var total := p.quantity + quantity;
    var spent := p.Reference() * p.quantity + mark * quantity;
    DivideCancels(spent, total);
    assert Sign(p.side) * total * (spent / total) == Sign(p.side) * spent;
  }

  lemma GrownFees(c: Config, p: Position, f: Fill, quantity: real, mark: real)
    requires p.quantity > 0.0 && quantity > 0.0
    ensures FeesOf(c, Some(Grow(p, f, quantity, mark)))
         == FeesOf(c, Some(p)) + quantity * f.price * c.feeBps / 10000.0
  {
    var total := p.quantity + quantity;
    var spent := p.entryPrice * p.quantity + f.price * quantity;
    DivideCancels(spent, total);
    assert spent / total * total * c.feeBps == p.entryPrice * p.quantity * c.feeBps + quantity * f.price * c.feeBps;
  }

  lemma RebookGross(c: Config, prior: Option<Position>, o: Order, f: Fill, quantity: real, mark: real)
    requires quantity > 0.0 && (prior.Some? ==> prior.value.quantity > 0.0)
    ensures var r := Rebook(c, prior, o, f, quantity, mark);
            TradePart(TradeGross(o.symbol), r.trade) - ReferenceOf(r.position)
            == -ReferenceOf(prior) - ValueAt(o.side, quantity, mark)
  {
    var r := Rebook(c, prior, o, f, quantity, mark);
    if prior.Some? && prior.value.side != o.side {
      var p := prior.value;
      GrossOfClose(Sign(p.side), p.quantity, quantity, p.Reference(), mark);
      if quantity < p.quantity {
        assert ReferenceOf(r.position) == Sign(p.side) * (p.quantity - quantity) * p.Reference();
      } else if quantity > p.quantity {
        assert ReferenceOf(r.position) == -Sign(p.side) * (quantity - p.quantity) * mark;
      }
    } else if prior.Some? {
      GrownReference(prior.value, f, quantity, mark);
    }
  }

  /** A fill flips only an opposite position it is larger than. */
  lemma FlipRemainderOf(prior: Option<Position>, f: Fill)
    requires f.quantity > 0.0 && (prior.Some? ==> prior.value.quantity > 0.0)
    ensures FlipRemainder(InventoryOf(prior), f)
         == if prior.Some? && prior.value.side != f.side && f.quantity > prior.value.quantity then f.quantity - prior.value.quantity
            else 0.0
  {
  }

  lemma FeesOfClose(entry: real, held: real, quantity: real, bps: real)
    ensures entry * quantity * bps / 10000.0 + entry * (held - quantity) * bps / 10000.0 == entry * held * bps / 10000.0
  {
    assert entry * quantity * bps + entry * (held - quantity) * bps == entry * held * bps;
  }

  lemma RebookFees(c: Config, prior: Option<Position>, o: Order, f: Fill, quantity: real, mark: real)
    requires quantity > 0.0 && (prior.Some? ==> prior.value.quantity > 0.0)
    requires f.side == o.side && f.quantity == quantity && f.fee == quantity * f.price * c.feeBps / 10000.0
    ensures var r := Rebook(c, prior, o, f, quantity, mark);
            TradePart(TradeFees(o.symbol), r.trade) + FeesOf(c, r.position)
            == FeesOf(c, prior) + f.fee + SurplusOf(FeeSurplus, c, InventoryOf(prior), f)
  {
    hide FlipRemainder, InventoryOf, Grow, CloseTrade;
    FlipRemainderOf(prior, f);
    if prior.Some? && prior.value.side == o.side {
      GrownFees(c, prior.value, f, quantity, mark);
    } else if prior.Some? {
      FeesOfClose(prior.value.entryPrice, prior.value.quantity, quantity, c.feeBps);
      FeesOfTrade(c, prior.value, o, f, mark, Min(prior.value.quantity, quantity));
    }
  }

  lemma FeesOfTrade(c: Config, p: Position, o: Order, f: Fill, mark: real, quantity: real)
    requires p.quantity > 0.0
    ensures TradePart(TradeFees(o.symbol), Some(CloseTrade(c, p, o, f, mark, quantity)))
         == p.entryPrice * quantity * c.feeBps / 10000.0 + f.fee
  {
  }

  /** A part's share of an entry cost and what the rest keeps add up; a full close takes all of it. */
  lemma CostShares(cost: real, held: real, quantity: real)
    requires held > 0.0 && quantity > 0.0
    ensures quantity < held ==> cost * (quantity / held) + cost * (1.0 - quantity / held) == cost
    ensures quantity >= held ==> cost * (Min(held, quantity) / held) == cost
  {
    if quantity >= held {
      assert held / held == 1.0;
    }
  }

  lemma RebookSpread(c: Config, prior: Option<Position>, o: Order, f: Fill, quantity: real, mark: real)
    requires quantity > 0.0 && (prior.Some? ==> prior.value.quantity > 0.0)
    requires f.side == o.side && f.quantity == quantity
    ensures var r := Rebook(c, prior, o, f, quantity, mark);
            TradePart(TradeSpread(o.symbol), r.trade) + SpreadOf(r.position)
            == SpreadOf(prior) + f.spreadCost + SurplusOf(SpreadSurplus, c, InventoryOf(prior), f)
  {
    hide FlipRemainder, InventoryOf;
    FlipRemainderOf(prior, f);
    if prior.Some? && prior.value.side != o.side {
      CostShares(prior.value.entrySpread, prior.value.quantity, quantity);
    }
  }

  lemma RebookSlippage(c: Config, prior: Option<Position>, o: Order, f: Fill, quantity: real, mark: real)
    requires quantity > 0.0 && (prior.Some? ==> prior.value.quantity > 0.0)
    requires f.side == o.side && f.quantity == quantity
    ensures var r := Rebook(c, prior, o, f, quantity, mark);
            TradePart(TradeSlippage(o.symbol), r.trade) + SlippageOf(r.position)
            == SlippageOf(prior) + f.slippageCost + SurplusOf(SlippageSurplus, c, InventoryOf(prior), f)
  {
    hide FlipRemainder, InventoryOf;
    FlipRemainderOf(prior, f);
    if prior.Some? && prior.value.side != o.side {
      CostShares(prior.value.entrySlippage, prior.value.quantity, quantity);
    }
  }

  lemma RebookFunding(c: Config, prior: Option<Position>, o: Order, f: Fill, quantity: real, mark: real)
    requires quantity > 0.0 && (prior.Some? ==> prior.value.quantity > 0.0)
    ensures var r := Rebook(c, prior, o, f, quantity, mark);
            TradePart(TradeFunding, r.trade) + FundingOf(r.position) == FundingOf(prior)
  {
    if prior.Some? && prior.value.side != o.side {
      CostShares(prior.value.fundingPaid, prior.value.quantity, quantity);
      CostShares(prior.value.fundingReceived, prior.value.quantity, quantity);
    }
  }

  // ---- The laws of a book -------------------------------------------------------------------

  /** A position is the signed sum of its fills. */
  ghost predicate InventoryLaw(b: Book, s: string) {
    InventoryOf(PositionAt(b, s)) == Total(Inventory(s), b.fills)
  }

  /** Realised gross is the cash flow of the fills at their marks plus the reference value still open. */
  ghost predicate GrossLaw(b: Book, s: string)
    requires |b.marks| == |b.fills|
  {
    Closed(TradeGross(s), b.closed) == ReferenceFlow(b.fills, b.marks, s) + ReferenceOf(PositionAt(b, s))
  }

  /** Fees charged or still to be charged are the fill fees, plus what flips charge twice. */
  ghost predicate FeeLaw(c: Config, b: Book, s: string) {
    Closed(TradeFees(s), b.closed) + FeesOf(c, PositionAt(b, s))
    == Total(Fees(s), b.fills) + FlipSurplus(FeeSurplus, c, b.fills, s)
  }

  ghost predicate SpreadLaw(c: Config, b: Book, s: string) {
    Closed(TradeSpread(s), b.closed) + SpreadOf(PositionAt(b, s))
    == Total(Spread(s), b.fills) + FlipSurplus(SpreadSurplus, c, b.fills, s)
  }

  ghost predicate SlippageLaw(c: Config, b: Book, s: string) {
    Closed(TradeSlippage(s), b.closed) + SlippageOf(PositionAt(b, s))
    == Total(Slippage(s), b.fills) + FlipSurplus(SlippageSurplus, c, b.fills, s)
  }

  ghost predicate SymbolLaws(c: Config, b: Book, s: string)
    requires |b.marks| == |b.fills|
  {
    InventoryLaw(b, s) && GrossLaw(b, s) && FeeLaw(c, b, s) && SpreadLaw(c, b, s) && SlippageLaw(c, b, s)
  }

  /** Funding charged to closed trades and still held by positions is all the exchange paid less received. */
  ghost predicate FundingLaw(b: Book) {
    Closed(TradeFunding, b.closed) + Sum(FundingHeld, b.positions) == b.fundingPaid - b.fundingReceived
  }

  ghost predicate Accounts(c: Config, b: Book) {
    && |b.marks| == |b.fills|
    && (forall s :: SymbolLaws(c, b, s))
    && FundingLaw(b)
  }

  lemma ClosedAppend(m: TradeMeasure, ts: seq<ClosedTrade>, t: ClosedTrade)
    ensures Closed(m, ts + [t]) == Closed(m, ts) + TradeOf(m, t)
  {
    assert (ts + [t])[..|ts|] == ts;
  }

  lemma TotalAppend(m: Measure, fills: seq<Fill>, f: Fill)
    ensures Total(m, fills + [f]) == Total(m, fills) + Of(m, f)
  {
    assert (fills + [f])[..|fills|] == fills;
  }

  lemma FlipAppend(k: Surplus, c: Config, fills: seq<Fill>, f: Fill, s: string)
    ensures FlipSurplus(k, c, fills + [f], s) == FlipSurplus(k, c, fills, s)
            + if f.symbol == s then SurplusOf(k, c, Total(Inventory(s), fills), f) else 0.0
  {
    assert (fills + [f])[..|fills|] == fills;
  }

  lemma FlowAppend(fills: seq<Fill>, marks: seq<real>, f: Fill, mark: real, s: string)
    requires |fills| == |marks|
    ensures ReferenceFlow(fills + [f], marks + [mark], s)
         == ReferenceFlow(fills, marks, s) - if f.symbol == s then ValueAt(f.side, f.quantity, mark) else 0.0
  {
    assert (fills + [f])[..|fills|] == fills && (marks + [mark])[..|marks|] == marks;
  }

  /** The trades a booking adds, if any, are in the symbol of its order. */
  lemma TradeAppend(m: TradeMeasure, b: Book, t: Option<ClosedTrade>)
    ensures Closed(m, if t.Some? then b.closed + [t.value] else b.closed) == Closed(m, b.closed) + TradePart(m, t)
  {
    if t.Some? {
      ClosedAppend(m, b.closed, t.value);
    }
  }

  // Each law survives one more fill. The arithmetic is done above; here the bodies it needed are
  // out of scope, so that only the bookkeeping is left.

  lemma FillKeepsInventory(c: Config, b: Book, o: Order, quantity: real, price: real)
    requires quantity > 0.0 && PositivePositions(b.positions) && InventoryLaw(b, o.symbol)
    ensures InventoryLaw(FillOrder(c, b, o, quantity, price), o.symbol)
  {
    var f := MakeFill(c, b, o, quantity, price);
    TotalAppend(Inventory(o.symbol), b.fills, f);
    RebookInventory(c, PositionAt(b, o.symbol), o, f, quantity, QuoteOr(b, o.symbol, price).mark);
  }

  lemma FillKeepsGross(c: Config, b: Book, o: Order, quantity: real, price: real)
    requires quantity > 0.0 && PositivePositions(b.positions)
    requires |b.marks| == |b.fills| && GrossLaw(b, o.symbol)
    ensures var b' := FillOrder(c, b, o, quantity, price);
            |b'.marks| == |b'.fills| && GrossLaw(b', o.symbol)
  {
    hide Rebook, MakeFill, ReferenceOf, TradePart, ValueAt, ReferenceFlow, Closed;
    var s := o.symbol;
    var f := MakeFill(c, b, o, quantity, price);
    var mark := QuoteOr(b, s, price).mark;
    FlowAppend(b.fills, b.marks, f, mark, s);
    TradeAppend(TradeGross(s), b, Rebook(c, PositionAt(b, s), o, f, quantity, mark).trade);
    RebookGross(c, PositionAt(b, s), o, f, quantity, mark);
  }

  lemma FeeOfFill(c: Config, b: Book, o: Order, quantity: real, price: real)
    ensures var f := MakeFill(c, b, o, quantity, price); f.fee == quantity * f.price * c.feeBps / 10000.0
  {
  }

  lemma FillKeepsFees(c: Config, b: Book, o: Order, quantity: real, price: real)
    requires quantity > 0.0 && PositivePositions(b.positions)
    requires InventoryLaw(b, o.symbol) && FeeLaw(c, b, o.symbol)
    ensures FeeLaw(c, FillOrder(c, b, o, quantity, price), o.symbol)
  {
    hide Rebook, MakeFill, FeesOf, TradePart, SurplusOf, Total, FlipSurplus, Closed;
    var s := o.symbol;
    var f := MakeFill(c, b, o, quantity, price);
    var mark := QuoteOr(b, s, price).mark;
    TotalAppend(Fees(s), b.fills, f);
    FlipAppend(FeeSurplus, c, b.fills, f, s);
    TradeAppend(TradeFees(s), b, Rebook(c, PositionAt(b, s), o, f, quantity, mark).trade);
    FeeOfFill(c, b, o, quantity, price);
    RebookFees(c, PositionAt(b, s), o, f, quantity, mark);
  }

  lemma FillKeepsSpread(c: Config, b: Book, o: Order, quantity: real, price: real)
    requires quantity > 0.0 && PositivePositions(b.positions)
    requires InventoryLaw(b, o.symbol) && SpreadLaw(c, b, o.symbol)
    ensures SpreadLaw(c, FillOrder(c, b, o, quantity, price), o.symbol)
  {
    hide Rebook, MakeFill, SpreadOf, SlippageOf, FundingOf, TradePart, SurplusOf, Total, FlipSurplus, Closed;
    var s := o.symbol;
    var f := MakeFill(c, b, o, quantity, price);
    var mark := QuoteOr(b, s, price).mark;
    TotalAppend(Spread(s), b.fills, f);
    FlipAppend(SpreadSurplus, c, b.fills, f, s);
    TradeAppend(TradeSpread(s), b, Rebook(c, PositionAt(b, s), o, f, quantity, mark).trade);
    RebookSpread(c, PositionAt(b, s), o, f, quantity, mark);
  }

  lemma FillKeepsSlippage(c: Config, b: Book, o: Order, quantity: real, price: real)
    requires quantity > 0.0 && PositivePositions(b.positions)
    requires InventoryLaw(b, o.symbol) && SlippageLaw(c, b, o.symbol)
    ensures SlippageLaw(c, FillOrder(c, b, o, quantity, price), o.symbol)
  {
    hide Rebook, MakeFill, SpreadOf, SlippageOf, FundingOf, TradePart, SurplusOf, Total, FlipSurplus, Closed;
    var s := o.symbol;
    var f := MakeFill(c, b, o, quantity, price);
    var mark := QuoteOr(b, s, price).mark;
    TotalAppend(Slippage(s), b.fills, f);
    FlipAppend(SlippageSurplus, c, b.fills, f, s);
    TradeAppend(TradeSlippage(s), b, Rebook(c, PositionAt(b, s), o, f, quantity, mark).trade);
    RebookSlippage(c, PositionAt(b, s), o, f, quantity, mark);
  }

  lemma FundingAt(b: Book, s: string)
    ensures At(FundingHeld, b.positions, s) == FundingOf(PositionAt(b, s))
  {
  }

  lemma FillKeepsFunding(c: Config, b: Book, o: Order, quantity: real, price: real)
    requires quantity > 0.0 && PositivePositions(b.positions) && FundingLaw(b)
    ensures FundingLaw(FillOrder(c, b, o, quantity, price))
  {
    hide Rebook, MakeFill, SpreadOf, SlippageOf, FundingOf, TradePart, SurplusOf, At, Closed, Sum;
    var s := o.symbol;
    var f := MakeFill(c, b, o, quantity, price);
    var mark := QuoteOr(b, s, price).mark;
    var b' := FillOrder(c, b, o, quantity, price);
    SumChange(FundingHeld, b.positions, b'.positions, s);
    FundingAt(b, s);
    FundingAt(b', s);
    TradeAppend(TradeFunding, b, Rebook(c, PositionAt(b, s), o, f, quantity, mark).trade);
    RebookFunding(c, PositionAt(b, s), o, f, quantity, mark);
    assert b'.fundingPaid - b'.fundingReceived == b.fundingPaid - b.fundingReceived;
    assert PositionAt(b', s) == Rebook(c, PositionAt(b, s), o, f, quantity, mark).position;
  }

  lemma FillKeepsOtherSymbols(c: Config, b: Book, o: Order, quantity: real, price: real, s: string)
    requires quantity > 0.0 && PositivePositions(b.positions) && s != o.symbol
    requires |b.marks| == |b.fills| && SymbolLaws(c, b, s)
    ensures var b' := FillOrder(c, b, o, quantity, price);
            |b'.marks| == |b'.fills| && SymbolLaws(c, b', s)
  {
    hide Rebook, MakeFill, SpreadOf, SlippageOf, FeesOf, InventoryOf, ReferenceOf, SurplusOf, ValueAt, Total, FlipSurplus, Closed, ReferenceFlow;
    var f := MakeFill(c, b, o, quantity, price);
    var mark := QuoteOr(b, o.symbol, price).mark;
    var trade := Rebook(c, PositionAt(b, o.symbol), o, f, quantity, mark).trade;
    FlowAppend(b.fills, b.marks, f, mark, s);
    forall m ensures Total(m, b.fills + [f]) == Total(m, b.fills) + Of(m, f) { TotalAppend(m, b.fills, f); }
    forall k ensures FlipSurplus(k, c, b.fills + [f], s) == FlipSurplus(k, c, b.fills, s) {
      FlipAppend(k, c, b.fills, f, s);
    }
    TradeAppend(TradeGross(s), b, trade);
    TradeAppend(TradeFees(s), b, trade);
    TradeAppend(TradeSpread(s), b, trade);
    TradeAppend(TradeSlippage(s), b, trade);
    var b' := FillOrder(c, b, o, quantity, price);
    assert PositionAt(b', s) == PositionAt(b, s);
  }

  lemma FillKeepsAccounts(c: Config, b: Book, o: Order, quantity: real, price: real)
    requires quantity > 0.0 && PositivePositions(b.positions) && Accounts(c, b)
    ensures Accounts(c, FillOrder(c, b, o, quantity, price))
  {
    hide Rebook, MakeFill, InventoryLaw, GrossLaw, FeeLaw, SpreadLaw, SlippageLaw, FundingLaw, FillOrder;
    var b' := FillOrder(c, b, o, quantity, price);
    assert SymbolLaws(c, b, o.symbol);
    FillKeepsInventory(c, b, o, quantity, price);
    FillKeepsGross(c, b, o, quantity, price);
    FillKeepsFees(c, b, o, quantity, price);
    FillKeepsSpread(c, b, o, quantity, price);
    FillKeepsSlippage(c, b, o, quantity, price);
    FillKeepsFunding(c, b, o, quantity, price);
    forall s ensures SymbolLaws(c, b', s) {
      if s != o.symbol {
        FillKeepsOtherSymbols(c, b, o, quantity, price, s);
      }
    }
  }

  // ---- Everything that is not a fill ---------------------------------------------------------

  /** The same trading history and exposure; protection levels and accrued funding may differ. */
  ghost predicate SameTrading(b: Book, b': Book) {
    && b'.fills == b.fills && b'.marks == b.marks && b'.closed == b.closed
    && b'.positions.Keys == b.positions.Keys
    && forall s :: s in b.positions ==>
         b'.positions[s] == b.positions[s].(stopLoss := b'.positions[s].stopLoss, takeProfit := b'.positions[s].takeProfit,
                                            fundingPaid := b'.positions[s].fundingPaid,
                                            fundingReceived := b'.positions[s].fundingReceived)
  }

  /** Accounts read only the side, size and entry of a position. */
  lemma SameExposureSameParts(c: Config, b: Book, b': Book, s: string)
    requires SameTrading(b, b')
    ensures InventoryOf(PositionAt(b', s)) == InventoryOf(PositionAt(b, s))
    ensures ReferenceOf(PositionAt(b', s)) == ReferenceOf(PositionAt(b, s))
    ensures FeesOf(c, PositionAt(b', s)) == FeesOf(c, PositionAt(b, s))
    ensures SpreadOf(PositionAt(b', s)) == SpreadOf(PositionAt(b, s))
    ensures SlippageOf(PositionAt(b', s)) == SlippageOf(PositionAt(b, s))
  {
    assert s in b.positions <==> s in b'.positions;
  }

  lemma SameTradingKeepsSymbolLaws(c: Config, b: Book, b': Book)
    requires Accounts(c, b) && SameTrading(b, b')
    ensures |b'.marks| == |b'.fills| && forall s :: SymbolLaws(c, b', s)
  {
    hide InventoryOf, ReferenceOf, FeesOf, SpreadOf, SlippageOf;
    forall s ensures SymbolLaws(c, b', s) {
      assert SymbolLaws(c, b, s);
      SameExposureSameParts(c, b, b', s);
    }
  }

  /** Recording an order, a quote or a sequence number leaves the accounts alone. */
  lemma SamePositionsKeepAccounts(c: Config, b: Book, b': Book)
    requires Accounts(c, b)
    requires b' == b.(orders := b'.orders, ids := b'.ids, quotes := b'.quotes, lastSequence := b'.lastSequence)
    ensures Accounts(c, b')
  {
    SameTradingKeepsSymbolLaws(c, b, b');
  }

  lemma AccrueKeepsAccounts(c: Config, b: Book, symbol: string, leg: (real, real))
    requires Accounts(c, b) && symbol in b.positions
    ensures Accounts(c, Accrue(b, symbol, leg))
  {
    var b' := Accrue(b, symbol, leg);
    SameTradingKeepsSymbolLaws(c, b, b');
    assert b'.positions - {symbol} == b.positions - {symbol};
    SumChange(FundingHeld, b.positions, b'.positions, symbol);
  }

  lemma ProtectionKeepsAccounts(c: Config, b: Book, symbol: string, stop: Option<real>, target: Option<real>)
    requires Accounts(c, b) && symbol in b.positions
    ensures Accounts(c, SetProtection(b, symbol, stop, target).value)
  {
    var b' := SetProtection(b, symbol, stop, target).value;
    SameTradingKeepsSymbolLaws(c, b, b');
    assert b'.positions - {symbol} == b.positions - {symbol};
    SumChange(FundingHeld, b.positions, b'.positions, symbol);
  }

  lemma SubmitKeepsAccounts(c: Config, b: Book, r: OrderRequest)
    requires c.Valid() && Fillable(b) && Accounts(c, b)
    ensures Accounts(c, Submit(c, b, r).book)
  {
    hide Accounts, FillOrder;
    if Client(r.id) !in b.orders {
      var o := Admit(c, b, r);
      SamePositionsKeepAccounts(c, b, PutOrder(b, o));
      if o.status == FILLED {
        FillKeepsAccounts(c, PutOrder(b, o), o, r.quantity, o.price.value);
      }
    }
  }

  lemma TouchKeepsAccounts(c: Config, b: Book, id: OrderId, e: MarketEvent)
    requires c.Valid() && Fillable(b) && Accounts(c, b)
    ensures Accounts(c, Touch(c, b, id, e))
  {
    hide Accounts, FillOrder;
    if id in b.orders && Triggers(b.orders[id], e) {
      var o := b.orders[id];
      var qty := TouchQuantity(c, o);
      TouchPositive(c, o);
      var o' := o.(status := if qty >= o.quantity - o.filled then FILLED else PARTIALLY_FILLED, filled := o.filled + qty);
      SamePositionsKeepAccounts(c, b, b.(orders := b.orders[id := o']));
      FillKeepsAccounts(c, b.(orders := b.orders[id := o']), o', qty, o.price.value);
    }
  }

  lemma {:induction false} TouchAllKeepsAccounts(c: Config, b: Book, ids: seq<OrderId>, e: MarketEvent)
    requires c.Valid() && Fillable(b) && Accounts(c, b)
    ensures Accounts(c, TouchAll(c, b, ids, e))
  {
    hide Accounts;
    if |ids| > 0 {
      TouchAllKeepsAccounts(c, b, ids[..|ids| - 1], e);
      TouchKeepsAccounts(c, TouchAll(c, b, ids[..|ids| - 1], e), ids[|ids| - 1], e);
    }
  }

  lemma QuotedKeepsAccounts(c: Config, b: Book, e: MarketEvent)
    requires Accounts(c, b)
    ensures Accounts(c, Quoted(b, e))
  {
    hide Accounts;
    var b1 := b.(lastSequence := b.lastSequence[e.symbol := e.sequence],
                 quotes := b.quotes[e.symbol := Quote(e.bid, e.ask, e.mark)]);
    SamePositionsKeepAccounts(c, b, b1);
    if e.fundingRate != 0.0 && e.symbol in b.positions {
      var p := b.positions[e.symbol];
      AccrueKeepsAccounts(c, b1, e.symbol, SettlementLeg(p.side, p.quantity, e.mark, e.fundingRate));
      AccrueKeepsAccounts(c, b1, e.symbol, PerBarLeg(p.side, p.quantity, e.mark, e.fundingRate));
    }
  }

  lemma ProtectKeepsAccounts(c: Config, b: Book, e: MarketEvent)
    requires Fillable(b) && Accounts(c, b)
    ensures Accounts(c, Protect(c, b, e))
  {
    hide Accounts, FillOrder;
    if e.symbol in b.positions && Breached(b.positions[e.symbol], e.mark) {
      var p := b.positions[e.symbol];
      var o := ProtectiveOrder(c, b, e);
      FillKeepsAccounts(c, b, o, p.quantity, o.price.value);
      SamePositionsKeepAccounts(c, FillOrder(c, b, o, p.quantity, o.price.value), Protect(c, b, e));
    }
  }

  lemma StepKeepsAccounts(c: Config, b: Book, a: Action)
    requires c.Valid() && Fillable(b) && Accounts(c, b)
    ensures Accounts(c, Step(c, b, a))
  {
    hide Accounts, FillOrder;
    match a
    case DoSubmit(r) => SubmitKeepsAccounts(c, b, r);
    case DoEvent(e) =>
      if Accepted(b, e) {
        var quoted := Quoted(b, e);
        QuotedKeepsAccounts(c, b, e);
        TouchAllKeepsAccounts(c, quoted, quoted.ids, e);
        ProtectKeepsAccounts(c, TouchAll(c, quoted, quoted.ids, e), e);
      }
    case DoCancel(id) => SamePositionsKeepAccounts(c, b, Cancel(b, id).book);
    case DoProtect(s, stop, target) =>
      if s in b.positions { ProtectionKeepsAccounts(c, b, s, stop, target); }
    case DoSettle(s, mark, rate) =>
      if s in b.positions {
        AccrueKeepsAccounts(c, b, s, SettlementLeg(b.positions[s].side, b.positions[s].quantity, mark, rate));
      }
    case DoClose(s, mark, id) =>
      if s in b.positions {
        var marked := FinalMark(b, s, mark);
        SamePositionsKeepAccounts(c, b, marked);
        SubmitKeepsAccounts(c, marked, ExitRequest(Some(b.positions[s]), s, id));
      } else {
        SubmitKeepsAccounts(c, b, ExitRequest(None, s, id));
      }
  }

  // ---- The laws over every run -----------------------------------------------------------------

  /** After any sequence of calls whatsoever, every account balances. */
  lemma {:induction false} AccountsHoldOnEveryRun(c: Config, actions: seq<Action>)
    requires c.Valid()
    ensures Accounts(c, Run(c, actions))
  {
    if |actions| > 0 {
      var prefix := actions[..|actions| - 1];
      AccountsHoldOnEveryRun(c, prefix);
      StepKeepsAccounts(c, Run(c, prefix), actions[|actions| - 1]);
    }
  }

  lemma AccountsOfSymbol(c: Config, b: Book, s: string)
    requires Accounts(c, b)
    ensures |b.marks| == |b.fills| && InventoryLaw(b, s) && GrossLaw(b, s) && FeeLaw(c, b, s)
  {
    hide InventoryLaw, GrossLaw, FeeLaw, SpreadLaw, SlippageLaw, FundingLaw;
    assert SymbolLaws(c, b, s);
  }

  lemma MarkBook(b: Book, s: string, price: real)
    requires |b.marks| == |b.fills| && GrossLaw(b, s) && InventoryLaw(b, s)
    ensures Closed(TradeGross(s), b.closed) + (InventoryOf(PositionAt(b, s)) * price - ReferenceOf(PositionAt(b, s)))
         == ReferenceFlow(b.fills, b.marks, s) + Total(Inventory(s), b.fills) * price
  {
    hide InventoryOf, ReferenceOf, Closed, ReferenceFlow, Total;
    assert InventoryOf(PositionAt(b, s)) * price == Total(Inventory(s), b.fills) * price;
  }

  /** Realised gross plus marking the open position to any price is the cash the fills moved plus the inventory at that price. */
  lemma MarkToMarket(c: Config, actions: seq<Action>, s: string, price: real)
    requires c.Valid()
    ensures var b := Run(c, actions);
            && |b.marks| == |b.fills|
            && var unrealised := InventoryOf(PositionAt(b, s)) * price - ReferenceOf(PositionAt(b, s));
               Closed(TradeGross(s), b.closed) + unrealised
               == ReferenceFlow(b.fills, b.marks, s) + Total(Inventory(s), b.fills) * price
  {
    hide *;
    AccountsHoldOnEveryRun(c, actions);
    AccountsOfSymbol(c, Run(c, actions), s);
    MarkBook(Run(c, actions), s, price);
  }

  // ---- When fees, spread and slippage are charged exactly once --------------------------------

  /** The i-th fill of the log overshoots the opposite inventory it meets. */
  ghost predicate Flips(fills: seq<Fill>, s: string, i: nat)
    requires i < |fills|
  {
    fills[i].symbol == s && FlipRemainder(Total(Inventory(s), fills[..i]), fills[i]) > 0.0
  }

  lemma {:induction false} SurplusFromFlips(k: Surplus, c: Config, fills: seq<Fill>, s: string)
    requires forall i :: 0 <= i < |fills| ==> !Flips(fills, s, i)
    ensures FlipSurplus(k, c, fills, s) == 0.0
  {
    if |fills| > 0 {
      var n := |fills| - 1;
      forall i | 0 <= i < n ensures !Flips(fills[..n], s, i) {
        assert fills[..n][..i] == fills[..i];
        assert !Flips(fills, s, i);
      }
      SurplusFromFlips(k, c, fills[..n], s);
      assert !Flips(fills, s, n);
    }
  }

  lemma {:induction false} FeeSurplusNonNegative(c: Config, fills: seq<Fill>, s: string)
    requires c.feeBps > 0.0 && forall f :: f in fills ==> f.price > 0.0
    ensures FlipSurplus(FeeSurplus, c, fills, s) >= 0.0
    ensures (exists i :: 0 <= i < |fills| && Flips(fills, s, i)) ==> FlipSurplus(FeeSurplus, c, fills, s) > 0.0
  {
    if |fills| > 0 {
      var n := |fills| - 1;
      FeeSurplusNonNegative(c, fills[..n], s);
      assert fills[n].price > 0.0;
      var rem := FlipRemainder(Total(Inventory(s), fills[..n]), fills[n]);
      assert rem > 0.0 ==> rem * fills[n].price * c.feeBps > 0.0;
      if i :| 0 <= i < |fills| && Flips(fills, s, i) {
        if i < n {
          assert fills[..n][..i] == fills[..i];
          assert Flips(fills[..n], s, i);
        }
      }
    }
  }

  /** Fees are conserved exactly on the runs without a flipping fill, and on no others. */
  lemma FeesConservedIffNoFlip(c: Config, actions: seq<Action>, s: string)
    requires c.Valid() && c.feeBps > 0.0
    requires forall f :: f in Run(c, actions).fills ==> f.price > 0.0
    ensures var b := Run(c, actions);
            Closed(TradeFees(s), b.closed) + FeesOf(c, PositionAt(b, s)) == Total(Fees(s), b.fills)
            <==> forall i :: 0 <= i < |b.fills| ==> !Flips(b.fills, s, i)
  {
    var b := Run(c, actions);
    AccountsHoldOnEveryRun(c, actions);
    assert SymbolLaws(c, b, s);
    FeeSurplusNonNegative(c, b.fills, s);
    if forall i :: 0 <= i < |b.fills| ==> !Flips(b.fills, s, i) {
      SurplusFromFlips(FeeSurplus, c, b.fills, s);
    }
  }
}
