/**
 The replay engine: one isolated exchange per trade, busy-until gating, and the report built from it
 (src/evaluation/baseline.py). Proved equal to a fold over the bars of the evaluation window.
*/
module ReplayEngine {
  import opened Common
  import opened FundingModel
  import opened Venue
  import opened Exchange
  import opened ReplayModel
  import opened ReplayEpisode
  import opened PaperVenue

  // ---- One trade ------------------------------------------------------------------------------

  function Digits(n: nat): string {
    var d := [['0', '1', '2', '3', '4', '5', '6', '7', '8', '9'][n % 10]];
    if n < 10 then d else Digits(n / 10) + d
  }

  function EntryId(name: string, index: nat): string { "baseline-" + name + "-" + Digits(index) }

  function ExitId(name: string, index: nat): string { "baseline-end-of-replay-" + name + "-" + Digits(index) }

  lemma IdsDiffer(name: string, index: nat)
    ensures EntryId(name, index) != ExitId(name, index)
  {
    assert |ExitId(name, index)| == |EntryId(name, index)| + |"end-of-replay-"|;
  }

  /** Submit the entry to a fresh exchange and attach its protection. */
  method OpenTrade(cfg: ReplayConfig, w: seq<Snapshot>, i: nat, e: Entry) returns (venue: FakeExchange, entered: bool)
    requires i < |w|
    ensures entered <==> Tradeable(w[i].symbol, e.quantity)
    ensures fresh(venue) && venue.Valid() && venue.config == cfg.Venue()
    ensures entered ==> venue.View() == Holding(cfg, w, EntryId(e.name, i), i, i, e)
  {
    hide MakeFill, FillOrder, ExecutionPrice, Holding, Submit, EntryOrder, ValidateOrder;
    var id := EntryId(e.name, i);
    EntryFillsIffTradeable(cfg, id, w[i], e);
    venue := new FakeExchange(cfg.Venue());
    venue.quotes := venue.quotes[w[i].symbol := w[i].AsQuote()];
    assert venue.View() == Primed(w[i]);
    var order := venue.SubmitOrder(EntryRequest(id, w[i], e));
    entered := order.Ok? && order.value.filled != 0.0;
    if entered {
      EntryOpensHolding(cfg, w, id, i, e);
      var attached := venue.AttachProtection(w[i].symbol, Some(e.stop), Some(e.target));
    }
  }

  /** Where a ride stands after bar j: still holding, or finished by the first bar that hit. */
  ghost predicate RideState(cfg: ReplayConfig, w: seq<Snapshot>, end: nat, i: nat, j: nat, e: Entry, b: Book)
    requires i <= j <= end < |w|
  {
    if w[i].symbol in b.positions then
      && b == Holding(cfg, w, EntryId(e.name, i), i, j, e)
      && (forall k :: i < k <= j ==> !Hit(e, w[k].mark))
    else
      && j > i && Hit(e, w[j].mark) && ExitIndex(w, end, i, e) == j
      && Finished(b, w[i].symbol, TradeAt(cfg, w, end, i, e))
  }

  /** One bar of a ride. */
  lemma RideAdvances(cfg: ReplayConfig, w: seq<Snapshot>, end: nat, i: nat, j: nat, e: Entry, b: Book)
    requires i < j <= end < |w| && OneSymbol(w) && e.quantity > 0.0 && cfg.Venue().Valid()
    requires w[i].symbol in b.positions && RideState(cfg, w, end, i, j - 1, e, b) && Fillable(b)
    ensures RideState(cfg, w, end, i, j, e, ApplyEvent(cfg.Venue(), b, EventAt(cfg, w[j], j)))
  {
    hide ApplyEvent, TradeAt, Holding;
    var id := EntryId(e.name, i);
    HoldingIsFillable(cfg, w, id, i, j - 1, e);
    HoldingIsFillable(cfg, w, id, i, j, e);
    EventAdvancesHolding(cfg, w, id, i, j, e);
    HoldsSymbol(cfg, w, id, i, j, e);
    if Hit(e, w[j].mark) {
      FirstHitIsExit(w, end, i, j, e);
      ProtectiveExitFinishes(cfg, w, end, id, i, e);
    }
  }

  /** Feed the later bars until the position is gone or the window ends. */
  method RideTrade(cfg: ReplayConfig, w: seq<Snapshot>, end: nat, i: nat, e: Entry, venue: FakeExchange) returns (closeIndex: nat)
    requires i <= end < |w| && OneSymbol(w) && e.quantity > 0.0
    requires venue.Valid() && venue.config == cfg.Venue()
    requires venue.View() == Holding(cfg, w, EntryId(e.name, i), i, i, e)
    modifies venue
    ensures venue.Valid() && i <= closeIndex <= end && RideState(cfg, w, end, i, closeIndex, e, venue.View())
    ensures w[i].symbol in venue.positions ==> closeIndex == end
  {
    hide ApplyEvent, Holding, TradeAt, RideState, Fillable;
    assert RideState(cfg, w, end, i, i, e, venue.View()) by { RideStarts(cfg, w, end, i, e); }
    var j := i + 1;
    while j <= end && w[i].symbol in venue.positions
      invariant i < j <= end + 1 && venue.Valid()
      invariant RideState(cfg, w, end, i, j - 1, e, venue.View())
    {
      RideAdvances(cfg, w, end, i, j, e, venue.View());
      var log := venue.ApplyMarketEvent(EventAt(cfg, w[j], j));
      j := j + 1;
    }
    closeIndex := j - 1;
  }

  lemma RideStarts(cfg: ReplayConfig, w: seq<Snapshot>, end: nat, i: nat, e: Entry)
    requires i <= end < |w|
    ensures RideState(cfg, w, end, i, i, e, Holding(cfg, w, EntryId(e.name, i), i, i, e))
  {
    HoldsSymbol(cfg, w, EntryId(e.name, i), i, i, e);
  }

  /** Replay one entry on a fresh exchange. The trade it reports, read off that exchange, is the closed form. */
  method ReplayTrade(cfg: ReplayConfig, w: seq<Snapshot>, end: nat, i: nat, e: Entry) returns (trade: Option<Trade>)
    requires i <= end < |w| && OneSymbol(w)
    ensures trade.Some? <==> Tradeable(w[i].symbol, e.quantity)
    ensures trade.Some? ==> trade.value == TradeAt(cfg, w, end, i, e)
  {
    hide Holding, TradeAt, CloseAtEnd, Fillable;
    var venue, entered := OpenTrade(cfg, w, i, e);
    if !entered {
      return None;
    }
    var symbol := w[i].symbol;
    var closeIndex := RideTrade(cfg, w, end, i, e, venue);
    var endOfReplay := symbol in venue.positions;
    if endOfReplay {
      NoHitExitsLast(w, end, i, e);
      IdsDiffer(e.name, i);
      EndOfReplayAlwaysFlattens(cfg, w, end, EntryId(e.name, i), ExitId(e.name, i), i, e);
      var close := venue.ClosePositionAtEndOfReplay(symbol, w[end].mark, ExitId(e.name, i));
      assert close.Ok? && close.value.filled != 0.0 && symbol !in venue.positions;
    }
    assert Finished(venue.View(), symbol, TradeAt(cfg, w, end, i, e));
    var t := venue.closedTrades[|venue.closedTrades| - 1];
    var funding := venue.fundingPaid - venue.fundingReceived;
    trade := Some(Trade(e.name, i, closeIndex, endOfReplay, t.gross, t.entryFee + t.exitFee,
                        t.spreadCost, t.slippageCost, funding, e.quantity * w[i].mark, w[i]));
    TradeIdentity(cfg, w, end, i, e);
  }

  lemma HoldsSymbol(cfg: ReplayConfig, w: seq<Snapshot>, id: string, i: nat, j: nat, e: Entry)
    requires i <= j < |w|
    ensures w[i].symbol in Holding(cfg, w, id, i, j, e).positions
  {
  }

  lemma FirstHitIsExit(w: seq<Snapshot>, end: nat, i: nat, j: nat, e: Entry)
    requires i < j <= end < |w| && Hit(e, w[j].mark) && forall k :: i < k < j ==> !Hit(e, w[k].mark)
    ensures ExitIndex(w, end, i, e) == j
  {
  }

  lemma NoHitExitsLast(w: seq<Snapshot>, end: nat, i: nat, e: Entry)
    requires i <= end < |w| && forall k :: i < k <= end ==> !Hit(e, w[k].mark)
    ensures ExitIndex(w, end, i, e) == end
  {
  }
}
