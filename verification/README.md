# Deterministic paper trading, verified

This project models the part of the system that must be right for its reports to mean anything: the
paper exchange, the replay engine built on it, the runtime and ledger that drive it live, the monitors and
scheduler around them, and the statistical gates that judge the results. It proves what these parts promise
about every input and every run.

How it is laid out. Each source object that is updated in place is a class here (`FakeExchange`,
`EventLedger`, `BreakerRegistry`, `HeartbeatMonitor`, `ResourceMonitor`, `MonitorWatchdog`, `PaperScheduler`,
`AutonomousPaperRuntime`, `CanonicalOfflineRuntime`), and each of its methods is proved to change the state
exactly as a value-level step function says. Those step functions are then composed into runs of any length, and
the laws are proved about the runs. Source loops stay loops, proved against closed forms or declarative
specifications.

| file | part |
|---|---|
| `Common`, `Venue`, `Sorting` | shared vocabulary, venue rules, stable sort orders |
| `FundingModel` | the eight-hour funding calendar and position funding |
| `Exchange`, `FakeExchange` | the paper exchange: value-level steps, and the class that refines them |
| `ExchangeLaws`, `ExchangeCash`, `ExchangeOrders`, `ExchangeFunding` | conservation, profit against money, order life cycle, funding and reduce-only laws |
| `ExchangeAnswers` | what the exchange answers, told from the quotes, terms and history a caller sees |
| `ExchangeWitnesses` | concrete runs on which the exchange's reports and its money part company |
| `ReplayModel`, `ReplayEpisode`, `ReplayEngine`, `ReplayReport`, `ReplayLaws` | one replayed trade, the engine, its report and laws |
| `ReplayFunding`, `ReplayAnswers` | what a trade is billed in funding, what a report adds up, and which bars a strategy enters |
| `StressGate`, `WalkForward`, `Windows` | cost stress as greedy selection, walk-forward replay, window geometry |
| `Holm`, `Cscv` | multiple testing, ranking and probability of overfitting |
| `History`, `Sizing` | candle pagination, risk sizing |
| `Breakers`, `Watchdog` | breakers, heartbeat and resource monitors, and the watchdog under every interleaving |
| `Scheduler`, `SchedulerAnswers` | the bounded scheduler under every interleaving, and what it answers in terms of its history |
| `Ledger`, `LedgerReplay`, `LedgerLaws`, `LedgerState` | event ledger, one-pass replay, how far they agree, and what a replayed state says about its log |
| `RuntimeModel`, `PaperRuntime` | one runtime cycle as a step, and the classes that refine it |
| `RuntimeLaws`, `RuntimeEndings`, `RuntimeInventory`, `RuntimeExposure` | what every run of the runtime keeps |
| `RuntimeAnswers` | when a cycle reaches sizing, what its status says, the limits of an entry, and the log against the exchange |
| `RuntimeWitnesses` | concrete runs that break the exposure cap and that leave a cycle without an end |

Conventions. Money and quantities are exact reals. The exchange's `1e-12` dust tests are exact-zero tests; the
other tolerances (`1e-9`, and `1e-12` in the sizing floor and the replayed positions) are kept as written. Errors the
source raises are `Err` results that leave the state as the source leaves it. Client order ids and the ids minted for
protective exits are different constructors, so they never collide.

Where the code does less than its comments or names suggest, the model follows the code, a concrete input shows the
difference, and the exact condition is proved:

- A fill that flips a position is charged in full to the closed trade and again to the new position
  (`ExchangeWitnesses.FlipChargesFeesTwice`). Fees are conserved exactly on the runs without a flip
  (`ExchangeLaws.FeesConservedIffNoFlip`); the surplus is part of each law.
- Spread and slippage are booked as distances, so a touch better than the mark, or a price better than the touch, is charged as if it were a cost
  (`ExchangeWitnesses.FavourableTouchCostsProfit`). Reported profit is the money less exactly that overcharge and the
  flips' double charge, on every run (`ExchangeCash.NetIsMoneyLessCharges`); with positive prices and fee rate it equals
  the money exactly when no fill flipped and none was favoured (`ExchangeCash.NetIsMoneyIff`).
- A resting reduce-only order is not re-checked when it fills: it reduces exactly when it still can
  (`ExchangeFunding.ReduceOnlyEventHoldsIff`), and a four-call run opens a short with one.
- The comment at `src/execution/fake_exchange.py:251-259` calls the per-bar funding proxy an over-estimate. One proxy
  charge is exactly one settlement (`FundingModel.PerBarChargesOneSettlement`); it over-charges only by being applied more often.
- Dearer costs can add trades: removing an early entry frees the strategy for two later ones, and the run-time assertion of
  the combined stress fires (`StressGate.StressCanAddTrades`). Whichever passing bars a change of costs may remove, no
  trade can be gained exactly when every strategy already takes as many bars as any selection of them could
  (`StressGate.ThinningNeverAddsIff`, `StressGate.ReplayNeverGainsIff`); that number is computed from the cheaper replay alone.
- The heartbeat beats before breakers are checked, so a trip raised by the monitor never parks the next cycle, and the
  monitor's own-trip flag outlives an operator's clear (`Watchdog.CycleKeepsTripIff`, `Watchdog.OperatorTripCanBeUndone`).
- The scheduler loses a queued snapshot whose symbol is in flight, because putting it back is refused
  (`Scheduler.DropsIffSymbolInFlight`, `Scheduler.TwoWorkersCanDrop`); a single worker never loses one.
- A claimed cycle can raise and is then never retried; exactly when is `RuntimeEndings.RaisesIff`, and
  `RuntimeWitnesses.FlatteningEntryRaises` is a run in which selling what is held does.
- One-pass replay and the ledger's funding query can differ (`LedgerLaws.FundingFiguresCanDiffer`), exactly when
  `LedgerLaws.FundingAgreesIff` says; and `replay_state` without a run id compares a run-scoped query with a replay of all
  runs (`LedgerLaws.StateScopesAgreeIff`, `LedgerLaws.ScopesCanSplitFees`).
- `place_order` ignores its price and fills at market, so an entry sized under the portfolio cap can exceed it
  (`RuntimeWitnesses.OneEntryBreaksCap`). What every step does to gross exposure is known before it is taken, and a run
  stays within a limit exactly when no step is foretold to pass it (`RuntimeExposure.GrossWithinIff`).

## Model

| member | source | states |
|---|---|---|
| `Venue.AcceptedSizes` | src/execution/specifications.py:33-40 | at given terms the accepted sizes are exactly the step multiples from a least one upwards, which the minimum quantity and notional fix in advance; at refused terms there are none |
| `FundingModel.PerBarChargesOneSettlement` | src/execution/fake_exchange.py:251-271 | the per-bar proxy charges a position exactly what one settlement at the same mark and rate would |
| `FundingModel.SettlementTimestampsInRange` | src/evaluation/funding_model.py:46-61 | the loop returns the calendar between the two eight-hour indices, for any start and end including negative ones |
| `FundingModel.CalendarIsTheSettlements` | src/evaluation/funding_model.py:41-61 | that calendar is, in order and without repeats, exactly the settlement times in (start, end], with count end div 8h less start div 8h |
| `FundingModel.ComputePositionFunding` | src/evaluation/funding_model.py:64-102 | the net equals the signed notional sum over the calendar and the paid less received of its own legs, one leg per settlement in order |
| `FundingModel.ReconcileFundingLegs` | src/evaluation/funding_model.py:105-111 | the reconciled net is all paid less all received |
| `FundingModel.FundingSplitsAtAnyCut` | src/evaluation/funding_model.py:64-102 | position funding is additive at every instant in between: closing and reopening costs nothing |
| `FundingModel.FundingNegatesWithSide` | src/evaluation/funding_model.py:92-98 | swapping the side negates the funding of any set of settlements |
| `ExchangeLaws.RebookInventory` | src/execution/fake_exchange.py:157-197 | opening, adding, reducing, closing or flipping, one fill moves the signed position by exactly its signed quantity |
| `Exchange.AdmitMarket` | src/execution/fake_exchange.py:119-137 | a market order is filled at the market price or rejected, and only a positive size in a named symbol is filled |
| `Exchange.TouchPositive` | src/execution/fake_exchange.py:277-278 | a touch executes a positive part of what remains and never more |
| `Exchange.StepKeepsFillable` | src/execution/fake_exchange.py:114-296 | every public call keeps positions positive and resting orders with something left at a known limit |
| `PaperVenue.FakeExchange.constructor` | src/execution/fake_exchange.py:91-106 | a new exchange is empty and valid |
| `PaperVenue.FakeExchange.PriceOf` | src/execution/fake_exchange.py:108-112 | the market price is the touch on the order's side worsened by the slippage allowance, 100 when no quote is known |
| `PaperVenue.FakeExchange.Decide` | src/execution/fake_exchange.py:119-135 | the verdict on a new order agrees with the admission rule in every case: venue rule, reduce-only, resting, expiring, crossing, market |
| `PaperVenue.FakeExchange.SubmitOrder` | src/execution/fake_exchange.py:114-137 | the whole exchange after a submission is the specified one; resubmitting a known id changes nothing |
| `PaperVenue.FakeExchange.PlaceOrder` | src/execution/fake_exchange.py:139-145 | the facade books a market order whatever price it is given and returns the last fill under the id, or raises after recording the rejection |
| `PaperVenue.FakeExchange.ReadFills` | src/execution/fake_exchange.py:207 | the fills of one order, or all, in booking order |
| `PaperVenue.FillsOfSumToOrder` | src/execution/fake_exchange.py:207 | the fills read for an order account for all it ever filled and are all its own |
| `PaperVenue.FakeExchange.Execute` | src/execution/fake_exchange.py:147-155 | booking a fill changes fills, position and closed trades as specified and nothing else |
| `PaperVenue.FakeExchange.BookPosition` | src/execution/fake_exchange.py:157-197 | the in-place position update equals the specified open, add, reduce, close or flip |
| `PaperVenue.FakeExchange.CancelOrder` | src/execution/fake_exchange.py:199-204 | only a resting order is cancelled; an unknown id raises; nothing else changes |
| `PaperVenue.FakeExchange.AttachProtection` | src/execution/fake_exchange.py:212-214 | stop and target are set on an open position; a missing position raises and changes nothing |
| `PaperVenue.FakeExchange.ApplyFundingSettlement` | src/execution/fake_exchange.py:216-232 | one settlement moves the exchange totals and the position by the same leg |
| `PaperVenue.FakeExchange.ClosePositionAtEndOfReplay` | src/execution/fake_exchange.py:234-243 | the final close marks the symbol and submits a reduce-only market order for the whole position |
| `PaperVenue.FakeExchange.ApplyMarketEvent` | src/execution/fake_exchange.py:245-296 | an event changes the exchange as specified (stale sequences not at all) and its log names each new fill in order |
| `PaperVenue.FakeExchange.GrossEntryNotional` | src/runtime/paper_runtime.py:110 | the loop adds up the entry notional of every open position exactly once |
| `ExchangeLaws.AccountsHoldOnEveryRun` | src/execution/fake_exchange.py:147-271 | after any calls, per symbol: position is the signed sum of fills; realised gross is the cash flow at marks plus open reference value; fees, spread and slippage of trades plus position equal the fills' totals plus the flips' exact surplus; and funding of trades plus positions is all paid less received |
| `ExchangeLaws.MarkToMarket` | src/execution/fake_exchange.py:161-163 | at any price and after any run, realised gross plus unrealised profit is the fills' reference cash flow plus the inventory at that price |
| `ExchangeLaws.FeesConservedIffNoFlip` | src/execution/fake_exchange.py:164-172 | with positive prices and fee rate, trade fees plus open fees equal fill fees exactly on the runs where no fill overshoots the opposite position |
| `ExchangeLaws.SurplusFromFlips` | src/execution/fake_exchange.py:170-197 | a log without flips has no fee, spread or slippage surplus |
| `ExchangeLaws.RebookGross` | src/execution/fake_exchange.py:161-163 | one fill moves realised gross and open reference value by exactly its signed value at the mark, partial, full or flipping |
| `ExchangeLaws.RebookFees` | src/execution/fake_exchange.py:164-197 | one fill moves charged and pending fees by its own fee plus the fee on the part that flips |
| `ExchangeLaws.RebookSpread` | src/execution/fake_exchange.py:166-197 | pro-rata spread shares add up, and a flip adds the fill's spread once more |
| `ExchangeLaws.RebookSlippage` | src/execution/fake_exchange.py:166-197 | pro-rata slippage shares add up, and a flip adds the fill's slippage once more |
| `ExchangeLaws.RebookFunding` | src/execution/fake_exchange.py:166-179 | a close takes its share of accrued funding and leaves the rest: none is lost or made |
| `ExchangeCash.MarketPaysTouchIff` | src/execution/fake_exchange.py:108-112 | slippage is against a market order exactly when the touch and the allowance have the same sign |
| `ExchangeCash.FillIsPriced` | src/execution/fake_exchange.py:147-153 | at any quote, the spread and slippage booked on a fill are what it paid beyond the mark plus twice what it gained at the touch and against it |
| `ExchangeCash.BookedOnEveryRun` | src/execution/fake_exchange.py:147-172 | on every run every fill is priced that way and every trade's net is its gross less its five costs |
| `ExchangeCash.NetIsMoneyLessCharges` | src/execution/fake_exchange.py:147-197 | on every run, whenever a symbol is flat, the reported net profit of its trades is the cash moved at executed prices less fees and funding, less exactly what flips charge twice and favourable fills are overcharged |
| `ExchangeCash.NetIsMoneyIffNoneFavoured` | src/execution/fake_exchange.py:147-197 | apart from the flips' double charge, the reported net profit is the money exactly when no fill in the symbol had a touch better than its mark or a price better than its touch |
| `ExchangeCash.NetIsMoneyIff` | src/execution/fake_exchange.py:147-197 | with positive prices and fee rate, the reported net profit of a flat symbol is the money exactly when no fill in it flipped and none was favoured that way |
| `ExchangeWitnesses.FlipChargesFeesTwice` | src/execution/fake_exchange.py:164-197 | buying two and selling four reports more fees than were charged |
| `ExchangeWitnesses.FavourableTouchCostsProfit` | src/execution/fake_exchange.py:147-153 | a run bought at an ask below its mark, flat at the end, whose reported profit is not the money |
| `ExchangeOrders.LifecycleHoldsOnEveryRun` | src/execution/fake_exchange.py:114-296 | on every run each order's filled quantity is the sum of its fills, lies in [0, quantity] and matches its status; ids are unique and protective ids stay behind the last sequence |
| `ExchangeOrders.OrderAfterEvent` | src/execution/fake_exchange.py:272-281 | an accepted event touches each resting order of its symbol once, whatever the order of the loop |
| `ExchangeOrders.OrderAfterStep` | src/execution/fake_exchange.py:114-296 | a call changes an existing order only by touching it or cancelling it while it rests |
| `ExchangeOrders.TerminalIsForever` | src/execution/fake_exchange.py:199-204 | a filled, cancelled, rejected or expired order is never changed by any later run |
| `ExchangeOrders.TwoCrossingsComplete` | src/execution/fake_exchange.py:272-281 | a resting order never cancelled is complete once two accepted events have reached its limit: an ask at or below a buy's, a bid at or above a sell's |
| `ExchangeOrders.SurvivorsAreInsideProtection` | src/execution/fake_exchange.py:282-295 | after an accepted event a surviving position's mark is strictly inside its stop and target |
| `ExchangeOrders.ProtectFlattens` | src/execution/fake_exchange.py:282-295 | a breached position is closed in full |
| `ExchangeAnswers.SubmissionOutcome` | src/execution/fake_exchange.py:114-137 | what a new order becomes, in every case, from its size, terms and the last quote: rejected with which reason, resting, expired, or filled at which price |
| `ExchangeAnswers.AdmissionRecord` | src/execution/fake_exchange.py:119-135 | what a new order's record says: its request, how much is filled, its reason, and that a barred reduce-only order loses its close mark |
| `ExchangeAnswers.CloseWithoutPosition` | src/execution/fake_exchange.py:236-238 | closing where nothing is open leaves a rejected buy of zero and moves no quote |
| `ExchangeAnswers.ReduceOnlyReducesIff` | src/execution/fake_exchange.py:122-126 | a new reduce-only market order of a size the venue takes lowers exposure by exactly its quantity precisely when an opposite position at least that large is open; otherwise it books no fill and moves no position |
| `ExchangeAnswers.ResubmissionOutcome` | src/execution/fake_exchange.py:115-116 | a known id gets its first answer back and changes nothing |
| `ExchangeAnswers.RestsIff` | src/execution/fake_exchange.py:272-281 | an accepted event leaves a resting order of its symbol alone exactly when the ask is above a buy's limit or the bid below a sell's; otherwise it fills the configured part at its first touch and the rest at the second |
| `ExchangeAnswers.LimitsHoldOnEveryRun` | src/execution/fake_exchange.py:130-137 | on every run each fill of an order placed with a limit is at that limit, and the touch it met was no worse than the limit |
| `ExchangeAnswers.EventCountsIffNewest` | src/execution/fake_exchange.py:246-249 | on every run an event is taken exactly when its sequence exceeds that of every earlier event of its symbol; a refused one changes nothing |
| `ExchangeAnswers.SurvivesIffInside` | src/execution/fake_exchange.py:282-295 | with nothing to touch, a position outlives an accepted event exactly when the mark is strictly inside the levels it has |
| `ExchangeAnswers.ExitRecord` | src/execution/fake_exchange.py:288-295 | otherwise the exit is a filled market order under the event's own id, for all of the position, at the slipped touch of the event |
| `ExchangeFunding.ExchangeAccruesModelFunding` | src/execution/fake_exchange.py:250-261 | fed one event per settlement and nothing else, the exchange accrues exactly the model's funding, in an untouched position and in its totals |
| `ExchangeFunding.PositionAccruesModelFunding` | src/execution/fake_exchange.py:245-271 | whatever other symbols' events, stale events and events without a rate come in between, a position no fill touches accrues exactly the model's funding for the settlements fed |
| `ExchangeFunding.EventOnlyIn` | src/execution/fake_exchange.py:245-296 | an event fills, moves and sequences nothing outside its symbol |
| `ExchangeFunding.HoldingPeriodBill` | src/evaluation/funding_model.py:64-102 | over a holding period that bill is `position_funding` of the same entry and exit |
| `ExchangeFunding.FillShrinksIffOnlyReduces` | src/execution/fake_exchange.py:157-197 | a fill lowers exposure by its whole quantity exactly when it opposes a position at least as large |
| `ExchangeFunding.ReduceOnlyHoldsAtOnce` | src/execution/fake_exchange.py:123-126 | a reduce-only order that fills on submission reduces exposure by all it fills |
| `ExchangeFunding.RestingReduceOnlyHoldsIff` | src/execution/fake_exchange.py:273-281 | at the touch, a resting reduce-only order reduces exposure exactly when the opposite position is still large enough |
| `ExchangeFunding.ReduceOnlyEventHoldsIff` | src/execution/fake_exchange.py:245-296 | the same judged before the event, for one that reaches a single order and no protective level |
| `ExchangeFunding.RestingReduceOnlyCanOpenAShort` | src/execution/fake_exchange.py:273-281 | a concrete run in which a filled reduce-only order leaves a short position |
| `ExchangeFunding.CloseFlattensIff` | src/execution/fake_exchange.py:234-243 | the final close flattens exactly when the id is new and the venue takes the size |
| `ExchangeFunding.CloseTradesWholePosition` | src/execution/fake_exchange.py:234-243 | a flattening close records one trade with the whole position's gross at the final mark and all its funding |
| `ReplayModel.EffectiveQuantity` | src/evaluation/baseline.py:62-82 | the size is the configured quantity or exactly spends the notional cap at the mark, and exceeds neither |
| `ReplayModel.FloorToStep` | src/evaluation/baseline.py:85-99 | flooring yields a step multiple not above the quantity and less than one step below it |
| `ReplayModel.OrderStaysUnderCap` | src/evaluation/baseline.py:183-193 | the submitted size respects both caps, is a venue multiple and misses the allowed size by less than a step |
| `ReplayModel.ExitIndex` | src/evaluation/baseline.py:207-214 | the exit bar is the first later bar whose mark reaches stop or target, else the last bar of the window |
| `ReplayEpisode.EntryFillsIffTradeable` | src/evaluation/baseline.py:200-203 | an entry fills, in full, exactly when the venue takes its size |
| `ReplayEpisode.EventAdvancesHolding` | src/evaluation/baseline.py:208-213 | each later bar either triggers the protection or just accrues that bar's funding |
| `ReplayEpisode.ProtectiveExitFinishes` | src/execution/fake_exchange.py:282-295 | the protective exit leaves one closed trade equal to the closed form, flat, with totals equal to its funding |
| `ReplayEpisode.EndOfReplayAlwaysFlattens` | src/evaluation/baseline.py:215-221 | a position still open at the end is always flattened: the close error is unreachable |
| `ReplayEngine.OpenTrade` | src/evaluation/baseline.py:190-206 | a fresh exchange is entered and protected exactly when the size is tradeable |
| `ReplayEngine.RideTrade` | src/evaluation/baseline.py:207-213 | the bar loop stops at the first hit or the last bar, in the state the closed form predicts |
| `ReplayEngine.ReplayTrade` | src/evaluation/baseline.py:190-233 | the trade read off the exchange is the closed form: exit bar, prices, costs, funding and net |
| `ReplayReport.CandlesOrdered` | src/evaluation/baseline.py:144-151 | true exactly when every candle series is in time order |
| `ReplayReport.ValidateReplaySnapshots` | src/evaluation/baseline.py:129-153 | no error exactly when hashes match, one symbol runs through, and bars and candles are in time order |
| `ReplayReport.VisitStrategy` | src/evaluation/baseline.py:187-236 | one strategy at one bar updates every running total as the fold over visits says |
| `ReplayReport.RunBaseline` | src/evaluation/baseline.py:155-250 | walking the whole history, it succeeds exactly on trusted data, a coverage multiple of at least one and a window inside the history, with the report the specified fold over bars yields |
| `ReplayLaws.TotalsAgree` | src/evaluation/baseline.py:231-250 | net profit, the sum of trade profits, of strategy rows and of regime rows are one number; closed trades equal protections attached; orders are closed trades plus final closes |
| `ReplayLaws.RowsPartitionNet` | src/evaluation/baseline.py:234-236 | grouping trades by any key with a known range loses no profit |
| `ReplayLaws.HoldingsAreDisjoint` | src/evaluation/baseline.py:188-214 | each strategy's holding intervals are disjoint and inside the window |
| `ReplayLaws.TradeSeesWindow` | src/evaluation/baseline.py:207-216 | a trade entered inside a window is the same in any two histories that agree on it: exit bar, prices, costs, funding and net |
| `ReplayLaws.BarsSeeWindow` | src/evaluation/baseline.py:179-236 | bar by bar, the walks over two such histories make the same progress |
| `ReplayLaws.NoBarOutsideMatters` | src/evaluation/baseline.py:179-250 | histories of any lengths that agree inside the window replay to the same report although every bar is walked, up to the snapshot count the report quotes |
| `ReplayFunding.TradeIsBilled` | src/evaluation/baseline.py:207-228 | a trade's funding is the model's net funding over the later bars it was held, at their marks and the recorded rates, or the configured basis points in the recorded direction |
| `ReplayFunding.LongsPayPositiveRates` | src/evaluation/baseline.py:207-210 | with positive marks and no negative recorded rate a long never receives funding, and pays as soon as one later rate is positive and billed |
| `ReplayFunding.MirroredFunding` | src/evaluation/baseline.py:207-210 | the other side of a trade leaves at the same bar with the opposite funding |
| `ReplayFunding.NegatedRatesNegateFunding` | src/evaluation/baseline.py:118-123 | negating every recorded rate negates a trade's funding |
| `ReplayAnswers.ReportAddsUp` | src/evaluation/baseline.py:222-250 | every column of the totals, of each strategy and of each regime is that column summed over the trades it covers; counts, profits in order, average notional, visited bars and the reason follow from the trades |
| `ReplayAnswers.EntersIff` | src/evaluation/baseline.py:187-214 | a strategy enters a bar of the window exactly when none of its trades still runs there, its first proposal covers its cost, and the venue takes the size; the trade is the proposal's, and the skipped count is the number of free visits whose proposal was too thin |
| `ReplayAnswers.TradeableIff` | src/evaluation/baseline.py:190-203 | the replay's venue takes whole thousandths of a contract from one hundredth upwards, in any named symbol |
| `ReplayAnswers.ValidIffTrusted` | src/evaluation/baseline.py:129-153 | the bar-by-bar check accepts exactly the histories whose hashes match, that name one symbol, and whose bars and candles are sorted in time |
| `StressGate.FewerCandidatesFewerTrades` | src/evaluation/baseline.py:188-214 | greedy selection over fewer bars takes no more trades when a later entry never exits before an earlier one |
| `StressGate.GreedyAtMostBest` | src/evaluation/baseline.py:188-214 | the busy-until selection over any subset of bars takes at most the best number computed for all of them |
| `StressGate.ThinningNeverAddsIff` | src/evaluation/stress.py:69-72 | removing candidate bars can never add a trade, whichever are removed, exactly when the selection already takes that best number |
| `StressGate.OrderedExitsSaturate` | src/evaluation/baseline.py:188-214 | exits in entry order are one way to be in that position |
| `StressGate.ReplayIsGreedy` | src/evaluation/baseline.py:187-222 | a replay's closed trades are the greedy picks of each strategy over its passing bars and their exits |
| `StressGate.DearerCostsPassFewer` | src/strategies/base.py:37-45 | raising fee, funding or slippage only removes bars from those that pass the cost gate |
| `StressGate.PassesIff` | src/strategies/base.py:37-46 | a bar passes exactly when the move beats, and covers, twice the fee plus funding, slippage and quoted spread, all of the entry price, and the size is accepted |
| `StressGate.ExitIgnoresSize` | src/execution/fake_exchange.py:282-288 | the exit bar of an entry depends on its levels and the marks, not on size or cost |
| `StressGate.ReplayNeverGainsIff` | src/evaluation/stress.py:63-72 | no thinning of what the strategies may enter closes more trades than a replay does, exactly when every strategy's selection is a best one |
| `StressGate.DearerCostsNeverAddTrades` | src/evaluation/stress.py:65-72 | under that condition, dearer costs never yield more closed trades |
| `StressGate.RunCombinedStress` | src/evaluation/stress.py:54-87 | both replays are made, the second with fee, funding and slippage each times its own multiplier; the assertion between them fails exactly when the dearer one closes more trades, and cannot fail when every selection at the cheaper costs is a best one |
| `StressGate.StressCanAddTrades` | src/evaluation/stress.py:69-72 | a concrete four-bar history on which dearer costs add a trade |
| `Windows.FitsIffCounted` | src/evaluation/walk_forward_coverage.py:68-70 | the k-th window fits exactly when k is below (n - cut) div (window + embargo) |
| `Windows.WindowsAreEmbargoed` | src/evaluation/baseline.py:267-291 | any two windows are inside the data, disjoint and at least the embargo apart |
| `Windows.CountWindows` | src/evaluation/walk_forward_coverage.py:62-71 | the counting loop returns the closed form, zero for unusable inputs |
| `Windows.RecommendTestWindow` | src/evaluation/walk_forward_coverage.py:74-89 | the search loop returns max(1, (n - cut) div m - embargo), or zero when no bar is available |
| `Windows.RecommendationIsMaximal` | src/evaluation/walk_forward_coverage.py:74-89 | no longer window reaches the wanted number of windows |
| `Windows.WindowPlanFromDataset` | src/evaluation/walk_forward_quality.py:77-114 | the plan holds the closed-form windows with their timestamps, the first an embargo behind the training share, and errs exactly on bad geometry or no complete window |
| `Windows.WindowBounds` | src/evaluation/regime_attribution.py:34-50 | the same windows from the same first start, each with the floor of the average of its bounds |
| `Windows.WalkForwardWindows` | src/evaluation/orderflow_evaluation.py:40-52 | the same windows once more, as the funding-basis evaluation repeats them word for word |
| `Windows.EvaluatePurged` | src/evaluation/orderflow_evaluation.py:55-129 | the labels are, window by window, those the closed form lists, none entering before the embargo behind the training share, with a division error exactly when an entry price is zero |
| `Windows.LabelCount` | src/evaluation/orderflow_evaluation.py:109-116 | every window emits max(0, window - period) labels |
| `Windows.LabelsArePurged` | src/evaluation/orderflow_evaluation.py:109-127 | every label enters and exits inside its own window a period apart, and records the return between its two closes and their times |
| `Windows.StartsFollowTraining` | src/evaluation/baseline.py:267-270 | the first window starts an embargo behind the training share of the bars, rounded down and at least one, and no other starts earlier |
| `Windows.LabelsFollowTraining` | src/evaluation/orderflow_evaluation.py:42-46 | no label enters before the embargo behind the training share has passed |
| `WalkForward.RunWalkForward` | src/evaluation/baseline.py:253-294 | one row per closed-form window, each the replay of the whole history over it, the first an embargo behind the training share of the bars (rounded down, at least one) and none earlier; it errs exactly on bad geometry, untrusted data, a low coverage multiple or no complete window |
| `WalkForward.RowsSeeOnlyTheirWindow` | src/evaluation/baseline.py:271-291 | rows walked over histories of any lengths that agree on their window are equal, up to the snapshot count |
| `WalkForward.RowsBeforeAChangeStand` | src/evaluation/baseline.py:271-291 | changing a history from some bar on changes no row of a window that ends before it: no look-ahead |
| `Holm.HolmStepdown` | src/evaluation/walk_forward_strength.py:61-84 | hypothesis i is rejected exactly when every set containing it has a member at most alpha over the set's size, and the count is the number rejected |
| `Holm.TieOrderIsIrrelevant` | src/evaluation/walk_forward_strength.py:75-83 | any two sort orders of the p-values give the same mask |
| `Holm.BonferroniIsContained` | src/evaluation/walk_forward_strength.py:61-84 | every Bonferroni rejection is rejected |
| `Holm.LowerPValuesKeepRejections` | src/evaluation/walk_forward_strength.py:61-84 | lowering p-values never loses a rejection |
| `Cscv.RankDesc` | src/evaluation/cscv.py:28-41 | each rank is 1 + number greater + (number equal - 1)/2, and the ranks add up to n(n+1)/2 |
| `Cscv.GroupRank` | src/evaluation/cscv.py:33-40 | the average position of a tie group is the counting formula of its members |
| `Cscv.RankOrder` | src/evaluation/cscv.py:28-41 | a better value has the better rank, and equal values share one |
| `Cscv.SplitOverfits` | src/evaluation/cscv.py:99-111 | through the rank loop, a split counts exactly when the first train-best strategy's out-of-sample place, one plus the number strictly above it, is past half the field |
| `Cscv.CombinationsAreChoices` | src/evaluation/cscv.py:86-88 | the split enumeration yields exactly the ascending choices of its size |
| `Cscv.CombinationsDiffer` | src/evaluation/cscv.py:86-88 | and yields each of them once |
| `Cscv.ChosenAreValid` | src/evaluation/cscv.py:86-93 | every evaluated split is half of the blocks, and their number is all of them or the limit when that is smaller |
| `Cscv.CscvPbo` | src/evaluation/cscv.py:59-136 | errs exactly on the listed malformed matrices; otherwise the probability is the share of the splits that overfit, all of them unless a limit of at least one is below their number, and then that many drawn ones, in [0, 1]; the risk is high exactly from half of the splits on and low exactly below two in five |
| `Cscv.OverfitIffFewBelow` | src/evaluation/cscv.py:100-111 | a split overfits exactly when the strategies its train-best one is at least as good as out of sample, itself included, are at most half of all, rounded up |
| `Cscv.DominantNeverOverfits` | src/evaluation/cscv.py:98-111 | a strategy strictly best in every block never loses out of sample |
| `Cscv.DominantHasZeroPbo` | src/evaluation/cscv.py:95-117 | such a strategy forces the probability to zero over any choice of splits |
| `Cscv.WorstOutOfSampleOverfits` | src/evaluation/cscv.py:106-111 | a train-best strategy that is strictly worst out of sample always counts |
| `History.FetchCandleHistory` | src/market/history.py:80-104 | at most `max_candles` requests whatever the server answers, each for at most a page and what is wanted (a page being the caller's size between one and a thousand), the first for all of that; strictly ascending results, and against a truthful server exactly the latest candles of one query |
| `History.MergePage` | src/market/history.py:95-100 | a page adds exactly its unseen times and reports how many, and its earliest time |
| `Sizing.FloorStepIsMaximal` | src/policy/sizing.py:41-42 | the floor is a step multiple at most 1e-12 above the value, and the next multiple is too large |
| `Sizing.SizeIsMaximalWithinRoom` | src/policy/sizing.py:72-95 | an accepted size is maximal, worth at least the minimum and at most the room plus 1e-9, and keeps total exposure under its cap plus 1e-9 |
| `Sizing.InvalidIff` | src/policy/sizing.py:51-71 | a request is turned down outright exactly when a number is not positive, the stop is not on the losing side, or the provider names a size |
| `Sizing.ExhaustedIff` | src/policy/sizing.py:76-82 | exposure is exhausted exactly when what is held fills the portfolio limit |
| `Sizing.NextStepIsTooMuch` | src/policy/sizing.py:72-93 | one step more than the size breaks a limit, or risks more than requested for more than the minimum |
| `Sizing.RefusedIfNothingFits` | src/policy/sizing.py:85-91 | a request is refused for its step only if every multiple worth the minimum is too much |
| `Sizing.StepRefusedIff` | src/policy/sizing.py:85-91 | of the two refusals, the first is for a single step already beyond the target |
| `Sizing.FlagsTell` | src/policy/sizing.py:74-84 | a size is flagged as capped or raised exactly when the requested risk would buy more than a limit or less than the minimum |
| `Sizing.RiskIsBounded` | src/policy/sizing.py:72-95 | unless raised to the minimum, the risk is at most the requested one plus 1e-12 of a unit's risk |
| `Sizing.ExposureErrorNeedsLargeContracts` | src/policy/sizing.py:92-93 | the last exposure check can fire only on contracts worth more than a thousand |
| `Breakers.BreakerRegistry.Trip` | src/policy/breakers.py:45-48 | a known breaker opens with its reason; an unknown name raises and changes nothing |
| `Breakers.BreakerRegistry.Clear` | src/policy/breakers.py:50-60 | only an operator or a verified recovery clears a known breaker; anyone else raises and changes nothing |
| `Breakers.HeartbeatMonitor.Beat` | src/runtime/heartbeat.py:49-62 | a regressing beat raises; otherwise the beat is recorded and only the monitor's own trip is cleared, with or without a registry |
| `Breakers.HeartbeatMonitor.Tick` | src/runtime/heartbeat.py:80-100 | a stall opens the heartbeat breaker and claims it, unless open; health clears only a claimed trip |
| `Breakers.TickDecides` | src/runtime/heartbeat.py:64-100 | after an evaluation the breaker is open on a stall, and on a healthy pulse only if somebody else opened it |
| `Breakers.ResourceMonitor.Tick` | src/runtime/resource_monitor.py:53-105 | one observation opens the resource breaker under pressure and claims it, unless open; a clean one clears only a claimed trip; a failed one counts as pressure |
| `Breakers.GuardFailsClosed` | src/runtime/resource_monitor.py:85-105 | after a sample under pressure the breaker is open, an operator's trip is never touched, no other breaker moves, and the monitor claims exactly the trips it made and has not cleared |
| `Watchdog.MonitorWatchdog.TickOnce` | src/runtime/monitor_watchdog.py:59-63 | one evaluation, recorded with its time |
| `Watchdog.MonitorWatchdog.Run` | src/runtime/monitor_watchdog.py:65-75 | the loop ticks at exactly the due polls, for any clock readings |
| `Watchdog.TicksFitInSpan` | src/runtime/monitor_watchdog.py:56-75 | ticks are an interval apart, and after any poll the last tick is less than an interval old |
| `Watchdog.StallIsDetected` | src/runtime/monitor_watchdog.py:56-75 | under every interleaving the heartbeat breaker is open once the last beat is older than gap + interval + poll, unless someone cleared it within the last interval + poll; so a clear during a stall is re-tripped |
| `Watchdog.OpensIffStalled` | src/runtime/heartbeat.py:64-95 | no false alarm: with nobody tripping it, the heartbeat breaker opens exactly at a tick, or a poll whose interval has passed, that finds the last beat more than the gap old |
| `Watchdog.OperatorTripSurvives` | src/runtime/heartbeat.py:18-19 | a trip made while the own-trip flag is false survives every beat, tick, poll and other trip until an allowed actor clears it |
| `Watchdog.StoredTripSurvives` | src/runtime/heartbeat.py:41-43 | a trip restored from the store at start-up survives the same way |
| `Watchdog.CycleKeepsTripIff` | src/runtime/paper_runtime.py:53-54 | a cycle keeps an open heartbeat breaker open exactly when the own-trip flag is false, and leaves the flag false |
| `Watchdog.StallNeverParksTheNextCycle` | src/runtime/paper_runtime.py:53-54 | a monitor-raised trip is open after the tick and gone once the next cycle has beaten |
| `Watchdog.OperatorTripCanBeUndone` | src/runtime/heartbeat.py:55-62 | a concrete run in which a beat undoes an operator's trip |
| `Watchdog.UnauthorisedClearNothing` | src/policy/breakers.py:52-58 | no run without an allowed clear of a breaker other than the heartbeat's closes it |
| `Scheduler.PaperScheduler.Enqueue` | src/runtime/scheduler.py:35-41 | refused exactly when the key is queued or the symbol active; otherwise at the back of the queue |
| `Scheduler.PaperScheduler.BeginRun` | src/runtime/scheduler.py:44-56 | the locked section does nothing, drops, requeues or starts the head, as specified |
| `Scheduler.PaperScheduler.FinishRun` | src/runtime/scheduler.py:58-65 | a normal finish parks by status, records the time and releases the symbol |
| `Scheduler.PaperScheduler.FailRun` | src/runtime/scheduler.py:64-65 | a raise only releases the symbol |
| `Scheduler.PaperScheduler.Stop` | src/runtime/scheduler.py:93-96 | stopping clears queue and keys and leaves runs in flight |
| `Scheduler.LawsHoldOnEveryRun` | src/runtime/scheduler.py:35-65 | under any interleaving: key set equals the keys of a duplicate-free queue, active symbols are those in flight and fly alone, every accepted snapshot is in exactly one place, starts wait the minimum interval after every normal finish |
| `Scheduler.NothingIsLost` | src/runtime/scheduler.py:35-96 | accepted = queued + in flight + done + failed + dropped + cleared |
| `Scheduler.DropsIffSymbolInFlight` | src/runtime/scheduler.py:49-51 | a run drops its snapshot exactly when the head's symbol is already in flight |
| `Scheduler.OneWorkerDropsNothing` | src/runtime/scheduler.py:43-65 | if each run ends before the next begins, nothing is ever dropped |
| `Scheduler.TwoWorkersCanDrop` | src/runtime/scheduler.py:49-51 | a run from start-up, two offers of one symbol and two overlapping runs, that drops the second snapshot |
| `SchedulerAnswers.OfferTakenIff` | src/runtime/scheduler.py:35-41 | on every run a snapshot is taken exactly when no equal one waits and no run of its symbol is in flight |
| `SchedulerAnswers.StartsIff` | src/runtime/scheduler.py:43-56 | on every run the head starts exactly when no run of its symbol is in flight and none finished within the minimum interval, and goes to the back in that last case |
| `SchedulerAnswers.ParkedIsForever` | src/runtime/scheduler.py:58-63 | a symbol is remembered as parked exactly when some run of it ended so, with the last such status; no later success forgets it |
| `SchedulerAnswers.NothingStartsWhileStopped` | src/runtime/scheduler.py:93-96 | stopping empties the queue, and until a resume nothing starts whatever is offered or finishes |
| `Ledger.EventLedger.ClaimCycle` | src/ledger/sqlite.py:100-105 | a cycle is claimed by the first caller only; an empty id raises |
| `Ledger.EventLedger.SetTerminal` | src/ledger/sqlite.py:107-109 | a status reaches only a claimed cycle |
| `Ledger.EventLedger.AppendEvent` | src/ledger/sqlite.py:140-143 | an event of a known type with all its identities, a positive time and schema is appended under the ledger's run and numbered; any other raises and changes nothing |
| `Ledger.EventLedger.Fees` | src/ledger/sqlite.py:236-242 | the sum of fill fees in scope |
| `Ledger.EventLedger.RealizedPnl` | src/ledger/sqlite.py:231-234 | the sum of closed-trade profits in scope |
| `Ledger.EventLedger.Funding` | src/ledger/sqlite.py:271-291 | the fills' funding in scope, plus the trades' when no fill carries a funding key |
| `LedgerReplay.SymbolForCycle` | scripts/replay_ledger.py:85-92 | the first symbol any event of the cycle names |
| `LedgerReplay.ReplayEvents` | scripts/replay_ledger.py:32-82 | the one pass computes the fold of its booking rules over the log |
| `LedgerState.BreakerIsLastWord` | scripts/replay_ledger.py:73-76 | the replayed breaker is open exactly when some event opened it and none closed it later |
| `LedgerState.ReconciliationIsLastWord` | scripts/replay_ledger.py:66-67 | the last reconciliation decides |
| `LedgerState.DispositionsCountEndings` | scripts/replay_ledger.py:77-78 | each disposition is counted once per ending that carries it, those without one as unknown |
| `LedgerState.ClosedTradesInOrder` | scripts/replay_ledger.py:68-70 | the closed trades are the payloads of all closings in order |
| `LedgerState.LastFillRules` | scripts/replay_ledger.py:47-56 | a position has the side and entry price of the last fill in its symbol |
| `LedgerState.LastJudgementRules` | scripts/replay_ledger.py:61-65 | a symbol's protection is the status of the last judgement that names it or whose cycle named it first |
| `LedgerState.RunScope` | src/ledger/sqlite.py:231-242 | a named run's scope is its own rows in order |
| `LedgerLaws.ReplayTotals` | scripts/replay_ledger.py:44-72 | on any log the pass adds named fills, all trade profits, and trade funding only until the first funded named fill |
| `LedgerLaws.ReplayAgreesWithLedger` | src/ledger/sqlite.py:231-291 | when fills name symbols, replay and queries agree on fees and profit, and funding differs by exactly the trade funding before the first funded fill |
| `LedgerLaws.FundingAgreesIff` | scripts/replay_ledger.py:59-72 | on any log the two funding figures agree exactly when no fill carries funding, or the trade funding before the first named one that does equals what the unnamed fills carry |
| `LedgerLaws.FundingFiguresCanDiffer` | scripts/replay_ledger.py:71-72 | a well-formed two-event log on which they are one and zero |
| `LedgerLaws.FeesAgreeIff` | scripts/replay_ledger.py:48-60 | on any log fees agree exactly when the fills without a symbol cost nothing in sum |
| `LedgerLaws.ReplayedInventory` | scripts/replay_ledger.py:47-55 | a replayed position is the signed sum of its symbol's fills |
| `LedgerLaws.ReportedIffOpen` | scripts/replay_ledger.py:79-80 | a position is reported exactly when that sum exceeds the dust threshold |
| `LedgerLaws.StateScopesAgreeIff` | src/ledger/sqlite.py:315-328 | replayed state and queries look at the same rows of every log exactly when a run is named or the ledger has none |
| `LedgerLaws.ScopesCanSplitFees` | src/ledger/sqlite.py:315-328 | otherwise some log reports two different fee totals |
| `PaperRuntime.AutonomousPaperRuntime.BeatAndEvaluate` | src/runtime/paper_runtime.py:131-146 | beat, then both monitors' evaluation, or a raise that changes nothing, with or without either monitor |
| `PaperRuntime.AutonomousPaperRuntime.EvaluateMonitors` | src/runtime/paper_runtime.py:136-155 | the monitors' evaluation on its own, as a timer calls it |
| `PaperRuntime.AutonomousPaperRuntime.Enter` | src/runtime/paper_runtime.py:100-127 | sizing, order, events and protection happen as specified on log and exchange, including what is left behind when a step raises |
| `PaperRuntime.AutonomousPaperRuntime.Judge` | src/runtime/paper_runtime.py:67-128 | breakers, freshness, provider, verdict and entry are checked in that order with the specified events |
| `PaperRuntime.AutonomousPaperRuntime.Process` | src/runtime/paper_runtime.py:45-129 | ledger, exchange, monitors and breakers after a call are the specified ones, duplicates and raises included |
| `PaperRuntime.CanonicalOfflineRuntime.Process` | src/runtime/canonical.py:65-90 | an ended cycle is answered without touching anything; paper mode delegates; fixture mode claims, logs three events and closes |
| `RuntimeLaws.PlacedFresh` | src/execution/fake_exchange.py:139-145 | a market order under a new id books one fill at the market price, or only records a rejection |
| `RuntimeLaws.BookIsARun` | src/runtime/paper_runtime.py:113-119 | the exchange under any run of the runtime has only seen public calls, so every exchange law holds for it |
| `RuntimeLaws.ProcessCounts` | src/runtime/paper_runtime.py:63-129 | a call adds one order and one fill exactly when it claims and trades, one ending exactly when it claims and returns, and one skip exactly for a duplicate |
| `RuntimeLaws.EachCycleOnce` | src/runtime/paper_runtime.py:63-65 | after any run every cycle id has at most one order and one fill, and exactly one non-skipped ending if it has a terminal status and none otherwise |
| `RuntimeLaws.ClaimIsForever` | src/ledger/sqlite.py:100-109 | once claimed, a cycle keeps its status and never orders or ends again, raised ones included |
| `RuntimeLaws.EveryFillIsEarned` | src/runtime/paper_runtime.py:63-117 | behind every fill is one step that claimed its cycle with no breaker open, an approved entry, and data observed not in the future and at most the allowed age ago, within half a minute of its source, with a matching hash |
| `RuntimeLaws.PressureParks` | src/runtime/paper_runtime.py:53-69 | a claimed cycle that finds the host under pressure, or cannot look, is parked and places no order |
| `RuntimeAnswers.SizesIffUpToDate` | src/runtime/paper_runtime.py:67-113 | a claimed cycle with no breaker open and an approved entry reaches sizing exactly when its data is up to date; otherwise it is parked for the first condition that fails and the exchange is left alone |
| `RuntimeAnswers.StatusTellsGate` | src/runtime/paper_runtime.py:67-129 | the status of a claimed cycle that does not raise says exactly which gate ended it |
| `RuntimeAnswers.ExecutedIffProtected` | src/runtime/paper_runtime.py:118-129 | an entered cycle is executed, and not degraded, exactly when its position has both levels |
| `RuntimeAnswers.EntryLogs` | src/runtime/paper_runtime.py:114-128 | an entry that does not raise logs intent, order and fill under its order name, then a verdict that is positive exactly when it is executed, then a reconciliation in sync |
| `RuntimeAnswers.EntryIsPlain` | src/runtime/paper_runtime.py:113 | the entry is recorded as a plain market order of the decision's symbol and side at the size found |
| `RuntimeAnswers.EntryWithinLimits` | src/runtime/paper_runtime.py:103-111 | a sized entry respects policy, venue, decision, equity and what is already held, whichever is tightest |
| `RuntimeAnswers.EntryIsLargest` | src/runtime/paper_runtime.py:103-111 | one step more would exceed one of these, or the requested risk for more than the minimum |
| `RuntimeAnswers.EntryRiskIsBounded` | src/runtime/paper_runtime.py:103-111 | unless raised to the minimum, an entry risks at most what the policy asks for, up to the slack of one floor |
| `RuntimeAnswers.LogMirrorsFills` | src/runtime/paper_runtime.py:112-117 | on every run the fills in the log are the exchange's fills of client orders, one for one and in order, price and fee included |
| `RuntimeAnswers.LogTellsEveryStatus` | src/runtime/paper_runtime.py:55-66 | on every run each event belongs to a claimed cycle, and a cycle has a status exactly when an ending with that disposition is logged for it |
| `RuntimeAnswers.ProcessStamps` | src/runtime/paper_runtime.py:55-66 | a call only appends to the log, and stamps each event with its cycle, its time (at least one), its snapshot's symbol and the paper product |
| `RuntimeEndings.RaisesIff` | src/runtime/paper_runtime.py:100-129 | a claimed cycle raises, and stays without terminal status, exactly when it passes every gate and then cannot be sized, is refused by the venue, or exactly flattens an opposite position |
| `RuntimeWitnesses.FlatteningEntryRaises` | src/runtime/paper_runtime.py:113-120 | a run in which a second entry sells exactly what the first bought, raises, and stays without a status |
| `RuntimeEndings.FillFlattensIff` | src/runtime/paper_runtime.py:118-120 | a fill removes the position exactly when it opposes it with equal quantity |
| `RuntimeEndings.OnlyRaisedCyclesAreSkipped` | src/runtime/canonical.py:70-74 | behind the canonical guard only a cycle that raised is ever logged as a duplicate |
| `RuntimeInventory.ReplayRebuildsInventory` | scripts/replay_ledger.py:47-55 | after any run the exchange's position is what a replay of the log holds plus the protective exits, which the log does not record |
| `RuntimeInventory.ReplayIsInventory` | src/runtime/paper_runtime.py:113-117 | with no market events fed in, replay and exchange inventory are equal in every symbol |
| `RuntimeInventory.CoherentOnEveryRun` | src/runtime/paper_runtime.py:112-117 | every run keeps orders named after claimed cycles, none resting, and log and client fills equal per symbol |
| `RuntimeExposure.RebookNotional` | src/execution/fake_exchange.py:157-197 | a fill moves its symbol's entry notional by exactly a foretold amount: its value when it opens or adds, the entry value it takes away when it reduces, both when it flips |
| `RuntimeExposure.NextNotional` | src/runtime/paper_runtime.py:103-114 | every step of a run moves gross entry notional by exactly the change computed from the state before it |
| `RuntimeExposure.GrossWithinIff` | src/runtime/paper_runtime.py:103-113 | gross entry notional stays within a limit all through a run exactly when no step is foretold to exceed it |
| `RuntimeExposure.FairRunsStayCapped` | src/runtime/paper_runtime.py:103-113 | in particular a run whose entries fill at no more than the price they were sized at stays within the total cap plus 1e-9 |
| `RuntimeWitnesses.OneEntryBreaksCap` | src/runtime/paper_runtime.py:103-114 | a fresh runtime whose first entry, sized at ten and filled at the fallback price of a hundred, exceeds the cap |

## Left out

- Binary floating point: arithmetic is exact, so the `1e-12` dust tests of the exchange are zero tests, decimal conversions through strings are exact, and rounding to twelve digits in replay comparison is not modelled.
- HTTP clients, request signing, SQLite, JSON files and SHA-256: tables are sequences and maps, stores are initial values, digests are opaque strings.
- The AI provider, its circuit, decision parsing and `validate_decision`: an arbitrary reply arrives with each cycle, and an approved entry carries its levels.
- Strategy signals, technical features and the regime classifier: arbitrary functions of a snapshot.
- Pearson correlation, deflated Sharpe ratio, bootstrap sampling: transcendental or random, nothing exact to prove.
- `Cscv.CscvPbo`: which splits a seeded draw picks is a parameter, and the mean rank correlations of the report are not modelled.
- Cancel requests in flight: `CANCEL_REQUESTED` exists only inside `cancel_order` and is never seen by a caller.
- Exchange balance, `read_state` and other plain readers; the exchange's text log carries only order ids here.
- Other dimensions of the stress matrix, drawdown, the coverage facts and summary rows built from the modelled counts: expressions over results already specified.
- The replay report's hash, split bounds and constant fields: opaque or constant.
- Reading the host's memory, disk and inodes: what an observation finds wrong arrives with each cycle and each timer call.
- `PaperRuntime.AutonomousPaperRuntime.Process`: takes a whole cycle as one step, so two cycles overlapping at the provider call, which would share the runtime's event context, are not modelled.
- `Watchdog.StallIsDetected`: both clocks are one clock in whole milliseconds; truncating a finer clock can shift the bound by one millisecond.
- `PaperRuntime.AutonomousPaperRuntime.BeatAndEvaluate`: both monitors are taken to be attached to the registry the runtime checks, as the scripts that attach them do, and the beat and the evaluation after it read one time.
- `RuntimeInventory.ReplayRebuildsInventory`: assumes the cycles of a run differ in the first 24 characters that name their orders, as digests do.
- `RuntimeExposure.GrossWithinIff`: assumes that the cycles of a run have different order names, as above.
- `Windows.EvaluatePurged`: for window + embargo of at least one and a first window that starts inside the data; otherwise the label function's window loop would not end, or its indices would count from the end of the list.
- `Windows.CountWindows`: for window + embargo of at least one, since the counting loop would not end otherwise.
- `Ledger.EventLedger.AppendEvent`: payload size limits and payload hashes are not modelled; projections and their tables are left out.
- Dashboards, report writers, command-line scripts, order-book parsing, kill switch, mark monitor: plumbing or single-branch facts.
