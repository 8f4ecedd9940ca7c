# Verification of the trading ledger and its two engines

This project models how the repository keeps money, and proves what that bookkeeping promises.

* The **paper engine**: the execution, portfolio and risk services, the simulated exchange with its
  registry of resting orders, lot rounding and the liquidation estimate.
* The **backtester**: one loop over bars that updates balance, position, fees, funding and trades.
* What surrounds them: the order-book walk, the choice of the bar to act on, the ranked evaluation pass of
  the worker, and the breakout signals with their resampled trend.

Prices and quantities are reals, times are integers (microseconds). The rows of the tables are datatypes;
what an operation does to them is a function on `Tables`, and to tables and exchange together a function on
`World`. The theorems are about these functions and about every `Run` of them from empty tables. Beside them
stand the services in their own form: `Database` holds position and portfolio objects that are updated in
place, and the methods of `PortfolioService`, `RiskService`, `ExecutionService`, `SignalWorker`,
`PaperExchange.Exchange` and `Backtest.BacktestRun` are proved to take the objects to exactly the state that
the functions give, so that every theorem holds of them.

## Findings

Where the code does not keep a promise in general, the project states exactly when it does, and gives an input
on which it does not.

* A funding charge debits cash when it is recorded and again when the position is closed
  (`PartialExits.FundingIsDebitedTwice`). A spot close subtracts it from the result without paying it: an exit
  conserves money exactly when it is perpetual or carries no funding (`LedgerLaws.ExitConserves`), a run exactly
  when its spot exits carried none in sum (`RunBooks.ConservationOfEveryRun`), and
  `FailingRuns.SpotFundingIsNotConserved` is a run that does not.
* Splitting a close into pieces is neutral exactly when no funding *credit* is pending: the clamp at zero loses
  it (`PartialExits.TwoPiecesAreOne`, `FailingRuns.PendingCreditIsLost`).
* Repricing twice can change the tables: a position marked at zero falls back to its entry price
  (`LedgerLaws.RecalculationIsIdempotent`, `FailingRuns.ZeroMarkFallsBack`).
* Rounding to an increment below 2e-12 can round down a value that is within the tolerance of a multiple
  (`Precision.RoundingContract`, `Precision.ToleranceTooWide`).
* A market order against an empty book side is filled completely as if there were no book
  (`PaperExchange.MarketOrderSource`).
* The backtester acts on a stop or take-profit price of zero where the paper engine reads "not set", and only
  the paper engine exits on an opposite entry signal (`Engines.EnginesChooseTheSameExit`,
  `Engines.ZeroPricesDivide`, `Engines.ReversalDivides`).
* A stored name without `@` is looked up under another key (`RankedPass.ParsedNameIsItself`). A key that was
  open when a pass began is still not entered again, because the cooldown of its close is in the way; only a
  pass that comes to the other position after that cooldown can enter it
  (`PassReentry.OpenKeysAreNotReentered`, `LateLookup.TimingDecidesReentry`). The repository's own callers store
  no other name without `@` than "manual" and "llm_autonomy", which are not registered, so that
  `PassReentry.ResolvedNamesAreInTime` applies to what they store; a failing pass takes a direct call of
  `submit_entry_order` with the name of a registered strategy and no instance name.

## Files

| files | subject |
|---|---|
| Common, Config, Fees, Precision, Instruments, Strategy | values, settings, arithmetic shared by both engines |
| OrderBook, PaperExchange | the depth walk and the simulated exchange |
| Ledger, LedgerLaws, PartialExits | rows, repricing, fills, funding; conservation, equity, partial closes |
| Risk, RiskLaws, RunLimits | the entry decision; what approval means for the fill and for a run |
| Execution, Evolution, PreviewLaws | entries, closes, evaluations, previews; what each may change |
| StrategyLaws, MarginLaws | what sizes, exit prices and the selected bar mean; the isolated margin of the paper engine |
| Runs, RunBooks, RunRegistry, RunLots | every run: safety, pacing, money, registry, lots |
| Ranking, RankedPass, RankedPassLaws, PassReentry | the ranked pass, each call of which reads its own clock and data |
| Witnesses, FailingRuns, LateLookup | runs on which a law fails outside its condition |
| Backtest, BacktestLaws, Causality, Engines | the backtester, and its agreement with the ledger |
| Breakout, BreakoutLaws | the breakout signals |
| Database, PortfolioService, RiskService, ExecutionService, SignalWorker | the services on mutable objects |

## Model

| member | source | states |
|---|---|---|
| LedgerLaws.ExitKeepsBooks | app/services/execution_service.py:845-904 | An exit of any size keeps the books: cash plus locked money equals starting balance plus realized results less the entry fees not yet charged, plus the funding that spot exits took off their results without paying it, and every position row still agrees with its trades |
| LedgerLaws.ExitMargin | app/services/execution_service.py:849-864 | The clamp on released collateral never bites: what stays locked is entry_notional / max(leverage, 1) of what is left |
| LedgerLaws.EntryKeepsBooks | app/services/execution_service.py:501-570 | A filled entry keeps the books: the cash it costs is what it locks plus its fee, and the fee is unallocated |
| LedgerLaws.FundingKeepsBooks | app/services/risk_service.py:210-246 | A funding charge keeps the books although it debits cash and result at once |
| LedgerLaws.BookedHasTrades | app/services/risk_service.py:217-218 | A position that is booked has a trade, so its funding charge is never refused |
| LedgerLaws.RepricingKeepsBooks | app/services/portfolio_service.py:138-182 | Repricing at any prices keeps the books |
| LedgerLaws.EquityIdentity | app/services/portfolio_service.py:138-182 | After any recalculation equity is starting balance plus realized plus unrealized less unallocated entry fees plus the funding of spot exits, short of it by exactly the dust of positions closed with a remainder, which is at most 1e-12 of an entry price each |
| LedgerLaws.ExposureIdentity | app/services/portfolio_service.py:151-175 | Gross exposure is long plus short, the absolute net exposure never exceeds it, and net is long minus short for prices that are not negative |
| LedgerLaws.RecalculationIsIdempotent | app/services/portfolio_service.py:138-182 | A second recalculation without prices changes nothing if and only if no open position is marked at zero with a non-zero entry price |
| FailingRuns.ZeroMarkFallsBack | app/services/portfolio_service.py:152 | A concrete run that ends with a price of zero, after which a second recalculation changes the tables |
| LedgerLaws.PeakIsRunningMaximum | app/services/portfolio_service.py:169-177 | The peak never falls, is never below the equity, and is either the old peak or the new equity |
| RunBooks.EveryRunKeepsBooks | app/services/execution_service.py:575-904 | The books balance in every state reached from empty tables by entries, closes, evaluations, cancellations, repricings and funding charges |
| RunBooks.ConservationOfEveryRun | app/services/execution_service.py:458-904 | Over every such run, cash plus perpetual margin plus spot cost is the starting balance plus realized results less unallocated entry fees if and only if the funding carried by spot exits sums to zero |
| RunBooks.LedgerConservation | app/services/execution_service.py:458-904 | So conservation holds over every such run that charges funding to perpetual positions only |
| LedgerLaws.ExitConserves | app/services/execution_service.py:849-904 | Where money is conserved, an exit conserves it if and only if the position is perpetual or carries no funding |
| FailingRuns.SpotFundingIsNotConserved | app/services/risk_service.py:219-240 | A concrete run, buying a coin, charging funding to it and selling it, after which the conservation equation fails |
| RunBooks.EquityOfEveryRun | app/services/portfolio_service.py:138-182 | The equity identity, with the funding of spot exits and up to the dust, holds at the end of every such run |
| RunBooks.EquityOfPerpetualFunding | app/services/portfolio_service.py:138-182 | Without the funding term when funding is only charged to perpetual positions |
| PartialExits.TwoPiecesAreOne | app/services/execution_service.py:845-904 | Closing in two pieces at one price gives the rows, cash and results of one close if and only if the pending funding cost is not negative |
| PartialExits.PiecesAreOneSale | app/services/execution_service.py:845-904 | Closing in any number of pieces at one price equals one close, when no funding credit is pending |
| FailingRuns.PendingCreditIsLost | app/services/execution_service.py:864 | A concrete run reaches an open position with a pending credit on which two pieces and one close differ |
| PartialExits.ExactCloseReleasesEverything | app/services/execution_service.py:845-873 | A close that exhausts the position releases all collateral; the entry fees charged to its exit trades, each the move less fee, funding and result, sum exactly to the entry fees; and realized_pnl is the sum over its exit trades |
| PartialExits.FundingIsDebitedTwice | app/services/risk_service.py:219-240 | A funding charge lowers the cash of a closed perpetual position by twice its amount, and its realized result by twice its amount whatever the instrument |
| PreviewLaws.PreviewAgreesWithEvaluation | app/services/execution_service.py:267-406 | For the same tables, data and clock the preview announces an entry with a side if and only if the evaluation reaches the submission of an entry with that side |
| PreviewLaws.OtherPreviewsUnchanged | app/services/execution_service.py:955-1093 | Evaluating one candidate leaves the preview of every candidate with a different key as it was |
| PreviewLaws.OtherKeysUnchanged | app/services/execution_service.py:955-1093 | An evaluation leaves the latest order, the open position, the latest closed position and all rows of every other key alone, marks aside |
| Runs.EveryRunIsSafe | app/services/risk_service.py:134-162 | In every reachable state open positions are within the limit, the positions of a key follow one another in time, and none was opened in a symbol within the cooldown after a stop-loss close by any strategy |
| Runs.AtMostOneOpenPerKey | app/services/execution_service.py:606-612 | Two open positions of one key in a reachable state are the same position |
| RunLimits.OpeningsAreWithinLimits | app/services/risk_service.py:134-162 | Whatever the action, a position is opened only while the drawdown from a peak at least the run's own is below the limit, a slot is free and the symbol is not cooling down |
| RunLimits.PeakNeverFalls | app/services/portfolio_service.py:169-177 | Over a run, whatever the actions, the peak that drawdown is measured from never falls, and no equity that the run has gone through is above it |
| Runs.EvaluationIsPaced | app/services/execution_service.py:955-1071 | In closed-bar mode every order that an evaluation places or has rejected acts on a bar already closed and comes more than one bar length after every earlier order of its key; without an open position it also finds no cooldown |
| Runs.EveryEntryOrderIsCooledDown | app/services/execution_service.py:408-446 | Over every run, an order for a key without an open position, rejected or unfilled included, comes no sooner than the cooldown after every earlier close of the key that was not manual |
| Runs.EveryRunIsCooledDown | app/services/execution_service.py:236-260 | Over every run, between a close that was not manual and any later opening of the same strategy instance lies at least its cooldown |
| Runs.InstanceNames | app/services/execution_service.py:281 | An instance name determines its timeframe |
| Evolution.EntryEvolves | app/services/execution_service.py:575-774 | A submitted entry changes the tables by at most one order of its key and at most one position, opened only when none is open for the key; every other row changes in its mark only |
| Evolution.CloseEvolves | app/services/execution_service.py:776-923 | A close changes one row and appends at most one order; a row that ends closed carries the reason and the time of the close |
| Evolution.EvaluationEvolves | app/services/execution_service.py:955-1093 | An evaluation amounts to nothing, one opening or one reduction, and at most one order of its own key |
| PaperExchange.ReportsAddUp | app/exchanges/paper_exchange.py:48-155 | Every report accounts for the whole request: filled plus remaining is requested, FILLED means nothing remains, and a price comes exactly with a fill |
| PaperExchange.MarketOrderSource | app/exchanges/paper_exchange.py:61-64 | A market order is filled from its book side as far as that reaches, and completely at the slipped reference price if that side holds nothing |
| PaperExchange.LimitOrdersKeepTheirLimit | app/exchanges/paper_exchange.py:61-155 | A limit order is never filled at a price worse than its limit, from the book or from the candle |
| PaperExchange.Exchange.PlaceOrder | app/exchanges/paper_exchange.py:48-155 | Answers a request as specified and registers exactly the limit orders that are not completely filled |
| PaperExchange.Exchange.CancelOrder | app/exchanges/paper_exchange.py:157-158 | Succeeds if and only if the id is registered, and removes only it |
| RunRegistry.EveryRunIsRegistered | app/exchanges/paper_exchange.py:48-158 | Over every run in one process the registry holds exactly the client ids of the limit orders persisted as NEW or PARTIALLY_FILLED |
| RunRegistry.CancelableExactlyOnce | app/services/execution_service.py:935-953 | An order can be canceled if and only if it rests; the second attempt is refused, and a refused attempt changes nothing |
| Precision.RoundingContract | app/utils/precision.py:14-25 | Rounding yields the largest multiple of the increment up to the value plus the tolerance, for every non-negative value, if and only if the tolerance is at most half the increment |
| Precision.RoundingIsMonotone | app/utils/precision.py:14-25 | A larger value never rounds to a smaller one, whatever the signs and the increment |
| Precision.RoundingIsIdempotent | app/utils/precision.py:14-25 | Rounding twice is rounding once, for every value and increment |
| Precision.MultiplesAreFixed | app/utils/precision.py:14-25 | A multiple of the increment, of either sign, rounds to itself |
| RunLots.EveryRunIsLotSized | app/services/instrument_service.py:151-180 | Over books of whole lots, every open position of every reachable state holds a positive number of whole lots |
| RunLots.OneOrderCloses | app/services/execution_service.py:791-871 | The close order of such a position asks for all of it, is refused if and only if it is below the minimum notional, and closes the position when completely filled |
| RunLots.EveryLotRunIsExact | app/services/execution_service.py:866-871 | With lots above 1e-12 no close leaves notional behind, and the equity identity of every run holds exactly |
| Instruments.LiquidationDistanceIsScaleFree | app/services/instrument_service.py:182-193 | The relative distance to liquidation does not depend on the entry price |
| Instruments.LotMultiplesAreFixed | app/services/instrument_service.py:160-163 | A quantity of whole lots is not changed by normalisation |
| RiskLaws.ApprovalCarriesToTheFill | app/services/risk_service.py:164-197 | After an approved market entry filled at the slipped price, gross, net and side exposure are within their caps of the equity before the fee up to the slippage on the notional, cash covers all but fee and slippage, and the liquidation distance at the fill price is still the configured buffer |
| RiskLaws.CandleEntryIsCarried | app/services/execution_service.py:658-774 | All of those bounds, the liquidation distance included, hold of the tables that a submitted market entry leaves behind when no order book is known |
| RiskLaws.RecalculationSettles | app/services/portfolio_service.py:151-158 | Marking one symbol again changes no position once all are marked and none is open in it |
| StrategyLaws.SizeIsTheLargestWithinBudget | app/strategies/base.py:60-75 | Up to half a unit of the eighth decimal a position is the largest that keeps the loss over the stop distance within the risk budget and the notional within its cap |
| StrategyLaws.BracketsAreFractions | app/services/execution_service.py:448-456 | An exit at the stop loses exactly stop_loss_pct of the entry notional, one at the take-profit gains exactly take_profit_pct of it, on either side |
| StrategyLaws.LiquidationLeavesMaintenance | app/services/instrument_service.py:182-193 | At the estimated liquidation price exactly the maintenance margin is left of the collateral |
| StrategyLaws.SelectedRowIsTheNewestClosed | app/services/execution_service.py:210-234 | In closed-bar mode the selected row is closed with no closed row after it, and none is selected if and only if neither of the last two bars has closed |
| Ranking.RankEntryCandidates | app/workers/tasks.py:26-31 | Returns the same candidates, in ranked order |
| Ranking.RankedIsUnique | app/workers/tasks.py:26-31 | A ranked sequence is determined by its elements |
| Ranking.RankingIsCanonical | app/workers/tasks.py:26-31 | The ranking does not depend on the order in which candidates were found |
| RankedPassLaws.ChoiceIsCanonical | app/workers/tasks.py:165-184 | The list of attempted entries does not depend on how strategies, symbols and timeframes are enumerated |
| RankedPassLaws.ChoiceIsAttemptable | app/workers/tasks.py:160-184 | What is attempted is at most the free slots, previewed as entries, with distinct keys none of which was open when the pass began |
| RankedPassLaws.BestAreChosen | app/workers/tasks.py:160-184 | No candidate that is left out is more confident than one that is attempted, and none is left out while a slot is free |
| RankedPassLaws.LaterPreview | app/services/execution_service.py:267-406 | Looking again later, at a bar that is not older, previews the same entry if and only if that bar still signals it |
| RankedPassLaws.AttemptReachesEntry | app/workers/tasks.py:184-195 | Whatever became of the candidates before it, and whatever clock and data say by then, an attempt on a bar not older than the previewed one reaches the submission of the previewed side if and only if its bar signals it; on the previewed bar it always does |
| PassReentry.OpenKeysAreNotReentered | app/workers/tasks.py:118-184 | A pass opens no position with a key that was open when it began, even if that position was closed during the pass, as long as no position is looked up under the key of another one later than the cooldown of that key |
| PassReentry.ResolvedNamesAreInTime | app/workers/tasks.py:19-23 | That is so when the names of registered strategies contain '@' |
| PassReentry.ShortPassesAreInTime | app/workers/tasks.py:122-158 | That is so when the open positions are managed within the cooldown |
| LateLookup.LateLookupReenters | app/workers/tasks.py:122-158 | For every clock, registry, cooldown and list of stored keys with a position that is looked up late there are data on which a pass over a state that a run reaches enters again what was open when it began |
| LateLookup.TimingDecidesReentry | app/workers/tasks.py:118-184 | So clock, registry, cooldown and stored names decide whether a pass can enter again what was open when it began: it can, from some safe state and on some data, if and only if a position is looked up late |
| RankedPassLaws.PassIsBounded | app/workers/tasks.py:160-195 | However long its calls take, a pass that begins in a safe state ends with at most the permitted number of open positions |
| RankedPass.LastAt | app/workers/tasks.py:19-23 | Finds the last '@' of a name, if there is one |
| RankedPass.ParsingInvertsNaming | app/workers/tasks.py:19-23 | Parsing an instance name gives back the strategy, also one that contains '@', and the timeframe |
| RankedPass.ParsedNameIsItself | app/workers/tasks.py:19-23 | A stored name is looked up under itself if and only if it contains '@' |
| Backtest.RunBacktest | app/services/backtest_service.py:119-333 | The bar loop over its mutable variables computes the specified result, the first missing depth snapshot included |
| Backtest.BacktestRun.OnBar | app/services/backtest_service.py:121-287 | One iteration updates balance, position, totals, trades and curve as specified |
| Backtest.BacktestRun.Close | app/services/backtest_service.py:171-209 | Closing moves the proceeds into the balance and appends the trade, or fails without effect |
| Backtest.ReplayStopsAtFailure | app/services/backtest_service.py:119-333 | A run that fails on a prefix fails in the same way on the whole |
| BacktestLaws.BacktestConserves | app/services/backtest_service.py:119-333 | Ending balance is starting balance plus net results of the trades, fees, funding and liquidations are those of the trades, and the curve has one point per bar, the last being the ending equity |
| BacktestLaws.TradesDoNotOverlap | app/services/backtest_service.py:119-333 | Over a rising time index no trade begins before an earlier one has ended |
| BacktestLaws.SpotNeverInDebt | app/services/backtest_service.py:121-312 | A spot run with fee and slippage of at most 100% has a balance that is not negative after every bar and at the end |
| BacktestLaws.ExitIsSolvent | app/services/backtest_service.py:135-169 | Whichever reason fires, the raw exit price is on the solvent side of the liquidation price, and so is the close of a bar without an exit |
| BacktestLaws.IsolatedMarginLossBound | app/services/backtest_service.py:135-311 | No trade held past its entry bar leaves less than the maintenance margin of its notional, less the slippage at the liquidation price |
| Engines.EnginesChooseTheSameExit | app/services/execution_service.py:1015-1055 | On bars of positive prices, with equal stored prices, both engines choose the same exit reason and raw price if and only if there is no mere opposite-side signal and no stored price of zero that would fire |
| MarginLaws.TriggeredExitIsSolvent | app/services/execution_service.py:1015-1055 | For a perpetual position entered above zero with margin above maintenance and a take-profit that is not negative, whatever triggers its exit, an opposite signal included, the raw price is on the solvent side of the liquidation price |
| MarginLaws.ExitKeepsMaintenance | app/services/execution_service.py:845-904 | The trade of any part sold at the slipped price of such an exit gives back, before fee and funding, the maintenance margin of what it closes less the slippage at the liquidation price |
| MarginLaws.EveryRunIsMargined | app/services/execution_service.py:448-530 | Over every run whose take-profits are not negative and whose highest leverage covers the maintenance margin, every perpetual position keeps the stop, take-profit and liquidation prices that belong to its entry price, and a margin of at least the maintenance margin |
| MarginLaws.EveryExitKeepsMaintenance | app/services/execution_service.py:955-1071 | So after every such run the trade of any exit that an evaluation makes without an order book, of a position entered above zero, gives back the default maintenance margin less the slippage at the liquidation price |
| Engines.RoundTripsAgree | app/services/execution_service.py:849-904 | With equal fills and no funding the cash that a round trip moves, in however many pieces, is its realized result and the net result that the backtester reports |
| Engines.LedgerRoundTrip | app/services/execution_service.py:501-904 | Entering and closing at once moves cash and realized result by the same net result |
| Engines.TestRoundTrip | app/services/backtest_service.py:181-260 | The backtester moves through its balance what it records as the net result |
| Engines.ReversalDivides | app/services/execution_service.py:1051-1055 | An unleveraged entry at 100 in both engines, of either instrument and side, and a bar with an entry signal of the other side on which only the paper engine exits |
| Engines.ZeroPricesDivide | app/services/execution_service.py:1030-1050 | An unleveraged entry at 100 in both engines with a take-profit (long) or stop-loss (short) of -100%, and a bar on which only the backtester exits, at zero |
| Engines.StoredPricesAgree | app/services/backtest_service.py:261-279 | Both engines store the same stop, take-profit and liquidation prices if and only if the maintenance rate of the instrument is not above the default or the entry price is zero |
| OrderBook.WalkLevels | app/utils/orderbook.py:17-44 | The loop fills min(quantity, depth of the side), accounts for the rest, and computes the specified money |
| OrderBook.WalkFillsWhatTheBookHolds | app/utils/orderbook.py:17-44 | What is taken from each level is within its size, and the total is min(quantity, depth) |
| OrderBook.WalkIsCheapest | app/utils/orderbook.py:17-44 | On rising prices no other allocation of the filled quantity costs less |
| OrderBook.WalkIsDearest | app/utils/orderbook.py:17-44 | On falling prices no other allocation of the filled quantity brings more |
| OrderBook.WalkIsAdditive | app/utils/orderbook.py:17-44 | Filling q1 + q2 is filling q1 and then q2 on what is left: same quantity and money |
| OrderBook.LimitIsNeverBreached | app/utils/orderbook.py:57-76 | The average price of a limit fill never breaches the limit, and the fill takes all that the eligible levels supply |
| OrderBook.SimulateLimitFill | app/utils/orderbook.py:57-76 | Computes the specified limit fill, whose average never breaches the limit |
| OrderBook.SimulateMarketFill | app/utils/orderbook.py:47-54 | Computes the specified market fill on the side that the taker meets |
| Fees.FeeIsAdditive | app/utils/fees.py:10-11 | The fee of a fill in two pieces at one price is the fee of the whole |
| Fees.SlippageBounds | app/utils/fees.py:14-18 | Slippage moves a price against the taker by exactly its fraction |
| BreakoutLaws.NoLookAhead | app/strategies/breakout.py:77-157 | For every series and n, the signals computed on the first n bars are the first n rows of the signals computed on all bars |
| BreakoutLaws.TrendBiasOfPrefix | app/strategies/breakout.py:49-75 | The higher-timeframe bias of a bar is the same when the bars after it are not known |
| BreakoutLaws.PriorExtremesOfPrefix | app/utils/indicators.py:21-26 | The shifted rolling extremes of a prefix are the prefix of the rolling extremes |
| BreakoutLaws.AveragesOfPrefix | app/strategies/breakout.py:32-47 | The same of the true-range and volume averages |
| BreakoutLaws.SignalsDoNotContradict | app/strategies/breakout.py:93-140 | For positive prices and a buffer in [0, 1), whatever the window lengths, no bar signals both entries, nor an entry with the exit of its side |
| BreakoutLaws.RowsAreConsistent | app/strategies/breakout.py:129-140 | A row is an entry if and only if its signal is not zero, the signal gives the side, and the shared exit decision never fires on it |
| Breakout.Largest | app/utils/indicators.py:21-22 | The maximum of a window: an element of it that no other exceeds |
| Breakout.Smallest | app/utils/indicators.py:25-26 | The minimum of a window |
| Causality.PastIsNotRevised | app/services/backtest_service.py:119-288 | The trades and equity points that a test of the first n bars has recorded are the first ones of a test of the whole series |
| Ledger.FindOpen | app/services/portfolio_service.py:62-79 | Finds an open position of the key if there is one |
| Ledger.LatestClosed | app/services/portfolio_service.py:81-100 | Finds the closed position of the key with the latest closing time |
| Ledger.LatestOrderAt | app/services/execution_service.py:157-173 | The latest creation time among the orders of the key |
| PortfolioService.Service.RecalculateState | app/services/portfolio_service.py:138-182 | Updates every open position in place and overwrites the portfolio row: the new tables are the specified recalculation of the old |
| PortfolioService.Service.MarkOpenPositions | app/services/portfolio_service.py:145-167 | The loop marks the open positions and returns the five totals over all rows |
| PortfolioService.Service.GetPosition | app/services/portfolio_service.py:62-79 | The search returns the place of the first open position object of the key, and nothing only if no object of the key is open |
| RiskService.Service.SideExposures | app/services/risk_service.py:70-79 | The loop returns the long and the short exposure of the open positions |
| RiskService.Service.EvaluateEntry | app/services/risk_service.py:111-208 | Marks the tables and decides as specified |
| RiskService.Service.Decision | app/services/risk_service.py:128-208 | The cascade of early returns decides as specified, naming the first check that fails |
| RiskService.Service.RecordFundingCharge | app/services/risk_service.py:210-246 | Updates the position in place and appends the trade as specified, or refuses a position without trades |
| ExecutionService.Service.RecordEntryFill | app/services/execution_service.py:486-573 | Opens a new position object, books its trade and completes its order as specified |
| ExecutionService.Service.SubmitEntryOrder | app/services/execution_service.py:575-774 | Takes the database and the exchange to the specified state, with the specified order or error |
| ExecutionService.Service.ReducePosition | app/services/execution_service.py:845-904 | Updates the position field by field to the specified row and accounts for the exit in the specified trade |
| ExecutionService.Service.ClosePosition | app/services/execution_service.py:776-923 | Takes the database and the exchange to the specified state, and keeps every position object in place |
| ExecutionService.Service.ClosePositionById | app/services/execution_service.py:925-933 | The same for a manual close, an unknown id included |
| ExecutionService.Service.CancelOrder | app/services/execution_service.py:935-953 | Cancels as specified, leaving positions, trades and portfolio alone |
| ExecutionService.Service.EvaluateStrategy | app/services/execution_service.py:955-1093 | Takes the database and the exchange to the specified state, with the specified outcome |
| ExecutionService.Service.PreviewStrategyCandidate | app/services/execution_service.py:267-406 | Returns the specified preview and changes nothing |
| SignalWorker.ManagePosition | app/workers/tasks.py:122-158 | Evaluates the strategy under the parsed name, or skips an unregistered one, as specified |
| SignalWorker.ManageOpenPositions | app/workers/tasks.py:122-158 | The loop over what was open yields the specified state, or stops at the first error that is not a risk check |
| SignalWorker.FindCandidates | app/workers/tasks.py:165-182 | The nested loops find exactly the specified candidates, in order |
| SignalWorker.AttemptEntries | app/workers/tasks.py:184-222 | The loop over the chosen candidates yields the specified state, or stops at the first error that is not a risk check |
| SignalWorker.EvaluateSignalsWithRanking | app/workers/tasks.py:100-222 | The whole pass takes the database and the exchange to the state of the specified pass |

## Left out

- Rounding of floats and the precision of decimals: prices and quantities are exact reals.
- SQLAlchemy sessions, commits, refreshes and races between processes: steps are sequential, and a query is a function of the rows.
- Trading modes: one mode per database, so the filters on `mode` are always met.
- Live adapters, websockets, caching, market-data refresh: instruments, books, spreads, funding rates and signal frames are parameters of a call.
- `manual_order` and the decision engine: any entry that is not an evaluation is an action with arbitrary arguments.
- Event records, notes, margin mode, slippage_bps and exchange names of orders: nothing in the core reads them.
- Client ids are a counter: the ids of one process never repeat, as with uuid4.
- One instant per action: all rows that an action writes carry the same time, which is not before the `now` of an evaluation. The calls of a pass each have their own two instants.
- Creation of instruments (`ensure_instrument`, `sync_perpetual_instruments`): an instrument is known or unknown to a call.
- Query order by `opened_at` is row order, and a tie for the latest closed position goes to the last row.
- Ratios and win rates of a backtest response, and the record of the run in the database.
- The optimizer, the ML filter, the other strategies, news, the language-model review, API, schemas and front end.
- Runs.EveryRunIsCooledDown: asks that names of the form strategy@timeframe are entered by evaluations only, because a manual order under such a name is not subject to the cooldown.
- Within a pass, what a preview of a combination reads does not depend on the place of the combination in the enumeration.
- RunBooks.EveryRunKeepsBooks: asks for reference and book prices that are not negative and slippage between 0 and 100%.
- Breakout.Quotient: a division by a close of zero gives zero where pandas gives an infinity.
- Backtest.BacktestRun.ExitOn: the exit of the loop body is a method of its own, and the local variables of the loop are fields.
