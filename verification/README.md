# Verification of the trading advisor's replay, accounting and guards

A Dafny model of the parts of the advisor that carry arithmetic and whole-run guarantees, and proofs about them.
Code that mutates state is modelled by classes and methods over mutable fields and arrays (the replay engine with its
positions and account, the portfolio composer with its equity guard, the reaction tracker, the position ledger, the payload
builder, the risk engine), each proved equal to a specification function; the guarantees are lemmas about those functions
over every input, every reachable state and every run. `dafny verify dfyconfig.toml` checks the whole project.

Prices and money are exact reals, rounded only where the code rounds; times are whole seconds. Signal generation is an
uninterpreted function of exactly what the replay shows it.

| files | what they model |
|---|---|
| Domain, Rounding, Reals | shared vocabulary, decimal rounding, facts about products |
| Levels, OpenTrades, TradeLedger, FundingClock, Ride, Chandelier, ReturnOnMargin, BarExits | one simulated position: its levels, one bar, its books, its funding, whole rides, the trailing exit, what exits mean for the margin and in prices |
| Replay, ReplayLedger, ReplayRides, ReplaySafety, Rebates, MarginRuns, RunExits, EntryRuns, RunMarks, TradeFigures, NoLookAhead, Drawdown | the replay of a whole account and what every run keeps |
| ReplayEngine | the imperative replay, refining Replay |
| Portfolio, TradeOrder, EquityGuard, PortfolioRules | composing trades into one account with bounded slots |
| Outcomes | grading a recommendation on two candle resolutions |
| JsonExtractor, JsonText, ModelAnswers | recovering a JSON object from a model completion |
| Reactions, ReactionPrices | incremental measurement of market reactions to news |
| ManualPositions, ManualValue | the ledger of a manually recorded position |
| ContextBudget, ContextRemains | fitting a snapshot into the context window |
| Risk, RiskRules | leverage and size clamps |

## Where the code departs from its word

Each of these is a lemma or a contract of the model; the code is modelled as it is, with the exact condition where there is one.

- The bankruptcy cap covers liquidations only; a stop that gaps loses more than the margin exactly when its fill lies beyond
  the bankruptcy price (ReturnOnMargin.StopLosesMoreThanMargin).
- A fee rebate at least as large as the margin of an entry, which only the lab's flags allow, admits entries the cash does not
  cover (Rebates.CoveredExactlyBelowMargin; a whole run in RunEndsUncovered).
- Running-peak and pairwise drawdown part on negative equity (Drawdown.NegativeMarksBreakPairwise).
- An answer whose own text contains a closing think tag, or a fence that nothing closes, is lost
  (ModelAnswers.AnswerIsRecovered).
- A position whose quantity rounds to nothing stays open and books any explicit close in full
  (ManualPositions.ConservationNeedsSize).
- The comment in the payload builder says the full snapshot is kept; trimming news empties the summaries of the snapshot the
  caller holds, because the lists are shared (ContextBudget.Build). A row stored before the build is not affected.
- "Raw candle tail shortened" keeps the ten oldest of its rows and drops the latest candles whenever there are more
  (ContextBudget.ShortenedTailDropsTheLatest).
- The note about reductions is added after the last size check of the loop and can fail a build that one more reduction would
  have saved (ContextBudget.NoteCanOverflow; exact condition in BuildSucceedsExactly).
- The half-percent size floor overrides a configured maximum below it (Risk.MaximumHoldsAboveFloor).

## Model

| member | source | states |
|---|---|---|
| NoLookAhead.NoLookAhead | backend/internal/backtesting/engine.go:487-652 | For any decision function of the visible slices, two sorted multi-timeframe inputs that agree on every candle, benchmark bar and funding settlement closed by a moment leave the replay in the identical state (cash, open book, resting entry, closed trades, curve, counters) after every bar closed by then, whatever follows. |
| NoLookAhead.ReportsShareTheirPast | backend/internal/backtesting/engine.go:639-652 | Reports over two such inputs begin with the same trades and the same recorded curve: the history up to the moment is a prefix of both final ones. The curve meant is the recorded one, before a long one is thinned to 1500 points. |
| NoLookAhead.HistoryOnlyGrows | backend/internal/backtesting/engine.go:487-637 | A later bar never rewrites a closed trade or a recorded equity point. |
| NoLookAhead.ClosedByIsKnown | backend/internal/backtesting/engine.go:655-669 | The binary search of a sorted series cuts exactly the candles closed by the moment, no more and no fewer. |
| NoLookAhead.ViewsAgree | backend/internal/backtesting/engine.go:655-669 | The whole view a decision is given depends on nothing that closes after the bar. |
| ReplayLedger.LedgerBalances | backend/internal/backtesting/engine.go:487-637 | After every bar of every run, cash is the initial capital plus gross less fees plus funding over all open and closed positions, unrounded; every open position is sound and has quantity left. |
| ReplayLedger.FinalCash | backend/internal/backtesting/engine.go:639-652 | At the end nothing is open and cash differs from the initial capital plus the sum of stored net results by at most 1.5e-10 per trade, the effect of three roundings each. |
| ReplayLedger.AdmittedIsFresh | backend/internal/backtesting/engine.go:1242-1320 | An admitted position starts whole, with its entry fee booked and its funding clock at the first settlement after its bar. |
| ReplayLedger.StepBalances | backend/internal/backtesting/engine.go:487-637 | One bar keeps the ledger: exits, a resting fill, a market entry or a refused entry all conserve it. |
| ReplayRides.RunIsRides | backend/internal/backtesting/engine.go:505-517 | Every position of a run, open or closed, is the ride of one fresh position over exactly the bars that followed its opening, whatever else the account did. |
| ReplayRides.TradesCloseAfterOpening | backend/internal/backtesting/engine.go:505-539 | A trade closed by a bar closed strictly after it was opened. |
| ReplayRides.EveryTradePaidFundingOnce | backend/internal/backtesting/engine.go:1658-1677 | In a finished run the funding history of each trade, forced closes included, is exactly the payable multiples of eight hours in (opened, closed], each once. |
| ReplayRides.ClosedTradesPaidFundingOnce | backend/internal/backtesting/engine.go:1658-1677 | The same at any point of a run for the trades closed so far. |
| ReplayRides.TrailingRunExits | backend/internal/backtesting/engine.go:1372-1430 | In trailing mode every closed trade of a run left at the first bar that reached the nearer of its stop and its liquidation, at that price and for that reason. |
| RunExits.TradeIsRide | backend/internal/backtesting/engine.go:487-652 | Every trade of a finished run is the ride of a position opened on a bar: closed by the last bar of the ride for its reason, or by the end of the period while no bar had closed it. |
| RunExits.EveryExecutionIsAccounted | backend/internal/backtesting/engine.go:1372-1544 | Every execution of every trade of a finished run is its entry, a funding settlement, an exit that the prices of some bar of the series explain to the position as that bar found it, or the close at the end of the period; the reason of the trade is the kind of its last one. |
| RunExits.TakeProfitsWereTraded | backend/internal/backtesting/engine.go:1475-1510 | Every take-profit of every trade was paid a price its bar reached: at most the high for a long, at least the low for a short. |
| RunExits.StopsWereTraded | backend/internal/backtesting/engine.go:1399-1423 | Every stop of every trade was paid, before slippage, the level its bar reached or the open that had gapped past it. |
| RunExits.TargetsSurvive | backend/internal/backtesting/engine.go:1384-1423 | A target of a position survives a ride if and only if no bar of it reached the target without reaching a stop as well: a bar that reaches both takes the stops and keeps the targets. |
| EntryRuns.EveryTradeWasEntered | backend/internal/backtesting/engine.go:521-636 | Every position of every run, open or closed, was entered at the market on the bar of its signal, the spread crossed against it, or by an order that rested on the cheaper side of its signal and was filled at its limit on a later bar that reached it, within its patience. |
| EntryRuns.EntryTerms | backend/internal/backtesting/engine.go:1242-1320 | An accepted entry posts its share of the equity as margin, carries leverage times that, pays the fee on it and starts with the exit plan of the run. |
| EntryRuns.EntryIsRefused | backend/internal/backtesting/engine.go:1242-1320 | An entry is refused if and only if it has no price, no share or nothing to buy, cannot trail, or its margin and fee exceed the cash less the margins tied up pro rata. |
| EntryRuns.LimitWasTraded | backend/internal/backtesting/engine.go:911-920 | A resting order is filled at its limit on a bar that reached it, also when the bar opened beyond it. |
| RunMarks.ExtremesCountForDrawdown | backend/internal/backtesting/engine.go:498-504 | At every bar that finds positions open, what the account would be worth at the low and at the high, less the fee of closing, is among the marks the reported drawdown bounds. |
| RunMarks.StepIsMarked | backend/internal/backtesting/engine.go:498-519 | Every bar marks the account at both extremes before any position changes and at its close after the exits, and draws the latter. |
| RunMarks.AnalysesAreSpaced | backend/internal/backtesting/engine.go:541-545 | A bar is analysed if and only if it is not skipped and as many bars as fit the interval have passed since the last one analysed; without an earlier one it is. |
| RunMarks.OrderFates | backend/internal/backtesting/engine.go:521-539 | A resting order is given up past its patience, dropped by a full book, taken off by a bar that reaches its limit, opening at most one position at that limit, and otherwise rests with nothing changed. |
| RunMarks.UnfilledAreCounted | backend/internal/backtesting/engine.go:525-531 | The unfilled counter counts exactly the bars that find a resting order past its patience. |
| RunMarks.RunsStartEmpty | backend/internal/backtesting/metrics.go:32-41 | A run starts with its capital, or ten thousand where none is given, and nothing else. |
| NoLookAhead.ViewShowsTheLatest | backend/internal/backtesting/engine.go:655-669 | A decision sees the latest closed bars of each timeframe up to the limit, the market proxy once two hundred of its bars have closed, and says nothing on fewer than thirty. |
| TradeFigures.TradesReportTheirExcursions | backend/internal/backtesting/engine.go:1372-1377 | The best and worst excursion a stored trade reports bound both extremes of every bar after its opening up to its close, in percent of its entry, and each is attained unless it is nought. |
| TradeFigures.ReturnIsOnMargin | backend/internal/backtesting/engine.go:1546-1571 | The stored return is the stored net result in percent of the margin, to the nearest hundredth. |
| ReplaySafety.BookIsBounded | backend/internal/backtesting/engine.go:505-539 | The open book never exceeds the configured maximum in any reachable state. |
| ReplaySafety.RunAdmitsCovered | backend/internal/backtesting/engine.go:505-637 | With positive leverage and any fees whose rebate stays below the margin of an entry, which all non-negative fees do, every bar of every run that adds a position leaves the reserved margin within cash. |
| ReplaySafety.FeesAreSane | backend/internal/config/config.go:452-456 | Fees the configuration accepts meet that condition at any leverage. |
| ReplaySafety.EntryTakesItsCost | backend/internal/backtesting/engine.go:1242-1320 | An accepted entry lowers the room between cash and reserved margin by exactly its margin and fee. |
| Rebates.CoveredExactlyBelowMargin | backend/internal/backtesting/engine.go:1242-1320 | At a given leverage and fee, every accepted entry on every account is covered if and only if 100 + leverage x fee rate is positive. |
| Rebates.UncoveredEntry | backend/internal/backtesting/engine.go:1283-1286 | For every leverage and fee outside that condition, an account and a signal whose accepted entry is not covered. |
| Rebates.RunEndsUncovered | backend/internal/backtesting/engine.go:487-637 | A whole run, from its start: two accepted entries under a rebate of the full notional and one funding settlement leave 250 reserved against 200 of cash. |
| ReplaySafety.StepAdmitsCovered | backend/internal/backtesting/engine.go:505-637 | One bar that admits an entry, resting or market, leaves the book covered. |
| ReplaySafety.RunIsTracked | backend/internal/backtesting/metrics.go:118-144 | Throughout a run the peak and the drawdown are those of the recorded marks. |
| ReplaySafety.ReportedDrawdown | backend/internal/backtesting/metrics.go:118-144 | The reported drawdown of a run is attained and never exceeded from the running peak over all marks, and with non-negative marks it is at least the figure of the close-only curve. |
| ReplaySafety.MarkIsClosingValue | backend/internal/backtesting/metrics.go:118-130 | The equity mark is the cash that closing the whole book at that price leaves, but for the slippage closing pays and the funding due by then. |
| TradeLedger.UpdateConserves | backend/internal/backtesting/engine.go:1372-1430 | One bar changes cash by exactly the change of the position result, keeps exited plus remaining equal to the original quantity, and closes the trade exactly when nothing remains. |
| TradeLedger.ForceCloseConserves | backend/internal/backtesting/engine.go:1573-1577 | A forced close conserves the same books and leaves nothing open. |
| TradeLedger.ExecuteExitConserves | backend/internal/backtesting/engine.go:1512-1544 | A single exit conserves quantity, gross and cash; one of 100 percent closes everything. |
| TradeLedger.ApplyFundingConserves | backend/internal/backtesting/engine.go:1658-1677 | Funding moves cash and the position result together and leaves the quantity. |
| TradeLedger.TouchedTargetsLeave | backend/internal/backtesting/engine.go:1475-1510 | Meeting the touched levels leaves max(0, remaining - original x sum of touched shares / 100). |
| TradeLedger.TouchedShareOfPermutation | backend/internal/backtesting/engine.go:1475-1510 | That amount does not depend on the order of the level list. |
| TradeLedger.FinishedTrade | backend/internal/backtesting/engine.go:1546-1571 | A finalized trade has exited its full size; its gross result is sign x (exit price - entry price) x original size, and the stored net is within three half units of the tenth decimal of the exact one. |
| BarExits.BarIsExplained | backend/internal/backtesting/engine.go:1372-1430 | What one bar does to any position, said on its prices: which exits it adds, each at the price of a reached target, at a reached stop or the open beyond it, or at a reached liquidation price capped at bankruptcy, with share, result and fee; which targets and stops are left; and for which reason it closes. |
| BarExits.StopsWinTheBar | backend/internal/backtesting/engine.go:1384-1423 | A bar that reached a stop adds no take-profit and leaves every target alone; each stop it adds is ambiguous exactly when a target was reached too; a bar that reached only targets adds no stop. |
| BarExits.LiquidationMeans | backend/internal/backtesting/engine.go:1636-1656 | Liquidation lies where the margin left is the maintenance margin on the notional, or at the entry once that exceeds the margin. |
| BarExits.LiquidationLiesBetween | backend/internal/backtesting/engine.go:1636-1656 | With a maintenance margin of zero or more it lies between entry and bankruptcy: at bankruptcy exactly without one, at the entry exactly when it takes up the whole margin. |
| Ride.RideConserves | backend/internal/backtesting/engine.go:1372-1430 | Over any number of bars a position conserves its books and is closed exactly when nothing remains. |
| Ride.RideShift | backend/internal/backtesting/engine.go:1372-1430 | What happens to a position does not depend on the cash of the account: positions are independent. |
| FundingClock.NextFundingIsNext | backend/internal/backtesting/engine.go:1710-1720 | The next settlement is the first multiple of eight hours strictly after the moment. |
| FundingClock.DueIsExact | backend/internal/backtesting/engine.go:1658-1677 | The settlements due are exactly the multiples of eight hours in the half-open interval, in increasing order. |
| FundingClock.ApplyFundingBooksDue | backend/internal/backtesting/engine.go:1658-1677 | One call books each due settlement once and leaves the clock past the close of the bar. |
| FundingClock.RepeatedFundingIsFree | backend/internal/backtesting/engine.go:1573-1577 | Settling the same bar again, as the forced close does, charges nothing. |
| FundingClock.FundingChargedOnce | backend/internal/backtesting/engine.go:1658-1677 | Over bars of any length and with any gaps, the instants charged are exactly the payable multiples of eight hours in (opened, last close seen]. |
| FundingClock.UpdateBooksDue | backend/internal/backtesting/engine.go:1372-1385 | A bar adds the settlements due by its close to the funding history and exits add none. |
| FundingClock.ShortsReceiveWhatLongsPay | backend/internal/backtesting/engine.go:1658-1677 | Over a bar a long pays, and a short of the same size receives, the notional at the open times the sum of the rates due. |
| FundingClock.RatesAddUp | backend/internal/backtesting/engine.go:1659-1663 | That sum takes the published rate of each settlement where there is one and the configured rate elsewhere. |
| Chandelier.TrailingSurvives | backend/internal/backtesting/engine.go:1372-1473 | A trailing position survives exactly the bars none of which reached the nearer of liquidation and the stop computed from the entry and the extremes of earlier bars only: no bar triggers a level it set itself. |
| Chandelier.TrailingExit | backend/internal/backtesting/engine.go:1372-1430 | It leaves at the first such bar, whole, by the stop if that is nearer than liquidation and by liquidation otherwise. |
| Chandelier.StopNeverRetreats | backend/internal/backtesting/engine.go:1436-1458 | The trailing stop never moves away from the price. |
| ReturnOnMargin.LadderStepMeansItsReturn | backend/internal/backtesting/engine.go:1342-1369 | A ladder step lies exactly at its return on margin at any leverage, as a gain or as a loss. |
| ReturnOnMargin.TakeProfitStepEarns | backend/internal/backtesting/engine.go:1512-1544 | On a position whose margin carries its notional, a take-profit step realises margin x percentage x the share it actually closed, and its own share whenever that much is left. |
| MarginRuns.RunIsTold | backend/internal/backtesting/engine.go:487-652 | Every trade of every run carries its notional on its margin at its leverage, from admission to the end, and each of its executions is what its kind promises. |
| MarginRuns.TakeProfitsEarnTheirSteps | backend/internal/backtesting/engine.go:1475-1544 | In every run on a profit ladder, every take-profit execution of every trade happened at the price of a ladder step and earned margin x percentage x the share it closed, to ten places. |
| MarginRuns.LiquidationsLoseAtMostTheMargin | backend/internal/backtesting/engine.go:1624-1634 | In every run, every liquidation of every trade lost at most the margin behind the quantity it closed and the slippage of closing it, however far the bar gapped. |
| MarginRuns.UpdateIsTold | backend/internal/backtesting/engine.go:1372-1430 | One bar keeps all of that: remaining targets stay on the ladder and every new execution is honest. |
| ReturnOnMargin.LiquidationLossIsBounded | backend/internal/backtesting/engine.go:1624-1634 | However far a bar gaps, a liquidation loses at most the posted margin and the slippage on the quantity it closes. |
| ReturnOnMargin.StopLosesMoreThanMargin | backend/internal/backtesting/engine.go:1611-1622 | A stop, which fills at the open on a gap, loses more than the margin exactly when its fill lies beyond the bankruptcy price. |
| Levels.SortByPriceIsPermutation | backend/internal/backtesting/engine.go:1475-1483 | Sorting the levels loses and invents none. |
| Levels.SortByPriceIsOrdered | backend/internal/backtesting/engine.go:1475-1483 | The nearest level is met first. |
| Levels.ShiftMovesSurvivors | backend/internal/backtesting/engine.go:936-948 | Shifting a plan moves each level that stays above zero by the same distance, keeps its share and the order, and loses none where all stay above zero. |
| Replay.ShiftedKeepsDistances | backend/internal/backtesting/engine.go:922-948 | A resting order filled at its limit keeps the geometry of the signal: measured from the fill, each surviving level is as far away, with the same share, as it was from the reference. |
| Drawdown.RecordAllIsPeakDrawdown | backend/internal/backtesting/metrics.go:132-144 | The reported figure is the maximum over all moments of the loss from the running peak: attained and never exceeded. |
| Drawdown.PairwiseDrawdown | backend/internal/backtesting/metrics.go:132-144 | It is attained by some earlier/later pair of marks and bounds every pair whose later mark is not negative. |
| Drawdown.LossPctFromHigherPeak | backend/internal/backtesting/metrics.go:132-144 | Measuring from a higher peak gives the larger loss if and only if the later mark is not negative (or the peaks are equal): the exact condition under which the two definitions agree. |
| Drawdown.NegativeMarksBreakPairwise | backend/internal/backtesting/metrics.go:132-144 | A concrete curve with a negative mark on which running-peak and pairwise drawdown differ. |
| Drawdown.MoreMarksRaiseDrawdown | backend/internal/backtesting/engine.go:498-504 | Adding intrabar marks to a curve can only raise the reported drawdown and the peak. |
| ReplayEngine.SimulateSeries | backend/internal/backtesting/engine.go:453-652 | The imperative replay over mutable positions and account returns exactly the trades, account state, counters and curve of the specified run; a curve above 1500 points is returned as 1500 of its points at strictly increasing positions, evenly spread, first and last included. |
| ReplayEngine.StepBar | backend/internal/backtesting/engine.go:487-637 | The loop body takes the whole state to the specified next state. |
| ReplayEngine.ReplayBars | backend/internal/backtesting/engine.go:487-637 | The bar loop reaches the specified state after every bar of the series. |
| ReplayEngine.SettleBar | backend/internal/backtesting/engine.go:498-519 | Marks, exits in place over the open book and the close mark, as specified, with survivors in order. |
| ReplayEngine.MeetPending | backend/internal/backtesting/engine.go:521-539 | A resting entry expires, is dropped by a full book, fills at its limit as maker or keeps resting. |
| ReplayEngine.DecideOnBar | backend/internal/backtesting/engine.go:541-636 | An analysis point records itself, skips a full book, rests a pullback order or enters at market. |
| ReplayEngine.FinishPeriod | backend/internal/backtesting/engine.go:639-648 | Positions left at the end are closed at the last candle and the final mark recorded. |
| ReplayEngine.SweepOpen | backend/internal/backtesting/engine.go:505-514 | Filtering the book in place keeps exactly the survivors and stores each closed trade. |
| ReplayEngine.CloseOpen | backend/internal/backtesting/engine.go:640-644 | Each position left is force-closed once. |
| ReplayEngine.OpenAt | backend/internal/backtesting/engine.go:1242-1320 | An entry is refused without touching cash, or opens a fresh position and takes the fee. |
| ReplayEngine.Enter | backend/internal/backtesting/engine.go:530-537 | An admitted position joins the book and the account is re-marked; a refused one changes nothing. |
| ReplayEngine.BuildExitPlan | backend/internal/backtesting/engine.go:1260-1281 | The levels of each exit mode, or refusal where a trailing plan has no range to trail by. |
| ReplayEngine.BuildLadder | backend/internal/backtesting/engine.go:1342-1369 | The usable ladder steps as price levels, in order. |
| ReplayEngine.AnyTargetTouched | backend/internal/backtesting/engine.go:1579-1599 | Whether the bar reaches any level of the list: a target by the high for a long and the low for a short, a stop the other way. |
| ReplayEngine.EquityCurve | backend/internal/backtesting/metrics.go:53-65 | Downsampling keeps a short curve, and otherwise picks exactly the asked number of points at strictly increasing positions, first and last included. |
| ReplayEngine.SimState.MarkToMarket | backend/internal/backtesting/metrics.go:120-130 | The account is valued with every open position at the mark, less closing fees, and the mark recorded. |
| ReplayEngine.SimState.RecordEquity | backend/internal/backtesting/metrics.go:132-144 | Equity, peak and drawdown move to the specified new values, and nothing else does. |
| ReplayEngine.SimState.RecordEquityPoint | backend/internal/backtesting/metrics.go:46-51 | The curve gains one point with the last equity. |
| ReplayEngine.SimState.AvailableMarginFor | backend/internal/backtesting/metrics.go:103-116 | Free margin is cash less the margin reserved pro rata by the open positions. |
| ReplayEngine.OpenTrade.UpdateOpenTrade | backend/internal/backtesting/engine.go:1372-1430 | One bar updates the position object and the account cash to the specified result, which BarExits explains in prices, and reports a trade exactly when it closed. |
| ReplayEngine.OpenTrade.ApplyFunding | backend/internal/backtesting/engine.go:1658-1677 | The funding loop terminates and books what the specification does. |
| ReplayEngine.OpenTrade.ExecuteExit | backend/internal/backtesting/engine.go:1512-1544 | An exit changes the position object and cash as specified. |
| ReplayEngine.OpenTrade.ExecuteTouchedTargets | backend/internal/backtesting/engine.go:1475-1510 | The touched levels are executed nearest first until nothing is left, and the rest are returned. |
| ReplayEngine.OpenTrade.TrailStop | backend/internal/backtesting/engine.go:1436-1458 | The extreme and the stop level move as specified. |
| ReplayEngine.OpenTrade.StopPrecedesLevel | backend/internal/backtesting/engine.go:1460-1473 | Whether a touched stop lies nearer than the given adverse level. |
| ReplayEngine.OpenTrade.ForceClose | backend/internal/backtesting/engine.go:1573-1577 | The forced close settles funding, exits the rest and stores the trade. |
| ReplayEngine.OpenTrade.FinalizeTrade | backend/internal/backtesting/engine.go:1546-1571 | The stored trade of the position as it stands. |
| Portfolio.ComposePortfolio | backend/cmd/lab/portfolio.go:135-270 | For all trades with from <= open <= close: offered in opening order, each is ruled on by the account as it stood at its opening, with exactly the accepted trades closed by then settled: refused when the slots are full, suspended when the guard, shown the start and the equity after each settlement, refuses, refused without a positive margin, and accepted otherwise; the accepted ones are the entries, the suspended ones are counted. Accepted and refused together are the input; never more than the slots are open at once; settlements run in non-decreasing close time, each accepted trade once; each result compounds on the equity settled before it; final equity is the start plus all results; wins, profit factor and drawdown are those of the settled results in order; exposure counts the busy seconds (measure of the union) and the position seconds (sum of durations). |
| Portfolio.SuccessiveTradesCompound | backend/cmd/lab/portfolio.go:228-241 | When no accepted trade opens before an earlier one has closed, the final equity is the start times the product of one plus share times return, the share being the constant where it is positive and the own one of the trade otherwise. |
| Portfolio.EntriesSettleTheirMargin | backend/cmd/lab/portfolio.go:228-241 | Every accepted trade settles for its percentage of the margin it posted: that share of the equity at its opening. |
| PortfolioRules.EveryRulingIsTheAccounts | backend/cmd/lab/portfolio.go:207-242 | Every offered trade is ruled on by the trades taken before it: refused by a full book exactly when as many as there are slots close later, else suspended exactly when the account has lived through a whole window and is worth less than its mean over it, second by second, else refused without a margin to post, else taken. |
| PortfolioRules.SampleIsWorth | backend/cmd/lab/portfolio.go:58-104 | The sample of the guard in force at any moment up to an opening is the start plus the results of all that had closed by then. |
| Portfolio.TallyMeans | backend/cmd/lab/portfolio.go:188-196 | Gains less losses are what the account made, neither is negative, and a trade that broke even counts as won. |
| Portfolio.FactorMeans | backend/cmd/lab/portfolio.go:257-262 | The profit factor times the losses is the gains; without losses it is infinite exactly when anything was gained. |
| Portfolio.Composer.SettleUntil | backend/cmd/lab/portfolio.go:169-205 | Everything due by the moment is settled, earliest close first, and every composer invariant is kept. |
| Portfolio.Composer.SettleOne | backend/cmd/lab/portfolio.go:180-203 | One settlement advances the exposure integrals to its close and books its result. |
| Portfolio.Composer.NextDue | backend/cmd/lab/portfolio.go:170-179 | The position settled next is one that closes first among those due. |
| Portfolio.Composer.AdvanceTo | backend/cmd/lab/portfolio.go:181-187 | Exposure advances by the elapsed seconds times the open positions, and stays equal to the integrals of the accepted trades. |
| Portfolio.Composer.Book | backend/cmd/lab/portfolio.go:188-202 | Equity, wins, gross win and loss, peak and drawdown after one settlement; the guard is shown the new equity at that close. |
| Portfolio.Composer.Offer | backend/cmd/lab/portfolio.go:207-242 | A trade is ruled on by the account after everything due has settled, and the ruling is recorded; accepted, it joins the entries with the result its margin implies, otherwise it joins the refused and the book is as it was. |
| Portfolio.RuledNow | backend/cmd/lab/portfolio.go:207-242 | The account at an opening, with nothing due left, is the one every ruling must speak of: known less settled trades are the open ones, the equity is the start plus the settled results, the guard has seen each. |
| Portfolio.Composer.Accept | backend/cmd/lab/portfolio.go:237-241 | An accepted trade joins the open list and settles for its percentage of the margin: the share of the current equity, the constant where positive and its own otherwise. |
| Portfolio.Composer.SettleRest | backend/cmd/lab/portfolio.go:243-255 | Whatever is still open settles at its own close, past the window if need be. |
| Portfolio.OfferAll | backend/cmd/lab/portfolio.go:207-242 | Offering every trade in opening order leaves each either accepted or refused. |
| Portfolio.Settled | backend/cmd/lab/portfolio.go:257-270 | With nothing open, equity and the exposure integrals are the totals over the accepted trades. |
| Portfolio.ExposureAdvances | backend/cmd/lab/portfolio.go:181-187 | The integral of the number of open positions, and the measure of the time any is open, over an interval in which none closes. |
| Portfolio.SlotsAfterAccepting | backend/cmd/lab/portfolio.go:219-222 | Accepting below the slot limit keeps the number of trades open at any moment within it. |
| Portfolio.CompoundedAfterAccepting | backend/cmd/lab/portfolio.go:228-241 | The equity a new trade is sized on is the start plus exactly the results settled by its opening. |
| TradeOrder.SortTradesSorts | backend/cmd/lab/portfolio.go:141-147 | The trades are reordered by opening time, then symbol; none is lost. |
| TradeOrder.SortTradesOrdersTies | backend/cmd/lab/portfolio.go:141-147 | Of two trades opened at once the one with the smaller symbol comes first. |
| TradeOrder.SymbolsAreAlphabetical | backend/cmd/lab/portfolio.go:141-147 | Symbols are ordered by the first place where they part, a shorter one before what continues it. |
| Portfolio.ExposureBoundsBook | backend/cmd/lab/portfolio.go:257-270 | Where every accepted trade closes inside the window, the exposure lies between 0 and 100 percent and the average book between the exposure and the slots times it. |
| Portfolio.DurationsAreOpenSum | backend/cmd/lab/portfolio.go:181-187 | The summed durations are the number of open trades summed second by second. |
| EquityGuards.EquityGuard.Allows | backend/cmd/lab/portfolio.go:70-104 | The guard allows an entry if and only if there is too little history or the equity is at least the exact time-weighted mean, over the whole window, of the step function the samples define. |
| EquityGuards.EquityGuard.Record | backend/cmd/lab/portfolio.go:58-64 | A sample is appended only when the guard has a window. |
| EquityGuards.MeanIsBetween | backend/cmd/lab/portfolio.go:83-104 | That mean lies between any bounds of the equity in force over the window. |
| EquityGuards.AreaOfStep | backend/cmd/lab/portfolio.go:83-100 | Between two samples the area grows by the standing equity times the elapsed seconds. |
| Outcomes.DetectHits | backend/internal/recommendations/outcomes.go:154-178 | The candle walk returns the specified hit: first touch, resolved on the finer candles where one candle touches both sides. |
| Outcomes.ResolveWithFiner | backend/internal/recommendations/outcomes.go:183-209 | The fine candles inside the conflict candle decide it at the first that touches one side only; one that touches both leaves it undecided. |
| Outcomes.FirstTouched | backend/internal/recommendations/outcomes.go:213-232 | The first level of the list the candle reaches, by its high or low according to side and direction, and none before it. |
| Outcomes.ResolutionsAgree | backend/internal/recommendations/outcomes.go:154-209 | When the fine candles partition each coarse candle, grading on either resolution gives the same verdict, for both directions. |
| Outcomes.FinestVerdict | backend/internal/recommendations/outcomes.go:154-178 | On its own resolution the verdict is that of the first candle that reaches any level. |
| Outcomes.VerdictIsFinal | backend/internal/recommendations/outcomes.go:154-209 | A verdict other than none is unchanged by candles that come later. |
| Outcomes.NoVerdictMeans | backend/internal/recommendations/outcomes.go:154-232 | A long has no verdict if and only if every candle has its high below every target and its low above every stop; a short the other way; whatever the finer candles are. |
| Outcomes.VerdictMeans | backend/internal/recommendations/outcomes.go:154-232 | On the finest candles the first one to reach any level decides: take-profit if it reached only targets, stop if only stops, ambiguous if both. |
| Outcomes.TakeProfitMeans | backend/internal/recommendations/outcomes.go:154-232 | On either resolution the verdict is take-profit if and only if some fine candle reached a target and no stop and none before it reached any level. |
| Outcomes.ConflictMeans | backend/internal/recommendations/outcomes.go:183-209 | Where one candle reaches both sides, the first finer candle opening inside it to reach any level decides, and it stays ambiguous if that one reached both or none did. |
| Outcomes.CoarseTouches | backend/internal/recommendations/outcomes.go:213-232 | A coarse candle touches a side exactly when one of its fine candles does. |
| JsonExtractor.ExtractObject | backend/internal/llm/schema.go:147-180 | The byte scan returns exactly the specified block or failure. |
| JsonExtractor.BlockIsFound | backend/internal/llm/schema.go:147-180 | A balanced block standing at the first brace, with quotes, escapes and braces inside strings, is returned whole. |
| JsonExtractor.ExtractedIsBlock | backend/internal/llm/schema.go:147-180 | Whatever is returned is a balanced block standing at the first brace. |
| JsonExtractor.OnlyOneBlock | backend/internal/llm/schema.go:147-180 | At most one balanced block stands there, so the one returned is also the shortest. |
| JsonExtractor.FailsOnlyWithoutBlock | backend/internal/llm/schema.go:147-180 | Extraction fails exactly when no balanced block stands at the first brace, and with "no object" exactly when there is no brace. |
| JsonText.ExtractorInvertsPrinter | backend/internal/llm/schema.go:147-180 | For any JSON object in any layout, any prefix without an opening brace and any suffix, the extractor returns exactly the printed object (sections 4 and 7 of RFC 8259). |
| JsonText.ObjectIsBlock | backend/internal/llm/schema.go:147-180 | Every printed JSON object is a balanced block. |
| ModelAnswers.AnswerIsRecovered | backend/internal/llm/schema.go:105-143 | From thoughts and then prose without an opening brace, or a fence, around a printed object, the candidate is that object if and only if its own text holds no closing think tag and, when the answer opens a code fence, a fence follows the object or none is left before or inside it; with a closing tag after the object, if and only if it is the candidate of what follows that tag. |
| ModelAnswers.ThinkingIsIgnored | backend/internal/llm/schema.go:127-133 | The candidate of a completion is that of the text after its last closing think tag: nothing before the tag matters. |
| ModelAnswers.StripCodeFences | backend/internal/llm/schema.go:127-143 | The stepwise stripping equals its specification, trimming the UTF-8 encoding of every Unicode space. |
| ModelAnswers.BlanksAreWhiteSpace | backend/internal/llm/schema.go:127-143 | What is trimmed is exactly the UTF-8 encoding of the runes with the property White_Space. |
| ModelAnswers.TrimTakesTheBlanks | backend/internal/llm/schema.go:127-143 | Trimming takes blanks at both ends, all of them and nothing else. |
| ModelAnswers.FindCandidate | backend/internal/llm/schema.go:105-115 | Trimming, stripping and extraction compose to the specified candidate. |
| ModelAnswers.FencedObject | backend/internal/llm/schema.go:134-142 | Inside an opened fence: the exact condition under which cutting at the last fence spares the object. |
| ModelAnswers.LastIndexAround | backend/internal/llm/schema.go:128-141 | Where the last occurrence of a tag lies in a text around an object. |
| Reactions.RunIsConsistent | backend/internal/news/reactions.go:106-222 | After any passes in time order over a growing candle store: each return comes with an observation in [target, now] on a stored candle, observations are in horizon order, a horizon is open only while no candle has closed since its target, Complete means the 24h horizon is filled and so all five, and a tracked reaction is due strictly later. |
| Reactions.RunIsWriteOnce | backend/internal/news/reactions.go:106-222 | Baseline, returns and observation times recorded by a pass are never changed by a later one. |
| Reactions.CompleteMeansAllFive | backend/internal/news/reactions.go:204-209 | A consistent reaction that is complete has all five horizons measured. |
| Reactions.LateEvaluationIsTerminal | backend/internal/news/reactions.go:204-216 | An evaluation at or after the baseline plus 24 hours plus the grace ends the tracking, complete exactly when the last horizon is filled; one without a baseline ends at its own deadline. |
| Reactions.StatusMeans | backend/internal/news/reactions.go:106-222 | An evaluation is complete exactly with the last return, ends without it exactly once a day and the grace have passed, and without a baseline exactly once the grace has; otherwise it goes on. |
| Reactions.PassesWaitTheirTurn | backend/internal/repository/news_reactions.go:24-40 | A pass leaves alone a reaction that has ended or is not due, and evaluates any other. |
| ReactionPrices.RunIsPriced | backend/internal/news/reactions.go:106-222 | After any passes over growing candles: the baseline is the close of a stored candle; each return leads from it to the close of the stored candle of its observation; no candle from the baseline to a day later rose above the recorded rise or fell below the recorded fall, and each is that of some candle unless it is nought. |
| Reactions.EvaluationSeesNoFuture | backend/internal/news/reactions.go:106-222 | An evaluation depends only on candles closed by its moment. |
| Reactions.FillIsWriteOnce | backend/internal/news/reactions.go:161-179 | A horizon is filled once, with the first close at or after its target. |
| Reactions.FilledInOrder | backend/internal/news/reactions.go:161-179 | Filling keeps the observations in horizon order. |
| Reactions.UpsertIsPlain | backend/internal/repository/news_reactions.go:134-180 | Merging an evaluation into the stored row stores it as it is: it never lacks what the row had. |
| Reactions.NextDueIsLater | backend/internal/news/reactions.go:224-240 | The next evaluation lies strictly in the future. |
| Reactions.NextDueIsFirstOpen | backend/internal/news/reactions.go:224-240 | It is the first open horizon, or a poll from now once that is overdue. |
| Reactions.ReactionTracker.Evaluate | backend/internal/news/reactions.go:106-222 | The stepwise evaluation equals its specification, whose figures ReactionPrices states in prices. |
| Reactions.ReactionTracker.FillHorizons | backend/internal/news/reactions.go:161-179 | The horizon loop fills what is due and measured, as specified. |
| Reactions.ReactionTracker.ObserveExtremes | backend/internal/news/reactions.go:181-202 | The rise and fall observed so far, as specified. |
| Reactions.ReactionQueue.ProcessDue | backend/internal/news/reactions.go:77-104 | Each pair of a pass ends up as if it were evaluated alone, one failing pair disturbs no other, failures are exactly the pairs that failed, the rest are counted as updated, and the other two counters are the evaluations that ended complete and that ended for lack of data. |
| ManualPositions.SizeIsConserved | backend/internal/positions/service.go:164-261 | Over every serial history of closes, fees, funding and rate changes of a position of some size: closed quantities plus remainder equal what was opened, and it is closed exactly when nothing remains. |
| ManualPositions.ConservationNeedsSize | backend/internal/pnl/pnl.go:214-235 | Size is conserved over every history if and only if the asked quantity is at least half a unit of the twelfth decimal. |
| ManualPositions.SizeVanishes | backend/internal/pnl/pnl.go:214-235 | A sized position is opened with quantity zero exactly below that threshold. |
| ManualPositions.CloseTakesFromRemaining | backend/internal/pnl/pnl.go:134-176 | A close takes from the remainder exactly what it books, if and only if something remains or no explicit quantity was asked; the position is closed exactly when nothing is left. |
| ManualPositions.CloseKeepsValue | backend/internal/pnl/pnl.go:31-105 | Closing any part at the current price changes the total by its fee alone, within 1.5e-10. |
| ManualPositions.RealizedIsExact | backend/internal/pnl/pnl.go:134-176 | Over every history the realised gross is the sum of each closed quantity at its own price, within half a unit of the tenth decimal per close. |
| ManualValue.WorthIsWhatWasWon | backend/internal/pnl/pnl.go:31-105 | Over every history of a position of known size, its total at a price is what each closed quantity won at its own price and what the open one would win at this, less every fee, plus every funding payment received, within half a unit of the tenth decimal per close and one more. |
| ManualValue.FundingIsReceived | backend/internal/pnl/pnl.go:59-65 | One more funding amount raises the net and the total by it and touches neither gross nor open result. |
| ManualValue.FeeIsPaid | backend/internal/pnl/pnl.go:55-57 | One more fee lowers the net and the total by it and touches neither gross nor open result. |
| ManualValue.FillIsCounted | backend/internal/pnl/pnl.go:44-54 | One more fill costs its fee, and a close adds what it realised. |
| ManualValue.CloseIsRecorded | backend/internal/pnl/pnl.go:134-204 | A close of a sized position records the quantity asked for, clipped to the remainder, or the share asked of it; its result; its fee as entered, nothing at rates never configured, else the rate of its kind on the notional; and leaves the rest. |
| ManualValue.ShareIsRecorded | backend/internal/pnl/pnl.go:160-165 | The recorded percentage is what was taken of the remainder, to six places. |
| ManualValue.UnsizedCloses | backend/internal/positions/service.go:164-226 | A position of unknown size is closed exactly by a full close or one of a hundred percent, asked or by default. |
| ManualValue.RefusalsMean | backend/internal/positions/service.go:164-203 | A close is refused exactly on a closed position and where neither a share nor a quantity is asked. |
| ManualValue.OpenIsRecorded | backend/internal/pnl/pnl.go:191-208 | Opening records one fill of the whole size at the entry price, with its fee. |
| ManualValue.ReturnsOnMarginMean | backend/internal/pnl/pnl.go:67-100 | The reported percentages are the net, open and total result of the margin, and the remainder of the opened quantity, to four places. |
| ManualValue.ReturnsMean | backend/internal/pnl/pnl.go:76-80 | The price change is what one unit would win in percent of the entry, and the leveraged return its multiple, to six places. |
| ManualPositions.HistoryIsAppendOnly | backend/internal/positions/service.go:164-261 | Fills are only appended, and a closed position accepts none. |
| ManualPositions.EmptyPositionClosesAnything | backend/internal/pnl/pnl.go:134-165 | With nothing remaining, an explicit quantity is booked unclipped. |
| ManualPositions.Ledger.Close | backend/internal/positions/service.go:164-261 | A close is applied as specified or refused with the stated error and nothing changes. |
| ManualPositions.Ledger.Open | backend/internal/positions/service.go:67-138 | A new ledger holds the open position and its opening fill. |
| ManualPositions.Ledger.AddFee | backend/internal/positions/service.go:283-297 | A fee event is appended and nothing else changes. |
| ManualPositions.Ledger.AddFunding | backend/internal/positions/service.go:299-308 | A funding event is appended and nothing else changes. |
| ManualPositions.Ledger.SetFees | backend/internal/positions/service.go:43-43 | The fee profile changes and the books do not. |
| ManualPositions.Compute | backend/internal/pnl/pnl.go:31-105 | Folding the fills and cash events gives the specified profit and loss, whose meaning ManualValue states. |
| ManualPositions.DeriveSizeIsConsistent | backend/internal/pnl/pnl.go:214-235 | A known size holds the amounts of one position, each rounded to its places: notional = quantity x price = margin x leverage, with the amount that was given as given, the quantity before the notional before the margin. |
| ContextBudget.ContextGuardIsIdle | backend/internal/llm/service.go:96-115 | Whenever the options and the build succeed, the later "would exceed context" check cannot fire: prompt, response and reserve fit the window. |
| ContextBudget.EstimateIsSubadditive | backend/internal/llm/compact.go:192-202 | Joining two texts costs at most the sum of their estimates and saves at most one token. |
| ContextBudget.EstimateTokens | backend/internal/llm/compact.go:192-202 | The rune loop computes the specified estimate. |
| ContextBudget.ReductionsAreAPrefix | backend/internal/llm/compact.go:111-177 | A built payload is the encoding of the snapshot under the least sufficient number of reductions from the front of the list, reported by name, and fits the budget. |
| ContextBudget.CriticalNewsSurvives | backend/internal/llm/compact.go:300-319 | However far a payload is reduced, every critical news item is still there in order, with all but its summary. |
| ContextBudget.BuiltPayloadKeepsCriticalNews | backend/internal/llm/compact.go:111-177 | So every built payload carries the critical news of the snapshot. |
| ContextBudget.RetainedNews | backend/internal/llm/compact.go:305-319 | All critical items and the first few others are kept, each kind in its order. |
| ContextBudget.BuildSucceedsExactly | backend/internal/llm/compact.go:138-176 | For every encoder, which may fail on any payload: a build succeeds exactly when the snapshot fits or the first reduction to fit still fits with the note added. |
| ContextBudget.NoteCanOverflow | backend/internal/llm/compact.go:159-176 | For every snapshot with more than three similar cases that the other reductions leave alone and every encoder that prints the cases and the notes as JSON members: under the budget its payload just meets with three cases, the note makes the build fail although leaving the cases out would have made room. |
| ContextBudget.ShortenedTailDropsTheLatest | backend/internal/llm/compact.go:121-121 | Shortening the candle tail to ten rows changes nothing exactly when there are at most ten, and otherwise loses exactly the rows after the tenth, which are the latest candles. |
| ContextRemains.ListsThatRemain | backend/internal/llm/compact.go:117-137 | What any number of reductions leaves of the cases, candle rows, levels and data-quality details: how many of the first, or all. |
| ContextRemains.TimeframesThatRemain | backend/internal/llm/compact.go:117-137 | Every timeframe but those removed is still there, with its patterns as far as they were cut and, after the secondary indicators went, exactly the eight primary ones with their values. |
| ContextRemains.NewsThatRemains | backend/internal/llm/compact.go:117-137 | The summaries go at the second reduction, and at the third all but the critical items and the first three and two others. |
| ContextRemains.TokensMean | backend/internal/llm/compact.go:192-202 | The estimate is a token for each rune beyond ASCII and the fewest that hold the ASCII runes at 2.4 apiece. |
| ContextRemains.RowsAreTheLatest | backend/internal/llm/compact.go:204-290 | The rows are those of the latest candles, in order, as many as asked for. |
| ContextRemains.RowHoldsPrices | backend/internal/llm/compact.go:204-290 | A row holds open, high, low and close of its candle, each to the nearest hundredth. |
| ContextRemains.OptionsLeaveRoom | backend/internal/llm/service.go:238-262 | The options are refused exactly when fewer than 512 tokens remain of the window beside response, prompt and reserve, and otherwise leave at most what remains. |
| ContextBudget.Build | backend/internal/llm/compact.go:111-177 | The reduction loop returns the specified result, and empties the summaries of the caller's own snapshot exactly when two or more reductions were applied. |
| ContextBudget.ReduceToFit | backend/internal/llm/compact.go:138-157 | The loop over the steps, with its effect on the shared news lists. |
| ContextBudget.Payload.Apply | backend/internal/llm/compact.go:117-137 | Each step changes the payload in place as specified. |
| ContextBudget.Payload.TrimNewsSummaries | backend/internal/llm/compact.go:291-298 | Every summary of both lists is emptied in place. |
| ContextBudget.Payload.AddNote | backend/internal/domain/market.go:118-125 | A note is appended once. |
| ContextBudget.RetainCriticalAndHead | backend/internal/llm/compact.go:305-319 | The filter loop builds a new list as specified. |
| ContextBudget.Analyze | backend/internal/llm/service.go:92-115 | Options, build and guard compose to the specified request or error. |
| Risk.LeverageInBounds | backend/internal/risk/engine.go:65-204 | For every entry: minimum <= recommended <= risk maximum <= news cap <= maximum. |
| Risk.StopCostsAtMost | backend/internal/risk/engine.go:92-106 | Recommended leverage times stop distance is at most 35 percent of margin, or what the minimum leverage makes of it. |
| Risk.ConfidenceNeverLowers | backend/internal/risk/engine.go:149-157 | More confidence never lowers the risk maximum. |
| Risk.FurtherStopNeverRaises | backend/internal/risk/engine.go:92-106 | A further stop never raises it. |
| Risk.NewsNeverRaises | backend/internal/risk/engine.go:209-236 | One more news item never raises it. |
| RiskRules.VolatilityNeverRaises | backend/internal/risk/engine.go:107-133 | More volatility, by range, percentile and tag, never raises the risk maximum. |
| RiskRules.HourlyReadingCounts | backend/internal/risk/engine.go:382-390 | The hourly range is the one used where there is one, and there is none exactly when no timeframe above a minute has any. |
| RiskRules.CriticalNewsCaps | backend/internal/risk/engine.go:209-236 | While critical news is fresh no entry exceeds the critical cap, nor the smaller one in a volatile market. |
| RiskRules.CeilingIsCapsAndShares | backend/internal/risk/engine.go:83-176 | The ceiling is the news cap within what stop and volatility allow, times the share of each market circumstance, within what the confidence allows, times the shares of weak agreement, a level in the way and poor data. |
| RiskRules.MaximumIsWholeCeiling | backend/internal/risk/engine.go:178-185 | The risk maximum is the whole part of the ceiling moved into the configured range. |
| RiskRules.RecommendedIsNearest | backend/internal/risk/engine.go:187-198 | A plan gets the leverage it asks for within the range and the nearer end of it outside. |
| RiskRules.NothingForNoEntry | backend/internal/risk/engine.go:65-82 | A plan that enters nothing gets no leverage and no capital. |
| RiskRules.AllocationIsScaledSize | backend/internal/risk/engine.go:269-311 | The allocation is the asked or budgeted size within the maximum, times the share its circumstances leave, within four roundings, or half a percent where a budgeted one falls below. |
| Risk.StopOutIsBudgeted | backend/internal/risk/engine.go:252-311 | With a risk budget and a usable stop, a stop-out costs at most the budget and the rounding of half a hundredth of a percent of capital, unless the scaled size fell below the half-percent floor; then the size is half a percent and its stop-out costs no more than that share of 35 percent of margin, or of what the minimum leverage makes of it. |
| Risk.AllocationIsBounded | backend/internal/risk/engine.go:269-311 | The allocation is half a percent exactly where the floor applies to the scaled size, and otherwise at most the request within the maximum to the nearest hundredth, whatever scalings applied. |
| Risk.MaximumHoldsAboveFloor | backend/internal/risk/engine.go:269-311 | For a maximum given to the hundredth, the allocation respects it if and only if no risk budget is set or the maximum is at least the half-percent floor. |
| Risk.RiskSized | backend/internal/risk/engine.go:252-261 | The sized share is the one whose stop-out costs exactly the budget. |
| Risk.StopDistanceIsFurthest | backend/internal/risk/engine.go:364-379 | The distance is that of the furthest stop. |
| RiskRules.StopsLieWithin | backend/internal/risk/engine.go:364-379 | No stop lies further from the reference than that distance in percent, one lies exactly there, and there is none only without a reference or a stop away from it. |
| RiskRules.BlockedMeans | backend/internal/risk/engine.go:407-437 | A plan is blocked exactly by a resistance above a long or a support below a short, of strength 0.4 or more and within one percent. |
| Risk.OpposingLevelNearby | backend/internal/risk/engine.go:407-437 | An opposing strong level ahead of the price within one percent is found if and only if there is one. |
| Risk.Engine.Evaluate | backend/internal/risk/engine.go:65-204 | The narrowing steps compose to the specified assessment. |
| Risk.Engine.LeverageCeiling | backend/internal/risk/engine.go:83-176 | The leverage ceiling after every narrowing step. |
| Risk.Engine.SizePosition | backend/internal/risk/engine.go:269-311 | The allocation after cap, scalings and floor. |
| Risk.Engine.NewsLeverageCap | backend/internal/risk/engine.go:209-236 | The cap for a fresh critical item, stricter under high volatility. |
| Risk.StopDistancePct | backend/internal/risk/engine.go:364-379 | The loop computes the furthest distance, or none where there is no usable stop. |

## Left out

- IEEE-754 arithmetic and the division precision of the decimal library: reals are exact, with explicit rounding where the code rounds. The quantity of a percentage close is therefore not rounded to the sixteenth decimal.
- Sub-second times and time zones: moments are whole Unix seconds.
- Indicators, patterns and strategies, the universe ranker and the news context of the replay: folded into the decision function of the visible slices at the replayed moment.
- LLM mode of the replay: its similar cases carry outcomes without a check of when they were graded (backend/internal/history/service.go:176-206), so the non-interference claim is stated for the technical mode.
- The random-entry control group (backend/internal/backtesting/engine.go:564-578), progress callbacks, cancellation, decision reasons and data-quality counters of the replay.
- The summary statistics of a run beyond cash, trades, marks and curve (backend/internal/backtesting/metrics.go:147-286).
- Building the funding schedule from stored rates (backend/internal/backtesting/engine.go:1681-1693): the schedule is a map from settlement time to rate.
- Portfolio.ComposePortfolio: covers trades that open and close inside or after the window start (from <= open <= close), which is what the composer is given; ties of opening time and symbol are ordered stably.
- The name of the benchmark (backend/internal/analysis/features/market.go:33-37), which appears in detail texts only.
- Candle ranges, price snapshots after fixed delays and excursions of outcome grading (backend/internal/recommendations/outcomes.go:46-110, 235-262): single folds over a series.
- Decoding the JSON candidate into the response type, and its validation.
- Failures of the reaction store (read and write errors) and the limit on a pass: a pass is any list of distinct due pairs.
- Concurrent closes of one position: Close reads and writes in separate transactions (backend/internal/positions/service.go:165, 251), so ManualPositions speaks of serial histories.
- Plans, notes and events of manual positions; of positions of unknown size only the lifecycle of closes.
- ContextBudget.Payload: fields no reduction touches are gathered in one value, per-timeframe analyses enter already in compact form, and JSON encoding is an arbitrary partial function.
- Risk notes, the risk reason and the qualitative risk level (backend/internal/risk/engine.go:320-361): text and a threshold score.
- The locks around configuration, HTTP, persistence, fetching, scheduling and the user interface.
