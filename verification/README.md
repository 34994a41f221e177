# gogocoin: verified model of the trading core

gogocoin is a trading bot written in Go. It trades live, by turning ticks into signals, signals into orders and
fills into a ledger, and it backtests, by replaying bars through a simulator. This project models the four parts of
it whose correctness depends on several functions at once, and proves what they keep over whole runs:

1. **The position ledger** (`Ledger*.dfy`, `Calculator.dfy`, `Booking.dfy`, `OrderMonitor.dfy`, `WatchLaws.dfy`,
   `RiskManager.dfy`, `RiskLaws.dfy`, `OrdersInFlight.dfy`, `SignalWorker.dfy`, `OrderLaws.dfy`, `Analytics.dfy`).
   BUY fills open positions; SELL fills are matched against them oldest first and written back by order id, together
   with a trade row, in one transaction. The main results: matching is first in, first out in closed form and can be
   cut in two anywhere; over every run of distinct orders the cost basis is conserved; the status pattern by age
   holds after every step exactly when every BUY arrives in time; the order monitor produces such runs and records
   what the exchange last reported; an order is as large as its limits allow, and never sells a unit without a cost
   basis; the dashboard total is the conserved quantity; the daily limit and the trade interval are kept up to the
   orders in flight, and no further.
2. **Bar aggregation, twice** (`Buckets.dfy`, `Resampler.dfy`, `LiveAggregator.dfy`). The pull-style resampler of the
   backtest and the push-style aggregator of the live worker are related tick by tick, for ticks in any order, and
   the condition under which they agree on the raw stream is exact.
3. **The backtest** (`Portfolio.dfy`, `Simulator.dfy`, `Engine.dfy`, `EngineLaws.dfy`, `EquityLaws.dfy`,
   `TradeSchedule.dfy`, `TradeCosts.dfy`, `Report.dfy`, `Indicators.dfy`, `Scalping.dfy`, `ScalpingBacktest.dfy`).
   For every strategy and every stream of bars: cash conservation, solvency, a flat finish, no lookahead, the exact
   schedule and costs of every trade, an equity curve that shows what the account is worth, and one-pass statistics
   that mean what they say.
4. **The signal gate** (`StrategyWorker.dfy`, `GateLaws.dfy`, `QueueLaws.dfy`). When a BUY can be sent, what a forced
   exit means, how far apart forced exits are, when an action may repeat, and what the queue holds, over every run of
   ticks.

Code that updates state is modelled by classes whose methods are proved equal, state for state, to specification
functions (`RecordOrder`, `Resample`, `Replay`, `Step`, ...); the laws are lemmas about those functions. Prices and
quantities are exact reals, times are unbounded integers in Unix nanoseconds. Failing database calls, failing reads,
answers of the exchange, clock readings and the behaviour of a channel are parameters that range over everything.
`dafny verify dfyconfig.toml` checks the whole project.

## Where the code differs from its comments

- `pkg/backtest/engine.go:99` says that signals from bar N execute on bar N+1's open. The bar evaluated when
  `bars[i]` arrives is `bars[i-2]` (a zero bar the first time), so an order fills two bars after the bar it was
  decided on (`TradeSchedule.TradesFollowSchedule`), and the bar before the last is never evaluated
  (`EngineLaws.PenultimateBarUnseen`).
- For the same reason a trade can be closed at a time before it was opened. Over increasing timestamps this happens
  in a run if and only if some position is bought at `bars[e]` and `bars[e-1]` already reaches its target or stop
  (`TradeSchedule.ClosedBeforeOpened`); `TradeSchedule.DipBeforeEntry` gives runs in which it does.
- `internal/adapter/worker/strategy_worker.go:136` says that live bar boundaries match the backtest exactly. They do
  if and only if no tick goes back to an earlier bucket: `LiveAggregator.BoundariesMatchIffInOrder`.
- A BUY is suppressed when the positions are unreadable or at their stop, but what is looked at is the close of the
  completed bar, not the tick that completes it. `GateLaws.BuyGate` is the exact condition;
  `GateLaws.BuyRightAfterStop` shows that a tick past the stop with a quiet bar close sends the stop-loss SELL and
  then a BUY, and `GateLaws.BuyDespiteBreachedTick` that two ticks from the start are enough.
- A BUY that ends without a fill is booked at its requested size: `OrderMonitors.BookedSizeIsFill` says exactly when
  the booked size is the fill, `OrderMonitors.CanceledBuyLeavesPhantom` gives the family of failing inputs.
- Watches finish in any order, so an older BUY can be recorded after a younger one has been part-sold, and then the
  positions by age are no longer CLOSED, PARTIAL, OPEN. `LedgerShape.ShapeIffBuysTimely` is the exact condition,
  `LedgerShape.LateBuyBreaksShape` the family of shortest failing runs.
- The daily trade limit counts only the 100 latest trades (`internal/usecase/risk/manager.go:176`). When every order
  is on record before the next signal is checked, it is kept if and only if it is at most 100, or the trade interval
  leaves a day no room to exceed it (`RiskLaws.DailyLimitIffRead`; with the default interval that is 288 or more,
  `RiskLaws.DefaultInterval`). Any other limit admits whatever the interval admits (`RiskLaws.HighLimitIsNone`).
- An order is placed at once (`internal/usecase/trading/bitflyer_trader.go:140-155`), but its trade is on record only
  when its watch ends (`internal/usecase/trading/monitor/order_monitor.go:77-118`), and signals are checked in
  between. Two signals in quick succession exceed a limit of one and break the interval
  (`OrdersInFlight.TwoSignalsBreakBoth`), and so do any number of them (`OrdersInFlight.BurstExceedsLimit`). What is
  kept is the limit plus the orders in flight (`OrdersInFlight.DailyLimitInFlight`, `OrdersInFlight.LimitPlusFlight`),
  and the interval if and only if it is kept to the orders in flight (`OrdersInFlight.IntervalKeptIff`).

## Model

| member | source | states |
|---|---|---|
| Ledger.GetOpenPositionsMeaning | internal/infra/persistence/position_repo.go:38-60 | The query returns exactly the BUY rows of the symbol that are not closed and have something left, oldest first. |
| Ledger.GetOpenPositionsMultiplicity | internal/infra/persistence/position_repo.go:38-60 | Every open row is returned exactly as often as it stands in the table, and no other row at all. |
| Ledger.CloseOpenPositions | internal/infra/persistence/position_repo.go:65-73 | Ghost clean-up closes exactly the BUY rows of the symbol and changes nothing else of any row. |
| Ledger.UpdatePosition | internal/infra/persistence/position_repo.go:76-86 | An update reaches exactly the rows with that order id and keeps their identity and entry data. |
| Ledger.FifoClosedForm | internal/usecase/trading/pnl/calculator.go:246-271 | Closed form of FIFO matching: row k loses the part of the fill that the k older rows could not supply, capped by what it has left. |
| Ledger.UnmatchedIsExcess | internal/usecase/trading/pnl/calculator.go:250-285 | The matched quantity is the fill clamped to the open total: nothing is sold twice, nothing that is open is missed. |
| LedgerSell.SellIsOverlay | internal/usecase/trading/pnl/calculator.go:118-130 | With unique order ids, writing the touched rows back by order id changes exactly the matched rows of the table. |
| LedgerSell.QueryAfterSell | internal/infra/persistence/position_repo.go:38-60 | After a SELL the query yields the matched rows with something left, in unchanged order; order ids stay unique. |
| LedgerSell.MatchInTwoSteps | internal/usecase/trading/pnl/calculator.go:246-271 | Matching a + b at once equals matching a, querying again and matching b: same rows, same entry cost, same excess. |
| LedgerSell.SellRowsCompose | internal/usecase/trading/pnl/calculator.go:232-285 | Selling a + b and selling a then b leave the same table, for any table with unique ids, overselling included. |
| LedgerSell.SellGainCompose | internal/usecase/trading/pnl/calculator.go:279-285 | ... and the same revenue minus entry cost. |
| LedgerRuns.RunDistinct | internal/infra/persistence/position_repo.go:76-86 | Over every run of distinct orders and ghost closes the order ids of the positions table stay unique. |
| LedgerRuns.RowOrigin | internal/usecase/trading/pnl/calculator.go:104-116 | Every row of a reachable table was opened by one BUY of the run and still carries its symbol, time, size and price. |
| LedgerRuns.CostAfterSell | internal/usecase/trading/pnl/calculator.go:250-271 | A SELL moves exactly its entry cost from the remaining part to the used part of the whole table. |
| LedgerRuns.SellPnl | internal/usecase/trading/pnl/calculator.go:279-285 | Profit of a SELL is price times what open positions could supply, less entry cost, less fee. |
| LedgerRuns.SumPnlSaved | internal/infra/persistence/transaction.go:28-52 | The upsert of an order id the table does not hold appends one row and adds exactly its profit. |
| LedgerRuns.PnlRecorded | internal/infra/persistence/transaction.go:28-52 | Recording an order unknown to the trades table adds exactly its profit to the sum of booked profits. |
| LedgerRuns.CostBasisConserved | internal/usecase/trading/pnl/calculator.go:40-146 | Over every run of distinct orders and ghost closes: booked profit = matched revenue - everything spent on entries + entry cost of what is unmatched - fees; and used plus remaining cost is everything spent. |
| LedgerShape.SellKeepsShape | internal/usecase/trading/pnl/calculator.go:246-271 | A SELL keeps the pattern CLOSED, at most one PARTIAL, OPEN by age, and used + remaining = size in every row, in any table with unique order ids, whatever the order its rows were recorded in. |
| LedgerShape.OlderFirst | internal/infra/persistence/position_repo.go:38-60 | The query lists the older of two open rows first, ties by table order, whatever the order they were recorded in. |
| LedgerShape.AppendShape | internal/usecase/trading/pnl/calculator.go:104-120 | Recording a BUY keeps the pattern if and only if every younger row of its symbol is still untouched. |
| LedgerShape.ReachableRows | internal/usecase/trading/pnl/calculator.go:250-271 | In every run of distinct orders with positive BUY sizes, in any recording order: used + remaining = size and remaining >= 0 in every row. |
| LedgerShape.ShapeIffBuysTimely | internal/usecase/trading/pnl/calculator.go:40-146 | The pattern holds after every step of a run if and only if each BUY is recorded while no younger row of its symbol has been touched. |
| LedgerShape.ReachableLedger | internal/usecase/trading/pnl/calculator.go:40-146 | In particular it holds, with sizes adding up row by row, in every ledger whose BUYs are recorded in creation order. |
| LedgerShape.SellIsScan | internal/usecase/trading/pnl/calculator.go:246-271 | On a table in creation order a SELL is one pass from the oldest row. |
| LedgerShape.LateBuyBreaksShape | internal/usecase/trading/pnl/calculator.go:104-120 | The pattern fails when an older BUY is recorded after a younger one has been part-sold. |
| PnlCalculator.Transaction.Commit | internal/infra/persistence/transaction.go:22 | A commit publishes both tables of the transaction; a failed one leaves the database as it was. |
| PnlCalculator.Calculator.PrepareSellData | internal/usecase/trading/pnl/calculator.go:232-286 | The matching loop computes the touched rows and the profit of the specification, and writes nothing. |
| PnlCalculator.Calculator.MatchOldestFirst | internal/usecase/trading/pnl/calculator.go:246-271 | The loop itself: touched rows, excess and entry cost of oldest-first matching. |
| PnlCalculator.Calculator.RunTransaction | internal/infra/persistence/transaction.go:87-120 | All writes of an order, or none: exactly when no call of the transaction fails are the tables updated. |
| PnlCalculator.Calculator.SaveWithoutTransaction | internal/usecase/trading/pnl/calculator.go:150-226 | The fallback's whole effect under any pattern of failing writes: which rows are lost, what profit is booked, when the call reports an error. |
| PnlCalculator.Calculator.CalculateAndSave | internal/usecase/trading/pnl/calculator.go:40-146 | For every pattern of failing calls: untouched tables after a failed read, the recorded order if the transaction commits, the fallback's tables otherwise. |
| PnlCalculator.CleanFallbackEqualsCommit | internal/usecase/trading/pnl/calculator.go:133-226 | A fallback whose writes succeed leaves the same tables as the transaction would have. |
| Booking.BuyBooked | internal/usecase/trading/pnl/calculator.go:52-120 | A BUY appends one untouched row and one trade, both at the reported average price and fill, and at the requested price or size only where none is reported; the trade books minus the fee. |
| Booking.SellBooked | internal/usecase/trading/pnl/calculator.go:52-146 | A SELL whose fill the open positions can supply appends one trade that books average price times fill, less entry cost, less fee. |
| Booking.SoldRowBooked | internal/usecase/trading/pnl/calculator.go:246-271 | The row at position k of the query after a SELL: what it gave, what is left, the price of the sale, and its status. |
| Booking.RequestIgnored | internal/usecase/trading/pnl/calculator.go:52-65 | Results that differ only in the requested price, when an average price is reported, or only in the requested size, when a fill is, record equal tables. |
| Booking.TradesTellTheirOrders | internal/usecase/trading/pnl/calculator.go:77-94 | Over every run of distinct orders each trade tells symbol, side, price, size, fee, status and times of the order that it books. |
| Booking.SaveReplaces | internal/infra/persistence/transaction.go:28-52 | Saving a trade whose order id is known replaces that row, except for symbol, side and creation time. |
| Booking.GhostsGone | internal/infra/persistence/position_repo.go:65-73 | After a ghost close the symbol has no open positions, and those of every other symbol are unchanged. |
| Booking.OtherSymbolsUntouched | internal/usecase/trading/pnl/calculator.go:40-146 | Recording an order leaves the open positions of all other symbols as they are. |
| Booking.FailsIffACallFails | internal/infra/persistence/transaction.go:87-120 | The transaction fails if and only if its start, a write or its commit fails. |
| Booking.FallbackRowwise | internal/usecase/trading/pnl/calculator.go:178-195 | After a fallback every row is as the transaction would have left it, unless the positions cannot be read or its own update is lost; then it is as it was. |
| Booking.FallbackBooks | internal/usecase/trading/pnl/calculator.go:150-226 | A fallback books nothing if the trade is lost, minus the fee if the positions of a SELL cannot be read, and the whole profit otherwise. |
| RiskManager.Manager.CheckRiskManagement | internal/usecase/risk/manager.go:88-148 | A signal passes if and only if balances are readable, a BUY fits its share of JPY with fee and finds room for a position, and, unless it is a forced exit, the daily, interval and loss limits hold. |
| RiskManager.Manager.CheckDailyTradeLimit | internal/usecase/risk/manager.go:171-198 | Passes if and only if trades are readable and fewer than the limit fall on today in JST. |
| RiskManager.Manager.ReadCumulativePnl | internal/usecase/risk/manager.go:292-319 | The loss is read from the latest metric, or summed over the trades since the epoch when one is set; no rows means no figure. |
| RiskManager.Manager.CheckTotalLossLimit | internal/usecase/risk/manager.go:230-283 | Passes if and only if the loss is readable and within its share of JPY, or of the initial balance when JPY is missing or not positive. |
| OrderLaws.LossStopsIff | internal/usecase/risk/manager.go:230-319 | A known negative result stops ordinary signals if and only if the balances cannot be read or its share of the capital is above the limit; the capital is a positive JPY balance, else the initial balance. |
| OrderLaws.NoResult | internal/usecase/risk/manager.go:230-319 | No result passes; a result that cannot be read does not. |
| OrderLaws.ForcedExitsAreExempt | internal/usecase/risk/manager.go:78-148 | A stop-loss or take-profit SELL passes whenever balances are readable; any other SELL needs all three limits. |
| OrderLaws.PassedBuyFindsRoom | internal/usecase/risk/manager.go:325-340 | A BUY that passes leaves no more open positions of its symbol than allowed. |
| OrdersInFlight.LimitPlusInFlight | internal/usecase/risk/manager.go:171-198 | A signal that passes the daily check finds fewer orders of today than the limit plus today's orders in flight, for orders recorded in any sequence, when limit and trades carried over midnight together are at most 100. |
| OrdersInFlight.DailyLimitInFlight | internal/usecase/trading/bitflyer_trader.go:99-156 | Over every run of checks, placements and later recordings in any sequence: no JST day sees more ordinary orders than the limit plus the most that are in flight when a signal is checked. |
| OrdersInFlight.CarriedWithinFlight | internal/usecase/trading/monitor/order_monitor.go:77-118 | The trades carried into a day are among the orders in flight at its midnight. |
| OrdersInFlight.LimitPlusFlight | internal/usecase/risk/manager.go:171-198 | So with never more than f orders in flight and limit + f at most 100, no day exceeds the limit by more than f. |
| OrdersInFlight.CrowdedOut | internal/infra/persistence/trade_repo.go:46-67 | With limit plus carried-over trades at 101 there is a run in which a signal beyond the limit passes although nothing is in flight at its check, for every interval that fits into a day. |
| OrdersInFlight.IntervalSeesRecord | internal/usecase/risk/manager.go:201-227 | The interval check passes if and only if the trades are readable and every trade on record was executed at least the interval ago. |
| OrdersInFlight.IntervalKeptIff | internal/usecase/risk/manager.go:201-227 | An accepted ordinary signal keeps the interval to all earlier orders if and only if it keeps it to those in flight. |
| OrdersInFlight.BurstIsAccepted | internal/usecase/trading/bitflyer_trader.go:140-156 | For every positive limit and every interval, any number of signals at any times is accepted and placed while no trade is on record. |
| OrdersInFlight.BurstExceedsLimit | internal/usecase/risk/manager.go:171-198 | So a day's orders can exceed every limit by any number. |
| OrdersInFlight.TwoSignalsBreakBoth | internal/usecase/risk/manager.go:171-227 | Any two signals of a day within one interval, before the first trade is on record, exceed a limit of one and break the interval. |
| OrdersInFlight.AtOnce | internal/usecase/risk/manager.go:171-227 | Recording every accepted signal before the next check, as the RiskLaws rows assume, is one of these runs, with nothing in flight at any check. |
| RiskLaws.DailyLimitHolds | internal/usecase/risk/manager.go:171-198 | When each order is on record before the next check: over every run of signals with a clock that does not go back, a limit of at most 100 is kept on every JST day by all signals that are not forced exits. |
| RiskLaws.RecentCountsAll | internal/infra/persistence/trade_repo.go:46-67 | With trades that are recorded when they are created: if fewer than 100 of the 100 latest fall on today, none of the unread ones does. |
| RiskLaws.OrdinarySpread | internal/usecase/risk/manager.go:201-227 | In such a run the ordinary trades of a day are spread out by the interval from midnight JST, so a day has room for 1 + (24h - 1ns) / interval of them, whatever the limit is. |
| RiskLaws.DailyLimitIffRead | internal/usecase/risk/manager.go:171-227 | For every configuration, all such runs keep the limit on all days if and only if it is at most 100, or the interval is positive and leaves a day no room for more. |
| RiskLaws.HighLimitIsNone | internal/usecase/risk/manager.go:176 | With a limit above 100, every number of trades for which the interval leaves room on a day is reached by some such run on that day. |
| RiskLaws.DefaultInterval | internal/usecase/risk/manager.go:216-220 | With the default interval of five minutes the limit is kept if and only if it is at most 100 or at least 288. |
| RiskLaws.IntervalHolds | internal/usecase/risk/manager.go:201-227 | In such a run a signal that is not a forced exit comes no sooner than the minimum interval after the trade before it, forced exits included. |
| SignalWorkers.ScaledNotionalBounds | internal/adapter/worker/signal_worker.go:315-345 | The scaled notional is payable with its fee, within the cap, and below the base only when one of the two binds. |
| SignalWorkers.SignalWorker.RoundBuyQuantityToLotSize | internal/adapter/worker/signal_worker.go:300-313 | Succeeds if and only if there is at least one lot; then the quantity is whole lots, less than one lot below the request. |
| SignalWorkers.SignalWorker.ApplyAutoScaleToBuySignal | internal/adapter/worker/signal_worker.go:247-291 | Succeeds exactly when price and quantity are positive, the balance covers the base notional and a lot remains; then the quantity is whole lots, less than one lot below the scaled quantity. |
| SignalWorkers.ScaledBuyAffordable | internal/adapter/worker/signal_worker.go:247-345 | With auto-scale on, cost with fee is within available JPY and notional within MaxNotional when set. |
| SignalWorkers.AcceptedBuyWithinLimits | internal/adapter/worker/signal_worker.go:134-345 | Scaling, rounding and risk check together: whole lots, less than one lot below the scaled quantity, within the risk cap with fee, and with auto-scale within JPY with fee and within MaxNotional. |
| SignalWorkers.SellSizeWithin | internal/adapter/worker/signal_worker.go:425-458 | A SELL size is never above the sellable amount, zero exactly below one lot with no smaller request, and whole lots unless it is the request. |
| SignalWorkers.SellOrderWithinHoldings | internal/adapter/worker/signal_worker.go:367-458 | A SELL never exceeds the wallet, nor the bot's open positions when readable; unreadable positions on a shared wallet sell nothing. |
| OrderLaws.SellOrderExact | internal/adapter/worker/signal_worker.go:367-458 | Over wallet and open positions: a request that is a proper part of what is sellable is sold as it is; otherwise the greatest number of whole lots within the share, one lot if the share is less, nothing below one lot. |
| OrderLaws.SellsNothing | internal/adapter/worker/signal_worker.go:367-424 | Unreadable balances, a missing or empty currency, and unreadable positions of a shared wallet sell nothing. |
| OrderLaws.CurrencyOfPair | internal/adapter/worker/signal_worker.go:372-383 | The currency of base_quote is base, for every quote without an underscore. |
| OrderLaws.ScaledIsGreatest | internal/adapter/worker/signal_worker.go:315-345 | The scaled notional is the greatest one that is within the base or the auto-scale share, within the cap, and payable with its fee. |
| OrderLaws.ScalesUpToShare | internal/adapter/worker/signal_worker.go:315-345 | When the share is above the base, below the cap and payable, the notional is the whole share. |
| OrderLaws.ScaledBuyIsGreatest | internal/adapter/worker/signal_worker.go:247-345 | With auto-scale the BUY is the greatest number of whole lots whose notional is admissible. |
| OrderLaws.ScaledBuyPossibleIff | internal/adapter/worker/signal_worker.go:247-313 | With auto-scale a BUY is possible if and only if both its base notional and a single lot are admissible. |
| OrderLaws.UnscaledBuyIsRounded | internal/adapter/worker/signal_worker.go:247-313 | Without auto-scale a BUY is its request rounded down to whole lots. |
| OrderLaws.ScaledBuyFitsRiskShare | internal/usecase/risk/manager.go:151-168 | A scaled BUY passes the checks of trade amount and open positions whenever the base is within the auto-scale share, that share with its fee within the risk share, and there is room for a position. |
| SignalWorkers.SignalWorker.GetAvailableSellSize | internal/adapter/worker/signal_worker.go:367-458 | The method computes that size for every symbol, balance list and read result. |
| SignalWorkers.SignalWorker.OpenPositionSize | internal/adapter/worker/signal_worker.go:465-482 | Usable exactly when positions are readable, and then the total of what is left of the symbol's open rows. |
| SignalWorkers.SignalWorker.ExtractCurrency | internal/adapter/worker/signal_worker.go:368-379 | The currency is what stands before the last underscore, for symbols of more than one character. |
| SignalWorkers.SignalWorker.ProcessSignal | internal/adapter/worker/signal_worker.go:134-208 | When an order is placed and which: a BUY exactly when trading is on, scaling leaves a lot and the risk check passes on the rounded quantity, and then it is within all limits; a SELL of the computed size; ghosts are closed exactly when an accepted SELL has size zero. |
| SignalWorkers.FullyMatched | internal/usecase/trading/pnl/calculator.go:246-285 | Oldest-first matching leaves nothing of a fill over if and only if the fill is not negative and does not exceed the open positions. |
| SignalWorkers.NoSaleWithoutCostBasis | internal/adapter/worker/signal_worker.go:367-458 | Any fill up to the size that the worker computes against a table is matched completely by that table, so every sold unit has a cost basis, and it lowers the bot's holdings by exactly that fill. |
| OrderMonitors.OrderMonitor.MonitorExecution | internal/usecase/trading/monitor/order_monitor.go:77-118 | A watch ends with at most one recording attempt, at most one callback and one balance refresh, each exactly when the answers say so. |
| OrderMonitors.OrderMonitor.CheckOrderStatus | internal/usecase/trading/monitor/order_monitor.go:175-274 | One poll: what the order becomes, whether the watch ends, and what is recorded. |
| OrderMonitors.OrderMonitor.SaveFinalOrderState | internal/usecase/trading/monitor/order_monitor.go:122-172 | The last look records the refreshed order, or the known one when the answer failed, and nothing when the order is missing. |
| OrderMonitors.WatchKeepsIdentity | internal/usecase/trading/monitor/order_monitor.go:175-274 | No answer of the exchange changes an order's id, symbol, side, size, price or creation time. |
| OrderMonitors.CallbackOnlyWhenCompleted | internal/usecase/trading/monitor/order_monitor.go:215-245 | A callback implies a recorded COMPLETED order and no authentication failure before it. |
| OrderMonitors.CompletionSeenIffDecided | internal/usecase/trading/monitor/order_monitor.go:77-274 | When a watch ends with the order COMPLETED, the callback fires if and only if a poll decided, not the last look. |
| OrderMonitors.LateCompletionIsSilent | internal/usecase/trading/monitor/order_monitor.go:122-172 | An order seen COMPLETED only by the last look is recorded without a callback. |
| WatchLaws.DecidedByFirstEnd | internal/usecase/trading/monitor/order_monitor.go:175-274 | A watch is decided by the first answer that fails authentication or lists the order as COMPLETED, CANCELED, EXPIRED or REJECTED. |
| WatchLaws.UnrecordedIffMissing | internal/usecase/trading/monitor/order_monitor.go:122-172 | An order goes unrecorded if and only if no answer ends its watch and the last look succeeds without listing it. |
| WatchLaws.PollsTell | internal/usecase/trading/monitor/order_monitor.go:205-220 | After any polls the amounts of the order are those of the latest entry looked at, or those it started with. |
| WatchLaws.DecidedCarriesEntry | internal/usecase/trading/monitor/order_monitor.go:205-245 | A decided watch ends with status, fill, rest, average price, commission and fee of the deciding entry, as of that poll. |
| WatchLaws.AuthFailureKeepsKnown | internal/usecase/trading/monitor/order_monitor.go:175-200 | A watch ended by an authentication failure is marked as such and keeps the amounts known by then. |
| WatchLaws.LastLookCarriesEntry | internal/usecase/trading/monitor/order_monitor.go:122-172 | An undecided watch ends with everything that the last look lists, or else with what was known. |
| WatchLaws.StartForgotten | internal/usecase/trading/monitor/order_monitor.go:77-274 | As soon as some answer lists the order, the recorded amounts do not depend on those the watch started with. |
| OrderMonitors.WatchesRecordDistinctOrders | internal/usecase/trading/monitor/order_monitor.go:77-118 | Watches of distinct orders, finishing in any order, record each order at most once. |
| OrderMonitors.WatchedLedgerConserved | internal/usecase/trading/monitor/order_monitor.go:77-274 | From exchange answers to books: such watches leave unique order ids and a conserved cost basis. |
| OrderMonitors.BookedSizeIsFill | internal/usecase/trading/pnl/calculator.go:56-60 | However a watch of an order ends, a position booked from it is as large as its fill if and only if that fill is not zero or nothing was asked for. |
| OrderMonitors.CanceledBuyLeavesPhantom | internal/usecase/trading/pnl/calculator.go:56-60 | A BUY canceled without a fill leaves an open position of its whole requested size. |
| Buckets.BucketBounds | pkg/backtest/datasource_resample.go:52-61 | With Go's truncated remainder, negative times included, a bucket start is a multiple of the period, within one period of the time. |
| Buckets.BucketMonotone | pkg/backtest/datasource_resample.go:52-61 | Bucketing keeps the order of times. |
| Buckets.BucketOfBucket | pkg/backtest/datasource_resample.go:52-61 | The coarse bucket of a fine bucket is the coarse bucket of the time, when the coarse period is a multiple of the fine one. |
| Resampler.ResamplingDatasource.Next | pkg/backtest/datasource_resample.go:64-142 | Each call delivers the next outstanding bar; a cancelled context or failing source loses nothing; end-of-file is given only when nothing is left, and stays. |
| Resampler.ResamplingDatasource.Take | pkg/backtest/datasource_resample.go:104-140 | One bar of input starts a bucket, folds into the open one, or ends it and is held back; nothing outstanding is lost. |
| Resampler.ResamplingDatasource.Close | pkg/backtest/datasource_resample.go:145-154 | The inner source is closed exactly once and its error passed on; afterwards nothing is delivered. |
| Resampler.Drain | pkg/backtest/engine.go:111-118 | Pulling to the end yields every outstanding bar; without failures the loop completes. |
| Resampler.ResampleAggregatesGroups | pkg/backtest/datasource_resample.go:10-24 | For any cut of the input into maximal runs sharing a bucket, output bar i is run i: first open, highest high, lowest low, last close, summed volume, labelled with the bucket start. |
| Resampler.GroupingExists | pkg/backtest/datasource_resample.go:64-142 | Every stream has such a cut. |
| Resampler.ExtremesAttained | pkg/backtest/datasource_resample.go:118-131 | The aggregated high and low bound every bar of the run and are attained. |
| Resampler.VolumeConserved | pkg/backtest/datasource_resample.go:64-142 | No volume is lost or invented. |
| Resampler.ResampledInOrder | pkg/backtest/datasource_resample.go:64-142 | Input in time order gives strictly increasing multiples of the period. |
| Resampler.ResampleInTwoStages | pkg/backtest/datasource_resample.go:52-142 | Resampling to a fine period and then to a multiple of it equals resampling once, for bars in any order. |
| LiveAggregator.SymbolHistory.Aggregate | internal/adapter/worker/strategy_worker.go:492-552 | One tick: the open bar, the completed bar and the bounded history after it. |
| LiveAggregator.FeedAll | internal/adapter/worker/strategy_worker.go:197-233 | After any run of ticks the history holds exactly the latest completed bars. |
| LiveAggregator.QuotesOfLastTick | internal/adapter/worker/strategy_worker.go:197-233 | Each completed bar carries price, bid, ask and spread of the last timely tick of its bucket, over every run of ticks. |
| LiveAggregator.LiveRefinesResampler | internal/adapter/worker/strategy_worker.go:475-552 | For ticks in any order: completed bars (symbol, start, close, volume) are the resampler's output without its last bar on the ticks whose bucket is not before an earlier tick's, and the open bar is that last one field for field. |
| LiveAggregator.StaleTickCostsBar | internal/adapter/worker/strategy_worker.go:543-545 | A tick that goes back to an earlier bucket costs the resampler a bar that the live worker never has. |
| LiveAggregator.BoundariesMatchIffInOrder | internal/adapter/worker/strategy_worker.go:136-148 | Live and backtest bars of the same raw stream agree if and only if no tick falls into an earlier bucket than one before it. |
| Portfolios.Portfolio.MarkToMarket | pkg/backtest/portfolio.go:55-73 | A mark appends one sample, moves the peak and leaves cash, position and trades alone. |
| Portfolios.Portfolio.OpenLong | pkg/backtest/portfolio.go:77-80 | An entry takes notional, fee and slippage out of cash and changes nothing else. |
| Portfolios.Portfolio.CloseLong | pkg/backtest/portfolio.go:84-114 | A close pays proceeds less costs into cash, books the trade and clears the position. |
| Portfolios.CloseBalances | pkg/backtest/portfolio.go:77-114 | Closing keeps cash = initial + closed net results - cost of the open position. |
| Portfolios.MarkKeepsCurve | pkg/backtest/portfolio.go:55-73 | Every sample's drawdown is measured from the highest of the initial cash and the samples so far. |
| Portfolios.PeakBounds | pkg/backtest/portfolio.go:55-73 | The running peak bounds the initial cash and every sample, and is one of them. |
| EquityLaws.MarkIsLiquidation | pkg/backtest/portfolio.go:55-73 | A sample shows the cash that selling the position at the mark, without costs, would leave, and changes nothing else. |
| EquityLaws.CurveTellsWorth | pkg/backtest/engine.go:127-131 | Over every run the curve has exactly the samples that EquityEvery asks for, and each is initial cash + net result so far - cost of the open position + quantity times close, before any exit of that arrival. |
| EquityLaws.SampledEveryBar | pkg/backtest/engine.go:127-131 | With EquityEvery 1 or unset every bar but the first is sampled once. |
| EquityLaws.DrainSamples | pkg/backtest/engine.go:172-193 | The last bar is sampled after its exits and again after a liquidation, and the last sample of every run is its final cash. |
| EquityLaws.HistoryShown | pkg/backtest/engine.go:136-145 | The history shown to the strategy is the latest evaluated bars, oldest first, with their closes as prices. |
| EquityLaws.AskedOncePerArrival | pkg/backtest/engine.go:127-165 | The strategy is asked exactly once per arrival from the warm-up on, and never on the first bar. |
| TradeCosts.BuyFillsIff | pkg/backtest/simulator.go:84-129 | A BUY fills if and only if no position is open, the notional is positive, the bar trades MinVolumeRatio times the quantity, and cash pays for the position with its costs. |
| TradeCosts.ExitRule | pkg/backtest/simulator.go:33-73 | Which of stop and target closes a position, under every same-bar rule, and when neither does. |
| TradeCosts.StopFirstIsPessimistic | pkg/backtest/simulator.go:33-73 | Resolving a same-bar collision by the stop never leaves more cash than by the target. |
| TradeCosts.TradesAtCost | pkg/backtest/portfolio.go:77-114 | Every trade of every finished run pays fee and slippage on what was bought and sold (no slippage on a liquidation); with fixed terms its notional, target and stop are exactly those. |
| TradeCosts.ToldOncePerFill | pkg/backtest/simulator.go:127-147 | At every point of every run the strategy has been told of exactly its entries and its exits by signal, and of no target or stop. |
| TradeCosts.TotalsAtCost | pkg/backtest/report.go:49-78 | The reported fees are the fee rate on the whole turnover, and the net result is what fees and slippage leave of the moves. |
| Simulators.Simulator.HandleExit | pkg/backtest/simulator.go:33-73 | Holding time, trigger, same-bar rule, price and costs of an exit. |
| Simulators.Simulator.HandleSignal | pkg/backtest/simulator.go:79-150 | When an order fills, at what price and cost, and when the strategy is told. |
| Simulators.Simulator.ForceClose | pkg/backtest/simulator.go:154-162 | A liquidation sells at the given price with the fee and without slippage. |
| Simulators.BuyKeepsOk | pkg/backtest/simulator.go:95-127 | A filled BUY spends exactly the amount checked against cash, so cash stays non-negative and the books balance. |
| Simulators.SaleKeepsOk | pkg/backtest/simulator.go:129-162 | A sale keeps the books for any rates and price, and with sane rates at a price that is not negative never costs cash. |
| Simulators.SignalKeepsOk | pkg/backtest/simulator.go:79-150 | Whatever the strategy answers, the books balance, and with sane rates and a positive open cash stays non-negative. |
| Simulators.ExitKeepsOk | pkg/backtest/simulator.go:33-73 | So they do after any bar's exit check. |
| Engines.Engine.Run | pkg/backtest/engine.go:55-210 | The whole run equals the closed-form replay of the delivered bars plus the drain; which error is returned and when. |
| Engines.HistorySnoc | pkg/backtest/engine.go:138-147 | Trimming the history as bars come keeps it the latest histLimit of all evaluated bars. |
| EngineLaws.ReplayKeepsOk | pkg/backtest/engine.go:111-169 | At every point of every run, for any strategy: cash = initial + closed net results - cost of the open position; with positive prices and fee + slippage <= 1 neither cash nor a sampled equity is negative. |
| EngineLaws.EndsFlat | pkg/backtest/engine.go:171-183 | Every finished run is flat with balanced books. |
| EngineLaws.NoLookahead | pkg/backtest/engine.go:95-169 | The answer behind an order that fills at bars[i] is the same for any two streams that agree before bars[i]. |
| EngineLaws.PenultimateBarUnseen | pkg/backtest/engine.go:99-183 | The high, low and close of the bar before the last cannot influence any result. |
| TradeSchedule.TradesFollowSchedule | pkg/backtest/engine.go:95-183 | Every trade of every finished run: opened after the warm-up at the open of bars[e] plus slippage; sold by a signal at the open of bars[e + holdBars] less slippage, by a target or stop that the bar two before that reaches, or, when e + holdBars is past the end, by a target, a stop or the liquidation at the close of the last bar. |
| TradeSchedule.TradesWithinRun | pkg/backtest/engine.go:95-209 | Every trade opens and closes between the reported start and end of the run; the report counts all bars and carries the symbol of the first. |
| TradeSchedule.SlippageBothWays | pkg/backtest/simulator.go:93-140 | Slippage costs its basis points of the open on the way in and on the way out. |
| TradeSchedule.ClosedByNextArrival | pkg/backtest/engine.go:127-134 | The arrival of bars[k-1] closes a trade before its entry if and only if the position was bought at bars[k-2] and bars[k-3] reaches its target or stop; then the two times are those of bars[k-3] and bars[k-2]. |
| TradeSchedule.ClosedBeforeOpened | pkg/backtest/engine.go:95-183 | A finished run over increasing timestamps has a trade that exits before its entry if and only if, for some position, the bar before its entry bar reaches its target or stop. |
| TradeSchedule.DipBeforeEntry | pkg/backtest/engine.go:95-183 | Such runs exist for every configuration and stream in which the first order fills and the first bar dips to the stop. |
| TradeSchedule.EarlyDipClosesBeforeOpened | pkg/backtest/engine.go:95-183 | A concrete one. |
| Reports.ComputeSummary | pkg/backtest/report.go:47-132 | The totals are the tally of the trades, the drawdown is the least sample, months are complete and in order, and rates, profit factor and days follow from them. |
| Reports.MonthlyTotals | pkg/backtest/report.go:114-130 | Months in calendar order, each once with the sum of its trades, none missing or invented. |
| Reports.SumByMonth | pkg/backtest/report.go:114-120 | One entry for each month that has a trade, with the sum of its trades. |
| Reports.ByYearThenMonth | pkg/backtest/report.go:121-130 | Calendar order of the months is by year, then by month. |
| Reports.AddDrawdown | pkg/backtest/report.go:95-105 | The reported drawdown is the least sample, with the time and amount of a sample that attains it. |
| Reports.TotalsMeaning | pkg/backtest/report.go:49-78 | Wins and losses partition the trades and their money, exit reasons partition the trades, best and worst are attained or zero. |
| Reports.ProfitFactorMeaning | pkg/backtest/report.go:83-87 | The profit factor times gross loss is gross profit; it is above one, or infinite, if and only if the net result is positive. |
| Reports.MonthsAddUp | pkg/backtest/report.go:114-130 | Monthly results add up to the net result. |
| Reports.NoDeeperPair | pkg/backtest/report.go:95-105 | No sample lies relatively deeper below any earlier sample, or the starting cash, than the reported drawdown. |
| Reports.DrawdownAttained | pkg/backtest/report.go:95-105 | The reported drawdown is attained against a running peak, and its amount is equity minus that peak when equity is positive. |
| Reports.RunBacktest | pkg/backtest/engine.go:55-209 | Running the engine and summarising: every finished backtest is flat, final equity = final cash = initial cash + net result = + gross profit - gross loss = + sum of months; wins + losses = trades = exits by reason. |
| Reports.BacktestAddsUp | pkg/backtest/engine.go:172-209 | The same for the closed form of the run and any summary with the right totals and months. |
| StrategyWorkers.StrategyWorker.CheckStopLoss | internal/adapter/worker/strategy_worker.go:378-419 | Hit if and only if some position has a positive entry and a positive stop at or above the price. |
| StrategyWorkers.StrategyWorker.CheckTakeProfit | internal/adapter/worker/strategy_worker.go:427-468 | Hit if and only if some position has a positive entry and a positive target at or below the price. |
| StrategyWorkers.StrategyWorker.ForcedExitSignal | internal/adapter/worker/strategy_worker.go:616-629 | Stop-loss first, take-profit only when no stop is breached, and a failed read ends the check. |
| StrategyWorkers.StrategyWorker.SendSignal | internal/adapter/worker/strategy_worker.go:650-694 | When a signal is accepted, dropped or given up on a full queue, a done context or a timeout, and what is remembered. |
| StrategyWorkers.StrategyWorker.DispatchForcedExitIfAny | internal/adapter/worker/strategy_worker.go:584-611 | The tick path of a forced exit, cooldown and failed reads included. |
| StrategyWorkers.StrategyWorker.ExecuteStrategy | internal/adapter/worker/strategy_worker.go:697-784 | The bar path: forced exit first, BUY suppressed on a failed read, dedup, HOLD reset. |
| StrategyWorkers.StrategyWorker.ProcessTickBarMode | internal/adapter/worker/strategy_worker.go:475-577 | One tick in bar mode is one step of the gate. |
| GateLaws.ForcedExitMeaning | internal/adapter/worker/strategy_worker.go:616-629 | Stop-loss if and only if a stop is breached; take-profit if and only if none is and a target is reached; nothing if and only if all is readable and quiet, or there is no reader. |
| GateLaws.StopHoldsBelow | internal/adapter/worker/strategy_worker.go:378-419 | A breached stop stays breached at every lower price and for every larger set of positions. |
| GateLaws.BuyGate | internal/adapter/worker/strategy_worker.go:720-757 | The exact condition for a BUY to be sent on a tick. |
| GateLaws.BuyPastStop | internal/adapter/worker/strategy_worker.go:475-577 | After a tick past the stop a BUY is sent if and only if a bar is completed, its close is quiet, the strategy says BUY, the queue takes it after the SELL, and, if the exit is still cooling, the last signal sent is not a BUY. |
| GateLaws.BuyRightAfterStop | internal/adapter/worker/strategy_worker.go:475-577 | A readable tick past the stop that completes a bar with a quiet close, with room for two signals and no exit in the last cooldown, queues the stop-loss SELL and then a BUY. |
| GateLaws.BuyDespiteBreachedTick | internal/adapter/worker/strategy_worker.go:475-577 | From the start, a tick that opens a bar and one that breaches a stop in a later bucket are such a run. |
| GateLaws.BreachingPairExists | internal/adapter/worker/strategy_worker.go:475-577 | A concrete pair. |
| GateLaws.RunKeepsOk | internal/adapter/worker/strategy_worker.go:475-784 | Over every run with a clock that does not go back: the gate remembers what the trace says, exits are spaced, signals deduplicated, the queue bounded. |
| GateLaws.ForcedExitsKeepTheirDistance | internal/adapter/worker/strategy_worker.go:584-611 | Two accepted forced exits of a symbol are at least 30 seconds apart, across both dispatch paths. |
| GateLaws.NoRepeatWithoutReset | internal/adapter/worker/strategy_worker.go:744-783 | Between two consecutive equal ordinary signals of a symbol lies a HOLD or an attempt at a forced exit. |
| QueueLaws.ForcedExitAccepted | internal/adapter/worker/strategy_worker.go:650-694 | On a live context a forced exit is accepted if and only if there is room at once or the wait gives room; it then stands behind what the consumer left, and otherwise counts as dropped unless the context ended the wait. |
| QueueLaws.OrdinaryAccepted | internal/adapter/worker/strategy_worker.go:650-675 | On a live context an ordinary signal is accepted if and only if there is room at once, and dropped otherwise. |
| QueueLaws.SendOnDoneContext | internal/adapter/worker/strategy_worker.go:650-660 | On a done context a signal is accepted only when there is room and the select picks the queue, and never counted as dropped. |
| QueueLaws.TickExitSent | internal/adapter/worker/strategy_worker.go:584-611 | A tick that calls for a forced exit outside the cooldown sends it before anything else, accepted if and only if the queue takes it. |
| QueueLaws.StopLossGetsThrough | internal/adapter/worker/strategy_worker.go:584-691 | A tick at or below the stop of a position queues its SELL even when the queue is full, if the consumer makes room in time. |
| QueueLaws.BarExitSent | internal/adapter/worker/strategy_worker.go:697-742 | A bar close that calls for a forced exit replaces a BUY or HOLD of the strategy by that exit. |
| QueueLaws.SellGate | internal/adapter/worker/strategy_worker.go:697-784 | A strategy SELL is sent if and only if a bar is completed, the last action is not SELL and the queue takes it; positions are not looked at. |
| QueueLaws.HoldGate | internal/adapter/worker/strategy_worker.go:697-784 | A HOLD is noted if and only if a bar is completed and its close calls for no forced exit; it resets the dedup. |
| QueueLaws.FailedReadsCounted | internal/adapter/worker/strategy_worker.go:634-642 | Failed reads are counted once per check, on the tick and on the bar. |
| QueueLaws.DropsCounted | internal/adapter/worker/strategy_worker.go:666-691 | Exactly the forced exits that time out and the ordinary signals that find no room are counted as dropped. |
| QueueLaws.QueueHoldsLatest | internal/adapter/worker/strategy_worker.go:475-784 | After every run the queue holds exactly the latest accepted signals in order of acceptance. |
| Analytics.CalculateMaxDrawdown | internal/usecase/analytics/performance.go:252-275 | One pass computes the deepest fall below the running peak as a percentage of the initial balance; zero for a negative balance, and for none zero or infinity. |
| Analytics.MaxDropMeaning | internal/usecase/analytics/performance.go:252-275 | That fall is the largest over all pairs of an earlier and a later point, the start included. |
| Analytics.CalculateFromTrades | internal/usecase/analytics/performance.go:132-229 | Wins, losses and draws make up the total; the largest win and loss are attained; return, win rate, averages, profit factor and drawdown follow. |
| Analytics.RatesInRange | internal/usecase/analytics/performance.go:181-207 | The win rate is a percentage, and average win and loss are at least one sen. |
| Analytics.DrawsAreSmall | internal/usecase/analytics/performance.go:140-180 | A draw is at most one sen either way, so wins less losses miss the total by at most one sen per draw. |
| Analytics.SharesRecover | internal/usecase/analytics/performance.go:181-207 | Averages, rates and percentages times their base give back what they were computed from. |
| Analytics.FeeFallbackRestores | internal/usecase/analytics/performance.go:140-170 | A ledger whose BUY rows have lost their booked profit cumulates to the same profit, because a BUY without one counts its fee. |
| Analytics.BuysBookTheirFee | internal/usecase/analytics/performance.go:140-170 | In a recorded ledger every BUY row books exactly its fee, so the fee fallback never changes a result. |
| Analytics.DashboardTotalIsConserved | internal/usecase/analytics/performance.go:132-229 | The total that CalculateFromTrades reports for any recorded run is the conserved quantity of the ledger. |
| Indicators.CalcEma | example/strategy/scalping/strategy.go:382-396 | The loop computes the seeded exponential average. |
| Indicators.EmaWithin | pkg/strategy/scalping/strategy.go:173-187 | With enough prices the average lies between any bounds of all of them. |
| Indicators.EmaScales | pkg/strategy/scalping/strategy.go:173-187 | Rescaling all prices rescales the average. |
| Indicators.CalcRsi | example/strategy/scalping/strategy.go:399-419 | The loop computes the index over the latest period. |
| Indicators.RsiRange | example/strategy/scalping/strategy.go:399-419 | The index lies in [0, 100] for every history. |
| Indicators.RsiScales | example/strategy/scalping/strategy.go:399-419 | The index does not depend on the currency unit. |
| Indicators.EmaMoves | example/strategy/scalping/strategy.go:382-396 | The average starts as a mean, and each price pulls it by 2 / (period + 1) of the distance. |
| Indicators.RsiIsShareOfRises | example/strategy/scalping/strategy.go:399-419 | The index is the share of rises in all moves in percent, 100 without falls. |
| Indicators.RsiTellsDirection | example/strategy/scalping/strategy.go:399-419 | Below 50 if and only if the price fell over the period, above 50 if and only if it rose or never fell. |
| Indicators.TooFewPrices | example/strategy/scalping/strategy.go:382-403 | Too few prices give an average of zero and an index of 50. |
| Scalping.CrossoverScales | pkg/strategy/scalping/strategy.go:90-115 | BUY, SELL or HOLD of the crossover does not depend on the currency unit. |
| Scalping.ScalpingStrategy.GenerateSignal | example/strategy/scalping/strategy.go:150-231 | The method answers as specified, in the source's order of checks, and remembers the simulated time. |
| Scalping.ScalpingStrategy.IsInCooldown | example/strategy/scalping/strategy.go:343-354 | In cooldown exactly when a trade was recorded less than the cooldown ago, in simulated time once a timestamp has been seen. |
| Scalping.ScalpingStrategy.IsDailyLimitReached | example/strategy/scalping/strategy.go:356-367 | Reached exactly when the counted day is today in JST and its count is at the limit. |
| Scalping.ScalpingStrategy.RecordTrade | example/strategy/scalping/strategy.go:248-263 | A recorded trade sets the time and counts within its JST day. |
| Scalping.DecisionScales | example/strategy/scalping/strategy.go:150-231 | Nor does the example strategy's decision with trend and RSI filters. |
| Scalping.CrossoverFollowsBreakout | pkg/strategy/scalping/strategy.go:90-115 | After a quiet stretch the crossover follows the first move: up is BUY, down is SELL. |
| Scalping.BuysIff | example/strategy/scalping/strategy.go:150-231 | When the example strategy buys: enough prices, no cooldown, trades left today, fast above slow, price not below trend, index not overbought. |
| Scalping.SellsIff | example/strategy/scalping/strategy.go:150-231 | When it sells; the trend has no say. |
| ScalpingBacktest.RecordKeepsOk | example/strategy/scalping/strategy.go:248-263 | Recording after an answer that passed cooldown and daily limit keeps both limits over the whole log. |
| ScalpingBacktest.LimitsHoldInBacktest | example/strategy/scalping/strategy.go:343-367 | In every backtest over non-decreasing, non-zero timestamps, recorded trades are at least the cooldown apart and within the daily limit on every JST day. |
| ScalpingBacktest.ClosesSeen | pkg/backtest/engine.go:136-145 | The prices it averages in a backtest are the closes of the evaluated bars. |
| ScalpingBacktest.DecidesOnClose | example/strategy/scalping/strategy.go:150-231 | In a backtest the strategy decides on the close of the bar under evaluation, at the time of that bar. |
| ScalpingBacktest.ExitsEarnTheirPercentage | example/strategy/scalping/strategy.go:285-307 | In every backtest each trade has the configured notional, and a target earns, a stop loses, exactly its percentage of it before costs. |

## Left out

- float64 rounding, NaN and infinities (exact reals), and int64 overflow of nanosecond times (unbounded integers).
- SQLite, its schema and the columns product_code, type, unrealized PnL and updated_at; rows created at the same
  instant come back in table order, which SQL leaves open.
- Sides other than BUY and SELL in the calculator, a nil database, the panic path of WithTransaction, and retention
  clean-up of old rows.
- LedgerRuns.CostBasisConserved: covers committed orders and fallbacks whose writes all succeed; a fallback that loses
  some of its writes breaks the sum, and its exact tables are stated by `SaveWithoutTransaction` instead.
- LedgerShape.ShapeIffBuysTimely: for BUYs of positive size; a BUY of size zero leaves an OPEN row that can never be
  sold.
- Engines.Engine.Run: the entry price of every bar after the first must not be zero, because a BUY at price zero has
  an infinite quantity in the original.
- Simulators.Simulator.HandleSignal: likewise, only for a BUY, for the bar it fills at.
- OrdersInFlight.DailyLimitInFlight: an order is created at the instant its signal is checked; the moments between
  the two are not modelled. At every check limit and carried-over trades must be at most 100; `CrowdedOut` shows
  that the bound fails at 101.
- GateLaws.RunKeepsOk: sequential bar mode only; the goroutine pool of tick mode, the trade-symbol filter and the
  hourly expiry of idle histories are not modelled. Aggregation is shared with `SymbolHistory` as a function.
- SignalWorkers.NoSaleWithoutCostBasis: one SELL at a time; two SELLs in flight against the same table are outside it.
- A cancelled context in the resampler is a budget of checks after which it reads as cancelled.
- The loops of some methods are split off as methods of their own (`MatchOldestFirst`, `ScaleToBalance`,
  `SizeWithin`, `Take`, `ReadBars`, `TakeBar`, `ProcessBar`, `MarkAndExit`, `AskStrategy`, `DrainLastBar`, `Finish`,
  `CountTrade`, `SendForcedExit`); `Drain` and `FeedAll` model the loops of the components' consumers.
- Reports.ComputeSummary: leaves out the Sharpe and Sortino ratios, which need square roots.
- Analytics.CalculateFromTrades: leaves out the Sharpe ratio, for the same reason.
- Signal counts, progress callbacks, and starting and stopping a strategy; the calendar that maps a time to its month
  is a parameter.
- Nil strategies, nil signals and the panics they would cause.
- The exchange client, order validation and placement, balance caching, HTTP, UI, CLI, CSV and YAML.
