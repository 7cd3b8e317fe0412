# Grid-trading backtest core, modelled in Dafny

This project models the core of a crypto grid-trading backtest platform
written in Python. The platform simulates limit-order grids over
historical candles. It fills orders against each candle's range and
averages fills into positions. It closes positions on take-profit or
drawdown, and it reports performance metrics. Around that core it has
adaptive volatility scaling, parameter tuning and a grid-search
optimiser.

The model is functional throughout:

- Python classes with mutable state become immutable datatypes. Each
  method becomes a function from the old state to the new one.
- Python dicts become association lists (`seq<(K, V)>`). A write
  overwrites in place and a new key is appended. Deleting a key keeps
  the order of the rest, as CPython does.
- Every exception on a modelled path becomes an `Err` of
  `Common.Result`: `ZeroDivisionError`, `ValueError`, `AttributeError`,
  `NameError`, `IndexError`, `KeyError` and `TypeError`.
- Python floats become `real`. `float('inf')` and `nan` become the
  `PosInf`, `NegInf` and `NaN` variants of `Common.ExtReal` wherever the
  code can produce them.
- `sqrt`, `log`, `datetime.now()` and the other numerics or clocks the
  code calls are function- or value-typed parameters. Only the branches
  that guard them are verified.

| file | models |
|---|---|
| `common.dfy` | `Option`/`Result`, the float-like `ExtReal`, sums and means, and association lists standing in for dicts |
| `enums.dfy` | `src/core/enums.py` |
| `config.dfy` | the validators of `src/config_models.py` |
| `data_models.dfy` | `Candle`, `MarketData`, `Order`, `Position`, `Trade`, `Signal` of `src/data/data_models.py` |
| `order_lifecycle.dfy` | `Order` and `OrderExecutor` of `src/core/order_executor.py` |
| `position_lifecycle.dfy` | `Position` and `PositionMetrics` of `src/core/position.py` |
| `volatility.dfy` | `VolatilityCalculator` of `src/volatility.py` |
| `adaptive.dfy` | `AdaptiveParameterEngine` of `src/adaptive_parameters.py` |
| `adaptive_integration.dfy` | the adaptive mixin of `src/adaptive_integration.py` |
| `grid_strategy.dfy` | `GridTradingStrategy` of `src/strategies/grid_strategy.py` |
| `engine.dfy` | `OrderExecutor`, `PortfolioState`, `run_backtest` and `_calculate_metrics` of `src/core/backtest_engine.py` |
| `fixed_backtest.dfy` | the repaired backtest loop of `simple_backtest_test.py` |
| `metrics.dfy` | `src/backtest/metrics.py` |
| `helpers.dfy` | the pure helpers of `src/utils/helpers.py` |
| `param_tuner.dfy` | `src/optimization/param_tuner.py` |
| `optimizer.dfy` | `src/optimization/optimizer.py` |
| `market_cache.dfy` | `MarketDataCache` of `src/data/market_data.py` |

## Model

| member | source | states |
|---|---|---|
| DataModels.MakeCandle | src/data/data_models.py:44-48 | a candle is built exactly when low <= close <= high and low <= open <= high, otherwise `ValueError`; a built candle keeps its fields and has low <= high |
| DataModels.FirstUnsortedIndex | src/data/data_models.py:77-82 | None exactly when every neighbouring pair of timestamps is in order, else an index whose timestamp is below its predecessor's |
| DataModels.NeighboursDecideSorted | src/data/data_models.py:77-82 | neighbouring pairs in order is the same as the whole timestamp list equalling its sorted copy |
| DataModels.ChainSorted | src/data/data_models.py:77-82 | with neighbours in order, any earlier timestamp is at most any later one |
| DataModels.MakeMarketData | src/data/data_models.py:77-82 | `MarketData` is built exactly when the timestamps are non-decreasing, keeping the candles and symbol |
| DataModels.LatestCandle | src/data/data_models.py:85-87 | None exactly for no candles, else the last candle |
| DataModels.GetLastNCandles | src/data/data_models.py:95-97 | empty for n <= 0, else the last min(n, len) candles, as a suffix of the list |
| DataModels.SimpleReturns | src/data/data_models.py:113-117 | `ZeroDivisionError` exactly when a close other than the last is 0; otherwise one return per step (none below two candles), each the growth of the close over the previous one: ret * close[i] == close[i+1] - close[i] |
| DataModels.Closes | src/data/data_models.py:113-117 | the closes, index for index |
| DataModels.CalculateVolatility | src/data/data_models.py:99-128 | 0 with fewer than two of the last period+1 candles; otherwise `ZeroDivisionError` exactly when a close other than the last in the window is 0, and else sqrt of the variance of the simple returns times 100 |
| DataModels.FlatWindowNoVolatility | src/data/data_models.py:99-128 | a window of at least two candles all closing at the same non-zero price has volatility sqrt(0) * 100 |
| DataModels.FlatReturnsZero | src/data/data_models.py:113-124 | closes that never move give returns that exist, are all 0 and have variance 0 |
| DataModels.NewOrder | src/data/data_models.py:162-172 | a new order is PENDING with nothing filled, no fill price and no commission, and keeps its quantity, price and side |
| DataModels.FillPercent | src/data/data_models.py:179-184 | 0 for a zero quantity, else fill_percent * quantity == filled * 100 |
| DataModels.FilledMeansFullPercent | src/data/data_models.py:174-184 | `is_filled`: for a positive quantity, filled exactly when `fill_percent` has reached 100 |
| DataModels.FillFields | src/data/data_models.py:195-206 | the field updates of `fill_order`: quantity and commission accumulate; the first fill sets the price and a later one re-averages it by quantity; a later fill that brings the total to 0 divides by zero |
| DataModels.FillOrderAsWritten | src/data/data_models.py:186-209 | as written: the fields are updated, and exactly when the fill completes the order, the missing `OrderStatus.CLOSED` raises `AttributeError` |
| DataModels.FillOrder | src/data/data_models.py:186-209 | corrected: the same updates, and the status becomes FILLED exactly when filled >= quantity (or it already was), else it is unchanged |
| DataModels.CompletingFillRaises | src/data/data_models.py:208-209 | every completing fill raises as written, and the corrected result is the as-written fields with status FILLED |
| DataModels.FullFillOfFreshOrderRaises | src/data/data_models.py:208-209 | concrete: filling a fresh order of 1 with 1 raises as written and yields FILLED once corrected |
| DataModels.AddEntryOrder | src/data/data_models.py:256-274 | a no-op for a zero filled quantity; a fill without a price is a `TypeError`; otherwise quantity adds, entry price * quantity gains the fill's notional (0 when the quantity is not positive), the order is appended and the first entry time is kept |
| DataModels.FilledQuantities | src/data/data_models.py:267-269 | one filled quantity per entry order |
| DataModels.FilledNotionals | src/data/data_models.py:267-268 | one filled notional per entry order |
| DataModels.AddFilledEntry | src/data/data_models.py:263-271 | a filled order added to a non-negative position succeeds and adds its quantity and notional |
| DataModels.FilledQuantitiesPositive | src/data/data_models.py:263-269 | the filled quantities of a non-empty list of filled orders sum to more than 0 |
| DataModels.LastOrderSums | src/data/data_models.py:267-269 | the quantity and notional sums split off their last order |
| DataModels.EntryPriceIsVwap | src/data/data_models.py:256-274 | from an empty position, adding filled orders one by one gives entry_orders == the orders, quantity == their total and entry price == the volume-weighted average price |
| DataModels.UnrealizedPnl | src/data/data_models.py:276-292 | 0 for zero quantity, (p - e) * q for LONG and (e - p) * q for SHORT |
| DataModels.OpenMeansHolding | src/data/data_models.py:312-315 | `Position.is_open` (the predicate HoldsQuantity) holds exactly when the quantity is positive; an emptied position is not open and has no unrealised P&L at any price |
| DataModels.LongShortMirror | src/data/data_models.py:289-292 | the LONG and SHORT P&L of the same position are negatives of each other |
| DataModels.UnrealizedPnlPercent | src/data/data_models.py:294-310 | 0 for a zero entry price, else the signed move over the entry price times 100 |
| DataModels.PnlPercentOfCost | src/data/data_models.py:276-310 | the P&L percent is the P&L over the cost entry * quantity |
| DataModels.DurationSeconds | src/data/data_models.py:347-349 | entry time + duration == exit time |
| DataModels.IsProfitable | src/data/data_models.py:352-354 | profitable exactly when the P&L after commission is above 0, so a break-even trade is not |
| DataModels.MakeSignal | src/data/data_models.py:395-398 | a signal is built exactly when 0 <= strength <= 1, keeping its type and strength |
| OrderLifecycle.MakeOrder | src/core/order_executor.py:56-63 | an order is built exactly when quantity > 0 and price >= 0 (quantity checked first), PENDING with nothing filled |
| OrderLifecycle.OpenClosedPartition | src/core/order_executor.py:110-127 | every status is open or closed and never both |
| OrderLifecycle.IsOpen | src/core/order_executor.py:110-117 | an order is open (PENDING, OPEN or PARTIALLY_FILLED) exactly when its status is not a closed one |
| OrderLifecycle.IsClosed | src/core/order_executor.py:119-127 | an order is closed (FILLED, CANCELLED, REJECTED or EXPIRED) exactly when it is not open |
| OrderLifecycle.RemainingQuantity | src/core/order_executor.py:139-142 | remaining + filled == quantity, and it lies in [0, quantity] while the fill bounds hold |
| OrderLifecycle.FillPercentage | src/core/order_executor.py:144-149 | 0 for a zero quantity, and within [0, 100] while the fill bounds hold |
| OrderLifecycle.UpdateFill | src/core/order_executor.py:151-193 | accepted exactly when the quantity is non-negative and does not overfill; filled and commission accumulate; the average price is quantity-weighted (the fill price for the first fill); status FILLED when complete, else PARTIALLY_FILLED when something is filled |
| OrderLifecycle.UpdateFillKeepsBounds | src/core/order_executor.py:165-173 | an accepted fill keeps 0 <= filled <= quantity and the remaining quantity non-negative |
| OrderLifecycle.AverageFillBetween | src/core/order_executor.py:176-187 | the new average fill price lies between the old average and the fill price |
| OrderLifecycle.FillReopensCancelledOrder | src/core/order_executor.py:151-193 | `update_fill` does not look at the status: a partial fill moves a CANCELLED order to PARTIALLY_FILLED |
| OrderLifecycle.Cancel | src/core/order_executor.py:195-200 | allowed exactly on an open order and yields CANCELLED, a closed status |
| OrderLifecycle.Reject | src/core/order_executor.py:203-216 | allowed exactly on an open order; yields REJECTED and records the reason only when it is non-empty |
| OrderLifecycle.Expire | src/core/order_executor.py:218-223 | allowed exactly on an open order and yields EXPIRED |
| OrderLifecycle.TerminalTransitionsAreFinal | src/core/order_executor.py:195-223 | cancel, reject and expire all raise on a closed order |
| OrderLifecycle.EmptyExecutor | src/core/order_executor.py:259-262 | a new executor has no orders and no history |
| OrderLifecycle.CreateOrder | src/core/order_executor.py:264-303 | fails exactly as the order constructor does; otherwise the order is registered under its id and the history is untouched |
| OrderLifecycle.GetOrder | src/core/order_executor.py:305-307 | found exactly when the id is registered |
| OrderLifecycle.GetOpenOrders | src/core/order_executor.py:309-322 | exactly the registered open orders, narrowed to the symbol when a non-empty one is given |
| OrderLifecycle.GetPositionOrders | src/core/order_executor.py:324-334 | exactly the registered orders of the position |
| OrderLifecycle.CancelOrder | src/core/order_executor.py:336-354 | True exactly for a registered open order, which becomes CANCELLED; nothing else changes, and a False leaves the executor as it was |
| OrderLifecycle.CloseOrder | src/core/order_executor.py:356-365 | a registered order moves from the registry to the end of the history; every other id looks up as before; an unknown id changes nothing |
| OrderLifecycle.CloseOrderKeepsTotal | src/core/order_executor.py:356-365 | closing keeps registry size + history size and the registry's distinct ids |
| OrderLifecycle.Commissions | src/core/order_executor.py:391 | the commission of each order, in order |
| OrderLifecycle.AllOrders | src/core/order_executor.py:377-383 | the live orders (narrowed to the symbol) followed by the history, narrowed again, so never fewer than the live orders |
| OrderLifecycle.StatsOf | src/core/order_executor.py:385-396 | the statistics record from the live and all-order lists: open orders is the number of live orders that are open, each of FILLED, CANCELLED and REJECTED is the number of orders in that status, total is the all-order count, total commission is the sum and the average is it over the count (0 for none) |
| OrderLifecycle.GetOrderStats | src/core/order_executor.py:367-396 | `get_order_stats`: open orders counts the open live orders of the symbol, the FILLED, CANCELLED and REJECTED figures count the orders in each status over live orders and history, total commission is the sum and the average is it over the total |
| OrderLifecycle.CountStatusesBound | src/core/order_executor.py:388-390 | FILLED, CANCELLED and REJECTED counts together never exceed the list length |
| OrderLifecycle.FilterIdempotent | src/core/order_executor.py:377-383 | filtering by symbol twice is filtering once, so the second symbol filter in `get_order_stats` changes nothing |
| PositionLifecycle.NewPosition | src/core/position.py:51-62 | a position is built exactly when quantity > 0 and entry price > 0 (quantity checked first); it opens with its high and low both at the entry price and no exit |
| PositionLifecycle.EntryCost | src/core/position.py:64-67 | the entry price times the quantity plus the entry fee: just the fee for nothing bought, never below the fee for non-negative price and quantity |
| PositionLifecycle.EntryCostPlusUnrealized | src/core/position.py:64-97 | for an open long the entry cost plus the unrealized P&L is the position's value at the price, the entry fee cancelling |
| PositionLifecycle.OpenStatusOnly | src/core/position.py:69-72 | `is_open` (the predicate IsOpen) holds exactly for the OPEN status, so never for a closed, liquidated or pending position |
| PositionLifecycle.IsClosed | src/core/position.py:74-77 | closed or liquidated, which is exactly not open and not pending |
| PositionLifecycle.OpenClosedExclusive | src/core/position.py:69-77 | no status is both open and closed, and PENDING is the only status that is neither |
| PositionLifecycle.Directional | src/core/position.py:92-95 | a long gains (price - entry) * quantity and a short gains (entry - price) * quantity |
| PositionLifecycle.UnrealizedPnl | src/core/position.py:79-97 | 0 for a position that is not open; otherwise the directional gain at the price less the entry fee |
| PositionLifecycle.UnrealizedSidesMirror | src/core/position.py:92-97 | the long and short P&L of the same position at the same price add to minus twice the entry fee |
| PositionLifecycle.BuyPnlMonotone | src/core/position.py:92-93 | an open long's unrealized P&L never falls as the price rises |
| PositionLifecycle.UnrealizedPnlPercent | src/core/position.py:99-113 | 0 for a zero entry cost; otherwise the P&L as a percentage of the entry cost |
| PositionLifecycle.RealizedPnl | src/core/position.py:115-130 | defined exactly for a closed position with an exit price; then the directional gain at the exit less both fees |
| PositionLifecycle.RealizedPnlPercent | src/core/position.py:132-149 | None while not closed; 0 for a zero entry cost; otherwise the realized P&L as a percentage of the entry cost, None when no exit price is known |
| PositionLifecycle.UpdatePrice | src/core/position.py:151-160 | on an open position the high and low widen to include the price; a closed position is unchanged; no other field changes |
| PositionLifecycle.UpdatePricesEnvelope | src/core/position.py:151-160 | after any sequence of price updates every price seen lies between the low and the high, which only widen |
| PositionLifecycle.ClosePosition | src/core/position.py:162-182 | allowed exactly on an open position; records the exit price, the fee and the close time (the given one, else now) and moves to CLOSED; nothing else changes |
| PositionLifecycle.LiquidatePosition | src/core/position.py:184-198 | allowed exactly on an open position; records the exit at time now and moves to LIQUIDATED; nothing else changes |
| PositionLifecycle.CloseIsTerminal | src/core/position.py:162-198 | after a close the realized P&L is the directional gain less both fees, unrealized P&L is 0, price updates are ignored, and closing or liquidating again raises |
| PositionLifecycle.LiquidateIsTerminal | src/core/position.py:115-198 | the same for a liquidated position |
| PositionLifecycle.TallyStep | src/core/position.py:261-281 | one loop step counts the position as open or closed, and as at most one of win or loss |
| PositionLifecycle.TallyStepAdds | src/core/position.py:261-281 | one loop step adds exactly the position's own contribution: one to the open count if open, one win for a positive and one loss for a negative realized P&L, its realized P&L (0 when none), its gain, its loss, its entry cost and its two fees |
| PositionLifecycle.TallyOf | src/core/position.py:255-281 | over the loop, open + closed is the number of positions, wins + losses fit in the closed count, gross profit and loss are non-negative and zero exactly when there are no wins and no losses respectively, and net realized P&L is gross profit minus gross loss; which positions are counted and which amounts are summed is stated by TallyOfCounts, TallyOfSums and TallyOfCosts |
| PositionLifecycle.TallyOfCounts | src/core/position.py:261-276 | over the loop, the open count is the number of open positions, the wins the number with positive realized P&L and the losses the number with negative realized P&L |
| PositionLifecycle.TallyOfSums | src/core/position.py:265-278 | over the loop, realized P&L is the sum of every closed position's realized P&L, gross profit the sum of the gains and gross loss the sum of the losses |
| PositionLifecycle.TallyOfCosts | src/core/position.py:280-281 | over the loop, total entry cost and total fees are the sums of the positions' entry costs and entry plus exit fees |
| PositionLifecycle.MetricsOf | src/core/position.py:283-300 | the win rate is wins over wins plus losses as a percentage within [0, 100]; the averages are gross profit over wins and minus gross loss over losses, 0 when there are none; the profit factor is profit over loss, inf when only wins exist, 0 when there are no wins |
| PositionLifecycle.Calculate | src/core/position.py:244-300 | `PositionMetrics.calculate`: total = open + closed = number of positions; open positions, wins and losses are the numbers of open, winning and losing positions; realized P&L, entry cost and fees are sums over the positions; win rate within [0, 100]; average win >= 0 >= average loss; profit factor inf with wins and no losses and 0 without wins; unrealized P&L never accumulated |
| PositionLifecycle.CalculateAverages | src/core/position.py:284-300 | the average win times the wins is the sum of gains, the average loss times the losses is minus the sum of losses, and with a loss the profit factor is the sum of gains over the sum of losses |
| Config.ValidateCredentials | src/config_models.py:42-58 | True exactly when key and secret are both at least 10 characters; a missing key or secret and a short key raise their own messages |
| Config.MakeGridParams | src/config_models.py:76-142 | a parameter set is accepted exactly when size > 0, spacing in [0.1, 10], levels in [1, 20], take-profit and drawdown in (0, 100], position cap in (0, 100] and timeout >= 10; the spacing validator tightens the field bound and the levels validator never fires |
| Config.GridParamsWithDefaults | src/config_models.py:109-125 | the defaults 20 % cap, "limit" orders and 300 s timeout, under which acceptance depends only on the five required fields |
| Config.MakeStrategyConfig | src/config_models.py:144-188 | accepted exactly when both parameter sets are valid, the volatility threshold is positive and at least one side is enabled; both sides disabled raises its message |
| Config.MakeBacktestConfig | src/config_models.py:195-249 | accepted exactly when the balance is positive, both fees lie in [0, 1], slippage in [0, 5] and workers in [1, 16] |
| Config.BacktestConfigWithDefaults | src/config_models.py:213-241 | the Binance default fees of 0.1 % and 0.05 % slippage, under which acceptance depends only on a positive balance |
| Config.ValidateModeConfigsAsWritten | src/config_models.py:384-395 | the validator as written always raises `NameError`, because it reads `self` in a method whose parameters are `cls` and `values` |
| Config.ValidateModeConfigs | src/config_models.py:384-395 | the intended check: accepted exactly when a BACKTEST platform has a backtest config and a LIVE platform has a live-trading config |
| Config.ModeValidatorRejectsValidConfig | src/config_models.py:384-395 | a backtest platform that carries its backtest config is accepted by the intended check and rejected by the code as written |
| Helpers.SafeDivide | src/utils/helpers.py:136-150 | the default for a zero denominator, otherwise the exact quotient |
| Helpers.PercentageChange | src/utils/helpers.py:153-166 | 0 when the old value is 0, otherwise the change as a percentage of the old value |
| Helpers.PercentageChangeInverse | src/utils/helpers.py:153-166 | applying the computed percentage to the old value gives back the new value |
| Helpers.Clamp | src/utils/helpers.py:183-197 | with min <= max the result lies in [min, max] and is the value itself when the value already does; with min > max `max(min, min(v, max))` yields min |
| Helpers.ClampIdempotent | src/utils/helpers.py:183-197 | clamping twice equals clamping once |
| Helpers.ClampMonotone | src/utils/helpers.py:183-197 | clamping preserves order |
| Helpers.ValidateTradeParams | src/utils/helpers.py:263-336 | valid exactly when the symbol has at least 3 characters, price and quantity are positive and the side is BUY or SELL; otherwise the message of the first failing check, in that order |
| Helpers.IsValidSymbol | src/utils/helpers.py:262-273 | a symbol is valid exactly when it is non-empty and has at least 3 characters |
| Helpers.IsValidPrice | src/utils/helpers.py:275-286 | a price is valid exactly when it is above 0 |
| Helpers.IsValidQuantity | src/utils/helpers.py:288-299 | a quantity is valid under exactly the rule for a price |
| Helpers.ValidateTradeParamsByValidators | src/utils/helpers.py:262-336 | `validate_trade_params` accepts exactly what the three validators accept, with a side of BUY or SELL |
| Helpers.GetDateRange | src/utils/helpers.py:97-113 | whole days floor the elapsed seconds, and weeks and months are the floor divisions of days by 7 and 30 |
| Helpers.GetTradingDays | src/utils/helpers.py:116-129 | `int(days * 5/7)`, which truncates toward zero, also for a negative span |
| Helpers.StripBounds | src/utils/helpers.py:249-253 | where `str.strip` cuts: everything before and after the kept slice is stripped, and the kept slice starts and ends with a kept character |
| Helpers.StripWith | src/utils/helpers.py:249-253 | the stripped string is the slice between the stripped runs, a slice of the input with no stripped character at either end |
| Helpers.Strip | src/utils/helpers.py:249-253 | `str.strip()` over Python's whitespace (ASCII and Unicode separators): no whitespace remains at either end, nothing is added, and stripping again changes nothing |
| Helpers.StripIdempotent | src/utils/helpers.py:251-253 | stripping twice equals stripping once |
| Helpers.IndexOf | src/utils/helpers.py:252 | the first occurrence of a character, the place where `split('=', 1)` cuts |
| Helpers.ParseEnvLine | src/utils/helpers.py:250-253 | a line yields a pair exactly when, stripped of Python's whitespace (ASCII and the Unicode spaces and separators), it is non-empty, does not start with `#` and contains `=`; the key holds no `=` and the value has no quote at either end |
| Helpers.ParseEnvLineRoundTrip | src/utils/helpers.py:250-253 | parsing `key=value` gives back the pair, for a key and value that stripping leaves alone |
| Helpers.LoadEnvStep | src/utils/helpers.py:245-253 | reading one more line sets the key it assigns and leaves every other key as it was |
| Helpers.LoadEnvLastWins | src/utils/helpers.py:245-253 | the value of a key is the one from the last line that assigns it |
| Helpers.LoadEnvLines | src/utils/helpers.py:243-256 | the loaded dictionary has distinct keys, and every pair in it is what some line of the file parses to |
| Volatility.NewCalculator | src/volatility.py:36-60 | a fresh calculator has empty buffers and no EWMA state |
| Volatility.DefaultCalculator | src/volatility.py:36-40 | the defaults: Bollinger 20 periods at 2 deviations, ATR 14 periods, EWMA alpha 0.33 |
| Volatility.Push | src/volatility.py:79-90 | appending one value drops the oldest exactly when the buffer would exceed the limit |
| Volatility.Record | src/volatility.py:79-90 | the four buffers stay aligned and capped at `max(bb_period, atr_period) + 5`, and the newest bar sits at their end |
| Volatility.RecordAllKeepsWindow | src/volatility.py:79-90 | from empty buffers the calculator holds exactly the last `max(bb_period, atr_period) + 5` closes of the stream, in order |
| Volatility.PushWindow | src/volatility.py:79-90 | pushing onto the window of a stream gives the window of the longer stream |
| Volatility.BollingerBandwidth | src/volatility.py:100-110 | 0 until `bb_period` closes are buffered; then the bandwidth of exactly the last `bb_period` closes |
| Volatility.GarmanKlass | src/volatility.py:112-131 | 0 until `atr_period` closes are buffered; then `ZeroDivisionError` exactly when a low or an open in the last `atr_period` bars is 0 (or the window is empty); otherwise sqrt(abs(mean of the per-bar terms 0.5 ln(h/l)^2 - (2 ln 2 - 1) ln(c/o)^2)) * 100 over exactly that window |
| Volatility.GkTerms | src/volatility.py:123-126 | one term per bar of the window, each 0.5 ln(h/l)^2 - (2 ln 2 - 1) ln(c/o)^2 of that bar |
| Volatility.GarmanKlassFlatBars | src/volatility.py:112-131 | bars that neither range nor move, with non-zero prices, give sqrt(0) * 100 |
| Volatility.ZeroLowRaises | src/volatility.py:92-126 | a bar with a zero low makes `update` raise `ZeroDivisionError` from the Garman-Klass division |
| Volatility.TrueRange | src/volatility.py:140-143 | the true range is one of high - low, abs(high - previous close), abs(low - previous close), and at least high - low and 0 |
| Volatility.TrueRanges | src/volatility.py:138-144 | one true range per bar after the first, each non-negative and at least that bar's high - low |
| Volatility.Atr | src/volatility.py:133-149 | 0 until `atr_period + 1` closes are buffered, otherwise the mean of the last `atr_period` true ranges; never negative |
| Volatility.NextEwmaState | src/volatility.py:163-168 | the first EWMA state is the population variance of the returns; afterwards the state moves from the previous one by alpha times the gap to the latest squared return, that is alpha r^2 + (1 - alpha) previous |
| Volatility.EwmaStateBetween | src/volatility.py:165-168 | with alpha in [0, 1] the next state lies between the previous state and the latest squared return; alpha = 1 takes the squared return, alpha = 0 keeps the previous state |
| Volatility.StepBetween | src/volatility.py:167-168 | a step of alpha in [0, 1] from one value toward another stays between the two |
| Volatility.EwmaStateNonNegative | src/volatility.py:163-168 | with alpha in [0, 1] and a non-negative previous state, the next state is non-negative |
| Volatility.Ewma | src/volatility.py:151-172 | 0 with the state unchanged for fewer than 2 closes; `ZeroDivisionError` exactly when a close used as a divisor is 0; otherwise sqrt(abs(state)) * 100, the new state being the variance of the returns the first time and alpha r^2 + (1 - alpha) previous afterwards, r the latest return |
| Volatility.Update | src/volatility.py:62-98 | the bar is recorded before anything can raise and the buffers stay aligned; it raises exactly when Garman-Klass or the EWMA raises, leaving the recorded calculator; otherwise the measures are the bandwidth, Garman-Klass, ATR and EWMA of the recorded buffers, the EWMA state is the one `_calculate_ewma` set, and the composite field is 0 |
| Volatility.UpdateKeepsEwmaNonNegative | src/volatility.py:151-168 | `update` keeps a non-negative EWMA state non-negative when alpha lies in [0, 1] |
| Volatility.CompositeVolatility | src/volatility.py:174-198 | 0 when all four measures are 0; with non-negative measures the composite is non-negative, at least a quarter of each measure and of 100 * ATR |
| Volatility.CompositeIsWeightedSum | src/volatility.py:186-196 | the composite is the equal-weight average of bandwidth, Garman-Klass, 100 * ATR (0 when not positive) and EWMA |
| Adaptive.DefaultConfig | src/adaptive_parameters.py:51-81 | the defaults: scaling bounded to [0.4, 2.5], thresholds 1 % and 5 %, equal weights of 0.25, grid spacing, take-profit and drawdown direct and order volume inverse |
| Adaptive.DefaultModes | src/adaptive_parameters.py:76-81 | by default order volume scales inversely and grid spacing, take profit and the drawdown limit directly |
| Adaptive.CompositeOf | src/adaptive_parameters.py:149-161 | the weighted sum of the four measures, with the ATR as a percentage (0 when not positive), floored at 0 |
| Adaptive.DefaultCompositeAgrees | src/adaptive_parameters.py:149-161 | with the default weights and non-negative measures the engine's composite equals the calculator's `get_composite_volatility` |
| Adaptive.ClassifyAsWritten | src/adaptive_parameters.py:163-172 | the classification as written: LOW below the low threshold; otherwise HIGH above the high threshold; otherwise EXTREME above 1.5 times the high threshold (reachable only with a negative high threshold) and NORMAL at or below it; each level exactly on its range |
| Adaptive.ClassifyAsWrittenMonotone | src/adaptive_parameters.py:163-172 | with 0 <= low <= high thresholds, the written classification never gives a higher volatility a lower level and never goes past HIGH |
| Adaptive.ExtremeUnreachable | src/adaptive_parameters.py:163-172 | as written, the classification never returns EXTREME: a volatility above 1.5 times the high threshold is already caught by the HIGH branch |
| Adaptive.Classify | src/adaptive_parameters.py:163-172 | the intended classification: LOW below the low threshold, EXTREME above 1.5 times the high threshold, HIGH above the high threshold up to that, NORMAL otherwise; each level exactly on its range |
| Adaptive.ClassifyAgreesOutsideExtreme | src/adaptive_parameters.py:163-172 | the corrected and the written classification agree except that the written one says HIGH where the corrected one says EXTREME |
| Adaptive.ClassifyMonotone | src/adaptive_parameters.py:163-172 | with 0 <= low <= high thresholds, a higher volatility never gets a lower level |
| Adaptive.ReferenceVolatility | src/adaptive_parameters.py:181-186 | the mean of the two thresholds, replaced by 1 when that mean is 0, so never 0 |
| Adaptive.ScalingFactor | src/adaptive_parameters.py:174-195 | volatility over the reference, clamped to [min, max] scaling factor; at least the minimum always, at most the maximum when the bounds are ordered; exactly the minimum below the range or whenever min > max, exactly the maximum above an ordered range |
| Adaptive.ScalingFactorMonotone | src/adaptive_parameters.py:174-195 | with a non-negative reference the scaling factor never falls as volatility rises |
| Adaptive.ScaleParameter | src/adaptive_parameters.py:197-221 | base times factor for a direct parameter (the default mode), base over factor otherwise, floored at 0; an inverse parameter with factor 0 raises `ZeroDivisionError` |
| Adaptive.DirectInverseRoundTrip | src/adaptive_parameters.py:214-221 | scaling a non-negative base directly and then inversely by the same positive factor gives the base back |
| Adaptive.ScaleParameterMonotone | src/adaptive_parameters.py:214-221 | a larger positive factor never lowers a direct parameter and never raises an inverse one |
| Adaptive.NewEngine | src/adaptive_parameters.py:86-95 | a new engine has empty histories; it keeps a given config, and takes the default config when none is given |
| Adaptive.ScaleParameters | src/adaptive_parameters.py:97-147 | the four base parameters are scaled by the clamped factor of the composite and are non-negative; the level is the written classification, never EXTREME for a non-negative high threshold; the composite and the result are appended to the histories; with a positive minimum factor it never raises |
| Adaptive.ScalingDirections | src/adaptive_parameters.py:97-147 | with direct spacing and inverse volume, higher composite volatility widens the grid spacing and shrinks the order volume |
| Adaptive.DefaultScalingDirections | src/adaptive_parameters.py:51-147 | the same holds for the default configuration |
| Adaptive.ScaleAllHistories | src/adaptive_parameters.py:143-145 | scaling a stream of measures appends one entry per measure to both histories and keeps the earlier entries |
| AdaptiveIntegration.InitializeAdaptive | src/adaptive_integration.py:39-50 | a default calculator, an engine on the given config (default when none) and no current measures or scaled parameters |
| AdaptiveIntegration.UpdateAdaptiveParameters | src/adaptive_integration.py:52-84 | the calculator always records the bar; the measures are stored only when the calculator did not raise, and the scaled parameters and engine histories change only when scaling succeeds too, in which case the result is what the engine's `scale_parameters` returns |
| AdaptiveIntegration.GetCurrentGridSpacing | src/adaptive_integration.py:86-90 | None exactly until parameters have been scaled, then their grid spacing |
| AdaptiveIntegration.GetCurrentOrderVolume | src/adaptive_integration.py:92-96 | None exactly until parameters have been scaled, then their order volume |
| AdaptiveIntegration.GetCurrentTakeProfit | src/adaptive_integration.py:98-102 | None exactly until parameters have been scaled, then their take-profit |
| AdaptiveIntegration.GetCurrentMaxDrawdown | src/adaptive_integration.py:104-108 | None exactly until parameters have been scaled, then their drawdown limit |
| AdaptiveIntegration.GetVolatilityLevel | src/adaptive_integration.py:110-114 | None exactly until parameters have been scaled, then their level |
| AdaptiveIntegration.GetScalingFactor | src/adaptive_integration.py:116-120 | None exactly until parameters have been scaled, then their factor |
| AdaptiveIntegration.GettersFollowUpdates | src/adaptive_integration.py:39-120 | every getter is None right after initialisation and reports the fields of the parameters the last successful update returned |
| AdaptiveIntegration.SetAdaptiveConfig | src/adaptive_integration.py:138-144 | the new config is the one the getter returns, and the histories and everything else are kept |
| AdaptiveIntegration.GetAdaptiveConfig | src/adaptive_integration.py:138-140 | the configuration the engine scales with |
| AdaptiveIntegration.SetCurrentConfigNoOp | src/adaptive_integration.py:138-144 | setting the configuration that `get_adaptive_config` returns changes nothing |
| AdaptiveIntegration.ApplyScaledParametersToGrid | src/adaptive_integration.py:151-174 | the grid settings are copied from the scaled parameters |
| AdaptiveIntegration.ApplyIgnoresBase | src/adaptive_integration.py:151-174 | the base spacing and volume arguments have no effect on the result |
| GridStrategy.NewStrategy | src/strategies/grid_strategy.py:167-187 | a new strategy is IDLE with no position, no orders, no grid prices, the entry latch open, max price 0 and min price infinity, and a freshly initialised adaptive state |
| GridStrategy.Reset | src/strategies/grid_strategy.py:134-140 | back to IDLE with no position, no orders and the latch open; grid prices, price extremes, adaptive state and parameters are kept |
| GridStrategy.ResetIdempotent | src/strategies/grid_strategy.py:134-140 | resetting twice equals resetting once |
| GridStrategy.Analyze | src/strategies/grid_strategy.py:189-229 | only an IDLE strategy whose latch is open looks at the market; it signals exactly when the 20-period volatility reaches the 0.1 threshold (the parameters have no threshold field), once, BUY for a long and SELL for a short strategy, with strength min(vol / 10, 1) in (0, 1], and closes the latch; nothing else changes |
| GridStrategy.AnalyzeSignalsOnce | src/strategies/grid_strategy.py:201-227 | once a signal has been given, later calls give none whatever the market, and after `reset` the strategy looks again |
| GridStrategy.GridSpacing | src/strategies/grid_strategy.py:272-276 | the adaptive spacing once scaled parameters exist, the configured one before |
| GridStrategy.GridPrice | src/strategies/grid_strategy.py:278-298 | level 0 is the entry price; a long grid steps down and a short grid steps up by entry * spacing% per level |
| GridStrategy.GridOrderIdsDistinct | src/strategies/grid_strategy.py:286 | different levels get different order ids |
| GridStrategy.LevelCount | src/strategies/grid_strategy.py:283 | `range(levels)` has `levels` elements, none when negative |
| GridStrategy.GridLadder | src/strategies/grid_strategy.py:281-308 | one PENDING limit order per level at that level's grid price, with the level's id, the strategy's side and the per-order size |
| GridStrategy.GenerateGridOrders | src/strategies/grid_strategy.py:251-310 | `ZeroDivisionError` exactly when there are no levels, leaving the strategy as it was; otherwise the ladder with size / levels per order, and the grid prices appended to the strategy's list |
| GridStrategy.GridQuantitiesSumToSize | src/strategies/grid_strategy.py:278-308 | with at least one level there is one order per level and their quantities add up to the position size |
| GridStrategy.GridIdsUnique | src/strategies/grid_strategy.py:283-308 | the generated orders have pairwise distinct ids |
| GridStrategy.GridPricesMonotone | src/strategies/grid_strategy.py:281-308 | with a positive entry and spacing, long grid prices strictly fall and short grid prices strictly rise with the level |
| GridStrategy.LongGridPricePositive | src/strategies/grid_strategy.py:284 | a long grid price is positive exactly when spacing% * level < 100 |
| GridStrategy.ValidParamsReachZeroPrice | src/strategies/grid_strategy.py:283-284 | parameters the config accepts (10 % spacing, 20 levels) put level 10 of a long grid at price 0 and level 19 below 0 |
| GridStrategy.ExitThresholds | src/strategies/grid_strategy.py:341-347 | the adaptive take-profit and drawdown once scaled parameters exist, the configured ones before |
| GridStrategy.ThresholdsFollowAdaptive | src/strategies/grid_strategy.py:272-276 | a new strategy uses the configured spacing and thresholds, and after a successful adaptive update it uses the scaled ones |
| GridStrategy.LowerTo | src/strategies/grid_strategy.py:339 | Python's `min` against a float that may be infinity: infinity gives the price, a finite value the smaller one |
| GridStrategy.TrackExtremes | src/strategies/grid_strategy.py:338-339 | the tracked maximum rises to at least the price, the tracked minimum falls to at most it, and nothing else changes |
| GridStrategy.ExitSignal | src/strategies/grid_strategy.py:354-362 | an EXIT signal of strength 1 for the strategy's symbol, which the signal constructor accepts |
| GridStrategy.CheckExitWith | src/strategies/grid_strategy.py:312-393 | nothing without an open position; otherwise the extremes are tracked and an EXIT signal is given exactly on take-profit, or on the stop-loss test once the position holds entry orders |
| GridStrategy.CheckExitConditionsAsWritten | src/strategies/grid_strategy.py:312-393 | as written: nothing without an open position; otherwise the extremes are tracked and an EXIT of strength 1 is given exactly on take-profit, or once the position holds entry orders when the ABSOLUTE unrealised P&L reaches equity * dd%, so a large enough gain also exits |
| GridStrategy.CheckExitConditions | src/strategies/grid_strategy.py:312-393 | as intended the stop-loss fires when the LOSS reaches equity * dd%; exits exactly on take-profit or that loss |
| GridStrategy.ChecksAgreeWithoutEntryOrders | src/strategies/grid_strategy.py:364-393 | for a position without entry orders the written and the intended checks coincide, since the stop-loss test is skipped |
| GridStrategy.ProfitTriggersStopLoss | src/strategies/grid_strategy.py:377-380 | a long position up 400 on 10 000 equity, below its 5 % take-profit, gets a stop-loss exit as written and none as intended |
| GridStrategy.StopLossAgreesOnLosses | src/strategies/grid_strategy.py:377-380 | when the position is not in profit the written and the intended test agree |
| GridStrategy.StopLossMeansLoss | src/strategies/grid_strategy.py:349-391 | an intended exit below take-profit means the P&L is at most minus equity * dd% |
| GridStrategy.LongTakeProfitIsPriceRise | src/strategies/grid_strategy.py:349-352 | for a long position the take-profit test is a price at least entry * (1 + tp / 100) |
| Engine.NewExecutor | src/core/backtest_engine.py:119-123 | the fee and slippage percentages are stored as fractions |
| Engine.TouchPrice | src/core/backtest_engine.py:137-146 | a long fill starts from the lower of order price and close, a short fill from the higher |
| Engine.ExecuteLimitOrder | src/core/backtest_engine.py:125-150 | (0, 0) unless the candle reaches the order (low <= price for a long, high >= price for a short); otherwise the whole quantity at the touch price with slippage added for a long and subtracted for a short |
| Engine.FillPriceBounds | src/core/backtest_engine.py:137-148 | with slippage in [0, 1] a long never pays more than the order price or the close plus slippage, and a short never receives less than either minus slippage |
| Engine.CalculateCommission | src/core/backtest_engine.py:152-156 | quantity * price * the maker or taker fee |
| Engine.CommissionAdditive | src/core/backtest_engine.py:152-156 | commission is additive in the quantity and non-negative for non-negative inputs and fees |
| Engine.FillPass | src/core/backtest_engine.py:234-250 | the filled orders, with their executed quantity and price, are exactly the pending orders the candle reaches, in order; the others stay pending, in order |
| Engine.FillPassPartition | src/core/backtest_engine.py:234-250 | every pending order ends up either filled or still pending, never both and never lost |
| Engine.NewPortfolio | src/core/backtest_engine.py:200-203 | a new portfolio holds the initial cash and no positions, trades or fees |
| Engine.PortfolioUnrealizedPnl | src/core/backtest_engine.py:45-50 | the positions valued at price 0: 0 with no positions, never negative for a book of shorts with non-negative cost |
| Engine.PortfolioRealizedPnl | src/core/backtest_engine.py:40-43 | the closed trades' net P&L: 0 with none, non-negative when no trade lost |
| Engine.TotalEquity | src/core/backtest_engine.py:32-38 | cash plus the unrealised P&L of every position |
| Engine.EquityIgnoresMarket | src/core/backtest_engine.py:32-38 | the positions are valued at price 0, so one long position lowers equity by its entry value and one short raises it, whatever the market does |
| Engine.RealizedPnlGrows | src/core/backtest_engine.py:40-43 | recording a trade adds its net P&L to the realised P&L |
| Engine.FoldFill | src/core/backtest_engine.py:273-284 | merging a fill adds its quantity and makes the entry price the quantity-weighted average; a zero total quantity raises `ZeroDivisionError`; the first entry time is kept |
| Engine.FoldFillBetween | src/core/backtest_engine.py:276-280 | merging a positive fill into a positive position puts the new entry price between the old one and the fill price |
| Engine.OpenFromFill | src/core/backtest_engine.py:264-272 | a fill with no position open opens one at the fill's quantity, price, side and candle time |
| Engine.AfterFill | src/core/backtest_engine.py:264-284 | the position after a fill holds the previous quantity plus the fill, at the weighted entry price |
| Engine.ApplyFill | src/core/backtest_engine.py:256-287 | one fill charges the maker commission to cash and fees, pays quantity * price out of cash, updates that symbol's position and leaves every other symbol and the trade list alone |
| Engine.FillConservesValue | src/core/backtest_engine.py:256-287 | a fill moves value between cash, fees and the position's cost basis without creating or losing any |
| Engine.ApplyFills | src/core/backtest_engine.py:256-287 | applying all fills of a candle conserves cash + fees + cost basis, leaves other symbols and the trades alone, and leaves a position open when anything filled |
| Engine.ExitPnl | src/core/backtest_engine.py:341-376 | a long gains (price - entry) * quantity, a short (entry - price) * quantity |
| Engine.CloseCredit | src/core/backtest_engine.py:348-383 | the intended cash credit on closing: the entry value returned plus the side's P&L less the commission |
| Engine.CloseCreditAsWritten | src/core/backtest_engine.py:348-383 | the credit both close-outs book: the long credit, quantity * price - commission, whatever the side |
| Engine.CorrectedCreditConservesValue | src/core/backtest_engine.py:348-383 | with the intended credit a close returns the entry value plus the P&L less the commission for either side, and for a short it exceeds the written credit by twice the P&L |
| Engine.CloseCreditAgreesForLongs | src/core/backtest_engine.py:348 | for a long the written credit, quantity * price - commission, is the intended one |
| Engine.ShortCreditInverted | src/core/backtest_engine.py:383 | for a short the written credit returns the entry value minus the P&L: a short bought back 10 lower loses 10 in cash instead of gaining 10 |
| Engine.PnlPercent | src/core/backtest_engine.py:361-396 | the P&L as a percentage of the entry value, 0 when the entry price is not positive, and `ZeroDivisionError` for a positive entry with zero quantity |
| Engine.CloseOut | src/core/backtest_engine.py:339-368 | closing records a trade with the side's P&L and that P&L net of the maker commission, appends it, credits the cash with quantity * price less the fee as written for both sides, charges the fee, deletes the position and keeps the other symbols |
| Engine.CloseOutConservesValue | src/core/backtest_engine.py:339-402 | as written, cash + fees + cost held grow on a close by (price - entry) * quantity for either side: the trade's P&L for a long and its opposite for a short |
| Engine.GridSize | src/core/backtest_engine.py:300-301 | the position size is 10 % of the initial balance over the close, `ZeroDivisionError` for a zero close |
| Engine.EnterSide | src/core/backtest_engine.py:295-325 | a missing or already signalled strategy adds nothing; any order it adds comes from a strategy that could enter, is the grid ladder at the close with size / levels per order, and closes the entry latch; nothing else of the strategy changes |
| Engine.LatchedSideAddsNothing | src/core/backtest_engine.py:296-297 | a strategy whose latch is closed adds no order at any later candle |
| Engine.WithWatcher | src/core/backtest_engine.py:336-372 | the updated strategy is put back on the position's side |
| Engine.ExitStep | src/core/backtest_engine.py:327-402 | nothing without a position for the symbol; a trade is recorded only for a held position, through the written exit check and the written close-out credit; no position is added and latches are kept |
| Engine.ExitStepCloses | src/core/backtest_engine.py:327-402 | a recorded trade comes from the written `check_exit_conditions` of the strategy watching the position's side signalling exit at the close, and it is that position's close-out (with the written credit) at the close |
| Engine.FillsKeepEngineHeld | src/core/backtest_engine.py:256-287 | fills as the engine applies them never record an entry order on a position |
| Engine.EnterBoth | src/core/backtest_engine.py:293-325 | entering on both sides never reopens a latch or switches a side on or off |
| Engine.FillAndEnter | src/core/backtest_engine.py:230-325 | the fill pass, the position updates and the entries keep every position free of entry orders, keep the latches and record no trade |
| Engine.SymbolStep | src/core/backtest_engine.py:223-402 | one symbol at one candle, exiting through the written exit check and crediting cash with the written close credit, keeps the engine invariant (no entry orders, untouched adaptive state), keeps the latches, and records at most one trade, appended |
| Engine.ReplaceSidesKeepsInv | src/core/backtest_engine.py:223-402 | putting back one symbol's strategies keeps the invariant |
| Engine.LatchesKeptTransitive | src/core/backtest_engine.py:215-402 | kept latches compose across steps |
| Engine.ProcessSymbols | src/core/backtest_engine.py:223-226 | the symbols of one candle in configuration order, skipping a symbol without data, each through the as-written step, keep the invariant and only append trades |
| Engine.RunCandles | src/core/backtest_engine.py:215-406 | the candle loop, built from the as-written step, keeps the invariant and the latches and only appends trades |
| Engine.MinCandles | src/core/backtest_engine.py:206 | the smallest candle count over the market data, `ValueError` for no data |
| Engine.SidesOf | src/core/backtest_engine.py:184-195 | a fresh long strategy exactly when long is enabled and a fresh short one exactly when short is enabled |
| Engine.BuildStrategies | src/core/backtest_engine.py:182-197 | one entry per configured symbol, a later configuration of the same symbol replacing the earlier, all fresh |
| Engine.NewEngine | src/core/backtest_engine.py:166-174 | a new engine has no history and no trades |
| Engine.FreshStateInv | src/core/backtest_engine.py:180-207 | fresh strategies over an empty portfolio satisfy the engine invariant |
| Engine.RecordRun | src/core/backtest_engine.py:404-406 | after a run of `n` candles the history has grown by `n` entries, all the final portfolio, and the trades are the run's |
| Engine.RunBacktest | src/core/backtest_engine.py:176-410 | `ValueError` without market data; otherwise, with the as-written exit check and close credit, one history entry per candle, all of them the same final portfolio, the run's trades appended to earlier runs' and the metrics computed over all of them |
| Engine.EngineExitsOnTakeProfitOnly | src/core/backtest_engine.py:327-402 | inside the engine the spacing and thresholds are the static ones and an open position exits exactly on take-profit: the stop-loss can never fire |
| Engine.WinningPnls | src/core/backtest_engine.py:430 | the net P&L of the profitable trades, all positive |
| Engine.LosingPnls | src/core/backtest_engine.py:431 | the absolute net P&L of the others, which with the winners cover every trade |
| Engine.ProfitFactor | src/core/backtest_engine.py:439-440 | winners over losers when losses exist, 0 otherwise |
| Engine.AverageLossPositive | src/core/backtest_engine.py:436-440 | the average loss is positive whenever the loss sum is, so the two guards on the profit factor agree |
| Engine.Percent | src/core/backtest_engine.py:427-459 | a part as a percentage of a non-zero whole |
| Engine.MetricsOf | src/core/backtest_engine.py:422-461 | with trades: the counts, win rate, averages, profit factor, best and worst trade, mean duration in days and the return on the initial balance; the ratios, drawdown and streaks stay 0 |
| Engine.CalculateMetrics | src/core/backtest_engine.py:412-461 | the defaults without trades, `ZeroDivisionError` for a zero balance with trades, and the trade statistics otherwise |
| Engine.MetricsBounds | src/core/backtest_engine.py:422-447 | win rate within [0, 100], worst trade <= best trade, non-negative averages, and without losers a 100 % win rate and profit factor 0 |
| Engine.PercentBounds | src/core/backtest_engine.py:427 | a part between 0 and the whole is a percentage in [0, 100], exactly 100 for the whole |
| FixedBacktest.TouchFills | simple_backtest_test.py:164-185 | the filled orders are exactly the pending ones the candle touches, each at the touch price with no slippage; the rest stay pending, in order |
| FixedBacktest.TouchFillsPartition | simple_backtest_test.py:164-185 | every pending order ends up filled or pending, none lost or duplicated |
| FixedBacktest.TouchFillsMatchExecutor | simple_backtest_test.py:164-185 | the loop's own fill test is the engine's `execute_limit_order` with zero slippage |
| FixedBacktest.FillsKeepFixedHeld | simple_backtest_test.py:190-216 | the loop records every filled order on the position, so a held position always has entry orders |
| FixedBacktest.FixedEnter | simple_backtest_test.py:221-230 | no entry while a position is held; an entry is counted exactly when the strategy's latch closes, at most one per candle |
| FixedBacktest.FixedExit | simple_backtest_test.py:235-274 | a trade is recorded only for a held long position with entry orders on which the strategy's exit check, as written (absolute drawdown test), signals exit, and it is that position's closing trade; the strategy is then reset with its latch open, adaptive state kept |
| FixedBacktest.FixedStep | simple_backtest_test.py:154-276 | one candle, exiting through the written exit check, keeps every held position's entry orders, appends at most one trade and counts it as an exit, counts at most one entry, and after an exit leaves the strategy ready to enter |
| FixedBacktest.FixedLoop | simple_backtest_test.py:154-281 | over the candles (each exiting through the written exit check), exits equal the trades appended, and entries and exits are each at most the number of candles |
| FixedBacktest.FixedStrategies | simple_backtest_test.py:133-138 | a long strategy (or none) per configured symbol, fresh and long |
| FixedBacktest.FixedRunBacktest | simple_backtest_test.py:126-283 | `KeyError` without data or without a strategy for BTCUSDC; otherwise, with exits decided by the written exit check, one history entry per candle, trades appended once per exit, and the metrics over all trades |
| FixedBacktest.FixedStopLossLive | simple_backtest_test.py:235-245 | in the loop's states the written exit check is live: an open position whose unrealised P&L reaches the drawdown share of equity in absolute value (a loss, or equally a gain) makes the strategy exit |
| FixedBacktest.ExitReopensEntry | simple_backtest_test.py:272-274 | after an exit the strategy is idle and unlatched, so a volatile enough market yields a new entry signal |
| Metrics.StepReturn | src/backtest/metrics.py:59-64 | a period return is 0 after a zero equity, else the percentage change from the previous equity |
| Metrics.CalculateReturns | src/backtest/metrics.py:48-66 | one return per step of the curve (none for an empty curve), each the step's percentage change |
| Metrics.ReturnsRebuildCurve | src/backtest/metrics.py:58-66 | the returns invert: each equity after a non-zero one is the previous equity grown by its return |
| Metrics.GrowBy | src/backtest/metrics.py:63 | growing the previous equity by the step's return gives the next equity back |
| Metrics.RunningMax | src/backtest/metrics.py:79 | the running maximum starts at the first equity, never decreases and bounds every earlier equity |
| Metrics.PeakOf | src/backtest/metrics.py:79 | every running peak is attained by an equity at or before its position |
| Metrics.DrawdownEntry | src/backtest/metrics.py:80 | the drawdown is the percentage of the equity below its peak, and not finite at a zero peak |
| Metrics.DrawdownSeries | src/backtest/metrics.py:80 | one drawdown per equity, against the running peak at that point |
| Metrics.DrawdownEntryNonPositive | src/backtest/metrics.py:80 | an equity at or below a positive peak has a finite drawdown of at most 0 |
| Metrics.DrawdownNonPositive | src/backtest/metrics.py:79-80 | on a curve starting positive every drawdown is finite and at most 0 |
| Metrics.ExtAbs | src/backtest/metrics.py:89 | `abs` keeps `nan`, sends infinities to `inf` and finite values to their magnitude |
| Metrics.PyMax | src/backtest/metrics.py:89 | the builtin `max` returns one of its items |
| Metrics.MinFold | src/backtest/metrics.py:82 | the fold behind `np.min` returns one of its items |
| Metrics.MinFoldLeast | src/backtest/metrics.py:82 | on finite values the minimum is at most every item |
| Metrics.NpMin | src/backtest/metrics.py:82 | `np.min` is `nan` as soon as one value is `nan`, the fold otherwise |
| Metrics.AbsAll | src/backtest/metrics.py:89 | the element-wise `abs` of an array |
| Metrics.FirstIndexOf | src/backtest/metrics.py:83-86 | an index at which the value occurs |
| Metrics.FirstIndexOfIsFirst | src/backtest/metrics.py:83-86 | no earlier index holds the value, as numpy's `argmin`/`argmax` choose |
| Metrics.NpArgMin | src/backtest/metrics.py:83 | `np.argmin` points at the minimum |
| Metrics.NpArgMax | src/backtest/metrics.py:86 | `np.argmax` points at the maximum |
| Metrics.Trough | src/backtest/metrics.py:82-83 | the trough index holds the deepest drawdown |
| Metrics.PeakStart | src/backtest/metrics.py:86 | the start of the drawdown lies before the trough and carries the running peak just before it |
| Metrics.PeakStartIsFirst | src/backtest/metrics.py:86 | the start is the first point at which that peak was reached |
| Metrics.CalculateDrawdownAsWritten | src/backtest/metrics.py:69-89 | as written: raises for an empty curve and whenever the first drawdown is already the deepest; otherwise the largest absolute drawdown, the absolute deepest drawdown and the steps from the peak's start to the trough |
| Metrics.MaxAbsIsAbsMin | src/backtest/metrics.py:82-89 | on drawdowns at most 0 the largest absolute value is the absolute minimum |
| Metrics.NeverFallingCurveRaises | src/backtest/metrics.py:83-87 | as written, a curve starting positive raises exactly when it never falls below its running peak |
| Metrics.FirstDrawdownZero | src/backtest/metrics.py:79-80 | the first drawdown of a positive curve is 0 |
| Metrics.FlatCurveMinZero | src/backtest/metrics.py:80-82 | a curve that never falls has a deepest drawdown of 0 |
| Metrics.ZeroMinMeansFlat | src/backtest/metrics.py:80-82 | a deepest drawdown equal to the first means the curve never falls |
| Metrics.ZeroMinAllZero | src/backtest/metrics.py:82 | values at most 0 with minimum 0 are all 0 |
| Metrics.ZeroEntryAtPeak | src/backtest/metrics.py:80 | a zero drawdown means the equity stands at its peak |
| Metrics.DrawdownAmountIsPercent | src/backtest/metrics.py:89 | as written, on a curve that falls, the "amount" equals the percentage |
| Metrics.FallingCurveAnswers | src/backtest/metrics.py:82-89 | as written, a positive curve that falls somewhere gets an answer |
| Metrics.AbsMaxIsAbsMin | src/backtest/metrics.py:89 | on drawdowns at most 0 both reductions of line 89 agree |
| Metrics.TwoPointFall | src/backtest/metrics.py:69-89 | for a fall from `a` to `b`: as written both components are the percentage; corrected the first is `a - b`; duration 1 |
| Metrics.TwoPointTrough | src/backtest/metrics.py:82-83 | for a two-point fall the trough is the second point, at minus the percentage fall |
| Metrics.TwoPointAsWritten | src/backtest/metrics.py:69-89 | as written, a two-point fall reports the percentage twice and a duration of 1 |
| Metrics.TwoPointCorrected | src/backtest/metrics.py:69-89 | corrected, a two-point fall reports the amount, the percentage and a duration of 1 |
| Metrics.TwoPointSeries | src/backtest/metrics.py:79-80 | the running peak and drawdowns of a two-point fall |
| Metrics.TwoPointReductions | src/backtest/metrics.py:82-89 | `np.min` and `max(abs(..))` of the two drawdowns |
| Metrics.TwoPointDrops | src/backtest/metrics.py:79 | the largest drop below the peak of a two-point fall is `a - b` |
| Metrics.NeverFallingCorrected | src/backtest/metrics.py:69-89 | corrected, a curve that never falls reports amount 0, percentage 0 and duration 0 |
| Metrics.DrawdownExample | src/backtest/metrics.py:69-89 | the curve 200, 100: as written (50, 50, 1); corrected (100, 50, 1) |
| Metrics.RisingCurveExample | src/backtest/metrics.py:83-87 | the curve 100, 110: as written an error; corrected (0, 0, 0) |
| Metrics.Drops | src/backtest/metrics.py:79-80 | each point's drop below its running peak, never negative |
| Common.MaxOf | src/backtest/metrics.py:86 | the maximum is one of the values and bounds all of them |
| Common.MinOf | src/core/backtest_engine.py:445-447 | the minimum is one of the values and is bounded by all of them |
| Metrics.CalculateDrawdown | src/backtest/metrics.py:69-89 | corrected: raises only for an empty curve; the largest drop amount, the absolute deepest percentage and the duration |
| Metrics.CorrectedDrawdownIsLargestFall | src/backtest/metrics.py:69-78 | the corrected amount is the largest fall from an earlier equity to a later one, and some pair attains it |
| Metrics.MaxDropFacts | src/backtest/metrics.py:79-80 | the largest drop below the running peak bounds, and equals, a fall between two points |
| Metrics.DropBelowMax | src/backtest/metrics.py:79 | any fall from an earlier point is at most the largest drop |
| Metrics.MaxDropWitness | src/backtest/metrics.py:79 | some pair of points falls by the largest drop |
| Metrics.DrawdownDuration | src/backtest/metrics.py:83-87 | 0 when the trough is the first point, else the positive distance from the peak's start to the trough |
| Metrics.CorrectedDrawdownAgrees | src/backtest/metrics.py:69-89 | the correction always answers, agrees with the code as written on percentage and duration where that answers, and reports duration 0 where it raises |
| Metrics.Shift | src/backtest/metrics.py:112 | subtracting a constant from every return |
| Metrics.SharpeRatio | src/backtest/metrics.py:92-118 | 0 below two returns; divides by zero for a zero period count; otherwise 0 without spread, else the annualised mean excess return over its spread |
| Common.ConstantVarianceZero | src/backtest/metrics.py:114 | identical values have variance 0 |
| Metrics.Std | src/backtest/metrics.py:114-117 | `np.std` is the square root of the population variance, so a constant sample gives sqrt(0), the case the Sharpe guard catches |
| Metrics.FlatReturnsSharpeZero | src/backtest/metrics.py:114-115 | identical returns give a Sharpe ratio of 0 |
| Metrics.Below | src/backtest/metrics.py:143 | the negative values kept from the array; empty exactly when none is negative |
| Metrics.Downside | src/backtest/metrics.py:141-143 | the excess returns below the target, empty exactly when no return is below it |
| Metrics.SortinoRatio | src/backtest/metrics.py:121-150 | 0 below two returns; `nan` when nothing is below the target; otherwise 0 without downside spread, else the annualised mean excess return over the downside spread |
| Metrics.CalmarRatio | src/backtest/metrics.py:153-170 | 0 for a zero drawdown; the return over the drawdown otherwise; `nan` exactly for a `nan` drawdown; 0 for an infinite drawdown |
| Metrics.RecoveryFactor | src/backtest/metrics.py:209-226 | 0 for a zero drawdown, the net profit over the drawdown otherwise |
| Metrics.Profits | src/backtest/metrics.py:186 | the winning trades' profits, all positive |
| Metrics.Losses | src/backtest/metrics.py:201 | the losing trades' loss sizes, all positive; winners and losers together are at most all trades |
| Metrics.WinRate | src/backtest/metrics.py:173-187 | 0 for no trades, else the share of winners in percent |
| Metrics.WinRateBounds | src/backtest/metrics.py:173-187 | the win rate lies in 0..100 and is 100 exactly when every trade wins |
| Metrics.PositiveSum | src/backtest/metrics.py:200-201 | a sum of positive values is positive unless empty |
| Metrics.GrossProfit | src/backtest/metrics.py:200 | never negative, and positive exactly when some trade won |
| Metrics.GrossLoss | src/backtest/metrics.py:201 | never negative, and positive exactly when some trade lost |
| Metrics.ProfitFactor | src/backtest/metrics.py:190-206 | without losses `inf` if anything was won and 0 otherwise; else gross profit over gross loss |
| Metrics.QuotientNonNegative | src/backtest/metrics.py:206 | a non-negative over a positive is non-negative |
| Metrics.ProfitFactorInfinite | src/backtest/metrics.py:190-206 | the factor is `inf` exactly when some trade won and none lost, and is never negative |
| Metrics.TradeSummary | src/backtest/metrics.py:251-257 | counts winners and losers to the total, net profit is gross profit less gross loss, averages guarded against no trades |
| Metrics.ReturnPercent | src/backtest/metrics.py:260-261 | the total return against the initial balance, dividing by zero for a zero balance |
| Metrics.CalculateMetricsSummary | src/backtest/metrics.py:229-301 | the empty dictionary for an empty curve; an error exactly for a zero balance or a zero period count with two or more returns; the trade fields otherwise |
| Metrics.SummaryReturns | src/backtest/metrics.py:259-262 | the summary's total return is the return against the initial balance, repeated as the annual return |
| Metrics.SummaryDrawdown | src/backtest/metrics.py:265-276 | the summary's drawdown fields are the drawdown of the curve, and Calmar and recovery are taken against them |
| Metrics.SummaryRatios | src/backtest/metrics.py:266-270 | Sharpe and Sortino are taken over the curve's returns with no risk-free rate |
| ParamTuner.NewTuner | src/optimization/param_tuner.py:32-41 | base and current both hold the given parameters, with an empty history |
| ParamTuner.AdjustLinear | src/optimization/param_tuner.py:43-63 | a step of the adjustment up for direction 1 and down for direction -1 |
| ParamTuner.LinearRoundTrip | src/optimization/param_tuner.py:62 | a linear step is undone by the step in the opposite direction |
| ParamTuner.AdjustExponential | src/optimization/param_tuner.py:65-89 | multiply for a positive direction, divide otherwise; `ZeroDivisionError` exactly when dividing by a zero factor |
| ParamTuner.ExponentialRoundTrip | src/optimization/param_tuner.py:84-87 | multiplying by a non-zero factor is undone by dividing by it |
| ParamTuner.AdjustAdaptive | src/optimization/param_tuner.py:91-119 | unchanged for a zero target; otherwise moved by the sensitivity times the relative deviation from the target |
| ParamTuner.AdaptiveOnTargetUnchanged | src/optimization/param_tuner.py:113-117 | performance on target leaves the value alone |
| ParamTuner.UpdateParam | src/optimization/param_tuner.py:121-153 | the value is clamped into the bounds (the lower bound wins when they cross), stored under the name with every other parameter kept, and recorded with the previous value |
| ParamTuner.UpdateParamIdempotent | src/optimization/param_tuner.py:141-151 | repeating an update stores the same value again and only grows the history, whose new record's old value is the first update's value |
| ParamTuner.ScaleEntry | src/optimization/param_tuner.py:173-174 | a numeric, non-excluded parameter is multiplied by the factor; anything else is kept |
| ParamTuner.ScaleParameters | src/optimization/param_tuner.py:155-176 | every parameter scaled entry by entry, the names unchanged, a copy returned, base and history untouched |
| ParamTuner.ScaleRoundTrip | src/optimization/param_tuner.py:155-176 | scaling by a non-zero factor and then by its inverse restores the tuner |
| ParamTuner.ResetToBase | src/optimization/param_tuner.py:178-180 | the current parameters become the base ones; base and history kept |
| ParamTuner.ResetRestoresBase | src/optimization/param_tuner.py:32-180 | after an update and a scaling, a reset gives back the parameters the tuner was built with |
| ParamTuner.GetParameter | src/optimization/param_tuner.py:182-184 | the current value when present, the default otherwise |
| ParamTuner.GetAdjustmentCount | src/optimization/param_tuner.py:190-192 | the number of recorded updates |
| ParamTuner.AddRule | src/optimization/param_tuner.py:216-223 | the rule is appended after the existing ones |
| ParamTuner.Direction | src/optimization/param_tuner.py:241 | up exactly for a positive trigger, down otherwise |
| ParamTuner.Proposed | src/optimization/param_tuner.py:240-266 | a linear rule steps by its sensitivity, an exponential one scales by one plus it, any other type aims at target 0 and proposes the value unchanged |
| ParamTuner.EvaluateRule | src/optimization/param_tuner.py:232-274 | a rule without its trigger is skipped; it raises exactly when its parameter is missing or not a number or it divides by a zero factor, and then changes nothing; otherwise one record is appended and only its parameter changes |
| ParamTuner.DynamicOnlyClamps | src/optimization/param_tuner.py:259-274 | a dynamic rule only clamps its parameter, leaving a value within its bounds as it is |
| ParamTuner.LinearRuleSteps | src/optimization/param_tuner.py:240-274 | a linear rule moves its parameter by its sensitivity, up exactly for a positive trigger, then clamps |
| ParamTuner.Evaluate | src/optimization/param_tuner.py:225-274 | the rules in order keep the base, which parameters hold numbers, and extend the history |
| ParamTuner.EvaluateOutcome | src/optimization/param_tuner.py:225-274 | evaluation raises exactly when some rule fails on the starting parameters; without an error it records one update per rule whose trigger is present; unnamed parameters keep their values |
| ParamTuner.EvaluateRaises | src/optimization/param_tuner.py:232-274 | the loop raises exactly when some rule fails on the starting parameters |
| ParamTuner.EvaluateCounts | src/optimization/param_tuner.py:232-274 | a loop that does not raise records one update per triggered rule |
| ParamTuner.EvaluateKeepsUnnamed | src/optimization/param_tuner.py:232-274 | a parameter no rule names keeps its value |
| Optimizer.GridCount | src/optimization/optimizer.py:24-29 | for a positive step, every value before the count lies within the maximum and the value at the count exceeds it |
| Optimizer.GetValues | src/optimization/optimizer.py:22-29 | the loop never ends exactly when the range is non-empty and the step not positive; otherwise the values start at the minimum, move by the step, stay within the maximum, and the next one would exceed it; empty exactly for a minimum above the maximum |
| Optimizer.GridPointStep | src/optimization/optimizer.py:28 | consecutive grid values differ by the step |
| Optimizer.GetValuesUnique | src/optimization/optimizer.py:22-29 | any list starting at the minimum, moving by the step, within the maximum and stopping at the first value beyond it is the list the loop builds |
| Optimizer.ArithmeticGrid | src/optimization/optimizer.py:25-28 | a list starting at the minimum and moving by the step holds the minimum plus `k` steps at position `k` |
| Optimizer.LessMeansFitter | src/optimization/optimizer.py:40-42 | `__lt__` (the predicate Less) holds exactly when a has the higher fitness, so it is irreflexive and asymmetric |
| Optimizer.Insert | src/optimization/optimizer.py:40-42 | inserting into a list in descending fitness keeps it descending and adds exactly the one result |
| Optimizer.HeadDominates | src/optimization/optimizer.py:40-42 | a result ranked at least as high as a list and the inserted result dominates their merge |
| Optimizer.ConsDescending | src/optimization/optimizer.py:40-42 | a result ranked at least as high as a descending list can head it |
| Optimizer.SortResults | src/optimization/optimizer.py:130 | `results.sort()` with the reversed `__lt__` is a permutation in descending fitness |
| Optimizer.SortedHasNoInversion | src/optimization/optimizer.py:40-42 | no later result is "less" (fitter) than an earlier one after the sort |
| Optimizer.PrependEach | src/optimization/optimizer.py:100 | the value put in front of each tail, in order |
| Optimizer.PrependAll | src/optimization/optimizer.py:100 | one combination per value and tail |
| Optimizer.Product | src/optimization/optimizer.py:89-100 | as many combinations as the product of the list lengths (`total_combinations`) |
| Optimizer.PrependAllMembers | src/optimization/optimizer.py:100 | a combination is in the extension exactly when its head is a value and its tail one of the tails |
| Optimizer.ProductMembers | src/optimization/optimizer.py:100 | `itertools.product` yields exactly the combinations picking one value from each list |
| Optimizer.ParamsDict | src/optimization/optimizer.py:104 | the dictionary has distinct keys and exactly the parameters' names |
| Optimizer.ParamsDictLookup | src/optimization/optimizer.py:104 | with distinct names each parameter maps to its own value |
| Optimizer.EvaluateCombination | src/optimization/optimizer.py:106-127 | a combination yields a result exactly when neither the runner nor the fitness raises; the result holds the parameters, the runner's metrics and their fitness |
| Optimizer.EvaluateAll | src/optimization/optimizer.py:100-127 | the stored results are exactly the successful evaluations, at most one per combination |
| Optimizer.PrefixSlice | src/optimization/optimizer.py:135 | Python's `s[:n]`: a prefix of length `n` capped at the length, a negative `n` counting from the end |
| Optimizer.Grids | src/optimization/optimizer.py:89 | one value list per parameter, each the parameter's `get_values` |
| Optimizer.GridSearch | src/optimization/optimizer.py:74-135 | no answer when a value loop never ends; otherwise the stored results are exactly the successful evaluations of the product, in descending fitness; `IndexError` exactly when verbose with nothing stored; else the first `top_n` |
| Optimizer.GridSearchTopN | src/optimization/optimizer.py:129-135 | at most `top_n` results, descending, each at least as fit as every stored result left out |
| Optimizer.GetBest | src/optimization/optimizer.py:196-200 | None exactly before any result; otherwise a stored result at least as fit as all of them once sorted |
| Optimizer.GetTopN | src/optimization/optimizer.py:202-204 | a prefix of the stored results of length `n` capped at their number |
| Optimizer.MetricOr | src/optimization/optimizer.py:213 | `metrics.get(name, default)` |
| Optimizer.SharpeFitness | src/optimization/optimizer.py:210-213 | the reported Sharpe ratio, 0 when missing |
| Optimizer.ProfitFactorFitness | src/optimization/optimizer.py:215-218 | the reported profit factor, 0 when missing |
| Optimizer.ReturnPerDrawdown | src/optimization/optimizer.py:220-229 | the annual return per drawdown percent, 0 for a zero drawdown, the return itself when the drawdown is missing |
| Optimizer.WinRateWeighted | src/optimization/optimizer.py:231-237 | the win fraction times the profit factor (default 1); 0 without a win rate |
| Optimizer.CustomScore | src/optimization/optimizer.py:239-249 | the score is the sum of one term per weight, in the weights' order, each the metric (0 when missing) times the weight |
| Optimizer.CustomScoreAppend | src/optimization/optimizer.py:239-249 | the score over two weight lists is the sum of their scores |
| Optimizer.CustomScoreIgnoresMissing | src/optimization/optimizer.py:246-248 | a weight on a metric not reported adds nothing |
| MarketCache.NewCache | src/data/market_data.py:145-147 | a new cache is empty and holds no symbol |
| MarketCache.HasMeansStored | src/data/market_data.py:171-181 | `has` (the predicate Has) holds exactly when some cached pair has that symbol as key |
| MarketCache.Get | src/data/market_data.py:159-169 | the stored data, None exactly for a symbol never added |
| MarketCache.Add | src/data/market_data.py:149-157 | the symbol now maps to the data, every other symbol is unchanged, and the size grows only for a new symbol |
| MarketCache.Remove | src/data/market_data.py:183-196 | True exactly when the symbol was cached; afterwards it is absent, the others unchanged and the size one less |
| MarketCache.Clear | src/data/market_data.py:198-200 | the cache is empty afterwards |
| MarketCache.GetSymbols | src/data/market_data.py:202-204 | exactly the cached symbols, one per entry, in the order they were first added |
| MarketCache.GetSize | src/data/market_data.py:206-208 | the number of cached symbols |
| MarketCache.AddThenRemove | src/data/market_data.py:149-196 | removing a just-added symbol succeeds and restores every other lookup |
| MarketCache.AddOverwrites | src/data/market_data.py:149-157 | re-adding a symbol overwrites its data without growing the cache |
| MarketCache.AddKeepsOrder | src/data/market_data.py:149-157 | adding a new symbol appends it to the symbol list; re-adding a cached one leaves the order unchanged |
| MarketCache.RemoveTwice | src/data/market_data.py:183-196 | a second removal finds nothing and changes nothing |

## Left out

- File and JSON input and output: `export_results`, the CSV and JSON loaders, `save_to_file` and `load_from_file` of the market data module, `PlatformConfig.to_file`/`from_file`, `FileHelper`, `ConfigHelper.load_env_config`, `load_config_file`, the `open()` of `_load_env_file` (its per-line rule is modelled), `export_history` and `export_adaptive_history`.
- Live trading (`src/live_trading/`): the exchange and network boundary.
- `src/backtest/backtest_runner.py`: orchestration around the engine, calling engine methods that do not exist.
- Presentation: the visualisation package, the logger, `FormatHelper`, `print_status`, `print_adaptive_status`, `format_volatility_report`, `format_scaling_report`, `get_position_info`, the `to_dict` methods and every `print`, including the optimiser's progress lines.
- `src/strategies/base_strategy.py` and the reflective import test: not used by the engine.
- Pydantic machinery: only the validators and field bounds are modelled, as predicates and smart constructors; `MarketTicker` carries no logic beyond field types.
- `GridTradingStrategy.update_state` and `calculate_position_size`: the engine never calls them, and `update_state` cannot even build its `Position`.
- `Optimizer.random_search`: driven by `random.uniform`.
- The `random` market generator of `simple_backtest_test.py`: the model takes the candles as input.
- `DateTimeHelper.get_current_timestamp` and `parse_timestamp`, and every `datetime.now()` default: clock reads become the parameter `now`, and the `uuid4` ids of `OrderExecutor.create_order` are a parameter.
- `MathHelper.round_to_decimals` and all floating-point rounding: prices are `real`, so the `current += step` loop of `get_values` is modelled as exact multiples of the step and no accumulated error is represented.
- Concurrency: the source has none.
- `get_all_parameters`, `get_adjustment_history`, `get_volatility_history`, `get_scaling_history`, `get_volatility_measures`: they return copies or fields, which an immutable value model returns as they are.
- Volatility.BollingerBandwidth: the bandwidth formula (`np.mean`, `np.std`) is a parameter; only the cold-start guard and the window it is given are stated.
- Volatility.GarmanKlass: the logarithms and the final square root are parameters; the guard, the `ZeroDivisionError` on a zero low or open and the mean of the per-bar terms are stated, not the numeric value of a logarithm (beyond `ln 1 = 0` where a lemma assumes it).
- Volatility.Ewma: the final `np.sqrt` is a parameter; the guard, the error on a zero close, the first state (the variance of the returns) and the recursion `alpha * r^2 + (1 - alpha) * previous` are stated.
- DataModels.CalculateVolatility: the square root `** 0.5` is a parameter; the population variance of the simple returns it is applied to is stated exactly.
- Metrics.SharpeRatio: `np.std` is the population variance through a square-root parameter, and `np.sqrt(periods_per_year)` is the same parameter, so a negative period count (a `nan` in numpy) is whatever the parameter gives.
- Metrics.SortinoRatio: numpy's runtime warning for the standard deviation of an empty array is not modelled, only its `nan` result.
- Metrics.CalculateMetricsSummary: uses the corrected drawdown; as written, the summary raises wherever `calculate_drawdown` raises (see Findings).
- Volatility.Update: requires `atr_period >= 1`; with a zero period Python's `[-0:]` slices take the whole buffer and the ATR's mean of an empty list is `nan`, which the model does not represent.
- Optimizer.SortResults: states a descending permutation, not the stability of `list.sort` among equal fitness scores.
- Engine.RunBacktest: the per-candle `portfolio_history.append(portfolio)` appends one mutable object, so every history entry is the final state; the model appends the final portfolio once per candle instead of tracking object identity.
- Engine.TotalEquity: values open positions at price 0, as the source does, so equity ignores the market; the model keeps that behaviour rather than correcting it.

## Findings

| source | as written | input that shows it | evidently intended | confidence | as-written member | corrected member |
|---|---|---|---|---|---|---|
| src/data/data_models.py:207-209 | a fill that completes the order assigns `OrderStatus.CLOSED`, which the enumeration does not define, so it raises `AttributeError` after updating the fill fields | a pending order for 1 unit filled with quantity 1 at 100 | the order becomes `FILLED` | high, not executed | DataModels.FillOrderAsWritten, DataModels.CompletingFillRaises, DataModels.FullFillOfFreshOrderRaises | DataModels.FillOrder |
| src/config_models.py:384-395 | the validator's parameters are `cls` and `values`, but its body reads `self`, so every construction raises `NameError` | any `PlatformConfig`, e.g. mode BACKTEST with a backtest config | BACKTEST requires a backtest config, LIVE a live-trading config | high, not executed | Config.ValidateModeConfigsAsWritten, Config.ModeValidatorRejectsValidConfig | Config.ValidateModeConfigs |
| src/adaptive_parameters.py:163-172 | the EXTREME test comes after `> high`, so it can never be reached for a non-negative high threshold | volatility 10, twice the high threshold 5 (low 1), is HIGH, not EXTREME | EXTREME above 1.5 times the high threshold, HIGH between | high, not executed | Adaptive.ClassifyAsWritten, Adaptive.ExtremeUnreachable, Adaptive.ScaleParameters | Adaptive.Classify, Adaptive.ClassifyAgreesOutsideExtreme |
| src/core/backtest_engine.py:264-287 | fills never append to `Position.entry_orders` and no strategy is ever reset, so the stop-loss branch (which needs entry orders) is dead and each strategy enters once | any run: a held position has no entry orders, and exits happen on take profit only | record each fill on the position and reset the strategy after an exit, as the repaired loop of `simple_backtest_test.py` does | high, not executed | Engine.EngineExitsOnTakeProfitOnly, Engine.FillsKeepEngineHeld | FixedBacktest.FixedStopLossLive, FixedBacktest.FillsKeepFixedHeld, FixedBacktest.ExitReopensEntry |
| src/strategies/grid_strategy.py:377-380 | the stop-loss compares `abs(unrealized_pnl)` with the allowed loss, so a large enough gain also triggers it | a long of 100 at 100 with 5 % take profit, 3 % drawdown limit, equity 10000, at price 104: a 400 gain exits as "stop loss" | trigger on losses only | high, not executed | GridStrategy.CheckExitConditionsAsWritten, GridStrategy.ProfitTriggersStopLoss, FixedBacktest.FixedExit | GridStrategy.CheckExitConditions, GridStrategy.StopLossMeansLoss |
| src/core/backtest_engine.py:383 | a short exit credits `quantity * price - commission`, while its entry debited `quantity * entry`, so the cash moves by the long P&L | a short of 1 entered at 100 and closed at 90: the trade records +10, the cash loses 10 | credit the entry capital plus the short's P&L | high, not executed | Engine.CloseCreditAsWritten, Engine.ShortCreditInverted, Engine.CloseOut, Engine.CloseOutConservesValue | Engine.CloseCredit, Engine.CorrectedCreditConservesValue |
| src/backtest/metrics.py:89 | the first component, documented as the drawdown amount, is `max(abs(drawdown))`, the same percentage as the second | the curve 200, 100 reports (50, 50, 1) though the equity fell by 100 | the largest fall in equity as an amount | medium, not executed | Metrics.CalculateDrawdownAsWritten, Metrics.DrawdownAmountIsPercent, Metrics.DrawdownExample | Metrics.CalculateDrawdown, Metrics.CorrectedDrawdownIsLargestFall, Metrics.TwoPointFall |
| src/backtest/metrics.py:83-87 | when the deepest drawdown is the first point (a curve that never falls), `running_max[:0]` is empty and `np.argmax` raises `ValueError` | the curve 100, 110 | no drawdown: amount 0, percentage 0, duration 0 | high, not executed | Metrics.NeverFallingCurveRaises, Metrics.RisingCurveExample | Metrics.CalculateDrawdown, Metrics.NeverFallingCorrected |
