# portfolio-insight, modelled in Dafny

This project models the decision logic of portfolio-insight, a Python toolkit for
an E*TRADE brokerage account. It covers:

- the **incremental allocation engine**, which turns target weights, new cash,
  current holdings and prices into whole-share purchase recommendations
  (`portfolio/allocation.py`);
- the **backtest service**, which checks a period label, intersects the trading
  dates of the allocated symbols, simulates buy-and-hold and reports CAGR, total
  return, maximum drawdown and the Sharpe ratio, for one period or several
  (`portfolio_insight/portfolio/backtest.py`);
- the two **order clients**. Each validates its parameters before any request
  and flattens an order-list reply into one row per instrument
  (`portfolio_insight/order.py`, and the older `order.py`);
- **account selection** and the account summary
  (`portfolio_insight/accounts.py`).

Python dicts are association lists in insertion order (`Dicts`). A JSON scalar is
a `Values.Value` with Python truthiness. Money is an exact `real`. Every outside
call is a parameter of the model:

- HTTP requests;
- Alpaca's bar download;
- the allocation service;
- the clock;
- real powers and square roots;
- the random client order id.

| file | module | models |
|---|---|---|
| basics.dfy | Basics, Dicts | Option/Result, dicts as association lists |
| values.dfy | Values | JSON scalars, truthiness, `int()` convertibility |
| allocation.dfy | Allocation | `calculate_investment_allocation` |
| backtest_metrics.dfy | BacktestMetrics | `get_date_range`, `calculate_cagr`, `calculate_max_drawdown`, `calculate_sharpe_ratio` |
| backtest_simulation.dfy | BacktestSimulation | the date selection and buy-and-hold simulation of `calculate_portfolio_performance` |
| backtest.dfy | Backtest | `BacktestService` (a class) and its runs |
| order_replies.dfy | OrderReplies | the order-list reply both order clients read |
| orders.dfy | Orders | `portfolio_insight/order.py` |
| legacy_orders.dfy | LegacyOrders | `order.py` |
| accounts.dfy | Accounts | `portfolio_insight/accounts.py` (a class) |

## Model

| member | source | states |
|---|---|---|
| Dicts.Put | portfolio/allocation.py:36 | `d[k] = v`: k now maps to v and every other key keeps its value |
| Dicts.PutKeys | portfolio/allocation.py:36 | assignment keeps the key order, appending a new key at the end |
| Allocation.CalculateInvestmentAllocation | portfolio/allocation.py:5-69 | the method, with its three loops, returns exactly `Allocate` of its inputs |
| Allocation.PercentLoop | portfolio/allocation.py:33-36 | each target symbol maps to its current value (0 when not held) over the future total |
| Allocation.GapLoop | portfolio/allocation.py:39-44 | each target symbol maps to its target fraction minus its current fraction |
| Allocation.ShareLoop | portfolio/allocation.py:59-67 | each under-allocated symbol gets its floored share of the cash, or 0 without a positive price |
| Allocation.Allocate | portfolio/allocation.py:23-30 | an empty target, non-positive cash or a non-positive future total give `{}` |
| Allocation.UnderAllocated | portfolio/allocation.py:47 | keeps exactly the entries with a strictly positive gap; keeps keys distinct; the kept gaps sum to a positive total |
| Allocation.SharesFor | portfolio/allocation.py:64-67 | non-negative for non-negative cash; positive only with a known positive price; never costs more than the amount |
| Allocation.AllocateKeys | portfolio/allocation.py:47 | the result's keys are exactly the target symbols with a positive gap, and they are distinct |
| Allocation.AllocateShares | portfolio/allocation.py:64-67 | share counts are non-negative, and a symbol without a positive price gets 0 |
| Allocation.AmountsExhaustInvestment | portfolio/allocation.py:53-61 | the dollar amounts before flooring sum to the invested cash |
| Allocation.NoOverspend | portfolio/allocation.py:64-65 | the recommended shares cost at most the invested cash |
| Allocation.OutsideHoldingWidensGaps | portfolio/allocation.py:26-27 | a holding outside the target can only widen every target gap, strictly for a held symbol |
| Allocation.OtherPricesIrrelevant | portfolio/allocation.py:64-65 | changing one symbol's price changes at most that symbol's count |
| Allocation.EmptyPortfolio | tests/test_allocation.py:35-56 | from no holdings with positive targets summing to 1, each symbol gets `floor(target*cash/price)` |
| Allocation.ProportionalExample | tests/test_allocation.py:119-142 | 50/30/20 with 1000 at 100/200/50 buys 5, 1 and 4 shares |
| Allocation.BalancedExample | tests/test_allocation.py:160-186 | a balanced 60/40 portfolio gets 4 AAPL and 2 GOOGL |
| Allocation.OverAllocatedExample | tests/test_allocation.py:79-100 | the over-allocated GOOGL is left out and AAPL gets 6 shares |
| Allocation.MissingPriceExample | tests/test_allocation.py:189-205 | a symbol without a price is listed with 0 shares |
| BacktestMetrics.PeriodYears | portfolio_insight/portfolio/backtest.py:43-50 | only 1Y, 5Y and 10Y are known, reaching back 1, 5 or 10 years |
| BacktestMetrics.GetDateRange | portfolio_insight/portfolio/backtest.py:31-52 | an unknown label is an error; otherwise the range ends now and starts at a valid date |
| BacktestMetrics.DateRangeSpansPeriod | portfolio_insight/portfolio/backtest.py:41-52 | the start is the same date the period's number of years earlier, clamped on 29 February |
| BacktestMetrics.UnknownPeriodRefused | tests/test_backtest_service.py:68-85 | any other label raises the unsupported-period error |
| BacktestMetrics.Cagr | portfolio_insight/portfolio/backtest.py:55-70 | 0 for a non-positive start or span; otherwise `1 + r` is the growth factor's `1/years` power |
| BacktestMetrics.CagrCompounds | portfolio_insight/portfolio/backtest.py:70 | the start value grown at the CAGR for the years gives the end value |
| BacktestMetrics.MaxDrawdownIsLargestDrawdown | portfolio_insight/portfolio/backtest.py:83-96 | 0 for fewer than two values; otherwise the largest (peak - value)/peak over the series |
| BacktestMetrics.PositiveValuesDrawdown | portfolio_insight/portfolio/backtest.py:86-94 | for positive values the drawdown is defined and lies in [0, 1) |
| BacktestMetrics.NonDecreasingNoDrawdown | tests/test_backtest_service.py:39-53 | a series that never falls has drawdown 0 |
| BacktestMetrics.DrawdownScanFails | portfolio_insight/portfolio/backtest.py:93 | the scan fails, by division by zero, exactly when a running peak is 0 |
| BacktestMetrics.CalculateMaxDrawdown | portfolio_insight/portfolio/backtest.py:73-96 | the loop with `peak` and `max_drawdown` returns `MaxDrawdown` |
| BacktestMetrics.MaxDrawdown | portfolio_insight/portfolio/backtest.py:83-96 | 0 for fewer than two values; a computed drawdown is never negative |
| BacktestMetrics.DrawdownExample | tests/test_backtest_service.py:39-47 | the series 1000, 1100, 1050, 950, 1200, 900, 1300 has drawdown (1200 - 900) / 1200 = 0.25 |
| BacktestMetrics.SharpeRatio | portfolio_insight/portfolio/backtest.py:110-111 | fewer than two returns give 0 |
| BacktestMetrics.ConstantReturnsSharpeZero | portfolio_insight/portfolio/backtest.py:120-121 | constant returns have zero deviation and give 0 |
| BacktestMetrics.SharpeSign | portfolio_insight/portfolio/backtest.py:123 | with positive deviation, the ratio has the sign of the mean excess return |
| BacktestSimulation.SortedDays | portfolio_insight/portfolio/backtest.py:331 | the dates are the set's elements, strictly ascending |
| BacktestSimulation.CloseOn | portfolio_insight/portfolio/backtest.py:343-347 | a close is found exactly when the date occurs, and comes from a bar of that date |
| BacktestSimulation.SharedDateGivesIntersection | portfolio_insight/portfolio/backtest.py:315-322 | when some date is shared by every counted symbol, the fold is the plain intersection |
| BacktestSimulation.EmptyIntersectionResets | portfolio_insight/portfolio/backtest.py:319-322 | an empty running set is replaced by the next symbol's dates, so an untraded date can be used |
| BacktestSimulation.CommonDates | portfolio_insight/portfolio/backtest.py:315-322 | every date the fold keeps is a trading date of some allocated symbol with bars |
| BacktestSimulation.FirstDayValue | portfolio_insight/portfolio/backtest.py:350-362 | the first date is worth the initial value times the fraction of the allocation priced that day |
| BacktestSimulation.FirstDayFails | portfolio_insight/portfolio/backtest.py:357 | the first date fails exactly when a priced symbol has price 0 |
| BacktestSimulation.SharesFixedOnFirstDate | portfolio_insight/portfolio/backtest.py:353-362 | later dates are valued with the share counts bought on the first date |
| BacktestSimulation.Simulate | portfolio_insight/portfolio/backtest.py:337-362 | the date loop as a function; a success has one portfolio value per date |
| BacktestSimulation.FewerReturnsThanValues | portfolio_insight/portfolio/backtest.py:367-371 | there is at most one return per value after the first |
| BacktestSimulation.ReturnsRebuildValues | portfolio_insight/portfolio/backtest.py:367-371 | with positive values, each value is the previous one grown by its return |
| BacktestSimulation.TotalReturn | portfolio_insight/portfolio/backtest.py:389-391 | with a positive start, start times (1 + r) is the end; otherwise 0 |
| BacktestSimulation.PerformanceErrors | portfolio_insight/portfolio/backtest.py:300-328 | missing data, then a non-positive total, then no common dates, each exactly when it applies; one date gives a calculation or insufficient-data error |
| BacktestSimulation.PerformanceShape | portfolio_insight/portfolio/backtest.py:380-408 | a success covers at least two sorted common dates, one value each, years = days/252, the start value from the first date, a non-negative drawdown |
| BacktestSimulation.PortfolioPerformance | portfolio_insight/portfolio/backtest.py:282-418 | the method as a function of its inputs; it fails only with one of its five errors |
| Backtest.PortfolioAllocation | portfolio_insight/portfolio/backtest.py:196-208 | succeeds exactly when a service is set and returns an allocation |
| Backtest.HistoricalData | portfolio_insight/portfolio/backtest.py:224-234 | data arrives only with a client and symbols, and is what the fetch returned |
| Backtest.UnsupportedPeriodFirst | portfolio_insight/portfolio/backtest.py:435-443 | the unsupported-period error is reported exactly for an unknown label, before anything else |
| Backtest.SuccessNeedsConfiguration | portfolio_insight/portfolio/backtest.py:445-494 | success needs both collaborators and reports the service's allocation, its symbols and a range ending now |
| Backtest.BacktestOf | portfolio_insight/portfolio/backtest.py:420-497 | `run_backtest` as a function of the configuration; a report names the requested period and initial value |
| Backtest.Periods | portfolio_insight/portfolio/backtest.py:512-517 | no list means the three supported periods |
| Backtest.SuccessfulHas | portfolio_insight/portfolio/backtest.py:526-528 | a period is among the successful ones exactly when its result succeeded |
| Backtest.ComparisonsHas | portfolio_insight/portfolio/backtest.py:536-543 | the comparison has a row for exactly the successful periods |
| Backtest.MultipleSummarisesSuccesses | portfolio_insight/portfolio/backtest.py:512-551 | one result per requested period; success exactly when some period succeeded; the comparison covers exactly the successes |
| Backtest.MultipleOf | portfolio_insight/portfolio/backtest.py:499-551 | `run_multiple_period_backtest` as a function; success is reported exactly when a comparison summary is |
| Backtest.DefaultPeriods | tests/test_backtest_service.py:268-289 | no list is the same run as 1Y, 5Y and 10Y |
| Backtest.CommonDatesLoop | portfolio_insight/portfolio/backtest.py:315-322 | the loop computes the date fold |
| Backtest.MeasurePerformance | portfolio_insight/portfolio/backtest.py:373-408 | the metrics computed from the value series |
| Backtest.BacktestService.constructor | portfolio_insight/portfolio/backtest.py:132-135 | no client, no service, no temporary shares |
| Backtest.BacktestService.SetAlpacaCredentials | portfolio_insight/portfolio/backtest.py:137-168 | a missing library or a failing client constructor leaves the client unchanged; otherwise the client is set |
| Backtest.BacktestService.SetAllocationService | portfolio_insight/portfolio/backtest.py:170-187 | reports success; the service is stored and nothing else changes |
| Backtest.BacktestService.IsConfigured | portfolio_insight/portfolio/backtest.py:553-555 | configured exactly when both the Alpaca client and the allocation service are set |
| Backtest.BacktestService.GetServiceStatus | portfolio_insight/portfolio/backtest.py:553-564 | fully configured exactly when both collaborators are set |
| Backtest.BacktestService.CalculatePortfolioPerformance | portfolio_insight/portfolio/backtest.py:282-418 | returns `PortfolioPerformance`, and `_shares` is gone afterwards on every path |
| Backtest.BacktestService.DailyLoop | portfolio_insight/portfolio/backtest.py:337-371 | the loop over dates produces the simulated values and returns |
| Backtest.BacktestService.ValueOn | portfolio_insight/portfolio/backtest.py:338-362 | one date's value; only the first date buys shares |
| Backtest.BacktestService.RunBacktest | portfolio_insight/portfolio/backtest.py:420-497 | returns `BacktestOf` the current configuration, succeeds only on a configured service, and keeps the service valid |
| Backtest.BacktestService.RunMultiplePeriodBacktest | portfolio_insight/portfolio/backtest.py:499-551 | returns `MultipleOf` the current configuration |
| OrderReplies.LinesCount | portfolio_insight/order.py:568-577 | the flattened reply has one line per instrument under non-null orders and details |
| OrderReplies.RequireOrderId | portfolio_insight/order.py:395-396 | both clients' `cancel_order` (the older one at order.py:186-187): a falsy order id gives "Order ID is required", any other id is the one sent |
| Orders.ValidateOrderParamsMeaning | portfolio_insight/order.py:30-67 | accepted exactly with truthy symbol, action, quantity and price type; an advertised price type and action; a truthy limit price for LIMIT; an `int()`-convertible quantity |
| Orders.ValidateOrderParams | portfolio_insight/order.py:30-67 | the checks in source order; an accepted order supplies every required field and an `int()`-convertible quantity |
| Orders.GetOrderOptions | portfolio_insight/order.py:474-486 | the advertised price types and order actions are exactly those the validator accepts |
| Orders.ZeroQuantity | portfolio_insight/order.py:37-41 | quantity 0 is refused, while the string "0" passes |
| Values.IntWhitespaceExamples | portfolio_insight/order.py:62-65 | `int()` skips a no-break space around the digits, but not U+001C, nor a space between the sign and the digits |
| Orders.WithClientOrderId | portfolio_insight/order.py:83-85 | a supplied id is kept; otherwise the generated id is set; nothing else changes |
| Orders.PreviewOrder | portfolio_insight/order.py:79-85 | invalid parameters are refused; otherwise the order carries a client order id |
| Orders.PlaceOrder | portfolio_insight/order.py:235-244 | invalid parameters first, then a missing preview id, are refused |
| Orders.BuildRow | portfolio_insight/order.py:578-622 | the literal, the product update and the fills update give `RowOf` the line |
| Orders.RowOf | portfolio_insight/order.py:578-622 | one row; quotes only for "open", no security type or symbol without a Product, the filled or the ordered quantity |
| Orders.ExtractOrdersData | portfolio_insight/order.py:559-626 | row k is the row of instrument k in reply order; no rows without an order list; non-open rows carry no quotes |
| Orders.RowQuantity | portfolio_insight/order.py:618-622 | for "individual_fills" a truthy filled quantity replaces the ordered one |
| LegacyOrders.PreviewOrder | order.py:43-44 | falsy parameters give None |
| LegacyOrders.LegacyRowKeys | order.py:152-173 | the row's keys in order: the ten base keys, then those of its status |
| LegacyOrders.LegacyRowHas | order.py:165-173 | which keys a row has, status by status |
| LegacyOrders.BaseRowValues | order.py:152-163 | the base dict copies the order, detail and instrument fields; security_type and symbol come from the Product and are None without one |
| LegacyOrders.LegacyRow | order.py:152-173 | one row; the status-specific keys never overwrite a base key's value |
| LegacyOrders.LegacyRowValues | order.py:165-173 | for "Open" bid, ask and net_price carry the detail's netBid, netAsk and netPrice; the fill and execution keys carry the instrument's values |
| LegacyOrders.OpenQuotesNeverAdded | order.py:283 | rows of the "open" listing never get bid, ask or net_price |
| LegacyOrders.CapitalisedOpenAddsQuotes | order.py:165-173 | "Open" adds bid, ask and net_price, and no other status adds any of them |
| LegacyOrders.ParseOrders | order.py:137-176 | the rows of the reply's instruments in order; none without an order list |
| Accounts.FirstMissing | portfolio_insight/accounts.py:284-287 | the first field the data lacks, with every earlier field present |
| Accounts.SetAccountOutcome | portfolio_insight/accounts.py:274-290 | the answer of `set_account`: the success message, or one of its three errors |
| Accounts.SetAccountOutcomeMeaning | portfolio_insight/accounts.py:281-290 | falsy data, then a missing accountIdKey, then a missing institutionType are refused; accepted exactly with both |
| Accounts.CountsBound | portfolio_insight/accounts.py:320-325 | gains and losses together count no more positions than there are |
| Accounts.GainSumSplit | portfolio_insight/accounts.py:319-325 | the total gain is the gainers' total plus the losers' total |
| Accounts.Summarise | portfolio_insight/accounts.py:315-326 | the position count; a positive total gain implies a gainer, a negative one a loser |
| Accounts.Accounts.SetAccount | portfolio_insight/accounts.py:274-290 | the outcome of `SetAccountOutcome`; success replaces the account, an error keeps it |
| Accounts.Accounts.WithSelectedAccount | portfolio_insight/accounts.py:92-96 | the guard of `portfolio`, repeated in `balance` at lines 198-202: without a selected account the refusal, before any request |
| Accounts.Accounts.BalanceRequest | portfolio_insight/accounts.py:198-210 | the refusal, or the stored accountIdKey and institutionType |
| Accounts.Accounts.GetAccountSummary | portfolio_insight/accounts.py:292-341 | no account, then the balance error, then the portfolio error; otherwise the summary of the fetched data |
| Accounts.Accounts.GetAccountInfo | portfolio_insight/accounts.py:343-352 | the error exactly when no account is stored; otherwise the stored account |

## Left out

- HTTP, OAuth and the brokerage's JSON replies. Every request is a parameter holding its outcome, and so is the response flattening in `portfolio`, `balance` and `account_list`.
- Response-error branches, logging and `configparser`.
- `datetime.now()`: the clock is a parameter. `relativedelta` is modelled for whole years only.
- Alpaca's `get_stock_bars` is a parameter. A bar is reduced to its date and close.
- `**` and `np.sqrt` are fields of a `RealMath` record the caller supplies. Floats are exact reals: no rounding, infinities or NaN.
- BacktestMetrics.Cagr: the power is a total real function. In Python a negative ratio of end to start value gives a complex number, and a large ratio raises OverflowError, which `calculate_portfolio_performance` turns into its failure result. The model returns a real CAGR in both cases.
- Python's default arguments are not modelled: callers pass `initial_value` (100000 in the source) and `paper` (True) explicitly.
- Backtest.BacktestService.RunMultiplePeriodBacktest: one clock reading serves every period, while each `run_backtest` in the source reads the clock again.
- Orders.WithClientOrderId: the random `client_order_id` is a parameter in its range.
- Values: `int()` of strings covers ASCII digits, a sign, surrounding whitespace and single underscores. Non-ASCII decimal digits, which `int()` also reads, are not modelled.
- Exceptions that escape the source are not modelled, for example:
  - a None instrument, or a Product that is null, raising AttributeError;
  - a non-string accountIdKey raising TypeError in a URL.
- Accounts.Accounts.BalanceRequest requires the class invariant, so a stored account without institutionType, which `set_account` never stores, is excluded rather than raising KeyError.
- Accounts.Position keeps only the market value and total gain; the other position fields are not looked at by the summary.
- `AllocationService` lives in a module that is not part of this model; only its result is a parameter.
- The innermost and middle loops of `parse_orders` and `extract_orders_data` are separate methods (`DetailRows`, `OrderRows`).
- The legacy `run_backtest` stub and `get_historical_data`'s bar conversion are not modelled.
