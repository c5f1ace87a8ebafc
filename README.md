# Blockhouse execution-cost backtester: the metrics engine

The backtester simulates orders that several trading venues fill, and
measures how well each order is executed. Its engine is
`calculate_metrics`, which has the same body in `backtester.py` and in
`backtester_multiple_runs.py`. It runs in three stages over a
market-data frame and an order frame. The frame has one row per venue and
timestamp, with `Timestamp`, `Price`, `Volume` and `Venue` columns. The
order frame has `Order_ID`, `Order_Size` and `Time_of_Placement` columns.

1. **Trailing VWAP.** For every distinct timestamp `t`, it pools the rows of
   all venues with `t - 5 <= Timestamp <= t`. If their volume is positive, it
   writes `sum(Price * Volume) / sum(Volume)` into the `VWAP` column of every
   row at `t`. Otherwise the column stays NaN.
2. **Per-order simulation.** An order placed at `start` is worked over
   `start <= Timestamp < start + interval`.
   - The expected price is the lowest price any venue showed in that window.
     The code takes the best venue per timestamp, then the minimum over those.
   - The actual price is the mean of the expected price and the lowest price
     at `end`, when the data has rows at `end`. Otherwise it is the expected
     price.
   - The execution cost is the actual price minus the NaN-skipping mean VWAP
     of the window's rows.
   - The slippage is the expected price minus the actual price.
3. **Totals.** Python's built-in `sum` adds up the costs and the slippages
   of the result list.

The Dafny model is written in the same form as the code:

- `VwapCalculator.FillVwapColumn` fills the VWAP column in place. The column
  is an `array`, updated one timestamp at a time in a loop.
- `Execution.SimulateOrders` appends one result per order to a sequence in a
  loop.
- `Metrics.CalculateMetrics` runs both stages and then totals the results.

Each method is proved equal to a specification function: `VwapColumn`,
`Results`, `TotalCost` and `TotalSlippage`. The lemmas state the properties
the engine promises.

NaN is an explicit value. `Missing.Float` is either `NaN` or `Num(value)`.
Arithmetic propagates NaN. `SumAll` follows Python's `sum`: one NaN term
makes the total NaN. `MeanPresent` follows pandas' `Series.mean()`: NaN
entries are skipped.

Modules, one file each:

- `Missing` (`missing.dfy`): the NaN value and the two reductions.
- `Permutations` (`permutations.dfy`): a helper for the permutation proofs.
- `Collections` (`collections.dfy`): an element-wise map, `unique()`,
  `min()` and `max()`.
- `Market` (`market.dfy`): the records, timestamp masks and column sums, and
  what the data and order generators guarantee.
- `VwapCalculator` (`vwap.dfy`): stage 1.
- `Execution` (`execution.dfy`): stage 2.
- `Metrics` (`metrics.dfy`): stage 3 and the whole function.

## Model

| member | source | states |
|---|---|---|
| `Missing.SumAllDefinedIff` | backtester.py:67-68 | Python's `sum` of the per-order terms is defined exactly when every term is defined, and it is then the plain sum of the terms |
| `Missing.SumAllPermutation` | backtester.py:67-68 | The total of `sum` does not depend on the order of its terms |
| `Missing.MeanPresentDefinedIff` | backtester.py:55 | The NaN-skipping mean is defined exactly when some entry is present; when every entry is present, it is the plain mean |
| `Missing.MeanIgnoresMissing` | backtester.py:55 | Inserting a missing VWAP anywhere leaves the mean as it was: a missing entry is skipped, not counted as zero |
| `Collections.DistinctMembers` | backtester.py:34 | `unique()` keeps every timestamp of the column and repeats none |
| `Collections.MinIsLeast` | backtester.py:50-54 | `Series.min()` is defined exactly for a non-empty column, is one of its entries, and no entry is smaller |
| `Market.InWindow` | backtester.py:45 | The timestamp mask selects a row exactly when it is a row of the frame and its timestamp lies in `lo .. hi - 1` |
| `Market.WindowCounts` | backtester.py:45 | The mask keeps every row with `lo <= Timestamp < hi` exactly as many times as the frame holds it, and no other row, so duplicate rows weigh in the sums and the mean as often as they occur |
| `Market.WindowConcat` | backtester.py:45 | The mask keeps the frame's row order: masking two runs of rows one after the other gives the two masked runs one after the other |
| `VwapCalculator.VwapDefinedIff` | backtester.py:35-37 | The VWAP at `t` is defined exactly when some row of some venue with `t - 5 <= Timestamp <= t` traded a positive volume; a zero-volume window leaves it missing, never zero |
| `VwapCalculator.WeightedMeanBounds` | backtester.py:38 | With positive total volume, `sum(Price * Volume) / sum(Volume)` lies between any lower and upper bound of the pooled prices |
| `VwapCalculator.VwapWithinPriceRange` | backtester.py:35-38 | A defined VWAP lies between the lowest and the highest price of the rows in its window |
| `VwapCalculator.VwapTruncatesAtStart` | backtester.py:35 | For `t < 5`, over non-negative timestamps, the window is just `0 .. t`: it keeps the rows that exist, with no error |
| `VwapCalculator.AssignVwapAt` | backtester.py:39 | Every row at timestamp `t` receives the same VWAP, and rows at other timestamps keep their entries |
| `VwapCalculator.FillVwapColumn` | backtester.py:32-39 | After the reset to NaN and the loop over the unique timestamps, each row's VWAP entry is the VWAP of its own timestamp |
| `Execution.Results` | backtester.py:59-65 | The result list has one entry per order, in the orders' order: entry `i` is the simulation of order `i`, and it carries that order's id, size and placement |
| `Execution.BestVenuePricesAreWindowPrices` | backtester.py:46 | Every best-venue price is the price of some row of the window |
| `Execution.ExpectedIsWindowMin` | backtester.py:45-54 | Taking the best venue per timestamp and then the minimum gives the minimum price over every row of `start <= Timestamp < end`; it is missing only for an empty window |
| `Execution.ActualPriceBlendsSettlement` | backtester.py:47-52 | The actual price is defined exactly when the window has rows. With rows at `end`, it is the mean of the window minimum and the minimum at `end`; without them, it is the window minimum |
| `Execution.SlippageIsHalfGap` | backtester.py:47-57 | Slippage is defined exactly when the window has rows. With rows at `end`, it equals half the gap between the window minimum and the minimum at `end`, and it is positive exactly when the price at `end` is lower. Without rows at `end`, it is zero |
| `Execution.MeanVwapDefinedIff` | backtester.py:55 | The mean VWAP of a set of rows is defined exactly when one of those rows has a defined VWAP |
| `Execution.CostDefinedIff` | backtester.py:55-56 | The execution cost is defined exactly when some row of the window has a defined VWAP |
| `Execution.WindowColumnIsWindowVwaps` | backtester.py:55 | Masking the filled VWAP column by the window gives the VWAPs of the window's rows, in row order |
| `Execution.CoveredWindow` | backtester_multiple_runs.py:17 | When the data has rows at every timestamp `0 .. timePeriods - 1`, no window inside that range is empty |
| `Execution.WellPlacedOrderSettles` | backtester_multiple_runs.py:44-57 | For an order with `0 <= start < end < timePeriods` on such data: the window and the rows at `end` are non-empty, the expected price is defined, and the slippage is defined |
| `Execution.SimulateOne` | backtester.py:43-65 | The per-order steps, which read the filled VWAP column, produce exactly the order's specified result |
| `Execution.SimulateOrders` | backtester.py:41-65 | The loop that appends results produces the specified result list |
| `Metrics.TotalsDefinedIff` | backtester_multiple_runs.py:67-68 | Each total is defined exactly when every result's term is defined, and it is then the plain sum of the terms; an empty order list gives totals of zero |
| `Metrics.TotalsPermutationInvariant` | backtester_multiple_runs.py:67-68 | The totals do not depend on the order in which the results were appended |
| `Metrics.OrderOfOrdersIrrelevant` | backtester_multiple_runs.py:42-68 | Reordering the order frame leaves both totals as they were |
| `Metrics.GeneratedOrdersSettle` | backtester_multiple_runs.py:25-29 | For orders placed as `generate_orders` places them (distinct placements in `0 .. time_periods - interval - 1`), with `interval >= 1`, against data with rows at every timestamp: every slippage is defined, and so is the total slippage |
| `Metrics.CalculateMetrics` | backtester_multiple_runs.py:31-70 | The whole function. The VWAP column is filled in place, the result list is the specified one, and the two returned totals are the `sum`s of the results' costs and slippages |

## Left out

- `generate_market_data` and the random draws of `generate_orders` are not modelled; their randomness comes from NumPy. What they guarantee enters only as preconditions:
  - `Market.Covers`: the data has a row at every timestamp `0 .. time_periods - 1`.
  - `Market.GeneratedPlacements`: placements are distinct, inside `0 .. time_periods - interval - 1`.
- Printing of the per-order report and the totals (backtester.py:70-77) is left out. So are the plots and the Monte-Carlo driver that averages totals over runs with `np.mean` (backtester_multiple_runs.py:72-91). These are output and a driver.
- Floating point: prices, VWAPs, costs and slippages are exact reals. Rounding, infinities and overflow are not modelled.
- Timestamps are unbounded integers, and so is volume: a natural number, where the generator draws from `0 .. 999`.
- Of the market frame, the model keeps the rows and the `VWAP` column. The column is an array of the frame's length, owned by the caller; line 32 creates it in the frame.
- `Venue` and `Order_Size` are carried but feed no computation, as in the code.
- `groupby("Timestamp").apply(... idxmin ...)` is modelled by its only use: the lowest price at each timestamp. Which row `idxmin` picks on a tie, and the order of the groups, do not change any minimum.
- pandas' `groupby(...).apply` on an empty window is not modelled. In the model, the expected price of an empty window is missing, like the minimum of an empty column, and it makes the actual price, the cost and the slippage missing too.
- Failed orders: the code has no separate path for an order whose window has no rows. Its cost and slippage are ordinary NaN entries, and Python's `sum` then makes the total NaN. The model follows the code (`Missing.SumAll`).
- `Metrics.CalculateMetrics` also returns the result list. `backtester.py` prints the list, and `backtester_multiple_runs.py` drops it.
