/** Stage two of `calculate_metrics`: the per-order execution simulation.
    An order placed at `start` is worked over `start <= Timestamp < end`
    with `end = start + interval`.  Its expected price is the best (lowest)
    price any venue showed in that window; its actual price blends that
    with the best price at `end` when the data has rows there; its cost is
    the actual price against the mean VWAP of the window's rows, and its
    slippage is expected minus actual. */
module Execution {
  import opened Missing
  import opened Collections
  import opened Market
  import opened VwapCalculator

  /** `groupby("Timestamp").apply(idxmin)["Price"]`: for each timestamp of
      `stamps`, the lowest price among the rows of `w` at that timestamp
      (the price of the best venue). */
  function BestVenuePrices(w: seq<Observation>, stamps: seq<int>): seq<real>
  {
    if stamps == [] then []
    else
      var best := Min(Prices(Window(w, stamps[0], stamps[0] + 1)));
      (if best.Num? then [best.value] else []) + BestVenuePrices(w, stamps[1..])
  }

  /** The expected execution price of an order worked over
      `start <= Timestamp < end`: the minimum over the best-venue prices of
      the window; missing when the window is empty. */
  function ExpectedPrice(rows: seq<Observation>, start: int, end: int): Float
  {
    var w := Window(rows, start, end);
    Min(BestVenuePrices(w, Distinct(Timestamps(w))))
  }

  /** The actual execution price: the mean of the expected price and the
      lowest price at `end` when some row has timestamp `end`, else the
      expected price itself. */
  function ActualPrice(rows: seq<Observation>, start: int, end: int): Float
  {
    var atEnd := Window(rows, end, end + 1);
    if atEnd != [] then Half(Plus(ExpectedPrice(rows, start, end), Min(Prices(atEnd))))
    else ExpectedPrice(rows, start, end)
  }

  /** The VWAP column restricted to the rows of `w`. */
  function WindowVwaps(rows: seq<Observation>, w: seq<Observation>): seq<Float>
  {
    seq(|w|, i requires 0 <= i < |w| => Vwap(rows, w[i].timestamp))
  }

  /** `time_range_data["VWAP"].mean()`: the mean VWAP over the window's rows,
      skipping the rows whose VWAP is missing. */
  function Benchmark(rows: seq<Observation>, start: int, end: int): Float
  {
    MeanPresent(WindowVwaps(rows, Window(rows, start, end)))
  }

  /** The execution cost of an order worked over `start <= Timestamp < end`:
      the actual price minus the benchmark VWAP. */
  function ExecutionCost(rows: seq<Observation>, start: int, end: int): Float
  {
    Minus(ActualPrice(rows, start, end), Benchmark(rows, start, end))
  }

  /** The slippage of an order worked over `start <= Timestamp < end`: the
      expected price minus the actual price. */
  function Slippage(rows: seq<Observation>, start: int, end: int): Float
  {
    Minus(ExpectedPrice(rows, start, end), ActualPrice(rows, start, end))
  }

  /** One entry of the execution-results list. */
  function SimulateOrder(rows: seq<Observation>, order: Order, interval: int): ExecutionResult
  {
    var start := order.placement;
    var end := start + interval;
    ExecutionResult(order.id, order.size, order.placement,
                    ExecutionCost(rows, start, end), Slippage(rows, start, end))
  }

  /** `SimulateOrder` as a function of the order alone. */
  function Simulator(rows: seq<Observation>, interval: int): Order -> ExecutionResult
  {
    order => SimulateOrder(rows, order, interval)
  }

  /** The execution-results list: one entry per order, in the orders' order. */
  function Results(rows: seq<Observation>, orders: seq<Order>, interval: int): (results: seq<ExecutionResult>)
    ensures |results| == |orders|
    ensures forall i :: 0 <= i < |orders| ==> results[i] == SimulateOrder(rows, orders[i], interval)
    ensures forall i :: 0 <= i < |orders| ==>
              && results[i].orderId == orders[i].id
              && results[i].size == orders[i].size
              && results[i].placement == orders[i].placement
  {
    Map(Simulator(rows, interval), orders)
  }

  /** A boolean-mask selection of the VWAP column: the entries of the rows
      with `lo <= Timestamp < hi`. */
  function WindowColumn(rows: seq<Observation>, column: seq<Float>, lo: int, hi: int): seq<Float>
    requires |column| == |rows|
  {
    if rows == [] then []
    else (if lo <= rows[0].timestamp < hi then [column[0]] else []) + WindowColumn(rows[1..], column[1..], lo, hi)
  }

  /** The best price at one timestamp is the price of some row of `w`. */
  lemma BestPriceIsWindowPrice(w: seq<Observation>, t: int)
    requires Min(Prices(Window(w, t, t + 1))).Num?
    ensures Min(Prices(Window(w, t, t + 1))).value in Prices(w)
  {
    var atT := Window(w, t, t + 1);
    MinIsLeast(Prices(atT));
    PricesIndex(atT);
    var k :| 0 <= k < |atT| && Prices(atT)[k] == Min(Prices(atT)).value;
    assert atT[k] in atT;
    InWindow(w, t, t + 1, atT[k]);
    PriceOfMember(w, atT[k]);
  }

  /** Every best-venue price is the price of some row of `w`. */
  lemma {:induction false} BestVenuePricesAreWindowPrices(w: seq<Observation>, stamps: seq<int>)
    ensures forall x :: x in BestVenuePrices(w, stamps) ==> x in Prices(w)
  {
    if stamps != [] {
      BestVenuePricesAreWindowPrices(w, stamps[1..]);
      if Min(Prices(Window(w, stamps[0], stamps[0] + 1))).Num? {
        BestPriceIsWindowPrice(w, stamps[0]);
      }
    }
  }

  /** The best price of every listed timestamp with rows is among the
      best-venue prices. */
  lemma {:induction false} BestVenuePriceListed(w: seq<Observation>, stamps: seq<int>, t: int)
    requires t in stamps && Min(Prices(Window(w, t, t + 1))).Num?
    ensures Min(Prices(Window(w, t, t + 1))).value in BestVenuePrices(w, stamps)
  {
    if stamps[0] != t {
      BestVenuePriceListed(w, stamps[1..], t);
    }
  }

  /** Taking the best venue per timestamp and then the minimum over the
      timestamps gives the minimum over every row of the window: the
      expected price is the lowest price any venue showed in
      `start <= Timestamp < end`, missing only when the window is empty. */
  lemma ExpectedIsWindowMin(rows: seq<Observation>, start: int, end: int)
    ensures ExpectedPrice(rows, start, end) == Min(Prices(Window(rows, start, end)))
  {
    var w := Window(rows, start, end);
    var stamps := Distinct(Timestamps(w));
    var best := BestVenuePrices(w, stamps);
    var global := Min(Prices(w));
    if w == [] {
      assert Timestamps(w) == [] && stamps == [] && best == [];
    } else {
      MinIsLeast(Prices(w));
      PricesIndex(w);
      var k :| 0 <= k < |Prices(w)| && Prices(w)[k] == global.value;
      var r := w[k];
      var t := r.timestamp;
      assert r in w;
      TimestampOfMember(w, r);
      DistinctMembers(Timestamps(w));
      var atT := Window(w, t, t + 1);
      InWindow(w, t, t + 1, r);
      PriceOfMember(atT, r);
      MinIsLeast(Prices(atT));
      BestVenuePriceListed(w, stamps, t);
      MinIsLeast(best);
      BestVenuePricesAreWindowPrices(w, stamps);
      var lowest := Min(best).value;
      assert lowest <= Min(Prices(atT)).value <= global.value;
      assert lowest in Prices(w);
      assert global.value <= lowest;
      assert Min(best) == global;
    }
  }

  /** The actual price exists exactly when the window has rows; it is the
      mean of the window minimum and the minimum at `end` when rows exist at
      `end`, and the window minimum otherwise. */
  lemma ActualPriceBlendsSettlement(rows: seq<Observation>, start: int, end: int)
    ensures ActualPrice(rows, start, end).Num? <==> Window(rows, start, end) != []
    ensures Window(rows, start, end) != [] && Window(rows, end, end + 1) != [] ==>
              && Min(Prices(Window(rows, start, end))).Num?
              && Min(Prices(Window(rows, end, end + 1))).Num?
              && ActualPrice(rows, start, end) ==
                 Num((Min(Prices(Window(rows, start, end))).value +
                       Min(Prices(Window(rows, end, end + 1))).value) / 2.0)
    ensures Window(rows, end, end + 1) == [] ==>
              ActualPrice(rows, start, end) == Min(Prices(Window(rows, start, end)))
  {
    ExpectedIsWindowMin(rows, start, end);
    MinIsLeast(Prices(Window(rows, start, end)));
    MinIsLeast(Prices(Window(rows, end, end + 1)));
  }

  /** Slippage is defined exactly when the window has rows.  With rows at
      `end` it is half the gap between the window minimum and the minimum at
      `end`, positive exactly when the price at `end` is lower; without rows
      at `end` it is zero. */
  lemma SlippageIsHalfGap(rows: seq<Observation>, start: int, end: int)
    ensures var slippage := Slippage(rows, start, end);
            var w, atEnd := Window(rows, start, end), Window(rows, end, end + 1);
            && (slippage.Num? <==> w != [])
            && (w != [] && atEnd != [] ==>
                  && Min(Prices(w)).Num? && Min(Prices(atEnd)).Num?
                  && var low, settle := Min(Prices(w)).value, Min(Prices(atEnd)).value;
                     slippage == Num((low - settle) / 2.0) && (slippage.value > 0.0 <==> settle < low))
            && (w != [] && atEnd == [] ==> slippage == Num(0.0))
  {
    var w, atEnd := Window(rows, start, end), Window(rows, end, end + 1);
    var expected, actual := ExpectedPrice(rows, start, end), ActualPrice(rows, start, end);
    ExpectedIsWindowMin(rows, start, end);
    ActualPriceBlendsSettlement(rows, start, end);
    if w != [] && atEnd != [] {
      var low, settle := Min(Prices(w)).value, Min(Prices(atEnd)).value;
      assert expected == Num(low);
      assert actual == Num((low + settle) / 2.0);
      assert low - (low + settle) / 2.0 == (low - settle) / 2.0;
    }
  }

  /** The mean VWAP over the rows of `w` is defined exactly when some row
      of `w` has a defined VWAP. */
  lemma MeanVwapDefinedIff(rows: seq<Observation>, w: seq<Observation>)
    ensures MeanPresent(WindowVwaps(rows, w)).Num? <==>
            exists i :: 0 <= i < |w| && Vwap(rows, w[i].timestamp).Num?
  {
    var vwaps := WindowVwaps(rows, w);
    if exists i :: 0 <= i < |w| && Vwap(rows, w[i].timestamp).Num? {
      var i :| 0 <= i < |w| && Vwap(rows, w[i].timestamp).Num?;
      MeanPresentDefinedAt(vwaps, i);
    } else {
      MeanPresentAllMissing(vwaps);
    }
  }

  /** The execution cost is defined exactly when some row of the window has
      a defined VWAP (rows whose VWAP is missing are skipped, and a window
      without rows has no actual price). */
  lemma CostDefinedIff(rows: seq<Observation>, start: int, end: int)
    ensures var w := Window(rows, start, end);
            ExecutionCost(rows, start, end).Num? <==>
            exists i :: 0 <= i < |w| && Vwap(rows, w[i].timestamp).Num?
  {
    ActualPriceBlendsSettlement(rows, start, end);
    MeanVwapDefinedIff(rows, Window(rows, start, end));
  }

  /** An order worked over `start <= Timestamp < end` with
      `0 <= start < end < timePeriods`, as the order generator places orders,
      against data with rows at every timestamp `0 .. timePeriods - 1`, has
      rows in its window and rows at `end`, so its expected price and its
      slippage are always defined and the blended branch of the actual price
      is taken (its cost can still be missing, when no row of the window has
      a VWAP). */
  lemma WellPlacedOrderSettles(rows: seq<Observation>, start: int, end: int, timePeriods: int)
    requires 0 <= start < end < timePeriods
    requires Covers(rows, timePeriods)
    ensures |Window(rows, start, end)| > 0
    ensures |Window(rows, end, end + 1)| > 0
    ensures ExpectedPrice(rows, start, end).Num?
    ensures Slippage(rows, start, end).Num?
  {
    CoveredWindow(rows, start, end, timePeriods);
    CoveredWindow(rows, end, end + 1, timePeriods);
    SlippageIsHalfGap(rows, start, end);
  }

  /** Rows at every timestamp `0 .. timePeriods - 1` leave no window
      `lo .. hi - 1` inside that range empty. */
  lemma CoveredWindow(rows: seq<Observation>, lo: int, hi: int, timePeriods: int)
    requires 0 <= lo < hi <= timePeriods
    requires Covers(rows, timePeriods)
    ensures |Window(rows, lo, hi)| > 0
  {
    assert HasRowAt(rows, lo);
    var i :| 0 <= i < |rows| && rows[i].timestamp == lo;
    WindowHasRow(rows, lo, hi, i);
  }

  /** The VWAPs of two runs of rows, one after the other. */
  lemma WindowVwapsConcat(rows: seq<Observation>, a: seq<Observation>, b: seq<Observation>)
    ensures WindowVwaps(rows, a + b) == WindowVwaps(rows, a) + WindowVwaps(rows, b)
  {
    assert forall i :: 0 <= i < |a + b| ==>
      WindowVwaps(rows, a + b)[i] == (WindowVwaps(rows, a) + WindowVwaps(rows, b))[i];
  }

  /** Masking a VWAP column by a window gives the VWAPs of the window's
      rows, in row order. */
  lemma {:induction false} WindowColumnIsWindowVwaps(
    all: seq<Observation>, rows: seq<Observation>, column: seq<Float>, lo: int, hi: int)
    requires |column| == |rows|
    requires forall i :: 0 <= i < |rows| ==> column[i] == Vwap(all, rows[i].timestamp)
    ensures WindowColumn(rows, column, lo, hi) == WindowVwaps(all, Window(rows, lo, hi))
  {
    if rows != [] {
      assert forall i :: 0 <= i < |rows| - 1 ==> column[1..][i] == Vwap(all, rows[1..][i].timestamp);
      WindowColumnIsWindowVwaps(all, rows[1..], column[1..], lo, hi);
      var rest := Window(rows[1..], lo, hi);
      var head := if lo <= rows[0].timestamp < hi then [rows[0]] else [];
      assert Window(rows, lo, hi) == head + rest;
      WindowVwapsConcat(all, head, rest);
    }
  }

  /** backtester.py:43-65: the simulation of one order, step by step as the loop
      body does it, reading the VWAP column left by stage one. */
  method SimulateOne(rows: seq<Observation>, column: array<Float>, order: Order, interval: int)
    returns (result: ExecutionResult)
    requires column[..] == VwapColumn(rows)
    ensures result == SimulateOrder(rows, order, interval)
  {
    var start := order.placement;
    var end := start + interval;
    var window := Window(rows, start, end);
    var best := BestVenuePrices(window, Distinct(Timestamps(window)));
    var expected := Min(best);
    var atEnd := Window(rows, end, end + 1);
    var actual := if atEnd != [] then Half(Plus(expected, Min(Prices(atEnd)))) else expected;
    var benchmark := MeanPresent(WindowColumn(rows, column[..], start, end));
    var cost := Minus(actual, benchmark);
    var slippage := Minus(expected, actual);
    WindowColumnIsWindowVwaps(rows, rows, column[..], start, end);
    assert expected == ExpectedPrice(rows, start, end);
    assert cost == ExecutionCost(rows, start, end);
    assert slippage == Slippage(rows, start, end);
    result := ExecutionResult(order.id, order.size, order.placement, cost, slippage);
  }

  /** backtester.py:41-65: one result per order, appended in the orders' order. */
  method SimulateOrders(rows: seq<Observation>, column: array<Float>, orders: seq<Order>, interval: int)
    returns (results: seq<ExecutionResult>)
    requires column[..] == VwapColumn(rows)
    ensures results == Results(rows, orders, interval)
  {
    results := [];
    for k := 0 to |orders|
      invariant results == Results(rows, orders[..k], interval)
    {
      var result := SimulateOne(rows, column, orders[k], interval);
      results := results + [result];
      assert orders[..k + 1] == orders[..k] + [orders[k]];
      MapConcat(Simulator(rows, interval), orders[..k], [orders[k]]);
    }
    assert orders[..|orders|] == orders;
  }
}
