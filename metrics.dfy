/** Stage three of `calculate_metrics`, and the function as a whole: the
    VWAP column is filled in place, every order is simulated, and the
    execution costs and slippages of the results are totalled with Python's
    built-in `sum`, so a single missing term makes its total missing. */
module Metrics {
  import opened Missing
  import opened Collections
  import opened Market
  import opened VwapCalculator
  import opened Execution

  /** `result["Execution_Cost"]`. */
  function CostOf(r: ExecutionResult): Float
  {
    r.cost
  }

  /** `result["Slippage"]`. */
  function SlippageOf(r: ExecutionResult): Float
  {
    r.slippage
  }

  /** `sum([result["Execution_Cost"] for result in execution_results])`. */
  function TotalCost(results: seq<ExecutionResult>): Float
  {
    SumAll(Map(CostOf, results))
  }

  /** `sum([result["Slippage"] for result in execution_results])`. */
  function TotalSlippage(results: seq<ExecutionResult>): Float
  {
    SumAll(Map(SlippageOf, results))
  }

  /** Each total is defined exactly when every result's term is, and is then
      the plain sum of those terms; no results give a total of zero. */
  lemma TotalsDefinedIff(results: seq<ExecutionResult>)
    ensures TotalCost(results).Num? <==> forall i :: 0 <= i < |results| ==> results[i].cost.Num?
    ensures TotalSlippage(results).Num? <==> forall i :: 0 <= i < |results| ==> results[i].slippage.Num?
    ensures TotalCost(results).Num? ==> TotalCost(results).value == Sum(Present(Map(CostOf, results)))
    ensures TotalSlippage(results).Num? ==>
              TotalSlippage(results).value == Sum(Present(Map(SlippageOf, results)))
    ensures results == [] ==> TotalCost(results) == Num(0.0) && TotalSlippage(results) == Num(0.0)
  {
    var costs, slippages := Map(CostOf, results), Map(SlippageOf, results);
    assert forall i :: 0 <= i < |results| ==> costs[i] == results[i].cost;
    assert forall i :: 0 <= i < |results| ==> slippages[i] == results[i].slippage;
    SumAllDefinedIff(costs);
    SumAllDefinedIff(slippages);
  }

  /** The totals do not depend on the order in which the results were
      appended. */
  lemma TotalsPermutationInvariant(a: seq<ExecutionResult>, b: seq<ExecutionResult>)
    requires multiset(a) == multiset(b)
    ensures TotalCost(a) == TotalCost(b)
    ensures TotalSlippage(a) == TotalSlippage(b)
  {
    MapPreservesPermutation(CostOf, a, b);
    SumAllPermutation(Map(CostOf, a), Map(CostOf, b));
    MapPreservesPermutation(SlippageOf, a, b);
    SumAllPermutation(Map(SlippageOf, a), Map(SlippageOf, b));
  }

  /** Each order is simulated on its own, so reordering the rows of the order
      frame leaves both totals as they were. */
  lemma OrderOfOrdersIrrelevant(rows: seq<Observation>, a: seq<Order>, b: seq<Order>, interval: int)
    requires multiset(a) == multiset(b)
    ensures TotalCost(Results(rows, a, interval)) == TotalCost(Results(rows, b, interval))
    ensures TotalSlippage(Results(rows, a, interval)) == TotalSlippage(Results(rows, b, interval))
  {
    MapPreservesPermutation(Simulator(rows, interval), a, b);
    TotalsPermutationInvariant(Results(rows, a, interval), Results(rows, b, interval));
  }

  /** Orders placed the way the order generator places them, with an
      execution interval of at least one timestamp, against data with rows at
      every timestamp `0 .. timePeriods - 1`: every slippage is defined, and
      so is the total slippage. */
  lemma GeneratedOrdersSettle(rows: seq<Observation>, orders: seq<Order>, interval: int, timePeriods: int)
    requires GeneratedPlacements(orders, timePeriods, interval)
    requires interval >= 1
    requires Covers(rows, timePeriods)
    ensures forall i :: 0 <= i < |orders| ==> Results(rows, orders, interval)[i].slippage.Num?
    ensures TotalSlippage(Results(rows, orders, interval)).Num?
  {
    var results := Results(rows, orders, interval);
    forall i | 0 <= i < |orders|
      ensures results[i].slippage.Num?
    {
      OrderSettles(rows, orders[i], interval, timePeriods);
    }
    TotalsDefinedIff(results);
  }

  /** One order placed as the generator places it has a defined slippage. */
  lemma OrderSettles(rows: seq<Observation>, order: Order, interval: int, timePeriods: int)
    requires 0 <= order.placement < timePeriods - interval
    requires interval >= 1
    requires Covers(rows, timePeriods)
    ensures SimulateOrder(rows, order, interval).slippage.Num?
  {
    WellPlacedOrderSettles(rows, order.placement, order.placement + interval, timePeriods);
  }

  /** `calculate_metrics`: fill the VWAP column of the market frame, simulate
      every order against it, and total the costs and slippages. */
  method CalculateMetrics(rows: seq<Observation>, column: array<Float>, orders: seq<Order>, interval: int)
    returns (results: seq<ExecutionResult>, totalCost: Float, totalSlippage: Float)
    requires column.Length == |rows|
    modifies column
    ensures column[..] == VwapColumn(rows)
    ensures results == Results(rows, orders, interval)
    ensures totalCost == TotalCost(results) && totalSlippage == TotalSlippage(results)
  {
    FillVwapColumn(rows, column);
    results := SimulateOrders(rows, column, orders, interval);
    totalCost := TotalCost(results);
    totalSlippage := TotalSlippage(results);
  }
}
