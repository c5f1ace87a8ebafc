/** The records the metrics engine reads and produces: market observations
    (one row of the market-data frame), orders, and per-order execution
    results; and the row filters and column sums it applies to them. */
module Market {
  import opened Missing

  /** One row of the market data: the price and traded volume of one venue at
      one timestamp. */
  datatype Observation = Observation(timestamp: int, price: real, volume: nat, venue: string)

  /** One row of the order frame. */
  datatype Order = Order(id: string, size: int, placement: int)

  /** One entry of the execution-results list. */
  datatype ExecutionResult = ExecutionResult(
    orderId: string, size: int, placement: int,
    cost: Float, slippage: Float)

  /** The rows with `lo <= Timestamp < hi`, in their order (a boolean-mask
      selection of the frame). */
  function Window(rows: seq<Observation>, lo: int, hi: int): seq<Observation>
  {
    if rows == [] then []
    else (if lo <= rows[0].timestamp < hi then [rows[0]] else []) + Window(rows[1..], lo, hi)
  }

  /** A row is in the window exactly when it is one of the rows and its
      timestamp lies in `lo .. hi - 1`. */
  lemma {:induction false} InWindow(rows: seq<Observation>, lo: int, hi: int, r: Observation)
    ensures r in Window(rows, lo, hi) <==> r in rows && lo <= r.timestamp < hi
  {
    if rows != [] {
      assert rows == [rows[0]] + rows[1..];
      InWindow(rows[1..], lo, hi, r);
    }
  }

  /** The mask keeps each row of `lo .. hi - 1` as many times as the frame
      has it, and no other row. */
  lemma {:induction false} WindowCounts(rows: seq<Observation>, lo: int, hi: int, r: Observation)
    ensures multiset(Window(rows, lo, hi))[r] == if lo <= r.timestamp < hi then multiset(rows)[r] else 0
  {
    if rows != [] {
      var head := if lo <= rows[0].timestamp < hi then [rows[0]] else [];
      assert rows == [rows[0]] + rows[1..];
      assert multiset(Window(rows, lo, hi)) == multiset(head) + multiset(Window(rows[1..], lo, hi));
      WindowCounts(rows[1..], lo, hi, r);
    }
  }

  /** The mask keeps the rows in their order: masking two runs of rows one
      after the other is masking each run, one after the other. */
  lemma {:induction false} WindowConcat(a: seq<Observation>, b: seq<Observation>, lo: int, hi: int)
    ensures Window(a + b, lo, hi) == Window(a, lo, hi) + Window(b, lo, hi)
  {
    if a == [] {
      assert a + b == b;
    } else {
      var head := if lo <= a[0].timestamp < hi then [a[0]] else [];
      assert (a + b)[0] == a[0];
      assert (a + b)[1..] == a[1..] + b;
      WindowConcat(a[1..], b, lo, hi);
      assert Window(a + b, lo, hi) == head + (Window(a[1..], lo, hi) + Window(b, lo, hi));
    }
  }

  /** A row in `lo .. hi - 1` makes the window non-empty. */
  lemma {:induction false} WindowHasRow(rows: seq<Observation>, lo: int, hi: int, k: nat)
    requires k < |rows| && lo <= rows[k].timestamp < hi
    ensures |Window(rows, lo, hi)| > 0
  {
    if k > 0 && !(lo <= rows[0].timestamp < hi) {
      WindowHasRow(rows[1..], lo, hi, k - 1);
    }
  }

  /** The `Timestamp` column. */
  function Timestamps(rows: seq<Observation>): seq<int>
  {
    seq(|rows|, i requires 0 <= i < |rows| => rows[i].timestamp)
  }

  /** The `Price` column. */
  function Prices(rows: seq<Observation>): seq<real>
  {
    if rows == [] then [] else [rows[0].price] + Prices(rows[1..])
  }

  /** The `Price` column has one entry per row, in row order. */
  lemma {:induction false} PricesIndex(rows: seq<Observation>)
    ensures |Prices(rows)| == |rows|
    ensures forall i :: 0 <= i < |rows| ==> Prices(rows)[i] == rows[i].price
  {
    if rows != [] {
      PricesIndex(rows[1..]);
      assert forall i :: 1 <= i < |rows| ==> rows[i] == rows[1..][i - 1];
    }
  }

  /** `Volume.sum()`. */
  function TotalVolume(rows: seq<Observation>): nat
  {
    if rows == [] then 0 else rows[0].volume + TotalVolume(rows[1..])
  }

  /** `(Price * Volume).sum()`. */
  function Notional(rows: seq<Observation>): real
  {
    if rows == [] then 0.0 else rows[0].price * rows[0].volume as real + Notional(rows[1..])
  }

  /** The price of any row is in the `Price` column. */
  lemma PriceOfMember(rows: seq<Observation>, r: Observation)
    requires r in rows
    ensures r.price in Prices(rows)
  {
    var i :| 0 <= i < |rows| && rows[i] == r;
    PricesIndex(rows);
    assert Prices(rows)[i] == r.price;
  }

  /** The timestamp of any row is in the `Timestamp` column. */
  lemma TimestampOfMember(rows: seq<Observation>, r: Observation)
    requires r in rows
    ensures r.timestamp in Timestamps(rows)
  {
    var i :| 0 <= i < |rows| && rows[i] == r;
    assert Timestamps(rows)[i] == r.timestamp;
  }

  /** Some row carries timestamp `t`. */
  predicate HasRowAt(rows: seq<Observation>, t: int)
  {
    exists i :: 0 <= i < |rows| && rows[i].timestamp == t
  }

  /** Every timestamp `0 .. timePeriods - 1` has at least one row, as in the
      frame the market-data generator builds. */
  predicate Covers(rows: seq<Observation>, timePeriods: int)
  {
    forall t :: 0 <= t < timePeriods ==> HasRowAt(rows, t)
  }

  /** What the order generator guarantees of placement times: each lies in
      `0 .. timePeriods - interval - 1`, and no two orders share one (they
      are drawn from that range without replacement). */
  predicate GeneratedPlacements(orders: seq<Order>, timePeriods: int, interval: int)
  {
    && (forall i :: 0 <= i < |orders| ==> 0 <= orders[i].placement < timePeriods - interval)
    && (forall i, j :: 0 <= i < j < |orders| ==> orders[i].placement != orders[j].placement)
  }
}
