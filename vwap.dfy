/** Stage one of `calculate_metrics`: the trailing volume-weighted average
    price.  For every timestamp `t` present in the data, the rows of all
    venues with `t - 5 <= Timestamp <= t` are pooled, and the VWAP is
    `sum(Price * Volume) / sum(Volume)` over them, or missing when that
    volume is zero.  Every row at `t` then carries that value in the frame's
    `VWAP` column. */
module VwapCalculator {
  import opened Missing
  import opened Collections
  import opened Market

  /** How many timestamps before `t` the window reaches back. */
  const Lookback: int := 5

  /** The rows pooled for the VWAP at `t`: `t - Lookback <= Timestamp <= t`. */
  function VwapWindow(rows: seq<Observation>, t: int): seq<Observation>
  {
    Window(rows, t - Lookback, t + 1)
  }

  /** `(Price * Volume).sum() / Volume.sum()` over `w`: the volume-weighted
      mean price of the rows. */
  function WeightedMean(w: seq<Observation>): real
    requires TotalVolume(w) > 0
  {
    Notional(w) / TotalVolume(w) as real
  }

  /** The VWAP at timestamp `t`; missing when the window has no volume. */
  function Vwap(rows: seq<Observation>, t: int): Float
  {
    var w := VwapWindow(rows, t);
    if TotalVolume(w) > 0 then Num(WeightedMean(w)) else NaN
  }

  /** The `VWAP` column once stage one is done: each row carries the VWAP of
      its own timestamp. */
  function VwapColumn(rows: seq<Observation>): seq<Float>
  {
    seq(|rows|, i requires 0 <= i < |rows| => Vwap(rows, rows[i].timestamp))
  }

  /** The total volume is positive exactly when some row traded volume. */
  lemma {:induction false} VolumePositiveIff(rows: seq<Observation>)
    ensures TotalVolume(rows) > 0 <==> exists r :: r in rows && r.volume > 0
  {
    if rows != [] {
      VolumePositiveIff(rows[1..]);
      assert rows == [rows[0]] + rows[1..];
    }
  }

  /** The VWAP at `t` is defined exactly when some row of some venue in
      `t - 5 .. t` traded a positive volume; a window with zero total volume
      leaves it missing, never zero. */
  lemma VwapDefinedIff(rows: seq<Observation>, t: int)
    ensures Vwap(rows, t).Num? <==>
            exists r :: r in rows && t - Lookback <= r.timestamp <= t && r.volume > 0
  {
    VolumePositiveIff(VwapWindow(rows, t));
    forall r {
      InWindow(rows, t - Lookback, t + 1, r);
    }
  }

  /** `p` times the total volume of `rows`. */
  function Scaled(p: real, rows: seq<Observation>): real
  {
    p * TotalVolume(rows) as real
  }

  /** Scaling the volume of the first row and of the rest separately. */
  lemma ScaledStep(p: real, rows: seq<Observation>)
    requires rows != []
    ensures Scaled(p, rows) == p * rows[0].volume as real + Scaled(p, rows[1..])
  {
    assert TotalVolume(rows) as real == rows[0].volume as real + TotalVolume(rows[1..]) as real;
  }

  /** Multiplying by a non-negative volume keeps the order of two prices. */
  lemma ScaleByVolume(a: real, b: real, v: real)
    requires a <= b && 0.0 <= v
    ensures a * v <= b * v
  {
  }

  /** Dropping the first row takes `price * volume` of that row off the
      notional, and between `lo * volume` and `hi * volume` off the scaled
      volumes. */
  lemma StepBounds(rows: seq<Observation>, lo: real, hi: real)
    requires rows != [] && lo <= rows[0].price <= hi
    ensures Scaled(lo, rows) - Scaled(lo, rows[1..]) <= Notional(rows) - Notional(rows[1..])
    ensures Notional(rows) - Notional(rows[1..]) <= Scaled(hi, rows) - Scaled(hi, rows[1..])
  {
    ScaledStep(lo, rows);
    ScaledStep(hi, rows);
    ScaleByVolume(lo, rows[0].price, rows[0].volume as real);
    ScaleByVolume(rows[0].price, hi, rows[0].volume as real);
  }

  /** The notional of rows whose prices lie in `lo .. hi` lies between `lo`
      and `hi` times their total volume. */
  lemma {:induction false} NotionalBounds(rows: seq<Observation>, lo: real, hi: real)
    requires forall i :: 0 <= i < |rows| ==> lo <= rows[i].price <= hi
    ensures Scaled(lo, rows) <= Notional(rows) <= Scaled(hi, rows)
  {
    if rows != [] {
      assert forall i :: 0 <= i < |rows| - 1 ==> rows[1..][i] == rows[i + 1];
      NotionalBounds(rows[1..], lo, hi);
      StepBounds(rows, lo, hi);
    }
  }

  /** Dividing by a positive total volume keeps the bounds. */
  lemma MeanWithinBounds(w: seq<Observation>, lo: real, hi: real)
    requires TotalVolume(w) > 0
    requires Scaled(lo, w) <= Notional(w) <= Scaled(hi, w)
    ensures lo <= WeightedMean(w) <= hi
  {
    var n, v, q := Notional(w), TotalVolume(w) as real, WeightedMean(w);
    assert q * v == n;
    assert (q - lo) * v == n - Scaled(lo, w);
    assert (hi - q) * v == Scaled(hi, w) - n;
  }

  /** A volume-weighted mean lies between any bounds of the prices. */
  lemma WeightedMeanBounds(w: seq<Observation>, lo: real, hi: real)
    requires TotalVolume(w) > 0
    requires forall i :: 0 <= i < |w| ==> lo <= w[i].price <= hi
    ensures lo <= WeightedMean(w) <= hi
  {
    NotionalBounds(w, lo, hi);
    MeanWithinBounds(w, lo, hi);
  }

  /** Every price of a non-empty set of rows lies between its minimum and
      maximum. */
  lemma PricesWithinMinMax(w: seq<Observation>)
    requires w != []
    ensures Min(Prices(w)).Num? && Max(Prices(w)).Num?
    ensures forall i :: 0 <= i < |w| ==>
              Min(Prices(w)).value <= w[i].price <= Max(Prices(w)).value
  {
    var prices := Prices(w);
    PricesIndex(w);
    MinIsLeast(prices);
    MaxIsGreatest(prices);
    forall i | 0 <= i < |w|
      ensures Min(prices).value <= w[i].price <= Max(prices).value
    {
      assert prices[i] == w[i].price && prices[i] in prices;
    }
  }

  /** The weighted mean price lies between the lowest and the highest
      price. */
  lemma WeightedMeanWithinMinMax(w: seq<Observation>)
    requires TotalVolume(w) > 0
    ensures Min(Prices(w)).Num? && Max(Prices(w)).Num?
    ensures Min(Prices(w)).value <= WeightedMean(w) <= Max(Prices(w)).value
  {
    assert w != [];
    PricesWithinMinMax(w);
    WeightedMeanBounds(w, Min(Prices(w)).value, Max(Prices(w)).value);
  }

  /** A VWAP lies between the lowest and the highest price of its window. */
  lemma VwapWithinPriceRange(rows: seq<Observation>, t: int)
    ensures Vwap(rows, t).Num? ==>
            var prices := Prices(VwapWindow(rows, t));
            && Min(prices).Num? && Max(prices).Num?
            && Min(prices).value <= Vwap(rows, t).value <= Max(prices).value
  {
    if TotalVolume(VwapWindow(rows, t)) > 0 {
      WeightedMeanWithinMinMax(VwapWindow(rows, t));
    }
  }

  /** A window reaching below timestamp 0 keeps only the rows that exist:
      near the start of a series whose timestamps are non-negative, the
      window for `t < 5` is just `0 .. t`. */
  lemma {:induction false} VwapTruncatesAtStart(rows: seq<Observation>, t: int)
    requires forall r :: r in rows ==> r.timestamp >= 0
    requires t < Lookback
    ensures VwapWindow(rows, t) == Window(rows, 0, t + 1)
  {
    if rows != [] {
      assert forall r :: r in rows[1..] ==> r in rows;
      assert rows[0] in rows;
      VwapTruncatesAtStart(rows[1..], t);
    }
  }

  /** backtester.py:39: every row at timestamp `t` gets `v` in the VWAP column; the
      rows at other timestamps keep what they had. */
  method AssignVwapAt(rows: seq<Observation>, column: array<Float>, t: int, v: real)
    requires column.Length == |rows|
    modifies column
    ensures forall i :: 0 <= i < |rows| && rows[i].timestamp == t ==> column[i] == Num(v)
    ensures forall i :: 0 <= i < |rows| && rows[i].timestamp != t ==> column[i] == old(column[i])
  {
    forall i | 0 <= i < column.Length && rows[i].timestamp == t {
      column[i] := Num(v);
    }
  }

  /** backtester.py:32-39: reset the VWAP column to missing, then for each distinct
      timestamp with a non-empty window volume write the VWAP into every row
      of that timestamp. */
  method FillVwapColumn(rows: seq<Observation>, column: array<Float>)
    requires column.Length == |rows|
    modifies column
    ensures column[..] == VwapColumn(rows)
  {
    forall i | 0 <= i < column.Length {
      column[i] := NaN;
    }
    var stamps := Distinct(Timestamps(rows));
    DistinctMembers(Timestamps(rows));
    for k := 0 to |stamps|
      invariant forall i :: 0 <= i < |rows| ==>
        column[i] == if rows[i].timestamp in stamps[..k] then Vwap(rows, rows[i].timestamp) else NaN
    {
      var t := stamps[k];
      var window := VwapWindow(rows, t);
      var totalVolume := TotalVolume(window);
      if totalVolume > 0 {
        var vwap := Notional(window) / totalVolume as real;
        AssignVwapAt(rows, column, t, vwap);
      }
      assert stamps[..k + 1] == stamps[..k] + [t];
    }
    forall i | 0 <= i < |rows|
      ensures column[i] == Vwap(rows, rows[i].timestamp)
    {
      TimestampOfMember(rows, rows[i]);
      assert stamps[..|stamps|] == stamps;
    }
  }
}
