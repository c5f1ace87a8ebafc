/** Missing values.  pandas marks an undefined number as NaN, and so does
    this model (`Float` below).  The arithmetic here propagates `NaN` the
    way IEEE arithmetic propagates through `+`, `-` and `/`, and the two reductions follow
    Python's built-in `sum` (a NaN term makes the total NaN) and pandas'
    `Series.mean()` (NaN entries are skipped). */
module Missing {
  import opened Permutations

  /** A float column entry: a real number, or NaN.  Infinities and
      rounding are not modelled. */
  datatype Float = NaN | Num(value: real)

  /** `a + b`; missing when either operand is missing. */
  function Plus(a: Float, b: Float): Float
  {
    if a.Num? && b.Num? then Num(a.value + b.value) else NaN
  }

  /** `a - b`; missing when either operand is missing. */
  function Minus(a: Float, b: Float): Float
  {
    if a.Num? && b.Num? then Num(a.value - b.value) else NaN
  }

  /** `a / 2`; missing when `a` is missing. */
  function Half(a: Float): Float
  {
    if a.Num? then Num(a.value / 2.0) else NaN
  }

  /** Sum of a sequence of reals. */
  function Sum(xs: seq<real>): real
  {
    if xs == [] then 0.0 else xs[0] + Sum(xs[1..])
  }

  /** The present values of `xs`, in their order. */
  function Present(xs: seq<Float>): seq<real>
  {
    if xs == [] then [] else (if xs[0].Num? then [xs[0].value] else []) + Present(xs[1..])
  }

  /** Nothing is present exactly when every entry is missing, and everything
      is present exactly when no entry is. */
  lemma {:induction false} PresentCount(xs: seq<Float>)
    ensures |Present(xs)| <= |xs|
    ensures |Present(xs)| == 0 <==> forall i :: 0 <= i < |xs| ==> xs[i].NaN?
    ensures |Present(xs)| == |xs| <==> forall i :: 0 <= i < |xs| ==> xs[i].Num?
  {
    if xs != [] {
      assert forall i :: 1 <= i < |xs| ==> xs[i] == xs[1..][i - 1];
      PresentCount(xs[1..]);
    }
  }

  /** Python's built-in `sum` over terms that may be NaN: the total is
      missing as soon as one term is, and otherwise adds up every term. */
  function SumAll(xs: seq<Float>): Float
  {
    if xs == [] then Num(0.0) else Plus(xs[0], SumAll(xs[1..]))
  }

  /** The total is defined exactly when every term is, and then it is the
      plain sum of the terms. */
  lemma {:induction false} SumAllDefinedIff(xs: seq<Float>)
    ensures SumAll(xs).Num? <==> forall i :: 0 <= i < |xs| ==> xs[i].Num?
    ensures SumAll(xs).Num? ==> SumAll(xs).value == Sum(Present(xs))
  {
    if xs != [] {
      assert forall i :: 1 <= i < |xs| ==> xs[i] == xs[1..][i - 1];
      SumAllDefinedIff(xs[1..]);
    }
  }

  /** pandas `Series.mean()` with its default `skipna=True`: the mean of the
      present values; missing when no value is present. */
  function MeanPresent(xs: seq<Float>): Float
  {
    var d := Present(xs);
    if |d| == 0 then NaN else Num(Sum(d) / |d| as real)
  }

  /** The skip-missing mean is defined exactly when some entry is present;
      when every entry is present it is the plain mean. */
  lemma MeanPresentDefinedIff(xs: seq<Float>)
    ensures MeanPresent(xs).Num? <==> exists i :: 0 <= i < |xs| && xs[i].Num?
    ensures (forall i :: 0 <= i < |xs| ==> xs[i].Num?) && xs != [] ==>
              MeanPresent(xs) == Num(Sum(Present(xs)) / |xs| as real)
  {
    PresentCount(xs);
  }

  /** One present entry makes the skip-missing mean defined. */
  lemma MeanPresentDefinedAt(xs: seq<Float>, i: nat)
    requires i < |xs| && xs[i].Num?
    ensures MeanPresent(xs).Num?
  {
    MeanPresentDefinedIff(xs);
  }

  /** With every entry missing, so is the skip-missing mean. */
  lemma MeanPresentAllMissing(xs: seq<Float>)
    requires forall i :: 0 <= i < |xs| ==> xs[i].NaN?
    ensures MeanPresent(xs).NaN?
  {
    PresentCount(xs);
  }

  lemma {:induction false} PresentConcat(a: seq<Float>, b: seq<Float>)
    ensures Present(a + b) == Present(a) + Present(b)
  {
    if a == [] {
      assert a + b == b;
    } else {
      var head := if a[0].Num? then [a[0].value] else [];
      assert (a + b)[0] == a[0];
      assert (a + b)[1..] == a[1..] + b;
      calc {
        Present(a + b);
        head + Present(a[1..] + b);
        { PresentConcat(a[1..], b); }
        head + (Present(a[1..]) + Present(b));
        (head + Present(a[1..])) + Present(b);
      }
    }
  }

  /** Inserting a missing entry anywhere leaves the skip-missing mean as it
      was: missing entries are ignored, not counted as zero. */
  lemma MeanIgnoresMissing(xs: seq<Float>, k: nat)
    requires k <= |xs|
    ensures MeanPresent(xs[..k] + [NaN] + xs[k..]) == MeanPresent(xs)
  {
    var left, right := xs[..k], xs[k..];
    assert Present(left + [NaN] + right) == Present(xs) by {
      assert Present([NaN]) == [];
      PresentConcat(left + [NaN], right);
      PresentConcat(left, [NaN]);
      PresentConcat(left, right);
      assert left + right == xs;
    }
  }

  lemma PlusAssociative(a: Float, b: Float, c: Float)
    ensures Plus(a, Plus(b, c)) == Plus(Plus(a, b), c)
  {
  }

  lemma {:induction false} SumAllConcat(a: seq<Float>, b: seq<Float>)
    ensures SumAll(a + b) == Plus(SumAll(a), SumAll(b))
  {
    if a == [] {
      assert a + b == b;
      assert SumAll(a) == Num(0.0);
    } else {
      assert (a + b)[0] == a[0];
      assert (a + b)[1..] == a[1..] + b;
      calc {
        SumAll(a + b);
        Plus(a[0], SumAll(a[1..] + b));
        { SumAllConcat(a[1..], b); }
        Plus(a[0], Plus(SumAll(a[1..]), SumAll(b)));
        { PlusAssociative(a[0], SumAll(a[1..]), SumAll(b)); }
        Plus(Plus(a[0], SumAll(a[1..])), SumAll(b));
      }
    }
  }

  lemma PlusSwap(a: Float, b: Float, c: Float)
    ensures Plus(Plus(a, b), c) == Plus(b, Plus(a, c))
  {
  }

  lemma SumAllCons(x: Float, rest: seq<Float>)
    ensures SumAll([x] + rest) == Plus(x, SumAll(rest))
  {
    assert ([x] + rest)[0] == x;
    assert ([x] + rest)[1..] == rest;
  }

  /** Taking one term out of a total: the total is that term plus the rest. */
  lemma SumAllTakeOut(b: seq<Float>, j: nat)
    requires j < |b|
    ensures SumAll(b) == Plus(b[j], SumAll(b[..j] + b[j + 1..]))
  {
    var left, x, right := b[..j], b[j], b[j + 1..];
    assert b == left + ([x] + right);
    calc {
      SumAll(b);
      { SumAllConcat(left, [x] + right); }
      Plus(SumAll(left), SumAll([x] + right));
      { SumAllCons(x, right); }
      Plus(SumAll(left), Plus(x, SumAll(right)));
      { PlusSwap(SumAll(left), x, SumAll(right)); PlusAssociative(SumAll(left), x, SumAll(right)); }
      Plus(x, Plus(SumAll(left), SumAll(right)));
      { SumAllConcat(left, right); }
      Plus(x, SumAll(left + right));
    }
  }

  /** The total of Python's `sum` does not depend on the order of the terms. */
  lemma {:induction false} SumAllPermutation(a: seq<Float>, b: seq<Float>)
    requires multiset(a) == multiset(b)
    ensures SumAll(a) == SumAll(b)
    decreases |a|
  {
    if a == [] {
      assert |b| == |multiset(b)| == 0;
    } else {
      var j := TakeOutFirst(a, b);
      SumAllPermutation(a[1..], b[..j] + b[j + 1..]);
      SumAllTakeOut(b, j);
    }
  }
}
