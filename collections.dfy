/** Sequence operations that stand in for the pandas and NumPy calls the
    metrics engine makes: an element-wise map, `Series.unique()`, and the
    minimum and maximum of a column. */
module Collections {
  import opened Missing
  import opened Permutations

  /** `f` applied to every element of `s`, in order. */
  function Map<A, B>(f: A -> B, s: seq<A>): seq<B>
  {
    seq(|s|, i requires 0 <= i < |s| => f(s[i]))
  }

  lemma MapConcat<A, B>(f: A -> B, a: seq<A>, b: seq<A>)
    ensures Map(f, a + b) == Map(f, a) + Map(f, b)
  {
    assert forall i :: 0 <= i < |a + b| ==> Map(f, a + b)[i] == (Map(f, a) + Map(f, b))[i];
  }

  /** Mapping two reorderings of one another gives two reorderings of one
      another. */
  lemma {:induction false} MapPreservesPermutation<A, B>(f: A -> B, a: seq<A>, b: seq<A>)
    requires multiset(a) == multiset(b)
    ensures multiset(Map(f, a)) == multiset(Map(f, b))
    decreases |a|
  {
    if a == [] {
      assert |b| == |multiset(b)| == 0;
    } else {
      var j := TakeOutFirst(a, b);
      var left, right := b[..j], b[j + 1..];
      MapPreservesPermutation(f, a[1..], left + right);
      assert a == [a[0]] + a[1..];
      assert b == left + [a[0]] + right;
      MapConcat(f, [a[0]], a[1..]);
      MapConcat(f, left + [a[0]], right);
      MapConcat(f, left, [a[0]]);
      MapConcat(f, left, right);
    }
  }

  /** `Series.unique()`: each value of `xs` once, in order of first
      appearance. */
  function Distinct(xs: seq<int>): seq<int>
  {
    if xs == [] then []
    else
      var rest := Distinct(xs[..|xs| - 1]);
      if xs[|xs| - 1] in rest then rest else rest + [xs[|xs| - 1]]
  }

  /** `Distinct` keeps every value and repeats none. */
  lemma {:induction false} DistinctMembers(xs: seq<int>)
    ensures forall x :: x in Distinct(xs) <==> x in xs
    ensures forall i, j :: 0 <= i < j < |Distinct(xs)| ==> Distinct(xs)[i] != Distinct(xs)[j]
  {
    if xs != [] {
      var init, last := xs[..|xs| - 1], xs[|xs| - 1];
      assert xs == init + [last];
      DistinctMembers(init);
    }
  }

  /** The smallest element of `xs` (`Series.min()`); missing when `xs` is
      empty. */
  function Min(xs: seq<real>): Float
  {
    if xs == [] then NaN
    else
      match Min(xs[1..])
      case NaN => Num(xs[0])
      case Num(r) => Num(if xs[0] <= r then xs[0] else r)
  }

  /** The minimum exists exactly for a non-empty sequence, is one of its
      elements, and no element is smaller. */
  lemma {:induction false} MinIsLeast(xs: seq<real>)
    ensures Min(xs).Num? <==> xs != []
    ensures xs != [] ==> Min(xs).value in xs && forall x :: x in xs ==> Min(xs).value <= x
  {
    if xs != [] {
      assert xs == [xs[0]] + xs[1..];
      MinIsLeast(xs[1..]);
    }
  }

  /** The largest element of `xs` (`Series.max()`); missing when `xs` is
      empty. */
  function Max(xs: seq<real>): Float
  {
    if xs == [] then NaN
    else
      match Max(xs[1..])
      case NaN => Num(xs[0])
      case Num(r) => Num(if r <= xs[0] then xs[0] else r)
  }

  /** The maximum exists exactly for a non-empty sequence, is one of its
      elements, and no element is larger. */
  lemma {:induction false} MaxIsGreatest(xs: seq<real>)
    ensures Max(xs).Num? <==> xs != []
    ensures xs != [] ==> Max(xs).value in xs && forall x :: x in xs ==> x <= Max(xs).value
  {
    if xs != [] {
      assert xs == [xs[0]] + xs[1..];
      MaxIsGreatest(xs[1..]);
    }
  }
}
