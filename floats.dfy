/** A float64 as pandas and scipy see it: a number, or NaN for a missing or
    undefined value. Rounding is not modelled: numbers are exact reals. */
module Floats {
  import opened Seqs

  datatype Num = Real(v: real) | NaN

  /** Python's `a < b` on floats: false whenever either side is NaN. */
  predicate Less(a: Num, b: Num)
  {
    a.Real? && b.Real? && a.v < b.v
  }

  function RealPart(x: Num): seq<real>
  {
    if x.Real? then [x.v] else []
  }

  /** The non-NaN values of `xs`, in order (pandas' `dropna`). */
  function Reals(xs: seq<Num>): seq<real>
  {
    Concat(xs, RealPart)
  }

  lemma RealsAppend(xs: seq<Num>, x: Num)
    ensures Reals(xs + [x]) == Reals(xs) + RealPart(x)
  {
    assert (xs + [x])[..|xs|] == xs;
  }

  /** Dropping NaN keeps every number as many times as it occurs. */
  lemma {:induction false} RealsCount(xs: seq<Num>, y: real)
    ensures multiset(Reals(xs))[y] == multiset(xs)[Real(y)]
    decreases |xs|
  {
    if xs != [] {
      var n := |xs| - 1;
      RealsCount(xs[..n], y);
      assert xs == xs[..n] + [xs[n]];
      assert Reals(xs) == Reals(xs[..n]) + RealPart(xs[n]);
      assert multiset(RealPart(xs[n]))[y] == multiset([xs[n]])[Real(y)];
    }
  }

  lemma RealsMember(xs: seq<Num>, y: real)
    ensures y in Reals(xs) <==> Real(y) in xs
  {
    ConcatMember(xs, RealPart, y);
    if Real(y) in xs {
      assert y in RealPart(Real(y));
    }
  }

  lemma RealsPermutation(xs: seq<Num>, ys: seq<Num>)
    requires multiset(xs) == multiset(ys)
    ensures multiset(Reals(xs)) == multiset(Reals(ys))
  {
    ConcatPermutation(xs, ys, RealPart);
  }
}
