/** Order statistics over exact reals: the quantile with linear interpolation
    between order statistics (Hyndman and Fan type 7, the default of pandas'
    `quantile` and of numpy), the median, and their NaN-skipping forms. */
module Stats {
  import opened Floats

  ghost predicate Sorted(s: seq<real>)
  {
    forall i, j :: 0 <= i <= j < |s| ==> s[i] <= s[j]
  }

  function Insert(x: real, s: seq<real>): (r: seq<real>)
    requires Sorted(s)
    ensures Sorted(r)
    ensures multiset(r) == multiset(s) + multiset{x}
    ensures forall k :: 0 <= k < |r| ==> r[k] == x || r[k] in s
  {
    if s == [] || x <= s[0] then [x] + s
    else
      var t := Insert(x, s[1..]);
      assert s == [s[0]] + s[1..];
      [s[0]] + t
  }

  /** Ascending order of `s` (insertion sort). */
  function Sort(s: seq<real>): (r: seq<real>)
    ensures Sorted(r)
    ensures multiset(r) == multiset(s)
  {
    if s == [] then []
    else
      assert s == [s[0]] + s[1..];
      Insert(s[0], Sort(s[1..]))
  }

  lemma MultisetTail(a: seq<real>)
    requires a != []
    ensures multiset(a[1..]) == multiset(a) - multiset{a[0]}
  {
    assert a == [a[0]] + a[1..];
  }

  lemma SortedHead(a: seq<real>, y: real)
    requires Sorted(a) && y in multiset(a)
    ensures a[0] <= y
  {
    var k :| 0 <= k < |a| && a[k] == y;
  }

  /** A sorted arrangement of a multiset is unique. */
  lemma {:induction false} SortedUnique(a: seq<real>, b: seq<real>)
    requires Sorted(a) && Sorted(b)
    requires multiset(a) == multiset(b)
    ensures a == b
    decreases |a|
  {
    assert |a| == |multiset(a)| == |multiset(b)| == |b|;
    if a != [] {
      assert a[0] in multiset(a) && b[0] in multiset(b);
      SortedHead(a, b[0]);
      SortedHead(b, a[0]);
      assert a[0] == b[0];
      MultisetTail(a);
      MultisetTail(b);
      assert multiset(a[1..]) == multiset(b[1..]);
      assert Sorted(a[1..]) by {
        forall i, j | 0 <= i <= j < |a| - 1 ensures a[1..][i] <= a[1..][j] {
          assert a[1..][i] == a[i + 1] && a[1..][j] == a[j + 1];
        }
      }
      assert Sorted(b[1..]) by {
        forall i, j | 0 <= i <= j < |b| - 1 ensures b[1..][i] <= b[1..][j] {
          assert b[1..][i] == b[i + 1] && b[1..][j] == b[j + 1];
        }
      }
      SortedUnique(a[1..], b[1..]);
      assert a == [a[0]] + a[1..] && b == [b[0]] + b[1..];
    }
  }

  function Min(s: seq<real>): (m: real)
    requires s != []
    ensures m in s
    ensures forall x :: x in s ==> m <= x
  {
    if |s| == 1 then s[0]
    else
      var m := Min(s[1..]);
      assert s == [s[0]] + s[1..];
      if s[0] < m then s[0] else m
  }

  function Max(s: seq<real>): (m: real)
    requires s != []
    ensures m in s
    ensures forall x :: x in s ==> x <= m
  {
    if |s| == 1 then s[0]
    else
      var m := Max(s[1..]);
      assert s == [s[0]] + s[1..];
      if m < s[0] then s[0] else m
  }

  lemma SortFacts(s: seq<real>)
    ensures |Sort(s)| == |s|
    ensures forall k :: 0 <= k < |s| ==> Sort(s)[k] in s
  {
    var t := Sort(s);
    assert |t| == |multiset(t)| == |s|;
    forall k | 0 <= k < |s| ensures t[k] in s {
      assert t[k] in multiset(t);
    }
  }

  lemma MulNonneg(a: real, b: real)
    requires a >= 0.0 && b >= 0.0
    ensures a * b >= 0.0
  {
  }

  /** Linear interpolation from `lo` towards `hi` by the fraction `t`. */
  function Lerp(lo: real, hi: real, t: real): (r: real)
    requires lo <= hi && 0.0 <= t <= 1.0
    ensures lo <= r <= hi
  {
    var d := hi - lo;
    MulNonneg(t, d);
    MulNonneg(1.0 - t, d);
    lo + t * d
  }

  lemma IndexBound(m: nat, num: nat, den: nat)
    requires 0 < den && num <= den
    ensures (m * num) / den <= m
  {
    assert m * num <= m * den;
    assert (m * den) / den == m;
  }

  /** The virtual index (n - 1) * num / den of the quantile at level num/den
      among n sorted values, split into its integer part and its fraction. */
  function Position(n: nat, num: nat, den: nat): (p: (nat, real))
    requires 0 < n && 0 < den && num <= den
    ensures p.0 < n && 0.0 <= p.1 < 1.0
  {
    IndexBound(n - 1, num, den);
    var h := (n - 1) * num;
    FractionBelowOne(h % den, den);
    (h / den, (h % den) as real / den as real)
  }

  lemma FractionBelowOne(m: nat, d: nat)
    requires m < d
    ensures 0.0 <= m as real / d as real < 1.0
  {
    assert m as real < d as real;
  }

  /** The quantile at level num/den with linear interpolation: a blend of the
      two order statistics around the virtual index. It lies between the least
      and the greatest value. */
  function Quantile(s: seq<real>, num: nat, den: nat): (q: real)
    requires s != []
    requires 0 < den && num <= den
    ensures Min(s) <= q <= Max(s)
  {
    var t := Sort(s);
    SortFacts(s);
    var (lo, frac) := Position(|t|, num, den);
    if lo + 1 < |t| then Lerp(t[lo], t[lo + 1], frac) else t[lo]
  }

  /** The quantile depends only on the values, not on their order. */
  lemma QuantileOrderFree(a: seq<real>, b: seq<real>, num: nat, den: nat)
    requires a != [] && 0 < den && num <= den
    requires multiset(a) == multiset(b)
    ensures b != [] && Quantile(a, num, den) == Quantile(b, num, den)
  {
    assert |b| == |multiset(b)| == |multiset(a)| == |a|;
    SortedUnique(Sort(a), Sort(b));
  }

  /** The quantile at 1/2 is the textbook median: the middle value of the
      sorted data, or the mean of the two middle values when there is an even
      number of them. */
  lemma {:induction false} QuantileHalfIsMedian(s: seq<real>)
    requires s != []
    ensures var t := Sort(s);
      |t| == |s| &&
      Quantile(s, 1, 2) == if |t| % 2 == 1 then t[|t| / 2] else (t[|t| / 2 - 1] + t[|t| / 2]) / 2.0
  {
    var t := Sort(s);
    SortFacts(s);
    var n := |t|;
    var p := Position(n, 1, 2);
    assert (n - 1) * 1 == n - 1;
    if n % 2 == 1 {
      assert p.0 == n / 2 && p.1 == 0.0;
    } else {
      assert p.0 == n / 2 - 1 && p.1 == 0.5;
      assert Lerp(t[p.0], t[p.0 + 1], 0.5) == (t[p.0] + t[p.0 + 1]) / 2.0;
    }
  }

  /** pandas' `quantile` on a column: NaN values are skipped, and a column with
      no number at all gives NaN. */
  function NanQuantile(xs: seq<Num>, num: nat, den: nat): (q: Num)
    requires 0 < den && num <= den
    ensures q.Real? <==> Reals(xs) != []
    ensures q.Real? ==> Min(Reals(xs)) <= q.v <= Max(Reals(xs))
  {
    var r := Reals(xs);
    if r == [] then NaN else Real(Quantile(r, num, den))
  }

  /** A quantile of a column whose numbers all lie in [lo, hi] lies in [lo, hi]. */
  lemma NanQuantileWithin(xs: seq<Num>, num: nat, den: nat, lo: real, hi: real)
    requires 0 < den && num <= den
    requires Reals(xs) != []
    requires forall y :: y in Reals(xs) ==> lo <= y <= hi
    ensures NanQuantile(xs, num, den).Real?
    ensures lo <= NanQuantile(xs, num, den).v <= hi
  {
    var r := Reals(xs);
    assert Min(r) in r && Max(r) in r;
  }

  /** pandas' `median` (NaN-skipping quantile at 1/2). */
  function Median(xs: seq<Num>): (m: Num)
    ensures m.Real? <==> Reals(xs) != []
    ensures m.Real? ==> Min(Reals(xs)) <= m.v <= Max(Reals(xs))
  {
    NanQuantile(xs, 1, 2)
  }

  /** The third quartile, `quantile(0.75)`. */
  function ThirdQuartile(xs: seq<Num>): (q: Num)
    ensures q.Real? <==> Reals(xs) != []
    ensures q.Real? ==> Min(Reals(xs)) <= q.v <= Max(Reals(xs))
  {
    NanQuantile(xs, 3, 4)
  }

  /** Rearranging a column does not change its quantiles. */
  lemma NanQuantileOrderFree(xs: seq<Num>, ys: seq<Num>, num: nat, den: nat)
    requires 0 < den && num <= den
    requires multiset(xs) == multiset(ys)
    ensures NanQuantile(xs, num, den) == NanQuantile(ys, num, den)
  {
    RealsPermutation(xs, ys);
    var a, b := Reals(xs), Reals(ys);
    assert |a| == |multiset(a)| == |multiset(b)| == |b|;
    if a != [] {
      QuantileOrderFree(a, b, num, den);
    }
  }
}
