/** Sequence helpers shared by the model: flat-mapping, order-preserving
    subsequences, sums and strictly increasing key lists. */
module Seqs {

  /** Concatenation of `f(x)` over `s`, in order (a flat map). Filters and
      projections of a table are all of this shape. */
  function Concat<A, B>(s: seq<A>, f: A -> seq<B>): seq<B>
  {
    if s == [] then [] else Concat(s[..|s| - 1], f) + f(s[|s| - 1])
  }

  lemma {:induction false} ConcatAppend<A, B>(u: seq<A>, v: seq<A>, f: A -> seq<B>)
    ensures Concat(u + v, f) == Concat(u, f) + Concat(v, f)
    decreases |v|
  {
    if v == [] {
      assert u + v == u;
    } else {
      var v' := v[..|v| - 1];
      assert (u + v)[..|u + v| - 1] == u + v';
      assert (u + v)[|u + v| - 1] == v[|v| - 1];
      ConcatAppend(u, v', f);
    }
  }

  lemma {:induction false} ConcatMember<A, B>(s: seq<A>, f: A -> seq<B>, y: B)
    ensures y in Concat(s, f) <==> exists x :: x in s && y in f(x)
    decreases |s|
  {
    if s != [] {
      var s' := s[..|s| - 1];
      assert s == s' + [s[|s| - 1]];
      ConcatMember(s', f, y);
    }
  }

  lemma MultisetCancel<A>(u: seq<A>, x: A, a: seq<A>, b: seq<A>)
    requires multiset(u + [x]) == multiset(a + [x] + b)
    ensures multiset(u) == multiset(a + b)
  {
    calc {
      multiset(u) + multiset{x};
      multiset(u + [x]);
      multiset(a + [x] + b);
      multiset(a) + multiset{x} + multiset(b);
      multiset(a + b) + multiset{x};
    }
    assert multiset(u) == multiset(u) + multiset{x} - multiset{x};
  }

  /** Reordering the input only reorders the output. */
  lemma {:induction false} ConcatPermutation<A, B>(u: seq<A>, v: seq<A>, f: A -> seq<B>)
    requires multiset(u) == multiset(v)
    ensures multiset(Concat(u, f)) == multiset(Concat(v, f))
    decreases |u|
  {
    if u == [] {
      assert |v| == |multiset(v)| == 0;
    } else {
      var x := u[|u| - 1];
      var u' := u[..|u| - 1];
      assert u == u' + [x];
      assert x in multiset(v);
      var j :| 0 <= j < |v| && v[j] == x;
      var a, b := v[..j], v[j + 1..];
      assert v == a + [x] + b;
      MultisetCancel(u', x, a, b);
      ConcatPermutation(u', a + b, f);
      ConcatAppend(a, b, f);
      ConcatAppend(a + [x], b, f);
      ConcatAppend(a, [x], f);
      assert [x][..0] == [];
      calc {
        multiset(Concat(u, f));
        multiset(Concat(u', f) + f(x));
        multiset(Concat(u', f)) + multiset(f(x));
        multiset(Concat(a + b, f)) + multiset(f(x));
        multiset(Concat(a, f)) + multiset(Concat(b, f)) + multiset(f(x));
        multiset(Concat(a, f) + Concat([x], f) + Concat(b, f));
        multiset(Concat(v, f));
      }
    }
  }

  /** `a` is `b` with some elements removed, the rest kept in order. */
  predicate IsSubsequence<T(==)>(a: seq<T>, b: seq<T>)
    decreases |b|
  {
    if a == [] then true
    else if b == [] then false
    else
      || (a[|a| - 1] == b[|b| - 1] && IsSubsequence(a[..|a| - 1], b[..|b| - 1]))
      || IsSubsequence(a, b[..|b| - 1])
  }

  function Sum(s: seq<nat>): nat
  {
    if s == [] then 0 else Sum(s[..|s| - 1]) + s[|s| - 1]
  }

  predicate StrictlyIncreasing(s: seq<int>)
  {
    forall i, j :: 0 <= i < j < |s| ==> s[i] < s[j]
  }

  function InsertKey(k: int, s: seq<int>): (r: seq<int>)
    requires StrictlyIncreasing(s)
    ensures StrictlyIncreasing(r)
    ensures forall x :: x in r <==> x == k || x in s
  {
    if s == [] then [k]
    else if k < s[0] then [k] + s
    else if k == s[0] then s
    else
      var rest := InsertKey(k, s[1..]);
      assert forall x :: x in s[1..] ==> s[0] < x;
      assert forall i :: 0 <= i < |rest| ==> rest[i] in rest;
      [s[0]] + rest
  }

  /** The distinct values of `ks` in ascending order, as a group-by lists its keys. */
  function DistinctSorted(ks: seq<int>): (r: seq<int>)
    ensures StrictlyIncreasing(r)
    ensures forall x :: x in r <==> x in ks
  {
    if ks == [] then []
    else InsertKey(ks[|ks| - 1], DistinctSorted(ks[..|ks| - 1]))
  }

  /** A strictly increasing list is determined by its elements. */
  lemma {:induction false} StrictlyIncreasingUnique(a: seq<int>, b: seq<int>)
    requires StrictlyIncreasing(a) && StrictlyIncreasing(b)
    requires forall x :: x in a <==> x in b
    ensures a == b
    decreases |a|
  {
    assert a != [] ==> a[0] in a;
    assert b != [] ==> b[0] in b;
    if a != [] && b != [] {
      assert a[0] in b && b[0] in a;
      assert a[0] == b[0];
      forall x
        ensures x in a[1..] <==> x in b[1..]
      {
        if x in a[1..] { assert x > a[0]; assert x in b; }
        if x in b[1..] { assert x > b[0]; assert x in a; }
      }
      StrictlyIncreasingUnique(a[1..], b[1..]);
    }
  }

  /** A strictly increasing list drawn from [lo, hi) has at most hi - lo elements. */
  lemma {:induction false} StrictlyIncreasingBounded(s: seq<int>, lo: int, hi: int)
    requires StrictlyIncreasing(s)
    requires forall x :: x in s ==> lo <= x < hi
    ensures |s| <= if hi < lo then 0 else hi - lo
    decreases |s|
  {
    if s != [] {
      assert s[0] in s;
      forall x | x in s[1..] ensures s[0] + 1 <= x < hi {
        assert x in s;
      }
      StrictlyIncreasingBounded(s[1..], s[0] + 1, hi);
    }
  }
}
