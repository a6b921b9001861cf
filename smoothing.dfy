/** The exponentially weighted moving average of a series, as pandas computes
    `series.ewm(alpha=0.3, adjust=False).mean()`: a left-to-right pass that
    keeps a weighted mean and the weight of the past. NaN entries are not
    skipped (`ignore_na=False`): they leave the mean unchanged but make the
    past weigh less at the next number. */
module Smoothing {
  import opened Floats
  import opened Stats

  /** The smoothing factor of both charts. */
  const Alpha: real := 0.3

  /** The loop state: the current weighted mean and the weight of the past. */
  datatype EwmState = EwmState(weighted: Num, oldWt: real)

  /** The weighted mean of `prev` (weight `ow`) and `cur` (weight Alpha). It
      lies between the two, and with the past weighing 1 - Alpha it is the
      textbook recurrence. */
  function Mix(prev: real, cur: real, ow: real): (r: real)
    requires ow > 0.0
    ensures prev <= cur ==> prev <= r <= cur
    ensures cur <= prev ==> cur <= r <= prev
    ensures ow == 1.0 - Alpha ==> r == Alpha * cur + (1.0 - Alpha) * prev
  {
    var d := ow + Alpha;
    var r := (ow * prev + Alpha * cur) / d;
    var t := Alpha / d;
    assert r == prev + t * (cur - prev) by {
      assert ow * prev + Alpha * cur == d * prev + Alpha * (cur - prev);
      assert Alpha * (cur - prev) / d == t * (cur - prev);
    }
    assert 0.0 <= t <= 1.0;
    var gap := if prev <= cur then cur - prev else prev - cur;
    MulNonneg(t, gap);
    MulNonneg(1.0 - t, gap);
    r
  }

  /** One iteration of the pass over the next value `cur`. */
  function Step(s: EwmState, cur: Num): (t: EwmState)
    requires s.oldWt > 0.0
    ensures t.oldWt > 0.0
    ensures t.weighted.Real? <==> s.weighted.Real? || cur.Real?
    ensures cur.NaN? ==> t.weighted == s.weighted
    ensures cur.Real? && s.weighted == cur ==> t.weighted == cur
    ensures s.weighted.Real? && cur.NaN? ==> t.oldWt < s.oldWt
    ensures s.weighted.Real? && cur.Real? ==> t.oldWt == 1.0
  {
    if s.weighted.Real? then
      var ow := s.oldWt * (1.0 - Alpha);
      if cur.Real? then
        // pandas skips the arithmetic when the value equals the mean
        var w := if s.weighted == cur then cur else Real(Mix(s.weighted.v, cur.v, ow));
        EwmState(w, 1.0)
      else EwmState(s.weighted, ow)
    else if cur.Real? then EwmState(cur, s.oldWt)
    else s
  }

  /** The state after the pass has read all of `x`. */
  function Run(x: seq<Num>): (s: EwmState)
    requires x != []
    ensures s.oldWt > 0.0
    ensures s.weighted.Real? <==> exists k :: 0 <= k < |x| && x[k].Real?
  {
    if |x| == 1 then EwmState(x[0], 1.0)
    else Step(Run(x[..|x| - 1]), x[|x| - 1])
  }

  /** The smoothed series: entry i is the weighted mean after x[..i+1]. */
  function Ewm(x: seq<Num>): (e: seq<Num>)
    ensures |e| == |x|
  {
    if x == [] then [] else Ewm(x[..|x| - 1]) + [Run(x).weighted]
  }

  lemma {:induction false} EwmAt(x: seq<Num>, i: nat)
    requires i < |x|
    ensures Ewm(x)[i] == Run(x[..i + 1]).weighted
    decreases |x|
  {
    if i < |x| - 1 {
      var x' := x[..|x| - 1];
      EwmAt(x', i);
      assert x'[..i + 1] == x[..i + 1];
    } else {
      assert x[..i + 1] == x;
    }
  }

  /** The pass written as pandas writes it: a loop over the values carrying
      the weighted mean and the old weight. */
  method Ewma(x: seq<Num>) returns (e: seq<Num>)
    ensures e == Ewm(x)
  {
    if x == [] {
      return [];
    }
    var weighted := x[0];
    var oldWt := 1.0;
    e := [weighted];
    assert x[..1] == [x[0]];
    var i := 1;
    while i < |x|
      invariant 1 <= i <= |x|
      invariant oldWt > 0.0
      invariant EwmState(weighted, oldWt) == Run(x[..i])
      invariant e == Ewm(x[..i])
    {
      var cur := x[i];
      if weighted.Real? {
        oldWt := oldWt * (1.0 - Alpha);
        if cur.Real? {
          if weighted != cur {
            weighted := Real(Mix(weighted.v, cur.v, oldWt));
          }
          oldWt := 1.0;
        }
      } else if cur.Real? {
        weighted := cur;
      }
      assert x[..i + 1][..i] == x[..i];
      e := e + [weighted];
      i := i + 1;
    }
    assert x[..i] == x;
  }

  /** Without NaN the pass keeps the past at weight 1 and the mean is always a number. */
  lemma {:induction false} RunWithoutNaN(x: seq<Num>)
    requires x != []
    requires forall k :: 0 <= k < |x| ==> x[k].Real?
    ensures Run(x).weighted.Real? && Run(x).oldWt == 1.0
    decreases |x|
  {
    if |x| > 1 {
      RunWithoutNaN(x[..|x| - 1]);
    }
  }

  /** Over a series without NaN the output has the input's length, starts at
      the first value, and follows e[i] = 0.3 * x[i] + 0.7 * e[i - 1]. */
  lemma EwmRecurrence(x: seq<Num>)
    requires forall k :: 0 <= k < |x| ==> x[k].Real?
    ensures |Ewm(x)| == |x|
    ensures x != [] ==> Ewm(x)[0] == x[0]
    ensures forall i :: 0 <= i < |x| ==> Ewm(x)[i].Real?
    ensures forall i :: 0 < i < |x| ==>
      Ewm(x)[i].v == Alpha * x[i].v + (1.0 - Alpha) * Ewm(x)[i - 1].v
  {
    var e := Ewm(x);
    forall i | 0 <= i < |x|
      ensures e[i].Real?
      ensures 0 < i ==> e[i].v == Alpha * x[i].v + (1.0 - Alpha) * e[i - 1].v
    {
      EwmAt(x, i);
      RunWithoutNaN(x[..i + 1]);
      if 0 < i {
        EwmAt(x, i - 1);
        assert x[..i + 1][..i] == x[..i];
        RunWithoutNaN(x[..i]);
      }
    }
    if x != [] {
      EwmAt(x, 0);
    }
  }

  /** The mean is a number exactly when some number has been read, and it then
      lies between the least and the greatest number read so far. */
  lemma {:induction false} RunBounds(x: seq<Num>)
    requires x != []
    ensures Run(x).weighted.Real? <==> Reals(x) != []
    ensures Run(x).weighted.Real? ==>
      Min(Reals(x)) <= Run(x).weighted.v <= Max(Reals(x))
    decreases |x|
  {
    if |x| == 1 {
      assert x == [] + [x[0]];
      RealsAppend([], x[0]);
    } else {
      var x', c := x[..|x| - 1], x[|x| - 1];
      assert x == x' + [c];
      RealsAppend(x', c);
      RunBounds(x');
      var prev := Run(x');
      var r := Reals(x);
      var r' := Reals(x');
      if prev.weighted.Real? && c.Real? {
        var w := prev.weighted.v;
        assert r == r' + [c.v];
        assert Min(r') in r && Max(r') in r && c.v in r;
        assert Min(r) <= Min(r') <= w <= Max(r') <= Max(r);
        assert Min(r) <= c.v <= Max(r);
        assert Run(x) == Step(prev, c);
      } else if prev.weighted.Real? {
        assert r == r';
      } else if c.Real? {
        assert r' == [];
        assert r == [c.v];
      } else {
        assert r == r';
      }
    }
  }

  /** Each smoothed entry is NaN only until the first number, and afterwards
      lies between the least and greatest number of the input up to it. */
  lemma EwmBounds(x: seq<Num>, i: nat)
    requires i < |x|
    ensures Ewm(x)[i].Real? <==> Reals(x[..i + 1]) != []
    ensures Ewm(x)[i].Real? ==>
      Min(Reals(x[..i + 1])) <= Ewm(x)[i].v <= Max(Reals(x[..i + 1]))
  {
    EwmAt(x, i);
    RunBounds(x[..i + 1]);
  }
}
