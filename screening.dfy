/** The omnibus screening: a Kruskal-Wallis test of the delivery time across
    the levels of each factor column, in the fixed column order, collecting
    every (statistic, p-value) and the columns whose p-value is below 0.05.
    The test itself is scipy's and is a parameter of the model. */
module Screening {
  import opened Wrappers
  import opened Seqs
  import opened Floats
  import opened Records

  /** The (statistic, p-value) pair a scipy test returns. */
  datatype TestResult = TestResult(statistic: Num, pValue: Num)

  /** The significance level of both tests. */
  const SignificanceLevel: real := 0.05

  /** `p_value < 0.05`: false for NaN and for exactly 0.05. */
  function Significant(p: Num): (b: bool)
    ensures b ==> p.Real? && p.v < SignificanceLevel
    ensures p.Real? && p.v < SignificanceLevel ==> b
    ensures p.NaN? || p == Real(SignificanceLevel) ==> !b
  {
    Less(p, Real(SignificanceLevel))
  }

  /** The levels of `column` that occur in the table (missing values form no group). */
  function Levels(rs: seq<Record>, column: Column): set<Level>
  {
    set r | r in rs && column in r.factors :: r.factors[column]
  }

  /** `df.groupby(column)` with the delivery time of each group, NaN dropped;
      a level whose delivery times are all missing keeps an empty group. */
  function Groups(rs: seq<Record>, column: Column): (groups: map<Level, seq<real>>)
    ensures forall l :: l in groups <==> exists r :: r in rs && column in r.factors && r.factors[column] == l
    ensures forall l, y :: l in groups ==>
      (y in groups[l] <==> exists r :: r in rs && column in r.factors && r.factors[column] == l && r.deliveryTime == Real(y))
    ensures forall l, y {:trigger multiset(groups[l])[y]} :: l in groups ==> multiset(groups[l])[y] == |RowsWith(rs, column, l, Real(y))|
  {
    var groups := map l | l in Levels(rs, column) :: Reals(OutcomesAt(rs, column, l));
    forall l, y | l in groups
      ensures y in groups[l] <==>
        exists r :: r in rs && column in r.factors && r.factors[column] == l && r.deliveryTime == Real(y)
    {
      RealsMember(OutcomesAt(rs, column, l), y);
    }
    forall l, y | l in groups ensures multiset(groups[l])[y] == |RowsWith(rs, column, l, Real(y))| {
      RealsCount(OutcomesAt(rs, column, l), y);
    }
    groups
  }

  /** scipy's `kruskal` on the groups: `None` when it raises (for instance on
      fewer than two groups), which ends the script. The statistic does not
      depend on the order of the groups, so they are given as a map. */
  type KruskalTest = map<Level, seq<real>> -> Option<TestResult>

  /** `results`, `significant_columns`, and the column at which the test
      raised, if it did. */
  datatype Screening = Screening(
    results: map<Column, TestResult>,
    significant: seq<Column>,
    raisedAt: Option<Column>)

  /** What the loop has produced after the columns `columns`. */
  function Screened(rs: seq<Record>, columns: seq<Column>, kruskal: KruskalTest): Screening
  {
    if columns == [] then Screening(map[], [], None)
    else
      var s := Screened(rs, columns[..|columns| - 1], kruskal);
      var c := columns[|columns| - 1];
      if s.raisedAt.Some? then s
      else
        match kruskal(Groups(rs, c))
        case None => s.(raisedAt := Some(c))
        case Some(t) =>
          Screening(s.results[c := t], if Significant(t.pValue) then s.significant + [c] else s.significant, None)
  }

  /** The test raises on `columns[k]` and on no column before it. */
  predicate RaisesFirstAt(rs: seq<Record>, columns: seq<Column>, kruskal: KruskalTest, k: int)
  {
    && 0 <= k < |columns|
    && kruskal(Groups(rs, columns[k])).None?
    && forall j :: 0 <= j < k ==> kruskal(Groups(rs, columns[j])).Some?
  }

  /** Every tested column gets exactly one entry, the test's own result; the
      loop stops at the first column on which the test raises. */
  lemma {:induction false} ScreenedResults(rs: seq<Record>, columns: seq<Column>, kruskal: KruskalTest)
    ensures var s := Screened(rs, columns, kruskal);
      && (forall c :: c in s.results ==> c in columns && kruskal(Groups(rs, c)) == Some(s.results[c]))
      && (s.raisedAt.None? <==> forall c :: c in columns ==> kruskal(Groups(rs, c)).Some?)
      && (s.raisedAt.None? ==> s.results.Keys == set c | c in columns)
      && (s.raisedAt.Some? ==> s.raisedAt.value in columns && kruskal(Groups(rs, s.raisedAt.value)).None?)
      && (s.raisedAt.Some? ==>
            exists k :: RaisesFirstAt(rs, columns, kruskal, k) && columns[k] == s.raisedAt.value)
    decreases |columns|
  {
    if columns != [] {
      var init, c := columns[..|columns| - 1], columns[|columns| - 1];
      assert columns == init + [c];
      ScreenedResults(rs, init, kruskal);
      var s := Screened(rs, init, kruskal);
      if s.raisedAt.Some? {
        var k :| RaisesFirstAt(rs, init, kruskal, k) && init[k] == s.raisedAt.value;
        assert RaisesFirstAt(rs, columns, kruskal, k);
      } else if kruskal(Groups(rs, c)).None? {
        assert forall j :: 0 <= j < |init| ==> init[j] in init;
        assert RaisesFirstAt(rs, columns, kruskal, |init|);
      }
    }
  }

  /** A column is flagged exactly when its p-value is below 0.05 (so not at
      exactly 0.05, and never for NaN). */
  lemma {:induction false} ScreenedFlags(rs: seq<Record>, columns: seq<Column>, kruskal: KruskalTest)
    ensures var s := Screened(rs, columns, kruskal);
      forall c :: c in s.significant <==> c in s.results && Significant(s.results[c].pValue)
    decreases |columns|
  {
    if columns != [] {
      var init := columns[..|columns| - 1];
      ScreenedFlags(rs, init, kruskal);
      ScreenedResults(rs, init, kruskal);
    }
  }

  /** The flagged columns keep the order of the tested columns. */
  lemma {:induction false} ScreenedOrder(rs: seq<Record>, columns: seq<Column>, kruskal: KruskalTest)
    ensures IsSubsequence(Screened(rs, columns, kruskal).significant, columns)
    decreases |columns|
  {
    if columns != [] {
      var init, c := columns[..|columns| - 1], columns[|columns| - 1];
      assert columns == init + [c];
      ScreenedOrder(rs, init, kruskal);
      var s := Screened(rs, init, kruskal);
      if Screened(rs, columns, kruskal).significant == s.significant + [c] {
        SubsequenceBoth(s.significant, init, c);
      } else {
        SubsequenceExtend(s.significant, init, c);
      }
    }
  }

  lemma SubsequenceExtend(a: seq<Column>, b: seq<Column>, c: Column)
    requires IsSubsequence(a, b)
    ensures IsSubsequence(a, b + [c])
  {
    assert (b + [c])[..|b|] == b;
  }

  lemma SubsequenceBoth(a: seq<Column>, b: seq<Column>, c: Column)
    requires IsSubsequence(a, b)
    ensures IsSubsequence(a + [c], b + [c])
  {
    assert (a + [c])[..|a|] == a;
    assert (b + [c])[..|b|] == b;
  }

  /** Once the test has raised, later columns change nothing. */
  lemma {:induction false} RaisedIsFinal(rs: seq<Record>, columns: seq<Column>, k: nat, kruskal: KruskalTest)
    requires k <= |columns|
    requires Screened(rs, columns[..k], kruskal).raisedAt.Some?
    ensures Screened(rs, columns, kruskal) == Screened(rs, columns[..k], kruskal)
    decreases |columns|
  {
    if k < |columns| {
      var init := columns[..|columns| - 1];
      assert init[..k] == columns[..k];
      RaisedIsFinal(rs, init, k, kruskal);
    } else {
      assert columns[..k] == columns;
    }
  }

  lemma ScreenedFacts(rs: seq<Record>, columns: seq<Column>, kruskal: KruskalTest)
    ensures var s := Screened(rs, columns, kruskal);
      && (s.raisedAt.None? ==> s.results.Keys == set c | c in columns)
      && (forall c :: c in s.significant <==> c in s.results && Significant(s.results[c].pValue))
      && IsSubsequence(s.significant, columns)
  {
    ScreenedResults(rs, columns, kruskal);
    ScreenedFlags(rs, columns, kruskal);
    ScreenedOrder(rs, columns, kruskal);
  }

  /** The loop over the columns: test, record the pair, flag when p < 0.05. */
  method Screen(rs: seq<Record>, columns: seq<Column>, kruskal: KruskalTest) returns (s: Screening)
    ensures s == Screened(rs, columns, kruskal)
    ensures s.raisedAt.None? ==> s.results.Keys == set c | c in columns
    ensures forall c :: c in s.significant <==> c in s.results && Significant(s.results[c].pValue)
    ensures IsSubsequence(s.significant, columns)
  {
    var results: map<Column, TestResult> := map[];
    var significant: seq<Column> := [];
    var i := 0;
    while i < |columns|
      invariant 0 <= i <= |columns|
      invariant Screened(rs, columns[..i], kruskal) == Screening(results, significant, None)
    {
      var column := columns[i];
      assert columns[..i + 1][..i] == columns[..i];
      var outcome := kruskal(Groups(rs, column));
      if outcome.None? {
        s := Screening(results, significant, Some(column));
        RaisedIsFinal(rs, columns, i + 1, kruskal);
        ScreenedFacts(rs, columns, kruskal);
        return;
      }
      var t := outcome.value;
      results := results[column := t];
      if Significant(t.pValue) {
        significant := significant + [column];
      }
      i := i + 1;
    }
    assert columns[..i] == columns;
    s := Screening(results, significant, None);
    ScreenedFacts(rs, columns, kruskal);
  }
}
