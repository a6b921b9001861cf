/** The pairwise comparison shown for each flagged column: a rank-sum test
    between the delivery times of two selected levels, the direction of the
    difference from the two medians, and the sentence reporting both. The
    test and the formatting of the p-value are parameters of the model. */
module Pairwise {
  import opened Floats
  import opened Stats
  import opened Records
  import opened Screening

  datatype Direction = Greater | Less

  /** `"greater" if group1.median() > group2.median() else "less"`: equal
      medians, and a NaN median (an empty group), give Less. */
  function DirectionOf(group1: seq<Num>, group2: seq<Num>): (d: Direction)
    ensures d == Greater <==>
      Median(group1).Real? && Median(group2).Real? && Median(group2).v < Median(group1).v
  {
    if Floats.Less(Median(group2), Median(group1)) then Greater else Less
  }

  /** scipy's `ranksums` on the two columns of delivery times (NaN included). */
  type RankSumTest = (seq<Num>, seq<Num>) -> TestResult

  datatype Verdict = Verdict(
    column: Column,
    first: Level,
    second: Level,
    test: TestResult,
    significant: bool,
    direction: Direction)

  /** What one flagged column shows: a prompt, or a verdict. */
  datatype Panel = Prompt(column: Column) | Report(verdict: Verdict)

  /** The comparison for `column` with the levels `selected` in the
      multiselect. */
  function Compare(rs: seq<Record>, column: Column, selected: seq<Level>, ranksums: RankSumTest): (p: Panel)
    ensures p.Report? <==> |selected| == 2
    ensures p.Prompt? ==> p.column == column
    ensures p.Report? ==>
      var v := p.verdict;
      var group1, group2 := OutcomesAt(rs, column, selected[0]), OutcomesAt(rs, column, selected[1]);
      && v.column == column && v.first == selected[0] && v.second == selected[1]
      && v.test == ranksums(group1, group2)
      && (v.significant <==> Significant(v.test.pValue))
      && (v.direction == Greater <==> Floats.Less(Median(group2), Median(group1)))
  {
    if |selected| == 2 then
      var group1 := OutcomesAt(rs, column, selected[0]);
      var group2 := OutcomesAt(rs, column, selected[1]);
      var test := ranksums(group1, group2);
      Report(Verdict(column, selected[0], selected[1], test,
                     Significant(test.pValue), DirectionOf(group1, group2)))
    else Prompt(column)
  }

  /** Equal medians are reported as Less. */
  lemma DirectionTie(group1: seq<Num>, group2: seq<Num>)
    requires Median(group1) == Median(group2)
    ensures DirectionOf(group1, group2) == Less
  {
  }

  /** A group with no delivery time has a NaN median, and the direction is Less. */
  lemma DirectionEmptyGroup(group1: seq<Num>, group2: seq<Num>)
    requires Reals(group1) == [] || Reals(group2) == []
    ensures DirectionOf(group1, group2) == Less
  {
  }

  /** Swapping the groups cannot give Greater both ways. */
  lemma DirectionAntisymmetric(group1: seq<Num>, group2: seq<Num>)
    ensures DirectionOf(group1, group2) == Greater ==> DirectionOf(group2, group1) == Less
  {
  }

  /** The direction depends on the values of each group, not on the row order. */
  lemma DirectionOrderFree(group1: seq<Num>, group2: seq<Num>, other1: seq<Num>, other2: seq<Num>)
    requires multiset(group1) == multiset(other1) && multiset(group2) == multiset(other2)
    ensures DirectionOf(group1, group2) == DirectionOf(other1, other2)
  {
    NanQuantileOrderFree(group1, other1, 1, 2);
    NanQuantileOrderFree(group2, other2, 1, 2);
  }

  /** When no delivery time of the first level exceeds any of the second,
      the direction is Less (for instance 10, 12, 14 minutes against 30, 32,
      34 minutes). */
  lemma DirectionSeparated(group1: seq<Num>, group2: seq<Num>)
    requires forall x, y :: x in Reals(group1) && y in Reals(group2) ==> x <= y
    ensures DirectionOf(group1, group2) == Less
  {
    var r1, r2 := Reals(group1), Reals(group2);
    if r1 != [] && r2 != [] {
      assert Max(r1) in r1 && Min(r2) in r2;
      assert Max(r1) <= Min(r2);
    }
  }

  function SignificancePhrase(significant: bool): string
  {
    if significant then "difference statistically significant"
    else "difference not statistically significant"
  }

  function DirectionWord(d: Direction): string
  {
    match d
    case Greater => "greater"
    case Less => "less"
  }

  /** The prompt carries its column between a fixed opening and ending. */
  function PromptText(column: Column): (t: string)
    ensures |t| == 39 + |column| + 23
    ensures t[39..39 + |column|] == column
  {
    "Please select exactly two options from " + column + " for the Wilcoxon test."
  }

  /** Different columns give different prompts. */
  lemma PromptTextNamesColumn(column: Column, other: Column)
    requires PromptText(column) == PromptText(other)
    ensures column == other
  {
  }

  /** `t` holds `column` after its 18-character opening, then `first` after
      " between ", then `second` after " and ". */
  predicate NamesPair(t: string, column: Column, first: Level, second: Level)
  {
    && |t| >= 32 + |column| + |first| + |second|
    && t[18..18 + |column|] == column
    && t[27 + |column|..27 + |column| + |first|] == first
    && t[32 + |column| + |first|..32 + |column| + |first| + |second|] == second
  }

  /** The opening of a verdict sentence, up to the colon after the p-value. */
  function VerdictHead(v: Verdict, formatP: Num -> string): (h: string)
    ensures NamesPair(h, v.column, v.first, v.second)
  {
    var a := "Wilcoxon test for " + v.column;
    var b := a + (" between " + v.first);
    var c := b + (" and " + v.second);
    var rest := " (P-value: " + formatP(v.test.pValue) + "): ";
    var i1, i2, i3 := 18 + |v.column|, 27 + |v.column| + |v.first|, 32 + |v.column| + |v.first| + |v.second|;
    SuffixSlice("Wilcoxon test for ", v.column);
    SuffixSlice(" between ", v.first);
    SuffixSlice(" and ", v.second);
    SuffixSlice(a, " between " + v.first);
    SuffixSlice(b, " and " + v.second);
    assert b[i1..][9..] == v.first;
    assert c[i2..][5..] == v.second;
    PrefixSlice(a, " between " + v.first, 18, i1);
    PrefixSlice(b, " and " + v.second, 18, i1);
    PrefixSlice(b, " and " + v.second, i1 + 9, i2);
    PrefixSlice(c, rest, 18, i1);
    PrefixSlice(c, rest, i1 + 9, i2);
    PrefixSlice(c, rest, i2 + 5, i3);
    c + rest
  }

  /** An opening followed by an ending keeps what the opening names. */
  function Joined(head: string, tail: string, column: Column, first: Level, second: Level): (t: string)
    requires NamesPair(head, column, first, second)
    ensures NamesPair(t, column, first, second)
    ensures |t| == |head| + |tail|
    ensures t[|head|..] == tail
  {
    var i1, i2, i3 := 18 + |column|, 27 + |column| + |first|, 32 + |column| + |first| + |second|;
    PrefixSlice(head, tail, 18, i1);
    PrefixSlice(head, tail, i1 + 9, i2);
    PrefixSlice(head, tail, i2 + 5, i3);
    SuffixSlice(head, tail);
    head + tail
  }

  /** The sentence of a verdict; `formatP` renders the p-value. It names the
      column and then the two levels in the order they were selected, and
      ends with the verdict's significance and direction. */
  function VerdictText(v: Verdict, formatP: Num -> string): (t: string)
    ensures NamesPair(t, v.column, v.first, v.second)
    ensures |t| > |TailText(v.significant, v.direction)|
    ensures t[|t| - |TailText(v.significant, v.direction)|..] == TailText(v.significant, v.direction)
  {
    Joined(VerdictHead(v, formatP), TailText(v.significant, v.direction), v.column, v.first, v.second)
  }

  /** A slice within the first part of a concatenation is a slice of that part. */
  lemma PrefixSlice(u: string, w: string, i: int, j: int)
    requires 0 <= i <= j <= |u|
    ensures (u + w)[i..j] == u[i..j]
  {
  }

  /** The second part of a concatenation is its suffix. */
  lemma SuffixSlice(u: string, w: string)
    ensures (u + w)[|u|..] == w
  {
  }

  /** Two verdicts on the same pair with the same test result read the same
      only if they agree on significance and direction: the sentence carries
      both. */
  lemma VerdictTextDetermines(v: Verdict, u: Verdict, formatP: Num -> string)
    requires v.column == u.column && v.first == u.first && v.second == u.second && v.test == u.test
    requires VerdictText(v, formatP) == VerdictText(u, formatP)
    ensures v.significant == u.significant && v.direction == u.direction
  {
    var head := VerdictHead(v, formatP);
    assert VerdictHead(u, formatP) == head;
    assert |VerdictText(v, formatP)| == |head| + |TailText(v.significant, v.direction)|;
    assert |VerdictText(u, formatP)| == |head| + |TailText(u.significant, u.direction)|;
  }

  function TailText(significant: bool, d: Direction): (t: string)
    ensures |t| == if significant then (if d == Greater then 49 else 46)
                   else (if d == Greater then 53 else 50)
  {
    SignificancePhrase(significant) + " and " + DirectionWord(d) + "."
  }

  /** The loop over the flagged columns: one panel for each, in their order,
      a verdict exactly where two levels are selected. */
  method ComparePanels(rs: seq<Record>, significant: seq<Column>, selections: Column -> seq<Level>, ranksums: RankSumTest)
    returns (panels: seq<Panel>)
    ensures |panels| == |significant|
    ensures forall i :: 0 <= i < |panels| ==>
      panels[i] == Compare(rs, significant[i], selections(significant[i]), ranksums)
    ensures forall i :: 0 <= i < |panels| ==> (panels[i].Report? <==> |selections(significant[i])| == 2)
  {
    panels := [];
    for i := 0 to |significant|
      invariant |panels| == i
      invariant forall k :: 0 <= k < i ==>
        panels[k] == Compare(rs, significant[k], selections(significant[k]), ranksums)
    {
      var column := significant[i];
      panels := panels + [Compare(rs, column, selections(column), ranksums)];
    }
  }
}
