/** One run of the dashboard script: filter the table by the sidebar window,
    screen the factor columns, optionally list the Kruskal-Wallis lines, show
    a pairwise panel per flagged column, and build the daily and hourly
    charts. Widgets, the test routines and the p-value formatting are
    parameters; drawing is not modelled. */
module Dashboard {
  import opened Wrappers
  import opened Floats
  import opened Smoothing
  import opened Records
  import opened Screening
  import opened Pairwise
  import opened Aggregation

  /** What a run produces: either the script stops at the column on which the
      Kruskal-Wallis test raised, or the page is shown in full. */
  datatype Page =
    | Stopped(column: Column)
    | Shown(kruskalLines: seq<string>, panels: seq<Panel>, daily: seq<DayPoint>, hourly: seq<HourPoint>)

  function KruskalPhrase(significant: bool): string
  {
    if significant then "statistically significant difference"
    else "not statistically significant difference"
  }

  /** The line the side checkbox shows for one screened column. */
  function KruskalLine(column: Column, t: TestResult, formatP: Num -> string): (line: string)
    ensures |line| > |KruskalPhrase(Significant(t.pValue))| + 1
    ensures line[|line| - |KruskalPhrase(Significant(t.pValue))| - 1..] == KruskalPhrase(Significant(t.pValue)) + "."
  {
    var head := "Kruskal-Wallis test for " + column + " (P-value: " + formatP(t.pValue) + "): ";
    var line := head + (KruskalPhrase(Significant(t.pValue)) + ".");
    assert line[|head|..] == KruskalPhrase(Significant(t.pValue)) + ".";
    line
  }

  /** The lines for the results, in the order the columns were tested. */
  function KruskalLines(columns: seq<Column>, results: map<Column, TestResult>, formatP: Num -> string): (lines: seq<string>)
    requires forall c :: c in columns ==> c in results
    ensures |lines| == |columns|
    ensures forall i :: 0 <= i < |lines| ==> lines[i] == KruskalLine(columns[i], results[columns[i]], formatP)
  {
    seq(|columns|, i requires 0 <= i < |columns| => KruskalLine(columns[i], results[columns[i]], formatP))
  }

  /** A Kruskal-Wallis line says "not" exactly when the p-value is not below
      0.05: the two phrases differ in length, so the line tells them apart. */
  lemma KruskalLineSignificance(column: Column, t: TestResult, u: TestResult, formatP: Num -> string)
    requires formatP(t.pValue) == formatP(u.pValue)
    requires KruskalLine(column, t, formatP) == KruskalLine(column, u, formatP)
    ensures Significant(t.pValue) == Significant(u.pValue)
  {
    var head := "Kruskal-Wallis test for " + column + " (P-value: " + formatP(t.pValue) + "): ";
    assert |KruskalLine(column, t, formatP)| == |head| + |KruskalPhrase(Significant(t.pValue))| + 1;
    assert |KruskalLine(column, u, formatP)| == |head| + |KruskalPhrase(Significant(u.pValue))| + 1;
  }

  /** With a window that keeps no row, every grouping is empty; scipy's
      `kruskal` raises on fewer than two groups, so the run stops at the first
      column tested. */
  lemma EmptyWindowStops(table: seq<Record>, window: Window, kruskal: KruskalTest)
    requires window.startDate > window.endDate || window.startHour > window.endHour
    requires forall g: map<Level, seq<real>> :: |g.Keys| < 2 ==> kruskal(g).None?
    ensures Screened(Filter(table, window), ColumnsToTest, kruskal).raisedAt == Some(ColumnsToTest[0])
  {
    FilterEmptyWindow(table, window);
    var empty: seq<Record> := [];
    assert Groups(empty, ColumnsToTest[0]) == map[];
    assert ColumnsToTest[..1][..0] == [];
    assert Screened(empty, ColumnsToTest[..1], kruskal).raisedAt == Some(ColumnsToTest[0]);
    RaisedIsFinal(empty, ColumnsToTest, 1, kruskal);
  }

  /** The whole script on `table` with the sidebar set to `window` and
      `showKruskal`, and `selections` giving each multiselect's choice. */
  method Render(
    table: seq<Record>, window: Window, showKruskal: bool, kruskal: KruskalTest,
    selections: Column -> seq<Level>, ranksums: RankSumTest, formatP: Num -> string)
    returns (page: Page)
    ensures var rs := Filter(table, window);
      var s := Screened(rs, ColumnsToTest, kruskal);
      && (page.Stopped? <==> s.raisedAt.Some?)
      && (page.Stopped? ==> page.column == s.raisedAt.value)
      && (page.Shown? ==>
        && s.results.Keys == (set c | c in ColumnsToTest)
        && page.kruskalLines == (if showKruskal then KruskalLines(ColumnsToTest, s.results, formatP) else [])
        && |page.panels| == |s.significant|
        && (forall i :: 0 <= i < |page.panels| ==>
              page.panels[i] == Compare(rs, s.significant[i], selections(s.significant[i]), ranksums))
        && page.daily == DailyQuartiles(rs)
        && page.hourly == HourlyData(rs))
  {
    var rs := Filter(table, window);
    var s := Screen(rs, ColumnsToTest, kruskal);
    if s.raisedAt.Some? {
      return Stopped(s.raisedAt.value);
    }
    var lines := if showKruskal then KruskalLines(ColumnsToTest, s.results, formatP) else [];
    var panels := ComparePanels(rs, s.significant, selections, ranksums);

    var dayQuartiles := Quartiles(rs, ByDay);
    var dayEwma := Ewma(dayQuartiles);
    var daily := DayRows(GroupKeys(rs, ByDay), dayQuartiles, dayEwma);

    HourKeysInRange(rs);
    var hourQuartiles := Quartiles(rs, ByHour);
    var hourEwma := Ewma(hourQuartiles);
    var hourly := HourRows(rs, GroupKeys(rs, ByHour), hourQuartiles, hourEwma);

    page := Shown(lines, panels, daily, hourly);
  }

  /** A run whose window keeps no row shows nothing but stops at the first
      column tested. */
  method RenderEmptyWindow(
    table: seq<Record>, window: Window, showKruskal: bool, kruskal: KruskalTest,
    selections: Column -> seq<Level>, ranksums: RankSumTest, formatP: Num -> string)
    returns (page: Page)
    requires window.startDate > window.endDate || window.startHour > window.endHour
    requires forall g: map<Level, seq<real>> :: |g.Keys| < 2 ==> kruskal(g).None?
    ensures page == Stopped("Restaurant ID")
  {
    page := Render(table, window, showKruskal, kruskal, selections, ranksums, formatP);
    EmptyWindowStops(table, window, kruskal);
  }
}
