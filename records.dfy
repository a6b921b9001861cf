/** The delivery table and its date/hour filter. Timestamps are already split
    into a day number and an hour of the day. */
module Records {
  import opened Seqs
  import opened Floats

  type Hour = h: int | 0 <= h < 24

  /** A column name of the table. */
  type Column = string

  /** A value of a factor column, as the text pandas would show for it. */
  type Level = string

  /** One delivery. `orderDay` and `orderHour` come from "Order Date and
      Time", `deliveryDay` and `deliveryHour` from "Delivery Date and Time",
      `deliveryTime` is "Delivery Time (minutes)" (NaN when missing), and
      `factors` holds the other columns; a column absent from `factors` is a
      missing value in that row. */
  datatype Record = Record(
    orderDay: int,
    orderHour: Hour,
    deliveryDay: int,
    deliveryHour: Hour,
    deliveryTime: Num,
    factors: map<Column, Level>)

  /** The factor columns screened against the delivery time, in order. */
  const ColumnsToTest: seq<Column> := [
    "Restaurant ID", "Order Date and Time", "Delivery Date and Time",
    "Order Value", "Delivery Fee", "Payment Method", "Discounts and Offers",
    "Commission Fee", "Payment Processing Fee", "Refunds/Chargebacks"]

  /** The sidebar's date range and hour range. */
  datatype Window = Window(startDate: int, endDate: int, startHour: Hour, endHour: Hour)

  /** Both ranges are inclusive; the hour range applies to every day alike. */
  predicate InWindow(r: Record, w: Window)
  {
    && w.startDate <= r.orderDay <= w.endDate
    && w.startHour <= r.orderHour <= w.endHour
  }

  /** The rows inside the window, in table order. */
  function Filter(rs: seq<Record>, w: Window): (out: seq<Record>)
    ensures forall r :: r in out <==> r in rs && InWindow(r, w)
    ensures IsSubsequence(out, rs)
    ensures forall r :: multiset(out)[r] == if InWindow(r, w) then multiset(rs)[r] else 0
  {
    if rs == [] then []
    else
      var init, last := rs[..|rs| - 1], rs[|rs| - 1];
      assert rs == init + [last];
      assert multiset(rs) == multiset(init) + multiset{last};
      var kept := Filter(init, w);
      if InWindow(last, w) then
        assert (kept + [last])[..|kept|] == kept;
        kept + [last]
      else kept
  }

  /** A table all of whose rows are in the window passes the filter unchanged. */
  lemma {:induction false} FilterKeepsAll(rs: seq<Record>, w: Window)
    requires forall r :: r in rs ==> InWindow(r, w)
    ensures Filter(rs, w) == rs
    decreases |rs|
  {
    if rs != [] {
      var init := rs[..|rs| - 1];
      assert rs == init + [rs[|rs| - 1]];
      FilterKeepsAll(init, w);
    }
  }

  /** Filtering twice with the same window is filtering once. */
  lemma FilterIdempotent(rs: seq<Record>, w: Window)
    ensures Filter(Filter(rs, w), w) == Filter(rs, w)
  {
    FilterKeepsAll(Filter(rs, w), w);
  }

  /** A date range or an hour range that is empty (start after end) keeps no row. */
  lemma FilterEmptyWindow(rs: seq<Record>, w: Window)
    requires w.startDate > w.endDate || w.startHour > w.endHour
    ensures Filter(rs, w) == []
  {
    var out := Filter(rs, w);
    assert forall k :: 0 <= k < |out| ==> out[k] in out;
  }

  function AtLevelCell(column: Column, level: Level): Record -> seq<Num>
  {
    (r: Record) => if column in r.factors && r.factors[column] == level then [r.deliveryTime] else []
  }

  /** `df[df[column] == level]["Delivery Time (minutes)"]`: the delivery times
      of the rows whose `column` equals `level`, NaN included, in table order. */
  function OutcomesAt(rs: seq<Record>, column: Column, level: Level): (o: seq<Num>)
    ensures forall x :: x in o <==>
      exists r :: r in rs && column in r.factors && r.factors[column] == level && r.deliveryTime == x
    ensures forall x :: multiset(o)[x] == |RowsWith(rs, column, level, x)|
  {
    var o := Concat(rs, AtLevelCell(column, level));
    forall x ensures x in o <==>
      exists r :: r in rs && column in r.factors && r.factors[column] == level && r.deliveryTime == x
    {
      ConcatMember(rs, AtLevelCell(column, level), x);
    }
    forall x ensures multiset(o)[x] == |RowsWith(rs, column, level, x)| {
      OutcomesCount(rs, column, level, x);
    }
    o
  }

  /** The row has `level` in `column` and the delivery time `x`. */
  predicate Matches(r: Record, column: Column, level: Level, x: Num)
  {
    column in r.factors && r.factors[column] == level && r.deliveryTime == x
  }

  /** The positions of the rows whose `column` equals `level` and whose
      delivery time is `x`. */
  function RowsWith(rs: seq<Record>, column: Column, level: Level, x: Num): set<int>
  {
    set i | 0 <= i < |rs| && Matches(rs[i], column, level, x)
  }

  /** Appending a row adds its position exactly when it matches. */
  lemma RowsWithSnoc(rs: seq<Record>, column: Column, level: Level, x: Num)
    requires rs != []
    ensures var n := |rs| - 1;
      |RowsWith(rs, column, level, x)| ==
        |RowsWith(rs[..n], column, level, x)| + (if Matches(rs[n], column, level, x) then 1 else 0)
  {
    var n := |rs| - 1;
    var before := RowsWith(rs[..n], column, level, x);
    var all := RowsWith(rs, column, level, x);
    var added: set<int> := if Matches(rs[n], column, level, x) then {n} else {};
    forall i | 0 <= i < n ensures i in all <==> i in before {
      assert rs[..n][i] == rs[i];
    }
    assert n in all <==> n in added;
    assert all == before + added;
    assert n !in before;
  }

  /** Each matching row contributes its delivery time once. */
  lemma {:induction false} OutcomesCount(rs: seq<Record>, column: Column, level: Level, x: Num)
    ensures multiset(Concat(rs, AtLevelCell(column, level)))[x] == |RowsWith(rs, column, level, x)|
    decreases |rs|
  {
    if rs == [] {
      assert RowsWith(rs, column, level, x) == {};
    } else {
      var n := |rs| - 1;
      var f := AtLevelCell(column, level);
      OutcomesCount(rs[..n], column, level, x);
      RowsWithSnoc(rs, column, level, x);
      assert Concat(rs, f) == Concat(rs[..n], f) + f(rs[n]);
      assert multiset(f(rs[n]))[x] == if Matches(rs[n], column, level, x) then 1 else 0;
    }
  }


}
