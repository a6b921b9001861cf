/** The two trend charts: the delivery time grouped by delivery day and by
    delivery hour, the third quartile of each group, its exponentially
    weighted moving average in key order, and, per hour, the number of
    deliveries with a recorded time. */
module Aggregation {
  import opened Seqs
  import opened Floats
  import opened Stats
  import opened Smoothing
  import opened Records

  datatype Granularity = ByDay | ByHour

  /** The group-by key of a row: its delivery day or its delivery hour. */
  function KeyOf(r: Record, g: Granularity): int
  {
    match g
    case ByDay => r.deliveryDay
    case ByHour => r.deliveryHour
  }

  function KeyCell(g: Granularity): Record -> seq<int>
  {
    (r: Record) => [KeyOf(r, g)]
  }

  function AtKeyCell(g: Granularity, k: int): Record -> seq<Num>
  {
    (r: Record) => if KeyOf(r, g) == k then [r.deliveryTime] else []
  }

  /** The keys of the groups, ascending, one per key that occurs. */
  function GroupKeys(rs: seq<Record>, g: Granularity): seq<int>
  {
    DistinctSorted(Concat(rs, KeyCell(g)))
  }

  /** The delivery times of the group with key `k`, in table order, NaN included. */
  function ValuesAt(rs: seq<Record>, g: Granularity, k: int): seq<Num>
  {
    Concat(rs, AtKeyCell(g, k))
  }

  /** pandas' `count`: the recorded (non-NaN) times in the group. It is
      positive exactly when some row with key `k` has a recorded time. */
  function CountAt(rs: seq<Record>, g: Granularity, k: int): (c: nat)
    ensures c > 0 <==> exists r :: r in rs && KeyOf(r, g) == k && r.deliveryTime.Real?
  {
    CountPositive(rs, g, k);
    |Reals(ValuesAt(rs, g, k))|
  }

  lemma CountPositive(rs: seq<Record>, g: Granularity, k: int)
    ensures Reals(ValuesAt(rs, g, k)) != [] <==>
      exists r :: r in rs && KeyOf(r, g) == k && r.deliveryTime.Real?
  {
    var values := ValuesAt(rs, g, k);
    if Reals(values) != [] {
      var y := Reals(values)[0];
      RealsMember(values, y);
      ConcatMember(rs, AtKeyCell(g, k), Real(y));
    }
    forall r | r in rs && KeyOf(r, g) == k && r.deliveryTime.Real? ensures Reals(values) != [] {
      ConcatMember(rs, AtKeyCell(g, k), r.deliveryTime);
      RealsMember(values, r.deliveryTime.v);
    }
  }

  /** The third quartile of the group: NaN when the group has no recorded
      time, else between the group's least and greatest recorded time. */
  function QuartileAt(rs: seq<Record>, g: Granularity, k: int): (q: Num)
    ensures q.Real? <==> CountAt(rs, g, k) > 0
    ensures q.Real? ==> Min(Reals(ValuesAt(rs, g, k))) <= q.v <= Max(Reals(ValuesAt(rs, g, k)))
  {
    ThirdQuartile(ValuesAt(rs, g, k))
  }

  /** The quartile column, in key order. */
  function Quartiles(rs: seq<Record>, g: Granularity): (q: seq<Num>)
    ensures |q| == |GroupKeys(rs, g)|
  {
    var ks := GroupKeys(rs, g);
    seq(|ks|, i requires 0 <= i < |ks| => QuartileAt(rs, g, ks[i]))
  }

  /** The count column over the keys `ks`, in their order. */
  function CountColumn(rs: seq<Record>, g: Granularity, ks: seq<int>): (c: seq<nat>)
    ensures |c| == |ks|
  {
    seq(|ks|, i requires 0 <= i < |ks| => CountAt(rs, g, ks[i]))
  }

  function TimeCell(r: Record): seq<Num>
  {
    [r.deliveryTime]
  }

  /** The "Delivery Time (minutes)" column of the table, NaN included. */
  function Times(rs: seq<Record>): seq<Num>
  {
    Concat(rs, TimeCell)
  }

  datatype DayPoint = DayPoint(day: int, quartile: Num, ewma: Num)

  datatype HourPoint = HourPoint(hour: Hour, quartile: Num, count: nat, ewma: Num)

  /** The group keys are ascending, without repeats, and are exactly the
      keys that occur in the table. */
  lemma GroupKeysFacts(rs: seq<Record>, g: Granularity)
    ensures StrictlyIncreasing(GroupKeys(rs, g))
    ensures forall k :: k in GroupKeys(rs, g) <==> exists r :: r in rs && KeyOf(r, g) == k
  {
    forall k ensures k in GroupKeys(rs, g) <==> exists r :: r in rs && KeyOf(r, g) == k {
      ConcatMember(rs, KeyCell(g), k);
    }
  }

  /** The rows of the daily chart from its key, quartile and EWMA columns. */
  function DayRows(ks: seq<int>, q: seq<Num>, e: seq<Num>): (pts: seq<DayPoint>)
    requires |q| == |ks| && |e| == |ks|
    ensures |pts| == |ks|
    ensures forall i :: 0 <= i < |pts| ==> pts[i] == DayPoint(ks[i], q[i], e[i])
  {
    seq(|ks|, i requires 0 <= i < |ks| => DayPoint(ks[i], q[i], e[i]))
  }

  /** The rows of the hourly chart from its key, quartile and EWMA columns. */
  function HourRows(rs: seq<Record>, ks: seq<int>, q: seq<Num>, e: seq<Num>): (pts: seq<HourPoint>)
    requires |q| == |ks| && |e| == |ks|
    requires forall i :: 0 <= i < |ks| ==> 0 <= ks[i] < 24
    ensures |pts| == |ks|
    ensures forall i :: 0 <= i < |pts| ==>
      pts[i] == HourPoint(ks[i] as Hour, q[i], CountAt(rs, ByHour, ks[i]), e[i])
  {
    seq(|ks|, i requires 0 <= i < |ks| =>
      HourPoint(ks[i] as Hour, q[i], CountAt(rs, ByHour, ks[i]), e[i]))
  }

  lemma HourKeysInRange(rs: seq<Record>)
    ensures forall i :: 0 <= i < |GroupKeys(rs, ByHour)| ==> 0 <= GroupKeys(rs, ByHour)[i] < 24
  {
    var ks := GroupKeys(rs, ByHour);
    GroupKeysFacts(rs, ByHour);
    assert forall i :: 0 <= i < |ks| ==> ks[i] in ks;
  }

  /** `daily_quartiles` with its EWMA column, one row per group key. */
  function DailyQuartiles(rs: seq<Record>): (pts: seq<DayPoint>)
    ensures |pts| == |GroupKeys(rs, ByDay)|
    ensures forall i :: 0 <= i < |pts| ==> pts[i].day == GroupKeys(rs, ByDay)[i]
    ensures forall i :: 0 <= i < |pts| ==> pts[i].quartile == QuartileAt(rs, ByDay, pts[i].day)
    ensures forall i :: 0 <= i < |pts| ==> pts[i].ewma == Ewm(Quartiles(rs, ByDay))[i]
    ensures Days(pts) == GroupKeys(rs, ByDay)
  {
    var q := Quartiles(rs, ByDay);
    DayRows(GroupKeys(rs, ByDay), q, Ewm(q))
  }

  /** `hourly_data` with its EWMA column, one row per group key. */
  function HourlyData(rs: seq<Record>): (pts: seq<HourPoint>)
    ensures |pts| == |GroupKeys(rs, ByHour)|
    ensures forall i :: 0 <= i < |pts| ==> pts[i].hour == GroupKeys(rs, ByHour)[i]
    ensures forall i :: 0 <= i < |pts| ==> pts[i].quartile == QuartileAt(rs, ByHour, pts[i].hour)
    ensures forall i :: 0 <= i < |pts| ==> pts[i].count == CountAt(rs, ByHour, pts[i].hour)
    ensures forall i :: 0 <= i < |pts| ==> pts[i].ewma == Ewm(Quartiles(rs, ByHour))[i]
    ensures Hours(pts) == GroupKeys(rs, ByHour)
  {
    HourKeysInRange(rs);
    var q := Quartiles(rs, ByHour);
    HourRows(rs, GroupKeys(rs, ByHour), q, Ewm(q))
  }

  /** Each group key is the key of some row, and each row's key is some
      group key, by position. */
  lemma {:induction false} GroupKeysCover(rs: seq<Record>, g: Granularity)
    ensures var ks := GroupKeys(rs, g);
      forall i :: 0 <= i < |ks| ==> exists r :: r in rs && KeyOf(r, g) == ks[i]
    ensures var ks := GroupKeys(rs, g);
      forall r :: r in rs ==> exists i :: 0 <= i < |ks| && ks[i] == KeyOf(r, g)
  {
    var ks := GroupKeys(rs, g);
    GroupKeysFacts(rs, g);
    assert forall i :: 0 <= i < |ks| ==> ks[i] in ks;
    forall r | r in rs ensures exists i :: 0 <= i < |ks| && ks[i] == KeyOf(r, g) {
      assert KeyOf(r, g) in ks;
    }
  }

  /** The days of the daily chart, in row order. */
  function Days(pts: seq<DayPoint>): (days: seq<int>)
    ensures |days| == |pts|
    ensures forall i :: 0 <= i < |pts| ==> days[i] == pts[i].day
  {
    seq(|pts|, i requires 0 <= i < |pts| => pts[i].day)
  }

  /** One daily row per delivery day that occurs, in ascending day order. */
  lemma {:induction false} DailyDays(rs: seq<Record>)
    ensures var days := Days(DailyQuartiles(rs));
      forall i, j :: 0 <= i < j < |days| ==> days[i] < days[j]
    ensures var days := Days(DailyQuartiles(rs));
      forall i :: 0 <= i < |days| ==> exists r :: r in rs && r.deliveryDay == days[i]
    ensures var days := Days(DailyQuartiles(rs));
      forall r :: r in rs ==> exists i :: 0 <= i < |days| && days[i] == r.deliveryDay
  {
    DayKeys(rs, Days(DailyQuartiles(rs)));
  }

  lemma {:induction false} DayKeys(rs: seq<Record>, days: seq<int>)
    requires days == GroupKeys(rs, ByDay)
    ensures forall i, j :: 0 <= i < j < |days| ==> days[i] < days[j]
    ensures forall i :: 0 <= i < |days| ==> exists r :: r in rs && r.deliveryDay == days[i]
    ensures forall r :: r in rs ==> exists i :: 0 <= i < |days| && days[i] == r.deliveryDay
  {
    GroupKeysFacts(rs, ByDay);
    GroupKeysCover(rs, ByDay);
  }

  /** The hours of the hourly chart, in row order. */
  function Hours(pts: seq<HourPoint>): (hours: seq<int>)
    ensures |hours| == |pts|
    ensures forall i :: 0 <= i < |pts| ==> hours[i] == pts[i].hour
  {
    seq(|pts|, i requires 0 <= i < |pts| => pts[i].hour as int)
  }

  /** One hourly row per delivery hour that occurs (an hour without
      deliveries has no row), in ascending hour order, hence at most 24. */
  lemma {:induction false} HourlyHours(rs: seq<Record>)
    ensures |HourlyData(rs)| <= 24
    ensures var hours := Hours(HourlyData(rs));
      forall i, j :: 0 <= i < j < |hours| ==> hours[i] < hours[j]
    ensures var hours := Hours(HourlyData(rs));
      forall i :: 0 <= i < |hours| ==> 0 <= hours[i] < 24 && exists r :: r in rs && r.deliveryHour == hours[i]
    ensures var hours := Hours(HourlyData(rs));
      forall r :: r in rs ==> exists i :: 0 <= i < |hours| && hours[i] == r.deliveryHour
  {
    HourKeys(rs, Hours(HourlyData(rs)));
    HourKeysBounded(rs);
    HourKeysInRange(rs);
  }

  lemma {:induction false} HourKeys(rs: seq<Record>, hours: seq<int>)
    requires hours == GroupKeys(rs, ByHour)
    ensures forall i, j :: 0 <= i < j < |hours| ==> hours[i] < hours[j]
    ensures forall i :: 0 <= i < |hours| ==> exists r :: r in rs && r.deliveryHour == hours[i]
    ensures forall r :: r in rs ==> exists i :: 0 <= i < |hours| && hours[i] == r.deliveryHour
  {
    GroupKeysFacts(rs, ByHour);
    GroupKeysCover(rs, ByHour);
  }

  lemma HourKeysBounded(rs: seq<Record>)
    ensures |GroupKeys(rs, ByHour)| <= 24
  {
    var ks := GroupKeys(rs, ByHour);
    GroupKeysFacts(rs, ByHour);
    assert forall k :: k in ks ==> 0 <= k < 24;
    StrictlyIncreasingBounded(ks, 0, 24);
  }

  lemma CountAtAppend(rs: seq<Record>, r: Record, g: Granularity, k: int)
    ensures CountAt(rs + [r], g, k)
      == CountAt(rs, g, k) + if KeyOf(r, g) == k then |RealPart(r.deliveryTime)| else 0
  {
    assert (rs + [r])[..|rs|] == rs;
    var cell := AtKeyCell(g, k)(r);
    assert ValuesAt(rs + [r], g, k) == ValuesAt(rs, g, k) + cell;
    ConcatAppend(ValuesAt(rs, g, k), cell, RealPart);
    if cell != [] {
      assert cell == [] + [r.deliveryTime];
    }
  }

  lemma CountColumnSnoc(rs: seq<Record>, g: Granularity, ks: seq<int>, k: int)
    ensures Sum(CountColumn(rs, g, ks + [k])) == Sum(CountColumn(rs, g, ks)) + CountAt(rs, g, k)
  {
    assert CountColumn(rs, g, ks + [k])[..|ks|] == CountColumn(rs, g, ks);
  }

  lemma {:induction false} CountsEmpty(g: Granularity, ks: seq<int>)
    ensures Sum(CountColumn([], g, ks)) == 0
    decreases |ks|
  {
    if ks != [] {
      var ks' := ks[..|ks| - 1];
      assert ks == ks' + [ks[|ks| - 1]];
      CountColumnSnoc([], g, ks', ks[|ks| - 1]);
      CountsEmpty(g, ks');
    }
  }

  lemma {:induction false} CountsAppend(rs: seq<Record>, r: Record, g: Granularity, ks: seq<int>)
    requires StrictlyIncreasing(ks)
    ensures Sum(CountColumn(rs + [r], g, ks))
      == Sum(CountColumn(rs, g, ks)) + if KeyOf(r, g) in ks then |RealPart(r.deliveryTime)| else 0
    decreases |ks|
  {
    if ks != [] {
      var ks', k := ks[..|ks| - 1], ks[|ks| - 1];
      assert ks == ks' + [k];
      CountColumnSnoc(rs + [r], g, ks', k);
      CountColumnSnoc(rs, g, ks', k);
      CountsAppend(rs, r, g, ks');
      CountAtAppend(rs, r, g, k);
      assert k !in ks';
    }
  }

  /** Over ascending keys that include every key of the table, the counts add
      up to the recorded times of the table. */
  lemma {:induction false} CountsTotal(rs: seq<Record>, g: Granularity, ks: seq<int>)
    requires StrictlyIncreasing(ks)
    requires forall r :: r in rs ==> KeyOf(r, g) in ks
    ensures Sum(CountColumn(rs, g, ks)) == |Reals(Times(rs))|
    decreases |rs|
  {
    if rs == [] {
      CountsEmpty(g, ks);
    } else {
      var rs', r := rs[..|rs| - 1], rs[|rs| - 1];
      assert rs == rs' + [r];
      CountsTotal(rs', g, ks);
      CountsAppend(rs', r, g, ks);
      RealsAppend(Times(rs'), r.deliveryTime);
    }
  }

  /** The hourly counts add up to the number of deliveries with a recorded
      time: every such delivery is counted once, under its own hour. */
  lemma HourlyCountsTotal(rs: seq<Record>)
    ensures var pts := HourlyData(rs);
      Sum(seq(|pts|, i requires 0 <= i < |pts| => pts[i].count)) == |Reals(Times(rs))|
  {
    var pts := HourlyData(rs);
    var ks := GroupKeys(rs, ByHour);
    GroupKeysFacts(rs, ByHour);
    assert seq(|pts|, i requires 0 <= i < |pts| => pts[i].count) == CountColumn(rs, ByHour, ks);
    CountsTotal(rs, ByHour, ks);
  }

  /** Tables holding the same rows have the same group keys. */
  lemma GroupKeysOrderFree(rs: seq<Record>, other: seq<Record>, g: Granularity)
    requires multiset(rs) == multiset(other)
    ensures GroupKeys(rs, g) == GroupKeys(other, g)
  {
    GroupKeysFacts(rs, g);
    GroupKeysFacts(other, g);
    assert forall r :: r in rs <==> r in other by {
      forall r ensures r in rs <==> r in other {
        assert r in rs <==> r in multiset(rs);
        assert r in other <==> r in multiset(other);
      }
    }
    StrictlyIncreasingUnique(GroupKeys(rs, g), GroupKeys(other, g));
  }

  /** Tables holding the same rows have the same group values, up to order,
      hence the same quartile and count per key. */
  lemma GroupOrderFree(rs: seq<Record>, other: seq<Record>, g: Granularity, k: int)
    requires multiset(rs) == multiset(other)
    ensures QuartileAt(rs, g, k) == QuartileAt(other, g, k)
    ensures CountAt(rs, g, k) == CountAt(other, g, k)
  {
    ConcatPermutation(rs, other, AtKeyCell(g, k));
    NanQuantileOrderFree(ValuesAt(rs, g, k), ValuesAt(other, g, k), 3, 4);
    RealsPermutation(ValuesAt(rs, g, k), ValuesAt(other, g, k));
    assert |multiset(Reals(ValuesAt(rs, g, k)))| == |multiset(Reals(ValuesAt(other, g, k)))|;
  }

  /** The daily chart does not depend on the order of the rows. */
  lemma DailyOrderFree(rs: seq<Record>, other: seq<Record>)
    requires multiset(rs) == multiset(other)
    ensures DailyQuartiles(rs) == DailyQuartiles(other)
  {
    GroupKeysOrderFree(rs, other, ByDay);
    var ks := GroupKeys(rs, ByDay);
    forall i | 0 <= i < |ks| ensures Quartiles(rs, ByDay)[i] == Quartiles(other, ByDay)[i] {
      GroupOrderFree(rs, other, ByDay, ks[i]);
    }
    assert Quartiles(rs, ByDay) == Quartiles(other, ByDay);
  }

  /** The hourly chart does not depend on the order of the rows. */
  lemma HourlyOrderFree(rs: seq<Record>, other: seq<Record>)
    requires multiset(rs) == multiset(other)
    ensures HourlyData(rs) == HourlyData(other)
  {
    GroupKeysOrderFree(rs, other, ByHour);
    var ks := GroupKeys(rs, ByHour);
    forall i | 0 <= i < |ks|
      ensures Quartiles(rs, ByHour)[i] == Quartiles(other, ByHour)[i]
      ensures CountAt(rs, ByHour, ks[i]) == CountAt(other, ByHour, ks[i])
    {
      GroupOrderFree(rs, other, ByHour, ks[i]);
    }
    assert Quartiles(rs, ByHour) == Quartiles(other, ByHour);
  }
}
