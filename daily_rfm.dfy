/** The per-day Recency / Frequency / Monetary table: the filtered view
    grouped by date, one row per distinct date, dates in ascending order
    (the group-by sorts its keys). */
module DailyRfm {
  import opened Records
  import Kpi

  /** One row of the grouped table. */
  datatype DailyAggregate = DailyAggregate(day: int, recency: int, frequency: nat, monetary: nat)

  /** The two named aggregations over `cnt`: 'count' gives Frequency, 'sum' gives Monetary. */
  datatype Agg = Count | Sum

  function Contribution(a: Agg, r: Record): nat
  {
    match a
    case Count => 1
    case Sum => r.cnt
  }

  /** The column of a daily row that aggregation `a` fills. */
  function Measure(g: DailyAggregate, a: Agg): nat
  {
    match a
    case Count => g.frequency
    case Sum => g.monetary
  }

  /** Aggregation `a` over the rows of the view dated `d`. */
  function AggOn(view: seq<Record>, d: int, a: Agg): nat
  {
    if view == [] then 0
    else (if view[0].day == d then Contribution(a, view[0]) else 0) + AggOn(view[1..], d, a)
  }

  /** Aggregation `a` over the whole view. */
  function AggAll(view: seq<Record>, a: Agg): nat
  {
    if view == [] then 0 else Contribution(a, view[0]) + AggAll(view[1..], a)
  }

  /** The distinct dates present in the view. */
  function DaysOf(view: seq<Record>): set<int>
  {
    set i | 0 <= i < |view| :: view[i].day
  }

  predicate Increasing(ds: seq<int>)
  {
    forall i, j :: 0 <= i < j < |ds| ==> ds[i] < ds[j]
  }

  /** The latest date of a non-empty view (`filtered_data['dteday'].max()`). */
  function MaxDay(view: seq<Record>): (m: int)
    requires view != []
    ensures m in DaysOf(view)
    ensures forall i :: 0 <= i < |view| ==> view[i].day <= m
  {
    if |view| == 1 then view[0].day
    else
      var rest := MaxDay(view[1..]);
      assert forall i :: 1 <= i < |view| ==> view[i] == view[1..][i - 1];
      if view[0].day >= rest then view[0].day
      else
        var k :| 0 <= k < |view[1..]| && view[1..][k].day == rest;
        assert view[k + 1].day == rest;
        rest
  }

  /** Adds a date to an increasing list of distinct dates. */
  function Insert(d: int, ds: seq<int>): (r: seq<int>)
    requires Increasing(ds)
    ensures Increasing(r)
    ensures forall x :: x in r <==> x == d || x in ds
  {
    if ds == [] then [d]
    else if d < ds[0] then
      assert forall j :: 0 <= j < |ds| ==> d < ds[j];
      [d] + ds
    else if d == ds[0] then ds
    else
      var rest := Insert(d, ds[1..]);
      assert forall j :: 0 <= j < |rest| ==> ds[0] < rest[j] by {
        forall j | 0 <= j < |rest| ensures ds[0] < rest[j] {
          assert rest[j] in rest;
        }
      }
      var r := [ds[0]] + rest;
      assert forall x :: x in r <==> x == ds[0] || x in rest;
      r
  }

  /** The group keys: the distinct dates of the view, ascending. */
  function SortedDays(view: seq<Record>): (ds: seq<int>)
    ensures Increasing(ds)
    ensures forall d :: d in ds <==> d in DaysOf(view)
  {
    if view == [] then []
    else
      var rest := SortedDays(view[1..]);
      assert forall i :: 1 <= i < |view| ==> view[i] == view[1..][i - 1];
      assert forall d :: d in DaysOf(view) <==> d == view[0].day || d in DaysOf(view[1..]) by {
        forall d | d in DaysOf(view[1..]) ensures d in DaysOf(view) {
          var k :| 0 <= k < |view[1..]| && view[1..][k].day == d;
          assert view[k + 1].day == d;
        }
      }
      Insert(view[0].day, rest)
  }

  /** One aggregated row per date of `ds`, Recency measured from `latest`. */
  function Rows(view: seq<Record>, ds: seq<int>, latest: int): (g: seq<DailyAggregate>)
    ensures |g| == |ds|
    ensures forall i :: 0 <= i < |ds| ==>
              g[i] == DailyAggregate(ds[i], latest - ds[i], AggOn(view, ds[i], Count), AggOn(view, ds[i], Sum))
  {
    if ds == [] then []
    else [DailyAggregate(ds[0], latest - ds[0], AggOn(view, ds[0], Count), AggOn(view, ds[0], Sum))]
         + Rows(view, ds[1..], latest)
  }

  /** A date has a positive row count exactly when it occurs in the view. */
  lemma {:induction false} CountPositiveIffPresent(view: seq<Record>, d: int)
    ensures AggOn(view, d, Count) >= 1 <==> d in DaysOf(view)
  {
    if view != [] {
      CountPositiveIffPresent(view[1..], d);
      if d in DaysOf(view[1..]) {
        var k :| 0 <= k < |view[1..]| && view[1..][k].day == d;
        assert view[k + 1].day == d;
      }
      if d in DaysOf(view) && view[0].day != d {
        var k :| 0 <= k < |view| && view[k].day == d;
        assert view[1..][k - 1].day == d;
      }
    }
  }

  /** Row `i` of the grouped rows has a positive Frequency and a non-negative Recency. */
  lemma {:induction false} RowsPositive(view: seq<Record>, i: int)
    requires view != [] && 0 <= i < |SortedDays(view)|
    ensures Rows(view, SortedDays(view), MaxDay(view))[i].frequency >= 1
    ensures Rows(view, SortedDays(view), MaxDay(view))[i].recency >= 0
  {
    var ds := SortedDays(view);
    CountPositiveIffPresent(view, ds[i]);
    var k :| 0 <= k < |view| && view[k].day == ds[i];
  }

  /** Every date of the view has its row among the grouped rows. */
  lemma {:induction false} RowsCoverDays(view: seq<Record>, d: int)
    requires d in DaysOf(view)
    ensures exists i :: 0 <= i < |SortedDays(view)| && Rows(view, SortedDays(view), MaxDay(view))[i].day == d
  {
    var ds := SortedDays(view);
    var i :| 0 <= i < |ds| && ds[i] == d;
    assert Rows(view, ds, MaxDay(view))[i].day == d;
  }

  /** The grouped table (lines 97-101 of the dashboard). */
  function Aggregate(view: seq<Record>): (g: seq<DailyAggregate>)
    ensures forall i, j :: 0 <= i < j < |g| ==> g[i].day < g[j].day
    ensures forall d :: d in DaysOf(view) <==> exists i :: 0 <= i < |g| && g[i].day == d
    ensures forall i :: 0 <= i < |g| ==>
              && g[i].frequency == AggOn(view, g[i].day, Count) >= 1
              && g[i].monetary == AggOn(view, g[i].day, Sum)
    ensures forall i :: 0 <= i < |g| ==>
              view != [] && g[i].recency == MaxDay(view) - g[i].day >= 0
  {
    if view == [] then []
    else
      var g := Rows(view, SortedDays(view), MaxDay(view));
      assert forall i :: 0 <= i < |g| ==> g[i].frequency >= 1 && g[i].recency >= 0 by {
        forall i | 0 <= i < |g| ensures g[i].frequency >= 1 && g[i].recency >= 0 {
          RowsPositive(view, i);
        }
      }
      assert forall d :: d in DaysOf(view) ==> exists i :: 0 <= i < |g| && g[i].day == d by {
        forall d | d in DaysOf(view) ensures exists i :: 0 <= i < |g| && g[i].day == d {
          RowsCoverDays(view, d);
        }
      }
      g
  }

  /** Sum of column `a` (Frequency or Monetary) over the grouped rows. */
  function SumColumn(g: seq<DailyAggregate>, a: Agg): nat
  {
    if g == [] then 0 else Measure(g[0], a) + SumColumn(g[1..], a)
  }

  /** Sum over the dates of `ds` of aggregation `a` on that date. */
  function SumOverDays(view: seq<Record>, ds: seq<int>, a: Agg): nat
  {
    if ds == [] then 0 else AggOn(view, ds[0], a) + SumOverDays(view, ds[1..], a)
  }

  lemma {:induction false} SumColumnOfRows(view: seq<Record>, ds: seq<int>, latest: int, a: Agg)
    ensures SumColumn(Rows(view, ds, latest), a) == SumOverDays(view, ds, a)
  {
    if ds != [] {
      SumColumnOfRows(view, ds[1..], latest, a);
      assert Rows(view, ds, latest)[1..] == Rows(view, ds[1..], latest);
    }
  }

  lemma {:induction false} SumOverDaysOfEmpty(ds: seq<int>, a: Agg)
    ensures SumOverDays([], ds, a) == 0
  {
    if ds != [] {
      SumOverDaysOfEmpty(ds[1..], a);
    }
  }

  /** Prepending a row adds its contribution once, to the one date it falls on. */
  lemma {:induction false} SumOverDaysCons(r: Record, view: seq<Record>, ds: seq<int>, a: Agg)
    requires Increasing(ds)
    ensures SumOverDays([r] + view, ds, a)
            == SumOverDays(view, ds, a) + (if r.day in ds then Contribution(a, r) else 0)
  {
    if ds != [] {
      SumOverDaysCons(r, view, ds[1..], a);
      assert ([r] + view)[1..] == view;
      assert r.day == ds[0] ==> r.day !in ds[1..];
    }
  }

  /** Summing a per-date aggregation over distinct dates that cover the view
      gives the aggregation over the whole view. */
  lemma {:induction false} SumOverCoveringDays(view: seq<Record>, ds: seq<int>, a: Agg)
    requires Increasing(ds)
    requires forall i :: 0 <= i < |view| ==> view[i].day in ds
    ensures SumOverDays(view, ds, a) == AggAll(view, a)
  {
    if view == [] {
      SumOverDaysOfEmpty(ds, a);
    } else {
      SumOverCoveringDays(view[1..], ds, a);
      assert view == [view[0]] + view[1..];
      SumOverDaysCons(view[0], view[1..], ds, a);
    }
  }

  lemma {:induction false} CountAllIsSize(view: seq<Record>)
    ensures AggAll(view, Count) == |view|
  {
    if view != [] {
      CountAllIsSize(view[1..]);
    }
  }

  lemma {:induction false} SumAllIsTotal(view: seq<Record>)
    ensures AggAll(view, Sum) == Kpi.TotalRentals(view)
  {
    if view != [] {
      SumAllIsTotal(view[1..]);
    }
  }

  /** Summing column `a` of the grouped table gives aggregation `a` over the whole view. */
  lemma {:induction false} AggregateConserves(view: seq<Record>, a: Agg)
    ensures SumColumn(Aggregate(view), a) == AggAll(view, a)
  {
    if view != [] {
      var ds := SortedDays(view);
      SumColumnOfRows(view, ds, MaxDay(view), a);
      assert forall i :: 0 <= i < |view| ==> view[i].day in DaysOf(view);
      SumOverCoveringDays(view, ds, a);
    }
  }

  /** The Frequencies add up to the number of rows in the filtered view. */
  lemma {:induction false} FrequenciesSumToViewSize(view: seq<Record>)
    ensures SumColumn(Aggregate(view), Count) == |view|
  {
    AggregateConserves(view, Count);
    CountAllIsSize(view);
  }

  /** The Monetary values add up to Total Rentals. */
  lemma {:induction false} MonetarySumsToTotalRentals(view: seq<Record>)
    ensures SumColumn(Aggregate(view), Sum) == Kpi.TotalRentals(view)
  {
    AggregateConserves(view, Sum);
    SumAllIsTotal(view);
  }

  /** The last grouped row is the latest date of the view, with Recency 0. */
  lemma {:induction false} LatestDayHasZeroRecency(view: seq<Record>)
    requires view != []
    ensures |Aggregate(view)| > 0
    ensures Aggregate(view)[|Aggregate(view)| - 1].day == MaxDay(view)
    ensures Aggregate(view)[|Aggregate(view)| - 1].recency == 0
  {
    var ds := SortedDays(view);
    var m := MaxDay(view);
    var last := |ds| - 1;
    assert m in ds;
    var i :| 0 <= i < |ds| && ds[i] == m;
    assert ds[last] in DaysOf(view);
    var k :| 0 <= k < |view| && view[k].day == ds[last];
    assert ds[last] <= m;
    assert Aggregate(view) == Rows(view, ds, m);
  }

  ghost function Elems(ds: seq<int>): set<int>
  {
    set x | x in ds
  }

  lemma {:induction false} DistinctElems(ds: seq<int>)
    requires Increasing(ds)
    ensures |Elems(ds)| == |ds|
  {
    if ds != [] {
      DistinctElems(ds[1..]);
      assert Elems(ds) == {ds[0]} + Elems(ds[1..]);
      assert ds[0] !in Elems(ds[1..]);
    }
  }

  /** Exactly one grouped row per distinct date of the view. */
  lemma {:induction false} OneRowPerDistinctDay(view: seq<Record>)
    ensures |Aggregate(view)| == |DaysOf(view)|
  {
    if view != [] {
      var ds := SortedDays(view);
      DistinctElems(ds);
      assert Elems(ds) == DaysOf(view);
    }
  }
}
