/** The dashboard's traffic line chart (app/Filament/Widgets/VisitorChart.php):
    the last fourteen days, oldest first, each labelled with its formatted
    date and valued with that day's visit count, zero when there were none.
    The clock is the parameter `today` and the date format the parameter
    `format`. */
module VisitorChart {
  import opened Common
  import opened Collections
  import opened Visitors

  const ChartDays := 14

  /** Day `j` of the window, counting from the oldest. */
  function WindowDay(today: Date, j: int): Date
  {
    today - (ChartDays - 1) + j
  }

  predicate InWindow(today: Date, d: Date)
  {
    WindowDay(today, 0) <= d <= today
  }

  /** The count the overlay loop leaves for day `d`: that of the last entry
      for `d`, if any. */
  function LastCount(vs: seq<(Date, nat)>, d: Date): (c: Option<nat>)
    ensures c.None? <==> forall i :: 0 <= i < |vs| ==> vs[i].0 != d
    ensures c.Some? ==> exists i :: 0 <= i < |vs| && vs[i] == (d, c.value)
  {
    if vs == [] then None
    else if vs[|vs| - 1].0 == d then Some(vs[|vs| - 1].1)
    else
      var c := LastCount(vs[..|vs| - 1], d);
      if c.Some? then
        var i :| 0 <= i < |vs| - 1 && vs[..|vs| - 1][i] == (d, c.value);
        assert vs[i] == (d, c.value);
        c
      else
        assert forall i :: 0 <= i < |vs| - 1 ==> vs[i] == vs[..|vs| - 1][i];
        c
  }

  /** The value plotted for day `d`: zero-filled, then overwritten. */
  function SeriesValue(vs: seq<(Date, nat)>, d: Date): nat
  {
    var c := LastCount(vs, d);
    if c.Some? then c.value else 0
  }

  /** `getData()`: lay out the fourteen dates with zero counts, overlay the
      per-day counts that fall on one of them, and read the values back in
      date order. */
  method ChartData(today: Date, visitors: seq<(Date, nat)>, format: Date -> string)
      returns (labels: seq<string>, values: seq<nat>)
    ensures |labels| == ChartDays && |values| == ChartDays
    ensures forall j :: 0 <= j < ChartDays ==>
      labels[j] == format(WindowDay(today, j)) && values[j] == SeriesValue(visitors, WindowDay(today, j))
  {
    var dates: seq<Date> := [];
    var data: map<Date, nat> := map[];
    labels := [];
    var i := ChartDays - 1;
    while i >= 0
      invariant -1 <= i <= ChartDays - 1
      invariant |dates| == |labels| == ChartDays - 1 - i
      invariant forall j :: 0 <= j < |dates| ==> dates[j] == WindowDay(today, j) && labels[j] == format(dates[j])
      invariant forall d :: d in data <==> WindowDay(today, 0) <= d < WindowDay(today, |dates|)
      invariant forall d :: d in data ==> data[d] == 0
    {
      var date := today - i;
      labels := labels + [format(date)];
      dates := dates + [date];
      data := data[date := 0];
      i := i - 1;
    }
    var k := 0;
    while k < |visitors|
      invariant 0 <= k <= |visitors|
      invariant forall d :: d in data <==> InWindow(today, d)
      invariant forall d :: d in data ==> data[d] == SeriesValue(visitors[..k], d)
    {
      var (date, count) := visitors[k];
      assert visitors[..k + 1][..k] == visitors[..k];
      if date in data {
        data := data[date := count];
      }
      k := k + 1;
    }
    assert visitors[..k] == visitors;
    values := seq(|dates|, j requires 0 <= j < |dates| => data[dates[j]]);
  }

  /** Fed with `getVisitorsByDay(14)`, day `j` of the chart shows exactly the
      number of visits on that date, whichever side of midnight the clock
      stands. */
  lemma ChartMatchesCounts(rows: seq<VisitRecord>, today: Date, atMidnight: bool, j: nat)
    requires j < ChartDays
    ensures SeriesValue(VisitorsByDay(rows, today, ChartDays, atMidnight), WindowDay(today, j)) == CountOn(rows, WindowDay(today, j))
  {
    var s := VisitorsByDay(rows, today, ChartDays, atMidnight);
    var d := WindowDay(today, j);
    var n := CountOn(rows, d);
    assert forall i :: 0 <= i < |s| && s[i].0 == d ==> s[i].1 == n;
    if n > 0 {
      var r := OnDay(rows, d)[0];
      var k :| 0 <= k < |rows| && rows[k] == r;
      assert d in Keys(s);
      var m :| 0 <= m < |s| && Keys(s)[m] == d;
      SeriesValueIs(s, d, n, m);
    } else {
      SeriesValueZero(s, d);
    }
  }

  /** When every entry for `d` carries `n` and one exists, `n` is plotted. */
  lemma SeriesValueIs(vs: seq<(Date, nat)>, d: Date, n: nat, m: nat)
    requires m < |vs| && vs[m].0 == d
    requires forall i :: 0 <= i < |vs| && vs[i].0 == d ==> vs[i].1 == n
    ensures SeriesValue(vs, d) == n
  {
  }

  /** A day without an entry is plotted as zero. */
  lemma SeriesValueZero(vs: seq<(Date, nat)>, d: Date)
    requires forall i :: 0 <= i < |vs| ==> vs[i].0 != d || vs[i].1 == 0
    ensures SeriesValue(vs, d) == 0
  {
  }

  /** The overlay of one more entry. */
  lemma LastCountSnoc(vs: seq<(Date, nat)>, e: (Date, nat), d: Date)
    ensures LastCount(vs + [e], d) == if e.0 == d then Some(e.1) else LastCount(vs, d)
  {
    assert (vs + [e])[..|vs + [e]| - 1] == vs;
  }

  /** The entries whose dates fall inside the window, in order. */
  function WindowEntries(vs: seq<(Date, nat)>, today: Date): (r: seq<(Date, nat)>)
    ensures forall i :: 0 <= i < |r| ==> InWindow(today, r[i].0)
  {
    if vs == [] then []
    else
      var last := vs[|vs| - 1];
      WindowEntries(vs[..|vs| - 1], today) + (if InWindow(today, last.0) then [last] else [])
  }

  /** Counts for dates outside the window never reach the chart: the
      chart is the same when they are dropped from the query result. */
  lemma {:induction false} OutsideWindowIgnored(vs: seq<(Date, nat)>, today: Date, d: Date)
    requires InWindow(today, d)
    ensures SeriesValue(vs, d) == SeriesValue(WindowEntries(vs, today), d)
  {
    if vs != [] {
      var init := vs[..|vs| - 1];
      var last := vs[|vs| - 1];
      assert vs == init + [last];
      OutsideWindowIgnored(init, today, d);
      LastCountSnoc(init, last, d);
      if InWindow(today, last.0) {
        LastCountSnoc(WindowEntries(init, today), last, d);
      } else {
        assert WindowEntries(vs, today) == WindowEntries(init, today);
      }
    }
  }
}
