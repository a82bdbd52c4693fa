/** The `visitors` table and the dashboard's aggregate queries over it
    (app/Models/Visitor.php). Each query is a function of the table,
    modelled as a sequence of rows, and of the clock where it reads one. */
module Visitors {
  import opened Common
  import opened Collections

  /** A calendar day, counted in days; the clock and date formatting are
      parameters of the functions that need them. */
  type Date = int

  /** One row of the `visitors` table. The classification columns are
      nullable in the table, although the tracker always fills them. */
  datatype VisitRecord = VisitRecord(
    ip: string,
    userAgent: string,
    pageVisited: string,
    referrer: Option<string>,
    deviceType: Option<string>,
    browser: Option<string>,
    os: Option<string>,
    visitDate: Date)

  /** `Visitor::count()`. */
  function TotalVisitors(rows: seq<VisitRecord>): nat
  {
    |rows|
  }

  function Ips(rows: seq<VisitRecord>): set<string>
  {
    set r | r in rows :: r.ip
  }

  /** `count(distinct ip_address)`. */
  function UniqueVisitors(rows: seq<VisitRecord>): (n: nat)
    ensures n <= TotalVisitors(rows)
  {
    DistinctAtMostTotal(rows);
    |Ips(rows)|
  }

  /** There are never more distinct addresses than rows. */
  lemma {:induction false} DistinctAtMostTotal(rows: seq<VisitRecord>)
    ensures |Ips(rows)| <= |rows|
  {
    if rows != [] {
      var rest := rows[1..];
      assert rows == [rows[0]] + rest;
      assert Ips(rows) == {rows[0].ip} + Ips(rest);
      DistinctAtMostTotal(rest);
    }
  }

  /** The rows dated `day`, each as often as it occurs in the table. */
  function OnDay(rows: seq<VisitRecord>, day: Date): (r: seq<VisitRecord>)
    ensures forall i :: 0 <= i < |r| ==> r[i].visitDate == day && r[i] in rows
    ensures forall i :: 0 <= i < |rows| && rows[i].visitDate == day ==> rows[i] in r
    ensures multiset(r) <= multiset(rows)
  {
    Filter(rows, (v: VisitRecord) => v.visitDate == day)
  }

  /** A row is among the day's rows exactly as often as the table holds it
      when it is dated `day`, and not at all otherwise. */
  lemma OnDayCounts(rows: seq<VisitRecord>, day: Date, v: VisitRecord)
    ensures multiset(OnDay(rows, day))[v] == if v.visitDate == day then multiset(rows)[v] else 0
  {
    FilterCounts(rows, (v: VisitRecord) => v.visitDate == day, v);
  }

  /** `whereDate('visit_date', today())->count()`. */
  function TodayVisitors(rows: seq<VisitRecord>, today: Date): (n: nat)
    ensures n <= TotalVisitors(rows)
  {
    |OnDay(rows, today)|
  }

  /** Today's distinct addresses; never more than today's visits. */
  function TodayUniqueVisitors(rows: seq<VisitRecord>, today: Date): (n: nat)
    ensures n <= TodayVisitors(rows, today)
    ensures n <= UniqueVisitors(rows)
  {
    DistinctAtMostTotal(OnDay(rows, today));
    assert Ips(OnDay(rows, today)) <= Ips(rows);
    assert |Ips(OnDay(rows, today))| <= |Ips(rows)| by {
      SubsetCardinality(Ips(OnDay(rows, today)), Ips(rows));
    }
    |Ips(OnDay(rows, today))|
  }

  lemma SubsetCardinality(a: set<string>, b: set<string>)
    requires a <= b
    ensures |a| <= |b|
  {
    assert b == a + (b - a);
  }

  /** `whereBetween('visit_date', [startOfWeek, endOfWeek])->count()`:
      the week is the seven days from `weekStart`, the first day of the
      week that holds `today`. */
  function ThisWeekVisitors(rows: seq<VisitRecord>, today: Date, weekStart: Date): (n: nat)
    requires weekStart <= today <= weekStart + 6
    ensures n <= TotalVisitors(rows)
    ensures TodayVisitors(rows, today) <= n
  {
    var p := (v: VisitRecord) => weekStart <= v.visitDate <= weekStart + 6;
    FilterImplies(rows, (v: VisitRecord) => v.visitDate == today, p);
    |Filter(rows, p)|
  }

  /** Rows dated in the `k` days from `from`. */
  function DaySum(rows: seq<VisitRecord>, from: Date, k: nat): nat
    decreases k
  {
    if k == 0 then 0 else CountOn(rows, from) + DaySum(rows, from + 1, k - 1)
  }

  function InDays(from: Date, k: nat): VisitRecord -> bool
  {
    (v: VisitRecord) => from <= v.visitDate < from + k
  }

  /** Counting a range of days at once equals adding up the days. */
  lemma {:induction false} RangeCount(rows: seq<VisitRecord>, from: Date, k: nat)
    ensures |Filter(rows, InDays(from, k))| == DaySum(rows, from, k)
    decreases k
  {
    if k == 0 {
    } else {
      RangeCount(rows, from + 1, k - 1);
      FilterSplit(rows, InDays(from, k), (v: VisitRecord) => v.visitDate == from, InDays(from + 1, k - 1));
    }
  }

  /** The week's count is the sum of the daily counts of its seven days,
      so the dashboard's week figure agrees with the chart of its days. */
  lemma ThisWeekIsSevenDays(rows: seq<VisitRecord>, today: Date, weekStart: Date)
    requires weekStart <= today <= weekStart + 6
    ensures ThisWeekVisitors(rows, today, weekStart) == DaySum(rows, weekStart, 7)
  {
    FilterSame(rows, (v: VisitRecord) => weekStart <= v.visitDate <= weekStart + 6, InDays(weekStart, 7));
    RangeCount(rows, weekStart, 7);
  }

  /** `whereMonth(...)->whereYear(...)->count()`; `yearMonth` maps a day
      to its calendar year and month. */
  function ThisMonthVisitors(rows: seq<VisitRecord>, today: Date, yearMonth: Date -> (int, int)): (n: nat)
    ensures n <= TotalVisitors(rows)
    ensures TodayVisitors(rows, today) <= n
  {
    var p := (v: VisitRecord) => yearMonth(v.visitDate) == yearMonth(today);
    FilterImplies(rows, (v: VisitRecord) => v.visitDate == today, p);
    |Filter(rows, p)|
  }

  /** A weaker filter keeps at least as many rows. */
  lemma {:induction false} FilterImplies<T>(xs: seq<T>, p: T -> bool, q: T -> bool)
    requires forall x :: p(x) ==> q(x)
    ensures |Filter(xs, p)| <= |Filter(xs, q)|
  {
    if xs != [] {
      FilterImplies(xs[1..], p, q);
    }
  }

  /** Number of rows dated `day`. */
  function CountOn(rows: seq<VisitRecord>, day: Date): nat
  {
    |OnDay(rows, day)|
  }

  /** The first day counted by `getVisitorsByDay(n)`: a date counts when its
      midnight is not before the instant `now - n days`, so the boundary
      day counts only when the clock stands exactly at midnight. */
  function FirstCountedDay(today: Date, days: int, atMidnight: bool): Date
  {
    if atMidnight then today - days else today - days + 1
  }

  function LatestDate(rows: seq<VisitRecord>, floor: Date): (d: Date)
    ensures d >= floor
    ensures forall i :: 0 <= i < |rows| ==> rows[i].visitDate <= d
  {
    if rows == [] then floor
    else
      var rest := LatestDate(rows[1..], floor);
      if rows[0].visitDate > rest then rows[0].visitDate else rest
  }

  /** Strictly ascending by date. */
  predicate Ascending(s: seq<(Date, nat)>)
  {
    forall i, j :: 0 <= i < j < |s| ==> s[i].0 < s[j].0
  }

  /** The days from `from` to `upto` whose `count` is positive, with
      their counts, ascending. */
  function DaysWithVisits(count: Date -> nat, from: Date, upto: Date): (s: seq<(Date, nat)>)
    ensures Ascending(s)
    ensures forall i :: 0 <= i < |s| ==> from <= s[i].0 <= upto && s[i].1 == count(s[i].0) && s[i].1 > 0
    decreases upto - from
  {
    if from > upto then []
    else
      var rest := DaysWithVisits(count, from + 1, upto);
      if count(from) > 0 then [(from, count(from))] + rest else rest
  }

  /** Every day of the range with a positive count is listed. */
  lemma {:induction false} DaysWithVisitsComplete(count: Date -> nat, from: Date, upto: Date, d: Date)
    requires from <= d <= upto && count(d) > 0
    ensures d in Keys(DaysWithVisits(count, from, upto))
    decreases upto - from
  {
    var s := DaysWithVisits(count, from, upto);
    if d == from {
      assert s[0].0 == d;
    } else {
      DaysWithVisitsComplete(count, from + 1, upto, d);
      var rest := DaysWithVisits(count, from + 1, upto);
      var k :| 0 <= k < |rest| && rest[k].0 == d;
      if count(from) > 0 {
        assert s[k + 1] == rest[k];
      }
    }
  }

  /** `getVisitorsByDay(n)`: the dates since `now - n days` on which there
      were visits, ascending, each with its number of visits. */
  function VisitorsByDay(rows: seq<VisitRecord>, today: Date, days: int, atMidnight: bool): (s: seq<(Date, nat)>)
    ensures Ascending(s)
    ensures forall i :: 0 <= i < |s| ==> s[i].0 >= FirstCountedDay(today, days, atMidnight) && s[i].1 == CountOn(rows, s[i].0) && s[i].1 > 0
    ensures forall i :: 0 <= i < |rows| && rows[i].visitDate >= FirstCountedDay(today, days, atMidnight) ==> rows[i].visitDate in Keys(s)
  {
    var first := FirstCountedDay(today, days, atMidnight);
    var last := LatestDate(rows, first);
    var s := DaysWithVisits(d => CountOn(rows, d), first, last);
    forall i | 0 <= i < |rows| && rows[i].visitDate >= first
      ensures rows[i].visitDate in Keys(s)
    {
      assert rows[i] in OnDay(rows, rows[i].visitDate);
      DaysWithVisitsComplete(d => CountOn(rows, d), first, last, rows[i].visitDate);
    }
    s
  }

  function Pages(rows: seq<VisitRecord>): (ps: seq<string>)
    ensures |ps| == |rows| && forall i :: 0 <= i < |rows| ==> ps[i] == rows[i].pageVisited
  {
    seq(|rows|, i requires 0 <= i < |rows| => rows[i].pageVisited)
  }

  /** `getTopPages(limit)`: at most `limit` distinct pages, most visited
      first, each with its number of visits. */
  function TopPages(rows: seq<VisitRecord>, limit: nat): (s: seq<(string, nat)>)
    ensures |s| <= limit
    ensures |s| == limit || forall i :: 0 <= i < |rows| ==> rows[i].pageVisited in Keys(s)
    ensures NoDuplicates(Keys(s))
    ensures forall i :: 0 <= i < |s| ==> s[i].0 in Pages(rows) && s[i].1 == multiset(Pages(rows))[s[i].0] && s[i].1 > 0
    ensures forall i, j :: 0 <= i < j < |s| ==> s[i].1 >= s[j].1
    ensures forall i, p :: 0 <= i < |s| && p in Pages(rows) && p !in Keys(s) ==> multiset(Pages(rows))[p] <= s[i].1
  {
    var s := TopByCount(Pages(rows), limit);
    assert |s| == limit || forall i :: 0 <= i < |rows| ==> rows[i].pageVisited in Keys(s) by {
      forall i | 0 <= i < |rows| && |s| != limit ensures rows[i].pageVisited in Keys(s) {
        assert Pages(rows)[i] == rows[i].pageVisited;
      }
    }
    s
  }

  /** The non-null values of a nullable column, in row order. */
  function NonNull<T>(xs: seq<Option<T>>): (r: seq<T>)
    ensures |r| <= |xs|
  {
    if xs == [] then []
    else
      assert xs == [xs[0]] + xs[1..];
      (if xs[0].Some? then [xs[0].value] else []) + NonNull(xs[1..])
  }

  /** There are as many non-null values as rows that have one. */
  lemma {:induction false} NonNullLength<T>(xs: seq<Option<T>>)
    ensures |NonNull(xs)| == |Filter(xs, (o: Option<T>) => o.Some?)|
  {
    if xs != [] {
      NonNullLength(xs[1..]);
    }
  }

  /** Each value occurs among the non-null values as often as the column
      holds it. */
  lemma {:induction false} NonNullCounts<T>(xs: seq<Option<T>>, v: T)
    ensures multiset(NonNull(xs))[v] == multiset(xs)[Some(v)]
  {
    if xs != [] {
      var x, t := xs[0], xs[1..];
      NonNullCounts(t, v);
      assert xs == [x] + t;
      assert multiset(xs) == multiset([x]) + multiset(t);
      var h: seq<T> := if x.Some? then [x.value] else [];
      assert NonNull(xs) == h + NonNull(t);
      assert multiset(NonNull(xs)) == multiset(h) + multiset(NonNull(t));
      assert multiset(h)[v] == multiset([x])[Some(v)];
    }
  }



  function Devices(rows: seq<VisitRecord>): (ds: seq<Option<string>>)
    ensures |ds| == |rows| && forall i :: 0 <= i < |rows| ==> ds[i] == rows[i].deviceType
  {
    seq(|rows|, i requires 0 <= i < |rows| => rows[i].deviceType)
  }

  function Browsers(rows: seq<VisitRecord>): (bs: seq<Option<string>>)
    ensures |bs| == |rows| && forall i :: 0 <= i < |rows| ==> bs[i] == rows[i].browser
  {
    seq(|rows|, i requires 0 <= i < |rows| => rows[i].browser)
  }

  /** Values that cover the non-null values cover every present value of
      the column. */
  lemma CoveredThroughNonNull(xs: seq<Option<string>>, ks: seq<string>)
    requires forall j :: 0 <= j < |NonNull(xs)| ==> NonNull(xs)[j] in ks
    ensures forall i :: 0 <= i < |xs| && xs[i].Some? ==> xs[i].value in ks
  {
    forall i | 0 <= i < |xs| && xs[i].Some? ensures xs[i].value in ks {
      NonNullCounts(xs, xs[i].value);
      assert xs[i] in multiset(xs);
      assert xs[i].value in multiset(NonNull(xs));
      var k :| 0 <= k < |NonNull(xs)| && NonNull(xs)[k] == xs[i].value;
    }
  }

  /** Counts taken over the non-null values are counts of the column. */
  lemma CountsThroughNonNull(xs: seq<Option<string>>, s: seq<(string, nat)>)
    requires forall i :: 0 <= i < |s| ==> s[i].1 == multiset(NonNull(xs))[s[i].0]
    ensures forall i :: 0 <= i < |s| ==> s[i].1 == multiset(xs)[Some(s[i].0)]
  {
    forall i | 0 <= i < |s| ensures s[i].1 == multiset(xs)[Some(s[i].0)] {
      NonNullCounts(xs, s[i].0);
    }
  }

  /** A value ranked no higher than the kept ones among the non-null values
      is ranked so in the column. */
  lemma RankThroughNonNull(xs: seq<Option<string>>, s: seq<(string, nat)>)
    requires forall i, x :: 0 <= i < |s| && x in NonNull(xs) && x !in Keys(s) ==> multiset(NonNull(xs))[x] <= s[i].1
    ensures forall i, b :: 0 <= i < |s| && Some(b) in xs && b !in Keys(s) ==> multiset(xs)[Some(b)] <= s[i].1
  {
    forall i, b | 0 <= i < |s| && Some(b) in xs && b !in Keys(s)
      ensures multiset(xs)[Some(b)] <= s[i].1
    {
      NonNullCounts(xs, b);
      assert Some(b) in multiset(xs);
      assert b in multiset(NonNull(xs));
    }
  }

  /** `getDeviceBreakdown()`: one entry per non-null device type, with its
      number of visits; the counts add up to the rows that name a device. */
  function DeviceBreakdown(rows: seq<VisitRecord>): (s: seq<(string, nat)>)
    ensures NoDuplicates(Keys(s))
    ensures forall i :: 0 <= i < |s| ==> Some(s[i].0) in Devices(rows) && s[i].1 > 0
    ensures forall i :: 0 <= i < |rows| && rows[i].deviceType.Some? ==> rows[i].deviceType.value in Keys(s)
    ensures SumCounts(s) == |Filter(Devices(rows), (o: Option<string>) => o.Some?)|
    ensures forall i :: 0 <= i < |s| ==> s[i].1 == multiset(Devices(rows))[Some(s[i].0)]
  {
    var ds := NonNull(Devices(rows));
    NonNullLength(Devices(rows));
    var s := GroupCount(ds);
    CountsThroughNonNull(Devices(rows), s);
    CoveredThroughNonNull(Devices(rows), Keys(s));
    forall i | 0 <= i < |s| ensures Some(s[i].0) in Devices(rows) {
      assert Some(s[i].0) in multiset(Devices(rows));
    }
    forall i | 0 <= i < |rows| && rows[i].deviceType.Some?
      ensures rows[i].deviceType.value in Keys(s)
    {
      assert Devices(rows)[i] == rows[i].deviceType;
    }
    s
  }

  /** `getBrowserBreakdown()`: the five most frequent non-null browsers,
      most frequent first. */
  function BrowserBreakdown(rows: seq<VisitRecord>): (s: seq<(string, nat)>)
    ensures |s| <= 5
    ensures |s| == 5 || forall i :: 0 <= i < |rows| && rows[i].browser.Some? ==> rows[i].browser.value in Keys(s)
    ensures NoDuplicates(Keys(s))
    ensures forall i :: 0 <= i < |s| ==> Some(s[i].0) in Browsers(rows) && s[i].1 > 0
    ensures forall i :: 0 <= i < |s| ==> s[i].1 == multiset(Browsers(rows))[Some(s[i].0)]
    ensures forall i, j :: 0 <= i < j < |s| ==> s[i].1 >= s[j].1
    ensures forall i, b :: 0 <= i < |s| && Some(b) in Browsers(rows) && b !in Keys(s) ==>
      multiset(Browsers(rows))[Some(b)] <= s[i].1
  {
    var bs := NonNull(Browsers(rows));
    var s := TopByCount(bs, 5);
    CountsThroughNonNull(Browsers(rows), s);
    RankThroughNonNull(Browsers(rows), s);
    forall i | 0 <= i < |s| ensures Some(s[i].0) in Browsers(rows) {
      assert Some(s[i].0) in multiset(Browsers(rows));
    }
    assert |s| == 5 || forall i :: 0 <= i < |rows| && rows[i].browser.Some? ==> rows[i].browser.value in Keys(s) by {
      if |s| != 5 {
        assert forall j :: 0 <= j < |bs| ==> bs[j] in Keys(s);
        CoveredThroughNonNull(Browsers(rows), Keys(s));
        forall i | 0 <= i < |rows| && rows[i].browser.Some?
          ensures rows[i].browser.value in Keys(s)
        {
          assert Browsers(rows)[i] == rows[i].browser;
        }
      }
    }
    s
  }
}
