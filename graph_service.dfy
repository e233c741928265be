/**
 * `GraphService` (communicator/services/graph_service.py): a filter set over the Sample
 * table and the grouped counts the dashboard charts are drawn from.
 */
module Graphs {
  import opened Wrappers
  import opened Text
  import opened Clock
  import opened SampleModel
  import opened Counting
  import opened Filters
  import opened GraphHelpers

  /** A place samples are taken: a location and, in the per-station charts, a station. */
  datatype Site = Site(location: int, station: Option<int>)

  /** GROUP BY location, or GROUP BY location and station. */
  datatype Grouping = ByLocation | ByStation

  function SiteOf(g: Grouping, r: SampleRow): Site {
    match g
    case ByLocation => Site(r.location, None)
    case ByStation => Site(r.location, r.station)
  }

  /** The condition of one `count(case when ... then 1 end)` column. */
  datatype Case = Between(lo: int, hi: int) | HourIs(hour: int) | DowIs(dow: int)

  predicate CaseHolds(c: Case, r: SampleRow) {
    match c
    case Between(lo, hi) => lo <= r.date <= hi
    case HourIs(h) => HourOf(r.date) == h
    case DowIs(d) => SqlDow(r.date) == d
  }

  /** One group's count columns: for each case, the rows of the group that satisfy it. */
  function Tally(rows: seq<SampleRow>, g: Grouping, site: Site, cases: seq<Case>): (t: seq<int>)
    ensures |t| == |cases|
  {
    seq(|cases|, i requires 0 <= i < |cases| => Count(rows, r => SiteOf(g, r) == site && CaseHolds(cases[i], r)))
  }

  /** Some row is at the site. */
  predicate Present(rows: seq<SampleRow>, g: Grouping, site: Site) {
    exists i :: 0 <= i < |rows| && SiteOf(g, rows[i]) == site
  }

  /** The groups of a GROUP BY, each once. */
  function Sites(rows: seq<SampleRow>, g: Grouping): (s: seq<Site>)
    ensures forall j, k :: 0 <= j < k < |s| ==> s[j] != s[k]
    ensures forall site :: site in s <==> Present(rows, g, site)
  {
    var ks := Keys(rows, r => SiteOf(g, r));
    var d := Distinct(ks);
    assert forall site :: site in d ==> Present(rows, g, site) by {
      forall site | site in d ensures Present(rows, g, site) {
        var j :| 0 <= j < |d| && d[j] == site;
        var i :| 0 <= i < |ks| && ks[i] == site;
      }
    }
    assert forall site :: Present(rows, g, site) ==> site in d by {
      forall site | Present(rows, g, site) ensures site in d {
        var i :| 0 <= i < |rows| && SiteOf(g, rows[i]) == site;
        assert ks[i] == site;
      }
    }
    d
  }

  /** A location's charts: station to count vector; the whole chart: location to that. */
  type Chart = map<int, map<Option<int>, seq<int>>>

  /** `data[location][station] = v`, creating the location's entry first when it is missing. */
  function Place(data: Chart, site: Site, v: seq<int>): Chart {
    var inner := if site.location in data then data[site.location] else map[];
    data[site.location := inner[site.station := v]]
  }

  /**
   * How a chart's loop turns a result row's counts into the stored vector: as counted, per
   * day of the search, or per day of each weekday in it. `start` is the search's first day and
   * `end` the day after its last.
   */
  datatype Rates = AsCounted | PerDay(start: int, end: int) | PerWeekday(start: int, end: int)

  /** The vector stored for one result row's counts. */
  function Rescale(counts: seq<int>, rates: Rates): seq<int> {
    match rates
    case AsCounted => counts
    case PerDay(start, end) => if |counts| == 24 && end - start != 0 then HourRates(counts, end - start) else []
    case PerWeekday(start, end) => if |counts| == 7 then WeekdayRates(counts, DowTable(start, end - 1)) else []
  }

  /** The chart after the loop has placed the first `n` result rows. */
  function ChartOf(res: seq<ResultRow>, n: nat, rates: Rates): Chart
    requires n <= |res|
  {
    if n == 0 then map[]
    else Place(ChartOf(res, n - 1, rates), res[n - 1].site, Rescale(res[n - 1].counts, rates))
  }

  /** The chart the loop builds from a whole grouped result. */
  function ResultChart(res: seq<ResultRow>, rates: Rates): Chart {
    ChartOf(res, |res|, rates)
  }

  /** The counts of the last of the first `n` result rows for the site: the one a chart keeps. */
  function CountsFor(res: seq<ResultRow>, n: nat, site: Site): seq<int>
    requires n <= |res|
  {
    if n == 0 then []
    else if res[n - 1].site == site then res[n - 1].counts
    else CountsFor(res, n - 1, site)
  }

  /** The groups of the first `n` result rows. */
  function Groups(res: seq<ResultRow>, n: nat): set<Site>
    requires n <= |res|
  {
    if n == 0 then {} else Groups(res, n - 1) + {res[n - 1].site}
  }

  /** The locations of the first `n` result rows. */
  function Locations(res: seq<ResultRow>, n: nat): set<int>
    requires n <= |res|
  {
    if n == 0 then {} else Locations(res, n - 1) + {res[n - 1].site.location}
  }

  lemma {:induction false} GroupsListed(res: seq<ResultRow>, n: nat, site: Site)
    requires n <= |res|
    ensures site in Groups(res, n) <==> exists j :: 0 <= j < n && res[j].site == site
  {
    if n > 0 {
      GroupsListed(res, n - 1, site);
    }
  }

  lemma {:induction false} LocationsListed(res: seq<ResultRow>, n: nat, l: int)
    requires n <= |res|
    ensures l in Locations(res, n) <==> exists j :: 0 <= j < n && res[j].site.location == l
  {
    if n > 0 {
      LocationsListed(res, n - 1, l);
    }
  }

  lemma {:induction false} GroupLocated(res: seq<ResultRow>, n: nat, site: Site)
    requires n <= |res| && site in Groups(res, n)
    ensures site.location in Locations(res, n)
  {
    if site != res[n - 1].site {
      GroupLocated(res, n - 1, site);
    }
  }

  /** The chart holds exactly the groups of the first `n` result rows, each with its vector. */
  ghost predicate PlacedUpTo(d: Chart, res: seq<ResultRow>, n: nat, rates: Rates)
    requires n <= |res|
  {
    && d.Keys == Locations(res, n)
    && (forall l, st :: l in d ==> (st in d[l] <==> Site(l, st) in Groups(res, n)))
    && (forall l, st :: l in d && st in d[l] ==> d[l][st] == Rescale(CountsFor(res, n, Site(l, st)), rates))
  }

  lemma PlaceStep(d: Chart, e: Chart, res: seq<ResultRow>, n: nat, rates: Rates)
    requires n < |res| && PlacedUpTo(d, res, n, rates)
    requires e == Place(d, res[n].site, Rescale(res[n].counts, rates))
    ensures PlacedUpTo(e, res, n + 1, rates)
  {
    var site := res[n].site;
    assert Groups(res, n + 1) == Groups(res, n) + {site};
    assert Locations(res, n + 1) == Locations(res, n) + {site.location};
    forall l, st | l in e ensures st in e[l] <==> Site(l, st) in Groups(res, n + 1) {
      if l != site.location {
        assert e[l] == d[l];
      } else if l !in d && Site(l, st) in Groups(res, n) {
        GroupLocated(res, n, Site(l, st));
      }
    }
    forall l, st | l in e && st in e[l]
      ensures e[l][st] == Rescale(CountsFor(res, n + 1, Site(l, st)), rates)
    {
      if Site(l, st) != site {
        assert l in d && st in d[l];
        assert CountsFor(res, n + 1, Site(l, st)) == CountsFor(res, n, Site(l, st));
      }
    }
  }

  /** The loop's partial chart holds exactly the first `n` groups, each with its vector. */
  lemma {:induction false} ChartOfShape(res: seq<ResultRow>, n: nat, rates: Rates)
    requires n <= |res|
    ensures PlacedUpTo(ChartOf(res, n, rates), res, n, rates)
  {
    if n > 0 {
      ChartOfShape(res, n - 1, rates);
      PlaceStep(ChartOf(res, n - 1, rates), ChartOf(res, n, rates), res, n - 1, rates);
    }
  }

  /** When every result row carries its own group's tally, the kept counts of a listed group are its tally. */
  lemma {:induction false} CountsForTally(res: seq<ResultRow>, n: nat, rows: seq<SampleRow>, g: Grouping,
                                          cases: seq<Case>, site: Site)
    requires n <= |res|
    requires forall j :: 0 <= j < |res| ==> res[j].counts == Tally(rows, g, res[j].site, cases)
    requires exists j :: 0 <= j < n && res[j].site == site
    ensures CountsFor(res, n, site) == Tally(rows, g, site, cases)
  {
    if res[n - 1].site != site {
      CountsForTally(res, n - 1, rows, g, cases, site);
    }
  }

  /** The chart of a whole grouped query: one entry per group some row is at, holding its rescaled counts. */
  ghost predicate Charted(data: Chart, rows: seq<SampleRow>, g: Grouping, cases: seq<Case>, rates: Rates) {
    && (forall l, st :: l in data && st in data[l] <==> Present(rows, g, Site(l, st)))
    && (forall l :: l in data <==> exists st :: Present(rows, g, Site(l, st)))
    && (forall l, st :: l in data && st in data[l] ==>
          data[l][st] == Rescale(Tally(rows, g, Site(l, st), cases), rates))
  }

  /** A group is charted exactly when some row is at it. */
  lemma ChartedGroups(rows: seq<SampleRow>, g: Grouping, cases: seq<Case>, rates: Rates, l: int, st: Option<int>)
    ensures var data := ResultChart(GroupQuery(rows, g, cases), rates);
      l in data && st in data[l] <==> Present(rows, g, Site(l, st))
  {
    var res := GroupQuery(rows, g, cases);
    var n := |res|;
    var s := Sites(rows, g);
    var data := ResultChart(res, rates);
    ChartOfShape(res, n, rates);
    GroupsListed(res, n, Site(l, st));
    if Present(rows, g, Site(l, st)) {
      assert Site(l, st) in s;
      var j :| 0 <= j < |s| && s[j] == Site(l, st);
      assert res[j].site == Site(l, st);
      GroupLocated(res, n, Site(l, st));
    }
    if l in data && st in data[l] {
      var j :| 0 <= j < n && res[j].site == Site(l, st);
      assert s[j] in s;
    }
  }

  /** Every location of a chart holds at least one station. */
  lemma ChartLocationsOccupied(res: seq<ResultRow>, rates: Rates, l: int)
    requires l in ResultChart(res, rates)
    ensures exists st :: st in ResultChart(res, rates)[l]
  {
    var n := |res|;
    ChartOfShape(res, n, rates);
    LocationsListed(res, n, l);
    var j :| 0 <= j < n && res[j].site.location == l;
    GroupsListed(res, n, res[j].site);
    assert res[j].site.station in ResultChart(res, rates)[l];
  }

  /** A location is charted exactly when some row is at it. */
  lemma ChartedLocations(rows: seq<SampleRow>, g: Grouping, cases: seq<Case>, rates: Rates, l: int)
    ensures var data := ResultChart(GroupQuery(rows, g, cases), rates);
      l in data <==> exists st :: Present(rows, g, Site(l, st))
  {
    var data := ResultChart(GroupQuery(rows, g, cases), rates);
    if l in data {
      ChartLocationsOccupied(GroupQuery(rows, g, cases), rates, l);
      var st :| st in data[l];
      ChartedGroups(rows, g, cases, rates, l, st);
    }
    if exists st :: Present(rows, g, Site(l, st)) {
      var st :| Present(rows, g, Site(l, st));
      ChartedGroups(rows, g, cases, rates, l, st);
    }
  }

  /** A charted group holds its own tally, rescaled. */
  lemma ChartedValue(rows: seq<SampleRow>, g: Grouping, cases: seq<Case>, rates: Rates, l: int, st: Option<int>)
    requires var data := ResultChart(GroupQuery(rows, g, cases), rates); l in data && st in data[l]
    ensures ResultChart(GroupQuery(rows, g, cases), rates)[l][st] == Rescale(Tally(rows, g, Site(l, st), cases), rates)
  {
    var res := GroupQuery(rows, g, cases);
    ChartOfShape(res, |res|, rates);
    GroupsListed(res, |res|, Site(l, st));
    CountsForTally(res, |res|, rows, g, cases, Site(l, st));
  }

  /** The loop's chart over a grouped query is that query's chart. */
  lemma ResultChartCharted(rows: seq<SampleRow>, g: Grouping, cases: seq<Case>, rates: Rates)
    ensures Charted(ResultChart(GroupQuery(rows, g, cases), rates), rows, g, cases, rates)
  {
    var data := ResultChart(GroupQuery(rows, g, cases), rates);
    forall l, st ensures l in data && st in data[l] <==> Present(rows, g, Site(l, st)) {
      ChartedGroups(rows, g, cases, rates, l, st);
    }
    forall l ensures l in data <==> exists st :: Present(rows, g, Site(l, st)) {
      ChartedLocations(rows, g, cases, rates, l);
    }
    forall l, st | l in data && st in data[l]
      ensures data[l][st] == Rescale(Tally(rows, g, Site(l, st), cases), rates)
    {
      ChartedValue(rows, g, cases, rates, l, st);
    }
  }

  /** A value of the `filters` argument of `update_search_filters`, as the callers build it. */
  datatype FilterArg = Text(s: string) | WordList(words: seq<string>) | NumberList(numbers: seq<int>) | Day(day: int)

  /** The four list filters, in the order `update_search_filters` sets them. */
  const ListKeys: seq<string> := ["student_id", "location", "station", "compute_id"]

  function ListFilter(key: string, words: seq<string>): Filter {
    if key == "student_id" then StudentIdIn(words)
    else if key == "location" then LocationIn(words)
    else if key == "station" then StationIn(words)
    else ComputingIdIn(words)
  }

  /** `arg.split()` as the code calls it: only a string can be split; anything else raises. */
  function SplitAsWritten(a: FilterArg): Option<seq<string>> {
    if a.Text? then Some(Words(a.s)) else None
  }

  /** The reading the callers evidently rely on: a list is used as it is, a string is split. */
  function SplitLists(a: FilterArg): Option<seq<string>> {
    match a
    case Text(s) => Some(Words(s))
    case WordList(ws) => Some(ws)
    case NumberList(ns) => Some(IntWords(ns))
    case Day(_) => None
  }

  /** A number list written back as decimal literals, one per number. */
  function IntWords(ns: seq<int>): (ws: seq<string>)
    ensures |ws| == |ns| && forall i :: 0 <= i < |ns| ==> ws[i] == IntToString(ns[i])
  {
    seq(|ns|, i requires 0 <= i < |ns| => IntToString(ns[i]))
  }

  /** How many list steps run before one raises (4 when none does); later steps are then skipped. */
  function Completed(args: map<string, FilterArg>, split: FilterArg -> Option<seq<string>>): (n: nat)
    ensures n <= 4
    ensures forall j :: 0 <= j < n && ListKeys[j] in args ==> split(args[ListKeys[j]]).Some?
    ensures n < 4 ==> ListKeys[n] in args && split(args[ListKeys[n]]).None?
  {
    if ListKeys[0] in args && split(args[ListKeys[0]]).None? then 0
    else if ListKeys[1] in args && split(args[ListKeys[1]]).None? then 1
    else if ListKeys[2] in args && split(args[ListKeys[2]]).None? then 2
    else if ListKeys[3] in args && split(args[ListKeys[3]]).None? then 3
    else 4
  }

  /** The date arguments are calendar days, as every caller passes them. */
  predicate DatesAreDays(args: map<string, FilterArg>) {
    && ("start_date" in args ==> args["start_date"].Day?)
    && ("end_date" in args ==> args["end_date"].Day?)
  }

  /** The filters after the first `n` list steps. */
  function ApplyListArgs(f: map<string, Filter>, args: map<string, FilterArg>,
                         split: FilterArg -> Option<seq<string>>, n: nat): map<string, Filter>
    requires n <= 4
  {
    if n == 0 then f
    else
      var g := ApplyListArgs(f, args, split, n - 1);
      var key := ListKeys[n - 1];
      if key in args && split(args[key]).Some? then g[key := ListFilter(key, split(args[key]).value)] else g
  }

  /** The filters after `update_search_filters(args)`. */
  function UpdatedFilters(f: map<string, Filter>, args: map<string, FilterArg>,
                          split: FilterArg -> Option<seq<string>>): map<string, Filter>
    requires DatesAreDays(args)
  {
    var n := Completed(args, split);
    var g := ApplyListArgs(f, args, split, n);
    if n < 4 then g
    else
      var g1 := if "start_date" in args then g["start_date" := DateFrom(args["start_date"].day)] else g;
      var g2 := if "end_date" in args then g1["end_date" := DateUntil(args["end_date"].day)] else g1;
      if "include_tests" !in args then g2["include_tests" := StudentIdNotZero] else g2 - {"include_tests"}
  }

  /** The stored bound after `update_search_filters(args)`, for `key` "start_date" or "end_date". */
  function UpdatedBound(bound: int, key: string, args: map<string, FilterArg>,
                        split: FilterArg -> Option<seq<string>>): int
    requires DatesAreDays(args) && (key == "start_date" || key == "end_date")
  {
    if Completed(args, split) == 4 && key in args then args[key].day else bound
  }

  /** Each list step that runs replaces that list filter with the split argument. */
  lemma {:induction false} ListArgsSet(f: map<string, Filter>, args: map<string, FilterArg>,
                                       split: FilterArg -> Option<seq<string>>, n: nat, j: nat)
    requires n <= Completed(args, split) && j < n && ListKeys[j] in args
    ensures var g := ApplyListArgs(f, args, split, n);
      ListKeys[j] in g && g[ListKeys[j]] == ListFilter(ListKeys[j], split(args[ListKeys[j]]).value)
    decreases n
  {
    if j < n - 1 {
      ListArgsSet(f, args, split, n - 1, j);
    }
  }

  /** The list steps leave every other key as it was. */
  lemma {:induction false} ListArgsKeep(f: map<string, Filter>, args: map<string, FilterArg>,
                                        split: FilterArg -> Option<seq<string>>, n: nat, k: string)
    requires n <= 4 && forall j :: 0 <= j < n ==> ListKeys[j] != k
    ensures var g := ApplyListArgs(f, args, split, n); (k in g <==> k in f) && (k in g ==> g[k] == f[k])
    decreases n
  {
    if n > 0 {
      ListArgsKeep(f, args, split, n - 1, k);
    }
  }

  /** Every list step that ran leaves its filter set from the split argument. */
  lemma UpdatedListFilters(f: map<string, Filter>, args: map<string, FilterArg>,
                           split: FilterArg -> Option<seq<string>>)
    requires DatesAreDays(args)
    ensures var g, n := UpdatedFilters(f, args, split), Completed(args, split);
      forall j :: 0 <= j < n && ListKeys[j] in args ==>
        ListKeys[j] in g && g[ListKeys[j]] == ListFilter(ListKeys[j], split(args[ListKeys[j]]).value)
  {
    var n := Completed(args, split);
    var h := ApplyListArgs(f, args, split, n);
    forall j | 0 <= j < n && ListKeys[j] in args
      ensures ListKeys[j] in h && h[ListKeys[j]] == ListFilter(ListKeys[j], split(args[ListKeys[j]]).value)
    {
      ListArgsSet(f, args, split, n, j);
    }
    if n == 4 {
      forall j | 0 <= j < 4 && ListKeys[j] in args
        ensures ListKeys[j] in UpdatedFilters(f, args, split)
      {
        assert ListKeys[j] in h;
      }
    }
  }

  /**
   * When no list step raised, the date filters and `include_tests` are set from the
   * arguments: a date given sets its bound, and `include_tests` given drops the
   * test-sample filter while its absence installs it.
   */
  lemma UpdatedDateFilters(f: map<string, Filter>, args: map<string, FilterArg>,
                           split: FilterArg -> Option<seq<string>>)
    requires DatesAreDays(args) && Completed(args, split) == 4
    ensures var g := UpdatedFilters(f, args, split);
      && ("start_date" in args ==> "start_date" in g && g["start_date"] == DateFrom(args["start_date"].day))
      && ("end_date" in args ==> "end_date" in g && g["end_date"] == DateUntil(args["end_date"].day))
      && ("include_tests" in args ==> "include_tests" !in g)
      && ("include_tests" !in args ==> "include_tests" in g && g["include_tests"] == StudentIdNotZero)
  {
  }

  /**
   * Filters under other keys are untouched; when a list step raised, nothing but the
   * list filters changed.
   */
  lemma UpdatedKeepsOthers(f: map<string, Filter>, args: map<string, FilterArg>,
                           split: FilterArg -> Option<seq<string>>)
    requires DatesAreDays(args)
    ensures var g, n := UpdatedFilters(f, args, split), Completed(args, split);
      && (forall k :: k in f && k !in ListKeys && k != "start_date" && k != "end_date" && k != "include_tests" ==>
            k in g && g[k] == f[k])
      && (n < 4 ==> forall k :: k !in ListKeys ==> (k in g <==> k in f) && (k in g ==> g[k] == f[k]))
  {
    var n := Completed(args, split);
    forall k | k !in ListKeys
      ensures var h := ApplyListArgs(f, args, split, n); (k in h <==> k in f) && (k in h ==> h[k] == f[k])
    {
      ListArgsKeep(f, args, split, n, k);
    }
  }

  /**
   * A query extended by exactly the filters under the keys not skipped, each at least once,
   * admits a row iff the original query does and the row passes all those filters.
   */
  lemma AppliedAdmits(query: Query, q: Query, fs: map<string, Filter>, ignoreDates: bool)
    requires |q| >= |query| && q[..|query|] == query
    requires forall i :: |query| <= i < |q| ==> Applied(q[i], fs, ignoreDates)
    requires forall k :: k in fs && !Skipped(k, ignoreDates) ==> fs[k] in q[|query|..]
    ensures forall r :: Admits(q, r) <==> Admits(query, r) && PassesAll(fs, ignoreDates, r)
  {
    forall r ensures Admits(q, r) <==> Admits(query, r) && PassesAll(fs, ignoreDates, r) {
      if Admits(q, r) {
        forall i | 0 <= i < |query| ensures Matches(query[i], r) {
          assert q[i] == query[i];
        }
        forall k | k in fs && !Skipped(k, ignoreDates) ensures Matches(fs[k], r) {
          var i :| 0 <= i < |q[|query|..]| && q[|query|..][i] == fs[k];
          assert q[|query| + i] == fs[k];
        }
      }
      if Admits(query, r) && PassesAll(fs, ignoreDates, r) {
        forall i | 0 <= i < |q| ensures Matches(q[i], r) {
          if i < |query| {
            assert q[i] == query[i];
          } else {
            assert Applied(q[i], fs, ignoreDates);
            var k :| k in fs && !Skipped(k, ignoreDates) && fs[k] == q[i];
          }
        }
      }
    }
  }

  /** The three window counts of `get_totals_last_week` for one location. */
  datatype WindowCounts = WindowCounts(twoWeekAgo: int, oneWeekAgo: int, search: int)

  /** Rows of one location dated within [from, to], both days taken at midnight. */
  function WindowCount(rows: seq<SampleRow>, location: int, from: int, to: int): nat {
    Count(rows, (r: SampleRow) => r.location == location && Midnight(from) <= r.date <= Midnight(to))
  }

  /** One row of a grouped query: the group and its count columns. */
  datatype ResultRow = ResultRow(site: Site, counts: seq<int>)

  /** The result of `query(location[, station], *cases).group_by(...)` over the filtered rows. */
  function GroupQuery(rows: seq<SampleRow>, g: Grouping, cases: seq<Case>): (res: seq<ResultRow>)
    ensures |res| == |Sites(rows, g)|
    ensures forall j :: 0 <= j < |res| ==>
      res[j].site == Sites(rows, g)[j] && res[j].counts == Tally(rows, g, res[j].site, cases)
  {
    var s := Sites(rows, g);
    seq(|s|, j requires 0 <= j < |s| => ResultRow(s[j], Tally(rows, g, s[j], cases)))
  }

  /** The day buckets of [start, end): day i runs from its midnight to the next, both included. */
  function DayCases(start: int, end: int): (cases: seq<Case>)
    ensures |cases| == if end > start then end - start else 0
  {
    seq(if end > start then end - start else 0,
        i requires 0 <= i => Between(Midnight(start + i), Midnight(start + i + 1)))
  }

  /** The 24 `extract('hour', date) == i` columns. */
  function HourCases(): (c: seq<Case>)
    ensures |c| == 24
  {
    seq(24, i => HourIs(i))
  }

  /** Hourly counts shifted by six hours, each averaged over the days. */
  function HourRates(raw: seq<int>, days: int): (v: seq<int>)
    requires |raw| == 24 && days != 0
    ensures |v| == 24
  {
    var counts := Rotate(raw, 6);
    seq(24, j requires 0 <= j < 24 => RoundRate(counts[j], days))
  }

  /** The 7 `extract('dow', date) == i` columns, Sunday first. */
  function DowCases(): (c: seq<Case>)
    ensures |c| == 7
  {
    seq(7, i => DowIs(i))
  }

  /** Each weekday total over the number of such days, or as is when there are none. */
  function WeekdayRates(raw: seq<int>, dows: seq<int>): (v: seq<int>)
    requires |raw| == 7 && |dows| == 7
    ensures |v| == 7
  {
    seq(7, d requires 0 <= d < 7 => if dows[d] > 0 then RoundRate(raw[d], dows[d]) else raw[d])
  }

  /** The rows the query with these filters returns. */
  function Selected(filters: map<string, Filter>, rows: seq<SampleRow>, ignoreDates: bool): seq<SampleRow> {
    Where(rows, r => PassesAll(filters, ignoreDates, r))
  }

  /** Rows of the table the query admits are the rows that pass every applied filter. */
  lemma SelectedByQuery(rows: seq<SampleRow>, q: Query, filters: map<string, Filter>, ignoreDates: bool)
    requires forall r :: Admits(q, r) <==> Admits([], r) && PassesAll(filters, ignoreDates, r)
    ensures Select(rows, q) == Where(rows, r => PassesAll(filters, ignoreDates, r))
  {
    WhereExt(rows, r => Admits(q, r), r => PassesAll(filters, ignoreDates, r));
  }

  class GraphService {
    var filters: map<string, Filter>
    var startDate: int
    var endDate: int

    /** The default window is today to tomorrow; `today` is the clock's date. */
    constructor (today: int)
      ensures filters == map["start_date" := DateFrom(today), "end_date" := DateUntil(today + 1)]
      ensures startDate == today && endDate == today + 1
    {
      filters := map["start_date" := DateFrom(today), "end_date" := DateUntil(today + 1)];
      startDate := today;
      endDate := today + 1;
    }

    /**
     * `apply_filters(query, ignore_dates)`: chain every filter, except those whose key
     * contains "date" when `ignore_dates` is set.
     */
    method ApplyFilters(query: Query, ignoreDates: bool) returns (q: Query)
      ensures |q| >= |query| && q[..|query|] == query
      ensures forall i :: |query| <= i < |q| ==> Applied(q[i], filters, ignoreDates)
      ensures forall k :: k in filters && !Skipped(k, ignoreDates) ==> filters[k] in q[|query|..]
      ensures forall r :: Admits(q, r) <==> Admits(query, r) && PassesAll(filters, ignoreDates, r)
    {
      var fs := filters;
      q := query;
      var todo := fs.Keys;
      ghost var keys: seq<string> := [];
      while todo != {}
        invariant todo <= fs.Keys
        invariant |q| == |query| + |keys| && q[..|query|] == query
        invariant forall i :: 0 <= i < |keys| ==>
          keys[i] in fs && !Skipped(keys[i], ignoreDates) && q[|query| + i] == fs[keys[i]]
        invariant forall k :: k in fs && k !in todo && !Skipped(k, ignoreDates) ==> fs[k] in q[|query|..]
        decreases |todo|
      {
        var key :| key in todo;
        if !Skipped(key, ignoreDates) {
          ghost var before := q;
          q := q + [fs[key]];
          keys := keys + [key];
          assert q[..|query|] == before[..|query|];
          assert q[|query|..] == before[|query|..] + [fs[key]];
        }
        todo := todo - {key};
      }
      assert fs == filters;
      forall i | |query| <= i < |q|
        ensures Applied(q[i], fs, ignoreDates)
      {
        assert keys[i - |query|] in fs && fs[keys[i - |query|]] == q[i];
      }
      AppliedAdmits(query, q, fs, ignoreDates);
    }

    /** One `if key in filters: self.filters[key] = ... .in_(filters[key].split())` step. */
    method SetListFilter(key: string, args: map<string, FilterArg>, split: FilterArg -> Option<seq<string>>)
      returns (raised: bool)
      modifies this`filters
      ensures raised <==> key in args && split(args[key]).None?
      ensures filters == if key in args && !raised then old(filters)[key := ListFilter(key, split(args[key]).value)]
                         else old(filters)
    {
      raised := false;
      if key in args {
        var words := split(args[key]);
        if words.None? {
          raised := true;
          return;
        }
        filters := filters[key := ListFilter(key, words.value)];
      }
    }

    /**
     * The four list steps of `update_search_filters`, in order, up to the first that raises:
     * returns how many ran to completion.
     */
    method SetListFilters(args: map<string, FilterArg>, split: FilterArg -> Option<seq<string>>)
      returns (n: nat)
      modifies this`filters
      ensures n == Completed(args, split)
      ensures filters == ApplyListArgs(old(filters), args, split, n)
    {
      ghost var f0 := filters;
      var raised := SetListFilter(ListKeys[0], args, split);
      if raised {
        return 0;
      }
      assert filters == ApplyListArgs(f0, args, split, 1);
      raised := SetListFilter(ListKeys[1], args, split);
      if raised {
        return 1;
      }
      assert filters == ApplyListArgs(f0, args, split, 2);
      raised := SetListFilter(ListKeys[2], args, split);
      if raised {
        return 2;
      }
      assert filters == ApplyListArgs(f0, args, split, 3);
      raised := SetListFilter(ListKeys[3], args, split);
      if raised {
        return 3;
      }
      return 4;
    }

    /**
     * `update_search_filters(filters)`: the list filters are replaced from the split
     * arguments, then the dates (filter and stored bound), then `include_tests`. A step
     * that raises ends the call (the exception is logged and swallowed) and the steps
     * after it do not run; `split` is how an argument is turned into a word list.
     */
    method UpdateSearchFilters(args: map<string, FilterArg>, split: FilterArg -> Option<seq<string>>)
      requires DatesAreDays(args)
      modifies this`filters, this`startDate, this`endDate
      ensures filters == UpdatedFilters(old(filters), args, split)
      ensures startDate == UpdatedBound(old(startDate), "start_date", args, split)
      ensures endDate == UpdatedBound(old(endDate), "end_date", args, split)
    {
      var n := SetListFilters(args, split);
      if n < 4 {
        return;
      }
      assert Completed(args, split) == 4;
      var g := filters;
      var g1 := if "start_date" in args then g["start_date" := DateFrom(args["start_date"].day)] else g;
      var g2 := if "end_date" in args then g1["end_date" := DateUntil(args["end_date"].day)] else g1;
      filters := if "include_tests" !in args then g2["include_tests" := StudentIdNotZero] else g2 - {"include_tests"};
      startDate := if "start_date" in args then args["start_date"].day else startDate;
      endDate := if "end_date" in args then args["end_date"].day else endDate;
    }

    /** Runs a query with the filters applied over the table: the rows it admits, in table order. */
    method RunQuery(rows: seq<SampleRow>, ignoreDates: bool) returns (sel: seq<SampleRow>)
      ensures sel == Selected(filters, rows, ignoreDates)
    {
      var q := ApplyFilters([], ignoreDates);
      SelectedByQuery(rows, q, filters, ignoreDates);
      sel := Select(rows, q);
    }

    /**
     * `get_totals_last_week()`: per location, with every filter but the dates, the rows in
     * [start-14, end-14], [start-7, end-7] and [start, end].
     */
    method GetTotalsLastWeek(rows: seq<SampleRow>) returns (data: map<int, WindowCounts>)
      ensures var sel := Selected(filters, rows, true);
        forall l :: l in data <==> Present(sel, ByLocation, Site(l, None))
      ensures var sel, a, b := Selected(filters, rows, true), startDate, endDate;
        forall l :: l in data ==> data[l] == LastWeekCounts(sel, l, a, b)
    {
      var sel := RunQuery(rows, true);
      ghost var f, a, b := filters, startDate, endDate;
      data := TotalsLastWeek(sel, startDate, endDate);
      assert filters == f && startDate == a && endDate == b;
    }

    /** `get_totals_by_hour()`: per station, 24 hourly rates over the search's days, shifted by six hours. */
    method GetTotalsByHour(rows: seq<SampleRow>) returns (r: Result<Chart, string>)
      ensures var sel := Selected(filters, rows, false);
        r.Failure? <==> endDate - startDate == 0 && |sel| > 0
      ensures r.Failure? ==> r.error == "ZeroDivisionError"
      ensures r.Success? ==>
        r.value == ResultChart(GroupQuery(Selected(filters, rows, false), ByStation, HourCases()),
                               PerDay(startDate, endDate))
    {
      var sel := RunQuery(rows, false);
      ghost var f, a, b := filters, startDate, endDate;
      r := TotalsByHour(sel, startDate, endDate);
      assert filters == f && startDate == a && endDate == b;
    }

    /** `get_totals_by_day()`: per station, one count per day of the search, from midnight to midnight. */
    method GetTotalsByDay(rows: seq<SampleRow>) returns (data: Chart)
      ensures data == ResultChart(GroupQuery(Selected(filters, rows, false), ByStation, DayCases(startDate, endDate)),
                                  AsCounted)
    {
      var sel := RunQuery(rows, false);
      ghost var f, a, b := filters, startDate, endDate;
      data := TotalsByDay(sel, startDate, endDate);
      assert filters == f && startDate == a && endDate == b;
    }

    /** `get_totals_by_weekday()`: per station, each weekday's total over the number of such days searched. */
    method GetTotalsByWeekday(rows: seq<SampleRow>) returns (data: Chart)
      ensures data == ResultChart(GroupQuery(Selected(filters, rows, false), ByStation, DowCases()),
                                  PerWeekday(startDate, endDate))
    {
      var sel := RunQuery(rows, false);
      ghost var f, a, b := filters, startDate, endDate;
      data := TotalsByWeekday(sel, startDate, endDate);
      assert filters == f && startDate == a && endDate == b;
    }
  }

  /** The grouped query of `get_totals_by_hour()` and its chart. */
  method TotalsByHour(sel: seq<SampleRow>, start: int, end: int) returns (r: Result<Chart, string>)
    ensures r.Failure? <==> end - start == 0 && |sel| > 0
    ensures r.Failure? ==> r.error == "ZeroDivisionError"
    ensures r.Success? ==> r.value == ResultChart(GroupQuery(sel, ByStation, HourCases()), PerDay(start, end))
  {
    var days := end - start;
    var res := GroupQuery(sel, ByStation, HourCases());
    SitesEmpty(sel, ByStation);
    r := ChartHours(res, days, start, end);
  }

  /** The grouped query of `get_totals_by_day()` and its chart. */
  method TotalsByDay(sel: seq<SampleRow>, start: int, end: int) returns (data: Chart)
    ensures data == ResultChart(GroupQuery(sel, ByStation, DayCases(start, end)), AsCounted)
  {
    var bounds := Daterange(OnDay(start), OnDay(end), 1, 0);
    var cases := seq(if |bounds| > 0 then |bounds| - 1 else 0,
                     i requires 0 <= i < |bounds| - 1 => Between(bounds[i], bounds[i + 1]));
    DayBounds(start, end, bounds, cases);
    var res := GroupQuery(sel, ByStation, cases);
    data := ChartDays(res);
  }

  /** The grouped query of `get_totals_by_weekday()` and its chart. */
  method TotalsByWeekday(sel: seq<SampleRow>, start: int, end: int) returns (data: Chart)
    ensures data == ResultChart(GroupQuery(sel, ByStation, DowCases()), PerWeekday(start, end))
  {
    var dowCounts := DowCount(start, end - 1);
    var res := GroupQuery(sel, ByStation, DowCases());
    data := ChartWeekdays(res, dowCounts, start, end);
  }

  /** The inner loop of `get_totals_by_weekday()`: one station's seven weekday values. */
  method WeekdayRow(counts: seq<int>, dowCounts: seq<int>) returns (v: seq<int>)
    requires |counts| == 7 && |dowCounts| == 7
    ensures v == WeekdayRates(counts, dowCounts)
  {
    v := [];
    var d := 0;
    while d < 7
      invariant 0 <= d <= 7 && |v| == d
      invariant forall k :: 0 <= k < d ==>
        v[k] == if dowCounts[k] > 0 then RoundRate(counts[k], dowCounts[k]) else counts[k]
    {
      if dowCounts[d] > 0 {
        v := v + [RoundRate(counts[d], dowCounts[d])];
      } else {
        v := v + [counts[d]];
      }
      d := d + 1;
    }
  }

  /** The loop of `get_totals_by_hour()`: the first group raises ZeroDivisionError when no day is searched. */
  method ChartHours(res: seq<ResultRow>, days: int, ghost start: int, ghost end: int) returns (r: Result<Chart, string>)
    requires days == end - start
    requires forall j :: 0 <= j < |res| ==> |res[j].counts| == 24
    ensures r.Failure? <==> days == 0 && |res| > 0
    ensures r.Failure? ==> r.error == "ZeroDivisionError"
    ensures r.Success? ==> r.value == ResultChart(res, PerDay(start, end))
  {
    var data: Chart := map[];
    var j := 0;
    while j < |res|
      invariant 0 <= j <= |res|
      invariant j > 0 ==> days != 0
      invariant data == ChartOf(res, j, PerDay(start, end))
    {
      var site := res[j].site;
      if days == 0 {
        return Failure("ZeroDivisionError");
      }
      // The six-hour shift and `round(i/days_in_search + .4)` over the shifted counts.
      var v := HourRates(res[j].counts, days);
      HourRescale(res[j].counts, days, start, end);
      data := Place(data, site, v);
      j := j + 1;
    }
    r := Success(data);
  }

  /** With a nonzero number of days, the hourly vector a chart stores is HourRates over them. */
  lemma HourRescale(counts: seq<int>, days: int, start: int, end: int)
    requires |counts| == 24 && days == end - start && days != 0
    ensures Rescale(counts, PerDay(start, end)) == HourRates(counts, days)
  {
  }

  /** The loop of `get_totals_by_day()`: each group's counts stored as they are. */
  method ChartDays(res: seq<ResultRow>) returns (data: Chart)
    ensures data == ResultChart(res, AsCounted)
  {
    data := map[];
    var j := 0;
    while j < |res|
      invariant 0 <= j <= |res|
      invariant data == ChartOf(res, j, AsCounted)
    {
      var site := res[j].site;
      data := Place(data, site, res[j].counts);
      j := j + 1;
    }
  }

  /** The loops of `get_totals_by_weekday()`: each weekday total over its number of days, when there are some. */
  method ChartWeekdays(res: seq<ResultRow>, dowCounts: seq<int>, ghost start: int, ghost end: int)
    returns (data: Chart)
    requires dowCounts == DowTable(start, end - 1)
    requires forall j :: 0 <= j < |res| ==> |res[j].counts| == 7
    ensures data == ResultChart(res, PerWeekday(start, end))
  {
    data := map[];
    var j := 0;
    while j < |res|
      invariant 0 <= j <= |res|
      invariant data == ChartOf(res, j, PerWeekday(start, end))
    {
      var site := res[j].site;
      var counts := res[j].counts;
      var v := WeekdayRow(counts, dowCounts);
      assert v == Rescale(counts, PerWeekday(start, end));
      data := Place(data, site, v);
      j := j + 1;
    }
  }

  /** GROUP BY yields no group exactly when no row passes the filters. */
  lemma SitesEmpty(rows: seq<SampleRow>, g: Grouping)
    ensures |Sites(rows, g)| == 0 <==> |rows| == 0
  {
    if |rows| > 0 {
      assert SiteOf(g, rows[0]) in Sites(rows, g);
    }
    if |Sites(rows, g)| > 0 {
      assert Present(rows, g, Sites(rows, g)[0]);
    }
  }

  /** The day bounds run midnight to midnight, so the buckets are the days of [start, end). */
  lemma DayBounds(start: int, end: int, bounds: seq<int>, cases: seq<Case>)
    requires |bounds| == (if Midnight(start) > Midnight(end) then 0
                          else (Midnight(end) - Midnight(start)) / MinutesPerDay + 1)
    requires forall i :: 0 <= i < |bounds| ==> bounds[i] == Midnight(start) + i * MinutesPerDay
    requires |cases| == (if |bounds| > 0 then |bounds| - 1 else 0)
    requires forall i :: 0 <= i < |cases| ==> cases[i] == Between(bounds[i], bounds[i + 1])
    ensures cases == DayCases(start, end)
  {
    if start <= end {
      assert Midnight(end) - Midnight(start) == (end - start) * MinutesPerDay;
      assert |bounds| == end - start + 1;
    }
    forall i | 0 <= i < |cases| ensures cases[i] == DayCases(start, end)[i] {
      assert bounds[i] == Midnight(start + i);
      assert bounds[i + 1] == Midnight(start + i + 1);
    }
  }

  /** `get_totals_last_week()` over the selected rows: per location, the three window counts. */
  method TotalsLastWeek(sel: seq<SampleRow>, start: int, end: int) returns (data: map<int, WindowCounts>)
    ensures forall l :: l in data <==> Present(sel, ByLocation, Site(l, None))
    ensures forall l :: l in data ==> data[l] == LastWeekCounts(sel, l, start, end)
  {
    var res := GroupQuery(sel, ByLocation, LastWeekCases(start, end));
    LastWeekRows(sel, start, end);
    data := LastWeekMap(res, sel, start, end);
    LastWeekKeys(sel, start, end, data.Keys);
  }

  /** Every by-location result row of the last-week query holds its location's window counts. */
  lemma LastWeekRows(sel: seq<SampleRow>, start: int, end: int)
    ensures var res := GroupQuery(sel, ByLocation, LastWeekCases(start, end));
      forall j :: 0 <= j < |res| ==> LastWeekRow(res[j], sel, start, end)
  {
    var res := GroupQuery(sel, ByLocation, LastWeekCases(start, end));
    var sites := Sites(sel, ByLocation);
    forall j | 0 <= j < |res|
      ensures LastWeekRow(res[j], sel, start, end)
    {
      LastWeekTally(sel, sites[j], start, end);
    }
  }

  /** The locations of the last-week query's groups are the locations of the selected rows. */
  lemma LastWeekKeys(sel: seq<SampleRow>, start: int, end: int, keys: set<int>)
    requires var res := GroupQuery(sel, ByLocation, LastWeekCases(start, end));
      keys == set i | 0 <= i < |res| :: res[i].site.location
    ensures forall l :: l in keys <==> Present(sel, ByLocation, Site(l, None))
  {
    var res := GroupQuery(sel, ByLocation, LastWeekCases(start, end));
    var sites := Sites(sel, ByLocation);
    assert keys == set i | 0 <= i < |sites| :: sites[i].location by {
      assert forall i :: 0 <= i < |res| ==> res[i].site == sites[i];
    }
    LocationsOfSites(sel, keys);
  }

  /** A by-location result row whose three columns are its location's window counts. */
  ghost predicate LastWeekRow(row: ResultRow, sel: seq<SampleRow>, start: int, end: int) {
    |row.counts| == 3
    && WindowCounts(row.counts[0], row.counts[1], row.counts[2]) == LastWeekCounts(sel, row.site.location, start, end)
  }

  /** The loop of `get_totals_last_week()`: one entry per group's location, holding its three columns. */
  method LastWeekMap(res: seq<ResultRow>, ghost sel: seq<SampleRow>, ghost start: int, ghost end: int)
    returns (data: map<int, WindowCounts>)
    requires forall j :: 0 <= j < |res| ==> LastWeekRow(res[j], sel, start, end)
    ensures data.Keys == set i | 0 <= i < |res| :: res[i].site.location
    ensures forall l :: l in data ==> data[l] == LastWeekCounts(sel, l, start, end)
  {
    data := map[];
    var j := 0;
    while j < |res|
      invariant 0 <= j <= |res|
      invariant data.Keys == set i | 0 <= i < j :: res[i].site.location
      invariant forall l :: l in data ==> data[l] == LastWeekCounts(sel, l, start, end)
    {
      var location := res[j].site.location;
      var counts := res[j].counts;
      assert LastWeekRow(res[j], sel, start, end);
      data := data[location := WindowCounts(counts[0], counts[1], counts[2])];
      j := j + 1;
    }
  }

  /** The three columns of the last-week query. */
  function LastWeekCases(a: int, b: int): seq<Case> {
    [Between(Midnight(a - 14), Midnight(b - 14)),
     Between(Midnight(a - 7), Midnight(b - 7)),
     Between(Midnight(a), Midnight(b))]
  }

  /** A location's counts in the window two weeks back, one week back and the searched one. */
  function LastWeekCounts(rows: seq<SampleRow>, l: int, a: int, b: int): WindowCounts {
    WindowCounts(WindowCount(rows, l, a - 14, b - 14), WindowCount(rows, l, a - 7, b - 7),
                 WindowCount(rows, l, a, b))
  }

  /** A by-location group's three columns are its location's window counts. */
  lemma LastWeekTally(rows: seq<SampleRow>, site: Site, a: int, b: int)
    requires site.station == None
    ensures var t := Tally(rows, ByLocation, site, LastWeekCases(a, b));
      WindowCounts(t[0], t[1], t[2]) == LastWeekCounts(rows, site.location, a, b)
  {
    var cases := LastWeekCases(a, b);
    forall i | 0 <= i < 3
      ensures Tally(rows, ByLocation, site, cases)[i]
           == Count(rows, (r: SampleRow) => r.location == site.location && cases[i].lo <= r.date <= cases[i].hi)
    {
      CountExt(rows, r => SiteOf(ByLocation, r) == site && CaseHolds(cases[i], r),
               (r: SampleRow) => r.location == site.location && cases[i].lo <= r.date <= cases[i].hi);
    }
  }

  /** The locations of the by-location groups are the locations some row is at. */
  lemma LocationsOfSites(rows: seq<SampleRow>, keys: set<int>)
    requires var s := Sites(rows, ByLocation); keys == set i | 0 <= i < |s| :: s[i].location
    ensures forall l :: l in keys <==> Present(rows, ByLocation, Site(l, None))
  {
    var s := Sites(rows, ByLocation);
    forall l ensures l in keys <==> Present(rows, ByLocation, Site(l, None)) {
      if Present(rows, ByLocation, Site(l, None)) {
        assert Site(l, None) in s;
        var i :| 0 <= i < |s| && s[i] == Site(l, None);
        assert s[i].location == l;
      }
      if l in keys {
        var i :| 0 <= i < |s| && s[i].location == l;
        assert s[i] in s;
        var w :| 0 <= w < |rows| && SiteOf(ByLocation, rows[w]) == s[i];
      }
    }
  }
}
