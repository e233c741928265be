/**
 * The dashboard API (communicator/api/dashboard.py): the query parameters turned into a
 * filter dictionary, the per-station charts collapsed for the response, the top bar's
 * eight totals, and the paged sample listing.
 */
module Dashboard {
  import opened Wrappers
  import opened Text
  import opened Clock
  import opened SampleModel
  import opened Counting
  import opened Filters
  import opened Models
  import opened Graphs
  import opened ChartLaws

  // ------------------------------------------------------------ form_graph_response

  /** One location's charts: station to count vector. */
  type StationCharts = map<Option<int>, seq<int>>

  /**
   * The body `form_graph_response` serialises: with several locations, one summed vector
   * per location (None where numpy could not sum the stations' vectors); with one, that
   * location's stations; with none, the empty dictionary it was given.
   */
  datatype GraphResponse =
    | PerLocation(totals: map<int, Option<seq<int>>>)
    | OneLocation(stations: StationCharts)
    | NoLocation

  /** Component `i` of a station's vector, 0 past its end. */
  function Entry(m: StationCharts, st: Option<int>, i: nat): int {
    if st in m && i < |m[st]| then m[st][i] else 0
  }

  /** Component `i` summed over a set of stations. */
  ghost function ColumnTotal(m: StationCharts, keys: set<Option<int>>, i: nat): int
    decreases keys
  {
    if keys == {} then 0
    else
      var st :| st in keys;
      Entry(m, st, i) + ColumnTotal(m, keys - {st}, i)
  }

  /** The sum does not depend on the order the stations are visited in. */
  lemma {:induction false} ColumnTotalRemove(m: StationCharts, keys: set<Option<int>>, st: Option<int>, i: nat)
    requires st in keys
    ensures ColumnTotal(m, keys, i) == Entry(m, st, i) + ColumnTotal(m, keys - {st}, i)
    decreases keys
  {
    var k :| k in keys && ColumnTotal(m, keys, i) == Entry(m, k, i) + ColumnTotal(m, keys - {k}, i);
    if k != st {
      ColumnTotalRemove(m, keys - {k}, st, i);
      ColumnTotalRemove(m, keys - {st}, k, i);
      assert keys - {k} - {st} == keys - {st} - {k};
    }
  }

  /** Every station's vector has the same length, as numpy needs to sum them along axis 0. */
  predicate Uniform(m: StationCharts) {
    forall a, b :: a in m && b in m ==> |m[a]| == |m[b]|
  }

  /** `v` is `np.sum` of the station vectors along axis 0, and None exactly where that fails. */
  ghost predicate Summed(m: StationCharts, v: Option<seq<int>>) {
    && (v.None? <==> m == map[] || !Uniform(m))
    && (v.Some? ==> forall st :: st in m ==> |m[st]| == |v.value|)
    && (v.Some? ==> forall i :: 0 <= i < |v.value| ==> v.value[i] == ColumnTotal(m, m.Keys, i))
  }

  /** `np.sum([stations[s] for s in stations], axis=0)` for one location. */
  method StationSum(m: StationCharts) returns (v: Option<seq<int>>)
    ensures Summed(m, v)
  {
    if m == map[] {
      return None;
    }
    var first :| first in m;
    var n := |m[first]|;
    var acc := seq(n, i => 0);
    var todo := m.Keys;
    assert m.Keys - todo == {};
    while todo != {}
      invariant todo <= m.Keys
      invariant |acc| == n
      invariant forall st :: st in m.Keys - todo ==> |m[st]| == n
      invariant forall i :: 0 <= i < n ==> acc[i] == ColumnTotal(m, m.Keys - todo, i)
      decreases |todo|
    {
      var st :| st in todo;
      if |m[st]| != n {
        assert !Uniform(m) by {
          assert first in m && st in m;
        }
        return None;
      }
      ghost var done := m.Keys - todo;
      forall i | 0 <= i < n
        ensures ColumnTotal(m, done + {st}, i) == m[st][i] + ColumnTotal(m, done, i)
      {
        assert done + {st} - {st} == done;
        ColumnTotalRemove(m, done + {st}, st, i);
      }
      acc := seq(n, i requires 0 <= i < n => acc[i] + m[st][i]);
      todo := todo - {st};
      assert m.Keys - todo == done + {st};
    }
    assert m.Keys - todo == m.Keys;
    return Some(acc);
  }

  /**
   * `r` is the response for a chart: several locations each summed over their stations,
   * a single location unwrapped, no location left as the empty dictionary.
   */
  ghost predicate Responds(data: Chart, r: GraphResponse) {
    && (|data.Keys| == 0 <==> r == NoLocation)
    && (|data.Keys| == 1 ==> forall l :: l in data ==> r == OneLocation(data[l]))
    && (|data.Keys| > 1 ==> r.PerLocation? && r.totals.Keys == data.Keys)
    && (r.PerLocation? ==> forall l :: l in data ==> Summed(data[l], r.totals[l]))
  }

  /** `form_graph_response(data)`, up to the JSON encoding. */
  method FormGraphResponse(data: Chart) returns (r: GraphResponse)
    ensures Responds(data, r)
  {
    var locations := data.Keys;
    if |locations| > 1 {
      var totals: map<int, Option<seq<int>>> := map[];
      var todo := locations;
      while todo != {}
        invariant todo <= data.Keys
        invariant totals.Keys == data.Keys - todo
        invariant forall l :: l in totals ==> Summed(data[l], totals[l])
        decreases |todo|
      {
        var l := Pick(todo);
        var v := StationSum(data[l]);
        totals := totals[l := v];
        todo := todo - {l};
      }
      r := PerLocation(totals);
    } else if |locations| == 1 {
      assert locations != {};
      var l := Pick(locations);
      OnlyElement(locations, l);
      r := OneLocation(data[l]);
    } else {
      r := NoLocation;
    }
  }

  /** The only element of a one-element set. */
  lemma OnlyElement<T>(s: set<T>, x: T)
    requires |s| == 1 && x in s
    ensures s == {x}
  {
    assert |s - {x}| == 0;
  }

  // --------------------------------------------- what the collapsed day chart holds

  /** Rows at a location whose time satisfies `p`. */
  function AtLocation(rows: seq<SampleRow>, l: int, p: int -> bool): nat {
    Count(rows, (r: SampleRow) => r.location == l && p(r.date))
  }

  /** Rows at a location, at one of the given stations, whose time satisfies `p`. */
  function AtStations(rows: seq<SampleRow>, l: int, keys: set<Option<int>>, p: int -> bool): nat {
    Count(rows, (r: SampleRow) => r.location == l && r.station in keys && p(r.date))
  }

  /** Summing station columns that each count their station's rows counts the stations' rows together. */
  lemma {:induction false} ColumnTotalCounts(m: StationCharts, keys: set<Option<int>>, rows: seq<SampleRow>,
                                             l: int, p: int -> bool, i: nat)
    requires forall st :: st in keys ==> st in m && i < |m[st]| && m[st][i] == AtStation(rows, Site(l, st), p)
    ensures ColumnTotal(m, keys, i) == AtStations(rows, l, keys, p)
    decreases keys
  {
    if keys == {} {
      CountNone(rows, (r: SampleRow) => r.location == l && r.station in keys && p(r.date));
    } else {
      var k :| k in keys;
      var rest := keys - {k};
      ColumnTotalRemove(m, keys, k, i);
      ColumnTotalCounts(m, rest, rows, l, p, i);
      forall r: SampleRow ensures (SiteOf(ByStation, r) == Site(l, k)) == (r.location == l && r.station == k) {
      }
      CountSplit(rows, (r: SampleRow) => r.location == l && r.station in keys && p(r.date),
                 (r: SampleRow) => SiteOf(ByStation, r) == Site(l, k) && p(r.date),
                 (r: SampleRow) => r.location == l && r.station in rest && p(r.date));
    }
  }

  /** A charted location's stations are every station some row at that location is at. */
  lemma StationsCovered(data: Chart, rows: seq<SampleRow>, cases: seq<Case>, l: int, p: int -> bool)
    requires Charted(data, rows, ByStation, cases, AsCounted) && l in data
    ensures AtStations(rows, l, data[l].Keys, p) == AtLocation(rows, l, p)
  {
    forall j | 0 <= j < |rows| && rows[j].location == l
      ensures rows[j].station in data[l]
    {
      assert SiteOf(ByStation, rows[j]) == Site(l, rows[j].station);
      assert Present(rows, ByStation, Site(l, rows[j].station));
    }
    CountExt(rows, (r: SampleRow) => r.location == l && r.station in data[l].Keys && p(r.date),
             (r: SampleRow) => r.location == l && p(r.date));
  }

  /** A charted location of a chart of plain counts has stations, each holding its tally. */
  lemma ChartedStations(data: Chart, rows: seq<SampleRow>, cases: seq<Case>, l: int)
    requires Charted(data, rows, ByStation, cases, AsCounted) && l in data
    ensures data[l] != map[]
    ensures forall a :: a in data[l] ==> data[l][a] == Tally(rows, ByStation, Site(l, a), cases)
  {
    assert exists st :: Present(rows, ByStation, Site(l, st));
    var st :| Present(rows, ByStation, Site(l, st));
    assert st in data[l];
    forall a | a in data[l] ensures data[l][a] == Tally(rows, ByStation, Site(l, a), cases) {
      assert data[l][a] == Rescale(Tally(rows, ByStation, Site(l, a), cases), AsCounted);
    }
  }

  /**
   * A location's summed vector in a chart of plain counts exists, is as long as the
   * cases, and holds at `i` the count of the location's rows meeting case `i`: summing the
   * stations neither loses nor double counts a row.
   */
  lemma ChartedTotals(data: Chart, rows: seq<SampleRow>, cases: seq<Case>, l: int, v: Option<seq<int>>,
                      i: nat, p: int -> bool)
    requires Charted(data, rows, ByStation, cases, AsCounted) && l in data && Summed(data[l], v)
    requires i < |cases| && forall r: SampleRow :: CaseHolds(cases[i], r) == p(r.date)
    ensures v.Some? && |v.value| == |cases|
    ensures v.value[i] == AtLocation(rows, l, p)
  {
    var m := data[l];
    ChartedStations(data, rows, cases, l);
    assert Uniform(m);
    var st :| st in m;
    assert |m[st]| == |v.value|;
    forall a | a in m.Keys ensures a in m && i < |m[a]| && m[a][i] == AtStation(rows, Site(l, a), p) {
      TallyColumn(rows, Site(l, a), cases, i, p);
    }
    ColumnTotalCounts(m, m.Keys, rows, l, p, i);
    StationsCovered(data, rows, cases, l, p);
  }

  // ---------------------------------------------------------------- query parameters

  /** The text query parameters every dashboard endpoint takes; a date may be absent. */
  datatype Params = Params(
    startDate: Option<string>,
    endDate: Option<string>,
    studentId: string,
    computeId: string,
    location: string,
    includeTests: string)

  /**
   * Whether a list parameter becomes a filter: `len(s.strip()) > 0` where the endpoint
   * strips, `len(s) > 0` where it does not.
   */
  predicate Given(s: string, strip: bool) {
    if strip then !IsBlank(s) else |s| > 0
  }

  /** `[int(i) for i in words]`, None when some word is not an integer literal (ValueError). */
  function ParseInts(words: seq<string>): (r: Option<seq<int>>)
    ensures r.Some? <==> forall k :: 0 <= k < |words| ==> ParseInt(words[k]).Some?
    ensures r.Some? ==> |r.value| == |words| && forall k :: 0 <= k < |words| ==> ParseInt(words[k]) == Some(r.value[k])
    decreases |words|
  {
    if words == [] then Some([])
    else
      var init := ParseInts(words[..|words| - 1]);
      var last := ParseInt(words[|words| - 1]);
      if init.Some? && last.Some? then Some(init.value + [last.value]) else None
  }

  /** A date parameter that is given but that `strptime(s, "%m/%d/%Y")` rejects. */
  predicate BadDate(d: Option<string>, parseDate: string -> Option<int>) {
    d.Some? && parseDate(d.value).None?
  }

  /**
   * The filter dictionary an endpoint builds from its parameters. `strip` is whether it
   * tests the stripped list parameters, `endShift` the days it adds to the end date, and
   * `parseDate` the day a "%m/%d/%Y" text names (None where `strptime` raises). A
   * ValueError from a date or from a location that is not an integer is the failure.
   */
  function ParseParams(p: Params, strip: bool, endShift: int, parseDate: string -> Option<int>)
    : (r: Result<map<string, FilterArg>, string>)
    ensures r.Failure? ==> r.error == "ValueError"
  {
    if BadDate(p.startDate, parseDate) || BadDate(p.endDate, parseDate) then Failure("ValueError")
    else if Given(p.location, strip) && ParseInts(Words(p.location)).None? then Failure("ValueError")
    else
      var a0: map<string, FilterArg> := map[];
      var a1 := if p.startDate.Some? then a0["start_date" := Day(parseDate(p.startDate.value).value)] else a0;
      var a2 := if p.endDate.Some? then a1["end_date" := Day(parseDate(p.endDate.value).value + endShift)] else a1;
      var a3 := if Given(p.studentId, strip) then a2["student_id" := WordList(Words(p.studentId))] else a2;
      var a4 := if Given(p.computeId, strip) then a3["compute_id" := WordList(Words(p.computeId))] else a3;
      var a5 := if Given(p.location, strip) then a4["location" := NumberList(ParseInts(Words(p.location)).value)] else a4;
      Success(if p.includeTests == "true" then a5["include_tests" := Text(p.includeTests)] else a5)
  }

  /** The parameters fail to parse exactly when a date is malformed or a given location word is not an integer. */
  lemma ParseParamsFails(p: Params, strip: bool, endShift: int, parseDate: string -> Option<int>)
    ensures var r := ParseParams(p, strip, endShift, parseDate);
      r.Failure? <==>
        || BadDate(p.startDate, parseDate) || BadDate(p.endDate, parseDate)
        || (Given(p.location, strip) && exists k :: 0 <= k < |Words(p.location)| && ParseInt(Words(p.location)[k]).None?)
  {
    var ws := Words(p.location);
    if ParseInts(ws).None? {
      assert !(forall k :: 0 <= k < |ws| ==> ParseInt(ws[k]).Some?);
    }
  }

  /**
   * What the parsed dictionary holds: each date given, as a day (the end moved by
   * `endShift`); each list parameter that passes the emptiness test, split on whitespace
   * (the locations as integers, word by word); and `include_tests` exactly when the
   * parameter is the text "true". Nothing else.
   */
  lemma ParsedParams(p: Params, strip: bool, endShift: int, parseDate: string -> Option<int>)
    requires ParseParams(p, strip, endShift, parseDate).Success?
    ensures var a := ParseParams(p, strip, endShift, parseDate).value;
      && a.Keys <= {"start_date", "end_date", "student_id", "compute_id", "location", "include_tests"}
      && DatesAreDays(a)
      && ("start_date" in a <==> p.startDate.Some?)
      && ("start_date" in a ==> Some(a["start_date"].day) == parseDate(p.startDate.value))
      && ("end_date" in a <==> p.endDate.Some?)
      && ("end_date" in a ==> Some(a["end_date"].day - endShift) == parseDate(p.endDate.value))
      && ("student_id" in a <==> Given(p.studentId, strip))
      && ("student_id" in a ==> a["student_id"] == WordList(Words(p.studentId)))
      && ("compute_id" in a <==> Given(p.computeId, strip))
      && ("compute_id" in a ==> a["compute_id"] == WordList(Words(p.computeId)))
      && ("location" in a <==> Given(p.location, strip))
      && ("location" in a ==> a["location"].NumberList? && |a["location"].numbers| == |Words(p.location)|)
      && ("location" in a ==> forall k :: 0 <= k < |Words(p.location)| ==>
            ParseInt(Words(p.location)[k]) == Some(a["location"].numbers[k]))
      && ("include_tests" in a <==> p.includeTests == "true")
  {
  }

  /** Where the endpoint strips, a whitespace-only list parameter adds no filter. */
  lemma BlankParamsIgnored(p: Params, endShift: int, parseDate: string -> Option<int>)
    requires ParseParams(p, true, endShift, parseDate).Success?
    ensures var a := ParseParams(p, true, endShift, parseDate).value;
      && (IsBlank(p.studentId) ==> "student_id" !in a)
      && (IsBlank(p.computeId) ==> "compute_id" !in a)
      && (IsBlank(p.location) ==> "location" !in a)
  {
  }

  /**
   * Where the endpoint does not strip, a non-empty whitespace-only list parameter adds a
   * filter on the empty list, which no row satisfies.
   */
  lemma BlankParamsFilterEverything(p: Params, endShift: int, parseDate: string -> Option<int>)
    requires ParseParams(p, false, endShift, parseDate).Success?
    ensures var a := ParseParams(p, false, endShift, parseDate).value;
      && (IsBlank(p.studentId) && p.studentId != "" ==> "student_id" in a && a["student_id"] == WordList([]))
      && (IsBlank(p.computeId) && p.computeId != "" ==> "compute_id" in a && a["compute_id"] == WordList([]))
      && (IsBlank(p.location) && p.location != "" ==> "location" in a && a["location"] == NumberList([]))
  {
    WordsEmptyIffBlank(p.studentId);
    WordsEmptyIffBlank(p.computeId);
    WordsEmptyIffBlank(p.location);
  }

  // ------------------------------------- the dictionary handed to update_search_filters

  /** Some list filter is in the parsed dictionary. */
  predicate HasListArg(a: map<string, FilterArg>) {
    "student_id" in a || "compute_id" in a || "location" in a
  }

  /**
   * As written, every parsed list parameter is a list, and `update_search_filters` calls
   * `.split()` on it: the first list step raises, the exception is swallowed, and the
   * filters and the stored bounds stay the service's defaults, the requested dates and
   * `include_tests` included.
   */
  lemma ListParamsDropAllFilters(p: Params, strip: bool, endShift: int, parseDate: string -> Option<int>,
                                 f: map<string, Filter>, bound: int)
    requires ParseParams(p, strip, endShift, parseDate).Success?
    requires HasListArg(ParseParams(p, strip, endShift, parseDate).value)
    ensures var a := ParseParams(p, strip, endShift, parseDate).value;
      && Completed(a, SplitAsWritten) < 4
      && UpdatedFilters(f, a, SplitAsWritten) == f
      && UpdatedBound(bound, "start_date", a, SplitAsWritten) == bound
      && UpdatedBound(bound, "end_date", a, SplitAsWritten) == bound
  {
    var a := ParseParams(p, strip, endShift, parseDate).value;
    ParsedParams(p, strip, endShift, parseDate);
    var n := Completed(a, SplitAsWritten);
    assert "station" !in a;
    assert n < 4;
    assert forall j :: 0 <= j < n ==> ListKeys[j] !in a;
    ListArgsUntouched(f, a, SplitAsWritten, n);
  }

  /** List steps over keys the dictionary lacks change nothing. */
  lemma {:induction false} ListArgsUntouched(f: map<string, Filter>, a: map<string, FilterArg>,
                                             split: FilterArg -> Option<seq<string>>, n: nat)
    requires n <= 4 && forall j :: 0 <= j < n ==> ListKeys[j] !in a
    ensures ApplyListArgs(f, a, split, n) == f
    decreases n
  {
    if n > 0 {
      ListArgsUntouched(f, a, split, n - 1);
    }
  }

  /**
   * Read as the endpoints intend (a list used as it is), no list step raises: every
   * parameter reaches its filter.
   */
  lemma ParsedParamsComplete(p: Params, strip: bool, endShift: int, parseDate: string -> Option<int>)
    requires ParseParams(p, strip, endShift, parseDate).Success?
    ensures var a := ParseParams(p, strip, endShift, parseDate).value;
      DatesAreDays(a) && Completed(a, SplitLists) == 4
  {
    ParsedParams(p, strip, endShift, parseDate);
  }

  /** A location list, read as intended, admits exactly the rows at one of its locations. */
  lemma LocationListAdmits(ns: seq<int>, r: SampleRow)
    ensures SplitLists(NumberList(ns)).Some?
    ensures Matches(LocationIn(SplitLists(NumberList(ns)).value), r) <==> r.location in ns
  {
    assert SplitLists(NumberList(ns)) == Some(IntWords(ns));
    ListedInts(ns, r.location);
  }

  /** A number reads back from the literals of a number list exactly when it is in the list. */
  lemma ListedInts(ns: seq<int>, n: int)
    ensures Listed(IntWords(ns), n) <==> n in ns
  {
    var ws := IntWords(ns);
    if n in ns {
      var k :| 0 <= k < |ns| && ns[k] == n;
      ParseIntOfIntToString(ns[k]);
      assert ParseInt(ws[k]) == Some(n);
    }
    if Listed(ws, n) {
      var k :| 0 <= k < |ws| && ParseInt(ws[k]) == Some(n);
      ParseIntOfIntToString(ns[k]);
      assert ns[k] == n;
    }
  }

  // ------------------------------------------------------------ the chart endpoints

  /** The filters a fresh GraphService starts with on day `today`. */
  function Defaults(today: int): map<string, Filter> {
    map["start_date" := DateFrom(today), "end_date" := DateUntil(today + 1)]
  }

  /** A service's filters, its search's first day and the day after its last. */
  datatype Search = Search(filters: map<string, Filter>, start: int, end: int)

  /**
   * The search of a fresh service on day `today` once it has taken the parsed parameters,
   * with `split` reading the list arguments.
   */
  function SearchOf(a: map<string, FilterArg>, today: int, split: FilterArg -> Option<seq<string>>): Search
    requires DatesAreDays(a)
  {
    Search(UpdatedFilters(Defaults(today), a, split),
           UpdatedBound(today, "start_date", a, split),
           UpdatedBound(today + 1, "end_date", a, split))
  }

  /** The search a fresh service on day `today` starts with: that day alone. */
  function DefaultSearch(today: int): Search {
    Search(Defaults(today), today, today + 1)
  }

  /**
   * As written, parsed parameters with a list leave a fresh service searching its default
   * day, the requested dates and `include_tests` dropped; without a list the hand-off is
   * the intended one.
   */
  lemma AsWrittenSearch(p: Params, strip: bool, endShift: int, parseDate: string -> Option<int>, today: int)
    requires ParseParams(p, strip, endShift, parseDate).Success?
    ensures var a := ParseParams(p, strip, endShift, parseDate).value;
      && DatesAreDays(a)
      && (HasListArg(a) ==> SearchOf(a, today, SplitAsWritten) == DefaultSearch(today))
      && (!HasListArg(a) ==> SearchOf(a, today, SplitAsWritten) == SearchOf(a, today, SplitLists))
  {
    var a := ParseParams(p, strip, endShift, parseDate).value;
    ParsedParams(p, strip, endShift, parseDate);
    if HasListArg(a) {
      ListParamsDropAllFilters(p, strip, endShift, parseDate, Defaults(today), today);
      ListParamsDropAllFilters(p, strip, endShift, parseDate, Defaults(today), today + 1);
    } else {
      assert forall j :: 0 <= j < 4 ==> ListKeys[j] !in a;
      ListArgsUntouched(Defaults(today), a, SplitAsWritten, 4);
      ListArgsUntouched(Defaults(today), a, SplitLists, 4);
    }
  }

  /**
   * `get_totals_by_day(...)`: the stripped parameters, a fresh service on day `today`
   * searching with them, and its day chart collapsed for the response.
   */
  method GetTotalsByDay(p: Params, rows: seq<SampleRow>, today: int, parseDate: string -> Option<int>)
    returns (r: Result<GraphResponse, string>)
    ensures var a := ParseParams(p, true, 0, parseDate);
      a.Failure? ==> r == Failure(a.error)
    ensures var a := ParseParams(p, true, 0, parseDate);
      a.Success? ==> (DatesAreDays(a.value) && r.Success? &&
        var s := SearchOf(a.value, today, SplitLists);
        Responds(ResultChart(GroupQuery(Selected(s.filters, rows, false), ByStation, DayCases(s.start, s.end)),
                             AsCounted), r.value))
  {
    var a := ParseParams(p, true, 0, parseDate);
    if a.Failure? {
      return Failure(a.error);
    }
    ParsedParamsComplete(p, true, 0, parseDate);
    var graph := new GraphService(today);
    graph.UpdateSearchFilters(a.value, SplitLists);
    ghost var s := SearchOf(a.value, today, SplitLists);
    assert graph.filters == s.filters && graph.startDate == s.start && graph.endDate == s.end;
    var data := graph.GetTotalsByDay(rows);
    var resp := FormGraphResponse(data);
    return Success(resp);
  }

  /** `get_totals_by_weekday(...)`: as by day, with unstripped parameters and the weekday chart. */
  method GetTotalsByWeekday(p: Params, rows: seq<SampleRow>, today: int, parseDate: string -> Option<int>)
    returns (r: Result<GraphResponse, string>)
    ensures var a := ParseParams(p, false, 0, parseDate);
      a.Failure? ==> r == Failure(a.error)
    ensures var a := ParseParams(p, false, 0, parseDate);
      a.Success? ==> (DatesAreDays(a.value) && r.Success? &&
        var s := SearchOf(a.value, today, SplitLists);
        Responds(ResultChart(GroupQuery(Selected(s.filters, rows, false), ByStation, DowCases()),
                             PerWeekday(s.start, s.end)), r.value))
  {
    var a := ParseParams(p, false, 0, parseDate);
    if a.Failure? {
      return Failure(a.error);
    }
    ParsedParamsComplete(p, false, 0, parseDate);
    var graph := new GraphService(today);
    graph.UpdateSearchFilters(a.value, SplitLists);
    ghost var s := SearchOf(a.value, today, SplitLists);
    assert graph.filters == s.filters && graph.startDate == s.start && graph.endDate == s.end;
    var data := graph.GetTotalsByWeekday(rows);
    var resp := FormGraphResponse(data);
    return Success(resp);
  }

  /**
   * `get_totals_by_hour(...)`: as by weekday, with the hour chart, which raises
   * ZeroDivisionError when the search is zero days long and some row is selected.
   */
  method GetTotalsByHour(p: Params, rows: seq<SampleRow>, today: int, parseDate: string -> Option<int>)
    returns (r: Result<GraphResponse, string>)
    ensures var a := ParseParams(p, false, 0, parseDate);
      a.Failure? ==> r == Failure(a.error)
    ensures var a := ParseParams(p, false, 0, parseDate);
      a.Success? ==> (DatesAreDays(a.value) &&
        var s := SearchOf(a.value, today, SplitLists);
        var sel := Selected(s.filters, rows, false);
        && (r.Failure? <==> s.end - s.start == 0 && |sel| > 0)
        && (r.Failure? ==> r.error == "ZeroDivisionError")
        && (r.Success? ==> Responds(ResultChart(GroupQuery(sel, ByStation, HourCases()), PerDay(s.start, s.end)), r.value)))
  {
    var a := ParseParams(p, false, 0, parseDate);
    if a.Failure? {
      return Failure(a.error);
    }
    ParsedParamsComplete(p, false, 0, parseDate);
    var graph := new GraphService(today);
    graph.UpdateSearchFilters(a.value, SplitLists);
    ghost var s := SearchOf(a.value, today, SplitLists);
    assert graph.filters == s.filters && graph.startDate == s.start && graph.endDate == s.end;
    var data := graph.GetTotalsByHour(rows);
    if data.Failure? {
      return Failure(data.error);
    }
    var resp := FormGraphResponse(data.value);
    return Success(resp);
  }

  // --------------------------------------------- the chart endpoints as written

  /**
   * The search the endpoints as written hand over: any list parameter makes
   * `update_search_filters` raise at its first list step, so the service keeps its
   * default day, test samples included; otherwise every parameter reaches its filter.
   */
  function AsWrittenSearchOf(a: map<string, FilterArg>, today: int): Search
    requires DatesAreDays(a)
  {
    if HasListArg(a) then DefaultSearch(today) else SearchOf(a, today, SplitLists)
  }

  /**
   * `get_totals_by_day(...)` as written: the parsed lists go to `update_search_filters`,
   * which calls `.split()` on them. With a student, computing-id or location parameter the
   * response is the chart of today alone, whatever was asked.
   */
  method GetTotalsByDayAsWritten(p: Params, rows: seq<SampleRow>, today: int, parseDate: string -> Option<int>)
    returns (r: Result<GraphResponse, string>)
    ensures var a := ParseParams(p, true, 0, parseDate);
      a.Failure? ==> r == Failure(a.error)
    ensures var a := ParseParams(p, true, 0, parseDate);
      a.Success? ==> (DatesAreDays(a.value) && r.Success? &&
        var s := AsWrittenSearchOf(a.value, today);
        Responds(ResultChart(GroupQuery(Selected(s.filters, rows, false), ByStation, DayCases(s.start, s.end)),
                             AsCounted), r.value))
  {
    var a := ParseParams(p, true, 0, parseDate);
    if a.Failure? {
      return Failure(a.error);
    }
    AsWrittenSearch(p, true, 0, parseDate, today);
    var graph := new GraphService(today);
    graph.UpdateSearchFilters(a.value, SplitAsWritten);
    ghost var s := AsWrittenSearchOf(a.value, today);
    assert graph.filters == s.filters && graph.startDate == s.start && graph.endDate == s.end;
    var data := graph.GetTotalsByDay(rows);
    var resp := FormGraphResponse(data);
    return Success(resp);
  }

  /** `get_totals_by_weekday(...)` as written: a list parameter leaves the weekday chart of today alone. */
  method GetTotalsByWeekdayAsWritten(p: Params, rows: seq<SampleRow>, today: int, parseDate: string -> Option<int>)
    returns (r: Result<GraphResponse, string>)
    ensures var a := ParseParams(p, false, 0, parseDate);
      a.Failure? ==> r == Failure(a.error)
    ensures var a := ParseParams(p, false, 0, parseDate);
      a.Success? ==> (DatesAreDays(a.value) && r.Success? &&
        var s := AsWrittenSearchOf(a.value, today);
        Responds(ResultChart(GroupQuery(Selected(s.filters, rows, false), ByStation, DowCases()),
                             PerWeekday(s.start, s.end)), r.value))
  {
    var a := ParseParams(p, false, 0, parseDate);
    if a.Failure? {
      return Failure(a.error);
    }
    AsWrittenSearch(p, false, 0, parseDate, today);
    var graph := new GraphService(today);
    graph.UpdateSearchFilters(a.value, SplitAsWritten);
    ghost var s := AsWrittenSearchOf(a.value, today);
    assert graph.filters == s.filters && graph.startDate == s.start && graph.endDate == s.end;
    var data := graph.GetTotalsByWeekday(rows);
    var resp := FormGraphResponse(data);
    return Success(resp);
  }

  /**
   * `get_totals_by_hour(...)` as written: a list parameter leaves the hour chart of today
   * alone, which spans one day, so it never divides by zero.
   */
  method GetTotalsByHourAsWritten(p: Params, rows: seq<SampleRow>, today: int, parseDate: string -> Option<int>)
    returns (r: Result<GraphResponse, string>)
    ensures var a := ParseParams(p, false, 0, parseDate);
      a.Failure? ==> r == Failure(a.error)
    ensures var a := ParseParams(p, false, 0, parseDate);
      a.Success? ==> (DatesAreDays(a.value) &&
        var s := AsWrittenSearchOf(a.value, today);
        var sel := Selected(s.filters, rows, false);
        && (HasListArg(a.value) ==> r.Success?)
        && (r.Failure? <==> s.end - s.start == 0 && |sel| > 0)
        && (r.Failure? ==> r.error == "ZeroDivisionError")
        && (r.Success? ==> Responds(ResultChart(GroupQuery(sel, ByStation, HourCases()), PerDay(s.start, s.end)), r.value)))
  {
    var a := ParseParams(p, false, 0, parseDate);
    if a.Failure? {
      return Failure(a.error);
    }
    AsWrittenSearch(p, false, 0, parseDate, today);
    var graph := new GraphService(today);
    graph.UpdateSearchFilters(a.value, SplitAsWritten);
    ghost var s := AsWrittenSearchOf(a.value, today);
    assert graph.filters == s.filters && graph.startDate == s.start && graph.endDate == s.end;
    var data := graph.GetTotalsByHour(rows);
    if data.Failure? {
      return Failure(data.error);
    }
    var resp := FormGraphResponse(data.value);
    return Success(resp);
  }

  /**
   * In the collapsed day chart, a location's entry for day i of the search is the number
   * of its rows from that day's midnight to the next, both included.
   */
  lemma DayTotalsPerLocation(data: Chart, rows: seq<SampleRow>, start: int, end: int, r: GraphResponse,
                             l: int, i: nat)
    requires Charted(data, rows, ByStation, DayCases(start, end), AsCounted) && Responds(data, r)
    requires r.PerLocation? && l in r.totals && i < end - start
    ensures r.totals[l].Some? && |r.totals[l].value| == end - start
    ensures r.totals[l].value[i] == AtLocation(rows, l, t => Midnight(start + i) <= t <= Midnight(start + i + 1))
  {
    MultipleLocations(data, r);
    var cases := DayCases(start, end);
    var p := t => Midnight(start + i) <= t <= Midnight(start + i + 1);
    DayCaseIs(start, end, i, p);
    ChartedTotals(data, rows, cases, l, r.totals[l], i, p);
  }

  /** Only a chart of several locations is answered with per-location totals. */
  lemma MultipleLocations(data: Chart, r: GraphResponse)
    requires Responds(data, r) && r.PerLocation?
    ensures |data.Keys| > 1 && r.totals.Keys == data.Keys
  {
    if |data.Keys| == 1 {
      assert data.Keys != {};
      var l := Elem(data.Keys);
      assert false;
    }
  }

  /** Day case i holds for the rows from that day's midnight to the next, both included. */
  lemma DayCaseIs(start: int, end: int, i: nat, p: int -> bool)
    requires i < end - start
    requires forall t :: p(t) == (Midnight(start + i) <= t <= Midnight(start + i + 1))
    ensures i < |DayCases(start, end)|
    ensures forall r: SampleRow :: CaseHolds(DayCases(start, end)[i], r) == p(r.date)
  {
    assert DayCases(start, end)[i] == Between(Midnight(start + i), Midnight(start + i + 1));
  }

  // ----------------------------------------------------------------- get_topbar_data

  /** Samples dated from day `a`'s midnight to day `b`'s, both included. */
  function Window(rows: seq<SampleRow>, a: int, b: int): nat {
    Count(rows, (r: SampleRow) => Midnight(a) <= r.date <= Midnight(b))
  }

  /** Samples dated on or after day `a`. */
  function FromDay(rows: seq<SampleRow>, a: int): nat {
    Count(rows, (r: SampleRow) => r.date >= Midnight(a))
  }

  /** The count columns of the top bar's grouped query: the search window, a week earlier, two weeks earlier. */
  function TopbarCases(a: int, b: int): (c: seq<Case>)
    ensures |c| == 3
  {
    [Between(Midnight(a), Midnight(b)), Between(Midnight(a - 7), Midnight(b - 7)),
     Between(Midnight(a - 14), Midnight(b - 14))]
  }

  /** A notification dated within [a, b] on that channel; an undated one is in no window. */
  predicate Attempted(n: Notification, a: int, b: int, kind: string) {
    n.date.Some? && Midnight(a) <= n.date.value <= Midnight(b) && n.kind == kind
  }

  /** Notifications dated within [a, b] on that channel with that outcome. */
  function Sent(notes: seq<Notification>, a: int, b: int, ok: bool, kind: string): nat {
    Count(notes, (n: Notification) => Attempted(n, a, b, kind) && n.successful == ok)
  }

  /** `sum([i.amount for i in deposits])`. */
  function DepositTotal(ds: seq<Deposit>): int {
    if ds == [] then 0 else DepositTotal(ds[..|ds| - 1]) + ds[|ds| - 1].amount
  }

  /** Count column `k` added up over the first `n` result rows. */
  function ColumnSum(res: seq<ResultRow>, n: nat, k: nat): int
    requires n <= |res|
  {
    if n == 0 then 0 else ColumnSum(res, n - 1, k) + (if k < |res[n - 1].counts| then res[n - 1].counts[k] else 0)
  }

  /**
   * `get_topbar_data(...)`: the stripped parameters with the end date moved a day later;
   * both dates are then required (KeyError). Entries 0 to 2 add the windows' counts up
   * over the locations of the rows `add_sample_search_filters` keeps with the dates
   * ignored (`searchQuery` stands for that function, which is not part of this model);
   * entries 3 to 6 count the window's notifications by outcome and channel; entry 7 is the
   * deposited kits minus the samples taken since the start, counted only when some
   * deposit exists.
   */
  method GetTopbarData(p: Params, rows: seq<SampleRow>, notes: seq<Notification>, deposits: seq<Deposit>,
                       parseDate: string -> Option<int>, searchQuery: (map<string, FilterArg>, bool) -> Query)
    returns (r: Result<seq<int>, string>)
    ensures var a := ParseParams(p, true, 1, parseDate);
      a.Failure? ==> r == Failure(a.error)
    ensures var a := ParseParams(p, true, 1, parseDate);
      a.Success? && ("start_date" !in a.value || "end_date" !in a.value) ==> r == Failure("KeyError")
    ensures var a := ParseParams(p, true, 1, parseDate);
      a.Success? && "start_date" in a.value && "end_date" in a.value ==>
        && DatesAreDays(a.value) && r.Success?
        && var start, end := a.value["start_date"].day, a.value["end_date"].day;
           var sel := Select(rows, searchQuery(a.value, true));
           r.value == Topbar(sel, rows, notes, deposits, start, end)
  {
    var a := ParseParams(p, true, 1, parseDate);
    if a.Failure? {
      return Failure(a.error);
    }
    var args := a.value;
    ParsedParamsComplete(p, true, 1, parseDate);
    if "start_date" !in args || "end_date" !in args {
      return Failure("KeyError");
    }
    var start, end := args["start_date"].day, args["end_date"].day;
    var sel := Select(rows, searchQuery(args, true));
    var response := TopbarTotals(sel, rows, notes, deposits, start, end);
    return Success(response);
  }

  /**
   * The eight entries of the top bar for the selected rows and the window [start, end]:
   * the selected rows taken in the window, a week earlier and two weeks earlier; the
   * window's notifications sent and failed by email, then by text; and the deposited
   * kits less the samples taken since the start, when any deposit exists.
   */
  function Topbar(sel: seq<SampleRow>, rows: seq<SampleRow>, notes: seq<Notification>, deposits: seq<Deposit>,
                  start: int, end: int): seq<int> {
    [Window(sel, start, end), Window(sel, start - 7, end - 7), Window(sel, start - 14, end - 14),
     Sent(notes, start, end, true, "email"), Sent(notes, start, end, false, "email"),
     Sent(notes, start, end, true, "text"), Sent(notes, start, end, false, "text"),
     DepositTotal(deposits) - (if |deposits| > 0 then FromDay(rows, start) else 0)]
  }

  /** The top bar computed from the rows, the notifications and the deposits. */
  method TopbarTotals(sel: seq<SampleRow>, rows: seq<SampleRow>, notes: seq<Notification>, deposits: seq<Deposit>,
                      start: int, end: int) returns (response: seq<int>)
    ensures response == Topbar(sel, rows, notes, deposits, start, end)
  {
    var res := GroupQuery(sel, ByLocation, TopbarCases(start, end));
    var totals := SumWindows(res);
    TopbarWindows(sel, start, end);
    var totalDeposits := DepositTotal(deposits);
    var sampleCount := if |deposits| > 0 then FromDay(rows, start) else 0;
    response := [totals[0], totals[1], totals[2],
                 Sent(notes, start, end, true, "email"), Sent(notes, start, end, false, "email"),
                 Sent(notes, start, end, true, "text"), Sent(notes, start, end, false, "text"),
                 totalDeposits - sampleCount];
  }

  /** The `for result in query` loop: the three window columns added up over the result rows. */
  method SumWindows(res: seq<ResultRow>) returns (totals: seq<int>)
    requires forall j :: 0 <= j < |res| ==> |res[j].counts| == 3
    ensures |totals| == 3 && forall k :: 0 <= k < 3 ==> totals[k] == ColumnSum(res, |res|, k)
  {
    totals := [0, 0, 0];
    var j := 0;
    while j < |res|
      invariant 0 <= j <= |res| && |totals| == 3
      invariant forall k :: 0 <= k < 3 ==> totals[k] == ColumnSum(res, j, k)
    {
      var c := res[j].counts;
      totals := [totals[0] + c[0], totals[1] + c[1], totals[2] + c[2]];
      j := j + 1;
    }
  }

  /** The top bar's grouped columns add up to the window counts over every selected row. */
  lemma TopbarWindows(sel: seq<SampleRow>, start: int, end: int)
    ensures var res := GroupQuery(sel, ByLocation, TopbarCases(start, end));
      && ColumnSum(res, |res|, 0) == Window(sel, start, end)
      && ColumnSum(res, |res|, 1) == Window(sel, start - 7, end - 7)
      && ColumnSum(res, |res|, 2) == Window(sel, start - 14, end - 14)
  {
    var cases := TopbarCases(start, end);
    GroupsAddUp(sel, cases, 0);
    GroupsAddUp(sel, cases, 1);
    GroupsAddUp(sel, cases, 2);
    CountExt(sel, (r: SampleRow) => CaseHolds(cases[0], r), (r: SampleRow) => Midnight(start) <= r.date <= Midnight(end));
    CountExt(sel, (r: SampleRow) => CaseHolds(cases[1], r),
             (r: SampleRow) => Midnight(start - 7) <= r.date <= Midnight(end - 7));
    CountExt(sel, (r: SampleRow) => CaseHolds(cases[2], r),
             (r: SampleRow) => Midnight(start - 14) <= r.date <= Midnight(end - 14));
  }

  /** Added up over the groups of a GROUP BY location, a count column counts every row once. */
  lemma GroupsAddUp(sel: seq<SampleRow>, cases: seq<Case>, k: nat)
    requires k < |cases|
    ensures var res := GroupQuery(sel, ByLocation, cases);
      ColumnSum(res, |res|, k) == Count(sel, (r: SampleRow) => CaseHolds(cases[k], r))
  {
    var res := GroupQuery(sel, ByLocation, cases);
    var ks := Sites(sel, ByLocation);
    var key := (r: SampleRow) => SiteOf(ByLocation, r);
    var p := (r: SampleRow) => CaseHolds(cases[k], r);
    var pk := (s: Site) => (x: SampleRow) => key(x) == s && p(x);
    var f := (s: Site) => Count(sel, pk(s));
    forall j | 0 <= j < |res| ensures k < |res[j].counts| && res[j].counts[k] == f(ks[j]) {
      CountExt(sel, r => SiteOf(ByLocation, r) == ks[j] && CaseHolds(cases[k], r), pk(ks[j]));
    }
    ColumnSumIsSumOf(res, |res|, k, ks, f);
    assert ks[..|res|] == ks;
    forall i | 0 <= i < |sel| ensures key(sel[i]) in ks {
      assert Present(sel, ByLocation, key(sel[i]));
    }
    CountPartition(sel, key, ks, p, pk, f);
  }

  lemma {:induction false} ColumnSumIsSumOf(res: seq<ResultRow>, n: nat, k: nat, ks: seq<Site>, f: Site -> int)
    requires n <= |res| == |ks|
    requires forall j :: 0 <= j < |res| ==> k < |res[j].counts| && res[j].counts[k] == f(ks[j])
    ensures ColumnSum(res, n, k) == SumOf(ks[..n], f)
    decreases n
  {
    if n > 0 {
      ColumnSumIsSumOf(res, n - 1, k, ks, f);
      assert ks[..n][..n - 1] == ks[..n - 1];
    }
  }

  /** Entries 3 to 6 count every email and text attempt dated in the window exactly once. */
  lemma OutcomesAddUp(notes: seq<Notification>, a: int, b: int)
    ensures Sent(notes, a, b, true, "email") + Sent(notes, a, b, false, "email")
          + Sent(notes, a, b, true, "text") + Sent(notes, a, b, false, "text")
         == Count(notes, (n: Notification) => Attempted(n, a, b, "email") || Attempted(n, a, b, "text"))
  {
    CountSplit(notes, (n: Notification) => Attempted(n, a, b, "email") || Attempted(n, a, b, "text"),
               (n: Notification) => Attempted(n, a, b, "email"), (n: Notification) => Attempted(n, a, b, "text"));
    CountSplit(notes, (n: Notification) => Attempted(n, a, b, "email"),
               (n: Notification) => Attempted(n, a, b, "email") && n.successful == true,
               (n: Notification) => Attempted(n, a, b, "email") && n.successful == false);
    CountSplit(notes, (n: Notification) => Attempted(n, a, b, "text"),
               (n: Notification) => Attempted(n, a, b, "text") && n.successful == true,
               (n: Notification) => Attempted(n, a, b, "text") && n.successful == false);
  }

  // -------------------------------------------------------------------- get_samples

  /** `ORDER BY last_modified` as PostgreSQL sorts ascending: NULLs after every value. */
  predicate ModifiedNoLater(a: SampleRow, b: SampleRow) {
    b.lastModified.None? || (a.lastModified.Some? && a.lastModified.value <= b.lastModified.value)
  }

  predicate OrderedByModified(s: seq<SampleRow>) {
    forall i, j :: 0 <= i < j < |s| ==> ModifiedNoLater(s[i], s[j])
  }

  /** The order is transitive, so sortedness needs checking only against earlier elements. */
  lemma ModifiedNoLaterTransitive(a: SampleRow, b: SampleRow, c: SampleRow)
    requires ModifiedNoLater(a, b) && ModifiedNoLater(b, c)
    ensures ModifiedNoLater(a, c)
  {
  }

  /** `x` placed before the first element it is not later than. */
  function InsertByModified(x: SampleRow, s: seq<SampleRow>): (r: seq<SampleRow>)
    ensures multiset(r) == multiset(s) + multiset{x}
    ensures forall y :: y in r ==> y == x || y in s
    decreases |s|
  {
    if s == [] then [x]
    else if ModifiedNoLater(x, s[0]) then [x] + s
    else
      assert s == [s[0]] + s[1..];
      [s[0]] + InsertByModified(x, s[1..])
  }

  /** Inserting into an ordered sequence keeps it ordered. */
  lemma {:induction false} InsertOrdered(x: SampleRow, s: seq<SampleRow>)
    requires OrderedByModified(s)
    ensures OrderedByModified(InsertByModified(x, s))
    decreases |s|
  {
    if s != [] {
      if ModifiedNoLater(x, s[0]) {
        forall j | 0 <= j < |s| ensures ModifiedNoLater(x, s[j]) {
          if j > 0 {
            ModifiedNoLaterTransitive(x, s[0], s[j]);
          }
        }
        assert forall j :: 0 < j < |s| + 1 ==> ([x] + s)[j] == s[j - 1];
      } else {
        var rest := InsertByModified(x, s[1..]);
        InsertOrdered(x, s[1..]);
        forall k | 0 <= k < |rest| ensures ModifiedNoLater(s[0], rest[k]) {
          assert rest[k] in rest;
          if rest[k] != x {
            var m :| 0 <= m < |s[1..]| && s[1..][m] == rest[k];
            assert ModifiedNoLater(s[0], s[m + 1]);
          }
        }
        assert forall k :: 0 < k < |rest| + 1 ==> ([s[0]] + rest)[k] == rest[k - 1];
      }
    }
  }

  /**
   * The rows in `ORDER BY last_modified` order. SQL leaves the order of equal keys open;
   * this model keeps them in table order.
   */
  function OrderByModified(rows: seq<SampleRow>): (r: seq<SampleRow>)
    ensures multiset(r) == multiset(rows)
    ensures OrderedByModified(r)
    decreases |rows|
  {
    if rows == [] then []
    else
      assert rows == [rows[0]] + rows[1..];
      var rest := OrderByModified(rows[1..]);
      InsertOrdered(rows[0], rest);
      InsertByModified(rows[0], rest)
  }

  /** An index of a Python slice bound, counted from the end when negative, within [0, n]. */
  function SliceBound(i: int, n: nat): (b: nat)
    ensures b <= n
  {
    if i < 0 then (if n + i < 0 then 0 else n + i) else if i > n then n else i
  }

  /** Python's `s[lo:hi]` on a list. */
  function PySlice<T>(s: seq<T>, lo: int, hi: int): (r: seq<T>)
    ensures |r| <= |s|
  {
    var a, b := SliceBound(lo, |s|), SliceBound(hi, |s|);
    if a < b then s[a..b] else []
  }

  /** The rows modified strictly after `lm`; a NULL `last_modified` is never after anything. */
  function ModifiedAfter(rows: seq<SampleRow>, lm: int): seq<SampleRow> {
    Where(rows, (r: SampleRow) => r.lastModified.Some? && r.lastModified.value > lm)
  }

  /**
   * `get_samples(...)`: the stripped parameters; the rows `add_sample_search_filters`
   * keeps with them (`searchQuery`, not part of this model); when `last_modified` is a
   * non-empty text, only rows modified strictly after the instant it names
   * (`parseInstant`; None where `fromisoformat` raises); ordered by `last_modified`;
   * then rows 10·page to 10·page + 10 of that order.
   */
  function GetSamples(p: Params, lastModified: Option<string>, page: int, rows: seq<SampleRow>,
                      parseDate: string -> Option<int>, parseInstant: string -> Option<int>,
                      searchQuery: (map<string, FilterArg>, bool) -> Query): (r: Result<seq<SampleRow>, string>)
    ensures r.Failure? ==> r.error == "ValueError"
  {
    var a := ParseParams(p, true, 0, parseDate);
    if a.Failure? then Failure(a.error)
    else
      var sel := Select(rows, searchQuery(a.value, false));
      if lastModified.Some? && lastModified.value != "" && parseInstant(lastModified.value).None? then
        Failure("ValueError")
      else
        var kept := if lastModified.Some? && lastModified.value != ""
                    then ModifiedAfter(sel, parseInstant(lastModified.value).value) else sel;
        Success(PySlice(OrderByModified(kept), page * 10, page * 10 + 10))
  }

  /**
   * A slice holds elements of the sequence, consecutive from the start bound, and keeps
   * the sequence's order; a page of width ten holds at most ten.
   */
  lemma SliceOfOrdered(s: seq<SampleRow>, lo: int, hi: int)
    ensures var r, a := PySlice(s, lo, hi), SliceBound(lo, |s|);
      && (forall i :: 0 <= i < |r| ==> a + i < |s| && r[i] == s[a + i])
      && (OrderedByModified(s) ==> OrderedByModified(r))
      && (hi == lo + 10 && lo >= 0 ==> |r| <= 10)
  {
  }

  /**
   * A page holds at most ten rows, in `last_modified` order, each a row the search keeps;
   * with a `last_modified` text, each was modified strictly after the instant it names.
   */
  lemma SamplesPage(p: Params, lastModified: Option<string>, page: int, rows: seq<SampleRow>,
                    parseDate: string -> Option<int>, parseInstant: string -> Option<int>,
                    searchQuery: (map<string, FilterArg>, bool) -> Query)
    requires GetSamples(p, lastModified, page, rows, parseDate, parseInstant, searchQuery).Success?
    ensures var a := ParseParams(p, true, 0, parseDate).value;
      var sel := Select(rows, searchQuery(a, false));
      var out := GetSamples(p, lastModified, page, rows, parseDate, parseInstant, searchQuery).value;
      && |out| <= 10
      && OrderedByModified(out)
      && (forall i :: 0 <= i < |out| ==> out[i] in sel)
      && (lastModified.Some? && lastModified.value != "" ==>
            forall i :: 0 <= i < |out| ==>
              out[i].lastModified.Some? && out[i].lastModified.value > parseInstant(lastModified.value).value)
  {
    var a := ParseParams(p, true, 0, parseDate).value;
    var sel := Select(rows, searchQuery(a, false));
    var given := lastModified.Some? && lastModified.value != "";
    var lm := if given then parseInstant(lastModified.value).value else 0;
    var newer := (r: SampleRow) => r.lastModified.Some? && r.lastModified.value > lm;
    var kept := if given then ModifiedAfter(sel, lm) else sel;
    var ordered := OrderByModified(kept);
    var out := PySlice(ordered, page * 10, page * 10 + 10);
    assert out == GetSamples(p, lastModified, page, rows, parseDate, parseInstant, searchQuery).value;
    SliceOfOrdered(ordered, page * 10, page * 10 + 10);
    KeptRows(sel, kept, ordered, out, given, newer);
  }

  /** Rows of a page of the ordered kept rows are kept rows, and so selected and, if filtered, newer. */
  lemma KeptRows(sel: seq<SampleRow>, kept: seq<SampleRow>, ordered: seq<SampleRow>, out: seq<SampleRow>,
                 given: bool, newer: SampleRow -> bool)
    requires given ==> kept == Where(sel, newer)
    requires !given ==> kept == sel
    requires multiset(ordered) == multiset(kept)
    requires forall i :: 0 <= i < |out| ==> out[i] in ordered
    ensures forall i :: 0 <= i < |out| ==> out[i] in sel && (given ==> newer(out[i]))
  {
    forall i | 0 <= i < |out| ensures out[i] in sel && (given ==> newer(out[i])) {
      assert out[i] in multiset(ordered);
      var k :| 0 <= k < |kept| && kept[k] == out[i];
      if given {
        WhereSubset(sel, newer, k);
      }
    }
  }
}
