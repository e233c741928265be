/**
 * The data behind the index page (`index()` in communicator/__init__.py): the search the
 * session's stored filter makes of the Sample table, the grouping of the matching samples
 * by location code and station code, the weekday tally and the headline counts.
 *
 * `table` is the Sample table in the order of the page's query (newest first); `today`
 * is `date.today()` as a day number. Raising is a `Failure` carrying the exception.
 */
module IndexView {
  import opened Wrappers
  import opened Text
  import opened Clock
  import opened SampleModel
  import opened Counting
  import opened Filters
  import opened Errors

  /**
   * `session["index_filter"]`: each key is present only when the search form's field was
   * truthy. Dates are day numbers.
   */
  datatype IndexFilter = IndexFilter(
    startDate: Option<int>,
    endDate: Option<int>,
    studentId: Option<string>,
    location: Option<string>,
    email: Option<string>)

  /** A filter with no keys, as a cleared session holds it. */
  const NoKeys := IndexFilter(None, None, None, None, None)

  // ------------------------------------------------------------------- the search

  /** The conditions one stored filter puts on the query, key by key. */
  function FilterConditions(f: IndexFilter, today: int): Query {
    [DateFrom(if f.startDate.Some? then f.startDate.value else today)]
    + (if f.endDate.Some? then [DateUntil(f.endDate.value)] else [])
    + (if f.studentId.Some? then [StudentIdIn(Words(f.studentId.value))] else [])
    + (if f.location.Some? then [LocationIn(Words(f.location.value))] else [])
    + (if f.email.Some? then [EmailPrefix(f.email.value)] else [])
  }

  /** The query's conditions; with no stored filter only today's results are asked for. */
  function Conditions(stored: Option<IndexFilter>, today: int): Query {
    if stored.Some? then FilterConditions(stored.value, today) else [DateFrom(today)]
  }

  /** The rows `filtered_samples` returns. */
  function Selected(table: seq<SampleRow>, stored: Option<IndexFilter>, today: int): seq<SampleRow> {
    Select(table, Conditions(stored, today))
  }

  /** The session's filter afterwards: a missing start date is written back as today. */
  function StoredAfter(stored: Option<IndexFilter>, today: int): (after: Option<IndexFilter>)
    ensures after.Some? <==> stored.Some?
    ensures stored.Some? ==> after.value.startDate.Some?
    ensures stored.Some? && stored.value.startDate.Some? ==> after == stored
    ensures stored.Some? && stored.value.startDate.None? ==> after == Some(stored.value.(startDate := Some(today)))
  {
    if stored.Some? && stored.value.startDate.None? then Some(stored.value.(startDate := Some(today))) else stored
  }

  lemma AdmitsAppend(p: Query, q: Query, r: SampleRow)
    ensures Admits(p + q, r) <==> Admits(p, r) && Admits(q, r)
  {
    if Admits(p, r) && Admits(q, r) {
      forall i | 0 <= i < |p + q| ensures Matches((p + q)[i], r) {
        if i >= |p| {
          assert (p + q)[i] == q[i - |p|];
        }
      }
    }
    if Admits(p + q, r) {
      forall i | 0 <= i < |p| ensures Matches(p[i], r) {
        assert (p + q)[i] == p[i];
      }
      forall i | 0 <= i < |q| ensures Matches(q[i], r) {
        assert (p + q)[|p| + i] == q[i];
      }
    }
  }

  lemma AdmitsOne(c: Filter, r: SampleRow)
    ensures Admits([c], r) <==> Matches(c, r)
  {
    assert [c][0] == c;
  }

  /**
   * What a row must satisfy to be listed: on or after midnight of the start day (today
   * when the filter has none), at or before midnight of the end day, a student id and a
   * location among the whitespace-separated words of those keys, and an email beginning
   * with the email key, ignoring case.
   */
  lemma {:induction false} FilterAdmits(f: IndexFilter, today: int, r: SampleRow)
    ensures Admits(FilterConditions(f, today), r) <==>
      && r.date >= Midnight(if f.startDate.Some? then f.startDate.value else today)
      && (f.endDate.Some? ==> r.date <= Midnight(f.endDate.value))
      && (f.studentId.Some? ==> Listed(Words(f.studentId.value), r.studentId))
      && (f.location.Some? ==> Listed(Words(f.location.value), r.location))
      && (f.email.Some? ==> r.email.Some? && IsPrefix(Lower(f.email.value), Lower(r.email.value)))
  {
    var start := [DateFrom(if f.startDate.Some? then f.startDate.value else today)];
    var e := if f.endDate.Some? then [DateUntil(f.endDate.value)] else [];
    var s := if f.studentId.Some? then [StudentIdIn(Words(f.studentId.value))] else [];
    var l := if f.location.Some? then [LocationIn(Words(f.location.value))] else [];
    var m := if f.email.Some? then [EmailPrefix(f.email.value)] else [];
    assert FilterConditions(f, today) == start + e + s + l + m;
    AdmitsAppend(start + e + s + l, m, r);
    AdmitsAppend(start + e + s, l, r);
    AdmitsAppend(start + e, s, r);
    AdmitsAppend(start, e, r);
    AdmitsOne(start[0], r);
    if f.endDate.Some? { AdmitsOne(e[0], r); }
    if f.studentId.Some? { AdmitsOne(s[0], r); }
    if f.location.Some? { AdmitsOne(l[0], r); }
    if f.email.Some? { AdmitsOne(m[0], r); }
  }

  /** With no stored filter the query is that of a filter with no keys: today's results. */
  lemma NoFilterIsToday(today: int, r: SampleRow)
    ensures Admits(Conditions(None, today), r) <==> r.date >= Midnight(today)
    ensures Conditions(None, today) == Conditions(Some(NoKeys), today)
  {
    AdmitsOne(DateFrom(today), r);
  }

  // -------------------------------------------------------------- the graph range

  /** The graph's first day: the stored start, else today. */
  function RangeStart(stored: Option<IndexFilter>, today: int): int {
    if stored.Some? && stored.value.startDate.Some? then stored.value.startDate.value else today
  }

  /** The graph's last day: the stored end, else a week from today. */
  function RangeEnd(stored: Option<IndexFilter>, today: int): int {
    if stored.Some? && stored.value.endDate.Some? then stored.value.endDate.value else today + 7
  }

  /** `abs(start_date - end_date).days`. */
  function DaysApart(start: int, end: int): (d: nat)
    ensures d == start - end || d == end - start
  {
    if start >= end then start - end else end - start
  }

  /** `weeks_apart`: the whole weeks between the dates, and 1 when they are at most a week apart. */
  function WeeksApart(days: nat): (w: int)
    ensures w >= 1
    ensures days > 7 ==> 7 * w <= days < 7 * w + 7
    ensures days <= 7 ==> w == 1
  {
    if days > 7 then days / 7 else 1
  }

  // ---------------------------------------------------------------- the grouping loop

  /** `str(entry.location)[:2]`, the location code. */
  function LocCode(r: SampleRow): string {
    var s := IntToString(r.location);
    if |s| <= 2 then s else s[..2]
  }

  /** `str(entry.location)[2:]`, the station code. */
  function StatCode(r: SampleRow): string {
    var s := IntToString(r.location);
    if |s| <= 2 then "" else s[2..]
  }

  /** The two codes split the location's numeral: together they read back as the location. */
  lemma CodesSplitLocation(r: SampleRow)
    ensures LocCode(r) + StatCode(r) == IntToString(r.location)
    ensures ParseInt(LocCode(r) + StatCode(r)) == Some(r.location)
    ensures |LocCode(r)| <= 2
  {
    ParseIntOfIntToString(r.location);
  }

  /** The rows whose key is `k`. */
  function Having(key: SampleRow -> string, k: string): SampleRow -> bool {
    (r: SampleRow) => key(r) == k
  }

  /** `entry.date.timestamp()` of each row, in order. */
  function Times(rows: seq<SampleRow>): (ts: seq<int>)
    ensures |ts| == |rows| && forall j :: 0 <= j < |rows| ==> ts[j] == Timestamp(rows[j].date)
  {
    seq(|rows|, j requires 0 <= j < |rows| => Timestamp(rows[j].date))
  }

  /** Each group holds the rows with its key, in order. */
  ghost predicate GroupsHold(rows: seq<SampleRow>, loc: SampleRow -> string, locationData: map<string, seq<SampleRow>>) {
    forall k :: k in locationData ==> locationData[k] == Where(rows, Having(loc, k))
  }

  /** Each group's timestamps are those of its rows, in the same order. */
  ghost predicate TimesMatch(locationData: map<string, seq<SampleRow>>, sampleTimes: map<string, seq<int>>) {
    && sampleTimes.Keys == locationData.Keys
    && forall k :: k in locationData ==> sampleTimes[k] == Times(locationData[k])
  }

  /**
   * The two dictionaries and the set the loop builds, for group keys `loc` and station
   * keys `stat`: one group per key that occurs, holding its rows in order, the timestamps
   * of the same rows in the same order, and every station key that occurs.
   */
  ghost predicate GroupedBy(rows: seq<SampleRow>, loc: SampleRow -> string, stat: SampleRow -> string,
                            locationData: map<string, seq<SampleRow>>, sampleTimes: map<string, seq<int>>,
                            activeStations: set<string>) {
    && locationData.Keys == Image(rows, loc)
    && GroupsHold(rows, loc, locationData)
    && TimesMatch(locationData, sampleTimes)
    && activeStations == Image(rows, stat)
  }

  /** The grouping of the index page: by location code, with the station codes collected. */
  ghost predicate Grouped(rows: seq<SampleRow>, locationData: map<string, seq<SampleRow>>,
                          sampleTimes: map<string, seq<int>>, activeStations: set<string>) {
    GroupedBy(rows, LocCode, StatCode, locationData, sampleTimes, activeStations)
  }

  lemma WhereSnoc<T>(xs: seq<T>, x: T, p: T -> bool)
    ensures Where(xs + [x], p) == if p(x) then Where(xs, p) + [x] else Where(xs, p)
  {
    assert (xs + [x])[..|xs|] == xs;
  }

  /** A key that has not occurred has an empty group. */
  lemma NoGroupOutsideImage(rows: seq<SampleRow>, loc: SampleRow -> string, k: string)
    requires k !in Image(rows, loc)
    ensures Where(rows, Having(loc, k)) == []
  {
    ImageIff(rows, loc, k);
    CountNone(rows, Having(loc, k));
  }

  /** One more row: the image of a key function grows by that row's key. */
  lemma ImageSnoc<T, K>(xs: seq<T>, x: T, key: T -> K)
    ensures Image(xs + [x], key) == Image(xs, key) + {key(x)}
  {
    assert (xs + [x])[..|xs|] == xs;
  }

  /** The first loop over `filtered_samples`. */
  method GroupByLocation(rows: seq<SampleRow>)
    returns (locationData: map<string, seq<SampleRow>>, sampleTimes: map<string, seq<int>>,
             activeStations: set<string>)
    ensures Grouped(rows, locationData, sampleTimes, activeStations)
  {
    locationData, sampleTimes, activeStations := map[], map[], {};
    for i := 0 to |rows|
      invariant GroupedBy(rows[..i], LocCode, StatCode, locationData, sampleTimes, activeStations)
    {
      var entry := rows[i];
      var loc, stat := LocCode(entry), StatCode(entry);
      if loc !in locationData {
        OpenGroup(rows, i, LocCode, StatCode, locationData, sampleTimes, activeStations);
        locationData := locationData[loc := [entry]];
        sampleTimes := sampleTimes[loc := [Timestamp(entry.date)]];
      } else {
        AppendToGroup(rows, i, LocCode, StatCode, locationData, sampleTimes, activeStations);
        locationData := locationData[loc := locationData[loc] + [entry]];
        sampleTimes := sampleTimes[loc := sampleTimes[loc] + [Timestamp(entry.date)]];
      }
      activeStations := activeStations + {stat};
    }
    assert rows[..|rows|] == rows;
  }

  /** The loop's `if` branch: a new location code. */
  lemma OpenGroup(rows: seq<SampleRow>, i: nat, loc: SampleRow -> string, stat: SampleRow -> string,
                  locationData: map<string, seq<SampleRow>>, sampleTimes: map<string, seq<int>>,
                  activeStations: set<string>)
    requires i < |rows| && loc(rows[i]) !in locationData
    requires GroupedBy(rows[..i], loc, stat, locationData, sampleTimes, activeStations)
    ensures GroupedBy(rows[..i + 1], loc, stat, locationData[loc(rows[i]) := [rows[i]]],
                      sampleTimes[loc(rows[i]) := [Timestamp(rows[i].date)]], activeStations + {stat(rows[i])})
  {
    ImagesStep(rows, i, loc, stat);
    NewGroup(rows, i, loc, locationData);
    TimesNew(locationData, sampleTimes, rows[i], loc(rows[i]));
  }

  /** The loop's `else` branch: a location code already met. */
  lemma AppendToGroup(rows: seq<SampleRow>, i: nat, loc: SampleRow -> string, stat: SampleRow -> string,
                      locationData: map<string, seq<SampleRow>>, sampleTimes: map<string, seq<int>>,
                      activeStations: set<string>)
    requires i < |rows| && loc(rows[i]) in locationData
    requires GroupedBy(rows[..i], loc, stat, locationData, sampleTimes, activeStations)
    ensures var c := loc(rows[i]);
      GroupedBy(rows[..i + 1], loc, stat, locationData[c := locationData[c] + [rows[i]]],
                sampleTimes[c := sampleTimes[c] + [Timestamp(rows[i].date)]], activeStations + {stat(rows[i])})
  {
    ImagesStep(rows, i, loc, stat);
    ExtendGroup(rows, i, loc, locationData);
    TimesExtend(locationData, sampleTimes, rows[i], loc(rows[i]));
  }

  /** The codes met so far grow by the next row's codes. */
  lemma ImagesStep(rows: seq<SampleRow>, i: nat, loc: SampleRow -> string, stat: SampleRow -> string)
    requires i < |rows|
    ensures Image(rows[..i + 1], loc) == Image(rows[..i], loc) + {loc(rows[i])}
    ensures Image(rows[..i + 1], stat) == Image(rows[..i], stat) + {stat(rows[i])}
  {
    assert rows[..i + 1] == rows[..i] + [rows[i]];
    ImageSnoc(rows[..i], rows[i], loc);
    ImageSnoc(rows[..i], rows[i], stat);
  }

  /** An iteration that meets a new location code opens its group with the row. */
  lemma NewGroup(rows: seq<SampleRow>, i: nat, loc: SampleRow -> string, locationData: map<string, seq<SampleRow>>)
    requires i < |rows|
    requires locationData.Keys == Image(rows[..i], loc) && GroupsHold(rows[..i], loc, locationData)
    requires loc(rows[i]) !in locationData
    ensures GroupsHold(rows[..i + 1], loc, locationData[loc(rows[i]) := [rows[i]]])
  {
    var done, entry, c := rows[..i], rows[i], loc(rows[i]);
    assert rows[..i + 1] == done + [entry];
    assert Where(done, Having(loc, c)) + [entry] == [entry] by { NoGroupOutsideImage(done, loc, c); }
    GroupsGrow(done, entry, loc, locationData, locationData[c := [entry]]);
  }

  /** An iteration that meets a known location code appends the row to its group. */
  lemma ExtendGroup(rows: seq<SampleRow>, i: nat, loc: SampleRow -> string, locationData: map<string, seq<SampleRow>>)
    requires i < |rows|
    requires GroupsHold(rows[..i], loc, locationData)
    requires loc(rows[i]) in locationData
    ensures GroupsHold(rows[..i + 1], loc, locationData[loc(rows[i]) := locationData[loc(rows[i])] + [rows[i]]])
  {
    var done, entry, c := rows[..i], rows[i], loc(rows[i]);
    assert rows[..i + 1] == done + [entry];
    GroupsGrow(done, entry, loc, locationData, locationData[c := locationData[c] + [entry]]);
  }

  lemma TimesNew(locationData: map<string, seq<SampleRow>>, sampleTimes: map<string, seq<int>>,
                 entry: SampleRow, c: string)
    requires TimesMatch(locationData, sampleTimes)
    ensures TimesMatch(locationData[c := [entry]], sampleTimes[c := [Timestamp(entry.date)]])
  {
    assert Times([entry]) == [Timestamp(entry.date)];
  }

  lemma TimesExtend(locationData: map<string, seq<SampleRow>>, sampleTimes: map<string, seq<int>>,
                    entry: SampleRow, c: string)
    requires TimesMatch(locationData, sampleTimes) && c in locationData
    ensures TimesMatch(locationData[c := locationData[c] + [entry]],
                       sampleTimes[c := sampleTimes[c] + [Timestamp(entry.date)]])
  {
    assert Times(locationData[c] + [entry]) == sampleTimes[c] + [Timestamp(entry.date)];
  }

  /** The groups after the row: the row's group gains it, the others stay. */
  lemma GroupsGrow(done: seq<SampleRow>, entry: SampleRow, loc: SampleRow -> string,
                   before: map<string, seq<SampleRow>>, after: map<string, seq<SampleRow>>)
    requires GroupsHold(done, loc, before)
    requires loc(entry) in after && after[loc(entry)] == Where(done, Having(loc, loc(entry))) + [entry]
    requires forall k :: k in after && k != loc(entry) ==> k in before && after[k] == before[k]
    ensures GroupsHold(done + [entry], loc, after)
  {
    forall k | k in after ensures after[k] == Where(done + [entry], Having(loc, k)) {
      WhereSnoc(done, entry, Having(loc, k));
    }
  }

  /**
   * Each row lands in exactly one group: over the distinct location codes, in order of
   * first appearance, the groups' sizes add up to the number of selected rows.
   */
  lemma GroupsPartition(rows: seq<SampleRow>, locationData: map<string, seq<SampleRow>>,
                        sampleTimes: map<string, seq<int>>, activeStations: set<string>)
    requires Grouped(rows, locationData, sampleTimes, activeStations)
    ensures var codes := Distinct(Keys(rows, LocCode));
      && (forall k :: k in locationData <==> k in codes)
      && SumOf(codes, SizeOf(locationData)) == |rows|
  {
    GroupSizes(rows, LocCode, locationData);
  }

  lemma GroupSizes(rows: seq<SampleRow>, loc: SampleRow -> string, locationData: map<string, seq<SampleRow>>)
    requires locationData.Keys == Image(rows, loc) && GroupsHold(rows, loc, locationData)
    ensures var codes := Distinct(Keys(rows, loc));
      && (forall k :: k in locationData <==> k in codes)
      && SumOf(codes, SizeOf(locationData)) == |rows|
  {
    var codes := Distinct(Keys(rows, loc));
    CodesAreImage(rows, loc, codes);
    var count := k => Count(rows, Having(loc, k));
    SizesAreCounts(rows, loc, locationData, codes, count);
    SumOfExt(codes, SizeOf(locationData), count);
    RowsPartition(rows, loc, codes, count);
  }

  /** The size of each group, zero for a key with none. */
  function SizeOf(locationData: map<string, seq<SampleRow>>): string -> int {
    k => if k in locationData then |locationData[k]| else 0
  }

  lemma SizesAreCounts(rows: seq<SampleRow>, loc: SampleRow -> string, locationData: map<string, seq<SampleRow>>,
                       codes: seq<string>, count: string -> int)
    requires GroupsHold(rows, loc, locationData)
    requires forall k :: k in codes ==> k in locationData
    requires forall k :: count(k) == Count(rows, Having(loc, k))
    ensures forall i :: 0 <= i < |codes| ==> SizeOf(locationData)(codes[i]) == count(codes[i])
  {
    forall i | 0 <= i < |codes| ensures SizeOf(locationData)(codes[i]) == count(codes[i]) {
      var k := codes[i];
      assert k in locationData;
      assert |Where(rows, Having(loc, k))| == Count(rows, Having(loc, k));
    }
  }

  /** The distinct keys are the keys that occur. */
  lemma CodesAreImage(rows: seq<SampleRow>, loc: SampleRow -> string, codes: seq<string>)
    requires codes == Distinct(Keys(rows, loc))
    ensures forall k :: k in Image(rows, loc) <==> k in codes
  {
    forall k ensures k in Image(rows, loc) <==> k in codes {
      ImageIff(rows, loc, k);
      if k in codes {
        var j :| 0 <= j < |Keys(rows, loc)| && Keys(rows, loc)[j] == k;
      }
      if k in Image(rows, loc) {
        var i :| 0 <= i < |rows| && loc(rows[i]) == k;
        assert Keys(rows, loc)[i] == k;
      }
    }
  }

  /** The per-key counts over the distinct keys add up to all rows. */
  lemma RowsPartition(rows: seq<SampleRow>, loc: SampleRow -> string, codes: seq<string>, count: string -> int)
    requires codes == Distinct(Keys(rows, loc))
    requires forall k :: count(k) == Count(rows, Having(loc, k))
    ensures SumOf(codes, count) == |rows|
  {
    var all := (r: SampleRow) => true;
    var pk := (k: string) => (r: SampleRow) => loc(r) == k && all(r);
    forall i | 0 <= i < |rows| ensures loc(rows[i]) in codes {
      assert Keys(rows, loc)[i] == loc(rows[i]);
    }
    forall k ensures count(k) == Count(rows, pk(k)) {
      CountExt(rows, Having(loc, k), pk(k));
    }
    CountPartition(rows, loc, codes, all, pk, count);
    CountAll(rows);
  }

  lemma {:induction false} CountAll(rows: seq<SampleRow>)
    ensures Count(rows, (r: SampleRow) => true) == |rows|
    decreases |rows|
  {
    if rows != [] {
      CountAll(rows[..|rows| - 1]);
    }
  }

  // ----------------------------------------------------------------- the weekday tally

  /** The rows taken on weekday `w` (Monday = 0). */
  function OnWeekday(w: int): SampleRow -> bool {
    (r: SampleRow) => Weekday(DayOf(r.date)) == w
  }

  lemma TotalBump(v: seq<int>, w: nat)
    requires w < |v|
    ensures Total(v[w := v[w] + 1]) == Total(v) + 1
    decreases |v|
  {
    if w < |v| - 1 {
      assert v[w := v[w] + 1][..|v| - 1] == v[..|v| - 1][w := v[w] + 1];
      TotalBump(v[..|v| - 1], w);
    } else {
      assert v[w := v[w] + 1][..|v| - 1] == v[..|v| - 1];
    }
  }

  lemma {:induction false} TotalOfZeros(n: nat)
    ensures Total(seq(n, _ => 0)) == 0
  {
    if n > 0 {
      assert seq(n, _ => 0)[..n - 1] == seq(n - 1, _ => 0);
      TotalOfZeros(n - 1);
    }
  }

  /** The second loop: `day_count[entry.date.weekday()] += 1`. */
  method CountWeekdays(rows: seq<SampleRow>) returns (dayCount: seq<int>)
    ensures |dayCount| == 7
    ensures forall w :: 0 <= w < 7 ==> dayCount[w] == Count(rows, OnWeekday(w))
    ensures Total(dayCount) == |rows|
  {
    dayCount := seq(7, _ => 0);
    TotalOfZeros(7);
    for i := 0 to |rows|
      invariant |dayCount| == 7
      invariant forall w :: 0 <= w < 7 ==> dayCount[w] == Count(rows[..i], OnWeekday(w))
      invariant Total(dayCount) == i
    {
      var d := Weekday(DayOf(rows[i].date));
      assert rows[..i + 1][..i] == rows[..i];
      TotalBump(dayCount, d);
      dayCount := dayCount[d := dayCount[d] + 1];
    }
    assert rows[..|rows|] == rows;
  }

  // ------------------------------------------------------------------------ the page

  /**
   * `stats`: the selected rows, the table's rows from midnight today, and the table's rows
   * of the last fourteen days, which the page divides by 14.
   */
  datatype Stats = Stats(all: nat, today: nat, fortnight: nat)

  function From(day: int): SampleRow -> bool {
    (r: SampleRow) => r.date >= Midnight(day)
  }

  /** What the page is rendered from. */
  datatype Page = Page(
    filter: Option<IndexFilter>,
    stats: Stats,
    startDate: int,
    endDate: int,
    weeksApart: int,
    locationData: map<string, seq<SampleRow>>,
    sampleTimes: map<string, seq<int>>,
    activeStations: set<string>,
    dayCount: seq<int>)

  /** The page built for the selected rows, whatever they are. */
  ghost predicate Describes(p: Page, table: seq<SampleRow>, stored: Option<IndexFilter>, today: int) {
    var sel := Selected(table, stored, today);
    && p.filter == StoredAfter(stored, today)
    && p.stats == Stats(|sel|, Count(table, From(today)), Count(table, From(today - 14)))
    && p.startDate == RangeStart(stored, today)
    && p.endDate == RangeEnd(stored, today)
    && p.weeksApart == WeeksApart(DaysApart(p.startDate, p.endDate))
    && Grouped(sel, p.locationData, p.sampleTimes, p.activeStations)
    && |p.dayCount| == 7
    && (forall w :: 0 <= w < 7 ==> p.dayCount[w] == Count(sel, OnWeekday(w)))
    && Total(p.dayCount) == |sel|
  }

  /** Everything after the search: the helper values, both loops and the counts. */
  method BuildPage(table: seq<SampleRow>, stored: Option<IndexFilter>, today: int) returns (p: Page)
    ensures Describes(p, table, stored, today)
  {
    var selected := Select(table, Conditions(stored, today));
    var filter := StoredAfter(stored, today);
    var startDate := RangeStart(stored, today);
    var endDate := RangeEnd(stored, today);
    var weeksApart := WeeksApart(DaysApart(startDate, endDate));
    var locationData, sampleTimes, activeStations := GroupByLocation(selected);
    var stats := Stats(|selected|, Count(table, From(today)), Count(table, From(today - 14)));
    var dayCount := CountWeekdays(selected);
    p := Page(filter, stats, startDate, endDate, weeksApart, locationData, sampleTimes, activeStations, dayCount);
  }

  /**
   * `index()` as written, from line 158. With no stored filter the name `filters` is read
   * before it is ever bound; with no selected row the log line after the second loop reads
   * the loop variable `entry`, which neither loop bound. Both raise UnboundLocalError.
   */
  method Index(table: seq<SampleRow>, stored: Option<IndexFilter>, today: int) returns (r: Result<Page, Raised>)
    ensures stored.None? ==> r == Failure(Other("UnboundLocalError"))
    ensures stored.Some? && Selected(table, stored, today) == [] ==> r == Failure(Other("UnboundLocalError"))
    ensures stored.Some? && Selected(table, stored, today) != [] ==>
      r.Success? && Describes(r.value, table, stored, today)
  {
    if stored.None? {
      return Failure(Other("UnboundLocalError"));
    }
    var p := BuildPage(table, stored, today);
    if Select(table, Conditions(stored, today)) == [] {
      return Failure(Other("UnboundLocalError"));
    }
    return Success(p);
  }

  /**
   * `index()` as its comments intend: without a stored filter the page shows today's
   * results over the week ahead, and an empty selection still yields a page.
   */
  method IndexIntended(table: seq<SampleRow>, stored: Option<IndexFilter>, today: int) returns (p: Page)
    ensures Describes(p, table, stored, today)
  {
    p := BuildPage(table, stored, today);
  }

  // ------------------------------------------------------------- the two unbound names

  /** A query selects nothing exactly when it admits no row of the table. */
  lemma SelectEmpty(table: seq<SampleRow>, q: Query)
    ensures Select(table, q) == [] <==> forall i :: 0 <= i < |table| ==> !Admits(q, table[i])
  {
    CountPositive(table, r => Admits(q, r));
  }

  /**
   * With no stored filter every row dated from today's midnight on is selected, and the
   * selection is empty only when there is no such row. The first-visit failure `Index`
   * states therefore does not come from the search: it happens with today's rows present.
   */
  lemma NoFilterFails(table: seq<SampleRow>, today: int)
    ensures forall i :: 0 <= i < |table| && table[i].date >= Midnight(today) ==>
      table[i] in Selected(table, None, today)
    ensures Selected(table, None, today) == [] <==>
      forall i :: 0 <= i < |table| ==> table[i].date < Midnight(today)
  {
    var q := Conditions(None, today);
    forall i | 0 <= i < |table|
      ensures Admits(q, table[i]) <==> table[i].date >= Midnight(today)
    {
      NoFilterIsToday(today, table[i]);
    }
    forall i | 0 <= i < |table| && table[i].date >= Midnight(today)
      ensures table[i] in Selected(table, None, today)
    {
      WhereKeeps(table, r => Admits(q, r), i);
    }
    SelectEmpty(table, q);
  }

  /**
   * A stored filter selects nothing, so that the log line reads the unbound `entry` and
   * `Index` fails, exactly when no row of the table meets all of its conditions.
   */
  lemma EmptySelectionFails(table: seq<SampleRow>, f: IndexFilter, today: int)
    ensures Selected(table, Some(f), today) == [] <==>
      forall i :: 0 <= i < |table| ==>
        !(&& table[i].date >= Midnight(if f.startDate.Some? then f.startDate.value else today)
          && (f.endDate.Some? ==> table[i].date <= Midnight(f.endDate.value))
          && (f.studentId.Some? ==> Listed(Words(f.studentId.value), table[i].studentId))
          && (f.location.Some? ==> Listed(Words(f.location.value), table[i].location))
          && (f.email.Some? ==> table[i].email.Some? && IsPrefix(Lower(f.email.value), Lower(table[i].email.value))))
  {
    forall i | 0 <= i < |table| {
      FilterAdmits(f, today, table[i]);
    }
    SelectEmpty(table, Conditions(Some(f), today));
  }

  /**
   * The intended page for an empty selection: nothing grouped, all counters zero, and with
   * no stored filter the range runs from today to a week later.
   */
  lemma {:induction false} IntendedEmptyPage(p: Page, table: seq<SampleRow>, today: int)
    requires Describes(p, table, None, today)
    requires Selected(table, None, today) == []
    ensures p.locationData == map[] && p.sampleTimes == map[] && p.activeStations == {}
    ensures p.dayCount == [0, 0, 0, 0, 0, 0, 0] && p.stats.all == 0
    ensures p.startDate == today && p.endDate == today + 7 && p.weeksApart == 1
  {
  }
}
