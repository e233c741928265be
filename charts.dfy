/**
 * What the three per-station charts of communicator/services/graph_service.py hold, entry
 * by entry, in terms of the selected rows: the rotated hourly rates, the closed day
 * buckets and the zero-guarded weekday rates.
 */
module ChartLaws {
  import opened Wrappers
  import opened Clock
  import opened SampleModel
  import opened Counting
  import opened GraphHelpers
  import opened Graphs

  /** Rows at a station whose time satisfies `p`. */
  function AtStation(rows: seq<SampleRow>, site: Site, p: int -> bool): nat {
    Count(rows, (r: SampleRow) => SiteOf(ByStation, r) == site && p(r.date))
  }

  /** A tally column is the count of the group's rows meeting that column's case. */
  lemma TallyColumn(rows: seq<SampleRow>, site: Site, cases: seq<Case>, i: nat, p: int -> bool)
    requires i < |cases|
    requires forall r: SampleRow :: CaseHolds(cases[i], r) == p(r.date)
    ensures Tally(rows, ByStation, site, cases)[i] == AtStation(rows, site, p)
  {
    CountExt(rows, r => SiteOf(ByStation, r) == site && CaseHolds(cases[i], r),
             (r: SampleRow) => SiteOf(ByStation, r) == site && p(r.date));
  }

  /**
   * Hour chart entry j of a charted station is the number of its rows in raw hour
   * (j + 6) mod 24, averaged over the days of the search.
   */
  lemma HourChartEntry(data: Chart, rows: seq<SampleRow>, start: int, end: int, l: int, st: Option<int>, j: nat)
    requires end - start != 0 && j < 24
    requires Charted(data, rows, ByStation, HourCases(), PerDay(start, end)) && l in data && st in data[l]
    ensures |data[l][st]| == 24
    ensures data[l][st][j] == RoundRate(AtStation(rows, Site(l, st), t => HourOf(t) == (j + 6) % 24), end - start)
  {
    assert data[l][st] == Rescale(Tally(rows, ByStation, Site(l, st), HourCases()), PerDay(start, end));
    HourTallyEntry(rows, start, end, Site(l, st), j);
  }

  /** The same entry, for the rescaled tally of one site. */
  lemma HourTallyEntry(rows: seq<SampleRow>, start: int, end: int, site: Site, j: nat)
    requires end - start != 0 && j < 24
    ensures var v := Rescale(Tally(rows, ByStation, site, HourCases()), PerDay(start, end));
      |v| == 24 && v[j] == RoundRate(AtStation(rows, site, t => HourOf(t) == (j + 6) % 24), end - start)
  {
    var t := Tally(rows, ByStation, site, HourCases());
    HourRescale(t, end - start, start, end);
    HourRatesAt(t, end - start, j);
    TallyColumn(rows, site, HourCases(), (j + 6) % 24, t => HourOf(t) == (j + 6) % 24);
  }

  /** Entry j of the hourly rates is raw hour (j + 6) mod 24 over the days. */
  lemma HourRatesAt(raw: seq<int>, days: int, j: nat)
    requires |raw| == 24 && days != 0 && j < 24
    ensures HourRates(raw, days)[j] == RoundRate(raw[(j + 6) % 24], days)
  {
    HourRotation(raw, j);
  }

  /** The stored hour vector is a permutation of the raw hour columns before averaging. */
  lemma HourChartPermutes(raw: seq<int>)
    requires |raw| == 24
    ensures multiset(Rotate(raw, 6)) == multiset(raw)
    ensures forall j :: 0 <= j < 24 ==> Rotate(raw, 6)[j] == raw[(j + 6) % 24]
  {
    RotatePermutes(raw, 6);
    forall j | 0 <= j < 24 ensures Rotate(raw, 6)[j] == raw[(j + 6) % 24] {
      HourRotation(raw, j);
    }
  }

  /**
   * Day chart entry i of a charted station counts its rows from midnight of day start + i
   * to midnight of the next day, both ends included; there is one entry per day of the search.
   */
  lemma DayChartEntry(data: Chart, rows: seq<SampleRow>, start: int, end: int, l: int, st: Option<int>, i: nat)
    requires Charted(data, rows, ByStation, DayCases(start, end), AsCounted) && l in data && st in data[l]
    ensures |data[l][st]| == if end > start then end - start else 0
    ensures i < |data[l][st]| ==>
      data[l][st][i] == AtStation(rows, Site(l, st), t => Midnight(start + i) <= t <= Midnight(start + i + 1))
  {
    assert data[l][st] == Rescale(Tally(rows, ByStation, Site(l, st), DayCases(start, end)), AsCounted);
    if i < |DayCases(start, end)| {
      TallyColumn(rows, Site(l, st), DayCases(start, end), i,
                  t => Midnight(start + i) <= t <= Midnight(start + i + 1));
    }
  }

  /** A row dated exactly at an interior midnight falls in both adjacent day buckets. */
  lemma InteriorMidnightInTwoBuckets(start: int, end: int, i: nat, r: SampleRow)
    requires 0 < i < end - start && r.date == Midnight(start + i)
    ensures CaseHolds(DayCases(start, end)[i - 1], r) && CaseHolds(DayCases(start, end)[i], r)
  {
    var c := DayCases(start, end);
    assert c[i - 1] == Between(Midnight(start + i - 1), Midnight(start + i));
    assert c[i] == Between(Midnight(start + i), Midnight(start + i + 1));
    MidnightMonotone(start + i - 1, start + i);
    MidnightMonotone(start + i, start + i + 1);
  }

  /** A row strictly between two midnights of the search falls in its own day's bucket only. */
  lemma InnerInstantInOneBucket(start: int, end: int, r: SampleRow, k: nat)
    requires k < |DayCases(start, end)|
    requires start <= DayOf(r.date) < end && r.date != Midnight(DayOf(r.date))
    ensures CaseHolds(DayCases(start, end)[k], r) <==> k == DayOf(r.date) - start
  {
    var d := DayOf(r.date);
    DayOfBetweenMidnights(r.date, d);
    if CaseHolds(DayCases(start, end)[k], r) {
      var lo := Midnight(start + k);
      assert lo <= r.date <= Midnight(start + k + 1);
      if start + k < d {
        MidnightMonotone(start + k + 1, d);
      } else if start + k > d {
        MidnightMonotone(d + 1, start + k);
      }
    }
  }

  lemma MidnightMonotone(a: int, b: int)
    requires a <= b
    ensures Midnight(a) <= Midnight(b)
  {
  }

  /**
   * Weekday chart entry d of a charted station is its rows on SQL weekday d, divided by
   * the number of such days in [start, end - 1] when there are some, and as counted otherwise.
   */
  lemma WeekdayChartEntry(data: Chart, rows: seq<SampleRow>, start: int, end: int, l: int, st: Option<int>, d: nat)
    requires d < 7
    requires Charted(data, rows, ByStation, DowCases(), PerWeekday(start, end)) && l in data && st in data[l]
    ensures |data[l][st]| == 7
    ensures var c, n := AtStation(rows, Site(l, st), t => SqlDow(t) == d), DaysOn(start, end - 1, d);
      data[l][st][d] == if n > 0 then RoundRate(c, n) else c
  {
    var t := Tally(rows, ByStation, Site(l, st), DowCases());
    var dows := DowTable(start, end - 1);
    assert data[l][st] == Rescale(t, PerWeekday(start, end));
    WeekdayRescale(t, start, end);
    assert dows[d] == DaysOn(start, end - 1, d);
    TallyColumn(rows, Site(l, st), DowCases(), d, t => SqlDow(t) == d);
  }

  /** The weekday vector a chart stores is WeekdayRates over the weekday table of [start, end - 1]. */
  lemma WeekdayRescale(counts: seq<int>, start: int, end: int)
    requires |counts| == 7
    ensures Rescale(counts, PerWeekday(start, end)) == WeekdayRates(counts, DowTable(start, end - 1))
  {
  }

  /** Every row of a station is counted in exactly one hour column: the columns add up to its rows. */
  lemma HourColumnsPartition(rows: seq<SampleRow>, site: Site)
    ensures Total(Tally(rows, ByStation, site, HourCases())) == AtStation(rows, site, t => true)
  {
    ColumnsPartition(rows, site, HourCases(), t => HourOf(t));
  }

  /** Every row of a station is counted in exactly one weekday column. */
  lemma WeekdayColumnsPartition(rows: seq<SampleRow>, site: Site)
    ensures Total(Tally(rows, ByStation, site, DowCases())) == AtStation(rows, site, t => true)
  {
    ColumnsPartition(rows, site, DowCases(), t => SqlDow(t));
  }

  /** Columns that test each value of a key every row has, once each, add up to the group's rows. */
  lemma ColumnsPartition(rows: seq<SampleRow>, site: Site, cases: seq<Case>, key: int -> int)
    requires forall t :: 0 <= key(t) < |cases|
    requires forall i, r: SampleRow :: 0 <= i < |cases| ==> CaseHolds(cases[i], r) == (key(r.date) == i)
    ensures Total(Tally(rows, ByStation, site, cases)) == AtStation(rows, site, t => true)
  {
    var ks := seq(|cases|, i => i);
    var p := (r: SampleRow) => SiteOf(ByStation, r) == site;
    var k := (r: SampleRow) => key(r.date);
    var pk := c => (x: SampleRow) => k(x) == c && p(x);
    var f := c => Count(rows, pk(c));
    var t := Tally(rows, ByStation, site, cases);
    forall i | 0 <= i < |ks| ensures t[i] == f(ks[i]) {
      CountExt(rows, r => SiteOf(ByStation, r) == site && CaseHolds(cases[i], r), pk(ks[i]));
    }
    forall i | 0 <= i < |rows| ensures k(rows[i]) in ks {
      assert ks[key(rows[i].date)] == k(rows[i]);
    }
    TotalIsSumOf(ks, f, t);
    CountPartition(rows, k, ks, p, pk, f);
    CountExt(rows, p, (r: SampleRow) => SiteOf(ByStation, r) == site && (t => true)(r.date));
  }
}
