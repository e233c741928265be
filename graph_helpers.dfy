/**
 * The module-level helpers of communicator/services/graph_service.py: `dow_count`,
 * `date2datetime`, `daterange`, and the rounding and rotation the bucket builders apply.
 */
module GraphHelpers {
  import opened Clock

  /** The Sunday-first slot `dow_count` increments for a day. */
  function DowSlot(day: int): (i: int)
    ensures 0 <= i < 7
  {
    (1 + Weekday(day)) % 7
  }

  /** How many days of [start, end] fall in Sunday-first slot `i`. */
  function DaysOn(start: int, end: int, i: int): nat
    decreases end - start + 1
  {
    if end < start then 0 else DaysOn(start, end - 1, i) + (if DowSlot(end) == i then 1 else 0)
  }

  /** The weekday table of the days from `start` to `end`, both included, Sunday first. */
  function DowTable(start: int, end: int): (t: seq<int>)
    ensures |t| == 7
  {
    seq(7, i => DaysOn(start, end, i))
  }

  /** `dow_count(start, end)`: seven counters, Sunday first, one increment per day of [start, end]. */
  method DowCount(start: int, end: int) returns (counts: seq<int>)
    ensures counts == DowTable(start, end)
  {
    counts := [0, 0, 0, 0, 0, 0, 0];
    var curr := start;
    while curr <= end
      invariant curr == start || start < curr <= end + 1
      invariant |counts| == 7
      invariant forall i :: 0 <= i < 7 ==> counts[i] == DaysOn(start, curr - 1, i)
      decreases end - curr + 1
    {
      var slot := DowSlot(curr);
      counts := counts[slot := counts[slot] + 1];
      curr := curr + 1;
    }
  }

  /** The slots of a day range add up to the number of days in it, and to 0 when it is empty. */
  lemma {:induction false} DaysOnTotal(start: int, end: int)
    ensures DaysOn(start, end, 0) + DaysOn(start, end, 1) + DaysOn(start, end, 2) + DaysOn(start, end, 3)
          + DaysOn(start, end, 4) + DaysOn(start, end, 5) + DaysOn(start, end, 6)
         == if end < start then 0 else end - start + 1
    decreases end - start + 1
  {
    if end >= start {
      DaysOnTotal(start, end - 1);
    }
  }

  /** Counting over [start, end] is counting over [start, mid] and then over (mid, end]. */
  lemma {:induction false} DaysOnSplit(start: int, mid: int, end: int, i: int)
    requires start - 1 <= mid <= end
    ensures DaysOn(start, end, i) == DaysOn(start, mid, i) + DaysOn(mid + 1, end, i)
    decreases end - mid
  {
    if end > mid {
      DaysOnSplit(start, mid, end - 1, i);
    }
  }

  /** The next day's slot is the next slot, wrapping after Saturday. */
  lemma SlotStep(day: int)
    ensures DowSlot(day + 1) == if DowSlot(day) == 6 then 0 else DowSlot(day) + 1
  {
    SundayFirstIndex(day);
    SundayFirstIndex(day + 1);
  }

  /** Seven consecutive days hit every slot exactly once. */
  lemma OneWeek(first: int, i: int)
    requires 0 <= i < 7
    ensures DaysOn(first, first + 6, i) == 1
  {
    SlotStep(first);
    SlotStep(first + 1);
    SlotStep(first + 2);
    SlotStep(first + 3);
    SlotStep(first + 4);
    SlotStep(first + 5);
    UnfoldWeek(first, i);
  }

  lemma UnfoldWeek(first: int, i: int)
    ensures DaysOn(first, first + 6, i)
        == (if DowSlot(first) == i then 1 else 0) + (if DowSlot(first + 1) == i then 1 else 0)
         + (if DowSlot(first + 2) == i then 1 else 0) + (if DowSlot(first + 3) == i then 1 else 0)
         + (if DowSlot(first + 4) == i then 1 else 0) + (if DowSlot(first + 5) == i then 1 else 0)
         + (if DowSlot(first + 6) == i then 1 else 0)
  {
    assert DaysOn(first, first - 1, i) == 0;
    assert DaysOn(first, first + 1, i) == DaysOn(first, first, i) + (if DowSlot(first + 1) == i then 1 else 0);
    assert DaysOn(first, first + 3, i) == DaysOn(first, first + 2, i) + (if DowSlot(first + 3) == i then 1 else 0);
    assert DaysOn(first, first + 5, i) == DaysOn(first, first + 4, i) + (if DowSlot(first + 5) == i then 1 else 0);
  }

  /** A range of whole weeks gives every weekday the same count: the number of weeks. */
  lemma {:induction false} WholeWeeks(start: int, weeks: nat, i: int)
    requires 0 <= i < 7
    ensures DaysOn(start, start + 7 * weeks - 1, i) == weeks
    decreases weeks
  {
    if weeks > 0 {
      WholeWeeks(start, weeks - 1, i);
      DaysOnSplit(start, start + 7 * (weeks - 1) - 1, start + 7 * weeks - 1, i);
      OneWeek(start + 7 * (weeks - 1), i);
    }
  }

  /** `dow_count`'s slot is the SQL day of week of that day's midnight. */
  lemma DowSlotIsSqlDow(day: int)
    ensures DowSlot(day) == SqlDow(Midnight(day))
  {
    SundayFirstIndex(day);
  }

  /** A `daterange` bound: a calendar day (converted by `date2datetime`) or an instant. */
  datatype Instant = OnDay(day: int) | At(minute: int)

  function ToMinute(x: Instant): int {
    match x
    case OnDay(d) => Midnight(d)
    case At(t) => t
  }

  /** `daterange(start, stop, days, hours)`: start, start + step, ... while not past stop. */
  method Daterange(start: Instant, stop: Instant, days: int, hours: int) returns (dateList: seq<int>)
    requires days * MinutesPerDay + hours * MinutesPerHour > 0 || ToMinute(start) > ToMinute(stop)
    ensures var a, b, step := ToMinute(start), ToMinute(stop), days * MinutesPerDay + hours * MinutesPerHour;
      |dateList| == (if a > b then 0 else (b - a) / step + 1)
    ensures var a, step := ToMinute(start), days * MinutesPerDay + hours * MinutesPerHour;
      forall i :: 0 <= i < |dateList| ==> dateList[i] == a + i * step
    ensures forall i :: 0 <= i < |dateList| ==> dateList[i] <= ToMinute(stop)
  {
    var s := ToMinute(start);
    var e := ToMinute(stop);
    var step := days * MinutesPerDay + hours * MinutesPerHour;
    var time := s;
    dateList := [];
    while time <= e
      invariant time == s + |dateList| * step
      invariant forall i :: 0 <= i < |dateList| ==> dateList[i] == s + i * step && dateList[i] <= e
      invariant s > e ==> dateList == []
      invariant s <= e ==> step > 0 && |dateList| <= (e - s) / step + 1
      invariant s <= e && time > e ==> |dateList| == (e - s) / step + 1
      decreases e - time
    {
      dateList := dateList + [time];
      time := time + step;
      BoundStep(s, e, step, |dateList|);
    }
  }

  /** The arithmetic behind the length of a stepped range. */
  lemma BoundStep(s: int, e: int, step: int, n: nat)
    requires step > 0 || s > e
    ensures s <= e && s + (n - 1) * step <= e ==> n <= (e - s) / step + 1
    ensures s <= e && s + (n - 1) * step <= e && s + n * step > e ==> n == (e - s) / step + 1
  {
    if s <= e && s + (n - 1) * step <= e {
      var q := (e - s) / step;
      assert e - s == q * step + (e - s) % step;
      MulMonotone(step, n - 1 - q);
      MulMonotone(step, n - q);
    }
  }

  /** A positive factor keeps a product at least one step away from zero. */
  lemma MulMonotone(d: int, t: int)
    requires d > 0
    ensures t >= 1 ==> d * t >= d
    ensures t <= -1 ==> d * t <= -d
  {
    if t >= 1 {
      assert d * t == d + d * (t - 1);
    } else if t <= -1 {
      assert d * t == -d + d * (t + 1);
    }
  }

  /**
   * With a step that is not positive and start <= stop, the loop condition of `daterange`
   * holds after every number of steps: the call never returns.
   */
  lemma NoProgressWithoutStep(a: int, b: int, step: int, n: nat)
    requires step <= 0 && a <= b
    ensures a + n * step <= b
  {
    assert n * step <= 0;
  }

  /** `round(p / q)` for a rational with q > 0, rounding halves to the even neighbour. */
  function RoundHalfEven(p: int, q: int): (r: int)
    requires q > 0
    ensures -q <= 2 * (r * q - p) <= q
    ensures (2 * (r * q - p) == q || 2 * (r * q - p) == -q) ==> r % 2 == 0
  {
    var f := p / q;
    var rem := p % q;
    assert p == f * q + rem;
    if 2 * rem < q then f
    else if 2 * rem > q then f + 1
    else if f % 2 == 0 then f
    else f + 1
  }

  /** `round(n / d + .4)` on exact rationals: n/d + 2/5 = (5n + 2d) / 5d. */
  function RoundRate(n: int, d: int): int
    requires d != 0
  {
    if d > 0 then RoundHalfEven(5 * n + 2 * d, 5 * d) else RoundHalfEven(-(5 * n + 2 * d), -(5 * d))
  }

  /** The result is the integer nearest to n/d + 0.4, within one half (scaled by 10·|d|). */
  lemma RoundRateNearest(n: int, d: int)
    requires d > 0
    ensures var r := RoundRate(n, d); -5 * d <= 10 * d * r - (10 * n + 4 * d) <= 5 * d
  {
    var r := RoundRate(n, d);
    assert -(5 * d) <= 2 * (r * (5 * d) - (5 * n + 2 * d)) <= 5 * d;
  }

  /** An exact average k is reported as k; a non-negative count never becomes negative. */
  lemma RoundRateOfMultiple(k: int, d: int)
    requires d > 0
    ensures RoundRate(k * d, d) == k
  {
    var r := RoundRate(k * d, d);
    assert -(5 * d) <= 2 * (r * (5 * d) - (5 * (k * d) + 2 * d)) <= 5 * d;
    assert 2 * (r * (5 * d) - (5 * (k * d) + 2 * d)) == (10 * d) * (r - k) - 4 * d;
    MulMonotone(10 * d, r - k);
  }

  lemma RoundRateNonNegative(n: int, d: int)
    requires n >= 0 && d > 0
    ensures RoundRate(n, d) >= 0
  {
    var r := RoundRate(n, d);
    assert -(5 * d) <= 2 * (r * (5 * d) - (5 * n + 2 * d));
    assert r * (5 * d) == (5 * d) * r;
    MulMonotone(5 * d, r);
  }

  /** `counts[offset:] + counts[:offset]`. */
  function Rotate<T>(s: seq<T>, offset: nat): (r: seq<T>)
    requires offset <= |s|
  {
    s[offset..] + s[..offset]
  }

  /** The rotation moves entry j + offset, wrapped past the end, to position j. */
  lemma RotateAt<T>(s: seq<T>, offset: nat, j: nat)
    requires offset <= |s| && j < |s|
    ensures |Rotate(s, offset)| == |s|
    ensures Rotate(s, offset)[j] == if j + offset < |s| then s[j + offset] else s[j + offset - |s|]
  {
  }

  /** The rotation keeps every entry: it is a permutation. */
  lemma RotatePermutes<T>(s: seq<T>, offset: nat)
    requires offset <= |s|
    ensures multiset(Rotate(s, offset)) == multiset(s)
  {
    assert s == s[..offset] + s[offset..];
  }

  /** The hour chart: raw hour (j + 6) mod 24 lands in position j. */
  lemma HourRotation<T>(counts: seq<T>, j: nat)
    requires |counts| == 24 && j < 24
    ensures Rotate(counts, 6)[j] == counts[(j + 6) % 24]
  {
    RotateAt(counts, 6, j);
  }
}
