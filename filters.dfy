/**
 * The search filters a GraphService keeps (communicator/services/graph_service.py): each
 * is one SQLAlchemy condition on a Sample row, and a query is the conjunction of the
 * conditions applied to it.
 */
module Filters {
  import opened Wrappers
  import opened Text
  import opened Clock
  import opened SampleModel
  import opened Counting

  /**
   * One condition. The `...In` conditions hold the literals of an SQL `IN (...)` list as
   * text; an integer column matches a literal that reads as that integer.
   */
  datatype Filter =
    | DateFrom(day: int)                  // Sample.date >= day
    | DateUntil(day: int)                 // Sample.date <= day
    | StudentIdIn(words: seq<string>)
    | LocationIn(words: seq<string>)
    | StationIn(words: seq<string>)
    | ComputingIdIn(words: seq<string>)
    | StudentIdNotZero                    // Sample.student_id != 0
    | EmailPrefix(prefix: string)         // Sample.email ILIKE prefix || '%'

  /** Some literal of the list reads as `n`. */
  predicate Listed(words: seq<string>, n: int) {
    exists i :: 0 <= i < |words| && ParseInt(words[i]) == Some(n)
  }

  /** Whether a row satisfies one condition; a NULL column satisfies no comparison. */
  predicate Matches(f: Filter, r: SampleRow) {
    match f
    case DateFrom(d) => r.date >= Midnight(d)
    case DateUntil(d) => r.date <= Midnight(d)
    case StudentIdIn(ws) => Listed(ws, r.studentId)
    case LocationIn(ws) => Listed(ws, r.location)
    case StationIn(ws) => r.station.Some? && Listed(ws, r.station.value)
    case ComputingIdIn(ws) => r.computingId.Some? && r.computingId.value in ws
    case StudentIdNotZero => r.studentId != 0
    case EmailPrefix(p) => r.email.Some? && IsPrefix(Lower(p), Lower(r.email.value))
  }

  /** A query: the conditions chained with `.filter(...)`. */
  type Query = seq<Filter>

  predicate Admits(q: Query, r: SampleRow) {
    forall i :: 0 <= i < |q| ==> Matches(q[i], r)
  }

  /** The rows of the Sample table a query returns, in table order. */
  function Select(rows: seq<SampleRow>, q: Query): seq<SampleRow> {
    Where(rows, r => Admits(q, r))
  }

  /** With `ignore_dates`, a filter whose key contains "date" is left out. */
  predicate Skipped(key: string, ignoreDates: bool) {
    ignoreDates && Contains(key, "date")
  }

  /** The condition is the filter stored under some key that is not skipped. */
  predicate Applied(f: Filter, filters: map<string, Filter>, ignoreDates: bool) {
    exists k :: k in filters && !Skipped(k, ignoreDates) && filters[k] == f
  }

  /** A row passes every filter that is not skipped. */
  predicate PassesAll(filters: map<string, Filter>, ignoreDates: bool, r: SampleRow) {
    forall k :: k in filters && !Skipped(k, ignoreDates) ==> Matches(filters[k], r)
  }
}
