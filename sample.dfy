/**
 * A test sample (communicator/models/sample.py): its columns as a value, and the mutable
 * row object whose `merge` fills gaps from an incoming record.
 */
module SampleModel {
  import opened Wrappers

  /** Python truthiness of a nullable string column: None and "" are false. */
  predicate Truthy(v: Option<string>) {
    v.Some? && v.value != ""
  }

  /**
   * The columns of one Sample row. The last five are columns the code reads or writes but
   * that models/sample.py does not declare; their values are never invented here.
   */
  datatype SampleRow = SampleRow(
    barcode: string,
    studentId: int,
    date: int,
    location: int,
    phone: Option<string>,
    email: Option<string>,
    resultCode: Option<string>,
    notified: bool,
    inFirebase: bool,
    inIvy: bool,
    station: Option<int>,
    computingId: Option<string>,
    lastModified: Option<int>,
    emailNotified: bool,
    textNotified: bool)

  /** The row with every column the record has not set left at its default. */
  function NewRow(barcode: string, studentId: int, date: int, location: int): (r: SampleRow)
    ensures r.barcode == barcode && r.studentId == studentId && r.date == date && r.location == location
    ensures !Truthy(r.phone) && !Truthy(r.email) && !Truthy(r.resultCode)
    ensures !r.notified && !r.inFirebase && !r.inIvy && !r.emailNotified && !r.textNotified
  {
    SampleRow(barcode, studentId, date, location, None, None, None, false, false, false,
              None, None, None, false, false)
  }

  /** The value `stored.merge(incoming)` leaves in `stored`. */
  function MergeRow(stored: SampleRow, incoming: SampleRow): SampleRow {
    stored.(
      phone := if Truthy(incoming.phone) then incoming.phone else stored.phone,
      email := if Truthy(incoming.email) then incoming.email else stored.email,
      resultCode := if Truthy(incoming.resultCode) then incoming.resultCode else stored.resultCode,
      inFirebase := if incoming.inFirebase then true else stored.inFirebase,
      inIvy := if incoming.inIvy then true else stored.inIvy)
  }

  /** The record's identity, its time and place and its notification state are never changed by merge. */
  lemma MergeKeepsIdentity(stored: SampleRow, incoming: SampleRow)
    ensures var r := MergeRow(stored, incoming);
      && r.barcode == stored.barcode && r.studentId == stored.studentId
      && r.date == stored.date && r.location == stored.location && r.notified == stored.notified
      && r.station == stored.station && r.computingId == stored.computingId
      && r.lastModified == stored.lastModified
      && r.emailNotified == stored.emailNotified && r.textNotified == stored.textNotified
  {
  }

  /** A contact or result field is replaced exactly when the incoming value is truthy. */
  lemma MergeFillsGaps(stored: SampleRow, incoming: SampleRow)
    ensures var r := MergeRow(stored, incoming);
      && (r.phone == if Truthy(incoming.phone) then incoming.phone else stored.phone)
      && (r.email == if Truthy(incoming.email) then incoming.email else stored.email)
      && (r.resultCode == if Truthy(incoming.resultCode) then incoming.resultCode else stored.resultCode)
  {
  }

  /** Merge never erases data: a truthy stored field stays truthy. */
  lemma MergeNeverErases(stored: SampleRow, incoming: SampleRow)
    ensures var r := MergeRow(stored, incoming);
      && (Truthy(stored.phone) ==> Truthy(r.phone))
      && (Truthy(stored.email) ==> Truthy(r.email))
      && (Truthy(stored.resultCode) ==> Truthy(r.resultCode))
  {
  }

  /** The provenance flags are OR'd: merge can set them but never clears them. */
  lemma MergeOrsFlags(stored: SampleRow, incoming: SampleRow)
    ensures MergeRow(stored, incoming).inFirebase == (stored.inFirebase || incoming.inFirebase)
    ensures MergeRow(stored, incoming).inIvy == (stored.inIvy || incoming.inIvy)
  {
  }

  /** Merging the same incoming record twice leaves what merging it once leaves. */
  lemma MergeIdempotent(stored: SampleRow, incoming: SampleRow)
    ensures MergeRow(MergeRow(stored, incoming), incoming) == MergeRow(stored, incoming)
  {
  }

  /** A record merged into itself is unchanged. */
  lemma MergeSelf(row: SampleRow)
    ensures MergeRow(row, row) == row
  {
  }

  /** A record with no truthy contact or result field and no flag set changes nothing. */
  lemma MergeEmptyIsNoop(stored: SampleRow, incoming: SampleRow)
    requires !Truthy(incoming.phone) && !Truthy(incoming.email) && !Truthy(incoming.resultCode)
    requires !incoming.inFirebase && !incoming.inIvy
    ensures MergeRow(stored, incoming) == stored
  {
  }

  /**
   * Two records that agree on everything merge does not touch, and that never hold two
   * different values in a field where both are truthy or both are falsy.
   */
  predicate Compatible(a: SampleRow, b: SampleRow) {
    && a.(phone := b.phone, email := b.email, resultCode := b.resultCode,
          inFirebase := b.inFirebase, inIvy := b.inIvy) == b
    && (Truthy(a.phone) == Truthy(b.phone) ==> a.phone == b.phone)
    && (Truthy(a.email) == Truthy(b.email) ==> a.email == b.email)
    && (Truthy(a.resultCode) == Truthy(b.resultCode) ==> a.resultCode == b.resultCode)
  }

  /** The fill-gap law: compatible records merge to the same value in either order. */
  lemma MergeCommutes(a: SampleRow, b: SampleRow)
    requires Compatible(a, b)
    ensures MergeRow(a, b) == MergeRow(b, a)
  {
  }

  /** The Sample object as the ORM holds it; the primary key `barcode` is never reassigned. */
  class Sample {
    const barcode: string
    var studentId: int
    var date: int
    var location: int
    var phone: Option<string>
    var email: Option<string>
    var resultCode: Option<string>
    var notified: bool
    var inFirebase: bool
    var inIvy: bool
    var station: Option<int>
    var computingId: Option<string>
    var lastModified: Option<int>
    var emailNotified: bool
    var textNotified: bool

    /** The object's current column values. */
    function Row(): SampleRow
      reads this
    {
      SampleRow(barcode, studentId, date, location, phone, email, resultCode, notified,
                inFirebase, inIvy, station, computingId, lastModified, emailNotified, textNotified)
    }

    constructor (row: SampleRow)
      ensures Row() == row
    {
      barcode, studentId, date, location := row.barcode, row.studentId, row.date, row.location;
      phone, email, resultCode := row.phone, row.email, row.resultCode;
      notified, inFirebase, inIvy := row.notified, row.inFirebase, row.inIvy;
      station, computingId, lastModified := row.station, row.computingId, row.lastModified;
      emailNotified, textNotified := row.emailNotified, row.textNotified;
    }

    /** `self.merge(sample)`: copy truthy contact and result fields, OR the provenance flags. */
    method Merge(incoming: Sample)
      modifies this
      ensures Row() == MergeRow(old(Row()), old(incoming.Row()))
    {
      // The five columns merge writes take their merged values; every other column stays.
      var m := MergeRow(Row(), incoming.Row());
      phone, email, resultCode, inFirebase, inIvy := m.phone, m.email, m.resultCode, m.inFirebase, m.inIvy;
    }
  }
}
