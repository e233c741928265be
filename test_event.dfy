/** A test event read from an Ivy CSV row (communicator/models/test_event.py). */
module TestEvents {
  import opened Wrappers

  /**
   * The row built by `from_ivy_dict`: every column is the CSV cell's text. The two
   * provenance flags keep their defaults, because the method never sets them.
   */
  datatype TestEvent = TestEvent(
    studentId: string,
    phone: string,
    email: string,
    date: string,
    location: string,
    resultCode: string,
    notified: bool,
    firebaseRecord: bool,
    ivyRecord: bool)

  /** The composite primary key. */
  function Key(e: TestEvent): (string, string) {
    (e.studentId, e.date)
  }

  /** Two events are the same row exactly when they share a student and a test time. */
  lemma SameRowIffSameKey(a: TestEvent, b: TestEvent)
    ensures Key(a) == Key(b) <==> a.studentId == b.studentId && a.date == b.date
  {
  }

  /** The columns `from_ivy_dict` reads, in the order it reads them. */
  const IvyColumns: seq<string> :=
    ["Student ID", "Student Cellphone", "Student Email", "Test Date Time", "Test Kiosk Loc", "Test Result Code"]

  /** The first column of `cols` the row lacks, if any. */
  function FirstMissing(d: map<string, string>, cols: seq<string>): (r: Option<string>)
    ensures r.None? <==> forall k :: 0 <= k < |cols| ==> cols[k] in d
    ensures r.Some? ==> exists k :: 0 <= k < |cols| && cols[k] == r.value && r.value !in d
                          && forall j :: 0 <= j < k ==> cols[j] in d
  {
    if cols == [] then None
    else if cols[0] !in d then Some(cols[0])
    else
      var r := FirstMissing(d, cols[1..]);
      if r.Some? then
        var k :| 0 <= k < |cols[1..]| && cols[1..][k] == r.value && r.value !in d
                   && forall j :: 0 <= j < k ==> cols[1..][j] in d;
        assert cols[k + 1] == r.value;
        r
      else r
  }

  /**
   * `TestEvent.from_ivy_dict(dictionary)`: the six cells looked up in order; the first
   * absent column raises KeyError, whose key is the error here.
   */
  function FromIvyDict(d: map<string, string>): Result<TestEvent, string> {
    if "Student ID" !in d then Failure("Student ID")
    else if "Student Cellphone" !in d then Failure("Student Cellphone")
    else if "Student Email" !in d then Failure("Student Email")
    else if "Test Date Time" !in d then Failure("Test Date Time")
    else if "Test Kiosk Loc" !in d then Failure("Test Kiosk Loc")
    else if "Test Result Code" !in d then Failure("Test Result Code")
    else
      Success(TestEvent(d["Student ID"], d["Student Cellphone"], d["Student Email"],
                        d["Test Date Time"], d["Test Kiosk Loc"], d["Test Result Code"],
                        false, false, false))
  }

  /** A complete row maps each named column to its field; nothing else is read. */
  lemma FromIvyDictComplete(d: map<string, string>)
    requires forall k :: 0 <= k < |IvyColumns| ==> IvyColumns[k] in d
    ensures FromIvyDict(d).Success?
    ensures var e := FromIvyDict(d).value;
      && e.studentId == d["Student ID"] && e.phone == d["Student Cellphone"]
      && e.email == d["Student Email"] && e.date == d["Test Date Time"]
      && e.location == d["Test Kiosk Loc"] && e.resultCode == d["Test Result Code"]
      && !e.notified && !e.firebaseRecord && !e.ivyRecord
  {
    assert IvyColumns[0] in d && IvyColumns[1] in d && IvyColumns[2] in d;
    assert IvyColumns[3] in d && IvyColumns[4] in d && IvyColumns[5] in d;
  }

  /** The call fails exactly when a column is absent, and names the first absent one. */
  lemma FromIvyDictMissing(d: map<string, string>)
    ensures FromIvyDict(d).Failure? <==> FirstMissing(d, IvyColumns).Some?
    ensures FromIvyDict(d).Failure? ==> FromIvyDict(d).error == FirstMissing(d, IvyColumns).value
  {
    var c1 := ["Student Cellphone", "Student Email", "Test Date Time", "Test Kiosk Loc", "Test Result Code"];
    var c2 := ["Student Email", "Test Date Time", "Test Kiosk Loc", "Test Result Code"];
    var c3 := ["Test Date Time", "Test Kiosk Loc", "Test Result Code"];
    var c4 := ["Test Kiosk Loc", "Test Result Code"];
    var c5 := ["Test Result Code"];
    assert IvyColumns[1..] == c1 && c1[1..] == c2 && c2[1..] == c3;
    assert c3[1..] == c4 && c4[1..] == c5 && c5[1..] == [];
    assert FirstMissing(d, c5) == if "Test Result Code" in d then None else Some("Test Result Code");
    assert FirstMissing(d, c4) == if "Test Kiosk Loc" in d then FirstMissing(d, c5) else Some("Test Kiosk Loc");
    assert FirstMissing(d, c3) == if "Test Date Time" in d then FirstMissing(d, c4) else Some("Test Date Time");
    assert FirstMissing(d, c2) == if "Student Email" in d then FirstMissing(d, c3) else Some("Student Email");
    assert FirstMissing(d, c1) == if "Student Cellphone" in d then FirstMissing(d, c2) else Some("Student Cellphone");
  }

  /** Extra columns are ignored: adding a cell under another name changes nothing. */
  lemma FromIvyDictIgnoresExtra(d: map<string, string>, k: string, v: string)
    requires forall j :: 0 <= j < |IvyColumns| ==> IvyColumns[j] != k
    ensures FromIvyDict(d[k := v]) == FromIvyDict(d)
  {
    assert IvyColumns[0] != k && IvyColumns[1] != k && IvyColumns[2] != k;
    assert IvyColumns[3] != k && IvyColumns[4] != k && IvyColumns[5] != k;
  }
}
