/** `IvyService.to_test_event_record` (communicator/services/ivy_service.py). */
module IvyService {
  import opened Wrappers
  import opened Text
  import opened Errors
  import opened TestEvents

  /** The title of the error raised for a missing column; `{e}` renders a KeyError as the quoted key. */
  function MissingColumnTitle(key: string): string {
    "Invalid CSV Record, missing column " + Quoted(key)
  }

  /** A KeyError from `from_ivy_dict` becomes CommError with the string code "100" and no detail. */
  function ToTestEventRecord(d: map<string, string>): (r: Result<TestEvent, CommError>)
    ensures r.Success? <==> FromIvyDict(d).Success?
    ensures r.Success? ==> r.value == FromIvyDict(d).value
    ensures r.Failure? ==> r.error.code == Textual("100") && r.error.detail == ""
    ensures r.Failure? ==> exists k :: 0 <= k < |IvyColumns| && IvyColumns[k] !in d
                             && r.error.title == MissingColumnTitle(IvyColumns[k])
  {
    match FromIvyDict(d)
    case Success(e) => Success(e)
    case Failure(key) =>
      FromIvyDictMissing(d);
      Failure(CommError(Textual("100"), MissingColumnTitle(key), ""))
  }

  /** The error title names the missing column. */
  lemma TitleNamesColumn(key: string)
    ensures Contains(MissingColumnTitle(key), key)
  {
    var t := MissingColumnTitle(key);
    var i := |"Invalid CSV Record, missing column '"|;
    assert t[i..i + |key|] == key;
    assert OccursAt(t, key, i);
    ContainsIffOccurs(t, key);
  }

  /** A row with a missing column never yields a record. */
  lemma MissingColumnRejected(d: map<string, string>, k: nat)
    requires k < |IvyColumns| && IvyColumns[k] !in d
    ensures ToTestEventRecord(d).Failure?
  {
    FromIvyDictMissing(d);
  }
}
