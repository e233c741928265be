/** `FirebaseService.record_to_sample` (communicator/services/firebase_service.py): mapping only. */
module FirebaseService {
  import opened Wrappers
  import opened SampleModel

  /** A Firestore field value as `to_dict()` returns it. */
  datatype FieldValue = Text(s: string) | Integer(n: int) | Time(t: int)

  /** A document whose mapped fields, where present, hold the type of the column they fill. */
  predicate Typed(doc: map<string, FieldValue>) {
    && ("id" in doc ==> doc["id"].Text?)
    && ("barcodeId" in doc ==> doc["barcodeId"].Integer?)
    && ("createdAt" in doc ==> doc["createdAt"].Time?)
    && ("locationId" in doc ==> doc["locationId"].Integer?)
  }

  /** The document has every field the mapping reads. */
  predicate Complete(doc: map<string, FieldValue>) {
    "id" in doc && "barcodeId" in doc && "createdAt" in doc && "locationId" in doc
  }

  /**
   * `record_to_sample(fb_sample)`: a fresh Sample from four document fields with
   * `in_firebase` set; a missing field propagates as KeyError (its key is the error).
   */
  function RecordToSample(doc: map<string, FieldValue>): (r: Result<SampleRow, string>)
    requires Typed(doc)
    ensures r.Success? <==> Complete(doc)
    ensures r.Failure? ==> r.error !in doc && r.error in {"id", "barcodeId", "createdAt", "locationId"}
    ensures r.Success? ==> r.value.barcode == doc["id"].s && r.value.studentId == doc["barcodeId"].n
    ensures r.Success? ==> r.value.date == doc["createdAt"].t && r.value.location == doc["locationId"].n
    ensures r.Success? ==> r.value.inFirebase && !r.value.inIvy
    ensures r.Success? ==> r.value.phone == None && r.value.email == None && r.value.resultCode == None
  {
    if "id" !in doc then Failure("id")
    else if "barcodeId" !in doc then Failure("barcodeId")
    else if "createdAt" !in doc then Failure("createdAt")
    else if "locationId" !in doc then Failure("locationId")
    else
      Success(NewRow(doc["id"].s, doc["barcodeId"].n, doc["createdAt"].t, doc["locationId"].n).(inFirebase := true))
  }

  /** Loading a Firebase record never touches contact or result data already stored. */
  lemma FirebaseMergeKeepsContacts(doc: map<string, FieldValue>, stored: SampleRow)
    requires Typed(doc) && RecordToSample(doc).Success?
    ensures var m := MergeRow(stored, RecordToSample(doc).value);
      m == stored.(inFirebase := true)
  {
  }
}
