/** `SampleService.add_or_update_records` (communicator/services/sample_service.py): upsert by barcode. */
module SampleService {
  import opened SampleModel
  import opened Db

  /** The table after one incoming record: merged into the row with its barcode, or inserted as it is. */
  function Upsert(m: map<string, SampleRow>, s: SampleRow): map<string, SampleRow> {
    m[s.barcode := if s.barcode in m then MergeRow(m[s.barcode], s) else s]
  }

  /** The table after a batch of incoming records, processed in order. */
  function UpsertAll(m: map<string, SampleRow>, ss: seq<SampleRow>): map<string, SampleRow>
    decreases |ss|
  {
    if ss == [] then m else Upsert(UpsertAll(m, ss[..|ss| - 1]), ss[|ss| - 1])
  }

  function Barcodes(ss: seq<SampleRow>): set<string> {
    set k | 0 <= k < |ss| :: ss[k].barcode
  }

  /** The values of a batch of row objects. */
  function RowsOf(samples: seq<Sample>): (rows: seq<SampleRow>)
    reads samples
    ensures |rows| == |samples|
    ensures forall k :: 0 <= k < |samples| ==> rows[k] == samples[k].Row()
  {
    if samples == [] then [] else RowsOf(samples[..|samples| - 1]) + [samples[|samples| - 1].Row()]
  }

  /** The same batch processed front to back, as the `for` loop reads it. */
  function UpsertEach(m: map<string, SampleRow>, ss: seq<SampleRow>): map<string, SampleRow>
    decreases |ss|
  {
    if ss == [] then m else UpsertEach(Upsert(m, ss[0]), ss[1..])
  }

  lemma {:induction false} UpsertEachSnoc(m: map<string, SampleRow>, ss: seq<SampleRow>, s: SampleRow)
    ensures UpsertEach(m, ss + [s]) == Upsert(UpsertEach(m, ss), s)
    decreases |ss|
  {
    if ss == [] {
      assert ([] + [s])[1..] == [];
    } else {
      assert (ss + [s])[1..] == ss[1..] + [s];
      UpsertEachSnoc(Upsert(m, ss[0]), ss[1..], s);
    }
  }

  /** Both readings of a batch agree. */
  lemma {:induction false} UpsertAllIsUpsertEach(m: map<string, SampleRow>, ss: seq<SampleRow>)
    ensures UpsertAll(m, ss) == UpsertEach(m, ss)
    decreases |ss|
  {
    if ss != [] {
      var init := ss[..|ss| - 1];
      UpsertAllIsUpsertEach(m, init);
      UpsertEachSnoc(m, init, ss[|ss| - 1]);
      assert init + [ss[|ss| - 1]] == ss;
    }
  }

  /** An existing barcode is merged in place: no second row appears. */
  lemma UpsertExisting(m: map<string, SampleRow>, s: SampleRow)
    requires s.barcode in m
    ensures Upsert(m, s).Keys == m.Keys && |Upsert(m, s)| == |m|
    ensures Upsert(m, s)[s.barcode] == MergeRow(m[s.barcode], s)
  {
    assert Upsert(m, s).Keys == m.Keys;
  }

  /** An unseen barcode is inserted unchanged: exactly one more row. */
  lemma UpsertNew(m: map<string, SampleRow>, s: SampleRow)
    requires s.barcode !in m
    ensures Upsert(m, s).Keys == m.Keys + {s.barcode} && |Upsert(m, s)| == |m| + 1
    ensures Upsert(m, s)[s.barcode] == s
  {
  }

  /** Upserting the same record again changes nothing: posting a sample twice leaves one row. */
  lemma UpsertIdempotent(m: map<string, SampleRow>, s: SampleRow)
    ensures Upsert(Upsert(m, s), s) == Upsert(m, s)
    ensures |Upsert(Upsert(m, s), s)| == |Upsert(m, s)|
  {
    if s.barcode in m {
      MergeIdempotent(m[s.barcode], s);
    } else {
      MergeSelf(s);
    }
  }

  /** After a batch, the barcodes are the old ones plus every incoming one, each exactly once (a map key). */
  lemma {:induction false} UpsertAllKeys(m: map<string, SampleRow>, ss: seq<SampleRow>)
    ensures UpsertAll(m, ss).Keys == m.Keys + Barcodes(ss)
    decreases |ss|
  {
    if ss != [] {
      var init := ss[..|ss| - 1];
      UpsertAllKeys(m, init);
      assert Barcodes(ss) == Barcodes(init) + {ss[|ss| - 1].barcode} by {
        forall b | b in Barcodes(ss) ensures b in Barcodes(init) + {ss[|ss| - 1].barcode} {
          var k :| 0 <= k < |ss| && ss[k].barcode == b;
          if k < |ss| - 1 { assert init[k] == ss[k]; }
        }
        forall b | b in Barcodes(init) ensures b in Barcodes(ss) {
          var k :| 0 <= k < |init| && init[k].barcode == b;
          assert ss[k] == init[k];
        }
      }
    }
  }

  /** Rows whose barcode is not in the batch are untouched. */
  lemma {:induction false} UpsertAllUntouched(m: map<string, SampleRow>, ss: seq<SampleRow>, b: string)
    requires b in m
    requires forall k :: 0 <= k < |ss| ==> ss[k].barcode != b
    ensures b in UpsertAll(m, ss) && UpsertAll(m, ss)[b] == m[b]
    decreases |ss|
  {
    if ss != [] {
      UpsertAllUntouched(m, ss[..|ss| - 1], b);
    }
  }

  /** The batch's first `i + 1` records are its first `i` and then record `i`. */
  lemma UpsertAllStep(m: map<string, SampleRow>, ss: seq<SampleRow>, i: nat)
    requires i < |ss|
    ensures UpsertAll(m, ss[..i + 1]) == Upsert(UpsertAll(m, ss[..i]), ss[i])
  {
    assert ss[..i + 1][..i] == ss[..i];
  }

  /** One step of the loop: merge `sample` into the stored row with its barcode, or add it. */
  method AddOrUpdateRecord(db: Session, sample: Sample)
    requires db.Valid()
    requires sample !in db.samples.Values
    modifies db`samples, db.samples.Values
    ensures db.Valid()
    ensures db.Contents() == Upsert(old(db.Contents()), old(sample.Row()))
    ensures forall s :: s in db.samples.Values ==> s in old(db.samples.Values) || s == sample
  {
    var b := sample.barcode;
    ghost var before := db.Contents();
    ghost var row := sample.Row();
    if b in db.samples {
      var existing := db.samples[b];
      existing.Merge(sample);
      forall c | c in db.samples
        ensures db.Contents()[c] == before[b := MergeRow(before[b], row)][c]
      {
        if c != b {
          assert db.samples[c].barcode == c;
        }
      }
      assert db.Contents() == before[b := MergeRow(before[b], row)];
    } else {
      db.samples := db.samples[b := sample];
      assert db.Contents() == before[b := row];
    }
  }

  /**
   * `add_or_update_records(samples)`: for each incoming object in turn, merge it into the
   * stored row with its barcode, or add the object itself to the session. The incoming
   * objects are newly built ones, not yet in the session and each passed once, as every
   * caller builds them.
   */
  method AddOrUpdateRecords(db: Session, samples: seq<Sample>)
    requires db.Valid()
    requires forall i, j :: 0 <= i < j < |samples| ==> samples[i] != samples[j]
    requires forall i :: 0 <= i < |samples| ==> samples[i] !in db.samples.Values
    modifies db`samples, db.samples.Values, samples
    ensures db.Valid()
    ensures db.Contents() == UpsertAll(old(db.Contents()), old(RowsOf(samples)))
    ensures forall s :: s in db.samples.Values ==> s in old(db.samples.Values) || s in samples
  {
    ghost var rows := RowsOf(samples);
    ghost var start := db.Contents();
    ghost var stored := db.samples.Values;
    var i := 0;
    while i < |samples|
      invariant 0 <= i <= |samples|
      invariant db.Valid()
      invariant db.Contents() == UpsertAll(start, rows[..i])
      invariant forall k :: i <= k < |samples| ==> samples[k] !in db.samples.Values
      invariant forall k :: i <= k < |samples| ==> samples[k].Row() == rows[k]
      invariant forall s :: s in db.samples.Values ==> s in stored || s in samples
    {
      assert samples[i].Row() == rows[i];
      UpsertAllStep(start, rows, i);
      AddOrUpdateRecord(db, samples[i]);
      i := i + 1;
    }
    assert rows[..|samples|] == rows;
  }
}

module SampleScenario {
  import opened Wrappers
  import opened SampleModel
  import opened SampleService

  /** A record as the Firebase loader builds it: identity, time and place, and the flag. */
  function FirebaseRecord(barcode: string): SampleRow {
    NewRow(barcode, 1, 100, 40).(inFirebase := true)
  }

  /** A record as the Ivy loader builds it: the same identity plus contacts, result and flag. */
  function IvyRecord(barcode: string): SampleRow {
    NewRow(barcode, 1, 100, 40).(phone := Some("5555555555"), email := Some("s@virginia.edu"),
                                  resultCode := Some("1234"), inIvy := true)
  }

  function FirebaseBatch(): seq<SampleRow> {
    [FirebaseRecord("b1"), FirebaseRecord("b2"), FirebaseRecord("b3"), FirebaseRecord("b4")]
  }

  function IvyBatch(): seq<SampleRow> {
    [IvyRecord("b2"), IvyRecord("b3"), IvyRecord("b4"), IvyRecord("b5"), IvyRecord("b6"), IvyRecord("b7")]
  }

  /** The table after loading Firebase alone, and after loading Ivy alone. */
  function FirebaseTable(): map<string, SampleRow> {
    map["b1" := FirebaseRecord("b1"), "b2" := FirebaseRecord("b2"), "b3" := FirebaseRecord("b3"),
        "b4" := FirebaseRecord("b4")]
  }

  function IvyTable(): map<string, SampleRow> {
    map["b2" := IvyRecord("b2"), "b3" := IvyRecord("b3"), "b4" := IvyRecord("b4"),
        "b5" := IvyRecord("b5"), "b6" := IvyRecord("b6"), "b7" := IvyRecord("b7")]
  }

  /** The table after both loads: Ivy's contacts and both flags on the shared barcodes. */
  function CorrelatedTable(): map<string, SampleRow> {
    map["b1" := FirebaseRecord("b1"), "b2" := IvyRecord("b2").(inFirebase := true),
        "b3" := IvyRecord("b3").(inFirebase := true), "b4" := IvyRecord("b4").(inFirebase := true),
        "b5" := IvyRecord("b5"), "b6" := IvyRecord("b6"), "b7" := IvyRecord("b7")]
  }

  lemma LoadFirebase()
    ensures UpsertAll(map[], FirebaseBatch()) == FirebaseTable()
  {
    UpsertAllIsUpsertEach(map[], FirebaseBatch());
    var fb := FirebaseBatch();
    var t1 := Upsert(map[], fb[0]);
    var t2 := Upsert(t1, fb[1]);
    var t3 := Upsert(t2, fb[2]);
    assert fb[1..][1..][1..][1..] == [];
    assert UpsertEach(map[], fb) == Upsert(t3, fb[3]);
  }

  lemma LoadIvy()
    ensures UpsertAll(map[], IvyBatch()) == IvyTable()
  {
    UpsertAllIsUpsertEach(map[], IvyBatch());
    var iv := IvyBatch();
    assert iv[1..][1..][1..][1..][1..][1..] == [];
  }

  lemma LoadIvyAfterFirebase()
    ensures UpsertAll(FirebaseTable(), IvyBatch()) == CorrelatedTable()
  {
    UpsertAllIsUpsertEach(FirebaseTable(), IvyBatch());
    var iv := IvyBatch();
    assert iv[1..][1..][1..][1..][1..][1..] == [];
  }

  /** Merging a Firebase record into the Ivy record with its barcode only sets the flag. */
  lemma FirebaseIntoIvy(b: string)
    ensures MergeRow(IvyRecord(b), FirebaseRecord(b)) == IvyRecord(b).(inFirebase := true)
  {
  }

  lemma LoadFirebaseAfterIvy()
    ensures UpsertAll(IvyTable(), FirebaseBatch()) == CorrelatedTable()
  {
    UpsertAllIsUpsertEach(IvyTable(), FirebaseBatch());
    var fb := FirebaseBatch();
    assert fb[1..][1..][1..][1..] == [];
    FirebaseIntoIvy("b2");
    FirebaseIntoIvy("b3");
    FirebaseIntoIvy("b4");
    var t1 := IvyTable()["b1" := FirebaseRecord("b1")];
    assert Upsert(IvyTable(), fb[0]) == t1;
    var t2 := t1["b2" := IvyRecord("b2").(inFirebase := true)];
    assert Upsert(t1, fb[1]) == t2;
    var t3 := t2["b3" := IvyRecord("b3").(inFirebase := true)];
    assert Upsert(t2, fb[2]) == t3;
    assert Upsert(t3, fb[3]) == CorrelatedTable();
  }

  lemma CorrelatedKeys()
    ensures CorrelatedTable().Keys == {"b1", "b2", "b3", "b4", "b5", "b6", "b7"}
    ensures |CorrelatedTable()| == 7
  {
    assert CorrelatedTable().Keys == {"b1", "b2", "b3", "b4", "b5", "b6", "b7"};
  }

  lemma CorrelatedFlags()
    ensures forall b :: b in CorrelatedTable() ==>
      (CorrelatedTable()[b].inFirebase && CorrelatedTable()[b].inIvy <==> b == "b2" || b == "b3" || b == "b4")
    ensures forall b :: b in CorrelatedTable() ==> (CorrelatedTable()[b].inIvy <==> b != "b1")
    ensures forall b :: b in CorrelatedTable() ==>
      (CorrelatedTable()[b].inFirebase <==> b == "b1" || b == "b2" || b == "b3" || b == "b4")
  {
    var t := CorrelatedTable();
    CorrelatedKeys();
    forall b | b in t
      ensures (t[b].inFirebase && t[b].inIvy <==> b == "b2" || b == "b3" || b == "b4")
      ensures (t[b].inIvy <==> b != "b1")
      ensures (t[b].inFirebase <==> b == "b1" || b == "b2" || b == "b3" || b == "b4")
    {
      assert b in {"b1", "b2", "b3", "b4", "b5", "b6", "b7"};
    }
  }

  /**
   * Four Firebase records and six Ivy records, three sharing a barcode, give seven rows,
   * the three shared ones carrying both flags, and the table does not depend on which
   * source is loaded first.
   */
  lemma CorrelationScenario()
    ensures UpsertAll(UpsertAll(map[], FirebaseBatch()), IvyBatch())
         == UpsertAll(UpsertAll(map[], IvyBatch()), FirebaseBatch())
         == CorrelatedTable()
    ensures |CorrelatedTable()| == 7
    ensures forall b :: b in CorrelatedTable() ==>
      (CorrelatedTable()[b].inFirebase && CorrelatedTable()[b].inIvy <==> b == "b2" || b == "b3" || b == "b4")
    ensures forall b :: b in CorrelatedTable() ==> (CorrelatedTable()[b].inIvy <==> b != "b1")
    ensures forall b :: b in CorrelatedTable() ==>
      (CorrelatedTable()[b].inFirebase <==> b == "b1" || b == "b2" || b == "b3" || b == "b4")
  {
    LoadFirebase();
    LoadIvyAfterFirebase();
    LoadIvy();
    LoadFirebaseAfterIvy();
    CorrelatedKeys();
    CorrelatedFlags();
  }
}
