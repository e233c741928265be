/**
 * The administrative endpoints (communicator/api/admin.py): adding one sample, clearing the
 * tables, and the notification passes that email or text every sample with a result not
 * yet sent on that channel.
 *
 * A pass takes two oracles keyed by barcode: `skip(b)`, the truthiness of the sample's
 * `last_failure_by_type(...)` on that channel (its definition is not part of this model),
 * and `send(b)`, the outcome of the send: None when it succeeded, or the text of the
 * exception it raised.
 */
module Admin {
  import opened Wrappers
  import opened Counting
  import opened SampleModel
  import opened Models
  import opened Db
  import opened SampleService
  import opened Notifications

  // ------------------------------------------------------------ add_sample, clear_samples

  /** `add_sample(body)`: a new record with the body's four columns, upserted by barcode. */
  method AddSample(db: Session, barcode: string, studentId: int, date: int, location: int)
    requires db.Valid()
    modifies db`samples, db.samples.Values
    ensures db.Valid()
    ensures db.Contents() == Upsert(old(db.Contents()), NewRow(barcode, studentId, date, location))
  {
    var row := NewRow(barcode, studentId, date, location);
    var sample := new Sample(row);
    assert RowsOf([sample]) == [row];
    AddOrUpdateRecords(db, [sample]);
    UpsertSingle(old(db.Contents()), row);
  }

  /** A batch of one record is one upsert. */
  lemma UpsertSingle(m: map<string, SampleRow>, r: SampleRow)
    ensures UpsertAll(m, [r]) == Upsert(m, r)
  {
    assert [r][..0] == [];
  }

  /**
   * Posting a barcode that is already stored changes nothing: the new record carries no
   * contact or result field and no flag, and merge never touches the other columns.
   */
  lemma AddSampleExisting(m: map<string, SampleRow>, barcode: string, studentId: int, date: int, location: int)
    requires barcode in m && m[barcode].barcode == barcode
    ensures Upsert(m, NewRow(barcode, studentId, date, location)) == m
  {
    var r := NewRow(barcode, studentId, date, location);
    MergeEmptyIsNoop(m[barcode], r);
  }

  /** Posting a barcode that is not stored adds exactly that record. */
  lemma AddSampleNew(m: map<string, SampleRow>, barcode: string, studentId: int, date: int, location: int)
    requires barcode !in m
    ensures var r := NewRow(barcode, studentId, date, location);
      Upsert(m, r) == m[barcode := r] && |Upsert(m, r)| == |m| + 1
  {
    UpsertNew(m, NewRow(barcode, studentId, date, location));
  }

  /** `clear_samples()`: the Notification, Sample and Invitation tables end up empty. */
  method ClearSamples(db: Session)
    modifies db`notifications, db`samples, db`invitations
    ensures db.notifications == [] && db.samples == map[] && db.invitations == []
    ensures db.deposits == old(db.deposits)
    ensures db.Valid()
  {
    db.notifications := [];
    db.samples := map[];
    db.invitations := [];
  }

  // --------------------------------------------------------------- the notification passes

  /** The flag a channel's pass sets. */
  predicate Notified(r: SampleRow, ch: Channel) {
    if ch == Email then r.emailNotified else r.textNotified
  }

  function SetNotified(r: SampleRow, ch: Channel): SampleRow {
    if ch == Email then r.(emailNotified := true) else r.(textNotified := true)
  }

  /** The pass's query: a result, and no notice yet on the channel. */
  predicate Pending(r: SampleRow, ch: Channel) {
    r.resultCode.Some? && !Notified(r, ch)
  }

  /** The Notification row one send adds; its `date` column has no default, so it stays NULL. */
  function Attempt(ch: Channel, b: string, outcome: Option<string>): Notification {
    Notification(None, ch.TypeName(), outcome.None?, outcome, b)
  }

  /** Whether the pass sends to `b` and the send succeeds, so that `b`'s flag is set. */
  predicate Delivered(r: SampleRow, ch: Channel, b: string, skip: string -> bool, send: string -> Option<string>) {
    Pending(r, ch) && !skip(b) && send(b).None?
  }

  /** The table once the pass has visited the barcodes in `over`. */
  function PassOn(rows: map<string, SampleRow>, over: seq<string>, ch: Channel,
                  skip: string -> bool, send: string -> Option<string>): map<string, SampleRow> {
    map b | b in rows :: if b in over && Delivered(rows[b], ch, b, skip, send) then SetNotified(rows[b], ch) else rows[b]
  }

  /** The table after a whole pass. */
  function Pass(rows: map<string, SampleRow>, ch: Channel, skip: string -> bool,
                send: string -> Option<string>): map<string, SampleRow> {
    map b | b in rows :: if Delivered(rows[b], ch, b, skip, send) then SetNotified(rows[b], ch) else rows[b]
  }

  /** The Notification rows a pass adds, visiting the barcodes in `order`. */
  function Recorded(order: seq<string>, ch: Channel, skip: string -> bool,
                    send: string -> Option<string>): seq<Notification>
    decreases |order|
  {
    if order == [] then []
    else
      var b := order[|order| - 1];
      Recorded(order[..|order| - 1], ch, skip, send) + (if skip(b) then [] else [Attempt(ch, b, send(b))])
  }

  /** `sample.email_notified = True` or `sample.text_notified = True` on one stored row. */
  method MarkNotified(db: Session, b: string, ch: Channel)
    requires db.Valid() && b in db.samples
    modifies db.samples[b]
    ensures db.Contents() == old(db.Contents())[b := SetNotified(old(db.Contents())[b], ch)]
  {
    ghost var before := db.Contents();
    var sample := db.samples[b];
    if ch == Email {
      sample.emailNotified := true;
    } else {
      sample.textNotified := true;
    }
    forall c | c in db.samples
      ensures db.Contents()[c] == before[b := SetNotified(before[b], ch)][c]
    {
      if c != b {
        assert db.samples[c].barcode == c;
      }
    }
  }

  /**
   * The body shared by `notify_by_email` and `notify_by_text`: every pending sample is
   * visited once, in the order the query returned them (`order`, which the query leaves
   * to the database). A sample with a recorded failure is skipped; otherwise one
   * Notification records the send, and a successful one sets the channel's flag.
   */
  method NotifyPass(db: Session, ch: Channel, skip: string -> bool, send: string -> Option<string>)
    returns (order: seq<string>)
    requires db.Valid()
    modifies db`notifications, db.samples.Values
    ensures db.Valid()
    ensures forall b :: b in order <==> b in old(db.Contents()) && Pending(old(db.Contents())[b], ch)
    ensures forall i, j :: 0 <= i < j < |order| ==> order[i] != order[j]
    ensures db.Contents() == Pass(old(db.Contents()), ch, skip, send)
    ensures db.notifications == old(db.notifications) + Recorded(order, ch, skip, send)
  {
    ghost var before := db.Contents();
    var pending := PendingBarcodes(db, ch, before);
    order := Enumerate(pending);
    assert db.Contents() == before;
    VisitAll(db, order, ch, skip, send);
    PassOnPending(before, order, ch, skip, send);
  }

  /** The loop over the query's list, one `Visit` per sample. */
  method VisitAll(db: Session, order: seq<string>, ch: Channel, skip: string -> bool, send: string -> Option<string>)
    requires db.Valid()
    requires forall b :: b in order ==> b in db.samples && Pending(db.samples[b].Row(), ch)
    requires forall i, j :: 0 <= i < j < |order| ==> order[i] != order[j]
    modifies db`notifications, db.samples.Values
    ensures db.Valid()
    ensures db.Contents() == PassOn(old(db.Contents()), order, ch, skip, send)
    ensures db.notifications == old(db.notifications) + Recorded(order, ch, skip, send)
  {
    ghost var before := db.Contents();
    ghost var notes := db.notifications;
    assert order[..0] == [];
    for i := 0 to |order|
      invariant db.samples == old(db.samples)
      invariant VisitedOn(db, before, order[..i], notes, ch, skip, send)
    {
      Visit(db, order[i], ch, skip, send, before, order, i, notes);
    }
    assert order[..|order|] == order;
  }

  /** The state after visiting `done`: the rows as the pass leaves them, and the attempts appended. */
  ghost predicate VisitedOn(db: Session, before: map<string, SampleRow>, done: seq<string>, notes: seq<Notification>,
                            ch: Channel, skip: string -> bool, send: string -> Option<string>)
    reads db, db.samples.Values
  {
    && db.Valid()
    && db.Contents() == PassOn(before, done, ch, skip, send)
    && db.notifications == notes + Recorded(done, ch, skip, send)
  }

  /** The rows the query returns, as a list in the database's order, each once. */
  method Enumerate(pending: set<string>) returns (order: seq<string>)
    ensures forall b :: b in order <==> b in pending
    ensures forall i, j :: 0 <= i < j < |order| ==> order[i] != order[j]
  {
    var todo := pending;
    ghost var done: set<string> := {};
    order := [];
    while todo != {}
      invariant todo <= pending && done == pending - todo
      invariant forall b :: b in order <==> b in done
      invariant forall i, j :: 0 <= i < j < |order| ==> order[i] != order[j]
      decreases |todo|
    {
      var b := Pick(todo);
      order := order + [b];
      todo := todo - {b};
      done := done + {b};
    }
  }

  /** The query's result: the stored samples pending on the channel. */
  method PendingBarcodes(db: Session, ch: Channel, ghost rows: map<string, SampleRow>) returns (pending: set<string>)
    requires rows == db.Contents()
    ensures forall b :: b in pending <==> b in rows && Pending(rows[b], ch)
  {
    pending := set b | b in db.samples && Pending(db.samples[b].Row(), ch);
  }

  /**
   * One iteration, on the next sample of the list: skip it, or send to it, record the
   * attempt and on success set its flag.
   */
  method Visit(db: Session, b: string, ch: Channel, skip: string -> bool, send: string -> Option<string>,
               ghost before: map<string, SampleRow>, ghost order: seq<string>, ghost i: nat,
               ghost notes: seq<Notification>)
    requires i < |order| && order[i] == b && forall j :: 0 <= j < i ==> order[j] != b
    requires b in db.samples && b in before && Pending(before[b], ch)
    requires VisitedOn(db, before, order[..i], notes, ch, skip, send)
    modifies db`notifications, db.samples[b]
    ensures db.samples == old(db.samples)
    ensures VisitedOn(db, before, order[..i + 1], notes, ch, skip, send)
  {
    assert order[..i + 1] == order[..i] + [b];
    PassOnStep(before, order[..i], b, ch, skip, send);
    RecordedSnoc(order[..i], b, ch, skip, send);
    if !skip(b) {
      SendOne(db, b, ch, send(b));
    }
  }

  /** One send that was not skipped: record its outcome, and on success set the flag. */
  method SendOne(db: Session, b: string, ch: Channel, outcome: Option<string>)
    requires db.Valid() && b in db.samples
    modifies db`notifications, db.samples[b]
    ensures db.Valid() && db.samples == old(db.samples)
    ensures db.Contents() == if outcome.None? then old(db.Contents())[b := SetNotified(old(db.Contents())[b], ch)]
                             else old(db.Contents())
    ensures db.notifications == old(db.notifications) + [Attempt(ch, b, outcome)]
  {
    if outcome.None? {
      MarkNotified(db, b, ch);
    }
    db.notifications := db.notifications + [Attempt(ch, b, outcome)];
  }

  /** One more visited barcode adds its attempt, unless it is skipped. */
  lemma RecordedSnoc(order: seq<string>, b: string, ch: Channel, skip: string -> bool, send: string -> Option<string>)
    ensures Recorded(order + [b], ch, skip, send)
         == Recorded(order, ch, skip, send) + (if skip(b) then [] else [Attempt(ch, b, send(b))])
  {
    assert (order + [b])[..|order|] == order;
  }

  /** Visiting one more barcode changes at most its own row. */
  lemma PassOnStep(rows: map<string, SampleRow>, done: seq<string>, b: string, ch: Channel,
                   skip: string -> bool, send: string -> Option<string>)
    requires b in rows && b !in done
    ensures PassOn(rows, done, ch, skip, send)[b] == rows[b]
    ensures Delivered(rows[b], ch, b, skip, send) ==>
      PassOn(rows, done + [b], ch, skip, send) == PassOn(rows, done, ch, skip, send)[b := SetNotified(rows[b], ch)]
    ensures !Delivered(rows[b], ch, b, skip, send) ==>
      PassOn(rows, done + [b], ch, skip, send) == PassOn(rows, done, ch, skip, send)
  {
  }

  /** Visiting every pending barcode is the whole pass: no other row can be delivered. */
  lemma PassOnPending(rows: map<string, SampleRow>, order: seq<string>, ch: Channel,
                      skip: string -> bool, send: string -> Option<string>)
    requires forall b :: b in order <==> b in rows && Pending(rows[b], ch)
    ensures PassOn(rows, order, ch, skip, send) == Pass(rows, ch, skip, send)
  {
  }

  /** `notify_by_email()`. */
  method NotifyByEmail(db: Session, skip: string -> bool, send: string -> Option<string>)
    returns (order: seq<string>)
    requires db.Valid()
    modifies db`notifications, db.samples.Values
    ensures db.Valid()
    ensures forall b :: b in order <==> b in old(db.Contents()) && Pending(old(db.Contents())[b], Email)
    ensures forall i, j :: 0 <= i < j < |order| ==> order[i] != order[j]
    ensures db.Contents() == Pass(old(db.Contents()), Email, skip, send)
    ensures db.notifications == old(db.notifications) + Recorded(order, Email, skip, send)
  {
    order := NotifyPass(db, Email, skip, send);
  }

  /**
   * `notify_by_text()` as written: the guard tests the bound method
   * `is_reasonable_hour_for_text_messages` instead of calling it, and a method object is
   * always truthy, so the pass runs whatever the local time `now` is.
   */
  method NotifyByText(db: Session, now: int, skip: string -> bool, send: string -> Option<string>)
    returns (order: seq<string>)
    requires db.Valid()
    modifies db`notifications, db.samples.Values
    ensures db.Valid()
    ensures forall b :: b in order <==> b in old(db.Contents()) && Pending(old(db.Contents())[b], Sms)
    ensures forall i, j :: 0 <= i < j < |order| ==> order[i] != order[j]
    ensures db.Contents() == Pass(old(db.Contents()), Sms, skip, send)
    ensures db.notifications == old(db.notifications) + Recorded(order, Sms, skip, send)
  {
    order := NotifyPass(db, Sms, skip, send);
  }

  /** `notify_by_text()` as its docstring intends: outside 08:00 to 22:00 nothing is sent. */
  method NotifyByTextGated(db: Session, now: int, skip: string -> bool, send: string -> Option<string>)
    returns (order: seq<string>)
    requires db.Valid()
    modifies db`notifications, db.samples.Values
    ensures db.Valid()
    ensures !IsReasonableHour(now) ==>
      order == [] && db.Contents() == old(db.Contents()) && db.notifications == old(db.notifications)
    ensures IsReasonableHour(now) ==>
      && (forall b :: b in order <==> b in old(db.Contents()) && Pending(old(db.Contents())[b], Sms))
      && (forall i, j :: 0 <= i < j < |order| ==> order[i] != order[j])
      && db.Contents() == Pass(old(db.Contents()), Sms, skip, send)
      && db.notifications == old(db.notifications) + Recorded(order, Sms, skip, send)
  {
    if !IsReasonableHour(now) {
      return [];
    }
    order := NotifyPass(db, Sms, skip, send);
  }

  /**
   * `update_and_notify()` as written: the new records are upserted first, then the email
   * pass runs over the updated table, then the text pass over what the email pass left,
   * at any hour, since `notify_by_text` never calls its hour test. `incoming` stands for
   * the records `load_directory` reads, which is not part of this model.
   */
  method UpdateAndNotify(db: Session, incoming: seq<Sample>, now: int,
                         skipEmail: string -> bool, sendEmail: string -> Option<string>,
                         skipText: string -> bool, sendText: string -> Option<string>)
    returns (emailed: seq<string>, texted: seq<string>)
    requires db.Valid()
    requires forall i, j :: 0 <= i < j < |incoming| ==> incoming[i] != incoming[j]
    requires forall i :: 0 <= i < |incoming| ==> incoming[i] !in db.samples.Values
    modifies db`samples, db`notifications, db.samples.Values, incoming
    ensures db.Valid()
    ensures var updated := UpsertAll(old(db.Contents()), old(RowsOf(incoming)));
      var afterEmail := Pass(updated, Email, skipEmail, sendEmail);
      && (forall b :: b in emailed <==> b in updated && Pending(updated[b], Email))
      && (forall b :: b in texted <==> b in afterEmail && Pending(afterEmail[b], Sms))
      && db.Contents() == Pass(afterEmail, Sms, skipText, sendText)
      && db.notifications == old(db.notifications) + Recorded(emailed, Email, skipEmail, sendEmail)
                             + Recorded(texted, Sms, skipText, sendText)
  {
    AddOrUpdateRecords(db, incoming);
    emailed := NotifyByEmail(db, skipEmail, sendEmail);
    texted := NotifyByText(db, now, skipText, sendText);
  }

  /**
   * `update_and_notify()` with the text pass gated as intended: outside the reasonable
   * hours only the upsert and the email pass take effect.
   */
  method UpdateAndNotifyGated(db: Session, incoming: seq<Sample>, now: int,
                              skipEmail: string -> bool, sendEmail: string -> Option<string>,
                              skipText: string -> bool, sendText: string -> Option<string>)
    returns (emailed: seq<string>, texted: seq<string>)
    requires db.Valid()
    requires forall i, j :: 0 <= i < j < |incoming| ==> incoming[i] != incoming[j]
    requires forall i :: 0 <= i < |incoming| ==> incoming[i] !in db.samples.Values
    modifies db`samples, db`notifications, db.samples.Values, incoming
    ensures db.Valid()
    ensures var updated := UpsertAll(old(db.Contents()), old(RowsOf(incoming)));
      var afterEmail := Pass(updated, Email, skipEmail, sendEmail);
      && (forall b :: b in emailed <==> b in updated && Pending(updated[b], Email))
      && (IsReasonableHour(now) ==> forall b :: b in texted <==> b in afterEmail && Pending(afterEmail[b], Sms))
      && (!IsReasonableHour(now) ==> texted == [])
      && db.Contents() == (if IsReasonableHour(now) then Pass(afterEmail, Sms, skipText, sendText) else afterEmail)
      && db.notifications == old(db.notifications) + Recorded(emailed, Email, skipEmail, sendEmail)
                             + Recorded(texted, Sms, skipText, sendText)
  {
    AddOrUpdateRecords(db, incoming);
    emailed := NotifyByEmail(db, skipEmail, sendEmail);
    texted := NotifyByTextGated(db, now, skipText, sendText);
    if !IsReasonableHour(now) {
      assert Recorded(texted, Sms, skipText, sendText) == [];
    }
  }

  // ------------------------------------------------------------------ what a pass keeps

  /**
   * A pass only ever sets its own channel's flag, and sets it exactly for the pending
   * samples it sends to successfully: flags are never cleared, nor set on the other channel.
   */
  lemma PassFlags(rows: map<string, SampleRow>, ch: Channel, skip: string -> bool,
                  send: string -> Option<string>, b: string)
    requires b in rows
    ensures var after := Pass(rows, ch, skip, send);
      && b in after
      && (Notified(after[b], ch) <==> Notified(rows[b], ch) || (Pending(rows[b], ch) && !skip(b) && send(b).None?))
      && after[b].emailNotified == (rows[b].emailNotified || (ch == Email && Delivered(rows[b], ch, b, skip, send)))
      && after[b].textNotified == (rows[b].textNotified || (ch == Sms && Delivered(rows[b], ch, b, skip, send)))
      && after[b].(emailNotified := rows[b].emailNotified, textNotified := rows[b].textNotified) == rows[b]
  {
  }

  /** A second pass with the same answers sends nothing to the samples the first one reached. */
  lemma PassTwice(rows: map<string, SampleRow>, ch: Channel, skip: string -> bool,
                  send: string -> Option<string>, b: string)
    requires b in rows && Delivered(rows[b], ch, b, skip, send)
    ensures !Pending(Pass(rows, ch, skip, send)[b], ch)
  {
  }

  /** Each visited sample that is not skipped gets exactly one Notification; a skipped one gets none. */
  lemma {:induction false} RecordedOnce(order: seq<string>, ch: Channel, skip: string -> bool,
                                        send: string -> Option<string>, b: string)
    requires forall i, j :: 0 <= i < j < |order| ==> order[i] != order[j]
    ensures Count(Recorded(order, ch, skip, send), (n: Notification) => n.sampleBarcode == b)
         == (if b in order && !skip(b) then 1 else 0)
    decreases |order|
  {
    if order != [] {
      var init, last := order[..|order| - 1], order[|order| - 1];
      RecordedOnce(init, ch, skip, send, b);
      var front := Recorded(init, ch, skip, send);
      var tail: seq<Notification> := if skip(last) then [] else [Attempt(ch, last, send(last))];
      CountAppend(front, tail, (n: Notification) => n.sampleBarcode == b);
      assert b in order <==> b in init || b == last;
      if b == last {
        assert b !in init;
      }
    }
  }

  /**
   * A Notification row a pass over `order` may hold: on its channel, for a visited sample
   * that was not skipped, undated, and succeeding exactly when that sample's send did.
   */
  predicate RecordsSend(n: Notification, order: seq<string>, ch: Channel, skip: string -> bool,
                        send: string -> Option<string>) {
    && n.kind == ch.TypeName() && n.sampleBarcode in order && !skip(n.sampleBarcode)
    && n.date.None?
    && (n.successful <==> send(n.sampleBarcode).None?)
    && n.errorMessage == send(n.sampleBarcode)
  }

  /** Every Notification of a pass is on the pass's channel, and succeeds exactly when the send did. */
  lemma {:induction false} RecordedChannel(order: seq<string>, ch: Channel, skip: string -> bool,
                                           send: string -> Option<string>)
    ensures forall n :: n in Recorded(order, ch, skip, send) ==> RecordsSend(n, order, ch, skip, send)
    decreases |order|
  {
    if order != [] {
      var init, last := order[..|order| - 1], order[|order| - 1];
      RecordedChannel(init, ch, skip, send);
      var front := Recorded(init, ch, skip, send);
      assert Recorded(order, ch, skip, send) == front + (if skip(last) then [] else [Attempt(ch, last, send(last))]);
      forall n | n in front
        ensures RecordsSend(n, order, ch, skip, send)
      {
        assert RecordsSend(n, init, ch, skip, send);
        assert n.sampleBarcode in init;
      }
    }
  }

  // ------------------------------------------------------------ the unguarded text pass

  /** One sample with a result and no text sent yet. */
  function LateNightTable(): map<string, SampleRow> {
    map["b1" := NewRow("b1", 1, 0, 1).(resultCode := Some("1234"))]
  }

  /**
   * At 03:00 the hour is not reasonable, yet the text pass as written, which never looks at
   * the clock, texts the pending sample and marks it notified.
   */
  lemma LateNightTextAsWritten()
    ensures !IsReasonableHour(3 * MicrosPerHour)
    ensures Pass(LateNightTable(), Sms, b => false, b => None)["b1"].textNotified
    ensures Recorded(["b1"], Sms, b => false, b => None) == [Attempt(Sms, "b1", None)]
  {
    ReasonableHourIff(0, 3, 0, 0, 0);
    assert ["b1"][..0] == [];
  }
}
