/**
 * The database session the core works through (`db.session`): the Sample table keyed by
 * barcode, holding the row objects themselves, and the Notification, Invitation and
 * Deposit tables in insertion order.
 */
module Db {
  import opened SampleModel
  import opened Models

  class Session {
    var samples: map<string, Sample>
    var notifications: seq<Notification>
    var invitations: seq<Invitation>
    var deposits: seq<Deposit>

    /** Every row object is stored under its own primary key, so no barcode has two rows. */
    ghost predicate Valid()
      reads this
    {
      forall b :: b in samples ==> samples[b].barcode == b
    }

    /** The Sample table's column values, by barcode. */
    ghost function Contents(): map<string, SampleRow>
      reads this, samples.Values
    {
      map b | b in samples :: samples[b].Row()
    }

    constructor ()
      ensures Valid()
      ensures samples == map[] && notifications == [] && invitations == [] && deposits == []
    {
      samples, notifications, invitations, deposits := map[], [], [], [];
    }
  }
}
