/** The plain records of communicator/models/ that the core creates or counts. */
module Models {
  import opened Wrappers

  /** The two delivery channels; a Notification stores the channel's name in its `type` column. */
  datatype Channel = Email | Sms {
    function TypeName(): string {
      match this
      case Email => "email"
      case Sms => "text"
    }
  }

  /** One send attempt. `date` has no default in the model, so an attempt recorded without one is NULL. */
  datatype Notification = Notification(
    date: Option<int>,
    kind: string,
    successful: bool,
    errorMessage: Option<string>,
    sampleBarcode: string)

  /** One invitation mailing; `dateSent` is the database's `now()` when the row is added. */
  datatype Invitation = Invitation(dateSent: int, location: string, date: string, totalRecipients: int)

  /** One addition to the kit inventory. */
  datatype Deposit = Deposit(dateAdded: int, amount: int, notes: Option<string>)

  datatype User = User(uid: string, displayName: Option<string>)
}
