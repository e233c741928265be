/**
 * The result notifications and invitation mailings
 * (communicator/services/notification_service.py): the link and SMS text, the
 * reasonable-hour window, and what each send records, either in `TEST_MESSAGES` when the
 * application is in TESTING mode or with the mail server and Twilio otherwise. Phone
 * number parsing, template rendering, uuid generation and the transports are parameters.
 */
module Notifications {
  import opened Wrappers
  import opened Text
  import opened Errors
  import opened SampleModel
  import opened Models
  import opened Db

  const LinkRoot: string := "https://besafe.virginia.edu/result-demo?code="
  const ResultSubject: string := "UVA: BE SAFE Notification"
  const InvitationSubject: string := "UVA: BE SAFE - Appointment"
  const SmsOpening: string := "Dear "
  const SmsMiddle: string := ", You have an important notification from UVA, please visit: "
  const SmsClosing: string := ". Reply 'STOP' to opt-out."
  const TrackingCodeLength: nat := 16

  /** Python's `str()` of a nullable string column, which an f-string applies. */
  function Str(v: Option<string>): string {
    if v.Some? then v.value else "None"
  }

  // ------------------------------------------------------------------ the result link

  /** `get_link(sample)`. */
  function GetLink(resultCode: Option<string>): string {
    LinkRoot + Str(resultCode)
  }

  /** The result code a link carries, when it has the result page's prefix. */
  function CodeOfLink(link: string): Option<string> {
    if IsPrefix(LinkRoot, link) then Some(link[|LinkRoot|..]) else None
  }

  /** The link leads to the result page and carries the sample's result code. */
  lemma LinkCarriesCode(resultCode: Option<string>)
    ensures CodeOfLink(GetLink(resultCode)) == Some(Str(resultCode))
  {
    assert GetLink(resultCode)[..|LinkRoot|] == LinkRoot;
  }

  // ------------------------------------------------------------------- the SMS text

  /** `s.split(c)[0]`: the text before the first `c`, all of `s` when there is none. */
  function BeforeFirst(s: string, c: char): (r: string)
    ensures IsPrefix(r, s) && c !in r
    ensures |r| < |s| ==> s[|r|] == c
    decreases |s|
  {
    if s == [] || s[0] == c then [] else [s[0]] + BeforeFirst(s[1..], c)
  }

  /** The name the SMS greets: the email's local part, "Student" without a usable email. */
  function SmsName(email: Option<string>): (name: string)
    ensures Truthy(email) && '@' in email.value ==>
      IsPrefix(name, email.value) && '@' !in name && email.value[|name|] == '@'
    ensures !(Truthy(email) && '@' in email.value) ==> name == "Student"
  {
    if Truthy(email) && '@' in email.value then BeforeFirst(email.value, '@') else "Student"
  }

  /** An address `name@domain` is greeted by its local part, whatever the domain holds. */
  lemma SmsNameIsLocalPart(name: string, domain: string)
    requires '@' !in name
    ensures SmsName(Some(name + "@" + domain)) == name
  {
    var e := name + "@" + domain;
    assert e[|name|] == '@';
    var r := SmsName(Some(e));
    assert |r| == |name| by {
      assert forall i :: 0 <= i < |name| ==> e[i] == name[i];
    }
    assert r == e[..|name|] == name;
  }

  /** The text of the result SMS. */
  function SmsBody(name: string, link: string): string {
    SmsOpening + name + SmsMiddle + link + SmsClosing
  }

  /** The SMS opens with the greeting, names the person, gives the link and ends with the opt-out. */
  lemma SmsBodyLayout(name: string, link: string)
    ensures var body, at := SmsBody(name, link), |SmsOpening| + |name| + |SmsMiddle|;
      && |body| == at + |link| + |SmsClosing|
      && body[..|SmsOpening|] == SmsOpening
      && body[|SmsOpening|..|SmsOpening| + |name|] == name
      && body[at..at + |link|] == link
      && body[at + |link|..] == SmsClosing
  {
  }

  // ------------------------------------------------------------- the reasonable hour

  const MicrosPerSecond: int := 1_000_000
  const MicrosPerMinute: int := 60 * MicrosPerSecond
  const MicrosPerHour: int := 60 * MicrosPerMinute
  const MicrosPerDay: int := 24 * MicrosPerHour

  /**
   * `is_reasonable_hour_for_text_messages()` at `now`, the local time in US/Eastern in
   * microseconds since a local midnight: between that day's 08:00 and 22:00, both included.
   */
  predicate IsReasonableHour(now: int) {
    var midnight := (now / MicrosPerDay) * MicrosPerDay;
    midnight + 8 * MicrosPerHour <= now <= midnight + 22 * MicrosPerHour
  }

  /** A local time of day is reasonable from 08:00:00.000000 up to and including 22:00:00.000000. */
  lemma ReasonableHourIff(day: int, h: int, m: int, s: int, us: int)
    requires 0 <= h < 24 && 0 <= m < 60 && 0 <= s < 60 && 0 <= us < MicrosPerSecond
    ensures IsReasonableHour(day * MicrosPerDay + h * MicrosPerHour + m * MicrosPerMinute + s * MicrosPerSecond + us)
        <==> 8 <= h < 22 || (h == 22 && m == 0 && s == 0 && us == 0)
  {
    var within := h * MicrosPerHour + m * MicrosPerMinute + s * MicrosPerSecond + us;
    assert 0 <= m * MicrosPerMinute + s * MicrosPerSecond + us < MicrosPerHour;
    assert 0 <= within < MicrosPerDay;
    DayOfMicros(day, within);
  }

  lemma DayOfMicros(day: int, within: int)
    requires 0 <= within < MicrosPerDay
    ensures (day * MicrosPerDay + within) / MicrosPerDay == day
  {
  }

  // ---------------------------------------------------------------------- the sends

  /** What a send leaves in `TEST_MESSAGES`: the SMS text, or the email's headers and bodies. */
  datatype Message =
    | SmsMessage(body: string)
    | Mail(subject: string, sender: string, to: string, textBody: string, htmlBody: string)

  /** What a transport accepted: an SMS through Twilio, or a message through the mail server. */
  datatype Delivery =
    | TextMessage(to: string, sender: string, body: string)
    | Envelope(sender: string, recipients: seq<string>, message: Message)

  /** `phonenumbers.parse(phone, "US")` followed by `is_valid_number`, and the E.164 form. */
  datatype PhoneCheck = Unparseable | Invalid | Valid(e164: string)

  /** `str(uuid.uuid4())[:16]`. */
  function TrackingCode(uuid: string): (code: string)
    ensures |uuid| >= TrackingCodeLength ==> |code| == TrackingCodeLength
    ensures IsPrefix(code, uuid)
  {
    if |uuid| >= TrackingCodeLength then uuid[..TrackingCodeLength] else uuid
  }

  /** The error `_send_email` raises when the mail server refuses the message. */
  function MailFailure(recipients: seq<string>, cause: string): Raised {
    Comm(CommError(Numeric(5000), "failed to send email to " + Join(recipients, ", "), cause))
  }

  /** The error `send_result_sms` raises for a phone number that parses but is not valid. */
  function InvalidPhone(phone: Option<string>): Raised {
    Comm(CommError(Numeric(6001), "invalid phone number: " + Str(phone), ""))
  }

  /** The module-level `TEST_MESSAGES` list and the messages the transports accepted. */
  class Outbox {
    var testMessages: seq<Message>
    var delivered: seq<Delivery>

    constructor ()
      ensures testMessages == [] && delivered == []
    {
      testMessages, delivered := [], [];
    }
  }

  /**
   * A NotificationService inside its `with` block. Each send takes the transport's
   * answer as a parameter: None when it accepts, or the text of the exception it raises.
   */
  class NotificationService {
    const testing: bool
    const sender: string
    const twilioNumber: string
    const outbox: Outbox

    constructor (testing: bool, sender: string, twilioNumber: string, outbox: Outbox)
      ensures this.testing == testing && this.sender == sender && this.twilioNumber == twilioNumber
      ensures this.outbox == outbox
    {
      this.testing, this.sender, this.twilioNumber, this.outbox := testing, sender, twilioNumber, outbox;
    }

    /**
     * `_send_email(subject, recipients, ...)`: in TESTING mode the message is recorded and
     * nobody is mailed; otherwise the server gets the recipients followed by the BCC list,
     * and a refusal becomes CommError 5000.
     */
    method SendEmail(subject: string, recipients: seq<string>, textBody: string, htmlBody: string,
                     bcc: seq<string>, transport: Option<string>) returns (r: Result<(), Raised>)
      modifies outbox
      ensures var msg := Mail(subject, sender, Join(recipients, ", "), textBody, htmlBody);
        && (testing ==> r.Success? && outbox.testMessages == old(outbox.testMessages) + [msg]
                        && outbox.delivered == old(outbox.delivered))
        && (!testing && transport.None? ==>
              r.Success? && outbox.delivered == old(outbox.delivered) + [Envelope(sender, recipients + bcc, msg)]
              && outbox.testMessages == old(outbox.testMessages))
        && (!testing && transport.Some? ==>
              r == Failure(MailFailure(recipients, transport.value)) && unchanged(outbox))
    {
      var msg := Mail(subject, sender, Join(recipients, ", "), textBody, htmlBody);
      if testing {
        outbox.testMessages := outbox.testMessages + [msg];
        return Success(());
      }
      var allRecipients := recipients + bcc;
      if transport.Some? {
        return Failure(MailFailure(recipients, transport.value));
      }
      outbox.delivered := outbox.delivered + [Envelope(sender, allRecipients, msg)];
      return Success(());
    }

    /**
     * `send_result_email(sample)`: one message to the sample's address, returning the
     * tracking code the templates embed. The two templates are rendered from the sample,
     * the link and the tracking code (the fixed `base_url` is part of each template). A
     * sample without an email makes `', '.join` raise TypeError before anything is recorded.
     */
    method SendResultEmail(sample: SampleRow, uuid: string, textBody: (SampleRow, string, string) -> string,
                           htmlBody: (SampleRow, string, string) -> string, transport: Option<string>)
      returns (r: Result<string, Raised>)
      modifies outbox
      ensures sample.email.None? ==> r == Failure(Other("TypeError")) && unchanged(outbox)
      ensures sample.email.Some? ==>
        var link, code := GetLink(sample.resultCode), TrackingCode(uuid);
        var msg := Mail(ResultSubject, sender, sample.email.value, textBody(sample, link, code), htmlBody(sample, link, code));
        && (testing ==> r == Success(code) && outbox.testMessages == old(outbox.testMessages) + [msg]
                        && outbox.delivered == old(outbox.delivered))
        && (!testing && transport.None? ==>
              r == Success(code) && outbox.testMessages == old(outbox.testMessages)
              && outbox.delivered == old(outbox.delivered) + [Envelope(sender, [sample.email.value], msg)])
        && (!testing && transport.Some? ==>
              r == Failure(MailFailure([sample.email.value], transport.value)) && unchanged(outbox))
    {
      var link := GetLink(sample.resultCode);
      var code := TrackingCode(uuid);
      if sample.email.None? {
        return Failure(Other("TypeError"));
      }
      var to := [sample.email.value];
      assert Join(to, ", ") == sample.email.value;
      var sent := SendEmail(ResultSubject, to, textBody(sample, link, code), htmlBody(sample, link, code), [], transport);
      if sent.Failure? {
        return Failure(sent.error);
      }
      assert to + [] == to;
      return Success(code);
    }

    /**
     * `send_result_sms(sample)`: the phone is checked before the text is built, so an
     * invalid number raises CommError 6001 and nothing is recorded or sent.
     */
    method SendResultSms(sample: SampleRow, check: Option<string> -> PhoneCheck, transport: Option<string>)
      returns (r: Result<(), Raised>)
      modifies outbox
      ensures check(sample.phone) == Unparseable ==> r == Failure(Other("NumberParseException")) && unchanged(outbox)
      ensures check(sample.phone) == Invalid ==> r == Failure(InvalidPhone(sample.phone)) && unchanged(outbox)
      ensures check(sample.phone).Valid? ==>
        var body := SmsBody(SmsName(sample.email), GetLink(sample.resultCode));
        && (testing ==> r.Success? && outbox.testMessages == old(outbox.testMessages) + [SmsMessage(body)]
                        && outbox.delivered == old(outbox.delivered))
        && (!testing && transport.None? ==>
              r.Success? && outbox.testMessages == old(outbox.testMessages)
              && outbox.delivered == old(outbox.delivered) + [TextMessage(check(sample.phone).e164, twilioNumber, body)])
        && (!testing && transport.Some? ==> r == Failure(Other(transport.value)) && unchanged(outbox))
    {
      var link := GetLink(sample.resultCode);
      var phone := check(sample.phone);
      if phone == Unparseable {
        return Failure(Other("NumberParseException"));
      }
      if phone == Invalid {
        return Failure(InvalidPhone(sample.phone));
      }
      var name := SmsName(sample.email);
      var message := SmsBody(name, link);
      if testing {
        outbox.testMessages := outbox.testMessages + [SmsMessage(message)];
        return Success(());
      }
      if transport.Some? {
        return Failure(Other(transport.value));
      }
      outbox.delivered := outbox.delivered + [TextMessage(phone.e164, twilioNumber, message)];
      return Success(());
    }

    /**
     * `send_invitations(date, location, email_string)`: one message addressed to the
     * sender with every line of `email_string` in BCC, then an Invitation row counting the
     * lines; a refused message raises before the row is added. `now` is the database's
     * `now()` when the row is added.
     */
    method SendInvitations(date: string, location: string, emailString: string, uuid: string,
                           textBody: string -> string, htmlBody: string -> string, transport: Option<string>,
                           db: Session, now: int) returns (r: Result<(), Raised>)
      modifies outbox, db`invitations
      ensures var emails, code := Lines(emailString), TrackingCode(uuid);
        var msg := Mail(InvitationSubject, sender, sender, textBody(code), htmlBody(code));
        && (r.Success? <==> testing || transport.None?)
        && (r.Success? ==> db.invitations == old(db.invitations) + [Invitation(now, location, date, |emails|)])
        && (r.Failure? ==> r == Failure(MailFailure([sender], transport.value))
                           && db.invitations == old(db.invitations) && unchanged(outbox))
        && (testing ==> outbox.testMessages == old(outbox.testMessages) + [msg]
                        && outbox.delivered == old(outbox.delivered))
        && (!testing && transport.None? ==>
              outbox.testMessages == old(outbox.testMessages)
              && outbox.delivered == old(outbox.delivered) + [Envelope(sender, [sender] + emails, msg)])
    {
      var emails := Lines(emailString);
      var code := TrackingCode(uuid);
      assert Join([sender], ", ") == sender;
      var sent := SendEmail(InvitationSubject, [sender], textBody(code), htmlBody(code), emails, transport);
      if sent.Failure? {
        return Failure(sent.error);
      }
      db.invitations := db.invitations + [Invitation(now, location, date, |emails|)];
      return Success(());
    }
  }
}
