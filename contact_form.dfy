/**
 * The submission handler: it records a contact-form submission in the
 * in-memory store, composes a thank-you message to the submitter and a
 * notification to the owner, hands both to one deferred task that sends them
 * one after the other, and answers the caller with a fixed acknowledgement.
 */
module ContactForm {
  import opened Wrappers
  import opened Mailer

  /**
   * One validated form entry. `phone`, `company` and `service` are optional
   * strings: absent from the request they are "", sent as JSON null they are
   * `None`.
   */
  datatype Submission = Submission(
    name: string,
    email: string,
    phone: Option<string>,
    company: Option<string>,
    service: Option<string>,
    message: string)

  /** A message the handler composes: recipient address, subject and plain-text body. */
  datatype OutboundMessage = OutboundMessage(recipient: string, subject: string, body: string)

  /** The deferred unit of work: the thank-you message, then the owner's notification. */
  datatype EmailTask = EmailTask(thankYou: OutboundMessage, notification: OutboundMessage)

  /** The JSON record returned to the caller. */
  datatype Response = Response(status: string, message: string)

  const ThankYouSubject: string := "Thank you for contacting Drummonds Business Solutions!"
  const NotificationSubjectPrefix: string := "\U{1F514} New Contact Form Submission - "
  const Acknowledgement: string := "Submission received! We'll get back to you within 24 hours."

  /** The separator line of both bodies: 41 heavy horizontal box-drawing characters. */
  const Rule: string := "\U{2501}\U{2501}\U{2501}\U{2501}\U{2501}\U{2501}\U{2501}\U{2501}\U{2501}\U{2501}\U{2501}\U{2501}\U{2501}\U{2501}\U{2501}\U{2501}\U{2501}\U{2501}\U{2501}\U{2501}\U{2501}\U{2501}\U{2501}\U{2501}\U{2501}\U{2501}\U{2501}\U{2501}\U{2501}\U{2501}\U{2501}\U{2501}\U{2501}\U{2501}\U{2501}\U{2501}\U{2501}\U{2501}\U{2501}\U{2501}\U{2501}"

  /** Python's truth test on an optional string: `None` and "" are false. */
  predicate Blank(field: Option<string>)
  {
    field.None? || field.value == ""
  }

  /** `field if field else placeholder`: the field's text, or the placeholder when it is blank. */
  function Shown(field: Option<string>, placeholder: string): string
  {
    if Blank(field) then placeholder else field.value
  }

  /** The text made of `lines`, each followed by a newline. */
  function Text(lines: seq<string>): string
  {
    if lines == [] then "" else lines[0] + "\n" + Text(lines[1..])
  }

  /** `line` as a whole line inside a text: preceded and followed by a newline. */
  function AsLine(line: string): string
  {
    "\n" + line + "\n"
  }

  /** `piece` occurs in `text` starting at index `k`. */
  predicate OccursAt(text: string, piece: string, k: int)
  {
    0 <= k <= |text| - |piece| && text[k..k + |piece|] == piece
  }

  /** `piece` occurs in `text` as a contiguous run of characters. */
  ghost predicate Contains(text: string, piece: string)
  {
    exists k :: OccursAt(text, piece, k)
  }

  /** The lines of the thank-you body. */
  function ThankYouLines(u: Submission): seq<string>
  {
    [ "Hi " + u.name + ",",
      "",
      "Thank you for reaching out to Drummonds Business Solutions! ",
      "",
      "We have received your message and will get back to you within 24 hours during business days.",
      "",
      "Here's what you submitted:",
      Rule,
      "Phone: " + Shown(u.phone, "Not provided"),
      "Company: " + Shown(u.company, "Not provided"),
      "Service of Interest: " + Shown(u.service, "General Inquiry"),
      "Your Message: " + u.message,
      Rule,
      "",
      "Best regards,",
      "The Drummonds Business Solutions Team",
      "Email: " + SenderEmail ]
  }

  /** The lines of the owner's notification body. */
  function NotificationLines(u: Submission): seq<string>
  {
    [ "New contact form submission received:",
      "",
      "\U{1F464} Customer Details:",
      Rule,
      "Name: " + u.name,
      "Email: " + u.email,
      "Phone: " + Shown(u.phone, "Not provided"),
      "Company: " + Shown(u.company, "Not provided"),
      "Service: " + Shown(u.service, "Not specified"),
      "",
      "\U{1F4AC} Message:",
      Rule,
      u.message,
      Rule,
      "",
      "Please respond to: " + u.email ]
  }

  function ThankYouBody(u: Submission): string
  {
    Text(ThankYouLines(u))
  }

  function NotificationBody(u: Submission): string
  {
    Text(NotificationLines(u))
  }

  function NotificationSubject(u: Submission): string
  {
    NotificationSubjectPrefix + u.name
  }

  /**
   * The two messages composed from a submission, in the order they are sent:
   * the thank-you to the submitter, then the notification to the owner's
   * address, whose subject ends with the submitter's name.
   */
  function EmailTaskFor(u: Submission): (t: EmailTask)
    ensures t.thankYou.recipient == u.email
    ensures t.thankYou.subject == "Thank you for contacting Drummonds Business Solutions!"
    ensures t.notification.recipient == "drummondsbusinesssolutions@gmail.com"
    ensures t.notification.subject == "\U{1F514} New Contact Form Submission - " + u.name
    ensures t.thankYou.body == ThankYouBody(u) && t.notification.body == NotificationBody(u)
  {
    EmailTask(
      OutboundMessage(u.email, ThankYouSubject, ThankYouBody(u)),
      OutboundMessage(SenderEmail, NotificationSubject(u), NotificationBody(u)))
  }

  /** A piece between two texts occurs in their concatenation. */
  lemma ContainsMiddle(before: string, piece: string, after: string)
    ensures Contains(before + piece + after, piece)
  {
    var text := before + piece + after;
    assert text[|before|..|before| + |piece|] == piece;
    assert OccursAt(text, piece, |before|);
  }

  /** A piece that occurs in a text still occurs once something is put in front. */
  lemma ContainsAfterPrefix(before: string, text: string, piece: string)
    requires Contains(text, piece)
    ensures Contains(before + text, piece)
  {
    var k :| OccursAt(text, piece, k);
    assert (before + text)[|before| + k..|before| + k + |piece|] == piece;
    assert OccursAt(before + text, piece, |before| + k);
  }

  /** Every line but the first appears in the text between two newlines. */
  lemma {:induction false} TextContainsLine(lines: seq<string>, k: nat)
    requires 0 < k < |lines|
    ensures Contains(Text(lines), AsLine(lines[k]))
  {
    var rest := lines[1..];
    assert Text(lines) == lines[0] + "\n" + Text(rest);
    if k == 1 {
      assert Text(rest) == rest[0] + "\n" + Text(rest[1..]);
      assert Text(lines) == lines[0] + AsLine(lines[1]) + Text(rest[1..]);
      ContainsMiddle(lines[0], AsLine(lines[1]), Text(rest[1..]));
    } else {
      TextContainsLine(rest, k - 1);
      assert Text(lines) == (lines[0] + "\n") + Text(rest);
      ContainsAfterPrefix(lines[0] + "\n", Text(rest), AsLine(lines[k]));
    }
  }

  /**
   * A line made of a caption and an optional field shows the placeholder when
   * the field is blank and the field's text otherwise.
   */
  lemma FieldLine(lines: seq<string>, k: nat, caption: string, field: Option<string>, placeholder: string)
    requires 0 < k < |lines| && lines[k] == caption + Shown(field, placeholder)
    ensures Blank(field) ==> Contains(Text(lines), AsLine(caption + placeholder))
    ensures !Blank(field) ==> Contains(Text(lines), AsLine(caption + field.value))
  {
    TextContainsLine(lines, k);
  }

  /**
   * A blank phone reads "Not provided" in both bodies; a non-blank one
   * appears in both as it was submitted.
   */
  lemma PhoneRendering(u: Submission)
    ensures Blank(u.phone) ==>
      Contains(ThankYouBody(u), AsLine("Phone: " + "Not provided"))
      && Contains(NotificationBody(u), AsLine("Phone: " + "Not provided"))
    ensures !Blank(u.phone) ==>
      Contains(ThankYouBody(u), AsLine("Phone: " + u.phone.value))
      && Contains(NotificationBody(u), AsLine("Phone: " + u.phone.value))
  {
    FieldLine(ThankYouLines(u), 8, "Phone: ", u.phone, "Not provided");
    FieldLine(NotificationLines(u), 6, "Phone: ", u.phone, "Not provided");
  }

  /**
   * A blank company reads "Not provided" in both bodies; a non-blank one
   * appears in both as it was submitted.
   */
  lemma CompanyRendering(u: Submission)
    ensures Blank(u.company) ==>
      Contains(ThankYouBody(u), AsLine("Company: " + "Not provided"))
      && Contains(NotificationBody(u), AsLine("Company: " + "Not provided"))
    ensures !Blank(u.company) ==>
      Contains(ThankYouBody(u), AsLine("Company: " + u.company.value))
      && Contains(NotificationBody(u), AsLine("Company: " + u.company.value))
  {
    FieldLine(ThankYouLines(u), 9, "Company: ", u.company, "Not provided");
    FieldLine(NotificationLines(u), 7, "Company: ", u.company, "Not provided");
  }

  /**
   * A blank service reads "General Inquiry" in the thank-you body and "Not
   * specified" in the notification; a non-blank one appears in both as it
   * was submitted.
   */
  lemma ServiceRendering(u: Submission)
    ensures Blank(u.service) ==>
      Contains(ThankYouBody(u), AsLine("Service of Interest: " + "General Inquiry"))
      && Contains(NotificationBody(u), AsLine("Service: " + "Not specified"))
    ensures !Blank(u.service) ==>
      Contains(ThankYouBody(u), AsLine("Service of Interest: " + u.service.value))
      && Contains(NotificationBody(u), AsLine("Service: " + u.service.value))
  {
    FieldLine(ThankYouLines(u), 10, "Service of Interest: ", u.service, "General Inquiry");
    FieldLine(NotificationLines(u), 8, "Service: ", u.service, "Not specified");
  }

  /**
   * The required fields appear as submitted: the thank-you body opens by
   * greeting the submitter by name, the message is in both bodies, and the
   * name and the reply address are in the notification.
   */
  lemma RequiredFieldsRendering(u: Submission)
    ensures "Hi " + u.name + ",\n" <= ThankYouBody(u)
    ensures Contains(ThankYouBody(u), AsLine("Your Message: " + u.message))
    ensures Contains(NotificationBody(u), AsLine(u.message))
    ensures Contains(NotificationBody(u), AsLine("Name: " + u.name))
    ensures Contains(NotificationBody(u), AsLine("Email: " + u.email))
    ensures Contains(NotificationBody(u), AsLine("Please respond to: " + u.email))
  {
    TextContainsLine(ThankYouLines(u), 11);
    TextContainsLine(NotificationLines(u), 12);
    TextContainsLine(NotificationLines(u), 4);
    TextContainsLine(NotificationLines(u), 5);
    TextContainsLine(NotificationLines(u), 15);
  }

  /** The in-memory store: the submissions received, in arrival order. Entries are only ever appended. */
  class SubmissionStore {
    var records: seq<Submission>

    constructor ()
      ensures records == []
    {
      records := [];
    }

    /** Records one submission after all earlier ones, which stay as they were. */
    method Append(u: Submission)
      modifies this
      ensures records == old(records) + [u]
      ensures |records| == |old(records)| + 1 && records[|records| - 1] == u
      ensures records[..|old(records)|] == old(records)
    {
      records := records + [u];
    }
  }

  /**
   * Handles one submission: appends it to the store, composes the two
   * messages, and returns the fixed acknowledgement together with the
   * deferred task that will send them. The response does not depend on what
   * later happens to either message.
   */
  method SubmitUserData(store: SubmissionStore, u: Submission) returns (response: Response, task: EmailTask)
    modifies store
    ensures store.records == old(store.records) + [u]
    ensures response == Response("success", "Submission received! We'll get back to you within 24 hours.")
    ensures task == EmailTaskFor(u)
  {
    store.Append(u);
    var userSubject := ThankYouSubject;
    var userBody := ThankYouBody(u);
    var ownerSubject := NotificationSubject(u);
    var ownerBody := NotificationBody(u);
    task := EmailTask(OutboundMessage(u.email, userSubject, userBody), OutboundMessage(SenderEmail, ownerSubject, ownerBody));
    response := Response("success", Acknowledgement);
  }

  /** The message `sendmail` receives for a composed message, sent under the default display name. */
  function Handed(m: OutboundMessage): Message
  {
    Message(FromHeader(DefaultSenderName), m.recipient, m.subject, m.body)
  }

  /**
   * What one send hands to `sendmail` against `server`: the message, if its
   * session reaches that call. A message that `sendmail` then refuses (it
   * raises) is still in this list: it was handed over, not delivered.
   */
  function HandedBy(server: Step -> Outcome, m: Message): seq<Message>
  {
    if SendMail in RunSession(SessionSteps, server).executed then [m] else []
  }

  /**
   * Runs the deferred task: sends the thank-you message, then the
   * notification, each in its own SMTP session against its own server
   * behaviour. The second send is made whatever the first one returned, and
   * its result depends only on its own session. `sent` is the messages handed
   * to `sendmail`, in the order the two sends handed them over.
   */
  method RunEmailTask(task: EmailTask, userServer: Step -> Outcome, ownerServer: Step -> Outcome)
    returns (userResult: EmailResult, ownerResult: EmailResult, sent: seq<Message>)
    ensures userResult == SessionResult(task.thankYou.recipient, RunSession(SessionSteps, userServer))
    ensures ownerResult == SessionResult(task.notification.recipient, RunSession(SessionSteps, ownerServer))
    ensures sent == HandedBy(userServer, Handed(task.thankYou)) + HandedBy(ownerServer, Handed(task.notification))
  {
    var m := task.thankYou;
    var userCalls;
    userResult, userCalls, sent := SendEmailSync(m.recipient, m.subject, m.body, DefaultSenderName, userServer, []);
    m := task.notification;
    var ownerCalls;
    ownerResult, ownerCalls, sent := SendEmailSync(m.recipient, m.subject, m.body, DefaultSenderName, ownerServer, sent);
  }

  /**
   * A server that accepts every call is handed the message, and so is one
   * whose `sendmail` itself raises; one that raises before `sendmail` is
   * handed nothing.
   */
  lemma HandOver(server: Step -> Outcome, m: Message)
    ensures (forall st :: server(st).Returned?) ==> HandedBy(server, m) == [m]
    ensures (exists i: nat :: (i < 3 && FirstRaisedAt(SessionSteps, server, i))) ==> HandedBy(server, m) == []
    ensures FirstRaisedAt(SessionSteps, server, 3) ==> HandedBy(server, m) == [m]
  {
  }

  /**
   * The order of the task's hand-overs: with two accepting servers the
   * thank-you message is handed over first and the notification second; when
   * the thank-you session raises before `sendmail`, the notification is
   * still handed over, alone.
   */
  lemma TaskHandOver(task: EmailTask, userServer: Step -> Outcome, ownerServer: Step -> Outcome, i: nat)
    ensures (forall st :: userServer(st).Returned?) && (forall st :: ownerServer(st).Returned?) ==>
      HandedBy(userServer, Handed(task.thankYou)) + HandedBy(ownerServer, Handed(task.notification))
        == [Handed(task.thankYou), Handed(task.notification)]
    ensures i < 3 && FirstRaisedAt(SessionSteps, userServer, i) && (forall st :: ownerServer(st).Returned?) ==>
      HandedBy(userServer, Handed(task.thankYou)) + HandedBy(ownerServer, Handed(task.notification))
        == [Handed(task.notification)]
  {
    HandOver(userServer, Handed(task.thankYou));
    HandOver(ownerServer, Handed(task.notification));
  }
}
