/**
 * The mailer: one attempt to deliver one plain-text message over SMTP.
 *
 * The SMTP library is not modelled. A session is the fixed sequence of calls
 * the mailer makes (connect, STARTTLS, login, sendmail, quit), and the mail
 * server's behaviour is a parameter that says, for each call, whether it
 * returns or raises one of the exception classes the mailer tells apart.
 */
module Mailer {
  import opened Wrappers

  /** The account the mailer logs in with, sends from and names in the From header. */
  const SenderEmail: string := "drummondsbusinesssolutions@gmail.com"

  /** The display name used when the caller gives none. */
  const DefaultSenderName: string := "Drummonds Business Solutions"

  /** One call on the SMTP session. */
  datatype Step = Connect | StartTls | Login | SendMail | Quit

  /** The calls of one session, in the order the mailer makes them. */
  const SessionSteps: seq<Step> := [Connect, StartTls, Login, SendMail, Quit]

  /** The exception classes the mailer's handlers distinguish; `Unexpected` is every other exception. */
  datatype FailureKind =
    | AuthenticationRejected
    | RecipientsRefused
    | ServerDisconnected
    | ConnectFailed
    | Unexpected

  /** A raised exception: its class and its text (what `str(e)` gives). */
  datatype SmtpError = SmtpError(kind: FailureKind, text: string)

  /** What one call on the session does: it returns, or it raises. */
  datatype Outcome = Returned | Raised(error: SmtpError)

  /** The record the mailer returns: a success flag, an optional error code and a detail text. */
  datatype EmailResult = EmailResult(success: bool, error: Option<string>, details: string)

  /** The message handed to `sendmail`: From header, recipient, subject and plain-text body. */
  datatype Message = Message(fromHeader: string, to: string, subject: string, body: string)

  /** What happened in a session: the calls made, in order, and the exception that ended it, if any. */
  datatype Session = Session(executed: seq<Step>, raised: Option<SmtpError>)

  /**
   * The error code an exception class maps to. Every class has one, and no
   * two classes share a code: the code determines the class.
   */
  function ErrorCode(kind: FailureKind): (code: string)
    ensures KindOfCode(code) == Some(kind)
  {
    match kind
    case AuthenticationRejected => "SMTP Authentication Error"
    case RecipientsRefused => "Recipient Refused"
    case ServerDisconnected => "Server Disconnected"
    case ConnectFailed => "Connection Error"
    case Unexpected => "Unknown Error"
  }

  /** Reads an error code back as the exception class that produces it. */
  function KindOfCode(code: string): Option<FailureKind>
  {
    if code == "SMTP Authentication Error" then Some(AuthenticationRejected)
    else if code == "Recipient Refused" then Some(RecipientsRefused)
    else if code == "Server Disconnected" then Some(ServerDisconnected)
    else if code == "Connection Error" then Some(ConnectFailed)
    else if code == "Unknown Error" then Some(Unexpected)
    else None
  }

  /**
   * The detail text each exception handler writes for a message to `toEmail`.
   * Every one of them ends with the exception's own text.
   */
  function ErrorDetails(toEmail: string, e: SmtpError): (details: string)
    ensures |e.text| <= |details| && details[|details| - |e.text|..] == e.text
  {
    match e.kind
    case AuthenticationRejected =>
      "Authentication failed. Check your email and app password. Error: " + e.text
    case RecipientsRefused => "Recipient email refused: " + toEmail + ". Error: " + e.text
    case ServerDisconnected => "SMTP server disconnected. Error: " + e.text
    case ConnectFailed => "Cannot connect to SMTP server. Error: " + e.text
    case Unexpected => "Unexpected error: " + e.text
  }

  /** The detail text written once every call of the session has returned. */
  function SuccessDetails(toEmail: string): string
  {
    "Email sent successfully to " + toEmail
  }

  /**
   * The From header: the display name followed by the sender address in angle
   * brackets. The header splits back into the name and the bracketed address.
   */
  function FromHeader(senderName: string): (header: string)
    ensures senderName <= header && header[|senderName|..] == " <" + SenderEmail + ">"
  {
    senderName + " <" + SenderEmail + ">"
  }

  /**
   * Runs the calls `steps` in order against `server`, stopping at the first
   * one that raises. The calls made are a prefix of `steps`; every call but
   * the last one made returned; the session ends without an exception exactly
   * when every call returns, and then every call was made.
   */
  function RunSession(steps: seq<Step>, server: Step -> Outcome): (s: Session)
    ensures |s.executed| <= |steps| && s.executed == steps[..|s.executed|]
    ensures s.raised.None? <==> forall i :: 0 <= i < |steps| ==> server(steps[i]).Returned?
    ensures s.raised.None? ==> s.executed == steps
    ensures s.raised.Some? ==> |s.executed| > 0 && server(s.executed[|s.executed| - 1]) == Raised(s.raised.value)
    ensures forall i :: 0 <= i < |s.executed| - 1 ==> server(s.executed[i]).Returned?
  {
    if steps == [] then Session([], None)
    else
      match server(steps[0])
      case Raised(e) => Session([steps[0]], Some(e))
      case Returned =>
        var rest := RunSession(steps[1..], server);
        Session([steps[0]] + rest.executed, rest.raised)
  }

  /**
   * The result record the mailer builds from a finished session: it reports
   * success, and carries no error code, exactly when no call raised; an error
   * code reads back as the class of the exception that ended the session,
   * and a success names the recipient.
   */
  function SessionResult(toEmail: string, s: Session): (r: EmailResult)
    ensures r.success <==> s.raised.None?
    ensures r.error.None? <==> s.raised.None?
    ensures s.raised.Some? ==> KindOfCode(r.error.value) == Some(s.raised.value.kind)
    ensures s.raised.None? ==> r.details == "Email sent successfully to " + toEmail
  {
    match s.raised
    case None => EmailResult(true, None, SuccessDetails(toEmail))
    case Some(e) => EmailResult(false, Some(ErrorCode(e.kind)), ErrorDetails(toEmail, e))
  }

  /** The call at index `i` is the first of `steps` that raises. */
  predicate FirstRaisedAt(steps: seq<Step>, server: Step -> Outcome, i: nat)
  {
    i < |steps| && server(steps[i]).Raised? && forall j :: 0 <= j < i ==> server(steps[j]).Returned?
  }

  /**
   * The first call that raises decides the session: the calls up to and
   * including it are made, none after it, and its exception ends the session.
   */
  lemma {:induction false} FirstFailureDecides(steps: seq<Step>, server: Step -> Outcome, i: nat)
    requires FirstRaisedAt(steps, server, i)
    ensures RunSession(steps, server) == Session(steps[..i + 1], Some(server(steps[i]).error))
  {
    if i > 0 {
      FirstFailureDecides(steps[1..], server, i - 1);
      assert steps[1..][..i] == steps[1..i + 1];
      assert [steps[0]] + steps[1..i + 1] == steps[..i + 1];
    }
  }

  /**
   * Sends one message: builds it, then makes the calls of the session in
   * order (connect, start TLS, log in, submit the message, quit), stopping at
   * the first call that raises. It never fails itself: the exception becomes
   * an error code and a detail text, and `success` is set only after `quit`
   * has returned. `executed` is the calls made on the server. `sentBefore` is
   * the messages handed to `sendmail` by earlier sends, and `sent` extends it
   * with this message exactly when `sendmail` was reached.
   */
  method SendEmailSync(toEmail: string, subject: string, body: string, senderName: string,
                       server: Step -> Outcome, sentBefore: seq<Message>)
    returns (result: EmailResult, executed: seq<Step>, sent: seq<Message>)
    ensures executed == RunSession(SessionSteps, server).executed
    ensures result == SessionResult(toEmail, RunSession(SessionSteps, server))
    ensures sent == sentBefore + if SendMail in executed then [Message(FromHeader(senderName), toEmail, subject, body)] else []
  {
    result := EmailResult(false, None, "");
    executed := [];
    sent := sentBefore;
    var msg := Message(FromHeader(senderName), toEmail, subject, body);
    var i := 0;
    while i < |SessionSteps|
      invariant i <= |SessionSteps|
      invariant executed == SessionSteps[..i]
      invariant forall j :: 0 <= j < i ==> server(SessionSteps[j]).Returned?
      invariant sent == sentBefore + if SendMail in executed then [msg] else []
      invariant result == EmailResult(false, None, "")
    {
      var step := SessionSteps[i];
      if step == SendMail {
        assert i == 3 && SendMail !in executed;
        sent := sent + [msg];
      }
      var outcome := server(step);
      executed := executed + [step];
      assert executed == SessionSteps[..i + 1];
      if outcome.Raised? {
        result := result.(error := Some(ErrorCode(outcome.error.kind)), details := ErrorDetails(toEmail, outcome.error));
        FirstFailureDecides(SessionSteps, server, i);
        return;
      }
      i := i + 1;
    }
    result := result.(success := true, details := SuccessDetails(toEmail));
  }

  /**
   * What the caller learns from one attempt: `success` holds, with no error
   * code and a detail text naming the recipient, exactly when all five calls
   * return; otherwise the code is the one of the first call that raised.
   */
  lemma {:induction false} SendOutcome(toEmail: string, server: Step -> Outcome)
    ensures var r := SessionResult(toEmail, RunSession(SessionSteps, server));
      (r.success <==> forall st :: st in SessionSteps ==> server(st).Returned?)
      && (r.success ==> r.error == None && r.details == "Email sent successfully to " + toEmail)
      && (!r.success ==>
            exists i: nat :: (FirstRaisedAt(SessionSteps, server, i) &&
                              r.error == Some(ErrorCode(server(SessionSteps[i]).error.kind))))
  {
    var s := RunSession(SessionSteps, server);
    if s.raised.Some? {
      var i := |s.executed| - 1;
      assert SessionSteps[i] == s.executed[i];
      FirstFailureDecides(SessionSteps, server, i);
    }
  }

  /** A login that raises ends the session there: `sendmail` is never called and the login's exception decides the code. */
  lemma LoginFailureSkipsSendMail(toEmail: string, server: Step -> Outcome)
    requires server(Connect).Returned? && server(StartTls).Returned? && server(Login).Raised?
    ensures RunSession(SessionSteps, server).executed == [Connect, StartTls, Login]
    ensures SendMail !in RunSession(SessionSteps, server).executed
    ensures SessionResult(toEmail, RunSession(SessionSteps, server)).error == Some(ErrorCode(server(Login).error.kind))
  {
    FirstFailureDecides(SessionSteps, server, 2);
  }

  /**
   * The fixed code table: whichever call raises first, the attempt fails and
   * its error code is determined by the exception class alone.
   */
  lemma FailureCodes(toEmail: string, server: Step -> Outcome, i: nat)
    requires FirstRaisedAt(SessionSteps, server, i)
    ensures var r := SessionResult(toEmail, RunSession(SessionSteps, server));
      var kind := server(SessionSteps[i]).error.kind;
      && !r.success
      && (kind == AuthenticationRejected ==> r.error == Some("SMTP Authentication Error"))
      && (kind == RecipientsRefused ==> r.error == Some("Recipient Refused"))
      && (kind == ServerDisconnected ==> r.error == Some("Server Disconnected"))
      && (kind == ConnectFailed ==> r.error == Some("Connection Error"))
      && (kind == Unexpected ==> r.error == Some("Unknown Error"))
  {
    FirstFailureDecides(SessionSteps, server, i);
  }

  /**
   * A `quit` that raises after the message was submitted still makes the
   * attempt a failure, although `sendmail` was reached.
   */
  lemma QuitFailureAfterSendMail(toEmail: string, server: Step -> Outcome)
    requires server(Connect).Returned? && server(StartTls).Returned? && server(Login).Returned?
    requires server(SendMail).Returned? && server(Quit).Raised?
    ensures RunSession(SessionSteps, server).executed == SessionSteps
    ensures !SessionResult(toEmail, RunSession(SessionSteps, server)).success
    ensures SessionResult(toEmail, RunSession(SessionSteps, server)).error == Some(ErrorCode(server(Quit).error.kind))
  {
    FirstFailureDecides(SessionSteps, server, 4);
  }
}
