# Contact-form backend: a Dafny model

This project models the core of the Drummonds Business Solutions contact-form
backend, a single FastAPI service whose `POST /submit` endpoint takes a
contact-form entry and returns at once.

The handler does four things:

- It appends the entry to an in-memory list.
- It composes two plain-text e-mails: a thank-you to the submitter and a
  notification to the business owner.
- It schedules one background task that sends the two e-mails one after the
  other.
- It answers with a fixed acknowledgement, whatever happens to the e-mails.

Each e-mail goes through `send_email_sync`. That function opens an SMTP
session (connect, STARTTLS, login, sendmail, quit). It never raises: the first
exception ends the session and becomes an error code and a detail text in the
returned record.

Files:

- `wrappers.dfy` (module `Wrappers`): `Option`, standing for Python's `None`
  or a present value.
- `mailer.dfy` (module `Mailer`): the SMTP session as a fixed list of calls.
  The mail server's behaviour is a parameter `server: Step -> Outcome` that
  says, for each call, whether it returns or raises. The module has the
  exception-to-code mapping, the reference function `RunSession`, the method
  `SendEmailSync` proved against it, and lemmas about the outcomes.
- `contact_form.dfy` (module `ContactForm`): the submission record, the two
  bodies as lists of lines, the store as a class with a `seq` field that is
  only appended to, the handler, and the background task.

Two details of the code that the model follows exactly:

- The authentication error code is "SMTP Authentication Error"
  (main.py:97). It is the only one of the five codes with the "SMTP " prefix.
- The request schema (main.py:28-34) accepts an empty name and an empty
  message, so the model puts no condition on them.
- The address must pass `EmailStr`, which rejects "" and anything that is not
  a valid address, and normalizes the address it accepts. The model does not
  check this (see "## Left out"), so its `email` field accepts more than the
  code does.

The optional fields are `Optional[str]` with default `""`. They are modelled
as `Option<string>`: `None` for an explicit JSON null, `Some("")` when the
field is absent. Python's truth test treats both alike, and so does `Blank`.

## Model

| member | source | states |
|---|---|---|
| `Mailer.ErrorCode` | main.py:95-123 | every exception class has an error code, and the code read back gives the class, so no two classes share a code |
| `Mailer.RunSession` | main.py:69-89 | the calls made are a prefix of connect, starttls, login, sendmail, quit; every call made before the last one returned; the last call made raised the exception that ended the session; the session ends without an exception exactly when every call returns, and then all calls were made |
| `Mailer.FirstFailureDecides` | main.py:69-89 | when the call at index i is the first that raises, the session made exactly the calls up to and including i, and it ended with that call's exception |
| `Mailer.ErrorDetails` | main.py:95-122 | every detail text written by an exception handler ends with the exception's own text; the definition gives each handler's wording, with the recipient in the recipients-refused text |
| `Mailer.FromHeader` | main.py:59 | the From header is the display name followed by " <", the sender address and ">", and splits back into those two parts |
| `Mailer.SessionResult` | main.py:51-123 | the record reports success, and has no error code, exactly when no call raised; then the details name the recipient; otherwise the error code reads back as the class of the exception that ended the session |
| `Mailer.SendEmailSync` | main.py:47-125 | never fails; the calls it makes on the server, and the result record it returns, are those of the reference session; the message with From "<name> <sender address>", the recipient, the subject and the body is appended to the log of messages handed to sendmail exactly when sendmail is reached, and nothing else is added to the log |
| `Mailer.SendOutcome` | main.py:51-125 | `success` holds exactly when all five calls return; then `error` is None and `details` is "Email sent successfully to " followed by the recipient; otherwise `error` is the code of the first call that raised |
| `Mailer.LoginFailureSkipsSendMail` | main.py:76-86 | a login that raises ends the session after connect, starttls and login; sendmail is never called, and the error code is the one for the login's exception |
| `Mailer.FailureCodes` | main.py:95-123 | when a call raises first, `success` is false and the error code is fixed by the exception class: authentication → "SMTP Authentication Error", recipients refused → "Recipient Refused", server disconnected → "Server Disconnected", connect error → "Connection Error", any other exception → "Unknown Error" |
| `Mailer.QuitFailureAfterSendMail` | main.py:86-91 | when quit raises after sendmail returned, every call was made, yet `success` is false and the error code is the one for quit's exception |
| `ContactForm.ThankYouLines` | main.py:146-163 | no contract: this is the definition of the thank-you template, line by line, with the literal text of the source; its properties are stated by `ContactForm.PhoneRendering`, `ContactForm.CompanyRendering`, `ContactForm.ServiceRendering` and `ContactForm.RequiredFieldsRendering` |
| `ContactForm.NotificationLines` | main.py:166-182 | no contract: this is the definition of the owner's notification template, line by line, with the literal text of the source; its properties are stated by the same four rendering lemmas |
| `ContactForm.EmailTaskFor` | main.py:145-189 | the first message goes to the submitter's address with subject "Thank you for contacting Drummonds Business Solutions!" and the thank-you body; the second goes to the owner's address with subject "🔔 New Contact Form Submission - " followed by the submitter's name, and the notification body |
| `ContactForm.PhoneRendering` | main.py:154-172 | a blank phone shows as the line "Phone: Not provided" in both bodies; a non-blank phone shows as "Phone: " followed by the submitted text, in both bodies |
| `ContactForm.CompanyRendering` | main.py:155-173 | a blank company shows as the line "Company: Not provided" in both bodies; a non-blank company shows as submitted, in both bodies |
| `ContactForm.ServiceRendering` | main.py:156-174 | a blank service shows as "Service of Interest: General Inquiry" in the thank-you body and as "Service: Not specified" in the notification; a non-blank service shows as submitted in both |
| `ContactForm.RequiredFieldsRendering` | main.py:146-181 | the thank-you body begins with the line "Hi " followed by the name and a comma; the message is a line of both bodies as submitted; the notification has the lines "Name: " with the name, "Email: " with the address and "Please respond to: " with the address |
| `ContactForm.SubmissionStore.constructor` | main.py:25-26 | the store starts empty |
| `ContactForm.SubmissionStore.Append` | main.py:134-141 | the store grows by exactly one entry; the new last entry is the submission with its six fields unchanged; all earlier entries are unchanged |
| `ContactForm.SubmitUserData` | main.py:127-201 | the submission is appended to the store; the deferred task holds the two composed messages in sending order; the reply is always status "success" with message "Submission received! We'll get back to you within 24 hours.", which does not depend on any e-mail outcome |
| `ContactForm.RunEmailTask` | main.py:185-193 | both sends are always made; each result is that of its own SMTP session, so the notification's result does not depend on what the thank-you send returned; the messages handed to sendmail are the thank-you message (if its session reached sendmail) followed by the notification (if its session did), each with the default sender name |
| `ContactForm.HandOver` | main.py:69-86 | a server that accepts every call is handed the message; so is a server whose sendmail raises, since the message was handed over before it was refused; a server on which connect, starttls or login raises first is handed nothing |
| `ContactForm.TaskHandOver` | main.py:185-189 | with two accepting servers the task hands over the thank-you message first and then the notification; when the thank-you session fails before sendmail, the notification is still handed over, alone |

## Left out

- SMTP networking, TLS, `server.set_debuglevel` and MIME encoding (main.py:58-89) are not modelled. Each session call is an abstract outcome, and the message is a record of its From header, recipient, subject and body.
- Which exception the SMTP library raises for a real-world failure is not modelled. For example, a refused TCP connection raises an `OSError`, which the code reports as "Unknown Error", not "Connection Error". The model takes the exception class as given by the server parameter.
- Exceptions raised while building the MIME message (main.py:58-64) or by `msg.as_string()` (main.py:85) are not modelled. The code would report them as "Unknown Error".
- Mailer.SendEmailSync: the five calls, which the code writes one after the other in one `try` block, are modelled as one loop over the fixed call list that stops at the first exception. The calls made and the result are the same.
- Logging (main.py:12-17 and every `logger` call) is not modelled. It has no effect on any result. So the background task's failure logging (main.py:190-193) is modelled only as the two results it would log.
- The server host, port and password (main.py:20-23) are not modelled. Only the sender address is used, as the owner's address and in the From header.
- FastAPI setup, CORS and request validation, including `EmailStr` (main.py:28-45), are not modelled. A submission reaching the handler is taken as already validated.
- When the background task runs relative to the HTTP response (main.py:195) is not modelled. The task is returned by the handler and run by a separate method.
- The HTTP 500 path (main.py:203-205) is not modelled: in the model, appending and composing cannot fail.
- ContactForm.PhoneRendering: states that the rendered line occurs in each body, not its position. The full layout is the definition of `ThankYouLines` and `NotificationLines`.
- ContactForm.CompanyRendering: states that the rendered line occurs in each body, not its position, as for the phone.
- ContactForm.ServiceRendering: states that the rendered line occurs in each body, not its position, as for the phone.
- ContactForm.RequiredFieldsRendering: states the greeting's position (first line of the thank-you body), but for the other lines only that each occurs in its body, not its position, as for the phone.
