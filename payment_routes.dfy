/** The Razorpay webhook of backend/routes/paymentRoutes.js. HMAC-SHA256
    (RFC 2104) with hex output, `JSON.stringify` of the parsed body and the
    mail transport are parameters; the body is given by the fields the
    handler reads. */
module PaymentRoutes {
  import opened Common

  /** `payment.entity.notes`; an absent or empty field is None or "". */
  datatype Notes = Notes(email: Option<string>, registrationId: Option<string>, fullName: Option<string>)

  /** What the handler reads of the request. `entity` is None when
      `req.body.payload.payment.entity` cannot be reached, `notes` None when
      it is falsy. */
  datatype Webhook = Webhook(bodyText: string, signature: Option<string>, event: Option<string>,
                             entity: Option<Option<Notes>>)

  datatype Mail = Mail(to: string, subject: string, text: string)

  /** The status and message sent back, and the mail handed to the
      transport, if any. */
  datatype Outcome = Outcome(status: int, message: string, mail: Option<Mail>)

  const Captured: string := "payment.captured"

  /** verifySignature: the hex digest of the serialised body under the
      secret equals the header; an absent header never matches. */
  predicate VerifySignature(hmacHex: (string, string) -> string, secret: string, body: string,
                            signature: Option<string>)
  {
    signature.Some? && hmacHex(secret, body) == signature.value
  }

  function Truthy(s: Option<string>): bool
  {
    s.Some? && s.value != ""
  }

  /** `notes.fullName || 'Participant'`. */
  function Greeting(n: Notes): (name: string)
    ensures Truthy(n.fullName) ==> name == n.fullName.value
    ensures !Truthy(n.fullName) ==> name == "Participant"
    ensures name != ""
  {
    if Truthy(n.fullName) then n.fullName.value else "Participant"
  }

  /** A template literal writes an undefined registrationId as "undefined". */
  function TemplateText(s: Option<string>): string
  {
    if s.Some? then s.value else "undefined"
  }

  const MailLabels: seq<string> := [
    "Hello ",
    ",\n\nYour payment with registration ID ",
    " has been successfully received.\n\nThank you for registering!\n\nBest regards,\nYour Team"
  ]

  /** The mail goes to the notes' email under a fixed subject; its text is
      described by MailMentionsNameAndRegistration. */
  function ConfirmationMail(email: string, n: Notes): (m: Mail)
    ensures m.to == email && m.subject == "Registration Confirmation"
  {
    Mail(email, "Registration Confirmation", Interleave(MailLabels, [Greeting(n), TemplateText(n.registrationId)]))
  }

  /** The handler: the signature is checked before anything else; only a
      captured payment with an email in its notes sends mail, and a failed
      send answers 500. `send` reports whether the transport accepted the
      mail. */
  function HandleWebhook(w: Webhook, secret: string, hmacHex: (string, string) -> string,
                         send: Mail -> bool): (r: Outcome)
    ensures !VerifySignature(hmacHex, secret, w.bodyText, w.signature) ==>
      r == Outcome(400, "Invalid signature", None)
    ensures r.mail.Some? <==>
      && VerifySignature(hmacHex, secret, w.bodyText, w.signature)
      && w.event == Some(Captured) && w.entity.Some? && w.entity.value.Some? && Truthy(w.entity.value.value.email)
    ensures r.mail.Some? ==>
      && r.mail.value == ConfirmationMail(w.entity.value.value.email.value, w.entity.value.value)
      && (r.status == 200 <==> send(r.mail.value))
      && (r.status != 200 ==> r == Outcome(500, "Internal Server Error", r.mail))
    ensures VerifySignature(hmacHex, secret, w.bodyText, w.signature) && w.event != Some(Captured) ==>
      r == Outcome(200, "Webhook received", None)
  {
    if !VerifySignature(hmacHex, secret, w.bodyText, w.signature) then Outcome(400, "Invalid signature", None)
    else if w.event == Some(Captured) then
      if w.entity.None? then Outcome(500, "Internal Server Error", None)
      else
        var notes := if w.entity.value.Some? then w.entity.value.value else Notes(None, None, None);
        if !Truthy(notes.email) then Outcome(400, "Email not found in payment notes", None)
        else
          var mail := ConfirmationMail(notes.email.value, notes);
          if send(mail) then Outcome(200, "Email sent successfully", Some(mail))
          else Outcome(500, "Internal Server Error", Some(mail))
    else Outcome(200, "Webhook received", None)
  }

  /** A captured payment whose notes are missing, or carry no email, is
      refused with 400 and sends nothing. */
  lemma MissingEmailRefused(w: Webhook, secret: string, hmacHex: (string, string) -> string, send: Mail -> bool)
    requires VerifySignature(hmacHex, secret, w.bodyText, w.signature)
    requires w.event == Some(Captured) && w.entity.Some?
    requires w.entity.value.None? || !Truthy(w.entity.value.value.email)
    ensures HandleWebhook(w, secret, hmacHex, send) == Outcome(400, "Email not found in payment notes", None)
  {
  }

  /** The mail greets the payer by full name, "Participant" when it is
      missing, and names the registration id right after its label. */
  lemma MailMentionsNameAndRegistration(email: string, n: Notes)
    ensures var text, fields := ConfirmationMail(email, n).text, [Greeting(n), TemplateText(n.registrationId)];
      && |MailLabels[0]| + |Greeting(n)| <= |text|
      && text[..|MailLabels[0]|] == "Hello "
      && text[|MailLabels[0]|..|MailLabels[0]| + |Greeting(n)|] == Greeting(n)
      && var k := FieldOffset(MailLabels, fields, 1);
         k + |fields[1]| <= |text| && text[k - |MailLabels[1]|..k] == MailLabels[1] && text[k..k + |fields[1]|] == fields[1]
  {
    var fields := [Greeting(n), TemplateText(n.registrationId)];
    FieldAfterLabel(MailLabels, fields, 0);
    FieldAfterLabel(MailLabels, fields, 1);
  }
}
