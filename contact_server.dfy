/**
 * The Express server's form and chat endpoints: `/api/contact`, which
 * validates, renders the contact PDF and mails it best-effort; `/api/quote`,
 * which prices the request, renders the quote PDF and mails it; and the
 * message filtering of `/api/chat`.
 *
 * The PDF library, the mail transport and the OpenAI client are outside the
 * model: each handler takes what they would do (succeed or fail) as inputs and
 * reports the calls it makes, in order, so that "nothing is rendered or sent
 * before validation" and "mail only after a PDF" are statements about results.
 */
module ContactServer {
  import opened Wrappers
  import opened JsText
  import opened ContactData
  import opened QuoteCalculator
  import opened PdfGenerator
  import opened Document

  /** A call into the PDF library or the mail service. */
  datatype Call =
    | RenderContactPdf(data: Submission)
    | SendContactEmail(data: Submission)
    | RenderQuotePdf(data: Submission, quote: Quote)
    | SendQuoteEmail(data: Submission, quote: Quote)

  const PdfError: string := "Error generating PDF"
  const NotConfigured: string := "Email service not configured"
  const SendError: string := "Error sending email"
  const QuoteError: string := "Error al generar el presupuesto"
  const ContactThanks: string := "Formulario enviado correctamente. Te contactaremos pronto."

  /** The JSON answer of `/api/contact`. */
  datatype ContactReply =
    | ContactRejected(status: nat, error: string)
    | ContactAccepted(message: string, pdfGenerated: bool, emailSent: bool, timestamp: string,
        errors: Option<seq<string>>)

  /**
   * `/api/contact`. `pdfSucceeds` is whether rendering the PDF resolves,
   * `transporterReady` whether the mail service has a transporter, and
   * `sendSucceeds` whether sending would resolve if it were attempted.
   */
  method HandleContact(form: ContactForm, pdfSucceeds: bool, transporterReady: bool, sendSucceeds: bool,
      timestamp: string)
    returns (reply: ContactReply, calls: seq<Call>)
    ensures Validate(form).Failure? ==>
      reply == ContactRejected(400, ErrorText(Validate(form).error)) && calls == []
    ensures Validate(form).Success? ==>
      var d := Validate(form).value;
      && reply.ContactAccepted? && reply.message == ContactThanks && reply.timestamp == timestamp
      && reply.pdfGenerated == pdfSucceeds
      && reply.emailSent == (pdfSucceeds && transporterReady && sendSucceeds)
      && calls == [RenderContactPdf(d)] + (if pdfSucceeds && transporterReady then [SendContactEmail(d)] else [])
    ensures reply.ContactAccepted? ==>
      && (reply.errors.None? <==> reply.pdfGenerated && reply.emailSent)
      && (reply.errors.Some? ==> ErrorsExplain(reply.errors.value, pdfSucceeds, transporterReady, sendSucceeds))
      && (reply.errors.Some? ==> reply.errors.value == ContactErrors(pdfSucceeds, transporterReady, sendSucceeds))
  {
    var checked := Validate(form);
    if checked.Failure? {
      return ContactRejected(400, ErrorText(checked.error)), [];
    }
    var d := checked.value;
    var pdfBuffer := false;
    var emailSent := false;
    var errors: seq<string> := [];
    calls := [RenderContactPdf(d)];
    if pdfSucceeds {
      pdfBuffer := true;
    } else {
      errors := errors + [PdfError];
    }
    if transporterReady && pdfBuffer {
      calls := calls + [SendContactEmail(d)];
      if sendSucceeds {
        emailSent := true;
      } else {
        errors := errors + [SendError];
      }
    } else {
      errors := errors + [NotConfigured];
    }
    reply := ContactAccepted(ContactThanks, pdfBuffer, emailSent, timestamp,
      if |errors| > 0 then Some(errors) else None);
  }

  /**
   * What the `errors` list of an accepted contact reply says: the PDF error
   * exactly when rendering failed and then first; "not configured" exactly when
   * mail was skipped; the send error exactly when a send was made and failed.
   */
  predicate ErrorsExplain(errors: seq<string>, pdfSucceeds: bool, transporterReady: bool, sendSucceeds: bool) {
    && 0 < |errors| <= 2
    && (PdfError in errors <==> !pdfSucceeds)
    && (!pdfSucceeds ==> errors[0] == PdfError)
    && (NotConfigured in errors <==> !(pdfSucceeds && transporterReady))
    && (SendError in errors <==> pdfSucceeds && transporterReady && !sendSucceeds)
  }

  /**
   * The `errors` list of `/api/contact`, in the order the steps run: the PDF
   * error, then either "not configured" (no transporter or no PDF) or the
   * send error.
   */
  function ContactErrors(pdfSucceeds: bool, transporterReady: bool, sendSucceeds: bool): (errors: seq<string>)
    ensures errors != [] <==> !(pdfSucceeds && transporterReady && sendSucceeds)
    ensures ErrorsExplain(errors, pdfSucceeds, transporterReady, sendSucceeds) || errors == []
  {
    (if pdfSucceeds then [] else [PdfError])
    + (if !(pdfSucceeds && transporterReady) then [NotConfigured] else if sendSucceeds then [] else [SendError])
  }

  /** The JSON answer of `/api/quote`. */
  datatype QuoteReply =
    | QuoteRejected(status: nat, error: string)
    | QuoteAccepted(message: string, quote: Quote, pdfGenerated: bool, emailSent: bool, timestamp: string)

  /** The quote endpoint normalises fewer fields: no company, timeline or priority. */
  function QuoteSubmission(f: ContactForm): (s: Submission)
    ensures s.name == f.nombre && s.email == f.email && s.phone == f.telefono
    ensures s.service == f.servicio && s.budget == f.presupuesto && s.message == f.mensaje
    ensures s.company.None? && s.timeline.None? && s.priority.None?
  {
    Submission(f.nombre, f.email, f.telefono, None, f.servicio, f.presupuesto, None, None, f.mensaje)
  }

  /**
   * `/api/quote`: name, e-mail and service are required (the e-mail's shape is
   * not checked). A service the price table cannot price ends in a 500
   * before anything is rendered. The quote PDF is rendered, and only after it succeeds is the
   * quote mailed, when a transporter exists.
   */
  method HandleQuote(form: ContactForm, pdfSucceeds: bool, transporterReady: bool, sendSucceeds: bool,
      validUntil: string, timestamp: string)
    returns (reply: QuoteReply, calls: seq<Call>)
    ensures !(Truthy(form.nombre) && Truthy(form.email) && Truthy(form.servicio)) ==>
      reply == QuoteRejected(400, "Faltan campos requeridos para el presupuesto") && calls == []
    ensures Truthy(form.nombre) && Truthy(form.email) && Truthy(form.servicio) ==>
      var d := QuoteSubmission(form);
      var q := CalculateQuote(form.servicio.value, form.presupuesto, validUntil);
      && (q.None? ==> reply == QuoteRejected(500, QuoteError) && calls == [])
      && (q.Some? ==>
        && reply == QuoteAccepted("Presupuesto generado correctamente", q.value, pdfSucceeds,
             pdfSucceeds && transporterReady && sendSucceeds, timestamp)
        && calls == [RenderQuotePdf(d, q.value)]
             + (if pdfSucceeds && transporterReady then [SendQuoteEmail(d, q.value)] else []))
  {
    if !Truthy(form.nombre) || !Truthy(form.email) || !Truthy(form.servicio) {
      return QuoteRejected(400, "Faltan campos requeridos para el presupuesto"), [];
    }
    var calculated := CalculateQuote(form.servicio.value, form.presupuesto, validUntil);
    if calculated.None? {
      return QuoteRejected(500, QuoteError), [];
    }
    var quote := calculated.value;
    var d := QuoteSubmission(form);
    var pdfBuffer := false;
    var emailSent := false;
    calls := [RenderQuotePdf(d, quote)];
    if pdfSucceeds {
      pdfBuffer := true;
      if transporterReady {
        calls := calls + [SendQuoteEmail(d, quote)];
        emailSent := sendSucceeds;
      }
    }
    reply := QuoteAccepted("Presupuesto generado correctamente", quote, pdfBuffer, emailSent, timestamp);
  }

  /** Because the quote endpoint never forwards a timeline, its PDF always promises the default delivery time. */
  lemma QuotePdfDefaultDelivery(form: ContactForm, q: Quote, date: string)
    ensures Note("Tiempo de entrega: " + DefaultDelivery) in QuoteSheet(QuoteSubmission(form), q, date)
  {
    assert OrElse(QuoteSubmission(form).timeline, DefaultDelivery) == DefaultDelivery;
  }

  /** One chat message as posted: a role, and content that may not be a string. */
  datatype RawMessage = RawMessage(role: Option<string>, content: Option<string>)

  /** A message as forwarded to the completion API. */
  datatype ChatMessage = ChatMessage(role: string, content: string)

  const AllowedRoles: set<string> := {"system", "user", "assistant"}
  const MaxMessages: nat := 50
  const MaxContent: nat := 2000

  /** An unknown role becomes "user"; content is cut to 2000 characters, and non-strings become empty. */
  function FilterMessage(m: RawMessage): (r: ChatMessage)
    ensures r.role in AllowedRoles
    ensures m.role.Some? && m.role.value in AllowedRoles ==> r.role == m.role.value
    ensures !(m.role.Some? && m.role.value in AllowedRoles) ==> r.role == "user"
    ensures |r.content| <= MaxContent
    ensures m.content.Some? ==> r.content <= m.content.value
    ensures m.content.Some? && |m.content.value| <= MaxContent ==> r.content == m.content.value
    ensures m.content.None? ==> r.content == ""
  {
    var role := if m.role.Some? && m.role.value in AllowedRoles then m.role.value else "user";
    var content := if m.content.Some? then Prefix(m.content.value, MaxContent) else "";
    ChatMessage(role, content)
  }

  /** The filter applied to every message, order kept. */
  function FilterMessages(ms: seq<RawMessage>): (r: seq<ChatMessage>)
    ensures |r| == |ms|
    ensures forall k | 0 <= k < |ms| :: r[k] == FilterMessage(ms[k])
  {
    if ms == [] then [] else [FilterMessage(ms[0])] + FilterMessages(ms[1..])
  }

  /** What the completion call did. */
  datatype Completion = Completed(content: string) | CompletionFailed(code: string)

  /** The JSON answer of `/api/chat`; `retryAfter` is the seconds a rate-limited client is told to wait. */
  datatype ChatReply =
    | ChatFailed(status: nat, error: string, fallback: bool, retryAfter: Option<nat>)
    | ChatAnswered(message: string)

  const RetryAfterSeconds: nat := 60

  /** The reply for a completion request that threw with error code `code`. */
  function CompletionError(code: string): (r: ChatReply)
    ensures r.ChatFailed?
    ensures code == "insufficient_quota" <==> r.status == 503
    ensures code == "rate_limit_exceeded" <==> r.status == 429
    ensures r.retryAfter.Some? <==> r.status == 429
    ensures r.fallback <==> r.status != 429
    ensures r.status == 503 ==> r.error == "API quota exceeded"
    ensures r.status == 429 ==> r.error == "API rate limit exceeded" && r.retryAfter == Some(RetryAfterSeconds)
    ensures r.status !in {503, 429} ==> r == ChatFailed(500, "Internal server error", true, None)
  {
    if code == "insufficient_quota" then ChatFailed(503, "API quota exceeded", true, None)
    else if code == "rate_limit_exceeded" then ChatFailed(429, "API rate limit exceeded", false, Some(RetryAfterSeconds))
    else ChatFailed(500, "Internal server error", true, None)
  }

  /**
   * `/api/chat`. `messages` is `None` when the body has no array. Returns the
   * reply and the messages forwarded to the completion API, if any.
   */
  function HandleChat(messages: Option<seq<RawMessage>>, openaiAvailable: bool, completion: Completion)
    : (r: (ChatReply, Option<seq<ChatMessage>>))
    ensures messages.None? ==> r == (ChatFailed(400, "Messages array is required", false, None), None)
    ensures messages.Some? && !openaiAvailable ==> r == (ChatFailed(503, "OpenAI service not available", true, None), None)
    ensures messages.Some? && openaiAvailable && |messages.value| > MaxMessages ==>
      r == (ChatFailed(400, "Too many messages in conversation", false, None), None)
    ensures r.1.Some? <==> messages.Some? && openaiAvailable && |messages.value| <= MaxMessages
    ensures r.1.Some? ==> r.1.value == FilterMessages(messages.value)
    ensures r.1.Some? && completion.Completed? ==> r.0 == ChatAnswered(completion.content)
    ensures r.1.Some? && completion.CompletionFailed? ==> r.0 == CompletionError(completion.code)
    ensures r.0.ChatAnswered? ==> r.1.Some? && completion.Completed?
  {
    if messages.None? then (ChatFailed(400, "Messages array is required", false, None), None)
    else if !openaiAvailable then (ChatFailed(503, "OpenAI service not available", true, None), None)
    else if |messages.value| > MaxMessages then (ChatFailed(400, "Too many messages in conversation", false, None), None)
    else
      var sent := FilterMessages(messages.value);
      match completion
      case Completed(content) => (ChatAnswered(content), Some(sent))
      case CompletionFailed(code) => (CompletionError(code), Some(sent))
  }
}
