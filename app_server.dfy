/**
 * The stand-alone Express app's `/api/contact`: the same validation and
 * normalisation as the main server, then a best-effort PDF and a best-effort
 * e-mail through the three-provider service. Unlike the main server, the
 * e-mail is attempted whether or not the PDF was produced.
 *
 * The PDF module exports a single `PDFGenerator` instance. As written the
 * handler destructures `createContactPDF` from it, which that instance does
 * not have, so the call throws, is caught, and no PDF is ever attached.
 * Destructuring the generator's own `generateContactFormPDF` would not help:
 * the method, called on its own, reads `this` and throws too. `HandleContact`
 * is the handler that calls `generateContactFormPDF` on the instance;
 * `HandleContactAsWritten` is the handler as it stands.
 */
module AppServer {
  import opened Wrappers
  import opened JsText
  import opened ContactData
  import opened MailCommon
  import opened ProviderChain
  import opened EmailServiceSendGrid

  /** The methods of the exported `PDFGenerator` instance; its other property, `options`, is a plain object. */
  const PdfMethods: set<string> :=
    {"generateContactFormPDF", "generateQuotePDF", "getContactFormHTML", "getQuoteHTML"}

  /** The methods that read `this` (the HTML builder and the page options). */
  const UsesThis: set<string> := {"generateContactFormPDF", "generateQuotePDF"}

  /** The methods that need a quote as second argument, and throw without one. */
  const NeedsQuote: set<string> := {"generateQuotePDF", "getQuoteHTML"}

  /** The methods that render through the PDF library, rather than return markup. */
  const Renderers: set<string> := {"generateContactFormPDF", "generateQuotePDF"}

  /** The name the handler destructures from the PDF module. */
  const AsWrittenPdfExport: string := "createContactPDF"
  /** The generator's method that renders the contact sheet. */
  const ContactPdfExport: string := "generateContactFormPDF"

  /**
   * How the handler reaches the PDF function with the form as only argument:
   * destructured from the module and called on its own (`this` undefined),
   * or called as a method of the exported instance.
   */
  datatype PdfCall = Destructured(name: string) | OnInstance(name: string)

  /** The `details` of a successful reply. */
  datatype Details = Details(pdfGenerated: bool, emailSent: bool, emailService: Option<string>)

  datatype AppReply =
    | AppRejected(status: nat, error: string)
    | AppAccepted(message: string, details: Details)

  /**
   * Step 1, the PDF: whether a value comes back for the handler to attach.
   * Calling a name that is not a method (`options`, or a name the instance
   * lacks) throws, as does a method that reads `this` when called on its own,
   * or a quote method without a quote; the handler catches each. A renderer
   * gives a buffer when the library resolves; an HTML builder returns its
   * markup, which is attached in the PDF's place.
   */
  function PdfStep(call: PdfCall, renders: bool): (pdfBuffer: bool)
    ensures pdfBuffer ==> call.name in PdfMethods && call.name !in NeedsQuote
    ensures call.Destructured? && call.name in UsesThis ==> !pdfBuffer
    ensures call.name in Renderers && !renders ==> !pdfBuffer
    ensures call == OnInstance(ContactPdfExport) ==> (pdfBuffer <==> renders)
  {
    && call.name in PdfMethods
    && !(call.Destructured? && call.name in UsesThis)
    && call.name !in NeedsQuote
    && (call.name in Renderers ==> renders)
  }

  /**
   * The handler with the PDF function reached by `call`. `renders` is
   * whether the PDF library resolves; `outcomes` what each mail provider does.
   * Returns the reply and, when validation passed, the message the providers
   * were offered and the providers tried.
   */
  method HandleWith(call: PdfCall, form: ContactForm, svc: SendGridService, renders: bool,
      date: string, iso: string, outcomes: Outcomes)
    returns (reply: AppReply, offered: Option<Mail>, tried: seq<Provider>)
    ensures Validate(form).Failure? ==>
      reply == AppRejected(400, ErrorText(Validate(form).error)) && offered.None? && tried == []
    ensures Validate(form).Success? ==>
      var d := Validate(form).value;
      var pdf := PdfStep(call, renders);
      && reply.AppAccepted? && reply.message == ContactThanks
      && reply.details.pdfGenerated == pdf
      && offered == Some(ContactMail(d, pdf, date, iso, NoButtons, AttachedNote))
      && tried == Attempts(svc.Order(), outcomes)
      && (reply.details.emailSent <==> Winner(svc.Order(), outcomes).Some?)
      && (reply.details.emailSent ==> reply.details.emailService == Some(ServiceTag(Winner(svc.Order(), outcomes).value)))
      && (!reply.details.emailSent ==> reply.details.emailService.None?)
  {
    var checked := Validate(form);
    if checked.Failure? {
      return AppRejected(400, ErrorText(checked.error)), None, [];
    }
    var normalizedData := checked.value;
    var pdfBuffer := false;
    var emailSent := false;
    var emailService: Option<string> := None;
    if PdfStep(call, renders) {
      pdfBuffer := true;
    }
    var result, mail;
    result, tried, mail := svc.SendContactFormEmail(normalizedData, pdfBuffer, date, iso, outcomes);
    if result.Success? {
      emailSent := true;
      emailService := Some(result.value);
    }
    reply := AppAccepted(ContactThanks, Details(pdfBuffer, emailSent, emailService));
    offered := Some(mail);
  }

  const ContactThanks: string := "Formulario enviado correctamente. Te contactaremos pronto."

  /** The handler as written: whatever the PDF library would do, no PDF is generated or attached. */
  method HandleContactAsWritten(form: ContactForm, svc: SendGridService, renders: bool,
      date: string, iso: string, outcomes: Outcomes)
    returns (reply: AppReply, offered: Option<Mail>, tried: seq<Provider>)
    ensures reply.AppAccepted? ==> !reply.details.pdfGenerated
    ensures offered.Some? ==> offered.value.attachments == []
    ensures Validate(form).Success? ==> reply.AppAccepted? && tried == Attempts(svc.Order(), outcomes)
  {
    AsWrittenPdfNeverGenerated(renders);
    reply, offered, tried := HandleWith(Destructured(AsWrittenPdfExport), form, svc, renders, date, iso, outcomes);
  }

  /**
   * The handler calling `generateContactFormPDF` on the exported instance: the PDF is
   * generated exactly when rendering succeeds, attached exactly then, and the
   * mail is attempted either way.
   */
  method HandleContact(form: ContactForm, svc: SendGridService, renders: bool,
      date: string, iso: string, outcomes: Outcomes)
    returns (reply: AppReply, offered: Option<Mail>, tried: seq<Provider>)
    ensures Validate(form).Failure? ==>
      reply == AppRejected(400, ErrorText(Validate(form).error)) && offered.None? && tried == []
    ensures Validate(form).Success? ==>
      && reply.AppAccepted? && reply.details.pdfGenerated == renders
      && offered.Some? && (|offered.value.attachments| == 1 <==> renders)
      && tried == Attempts(svc.Order(), outcomes)
      && (reply.details.emailSent <==> Winner(svc.Order(), outcomes).Some?)
  {
    AsWrittenPdfNeverGenerated(renders);
    reply, offered, tried := HandleWith(OnInstance(ContactPdfExport), form, svc, renders, date, iso, outcomes);
  }

  /**
   * As written, step 1 always fails: the destructured name is not a method.
   * Destructuring the generator's own method fails as well, because it reads
   * `this`; called on the instance, it gives a PDF exactly when rendering succeeds.
   */
  lemma AsWrittenPdfNeverGenerated(renders: bool)
    ensures !PdfStep(Destructured(AsWrittenPdfExport), renders)
    ensures !PdfStep(Destructured(ContactPdfExport), renders)
    ensures PdfStep(OnInstance(ContactPdfExport), renders) == renders
  {
    assert AsWrittenPdfExport !in PdfMethods;
  }

  /** The generator's `options` is not a function, however it is reached. */
  lemma OptionsNotCallable(call: PdfCall, renders: bool)
    requires call.name == "options"
    ensures !PdfStep(call, renders)
  {
    assert "options" !in PdfMethods;
  }
}
