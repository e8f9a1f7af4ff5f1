/**
 * `EmailServiceAdvanced`: SendGrid first, Gmail (through nodemailer) as the
 * backup. SendGrid is available once its key is accepted; Gmail only after
 * the transporter's connection check succeeds, and a failed check drops the
 * transporter. The check's outcome arrives later, so it is a separate step.
 */
module EmailServiceAdvanced {
  import opened Wrappers
  import opened JsText
  import opened ContactData
  import opened MailCommon
  import opened ProviderChain

  const NoServiceAvailable: string := "No email service available"
  const ProcessedNote: string := "Solicitud procesada correctamente"

  /** The `service` tag of a successful send. */
  function ServiceTag(p: Provider): string {
    match p
    case SendGrid => "SendGrid"
    case Mailgun => "Mailgun"
    case Gmail => "Gmail"
  }

  /** What `getAvailableServices` reports. */
  datatype ServiceStatus = ServiceStatus(sendgrid: bool, gmail: bool, hasAnyService: bool)

  /**
   * `new EmailServiceAdvanced()` as written: SendGrid is set up first, then
   * `initializeNodemailer`, with both Gmail credentials set, calls
   * `nodemailer.createTransporter`. Nodemailer's factory is named
   * `createTransport`, so the call throws, and neither the method nor the
   * constructor catches it. `None` stands for that throw; otherwise the
   * services are as reported right after construction.
   */
  function LoadAsWritten(env: map<string, string>, setApiKeyThrows: bool): (s: Option<ServiceStatus>)
    ensures s.None? <==> GmailCredentials(env)
    ensures s.Some? ==> !s.value.gmail
    ensures s.Some? ==> s.value.sendgrid == (Truthy(EnvVar(env, "SENDGRID_API_KEY")) && !setApiKeyThrows)
  {
    if GmailCredentials(env) then None
    else
      var sendgrid := Truthy(EnvVar(env, "SENDGRID_API_KEY")) && !setApiKeyThrows;
      Some(ServiceStatus(sendgrid, false, sendgrid))
  }

  /** With Gmail credentials set, construction as written throws, even when SendGrid was accepted. */
  lemma GmailCredentialsBreakConstruction()
    ensures LoadAsWritten(map["SENDGRID_API_KEY" := "SG.clave", "EMAIL_USER" := "ventas@stratek.es",
      "EMAIL_PASS" := "clave"], false).None?
  {
    var env := map["SENDGRID_API_KEY" := "SG.clave", "EMAIL_USER" := "ventas@stratek.es", "EMAIL_PASS" := "clave"];
    assert EnvVar(env, "EMAIL_USER") == Some("ventas@stratek.es");
    assert EnvVar(env, "EMAIL_PASS") == Some("clave");
  }

  class AdvancedService {
    var sendgridAvailable: bool
    var nodemailerAvailable: bool
    /** Whether a nodemailer transporter is held. */
    var transporter: bool
    /** Whether the transporter's connection check has been started and not yet settled. */
    var verificationPending: bool

    /**
     * Gmail is only ever marked available while its transporter is held, and
     * a check still pending belongs to a held transporter not yet available.
     */
    predicate Valid()
      reads this
    {
      && (nodemailerAvailable ==> transporter)
      && (verificationPending ==> transporter && !nodemailerAvailable)
    }

    /**
     * `initializeServices`. `setApiKeyThrows` is whether the SendGrid library
     * rejects the key; the Gmail check is started but not yet settled.
     */
    constructor (env: map<string, string>, setApiKeyThrows: bool)
      ensures Valid()
      ensures sendgridAvailable == (Truthy(EnvVar(env, "SENDGRID_API_KEY")) && !setApiKeyThrows)
      ensures transporter == GmailCredentials(env) && verificationPending == transporter
      ensures !nodemailerAvailable
    {
      sendgridAvailable, nodemailerAvailable, transporter, verificationPending := false, false, false, false;
      new;
      InitializeSendGrid(EnvVar(env, "SENDGRID_API_KEY"), setApiKeyThrows);
      InitializeNodemailer(env);
    }

    /** `initializeSendGrid`: available only when the key is set and accepted. */
    method InitializeSendGrid(key: Option<string>, setApiKeyThrows: bool)
      modifies this
      ensures sendgridAvailable == if Truthy(key) && !setApiKeyThrows then true else old(sendgridAvailable)
      ensures nodemailerAvailable == old(nodemailerAvailable) && transporter == old(transporter)
      ensures verificationPending == old(verificationPending)
    {
      if !Truthy(key) {
        return;
      }
      if !setApiKeyThrows {
        sendgridAvailable := true;
      }
    }

    /**
     * `initializeNodemailer`: with both credentials a transporter is created
     * and its connection check started; without them nothing changes. It runs
     * once, from the constructor, before any check has settled.
     */
    method InitializeNodemailer(env: map<string, string>)
      modifies this
      requires !nodemailerAvailable
      ensures GmailCredentials(env) ==> transporter && verificationPending
      ensures !GmailCredentials(env) ==>
        transporter == old(transporter) && verificationPending == old(verificationPending)
      ensures sendgridAvailable == old(sendgridAvailable) && nodemailerAvailable == old(nodemailerAvailable)
      ensures old(Valid()) ==> Valid()
    {
      if !Truthy(EnvVar(env, "EMAIL_USER")) || !Truthy(EnvVar(env, "EMAIL_PASS")) {
        return;
      }
      transporter := true;
      verificationPending := true;
    }

    /**
     * The settling of the connection check: `verified` is whether it
     * succeeded before the timeout. Success makes Gmail available; failure
     * drops the transporter. A check that is not pending changes nothing.
     */
    method SettleVerification(verified: bool)
      modifies this
      requires Valid()
      ensures Valid()
      ensures !verificationPending
      ensures old(verificationPending) && verified ==>
        nodemailerAvailable && transporter == old(transporter)
      ensures old(verificationPending) && !verified ==>
        !transporter && nodemailerAvailable == old(nodemailerAvailable) && !nodemailerAvailable
      ensures !old(verificationPending) ==>
        nodemailerAvailable == old(nodemailerAvailable) && transporter == old(transporter)
      ensures sendgridAvailable == old(sendgridAvailable)
    {
      if !verificationPending {
        return;
      }
      verificationPending := false;
      if verified {
        nodemailerAvailable := true;
      } else {
        transporter := false;
      }
    }

    /** The providers this service would try, in order. */
    function Order(): seq<Provider>
      reads this
    {
      ChainOrder(sendgridAvailable, false, nodemailerAvailable)
    }

    /** `getAvailableServices`: some service is reported exactly when there is a provider to try. */
    function GetAvailableServices(): (s: ServiceStatus)
      reads this
      ensures s.sendgrid == sendgridAvailable && s.gmail == nodemailerAvailable
      ensures s.hasAnyService <==> Order() != []
    {
      ServiceStatus(sendgridAvailable, nodemailerAvailable, sendgridAvailable || nodemailerAvailable)
    }

    /**
     * `sendContactFormEmail`: SendGrid, then Gmail, each only when available,
     * with the same message. `gmailError` is the error Gmail's send would
     * throw, which is passed on unchanged.
     */
    method SendContactFormEmail(d: Submission, pdfPresent: bool, date: string, iso: string, outcomes: Outcomes,
        gmailError: string)
      returns (result: Result<string, string>, tried: seq<Provider>, mail: Mail)
      requires Valid()
      ensures tried == Attempts(Order(), outcomes)
      ensures result.Success? <==> Winner(Order(), outcomes).Some?
      ensures result.Success? ==> result.value == ServiceTag(Winner(Order(), outcomes).value)
      ensures result.Failure? ==> result.error == if nodemailerAvailable then gmailError else NoServiceAvailable
      ensures mail == ContactMail(d, pdfPresent, date, iso, ReplyAndCallIfPhone, ProcessedNote)
    {
      mail := ContactMail(d, pdfPresent, date, iso, ReplyAndCallIfPhone, ProcessedNote);
      result, tried := TryProviders(outcomes, gmailError);
    }

    /**
     * The chain itself. `sendWithNodemailer` refuses to send without a
     * transporter, but while `Valid()` holds Gmail is only tried with one.
     */
    method TryProviders(outcomes: Outcomes, gmailError: string)
      returns (result: Result<string, string>, tried: seq<Provider>)
      requires Valid()
      ensures tried == Attempts(Order(), outcomes)
      ensures result.Success? <==> Winner(Order(), outcomes).Some?
      ensures result.Success? ==> result.value == ServiceTag(Winner(Order(), outcomes).value)
      ensures result.Failure? ==> result.error == if nodemailerAvailable then gmailError else NoServiceAvailable
    {
      tried := [];
      if sendgridAvailable {
        tried := tried + [SendGrid];
        if outcomes.sendgrid {
          SendGridWins(false, nodemailerAvailable, outcomes);
          return Success("SendGrid"), tried;
        }
      }
      ChainFails(sendgridAvailable, false, nodemailerAvailable, outcomes);
      if nodemailerAvailable {
        tried := tried + [Gmail];
        if outcomes.gmail {
          return Success("Gmail"), tried;
        }
        return Failure(gmailError), tried;
      }
      return Failure(NoServiceAvailable), tried;
    }
  }

  /** With SendGrid available and working, Gmail is never tried. */
  lemma GmailOnlyAfterSendGrid(gmail: bool, o: Outcomes)
    requires o.sendgrid
    ensures Gmail !in Attempts(ChainOrder(true, false, gmail), o)
  {
    SendGridWins(false, gmail, o);
  }

  /** Nothing can be sent exactly when no service is available: the chain is empty. */
  lemma NoServiceNoSend(sendgrid: bool, gmail: bool)
    ensures (forall o: Outcomes :: Winner(ChainOrder(sendgrid, false, gmail), o).None?) <==> !sendgrid && !gmail
  {
    var all := Outcomes(true, true, true);
    if sendgrid {
      SendGridWins(false, gmail, all);
    } else if gmail {
      ChainFails(false, false, true, all);
    }
  }
}
