/**
 * `EmailServiceSendGrid`: three providers configured from the environment at
 * construction and tried in the order SendGrid, Mailgun, Gmail, each with the
 * same message.
 */
module EmailServiceSendGrid {
  import opened Wrappers
  import opened JsText
  import opened ContactData
  import opened MailCommon
  import opened ProviderChain

  /** The `service` tag of a successful send. */
  function ServiceTag(p: Provider): string {
    match p
    case SendGrid => "sendgrid"
    case Mailgun => "mailgun"
    case Gmail => "gmail"
  }

  const AllFailed: string := "All email services failed"
  const NoneConfigured: string := "No email service configured"

  class SendGridService {
    var sendgridConfigured: bool
    var mailgunConfigured: bool
    /** Whether the Gmail transporter was created. */
    var gmailConfigured: bool

    /** Each provider is configured exactly when its credentials are set. */
    constructor (env: map<string, string>)
      ensures sendgridConfigured == Truthy(EnvVar(env, "SENDGRID_API_KEY"))
      ensures mailgunConfigured == (Truthy(EnvVar(env, "MAIL_USERNAME")) && Truthy(EnvVar(env, "MAIL_PASSWORD")))
      ensures gmailConfigured == GmailCredentials(env)
    {
      sendgridConfigured := Truthy(EnvVar(env, "SENDGRID_API_KEY"));
      mailgunConfigured := Truthy(EnvVar(env, "MAIL_USERNAME")) && Truthy(EnvVar(env, "MAIL_PASSWORD"));
      gmailConfigured := Truthy(EnvVar(env, "EMAIL_USER")) && Truthy(EnvVar(env, "EMAIL_PASS"));
    }

    /** The configured providers of this service, in chain order. */
    function Order(): seq<Provider>
      reads this
    {
      ChainOrder(sendgridConfigured, mailgunConfigured, gmailConfigured)
    }

    /**
     * `sendContactFormEmail`: every configured provider is offered the same
     * message in turn until one accepts it. `pdfPresent` is whether a PDF
     * buffer was passed; `date` and `iso` are the formatted and ISO clocks.
     */
    method SendContactFormEmail(d: Submission, pdfPresent: bool, date: string, iso: string, outcomes: Outcomes)
      returns (result: Result<string, string>, tried: seq<Provider>, mail: Mail)
      ensures tried == Attempts(Order(), outcomes)
      ensures result.Success? <==> Winner(Order(), outcomes).Some?
      ensures result.Success? ==> result.value == ServiceTag(Winner(Order(), outcomes).value)
      ensures result.Failure? ==> result.error == if gmailConfigured then AllFailed else NoneConfigured
      ensures mail == ContactMail(d, pdfPresent, date, iso, NoButtons, AttachedNote)
    {
      mail := ContactMail(d, pdfPresent, date, iso, NoButtons, AttachedNote);
      result, tried := TryProviders(outcomes);
    }

    /**
     * The provider chain of `sendContactFormEmail`: SendGrid, then Mailgun,
     * then Gmail, each only when configured, stopping at the first success.
     */
    method TryProviders(outcomes: Outcomes) returns (result: Result<string, string>, tried: seq<Provider>)
      ensures tried == Attempts(Order(), outcomes)
      ensures result.Success? <==> Winner(Order(), outcomes).Some?
      ensures result.Success? ==> result.value == ServiceTag(Winner(Order(), outcomes).value)
      ensures result.Failure? ==> result.error == if gmailConfigured then AllFailed else NoneConfigured
    {
      tried := [];
      if sendgridConfigured {
        tried := tried + [SendGrid];
        if outcomes.sendgrid {
          SendGridWins(mailgunConfigured, gmailConfigured, outcomes);
          return Success("sendgrid"), tried;
        }
      }
      result, tried := TryAfterSendGrid(outcomes, tried);
    }

    /** The chain from Mailgun on, once SendGrid was skipped or refused the message. */
    method TryAfterSendGrid(outcomes: Outcomes, before: seq<Provider>) returns (result: Result<string, string>, tried: seq<Provider>)
      requires sendgridConfigured ==> !outcomes.sendgrid
      requires before == if sendgridConfigured then [SendGrid] else []
      ensures tried == Attempts(Order(), outcomes)
      ensures result.Success? <==> Winner(Order(), outcomes).Some?
      ensures result.Success? ==> result.value == ServiceTag(Winner(Order(), outcomes).value)
      ensures result.Failure? ==> result.error == if gmailConfigured then AllFailed else NoneConfigured
    {
      tried := before;
      if mailgunConfigured {
        tried := tried + [Mailgun];
        if outcomes.mailgun {
          MailgunWins(sendgridConfigured, gmailConfigured, outcomes);
          return Success("mailgun"), tried;
        }
      }
      result, tried := TryGmail(outcomes, tried);
    }

    /** The last link of the chain, once SendGrid and Mailgun were skipped or refused the message. */
    method TryGmail(outcomes: Outcomes, before: seq<Provider>) returns (result: Result<string, string>, tried: seq<Provider>)
      requires sendgridConfigured ==> !outcomes.sendgrid
      requires mailgunConfigured ==> !outcomes.mailgun
      requires before == (if sendgridConfigured then [SendGrid] else []) + (if mailgunConfigured then [Mailgun] else [])
      ensures tried == Attempts(Order(), outcomes)
      ensures result.Success? <==> Winner(Order(), outcomes).Some?
      ensures result.Success? ==> result.value == ServiceTag(Winner(Order(), outcomes).value)
      ensures result.Failure? ==> result.error == if gmailConfigured then AllFailed else NoneConfigured
    {
      ChainFails(sendgridConfigured, mailgunConfigured, gmailConfigured, outcomes);
      if gmailConfigured {
        tried := before + [Gmail];
        if outcomes.gmail {
          return Success("gmail"), tried;
        }
        return Failure(AllFailed), tried;
      }
      assert before + [] == before;
      return Failure(NoneConfigured), before;
    }
  }

  /** When the send fails with Gmail configured, every configured provider was tried and refused. */
  lemma AllFailedMeansAllTried(sendgrid: bool, mailgun: bool, o: Outcomes)
    requires Winner(ChainOrder(sendgrid, mailgun, true), o).None?
    ensures Attempts(ChainOrder(sendgrid, mailgun, true), o) == ChainOrder(sendgrid, mailgun, true)
    ensures !o.gmail && (sendgrid ==> !o.sendgrid) && (mailgun ==> !o.mailgun)
  {
    var order := ChainOrder(sendgrid, mailgun, true);
    WinnerEndsAttempts(order, o);
    assert order[|order| - 1] == Gmail;
    if sendgrid { assert order[0] == SendGrid; }
    if mailgun { assert order[if sendgrid then 1 else 0] == Mailgun; }
  }
}
