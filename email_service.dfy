/**
 * `EmailService`: a single Gmail transporter, created only when both
 * credentials are set and dropped again when its connection check fails.
 * It sends the contact notification, always with the PDF attached, and the
 * quote letter, copied to the client.
 */
module EmailService {
  import opened Wrappers
  import opened JsText
  import opened ContactData
  import opened Document
  import opened MailCommon
  import opened QuoteCalculator

  const NotConfigured: string := "Email service not configured"
  const MoneyBag: char := '\U{1F4B0}'
  const QuoteLead: string := " Presupuesto para "
  const QuotePrefix: string := "Presupuesto_"

  /**
   * The quote subject: the money-bag emoji, the client's name (or "Cliente"),
   * then " - €" and the total.
   */
  function QuoteSubject(name: Option<string>, total: int): (s: string)
    ensures |s| == 1 + |QuoteLead| + |OrElse(name, "Cliente")| + 4 + |IntToString(total)| + |SubjectTail|
    ensures s[0] == MoneyBag
  {
    [MoneyBag] + QuoteLead + OrElse(name, "Cliente") + " - €" + IntToString(total) + SubjectTail
  }

  /** The client's name (or "Cliente") can be read back from the quote subject, after the emoji and the fixed lead. */
  lemma QuoteSubjectName(name: Option<string>, total: int)
    ensures var s, who := QuoteSubject(name, total), OrElse(name, "Cliente");
      s[1 + |QuoteLead|..1 + |QuoteLead| + |who|] == who
  {
    var who, n := OrElse(name, "Cliente"), IntToString(total);
    var head := [MoneyBag] + QuoteLead;
    PartOf(head, who, " - €");
    PartOf(head + who + " - €", n, SubjectTail);
    assert QuoteSubject(name, total)[..|head| + |who| + 4] == head + who + " - €";
  }

  /** The total can be read back from the quote subject, between " - €" and the fixed tail. */
  lemma QuoteSubjectTotal(name: Option<string>, total: int)
    ensures var s, who, n := QuoteSubject(name, total), OrElse(name, "Cliente"), IntToString(total);
      var b := 1 + |QuoteLead| + |who| + 4;
      s[b..b + |n|] == n && s[b + |n|..] == SubjectTail
  {
    var who := OrElse(name, "Cliente");
    PartOf([MoneyBag] + QuoteLead + who + " - €", IntToString(total), SubjectTail);
  }

  /** `getQuoteEmailHTML`: addressed to the client by name, with the quote total highlighted. */
  function QuoteLetter(d: Submission, q: Quote): (blocks: seq<Block>)
    ensures |blocks| > 0 && blocks[0] == Header("Presupuesto de Proyecto", "Para: " + Show(d.name))
    ensures TotalBanner(q.total) in blocks
  {
    [Header("Presupuesto de Proyecto", "Para: " + Show(d.name)), TotalBanner(q.total),
      Note("Hola " + Show(d.name) + ",")]
  }

  /** The quote message: copied to the client, the total in the subject, the quote PDF attached. */
  function QuoteMail(d: Submission, q: Quote, iso: string): (m: Mail)
    ensures m.cc == d.email
    ensures m.subject == QuoteSubject(d.name, q.total)
    ensures m.body == QuoteBody(QuoteLetter(d, q))
    ensures |m.attachments| == 1 && |m.attachments[0]| > |QuotePrefix|
    ensures m.attachments[0][..|QuotePrefix|] == QuotePrefix
  {
    var file := AttachmentName(QuotePrefix, d.name, iso);
    assert file[..|QuotePrefix|] == QuotePrefix;
    Mail(QuoteSubject(d.name, q.total), d.email, QuoteBody(QuoteLetter(d, q)), [file])
  }

  class GmailService {
    /** Whether a transporter is held. */
    var transporter: bool
    /** Whether the transporter's connection check has been started and not yet settled. */
    var verificationPending: bool

    /** A pending check belongs to a held transporter. */
    predicate Valid()
      reads this
    {
      verificationPending ==> transporter
    }

    /** `initializeTransporter`: a transporter, with its check pending, exactly when both credentials are set. */
    constructor (env: map<string, string>)
      ensures Valid()
      ensures transporter == GmailCredentials(env) && verificationPending == transporter
    {
      if !Truthy(EnvVar(env, "EMAIL_USER")) || !Truthy(EnvVar(env, "EMAIL_PASS")) {
        transporter, verificationPending := false, false;
      } else {
        transporter, verificationPending := true, true;
      }
    }

    /**
     * The settling of the connection check: a failure drops the transporter,
     * a success keeps it (it was usable before the check settled).
     */
    method SettleVerification(verified: bool)
      modifies this
      requires Valid()
      ensures Valid() && !verificationPending
      ensures transporter == (old(transporter) && (old(verificationPending) ==> verified))
    {
      if !verificationPending {
        return;
      }
      verificationPending := false;
      if !verified {
        transporter := false;
      }
    }

    /**
     * `sendContactFormEmail`: refused without a transporter; otherwise the
     * notification, always with one PDF attachment, is handed to the
     * transporter, whose error (`sendError`) is passed on when it fails.
     * On success the result is the message sent.
     */
    method SendContactFormEmail(d: Submission, date: string, iso: string, sendSucceeds: bool, sendError: string)
      returns (result: Result<Mail, string>)
      ensures !transporter ==> result == Failure(NotConfigured)
      ensures transporter && !sendSucceeds ==> result == Failure(sendError)
      ensures transporter && sendSucceeds ==>
        result == Success(ContactMail(d, true, date, iso, ReplyAndCall, AttachedNote))
      ensures result.Success? ==> |result.value.attachments| == 1 && result.value.cc.None?
    {
      if !transporter {
        return Failure(NotConfigured);
      }
      var mail := ContactMail(d, true, date, iso, ReplyAndCall, AttachedNote);
      if !sendSucceeds {
        return Failure(sendError);
      }
      return Success(mail);
    }

    /** `sendQuoteEmail`: the same gate, then the quote message. */
    method SendQuoteEmail(d: Submission, q: Quote, iso: string, sendSucceeds: bool, sendError: string)
      returns (result: Result<Mail, string>)
      ensures !transporter ==> result == Failure(NotConfigured)
      ensures transporter && !sendSucceeds ==> result == Failure(sendError)
      ensures transporter && sendSucceeds ==> result == Success(QuoteMail(d, q, iso))
      ensures result.Success? ==> result.value.cc == d.email && |result.value.attachments| == 1
    {
      if !transporter {
        return Failure(NotConfigured);
      }
      var mail := QuoteMail(d, q, iso);
      if !sendSucceeds {
        return Failure(sendError);
      }
      return Success(mail);
    }
  }

  /**
   * Loading the module as written: `new EmailService()` runs
   * `initializeTransporter`, which, with both credentials set, calls
   * `nodemailer.createTransporter`. Nodemailer's factory is named
   * `createTransport` (the name the SendGrid service uses), so the call
   * throws and nothing catches it. `None` stands for that throw; otherwise
   * the exported service holds no transporter.
   */
  function LoadAsWritten(env: map<string, string>): (transporter: Option<bool>)
    ensures transporter.None? <==> GmailCredentials(env)
    ensures transporter != Some(true)
  {
    if GmailCredentials(env) then None else Some(false)
  }

  /** With credentials set, the module as written fails to load instead of holding a transporter. */
  lemma CredentialsBreakLoading()
    ensures LoadAsWritten(map["EMAIL_USER" := "ventas@stratek.es", "EMAIL_PASS" := "clave"]).None?
  {
    var env := map["EMAIL_USER" := "ventas@stratek.es", "EMAIL_PASS" := "clave"];
    assert EnvVar(env, "EMAIL_USER") == Some("ventas@stratek.es");
    assert EnvVar(env, "EMAIL_PASS") == Some("clave");
  }

  /** The Gmail-only notification always carries both buttons, whether or not a phone was given. */
  lemma ContactMailHasCallLink(d: Submission, date: string, iso: string)
    ensures var m := ContactMail(d, true, date, iso, ReplyAndCall, AttachedNote);
      m.body.ContactBody? && CallLink(Show(d.phone)) in m.body.email.blocks
  {
    ContactEmailRowsAndButtons(d, date, ReplyAndCall, AttachedNote);
    assert CallLink(Show(d.phone)) in ButtonBlocks(d, ReplyAndCall);
  }
}
