/**
 * What the three e-mail services share when they notify the site owner of a
 * contact submission: the priority text and its emoji and colour, the subject
 * line, the PDF attachment's file name and the body of the notification.
 * The services differ only in the buttons and the footnote under the body.
 */
module MailCommon {
  import opened Wrappers
  import opened JsText
  import opened ContactData
  import opened Document

  const NotSpecified: string := "No especificado"
  const RedCircle: char := '\U{1F534}'
  const YellowCircle: char := '\U{1F7E1}'
  const GreenCircle: char := '\U{1F7E2}'
  const SubjectLead: string := " Nueva solicitud de contacto - "
  const SubjectTail: string := " | Stratek"
  const ContactPrefix: string := "Solicitud_Contacto_"

  /** Whether both Gmail credentials are set in the environment. */
  predicate GmailCredentials(env: map<string, string>) {
    Truthy(EnvVar(env, "EMAIL_USER")) && Truthy(EnvVar(env, "EMAIL_PASS"))
  }

  /** A field as a row shows it: its value, or "No especificado" when absent or empty. */
  function FieldValue(o: Option<string>): (r: string)
    ensures r != ""
    ensures Truthy(o) ==> r == o.value
    ensures !Truthy(o) ==> r == NotSpecified
  {
    OrElse(o, NotSpecified)
  }

  /** `priority || 'Media'`. */
  function PriorityText(p: Option<string>): (r: string)
    ensures r != ""
    ensures Truthy(p) ==> r == p.value
    ensures !Truthy(p) ==> r == "Media"
  {
    OrElse(p, "Media")
  }

  /** The emoji of the priority map, yellow for any priority outside Alta, Media and Baja. */
  function PriorityEmoji(p: Option<string>): (e: char)
    ensures e == RedCircle <==> PriorityText(p) == "Alta"
    ensures e == GreenCircle <==> PriorityText(p) == "Baja"
    ensures e == YellowCircle <==> PriorityText(p) != "Alta" && PriorityText(p) != "Baja"
  {
    var t := PriorityText(p);
    if t == "Alta" then RedCircle else if t == "Baja" then GreenCircle else YellowCircle
  }

  /** The colour scheme of the notification's priority block. */
  datatype PriorityStyle = AltaStyle | MediaStyle | BajaStyle

  /** The style map lookup, falling back to the Media style for unknown priorities. */
  function StyleOf(p: Option<string>): (st: PriorityStyle)
    ensures st == AltaStyle <==> PriorityText(p) == "Alta"
    ensures st == BajaStyle <==> PriorityText(p) == "Baja"
    ensures st == MediaStyle <==> PriorityText(p) != "Alta" && PriorityText(p) != "Baja"
  {
    var t := PriorityText(p);
    if t == "Alta" then AltaStyle else if t == "Baja" then BajaStyle else MediaStyle
  }

  /**
   * The subject line: the emoji, the fixed lead, the client's name (or "Cliente")
   * and the fixed tail. The name can be read back from between lead and tail.
   */
  function ContactSubject(p: Option<string>, name: Option<string>): (s: string)
    ensures |s| == 1 + |SubjectLead| + |OrElse(name, "Cliente")| + |SubjectTail|
    ensures s[0] == PriorityEmoji(p)
    ensures s[1..1 + |SubjectLead|] == SubjectLead
    ensures s[1 + |SubjectLead|..|s| - |SubjectTail|] == OrElse(name, "Cliente")
    ensures s[|s| - |SubjectTail|..] == SubjectTail
  {
    var who := OrElse(name, "Cliente");
    var s := [PriorityEmoji(p)] + SubjectLead + who + SubjectTail;
    assert s[1..1 + |SubjectLead|] == SubjectLead;
    assert s[1 + |SubjectLead|..|s| - |SubjectTail|] == who;
    s
  }

  /**
   * `name?.replace(/\s+/g, '_') || 'Cliente'`: the name with its whitespace
   * runs turned into underscores, or "Cliente" when that is empty.
   */
  function NameSlug(name: Option<string>): (r: string)
    ensures r != "" && NoSpace(r)
    ensures !Truthy(name) ==> r == "Cliente"
    ensures Truthy(name) ==> r == CollapseSpaceRuns(name.value)
    ensures Truthy(name) && NoSpace(name.value) ==> r == name.value
  {
    if name.Some? && CollapseSpaceRuns(name.value) != "" then CollapseSpaceRuns(name.value)
    else "Cliente"
  }

  /** `new Date().toISOString().split('T')[0]`, given the ISO timestamp: its date part. */
  function DatePart(iso: string): (r: string)
    ensures r <= iso && 'T' !in r
  {
    Split(iso, 'T')[0]
  }

  /** The attachment file name `<prefix><slug>_<date>.pdf`. */
  function AttachmentName(prefix: string, name: Option<string>, iso: string): (r: string)
    ensures |r| >= |prefix| + |NameSlug(name)| + 5
    ensures r[..|prefix|] == prefix
    ensures r[|prefix|..|prefix| + |NameSlug(name)|] == NameSlug(name)
    ensures r[|r| - 4..] == ".pdf"
  {
    var slug := NameSlug(name);
    var tail := "_" + DatePart(iso) + ".pdf";
    var r := prefix + slug + tail;
    assert r[..|prefix|] == prefix;
    assert r[|prefix|..|prefix| + |slug|] == slug;
    assert r[|r| - 4..] == tail[|tail| - 4..];
    r
  }

  /** The contact attachment's file name. */
  function ContactAttachmentName(name: Option<string>, iso: string): (r: string)
    ensures |r| >= |ContactPrefix| && r[..|ContactPrefix|] == ContactPrefix
    ensures r[|r| - 4..] == ".pdf"
  {
    AttachmentName(ContactPrefix, name, iso)
  }

  /** The buttons under a notification body, which differ between the services. */
  datatype Buttons =
    | NoButtons            // the three-provider service
    | ReplyAndCall         // the Gmail service: both buttons always
    | ReplyAndCallIfPhone  // the two-provider service: the call button only with a phone

  /** The body of a contact notification. */
  datatype ContactEmail = ContactEmail(style: PriorityStyle, blocks: seq<Block>)

  /** What a message carries: a contact notification or a quote letter. */
  datatype MailBody = ContactBody(email: ContactEmail) | QuoteBody(blocks: seq<Block>)

  /** A message handed to a provider; `attachments` lists the attached files by name. */
  datatype Mail = Mail(subject: string, cc: Option<string>, body: MailBody, attachments: seq<string>)

  const AttachedNote: string := "Se adjunta el PDF completo con todos los detalles"

  /**
   * The contact notification every provider is offered: the shared subject,
   * the service's body, and the PDF attached under its file name only when a
   * buffer was passed.
   */
  function ContactMail(d: Submission, pdfPresent: bool, date: string, iso: string, buttons: Buttons, footnote: string)
    : (m: Mail)
    ensures m.subject == ContactSubject(d.priority, d.name) && m.cc.None?
    ensures m.body == ContactBody(ContactEmailBody(d, date, buttons, footnote))
    ensures pdfPresent ==> m.attachments == [ContactAttachmentName(d.name, iso)]
    ensures !pdfPresent ==> m.attachments == []
  {
    Mail(ContactSubject(d.priority, d.name), None, ContactBody(ContactEmailBody(d, date, buttons, footnote)),
      if pdfPresent then [ContactAttachmentName(d.name, iso)] else [])
  }

  /** The client rows, the project rows (ending with the priority) in the source's order. */
  function InfoRows(d: Submission): (r: seq<Block>)
    ensures |r| == 10
    ensures InfoRow("Nombre:", FieldValue(d.name)) in r
    ensures InfoRow("Email:", FieldValue(d.email)) in r
    ensures InfoRow("Teléfono:", FieldValue(d.phone)) in r
    ensures InfoRow("Empresa:", FieldValue(d.company)) in r
    ensures InfoRow("Servicio:", FieldValue(d.service)) in r
    ensures InfoRow("Presupuesto:", FieldValue(d.budget)) in r
    ensures InfoRow("Timeline:", FieldValue(d.timeline)) in r
    ensures InfoRow("Prioridad:", PriorityText(d.priority)) in r
    ensures forall b | b in r :: b.Heading? || b.InfoRow?
  {
    [ Heading("Información del Cliente"),
      InfoRow("Nombre:", FieldValue(d.name)),
      InfoRow("Email:", FieldValue(d.email)),
      InfoRow("Teléfono:", FieldValue(d.phone)),
      InfoRow("Empresa:", FieldValue(d.company)),
      Heading("Detalles del Proyecto"),
      InfoRow("Servicio:", FieldValue(d.service)),
      InfoRow("Presupuesto:", FieldValue(d.budget)),
      InfoRow("Timeline:", FieldValue(d.timeline)),
      InfoRow("Prioridad:", PriorityText(d.priority)) ]
  }

  /** The `mailto:`/`tel:` buttons of each service. */
  function ButtonBlocks(d: Submission, buttons: Buttons): (r: seq<Block>)
    ensures buttons.NoButtons? ==> r == []
    ensures !buttons.NoButtons? ==> |r| > 0 && r[0] == ReplyLink(Show(d.email))
    ensures CallLink(Show(d.phone)) in r <==> buttons.ReplyAndCall? || (buttons.ReplyAndCallIfPhone? && Truthy(d.phone))
    ensures forall b | b in r :: b.ReplyLink? || b.CallLink?
  {
    match buttons
    case NoButtons => []
    case ReplyAndCall => [ReplyLink(Show(d.email)), CallLink(Show(d.phone))]
    case ReplyAndCallIfPhone =>
      if Truthy(d.phone) then [ReplyLink(Show(d.email)), CallLink(Show(d.phone))]
      else [ReplyLink(Show(d.email))]
  }

  /**
   * `getContactEmailHTML`: header with the date, the priority alert only for
   * "Alta", the ten information rows, the message box only for a non-empty
   * message (newlines as `<br>`), the service's buttons and its footnote.
   */
  function ContactEmailBody(d: Submission, date: string, buttons: Buttons, footnote: string): (e: ContactEmail)
    ensures e.style == StyleOf(d.priority)
    ensures |e.blocks| > 1 && e.blocks[0] == Header("Nueva Solicitud de Contacto", date)
    ensures e.blocks[|e.blocks| - 1] == Note(footnote)
  {
    var head, n := [Header("Nueva Solicitud de Contacto", date)], [Note(footnote)];
    var a, i, m, btn := AlertBlocks(d), InfoRows(d), MessageBlocks(d), ButtonBlocks(d, buttons);
    PartsIn(head, a, i, m, btn, n);
    ContactEmail(StyleOf(d.priority), head + a + i + m + btn + n)
  }

  /** The priority alert is in the body exactly for priority "Alta". */
  lemma ContactEmailAlert(d: Submission, date: string, buttons: Buttons, footnote: string)
    ensures PriorityAlert in ContactEmailBody(d, date, buttons, footnote).blocks <==> d.priority == Some("Alta")
  {
    var head, n := [Header("Nueva Solicitud de Contacto", date)], [Note(footnote)];
    AlertFact(head, AlertBlocks(d), InfoRows(d), MessageBlocks(d), ButtonBlocks(d, buttons), n);
  }

  /** The body has a message box exactly when a message was given. */
  lemma ContactEmailMessage(d: Submission, date: string, buttons: Buttons, footnote: string)
    ensures HasMessageBox(ContactEmailBody(d, date, buttons, footnote).blocks) <==> Truthy(d.message)
  {
    var head, n := [Header("Nueva Solicitud de Contacto", date)], [Note(footnote)];
    MessageFact(head, AlertBlocks(d), InfoRows(d), MessageBlocks(d), ButtonBlocks(d, buttons), n);
  }

  /** A given message is shown, its line breaks turned into `<br>`. */
  lemma ContactEmailMessageText(d: Submission, date: string, buttons: Buttons, footnote: string)
    requires Truthy(d.message)
    ensures MessageBox(ReplaceChar(d.message.value, '\n', "<br>")) in ContactEmailBody(d, date, buttons, footnote).blocks
  {
    var head, n := [Header("Nueva Solicitud de Contacto", date)], [Note(footnote)];
    PartsIn(head, AlertBlocks(d), InfoRows(d), MessageBlocks(d), ButtonBlocks(d, buttons), n);
  }

  /** The body holds every information row and every button. */
  lemma ContactEmailRowsAndButtons(d: Submission, date: string, buttons: Buttons, footnote: string)
    ensures var e := ContactEmailBody(d, date, buttons, footnote);
      && (forall b | b in InfoRows(d) :: b in e.blocks)
      && (forall b | b in ButtonBlocks(d, buttons) :: b in e.blocks)
  {
    var head, n := [Header("Nueva Solicitud de Contacto", date)], [Note(footnote)];
    PartsIn(head, AlertBlocks(d), InfoRows(d), MessageBlocks(d), ButtonBlocks(d, buttons), n);
  }

  /** The body has a call button exactly when the service's buttons include one. */
  lemma ContactEmailCallButton(d: Submission, date: string, buttons: Buttons, footnote: string)
    ensures (exists b | b in ContactEmailBody(d, date, buttons, footnote).blocks :: b.CallLink?)
      <==> (exists b | b in ButtonBlocks(d, buttons) :: b.CallLink?)
  {
    var head, n := [Header("Nueva Solicitud de Contacto", date)], [Note(footnote)];
    CallFact(head, AlertBlocks(d), InfoRows(d), MessageBlocks(d), ButtonBlocks(d, buttons), n);
  }

  /** The priority alert, present only for "Alta". */
  function AlertBlocks(d: Submission): (r: seq<Block>)
    ensures PriorityAlert in r <==> d.priority == Some("Alta")
    ensures forall b | b in r :: b.PriorityAlert?
  {
    if d.priority == Some("Alta") then [PriorityAlert] else []
  }

  /** The message box, present only for a non-empty message. */
  function MessageBlocks(d: Submission): (r: seq<Block>)
    ensures Truthy(d.message) ==> r == [MessageBox(ReplaceChar(d.message.value, '\n', "<br>"))]
    ensures !Truthy(d.message) ==> r == []
  {
    if Truthy(d.message) then [MessageBox(ReplaceChar(d.message.value, '\n', "<br>"))] else []
  }

  /** Every block of every part is in the assembled body, which starts with the first part and ends with the last. */
  lemma PartsIn(head: seq<Block>, a: seq<Block>, i: seq<Block>, m: seq<Block>, btn: seq<Block>, n: seq<Block>)
    requires |head| == 1 && |n| == 1
    ensures var all := head + a + i + m + btn + n;
      && (forall b | b in i :: b in all) && (forall b | b in m :: b in all) && (forall b | b in btn :: b in all)
      && all[0] == head[0] && all[|all| - 1] == n[0]
  {
  }

  /** The alert is in the body exactly when it is in the alert part. */
  lemma AlertFact(head: seq<Block>, a: seq<Block>, i: seq<Block>, m: seq<Block>, btn: seq<Block>, n: seq<Block>)
    requires PriorityAlert !in head && PriorityAlert !in n
    requires forall b | b in i :: b.Heading? || b.InfoRow?
    requires forall b | b in m :: b.MessageBox?
    requires forall b | b in btn :: b.ReplyLink? || b.CallLink?
    ensures PriorityAlert in head + a + i + m + btn + n <==> PriorityAlert in a
  {
  }

  /** A message box is in the body exactly when the message part holds one. */
  lemma MessageFact(head: seq<Block>, a: seq<Block>, i: seq<Block>, m: seq<Block>, btn: seq<Block>, n: seq<Block>)
    requires forall b | b in head + n :: !b.MessageBox?
    requires forall b | b in a :: b.PriorityAlert?
    requires forall b | b in i :: b.Heading? || b.InfoRow?
    requires forall b | b in btn :: b.ReplyLink? || b.CallLink?
    ensures HasMessageBox(head + a + i + m + btn + n) <==> m != [] && m[0].MessageBox?
    requires m == [] || (|m| == 1 && m[0].MessageBox?)
  {
    var all := head + a + i + m + btn + n;
    if m != [] {
      assert m[0] in all;
    } else {
      assert forall b | b in all :: b in head + n || b in a || b in i || b in btn;
    }
  }

  /** A call button is in the body exactly when the button part holds one. */
  lemma CallFact(head: seq<Block>, a: seq<Block>, i: seq<Block>, m: seq<Block>, btn: seq<Block>, n: seq<Block>)
    requires forall b | b in head + n :: !b.CallLink?
    requires forall b | b in a :: b.PriorityAlert?
    requires forall b | b in i :: b.Heading? || b.InfoRow?
    requires forall b | b in m :: b.MessageBox?
    ensures (exists b | b in head + a + i + m + btn + n :: b.CallLink?) <==> (exists b | b in btn :: b.CallLink?)
  {
    var all := head + a + i + m + btn + n;
    if exists b | b in btn :: b.CallLink? {
      var b :| b in btn && b.CallLink?;
      assert b in all;
    } else {
      assert forall b | b in all :: b in head + n || b in a || b in i || b in m || b in btn;
    }
  }
}
