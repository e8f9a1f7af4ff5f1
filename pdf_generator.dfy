/**
 * The two PDF templates of `PDFGenerator`: the contact-request sheet and the
 * project quote. Rasterising the HTML into a PDF is a library call outside the
 * model; here each template is the list of blocks it shows.
 */
module PdfGenerator {
  import opened Wrappers
  import opened JsText
  import opened ContactData
  import opened Document
  import opened MailCommon
  import opened QuoteCalculator

  const DefaultDelivery: string := "2-4 semanas"

  /** The priority classes the sheet's stylesheet colours: red, amber and green. */
  const StyledClasses: set<string> := {"priority-high", "priority-medium", "priority-low"}

  /** The priorities the contact forms offer. */
  const FormPriorities: set<string> := {"Alta", "Media", "Baja"}

  /** `priority-${p.toLowerCase()}`: the class the template gives the priority row, as written. */
  function PriorityClass(p: string): (c: string)
    ensures |c| == 9 + |p| && c[..9] == "priority-"
    ensures forall k | 0 <= k < |p| :: c[9 + k] == LowerChar(p[k])
  {
    "priority-" + ToLower(p)
  }

  /** As written, none of the form's priorities gets a class the stylesheet colours. */
  lemma FormPrioritiesUnstyled(p: string)
    requires p in FormPriorities
    ensures PriorityClass(p) !in StyledClasses
  {
    var c := PriorityClass(p);
    assert c[9] == LowerChar(p[0]);
    assert LowerChar(p[0]) in {'a', 'm', 'b'};
    assert "priority-high"[9] == 'h' && "priority-medium"[9] == 'm' && "priority-low"[9] == 'l';
    if p == "Media" {
      assert c[10] == 'e';
      assert "priority-medium"[10] == 'e' && |"priority-medium"| == 15 && |c| == 14;
    }
  }

  /**
   * The class the stylesheet expects: the form's priorities are mapped to
   * `high`, `medium` and `low`, any other text keeps the template's class.
   */
  function StyledPriorityClass(p: string): (c: string)
    ensures p in FormPriorities ==> c in StyledClasses
    ensures p !in FormPriorities ==> c == PriorityClass(p)
    ensures p == "Alta" ==> c == "priority-high"
    ensures p == "Media" ==> c == "priority-medium"
    ensures p == "Baja" ==> c == "priority-low"
  {
    if p == "Alta" then "priority-high"
    else if p == "Media" then "priority-medium"
    else if p == "Baja" then "priority-low"
    else PriorityClass(p)
  }

  /** The corrected class differs from the template's exactly for the form's priorities. */
  lemma StyledClassChangesFormPriorities(p: string)
    ensures StyledPriorityClass(p) != PriorityClass(p) <==> p in FormPriorities
  {
    if p in FormPriorities {
      FormPrioritiesUnstyled(p);
    }
  }

  /** The priority row, present only when a priority was given. */
  function PriorityRows(p: Option<string>): (r: seq<Block>)
    ensures Truthy(p) ==> r == [PriorityRow(ToUpper(p.value), StyledPriorityClass(p.value))]
    ensures !Truthy(p) ==> r == []
    ensures (exists b | b in r :: b.PriorityRow?) <==> Truthy(p)
    ensures forall b | b in r :: b.PriorityRow?
  {
    if Truthy(p) then
      var r := [PriorityRow(ToUpper(p.value), StyledPriorityClass(p.value))];
      assert r[0] in r;
      r
    else []
  }

  /** The message section, present only when a message was given. */
  function MessageSection(m: Option<string>): (r: seq<Block>)
    ensures Truthy(m) ==> r == [Heading("Mensaje del Cliente"), MessageBox(ReplaceChar(m.value, '\n', "<br>"))]
    ensures !Truthy(m) ==> r == []
    ensures HasMessageBox(r) <==> Truthy(m)
    ensures forall b | b in r :: b.Heading? || b.MessageBox?
  {
    if Truthy(m) then
      var r := [Heading("Mensaje del Cliente"), MessageBox(ReplaceChar(m.value, '\n', "<br>"))];
      assert r[1] in r;
      r
    else []
  }

  /** The urgent banner, present only for priority exactly "Alta". */
  function UrgentSection(p: Option<string>): (r: seq<Block>)
    ensures p == Some("Alta") ==> r == [UrgentBanner]
    ensures p != Some("Alta") ==> r == []
    ensures forall b | b in r :: b.UrgentBanner?
  {
    if p == Some("Alta") then [UrgentBanner] else []
  }

  /** The seven client and project rows, each defaulting to "No especificado". */
  function SheetRows(d: Submission): (r: seq<Block>)
    ensures |r| == 9
    ensures forall b | b in r :: b.Heading? || b.InfoRow?
    ensures InfoRow("Nombre Completo:", FieldValue(d.name)) in r
    ensures InfoRow("Email:", FieldValue(d.email)) in r
    ensures InfoRow("Teléfono:", FieldValue(d.phone)) in r
    ensures InfoRow("Empresa:", FieldValue(d.company)) in r
    ensures InfoRow("Tipo de Servicio:", FieldValue(d.service)) in r
    ensures InfoRow("Presupuesto:", FieldValue(d.budget)) in r
    ensures InfoRow("Timeline:", FieldValue(d.timeline)) in r
  {
    [ Heading("Información del Cliente"),
      InfoRow("Nombre Completo:", FieldValue(d.name)),
      InfoRow("Email:", FieldValue(d.email)),
      InfoRow("Teléfono:", FieldValue(d.phone)),
      InfoRow("Empresa:", FieldValue(d.company)),
      Heading("Detalles del Proyecto"),
      InfoRow("Tipo de Servicio:", FieldValue(d.service)),
      InfoRow("Presupuesto:", FieldValue(d.budget)),
      InfoRow("Timeline:", FieldValue(d.timeline)) ]
  }

  /**
   * `getContactFormHTML`: the header with the date, the seven rows, the
   * priority row only with a priority, the message section only with a
   * message, the urgent banner only for "Alta", then the fixed closing notes.
   */
  function ContactFormSheet(d: Submission, date: string): (doc: seq<Block>)
    ensures |doc| > 0 && doc[0] == Header("STRATEK", "Solicitud de Contacto - " + date)
    ensures forall b | b in SheetRows(d) :: b in doc
  {
    var head := [Header("STRATEK", "Solicitud de Contacto - " + date)];
    var rows, pr, msg, urgent := SheetRows(d), PriorityRows(d.priority), MessageSection(d.message), UrgentSection(d.priority);
    head + rows + pr + msg + urgent + SheetFooter(date)
  }

  /** The fixed closing notes of the contact sheet. */
  function SheetFooter(date: string): (r: seq<Block>)
    ensures forall b | b in r :: b.Note?
  {
    [Note("Próximos Pasos"), Note("Documento generado automáticamente el " + date)]
  }

  /** The priority row is shown exactly when a priority was given, upper-cased with a lower-cased class. */
  lemma ContactSheetPriority(d: Submission, date: string)
    ensures var doc := ContactFormSheet(d, date);
      && ((exists b | b in doc :: b.PriorityRow?) <==> Truthy(d.priority))
      && (Truthy(d.priority) ==> PriorityRow(ToUpper(d.priority.value), StyledPriorityClass(d.priority.value)) in doc)
  {
    SheetFacts([Header("STRATEK", "Solicitud de Contacto - " + date)], SheetRows(d), PriorityRows(d.priority),
      MessageSection(d.message), UrgentSection(d.priority), SheetFooter(date));
  }

  /** The message box is shown exactly when a message was given, with its newlines as `<br>`. */
  lemma ContactSheetMessage(d: Submission, date: string)
    ensures var doc := ContactFormSheet(d, date);
      && (HasMessageBox(doc) <==> Truthy(d.message))
      && (Truthy(d.message) ==> MessageBox(ReplaceChar(d.message.value, '\n', "<br>")) in doc)
  {
    SheetFacts([Header("STRATEK", "Solicitud de Contacto - " + date)], SheetRows(d), PriorityRows(d.priority),
      MessageSection(d.message), UrgentSection(d.priority), SheetFooter(date));
  }

  /** The urgent banner is shown exactly for priority "Alta". */
  lemma ContactSheetUrgent(d: Submission, date: string)
    ensures UrgentBanner in ContactFormSheet(d, date) <==> d.priority == Some("Alta")
  {
    SheetFacts([Header("STRATEK", "Solicitud de Contacto - " + date)], SheetRows(d), PriorityRows(d.priority),
      MessageSection(d.message), UrgentSection(d.priority), SheetFooter(date));
  }

  /** Membership in the assembled sheet, part by part. */
  lemma SheetFacts(head: seq<Block>, rows: seq<Block>, pr: seq<Block>, msg: seq<Block>, urgent: seq<Block>, tail: seq<Block>)
    requires forall b | b in head + tail :: b.Header? || b.Note?
    requires forall b | b in rows :: b.Heading? || b.InfoRow?
    requires forall b | b in pr :: b.PriorityRow?
    requires forall b | b in msg :: b.Heading? || b.MessageBox?
    requires forall b | b in urgent :: b.UrgentBanner?
    ensures var doc := head + rows + pr + msg + urgent + tail;
      && (forall b | b in rows + pr + msg :: b in doc)
      && ((exists b | b in doc :: b.PriorityRow?) <==> (exists b | b in pr :: b.PriorityRow?))
      && (HasMessageBox(doc) <==> HasMessageBox(msg))
      && (UrgentBanner in doc <==> UrgentBanner in urgent)
  {
    var doc := head + rows + pr + msg + urgent + tail;
    assert forall b :: b in doc <==> b in head + tail || b in rows || b in pr || b in msg || b in urgent;
    assert forall b | b in rows + pr + msg :: b in rows || b in pr || b in msg;
  }

  /** One breakdown row per quote item, in order. */
  function BreakdownRows(items: seq<Item>): (r: seq<Block>)
    ensures |r| == |items|
    ensures forall k | 0 <= k < |r| :: r[k] == ItemRow(items[k].name, items[k].price)
  {
    if items == [] then [] else [ItemRow(items[0].name, items[0].price)] + BreakdownRows(items[1..])
  }

  /** `getQuoteHTML`: the header, the total, one row per item and the terms with the delivery time. */
  function QuoteSheet(d: Submission, q: Quote, date: string): (doc: seq<Block>)
    ensures TotalBanner(q.total) in doc
    ensures Note("Tiempo de entrega: " + OrElse(d.timeline, DefaultDelivery)) in doc
  {
    QuoteHead(q, date) + BreakdownRows(q.items) + QuoteTerms(d)
  }

  /** The quote's header, its total and the breakdown's heading. */
  function QuoteHead(q: Quote, date: string): seq<Block> {
    [Header("STRATEK", "Presupuesto de Proyecto - " + date), TotalBanner(q.total), Heading("Desglose del Presupuesto")]
  }

  /** The quote's terms, with the delivery time. */
  function QuoteTerms(d: Submission): seq<Block> {
    [Heading("Términos y Condiciones"), Note("Tiempo de entrega: " + OrElse(d.timeline, DefaultDelivery))]
  }

  /** The breakdown lines of the quote sheet are exactly one row per quote item, in order. */
  lemma QuoteSheetBreakdown(d: Submission, q: Quote, date: string)
    ensures ItemRows(QuoteSheet(d, q, date)) == BreakdownRows(q.items)
  {
    var head, rows, terms := QuoteHead(q, date), BreakdownRows(q.items), QuoteTerms(d);
    assert ItemRows(head) == [] by { NoItemRows(head); }
    assert ItemRows(terms) == [] by { NoItemRows(terms); }
    assert ItemRows(rows) == rows by { ItemRowsOfRows(q.items); }
    ItemRowsConcat(head, rows);
    ItemRowsConcat(head + rows, terms);
  }

  /** Picking out the item rows distributes over concatenation. */
  lemma {:induction false} ItemRowsConcat(a: seq<Block>, b: seq<Block>)
    ensures ItemRows(a + b) == ItemRows(a) + ItemRows(b)
  {
    if a != [] {
      assert (a + b)[1..] == a[1..] + b;
      ItemRowsConcat(a[1..], b);
    } else {
      assert a + b == b;
    }
  }

  /** A list without breakdown lines has no item rows. */
  lemma {:induction false} NoItemRows(a: seq<Block>)
    requires forall b | b in a :: !b.ItemRow?
    ensures ItemRows(a) == []
  {
    if a != [] {
      assert forall b | b in a[1..] :: b in a;
      NoItemRows(a[1..]);
    }
  }

  /** The breakdown rows are all item rows. */
  lemma {:induction false} ItemRowsOfRows(items: seq<Item>)
    ensures ItemRows(BreakdownRows(items)) == BreakdownRows(items)
  {
    if items != [] {
      var r := BreakdownRows(items);
      assert r[1..] == BreakdownRows(items[1..]);
      ItemRowsOfRows(items[1..]);
    }
  }
}
