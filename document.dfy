/**
 * The content of the HTML documents the site generates (the contact and quote
 * PDFs and the notification e-mails), as an ordered list of blocks. Markup and
 * CSS are not modelled; what a block shows is.
 */
module Document {
  /** One visible element of a generated document. */
  datatype Block =
    | Header(title: string, subtitle: string)    // the coloured header: title line and date line
    | Heading(text: string)                      // a section heading
    | InfoRow(caption: string, value: string)    // a "caption: value" row
    | PriorityRow(shown: string, cssClass: string) // the PDF's priority row and its colour class
    | PriorityAlert                              // the e-mail's "solicitud prioritaria" banner
    | UrgentBanner                               // the PDF's "solicitud prioritaria" banner
    | MessageBox(html: string)                   // the client's message, newlines as `<br>`
    | ReplyLink(address: string)                 // the `mailto:` button
    | CallLink(phone: string)                    // the `tel:` button
    | TotalBanner(amount: int)                   // the quote total, in euros
    | ItemRow(name: string, price: int)          // one line of the quote breakdown
    | Note(text: string)                         // a line of footer or body text

  /** The blocks of `doc` that are message boxes. */
  predicate HasMessageBox(doc: seq<Block>) {
    exists b | b in doc :: b.MessageBox?
  }

  /** The blocks of `doc` that are quote breakdown lines, in order. */
  function ItemRows(doc: seq<Block>): (r: seq<Block>)
    ensures |r| <= |doc|
    ensures forall b | b in r :: b.ItemRow? && b in doc
  {
    if doc == [] then []
    else if doc[0].ItemRow? then [doc[0]] + ItemRows(doc[1..])
    else ItemRows(doc[1..])
  }
}
