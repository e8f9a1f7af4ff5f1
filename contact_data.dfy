/**
 * The contact form as the browser posts it (Spanish field names) and the
 * normalised submission the PDF and e-mail builders read (English names).
 * Both `/api/contact` handlers validate and normalise the same way.
 */
module ContactData {
  import opened Wrappers
  import opened JsText
  import opened EmailPattern

  /** The request body of `/api/contact`; an absent field is `None`. */
  datatype ContactForm = ContactForm(
    nombre: Option<string>,
    email: Option<string>,
    servicio: Option<string>,
    presupuesto: Option<string>,
    mensaje: Option<string>,
    telefono: Option<string>,
    empresa: Option<string>,
    timeline: Option<string>,
    priority: Option<string>)

  /** The normalised data handed to the PDF and e-mail builders. */
  datatype Submission = Submission(
    name: Option<string>,
    email: Option<string>,
    phone: Option<string>,
    company: Option<string>,
    service: Option<string>,
    budget: Option<string>,
    timeline: Option<string>,
    priority: Option<string>,
    message: Option<string>)

  /** Why a contact form is rejected with status 400. */
  datatype ContactError = MissingFields | InvalidEmail

  /** The text of the 400 response for each rejection. */
  function ErrorText(e: ContactError): string {
    match e
    case MissingFields => "Faltan campos requeridos: nombre, email y mensaje"
    case InvalidEmail => "Email inválido"
  }

  /** Renames the Spanish fields to the English ones; nothing is dropped or altered. */
  function Normalize(f: ContactForm): (s: Submission)
    ensures s.name == f.nombre && s.email == f.email && s.phone == f.telefono
    ensures s.company == f.empresa && s.service == f.servicio && s.budget == f.presupuesto
    ensures s.timeline == f.timeline && s.priority == f.priority && s.message == f.mensaje
  {
    Submission(f.nombre, f.email, f.telefono, f.empresa, f.servicio, f.presupuesto,
      f.timeline, f.priority, f.mensaje)
  }

  /**
   * The two checks both contact handlers run before doing any work: the name,
   * e-mail and message must be present and non-empty, then the e-mail must
   * match the address pattern.
   */
  function Validate(f: ContactForm): (r: Result<Submission, ContactError>)
    ensures r == Failure(MissingFields) <==> !(Truthy(f.nombre) && Truthy(f.email) && Truthy(f.mensaje))
    ensures r == Failure(InvalidEmail) <==>
      Truthy(f.nombre) && Truthy(f.email) && Truthy(f.mensaje) && !MatchesPattern(f.email.value)
    ensures r.Success? ==> r.value == Normalize(f) && MatchesPattern(r.value.email.value)
  {
    if !Truthy(f.nombre) || !Truthy(f.email) || !Truthy(f.mensaje) then Failure(MissingFields)
    else if !IsValidEmail(f.email.value) then Failure(InvalidEmail)
    else Success(Normalize(f))
  }
}
