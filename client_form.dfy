/**
 * What the site's page scripts share about a contact form in the browser:
 * the error message shown next to a field, a notification, what `fetch`
 * does for one endpoint, and the length-based validation the two component
 * scripts run (the same rules under different field names).
 */
module ClientForm {
  import opened Wrappers
  import opened JsText
  import opened EmailPattern

  /** The form's fields as posted, by name; an absent field has no key. */
  type FormData = map<string, string>

  /** A message shown next to a field. */
  datatype FieldError = FieldError(field: string, message: string)

  /** A notification: its text and its `type` (`success`, `error`, `info`). */
  datatype Notice = Notice(message: string, kind: string)

  /** A response body as the page reads it: blank, JSON with the fields the page uses, or text that is not JSON. */
  datatype Body = Blank | Json(success: bool, message: Option<string>, error: Option<string>) | Malformed

  /** What `fetch` does for one endpoint: throws, or answers with a status, a content type and a body. */
  datatype FetchOutcome = Threw | Responded(ok: bool, contentType: string, body: Body)

  /** The response counts as a success (`res && res.ok`). */
  predicate IsOk(r: FetchOutcome) {
    r.Responded? && r.ok
  }

  /** The position of the first endpoint that answers ok, if any. */
  function FirstOkIndex(endpoints: seq<string>, fetch: string -> FetchOutcome): (r: Option<nat>)
    ensures r.Some? ==> r.value < |endpoints| && IsOk(fetch(endpoints[r.value]))
    ensures r.Some? ==> forall k | 0 <= k < r.value :: !IsOk(fetch(endpoints[k]))
    ensures r.None? ==> forall k | 0 <= k < |endpoints| :: !IsOk(fetch(endpoints[k]))
  {
    if endpoints == [] then None
    else if IsOk(fetch(endpoints[0])) then Some(0)
    else match FirstOkIndex(endpoints[1..], fetch)
      case None => None
      case Some(k) => Some(k + 1)
  }

  /** An ok endpoint after only failed ones is the first ok one. */
  lemma FirstOkAt(endpoints: seq<string>, fetch: string -> FetchOutcome, i: nat)
    requires i < |endpoints| && IsOk(fetch(endpoints[i]))
    requires forall k | 0 <= k < i :: !IsOk(fetch(endpoints[k]))
    ensures FirstOkIndex(endpoints, fetch) == Some(i)
  {
  }

  const NameTooShort: string := "El nombre debe tener al menos 2 caracteres"
  const EmailRejected: string := "Por favor, introduce un email válido"
  const MessageTooShort: string := "El mensaje debe tener al menos 10 caracteres"

  /** The field is present and, trimmed, at least `n` characters long. */
  predicate LongEnough(data: FormData, field: string, n: nat) {
    field in data && |Trim(data[field])| >= n
  }

  /** The e-mail is present and has the address shape. */
  ghost predicate EmailAccepted(data: FormData) {
    "email" in data && MatchesPattern(data["email"])
  }

  /**
   * `validateForm` of the component scripts: a name of at least two
   * characters, an address of the right shape and a message of at least ten,
   * each failure reported under its field, in that order.
   */
  function LengthFormErrors(data: FormData, nameField: string, messageField: string): (errors: seq<FieldError>)
    ensures |errors| <= 3
  {
    NameCheck(data, nameField) + EmailCheck(data) + MessageCheck(data, messageField)
  }

  /** The name rule's error, if it fails. */
  function NameCheck(data: FormData, nameField: string): (r: seq<FieldError>)
    ensures r == [] <==> LongEnough(data, nameField, 2)
    ensures forall e | e in r :: e == FieldError(nameField, NameTooShort)
  {
    if LongEnough(data, nameField, 2) then [] else [FieldError(nameField, NameTooShort)]
  }

  /** The e-mail rule's error, if it fails. */
  function EmailCheck(data: FormData): (r: seq<FieldError>)
    ensures r == [] <==> EmailAccepted(data)
    ensures forall e | e in r :: e == FieldError("email", EmailRejected)
  {
    if "email" in data && IsValidEmail(data["email"]) then [] else [FieldError("email", EmailRejected)]
  }

  /** The message rule's error, if it fails. */
  function MessageCheck(data: FormData, messageField: string): (r: seq<FieldError>)
    ensures r == [] <==> LongEnough(data, messageField, 10)
    ensures forall e | e in r :: e == FieldError(messageField, MessageTooShort)
  {
    if LongEnough(data, messageField, 10) then [] else [FieldError(messageField, MessageTooShort)]
  }

  /** The form is valid exactly when all three rules hold. */
  lemma LengthFormValid(data: FormData, nameField: string, messageField: string)
    ensures LengthFormErrors(data, nameField, messageField) == [] <==>
      LongEnough(data, nameField, 2) && EmailAccepted(data) && LongEnough(data, messageField, 10)
  {
    var a, b, c := NameCheck(data, nameField), EmailCheck(data), MessageCheck(data, messageField);
    assert |a + b + c| == |a| + |b| + |c|;
  }

  /** The three messages differ, so no rule's error can be mistaken for another's. */
  lemma MessagesDiffer()
    ensures NameTooShort != EmailRejected && NameTooShort != MessageTooShort && EmailRejected != MessageTooShort
  {
    assert |NameTooShort| == 42 && |EmailRejected| == 36 && |MessageTooShort| == 44;
  }

  /** The name error is reported exactly when the name rule fails. */
  lemma NameErrorExact(data: FormData, nameField: string, messageField: string)
    ensures FieldError(nameField, NameTooShort) in LengthFormErrors(data, nameField, messageField)
      <==> !LongEnough(data, nameField, 2)
  {
    var a, b, c := NameCheck(data, nameField), EmailCheck(data), MessageCheck(data, messageField);
    var x := FieldError(nameField, NameTooShort);
    MessagesDiffer();
    assert x !in b && x !in c;
    assert x in a + b + c <==> x in a;
    if !LongEnough(data, nameField, 2) {
      assert a[0] in a;
    }
  }

  /** The e-mail error is reported exactly when the address is missing or has the wrong shape. */
  lemma EmailErrorExact(data: FormData, nameField: string, messageField: string)
    ensures FieldError("email", EmailRejected) in LengthFormErrors(data, nameField, messageField)
      <==> !EmailAccepted(data)
  {
    var a, b, c := NameCheck(data, nameField), EmailCheck(data), MessageCheck(data, messageField);
    var x := FieldError("email", EmailRejected);
    MessagesDiffer();
    assert x !in a && x !in c;
    assert x in a + b + c <==> x in b;
    if !EmailAccepted(data) {
      assert b[0] in b;
    }
  }

  /** The message error is reported exactly when the message rule fails. */
  lemma MessageErrorExact(data: FormData, nameField: string, messageField: string)
    ensures FieldError(messageField, MessageTooShort) in LengthFormErrors(data, nameField, messageField)
      <==> !LongEnough(data, messageField, 10)
  {
    var a, b, c := NameCheck(data, nameField), EmailCheck(data), MessageCheck(data, messageField);
    var x := FieldError(messageField, MessageTooShort);
    MessagesDiffer();
    assert x !in a && x !in b;
    assert x in a + b + c <==> x in c;
    if !LongEnough(data, messageField, 10) {
      assert c[0] in c;
    }
  }

  /** `form.reset()`, taking every control's default value to be empty: every field emptied, none added or removed. */
  function Cleared(data: FormData): (r: FormData)
    ensures r.Keys == data.Keys
    ensures forall k | k in r :: r[k] == ""
  {
    map k | k in data :: ""
  }
}
