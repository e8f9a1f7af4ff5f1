/**
 * The React contact component: six form fields kept in component state, the
 * payload it posts to the inquiry API (the optional fields only when
 * filled), and the message shown after sending, styled as an error exactly
 * when it mentions "Error".
 */
module ContactComponent {
  import opened Wrappers
  import opened JsText
  import opened KeywordDispatch
  import opened ClientForm

  /** The form's fields, as the component starts them. */
  const Fields: set<string> := {"nombre", "email", "telefono", "presupuesto", "timeline", "mensaje"}

  /** The payload's fields. */
  const PayloadFields: set<string> := {"full_name", "email", "project_description", "phone", "budget_estimate", "project_timeline"}

  /** The success message, written in pieces so that its characters can be reasoned about piece by piece. */
  const SuccessText: string := "¡Mensaje enviado " + "exitosamente! " + "Me pondré en " + "contacto contigo " + "pronto."
  const ErrorPrefix: string := "Error al enviar el mensaje: "

  /** The form as the component starts it and as a successful send leaves it. */
  const EmptyForm: FormData := map["nombre" := "", "email" := "", "telefono" := "", "presupuesto" := "",
    "timeline" := "", "mensaje" := ""]

  /** The state holds all six fields (it starts with them and only ever sets fields). */
  predicate HasFields(data: FormData) {
    Fields <= data.Keys
  }

  /**
   * `apiData`: name, e-mail and description always; phone, budget and
   * timeline only when their fields are not empty.
   */
  function ApiData(data: FormData): (payload: map<string, string>)
    requires HasFields(data)
    ensures payload.Keys <= PayloadFields
    ensures "full_name" in payload && payload["full_name"] == data["nombre"]
    ensures "email" in payload && payload["email"] == data["email"]
    ensures "project_description" in payload && payload["project_description"] == data["mensaje"]
    ensures "phone" in payload <==> data["telefono"] != ""
    ensures "budget_estimate" in payload <==> data["presupuesto"] != ""
    ensures "project_timeline" in payload <==> data["timeline"] != ""
  {
    map["full_name" := data["nombre"], "email" := data["email"], "project_description" := data["mensaje"]]
      + (if data["telefono"] != "" then map["phone" := data["telefono"]] else map[])
      + (if data["presupuesto"] != "" then map["budget_estimate" := data["presupuesto"]] else map[])
      + (if data["timeline"] != "" then map["project_timeline" := data["timeline"]] else map[])
  }

  /** The value of a payload field, empty when the field was left out. */
  function PayloadValue(payload: map<string, string>, key: string): string {
    if key in payload then payload[key] else ""
  }

  /** The six form fields read back from a payload. */
  function FormOf(payload: map<string, string>): (data: FormData)
    ensures HasFields(data) && data.Keys == Fields
  {
    map["nombre" := PayloadValue(payload, "full_name"), "email" := PayloadValue(payload, "email"),
      "telefono" := PayloadValue(payload, "phone"), "presupuesto" := PayloadValue(payload, "budget_estimate"),
      "timeline" := PayloadValue(payload, "project_timeline"), "mensaje" := PayloadValue(payload, "project_description")]
  }

  /** Leaving out empty optional fields loses nothing: the six fields can be read back from the payload. */
  lemma PayloadKeepsForm(data: FormData)
    requires HasFields(data)
    ensures forall f | f in Fields :: FormOf(ApiData(data))[f] == data[f]
  {
    var payload := ApiData(data);
    assert PayloadValue(payload, "phone") == data["telefono"];
    assert PayloadValue(payload, "budget_estimate") == data["presupuesto"];
    assert PayloadValue(payload, "project_timeline") == data["timeline"];
  }

  /** The class the message is shown with. */
  function MessageClass(message: string): (c: string)
    ensures c == "error" || c == "success"
    ensures c == "error" <==> Contains(message, "Error")
  {
    if Contains(message, "Error") then "error" else "success"
  }

  /** The failure message always shows as an error, whatever the error said. */
  lemma FailureShowsAsError(errorMessage: string)
    ensures MessageClass(ErrorPrefix + errorMessage) == "error"
  {
    var m := ErrorPrefix + errorMessage;
    assert m[0..|"Error"|] == "Error";
    ContainsAt(m, "Error", 0);
  }

  /** The success message never shows as an error. */
  lemma SuccessShowsAsSuccess()
    ensures MessageClass(SuccessText) == "success"
  {
    MissingCharNotContained(SuccessText, "Error", 0);
  }

  /** The component's state. */
  class Contact {
    var formData: FormData
    var isSubmitting: bool
    var submitMessage: string

    constructor ()
      ensures formData == EmptyForm && HasFields(formData)
      ensures !isSubmitting && submitMessage == ""
    {
      formData, isSubmitting, submitMessage := EmptyForm, false, "";
    }

    /** `handleInputChange`: the named field takes the value and nothing else changes. */
    method HandleInputChange(name: string, value: string)
      modifies this
      requires HasFields(formData)
      ensures HasFields(formData)
      ensures formData == old(formData)[name := value]
      ensures forall f | f in old(formData) && f != name :: formData[f] == old(formData)[f]
      ensures isSubmitting == old(isSubmitting) && submitMessage == old(submitMessage)
    {
      formData := formData[name := value];
    }

    /**
     * `handleSubmit`, with `outcome` standing for what the inquiry request
     * did: success empties every field, a failure keeps them and reports the
     * error's message after the prefix. The submitting flag is down at the
     * end either way.
     */
    method HandleSubmit(outcome: Result<(), string>) returns (sent: map<string, string>)
      modifies this
      requires HasFields(formData)
      ensures HasFields(formData)
      ensures sent == ApiData(old(formData))
      ensures outcome.Success? ==> formData == EmptyForm && submitMessage == SuccessText
      ensures outcome.Failure? ==> formData == old(formData) && submitMessage == ErrorPrefix + outcome.error
      ensures !isSubmitting
    {
      isSubmitting := true;
      submitMessage := "";
      sent := ApiData(formData);
      if outcome.Success? {
        submitMessage := SuccessText;
        formData := EmptyForm;
      } else {
        submitMessage := ErrorPrefix + outcome.error;
      }
      isSubmitting := false;
    }
  }
}
