/**
 * The React site's corrected page script: once-only form set-up, the
 * length-based validation, the choice of endpoints, posting to them until
 * one answers ok, reading the answer, the submitting flag and the mobile
 * menu, whose open state also locks the page's scrolling.
 */
module ComponentsMainFixed {
  import opened Wrappers
  import opened JsText
  import opened ClientForm

  /** The host names of the production site. */
  const ProdHosts: set<string> := {"stratek.es", "www.stratek.es"}
  const LocalEndpoint: string := "http://localhost:3001/api/contact"
  const RelativeEndpoint: string := "/api/contact"

  const SentText: string := "Mensaje enviado correctamente."
  const NotSentText: string := "No se pudo enviar el mensaje."
  const NoServerText: string := "No se pudo contactar con el servidor. Inténtalo más tarde."
  const UnexpectedText: string := "Error inesperado. Inténtalo más tarde."

  /** `s.replace(/\/$/, '')`: one trailing slash is dropped. */
  function StripTrailingSlash(s: string): (r: string)
    ensures s == r + (if |s| > 0 && s[|s| - 1] == '/' then "/" else "")
  {
    if |s| > 0 && s[|s| - 1] == '/' then s[..|s| - 1] else s
  }

  /**
   * The endpoints to try: the configured base (the page's global, else its
   * `api-base` meta tag) with `/contact`; without one, the relative path in
   * production and the local server first elsewhere.
   */
  function Endpoints(windowBase: Option<string>, metaBase: Option<string>, hostname: string): (r: seq<string>)
    ensures 1 <= |r| <= 2
    ensures Truthy(windowBase) ==> r == [StripTrailingSlash(windowBase.value) + "/contact"]
    ensures !Truthy(windowBase) && Truthy(metaBase) ==> r == [StripTrailingSlash(metaBase.value) + "/contact"]
    ensures !Truthy(windowBase) && !Truthy(metaBase) ==> r[|r| - 1] == RelativeEndpoint
    ensures !Truthy(windowBase) && !Truthy(metaBase) ==> (LocalEndpoint in r <==> hostname !in ProdHosts)
  {
    var configuredBase := if Truthy(windowBase) then windowBase else if Truthy(metaBase) then metaBase else None;
    if configuredBase.Some? then [StripTrailingSlash(configuredBase.value) + "/contact"]
    else if hostname in ProdHosts then [RelativeEndpoint]
    else [LocalEndpoint, RelativeEndpoint]
  }

  /**
   * The `for` loop of `handleFormSubmit`: endpoints are posted to in order
   * until one answers ok; errors and non-ok answers move on to the next.
   */
  method PostToEndpoints(endpoints: seq<string>, fetch: string -> FetchOutcome)
    returns (response: Option<FetchOutcome>, tried: seq<string>)
    ensures FirstOkIndex(endpoints, fetch).Some? ==>
      var k := FirstOkIndex(endpoints, fetch).value;
      response == Some(fetch(endpoints[k])) && tried == endpoints[..k + 1]
    ensures FirstOkIndex(endpoints, fetch).None? ==> response.None? && tried == endpoints
  {
    response := None;
    tried := [];
    var i := 0;
    while i < |endpoints|
      invariant 0 <= i <= |endpoints|
      invariant tried == endpoints[..i]
      invariant forall k | 0 <= k < i :: !IsOk(fetch(endpoints[k]))
    {
      var url := endpoints[i];
      tried := tried + [url];
      var res := fetch(url);
      if res.Responded? && res.ok {
        response := Some(res);
        FirstOkAt(endpoints, fetch, i);
        return;
      }
      i := i + 1;
    }
  }

  /**
   * The notification after the loop, and whether the form is reset: only a
   * JSON body with a truthy `success` counts as sent; the body's own
   * `message` (else `error`) is shown when it has one. A JSON content type
   * with a body that does not parse ends in the unexpected-error notice.
   */
  function Report(response: Option<FetchOutcome>): (r: (Notice, bool))
    ensures r.1 <==> r.0.kind == "success"
    ensures r.1 <==>
      (response.Some? && response.value.Responded? && Contains(response.value.contentType, "application/json")
       && response.value.body.Json? && response.value.body.success)
    ensures response.None? ==> r.0 == Notice(NoServerText, "error")
    ensures response.Some? ==>
      var res := response.value;
      var json := res.Responded? && Contains(res.contentType, "application/json");
      && (json && res.body.Malformed? ==> r.0 == Notice(UnexpectedText, "error"))
      && (json && res.body.Json? ==>
            r.0.message == (if Truthy(res.body.message) then res.body.message.value
              else if Truthy(res.body.error) then res.body.error.value
              else if res.body.success then SentText else NotSentText))
      && (!(json && (res.body.Json? || res.body.Malformed?)) ==> r.0 == Notice(NotSentText, "error"))
  {
    match response
    case None => (Notice(NoServerText, "error"), false)
    case Some(res) =>
      var json := res.Responded? && Contains(res.contentType, "application/json");
      if json && res.body.Malformed? then (Notice(UnexpectedText, "error"), false)
      else
        var result := if json && res.body.Json? then Some(res.body) else None;
        var ok := result.Some? && result.value.success;
        var text :=
          if result.Some? && Truthy(result.value.message) then result.value.message.value
          else if result.Some? && Truthy(result.value.error) then result.value.error.value
          else if ok then SentText else NotSentText;
        (Notice(text, if ok then "success" else "error"), ok)
  }

  /**
   * What a send leaves behind: the endpoints tried up to the first ok one
   * (all of them when none is ok), the notice `Report` gives for that
   * answer, and the form cleared exactly when the report says it was sent.
   */
  predicate SendOutcome(endpoints: seq<string>, fetch: string -> FetchOutcome, before: FormData,
      tried: seq<string>, notification: Option<Notice>, after: FormData)
  {
    var k := FirstOkIndex(endpoints, fetch);
    var report := Report(if k.Some? then Some(fetch(endpoints[k.value])) else None);
    && tried == (if k.Some? then endpoints[..k.value + 1] else endpoints)
    && notification == Some(report.0)
    && after == (if report.1 then Cleared(before) else before)
  }

  /** The page's `AppState` and the parts of the page it drives. */
  class Page {
    var formInitialized: bool
    var submitHandlerAttached: bool
    var isSubmitting: bool
    var isMenuOpen: bool
    /** Whether the links and the menu button carry `active`. */
    var navActive: bool
    var toggleActive: bool
    /** Whether the body is fixed in place with `menu-open`. */
    var bodyLocked: bool
    /** The form's current values. */
    var formData: FormData
    /** The field errors on show. */
    var errors: seq<FieldError>
    var notification: Option<Notice>

    /** The menu's classes and the body lock follow the menu flag; the handler is attached exactly once set-up ran. */
    predicate Valid()
      reads this
    {
      && navActive == isMenuOpen && toggleActive == isMenuOpen && bodyLocked == isMenuOpen
      && submitHandlerAttached == formInitialized
    }

    constructor (formData: FormData)
      ensures Valid() && !formInitialized && !isSubmitting && !isMenuOpen
      ensures this.formData == formData && errors == [] && notification.None?
    {
      formInitialized, submitHandlerAttached, isSubmitting := false, false, false;
      isMenuOpen, navActive, toggleActive, bodyLocked := false, false, false, false;
      this.formData, errors, notification := formData, [], None;
    }

    /** `initContactForm`: takes effect at most once, and only when the form exists. */
    method InitContactForm(formExists: bool)
      modifies this
      requires Valid()
      ensures Valid()
      ensures old(formInitialized) ==> formInitialized && submitHandlerAttached
      ensures formInitialized == (old(formInitialized) || formExists)
      ensures isMenuOpen == old(isMenuOpen) && formData == old(formData) && notification == old(notification)
      ensures errors == old(errors) && isSubmitting == old(isSubmitting)
    {
      if formInitialized {
        return;
      }
      if !formExists {
        return;
      }
      submitHandlerAttached := true;
      formInitialized := true;
    }

    /**
     * `handleFormSubmit`. An invalid form shows its errors and nothing is
     * sent. Otherwise the endpoints are posted to until one answers ok,
     * the answer is reported, the form reset only when it says it was sent,
     * and the submitting flag is down again at the end.
     */
    method HandleFormSubmit(hostname: string, windowBase: Option<string>, metaBase: Option<string>,
        fetch: string -> FetchOutcome)
      returns (tried: seq<string>)
      modifies this
      requires Valid()
      ensures Valid()
      ensures errors == LengthFormErrors(old(formData), "nombre", "mensaje")
      ensures errors != [] ==>
        tried == [] && formData == old(formData) && notification == old(notification)
        && isSubmitting == old(isSubmitting)
      ensures errors == [] ==>
        SendOutcome(Endpoints(windowBase, metaBase, hostname), fetch, old(formData), tried, notification, formData)
        && !isSubmitting
      ensures isMenuOpen == old(isMenuOpen) && formInitialized == old(formInitialized)
    {
      Validate();
      tried := SubmitIfValid(Endpoints(windowBase, metaBase, hostname), fetch);
    }

    /** `validateForm`, its errors put on show. */
    method Validate()
      modifies this
      ensures errors == LengthFormErrors(old(formData), "nombre", "mensaje")
      ensures formData == old(formData) && notification == old(notification) && isSubmitting == old(isSubmitting)
      ensures isMenuOpen == old(isMenuOpen) && navActive == old(navActive) && toggleActive == old(toggleActive)
      ensures bodyLocked == old(bodyLocked)
      ensures formInitialized == old(formInitialized) && submitHandlerAttached == old(submitHandlerAttached)
    {
      errors := LengthFormErrors(formData, "nombre", "mensaje");
    }

    /** The rest of `handleFormSubmit` once the errors are on show: nothing is sent while there are any. */
    method SubmitIfValid(endpoints: seq<string>, fetch: string -> FetchOutcome) returns (tried: seq<string>)
      modifies this
      requires Valid()
      ensures Valid() && errors == old(errors)
      ensures errors != [] ==>
        tried == [] && formData == old(formData) && notification == old(notification)
        && isSubmitting == old(isSubmitting)
      ensures errors == [] ==>
        SendOutcome(endpoints, fetch, old(formData), tried, notification, formData) && !isSubmitting
      ensures isMenuOpen == old(isMenuOpen) && formInitialized == old(formInitialized)
    {
      if errors != [] {
        return [];
      }
      tried := Submit(endpoints, fetch);
    }

    /** The valid-form path of `handleFormSubmit`: the submitting flag is raised, the form sent, the flag lowered. */
    method Submit(endpoints: seq<string>, fetch: string -> FetchOutcome) returns (tried: seq<string>)
      modifies this
      requires Valid()
      ensures Valid()
      ensures SendOutcome(endpoints, fetch, old(formData), tried, notification, formData)
      ensures isMenuOpen == old(isMenuOpen) && formInitialized == old(formInitialized)
      ensures errors == old(errors) && !isSubmitting
    {
      SetSubmitting(true);
      tried := Send(endpoints, fetch);
      SetSubmitting(false);
    }

    /** The `try` block of `handleFormSubmit`: post, report, and reset the form when the answer says it was sent. */
    method Send(endpoints: seq<string>, fetch: string -> FetchOutcome) returns (tried: seq<string>)
      modifies this
      requires Valid()
      ensures Valid()
      ensures SendOutcome(endpoints, fetch, old(formData), tried, notification, formData)
      ensures isMenuOpen == old(isMenuOpen) && formInitialized == old(formInitialized)
      ensures errors == old(errors) && isSubmitting == old(isSubmitting)
    {
      var response;
      response, tried := PostToEndpoints(endpoints, fetch);
      var report := Report(response);
      notification := Some(report.0);
      if report.1 {
        formData := Cleared(formData);
      }
    }

    /** `setSubmitting`. */
    method SetSubmitting(submitting: bool)
      modifies this
      ensures isSubmitting == submitting
      ensures formData == old(formData) && errors == old(errors) && notification == old(notification)
      ensures isMenuOpen == old(isMenuOpen) && navActive == old(navActive) && toggleActive == old(toggleActive)
      ensures bodyLocked == old(bodyLocked)
      ensures formInitialized == old(formInitialized) && submitHandlerAttached == old(submitHandlerAttached)
    {
      isSubmitting := submitting;
    }

    /** The menu button: the flag flips, the classes follow, and the body is locked exactly while it is open. */
    method MenuToggleClicked()
      modifies this
      requires Valid()
      ensures Valid() && isMenuOpen == !old(isMenuOpen)
      ensures formData == old(formData) && formInitialized == old(formInitialized)
      ensures errors == old(errors) && notification == old(notification) && isSubmitting == old(isSubmitting)
      ensures submitHandlerAttached == old(submitHandlerAttached)
    {
      isMenuOpen := !isMenuOpen;
      navActive := isMenuOpen;
      toggleActive := isMenuOpen;
      bodyLocked := isMenuOpen;
    }

    /**
     * An in-page link (`href` starting with `#`): an open menu is closed and
     * the body unlocked only when the link's target element exists; without
     * one the click does nothing at all.
     */
    method AnchorClicked(targetExists: bool)
      modifies this
      requires Valid()
      ensures Valid()
      ensures targetExists ==> !isMenuOpen && !bodyLocked
      ensures !targetExists ==>
        isMenuOpen == old(isMenuOpen) && bodyLocked == old(bodyLocked)
        && navActive == old(navActive) && toggleActive == old(toggleActive)
      ensures formData == old(formData) && formInitialized == old(formInitialized)
      ensures errors == old(errors) && notification == old(notification) && isSubmitting == old(isSubmitting)
      ensures submitHandlerAttached == old(submitHandlerAttached)
    {
      if targetExists && isMenuOpen {
        isMenuOpen := false;
        navActive := false;
        toggleActive := false;
        bodyLocked := false;
      }
    }

    /** A link inside the menu closes an open menu and unlocks the body, whatever it points to. */
    method NavLinkClicked()
      modifies this
      requires Valid()
      ensures Valid() && !isMenuOpen && !bodyLocked
      ensures formData == old(formData) && formInitialized == old(formInitialized)
      ensures errors == old(errors) && notification == old(notification) && isSubmitting == old(isSubmitting)
      ensures submitHandlerAttached == old(submitHandlerAttached)
    {
      if isMenuOpen {
        isMenuOpen := false;
        navActive := false;
        toggleActive := false;
        bodyLocked := false;
      }
    }
  }
}
