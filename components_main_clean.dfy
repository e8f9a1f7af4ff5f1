/**
 * The React site's other page script. Its contact form posts to the local
 * server and then to the relative path, keeping the last answer it got;
 * when no endpoint answers ok it still reports success after a pause, as a
 * stand-in for a missing back end. Its mobile menu stops the page from
 * scrolling while open and closes when the window grows past 768 pixels.
 */
module ComponentsMainClean {
  import opened Wrappers
  import opened JsText
  import opened ClientForm

  /** The endpoints, in the order they are tried. */
  const Endpoints: seq<string> := ["http://localhost:3001/api/contact", "/api/contact"]

  const SimulatedText: string := "Mensaje enviado correctamente. Te contactaré pronto."
  const SentText: string := "Mensaje enviado correctamente"
  const FailedText: string := "Error al enviar el mensaje. Inténtalo de nuevo."

  /** The widest window, in pixels, that keeps the mobile menu open. */
  const MobileWidth: int := 768

  /** The last answer among the endpoints' outcomes, if any endpoint answered at all. */
  function LastAnswer(urls: seq<string>, fetch: string -> FetchOutcome): (r: Option<FetchOutcome>)
    ensures r.None? <==> forall k | 0 <= k < |urls| :: fetch(urls[k]).Threw?
    ensures r.Some? ==> r.value.Responded?
    ensures r.Some? ==> exists k | 0 <= k < |urls| ::
      (r.value == fetch(urls[k]) && forall j | k < j < |urls| :: fetch(urls[j]).Threw?)
  {
    if urls == [] then None
    else
      var last := fetch(urls[|urls| - 1]);
      if last.Responded? then Some(last)
      else
        var r := LastAnswer(urls[..|urls| - 1], fetch);
        assert forall k | 0 <= k < |urls| - 1 :: urls[..|urls| - 1][k] == urls[k];
        r
  }

  /**
   * The loop of `handleFormSubmit`: every answer replaces the previous one,
   * an error leaves it as it was, and an ok answer ends the loop.
   */
  method PostToEndpoints(endpoints: seq<string>, fetch: string -> FetchOutcome)
    returns (response: Option<FetchOutcome>, tried: seq<string>)
    ensures tried == match FirstOkIndex(endpoints, fetch)
      case Some(k) => endpoints[..k + 1]
      case None => endpoints
    ensures response == LastAnswer(tried, fetch)
    ensures (response.Some? && response.value.ok) <==> FirstOkIndex(endpoints, fetch).Some?
  {
    response := None;
    tried := [];
    var i := 0;
    while i < |endpoints|
      invariant 0 <= i <= |endpoints|
      invariant tried == endpoints[..i]
      invariant response == LastAnswer(tried, fetch)
      invariant response.Some? ==> !response.value.ok
      invariant forall k | 0 <= k < i :: !IsOk(fetch(endpoints[k]))
    {
      var endpoint := endpoints[i];
      LastAnswerSnoc(tried, endpoint, fetch);
      assert endpoints[..i + 1] == tried + [endpoint];
      tried := tried + [endpoint];
      var res := fetch(endpoint);
      if res.Responded? {
        response := Some(res);
        if res.ok {
          FirstOkAt(endpoints, fetch, i);
          return;
        }
      }
      assert !IsOk(fetch(endpoints[i]));
      i := i + 1;
    }
    assert endpoints[..i] == endpoints;
  }

  /** One more endpoint: its answer, if it gave one, becomes the last answer. */
  lemma LastAnswerSnoc(urls: seq<string>, url: string, fetch: string -> FetchOutcome)
    ensures LastAnswer(urls + [url], fetch) == if fetch(url).Responded? then Some(fetch(url)) else LastAnswer(urls, fetch)
  {
    assert (urls + [url])[..|urls|] == urls;
  }

  /**
   * The notification after the loop, and whether the form is reset: without
   * an ok answer success is simulated; an ok answer is read as JSON, and
   * only a body that is not JSON ends in the error notice.
   */
  function Report(response: Option<FetchOutcome>): (r: (Notice, bool))
    ensures r.1 <==> r.0.kind == "success"
    ensures !r.1 <==> response.Some? && IsOk(response.value) && !response.value.body.Json?
    ensures !(response.Some? && IsOk(response.value)) ==> r.0 == Notice(SimulatedText, "success")
    ensures response.Some? && IsOk(response.value) && response.value.body.Json? ==>
      var message := response.value.body.message;
      r.0 == Notice(if Truthy(message) then message.value else SentText, "success")
    ensures response.Some? && IsOk(response.value) && !response.value.body.Json? ==> r.0 == Notice(FailedText, "error")
  {
    if response.None? || !response.value.Responded? || !response.value.ok then (Notice(SimulatedText, "success"), true)
    else
      match response.value.body
      case Json(_, message, _) => (Notice(if Truthy(message) then message.value else SentText, "success"), true)
      case _ => (Notice(FailedText, "error"), false)
  }

  /** The page's `AppState` and the parts of the page it drives. */
  class Page {
    var formInitialized: bool
    var submitHandlerAttached: bool
    var isSubmitting: bool
    var isMenuOpen: bool
    /** Whether the links and the menu button carry `active`. */
    var navActive: bool
    var toggleActive: bool
    /** Whether the body's `overflow` is `hidden`. */
    var overflowHidden: bool
    var formData: FormData
    var errors: seq<FieldError>
    var notification: Option<Notice>

    /** The menu's classes and the scroll lock follow the menu flag; the handler is attached exactly once set-up ran. */
    predicate Valid()
      reads this
    {
      && navActive == isMenuOpen && toggleActive == isMenuOpen && overflowHidden == isMenuOpen
      && submitHandlerAttached == formInitialized
    }

    constructor (formData: FormData)
      ensures Valid() && !formInitialized && !isSubmitting && !isMenuOpen
      ensures this.formData == formData && errors == [] && notification.None?
    {
      formInitialized, submitHandlerAttached, isSubmitting := false, false, false;
      isMenuOpen, navActive, toggleActive, overflowHidden := false, false, false, false;
      this.formData, errors, notification := formData, [], None;
    }

    /** `initContactForm`: takes effect at most once, and only when the form exists. */
    method InitContactForm(formExists: bool)
      modifies this
      requires Valid()
      ensures Valid()
      ensures old(formInitialized) ==> formInitialized && submitHandlerAttached
      ensures formInitialized == (old(formInitialized) || formExists)
      ensures isMenuOpen == old(isMenuOpen) && formData == old(formData) && notification == old(notification)
      ensures errors == old(errors) && isSubmitting == old(isSubmitting)
    {
      if formInitialized {
        return;
      }
      if !formExists {
        return;
      }
      submitHandlerAttached := true;
      formInitialized := true;
    }

    /**
     * `handleFormSubmit`. An invalid form shows its errors and nothing is
     * sent; otherwise the endpoints are tried, the outcome reported, the
     * form reset on both success paths, and the submitting flag lowered.
     */
    method HandleFormSubmit(fetch: string -> FetchOutcome) returns (tried: seq<string>)
      modifies this
      requires Valid()
      ensures Valid()
      ensures errors == LengthFormErrors(old(formData), "name", "message")
      ensures errors != [] ==>
        tried == [] && formData == old(formData) && notification == old(notification)
        && isSubmitting == old(isSubmitting)
      ensures errors == [] ==>
        var report := Report(LastAnswer(tried, fetch));
        && tried == (match FirstOkIndex(Endpoints, fetch) case Some(k) => Endpoints[..k + 1] case None => Endpoints)
        && notification == Some(report.0)
        && formData == (if report.1 then Cleared(old(formData)) else old(formData))
        && !isSubmitting
      ensures isMenuOpen == old(isMenuOpen) && formInitialized == old(formInitialized)
    {
      errors := LengthFormErrors(formData, "name", "message");
      if errors != [] {
        return [];
      }
      SetSubmitting(true);
      tried := Send(fetch);
      SetSubmitting(false);
    }

    /** The `try` block of `handleFormSubmit`. */
    method Send(fetch: string -> FetchOutcome) returns (tried: seq<string>)
      modifies this
      requires Valid()
      ensures Valid()
      ensures var report := Report(LastAnswer(tried, fetch));
        && tried == (match FirstOkIndex(Endpoints, fetch) case Some(k) => Endpoints[..k + 1] case None => Endpoints)
        && notification == Some(report.0)
        && formData == (if report.1 then Cleared(old(formData)) else old(formData))
      ensures isMenuOpen == old(isMenuOpen) && formInitialized == old(formInitialized)
      ensures errors == old(errors) && isSubmitting == old(isSubmitting)
    {
      var response;
      response, tried := PostToEndpoints(Endpoints, fetch);
      var report := Report(response);
      notification := Some(report.0);
      if report.1 {
        formData := Cleared(formData);
      }
    }

    /** `setSubmitting`. */
    method SetSubmitting(submitting: bool)
      modifies this
      ensures isSubmitting == submitting
      ensures formData == old(formData) && errors == old(errors) && notification == old(notification)
      ensures isMenuOpen == old(isMenuOpen) && navActive == old(navActive) && toggleActive == old(toggleActive)
      ensures overflowHidden == old(overflowHidden)
      ensures formInitialized == old(formInitialized) && submitHandlerAttached == old(submitHandlerAttached)
    {
      isSubmitting := submitting;
    }

    /** The menu button: the flag flips, and the page stops scrolling exactly while the menu is open. */
    method MenuToggleClicked()
      modifies this
      requires Valid()
      ensures Valid() && isMenuOpen == !old(isMenuOpen) && overflowHidden == isMenuOpen
      ensures formData == old(formData) && formInitialized == old(formInitialized)
      ensures errors == old(errors) && notification == old(notification) && isSubmitting == old(isSubmitting)
      ensures submitHandlerAttached == old(submitHandlerAttached)
    {
      isMenuOpen := !isMenuOpen;
      navActive := isMenuOpen;
      toggleActive := isMenuOpen;
      overflowHidden := isMenuOpen;
    }

    /** A menu link closes the menu and lets the page scroll. */
    method NavLinkClicked()
      modifies this
      requires Valid()
      ensures Valid() && !isMenuOpen && !overflowHidden
      ensures formData == old(formData) && formInitialized == old(formInitialized)
      ensures errors == old(errors) && notification == old(notification) && isSubmitting == old(isSubmitting)
      ensures submitHandlerAttached == old(submitHandlerAttached)
    {
      isMenuOpen := false;
      navActive := false;
      toggleActive := false;
      overflowHidden := false;
    }

    /** A resize past the mobile width closes an open menu; any other resize changes nothing. */
    method WindowResized(innerWidth: int)
      modifies this
      requires Valid()
      ensures Valid()
      ensures innerWidth > MobileWidth ==> !isMenuOpen
      ensures innerWidth <= MobileWidth ==> isMenuOpen == old(isMenuOpen)
      ensures formData == old(formData) && formInitialized == old(formInitialized)
      ensures errors == old(errors) && notification == old(notification) && isSubmitting == old(isSubmitting)
      ensures submitHandlerAttached == old(submitHandlerAttached)
    {
      if innerWidth > MobileWidth && isMenuOpen {
        isMenuOpen := false;
        navActive := false;
        toggleActive := false;
        overflowHidden := false;
      }
    }
  }

  /** When no endpoint answers ok, the page still reports success and resets the form. */
  lemma NoBackendStillSucceeds(fetch: string -> FetchOutcome)
    requires FirstOkIndex(Endpoints, fetch).None?
    ensures Report(LastAnswer(Endpoints, fetch)) == (Notice(SimulatedText, "success"), true)
  {
    var r := LastAnswer(Endpoints, fetch);
    if r.Some? {
      var k :| 0 <= k < |Endpoints| && r.value == fetch(Endpoints[k]) && forall j | k < j < |Endpoints| :: fetch(Endpoints[j]).Threw?;
      assert !IsOk(fetch(Endpoints[k]));
    }
  }
}
