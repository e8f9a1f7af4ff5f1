/**
 * The static page's script: the contact form's validation, the simple chat
 * widget with its conversation history and keyword fallback, the portfolio
 * filter and the mobile-menu flag of `AppState`.
 */
module MainPage {
  import opened Wrappers
  import opened JsText
  import opened EmailPattern
  import opened KeywordDispatch
  import opened ClientForm

  /** The fields that must be filled, in the order they are checked. */
  const RequiredFields: seq<string> := ["nombre", "email", "servicio", "mensaje"]
  const RequiredText: string := "Este campo es requerido"
  const EmailText: string := "Por favor, ingresa un email válido"

  /** The field is present and not whitespace only. */
  predicate Filled(data: FormData, field: string) {
    field in data && !IsBlank(data[field])
  }

  /** The e-mail field is present and non-empty, so its shape is checked. */
  predicate EmailGiven(data: FormData) {
    "email" in data && data["email"] != ""
  }

  /** One "required" error per unfilled field of `fields`, in order. */
  function MissingErrors(data: FormData, fields: seq<string>): (r: seq<FieldError>)
    ensures |r| <= |fields|
    ensures r == [] <==> forall k | 0 <= k < |fields| :: Filled(data, fields[k])
  {
    if fields == [] then []
    else
      var init := fields[..|fields| - 1];
      var last := fields[|fields| - 1];
      MissingErrors(data, init) + (if Filled(data, last) then [] else [FieldError(last, RequiredText)])
  }

  /** Each error is a "required" error for an unfilled field among those checked. */
  lemma {:induction false} MissingErrorsSound(data: FormData, fields: seq<string>)
    ensures forall e | e in MissingErrors(data, fields) :: e.message == RequiredText && e.field in fields && !Filled(data, e.field)
  {
    if fields != [] {
      var init := fields[..|fields| - 1];
      MissingErrorsSound(data, init);
      assert forall f | f in init :: f in fields;
    }
  }

  /** Every unfilled field gets its "required" error. */
  lemma {:induction false} MissingErrorsComplete(data: FormData, fields: seq<string>)
    ensures forall k | 0 <= k < |fields| && !Filled(data, fields[k]) :: FieldError(fields[k], RequiredText) in MissingErrors(data, fields)
  {
    if fields != [] {
      var init := fields[..|fields| - 1];
      MissingErrorsComplete(data, init);
      assert forall k | 0 <= k < |init| :: init[k] == fields[k];
    }
  }

  /** Every `showFieldError` call `validateForm` makes, in order. */
  function FormErrors(data: FormData): (r: seq<FieldError>)
    ensures r == [] <==>
      (forall k | 0 <= k < |RequiredFields| :: Filled(data, RequiredFields[k]))
      && (EmailGiven(data) ==> MatchesPattern(data["email"]))
    ensures EmailGiven(data) && !MatchesPattern(data["email"]) ==> FieldError("email", EmailText) in r
  {
    MissingErrors(data, RequiredFields)
      + (if EmailGiven(data) && !IsValidEmail(data["email"]) then [FieldError("email", EmailText)] else [])
  }

  /**
   * `validateForm`: every required field is checked and every failing one
   * reported, then a given e-mail's shape; the form is valid exactly when
   * nothing was reported.
   */
  method ValidateForm(data: FormData) returns (isValid: bool, errors: seq<FieldError>)
    ensures errors == FormErrors(data)
    ensures isValid <==> errors == []
  {
    isValid, errors := CheckRequired(data, RequiredFields);
    if "email" in data && data["email"] != "" && !IsValidEmail(data["email"]) {
      errors := errors + [FieldError("email", EmailText)];
      isValid := false;
    } else {
      assert errors + [] == errors;
    }
  }

  /** The loop of `validateForm` over the required fields, each unfilled one reported in turn. */
  method CheckRequired(data: FormData, fields: seq<string>) returns (isValid: bool, errors: seq<FieldError>)
    ensures errors == MissingErrors(data, fields)
    ensures isValid <==> errors == []
  {
    isValid := true;
    errors := [];
    var i := 0;
    while i < |fields|
      invariant 0 <= i <= |fields|
      invariant errors == MissingErrors(data, fields[..i])
      invariant isValid <==> errors == []
    {
      var field := fields[i];
      if field !in data || IsBlank(data[field]) {
        errors := errors + [FieldError(field, RequiredText)];
        isValid := false;
      }
      assert fields[..i + 1][..i] == fields[..i];
      i := i + 1;
    }
    assert fields[..i] == fields;
  }

  /** `getChatbotResponse`'s tests, in order; `como` with `pongo` is one alternative. */
  const ChatRules: seq<Rule> := [
    Rule([["hola"], ["buenos"], ["buenas"], ["hey"]], Greeting),
    Rule([["servicio"], ["qué haces"], ["ofreces"]], Services),
    Rule([["precio"], ["cuesta"], ["coste"]], Prices),
    Rule([["ia"], ["inteligencia artificial"], ["ai"]], AI),
    Rule([["contacto"], ["contactar"], ["como", "pongo"], ["email"], ["teléfono"]], Contact)]

  /** `getChatbotResponse`. */
  function ChatbotResponse(message: string): Topic {
    Respond(ChatRules, message)
  }

  /** What a chat entry says: the user's text, the server's `response` field, or a local answer marked as such. */
  datatype Content = Typed(text: string) | ServerText(response: Option<string>) | LocalWithNote(topic: Topic)

  /** `{type, content, timestamp}`. */
  datatype Entry = Entry(kind: string, content: Content, timestamp: int)

  /** What `/api/chat` does: answers ok with a body, or fails (not ok, or the request throws). */
  datatype ChatReply = ServerAnswered(response: Option<string>) | ServerFailed

  /** A portfolio card is shown for the filter `all`, or when its categories contain the filter. */
  predicate ShouldShow(categories: Option<string>, filter: string) {
    filter == "all" || Contains(OrElse(categories, ""), filter)
  }

  /** `filterProjects`: whether each card is shown, card by card. */
  function FilterProjects(cards: seq<Option<string>>, filter: string): (shown: seq<bool>)
    ensures |shown| == |cards|
    ensures forall k | 0 <= k < |cards| :: shown[k] == ShouldShow(cards[k], filter)
  {
    seq(|cards|, k requires 0 <= k < |cards| => ShouldShow(cards[k], filter))
  }

  /** The bot's entry for a message: the server's `response` field, or the local answer when the server fails. */
  function Answer(message: string, reply: ChatReply, now: int): (e: Entry)
    ensures e.kind == "bot" && e.timestamp == now
    ensures e.content.LocalWithNote? <==> reply.ServerFailed?
    ensures reply.ServerAnswered? ==> e.content == ServerText(reply.response)
  {
    match reply
    case ServerAnswered(response) => Entry("bot", ServerText(response), now)
    case ServerFailed => Entry("bot", LocalWithNote(ChatbotResponse(message)), now)
  }

  /** The global `AppState`. */
  class AppState {
    var isMenuOpen: bool
    var activeFilter: string
    var conversationHistory: seq<Entry>

    constructor ()
      ensures !isMenuOpen && activeFilter == "all" && conversationHistory == []
    {
      isMenuOpen, activeFilter, conversationHistory := false, "all", [];
    }

    /** `addChatMessage`: exactly one entry is appended to the history. */
    method AddChatMessage(content: Content, kind: string, now: int)
      modifies this
      ensures conversationHistory == old(conversationHistory) + [Entry(kind, content, now)]
      ensures isMenuOpen == old(isMenuOpen) && activeFilter == old(activeFilter)
    {
      conversationHistory := conversationHistory + [Entry(kind, content, now)];
    }

    /**
     * `sendChatMessage`: whitespace-only input does nothing. Otherwise the
     * trimmed text is recorded, then the server's answer, or, when the server
     * fails, the local answer with its note.
     */
    method SendChatMessage(input: string, reply: ChatReply, now: int)
      modifies this
      ensures IsBlank(input) ==> conversationHistory == old(conversationHistory)
      ensures !IsBlank(input) ==>
        conversationHistory == old(conversationHistory) + [Entry("user", Typed(Trim(input)), now)] + [Answer(Trim(input), reply, now)]
      ensures isMenuOpen == old(isMenuOpen) && activeFilter == old(activeFilter)
    {
      var message := Trim(input);
      TrimFacts(input);
      if message == "" {
        return;
      }
      AddChatMessage(Typed(message), "user", now);
      AddAnswer(message, reply, now);
    }

    /** The bot's half of `sendChatMessage`: the server's answer, or the local one when the server fails. */
    method AddAnswer(message: string, reply: ChatReply, now: int)
      modifies this
      ensures conversationHistory == old(conversationHistory) + [Answer(message, reply, now)]
      ensures isMenuOpen == old(isMenuOpen) && activeFilter == old(activeFilter)
    {
      match reply
      case ServerAnswered(response) =>
        AddChatMessage(ServerText(response), "bot", now);
      case ServerFailed =>
        AddChatMessage(LocalWithNote(ChatbotResponse(message)), "bot", now);
    }

    /** A filter button: the filter is remembered and the cards shown accordingly. */
    method SelectFilter(filter: string, cards: seq<Option<string>>) returns (shown: seq<bool>)
      modifies this
      ensures activeFilter == filter && shown == FilterProjects(cards, filter)
      ensures isMenuOpen == old(isMenuOpen) && conversationHistory == old(conversationHistory)
    {
      activeFilter := filter;
      shown := FilterProjects(cards, filter);
    }

    /** The menu button flips the menu. */
    method ToggleMenu()
      modifies this
      ensures isMenuOpen == !old(isMenuOpen)
      ensures activeFilter == old(activeFilter) && conversationHistory == old(conversationHistory)
    {
      isMenuOpen := !isMenuOpen;
    }

    /** Any navigation link closes the menu. */
    method NavLinkClicked()
      modifies this
      ensures !isMenuOpen
      ensures activeFilter == old(activeFilter) && conversationHistory == old(conversationHistory)
    {
      isMenuOpen := false;
    }
  }

  /** The filter `all` shows every card, and a card without categories is shown for no other filter but the empty one. */
  lemma FilterAllAndUncategorised(cards: seq<Option<string>>, filter: string)
    ensures forall k | 0 <= k < |cards| :: FilterProjects(cards, "all")[k]
    ensures forall k | 0 <= k < |cards| && !Truthy(cards[k]) ::
      FilterProjects(cards, filter)[k] <==> filter == "all" || filter == ""
  {
    forall k | 0 <= k < |cards| && !Truthy(cards[k])
      ensures ShouldShow(cards[k], filter) <==> filter == "all" || filter == ""
    {
      if filter == "" {
        ContainsAt("", "", 0);
      }
    }
  }

  /**
   * "email" contains "ai", so the page's responder answers a question about
   * e-mail with the AI answer although the contact test also holds for it.
   */
  lemma EmailGetsAI()
    ensures ChatbotResponse("email") == AI
    ensures Fires("email", ChatRules[4])
  {
    ToLowerOfLower("email");
    EmailSkipsEarlierRules();
    EmailFiresAIRule();
    FirstRuleWins(ChatRules, "email", 3);
    EmailFiresContactRule();
  }

  /** The AI test holds for "email": "ai" occurs at its third character. */
  lemma EmailFiresAIRule()
    ensures Fires("email", ChatRules[3])
  {
    FiresAt("email", ChatRules[3], 2, 2);
  }

  /** The contact test holds for "email" too: the whole message is one of its keywords. */
  lemma EmailFiresContactRule()
    ensures Fires("email", ChatRules[4])
  {
    FiresAt("email", ChatRules[4], 3, 0);
  }

  /** None of the greeting, services and prices tests holds for "email". */
  lemma EmailSkipsEarlierRules()
    ensures forall j | 0 <= j < 3 :: !Fires("email", ChatRules[j])
  {
    var msg := "email";
    assert !Fires(msg, ChatRules[0]) by { NotFiresBy(msg, ChatRules[0], [(0, 0), (0, 0), (0, 0), (0, 0)]); }
    assert !Fires(msg, ChatRules[1]) by { NotFiresBy(msg, ChatRules[1], [(0, 0), (0, 0), (0, 0)]); }
    assert !Fires(msg, ChatRules[2]) by { NotFiresBy(msg, ChatRules[2], [(0, 0), (0, 0), (0, 0)]); }
  }
}
