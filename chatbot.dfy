/**
 * `PortfolioChatbot`, the site's chat widget: whether the window is open,
 * the messages of the session, the conversation history kept in local
 * storage (its last 50 entries), and the messages shown in the window.
 * Replies come from the chat API when the page's configuration allows it,
 * and otherwise from a local keyword responder.
 */
module Chatbot {
  import opened Wrappers
  import opened JsText
  import opened KeywordDispatch

  /** The history keeps at most this many entries. */
  const HistoryLimit: nat := 50
  /** A reopened page shows at most this many history entries. */
  const RestoreCount: nat := 10

  /** `getLocalResponse`'s tests, in the order they are tried. */
  const LocalRules: seq<Rule> := [
    Rule([["servicio"], ["qué haces"], ["ofreces"]], Services),
    Rule([["precio"], ["cuesta"], ["coste"], ["tarifa"]], Prices),
    Rule([["ia"], ["inteligencia artificial"], ["ai"], ["chatbot"]], AI),
    Rule([["contacto"], ["contactar"], ["hablar"]], Contact),
    Rule([["portfolio"], ["proyectos"], ["trabajos"]], Portfolio),
    Rule([["experiencia"], ["sobre ti"], ["quien eres"]], Experience)]

  /** The `type` of a message; stored history may hold other values. */
  datatype EntryType = User | Bot | OtherType(name: string)

  /** What a message says: typed or API text, a local answer, the welcome, or one of two fixed apologies. */
  datatype Content =
    | Said(text: string)
    | Canned(topic: Topic)
    | Welcome(powered: bool)
    | NoAnswer
    | TechnicalProblem

  /** `{type, content, timestamp}`. */
  datatype ChatEntry = ChatEntry(kind: EntryType, content: Content, timestamp: int)

  /** What the chat API call does: answers (with a `response` that may be absent or empty) or throws. */
  datatype ApiOutcome = Answered(response: Option<string>) | ApiFailed

  /** What `/api/config` does: answers with `hasApiKey`, answers not ok, or throws. */
  datatype ConfigCheck = ConfigOk(hasApiKey: bool) | ConfigNotOk | ConfigThrew

  /** A message `restoreConversationMessages` shows. */
  predicate Shown(e: ChatEntry) {
    e.kind.User? || e.kind.Bot?
  }

  /** The user and bot entries of `s`, in order. */
  function Displayable(s: seq<ChatEntry>): (r: seq<ChatEntry>)
    ensures |r| <= |s|
    ensures forall e | e in r :: e in s && Shown(e)
    ensures forall e | e in s && Shown(e) :: e in r
  {
    if s == [] then []
    else
      var init := s[..|s| - 1];
      var last := s[|s| - 1];
      assert s == init + [last];
      Displayable(init) + (if Shown(last) then [last] else [])
  }

  /** Picking from a concatenation picks from each part: order and repetitions are kept. */
  lemma {:induction false} DisplayableAppend(a: seq<ChatEntry>, b: seq<ChatEntry>)
    ensures Displayable(a + b) == Displayable(a) + Displayable(b)
    decreases |b|
  {
    if b == [] {
      assert a + b == a;
    } else {
      var init, last := b[..|b| - 1], b[|b| - 1];
      var tail := if Shown(last) then [last] else [];
      assert b == init + [last];
      assert a + b == (a + init) + [last];
      calc {
        Displayable(a + b);
        { DisplayableSnoc(a + init, last); }
        Displayable(a + init) + tail;
        { DisplayableAppend(a, init); }
        (Displayable(a) + Displayable(init)) + tail;
        Displayable(a) + (Displayable(init) + tail);
        { DisplayableSnoc(init, last); }
        Displayable(a) + Displayable(b);
      }
    }
  }

  /** Adding one entry at the end adds it to what is shown exactly when it is shown. */
  lemma DisplayableSnoc(s: seq<ChatEntry>, e: ChatEntry)
    ensures Displayable(s + [e]) == Displayable(s) + (if Shown(e) then [e] else [])
  {
    assert (s + [e])[..|s|] == s;
  }

  /** One entry is shown again exactly when it is a user or bot entry. */
  lemma DisplayableOne(e: ChatEntry)
    ensures Displayable([e]) == if Shown(e) then [e] else []
  {
    assert [e][..0] == [];
  }

  /** `saveMessage`'s new history: the entry appended, then only the last 50 kept. */
  function Saved(h: seq<ChatEntry>, e: ChatEntry): (r: seq<ChatEntry>)
    ensures |r| == if |h| < HistoryLimit then |h| + 1 else HistoryLimit
    ensures r[|r| - 1] == e
  {
    TakeLast(h + [e], HistoryLimit)
  }

  /**
   * The text `sendMessage` sends: the suggestion's text when one is given,
   * else the trimmed input. It is empty exactly when there is no suggestion
   * and the input is whitespace only.
   */
  function MessageText(messageText: Option<string>, input: string): (m: string)
    ensures Truthy(messageText) ==> m == messageText.value
    ensures m == "" <==> !Truthy(messageText) && IsBlank(input)
  {
    TrimFacts(input);
    if Truthy(messageText) then messageText.value else Trim(input)
  }

  /** `getLocalResponse`. */
  function LocalResponse(message: string): Topic {
    Respond(LocalRules, message)
  }

  /**
   * `generateBotResponse`: the API's answer when the configuration grants
   * access and the call succeeds, the local answer otherwise.
   */
  function BotResponse(usesApi: bool, outcome: ApiOutcome, message: string): (c: Content)
    ensures !usesApi || outcome.ApiFailed? ==> c == Canned(LocalResponse(message))
    ensures usesApi && outcome.Answered? ==>
      c == if Truthy(outcome.response) then Said(outcome.response.value) else NoAnswer
    ensures c.Said? ==> usesApi && outcome == Answered(Some(c.text)) && c.text != ""
  {
    if usesApi then
      match outcome
      case Answered(response) => if Truthy(response) then Said(response.value) else NoAnswer
      case ApiFailed => Canned(LocalResponse(message))
    else Canned(LocalResponse(message))
  }

  class PortfolioChatbot {
    var isOpen: bool
    var isTyping: bool
    /** The session's messages, sent along with every API call. */
    var messages: seq<ChatEntry>
    /** The stored conversation. */
    var conversationHistory: seq<ChatEntry>
    /** The message elements in the chat window, in order. */
    var shown: seq<ChatEntry>
    var suggestionsVisible: bool
    var apiAvailable: bool
    /** Whether the page defines `window.chatbotConfig`. */
    var configPresent: bool
    /** That configuration's `hasApiAccess`. */
    var configApiAccess: bool

    /** `this.config && this.config.hasApiAccess`. */
    predicate UsesApi()
      reads this
    {
      configPresent && configApiAccess
    }

    /**
     * The constructor and `initSync`. `saved` is the stored history when there
     * is one that parses; `now` the clock. An empty history shows the welcome
     * (which goes into `messages` but not into the history); otherwise the
     * last entries of the history are shown again. The API check runs later.
     */
    constructor (saved: Option<seq<ChatEntry>>, configPresent: bool, configApiAccess: bool, now: int)
      ensures !isOpen && !isTyping && !apiAvailable && suggestionsVisible
      ensures this.configPresent == configPresent && this.configApiAccess == configApiAccess
      ensures conversationHistory == if saved.Some? then saved.value else []
      ensures conversationHistory == [] ==>
        messages == [ChatEntry(Bot, Welcome(false), now)] && shown == messages
      ensures conversationHistory != [] ==>
        messages == [] && shown == Displayable(TakeLast(conversationHistory, RestoreCount))
    {
      isOpen, isTyping, messages, conversationHistory, shown := false, false, [], [], [];
      suggestionsVisible, apiAvailable := true, false;
      this.configPresent, this.configApiAccess := configPresent, configApiAccess;
      new;
      LoadConversationHistory(saved);
      if |conversationHistory| == 0 {
        LoadWelcomeMessage(now);
      } else {
        RestoreConversationMessages();
      }
    }

    /** Everything but whether the window is open: what toggling the window leaves alone. */
    function Session(): (seq<ChatEntry>, seq<ChatEntry>, seq<ChatEntry>, bool, bool, bool, bool, bool)
      reads this
    {
      (messages, conversationHistory, shown, isTyping, suggestionsVisible, apiAvailable, configPresent, configApiAccess)
    }

    /** `checkApiAvailability`: records whether the server has a key, and passes it to the configuration. */
    method CheckApiAvailability(check: ConfigCheck)
      modifies this
      ensures check.ConfigOk? ==> apiAvailable == check.hasApiKey
      ensures check.ConfigOk? && configPresent ==> configApiAccess == check.hasApiKey
      ensures check.ConfigThrew? ==> !apiAvailable
      ensures !(check.ConfigOk? && configPresent) ==> configApiAccess == old(configApiAccess)
      ensures check.ConfigNotOk? ==> apiAvailable == old(apiAvailable)
      ensures configPresent == old(configPresent) && isOpen == old(isOpen)
      ensures messages == old(messages) && conversationHistory == old(conversationHistory) && shown == old(shown)
      ensures isTyping == old(isTyping) && suggestionsVisible == old(suggestionsVisible)
    {
      match check
      case ConfigOk(hasApiKey) =>
        apiAvailable := hasApiKey;
        if configPresent {
          configApiAccess := apiAvailable;
        }
      case ConfigNotOk =>
      case ConfigThrew =>
        apiAvailable := false;
    }

    /** `toggleChatbot`: flips whether the window is open. */
    method ToggleChatbot()
      modifies this
      ensures isOpen == !old(isOpen)
      ensures Session() == old(Session())
    {
      if isOpen {
        CloseChatbot();
      } else {
        OpenChatbot();
      }
    }

    method OpenChatbot()
      modifies this
      ensures isOpen && Session() == old(Session())
    {
      isOpen := true;
    }

    method CloseChatbot()
      modifies this
      ensures !isOpen && Session() == old(Session())
    {
      isOpen := false;
    }

    /** `minimizeChatbot` is closing. */
    method MinimizeChatbot()
      modifies this
      ensures !isOpen && Session() == old(Session())
    {
      CloseChatbot();
    }

    /** `loadConversationHistory`: the stored history replaces the current one when there is one. */
    method LoadConversationHistory(saved: Option<seq<ChatEntry>>)
      modifies this
      ensures conversationHistory == if saved.Some? then saved.value else old(conversationHistory)
      ensures messages == old(messages) && shown == old(shown) && isOpen == old(isOpen)
      ensures UsesApi() == old(UsesApi()) && apiAvailable == old(apiAvailable)
      ensures isTyping == old(isTyping) && suggestionsVisible == old(suggestionsVisible)
      ensures configPresent == old(configPresent) && configApiAccess == old(configApiAccess)
    {
      if saved.Some? {
        conversationHistory := saved.value;
      }
    }

    /** `loadWelcomeMessage`: the welcome says whether the API is known to be available. */
    method LoadWelcomeMessage(now: int)
      modifies this
      ensures messages == old(messages) + [ChatEntry(Bot, Welcome(old(apiAvailable)), now)]
      ensures shown == old(shown) + [ChatEntry(Bot, Welcome(old(apiAvailable)), now)]
      ensures conversationHistory == old(conversationHistory) && isOpen == old(isOpen)
      ensures UsesApi() == old(UsesApi()) && apiAvailable == old(apiAvailable)
      ensures isTyping == old(isTyping) && suggestionsVisible == old(suggestionsVisible)
      ensures configPresent == old(configPresent) && configApiAccess == old(configApiAccess)
    {
      AddMessage(ChatEntry(Bot, Welcome(apiAvailable), now), true);
    }

    /** `addMessage`: the message is always shown, and kept in `messages` exactly when asked to. */
    method AddMessage(e: ChatEntry, saveToHistory: bool)
      modifies this
      ensures shown == old(shown) + [e]
      ensures messages == if saveToHistory then old(messages) + [e] else old(messages)
      ensures conversationHistory == old(conversationHistory) && isOpen == old(isOpen)
      ensures UsesApi() == old(UsesApi()) && apiAvailable == old(apiAvailable)
      ensures isTyping == old(isTyping) && suggestionsVisible == old(suggestionsVisible)
      ensures configPresent == old(configPresent) && configApiAccess == old(configApiAccess)
    {
      shown := shown + [e];
      if saveToHistory {
        messages := messages + [e];
      }
    }

    /** `saveMessage`: the history gains the entry, and never exceeds 50 entries afterwards. */
    method SaveMessage(e: ChatEntry)
      modifies this
      ensures conversationHistory == Saved(old(conversationHistory), e)
      ensures |conversationHistory| <= HistoryLimit
      ensures messages == old(messages) && shown == old(shown) && isOpen == old(isOpen)
      ensures UsesApi() == old(UsesApi()) && apiAvailable == old(apiAvailable)
      ensures isTyping == old(isTyping) && suggestionsVisible == old(suggestionsVisible)
      ensures configPresent == old(configPresent) && configApiAccess == old(configApiAccess)
    {
      conversationHistory := conversationHistory + [e];
      if |conversationHistory| > HistoryLimit {
        conversationHistory := JsSlice(conversationHistory, -(HistoryLimit as int), |conversationHistory|);
        SliceFromEndIsTakeLast(old(conversationHistory) + [e], HistoryLimit);
      }
    }

    /**
     * `restoreConversationMessages`: the user and bot entries among the last
     * ten of the history are shown again, without being added to `messages`.
     */
    method RestoreConversationMessages()
      modifies this
      ensures shown == old(shown) + Displayable(TakeLast(conversationHistory, RestoreCount))
      ensures messages == old(messages) && conversationHistory == old(conversationHistory)
      ensures isOpen == old(isOpen) && UsesApi() == old(UsesApi()) && apiAvailable == old(apiAvailable)
      ensures isTyping == old(isTyping) && suggestionsVisible == old(suggestionsVisible)
      ensures configPresent == old(configPresent) && configApiAccess == old(configApiAccess)
    {
      var recentMessages := JsSlice(conversationHistory, -(RestoreCount as int), |conversationHistory|);
      SliceFromEndIsTakeLast(conversationHistory, RestoreCount);
      ShowEntries(recentMessages);
    }

    /** The `forEach` of `restoreConversationMessages`: each user or bot entry is shown, in order. */
    method ShowEntries(entries: seq<ChatEntry>)
      modifies this
      ensures shown == old(shown) + Displayable(entries)
      ensures messages == old(messages) && conversationHistory == old(conversationHistory)
      ensures isOpen == old(isOpen) && UsesApi() == old(UsesApi()) && apiAvailable == old(apiAvailable)
      ensures isTyping == old(isTyping) && suggestionsVisible == old(suggestionsVisible)
      ensures configPresent == old(configPresent) && configApiAccess == old(configApiAccess)
    {
      var i := 0;
      while i < |entries|
        invariant 0 <= i <= |entries|
        invariant shown == old(shown) + Displayable(entries[..i])
        invariant messages == old(messages) && conversationHistory == old(conversationHistory)
        invariant isOpen == old(isOpen) && apiAvailable == old(apiAvailable)
        invariant isTyping == old(isTyping) && suggestionsVisible == old(suggestionsVisible)
        invariant configPresent == old(configPresent) && configApiAccess == old(configApiAccess)
      {
        var msg := entries[i];
        assert entries[..i + 1][..i] == entries[..i];
        assert Displayable(entries[..i + 1]) == Displayable(entries[..i]) + (if Shown(msg) then [msg] else []);
        AppendAssoc(old(shown), Displayable(entries[..i]), if Shown(msg) then [msg] else []);
        if msg.kind.User? || msg.kind.Bot? {
          AddMessage(msg, false);
        }
        i := i + 1;
      }
      assert entries[..i] == entries;
    }

    /** `hideSuggestions`: the suggestions are hidden only while no message has been added. */
    method HideSuggestions()
      modifies this
      ensures suggestionsVisible == (old(suggestionsVisible) && old(messages) != [])
      ensures messages == old(messages) && shown == old(shown) && conversationHistory == old(conversationHistory)
      ensures isOpen == old(isOpen) && UsesApi() == old(UsesApi()) && apiAvailable == old(apiAvailable)
      ensures isTyping == old(isTyping)
      ensures configPresent == old(configPresent) && configApiAccess == old(configApiAccess)
    {
      if messages == [] {
        suggestionsVisible := false;
      }
    }

    /**
     * `sendMessage`. The text is the suggestion's `messageText` when given,
     * else the trimmed input; a blank text changes nothing. The user's entry
     * is shown, kept and saved; then the reply is shown, kept and saved. When
     * producing the reply throws (`replyThrows`), the apology is shown and
     * kept in `messages` but never saved. The typing indicator is off again
     * in every case.
     */
    method SendMessage(messageText: Option<string>, input: string, outcome: ApiOutcome, replyThrows: bool, now: int)
      modifies this
      ensures var message := MessageText(messageText, input);
        && (message == "" ==>
          messages == old(messages) && conversationHistory == old(conversationHistory) && shown == old(shown))
        && (message != "" ==>
          var user := ChatEntry(User, Said(message), now);
          var reply := if replyThrows then TechnicalProblem else BotResponse(old(UsesApi()), outcome, message);
          var bot := ChatEntry(Bot, reply, now);
          && messages == old(messages) + [user] + [bot]
          && shown == old(shown) + [user] + [bot]
          && conversationHistory ==
            if replyThrows then Saved(old(conversationHistory), user)
            else Saved(Saved(old(conversationHistory), user), bot))
      ensures var message := MessageText(messageText, input);
        if message == "" then isTyping == old(isTyping) else !isTyping
      ensures var message := MessageText(messageText, input);
        suggestionsVisible == if message == "" then old(suggestionsVisible) else old(suggestionsVisible) && old(messages) != []
      ensures isOpen == old(isOpen) && apiAvailable == old(apiAvailable)
      ensures configPresent == old(configPresent) && configApiAccess == old(configApiAccess)
    {
      var message := MessageText(messageText, input);
      if message == "" {
        return;
      }
      SendText(message, outcome, replyThrows, now);
    }

    /** `sendMessage` once the text is known not to be blank. */
    method SendText(message: string, outcome: ApiOutcome, replyThrows: bool, now: int)
      modifies this
      ensures var user := ChatEntry(User, Said(message), now);
        var reply := if replyThrows then TechnicalProblem else BotResponse(old(UsesApi()), outcome, message);
        var bot := ChatEntry(Bot, reply, now);
        && messages == old(messages) + [user] + [bot]
        && shown == old(shown) + [user] + [bot]
        && conversationHistory ==
          if replyThrows then Saved(old(conversationHistory), user)
          else Saved(Saved(old(conversationHistory), user), bot)
      ensures !isTyping && suggestionsVisible == (old(suggestionsVisible) && old(messages) != [])
      ensures isOpen == old(isOpen) && apiAvailable == old(apiAvailable)
      ensures configPresent == old(configPresent) && configApiAccess == old(configApiAccess)
    {
      HideSuggestions();
      var userMessage := ChatEntry(User, Said(message), now);
      AddMessage(userMessage, true);
      SaveMessage(userMessage);
      isTyping := true;
      Reply(message, outcome, replyThrows, now);
    }

    /**
     * The second half of `sendMessage`: the reply (or, when producing it
     * throws, the apology) is shown and kept; only a real reply is saved.
     */
    method Reply(message: string, outcome: ApiOutcome, replyThrows: bool, now: int)
      modifies this
      ensures var bot := ChatEntry(Bot, if replyThrows then TechnicalProblem else BotResponse(old(UsesApi()), outcome, message), now);
        && messages == old(messages) + [bot]
        && shown == old(shown) + [bot]
        && conversationHistory == if replyThrows then old(conversationHistory) else Saved(old(conversationHistory), bot)
      ensures !isTyping && suggestionsVisible == old(suggestionsVisible)
      ensures isOpen == old(isOpen) && apiAvailable == old(apiAvailable)
      ensures configPresent == old(configPresent) && configApiAccess == old(configApiAccess)
    {
      if !replyThrows {
        var botResponse := BotResponse(UsesApi(), outcome, message);
        isTyping := false;
        var botMessage := ChatEntry(Bot, botResponse, now);
        AddMessage(botMessage, true);
        SaveMessage(botMessage);
      } else {
        isTyping := false;
        AddMessage(ChatEntry(Bot, TechnicalProblem, now), true);
      }
    }

    /** `clearHistory`: the history and the window are emptied and the welcome shown again. */
    method ClearHistory(now: int)
      modifies this
      ensures conversationHistory == []
      ensures shown == [ChatEntry(Bot, Welcome(old(apiAvailable)), now)]
      ensures messages == old(messages) + [ChatEntry(Bot, Welcome(old(apiAvailable)), now)]
      ensures suggestionsVisible && isOpen == old(isOpen) && isTyping == old(isTyping)
      ensures apiAvailable == old(apiAvailable)
      ensures configPresent == old(configPresent) && configApiAccess == old(configApiAccess)
    {
      conversationHistory := [];
      shown := [];
      LoadWelcomeMessage(now);
      suggestionsVisible := true;
    }
  }

  /** Saving keeps the history bounded whatever its length before, and keeps the newest entries. */
  lemma SavedKeepsNewest(h: seq<ChatEntry>, e: ChatEntry)
    ensures |Saved(h, e)| <= HistoryLimit
    ensures |h| < HistoryLimit ==> Saved(h, e) == h + [e]
    ensures Saved(h, e) == h[|h| + 1 - |Saved(h, e)|..] + [e]
  {
    var r := Saved(h, e);
    assert r == (h + [e])[|h| + 1 - |r|..];
    assert (h + [e])[|h| + 1 - |r|..] == h[|h| + 1 - |r|..] + [e];
  }

  /** A restored window shows at most ten messages, all of them user or bot entries from the history. */
  lemma RestoreBounded(h: seq<ChatEntry>)
    ensures |Displayable(TakeLast(h, RestoreCount))| <= RestoreCount
    ensures forall e | e in Displayable(TakeLast(h, RestoreCount)) :: e in h && Shown(e)
  {
  }

  /**
   * "experiencia" contains "ia", so the local responder answers it about AI,
   * and the experience test further down is never reached for it.
   */
  lemma ExperienciaGetsAI()
    ensures LocalResponse("experiencia") == AI
    ensures Fires("experiencia", LocalRules[5])
  {
    ToLowerOfLower("experiencia");
    ExperienciaSkipsEarlierRules();
    ExperienciaFiresAIRule();
    FirstRuleWins(LocalRules, "experiencia", 2);
    ExperienciaFiresExperienceRule();
  }

  /** The AI test holds for "experiencia": it ends in "ia". */
  lemma ExperienciaFiresAIRule()
    ensures Fires("experiencia", LocalRules[2])
  {
    FiresAt("experiencia", LocalRules[2], 0, 9);
  }

  /** The experience test holds for "experiencia" too: the whole message is its first keyword. */
  lemma ExperienciaFiresExperienceRule()
    ensures Fires("experiencia", LocalRules[5])
  {
    FiresAt("experiencia", LocalRules[5], 0, 0);
  }

  /** Neither the services nor the prices test holds for "experiencia". */
  lemma ExperienciaSkipsEarlierRules()
    ensures forall j | 0 <= j < 2 :: !Fires("experiencia", LocalRules[j])
  {
    var msg := "experiencia";
    assert !Fires(msg, LocalRules[0]) by { NotFiresBy(msg, LocalRules[0], [(0, 0), (0, 0), (0, 0)]); }
    assert !Fires(msg, LocalRules[1]) by { NotFiresBy(msg, LocalRules[1], [(0, 5), (0, 1), (0, 1), (0, 0)]); }
  }
}
