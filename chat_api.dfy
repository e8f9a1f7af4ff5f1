/**
 * The chat server's `/api/chat` route. A message is required. Without an
 * OpenAI key the keyword responder answers. Otherwise the prompt is the
 * fixed system instructions, then the last ten history entries the widget
 * sent (user entries as `user`, bot entries as `assistant`, others dropped),
 * then the message. A failed completion falls back to the keyword responder
 * too, and the answer says whether it is local.
 */
module ChatApi {
  import opened Wrappers
  import opened JsText
  import opened KeywordDispatch

  /** How many history entries, counted from the newest, go into the prompt. */
  const HistoryWindow: nat := 10
  const MissingMessage: string := "Mensaje requerido"

  /** A history entry as the widget sends it: its `type` and its `content`. */
  datatype HistoryEntry = HistoryEntry(kind: string, content: string)

  /** One message of the prompt: the fixed system instructions, or a turn with its role. */
  datatype PromptMessage = SystemPrompt | Turn(role: string, content: string)

  /** What the completion request did: answered ok with content, answered not ok, or threw. */
  datatype Completion = Completed(content: string) | NotOk | Threw

  /** What the route answers with: its canned topic or the model's text. */
  datatype Answer = Local(topic: Topic) | Generated(text: string)

  /** The route's JSON reply. */
  datatype ChatReply = BadRequest(error: string) | Reply(response: Answer, isLocal: bool)

  /** `getLocalResponse`'s tests, in order; `como` with `pongo` is one alternative. */
  const ApiRules: seq<Rule> := [
    Rule([["hola"], ["buenos"], ["buenas"], ["hey"]], Greeting),
    Rule([["servicio"], ["qué haces"], ["ofreces"]], Services),
    Rule([["precio"], ["cuesta"], ["coste"]], Prices),
    Rule([["contacto"], ["contactar"], ["como", "pongo"], ["email"], ["teléfono"]], Contact)]

  /** `getLocalResponse`. */
  function LocalResponse(message: string): Topic {
    Respond(ApiRules, message)
  }

  /** What one history entry contributes to the prompt. */
  function EntryTurns(e: HistoryEntry): (r: seq<PromptMessage>)
    ensures |r| <= 1
    ensures e.kind == "user" <==> r == [Turn("user", e.content)]
    ensures e.kind == "bot" <==> r == [Turn("assistant", e.content)]
  {
    if e.kind == "user" then [Turn("user", e.content)]
    else if e.kind == "bot" then [Turn("assistant", e.content)]
    else []
  }

  /** A conversational turn: a user or an assistant message. */
  predicate IsTurn(m: PromptMessage) {
    m.Turn? && m.role in {"user", "assistant"}
  }

  /** The history entries' turns, in the entries' order. */
  function Turns(entries: seq<HistoryEntry>): (r: seq<PromptMessage>)
    ensures |r| <= |entries|
    ensures forall k | 0 <= k < |r| :: IsTurn(r[k])
  {
    if entries == [] then []
    else Turns(entries[..|entries| - 1]) + EntryTurns(entries[|entries| - 1])
  }

  /** The entries the prompt draws on: the last ten of an array, none otherwise. */
  function Recent(history: Option<seq<HistoryEntry>>): (r: seq<HistoryEntry>)
    ensures |r| <= HistoryWindow
    ensures history.None? ==> r == []
    ensures history.Some? ==> |r| == if |history.value| <= HistoryWindow then |history.value| else HistoryWindow
    ensures history.Some? && |history.value| <= HistoryWindow ==> r == history.value
    ensures history.Some? ==> history.value == history.value[..|history.value| - |r|] + r
  {
    if history.None? then [] else TakeLast(history.value, HistoryWindow)
  }

  /** The prompt sent for a message and a history. */
  function Prompt(message: string, history: Option<seq<HistoryEntry>>): (p: seq<PromptMessage>)
    ensures 2 <= |p| <= HistoryWindow + 2
    ensures p[0] == SystemPrompt && p[|p| - 1] == Turn("user", message)
    ensures forall k | 0 < k < |p| :: IsTurn(p[k])
    ensures p[1..|p| - 1] == Turns(Recent(history))
  {
    [SystemPrompt] + Turns(Recent(history)) + [Turn("user", message)]
  }

  /** Turns of a concatenation are the turns of each part, in order. */
  lemma {:induction false} TurnsAppend(a: seq<HistoryEntry>, b: seq<HistoryEntry>)
    ensures Turns(a + b) == Turns(a) + Turns(b)
    decreases |b|
  {
    if b == [] {
      assert a + b == a;
    } else {
      var init := b[..|b| - 1];
      assert (a + b)[..|a + b| - 1] == a + init;
      TurnsAppend(a, init);
    }
  }

  /** When every entry is a user or bot entry, each one gives exactly one turn, at its own position. */
  lemma {:induction false} TurnsOfConversation(entries: seq<HistoryEntry>)
    requires forall k | 0 <= k < |entries| :: entries[k].kind in {"user", "bot"}
    ensures |Turns(entries)| == |entries|
    ensures forall k | 0 <= k < |entries| :: [Turns(entries)[k]] == EntryTurns(entries[k])
  {
    if entries != [] {
      var init := entries[..|entries| - 1];
      TurnsOfConversation(init);
      assert |EntryTurns(entries[|entries| - 1])| == 1;
    }
  }

  /** Entries that are neither user nor bot entries give no turns at all. */
  lemma {:induction false} TurnsOfOthers(entries: seq<HistoryEntry>)
    requires forall k | 0 <= k < |entries| :: entries[k].kind !in {"user", "bot"}
    ensures Turns(entries) == []
  {
    if entries != [] {
      TurnsOfOthers(entries[..|entries| - 1]);
    }
  }

  /** Entries older than the last ten never reach the prompt. */
  lemma OlderHistoryIgnored(message: string, older: seq<HistoryEntry>, newer: seq<HistoryEntry>)
    requires |newer| >= HistoryWindow
    ensures Prompt(message, Some(older + newer)) == Prompt(message, Some(newer))
  {
    assert (older + newer)[|older + newer| - HistoryWindow..] == newer[|newer| - HistoryWindow..];
  }

  /** The `forEach` that builds the prompt. */
  method BuildPrompt(message: string, history: Option<seq<HistoryEntry>>) returns (messages: seq<PromptMessage>)
    ensures messages == Prompt(message, history)
  {
    messages := [SystemPrompt];
    if history.Some? {
      var recentHistory := TakeLast(history.value, HistoryWindow);
      messages := AddTurns(messages, recentHistory);
    }
    messages := messages + [Turn("user", message)];
  }

  /** The loop body of the `forEach`: each entry's turn, if any, pushed onto the prompt. */
  method AddTurns(prompt: seq<PromptMessage>, entries: seq<HistoryEntry>) returns (messages: seq<PromptMessage>)
    ensures messages == prompt + Turns(entries)
  {
    messages := prompt;
    var i := 0;
    while i < |entries|
      invariant 0 <= i <= |entries|
      invariant messages == prompt + Turns(entries[..i])
    {
      var msg := entries[i];
      assert entries[..i + 1][..i] == entries[..i];
      assert Turns(entries[..i + 1]) == Turns(entries[..i]) + EntryTurns(msg);
      AppendAssoc(prompt, Turns(entries[..i]), EntryTurns(msg));
      if msg.kind == "user" {
        messages := messages + [Turn("user", msg.content)];
      } else if msg.kind == "bot" {
        messages := messages + [Turn("assistant", msg.content)];
      }
      i := i + 1;
    }
    assert entries[..i] == entries;
  }

  /**
   * `POST /api/chat`. Returns the reply and the prompt sent, if one was.
   * Only a completed request gives a non-local answer; every other path
   * after the message check answers with the keyword responder.
   */
  method HandleChat(message: Option<string>, history: Option<seq<HistoryEntry>>, hasApiKey: bool,
      completion: Completion)
    returns (reply: ChatReply, sent: Option<seq<PromptMessage>>)
    ensures !Truthy(message) ==> reply == BadRequest(MissingMessage) && sent.None?
    ensures Truthy(message) ==> reply.Reply?
    ensures sent.Some? <==> Truthy(message) && hasApiKey
    ensures sent.Some? ==> sent.value == Prompt(message.value, history)
    ensures reply.Reply? && !reply.isLocal <==> Truthy(message) && hasApiKey && completion.Completed?
    ensures reply.Reply? && !reply.isLocal ==> reply.response == Generated(completion.content)
    ensures reply.Reply? && reply.isLocal ==> reply.response == Local(LocalResponse(message.value))
  {
    if !Truthy(message) {
      return BadRequest(MissingMessage), None;
    }
    if !hasApiKey {
      return Reply(Local(LocalResponse(message.value)), true), None;
    }
    var messages := BuildPrompt(message.value, history);
    sent := Some(messages);
    match completion
    case Completed(content) =>
      reply := Reply(Generated(content), false);
    case _ =>
      reply := Reply(Local(LocalResponse(message.value)), true);
  }

  /** `&&` binds tighter than `||`: "como" alone is not a contact question, and gets the default answer. */
  lemma ComoAloneIsFallback()
    ensures LocalResponse("como") == Fallback
  {
    ToLowerOfLower("como");
    ComoSkipsFirstRules();
    ComoSkipsContactRule();
  }

  /** Neither the greeting, the services nor the prices test holds for "como". */
  lemma ComoSkipsFirstRules()
    ensures forall j | 0 <= j < 3 :: !Fires("como", ApiRules[j])
  {
    var msg := "como";
    assert !Fires(msg, ApiRules[0]) by { NotFiresBy(msg, ApiRules[0], [(0, 0), (0, 0), (0, 0), (0, 0)]); }
    assert !Fires(msg, ApiRules[1]) by { NotFiresBy(msg, ApiRules[1], [(0, 0), (0, 0), (0, 1)]); }
    assert !Fires(msg, ApiRules[2]) by { NotFiresBy(msg, ApiRules[2], [(0, 0), (0, 1), (0, 2)]); }
  }

  /** The contact test needs "pongo" besides "como", so it does not hold for "como" alone. */
  lemma ComoSkipsContactRule()
    ensures !Fires("como", ApiRules[3])
  {
    NotFiresBy("como", ApiRules[3], [(0, 2), (0, 2), (1, 0), (0, 0), (0, 0)]);
  }

  /** With no AI test in this responder, "email" is a contact question here. */
  lemma EmailIsContact()
    ensures LocalResponse("email") == Contact
  {
    ToLowerOfLower("email");
    EmailSkipsFirstRules();
    EmailFiresContactRule();
    FirstRuleWins(ApiRules, "email", 3);
  }

  /** Neither the greeting, the services nor the prices test holds for "email". */
  lemma EmailSkipsFirstRules()
    ensures forall j | 0 <= j < 3 :: !Fires("email", ApiRules[j])
  {
    var msg := "email";
    assert !Fires(msg, ApiRules[0]) by { NotFiresBy(msg, ApiRules[0], [(0, 0), (0, 0), (0, 0), (0, 0)]); }
    assert !Fires(msg, ApiRules[1]) by { NotFiresBy(msg, ApiRules[1], [(0, 0), (0, 0), (0, 1)]); }
    assert !Fires(msg, ApiRules[2]) by { NotFiresBy(msg, ApiRules[2], [(0, 0), (0, 0), (0, 2)]); }
  }

  /** The contact test holds for "email": the whole message is one of its keywords. */
  lemma EmailFiresContactRule()
    ensures Fires("email", ApiRules[3])
  {
    FiresAt("email", ApiRules[3], 3, 0);
  }
}
