/**
 * The site's three local chat responders share one shape: lower-case the
 * message, then walk a list of `if (msg.includes(..) || ...)` tests and
 * answer with the first one that holds, or with a default. A rule here is
 * such a test written as a disjunction of conjunctions of keywords, which is
 * how JavaScript reads `a || b && c || d` (`&&` binds tighter than `||`).
 * The answers are long fixed texts; the model keeps only what each is about.
 */
module KeywordDispatch {
  import opened Wrappers
  import opened JsText

  /** What a canned answer is about. */
  datatype Topic = Greeting | Services | Prices | AI | Contact | Portfolio | Experience | Fallback

  /** One test of a responder: it holds when every keyword of some alternative occurs. */
  datatype Rule = Rule(alternatives: seq<seq<string>>, topic: Topic)

  /** Every keyword of the alternative occurs in the message. */
  predicate AltHolds(msg: string, alt: seq<string>) {
    forall k | 0 <= k < |alt| :: Contains(msg, alt[k])
  }

  /** The rule's condition holds for the message. */
  predicate Fires(msg: string, r: Rule) {
    exists j | 0 <= j < |r.alternatives| :: AltHolds(msg, r.alternatives[j])
  }

  /** The position of the first rule whose condition holds, if any. */
  function FirstMatch(rules: seq<Rule>, msg: string): (r: Option<nat>)
    ensures r.Some? ==> r.value < |rules| && Fires(msg, rules[r.value])
    ensures r.Some? ==> forall k | 0 <= k < r.value :: !Fires(msg, rules[k])
    ensures r.None? ==> forall k | 0 <= k < |rules| :: !Fires(msg, rules[k])
  {
    if rules == [] then None
    else if Fires(msg, rules[0]) then Some(0)
    else match FirstMatch(rules[1..], msg)
      case None => None
      case Some(k) => Some(k + 1)
  }

  /** A responder: the topic of the first rule that holds for the lower-cased message, else the default. */
  function Respond(rules: seq<Rule>, message: string): (t: Topic)
    ensures (forall k | 0 <= k < |rules| :: !Fires(ToLower(message), rules[k])) ==> t == Fallback
    ensures forall k | 0 <= k < |rules| && Fires(ToLower(message), rules[k]) ::
      exists j | 0 <= j <= k :: t == rules[j].topic && Fires(ToLower(message), rules[j])
  {
    match FirstMatch(rules, ToLower(message))
    case None => Fallback
    case Some(k) => rules[k].topic
  }

  /** The rule that holds first decides the answer, whatever later rules would say. */
  lemma FirstRuleWins(rules: seq<Rule>, message: string, k: nat)
    requires k < |rules| && Fires(ToLower(message), rules[k])
    requires forall j | 0 <= j < k :: !Fires(ToLower(message), rules[j])
    ensures Respond(rules, message) == rules[k].topic
  {
    var m := FirstMatch(rules, ToLower(message));
    assert m.Some? && m.value == k;
  }

  /** A keyword holding a character the message lacks does not occur in it. */
  lemma MissingCharNotContained(s: string, sub: string, j: nat)
    requires j < |sub| && sub[j] !in s
    ensures !Contains(s, sub)
  {
    forall i | 0 <= i <= |s| - |sub|
      ensures !OccursAt(s, sub, i)
    {
      assert s[i..i + |sub|][j] == s[i + j] && s[i + j] in s;
    }
  }

  /**
   * A rule does not hold when each alternative has a keyword with a
   * character the message lacks; `missing[a]` names that keyword of
   * alternative `a` and the character's position in it.
   */
  lemma NotFiresBy(msg: string, r: Rule, missing: seq<(nat, nat)>)
    requires |missing| == |r.alternatives|
    requires forall a | 0 <= a < |r.alternatives| ::
      missing[a].0 < |r.alternatives[a]| && missing[a].1 < |r.alternatives[a][missing[a].0]|
      && r.alternatives[a][missing[a].0][missing[a].1] !in msg
    ensures !Fires(msg, r)
  {
    forall a | 0 <= a < |r.alternatives|
      ensures !AltHolds(msg, r.alternatives[a])
    {
      MissingCharNotContained(msg, r.alternatives[a][missing[a].0], missing[a].1);
    }
  }

  /** A rule holds when one keyword of a single-keyword alternative occurs at a known place. */
  lemma FiresAt(msg: string, r: Rule, a: nat, i: nat)
    requires a < |r.alternatives| && |r.alternatives[a]| == 1
    requires i + |r.alternatives[a][0]| <= |msg| && msg[i..i + |r.alternatives[a][0]|] == r.alternatives[a][0]
    ensures Fires(msg, r)
  {
    ContainsAt(msg, r.alternatives[a][0], i);
    assert AltHolds(msg, r.alternatives[a]);
  }
}
