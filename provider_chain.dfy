/**
 * The fallback rule shared by the e-mail services: providers are tried in a
 * fixed order, skipping those not configured, and the first that accepts the
 * message ends the chain. What each provider would do is an input.
 */
module ProviderChain {
  import opened Wrappers

  /** The mail providers the services know, in the order they are tried. */
  datatype Provider = SendGrid | Mailgun | Gmail

  /** Whether each provider would accept the message if it were tried. */
  datatype Outcomes = Outcomes(sendgrid: bool, mailgun: bool, gmail: bool)

  function Works(o: Outcomes, p: Provider): bool {
    match p
    case SendGrid => o.sendgrid
    case Mailgun => o.mailgun
    case Gmail => o.gmail
  }

  /** The providers tried: the order up to and including the first one that works. */
  function Attempts(order: seq<Provider>, o: Outcomes): (tried: seq<Provider>)
    ensures tried <= order
    ensures forall k | 0 <= k < |tried| - 1 :: !Works(o, tried[k])
    ensures |tried| < |order| ==> tried != [] && Works(o, tried[|tried| - 1])
  {
    if order == [] then []
    else if Works(o, order[0]) then [order[0]]
    else [order[0]] + Attempts(order[1..], o)
  }

  /** The provider that delivers the message: the first in `order` that works, if any. */
  function Winner(order: seq<Provider>, o: Outcomes): (w: Option<Provider>)
    ensures w.Some? <==> exists k | 0 <= k < |order| :: Works(o, order[k])
    ensures w.Some? ==> w.value in order && Works(o, w.value)
  {
    if order == [] then None
    else if Works(o, order[0]) then Some(order[0])
    else
      var w := Winner(order[1..], o);
      assert forall k | 1 <= k < |order| :: order[k] == order[1..][k - 1];
      w
  }

  /**
   * The chain ends at the winner: when there is one it is the last provider
   * tried, and when there is none every provider was tried.
   */
  lemma {:induction false} WinnerEndsAttempts(order: seq<Provider>, o: Outcomes)
    ensures var tried := Attempts(order, o);
      && (Winner(order, o).Some? ==> tried != [] && tried[|tried| - 1] == Winner(order, o).value)
      && (Winner(order, o).None? ==> tried == order)
  {
    if order != [] && !Works(o, order[0]) {
      WinnerEndsAttempts(order[1..], o);
    }
  }

  /** Trying a chain is trying its head, then, only if the head refuses, the rest. */
  lemma AttemptsCons(p: Provider, rest: seq<Provider>, o: Outcomes)
    ensures Attempts([p] + rest, o) == [p] + (if Works(o, p) then [] else Attempts(rest, o))
    ensures Winner([p] + rest, o) == if Works(o, p) then Some(p) else Winner(rest, o)
  {
    assert ([p] + rest)[1..] == rest;
  }

  /** The configured providers, in the order they are tried. */
  function ChainOrder(sendgrid: bool, mailgun: bool, gmail: bool): (order: seq<Provider>)
    ensures SendGrid in order <==> sendgrid
    ensures Mailgun in order <==> mailgun
    ensures Gmail in order <==> gmail
  {
    (if sendgrid then [SendGrid] else []) + (if mailgun then [Mailgun] else []) + (if gmail then [Gmail] else [])
  }

  /** The configured providers keep the fixed order SendGrid, Mailgun, Gmail. */
  lemma ChainOrderRanked(sendgrid: bool, mailgun: bool, gmail: bool)
    ensures var order := ChainOrder(sendgrid, mailgun, gmail);
      forall i, j | 0 <= i < j < |order| :: Rank(order[i]) < Rank(order[j])
  {
  }

  /** The chain is its first configured provider, if any, followed by the chain of the later ones. */
  lemma ChainOrderSplit(sendgrid: bool, mailgun: bool, gmail: bool)
    ensures ChainOrder(sendgrid, mailgun, gmail) ==
      (if sendgrid then [SendGrid] + ChainOrder(false, mailgun, gmail) else ChainOrder(false, mailgun, gmail))
    ensures ChainOrder(false, mailgun, gmail) ==
      (if mailgun then [Mailgun] + ChainOrder(false, false, gmail) else ChainOrder(false, false, gmail))
    ensures ChainOrder(false, false, gmail) == if gmail then [Gmail] else []
  {
  }

  /** A provider's position in the fixed chain. */
  function Rank(p: Provider): nat {
    match p
    case SendGrid => 0
    case Mailgun => 1
    case Gmail => 2
  }

  /** Whatever follows it, a working, configured SendGrid is the only provider tried. */
  lemma SendGridWins(mailgun: bool, gmail: bool, o: Outcomes)
    requires o.sendgrid
    ensures Attempts(ChainOrder(true, mailgun, gmail), o) == [SendGrid]
    ensures Winner(ChainOrder(true, mailgun, gmail), o) == Some(SendGrid)
  {
    ChainOrderSplit(true, mailgun, gmail);
    AttemptsCons(SendGrid, ChainOrder(false, mailgun, gmail), o);
  }

  /** A working Mailgun is reached only after a failed SendGrid, and ends the chain. */
  lemma MailgunWins(sendgrid: bool, gmail: bool, o: Outcomes)
    requires sendgrid ==> !o.sendgrid
    requires o.mailgun
    ensures Attempts(ChainOrder(sendgrid, true, gmail), o) == (if sendgrid then [SendGrid] else []) + [Mailgun]
    ensures Winner(ChainOrder(sendgrid, true, gmail), o) == Some(Mailgun)
  {
    ChainOrderSplit(sendgrid, true, gmail);
    var rest := ChainOrder(false, false, gmail);
    AttemptsCons(Mailgun, rest, o);
    if sendgrid {
      AttemptsCons(SendGrid, [Mailgun] + rest, o);
    }
  }

  /** When neither SendGrid nor Mailgun delivers, the chain is decided by Gmail alone. */
  lemma ChainFails(sendgrid: bool, mailgun: bool, gmail: bool, o: Outcomes)
    requires sendgrid ==> !o.sendgrid
    requires mailgun ==> !o.mailgun
    ensures var before := (if sendgrid then [SendGrid] else []) + (if mailgun then [Mailgun] else []);
      && Attempts(ChainOrder(sendgrid, mailgun, gmail), o) == before + (if gmail then [Gmail] else [])
      && Winner(ChainOrder(sendgrid, mailgun, gmail), o) == if gmail && o.gmail then Some(Gmail) else None
  {
    ChainOrderSplit(sendgrid, mailgun, gmail);
    var last := ChainOrder(false, false, gmail);
    if gmail {
      AttemptsCons(Gmail, [], o);
    }
    var mid := ChainOrder(false, mailgun, gmail);
    if mailgun {
      AttemptsCons(Mailgun, last, o);
    }
    if sendgrid {
      AttemptsCons(SendGrid, mid, o);
    }
  }
}
