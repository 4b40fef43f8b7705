/** Authorizations and their settlement: src/payments/eip3009.py and src/payments/facilitator.py. */
module Payments {
  import opened Options
  import opened Decimals

  datatype Token = Token(chainId: nat, contract: string, network: string)

  datatype Authorization = Authorization(
    sender: string, recipient: string, value: int, validAfter: int, validBefore: int, nonce: string)

  /** A decoded payload: the signer is whoever the signature recovers to, if it does. Addresses are
      checksummed and the nonce is its 64 hexadecimal digits. */
  datatype Payload = Payload(network: Option<string>, auth: Authorization, signer: Option<string>)

  // ---- verification --------------------------------------------------------

  /** Signed by its payer and made out to us, on our network, for at least the price. */
  predicate Genuine(p: Payload, token: Token, payTo: string, price: int) {
    && (p.network.None? || p.network.value == token.network)
    && p.auth.recipient == payTo
    && p.auth.value >= price
    && p.signer == Some(p.auth.sender)
  }

  /** What verify_payment accepts of a payload that decodes. */
  predicate Acceptable(p: Payload, token: Token, payTo: string, price: int, now: int, skew: int) {
    Genuine(p, token, payTo, price) && p.auth.validBefore > now - skew && p.auth.validAfter <= now + skew
  }

  // ---- identity ------------------------------------------------------------

  /** ":".join(...) of chain, contract, payer and nonce. */
  function ReplayKey(a: Authorization, token: Token): string {
    Digits(token.chainId) + ":" + token.contract + ":" + a.sender + ":" + "0x" + a.nonce
  }

  lemma Regrouped(chain: string, contract: string, sender: string, nonce: string)
    ensures chain + ":" + contract + ":" + sender + ":" + "0x" + nonce
         == chain + ":" + (contract + ":" + (sender + ":" + ("0x" + nonce)))
  {
  }

  /** The key identifies an authorization the way EIP-3009 does: chain, token contract, payer and
      nonce, no more and no less. */
  lemma ReplayKeyIdentifies(a: Authorization, t: Token, b: Authorization, u: Token)
    requires ':' !in t.contract && ':' !in u.contract && ':' !in a.sender && ':' !in b.sender
    ensures ReplayKey(a, t) == ReplayKey(b, u) <==>
            t.chainId == u.chainId && t.contract == u.contract && a.sender == b.sender && a.nonce == b.nonce
  {
    if ReplayKey(a, t) == ReplayKey(b, u) {
      DigitsRoundTrip(t.chainId);
      DigitsRoundTrip(u.chainId);
      assert ':' !in Digits(t.chainId) && ':' !in Digits(u.chainId);
      Regrouped(Digits(t.chainId), t.contract, a.sender, a.nonce);
      Regrouped(Digits(u.chainId), u.contract, b.sender, b.nonce);
      var (x, y) := (a.sender + ":" + ("0x" + a.nonce), b.sender + ":" + ("0x" + b.nonce));
      SplitAtColon(Digits(t.chainId), Digits(u.chainId), t.contract + ":" + x, u.contract + ":" + y);
      SplitAtColon(t.contract, u.contract, x, y);
      SplitAtColon(a.sender, b.sender, "0x" + a.nonce, "0x" + b.nonce);
      assert a.nonce == ("0x" + a.nonce)[2..] && b.nonce == ("0x" + b.nonce)[2..];
    }
  }

  // ---- settlement ----------------------------------------------------------

  datatype Success = Yes | No | Unsaid  // literally true, literally false, anything else

  datatype Body = Unreadable | NotObject | Object(success: Success, transaction: Option<string>, error: Option<string>)

  /** What one POST to /settle comes back with. */
  datatype Outcome = Timeout | Transport | Response(status: nat, body: Body)

  datatype Reason = NoReason | TimedOut | TransportFailed | Broke(status: nat) | NotReadable | NotAnObject
                  | Refused(error: Option<string>) | Undecided | NothingTried

  datatype Settlement = Settlement(settled: bool, unknown: bool, transaction: Option<string>, reason: Reason) {
    predicate Ok() { settled && !unknown }
  }

  const NOTHING_DONE := Settlement(false, true, None, NothingTried)

  function Read(status: nat, body: Body): Settlement {
    if status >= 500 then Settlement(false, true, None, Broke(status))
    else if body.Unreadable? then Settlement(false, true, None, NotReadable)
    else if body.NotObject? then Settlement(false, true, None, NotAnObject)
    else if status >= 400 then Settlement(false, false, None, Refused(body.error))
    else match body.success
      case Yes => Settlement(true, false, body.transaction, NoReason)
      case No => Settlement(false, false, None, Refused(body.error))
      case Unsaid => Settlement(false, true, None, Undecided)
  }

  function Verdict(o: Outcome): Settlement {
    match o
    case Timeout => Settlement(false, true, None, TimedOut)
    case Transport => Settlement(false, true, None, TransportFailed)
    case Response(status, body) => Read(status, body)
  }

  /** An answer that settles the question: settled, or definitively refused. */
  predicate Decisive(o: Outcome) { !Verdict(o).unknown }

  /** An explicit statement of success. */
  predicate SaysPaid(o: Outcome) {
    o.Response? && o.status < 400 && o.body.Object? && o.body.success.Yes?
  }

  /** The verdict read off a facilitator: paid only on its explicit word, refused only on a decisive
      answer that is not that word. */
  lemma VerdictMeans(o: Outcome)
    ensures Verdict(o).Ok() <==> SaysPaid(o)
    ensures Verdict(o).settled ==> !Verdict(o).unknown
    ensures Decisive(o) <==> SaysPaid(o) || (o.Response? && o.body.Object? && o.status < 500
                                             && (o.status >= 400 || o.body.success.No?))
  {
  }

  /** The settle loop. The facilitator answers the k-th POST with outcomes[k]. */
  method Settle(outcomes: nat -> Outcome, retries: int) returns (r: Settlement, posts: nat)
    ensures posts <= (if retries < 0 then 0 else retries + 1)
    ensures forall k :: 0 <= k < posts - 1 ==> !Decisive(outcomes(k))
    ensures posts > 0 ==> r == Verdict(outcomes(posts - 1))
    ensures posts < retries + 1 ==> posts > 0 && Decisive(outcomes(posts - 1))
    ensures retries < 0 ==> r == NOTHING_DONE
  {
    var last: Option<Settlement> := None;
    posts := 0;
    while posts < retries + 1
      invariant posts <= (if retries < 0 then 0 else retries + 1)
      invariant forall k :: 0 <= k < posts ==> !Decisive(outcomes(k))
      invariant last == if posts == 0 then None else Some(Verdict(outcomes(posts - 1)))
    {
      var o := outcomes(posts);
      posts := posts + 1;
      match o {
        case Timeout =>
          last := Some(Settlement(false, true, None, TimedOut));
        case Transport =>
          last := Some(Settlement(false, true, None, TransportFailed));
        case Response(status, body) =>
          var result := Read(status, body);
          if result.Ok() || !result.unknown { return result, posts; }
          last := Some(result);
      }
    }
    return if last.Some? then last.value else NOTHING_DONE, posts;
  }

  /** The first decisive outcome among the first n, or the last one. */
  function FirstDecisive(outcomes: nat -> Outcome, n: nat, k: nat): nat
    requires k < n
    decreases n - k
  {
    if Decisive(outcomes(k)) || k == n - 1 then k else FirstDecisive(outcomes, n, k + 1)
  }

  /** What the loop's contract pins down: there is one result it can return. */
  lemma SettleIsDetermined(outcomes: nat -> Outcome, retries: nat, posts: nat)
    requires 0 < posts <= retries + 1
    requires forall k :: 0 <= k < posts - 1 ==> !Decisive(outcomes(k))
    requires posts < retries + 1 ==> Decisive(outcomes(posts - 1))
    ensures posts - 1 == FirstDecisive(outcomes, retries + 1, 0)
  {
    DecisiveFrom(outcomes, retries, posts, 0);
  }

  lemma {:induction false} DecisiveFrom(outcomes: nat -> Outcome, retries: nat, posts: nat, k: nat)
    requires k < posts <= retries + 1
    requires forall i :: k <= i < posts - 1 ==> !Decisive(outcomes(i))
    requires posts < retries + 1 ==> Decisive(outcomes(posts - 1))
    ensures posts - 1 == FirstDecisive(outcomes, retries + 1, k)
    decreases posts - k
  {
    if k < posts - 1 { DecisiveFrom(outcomes, retries, posts, k + 1); }
  }

  // ---- the chain -----------------------------------------------------------

  /** Nonces used per (contract, payer), and what the recipient has received. */
  datatype Ledger = Ledger(used: set<(string, string, string)>, received: int)

  function NonceOf(t: Token, a: Authorization): (string, string, string) { (t.contract, a.sender, a.nonce) }

  /** transferWithAuthorization: a used nonce reverts. */
  function Submit(l: Ledger, t: Token, a: Authorization): Ledger {
    if NonceOf(t, a) in l.used then l else Ledger(l.used + {NonceOf(t, a)}, l.received + a.value)
  }

  /** Some of the POSTs reach the chain, answered or not. */
  function SubmitSome(l: Ledger, t: Token, a: Authorization, reached: seq<bool>): Ledger
    decreases |reached|
  {
    if reached == [] then l
    else SubmitSome(if reached[0] then Submit(l, t, a) else l, t, a, reached[1..])
  }

  /** Retrying is safe: however many attempts reach the chain, the money moves once if any of them
      does and the authorization was unused, and not at all otherwise. */
  lemma {:induction false} RetriesPayOnce(l: Ledger, t: Token, a: Authorization, reached: seq<bool>)
    ensures SubmitSome(l, t, a, reached) == if true in reached then Submit(l, t, a) else l
    decreases |reached|
  {
    if reached != [] {
      assert reached == [reached[0]] + reached[1..];
      RetriesPayOnce(if reached[0] then Submit(l, t, a) else l, t, a, reached[1..]);
    }
  }

  /** If the facilitator says paid only when its transfer is on the chain, a settlement the loop
      reports as done has moved the money exactly once, and a definite refusal or an unknown outcome
      at most once. */
  lemma SettledMeansPaid(l: Ledger, t: Token, a: Authorization, outcomes: nat -> Outcome, reached: seq<bool>, r: Settlement)
    requires NonceOf(t, a) !in l.used && |reached| > 0
    requires r == Verdict(outcomes(|reached| - 1))
    requires forall k :: 0 <= k < |reached| && SaysPaid(outcomes(k)) ==> true in reached[..k + 1]
    ensures r.Ok() ==> SubmitSome(l, t, a, reached).received == l.received + a.value
    ensures SubmitSome(l, t, a, reached).received == l.received
         || SubmitSome(l, t, a, reached).received == l.received + a.value
  {
    RetriesPayOnce(l, t, a, reached);
    VerdictMeans(outcomes(|reached| - 1));
    assert reached[..|reached|] == reached;
  }
}
