/** Runs of the accept protocol, with its books, that show what a paid job can come to and what the
    nonce store forgets. */
module PurchaseGaps {
  import opened Clocks
  import opened Options
  import opened Payments
  import opened Accepting
  import opened Purchases
  import B = BuildProtocol
  import Jobs
  import Nonces

  lemma {:induction false} TraceIsRunAll(c: Config, worlds: seq<World>, steps: seq<(Step, bool)>)
    requires |worlds| == |steps| + 1
    requires forall i :: 0 <= i < |steps| ==> worlds[i + 1] == Next(c, worlds[i], steps[i].0, steps[i].1)
    ensures RunAll(c, worlds[0], steps) == worlds[|steps|]
    decreases |steps|
  {
    if steps != [] { TraceIsRunAll(c, worlds[1..], steps[1..]); }
  }

  lemma {:induction false} RunAllAppend(c: Config, w: World, a: seq<(Step, bool)>, b: seq<(Step, bool)>)
    ensures RunAll(c, w, a + b) == RunAll(c, RunAll(c, w, a), b)
    decreases |a|
  {
    if a == [] {
      assert a + b == b;
    } else {
      assert (a + b)[1..] == a[1..] + b;
      RunAllAppend(c, Next(c, w, a[0].0, a[0].1), a[1..], b);
    }
  }

  // ---- a request that pays at once -----------------------------------------

  function Claims(r: nat, p: Payload): seq<(Step, bool)> {
    [(Arrive, false), (Verify(r, p), false)] + [(ReadClock(r), false), (SetNx(r), false)]
  }

  /** The facilitator says paid; `reached` tells whether a transfer was submitted. */
  function Buys(r: nat, result: Settlement, reached: bool, id: Id, prd: string): seq<(Step, bool)> {
    [(Settle(r, result), reached), (SaveJob(r, id, prd), false)]
  }

  /** The claim a new request would make on the spot. */
  function ClaimNow(c: Config, s: State, p: Payload): Nonces.RedisClaim {
    Nonces.RedisClaim(AuthOf(c, p.auth).key, p.auth.validBefore, s.now, s.now)
  }

  /** A request arriving now passes every check and wins its claim. */
  predicate CanClaim(c: Config, s: State, p: Payload) {
    && Acceptable(p, c.token, c.payTo, c.price, Truncate(s.now), c.skew)
    && Nonces.RedisGranted(s.keys, ClaimNow(c, s, p))
  }

  lemma AfterVerifying(c: Config, w: World, p: Payload)
    requires Acceptable(p, c.token, c.payTo, c.price, Truncate(w.s.now), c.skew)
    ensures var r := |w.s.requests|;
      RunAll(c, w, [(Arrive, false), (Verify(r, p), false)])
      == World(w.s.(requests := w.s.requests + [Verified(AuthOf(c, p.auth))]), w.books.(shown := w.books.shown[r := p]))
  {
    var r := |w.s.requests|;
    var w1 := Next(c, w, Arrive, false);
    assert w1 == World(w.s.(requests := w.s.requests + [Arrived]), w.books);
    var w2 := Next(c, w1, Verify(r, p), false);
    assert w2.s.requests == w.s.requests + [Verified(AuthOf(c, p.auth))];
    TraceIsRunAll(c, [w, w1, w2], [(Arrive, false), (Verify(r, p), false)]);
  }

  lemma AfterWinning(c: Config, w: World, before: seq<Request>, p: Payload)
    requires w.s.requests == before + [Verified(AuthOf(c, p.auth))] && Nonces.RedisGranted(w.s.keys, ClaimNow(c, w.s, p))
    ensures var (r, auth) := (|before|, AuthOf(c, p.auth));
      RunAll(c, w, [(ReadClock(r), false), (SetNx(r), false)])
      == World(w.s.(requests := before + [Claimed(auth)], keys := Nonces.RedisAfter(w.s.keys, ClaimNow(c, w.s, p), c.grace),
                    wins := w.s.wins[auth := w.s.wins[auth] + 1]), w.books)
  {
    var (r, auth) := (|before|, AuthOf(c, p.auth));
    var w1 := Next(c, w, ReadClock(r), false);
    assert w1 == World(w.s.(requests := before + [Clocked(auth, w.s.now)]), w.books);
    AfterSetting(c, w1, before, p);
    TraceIsRunAll(c, [w, w1, Next(c, w1, SetNx(r), false)], [(ReadClock(r), false), (SetNx(r), false)]);
  }

  lemma AfterSetting(c: Config, w: World, before: seq<Request>, p: Payload)
    requires w.s.requests == before + [Clocked(AuthOf(c, p.auth), w.s.now)]
    requires Nonces.RedisGranted(w.s.keys, ClaimNow(c, w.s, p))
    ensures var (r, auth) := (|before|, AuthOf(c, p.auth));
      Next(c, w, SetNx(r), false)
      == World(w.s.(requests := before + [Claimed(auth)], keys := Nonces.RedisAfter(w.s.keys, ClaimNow(c, w.s, p), c.grace),
                    wins := w.s.wins[auth := w.s.wins[auth] + 1]), w.books)
  {
    var (r, t) := (|before|, Next(c, w, SetNx(|before|), false));
    assert t.s == DoSetNx(c, w.s, r) && ClaimOf(w.s, r) == ClaimNow(c, w.s, p);
    assert t.s.requests == before + [Claimed(AuthOf(c, p.auth))];
  }

  lemma AfterClaiming(c: Config, w: World, p: Payload)
    requires CanClaim(c, w.s, p)
    ensures var (r, auth) := (|w.s.requests|, AuthOf(c, p.auth));
      RunAll(c, w, Claims(r, p))
      == World(w.s.(requests := w.s.requests + [Claimed(auth)], keys := Nonces.RedisAfter(w.s.keys, ClaimNow(c, w.s, p), c.grace),
                    wins := w.s.wins[auth := w.s.wins[auth] + 1]), w.books.(shown := w.books.shown[r := p]))
  {
    var r := |w.s.requests|;
    var verifying := [(Arrive, false), (Verify(r, p), false)];
    AfterVerifying(c, w, p);
    AfterWinning(c, RunAll(c, w, verifying), w.s.requests, p);
    RunAllAppend(c, w, verifying, [(ReadClock(r), false), (SetNx(r), false)]);
  }

  /** Request r has claimed, and the world is otherwise as `w` was before. */
  lemma AfterBuying(c: Config, w: World, before: seq<Request>, auth: Auth, result: Settlement, reached: bool, id: Id, prd: string)
    requires w.s.requests == before + [Claimed(auth)] && |before| in w.books.shown && result.Ok() && Fresh(w.s, id)
    ensures var (r, t) := (|before|, RunAll(c, w, Buys(|before|, result, reached, id, prd)));
      && t.s.requests == before + [Saved(id)] && t.s.keys == w.s.keys && t.s.now == w.s.now
      && t.s.build == w.s.build.(jobs := w.s.build.jobs[id := Jobs.Accepted(prd, true, false, Truncate(w.s.now))])
      && t.books.shown == w.books.shown && t.books.buyers == w.books.buyers[id := r]
      && t.books.places == w.books.places[id := Waiting(r)]
      && t.books.ledger == if reached then Submit(w.books.ledger, c.token, w.books.shown[r].auth) else w.books.ledger
  {
    var r := |before|;
    var w1 := Next(c, w, Settle(r, result), reached);
    assert w1.s == DoSettle(w.s, r, result);
    assert w1.s.requests == before + [Settled(auth)];
    var w2 := Next(c, w1, SaveJob(r, id, prd), false);
    assert w2.s == DoSaveJob(w1.s, r, id, prd);
    assert w2.s.requests == before + [Saved(id)];
    TraceIsRunAll(c, [w, w1, w2], Buys(r, result, reached, id, prd));
  }

  lemma AfterPaying(c: Config, w: World, p: Payload, result: Settlement, reached: bool, id: Id, prd: string)
    requires CanClaim(c, w.s, p) && result.Ok() && Fresh(w.s, id)
    ensures var r := |w.s.requests|;
      var t := RunAll(c, w, Claims(r, p) + Buys(r, result, reached, id, prd));
      && t.s.requests == w.s.requests + [Saved(id)] && t.s.now == w.s.now
      && t.s.keys == Nonces.RedisAfter(w.s.keys, ClaimNow(c, w.s, p), c.grace)
      && t.s.build == w.s.build.(jobs := w.s.build.jobs[id := Jobs.Accepted(prd, true, false, Truncate(w.s.now))])
      && t.books.shown == w.books.shown[r := p] && t.books.buyers == w.books.buyers[id := r]
      && t.books.places == w.books.places[id := Waiting(r)]
      && t.books.ledger == if reached then Submit(w.books.ledger, c.token, p.auth) else w.books.ledger
  {
    var r := |w.s.requests|;
    AfterClaiming(c, w, p);
    AfterBuying(c, RunAll(c, w, Claims(r, p)), w.s.requests, AuthOf(c, p.auth), result, reached, id, prd);
    RunAllAppend(c, w, Claims(r, p), Buys(r, result, reached, id, prd));
  }

  // ---- a crash between the save and the push -------------------------------

  /** A request pays, and its job is saved; then its process dies. */
  function PaysAndDies(p: Payload, result: Settlement, id: Id, prd: string): seq<(Step, bool)> {
    Claims(0, p) + Buys(0, result, true, id, prd) + [(Abandon(0), false)]
  }

  /** A process that dies between the save of a paid job and its push leaves a job that is paid for and
      that nothing will ever build. */
  lemma CrashBeforePushDropsAJob(c: Config, ledger: Ledger, p: Payload, result: Settlement, id: Id, prd: string)
    requires Acceptable(p, c.token, c.payTo, c.price, 0, c.skew) && p.auth.validBefore > 0
    requires result.Ok() && NonceOf(c.token, p.auth) !in ledger.used
    ensures var w := RunAll(c, Opening(ledger), PaysAndDies(p, result, id, prd));
      && id in w.s.build.jobs && w.s.build.jobs[id].paid && w.s.requests == [Died]
      && id in w.books.places && w.books.places[id] == Dropped
      && w.books.ledger.received == ledger.received + p.auth.value
  {
    var paying := Claims(0, p) + Buys(0, result, true, id, prd);
    AfterPaying(c, Opening(ledger), p, result, true, id, prd);
    var w := RunAll(c, Opening(ledger), paying);
    assert w.s.requests == [Saved(id)];
    TraceIsRunAll(c, [w, Next(c, w, Abandon(0), false)], [(Abandon(0), false)]);
    RunAllAppend(c, Opening(ledger), paying, [(Abandon(0), false)]);
  }

  // ---- a nonce the store has forgotten -------------------------------------

  /** One authorization is paid with, and another with the same nonce after the key of the first has
      gone; both times the facilitator says paid. */
  function PaysTwice(c: Config, p: Payload, q: Payload, result: Settlement, id: Id, other: Id, prd: string): seq<(Step, bool)> {
    Claims(0, p) + Buys(0, result, true, id, prd) + [(Tick((p.auth.validBefore + c.grace) as real), false)]
    + (Claims(1, q) + Buys(1, result, true, other, prd))
  }

  /** The later authorization carries the nonce of the first, and outlives its key. */
  predicate Reuses(c: Config, p: Payload, q: Payload) {
    && q.auth.sender == p.auth.sender && q.auth.nonce == p.auth.nonce
    && Acceptable(q, c.token, c.payTo, c.price, p.auth.validBefore + c.grace, c.skew)
    && q.auth.validBefore > p.auth.validBefore + c.grace
  }

  lemma FirstPays(c: Config, ledger: Ledger, p: Payload, result: Settlement, id: Id, prd: string)
    requires Acceptable(p, c.token, c.payTo, c.price, 0, c.skew) && p.auth.validBefore > 0
    requires result.Ok() && NonceOf(c.token, p.auth) !in ledger.used
    ensures var w := RunAll(c, Opening(ledger), Claims(0, p) + Buys(0, result, true, id, prd) + [(Tick((p.auth.validBefore + c.grace) as real), false)]);
      && w.s.requests == [Saved(id)] && w.s.now == (p.auth.validBefore + c.grace) as real
      && w.s.keys == map[AuthOf(c, p.auth).key := (p.auth.validBefore + c.grace) as real]
      && w.s.build.jobs == map[id := Jobs.Accepted(prd, true, false, 0)] && w.s.build.pushed == {}
      && w.books.shown == map[0 := p] && w.books.buyers == map[id := 0] && w.books.ledger == Submit(ledger, c.token, p.auth)
  {
    var (paying, tick) := (Claims(0, p) + Buys(0, result, true, id, prd), [(Tick((p.auth.validBefore + c.grace) as real), false)]);
    AfterPaying(c, Opening(ledger), p, result, true, id, prd);
    var w := RunAll(c, Opening(ledger), paying);
    TraceIsRunAll(c, [w, Next(c, w, tick[0].0, false)], tick);
    RunAllAppend(c, Opening(ledger), paying, tick);
  }

  /** The store keeps a key for the lifetime of its authorization and the grace period, so it admits a
      later authorization of the same payer with the same nonce as a new one. Both claims win; what
      keeps such a nonce from buying twice is the chain, if the facilitator says what it did. */
  lemma ForgottenNonceIsClaimedAgain(c: Config, ledger: Ledger, p: Payload, q: Payload, result: Settlement,
                                     id: Id, other: Id, prd: string)
    requires Acceptable(p, c.token, c.payTo, c.price, 0, c.skew) && p.auth.validBefore > 0 && Reuses(c, p, q)
    requires result.Ok() && NonceOf(c.token, p.auth) !in ledger.used && id != other
    ensures var w := RunAll(c, Opening(ledger), PaysTwice(c, p, q, result, id, other, prd));
      && id in w.s.build.jobs && w.s.build.jobs[id].paid && other in w.s.build.jobs && w.s.build.jobs[other].paid
      && w.books.shown == map[0 := p, 1 := q] && w.books.buyers == map[id := 0, other := 1]
      && NonceOf(c.token, p.auth) == NonceOf(c.token, q.auth)
      && w.books.ledger.received == ledger.received + p.auth.value
  {
    var first := Claims(0, p) + Buys(0, result, true, id, prd) + [(Tick((p.auth.validBefore + c.grace) as real), false)];
    FirstPays(c, ledger, p, result, id, prd);
    var w := RunAll(c, Opening(ledger), first);
    assert Truncate(w.s.now) == p.auth.validBefore + c.grace;
    assert AuthOf(c, q.auth).key == AuthOf(c, p.auth).key;
    assert Nonces.Remaining(ClaimNow(c, w.s, q)) > 0;
    AfterPaying(c, w, q, result, true, other, prd);
    RunAllAppend(c, Opening(ledger), first, Claims(1, q) + Buys(1, result, true, other, prd));
  }
}
