/** `create_build` and `X402Verifier.settle` as the service runs them, with the rest of the system at
    work between their commands: one request is a run of the accept protocol. */
module AcceptService {
  import opened Clocks
  import opened Options
  import opened Payments
  import opened Accepting
  import Nonces
  import opened Jobs
  import B = BuildProtocol
  import Safety = BuildSafety

  /** x is not a step of request r, and does not use the id this request will give its job. */
  predicate ByOthers(x: Step, r: nat, id: Id) {
    match x
    case Arrive => true
    case SavePreview(other, _) => other != id
    case Tick(_) => true
    case Build(y) => !(y.Enqueue? && y.id == id)
    case SaveJob(q, other, _) => q != r && other != id
    case _ => x.r != r
  }

  ghost predicate Unused(s: State, id: Id) {
    Fresh(s, id) && forall r :: 0 <= r < |s.requests| ==> s.requests[r] != Saved(id)
  }

  lemma OthersKeep(c: Config, s: State, x: Step, r: nat, id: Id)
    requires Inv(c, s) && r < |s.requests| && ByOthers(x, r, id) && Unused(s, id)
    ensures r < |Exec(c, s, x).requests| && Exec(c, s, x).requests[r] == s.requests[r]
    ensures Unused(Exec(c, s, x), id)
  {
    if x.Build? {
      BuildKeepsFresh(c, s, x.x, id);
    } else if x.SaveJob? || x.Push? || x.SavePreview? || x.Arrive? || x.Tick? {
      RecordersKeep(c, s, x, r, id);
    } else {
      OtherRequestsKeep(c, s, x, r, id);
    }
  }

  lemma OnlyEnqueuePushes(c: B.Config, s: B.State, y: B.Step, id: Id)
    requires !(y.Enqueue? && y.id == id) && id !in s.pushed
    ensures id !in B.Exec(c, s, y).pushed
  {
  }

  lemma BuildKeepsFresh(c: Config, s: State, y: B.Step, id: Id)
    requires PaidOk(s) && Fresh(s, id) && !(y.Enqueue? && y.id == id)
    ensures Fresh(DoBuild(c, s, y), id)
  {
    OnlyEnqueuePushes(c.build, s.build, y, id);
    Safety.StepKeepsOrders(c.build, s.build, y);
  }

  lemma RecordersKeep(c: Config, s: State, x: Step, r: nat, id: Id)
    requires r < |s.requests| && ByOthers(x, r, id) && Unused(s, id)
    requires x.SaveJob? || x.Push? || x.SavePreview? || x.Arrive? || x.Tick?
    ensures r < |Exec(c, s, x).requests| && Exec(c, s, x).requests[r] == s.requests[r]
    ensures Unused(Exec(c, s, x), id)
  {
  }

  lemma OtherRequestsKeep(c: Config, s: State, x: Step, r: nat, id: Id)
    requires r < |s.requests| && ByOthers(x, r, id) && Unused(s, id)
    requires x.Refuse? || x.Verify? || x.ReadClock? || x.SetNx? || x.Settle? || x.Abandon?
    ensures r < |Exec(c, s, x).requests| && Exec(c, s, x).requests[r] == s.requests[r]
    ensures Unused(Exec(c, s, x), id)
  {
    if x.r < |s.requests| {
      var t := RequestStep(c, s, x);
      assert t.build == s.build;
      assert t.requests == s.requests || (|t.requests| == |s.requests| && !t.requests[x.r].Saved?);
      assert forall q :: 0 <= q < |s.requests| && q != x.r ==> t.requests[q] == s.requests[q];
    }
  }

  /** The job is on record as request r left it: for this document, paid, and no preview. */
  ghost predicate OnRecord(s: State, r: nat, auth: Auth, prd: string, at: Time, id: Id) {
    && r < |s.requests| && s.requests[r] == Saved(id) && id in s.orders && s.orders[id] == auth
    && id in s.build.jobs && s.build.jobs[id].prd == Some(prd) && s.build.jobs[id].paid && !s.build.jobs[id].preview
    && s.build.jobs[id].createdAt == at
  }

  lemma OthersKeepRecord(c: Config, s: State, x: Step, r: nat, auth: Auth, prd: string, at: Time, id: Id)
    requires PaidOk(s) && ByOthers(x, r, id) && OnRecord(s, r, auth, prd, at, id)
    ensures OnRecord(Exec(c, s, x), r, auth, prd, at, id)
  {
    if x.Build? {
      Safety.StepKeepsOrders(c.build, s.build, x.x);
    } else if x.SaveJob? || x.Push? || x.SavePreview? || x.Arrive? || x.Tick? {
      RecordersKeepRecord(c, s, x, r, auth, prd, at, id);
    } else if x.r < |s.requests| {
      OtherRequestsKeepRecord(c, s, x, r, auth, prd, at, id);
    }
  }

  lemma RecordersKeepRecord(c: Config, s: State, x: Step, r: nat, auth: Auth, prd: string, at: Time, id: Id)
    requires ByOthers(x, r, id) && OnRecord(s, r, auth, prd, at, id)
    requires x.SaveJob? || x.Push? || x.SavePreview? || x.Arrive? || x.Tick?
    ensures OnRecord(Exec(c, s, x), r, auth, prd, at, id)
  {
  }

  lemma OtherRequestsKeepRecord(c: Config, s: State, x: Step, r: nat, auth: Auth, prd: string, at: Time, id: Id)
    requires ByOthers(x, r, id) && OnRecord(s, r, auth, prd, at, id)
    requires x.Refuse? || x.Verify? || x.ReadClock? || x.SetNx? || x.Settle? || x.Abandon?
    requires x.r < |s.requests|
    ensures OnRecord(RequestStep(c, s, x), r, auth, prd, at, id)
  {
    var t := RequestStep(c, s, x);
    assert t.build == s.build && t.orders == s.orders;
    assert t.requests == s.requests || t.requests == s.requests[x.r := t.requests[x.r]];
  }

  lemma TheClockGoesOn(c: Config, s: State, x: Step)
    ensures s.now <= Exec(c, s, x).now
  {
    if !x.Arrive? && !x.SavePreview? && !x.Tick? && !x.Build? && x.r < |s.requests| {
      assert RequestStep(c, s, x).now == s.now;
    }
  }

  lemma HasWon(c: Config, steps: seq<Step>, r: nat)
    requires r < |Run(c, INIT, steps).requests| && Run(c, INIT, steps).requests[r].Claimed?
    ensures Run(c, INIT, steps).wins[Run(c, INIT, steps).requests[r].auth] == 1
  {
    Reachable(c, steps);
    assert RequestOk(Run(c, INIT, steps), r);
  }

  lemma ClaimedOnce(c: Config, steps: seq<Step>, r: nat)
    requires var s := Run(c, INIT, steps);
      && r < |s.requests| && s.requests[r].Clocked?
      && Nonces.Prompt(ClaimOf(s, r), c.grace) && Nonces.RedisGranted(s.keys, ClaimOf(s, r))
    ensures var s := Run(c, INIT, steps);
            s.wins[s.requests[r].auth] == 0
  {
    Reachable(c, steps);
    GrantKeepsNonces(c, Run(c, INIT, steps), r);
  }

  datatype Error = NoHeader | Invalid | Unconfirmed | AlreadyUsed | NotSettled | OutcomeUnknown

  /** Between the two traces request r neither claims nor asks for the money. */
  ghost predicate Leaves(before: seq<Step>, after: seq<Step>, r: nat) {
    before <= after
    && forall i :: |before| <= i < |after| ==> after[i] != SetNx(r) && !(after[i].Settle? && after[i].r == r)
  }

  /** Between the two traces request r claims once, and asks for the money once, after that and last of
      all, if its claim won, and never if not. */
  ghost predicate ClaimsThenAsks(before: seq<Step>, after: seq<Step>, r: nat, won: bool) {
    exists i: nat :: ClaimsAt(before, after, r, won, i)
  }

  ghost predicate ClaimsAt(before: seq<Step>, after: seq<Step>, r: nat, won: bool, i: nat) {
    && |before| <= i < |after| && after[i] == SetNx(r) && Leaves(before, after[..i], r)
    && (if won then AsksLast(after[..i + 1], after, r) else |after| == i + 1)
  }

  ghost predicate AsksLast(before: seq<Step>, after: seq<Step>, r: nat) {
    |after| > 0 && Leaves(before, after[..|after| - 1], r) && after[|after| - 1].Settle? && after[|after| - 1].r == r
  }

  /** A refusal for which the nonce is not needed. */
  predicate BeforeTheNonce(e: Option<Error>) { e in {Some(NoHeader), Some(Invalid), Some(Unconfirmed)} }

  lemma LeavesThrough(before: seq<Step>, sofar: seq<Step>, after: seq<Step>, r: nat)
    requires Leaves(before, sofar, r) && Leaves(sofar, after, r)
    ensures Leaves(before, after, r)
  {
    assert sofar == after[..|sofar|];
    assert forall k :: |before| <= k < |sofar| ==> after[k] == sofar[k];
  }

  lemma LeavesFirst(before: seq<Step>, sofar: seq<Step>, after: seq<Step>, r: nat, won: bool)
    requires Leaves(before, sofar, r) && ClaimsThenAsks(sofar, after, r, won)
    ensures before <= after && ClaimsThenAsks(before, after, r, won)
  {
    var i: nat :| ClaimsAt(sofar, after, r, won, i);
    LeavesThrough(before, sofar, after[..i], r);
    assert ClaimsAt(before, after, r, won, i);
  }

  lemma ClaimIsLost(before: seq<Step>, start: seq<Step>, r: nat)
    requires Leaves(before, start, r)
    ensures ClaimsThenAsks(before, start + [ReadClock(r), SetNx(r)], r, false)
  {
    var (after, i) := (start + [ReadClock(r), SetNx(r)], |start| + 1);
    assert after[..i] == start + [ReadClock(r)];
    assert Leaves(start, start + [ReadClock(r)], r);
    LeavesThrough(before, start, start + [ReadClock(r)], r);
    assert ClaimsAt(before, after, r, false, i);
  }

  lemma ClaimIsWon(before: seq<Step>, start: seq<Step>, sofar: seq<Step>, r: nat, result: Settlement)
    requires Leaves(before, start, r) && Leaves(start + [ReadClock(r), SetNx(r)], sofar, r)
    ensures ClaimsThenAsks(before, sofar + [Settle(r, result)], r, true)
  {
    var (claimed, after, i) := (start + [ReadClock(r), SetNx(r)], sofar + [Settle(r, result)], |start| + 1);
    assert claimed <= sofar && after[i] == claimed[i] == SetNx(r);
    assert after[..i] == claimed[..i] && after[..i + 1] == claimed && after[..|after| - 1] == sofar;
    assert forall k :: |before| <= k < |start| ==> claimed[..i][k] == start[k];
    assert Leaves(before, after[..i], r) && AsksLast(after[..i + 1], after, r);
    assert ClaimsAt(before, after, r, true, i);
  }

  class Service {
    const config: Config
    const others: nat -> seq<Step>
    var tick: nat
    var lastError: Option<Error>
    var lastTransaction: Option<string>
    var s: State
    ghost var trace: seq<Step>

    /** The shared stores are in a state the accept protocol reaches by `trace`. */
    ghost predicate Valid()
      reads this
    {
      s == Run(config, INIT, trace)
    }

    /** The header shows a payload that decodes, is genuine, and is made out to us for the price. */
    predicate Shows(header: Option<Option<Payload>>) {
      header.Some? && header.value.Some? && Genuine(header.value.value, config.token, config.payTo, config.price)
    }

    /** There is a header, and what it shows will never be accepted from now on. */
    predicate Hopeless(header: Option<Option<Payload>>, now: real) {
      header.Some? && (!Shows(header) || header.value.value.auth.validBefore <= Truncate(now) - config.skew)
    }

    /** What the header shows is accepted at any time from the one moment to the other. */
    predicate Lives(header: Option<Option<Payload>>, from: real, to: real) {
      && Shows(header) && header.value.value.auth.validAfter <= Truncate(from) + config.skew
      && header.value.value.auth.validBefore > Truncate(to) - config.skew
    }

    /** The others leave request r and the id it will use alone. */
    ghost predicate Apart(r: nat, id: Id)
      reads this
    {
      forall k, x :: x in others(k) ==> ByOthers(x, r, id)
    }

    /** Request r stands at q, and its id is still unused. */
    ghost predicate At(r: nat, q: Request, id: Id)
      reads this
    {
      Valid() && Apart(r, id) && r < |s.requests| && s.requests[r] == q && Unused(s, id)
    }

    constructor (config: Config, others: nat -> seq<Step>)
      ensures Valid() && this.config == config && this.others == others
    {
      this.config, this.others, tick := config, others, 0;
      lastError, lastTransaction, s, trace := None, None, INIT, [];
    }

    method Step(x: Step)
      requires Valid()
      modifies this`s, this`trace
      ensures Valid() && s == Exec(config, old(s), x) && trace == old(trace) + [x]
    {
      RunAppend(config, INIT, trace, [x]);
      assert Run(config, s, [x]) == Exec(config, s, x);
      s := Exec(config, s, x);
      trace := trace + [x];
    }

    /** The others act. */
    method Pass(r: nat, ghost q: Request, id: Id)
      requires At(r, q, id)
      modifies this`tick, this`s, this`trace
      ensures At(r, q, id) && Leaves(old(trace), trace, r) && old(s).now <= s.now
    {
      var steps := others(tick);
      for i := 0 to |steps|
        invariant At(r, q, id) && Leaves(old(trace), trace, r) && tick == old(tick) && old(s).now <= s.now
      {
        assert steps[i] in others(tick);
        Reachable(config, trace);
        OthersKeep(config, s, steps[i], r, id);
        TheClockGoesOn(config, s, steps[i]);
        Step(steps[i]);
      }
      tick := tick + 1;
    }

    // ---- the commands of one request ---------------------------------------

    method Answer(r: nat, status: nat, id: Id)
      requires At(r, Arrived, id)
      modifies this`s, this`trace
      ensures At(r, Answered(status), id) && Leaves(old(trace), trace, r) && s.now == old(s).now
    {
      Step(Refuse(r, status));
    }

    method Admit(r: nat, p: Payload, id: Id)
      requires At(r, Arrived, id)
      requires Acceptable(p, config.token, config.payTo, config.price, Truncate(s.now), config.skew)
      modifies this`s, this`trace
      ensures At(r, Verified(AuthOf(config, p.auth)), id) && Leaves(old(trace), trace, r) && s.now == old(s).now
    {
      Step(Verify(r, p));
    }

    method ReadTheClock(r: nat, auth: Auth, id: Id) returns (now: real)
      requires At(r, Verified(auth), id)
      modifies this`s, this`trace
      ensures At(r, Clocked(auth, now), id) && trace == old(trace) + [ReadClock(r)]
      ensures now == s.now == old(s).now && s.keys == old(s).keys && s.wins == old(s).wins
    {
      now := s.now;
      Step(ReadClock(r));
    }

    /** Read the clock and SET NX. */
    method ClaimNonce(r: nat, auth: Auth, id: Id) returns (won: bool)
      requires At(r, Verified(auth), id)
      modifies this`s, this`trace
      ensures At(r, if won then Claimed(auth) else Answered(402), id)
      ensures trace == old(trace) + [ReadClock(r), SetNx(r)]
      ensures won ==> old(s).wins[auth] == 0 && s.wins[auth] == 1
      ensures !won ==> s.keys == old(s).keys
      ensures s.now == old(s).now
    {
      var now := ReadTheClock(r, auth, id);
      won := Nonces.RedisGranted(s.keys, Nonces.RedisClaim(auth.key, auth.expiresAt, now, now));
      ghost var before := s;
      if won { ClaimedOnce(config, trace, r); }
      Step(SetNx(r));
      assert s == DoSetNx(config, before, r);
    }

    method Submit(r: nat, auth: Auth, result: Settlement, id: Id)
      requires At(r, Claimed(auth), id)
      modifies this`s, this`trace
      ensures At(r, if result.Ok() then Settled(auth) else Answered(402), id)
      ensures trace == old(trace) + [Settle(r, result)]
      ensures s.keys == old(s).keys && s.wins == old(s).wins && s.now == old(s).now
    {
      Step(Settle(r, result));
    }

    method Record(r: nat, auth: Auth, prd: string, id: Id)
      requires At(r, Settled(auth), id)
      modifies this`s, this`trace
      ensures Valid() && Apart(r, id) && OnRecord(s, r, auth, prd, Truncate(old(s).now), id) && old(trace) <= trace
      ensures id !in s.build.pushed && s.now == old(s).now
    {
      Step(SaveJob(r, id, prd));
    }

    /** The others act between the save and the push. */
    method PassOnRecord(r: nat, ghost auth: Auth, ghost prd: string, ghost at: Time, id: Id)
      requires Valid() && Apart(r, id) && OnRecord(s, r, auth, prd, at, id)
      modifies this`tick, this`s, this`trace
      ensures Valid() && OnRecord(s, r, auth, prd, at, id) && old(trace) <= trace
    {
      var steps := others(tick);
      for i := 0 to |steps|
        invariant Valid() && Apart(r, id) && OnRecord(s, r, auth, prd, at, id) && old(trace) <= trace && tick == old(tick)
      {
        assert steps[i] in others(tick);
        Reachable(config, trace);
        OthersKeepRecord(config, s, steps[i], r, auth, prd, at, id);
        Step(steps[i]);
      }
      tick := tick + 1;
    }

    method Queue(r: nat, id: Id)
      requires Valid() && r < |s.requests| && s.requests[r] == Saved(id)
      modifies this`s, this`trace
      ensures Valid() && r < |s.requests| && s.requests[r] == Answered(202) && old(trace) <= trace
      ensures s.orders == old(s).orders && s.build.jobs == old(s).build.jobs && id in s.build.pushed
    {
      Step(Push(r));
    }

    // ---- X402Verifier.settle -----------------------------------------------

    /** Every check that can refuse without the nonce comes before the nonce is spent, and the nonce is
        spent before the money is asked for. */
    method SettlePayment(r: nat, header: Option<Option<Payload>>, confirmed: bool, result: Settlement, id: Id)
      returns (ok: bool)
      requires At(r, Arrived, id)
      modifies this
      ensures ok || !BeforeTheNonce(lastError) ==> Shows(header)
      ensures At(r, if ok then Settled(AuthOf(config, header.value.value.auth)) else Answered(402), id) && old(trace) <= trace
      ensures BeforeTheNonce(lastError) || lastError == Some(AlreadyUsed) || s.wins[AuthOf(config, header.value.value.auth)] == 1
      ensures ok ==> lastTransaction == result.transaction && result.Ok() && lastError.None?
      ensures !ok ==> lastTransaction.None? && lastError.Some?
      ensures lastError == Some(NoHeader) <==> header.None?
      ensures Hopeless(header, old(s).now) ==> lastError == Some(Invalid)
      ensures lastError == Some(Unconfirmed) ==> !confirmed
      ensures !confirmed ==> BeforeTheNonce(lastError)
      ensures confirmed && Lives(header, old(s).now, s.now) ==> !BeforeTheNonce(lastError)
      ensures old(s).now <= s.now
      ensures lastError == Some(OutcomeUnknown) ==> result.unknown
      ensures lastError == Some(NotSettled) ==> !result.unknown && !result.settled
      ensures if BeforeTheNonce(lastError) then Leaves(old(trace), trace, r)
              else ClaimsThenAsks(old(trace), trace, r, lastError != Some(AlreadyUsed))
    {
      lastError, lastTransaction := None, None;
      ok := false;
      var verified := CheckPayment(r, header, confirmed, id);
      if verified.Some? {
        ghost var sofar := trace;
        ok := ClaimAndSettle(r, verified.value, result, id);
        LeavesFirst(old(trace), sofar, trace, r, lastError != Some(AlreadyUsed));
      }
    }

    /** Everything that can be found wrong with a payment without its nonce. */
    method CheckPayment(r: nat, header: Option<Option<Payload>>, confirmed: bool, id: Id) returns (verified: Option<Auth>)
      requires At(r, Arrived, id) && lastError.None?
      modifies this`tick, this`s, this`trace, this`lastError
      ensures At(r, if verified.Some? then Verified(verified.value) else Answered(402), id)
      ensures Leaves(old(trace), trace, r)
      ensures if verified.Some? then lastError.None? else BeforeTheNonce(lastError)
      ensures verified.Some? ==> Shows(header) && verified.value == AuthOf(config, header.value.value.auth)
      ensures lastError == Some(NoHeader) <==> header.None?
      ensures Hopeless(header, old(s).now) ==> lastError == Some(Invalid)
      ensures lastError == Some(Unconfirmed) ==> !confirmed
      ensures old(s).now <= s.now
      ensures verified.Some? <==>
        && confirmed && header.Some? && header.value.Some?
        && var (p, now) := (header.value.value, Truncate(s.now));
        && (p.network.None? || p.network.value == config.token.network) && p.auth.recipient == config.payTo
        && config.price <= p.auth.value && p.signer == Some(p.auth.sender)
        && p.auth.validAfter - config.skew <= now < p.auth.validBefore + config.skew
    {
      if header.None? {
        lastError := Some(NoHeader);
        Answer(r, 402, id);
        return None;
      }
      Pass(r, Arrived, id);
      if header.value.None? || !Acceptable(header.value.value, config.token, config.payTo, config.price,
                                           Truncate(s.now), config.skew) {
        lastError := Some(Invalid);
        Answer(r, 402, id);
        return None;
      }
      if !confirmed {
        lastError := Some(Unconfirmed);
        Answer(r, 402, id);
        return None;
      }
      Admit(r, header.value.value, id);
      return Some(AuthOf(config, header.value.value.auth));
    }

    /** Claim, and ask for the money only if the claim won; a claim that lost, a definite refusal and an
        unknown outcome are reported apart. */
    method ClaimAndSettle(r: nat, auth: Auth, result: Settlement, id: Id) returns (ok: bool)
      requires At(r, Verified(auth), id) && lastError.None?
      modifies this
      ensures At(r, if ok then Settled(auth) else Answered(402), id)
      ensures lastTransaction == if ok then result.transaction else old(lastTransaction)
      ensures lastError in {None, Some(AlreadyUsed), Some(NotSettled), Some(OutcomeUnknown)}
      ensures lastError != Some(AlreadyUsed) ==>
        lastError == if result.unknown then Some(OutcomeUnknown) else if result.settled then None else Some(NotSettled)
      ensures ok <==> lastError.None?
      ensures lastError != Some(AlreadyUsed) ==> s.wins[auth] == 1
      ensures old(s).now <= s.now
      ensures ClaimsThenAsks(old(trace), trace, r, lastError != Some(AlreadyUsed))
    {
      Pass(r, Verified(auth), id);
      ghost var start := trace;
      var won := ClaimNonce(r, auth, id);
      if !won {
        ClaimIsLost(old(trace), start, r);
        lastError := Some(AlreadyUsed);
        return false;
      }
      Pass(r, Claimed(auth), id);
      HasWon(config, trace, r);
      ClaimIsWon(old(trace), start, trace, r, result);
      Submit(r, auth, result, id);
      if !result.Ok() {
        lastError := Some(if result.unknown then OutcomeUnknown else NotSettled);
        return false;
      }
      lastTransaction := result.transaction;
      return true;
    }

    // ---- POST /builds ------------------------------------------------------

    /** A request is answered 202 exactly when its payment was settled for this very job, which is then on
        record with the document it sent and queued, and a refusal that needs no nonce spends none. */
    method CreateBuild(r: nat, retryAfter: Option<int>, unusable: bool, prd: Option<string>,
                       header: Option<Option<Payload>>, confirmed: bool, result: Settlement, id: Id)
      returns (status: nat)
      requires At(r, Arrived, id)
      modifies this
      ensures Valid() && r < |s.requests| && s.requests[r] == Answered(status) && old(trace) <= trace
      ensures status == (if retryAfter.Some? then 429 else if unusable then 503 else if prd.None? then 422
                         else if id in s.orders then 202 else 402)
      ensures status == 202 ==>
        && id in s.build.pushed && result.Ok() && Shows(header)
        && s.orders[id] == AuthOf(config, header.value.value.auth) && s.settles[s.orders[id]] == 1
        && id in s.build.jobs && s.build.jobs[id].prd == prd && s.build.jobs[id].paid && !s.build.jobs[id].preview
        && s.build.jobs[id].createdAt >= Truncate(old(s).now)
      ensures status in {429, 503, 422} || (status == 402 && BeforeTheNonce(lastError))
              ==> Leaves(old(trace), trace, r)
      ensures status == 402 && (header.None? || Hopeless(header, old(s).now) || !confirmed) ==> BeforeTheNonce(lastError)
      ensures status == 402 && confirmed && Lives(header, old(s).now, s.now) ==> !BeforeTheNonce(lastError)
      ensures status == 402 && !BeforeTheNonce(lastError) && lastError != Some(AlreadyUsed)
              ==> Shows(header) && s.wins[AuthOf(config, header.value.value.auth)] == 1
    {
      if retryAfter.Some? {
        Answer(r, 429, id);
        return 429;
      }
      if unusable {
        Answer(r, 503, id);
        return 503;
      }
      if prd.None? {
        Answer(r, 422, id);
        return 422;
      }
      var paid := SettlePayment(r, header, confirmed, result, id);
      Reachable(config, trace);
      if !paid { return 402; }
      TakeOn(r, s.requests[r].auth, prd.value, id);
      return 202;
    }

    /** Save the job, and queue it. */
    method TakeOn(r: nat, auth: Auth, prd: string, id: Id)
      requires At(r, Settled(auth), id)
      modifies this`tick, this`s, this`trace
      ensures Valid() && r < |s.requests| && s.requests[r] == Answered(202) && old(trace) <= trace
      ensures id in s.build.pushed && id in s.orders && s.orders[id] == auth && s.settles[auth] == 1
      ensures id in s.build.jobs && s.build.jobs[id].prd == Some(prd) && s.build.jobs[id].paid && !s.build.jobs[id].preview
      ensures s.build.jobs[id].createdAt == Truncate(old(s).now)
    {
      ghost var at := Truncate(s.now);
      Record(r, auth, prd, id);
      PassOnRecord(r, auth, prd, at, id);
      Queue(r, id);
      Reachable(config, trace);
    }
  }
}
