/** From a payment header to a build: the accept path of src/service/app.py and `X402Verifier.settle`
    of src/payments/x402.py, any number of requests interleaved with each other and with the whole
    of durable build execution, over the shared nonce store. */
module Accepting {
  import opened Clocks
  import opened Options
  import opened Payments
  import Nonces
  import Jobs
  import B = BuildProtocol
  import Safety = BuildSafety

  type Id = string

  datatype Config = Config(token: Token, payTo: string, price: int, skew: int, grace: nat, build: B.Config)

  /** An authorization, as far as paying with it goes: its replay key and its expiry. */
  datatype Auth = Auth(key: string, expiresAt: int)

  function AuthOf(c: Config, a: Authorization): Auth { Auth(ReplayKey(a, c.token), a.validBefore) }

  /** Where a request stands in create_build. */
  datatype Request =
    | Arrived
    | Verified(auth: Auth)               // limits, readiness, PRD, signature and precheck passed
    | Clocked(auth: Auth, readAt: real)  // claim has read the clock, SET NX to come
    | Claimed(auth: Auth)                // nonce spent, settlement to come
    | Settled(auth: Auth)                // money moved, job record to come
    | Saved(id: Id)                      // job record written, queue entry to come
    | Answered(status: nat)
    | Died

  datatype State = State(
    now: real,
    keys: map<string, real>,  // the nonce keys in Redis, with their deadlines
    requests: seq<Request>,
    build: B.State,
    // what has happened so far
    wins: multiset<Auth>,     // claims that answered True
    settles: multiset<Auth>,  // settlements that answered settled
    orders: map<Id, Auth>)    // what each paid job was bought with

  datatype Step =
    | Arrive
    | Refuse(r: nat, status: nat)  // 429, 503, 422, or 402 before the nonce is claimed
    | Verify(r: nat, payload: Payload)
    | ReadClock(r: nat)
    | SetNx(r: nat)
    | Settle(r: nat, result: Settlement)
    | SaveJob(r: nat, id: Id, prd: string)
    | Push(r: nat)
    | Abandon(r: nat)
    | SavePreview(id: Id, prd: string)
    | Tick(dt: real)
    | Build(x: B.Step)

  const INIT := State(0.0, map[], [], B.INIT, multiset{}, multiset{}, map[])

  function Goes(s: State, r: nat, next: Request): State
    requires r < |s.requests|
  {
    s.(requests := s.requests[r := next])
  }

  function DoVerify(c: Config, s: State, r: nat, p: Payload): State
    requires r < |s.requests|
  {
    if s.requests[r].Arrived? && Acceptable(p, c.token, c.payTo, c.price, Truncate(s.now), c.skew)
    then Goes(s, r, Verified(AuthOf(c, p.auth))) else s
  }

  function DoReadClock(s: State, r: nat): State
    requires r < |s.requests|
  {
    if s.requests[r].Verified? then Goes(s, r, Clocked(s.requests[r].auth, s.now)) else s
  }

  function ClaimOf(s: State, r: nat): Nonces.RedisClaim
    requires r < |s.requests| && s.requests[r].Clocked?
  {
    var q := s.requests[r];
    Nonces.RedisClaim(q.auth.key, q.auth.expiresAt, q.readAt, s.now)
  }

  /** The SET reaches Redis within the grace period of the clock reading. */
  function DoSetNx(c: Config, s: State, r: nat): State
    requires r < |s.requests|
  {
    if !s.requests[r].Clocked? || !Nonces.Prompt(ClaimOf(s, r), c.grace) then s
    else if !Nonces.RedisGranted(s.keys, ClaimOf(s, r)) then Goes(s, r, Answered(402))
    else
      var auth := s.requests[r].auth;
      Goes(s, r, Claimed(auth)).(
        keys := Nonces.RedisAfter(s.keys, ClaimOf(s, r), c.grace),
        wins := s.wins[auth := s.wins[auth] + 1])
  }

  function DoSettle(s: State, r: nat, result: Settlement): State
    requires r < |s.requests|
  {
    if !s.requests[r].Claimed? then s
    else if !result.Ok() then Goes(s, r, Answered(402))
    else
      var auth := s.requests[r].auth;
      Goes(s, r, Settled(auth)).(settles := s.settles[auth := s.settles[auth] + 1])
  }

  predicate Fresh(s: State, id: Id) { id !in s.build.jobs && id !in s.build.pushed }

  function DoSaveJob(s: State, r: nat, id: Id, prd: string): State
    requires r < |s.requests|
  {
    if !s.requests[r].Settled? || !Fresh(s, id) then s
    else
      Goes(s, r, Saved(id)).(
        build := B.DoCreate(s.build, id, Jobs.Accepted(prd, true, false, Truncate(s.now))),
        orders := s.orders[id := s.requests[r].auth])
  }

  function DoPush(s: State, r: nat): State
    requires r < |s.requests|
  {
    if !s.requests[r].Saved? then s
    else Goes(s, r, Answered(202)).(build := B.DoEnqueue(s.build, s.requests[r].id))
  }

  /** A free preview: never paid for, and no nonce is involved. */
  function DoSavePreview(s: State, id: Id, prd: string): State {
    if !Fresh(s, id) then s
    else s.(build := B.DoCreate(s.build, id, Jobs.Accepted(prd, false, true, Truncate(s.now))))
  }

  /** Everything durable execution does; records are created by the accept paths alone, and a paid job
      is queued by its own request. */
  function DoBuild(c: Config, s: State, x: B.Step): State {
    if x.Create? || (x.Enqueue? && x.id in s.orders) then s else s.(build := B.Exec(c.build, s.build, x))
  }

  function RequestStep(c: Config, s: State, x: Step): State
    requires !x.Arrive? && !x.SavePreview? && !x.Tick? && !x.Build? && x.r < |s.requests|
  {
    match x
    case Refuse(r, status) => if s.requests[r].Arrived? then Goes(s, r, Answered(status)) else s
    case Verify(r, payload) => DoVerify(c, s, r, payload)
    case ReadClock(r) => DoReadClock(s, r)
    case SetNx(r) => DoSetNx(c, s, r)
    case Settle(r, result) => DoSettle(s, r, result)
    case SaveJob(r, id, prd) => DoSaveJob(s, r, id, prd)
    case Push(r) => DoPush(s, r)
    case Abandon(r) => Goes(s, r, Died)
  }

  function DoArrive(s: State): State { s.(requests := s.requests + [Arrived]) }

  /** The clock does not go back. */
  function DoTick(s: State, dt: real): State { if dt < 0.0 then s else s.(now := s.now + dt) }

  function Exec(c: Config, s: State, x: Step): State {
    match x
    case Arrive => DoArrive(s)
    case SavePreview(id, prd) => DoSavePreview(s, id, prd)
    case Tick(dt) => DoTick(s, dt)
    case Build(y) => DoBuild(c, s, y)
    case _ => if x.r < |s.requests| then RequestStep(c, s, x) else s
  }

  function Run(c: Config, s: State, steps: seq<Step>): State
    decreases |steps|
  {
    if steps == [] then s else Run(c, Exec(c, s, steps[0]), steps[1..])
  }

  lemma {:induction false} RunAppend(c: Config, s: State, a: seq<Step>, b: seq<Step>)
    ensures Run(c, s, a + b) == Run(c, Run(c, s, a), b)
    decreases |a|
  {
    if a == [] {
      assert a + b == b;
    } else {
      assert (a + b)[1..] == a[1..] + b;
      RunAppend(c, Exec(c, s, a[0]), a[1..], b);
    }
  }

  // ---- the invariant -------------------------------------------------------

  /** The request has spent the nonce of this authorization and not yet turned it into a job. */
  predicate Holds(q: Request, auth: Auth) { (q.Claimed? || q.Settled?) && q.auth == auth }

  /** At most one claim of an authorization succeeds, and at most one settlement. */
  ghost predicate NoncesOk(c: Config, s: State) {
    forall a :: && s.settles[a] <= s.wins[a] <= 1
                && (s.wins[a] == 1 ==> Nonces.Closed(s.keys, a.key, a.expiresAt, s.now, c.grace))
  }

  ghost predicate RequestOk(s: State, r: nat)
    requires r < |s.requests|
  {
    var q := s.requests[r];
    && (q.Clocked? ==> q.readAt <= s.now)
    && (q.Claimed? ==> s.wins[q.auth] == 1 && s.settles[q.auth] == 0)
    && (q.Settled? ==> s.wins[q.auth] == 1 && s.settles[q.auth] == 1)
  }

  ghost predicate RequestsOk(s: State) {
    && (forall r :: 0 <= r < |s.requests| ==> RequestOk(s, r))
    && (forall r, q, a :: 0 <= r < q < |s.requests| && Holds(s.requests[r], a) ==> !Holds(s.requests[q], a))
  }

  /** Every paid job has its own authorization, settled once, which no request still holds. */
  ghost predicate OrdersOk(s: State) {
    && (forall id :: id in s.orders ==> s.wins[s.orders[id]] == 1 && s.settles[s.orders[id]] == 1)
    && (forall id, r :: id in s.orders && 0 <= r < |s.requests| ==> !Holds(s.requests[r], s.orders[id]))
    && (forall id, other :: id in s.orders && other in s.orders && s.orders[id] == s.orders[other] ==> id == other)
  }

  ghost predicate PaidOk(s: State) {
    && (forall id :: id in s.orders <==> id in s.build.jobs && s.build.jobs[id].paid)
    && (forall id :: id in s.build.jobs ==> s.build.jobs[id].paid != s.build.jobs[id].preview)
    && Safety.OrdersMatch(s.build)
  }

  ghost predicate Inv(c: Config, s: State) {
    NoncesOk(c, s) && RequestsOk(s) && OrdersOk(s) && PaidOk(s)
  }

  // ---- the steps -----------------------------------------------------------

  /** A request that holds nothing before or after, or gives up what it holds, changes nothing else. */
  lemma GoesKeeps(c: Config, s: State, r: nat, next: Request)
    requires Inv(c, s) && r < |s.requests|
    requires !next.Claimed? && !next.Settled? && (next.Clocked? ==> next.readAt <= s.now)
    ensures Inv(c, Goes(s, r, next))
  {
    var t := Goes(s, r, next);
    forall q | 0 <= q < |t.requests| ensures RequestOk(t, q) {
      assert RequestOk(s, q);
    }
    forall p, q, a | 0 <= p < q < |t.requests| && Holds(t.requests[p], a) ensures !Holds(t.requests[q], a) {
      assert Holds(s.requests[p], a);
    }
  }

  lemma GrantKeepsNonces(c: Config, s: State, r: nat)
    requires Inv(c, s) && r < |s.requests| && s.requests[r].Clocked?
    requires Nonces.Prompt(ClaimOf(s, r), c.grace) && Nonces.RedisGranted(s.keys, ClaimOf(s, r))
    ensures s.wins[s.requests[r].auth] == 0 && NoncesOk(c, DoSetNx(c, s, r))
  {
    var t, claim, auth := DoSetNx(c, s, r), ClaimOf(s, r), s.requests[r].auth;
    if s.wins[auth] == 1 {
      Nonces.StaysClosed(s.keys, auth.key, auth.expiresAt, s.now, claim, c.grace);
    }
    Nonces.GrantCloses(s.keys, claim, c.grace);
    forall a ensures t.settles[a] <= t.wins[a] <= 1
      && (t.wins[a] == 1 ==> Nonces.Closed(t.keys, a.key, a.expiresAt, t.now, c.grace))
    {
      if a != auth && s.wins[a] == 1 {
        Nonces.StaysClosed(s.keys, a.key, a.expiresAt, s.now, claim, c.grace);
      }
    }
  }

  lemma SetNxKeeps(c: Config, s: State, r: nat)
    requires Inv(c, s) && r < |s.requests|
    ensures Inv(c, DoSetNx(c, s, r))
  {
    var t := DoSetNx(c, s, r);
    if s.requests[r].Clocked? && Nonces.Prompt(ClaimOf(s, r), c.grace) {
      if Nonces.RedisGranted(s.keys, ClaimOf(s, r)) {
        GrantKeepsNonces(c, s, r);
        var auth := s.requests[r].auth;
        forall q | 0 <= q < |t.requests| ensures RequestOk(t, q) && (q != r ==> !Holds(t.requests[q], auth)) {
          assert RequestOk(s, q);
        }
        forall p, q, a | 0 <= p < q < |t.requests| && Holds(t.requests[p], a) ensures !Holds(t.requests[q], a) {
          if a != auth { assert Holds(s.requests[p], a); }
        }
      } else {
        GoesKeeps(c, s, r, Answered(402));
      }
    }
  }

  lemma SettleKeeps(c: Config, s: State, r: nat, result: Settlement)
    requires Inv(c, s) && r < |s.requests|
    ensures Inv(c, DoSettle(s, r, result))
  {
    var t := DoSettle(s, r, result);
    if s.requests[r].Claimed? {
      if result.Ok() {
        var auth := s.requests[r].auth;
        assert RequestOk(s, r) && Holds(s.requests[r], auth);
        forall q | 0 <= q < |t.requests| ensures RequestOk(t, q) {
          assert RequestOk(s, q);
          if q != r { assert !Holds(s.requests[q], auth); }
        }
        forall p, q, a | 0 <= p < q < |t.requests| && Holds(t.requests[p], a) ensures !Holds(t.requests[q], a) {
          assert Holds(s.requests[p], a);
        }
        forall id, q | id in t.orders && 0 <= q < |t.requests| ensures !Holds(t.requests[q], t.orders[id]) {
          assert !Holds(s.requests[q], s.orders[id]);
        }
      } else {
        GoesKeeps(c, s, r, Answered(402));
      }
    }
  }

  lemma SaveJobKeepsOrders(c: Config, s: State, r: nat, id: Id, prd: string)
    requires Inv(c, s) && r < |s.requests| && s.requests[r].Settled? && Fresh(s, id)
    ensures RequestsOk(DoSaveJob(s, r, id, prd)) && OrdersOk(DoSaveJob(s, r, id, prd))
  {
    var t, auth := DoSaveJob(s, r, id, prd), s.requests[r].auth;
    assert RequestOk(s, r) && Holds(s.requests[r], auth);
    assert id !in s.orders;
    forall q | 0 <= q < |t.requests| ensures RequestOk(t, q) && !Holds(t.requests[q], auth) {
      assert RequestOk(s, q);
    }
    forall p, q, a | 0 <= p < q < |t.requests| && Holds(t.requests[p], a) ensures !Holds(t.requests[q], a) {
      assert Holds(s.requests[p], a);
    }
    forall k, q | k in t.orders && 0 <= q < |t.requests| ensures !Holds(t.requests[q], t.orders[k]) {
      if k != id { assert !Holds(s.requests[q], s.orders[k]); }
    }
    forall k, other | k in t.orders && other in t.orders && t.orders[k] == t.orders[other] ensures k == other {
      if k != id { assert !Holds(s.requests[r], s.orders[k]); }
      if other != id { assert !Holds(s.requests[r], s.orders[other]); }
    }
  }

  lemma SaveJobKeeps(c: Config, s: State, r: nat, id: Id, prd: string)
    requires Inv(c, s) && r < |s.requests|
    ensures Inv(c, DoSaveJob(s, r, id, prd))
  {
    if s.requests[r].Settled? && Fresh(s, id) {
      var job := Jobs.Accepted(prd, true, false, Truncate(s.now));
      SaveJobKeepsOrders(c, s, r, id, prd);
      Safety.CreateKeepsOrders(s.build, id, job);
    }
  }

  lemma SavePreviewKeeps(c: Config, s: State, id: Id, prd: string)
    requires Inv(c, s)
    ensures Inv(c, DoSavePreview(s, id, prd))
  {
    var job := Jobs.Accepted(prd, false, true, Truncate(s.now));
    Safety.CreateKeepsOrders(s.build, id, job);
    OnlyBuildChanges(s, DoSavePreview(s, id, prd));
  }

  lemma OnlyBuildChanges(s: State, t: State)
    requires RequestsOk(s) && OrdersOk(s) && t == s.(build := t.build)
    ensures RequestsOk(t) && OrdersOk(t)
  {
    forall q | 0 <= q < |t.requests| ensures RequestOk(t, q) { assert RequestOk(s, q); }
  }

  /** No step of durable execution makes or unmakes an order, whatever it does to the builds. */
  lemma BuildKeeps(c: Config, s: State, x: B.Step)
    requires Inv(c, s)
    ensures Inv(c, DoBuild(c, s, x))
  {
    if !x.Create? { BuildStepKeeps(c, s, x); }
  }

  lemma BuildStepKeeps(c: Config, s: State, x: B.Step)
    requires Inv(c, s) && !x.Create?
    ensures Inv(c, s.(build := B.Exec(c.build, s.build, x)))
  {
    Safety.StepKeepsOrders(c.build, s.build, x);
    OnlyBuildChanges(s, s.(build := B.Exec(c.build, s.build, x)));
  }

  lemma PushKeeps(c: Config, s: State, r: nat)
    requires Inv(c, s) && r < |s.requests|
    ensures Inv(c, DoPush(s, r))
  {
    if s.requests[r].Saved? {
      var t := s.(build := B.DoEnqueue(s.build, s.requests[r].id));
      BuildStepKeeps(c, s, B.Enqueue(s.requests[r].id));
      assert t.build == B.Exec(c.build, s.build, B.Enqueue(s.requests[r].id));
      GoesKeeps(c, t, r, Answered(202));
    }
  }

  lemma ArriveKeeps(c: Config, s: State)
    requires Inv(c, s)
    ensures Inv(c, DoArrive(s))
  {
    var t := DoArrive(s);
    forall q | 0 <= q < |t.requests| ensures RequestOk(t, q) {
      if q < |s.requests| { assert RequestOk(s, q); }
    }
  }

  lemma TickKeeps(c: Config, s: State, dt: real)
    requires Inv(c, s)
    ensures Inv(c, DoTick(s, dt))
  {
    var t := DoTick(s, dt);
    forall q | 0 <= q < |t.requests| ensures RequestOk(t, q) { assert RequestOk(s, q); }
  }

  lemma StepKeeps(c: Config, s: State, x: Step)
    requires Inv(c, s)
    ensures Inv(c, Exec(c, s, x))
  {
    if x.Arrive? || x.SavePreview? || x.Tick? || x.Build? {
      OtherStepKeeps(c, s, x);
    } else if x.r < |s.requests| {
      RequestStepKeeps(c, s, x);
      assert Exec(c, s, x) == RequestStep(c, s, x);
    } else {
      assert Exec(c, s, x) == s;
    }
  }

  lemma OtherStepKeeps(c: Config, s: State, x: Step)
    requires Inv(c, s)
    requires x.Arrive? || x.SavePreview? || x.Tick? || x.Build?
    ensures Inv(c, Exec(c, s, x))
  {
    match x
    case Arrive => ArriveKeeps(c, s);
    case SavePreview(id, prd) => SavePreviewKeeps(c, s, id, prd);
    case Tick(dt) => TickKeeps(c, s, dt);
    case Build(y) => BuildKeeps(c, s, y);
  }

  lemma RequestStepKeeps(c: Config, s: State, x: Step)
    requires Inv(c, s)
    requires !x.Arrive? && !x.SavePreview? && !x.Tick? && !x.Build? && x.r < |s.requests|
    ensures Inv(c, RequestStep(c, s, x))
  {
    match x
    case Refuse(r, status) => GoesKeeps(c, s, r, Answered(status));
    case Verify(r, p) => GoesKeeps(c, s, r, Verified(AuthOf(c, p.auth)));
    case ReadClock(r) => if s.requests[r].Verified? { GoesKeeps(c, s, r, Clocked(s.requests[r].auth, s.now)); }
    case SetNx(r) => SetNxKeeps(c, s, r);
    case Settle(r, result) => SettleKeeps(c, s, r, result);
    case SaveJob(r, id, prd) => SaveJobKeeps(c, s, r, id, prd);
    case Push(r) => PushKeeps(c, s, r);
    case Abandon(r) => GoesKeeps(c, s, r, Died);
  }

  lemma {:induction false} RunKeeps(c: Config, s: State, steps: seq<Step>)
    requires Inv(c, s)
    ensures Inv(c, Run(c, s, steps))
    decreases |steps|
  {
    if steps != [] {
      StepKeeps(c, s, steps[0]);
      RunKeeps(c, Exec(c, s, steps[0]), steps[1..]);
    }
  }

  lemma {:induction false} Reachable(c: Config, steps: seq<Step>)
    ensures Inv(c, Run(c, INIT, steps))
  {
    RunKeeps(c, INIT, steps);
  }

  // ---- what this means -----------------------------------------------------

  /** One authorization buys one job, end to end: in every run of everything together, however workers
      stall and whatever is built twice, a paid job was bought with an authorization that was claimed
      once and settled once, and no other paid job was bought with it. */
  lemma OneAuthorizationBuysOneJob(c: Config, steps: seq<Step>, id: Id, other: Id)
    requires id in Run(c, INIT, steps).build.jobs && Run(c, INIT, steps).build.jobs[id].paid
    requires other in Run(c, INIT, steps).build.jobs && Run(c, INIT, steps).build.jobs[other].paid
    ensures var s := Run(c, INIT, steps);
      && id in s.orders && other in s.orders
      && s.wins[s.orders[id]] == 1 && s.settles[s.orders[id]] == 1
      && (s.orders[id] == s.orders[other] ==> id == other)
  {
    Reachable(c, steps);
  }

  /** Every record the accept paths write stays what it was written as: bought, or a free preview, and
      not both. */
  lemma EveryJobIsPaidOrPreview(c: Config, steps: seq<Step>, id: Id)
    requires id in Run(c, INIT, steps).build.jobs
    ensures var s := Run(c, INIT, steps);
      s.build.jobs[id].paid != s.build.jobs[id].preview && (s.build.jobs[id].preview <==> id !in s.orders)
  {
    Reachable(c, steps);
  }

  /** No authorization is claimed or settled twice, whether or not a job came of it. */
  lemma ClaimedAndSettledOnce(c: Config, steps: seq<Step>, a: Auth)
    ensures Run(c, INIT, steps).settles[a] <= Run(c, INIT, steps).wins[a] <= 1
  {
    Reachable(c, steps);
  }

  /** What a step does to the builds is a step of the build protocol, or nothing. */
  function BuildSteps(c: Config, s: State, x: Step): seq<B.Step> {
    match x
    case Build(y) => if y.Create? || (y.Enqueue? && y.id in s.orders) then [] else [y]
    case SavePreview(id, prd) =>
      if Fresh(s, id) then [B.Create(id, Jobs.Accepted(prd, false, true, Truncate(s.now)))] else []
    case SaveJob(r, id, prd) =>
      if r < |s.requests| && s.requests[r].Settled? && Fresh(s, id)
      then [B.Create(id, Jobs.Accepted(prd, true, false, Truncate(s.now)))] else []
    case Push(r) => if r < |s.requests| && s.requests[r].Saved? then [B.Enqueue(s.requests[r].id)] else []
    case _ => []
  }

  function AllBuildSteps(c: Config, s: State, steps: seq<Step>): seq<B.Step>
    decreases |steps|
  {
    if steps == [] then [] else BuildSteps(c, s, steps[0]) + AllBuildSteps(c, Exec(c, s, steps[0]), steps[1..])
  }

  lemma StepOfTheBuild(c: Config, s: State, x: Step)
    ensures |BuildSteps(c, s, x)| <= 1
    ensures Exec(c, s, x).build
            == if BuildSteps(c, s, x) == [] then s.build else B.Exec(c.build, s.build, BuildSteps(c, s, x)[0])
  {
  }

  /** Whatever goes on around them, the builds go through a run of the build protocol, so everything
      that holds of those runs holds end to end. */
  lemma {:induction false} BuildPartIsARun(c: Config, s: State, steps: seq<Step>)
    ensures Run(c, s, steps).build == B.Run(c.build, s.build, AllBuildSteps(c, s, steps))
    decreases |steps|
  {
    if steps != [] {
      var (t, ys) := (Exec(c, s, steps[0]), BuildSteps(c, s, steps[0]));
      StepOfTheBuild(c, s, steps[0]);
      assert B.Run(c.build, s.build, ys) == t.build by {
        if ys != [] { Safety.TraceIsRun(c.build, [s.build, t.build], ys); }
      }
      BuildPartIsARun(c, t, steps[1..]);
      B.RunAppend(c.build, s.build, ys, AllBuildSteps(c, t, steps[1..]));
    }
  }

  /** However often a job is requeued, it is built at most maxAttempts times if leases lapse in time. */
  lemma JobsAreBuiltBoundedly(c: Config, steps: seq<Step>, id: Id)
    requires c.build.timed
    ensures Run(c, INIT, steps).build.starts[id] <= c.build.maxAttempts
  {
    BuildPartIsARun(c, INIT, steps);
    Safety.AttemptsAreBounded(c.build, AllBuildSteps(c, INIT, steps), id);
  }

  /** This step is a claim that wins. */
  predicate Grants(c: Config, s: State, x: Step) {
    && x.SetNx? && x.r < |s.requests| && s.requests[x.r].Clocked?
    && Nonces.Prompt(ClaimOf(s, x.r), c.grace) && Nonces.RedisGranted(s.keys, ClaimOf(s, x.r))
  }

  lemma RequestTouchesNonces(c: Config, s: State, x: Step)
    requires !Grants(c, s, x)
    requires !x.Arrive? && !x.SavePreview? && !x.Tick? && !x.Build? && x.r < |s.requests|
    ensures RequestStep(c, s, x).keys == s.keys && RequestStep(c, s, x).wins == s.wins
  {
  }

  lemma StepTouchesNonces(c: Config, s: State, x: Step)
    requires !Grants(c, s, x)
    ensures Exec(c, s, x).keys == s.keys && Exec(c, s, x).wins == s.wins
  {
    if !x.Arrive? && !x.SavePreview? && !x.Tick? && !x.Build? && x.r < |s.requests| {
      RequestTouchesNonces(c, s, x);
    }
  }

  /** Over any run the nonce store changes only by a request that passed every check before it and wins
      its claim: refusals by limit, readiness, document, header, signature or precheck leave it
      alone, and so does everything the workers do, however often they retry. */
  lemma {:induction false} OnlyGrantsTouchNonces(c: Config, s: State, steps: seq<Step>)
    requires Run(c, s, steps).keys != s.keys || Run(c, s, steps).wins != s.wins
    ensures exists i :: 0 <= i < |steps| && Grants(c, Run(c, s, steps[..i]), steps[i])
    decreases |steps|
  {
    if Grants(c, s, steps[0]) {
      assert Run(c, s, steps[..0]) == s;
    } else {
      var t := Exec(c, s, steps[0]);
      StepTouchesNonces(c, s, steps[0]);
      OnlyGrantsTouchNonces(c, t, steps[1..]);
      var i :| 0 <= i < |steps| - 1 && Grants(c, Run(c, t, steps[1..][..i]), steps[1..][i]);
      assert steps[..i + 1][1..] == steps[1..][..i];
      assert Grants(c, Run(c, s, steps[..i + 1]), steps[i + 1]);
    }
  }

  lemma StepKeepsKey(c: Config, s: State, x: Step, k: string)
    requires k in s.keys
    ensures k in Exec(c, s, x).keys && s.keys[k] <= Exec(c, s, x).keys[k]
  {
    if Grants(c, s, x) {
      assert Exec(c, s, x) == DoSetNx(c, s, x.r);
    } else {
      StepTouchesNonces(c, s, x);
    }
  }

  /** A nonce once claimed is never released: over any run, with settlements refused, unknown or
      done, its key stays, and its deadline is never brought forward. */
  lemma {:induction false} ClaimsAreNeverReleased(c: Config, s: State, steps: seq<Step>, k: string)
    requires k in s.keys
    ensures k in Run(c, s, steps).keys && s.keys[k] <= Run(c, s, steps).keys[k]
    decreases |steps|
  {
    if steps != [] {
      StepKeepsKey(c, s, steps[0], k);
      ClaimsAreNeverReleased(c, Exec(c, s, steps[0]), steps[1..], k);
    }
  }

  // ---- one process ---------------------------------------------------------

  /** The in-memory store may forget an expired claim because verification refuses expired payments.
      For a claim made as the payment is verified that is so exactly without clock skew: a payment
      that verifies is answered unlike by a store that never forgets exactly when it was claimed
      before and has reached its validBefore, which takes a skew that still admits it. */
  lemma VerifiedClaimsAreRemembered(run: seq<Nonces.Claim>, expiry: Nonces.Key -> int, from: int, i: nat,
                                    c: Config, p: Payload)
    requires Nonces.ClockOk(run, from) && Nonces.OneExpiry(run, expiry) && i < |run|
    requires run[i].key == AuthOf(c, p.auth).key && run[i].expiresAt == AuthOf(c, p.auth).expiresAt
    requires Acceptable(p, c.token, c.payTo, c.price, run[i].at, c.skew)
    ensures |Nonces.Answers(map[], run)| == |run| && |Nonces.Remembering({}, run)| == |run|
    ensures Nonces.Answers(map[], run)[i] != Nonces.Remembering({}, run)[i]
            <==> p.auth.validBefore <= run[i].at && !Nonces.Remembering({}, run)[i]
    ensures Nonces.Answers(map[], run)[i] != Nonces.Remembering({}, run)[i]
            ==> 0 <= run[i].at - p.auth.validBefore < c.skew
  {
    Nonces.EvictionIsInvisible(run, expiry, from, i);
  }
}
