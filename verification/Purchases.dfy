/** The books of the service, kept beside any run of the accept protocol: who showed which payload,
    what became of every settled payment and of every paid job, and what the chain has paid out. */
module Purchases {
  import opened Clocks
  import opened Options
  import opened Payments
  import opened Accepting
  import B = BuildProtocol
  import Safety = BuildSafety

  /** What became of a settled payment: its request still holds it, it bought a job, or its request
      ended before there was one. */
  datatype Fate = Holding(r: nat) | Sold(id: Id) | Unserved

  /** What became of a paid job: its request has still to queue it, it was queued, or its request ended
      before that. */
  datatype Place = Waiting(r: nat) | Queued | Dropped

  datatype Books = Books(
    shown: map<nat, Payload>,  // the payload each request passed verification with
    buyers: map<Id, nat>,      // the request that bought each paid job
    fates: map<Auth, Fate>,
    places: map<Id, Place>,
    ledger: Ledger)

  datatype World = World(s: State, books: Books)

  function Opening(ledger: Ledger): World { World(INIT, Books(map[], map[], map[], map[], ledger)) }

  /** A step that has an effect in a state. */
  predicate Verifies(c: Config, s: State, x: Step) {
    && x.Verify? && x.r < |s.requests| && s.requests[x.r].Arrived?
    && Acceptable(x.payload, c.token, c.payTo, c.price, Truncate(s.now), c.skew)
  }

  predicate Settles(s: State, x: Step) { x.Settle? && x.r < |s.requests| && s.requests[x.r].Claimed? }

  predicate Saves(s: State, x: Step) {
    x.SaveJob? && x.r < |s.requests| && s.requests[x.r].Settled? && Fresh(s, x.id)
  }

  predicate Pushes(s: State, x: Step) { x.Push? && x.r < |s.requests| && s.requests[x.r].Saved? }

  predicate Abandons(s: State, x: Step) { x.Abandon? && x.r < |s.requests| }

  /** The facilitator says paid only of a transfer this settlement has put on the chain; `reached` tells
      whether any of its attempts got there. */
  predicate Honest(c: Config, w: World, x: Step, reached: bool) {
    Settles(w.s, x) && x.result.Ok() ==>
      reached && x.r in w.books.shown && NonceOf(c.token, w.books.shown[x.r].auth) !in w.books.ledger.used
  }

  function Booked(c: Config, s: State, b: Books, x: Step, reached: bool): Books {
    if Verifies(c, s, x) then b.(shown := b.shown[x.r := x.payload])
    else if Settles(s, x) then
      b.(ledger := if reached && x.r in b.shown then Submit(b.ledger, c.token, b.shown[x.r].auth) else b.ledger,
         fates := if x.result.Ok() then b.fates[s.requests[x.r].auth := Holding(x.r)] else b.fates)
    else if Saves(s, x) then
      b.(buyers := b.buyers[x.id := x.r], places := b.places[x.id := Waiting(x.r)],
         fates := b.fates[s.requests[x.r].auth := Sold(x.id)])
    else if Pushes(s, x) then b.(places := b.places[s.requests[x.r].id := Queued])
    else if Abandons(s, x) && s.requests[x.r].Saved? then b.(places := b.places[s.requests[x.r].id := Dropped])
    else if Abandons(s, x) && s.requests[x.r].Settled? then b.(fates := b.fates[s.requests[x.r].auth := Unserved])
    else b
  }

  function Next(c: Config, w: World, x: Step, reached: bool): World {
    World(Exec(c, w.s, x), Booked(c, w.s, w.books, x, reached))
  }

  function RunAll(c: Config, w: World, steps: seq<(Step, bool)>): World
    decreases |steps|
  {
    if steps == [] then w else RunAll(c, Next(c, w, steps[0].0, steps[0].1), steps[1..])
  }

  /** The facilitator is honest all through this run. */
  predicate AllHonest(c: Config, w: World, steps: seq<(Step, bool)>)
    decreases |steps|
  {
    steps == [] ||
    (Honest(c, w, steps[0].0, steps[0].1) && AllHonest(c, Next(c, w, steps[0].0, steps[0].1), steps[1..]))
  }

  function StepsOf(steps: seq<(Step, bool)>): seq<Step>
    decreases |steps|
  {
    if steps == [] then [] else [steps[0].0] + StepsOf(steps[1..])
  }

  /** The books only watch: the run beside them is a run of the accept protocol. */
  lemma {:induction false} BooksOnlyWatch(c: Config, w: World, steps: seq<(Step, bool)>)
    ensures RunAll(c, w, steps).s == Run(c, w.s, StepsOf(steps))
    decreases |steps|
  {
    if steps != [] { BooksOnlyWatch(c, Next(c, w, steps[0].0, steps[0].1), steps[1..]); }
  }

  // ---- what the books keep -------------------------------------------------

  /** Carrying an authorization. */
  predicate Authed(q: Request) { q.Verified? || q.Clocked? || q.Claimed? || q.Settled? }

  /** What is lasting about an acceptable payload: signed by its payer, made out to us, for the price,
      and for this authorization. */
  predicate Sound(c: Config, p: Payload, a: Auth) {
    Genuine(p, c.token, c.payTo, c.price) && AuthOf(c, p.auth) == a
  }

  /** Every authorization a request carries or bought with is that of a sound payload it showed. */
  ghost predicate ShownOk(sound: (Payload, Auth) -> bool, s: State, b: Books) {
    && (forall r :: r in b.shown ==> r < |s.requests| && !s.requests[r].Arrived?)
    && (forall r :: 0 <= r < |s.requests| && Authed(s.requests[r]) ==>
          r in b.shown && sound(b.shown[r], s.requests[r].auth))
    && (forall id :: id in s.orders ==>
          id in b.buyers && b.buyers[id] in b.shown && sound(b.shown[b.buyers[id]], s.orders[id]))
  }

  ghost predicate PlaceOk(s: State, id: Id, p: Place) {
    match p
    case Waiting(r) => r < |s.requests| && s.requests[r] == Saved(id) && id !in s.build.pushed
    case Queued => id in s.build.pushed
    case Dropped => id !in s.build.pushed
  }

  ghost predicate PlacesOk(s: State, b: Books) {
    && b.places.Keys == s.orders.Keys
    && (forall id :: id in b.places ==> PlaceOk(s, id, b.places[id]))
    && (forall r :: 0 <= r < |s.requests| && s.requests[r].Saved? ==>
          s.requests[r].id in b.places && b.places[s.requests[r].id] == Waiting(r))
  }

  ghost predicate FateOk(s: State, a: Auth, f: Fate) {
    match f
    case Holding(r) => r < |s.requests| && s.requests[r] == Settled(a)
    case Sold(id) => id in s.orders && s.orders[id] == a
    case Unserved => true
  }

  ghost predicate FatesOk(s: State, b: Books) {
    && (forall a :: a in b.fates <==> s.settles[a] > 0)
    && (forall a :: a in b.fates ==> FateOk(s, a, b.fates[a]))
    && (forall r :: 0 <= r < |s.requests| && s.requests[r].Settled? ==>
          s.requests[r].auth in b.fates && b.fates[s.requests[r].auth] == Holding(r))
    && (forall id :: id in s.orders ==> s.orders[id] in b.fates && b.fates[s.orders[id]] == Sold(id))
  }

  ghost predicate MoneyOk(price: int, start: int, b: Books) {
    b.ledger.received >= start + price * |b.fates|
  }

  // ---- steps, field by field -----------------------------------------------

  /** Only request r has moved. */
  ghost predicate OneMoves(s: State, t: State, r: nat) {
    r < |s.requests| == |t.requests| && t.requests == s.requests[r := t.requests[r]]
  }

  /** The other steps move no request, and queue no paid job. */
  ghost predicate Aside(s: State, t: State) {
    && (t.requests == s.requests || t.requests == s.requests + [Arrived])
    && t.orders == s.orders && t.settles == s.settles && s.build.pushed <= t.build.pushed
    && forall id :: id in s.orders && id !in s.build.pushed ==> id !in t.build.pushed
  }

  lemma OthersStandAside(c: Config, s: State, x: Step)
    requires x.Arrive? || x.SavePreview? || x.Tick? || x.Build?
    ensures Aside(s, Exec(c, s, x))
  {
    if x.Build? {
      BuildPushes(c.build, s.build, x.x);
    }
  }

  lemma BuildPushes(c: B.Config, s: B.State, y: B.Step)
    ensures s.pushed <= B.Exec(c, s, y).pushed <= s.pushed + (if y.Enqueue? then {y.id} else {})
  {
  }

  /** A request's own step. */
  predicate IsRequestStep(s: State, x: Step) {
    !x.Arrive? && !x.SavePreview? && !x.Tick? && !x.Build? && x.r < |s.requests|
  }

  lemma RequestMoves(c: Config, s: State, x: Step)
    requires IsRequestStep(s, x) && !x.SaveJob?
    ensures var t := Exec(c, s, x);
      && OneMoves(s, t, x.r) && t.orders == s.orders
      && (x.Settle? || t.settles == s.settles) && (x.Push? || t.build == s.build)
  {
    RequestKeeps(c, s, x);
    assert OneMoves(s, Exec(c, s, x), x.r);
  }

  lemma RequestKeeps(c: Config, s: State, x: Step)
    requires IsRequestStep(s, x) && !x.SaveJob?
    ensures var t := RequestStep(c, s, x);
      t.orders == s.orders && (x.Settle? || t.settles == s.settles) && (x.Push? || t.build == s.build)
  {
  }

  /** How request r can change its phase: it keeps its authorization, stays at a saved or settled job
      until it pushes, saves or dies, and gets there by those steps alone. */
  ghost predicate PhaseMoves(p: Request, q: Request, x: Step) {
    p == q ||
    (&& !q.Arrived? && !q.Saved?
     && (Authed(q) && !x.Verify? ==> Authed(p) && p.auth == q.auth)
     && (q.Settled? ==> x.Settle?)
     && (p.Saved? ==> x.Push? || x.Abandon?)
     && (p.Settled? ==> x.Abandon?))
  }

  lemma RequestPhases(c: Config, s: State, x: Step)
    requires IsRequestStep(s, x) && !x.SaveJob?
    ensures x.r < |Exec(c, s, x).requests| && PhaseMoves(s.requests[x.r], Exec(c, s, x).requests[x.r], x)
  {
  }

  // ---- what was shown ------------------------------------------------------

  lemma ShownGoesOn(sound: (Payload, Auth) -> bool, s: State, b: Books, t: State, d: Books, r: nat)
    requires ShownOk(sound, s, b) && OneMoves(s, t, r)
    requires t.orders == s.orders && d.shown == b.shown && d.buyers == b.buyers
    requires t.requests[r] == s.requests[r] || !t.requests[r].Arrived?
    requires Authed(t.requests[r]) ==> Authed(s.requests[r]) && s.requests[r].auth == t.requests[r].auth
    ensures ShownOk(sound, t, d)
  {
  }

  lemma ShownByVerify(sound: (Payload, Auth) -> bool, s: State, b: Books, t: State, r: nat, p: Payload)
    requires ShownOk(sound, s, b) && OneMoves(s, t, r) && t.orders == s.orders
    requires s.requests[r].Arrived? && t.requests[r].Verified? && sound(p, t.requests[r].auth)
    ensures ShownOk(sound, t, b.(shown := b.shown[r := p]))
  {
    assert r !in b.shown;
  }

  lemma ShownBySaveJob(sound: (Payload, Auth) -> bool, s: State, b: Books, t: State, d: Books, r: nat, id: Id)
    requires ShownOk(sound, s, b) && OneMoves(s, t, r) && s.requests[r].Settled? && t.requests[r] == Saved(id)
    requires t.orders == s.orders[id := s.requests[r].auth] && d.shown == b.shown && d.buyers == b.buyers[id := r]
    ensures ShownOk(sound, t, d)
  {
  }

  lemma ShownAside(sound: (Payload, Auth) -> bool, s: State, b: Books, t: State)
    requires ShownOk(sound, s, b) && Aside(s, t)
    ensures ShownOk(sound, t, b)
  {
  }

  lemma ShownNext(c: Config, s: State, b: Books, x: Step, reached: bool)
    requires ShownOk((p, a) => Sound(c, p, a), s, b)
    ensures ShownOk((p, a) => Sound(c, p, a), Exec(c, s, x), Booked(c, s, b, x, reached))
  {
    var sound := (p, a) => Sound(c, p, a);
    var (t, d) := (Exec(c, s, x), Booked(c, s, b, x, reached));
    if !IsRequestStep(s, x) {
      NotARequestStep(c, s, b, x, reached);
      ShownAside(sound, s, b, t);
    } else if Verifies(c, s, x) {
      ShownByVerify(sound, s, b, t, x.r, x.payload);
    } else if Saves(s, x) {
      ShownBySaveJob(sound, s, b, t, d, x.r, x.id);
    } else {
      ShownByRequest(c, sound, s, b, x, reached);
    }
  }

  lemma ShownByRequest(c: Config, sound: (Payload, Auth) -> bool, s: State, b: Books, x: Step, reached: bool)
    requires ShownOk(sound, s, b) && IsRequestStep(s, x) && !Verifies(c, s, x) && !Saves(s, x)
    ensures ShownOk(sound, Exec(c, s, x), Booked(c, s, b, x, reached))
  {
    BookedShown(c, s, b, x, reached);
    if x.Verify? || x.SaveJob? {
      NothingHappens(c, s, x);
    } else {
      RequestMoves(c, s, x);
      RequestPhases(c, s, x);
      ShownGoesOn(sound, s, b, Exec(c, s, x), Booked(c, s, b, x, reached), x.r);
    }
  }

  lemma BookedShown(c: Config, s: State, b: Books, x: Step, reached: bool)
    requires !Verifies(c, s, x) && !Saves(s, x)
    ensures var d := Booked(c, s, b, x, reached); d.shown == b.shown && d.buyers == b.buyers
  {
  }

  lemma NothingHappens(c: Config, s: State, x: Step)
    requires (x.Verify? && !Verifies(c, s, x)) || (x.SaveJob? && !Saves(s, x))
    ensures Exec(c, s, x) == s
  {
  }

  lemma NotARequestStep(c: Config, s: State, b: Books, x: Step, reached: bool)
    requires !IsRequestStep(s, x)
    ensures Aside(s, Exec(c, s, x)) && Booked(c, s, b, x, reached) == b
  {
    if x.Arrive? || x.SavePreview? || x.Tick? || x.Build? {
      OthersStandAside(c, s, x);
    } else {
      assert Exec(c, s, x) == s;
    }
  }

  // ---- where the paid jobs are ---------------------------------------------

  lemma PlacesAside(s: State, b: Books, t: State)
    requires PlacesOk(s, b) && Aside(s, t)
    ensures PlacesOk(t, b)
  {
  }

  lemma PlacesGoOn(s: State, b: Books, t: State, d: Books, r: nat)
    requires PlacesOk(s, b) && OneMoves(s, t, r) && t.orders == s.orders && d.places == b.places
    requires t.build == s.build && (t.requests[r] == s.requests[r] || (!t.requests[r].Saved? && !s.requests[r].Saved?))
    ensures PlacesOk(t, d)
  {
  }

  lemma PlacesBySaveJob(s: State, b: Books, t: State, d: Books, r: nat, id: Id)
    requires PlacesOk(s, b) && OneMoves(s, t, r) && s.requests[r].Settled? && t.requests[r] == Saved(id)
    requires id !in s.orders && id !in s.build.pushed && t.build.pushed == s.build.pushed
    requires t.orders.Keys == s.orders.Keys + {id} && d.places == b.places[id := Waiting(r)]
    ensures PlacesOk(t, d)
  {
  }

  lemma PlacesByPush(s: State, b: Books, t: State, d: Books, r: nat)
    requires PlacesOk(s, b) && OneMoves(s, t, r) && s.requests[r].Saved? && !t.requests[r].Saved?
    requires t.orders == s.orders && t.build.pushed == s.build.pushed + {s.requests[r].id}
    requires d.places == b.places[s.requests[r].id := Queued]
    ensures PlacesOk(t, d)
  {
  }

  lemma PlacesByAbandon(s: State, b: Books, t: State, d: Books, r: nat)
    requires PlacesOk(s, b) && OneMoves(s, t, r) && s.requests[r].Saved? && !t.requests[r].Saved?
    requires t.orders == s.orders && t.build == s.build && d.places == b.places[s.requests[r].id := Dropped]
    ensures PlacesOk(t, d)
  {
  }

  lemma PlacesNext(c: Config, s: State, b: Books, x: Step, reached: bool)
    requires Accepting.PaidOk(s) && PlacesOk(s, b)
    ensures PlacesOk(Exec(c, s, x), Booked(c, s, b, x, reached))
  {
    var (t, d) := (Exec(c, s, x), Booked(c, s, b, x, reached));
    if !IsRequestStep(s, x) {
      NotARequestStep(c, s, b, x, reached);
      PlacesAside(s, b, t);
    } else if Saves(s, x) {
      assert t.orders.Keys == s.orders.Keys + {x.id};
      PlacesBySaveJob(s, b, t, d, x.r, x.id);
    } else if Pushes(s, x) {
      PlacesByPush(s, b, t, d, x.r);
    } else {
      PlacesByRequest(c, s, b, x, reached);
    }
  }

  lemma PlacesByRequest(c: Config, s: State, b: Books, x: Step, reached: bool)
    requires PlacesOk(s, b) && IsRequestStep(s, x) && !Saves(s, x) && !Pushes(s, x)
    ensures PlacesOk(Exec(c, s, x), Booked(c, s, b, x, reached))
  {
    var (t, d) := (Exec(c, s, x), Booked(c, s, b, x, reached));
    if x.SaveJob? || x.Push? {
      assert t == s;
    } else {
      RequestMoves(c, s, x);
      RequestPhases(c, s, x);
      if Abandons(s, x) && s.requests[x.r].Saved? {
        PlacesByAbandon(s, b, t, d, x.r);
      } else {
        PlacesGoOn(s, b, t, d, x.r);
      }
    }
  }

  // ---- what became of settled payments -------------------------------------

  lemma FatesAside(s: State, b: Books, t: State)
    requires FatesOk(s, b) && Aside(s, t)
    ensures FatesOk(t, b)
  {
  }

  lemma FatesGoOn(s: State, b: Books, t: State, d: Books, r: nat)
    requires FatesOk(s, b) && OneMoves(s, t, r) && t.orders == s.orders && t.settles == s.settles && d.fates == b.fates
    requires t.requests[r] == s.requests[r] || (!t.requests[r].Settled? && !s.requests[r].Settled?)
    ensures FatesOk(t, d)
  {
  }

  lemma FatesBySettle(s: State, b: Books, t: State, d: Books, r: nat)
    requires FatesOk(s, b) && OneMoves(s, t, r) && s.requests[r].Claimed? && t.requests[r] == Settled(s.requests[r].auth)
    requires s.settles[s.requests[r].auth] == 0 && t.settles == s.settles[s.requests[r].auth := 1]
    requires t.orders == s.orders && d.fates == b.fates[s.requests[r].auth := Holding(r)]
    ensures FatesOk(t, d)
  {
  }

  lemma FatesBySaveJob(s: State, b: Books, t: State, d: Books, r: nat, id: Id)
    requires FatesOk(s, b) && OneMoves(s, t, r) && s.requests[r].Settled? && t.requests[r] == Saved(id)
    requires id !in s.orders && t.orders == s.orders[id := s.requests[r].auth] && t.settles == s.settles
    requires d.fates == b.fates[s.requests[r].auth := Sold(id)]
    ensures FatesOk(t, d)
  {
  }

  lemma FatesByAbandon(s: State, b: Books, t: State, d: Books, r: nat)
    requires FatesOk(s, b) && OneMoves(s, t, r) && s.requests[r].Settled? && !t.requests[r].Settled?
    requires t.orders == s.orders && t.settles == s.settles && d.fates == b.fates[s.requests[r].auth := Unserved]
    ensures FatesOk(t, d)
  {
  }

  lemma FatesNext(c: Config, s: State, b: Books, x: Step, reached: bool)
    requires Accepting.PaidOk(s) && Accepting.RequestsOk(s) && FatesOk(s, b)
    ensures FatesOk(Exec(c, s, x), Booked(c, s, b, x, reached))
  {
    var (t, d) := (Exec(c, s, x), Booked(c, s, b, x, reached));
    if !IsRequestStep(s, x) {
      NotARequestStep(c, s, b, x, reached);
      FatesAside(s, b, t);
    } else if Settles(s, x) && x.result.Ok() {
      assert RequestOk(s, x.r);
      assert t == DoSettle(s, x.r, x.result);
      FatesBySettle(s, b, t, d, x.r);
    } else if Saves(s, x) {
      assert x.id !in s.orders;
      FatesBySaveJob(s, b, t, d, x.r, x.id);
    } else {
      FatesByRequest(c, s, b, x, reached);
    }
  }

  lemma FatesByRequest(c: Config, s: State, b: Books, x: Step, reached: bool)
    requires FatesOk(s, b) && IsRequestStep(s, x) && !Saves(s, x) && !(Settles(s, x) && x.result.Ok())
    ensures FatesOk(Exec(c, s, x), Booked(c, s, b, x, reached))
  {
    var (t, d) := (Exec(c, s, x), Booked(c, s, b, x, reached));
    if x.SaveJob? {
      assert t == s;
    } else {
      RequestMoves(c, s, x);
      RequestPhases(c, s, x);
      if x.Settle? { assert t == s || (t.settles == s.settles && !t.requests[x.r].Settled?); }
      if Abandons(s, x) && s.requests[x.r].Settled? {
        FatesByAbandon(s, b, t, d, x.r);
      } else {
        FatesGoOn(s, b, t, d, x.r);
      }
    }
  }

  // ---- every run -----------------------------------------------------------

  ghost predicate BooksOk(c: Config, w: World) {
    && Accepting.Inv(c, w.s) && ShownOk((p, a) => Sound(c, p, a), w.s, w.books)
    && PlacesOk(w.s, w.books) && FatesOk(w.s, w.books)
  }

  lemma NextKeeps(c: Config, w: World, x: Step, reached: bool)
    requires BooksOk(c, w)
    ensures BooksOk(c, Next(c, w, x, reached))
  {
    Accepting.StepKeeps(c, w.s, x);
    ShownNext(c, w.s, w.books, x, reached);
    PlacesNext(c, w.s, w.books, x, reached);
    FatesNext(c, w.s, w.books, x, reached);
  }

  lemma {:induction false} RunAllKeeps(c: Config, w: World, steps: seq<(Step, bool)>)
    requires BooksOk(c, w)
    ensures BooksOk(c, RunAll(c, w, steps))
    decreases |steps|
  {
    if steps != [] {
      NextKeeps(c, w, steps[0].0, steps[0].1);
      RunAllKeeps(c, Next(c, w, steps[0].0, steps[0].1), steps[1..]);
    }
  }

  lemma OpeningOk(c: Config, ledger: Ledger)
    ensures BooksOk(c, Opening(ledger))
  {
    assert Run(c, INIT, []) == INIT;
    Accepting.Reachable(c, []);
  }

  lemma BooksHold(c: Config, ledger: Ledger, steps: seq<(Step, bool)>)
    ensures BooksOk(c, RunAll(c, Opening(ledger), steps))
  {
    OpeningOk(c, ledger);
    RunAllKeeps(c, Opening(ledger), steps);
  }

  // ---- what this means -----------------------------------------------------

  /** Every paid job was bought with an authorization that its request showed and that was acceptable:
      signed by its payer, made out to us, worth at least the price. */
  lemma PaidJobsAreSound(c: Config, ledger: Ledger, steps: seq<(Step, bool)>, id: Id)
    requires var s := RunAll(c, Opening(ledger), steps).s; id in s.build.jobs && s.build.jobs[id].paid
    ensures var (s, b) := (RunAll(c, Opening(ledger), steps).s, RunAll(c, Opening(ledger), steps).books);
      id in s.orders && id in b.buyers && b.buyers[id] in b.shown && Sound(c, b.shown[b.buyers[id]], s.orders[id])
  {
    BooksHold(c, ledger, steps);
  }

  /** A paid job is in exactly one place: queued, about to be queued by the request that bought it, or
      dropped, because that request ended between the save and the push. */
  lemma PaidJobIsAccountedFor(c: Config, ledger: Ledger, steps: seq<(Step, bool)>, id: Id)
    requires var s := RunAll(c, Opening(ledger), steps).s; id in s.build.jobs && s.build.jobs[id].paid
    ensures var (s, b) := (RunAll(c, Opening(ledger), steps).s, RunAll(c, Opening(ledger), steps).books);
      && id in b.places
      && (b.places[id].Queued? <==> id in s.build.pushed)
      && (b.places[id].Waiting? <==> exists r :: 0 <= r < |s.requests| && s.requests[r] == Saved(id))
  {
    BooksHold(c, ledger, steps);
    var w := RunAll(c, Opening(ledger), steps);
    OnePlace(w.s, w.books, id);
  }

  lemma OnePlace(s: State, b: Books, id: Id)
    requires PlacesOk(s, b) && id in s.orders
    ensures id in b.places && (b.places[id].Queued? <==> id in s.build.pushed)
    ensures b.places[id].Waiting? <==> exists r :: 0 <= r < |s.requests| && s.requests[r] == Saved(id)
  {
    assert PlaceOk(s, id, b.places[id]);
  }

  /** A settled payment, too, has exactly one fate: it bought one job, its request still holds it, or
      that request ended before there was a job. */
  lemma SettledPaymentIsAccountedFor(c: Config, ledger: Ledger, steps: seq<(Step, bool)>, a: Auth)
    ensures var (s, b) := (RunAll(c, Opening(ledger), steps).s, RunAll(c, Opening(ledger), steps).books);
      && (s.settles[a] == 1 <==> a in b.fates)
      && (a in b.fates && b.fates[a].Sold? <==> exists id :: id in s.orders && s.orders[id] == a)
      && (a in b.fates && b.fates[a].Holding? <==> exists r :: 0 <= r < |s.requests| && s.requests[r] == Settled(a))
  {
    BooksHold(c, ledger, steps);
    var w := RunAll(c, Opening(ledger), steps);
    OneFate(w.s, w.books, a);
  }

  lemma OneFate(s: State, b: Books, a: Auth)
    requires FatesOk(s, b)
    ensures a in b.fates && b.fates[a].Sold? <==> exists id :: id in s.orders && s.orders[id] == a
    ensures a in b.fates && b.fates[a].Holding? <==> exists r :: 0 <= r < |s.requests| && s.requests[r] == Settled(a)
  {
    if a in b.fates { assert FateOk(s, a, b.fates[a]); }
  }

  // ---- the money -----------------------------------------------------------

  lemma OneMorePaid(price: int, start: int, b: Books, d: Books, a: Auth, f: Fate)
    requires MoneyOk(price, start, b) && a !in b.fates && d.fates == b.fates[a := f]
    requires d.ledger.received >= b.ledger.received + price
    ensures MoneyOk(price, start, d)
  {
    assert d.fates.Keys == b.fates.Keys + {a};
    assert |d.fates.Keys| == |b.fates.Keys| + 1;
    assert |d.fates| == |d.fates.Keys| && |b.fates| == |b.fates.Keys|;
    assert price * (|b.fates| + 1) == price * |b.fates| + price;
  }

  lemma SameMoney(price: int, start: int, b: Books, d: Books)
    requires MoneyOk(price, start, b) && d.fates.Keys == b.fates.Keys && d.ledger.received >= b.ledger.received
    ensures MoneyOk(price, start, d)
  {
    assert |d.fates| == |d.fates.Keys| && |b.fates| == |b.fates.Keys|;
  }

  lemma MoneyBySettle(c: Config, start: int, w: World, x: Step, reached: bool)
    requires BooksOk(c, w) && MoneyOk(c.price, start, w.books)
    requires c.price >= 0 && Honest(c, w, x, reached) && Settles(w.s, x)
    ensures MoneyOk(c.price, start, Booked(c, w.s, w.books, x, reached))
  {
    var (b, d, a) := (w.books, Booked(c, w.s, w.books, x, reached), w.s.requests[x.r].auth);
    assert Authed(w.s.requests[x.r]) && Sound(c, b.shown[x.r], a);
    if x.result.Ok() {
      assert RequestOk(w.s, x.r);
      OneMorePaid(c.price, start, b, d, a, Holding(x.r));
    } else {
      SameMoney(c.price, start, b, d);
    }
  }

  lemma MoneyNext(c: Config, start: int, w: World, x: Step, reached: bool)
    requires BooksOk(c, w) && MoneyOk(c.price, start, w.books) && c.price >= 0 && Honest(c, w, x, reached)
    ensures MoneyOk(c.price, start, Booked(c, w.s, w.books, x, reached))
  {
    if Settles(w.s, x) {
      MoneyBySettle(c, start, w, x, reached);
    } else {
      NoOtherPayments(c, w.s, w.books, x, reached);
      SameMoney(c.price, start, w.books, Booked(c, w.s, w.books, x, reached));
    }
  }

  lemma NoOtherPayments(c: Config, s: State, b: Books, x: Step, reached: bool)
    requires FatesOk(s, b) && !Settles(s, x)
    ensures var d := Booked(c, s, b, x, reached); d.ledger == b.ledger && d.fates.Keys == b.fates.Keys
  {
    if Saves(s, x) || (Abandons(s, x) && s.requests[x.r].Settled?) { assert s.requests[x.r].auth in b.fates; }
  }

  lemma {:induction false} MoneyAllAlong(c: Config, start: int, w: World, steps: seq<(Step, bool)>)
    requires BooksOk(c, w) && MoneyOk(c.price, start, w.books) && c.price >= 0 && AllHonest(c, w, steps)
    ensures MoneyOk(c.price, start, RunAll(c, w, steps).books)
    decreases |steps|
  {
    if steps != [] {
      var (x, reached) := steps[0];
      NextKeeps(c, w, x, reached);
      MoneyNext(c, start, w, x, reached);
      MoneyAllAlong(c, start, Next(c, w, x, reached), steps[1..]);
    }
  }

  lemma {:induction false} Injective(orders: map<Id, Auth>, ids: set<Id>, auths: set<Auth>)
    requires ids <= orders.Keys && forall id :: id in ids ==> orders[id] in auths
    requires forall id, other :: id in ids && other in ids && orders[id] == orders[other] ==> id == other
    ensures |ids| <= |auths|
    decreases |ids|
  {
    if ids != {} {
      var id :| id in ids;
      Injective(orders, ids - {id}, auths - {orders[id]});
    }
  }

  lemma FewerJobsThanPayments(c: Config, s: State, b: Books)
    requires Accepting.OrdersOk(s) && FatesOk(s, b)
    ensures |s.orders| <= |b.fates|
  {
    Injective(s.orders, s.orders.Keys, b.fates.Keys);
    assert |s.orders| == |s.orders.Keys| && |b.fates| == |b.fates.Keys|;
  }

  lemma Scaled(price: int, m: nat, n: nat)
    requires price >= 0 && m <= n
    ensures price * m <= price * n
  {
    assert price * (n - m) >= 0;
  }

  /** The service is paid for what it sells: under an honest facilitator the recipient has received at
      least the price for every settled payment, and so for every paid job, whatever is retried,
      refused, lost or built again. */
  lemma EveryJobIsPaidFor(c: Config, ledger: Ledger, steps: seq<(Step, bool)>)
    requires c.price >= 0 && AllHonest(c, Opening(ledger), steps)
    ensures var (s, b) := (RunAll(c, Opening(ledger), steps).s, RunAll(c, Opening(ledger), steps).books);
      b.ledger.received - ledger.received >= c.price * |b.fates| >= c.price * |s.orders|
  {
    OpeningOk(c, ledger);
    BooksHold(c, ledger, steps);
    MoneyAllAlong(c, ledger.received, Opening(ledger), steps);
    var w := RunAll(c, Opening(ledger), steps);
    FewerJobsThanPayments(c, w.s, w.books);
    Scaled(c.price, |w.s.orders|, |w.books.fates|);
  }

  // ---- the nonces of the chain ---------------------------------------------

  type Nonce = (string, string, string)

  /** The nonces of the payments that were settled, whether or not a job has come of them yet, are all
      used on the chain, and all different. */
  ghost predicate SpentOk(nonceOf: Payload -> Nonce, s: State, b: Books) {
    && (forall r :: 0 <= r < |s.requests| && s.requests[r].Settled? ==>
          r in b.shown && nonceOf(b.shown[r]) in b.ledger.used)
    && (forall id :: id in s.orders ==>
          id in b.buyers && b.buyers[id] in b.shown && nonceOf(b.shown[b.buyers[id]]) in b.ledger.used)
    && (forall r, q :: 0 <= r < q < |s.requests| && s.requests[r].Settled? && s.requests[q].Settled? ==>
          nonceOf(b.shown[r]) != nonceOf(b.shown[q]))
    && (forall r, id :: 0 <= r < |s.requests| && s.requests[r].Settled? && id in s.orders ==>
          nonceOf(b.shown[r]) != nonceOf(b.shown[b.buyers[id]]))
    && (forall id, other :: id in s.orders && other in s.orders && id != other ==>
          nonceOf(b.shown[b.buyers[id]]) != nonceOf(b.shown[b.buyers[other]]))
  }

  lemma SpentAside(nonceOf: Payload -> Nonce, s: State, b: Books, t: State)
    requires SpentOk(nonceOf, s, b) && Aside(s, t)
    ensures SpentOk(nonceOf, t, b)
  {
  }

  lemma SpentGoesOn(nonceOf: Payload -> Nonce, s: State, b: Books, t: State, d: Books, r: nat)
    requires SpentOk(nonceOf, s, b) && OneMoves(s, t, r) && t.orders == s.orders
    requires d.shown == b.shown && d.buyers == b.buyers && b.ledger.used <= d.ledger.used
    requires t.requests[r].Settled? ==> s.requests[r].Settled?
    ensures SpentOk(nonceOf, t, d)
  {
  }

  lemma SpentByVerify(nonceOf: Payload -> Nonce, s: State, b: Books, t: State, r: nat, p: Payload)
    requires SpentOk(nonceOf, s, b) && OneMoves(s, t, r) && t.orders == s.orders
    requires r !in b.shown && t.requests[r].Verified?
    ensures SpentOk(nonceOf, t, b.(shown := b.shown[r := p]))
  {
  }

  lemma SpentBySettle(nonceOf: Payload -> Nonce, s: State, b: Books, t: State, d: Books, r: nat)
    requires SpentOk(nonceOf, s, b) && OneMoves(s, t, r) && t.orders == s.orders
    requires d.shown == b.shown && d.buyers == b.buyers && b.ledger.used <= d.ledger.used
    requires r in b.shown && nonceOf(b.shown[r]) !in b.ledger.used && nonceOf(b.shown[r]) in d.ledger.used
    ensures SpentOk(nonceOf, t, d)
  {
  }

  lemma SpentBySaveJob(nonceOf: Payload -> Nonce, s: State, b: Books, t: State, d: Books, r: nat, id: Id)
    requires SpentOk(nonceOf, s, b) && OneMoves(s, t, r) && s.requests[r].Settled? && !t.requests[r].Settled?
    requires id !in s.orders && t.orders == s.orders[id := s.requests[r].auth]
    requires d.shown == b.shown && d.buyers == b.buyers[id := r] && d.ledger == b.ledger
    ensures SpentOk(nonceOf, t, d)
  {
  }

  lemma SpentNext(c: Config, w: World, x: Step, reached: bool, nonceOf: Payload -> Nonce)
    requires SpentOk(nonceOf, w.s, w.books) && Honest(c, w, x, reached)
    requires x.Settle? && x.r in w.books.shown ==>
      nonceOf(w.books.shown[x.r]) == NonceOf(c.token, w.books.shown[x.r].auth)
    requires Verifies(c, w.s, x) ==> x.r !in w.books.shown
    requires Saves(w.s, x) ==> x.id !in w.s.orders
    ensures SpentOk(nonceOf, Next(c, w, x, reached).s, Next(c, w, x, reached).books)
  {
    var (s, b, t, d) := (w.s, w.books, Exec(c, w.s, x), Booked(c, w.s, w.books, x, reached));
    if !IsRequestStep(s, x) {
      NotARequestStep(c, s, b, x, reached);
      SpentAside(nonceOf, s, b, t);
    } else if Verifies(c, s, x) {
      SpentByVerify(nonceOf, s, b, t, x.r, x.payload);
    } else if Saves(s, x) {
      SpentBySaveJob(nonceOf, s, b, t, d, x.r, x.id);
    } else {
      SpentByRequest(c, w, x, reached, nonceOf);
    }
  }

  lemma SpentByRequest(c: Config, w: World, x: Step, reached: bool, nonceOf: Payload -> Nonce)
    requires SpentOk(nonceOf, w.s, w.books) && Honest(c, w, x, reached)
    requires x.Settle? && x.r in w.books.shown ==>
      nonceOf(w.books.shown[x.r]) == NonceOf(c.token, w.books.shown[x.r].auth)
    requires IsRequestStep(w.s, x) && !Verifies(c, w.s, x) && !Saves(w.s, x)
    ensures SpentOk(nonceOf, Next(c, w, x, reached).s, Next(c, w, x, reached).books)
  {
    var (s, b, t, d) := (w.s, w.books, Exec(c, w.s, x), Booked(c, w.s, w.books, x, reached));
    BookedShown(c, s, b, x, reached);
    if x.Verify? || x.SaveJob? {
      NothingHappens(c, s, x);
    } else {
      RequestMoves(c, s, x);
      if Settles(s, x) && x.result.Ok() {
        assert d.ledger == Submit(b.ledger, c.token, b.shown[x.r].auth);
        SpentBySettle(nonceOf, s, b, t, d, x.r);
      } else {
        OnlySettlingSettles(c, s, x);
        SpentGoesOn(nonceOf, s, b, t, d, x.r);
      }
    }
  }

  lemma OnlySettlingSettles(c: Config, s: State, x: Step)
    requires IsRequestStep(s, x) && !x.SaveJob? && !(Settles(s, x) && x.result.Ok())
    ensures x.r < |Exec(c, s, x).requests| && (Exec(c, s, x).requests[x.r].Settled? ==> s.requests[x.r].Settled?)
  {
  }

  lemma NewHands(c: Config, w: World, x: Step)
    requires BooksOk(c, w)
    ensures Verifies(c, w.s, x) ==> x.r !in w.books.shown
    ensures Saves(w.s, x) ==> x.id !in w.s.orders
  {
  }

  lemma {:induction false} SpentAllAlong(c: Config, w: World, steps: seq<(Step, bool)>, nonceOf: Payload -> Nonce)
    requires BooksOk(c, w) && SpentOk(nonceOf, w.s, w.books) && AllHonest(c, w, steps)
    requires forall p: Payload :: nonceOf(p) == NonceOf(c.token, p.auth)
    ensures SpentOk(nonceOf, RunAll(c, w, steps).s, RunAll(c, w, steps).books)
    decreases |steps|
  {
    if steps != [] {
      var (x, reached) := steps[0];
      NextKeeps(c, w, x, reached);
      NewHands(c, w, x);
      SpentNext(c, w, x, reached, nonceOf);
      SpentAllAlong(c, Next(c, w, x, reached), steps[1..], nonceOf);
    }
  }

  /** The nonce store forgets an authorization when it has expired, and a later one may carry the same
      EIP-3009 nonce. The chain does not forget: under an honest facilitator no two paid jobs were
      bought with the same nonce of the same payer, whatever else the two authorizations say. */
  lemma OneNonceBuysOneJob(c: Config, ledger: Ledger, steps: seq<(Step, bool)>, id: Id, other: Id)
    requires AllHonest(c, Opening(ledger), steps)
    requires var s := RunAll(c, Opening(ledger), steps).s;
      && id in s.build.jobs && s.build.jobs[id].paid && other in s.build.jobs && s.build.jobs[other].paid
    ensures var b := RunAll(c, Opening(ledger), steps).books;
      && id in b.buyers && b.buyers[id] in b.shown && other in b.buyers && b.buyers[other] in b.shown
      && (NonceOf(c.token, b.shown[b.buyers[id]].auth) == NonceOf(c.token, b.shown[b.buyers[other]].auth) ==> id == other)
  {
    OpeningOk(c, ledger);
    BooksHold(c, ledger, steps);
    var nonceOf := (p: Payload) => NonceOf(c.token, p.auth);
    SpentAllAlong(c, Opening(ledger), steps, nonceOf);
    var w := RunAll(c, Opening(ledger), steps);
    assert id in w.s.orders && other in w.s.orders;
    assert nonceOf(w.books.shown[w.books.buyers[id]]) == NonceOf(c.token, w.books.shown[w.books.buyers[id]].auth);
  }

  // ---- a crash between the save and the push -------------------------------

  lemma BookedPlaces(c: Config, s: State, b: Books, x: Step, reached: bool)
    ensures var d := Booked(c, s, b, x, reached);
      || d.places == b.places
      || (Saves(s, x) && d.places == b.places[x.id := Waiting(x.r)])
      || (x.r < |s.requests| && s.requests[x.r].Saved? && d.places.Keys == b.places.Keys + {s.requests[x.r].id}
          && forall k :: k in b.places && k != s.requests[x.r].id ==> d.places[k] == b.places[k])
  {
  }

  lemma DroppedNext(c: Config, w: World, x: Step, reached: bool, id: Id)
    requires Accepting.PaidOk(w.s) && PlacesOk(w.s, w.books)
    requires id in w.books.places && w.books.places[id] == Dropped
    ensures var b := Next(c, w, x, reached).books; id in b.places && b.places[id] == Dropped
  {
    BookedPlaces(c, w.s, w.books, x, reached);
    if Saves(w.s, x) { assert x.id !in w.s.orders; }
  }

  lemma {:induction false} DroppedStaysDropped(c: Config, w: World, steps: seq<(Step, bool)>, id: Id)
    requires BooksOk(c, w)
    requires id in w.books.places && w.books.places[id] == Dropped
    ensures id in RunAll(c, w, steps).books.places && RunAll(c, w, steps).books.places[id] == Dropped
    decreases |steps|
  {
    if steps != [] {
      var (x, reached) := steps[0];
      NextKeeps(c, w, x, reached);
      DroppedNext(c, w, x, reached, id);
      DroppedStaysDropped(c, Next(c, w, x, reached), steps[1..], id);
    }
  }

  /** Nothing ever builds a dropped job: over every continuation of every run it is in no list, no
      worker has it, and no build of it was started. */
  lemma DroppedIsNeverBuilt(c: Config, ledger: Ledger, before: seq<(Step, bool)>, after: seq<(Step, bool)>, id: Id)
    requires var b := RunAll(c, Opening(ledger), before).books; id in b.places && b.places[id] == Dropped
    ensures var s := RunAll(c, RunAll(c, Opening(ledger), before), after).s;
      id in s.build.jobs && s.build.jobs[id].paid && id !in s.build.pushed && Safety.Untouched(s.build, id)
  {
    BooksHold(c, ledger, before);
    OnlyQueuedIsBuilt(c, Opening(ledger), before);
    DroppedFromNowOn(c, RunAll(c, Opening(ledger), before), after, id);
  }

  lemma DroppedFromNowOn(c: Config, w: World, steps: seq<(Step, bool)>, id: Id)
    requires BooksOk(c, w) && Safety.OnlyPushed(w.s.build)
    requires id in w.books.places && w.books.places[id] == Dropped
    ensures var s := RunAll(c, w, steps).s;
      id in s.build.jobs && s.build.jobs[id].paid && id !in s.build.pushed && Safety.Untouched(s.build, id)
  {
    DroppedStaysDropped(c, w, steps, id);
    RunAllKeeps(c, w, steps);
    OnlyQueuedIsBuilt(c, w, steps);
    DroppedIsUntouched(c, RunAll(c, w, steps), id);
  }

  lemma DroppedIsUntouched(c: Config, w: World, id: Id)
    requires Accepting.PaidOk(w.s) && PlacesOk(w.s, w.books) && Safety.OnlyPushed(w.s.build)
    requires id in w.books.places && w.books.places[id] == Dropped
    ensures id in w.s.build.jobs && w.s.build.jobs[id].paid
    ensures id !in w.s.build.pushed && Safety.Untouched(w.s.build, id)
  {
    assert PlaceOk(w.s, id, w.books.places[id]);
  }

  lemma OnlyQueuedIsBuilt(c: Config, w: World, steps: seq<(Step, bool)>)
    ensures Safety.OnlyPushed(w.s.build) ==> Safety.OnlyPushed(RunAll(c, w, steps).s.build)
  {
    if Safety.OnlyPushed(w.s.build) {
      BooksOnlyWatch(c, w, steps);
      BuildPartIsARun(c, w.s, StepsOf(steps));
      Safety.OnlyPushedIsBuilt(c.build, w.s.build, AllBuildSteps(c, w.s, StepsOf(steps)));
    }
  }
}
