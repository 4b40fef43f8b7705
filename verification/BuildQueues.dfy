/** The two build queues of src/service/queue.py, each operation under its lock or as one unit,
    against the leased FIFO they both implement. `now` is the clock the operation reads, and `past` is
    the account of everything done to the queue, lapses by the passing of time included. */
module BuildQueues {
  import opened Options
  import opened Fifo = LeasedFifo
  import Commands = QueueCommands

  datatype Lease = Lease(owner: Owner, expires: real)

  ghost predicate Distinct(s: seq<Id>) {
    forall i, j :: 0 <= i < j < |s| ==> s[i] != s[j]
  }

  /** The ids of a list whose leases have lapsed, in the order of the list. */
  function LapsedOf(q: Queue, ids: seq<Id>): seq<Id> {
    if ids == [] then []
    else LapsedOf(q, ids[..|ids| - 1])
         + (if Lapsed(q, ids[|ids| - 1]) then [ids[|ids| - 1]] else [])
  }

  lemma {:induction false} LapsedOfMembers(q: Queue, ids: seq<Id>)
    ensures forall id :: id in LapsedOf(q, ids) <==> id in ids && Lapsed(q, id)
    ensures Distinct(ids) ==> Distinct(LapsedOf(q, ids))
  {
    if ids != [] {
      var n := |ids| - 1;
      assert ids == ids[..n] + [ids[n]];
      LapsedOfMembers(q, ids[..n]);
    }
  }

  function Reversed(s: seq<Id>): seq<Id> {
    if s == [] then [] else Reversed(s[1..]) + [s[0]]
  }

  lemma {:induction false} ReversedAppend(a: seq<Id>, b: seq<Id>)
    ensures Reversed(a + b) == Reversed(b) + Reversed(a)
  {
    if a == [] {
      assert a + b == b && Reversed(b) + [] == Reversed(b);
    } else {
      assert (a + b)[1..] == a[1..] + b;
      ReversedAppend(a[1..], b);
    }
  }

  lemma {:induction false} ReversedTwice(s: seq<Id>)
    ensures Reversed(Reversed(s)) == s
  {
    if s != [] {
      ReversedTwice(s[1..]);
      ReversedAppend(Reversed(s[1..]), [s[0]]);
      assert Reversed([s[0]]) == [s[0]];
    }
  }

  lemma {:induction false} RemoveAllMembers(s: seq<Id>, id: Id)
    ensures forall x :: x in Commands.RemoveAll(s, id) <==> x in s && x != id
  {
    if s != [] { RemoveAllMembers(s[1..], id); }
  }

  lemma {:induction false} RemoveOneMembers(s: seq<Id>, id: Id)
    requires Distinct(s)
    ensures Distinct(Commands.RemoveOne(s, id))
    ensures forall x :: x in Commands.RemoveOne(s, id) <==> x in s && x != id
  {
    if s != [] {
      assert s == [s[0]] + s[1..] && s[0] !in s[1..];
      RemoveOneMembers(s[1..], id);
    }
  }

  /** Who holds what at a moment, of the ids listed. */
  function HeldAt(ids: set<Id>, leases: map<Id, Lease>, now: real): map<Id, Option<Owner>> {
    map id | id in ids :: if id in leases && now < leases[id].expires then Some(leases[id].owner) else None
  }

  lemma DroppedIsAcked(waiting: seq<Id>, leases: map<Id, Lease>, id: Id)
    ensures forall t :: Queue(waiting, HeldAt((leases - {id}).Keys, leases - {id}, t))
                     == Fifo.Ack(Queue(waiting, HeldAt(leases.Keys, leases, t)), id)
  {
    forall t ensures HeldAt((leases - {id}).Keys, leases - {id}, t) == HeldAt(leases.Keys, leases, t) - {id} { }
  }

  lemma HeldAfter(ids: set<Id>, leases: map<Id, Lease>, id: Id, lease: Lease, now: real)
    requires now < lease.expires
    ensures HeldAt(ids + {id}, leases[id := lease], now) == HeldAt(ids, leases, now)[id := Some(lease.owner)]
  {
  }

  /** Between two readings of the clock, leases lapse and nothing else happens. */
  lemma ViewLater(waiting: seq<Id>, ids: seq<Id>, held: set<Id>, leases: map<Id, Lease>, from: real, now: real)
    requires from <= now && forall id :: id in ids <==> id in held
    ensures var v := Queue(waiting, HeldAt(held, leases, now));
            LapseAll(Queue(waiting, HeldAt(held, leases, from)), LapsedOf(v, ids)) == v
  {
    var v := Queue(waiting, HeldAt(held, leases, now));
    LapsedOfMembers(v, ids);
    LapseAllHolds(Queue(waiting, HeldAt(held, leases, from)), LapsedOf(v, ids));
    LaterHeld(held, leases, from, now, LapsedOf(v, ids));
  }

  lemma LaterHeld(held: set<Id>, leases: map<Id, Lease>, from: real, now: real, lapsed: seq<Id>)
    requires from <= now
    requires forall id :: id in lapsed <==> id in held && HeldAt(held, leases, now)[id].None?
    ensures HeldAt(held, leases, now)
         == map id | id in HeldAt(held, leases, from) :: if id in lapsed then None else HeldAt(held, leases, from)[id]
  {
  }

  /** Moving the lapsed ids of a list behind the waiting ones is what requeueing them all means. */
  lemma {:induction false} MovedBack(q: Queue, ids: seq<Id>, v: Queue)
    requires Distinct(ids)
    requires v.waiting == q.waiting + LapsedOf(q, ids)
    requires v.held == q.held - (set id | id in LapsedOf(q, ids))
    ensures v == RequeueAll(q, LapsedOf(q, ids))
    ensures forall id :: id in LapsedOf(q, ids) <==> id in ids && Lapsed(q, id)
  {
    LapsedOfMembers(q, ids);
    RequeueAllAppends(q, LapsedOf(q, ids));
  }

  // ---- one process ---------------------------------------------------------

  class InMemoryBuildQueue {
    var pending: seq<Id>
    var keys: seq<Id>  // the keys of `leases`, in the order of insertion
    var leases: map<Id, Lease>
    ghost var past: Past

    ghost predicate Valid()
      reads this
    {
      KeysOk() && Explains(past, View(past.clock))
    }

    ghost predicate KeysOk()
      reads this`keys, this`leases
    {
      Distinct(keys) && forall id :: id in keys <==> id in leases
    }

    /** The past once the clock has come to `now`. */
    ghost function Until(now: real): Past
      reads this
    {
      Later(past, LapsedOf(View(now), keys), now)
    }

    lemma UntilExplains(now: real)
      requires Valid()
      ensures Explains(Until(now), View(now))
    {
      if past.clock <= now {
        ViewLater(pending, keys, leases.Keys, leases, past.clock, now);
      }
      LaterExplains(past, View(past.clock), LapsedOf(View(now), keys), now, View(now));
    }

    /** Over every run of this queue on a clock that does not go back: ids that are never requeued are
        reserved in the order in which they were pushed, and those pending follow in that order. */
    lemma FirstInFirstOut()
      requires Valid() && past.regular
      ensures Without(past.track.arrivals, past.track.requeued)
              == Without(past.track.departures, past.track.requeued) + Without(pending, past.track.requeued)
    {
      LeavesInOrder(past, View(past.clock));
    }

    function View(now: real): Queue
      reads this`pending, this`leases
    {
      Queue(pending, HeldAt(leases.Keys, leases, now))
    }

    constructor ()
      ensures Valid() && past == NO_PAST && forall t :: View(t) == EMPTY
    {
      pending, keys, leases, past := [], [], map[], NO_PAST;
    }

    method Push(id: Id)
      requires Valid()
      modifies this
      ensures Valid() && past == Did(old(past), DoPush(id)) && forall t :: View(t) == Fifo.Push(old(View(t)), id)
    {
      DidExplains(past, View(past.clock), DoPush(id), Fifo.Push(View(past.clock), id));
      pending := pending + [id];
      past := Did(past, DoPush(id));
    }

    method Reserve(owner: Owner, leaseSeconds: nat, now: real) returns (id: Option<Id>)
      requires Valid() && leaseSeconds > 0
      modifies this
      ensures Valid() && past == Did(old(Until(now)), DoReserve(owner))
      ensures id == Fifo.Reserved(old(View(now)))
      ensures View(now) == Fifo.Reserve(old(View(now)), owner)
      ensures id.Some? ==> forall t :: Owns(View(t), id.value, owner) <==> t < now + leaseSeconds as real
    {
      UntilExplains(now);
      DidExplains(Until(now), View(now), DoReserve(owner), Fifo.Reserve(View(now), owner));
      ghost var done := Did(Until(now), DoReserve(owner));
      id := Take(owner, leaseSeconds, now);
      past := done;
    }

    method Take(owner: Owner, leaseSeconds: nat, now: real) returns (id: Option<Id>)
      requires KeysOk() && leaseSeconds > 0
      modifies this`pending, this`keys, this`leases
      ensures KeysOk() && id == Fifo.Reserved(old(View(now)))
      ensures View(now) == Fifo.Reserve(old(View(now)), owner)
      ensures id.Some? ==> forall t :: Owns(View(t), id.value, owner) <==> t < now + leaseSeconds as real
    {
      if pending == [] { return None; }
      var job := pending[0];
      pending := pending[1..];
      if job !in leases { keys := keys + [job]; }
      HeldAfter(leases.Keys, leases, job, Lease(owner, now + leaseSeconds as real), now);
      leases := leases[job := Lease(owner, now + leaseSeconds as real)];
      assert leases.Keys == old(leases).Keys + {job};
      return Some(job);
    }

    /** Expiry is not checked: an owner whose lease lapsed but was not reclaimed gets it back. */
    method Renew(id: Id, owner: Owner, leaseSeconds: nat, now: real) returns (ok: bool)
      requires Valid() && leaseSeconds > 0
      modifies this
      ensures Valid() && past == if ok then Did(old(Until(now)), DoRevive(id, owner)) else old(Until(now))
      ensures Owns(old(View(now)), id, owner) ==> ok
      ensures ok ==> Owns(old(View(now)), id, owner) || Lapsed(old(View(now)), id)
      ensures View(now) == if ok then Revive(old(View(now)), id, owner) else old(View(now))
      ensures ok ==> forall t :: Owns(View(t), id, owner) <==> t < now + leaseSeconds as real
    {
      UntilExplains(now);
      DidExplains(Until(now), View(now), DoRevive(id, owner), Revive(View(now), id, owner));
      ghost var until := Until(now);
      ok := Extend(id, owner, leaseSeconds, now);
      past := if ok then Did(until, DoRevive(id, owner)) else until;
    }

    method Extend(id: Id, owner: Owner, leaseSeconds: nat, now: real) returns (ok: bool)
      requires KeysOk() && leaseSeconds > 0
      modifies this`leases
      ensures KeysOk() && (Owns(old(View(now)), id, owner) ==> ok)
      ensures ok ==> Owns(old(View(now)), id, owner) || Lapsed(old(View(now)), id)
      ensures View(now) == if ok then Revive(old(View(now)), id, owner) else old(View(now))
      ensures ok ==> forall t :: Owns(View(t), id, owner) <==> t < now + leaseSeconds as real
    {
      if id !in leases || leases[id].owner != owner { return false; }
      leases := leases[id := Lease(owner, now + leaseSeconds as real)];
      return true;
    }

    method Ack(id: Id)
      requires Valid()
      modifies this
      ensures Valid() && past == Did(old(past), DoAck(id)) && forall t :: View(t) == Fifo.Ack(old(View(t)), id)
    {
      DidExplains(past, View(past.clock), DoAck(id), Fifo.Ack(View(past.clock), id));
      Drop(id);
      DroppedIsAcked(pending, old(leases), id);
      past := Did(past, DoAck(id));
    }

    method LapsedNow(now: real) returns (lapsed: seq<Id>)
      requires KeysOk()
      ensures lapsed == LapsedOf(View(now), keys)
    {
      lapsed := [];
      for i := 0 to |keys|
        invariant lapsed == LapsedOf(View(now), keys[..i])
      {
        assert keys[..i + 1][..i] == keys[..i];
        if leases[keys[i]].expires <= now { lapsed := lapsed + [keys[i]]; }
      }
      assert keys[..|keys|] == keys;
    }

    method RequeueExpired(now: real) returns (lapsed: seq<Id>)
      requires Valid()
      modifies this
      ensures Valid() && past == Did(old(Until(now)), DoRequeue(lapsed))
      ensures lapsed == LapsedOf(old(View(now)), old(keys))
      ensures forall id :: id in lapsed <==> Lapsed(old(View(now)), id)
      ensures View(now) == RequeueAll(old(View(now)), lapsed)
    {
      UntilExplains(now);
      ghost var (until, v) := (Until(now), View(now));
      lapsed := MoveLapsed(now);
      DidExplains(until, v, DoRequeue(lapsed), View(now));
      past := Did(until, DoRequeue(lapsed));
    }

    method MoveLapsed(now: real) returns (lapsed: seq<Id>)
      requires KeysOk()
      modifies this`pending, this`keys, this`leases
      ensures KeysOk() && lapsed == LapsedOf(old(View(now)), old(keys))
      ensures forall id :: id in lapsed <==> Lapsed(old(View(now)), id)
      ensures View(now) == RequeueAll(old(View(now)), lapsed)
    {
      lapsed := LapsedNow(now);
      MoveBack(lapsed);
      assert View(now).held == old(View(now)).held - (set id | id in lapsed);
      MovedBack(old(View(now)), old(keys), View(now));
    }

    method MoveBack(lapsed: seq<Id>)
      requires KeysOk()
      modifies this`pending, this`keys, this`leases
      ensures KeysOk() && pending == old(pending) + lapsed && leases == old(leases) - (set id | id in lapsed)
    {
      for i := 0 to |lapsed|
        invariant KeysOk()
        invariant pending == old(pending) + lapsed[..i]
        invariant leases == old(leases) - (set id | id in lapsed[..i])
      {
        Drop(lapsed[i]);
        pending := pending + [lapsed[i]];
        assert lapsed[..i + 1] == lapsed[..i] + [lapsed[i]];
      }
      assert lapsed[..|lapsed|] == lapsed;
    }

    /** del self._leases[id] */
    method Drop(id: Id)
      requires KeysOk()
      modifies this`keys, this`leases
      ensures KeysOk() && leases == old(leases) - {id}
    {
      RemoveOneMembers(keys, id);
      keys := Commands.RemoveOne(keys, id);
      leases := leases - {id};
    }
  }

  /** A sweep of a list, if its ids are distinct, after i entries: the lapsed ones are out. */
  ghost predicate Swept(q: Queue, snapshot: seq<Id>, i: nat, inflight: seq<Id>, requeued: seq<Id>)
    requires i <= |snapshot|
  {
    Distinct(snapshot) ==>
      && Distinct(inflight) && requeued == LapsedOf(q, snapshot[..i])
      && forall id :: id in inflight <==> id in snapshot && id !in requeued
  }

  /** inflight after LREM has taken id out of it. */
  ghost predicate TakenOut(was: seq<Id>, id: Id, inflight: seq<Id>) {
    Distinct(was) ==> Distinct(inflight) && forall x :: x in inflight <==> x in was && x != id
  }

  lemma SweepNext(q: Queue, snapshot: seq<Id>, i: nat, was: seq<Id>, inflight: seq<Id>,
                  before: seq<Id>, requeued: seq<Id>)
    requires i < |snapshot| && Swept(q, snapshot, i, was, before) && snapshot[i] in q.held
    requires if Lapsed(q, snapshot[i]) then
               && TakenOut(was, snapshot[i], inflight)
               && requeued == before + (if snapshot[i] in was then [snapshot[i]] else [])
             else inflight == was && requeued == before
    ensures Swept(q, snapshot, i + 1, inflight, requeued)
  {
    if Distinct(snapshot) {
      assert snapshot[..i + 1][..i] == snapshot[..i];
      LapsedOfMembers(q, snapshot[..i]);
      assert snapshot[i] !in snapshot[..i] && snapshot[i] in was;
    }
  }

  lemma {:induction false} SweepDone(q: Queue, snapshot: seq<Id>, inflight: seq<Id>, requeued: seq<Id>, leases: map<Id, Lease>, now: real, v: Queue)
    requires Swept(q, snapshot, |snapshot|, inflight, requeued) && Distinct(snapshot)
    requires q.held == HeldAt((set id | id in snapshot), leases, now)
    requires v == Queue(q.waiting + requeued, HeldAt((set id | id in inflight), leases, now))
    ensures requeued == LapsedOf(q, snapshot)
    ensures forall id :: id in requeued <==> Lapsed(q, id)
    ensures v == RequeueAll(q, requeued)
  {
    assert snapshot[..|snapshot|] == snapshot;
    LapsedOfMembers(q, snapshot);
    assert v.held == q.held - (set id | id in requeued);
    MovedBack(q, snapshot, v);
  }

  // ---- many processes ------------------------------------------------------

  /** No id is in two places, or twice in one, and all of them have been pushed. */
  ghost predicate OnceEach(waiting: seq<Id>, inflight: seq<Id>, arrivals: seq<Id>) {
    && Distinct(waiting) && Distinct(inflight)
    && (forall id :: id in waiting ==> id !in inflight && id in arrivals)
    && (forall id :: id in inflight ==> id in arrivals)
  }

  lemma OncePushed(waiting: seq<Id>, inflight: seq<Id>, arrivals: seq<Id>, id: Id)
    requires OnceEach(waiting, inflight, arrivals) && id !in arrivals
    ensures OnceEach(waiting + [id], inflight, arrivals + [id])
  {
  }

  lemma OnceReserved(waiting: seq<Id>, inflight: seq<Id>, arrivals: seq<Id>)
    requires OnceEach(waiting, inflight, arrivals) && waiting != []
    ensures OnceEach(waiting[1..], [waiting[0]] + inflight, arrivals)
  {
    assert waiting == [waiting[0]] + waiting[1..] && waiting[0] in waiting;
    assert forall id :: id in waiting[1..] ==> id in waiting && id != waiting[0];
  }

  lemma {:induction false} RemoveAllDistinct(s: seq<Id>, id: Id)
    requires Distinct(s)
    ensures Distinct(Commands.RemoveAll(s, id))
  {
    if s != [] {
      assert s == [s[0]] + s[1..] && s[0] !in s[1..];
      RemoveAllMembers(s[1..], id);
      RemoveAllDistinct(s[1..], id);
    }
  }

  lemma OnceAcked(waiting: seq<Id>, inflight: seq<Id>, arrivals: seq<Id>, id: Id)
    requires OnceEach(waiting, inflight, arrivals)
    ensures OnceEach(waiting, Commands.RemoveAll(inflight, id), arrivals)
  {
    RemoveAllMembers(inflight, id);
    RemoveAllDistinct(inflight, id);
  }

  lemma OnceRequeued(waiting: seq<Id>, inflight: seq<Id>, arrivals: seq<Id>, requeued: seq<Id>, after: seq<Id>)
    requires OnceEach(waiting, inflight, arrivals)
    requires Distinct(requeued) && forall id :: id in requeued ==> id in inflight
    requires Distinct(after) && forall id :: id in after <==> id in inflight && id !in requeued
    ensures OnceEach(waiting + requeued, after, arrivals)
  {
    var all := waiting + requeued;
    forall i, j | 0 <= i < j < |all| ensures all[i] != all[j] {
      if i < |waiting| <= j {
        assert waiting[i] in waiting && requeued[j - |waiting|] in requeued;
      }
    }
  }

  /** A lease key past its time to live does not exist. */
  class RedisBuildQueue {
    var pending: seq<Id>   // left end first
    var inflight: seq<Id>  // left end first
    var leases: map<Id, Lease>
    ghost var past: Past   // regular: no id pushed twice, and the clock has not gone back

    predicate Exists(id: Id, now: real)
      reads this`leases
    {
      id in leases && now < leases[id].expires
    }

    function View(now: real): Queue
      reads this`pending, this`inflight, this`leases
    {
      Queue(Reversed(pending), HeldAt((set id | id in inflight), leases, now))
    }

    ghost predicate Valid()
      reads this
    {
      && Explains(past, View(past.clock))
      && (past.regular ==> OnceEach(Reversed(pending), inflight, past.track.arrivals))
    }

    /** The past once the clock has come to `now`. */
    ghost function Until(now: real): Past
      reads this
    {
      Later(past, LapsedOf(View(now), inflight), now)
    }

    lemma UntilExplains(now: real)
      requires Valid()
      ensures Explains(Until(now), View(now))
    {
      if past.clock <= now {
        ViewLater(Reversed(pending), inflight, (set id | id in inflight), leases, past.clock, now);
      }
      LaterExplains(past, View(past.clock), LapsedOf(View(now), inflight), now, View(now));
    }

    /** Over every run of this queue in which no id is pushed twice and the clock does not go back: ids
        that are never requeued are reserved in the order in which they were pushed, and those
        pending follow in that order. */
    lemma FirstInFirstOut()
      requires Valid() && past.regular
      ensures Without(past.track.arrivals, past.track.requeued)
              == Without(past.track.departures, past.track.requeued) + Without(Reversed(pending), past.track.requeued)
    {
      LeavesInOrder(past, View(past.clock));
    }

    constructor ()
      ensures Valid() && past == NO_PAST && forall t :: View(t) == EMPTY
    {
      pending, inflight, leases, past := [], [], map[], NO_PAST;
    }

    method Push(id: Id)
      requires Valid()
      modifies this
      ensures Valid() && forall t :: View(t) == Fifo.Push(old(View(t)), id)
      ensures past == Did(old(past.(regular := past.regular && id !in past.track.arrivals)), DoPush(id))
    {
      ghost var before := past.(regular := past.regular && id !in past.track.arrivals);
      DidExplains(before, View(past.clock), DoPush(id), Fifo.Push(View(past.clock), id));
      if before.regular { OncePushed(Reversed(pending), inflight, past.track.arrivals, id); }
      ReversedAppend([id], pending);
      assert Reversed([id]) == [id];
      pending := [id] + pending;
      past := Did(before, DoPush(id));
    }

    /** LMOVE pending inflight RIGHT LEFT */
    method Move() returns (id: Option<Id>)
      modifies this`pending, this`inflight
      ensures id == (if old(pending) == [] then None else Some(Reversed(old(pending))[0]))
      ensures id.None? ==> pending == old(pending) && inflight == old(inflight)
      ensures id.Some? ==> Reversed(pending) == Reversed(old(pending))[1..] && inflight == [id.value] + old(inflight)
      ensures id.Some? <==> Reversed(old(pending)) != []
    {
      if pending == [] { return None; }
      var last := |pending| - 1;
      id := Some(pending[last]);
      assert pending == pending[..last] + [pending[last]];
      ReversedAppend(pending[..last], [pending[last]]);
      assert Reversed([pending[last]]) == [pending[last]];
      pending, inflight := pending[..last], [pending[last]] + inflight;
    }

    method Reserve(owner: Owner, leaseSeconds: nat, now: real) returns (id: Option<Id>)
      requires Valid() && leaseSeconds > 0
      modifies this
      ensures Valid() && past == Did(old(Until(now)), DoReserve(owner))
      ensures id == Fifo.Reserved(old(View(now)))
      ensures View(now) == Fifo.Reserve(old(View(now)), owner)
      ensures id.Some? ==> forall t :: Owns(View(t), id.value, owner) <==> t < now + leaseSeconds as real
    {
      UntilExplains(now);
      DidExplains(Until(now), View(now), DoReserve(owner), Fifo.Reserve(View(now), owner));
      ghost var done := Did(Until(now), DoReserve(owner));
      if past.regular && Reversed(pending) != [] { OnceReserved(Reversed(pending), inflight, past.track.arrivals); }
      id := Take(owner, leaseSeconds, now);
      past := done;
    }

    method Take(owner: Owner, leaseSeconds: nat, now: real) returns (id: Option<Id>)
      requires leaseSeconds > 0
      modifies this`pending, this`inflight, this`leases
      ensures id == Fifo.Reserved(old(View(now)))
      ensures View(now) == Fifo.Reserve(old(View(now)), owner)
      ensures if id.None? then pending == old(pending) && inflight == old(inflight)
              else Reversed(pending) == Reversed(old(pending))[1..] && inflight == [id.value] + old(inflight)
      ensures id.Some? ==> forall t :: Owns(View(t), id.value, owner) <==> t < now + leaseSeconds as real
    {
      id := Move();
      if id.None? { return None; }
      leases := leases[id.value := Lease(owner, now + leaseSeconds as real)];
      assert View(now).held == old(View(now)).held[id.value := Some(owner)];
    }

    /** A store that cannot be asked is a lost lease. */
    method Renew(id: Id, owner: Owner, leaseSeconds: nat, now: real, reachable: bool) returns (ok: bool)
      requires Valid() && leaseSeconds > 0
      modifies this
      ensures Valid() && past == old(Until(now)) && View(now) == old(View(now))
      ensures id in inflight ==> (ok <==> reachable && Owns(old(View(now)), id, owner))
      ensures ok && id in inflight ==> forall t :: Owns(View(t), id, owner) <==> t < now + leaseSeconds as real
    {
      UntilExplains(now);
      ghost var until := Until(now);
      ok := false;
      if reachable { ok := Extend(id, owner, leaseSeconds, now); }
      past := until;
    }

    method Extend(id: Id, owner: Owner, leaseSeconds: nat, now: real) returns (ok: bool)
      requires leaseSeconds > 0
      modifies this`leases
      ensures id in inflight ==> (ok <==> Owns(old(View(now)), id, owner))
      ensures View(now) == old(View(now))
      ensures ok && id in inflight ==> forall t :: Owns(View(t), id, owner) <==> t < now + leaseSeconds as real
    {
      if !Exists(id, now) || leases[id].owner != owner { return false; }
      leases := leases[id := leases[id].(expires := now + leaseSeconds as real)];
      return true;
    }

    method Ack(id: Id)
      requires Valid()
      modifies this
      ensures Valid() && past == Did(old(past), DoAck(id)) && forall t :: View(t) == Fifo.Ack(old(View(t)), id)
    {
      DidExplains(past, View(past.clock), DoAck(id), Fifo.Ack(View(past.clock), id));
      if past.regular { OnceAcked(Reversed(pending), inflight, past.track.arrivals, id); }
      Drop(id);
      past := Did(past, DoAck(id));
    }

    method Drop(id: Id)
      modifies this`inflight, this`leases
      ensures inflight == Commands.RemoveAll(old(inflight), id)
      ensures forall t :: View(t) == Fifo.Ack(old(View(t)), id)
    {
      RemoveAllMembers(inflight, id);
      inflight := Commands.RemoveAll(inflight, id);
      leases := leases - {id};
    }

    /** LREM inflight 1 id, and LPUSH pending id if it removed something. */
    method TakeBack(id: Id) returns (taken: bool)
      modifies this`pending, this`inflight
      ensures taken == (id in old(inflight))
      ensures Reversed(pending) == Reversed(old(pending)) + (if taken then [id] else [])
      ensures TakenOut(old(inflight), id, inflight)
    {
      if id !in inflight { return false; }
      if Distinct(inflight) { RemoveOneMembers(inflight, id); }
      ReversedAppend([id], pending);
      assert Reversed([id]) == [id];
      inflight := Commands.RemoveOne(inflight, id);
      pending := [id] + pending;
      return true;
    }

    method Reap(id: Id, now: real) returns (taken: bool)
      modifies this`pending, this`inflight
      ensures taken == (!Exists(id, now) && id in old(inflight))
      ensures Reversed(pending) == Reversed(old(pending)) + (if taken then [id] else [])
      ensures if Exists(id, now) then inflight == old(inflight) else TakenOut(old(inflight), id, inflight)
    {
      if Exists(id, now) { return false; }
      taken := TakeBack(id);
    }

    /** With each id in the list once, the batch is every lapsed id, the latest reservation first. */
    method RequeueExpired(now: real) returns (requeued: seq<Id>)
      requires Valid()
      modifies this
      ensures Valid() && past == Did(old(Until(now)), DoRequeue(requeued))
      ensures old(Distinct(inflight)) ==>
        && requeued == LapsedOf(old(View(now)), old(inflight))
        && (forall id :: id in requeued <==> Lapsed(old(View(now)), id))
        && View(now) == RequeueAll(old(View(now)), requeued)
    {
      UntilExplains(now);
      ghost var (until, v, was, waiting) := (Until(now), View(now), inflight, Reversed(pending));
      requeued := SweepAll(now);
      DidExplains(until, v, DoRequeue(requeued), View(now));
      if past.regular {
        LapsedOfMembers(v, was);
        OnceRequeued(waiting, was, past.track.arrivals, requeued, inflight);
      }
      past := Did(until, DoRequeue(requeued));
    }

    method SweepAll(now: real) returns (requeued: seq<Id>)
      modifies this`pending, this`inflight
      ensures Reversed(pending) == Reversed(old(pending)) + requeued
      ensures old(Distinct(inflight)) ==>
        && requeued == LapsedOf(old(View(now)), old(inflight))
        && (forall id :: id in requeued <==> Lapsed(old(View(now)), id))
        && View(now) == RequeueAll(old(View(now)), requeued)
        && Distinct(inflight) && (forall id :: id in inflight <==> id in old(inflight) && id !in requeued)
    {
      ghost var q := View(now);
      var snapshot := inflight;
      requeued := [];
      for i := 0 to |snapshot|
        invariant Swept(q, snapshot, i, inflight, requeued)
        invariant Reversed(pending) == q.waiting + requeued
      {
        ghost var (was, before) := (inflight, requeued);
        var taken := Reap(snapshot[i], now);
        if taken { requeued := requeued + [snapshot[i]]; }
        SweepNext(q, snapshot, i, was, inflight, before, requeued);
      }
      if Distinct(snapshot) {
        SweepDone(q, snapshot, inflight, requeued, leases, now, View(now));
      }
    }
  }
}
