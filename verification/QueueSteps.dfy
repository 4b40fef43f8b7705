/** The Redis queue one command at a time, and the leased FIFO: an operation whose commands are not
    interrupted is the operation of the abstract queue. */
module QueueSteps {
  import opened Options
  import opened QueueCommands
  import opened BuildQueues
  import Fifo = LeasedFifo

  /** What the lists and the lease keys mean: the right end of pending is next. */
  function View(r: Redis): Fifo.Queue {
    Fifo.Queue(Reversed(r.pending), HeldOf(r.inflight, r.leases))
  }

  function HeldOf(inflight: seq<Id>, leases: map<Id, nat>): map<Id, Option<nat>> {
    map id | id in inflight :: if id in leases then Some(leases[id]) else None
  }

  lemma SameMap(a: map<Id, Option<nat>>, b: map<Id, Option<nat>>)
    requires forall k :: k in a <==> k in b
    requires forall k :: k in a && k in b ==> a[k] == b[k]
    ensures a == b
  {
  }

  lemma {:induction false} RemovedAll(s: seq<Id>, x: Id, id: Id)
    ensures id in RemoveAll(s, x) <==> id in s && id != x
  {
    if s != [] {
      RemovedAll(s[1..], x, id);
      assert id in s <==> id == s[0] || id in s[1..];
    }
  }

  lemma {:induction false} RemovedOne(s: seq<Id>, x: Id, id: Id)
    ensures id != x ==> (id in RemoveOne(s, x) <==> id in s)
    ensures Count(s, x) <= 1 ==> x !in RemoveOne(s, x)
  {
    if s != [] {
      RemovedOne(s[1..], x, id);
      assert id in s <==> id == s[0] || id in s[1..];
      CountIsIn(s[1..], x);
    }
  }

  lemma {:induction false} CountIsIn(s: seq<Id>, id: Id)
    ensures Count(s, id) > 0 <==> id in s
  {
    if s != [] {
      CountIsIn(s[1..], id);
      assert id in s <==> id == s[0] || id in s[1..];
    }
  }

  lemma RunOne(s: State, c: Command)
    ensures Run(s, [c]) == Exec(s, c)
  {
  }

  lemma RunTwo(s: State, c: Command, d: Command)
    ensures Run(s, [c, d]) == Exec(Exec(s, c), d)
  {
    assert [c, d][1..] == [d];
    RunOne(Exec(s, c), d);
  }

  predicate Free(s: State, p: nat) { p < |s.procs| && s.procs[p].Idle? }

  lemma PushIsPush(s: State, p: nat, id: Id)
    requires Free(s, p)
    ensures View(Run(s, [Push(p, id)]).redis) == Fifo.Push(View(s.redis), id) && Free(Run(s, [Push(p, id)]), p)
  {
    RunOne(s, Push(p, id));
    ReversedAppend([id], s.redis.pending);
    assert Reversed([id]) == [id];
  }

  lemma HeldReserved(inflight: seq<Id>, leases: map<Id, nat>, id: Id, p: nat)
    ensures HeldOf([id] + inflight, leases[id := p]) == HeldOf(inflight, leases)[id := Some(p)]
  {
    SameMap(HeldOf([id] + inflight, leases[id := p]), HeldOf(inflight, leases)[id := Some(p)]);
  }

  lemma ViewReserved(r: Redis, most: seq<Id>, id: Id, p: nat)
    requires r.pending == most + [id]
    ensures View(Redis(most, [id] + r.inflight, r.leases[id := p])) == Fifo.Reserve(View(r), p)
  {
    ReversedAppend(most, [id]);
    assert Reversed([id]) == [id];
    HeldReserved(r.inflight, r.leases, id, p);
  }

  /** The oldest waiting id is taken, and under the lease of the process that takes it. */
  lemma ReserveIsReserve(s: State, p: nat)
    requires Free(s, p)
    ensures var t := Run(s, [ReserveMove(p), ReserveSet(p)]);
      View(t.redis) == Fifo.Reserve(View(s.redis), p) && Free(t, p)
  {
    var (s1, r) := (Exec(s, ReserveMove(p)), s.redis);
    RunTwo(s, ReserveMove(p), ReserveSet(p));
    if r.pending != [] {
      var (most, id) := (r.pending[..|r.pending| - 1], r.pending[|r.pending| - 1]);
      ViewReserved(r, most, id, p);
      assert s1.redis == Redis(most, [id] + r.inflight, r.leases) && s1.procs[p] == MidReserve(id);
      assert Exec(s1, ReserveSet(p)).redis == Redis(most, [id] + r.inflight, r.leases[id := p]);
    }
  }

  /** Renewing goes past the GET exactly for the owner of a lease that is there, and moves nothing. */
  lemma RenewIsTheOwners(s: State, p: nat, id: Id)
    requires Free(s, p) && id in s.redis.inflight
    ensures Exec(s, RenewGet(p, id)).procs[p] == MidRenew(id) <==> Fifo.Owns(View(s.redis), id, p)
    ensures var t := Run(s, [RenewGet(p, id), RenewExpire(p)]); t.redis == s.redis && Free(t, p)
  {
    RunTwo(s, RenewGet(p, id), RenewExpire(p));
  }

  lemma AckIsAck(s: State, p: nat, id: Id)
    requires Free(s, p)
    ensures var t := Run(s, [AckRemove(p, id), AckDelete(p)]);
      View(t.redis) == Fifo.Ack(View(s.redis), id) && Free(t, p)
  {
    RunTwo(s, AckRemove(p, id), AckDelete(p));
    HeldAcked(s.redis.inflight, s.redis.leases, id);
  }

  lemma HeldAcked(inflight: seq<Id>, leases: map<Id, nat>, id: Id)
    ensures HeldOf(RemoveAll(inflight, id), leases - {id}) == HeldOf(inflight, leases) - {id}
  {
    var (a, b) := (HeldOf(RemoveAll(inflight, id), leases - {id}), HeldOf(inflight, leases) - {id});
    forall k ensures k in a <==> k in b { RemovedAll(inflight, id, k); }
    SameMap(a, b);
  }

  lemma LapseIsLapse(s: State, id: Id)
    ensures View(Exec(s, Expire(id)).redis) == Fifo.Lapse(View(s.redis), id)
  {
  }

  /** A reaper that is about to look at an id that is in flight once: what it does about it, undisturbed. */
  lemma ReapIsRequeue(s: State, p: nat, id: Id, rest: seq<Id>)
    requires p < |s.procs| && s.procs[p] == Scanning([id] + rest) && Count(s.redis.inflight, id) == 1
    ensures var t := if id in s.redis.leases then Run(s, [ReapExists(p)])
                     else Run(s, [ReapExists(p)] + [ReapRemove(p), ReapPush(p)]);
      View(t.redis) == Fifo.Requeue(View(s.redis), id) && p < |t.procs| && t.procs[p] == Continue(rest)
  {
    CountIsIn(s.redis.inflight, id);
    RunOne(s, ReapExists(p));
    assert ([id] + rest)[1..] == rest;
    if id !in s.redis.leases {
      var s1 := Exec(s, ReapExists(p));
      assert s1.procs[p] == FoundLapsed(id, rest) && s1.redis == s.redis;
      assert ([ReapExists(p)] + [ReapRemove(p), ReapPush(p)])[1..] == [ReapRemove(p), ReapPush(p)];
      RunTwo(s1, ReapRemove(p), ReapPush(p));
      LapsedIsRequeued(s, s1, p, id, rest);
    }
  }

  lemma LapsedIsRequeued(s: State, s1: State, p: nat, id: Id, rest: seq<Id>)
    requires p < |s1.procs| && s1.procs[p] == FoundLapsed(id, rest) && s1.redis == s.redis
    requires id in s.redis.inflight && Count(s.redis.inflight, id) == 1 && id !in s.redis.leases
    ensures var t := Exec(Exec(s1, ReapRemove(p)), ReapPush(p));
      View(t.redis) == Fifo.Requeue(View(s.redis), id) && p < |t.procs| && t.procs[p] == Continue(rest)
  {
    var (s2, r) := (Exec(s1, ReapRemove(p)), s.redis);
    assert s2.procs[p] == Holding(id, rest) && s2.redis == r.(inflight := RemoveOne(r.inflight, id));
    var t := Exec(s2, ReapPush(p));
    assert t.redis == Redis([id] + r.pending, RemoveOne(r.inflight, id), r.leases);
    ViewRequeued(r, id);
  }

  lemma HeldRequeued(inflight: seq<Id>, leases: map<Id, nat>, id: Id)
    requires Count(inflight, id) <= 1
    ensures HeldOf(RemoveOne(inflight, id), leases) == HeldOf(inflight, leases) - {id}
  {
    var (a, b) := (HeldOf(RemoveOne(inflight, id), leases), HeldOf(inflight, leases) - {id});
    forall k ensures k in a <==> k in b { RemovedOne(inflight, id, k); }
    SameMap(a, b);
  }

  lemma ViewRequeued(r: Redis, id: Id)
    requires id in r.inflight && Count(r.inflight, id) == 1 && id !in r.leases
    ensures View(Redis([id] + r.pending, RemoveOne(r.inflight, id), r.leases)) == Fifo.Requeue(View(r), id)
  {
    ReversedAppend([id], r.pending);
    assert Reversed([id]) == [id];
    HeldRequeued(r.inflight, r.leases, id);
  }
}
