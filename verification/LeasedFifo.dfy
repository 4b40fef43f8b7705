/** What a build queue is, apart from how it is stored: ids waiting in line, and ids held by a
    worker under a lease that is either live or has lapsed. */
module LeasedFifo {
  import opened Options

  type Id = string
  type Owner = nat

  /** `waiting` has the next id to be reserved first; `held[id]` names the owner of a live lease,
      or is None once the lease has lapsed. */
  datatype Queue = Queue(waiting: seq<Id>, held: map<Id, Option<Owner>>)

  const EMPTY := Queue([], map[])

  function Push(q: Queue, id: Id): Queue { q.(waiting := q.waiting + [id]) }

  function Reserve(q: Queue, owner: Owner): Queue {
    if q.waiting == [] then q
    else Queue(q.waiting[1..], q.held[q.waiting[0] := Some(owner)])
  }

  function Reserved(q: Queue): Option<Id> {
    if q.waiting == [] then None else Some(q.waiting[0])
  }

  predicate Owns(q: Queue, id: Id, owner: Owner) { id in q.held && q.held[id] == Some(owner) }

  predicate Lapsed(q: Queue, id: Id) { id in q.held && q.held[id].None? }

  function Lapse(q: Queue, id: Id): Queue {
    if id in q.held then q.(held := q.held[id := None]) else q
  }

  /** Only a queue that still remembers the owner of a lapsed lease can do this. */
  function Revive(q: Queue, id: Id, owner: Owner): Queue {
    if Lapsed(q, id) then q.(held := q.held[id := Some(owner)]) else q
  }

  function Ack(q: Queue, id: Id): Queue { q.(held := q.held - {id}) }

  function Requeue(q: Queue, id: Id): Queue {
    if Lapsed(q, id) then Queue(q.waiting + [id], q.held - {id}) else q
  }

  function RequeueAll(q: Queue, ids: seq<Id>): Queue
    decreases |ids|
  {
    if ids == [] then q else RequeueAll(Requeue(q, ids[0]), ids[1..])
  }

  /** Requeueing a batch of lapsed ids puts them behind everything already waiting, in the order of
      the batch, and touches no other lease. */
  lemma {:induction false} RequeueAllAppends(q: Queue, ids: seq<Id>)
    requires forall id :: id in ids ==> Lapsed(q, id)
    requires forall i, j :: 0 <= i < j < |ids| ==> ids[i] != ids[j]
    ensures RequeueAll(q, ids) == Queue(q.waiting + ids, q.held - (set id | id in ids))
    decreases |ids|
  {
    if ids == [] {
      assert q.waiting + ids == q.waiting;
      assert q.held - (set id | id in ids) == q.held;
    } else {
      var r := Requeue(q, ids[0]);
      forall id | id in ids[1..] ensures Lapsed(r, id) {
        var k :| 0 <= k < |ids| - 1 && ids[1..][k] == id;
        assert ids[k + 1] in ids && ids[0] != ids[k + 1];
        assert Lapsed(q, ids[0]) && Lapsed(q, id);
      }
      RequeueAllAppends(r, ids[1..]);
      assert r.waiting + ids[1..] == q.waiting + ids;
      assert {ids[0]} + (set id | id in ids[1..]) == (set id | id in ids);
      assert r.held - (set id | id in ids[1..]) == q.held - (set id | id in ids);
    }
  }

  // ---- runs ----------------------------------------------------------------

  datatype Op =
    | DoPush(id: Id)
    | DoReserve(owner: Owner)
    | DoLapse(id: Id)
    | DoRevive(id: Id, owner: Owner)
    | DoAck(id: Id)
    | DoRequeue(ids: seq<Id>)

  /** A queue together with the order of arrivals and departures, and the ids ever requeued. */
  datatype Track = Track(queue: Queue, arrivals: seq<Id>, departures: seq<Id>, requeued: set<Id>)

  function Apply(t: Track, op: Op): Track {
    match op
    case DoPush(id) => t.(queue := Push(t.queue, id), arrivals := t.arrivals + [id])
    case DoReserve(owner) =>
      if t.queue.waiting == [] then t
      else t.(queue := Reserve(t.queue, owner), departures := t.departures + [t.queue.waiting[0]])
    case DoLapse(id) => t.(queue := Lapse(t.queue, id))
    case DoRevive(id, owner) => t.(queue := Revive(t.queue, id, owner))
    case DoAck(id) => t.(queue := Ack(t.queue, id))
    case DoRequeue(ids) =>
      t.(queue := RequeueAll(t.queue, ids),
         requeued := t.requeued + (set id | id in ids && Lapsed(t.queue, id)))
  }

  function ApplyAll(t: Track, ops: seq<Op>): Track
    decreases |ops|
  {
    if ops == [] then t else ApplyAll(Apply(t, ops[0]), ops[1..])
  }

  const START := Track(EMPTY, [], [], {})

  /** s without the ids in `skip`. */
  function Without(s: seq<Id>, skip: set<Id>): seq<Id> {
    if s == [] then []
    else if s[0] in skip then Without(s[1..], skip)
    else [s[0]] + Without(s[1..], skip)
  }

  lemma {:induction false} WithoutAppend(a: seq<Id>, b: seq<Id>, skip: set<Id>)
    ensures Without(a + b, skip) == Without(a, skip) + Without(b, skip)
  {
    if a == [] {
      assert a + b == b;
    } else {
      assert (a + b)[1..] == a[1..] + b;
      WithoutAppend(a[1..], b, skip);
    }
  }

  /** Leaving out `skip`, everything that ever arrived has left already or still waits, in order. */
  ghost predicate InOrder(t: Track, skip: set<Id>) {
    Without(t.arrivals, skip) == Without(t.departures, skip) + Without(t.queue.waiting, skip)
  }

  lemma {:induction false} RequeueKeepsOthers(q: Queue, ids: seq<Id>, skip: set<Id>)
    requires forall id :: id in ids && Lapsed(q, id) ==> id in skip
    ensures Without(RequeueAll(q, ids).waiting, skip) == Without(q.waiting, skip)
    decreases |ids|
  {
    if ids != [] {
      RequeueKeepsOthers(Requeue(q, ids[0]), ids[1..], skip);
      WithoutAppend(q.waiting, [ids[0]], skip);
    }
  }

  lemma ReserveKeepsOrder(waiting: seq<Id>, departures: seq<Id>, skip: set<Id>)
    ensures waiting != [] ==>
              Without(departures + [waiting[0]], skip) + Without(waiting[1..], skip)
              == Without(departures, skip) + Without(waiting, skip)
  {
    if waiting != [] {
      var id := waiting[0];
      assert waiting == [id] + waiting[1..];
      WithoutAppend([id], waiting[1..], skip);
      WithoutAppend(departures, [id], skip);
    }
  }

  lemma ApplyKeepsOrder(t: Track, op: Op, skip: set<Id>)
    requires InOrder(t, skip) && Apply(t, op).requeued <= skip
    ensures InOrder(Apply(t, op), skip)
  {
    match op
    case DoPush(id) =>
      WithoutAppend(t.arrivals, [id], skip);
      WithoutAppend(t.queue.waiting, [id], skip);
    case DoReserve(_) => ReserveKeepsOrder(t.queue.waiting, t.departures, skip);
    case DoRequeue(ids) =>
      RequeueKeepsOthers(t.queue, ids, skip);
    case _ =>
  }

  lemma {:induction false} RequeuedGrows(t: Track, ops: seq<Op>)
    ensures t.requeued <= ApplyAll(t, ops).requeued
    decreases |ops|
  {
    if ops != [] { RequeuedGrows(Apply(t, ops[0]), ops[1..]); }
  }

  lemma {:induction false} RunKeepsOrder(t: Track, ops: seq<Op>, skip: set<Id>)
    requires InOrder(t, skip) && ApplyAll(t, ops).requeued <= skip
    ensures InOrder(ApplyAll(t, ops), skip)
    decreases |ops|
  {
    if ops != [] {
      RequeuedGrows(Apply(t, ops[0]), ops[1..]);
      ApplyKeepsOrder(t, ops[0], skip);
      RunKeepsOrder(Apply(t, ops[0]), ops[1..], skip);
    }
  }

  /** First in, first out, over every run: the ids that are never requeued leave exactly in the
      order in which they were pushed, and those still waiting follow them in that order. */
  lemma NeverRequeuedLeaveInOrder(ops: seq<Op>)
    ensures var t := ApplyAll(START, ops);
            Without(t.arrivals, t.requeued)
            == Without(t.departures, t.requeued) + Without(t.queue.waiting, t.requeued)
  {
    RunKeepsOrder(START, ops, ApplyAll(START, ops).requeued);
  }

  // ---- a queue and its past ------------------------------------------------

  function LapseAll(q: Queue, ids: seq<Id>): Queue
    decreases |ids|
  {
    if ids == [] then q else LapseAll(Lapse(q, ids[0]), ids[1..])
  }

  function Lapses(ids: seq<Id>): seq<Op> { seq(|ids|, i requires 0 <= i < |ids| => DoLapse(ids[i])) }

  lemma {:induction false} LapseAllHolds(q: Queue, ids: seq<Id>)
    ensures LapseAll(q, ids).waiting == q.waiting
    ensures LapseAll(q, ids).held == map id | id in q.held :: if id in ids then None else q.held[id]
    decreases |ids|
  {
    if ids != [] {
      assert ids == [ids[0]] + ids[1..];
      LapseAllHolds(Lapse(q, ids[0]), ids[1..]);
    }
  }

  lemma {:induction false} ApplyLapses(t: Track, ids: seq<Id>)
    ensures ApplyAll(t, Lapses(ids)) == t.(queue := LapseAll(t.queue, ids))
    decreases |ids|
  {
    if ids != [] {
      assert Lapses(ids)[0] == DoLapse(ids[0]) && Lapses(ids)[1..] == Lapses(ids[1..]);
      ApplyLapses(Apply(t, DoLapse(ids[0])), ids[1..]);
    }
  }

  lemma {:induction false} ApplyAllAppend(t: Track, a: seq<Op>, b: seq<Op>)
    ensures ApplyAll(t, a + b) == ApplyAll(ApplyAll(t, a), b)
    decreases |a|
  {
    if a == [] {
      assert a + b == b;
    } else {
      assert (a + b)[1..] == a[1..] + b;
      ApplyAllAppend(Apply(t, a[0]), a[1..], b);
    }
  }

  /** What has been done to a queue up to a moment. It is regular while the clock has not gone back and
      whatever else the queue relies on has held. */
  datatype Past = Past(ops: seq<Op>, track: Track, clock: real, regular: bool)

  const NO_PAST := Past([], START, 0.0, true)

  /** A queue that looks like this is one that such a past leads to. */
  ghost predicate Explains(p: Past, q: Queue) {
    p.regular ==> p.track == ApplyAll(START, p.ops) && p.track.queue == q
  }

  /** Time has passed, and these leases have lapsed. */
  function Later(p: Past, lapsed: seq<Id>, now: real): Past {
    Past(p.ops + Lapses(lapsed), p.track.(queue := LapseAll(p.track.queue, lapsed)), now, p.regular && p.clock <= now)
  }

  function Did(p: Past, op: Op): Past { p.(ops := p.ops + [op], track := Apply(p.track, op)) }

  lemma LaterExplains(p: Past, q: Queue, lapsed: seq<Id>, now: real, v: Queue)
    requires Explains(p, q) && (p.clock <= now ==> LapseAll(q, lapsed) == v)
    ensures Explains(Later(p, lapsed, now), v)
  {
    ApplyAllAppend(START, p.ops, Lapses(lapsed));
    ApplyLapses(p.track, lapsed);
  }

  lemma DidExplains(p: Past, q: Queue, op: Op, v: Queue)
    requires Explains(p, q) && (p.regular ==> Apply(p.track, op).queue == v)
    ensures Explains(Did(p, op), v)
  {
    ApplyAllAppend(START, p.ops, [op]);
    assert ApplyAll(p.track, [op]) == Apply(p.track, op);
  }

  /** First in, first out, for anything with such a past. */
  lemma LeavesInOrder(p: Past, q: Queue)
    requires Explains(p, q) && p.regular
    ensures Without(p.track.arrivals, p.track.requeued)
            == Without(p.track.departures, p.track.requeued) + Without(q.waiting, p.track.requeued)
  {
    NeverRequeuedLeaveInOrder(p.ops);
  }
}
