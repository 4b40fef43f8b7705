/** What the Redis queue does not promise, and exactly when it does: the races between the single
    commands of one process and those of another. */
module QueueRaces {
  import opened QueueCommands

  // ---- the last command that touched an id ---------------------------------

  /** In a run of these commands from s, the last one that switches something on comes after the last
      one that switches it off. */
  ghost predicate LastWins(s: State, cs: seq<Command>, on: (State, Command) -> bool, off: (State, Command) -> bool) {
    exists i :: 0 <= i < |cs| && on(Run(s, cs[..i]), cs[i])
                && forall j :: i < j < |cs| ==> !off(Run(s, cs[..j]), cs[j])
  }

  ghost predicate Never(s: State, cs: seq<Command>, off: (State, Command) -> bool) {
    forall j :: 0 <= j < |cs| ==> !off(Run(s, cs[..j]), cs[j])
  }

  lemma {:induction false} NeverNext(s: State, cs: seq<Command>, c: Command, off: (State, Command) -> bool)
    ensures Never(s, cs + [c], off) <==> Never(s, cs, off) && !off(Run(s, cs), c)
  {
    var all := cs + [c];
    assert forall j :: 0 <= j < |cs| ==> all[..j] == cs[..j] && all[j] == cs[j];
    assert all[..|cs|] == cs && all[|cs|] == c;
  }

  lemma LastWinsNext(s: State, cs: seq<Command>, c: Command, on: (State, Command) -> bool, off: (State, Command) -> bool)
    ensures LastWins(s, cs + [c], on, off) <==> on(Run(s, cs), c) || (LastWins(s, cs, on, off) && !off(Run(s, cs), c))
  {
    if on(Run(s, cs), c) || (LastWins(s, cs, on, off) && !off(Run(s, cs), c)) { LastWinsGoesOn(s, cs, c, on, off); }
    var all := cs + [c];
    assert forall j :: 0 <= j < |cs| ==> all[..j] == cs[..j] && all[j] == cs[j];
    assert all[..|cs|] == cs && all[|cs|] == c;
    if LastWins(s, all, on, off) && !on(Run(s, cs), c) {
      var i :| 0 <= i < |all| && on(Run(s, all[..i]), all[i]) && forall j :: i < j < |all| ==> !off(Run(s, all[..j]), all[j]);
      assert i < |cs| && on(Run(s, cs[..i]), cs[i]);
      assert !off(Run(s, all[..|cs|]), all[|cs|]);
    }
  }

  lemma LastWinsGoesOn(s: State, cs: seq<Command>, c: Command, on: (State, Command) -> bool, off: (State, Command) -> bool)
    requires on(Run(s, cs), c) || (LastWins(s, cs, on, off) && !off(Run(s, cs), c))
    ensures LastWins(s, cs + [c], on, off)
  {
    var all := cs + [c];
    assert forall j :: 0 <= j < |cs| ==> all[..j] == cs[..j] && all[j] == cs[j];
    assert all[..|cs|] == cs && all[|cs|] == c;
    if on(Run(s, cs), c) {
      assert on(Run(s, all[..|cs|]), all[|cs|]);
    } else {
      var i :| 0 <= i < |cs| && on(Run(s, cs[..i]), cs[i]) && forall j :: i < j < |cs| ==> !off(Run(s, cs[..j]), cs[j]);
      assert on(Run(s, all[..i]), all[i]);
    }
  }

  // ---- leases --------------------------------------------------------------

  /** This command writes the lease key of id. */
  predicate Sets(s: State, c: Command, id: Id) {
    c.ReserveSet? && c.p < |s.procs| && s.procs[c.p] == MidReserve(id)
  }

  /** This command, or the passing of time, removes the lease key of id. */
  predicate Unsets(s: State, c: Command, id: Id) {
    c == Expire(id) || (c.AckDelete? && c.p < |s.procs| && s.procs[c.p] == MidAck(id))
  }

  lemma LeaseStep(s: State, c: Command, id: Id)
    ensures id in Exec(s, c).redis.leases <==> Sets(s, c, id) || (id in s.redis.leases && !Unsets(s, c, id))
  {
  }

  lemma {:induction false} LeaseHistory(s: State, cs: seq<Command>, id: Id)
    ensures id in Run(s, cs).redis.leases <==>
            || LastWins(s, cs, (t, c) => Sets(t, c, id), (t, c) => Unsets(t, c, id))
            || (id in s.redis.leases && Never(s, cs, (t, c) => Unsets(t, c, id)))
    decreases |cs|
  {
    var (on, off) := ((t: State, c: Command) => Sets(t, c, id), (t: State, c: Command) => Unsets(t, c, id));
    if cs != [] {
      var (most, c) := (cs[..|cs| - 1], cs[|cs| - 1]);
      assert cs == most + [c];
      LeaseHistory(s, most, id);
      RunAppend(s, most, [c]);
      TraceIsRun([Run(s, most), Exec(Run(s, most), c)], [c]);
      LeaseStep(Run(s, most), c, id);
      LastWinsNext(s, most, c, on, off);
      NeverNext(s, most, c, off);
    }
  }

  lemma {:induction false} OthersLeaveProcess(s: State, cs: seq<Command>, p: nat)
    requires p < |s.procs| && forall c :: c in cs ==> c.Expire? || c.p != p
    ensures |Run(s, cs).procs| == |s.procs| && Run(s, cs).procs[p] == s.procs[p]
    decreases |cs|
  {
    if cs != [] {
      assert cs[0] in cs;
      assert |Exec(s, cs[0]).procs| == |s.procs| && Exec(s, cs[0]).procs[p] == s.procs[p];
      OthersLeaveProcess(Exec(s, cs[0]), cs[1..], p);
    }
  }

  /** A reaper's EXISTS says that a lease is gone, and only later does its LREM act on that. From any
      state and whatever the others do in between, the LREM takes the job of a lease that is live
      exactly when the id is still inflight and some SET of its lease has come since the EXISTS that
      neither an expiry nor an acknowledgement has undone. */
  lemma {:induction false} TakesALiveLease(s: State, p: nat, id: Id, between: seq<Command>)
    requires p < |s.procs| && s.procs[p].Scanning? && s.procs[p].rest != [] && s.procs[p].rest[0] == id
    requires id !in s.redis.leases
    requires forall c :: c in between ==> c.Expire? || c.p != p
    ensures var seen := Exec(s, ReapExists(p));
            var t := Run(seen, between);
            && p < |t.procs| && t.procs[p].FoundLapsed? && t.procs[p].id == id
            && (Takes(t, ReapRemove(p), id) && id in t.redis.leases <==>
                && id in t.redis.inflight
                && LastWins(seen, between, (u, c) => Sets(u, c, id), (u, c) => Unsets(u, c, id)))
  {
    var seen := Exec(s, ReapExists(p));
    OthersLeaveProcess(seen, between, p);
    LeaseHistory(seen, between, id);
  }

  // ---- inflight ------------------------------------------------------------

  /** A reaper's LREM that removes id. */
  predicate Takes(s: State, c: Command, id: Id) {
    c.ReapRemove? && c.p < |s.procs| && s.procs[c.p].FoundLapsed? && s.procs[c.p].id == id && id in s.redis.inflight
  }

  /** A reaper's or an acknowledgement's LREM that removes id. */
  predicate Removes(s: State, c: Command, id: Id) {
    Takes(s, c, id) || (c.AckRemove? && c.id == id && c.p < |s.procs| && s.procs[c.p].Idle?)
  }

  /** The LMOVE of a reserve that gets id. */
  predicate Moves(s: State, c: Command, id: Id) {
    && c.ReserveMove? && c.p < |s.procs| && s.procs[c.p].Idle?
    && s.redis.pending != [] && s.redis.pending[|s.redis.pending| - 1] == id
  }

  lemma {:induction false} CountIsMembership(s: seq<Id>, id: Id)
    ensures Count(s, id) > 0 <==> id in s
  {
    if s != [] { CountIsMembership(s[1..], id); }
  }

  lemma InflightStep(s: State, c: Command, id: Id)
    requires Count(s.redis.inflight, id) <= 1
    ensures id in Exec(s, c).redis.inflight <==> Moves(s, c, id) || (id in s.redis.inflight && !Removes(s, c, id))
  {
    CountIsMembership(s.redis.inflight, id);
    CountIsMembership(Exec(s, c).redis.inflight, id);
    if c.ReapRemove? && c.p < |s.procs| && s.procs[c.p].FoundLapsed? && s.procs[c.p].id in s.redis.inflight {
      RemoveOneCounts(s.redis.inflight, s.procs[c.p].id, id);
    } else if c.AckRemove? {
      RemoveAllCounts(s.redis.inflight, c.id, id);
    }
  }

  lemma AtMostOnceInflight(n: nat, before: seq<Command>, after: seq<Command>, id: Id)
    requires Run(Run(Init(n), before), after).past.pushed[id] <= 1
    ensures Count(Run(Init(n), before).redis.inflight, id) <= 1
  {
    HistoryGrows(Run(Init(n), before), after, id);
    Conservation(n, before, id);
  }

  lemma {:induction false} InflightHistory(n: nat, before: seq<Command>, cs: seq<Command>, id: Id)
    requires Run(Run(Init(n), before), cs).past.pushed[id] <= 1
    ensures var s := Run(Init(n), before);
            id in Run(s, cs).redis.inflight <==>
            || LastWins(s, cs, (t, c) => Moves(t, c, id), (t, c) => Removes(t, c, id))
            || (id in s.redis.inflight && Never(s, cs, (t, c) => Removes(t, c, id)))
    decreases |cs|
  {
    var s := Run(Init(n), before);
    var (on, off) := ((t: State, c: Command) => Moves(t, c, id), (t: State, c: Command) => Removes(t, c, id));
    if cs != [] {
      var (most, c) := (cs[..|cs| - 1], cs[|cs| - 1]);
      assert cs == most + [c];
      RunAppend(s, most, [c]);
      HistoryGrows(Run(s, most), [c], id);
      InflightHistory(n, before, most, id);
      TraceIsRun([Run(s, most), Exec(Run(s, most), c)], [c]);
      RunAppend(Init(n), before, most);
      AtMostOnceInflight(n, before + most, [c], id);
      InflightStep(Run(s, most), c, id);
      LastWinsNext(s, most, c, on, off);
      NeverNext(s, most, c, off);
    }
  }

  /** A worker's LMOVE and the SET of its lease are two commands. Of an id that was pushed once, the
      entry is still inflight at its SET, or at any later moment of any run, exactly when no reaper
      and no acknowledgement has removed it since, or it has been moved again after the last that
      did. */
  lemma {:induction false} StillInflight(n: nat, before: seq<Command>, p: nat, between: seq<Command>, id: Id)
    requires Moves(Run(Init(n), before), ReserveMove(p), id)
    requires Run(Run(Init(n), before + [ReserveMove(p)]), between).past.pushed[id] == 1
    ensures var moved := Run(Init(n), before + [ReserveMove(p)]);
            id in Run(moved, between).redis.inflight <==>
            || LastWins(moved, between, (t, c) => Moves(t, c, id), (t, c) => Removes(t, c, id))
            || Never(moved, between, (t, c) => Removes(t, c, id))
  {
    var s := Run(Init(n), before);
    RunAppend(Init(n), before, [ReserveMove(p)]);
    TraceIsRun([s, Exec(s, ReserveMove(p))], [ReserveMove(p)]);
    assert Exec(s, ReserveMove(p)).redis.inflight[0] == id;
    InflightHistory(n, before + [ReserveMove(p)], between, id);
  }

  // ---- four runs -----------------------------------------------------------

  function HolderDies(id: Id): seq<Command> {
    [Push(0, id), ReserveMove(0), ReserveSet(0), Crash(0), Expire(id)]
  }

  function ReaperDies(): seq<Command> {
    [ReapRange(1), ReapExists(1), ReapRemove(1), Crash(1)]
  }

  lemma AfterHolderDies(id: Id)
    ensures var s := Run(Init(2), HolderDies(id));
            && s.redis == Redis([], [id], map[]) && s.procs == [Crashed, Idle]
            && s.past.pushed == multiset{id} && s.past.acked == multiset{}
  {
    AfterMove(id);
    var s2 := Run(Init(2), [Push(0, id), ReserveMove(0)]);
    var s3 := Exec(s2, ReserveSet(0));
    assert s3.redis == Redis([], [id], map[id := 0]) && s3.procs == [Idle, Idle];
    var s4 := Exec(s3, Crash(0));
    var s5 := Exec(s4, Expire(id));
    assert s5.redis.leases == map[];
    TraceIsRun([s2, s3, s4, s5], [ReserveSet(0), Crash(0), Expire(id)]);
    RunAppend(Init(2), [Push(0, id), ReserveMove(0)], [ReserveSet(0), Crash(0), Expire(id)]);
    assert HolderDies(id) == [Push(0, id), ReserveMove(0)] + [ReserveSet(0), Crash(0), Expire(id)];
  }

  lemma AfterMove(id: Id)
    ensures var s := Run(Init(2), [Push(0, id), ReserveMove(0)]);
            && s.redis == Redis([], [id], map[]) && s.procs == [MidReserve(id), Idle]
            && s.past.pushed == multiset{id} && s.past.acked == multiset{}
  {
    var s0 := Init(2);
    assert s0.procs == [Idle, Idle];
    var s1 := Exec(s0, Push(0, id));
    var s2 := Exec(s1, ReserveMove(0));
    TraceIsRun([s0, s1, s2], [Push(0, id), ReserveMove(0)]);
  }

  lemma AfterReaperDies(s: State, id: Id)
    requires s.redis == Redis([], [id], map[]) && s.procs == [Crashed, Idle]
    ensures var t := Run(s, ReaperDies());
            && t.redis == Redis([], [], map[]) && t.procs == [Crashed, Crashed]
            && t.past.pushed == s.past.pushed && t.past.acked == s.past.acked
  {
    var s1 := Exec(s, ReapRange(1));
    assert s1.procs == [Crashed, Scanning([id])] && [id][1..] == [];
    var s2 := Exec(s1, ReapExists(1));
    assert s2.redis == s.redis && s2.procs == [Crashed, FoundLapsed(id, [])];
    var s3 := Exec(s2, ReapRemove(1));
    assert s3.redis == Redis([], [], map[]) && s3.procs == [Crashed, Holding(id, [])];
    var s4 := Exec(s3, Crash(1));
    TraceIsRun([s, s1, s2, s3, s4], ReaperDies());
  }

  /** LREM and LPUSH of a reaper are two commands: a reaper that crashes between them takes the id
      with it, although nobody acknowledged it. */
  lemma ReaperCrashLosesAnId(id: Id)
    ensures var s := Run(Init(2), HolderDies(id) + ReaperDies());
            Occurrences(s, id) == 0 && s.past.pushed[id] == 1 && s.past.acked[id] == 0
  {
    RunAppend(Init(2), HolderDies(id), ReaperDies());
    AfterHolderDies(id);
    AfterReaperDies(Run(Init(2), HolderDies(id)), id);
    assert Hands([Crashed, Crashed][1..], id) == 0;
  }

  lemma ReserveInterrupted(id: Id)
    ensures var s := Run(Init(2), [Push(0, id), ReserveMove(0), ReapRange(1), ReapExists(1)]);
            s.redis == Redis([], [id], map[]) && s.procs == [MidReserve(id), FoundLapsed(id, [])]
  {
    AfterMove(id);
    var s2 := Run(Init(2), [Push(0, id), ReserveMove(0)]);
    var s3 := Exec(s2, ReapRange(1));
    assert s3.procs == [MidReserve(id), Scanning([id])] && [id][1..] == [];
    var s4 := Exec(s3, ReapExists(1));
    TraceIsRun([s2, s3, s4], [ReapRange(1), ReapExists(1)]);
    RunAppend(Init(2), [Push(0, id), ReserveMove(0)], [ReapRange(1), ReapExists(1)]);
    assert [Push(0, id), ReserveMove(0)] + [ReapRange(1), ReapExists(1)]
        == [Push(0, id), ReserveMove(0), ReapRange(1), ReapExists(1)];
  }

  /** LMOVE and SET of reserve are two commands as well: if a reaper looks between them, the job is
      pending again while a worker that is alive believes it holds the lease. */
  lemma SlowReserveIsRequeued(id: Id)
    ensures var s := Run(Init(2), [Push(0, id), ReserveMove(0), ReapRange(1), ReapExists(1)]
                                  + [ReapRemove(1), ReapPush(1), ReserveSet(0)]);
            s.redis == Redis([id], [], map[id := 0])
  {
    ReserveInterrupted(id);
    var s := Run(Init(2), [Push(0, id), ReserveMove(0), ReapRange(1), ReapExists(1)]);
    var s1 := Exec(s, ReapRemove(1));
    assert s1.redis == Redis([], [], map[]) && s1.procs == [MidReserve(id), Holding(id, [])];
    var s2 := Exec(s1, ReapPush(1));
    var s3 := Exec(s2, ReserveSet(0));
    TraceIsRun([s, s1, s2, s3], [ReapRemove(1), ReapPush(1), ReserveSet(0)]);
    RunAppend(Init(2), [Push(0, id), ReserveMove(0), ReapRange(1), ReapExists(1)],
              [ReapRemove(1), ReapPush(1), ReserveSet(0)]);
  }

  // ---- a stale reaper ------------------------------------------------------

  /** Where the run below stands: the lists and leases, the processes, and how often id was requeued. */
  ghost predicate Shows(s: State, redis: Redis, procs: seq<Process>, id: Id, requeued: nat) {
    s.redis == redis && s.procs == procs && s.past.pushed[id] == 1 && s.past.requeued[id] == requeued
  }

  /** Process 0 reserves the id and dies; its lease lapses. */
  function Abandoned(id: Id): seq<Command> {
    [Push(0, id), ReserveMove(0), ReserveSet(0)] + [Crash(0), Expire(id)]
  }

  /** Processes 1 and 2 take the same snapshot of inflight, and 1 sees that the lease is gone. */
  function SharedSnapshot(): seq<Command> { [ReapRange(1), ReapRange(2), ReapExists(1)] }

  /** Process 2 requeues the id, and process 3 reserves it, lease and all. */
  function RequeuedAndReserved(): seq<Command> {
    [ReapExists(2), ReapRemove(2), ReapPush(2)] + [ReserveMove(3), ReserveSet(3)]
  }

  /** Process 1 goes on with what it saw. */
  function LateRemove(): seq<Command> { [ReapRemove(1), ReapPush(1)] }

  lemma AfterAbandoned(id: Id)
    ensures Shows(Run(Init(4), Abandoned(id)), Redis([], [id], map[]), [Crashed, Idle, Idle, Idle], id, 0)
  {
    var s0 := Init(4);
    assert s0.procs == [Idle, Idle, Idle, Idle];
    var s1 := Exec(s0, Push(0, id));
    var s2 := Exec(s1, ReserveMove(0));
    var s3 := Exec(s2, ReserveSet(0));
    assert s3.procs == [Idle, Idle, Idle, Idle] && s3.redis == Redis([], [id], map[id := 0]);
    TraceIsRun([s0, s1, s2, s3], [Push(0, id), ReserveMove(0), ReserveSet(0)]);
    var s4 := Exec(s3, Crash(0));
    var s5 := Exec(s4, Expire(id));
    assert s5.redis.leases == map[];
    TraceIsRun([s3, s4, s5], [Crash(0), Expire(id)]);
    RunAppend(s0, [Push(0, id), ReserveMove(0), ReserveSet(0)], [Crash(0), Expire(id)]);
  }

  lemma AfterSharedSnapshot(s: State, id: Id)
    requires Shows(s, Redis([], [id], map[]), [Crashed, Idle, Idle, Idle], id, 0)
    ensures Shows(Run(s, SharedSnapshot()), Redis([], [id], map[]),
                  [Crashed, FoundLapsed(id, []), Scanning([id]), Idle], id, 0)
  {
    var s1 := Exec(s, ReapRange(1));
    var s2 := Exec(s1, ReapRange(2));
    assert s2.procs == [Crashed, Scanning([id]), Scanning([id]), Idle] && [id][1..] == [];
    TraceIsRun([s, s1, s2, Exec(s2, ReapExists(1))], SharedSnapshot());
  }

  lemma AfterSecondReaper(s: State, id: Id)
    requires Shows(s, Redis([], [id], map[]), [Crashed, FoundLapsed(id, []), Scanning([id]), Idle], id, 0)
    ensures Shows(Run(s, [ReapExists(2), ReapRemove(2), ReapPush(2)]), Redis([id], [], map[]),
                  [Crashed, FoundLapsed(id, []), Idle, Idle], id, 1)
  {
    var s1 := Exec(s, ReapExists(2));
    assert [id][1..] == [] && s1.procs[2] == FoundLapsed(id, []);
    var s2 := Exec(s1, ReapRemove(2));
    assert s2.redis.inflight == [] && s2.procs[2] == Holding(id, []);
    TraceIsRun([s, s1, s2, Exec(s2, ReapPush(2))], [ReapExists(2), ReapRemove(2), ReapPush(2)]);
  }

  lemma AfterSecondReserve(s: State, id: Id)
    requires Shows(s, Redis([id], [], map[]), [Crashed, FoundLapsed(id, []), Idle, Idle], id, 1)
    ensures Shows(Run(s, [ReserveMove(3), ReserveSet(3)]), Redis([], [id], map[id := 3]),
                  [Crashed, FoundLapsed(id, []), Idle, Idle], id, 1)
  {
    var s1 := Exec(s, ReserveMove(3));
    TraceIsRun([s, s1, Exec(s1, ReserveSet(3))], [ReserveMove(3), ReserveSet(3)]);
  }

  lemma AfterLateRemove(s: State, id: Id)
    requires Shows(s, Redis([], [id], map[id := 3]), [Crashed, FoundLapsed(id, []), Idle, Idle], id, 1)
    ensures Shows(Run(s, LateRemove()), Redis([id], [], map[id := 3]), [Crashed, Idle, Idle, Idle], id, 2)
  {
    var s1 := Exec(s, ReapRemove(1));
    TraceIsRun([s, s1, Exec(s1, ReapPush(1))], LateRemove());
  }

  /** Two reapers that share a snapshot requeue the same id twice: the slower one takes the job away
      from a worker whose reserve was complete and whose lease is live. */
  lemma StaleReaperRequeuesAgain(id: Id)
    ensures Shows(Run(Init(4), Abandoned(id) + SharedSnapshot() + RequeuedAndReserved() + LateRemove()),
                  Redis([id], [], map[id := 3]), [Crashed, Idle, Idle, Idle], id, 2)
  {
    var s1 := Run(Init(4), Abandoned(id));
    AfterAbandoned(id);
    var s2 := Run(s1, SharedSnapshot());
    AfterSharedSnapshot(s1, id);
    var s3 := Run(s2, RequeuedAndReserved());
    AfterSecondReaper(s2, id);
    AfterSecondReserve(Run(s2, [ReapExists(2), ReapRemove(2), ReapPush(2)]), id);
    RunAppend(s2, [ReapExists(2), ReapRemove(2), ReapPush(2)], [ReserveMove(3), ReserveSet(3)]);
    AfterLateRemove(s3, id);
    RunAppend(Init(4), Abandoned(id), SharedSnapshot());
    RunAppend(Init(4), Abandoned(id) + SharedSnapshot(), RequeuedAndReserved());
    RunAppend(Init(4), Abandoned(id) + SharedSnapshot() + RequeuedAndReserved(), LateRemove());
  }
}
