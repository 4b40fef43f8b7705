/** The Redis build queue at the granularity of single Redis commands.

    Any number of processes push, reserve, renew, acknowledge and reap. Each Redis command of
    an operation is one step, every process has a program counter, and a crash or the expiry of
    a lease may fall between any two commands. A command whose process is not at that point is a
    no-op, so every statement below ranges over all sequences of commands.
 */
module QueueCommands {

  type Id = string

  /** Index 0 of a list is its left end. A lease key that has expired is absent. */
  datatype Redis = Redis(pending: seq<Id>, inflight: seq<Id>, leases: map<Id, nat>)

  /** Where a process stands inside a queue operation. */
  datatype Process =
    | Idle
    | MidReserve(id: Id)                  // LMOVE done, SET to come
    | MidRenew(id: Id)                    // GET showed our own name, EXPIRE to come
    | MidAck(id: Id)                      // LREM done, DELETE to come
    | Scanning(rest: seq<Id>)             // a snapshot of inflight, next EXISTS to come
    | FoundLapsed(id: Id, rest: seq<Id>)  // EXISTS answered 0, LREM to come
    | Holding(id: Id, rest: seq<Id>)      // LREM removed it, LPUSH to come
    | Crashed

  /** What has happened so far, with multiplicity. */
  datatype History = History(
    pushed: multiset<Id>,    // LPUSHes by push
    reserved: multiset<Id>,  // LMOVEs by reserve
    requeued: multiset<Id>,  // LPUSHes by a reaper
    acked: multiset<Id>,     // entries removed by ack
    lost: multiset<Id>)      // entries in the hands of a reaper when it crashed or failed

  datatype State = State(redis: Redis, procs: seq<Process>, past: History)

  datatype Command =
    | Push(p: nat, id: Id)
    | ReserveMove(p: nat)
    | ReserveSet(p: nat)
    | RenewGet(p: nat, id: Id)
    | RenewExpire(p: nat)
    | AckRemove(p: nat, id: Id)
    | AckDelete(p: nat)
    | ReapRange(p: nat)
    | ReapExists(p: nat)
    | ReapRemove(p: nat)
    | ReapPush(p: nat)
    | Crash(p: nat)
    | Fail(p: nat)   // a command raises: the operation is given up, the process goes on
    | Expire(key: Id)

  function Init(n: nat): State {
    State(Redis([], [], map[]), seq(n, _ => Idle),
          History(multiset{}, multiset{}, multiset{}, multiset{}, multiset{}))
  }

  // ---- list commands -------------------------------------------------------

  /** LREM key 1 id: drop the leftmost occurrence. */
  function RemoveOne(s: seq<Id>, id: Id): seq<Id> {
    if s == [] then [] else if s[0] == id then s[1..] else [s[0]] + RemoveOne(s[1..], id)
  }

  /** LREM key 0 id: drop every occurrence. */
  function RemoveAll(s: seq<Id>, id: Id): seq<Id> {
    if s == [] then [] else if s[0] == id then RemoveAll(s[1..], id) else [s[0]] + RemoveAll(s[1..], id)
  }

  function Count(s: seq<Id>, id: Id): nat {
    if s == [] then 0 else (if s[0] == id then 1 else 0) + Count(s[1..], id)
  }

  lemma {:induction false} CountAppend(a: seq<Id>, b: seq<Id>, id: Id)
    ensures Count(a + b, id) == Count(a, id) + Count(b, id)
  {
    if a == [] {
      assert a + b == b;
    } else {
      assert (a + b)[1..] == a[1..] + b;
      CountAppend(a[1..], b, id);
    }
  }

  lemma {:induction false} RemoveOneCounts(s: seq<Id>, x: Id, id: Id)
    requires x in s
    ensures Count(RemoveOne(s, x), id) + (if id == x then 1 else 0) == Count(s, id)
  {
    if s[0] != x {
      RemoveOneCounts(s[1..], x, id);
      assert RemoveOne(s, x)[1..] == RemoveOne(s[1..], x);
    }
  }

  lemma {:induction false} RemoveAllCounts(s: seq<Id>, x: Id, id: Id)
    ensures Count(RemoveAll(s, x), id) == if id == x then 0 else Count(s, id)
  {
    if s != [] {
      RemoveAllCounts(s[1..], x, id);
      if s[0] != x { assert RemoveAll(s, x)[1..] == RemoveAll(s[1..], x); }
    }
  }

  // ---- one command ---------------------------------------------------------

  function WithProc(s: State, p: nat, x: Process): State
    requires p < |s.procs|
  {
    s.(procs := s.procs[p := x])
  }

  /** After one id of the snapshot, the reaper goes on with the rest. */
  function Continue(rest: seq<Id>): Process {
    if rest == [] then Idle else Scanning(rest)
  }

  function Exec(s: State, c: Command): State {
    if c.Expire? then s.(redis := s.redis.(leases := s.redis.leases - {c.key}))
    else if c.p < |s.procs| then ExecBy(s, c, c.p, s.procs[c.p])
    else s
  }

  function ExecBy(s: State, c: Command, p: nat, at: Process): State
    requires !c.Expire? && p < |s.procs|
  {
    if c.ReapRange? || c.ReapExists? || c.ReapRemove? || c.ReapPush? then Reap(s, c, p, at)
    else if c.Crash? || c.Fail? then
      WithProc(s, p, if c.Crash? || at.Crashed? then Crashed else Idle).(
        past := if at.Holding? then s.past.(lost := s.past.lost + multiset{at.id}) else s.past)
    else Serve(s, c, p, at)
  }

  /** Commands of push, reserve, renew and ack. */
  function Serve(s: State, c: Command, p: nat, at: Process): State
    requires p < |s.procs|
  {
    var r := s.redis;
    match c
    case Push(_, id) =>
      if !at.Idle? then s else
      s.(redis := r.(pending := [id] + r.pending), past := s.past.(pushed := s.past.pushed + multiset{id}))
    case ReserveMove(_) =>
      if !at.Idle? || r.pending == [] then s else
      var id := r.pending[|r.pending| - 1];
      WithProc(s, p, MidReserve(id)).(
        redis := r.(pending := r.pending[..|r.pending| - 1], inflight := [id] + r.inflight),
        past := s.past.(reserved := s.past.reserved + multiset{id}))
    case ReserveSet(_) =>
      if !at.MidReserve? then s else
      WithProc(s, p, Idle).(redis := r.(leases := r.leases[at.id := p]))
    case RenewGet(_, id) =>
      if at.Idle? && id in r.leases && r.leases[id] == p then WithProc(s, p, MidRenew(id)) else s
    case RenewExpire(_) =>
      if at.MidRenew? then WithProc(s, p, Idle) else s
    case AckRemove(_, id) =>
      if !at.Idle? then s else
      WithProc(s, p, MidAck(id)).(
        redis := r.(inflight := RemoveAll(r.inflight, id)),
        past := s.past.(acked := s.past.acked[id := s.past.acked[id] + Count(r.inflight, id)]))
    case AckDelete(_) =>
      if !at.MidAck? then s else
      WithProc(s, p, Idle).(redis := r.(leases := r.leases - {at.id}))
    case _ => s
  }

  /** Commands of requeue_expired. */
  function Reap(s: State, c: Command, p: nat, at: Process): State
    requires p < |s.procs|
  {
    var r := s.redis;
    match c
    case ReapRange(_) =>
      if at.Idle? then WithProc(s, p, Continue(r.inflight)) else s
    case ReapExists(_) =>
      if !at.Scanning? || at.rest == [] then s
      else if at.rest[0] in r.leases then WithProc(s, p, Continue(at.rest[1..]))
      else WithProc(s, p, FoundLapsed(at.rest[0], at.rest[1..]))
    case ReapRemove(_) =>
      // LREM's reply decides which reaper requeues.
      if !at.FoundLapsed? then s
      else if at.id !in r.inflight then WithProc(s, p, Continue(at.rest))
      else WithProc(s, p, Holding(at.id, at.rest)).(
        redis := r.(inflight := RemoveOne(r.inflight, at.id)))
    case ReapPush(_) =>
      if !at.Holding? then s else
      WithProc(s, p, Continue(at.rest)).(
        redis := r.(pending := [at.id] + r.pending),
        past := s.past.(requeued := s.past.requeued + multiset{at.id}))
    case _ => s
  }

  function Run(s: State, commands: seq<Command>): State
    decreases |commands|
  {
    if commands == [] then s else Run(Exec(s, commands[0]), commands[1..])
  }

  // ---- what the reapers hold -----------------------------------------------

  function HandOf(x: Process, id: Id): nat {
    if x.Holding? && x.id == id then 1 else 0
  }

  function Hands(procs: seq<Process>, id: Id): nat {
    if procs == [] then 0 else HandOf(procs[0], id) + Hands(procs[1..], id)
  }

  lemma {:induction false} HandsUpdate(procs: seq<Process>, p: nat, x: Process, id: Id)
    requires p < |procs|
    ensures Hands(procs[p := x], id) + HandOf(procs[p], id) == Hands(procs, id) + HandOf(x, id)
  {
    var after := procs[p := x];
    if p == 0 {
      assert after[1..] == procs[1..];
    } else {
      HandsUpdate(procs[1..], p - 1, x, id);
      assert after[1..] == procs[1..][p - 1 := x];
    }
  }

  lemma {:induction false} NoHands(n: nat, id: Id)
    ensures Hands(seq(n, _ => Idle), id) == 0
  {
    if n > 0 {
      NoHands(n - 1, id);
      assert seq(n, _ => Idle)[1..] == seq(n - 1, _ => Idle);
    }
  }

  // ---- conservation --------------------------------------------------------

  /** Both lists balance for an id, entry by entry: what went into pending is still there or was
      reserved, and what was reserved is inflight, in a reaper's hand, requeued, acknowledged or
      lost. */
  ghost predicate Balanced(s: State, id: Id) {
    && Count(s.redis.pending, id) + s.past.reserved[id] == s.past.pushed[id] + s.past.requeued[id]
    && Count(s.redis.inflight, id) + Hands(s.procs, id)
       + s.past.requeued[id] + s.past.acked[id] + s.past.lost[id] == s.past.reserved[id]
  }

  lemma ExecKeepsBalance(s: State, c: Command, id: Id)
    requires Balanced(s, id)
    ensures Balanced(Exec(s, c), id)
  {
    if !c.Expire? && c.p < |s.procs| {
      var t := ExecBy(s, c, c.p, s.procs[c.p]);
      OnlyMoves(s, c);
      ListsBalance(s, c, id);
      BalancedNext(s, t, c.p, id);
    }
  }

  lemma OnlyMoves(s: State, c: Command)
    requires !c.Expire? && c.p < |s.procs|
    ensures var t := ExecBy(s, c, c.p, s.procs[c.p]);
            |t.procs| == |s.procs| && t.procs == s.procs[c.p := t.procs[c.p]]
  {
  }

  lemma BalancedNext(s: State, t: State, p: nat, id: Id)
    requires p < |s.procs| == |t.procs| && t.procs == s.procs[p := t.procs[p]]
    requires Balanced(s, id) && Balances(s, t, p, id)
    ensures Balanced(t, id)
  {
    HandsUpdate(s.procs, p, t.procs[p], id);
  }

  /** The balance of one command, with the hands of its own process standing for all of them. */
  ghost predicate Balances(s: State, t: State, p: nat, id: Id)
    requires p < |s.procs| && p < |t.procs|
  {
    var (a, b) := (s.past, t.past);
    && Count(t.redis.pending, id) + b.reserved[id] + a.pushed[id] + a.requeued[id]
       == Count(s.redis.pending, id) + a.reserved[id] + b.pushed[id] + b.requeued[id]
    && Count(t.redis.inflight, id) + HandOf(t.procs[p], id)
       + b.requeued[id] + b.acked[id] + b.lost[id] + a.reserved[id]
       == Count(s.redis.inflight, id) + HandOf(s.procs[p], id)
       + a.requeued[id] + a.acked[id] + a.lost[id] + b.reserved[id]
  }

  lemma ListsBalance(s: State, c: Command, id: Id)
    requires !c.Expire? && c.p < |s.procs|
    ensures Balances(s, ExecBy(s, c, c.p, s.procs[c.p]), c.p, id)
  {
    if c.ReapRemove? {
      ReapRemoveBalances(s, c.p, id);
    } else if c.ReapPush? {
      ReapPushBalances(s, c.p, id);
    } else if c.ReapRange? || c.ReapExists? || c.Crash? || c.Fail? {
      LookingBalances(s, c, id);
    } else {
      ServingBalances(s, c, id);
    }
  }

  lemma ServingBalances(s: State, c: Command, id: Id)
    requires c.Push? || c.ReserveMove? || c.ReserveSet? || c.RenewGet? || c.RenewExpire? || c.AckRemove? || c.AckDelete?
    requires c.p < |s.procs|
    ensures Balances(s, ExecBy(s, c, c.p, s.procs[c.p]), c.p, id)
  {
    if c.ReserveMove? {
      MoveBalances(s, c.p, id);
    } else if c.Push? {
      PushBalances(s, c.p, c.id, id);
    } else if c.AckRemove? {
      AckBalances(s, c.p, c.id, id);
    } else {
      OthersBalance(s, c, id);
    }
  }

  lemma OthersBalance(s: State, c: Command, id: Id)
    requires c.ReserveSet? || c.RenewGet? || c.RenewExpire? || c.AckDelete?
    requires c.p < |s.procs|
    ensures Balances(s, Serve(s, c, c.p, s.procs[c.p]), c.p, id)
  {
  }

  lemma LookingBalances(s: State, c: Command, id: Id)
    requires c.ReapRange? || c.ReapExists? || c.Crash? || c.Fail?
    requires c.p < |s.procs|
    ensures Balances(s, ExecBy(s, c, c.p, s.procs[c.p]), c.p, id)
  {
  }

  lemma PushBalances(s: State, p: nat, x: Id, id: Id)
    requires p < |s.procs|
    ensures Balances(s, ExecBy(s, Push(p, x), p, s.procs[p]), p, id)
  {
    CountAppend([x], s.redis.pending, id);
  }

  lemma ReapPushBalances(s: State, p: nat, id: Id)
    requires p < |s.procs|
    ensures Balances(s, ExecBy(s, ReapPush(p), p, s.procs[p]), p, id)
  {
    var at := s.procs[p];
    if at.Holding? { CountAppend([at.id], s.redis.pending, id); }
  }

  lemma AckBalances(s: State, p: nat, x: Id, id: Id)
    requires p < |s.procs|
    ensures Balances(s, ExecBy(s, AckRemove(p, x), p, s.procs[p]), p, id)
  {
    RemoveAllCounts(s.redis.inflight, x, id);
  }

  lemma MoveBalances(s: State, p: nat, id: Id)
    requires p < |s.procs|
    ensures Balances(s, ExecBy(s, ReserveMove(p), p, s.procs[p]), p, id)
  {
    var n := |s.redis.pending|;
    if n > 0 {
      var x := s.redis.pending[n - 1];
      assert s.redis.pending == s.redis.pending[..n - 1] + [x];
      CountAppend(s.redis.pending[..n - 1], [x], id);
      CountAppend([x], s.redis.inflight, id);
    }
  }

  lemma ReapRemoveBalances(s: State, p: nat, id: Id)
    requires p < |s.procs|
    ensures Balances(s, ExecBy(s, ReapRemove(p), p, s.procs[p]), p, id)
  {
    var at := s.procs[p];
    if at.FoundLapsed? && at.id in s.redis.inflight { RemoveOneCounts(s.redis.inflight, at.id, id); }
  }

  lemma {:induction false} RunKeepsBalance(s: State, commands: seq<Command>, id: Id)
    requires Balanced(s, id)
    ensures Balanced(Run(s, commands), id)
    decreases |commands|
  {
    if commands != [] {
      ExecKeepsBalance(s, commands[0], id);
      RunKeepsBalance(Exec(s, commands[0]), commands[1..], id);
    }
  }

  /** How often an id occurs in pending, inflight and the hands of reapers together. */
  function Occurrences(s: State, id: Id): nat {
    Count(s.redis.pending, id) + Count(s.redis.inflight, id) + Hands(s.procs, id)
  }

  /** Conservation over every run: nothing is duplicated, and nothing disappears that was neither
      acknowledged nor in the hands of a reaper that crashed. */
  lemma Conservation(n: nat, commands: seq<Command>, id: Id)
    ensures var s := Run(Init(n), commands);
            Occurrences(s, id) + s.past.acked[id] + s.past.lost[id] == s.past.pushed[id]
  {
    NoHands(n, id);
    RunKeepsBalance(Init(n), commands, id);
  }

  /** An id pushed once is in at most one place, and in exactly one until it is acknowledged or
      lost with a reaper. */
  lemma PushedOnce(n: nat, commands: seq<Command>, id: Id)
    requires Run(Init(n), commands).past.pushed[id] == 1
    ensures var s := Run(Init(n), commands);
            && Occurrences(s, id) <= 1
            && (Occurrences(s, id) == 1 <==> s.past.acked[id] == 0 && s.past.lost[id] == 0)
  {
    Conservation(n, commands, id);
  }

  // ---- runs, continued -----------------------------------------------------

  lemma {:induction false} RunAppend(s: State, a: seq<Command>, b: seq<Command>)
    ensures Run(s, a + b) == Run(Run(s, a), b)
    decreases |a|
  {
    if a == [] {
      assert a + b == b;
    } else {
      assert (a + b)[1..] == a[1..] + b;
      RunAppend(Exec(s, a[0]), a[1..], b);
    }
  }

  /** Pushes, acknowledgements and losses are never taken back. */
  lemma {:induction false} HistoryGrows(s: State, commands: seq<Command>, id: Id)
    ensures s.past.pushed[id] <= Run(s, commands).past.pushed[id]
    ensures s.past.acked[id] <= Run(s, commands).past.acked[id]
    ensures s.past.lost[id] <= Run(s, commands).past.lost[id]
    decreases |commands|
  {
    if commands != [] {
      HistoryGrows(Exec(s, commands[0]), commands[1..], id);
    }
  }

  /** However many reapers share a snapshot, every requeue uses up a reservation: over any stretch of
      any run, all reapers together push an id that was pushed once back at most once more often
      than it is reserved, and over a stretch in which it is not reserved again at most once. */
  lemma {:induction false} RequeuedOncePerReservation(n: nat, before: seq<Command>, stretch: seq<Command>, id: Id)
    requires Run(Run(Init(n), before), stretch).past.pushed[id] == 1
    ensures var s := Run(Init(n), before);
            var t := Run(s, stretch);
            t.past.requeued[id] + s.past.reserved[id] <= s.past.requeued[id] + t.past.reserved[id] + 1
  {
    var s := Run(Init(n), before);
    NoHands(n, id);
    RunKeepsBalance(Init(n), before, id);
    RunKeepsBalance(s, stretch, id);
    HistoryGrows(s, stretch, id);
  }

  // ---- a dead worker is discovered by silence ------------------------------

  /** What process p does next in a sweep that has reached id x of its snapshot. */
  function Visit(s: State, p: nat): seq<Command>
    requires p < |s.procs| && s.procs[p].Scanning? && s.procs[p].rest != []
  {
    var x := s.procs[p].rest[0];
    if x in s.redis.leases then [ReapExists(p)]
    else if x in s.redis.inflight then [ReapExists(p), ReapRemove(p), ReapPush(p)]
    else [ReapExists(p), ReapRemove(p)]
  }

  /** What is left of inflight after the visit to x, and what the visit prepends to pending. */
  ghost predicate Visited(s: State, t: State, p: nat, x: Id, rest: seq<Id>, takes: bool)
    requires p < |s.procs|
  {
    && t.procs == s.procs[p := Continue(rest)] && t.redis.leases == s.redis.leases
    && t.redis.pending == (if takes then [x] else []) + s.redis.pending
    && t.redis.inflight == if takes then RemoveOne(s.redis.inflight, x) else s.redis.inflight
  }

  lemma {:induction false} VisitDoes(s: State, p: nat)
    requires p < |s.procs| && s.procs[p].Scanning? && s.procs[p].rest != []
    ensures var x := s.procs[p].rest[0];
            Visited(s, Run(s, Visit(s, p)), p, x, s.procs[p].rest[1..],
                    x !in s.redis.leases && x in s.redis.inflight)
  {
    var x, rest := s.procs[p].rest[0], s.procs[p].rest[1..];
    var s1 := Exec(s, ReapExists(p));
    if x in s.redis.leases {
      TraceIsRun([s, s1], [ReapExists(p)]);
      assert [] + s.redis.pending == s.redis.pending;
    } else {
      assert s1 == WithProc(s, p, FoundLapsed(x, rest));
      TakeDoes(s1, p);
      TraceIsRun([s, s1], [ReapExists(p)]);
      RunAppend(s, [ReapExists(p)], Take(s1, p));
      assert Visit(s, p) == [ReapExists(p)] + Take(s1, p);
    }
  }

  function Take(s: State, p: nat): seq<Command>
    requires p < |s.procs| && s.procs[p].FoundLapsed?
  {
    if s.procs[p].id in s.redis.inflight then [ReapRemove(p), ReapPush(p)] else [ReapRemove(p)]
  }

  lemma {:induction false} TakeDoes(s: State, p: nat)
    requires p < |s.procs| && s.procs[p].FoundLapsed?
    ensures Visited(s, Run(s, Take(s, p)), p, s.procs[p].id, s.procs[p].rest,
                    s.procs[p].id in s.redis.inflight)
  {
    var s1 := Exec(s, ReapRemove(p));
    if s.procs[p].id in s.redis.inflight {
      TraceIsRun([s, s1, Exec(s1, ReapPush(p))], [ReapRemove(p), ReapPush(p)]);
    } else {
      TraceIsRun([s, s1], [ReapRemove(p)]);
      assert [] + s.redis.pending == s.redis.pending;
    }
  }

  lemma {:induction false} RemoveOther(s: seq<Id>, x: Id, id: Id)
    requires id in s && id != x
    ensures id in RemoveOne(s, x)
  {
    if s[0] != x && s[0] != id { RemoveOther(s[1..], x, id); }
  }

  /** A whole sweep of the snapshot by one process. */
  function Sweep(s: State, p: nat, todo: seq<Id>): seq<Command>
    decreases |todo|
  {
    if todo == [] || p >= |s.procs| || !s.procs[p].Scanning? || s.procs[p].rest == [] then []
    else Visit(s, p) + Sweep(Run(s, Visit(s, p)), p, todo[1..])
  }

  /** From any state, one undisturbed sweep by any idle process brings back every inflight id
      whose lease is gone: recovery needs nothing from the process that died, wherever inside its
      operation it died. */
  lemma {:induction false} SweepRecovers(s: State, p: nat, id: Id)
    requires p < |s.procs| && s.procs[p] == Idle
    requires id in s.redis.inflight && id !in s.redis.leases
    ensures var scan := Exec(s, ReapRange(p));
            id in Run(s, [ReapRange(p)] + Sweep(scan, p, s.redis.inflight)).redis.pending
  {
    var scan := Exec(s, ReapRange(p));
    SweepReaches(scan, p, s.redis.inflight, id);
    TraceIsRun([s, scan], [ReapRange(p)]);
    RunAppend(s, [ReapRange(p)], Sweep(scan, p, s.redis.inflight));
  }

  lemma {:induction false} SweepReaches(s: State, p: nat, todo: seq<Id>, id: Id)
    requires p < |s.procs| && s.procs[p] == Scanning(todo) && id in todo
    requires id in s.redis.inflight && id !in s.redis.leases
    ensures id in Run(s, Sweep(s, p, todo)).redis.pending
    decreases |todo|
  {
    var t := Run(s, Visit(s, p));
    VisitDoes(s, p);
    RunAppend(s, Visit(s, p), Sweep(t, p, todo[1..]));
    if todo[0] == id {
      assert id == t.redis.pending[0];
      PendingStays(t, p, todo[1..], id);
    } else {
      if todo[0] in s.redis.inflight { RemoveOther(s.redis.inflight, todo[0], id); }
      SweepReaches(t, p, todo[1..], id);
    }
  }

  lemma {:induction false} PendingStays(s: State, p: nat, todo: seq<Id>, id: Id)
    requires id in s.redis.pending
    ensures id in Run(s, Sweep(s, p, todo)).redis.pending
    decreases |todo|
  {
    if todo != [] && p < |s.procs| && s.procs[p].Scanning? && s.procs[p].rest != [] {
      VisitDoes(s, p);
      RunAppend(s, Visit(s, p), Sweep(Run(s, Visit(s, p)), p, todo[1..]));
      PendingStays(Run(s, Visit(s, p)), p, todo[1..], id);
    }
  }

  /** A run listed state by state. */
  lemma {:induction false} TraceIsRun(states: seq<State>, commands: seq<Command>)
    requires |states| == |commands| + 1
    requires forall i :: 0 <= i < |commands| ==> states[i + 1] == Exec(states[i], commands[i])
    ensures Run(states[0], commands) == states[|commands|]
    decreases |commands|
  {
    if commands != [] {
      TraceIsRun(states[1..], commands[1..]);
    }
  }
}
