/** `BuildWorker` of src/service/worker.py: one turn of the loop, in the presence of any interference
    by other processes and of errors in any command, is a run of the build protocol. */
module BuildWorkers {
  import opened Options
  import opened Jobs
  import opened BuildProtocol
  import Fifo = LeasedFifo

  /** x is a step somebody other than worker w may take. */
  predicate ByOthers(x: Step, w: nat) {
    !OfWorker(x) || x.w != w
  }

  predicate Saving(x: Step) { x.SaveStart? || x.SaveGiveUp? || x.SaveBeat? || x.SaveFinal? }

  /** Nobody but worker w has moved. */
  ghost predicate OnlyMoves(s: State, t: State, w: nat) {
    |t.workers| == |s.workers| && forall v :: 0 <= v < |s.workers| && v != w ==> t.workers[v] == s.workers[v]
  }

  lemma SaverMoves(c: Config, s: State, x: Step)
    requires Saving(x) && x.w < |s.workers|
    ensures OnlyMoves(s, WorkerStep(c, s, x), x.w)
  {
  }

  lemma OneWorkerMoves(c: Config, s: State, x: Step)
    requires OfWorker(x) && x.w < |s.workers|
    ensures OnlyMoves(s, WorkerStep(c, s, x), x.w)
  {
    if Saving(x) {
      SaverMoves(c, s, x);
    } else {
      OtherMoves(c, s, x);
    }
  }

  lemma OtherMoves(c: Config, s: State, x: Step)
    requires OfWorker(x) && !Saving(x) && x.w < |s.workers|
    ensures OnlyMoves(s, WorkerStep(c, s, x), x.w)
  {
    assert WorkerStep(c, s, x).workers == s.workers
        || WorkerStep(c, s, x).workers == s.workers[x.w := WorkerStep(c, s, x).workers[x.w]];
  }

  lemma OthersKeepPhase(c: Config, s: State, x: Step, w: nat)
    requires w < |s.workers| && ByOthers(x, w)
    ensures w < |Exec(c, s, x).workers| && Exec(c, s, x).workers[w] == s.workers[w]
  {
    if OfWorker(x) && x.w < |s.workers| { OneWorkerMoves(c, s, x); }
  }

  /** What worker w has still to do for the ids it moved is as it was, and no record is gone. */
  ghost predicate NotesKept(s: State, t: State, w: nat) {
    && (forall id :: (w, id) in s.owed <==> (w, id) in t.owed)
    && (forall id :: Recovery(w, id) in s.drafts <==> Recovery(w, id) in t.drafts)
    && (forall id :: Recovery(w, id) in s.drafts ==> t.drafts[Recovery(w, id)] == s.drafts[Recovery(w, id)])
    && (forall id :: id in s.jobs ==> id in t.jobs)
  }

  lemma OthersKeepNotes(c: Config, s: State, x: Step, w: nat)
    requires ByOthers(x, w)
    ensures NotesKept(s, Exec(c, s, x), w)
  {
    if x.Rewrite? || x.Recall? {
      RecoveriesKeepNotes(c, s, x, w);
    } else if OfWorker(x) && x.w < |s.workers| {
      WorkersKeepNotes(c, s, x);
    } else {
      TheRestKeepNotes(c, s, x, w);
    }
  }

  lemma TheRestKeepNotes(c: Config, s: State, x: Step, w: nat)
    requires !OfWorker(x) || x.w >= |s.workers|
    ensures NotesKept(s, Exec(c, s, x), w)
  {
    if OfWorker(x) { assert Exec(c, s, x) == s; }
  }

  lemma RecoveriesKeepNotes(c: Config, s: State, x: Step, w: nat)
    requires (x.Rewrite? || x.Recall?) && x.w != w
    ensures NotesKept(s, Exec(c, s, x), w)
  {
  }

  lemma WorkersKeepNotes(c: Config, s: State, x: Step)
    requires OfWorker(x) && x.w < |s.workers| && !x.Rewrite? && !x.Recall?
    ensures var t := WorkerStep(c, s, x);
      && t.drafts == s.drafts && s.owed <= t.owed <= s.owed + (if x.Move? then {(x.w, x.id)} else {})
      && forall id :: id in s.jobs ==> id in t.jobs
  {
  }

  /** What becomes of one command: it works, it is refused, or it works and its reply is lost. */
  datatype Fault = Works | Refused | ReplyLost

  /** What the build thread does while the worker waits in join: it writes to the job any number of
      times, and may end, by returning or by raising. */
  datatype Turn = Turn(progress: seq<Progress>, ended: Option<Option<string>>)

  /** The job as its build thread leaves it. */
  function Built(job: BuildJob, turns: seq<Turn>): BuildJob
    decreases |turns|
  {
    if turns == [] then job
    else
      var worked := AllWorked(job, turns[0].progress);
      if turns[0].ended.Some? then Ended(worked, turns[0].ended.value) else Built(worked, turns[1..])
  }

  /** The same but for the heartbeat, which is the worker's own. */
  predicate SameBuild(a: BuildJob, b: BuildJob) { a.(heartbeatAt := None) == b.(heartbeatAt := None) }

  /** A record of this build as it is finished: everything the build left, and a finishing time. */
  predicate IsFinished(record: BuildJob, built: BuildJob) {
    && record.finishedAt.Some? && record.heartbeatAt == record.finishedAt
    && (built.finishedAt.Some? ==> record.finishedAt == built.finishedAt)
    && record.(finishedAt := None, heartbeatAt := None) == built.(finishedAt := None, heartbeatAt := None)
  }

  lemma {:induction false} BeatsAreInvisibleToWork(a: BuildJob, b: BuildJob, progress: seq<Progress>)
    requires SameBuild(a, b)
    ensures SameBuild(AllWorked(a, progress), AllWorked(b, progress))
  {
    if progress != [] { BeatsAreInvisibleToWork(a, b, progress[..|progress| - 1]); }
  }

  /** Heartbeats leave no trace in what is built. */
  lemma {:induction false} BeatsAreInvisible(a: BuildJob, b: BuildJob, turns: seq<Turn>)
    requires SameBuild(a, b)
    ensures SameBuild(Built(a, turns), Built(b, turns))
    decreases |turns|
  {
    if turns != [] {
      var (x, y) := (AllWorked(a, turns[0].progress), AllWorked(b, turns[0].progress));
      BeatsAreInvisibleToWork(a, b, turns[0].progress);
      if turns[0].ended.None? { BeatsAreInvisible(x, y, turns[1..]); }
    }
  }

  lemma OneTurn(before: BuildJob, after: BuildJob, turns: seq<Turn>)
    requires turns != []
    requires var worked := AllWorked(before, turns[0].progress);
      SameBuild(after, if turns[0].ended.None? then worked else Ended(worked, turns[0].ended.value))
    ensures if turns[0].ended.None? then SameBuild(Built(after, turns[1..]), Built(before, turns))
            else SameBuild(after, Built(before, turns))
  {
    if turns[0].ended.None? { BeatsAreInvisible(after, AllWorked(before, turns[0].progress), turns[1..]); }
  }

  /** The ids worker w moved back, in order. */
  function MovedBy(steps: seq<Step>, w: nat): seq<Id> {
    if steps == [] then []
    else
      var x := steps[|steps| - 1];
      MovedBy(steps[..|steps| - 1], w) + (if x.Move? && x.w == w then [x.id] else [])
  }

  /** The ids whose records worker w rewrote, in order. */
  function RewrittenBy(steps: seq<Step>, w: nat): seq<Id> {
    if steps == [] then []
    else
      var x := steps[|steps| - 1];
      RewrittenBy(steps[..|steps| - 1], w) + (if x.Rewrite? && x.w == w then [x.id] else [])
  }

  /** The steps that came after an earlier trace. */
  function Since(before: seq<Step>, after: seq<Step>): seq<Step>
    requires before <= after
  {
    after[|before|..]
  }

  lemma {:induction false} OthersRecoverNothing(before: seq<Step>, sofar: seq<Step>, after: seq<Step>, w: nat)
    requires before <= sofar && OnlyOthers(sofar, after, w)
    ensures MovedBy(Since(before, after), w) == MovedBy(Since(before, sofar), w)
    ensures RewrittenBy(Since(before, after), w) == RewrittenBy(Since(before, sofar), w)
    decreases |after|
  {
    if |after| == |sofar| {
      assert after == sofar;
    } else {
      var most := after[..|after| - 1];
      OthersRecoverNothing(before, sofar, most, w);
      assert Since(before, after)[..|Since(before, after)| - 1] == Since(before, most);
      assert ByOthers(after[|after| - 1], w);
    }
  }

  lemma OneMore(before: seq<Step>, sofar: seq<Step>, x: Step, w: nat)
    requires before <= sofar
    ensures before <= sofar + [x]
    ensures MovedBy(Since(before, sofar + [x]), w) == MovedBy(Since(before, sofar), w) + (if x.Move? && x.w == w then [x.id] else [])
    ensures RewrittenBy(Since(before, sofar + [x]), w)
         == RewrittenBy(Since(before, sofar), w) + (if x.Rewrite? && x.w == w then [x.id] else [])
  {
    var all := Since(before, sofar + [x]);
    assert all[..|all| - 1] == Since(before, sofar) && all[|all| - 1] == x;
  }

  /** At some moment since the first `from` steps, the last one included, this id was not in flight under
      a lapsed lease. */
  ghost predicate SeenWell(c: Config, from: nat, trace: seq<Step>, id: Id) {
    exists n: nat :: from <= n <= |trace| && !Fifo.Lapsed(Run(c, INIT, trace[..n]).queue, id)
  }

  lemma SeenWellLater(c: Config, from: nat, before: seq<Step>, after: seq<Step>, id: Id)
    requires SeenWell(c, from, before, id) && before <= after
    ensures SeenWell(c, from, after, id)
  {
    var n: nat :| from <= n <= |before| && !Fifo.Lapsed(Run(c, INIT, before[..n]).queue, id);
    assert after[..n] == before[..n];
  }

  lemma SeenWellNow(c: Config, from: nat, trace: seq<Step>, id: Id)
    requires from <= |trace| && !Fifo.Lapsed(Run(c, INIT, trace).queue, id)
    ensures SeenWell(c, from, trace, id)
  {
    assert trace[..|trace|] == trace;
  }

  /** Each of these ids was moved back by worker w since the trace `start`, or was seen well. */
  ghost predicate LookedAfter(c: Config, start: seq<Step>, trace: seq<Step>, w: nat, ids: set<Id>) {
    start <= trace && forall id :: id in ids ==> id in MovedBy(Since(start, trace), w) || SeenWell(c, |start|, trace, id)
  }

  lemma LookedAfterLater(c: Config, start: seq<Step>, before: seq<Step>, after: seq<Step>, w: nat, ids: set<Id>)
    requires LookedAfter(c, start, before, w, ids) && before <= after
    requires MovedBy(Since(start, before), w) <= MovedBy(Since(start, after), w)
    ensures LookedAfter(c, start, after, w, ids)
  {
    forall id | id in ids ensures id in MovedBy(Since(start, after), w) || SeenWell(c, |start|, after, id) {
      if id !in MovedBy(Since(start, before), w) { SeenWellLater(c, |start|, before, after, id); }
    }
  }

  /** Only others have acted between two traces. */
  ghost predicate OnlyOthers(before: seq<Step>, after: seq<Step>, w: nat) {
    before <= after && forall i :: |before| <= i < |after| ==> ByOthers(after[i], w)
  }

  /** Nothing was saved by worker w between two traces. */
  ghost predicate NothingSaved(before: seq<Step>, after: seq<Step>, w: nat) {
    before <= after && forall i :: |before| <= i < |after| ==> after[i] !in {SaveStart(w), SaveGiveUp(w), SaveBeat(w), SaveFinal(w)}
  }

  /** The shared queue and job store. Between two commands of a worker, the others do whatever
      `others` says, the clock moves as `clock` says, and `faults` says which commands go wrong. `s` is
      the protocol's account of the whole system, and `trace` the steps that led to it. */
  class Cluster {
    const config: Config
    const others: nat -> seq<Step>
    const clock: nat -> Time
    const faults: nat -> Fault
    var tick: nat
    var records: map<Id, BuildJob>
    var waiting: seq<Id>
    var held: map<Id, Option<nat>>
    var s: State
    ghost var trace: seq<Step>

    ghost predicate Valid()
      reads this
    {
      Shows() && s == Run(config, INIT, trace)
    }

    /** The queue and the records are those of the protocol's account. */
    predicate Shows()
      reads this
    {
      records == s.jobs && s.queue == Fifo.Queue(waiting, held)
    }

    constructor (config: Config, others: nat -> seq<Step>, clock: nat -> Time, faults: nat -> Fault)
      ensures Valid() && this.config == config && this.others == others && this.faults == faults && trace == []
    {
      this.config, this.others, this.clock, this.faults := config, others, clock, faults;
      tick, records, waiting, held, s, trace := 0, map[], [], map[], INIT, [];
    }

    ghost predicate Undisturbed(me: nat)
      reads this
    {
      me < |s.workers| && forall k, x :: x in others(k) ==> ByOthers(x, me)
    }

    /** The worker stands at this point of its turn. */
    ghost predicate At(me: nat, p: Worker)
      reads this
    {
      Valid() && Undisturbed(me) && s.workers[me] == p
    }

    /** Some command goes wrong. */
    ghost predicate Faulty() { exists k :: !faults(k).Works? }

    /** One more step of the protocol. */
    method Step(x: Step)
      requires s == Run(config, INIT, trace)
      modifies this`s, this`trace
      ensures s == Exec(config, old(s), x) && trace == old(trace) + [x]
      ensures s == Run(config, INIT, trace)
    {
      RunAppend(config, INIT, trace, [x]);
      assert Run(config, s, [x]) == Exec(config, s, x);
      s := Exec(config, s, x);
      trace := trace + [x];
    }

    /** Time passes, and the other processes with it. */
    method Pass(me: nat) returns (now: Time)
      requires Valid() && Undisturbed(me)
      modifies this
      ensures Valid() && Undisturbed(me) && s.workers[me] == old(s.workers[me])
      ensures OnlyOthers(old(trace), trace, me)
      ensures NotesKept(old(s), s, me)
    {
      var steps := others(tick);
      now := clock(tick);
      for i := 0 to |steps|
        invariant s == Run(config, INIT, trace) && OnlyOthers(old(trace), trace, me)
        invariant me < |s.workers| && s.workers[me] == old(s.workers[me]) && tick == old(tick)
        invariant NotesKept(old(s), s, me)
      {
        assert steps[i] in others(tick);
        OthersKeepPhase(config, s, steps[i], me);
        OthersKeepNotes(config, s, steps[i], me);
        Step(steps[i]);
      }
      tick, records, waiting, held := tick + 1, s.jobs, s.queue.waiting, s.queue.held;
    }

    // ---- the commands a worker uses ----------------------------------------

    method ReserveFor(me: nat) returns (id: Option<Id>)
      requires Valid() && me < |s.workers| && s.workers[me].Idle?
      modifies this
      ensures Valid() && s == Exec(config, old(s), Reserve(me)) && trace == old(trace) + [Reserve(me)]
      ensures id == Fifo.Reserved(old(s).queue)
      ensures id.Some? ==> s.workers[me] == Taken(id.value, s.epochs[id.value])
      ensures id.None? ==> s.workers[me].Idle?
    {
      id := None;
      if waiting != [] {
        id := Some(waiting[0]);
        held := held[waiting[0] := Some(me)];
        waiting := waiting[1..];
      }
      Step(Reserve(me));
    }

    /** False if the lease is gone, or if the queue cannot be asked. */
    method RenewLease(id: Id, me: nat) returns (ok: bool)
      requires Valid()
      ensures ok <==> faults(tick).Works? && Has(s, me, id)
    {
      ok := faults(tick).Works? && id in held && held[id] == Some(me);
    }

    /** Write a record; `x` is the protocol's name for this save. An error leaves the worker idle. */
    method Save(id: Id, job: BuildJob, x: Step, me: nat, ghost next: Worker) returns (ok: bool)
      requires Valid() && Undisturbed(me) && !s.workers[me].Dead? && !next.Dead?
      requires Exec(config, s, x).jobs == s.jobs[id := job] && Exec(config, s, x).queue == s.queue
      requires Exec(config, s, x).workers == s.workers[me := next]
      modifies this
      ensures if ok then At(me, next) && trace == old(trace) + [x] else At(me, Idle)
      ensures old(trace) <= trace
      ensures if ok then id in records && records[id] == job else Faulty()
    {
      if !faults(tick).Refused? {
        records := records[id := job];
        Step(x);
      }
      ok := faults(tick).Works?;
      if !ok { GiveUpTurn(me); }
    }

    method AckJob(id: Id, me: nat) returns (ok: bool)
      requires Valid() && Undisturbed(me) && s.workers[me].Acking? && s.workers[me].id == id
      modifies this
      ensures At(me, Idle) && old(trace) <= trace
      ensures if ok then trace == old(trace) + [Ack(me)] else Faulty()
    {
      if !faults(tick).Refused? {
        held := held - {id};
        Step(Ack(me));
      }
      ok := faults(tick).Works?;
      if !ok { GiveUpTurn(me); }
    }

    /** A step that only moves a worker's own program counter and copy. */
    method Note(x: Step)
      requires Valid() && Exec(config, s, x).jobs == s.jobs && Exec(config, s, x).queue == s.queue
      modifies this`s, this`trace
      ensures Valid() && s == Exec(config, old(s), x) && trace == old(trace) + [x]
    {
      Step(x);
    }

    /** An error gets out of the turn. */
    method GiveUpTurn(me: nat)
      requires Valid() && Undisturbed(me) && !s.workers[me].Dead?
      modifies this`s, this`trace
      ensures At(me, Idle) && trace == old(trace) + [Fail(me)]
    {
      Step(Fail(me));
    }

    /** Move one abandoned id back. */
    method MoveOne(id: Id, me: nat)
      requires Valid() && me < |s.workers| && s.workers[me].Idle?
      requires Fifo.Lapsed(s.queue, id)
      modifies this
      ensures Valid() && s == Exec(config, old(s), Move(me, id)) && trace == old(trace) + [Move(me, id)]
      ensures s.workers == old(s.workers) && s.owed == old(s.owed) + {(me, id)}
    {
      held := held - {id};
      waiting := waiting + [id];
      Step(Move(me, id));
    }

    /** Read the record of an id that was moved back. */
    method RecallOne(id: Id, me: nat, now: Time) returns (job: Option<BuildJob>)
      requires Valid() && me < |s.workers| && s.workers[me].Idle? && (me, id) in s.owed
      modifies this`s, this`trace
      ensures Valid() && s == Exec(config, old(s), Recall(me, id, now)) && trace == old(trace) + [Recall(me, id, now)]
      ensures s.workers == old(s.workers) && s.owed == old(s.owed) - {(me, id)} && Recalled(me, id, job, now)
    {
      job := if id in records then Some(records[id]) else None;
      Step(Recall(me, id, now));
    }

    /** This is what worker me has read of the record. */
    ghost predicate Recalled(me: nat, id: Id, job: Option<BuildJob>, now: Time)
      reads this
    {
      if job.Some? then Recovery(me, id) in s.drafts && s.drafts[Recovery(me, id)] == Draft(id, job.value, now) && id in s.jobs
      else Recovery(me, id) !in s.drafts
    }

    /** Put the record back to queued, if there is one; under the timing hypothesis this does not come
        too late for the job. */
    method RewriteOne(id: Id, me: nat, read: Option<BuildJob>, now: Time)
      requires Valid() && me < |s.workers| && s.workers[me].Idle? && Recalled(me, id, read, now)
      modifies this`records, this`s, this`trace
      ensures Valid() && s == Exec(config, old(s), Rewrite(me, id))
      ensures trace == old(trace) + [Rewrite(me, id)]
      ensures s.workers == old(s.workers) && s.owed == old(s.owed)
    {
      if read.Some? && (!config.timed || InTime(s, Draft(id, read.value, now))) {
        var job := read.value;
        job := job.(status := QUEUED);
        job := job.(heartbeatAt := Some(now));
        job := job.(log := job.log + [Abandoned(job.attempts)]);
        records := records[id := job];
      }
      Step(Rewrite(me, id));
    }
  }

  class BuildWorker {
    const cluster: Cluster
    const owner: nat
    const maxAttempts: nat
    const recoverEvery: real
    var recoveredAt: real

    /** The worker stands at this point of its turn. */
    ghost predicate At(p: Worker)
      reads this, cluster
    {
      cluster.At(owner, p) && cluster.config.maxAttempts == maxAttempts
    }

    constructor (cluster: Cluster, owner: nat, recoverEvery: real)
      requires cluster.Valid() && cluster.Undisturbed(owner)
      ensures this.cluster == cluster && this.owner == owner && At(cluster.s.workers[owner])
    {
      this.cluster, this.owner, this.recoverEvery := cluster, owner, recoverEvery;
      maxAttempts := cluster.config.maxAttempts;
      recoveredAt := 0.0;
    }

    /** The worker has moved these ids, in this order, and rewritten no record yet. */
    ghost predicate Moved(start: seq<Step>, requeued: seq<Id>)
      reads this, cluster
    {
      && At(Idle) && start <= cluster.trace
      && requeued == MovedBy(Since(start, cluster.trace), owner)
      && RewrittenBy(Since(start, cluster.trace), owner) == []
    }

    /** The scan is under way: what it has moved, each once, is now owed a rewrite. */
    ghost predicate Moving(start: seq<Step>, requeued: seq<Id>, todo: set<Id>)
      reads this, cluster
    {
      && Moved(start, requeued)
      && (forall i :: 0 <= i < |requeued| ==> (owner, requeued[i]) in cluster.s.owed && requeued[i] !in todo)
      && (forall i, j :: 0 <= i < j < |requeued| ==> requeued[i] != requeued[j])
    }

    /** Each of these ids has been moved back, or had its lease, at some moment since. */
    ghost predicate Scanned(start: seq<Step>, ids: set<Id>)
      reads this, cluster
    {
      LookedAfter(cluster.config, start, cluster.trace, owner, ids)
    }

    /** The first half of recovery: ask of every id that was held a moment ago whether its lease is
        gone, and move it back if so. An error breaks the scan off, after the ids it has moved. */
    method MoveAbandoned() returns (requeued: seq<Id>, ok: bool)
      requires At(Idle)
      modifies cluster
      ensures Moved(old(cluster.trace), requeued)
      ensures ok ==> Moving(old(cluster.trace), requeued, {}) && Scanned(old(cluster.trace), old(cluster.s.queue.held).Keys)
      ensures !ok ==> cluster.Faulty()
    {
      requeued, ok := [], true;
      var todo := cluster.held.Keys;
      while ok && todo != {}
        invariant Moved(old(cluster.trace), requeued) && todo <= old(cluster.held).Keys && (ok || cluster.Faulty())
        invariant ok ==> Moving(old(cluster.trace), requeued, todo) && Scanned(old(cluster.trace), old(cluster.held).Keys - todo)
        decreases |todo|
      {
        var id :| id in todo;
        requeued, ok := MoveNext(id, old(cluster.trace), requeued, todo, old(cluster.held).Keys - todo);
        todo := todo - {id};
        assert old(cluster.held).Keys - todo <= (old(cluster.held).Keys - (todo + {id})) + {id};
      }
    }

    method MoveNext(id: Id, ghost start: seq<Step>, before: seq<Id>, ghost todo: set<Id>, ghost seen: set<Id>)
      returns (requeued: seq<Id>, ok: bool)
      requires Moving(start, before, todo) && id in todo && Scanned(start, seen)
      modifies cluster
      ensures Moved(start, requeued) && old(cluster.trace) <= cluster.trace
      ensures ok ==> Moving(start, requeued, todo - {id}) && Scanned(start, seen + {id})
      ensures !ok ==> cluster.Faulty()
    {
      var moved;
      moved, ok := MoveIfAbandoned(id, start);
      requeued := if moved then before + [id] else before;
      LookedAfterLater(cluster.config, start, old(cluster.trace), cluster.trace, owner, seen);
      if ok && !moved { SeenWellNow(cluster.config, |start|, cluster.trace, id); }
    }

    /** An error may come before the id is moved or after. */
    method MoveIfAbandoned(id: Id, ghost start: seq<Step>) returns (moved: bool, ok: bool)
      requires At(Idle) && start <= cluster.trace
      modifies cluster
      ensures At(Idle) && old(cluster.trace) <= cluster.trace
      ensures MovedBy(Since(start, cluster.trace), owner)
           == MovedBy(Since(start, old(cluster.trace)), owner) + (if moved then [id] else [])
      ensures RewrittenBy(Since(start, cluster.trace), owner) == RewrittenBy(Since(start, old(cluster.trace)), owner)
      ensures ok && moved ==> (owner, id) in cluster.s.owed
      ensures ok && !moved ==> !Fifo.Lapsed(cluster.s.queue, id)
      ensures ok ==> forall k :: (owner, k) in old(cluster.s.owed) ==> (owner, k) in cluster.s.owed
      ensures !ok ==> cluster.Faulty()
    {
      var _ := cluster.Pass(owner);
      OthersRecoverNothing(start, old(cluster.trace), cluster.trace, owner);
      var fault := cluster.faults(cluster.tick);
      moved := !fault.Refused? && id in cluster.held && cluster.held[id].None?;
      if moved {
        OneMore(start, cluster.trace, Move(owner, id), owner);
        cluster.MoveOne(id, owner);
      }
      ok := fault.Works?;
      if !ok { BreakOff(start); }
    }

    /** Requeue jobs whose worker stopped renewing, then say so on their records, one by one and in the
        same order. An error on the way leaves the remaining records as they are: all of them, if it
        comes while ids are still being moved. Without an error every id that was held is moved back or
        has its lease at some moment of the scan, and every record is taken up. */
    method RecoverAbandoned() returns (requeued: seq<Id>, ok: bool)
      requires At(Idle)
      modifies cluster
      ensures Recovered(old(cluster.trace), requeued)
      ensures ok ==> RewrittenBy(Since(old(cluster.trace), cluster.trace), owner) == requeued
      ensures ok ==> forall i :: 0 <= i < |requeued| ==> (owner, requeued[i]) !in cluster.s.owed
      ensures ok ==> Scanned(old(cluster.trace), old(cluster.s.queue.held).Keys)
      ensures !ok ==> cluster.Faulty()
    {
      requeued, ok := MoveAbandoned();
      ghost var sofar := cluster.trace;
      if ok {
        ok := RewriteRecords(requeued, old(cluster.trace));
        LookedAfterLater(cluster.config, old(cluster.trace), sofar, cluster.trace, owner, old(cluster.s.queue.held).Keys);
      }
    }

    /** All ids are moved, and the records of the first of them rewritten, in order. */
    ghost predicate Recovered(start: seq<Step>, requeued: seq<Id>)
      reads this, cluster
    {
      && At(Idle) && start <= cluster.trace
      && requeued == MovedBy(Since(start, cluster.trace), owner)
      && RewrittenBy(Since(start, cluster.trace), owner) <= requeued
    }

    /** These are the first i, and the others are still owed. */
    ghost predicate Rewriting(start: seq<Step>, requeued: seq<Id>, i: nat)
      reads this, cluster
    {
      && Recovered(start, requeued) && i <= |requeued|
      && RewrittenBy(Since(start, cluster.trace), owner) == requeued[..i]
      && (forall j :: 0 <= j < |requeued| ==> ((owner, requeued[j]) in cluster.s.owed <==> i <= j))
    }

    method RewriteRecords(requeued: seq<Id>, ghost start: seq<Step>) returns (ok: bool)
      requires Moving(start, requeued, {})
      modifies cluster
      ensures Recovered(start, requeued) && old(cluster.trace) <= cluster.trace
      ensures ok ==> Rewriting(start, requeued, |requeued|)
      ensures !ok ==> cluster.Faulty()
    {
      ok := true;
      var i := 0;
      while ok && i < |requeued|
        invariant i <= |requeued| && Recovered(start, requeued) && old(cluster.trace) <= cluster.trace
        invariant ok || cluster.Faulty()
        invariant ok ==> Rewriting(start, requeued, i)
        decreases |requeued| - i, ok
      {
        ok := RewriteNext(requeued, i, start);
        if ok { i := i + 1; }
      }
    }

    method RewriteNext(requeued: seq<Id>, i: nat, ghost start: seq<Step>) returns (ok: bool)
      requires i < |requeued| && Rewriting(start, requeued, i)
      requires forall j, k :: 0 <= j < k < |requeued| ==> requeued[j] != requeued[k]
      modifies cluster
      ensures Recovered(start, requeued) && old(cluster.trace) <= cluster.trace
      ensures ok ==> Rewriting(start, requeued, i + 1)
      ensures !ok ==> cluster.Faulty()
    {
      var rewritten;
      rewritten, ok := RewriteRecord(requeued[i], start);
      assert requeued[..i + 1] == requeued[..i] + [requeued[i]];
    }

    /** Read one record and write it back, with anything else in between. */
    method RewriteRecord(id: Id, ghost start: seq<Step>) returns (rewritten: bool, ok: bool)
      requires At(Idle) && start <= cluster.trace && (owner, id) in cluster.s.owed
      modifies cluster
      ensures At(Idle) && old(cluster.trace) <= cluster.trace
      ensures MovedBy(Since(start, cluster.trace), owner) == MovedBy(Since(start, old(cluster.trace)), owner)
      ensures RewrittenBy(Since(start, cluster.trace), owner)
           == RewrittenBy(Since(start, old(cluster.trace)), owner) + (if rewritten then [id] else [])
      ensures ok ==> rewritten && (owner, id) !in cluster.s.owed
      ensures ok ==> forall k :: k != id ==> ((owner, k) in cluster.s.owed <==> (owner, k) in old(cluster.s.owed))
      ensures !ok ==> cluster.Faulty()
    {
      rewritten := false;
      var read, now;
      ok, read, now := ReadForRewrite(id, start);
      if ok {
        ghost var sofar := cluster.trace;
        var _ := cluster.Pass(owner);
        OthersRecoverNothing(start, sofar, cluster.trace, owner);
        rewritten, ok := WriteBack(id, read, now, start);
      }
    }

    method ReadForRewrite(id: Id, ghost start: seq<Step>) returns (ok: bool, read: Option<BuildJob>, now: Time)
      requires At(Idle) && start <= cluster.trace && (owner, id) in cluster.s.owed
      modifies cluster
      ensures At(Idle) && old(cluster.trace) <= cluster.trace
      ensures MovedBy(Since(start, cluster.trace), owner) == MovedBy(Since(start, old(cluster.trace)), owner)
      ensures RewrittenBy(Since(start, cluster.trace), owner) == RewrittenBy(Since(start, old(cluster.trace)), owner)
      ensures if ok then cluster.Recalled(owner, id, read, now) && (owner, id) !in cluster.s.owed else cluster.Faulty()
      ensures ok ==> forall k :: k != id ==> ((owner, k) in cluster.s.owed <==> (owner, k) in old(cluster.s.owed))
    {
      now := cluster.Pass(owner);
      OthersRecoverNothing(start, old(cluster.trace), cluster.trace, owner);
      ok := cluster.faults(cluster.tick).Works?;
      read := None;
      if ok {
        OneMore(start, cluster.trace, Recall(owner, id, now), owner);
        read := cluster.RecallOne(id, owner, now);
      } else {
        BreakOff(start);
      }
    }

    method WriteBack(id: Id, read: Option<BuildJob>, now: Time, ghost start: seq<Step>) returns (rewritten: bool, ok: bool)
      requires At(Idle) && start <= cluster.trace && cluster.Recalled(owner, id, read, now)
      modifies cluster
      ensures At(Idle) && old(cluster.trace) <= cluster.trace
      ensures MovedBy(Since(start, cluster.trace), owner) == MovedBy(Since(start, old(cluster.trace)), owner)
      ensures RewrittenBy(Since(start, cluster.trace), owner)
           == RewrittenBy(Since(start, old(cluster.trace)), owner) + (if rewritten then [id] else [])
      ensures ok ==> rewritten && cluster.s.owed == old(cluster.s.owed)
      ensures !ok ==> cluster.Faulty()
    {
      var fault := if read.Some? then cluster.faults(cluster.tick) else Works;
      rewritten := !fault.Refused?;
      if rewritten {
        OneMore(start, cluster.trace, Rewrite(owner, id), owner);
        cluster.RewriteOne(id, owner, read, now);
      }
      ok := fault.Works?;
      if !ok { BreakOff(start); }
    }

    method BreakOff(ghost start: seq<Step>)
      requires At(Idle) && start <= cluster.trace
      modifies cluster
      ensures At(Idle) && old(cluster.trace) <= cluster.trace
      ensures MovedBy(Since(start, cluster.trace), owner) == MovedBy(Since(start, old(cluster.trace)), owner)
      ensures RewrittenBy(Since(start, cluster.trace), owner) == RewrittenBy(Since(start, old(cluster.trace)), owner)
    {
      OneMore(start, cluster.trace, Fail(owner), owner);
      cluster.GiveUpTurn(owner);
    }

    /** What recovery, if it was due, has done by the time of these steps. */
    ghost predicate RecoveredBy(due: bool, start: seq<Step>, sofar: seq<Step>, ids: set<Id>)
      reads this
    {
      && start <= sofar
      && RewrittenBy(Since(start, sofar), owner) == MovedBy(Since(start, sofar), owner)
      && (if due then LookedAfter(cluster.config, start, sofar, owner, ids) else MovedBy(Since(start, sofar), owner) == [])
    }

    /** Recover abandoned jobs if that is due, then run at most one; `ran` if it reserved one. Whatever
        the others do between any two commands of this turn, and whichever command raises an error, the
        turn is a run of the protocol that brings this worker back to where it can take the next job;
        `at` is its attempt to reserve, if it gets that far. */
    method RunOnce(mono: real, turns: seq<Turn>) returns (ran: bool, raised: bool, ghost at: nat)
      requires At(Idle) && Ends(turns)
      modifies this`recoveredAt, cluster
      ensures At(Idle) && old(cluster.trace) <= cluster.trace
      ensures recoveredAt == if mono - old(recoveredAt) >= recoverEvery then mono else old(recoveredAt)
      ensures !raised ==> |old(cluster.trace)| <= at < |cluster.trace| && cluster.trace[at] == Reserve(owner)
      ensures !raised ==> (ran <==> Run(cluster.config, INIT, cluster.trace[..at]).queue.waiting != [])
      ensures !raised ==> RecoveredBy(mono - old(recoveredAt) >= recoverEvery, old(cluster.trace), cluster.trace[..at],
                                      old(cluster.s.queue.held).Keys)
      ensures !raised && ran ==> TurnIsOver(Run(cluster.config, INIT, cluster.trace[..at]).queue.waiting[0])
      ensures raised ==> cluster.Faulty()
    {
      var ok := Recover(mono);
      if !ok { return false, true, 0; }
      ghost var sofar := cluster.trace;
      var next;
      ghost var epoch, before;
      ok, next, epoch, before := ReserveNext();
      RecoveredLater(mono - old(recoveredAt) >= recoverEvery, old(cluster.trace), sofar, before, old(cluster.s.queue.held).Keys);
      if !ok || next.None? {
        assert ok ==> cluster.trace[..|before|] == before;
        return false, !ok, |before|;
      }
      assert before + [Reserve(owner)] <= cluster.trace;
      raised := RunReserved(next.value, epoch, turns);
      assert before + [Reserve(owner)] <= cluster.trace && cluster.trace[..|before|] == before;
      return true, raised, |before|;
    }

    method Recover(mono: real) returns (ok: bool)
      requires At(Idle)
      modifies this`recoveredAt, cluster
      ensures At(Idle) && old(cluster.trace) <= cluster.trace
      ensures recoveredAt == if mono - old(recoveredAt) >= recoverEvery then mono else old(recoveredAt)
      ensures ok ==> RecoveredBy(mono - old(recoveredAt) >= recoverEvery, old(cluster.trace), cluster.trace, old(cluster.s.queue.held).Keys)
      ensures !ok ==> cluster.Faulty()
    {
      ok := true;
      if mono - recoveredAt >= recoverEvery {
        recoveredAt := mono;
        var requeued;
        requeued, ok := RecoverAbandoned();
      }
    }

    lemma RecoveredLater(due: bool, start: seq<Step>, before: seq<Step>, after: seq<Step>, ids: set<Id>)
      requires RecoveredBy(due, start, before, ids) && OnlyOthers(before, after, owner)
      ensures RecoveredBy(due, start, after, ids)
    {
      OthersRecoverNothing(start, before, after, owner);
      if due { LookedAfterLater(cluster.config, start, before, after, owner, ids); }
    }

    /** This worker has just acknowledged the job, or found its lease gone and stood down. */
    ghost predicate TurnIsOver(id: Id)
      reads this, cluster
    {
      |cluster.trace| > 0 &&
      var (last, was) := (cluster.trace[|cluster.trace| - 1], Run(cluster.config, INIT, cluster.trace[..|cluster.trace| - 1]));
      owner < |was.workers| &&
      var p := was.workers[owner];
      || (last == Ack(owner) && p.Acking? && p.id == id)
      || (last.Renew? && last.w == owner && p.Building? && p.id == id && (Has(was, owner, id) ==> cluster.Faulty()))
    }

    /** Take the next id; `before` is the trace up to the attempt. */
    method ReserveNext() returns (ok: bool, next: Option<Id>, ghost epoch: nat, ghost before: seq<Step>)
      requires At(Idle)
      modifies cluster
      ensures At(if ok && next.Some? then Taken(next.value, epoch) else Idle)
      ensures OnlyOthers(old(cluster.trace), before, owner) && before <= cluster.trace
      ensures ok ==> cluster.trace == before + [Reserve(owner)]
      ensures !ok ==> cluster.Faulty()
      ensures ok ==> next == Fifo.Reserved(Run(cluster.config, INIT, before).queue)
      ensures ok ==> (next.Some? <==> Run(cluster.config, INIT, before).queue.waiting != [])
    {
      var _ := cluster.Pass(owner);
      before := cluster.trace;
      next := None;
      epoch := 0;
      ok := !cluster.faults(cluster.tick).Refused?;
      if ok {
        next := cluster.ReserveFor(owner);
        epoch := if next.Some? then cluster.s.epochs[next.value] else 0;
      }
      if cluster.faults(cluster.tick).ReplyLost? {
        ok := false;
        cluster.GiveUpTurn(owner);
      }
    }

    /** The rest of run_once, for the id it reserved. */
    method RunReserved(id: Id, ghost epoch: nat, turns: seq<Turn>) returns (raised: bool)
      requires At(Taken(id, epoch)) && Ends(turns)
      modifies cluster
      ensures At(Idle) && old(cluster.trace) <= cluster.trace
      ensures if raised then cluster.Faulty() else TurnIsOver(id)
    {
      var ok, record, now := ReadRecord(id, epoch);
      if !ok { return true; }
      if record.None? {
        ok := Acknowledge(id, epoch, false);
      } else if record.value.attempts + 1 > maxAttempts {
        ok := GiveUp(id, epoch, record.value, now);
        if ok { ok := Acknowledge(id, epoch, false); }
      } else {
        ok := Build(id, epoch, record.value, now, turns);
      }
      return !ok;
    }

    method Build(id: Id, ghost epoch: nat, record: BuildJob, now: Time, turns: seq<Turn>) returns (ok: bool)
      requires At(Starting(id, epoch, Started(record, now))) && Ends(turns)
      modifies cluster
      ensures At(Idle) && old(cluster.trace) <= cluster.trace
      ensures if ok then TurnIsOver(id) else cluster.Faulty()
    {
      var job;
      ok, job := Begin(id, epoch, record, now);
      if ok { ok := SeeThrough(id, epoch, job, turns); }
    }

    method SeeThrough(id: Id, ghost epoch: nat, job: BuildJob, turns: seq<Turn>) returns (ok: bool)
      requires At(Building(id, epoch, job, true, false)) && Ends(turns)
      modifies cluster
      ensures At(Idle) && old(cluster.trace) <= cluster.trace
      ensures if ok then TurnIsOver(id) else cluster.Faulty()
    {
      var outcome := Execute(id, epoch, job, turns);
      ok := !outcome.Errored?;
      if outcome.Completed? { ok := Acknowledge(id, epoch, true); }
    }

    /** The record to work on, or none if it is gone or already finished. */
    method ReadRecord(id: Id, ghost epoch: nat) returns (ok: bool, job: Option<BuildJob>, now: Time)
      requires At(Taken(id, epoch))
      modifies cluster
      ensures old(cluster.trace) <= cluster.trace
      ensures At(if !ok then Idle
                 else if job.None? then Acking(id, epoch, false)
                 else if job.value.attempts + 1 > maxAttempts
                 then GivingUp(id, epoch, GivenUp(job.value, maxAttempts, now))
                 else Starting(id, epoch, Started(job.value, now)))
      ensures !ok ==> cluster.Faulty()
      ensures ok ==> (job.Some? <==> id in cluster.records && !Terminal(cluster.records[id].status))
      ensures ok && job.Some? ==> job.value == cluster.records[id]
    {
      now := cluster.Pass(owner);
      ok := cluster.faults(cluster.tick).Works?;
      job := None;
      if !ok {
        cluster.GiveUpTurn(owner);
      } else {
        job := if id in cluster.records && !Terminal(cluster.records[id].status)
               then Some(cluster.records[id]) else None;
        cluster.Note(Load(owner, now));
      }
    }

    /** Count the attempt and put the job on record as running. */
    method Begin(id: Id, ghost epoch: nat, record: BuildJob, now: Time) returns (ok: bool, job: BuildJob)
      requires At(Starting(id, epoch, Started(record, now)))
      modifies cluster
      ensures At(if ok then Building(id, epoch, job, true, false) else Idle) && old(cluster.trace) <= cluster.trace
      ensures if ok then job == Started(record, now) && id in cluster.records && cluster.records[id] == job else cluster.Faulty()
    {
      job := record.(attempts := record.attempts + 1);
      job := job.(status := RUNNING);
      job := job.(heartbeatAt := Some(now));
      var _ := cluster.Pass(owner);
      ok := cluster.Save(id, job, SaveStart(owner), owner, Building(id, epoch, job, true, false));
    }

    method Acknowledge(id: Id, ghost epoch: nat, ghost started: bool) returns (ok: bool)
      requires At(Acking(id, epoch, started))
      modifies cluster
      ensures At(Idle) && old(cluster.trace) <= cluster.trace
      ensures if ok then TurnIsOver(id) else cluster.Faulty()
    {
      var _ := cluster.Pass(owner);
      ghost var before := cluster.trace;
      ok := cluster.AckJob(id, owner);
      if ok { assert cluster.trace[..|cluster.trace| - 1] == before; }
    }

    /** Fail a build that has exhausted its attempts, permanently. */
    method GiveUp(id: Id, ghost epoch: nat, record: BuildJob, now: Time) returns (ok: bool)
      requires At(GivingUp(id, epoch, GivenUp(record, maxAttempts, now)))
      modifies cluster
      ensures At(if ok then Acking(id, epoch, false) else Idle) && old(cluster.trace) <= cluster.trace
      ensures if ok then id in cluster.records && cluster.records[id] == GivenUp(record, maxAttempts, now) else cluster.Faulty()
    {
      var job := record.(attempts := record.attempts + 1);
      job := job.(status := FAILED);
      job := job.(failure := Some(Exhausted(job.attempts - 1, maxAttempts)));
      job := job.(finishedAt := Some(now));
      job := job.(heartbeatAt := job.finishedAt);
      var _ := cluster.Pass(owner);
      ok := cluster.Save(id, job, SaveGiveUp(owner), owner, Acking(id, epoch, false));
    }

    /** Run the build, heartbeating throughout. If it completes, the record is what the build thread made
        of the job, finished. */
    method Execute(id: Id, ghost epoch: nat, started: BuildJob, turns: seq<Turn>) returns (outcome: Outcome)
      requires At(Building(id, epoch, started, true, false)) && Ends(turns)
      modifies cluster
      ensures At(if outcome.Completed? then Acking(id, epoch, true) else Idle) && old(cluster.trace) <= cluster.trace
      ensures outcome.Completed? ==> cluster.trace[|cluster.trace| - 1] == SaveFinal(owner)
      ensures outcome.Completed? ==> id in cluster.records && IsFinished(cluster.records[id], Built(started, turns))
      ensures outcome.LeaseLost? ==> TurnIsOver(id)
      ensures outcome.Errored? ==> cluster.Faulty()
    {
      var job;
      job, outcome := WaitForTheEnd(id, epoch, started, turns);
      if outcome.Completed? { outcome := Conclude(id, epoch, job); }
    }

    /** Until the build thread ends, or the lease is gone. */
    method WaitForTheEnd(id: Id, ghost epoch: nat, started: BuildJob, turns: seq<Turn>) returns (job: BuildJob, outcome: Outcome)
      requires At(Building(id, epoch, started, true, false)) && Ends(turns)
      modifies cluster
      ensures At(if outcome.Completed? then Building(id, epoch, job, false, false) else Idle) && old(cluster.trace) <= cluster.trace
      ensures outcome.Completed? ==> SameBuild(job, Built(started, turns))
      ensures outcome.LeaseLost? ==> TurnIsOver(id)
      ensures outcome.Errored? ==> cluster.Faulty()
    {
      var i, alive := 0, true;
      job := started;
      while true
        invariant i < |turns| && alive && old(cluster.trace) <= cluster.trace
        invariant At(Building(id, epoch, job, true, false))
        invariant SameBuild(Built(job, turns[i..]), Built(started, turns))
        decreases |turns| - i
      {
        ghost var before := job;
        job, alive, outcome := WaitOnce(id, epoch, job, turns[i]);
        OneTurn(before, job, turns[i..]);
        if !alive { return job, Completed; }
        if !outcome.Completed? { return; }
        assert turns[i..][1..] == turns[i + 1..];
        i := i + 1;
      }
    }

    /** Wait for one heartbeat, and beat if the thread is still alive. */
    method WaitOnce(id: Id, ghost epoch: nat, before: BuildJob, turn: Turn)
      returns (job: BuildJob, alive: bool, outcome: Outcome)
      requires At(Building(id, epoch, before, true, false))
      requires forall x :: x in turn.progress ==> x.status != QUEUED
      modifies cluster
      ensures At(if alive && !outcome.Completed? then Idle else Building(id, epoch, job, alive, false))
      ensures alive == turn.ended.None? && old(cluster.trace) <= cluster.trace
      ensures var worked := AllWorked(before, turn.progress);
        SameBuild(job, if alive then worked else Ended(worked, turn.ended.value))
      ensures alive && outcome.LeaseLost? ==> TurnIsOver(id)
      ensures alive && outcome.Errored? ==> cluster.Faulty()
    {
      job, alive := Join(id, epoch, before, turn);
      outcome := Completed;
      if alive { job, outcome := Heartbeat(id, epoch, job); }
    }

    /** Ask whether the lease is still ours; if not, nothing is written. */
    method RenewOurs(id: Id, ghost epoch: nat, ghost job: BuildJob, ghost alive: bool) returns (ours: bool, now: Time)
      requires At(Building(id, epoch, job, alive, false))
      modifies cluster
      ensures At(if !ours then Idle
                 else if alive then Building(id, epoch, job.(heartbeatAt := Some(now)), true, true)
                 else Finishing(id, epoch, Finished(job, now)))
      ensures NothingSaved(old(cluster.trace), cluster.trace, owner)
      ensures ours ==> Has(cluster.s, owner, id)
      ensures !ours ==> TurnIsOver(id)
    {
      now := cluster.Pass(owner);
      ours := Ask(id, epoch, job, alive, now);
    }

    method Ask(id: Id, ghost epoch: nat, ghost job: BuildJob, ghost alive: bool, now: Time) returns (ours: bool)
      requires At(Building(id, epoch, job, alive, false))
      modifies cluster
      ensures At(if !ours then Idle
                 else if alive then Building(id, epoch, job.(heartbeatAt := Some(now)), true, true)
                 else Finishing(id, epoch, Finished(job, now)))
      ensures exists answered :: cluster.trace == old(cluster.trace) + [Renew(owner, now, answered)]
      ensures ours ==> Has(cluster.s, owner, id)
      ensures !ours ==> TurnIsOver(id)
    {
      ghost var before := cluster.trace;
      ours := cluster.RenewLease(id, owner);
      cluster.Note(Renew(owner, now, cluster.faults(cluster.tick).Works?));
      assert cluster.trace[..|cluster.trace| - 1] == before;
    }

    /** Keep the lease alive; stand down, writing nothing, if it is gone. */
    method Heartbeat(id: Id, ghost epoch: nat, before: BuildJob) returns (job: BuildJob, outcome: Outcome)
      requires At(Building(id, epoch, before, true, false))
      modifies cluster
      ensures At(if outcome.Completed? then Building(id, epoch, job, true, false) else Idle)
      ensures old(cluster.trace) <= cluster.trace
      ensures outcome.Completed? ==> cluster.trace[|cluster.trace| - 1] == SaveBeat(owner)
      ensures outcome.LeaseLost? ==> NothingSaved(old(cluster.trace), cluster.trace, owner) && TurnIsOver(id)
      ensures outcome.Errored? ==> cluster.Faulty()
      ensures SameBuild(job, before)
    {
      var ours, now := RenewOurs(id, epoch, before, true);
      job := before;
      if !ours { return job, LeaseLost; }
      job := job.(heartbeatAt := Some(now));
      var ok := Beat(id, epoch, job);
      outcome := if ok then Completed else Errored;
    }

    method Beat(id: Id, ghost epoch: nat, job: BuildJob) returns (ok: bool)
      requires At(Building(id, epoch, job, true, true))
      modifies cluster
      ensures At(if ok then Building(id, epoch, job, true, false) else Idle) && old(cluster.trace) <= cluster.trace
      ensures ok ==> cluster.trace[|cluster.trace| - 1] == SaveBeat(owner)
      ensures if ok then id in cluster.records && cluster.records[id] == job else cluster.Faulty()
    {
      var _ := cluster.Pass(owner);
      ok := cluster.Save(id, job, SaveBeat(owner), owner, Building(id, epoch, job, true, false));
    }

    /** Wait for the build thread for one heartbeat, and see whether it is still alive. */
    method Join(id: Id, ghost epoch: nat, before: BuildJob, turn: Turn) returns (job: BuildJob, alive: bool)
      requires At(Building(id, epoch, before, true, false))
      requires forall x :: x in turn.progress ==> x.status != QUEUED
      modifies cluster
      ensures At(Building(id, epoch, job, alive, false)) && alive == turn.ended.None?
      ensures job == var worked := AllWorked(before, turn.progress);
                     if alive then worked else Ended(worked, turn.ended.value)
      ensures old(cluster.trace) <= cluster.trace
    {
      job := before;
      for k := 0 to |turn.progress|
        invariant At(Building(id, epoch, job, true, false)) && old(cluster.trace) <= cluster.trace
        invariant job == AllWorked(before, turn.progress[..k])
      {
        assert turn.progress[..k + 1][..k] == turn.progress[..k];
        job := Progresses(id, epoch, job, turn.progress[k]);
      }
      assert turn.progress[..|turn.progress|] == turn.progress;
      alive := turn.ended.None?;
      if !alive {
        job := Ended(job, turn.ended.value);
        cluster.Note(Return(owner, turn.ended.value));
      }
    }

    method Progresses(id: Id, ghost epoch: nat, before: BuildJob, x: Progress) returns (job: BuildJob)
      requires At(Building(id, epoch, before, true, false)) && x.status != QUEUED
      modifies cluster
      ensures At(Building(id, epoch, job, true, false)) && job == Worked(before, x)
      ensures old(cluster.trace) <= cluster.trace
    {
      job := Worked(before, x);
      cluster.Note(Work(owner, x));
      var _ := cluster.Pass(owner);
    }

    /** Check the lease once more before writing the result. */
    method Conclude(id: Id, ghost epoch: nat, built: BuildJob) returns (outcome: Outcome)
      requires At(Building(id, epoch, built, false, false))
      modifies cluster
      ensures At(if outcome.Completed? then Acking(id, epoch, true) else Idle) && old(cluster.trace) <= cluster.trace
      ensures outcome.Completed? ==> cluster.trace[|cluster.trace| - 1] == SaveFinal(owner)
      ensures outcome.Completed? ==> id in cluster.records && IsFinished(cluster.records[id], built)
      ensures outcome.LeaseLost? ==> NothingSaved(old(cluster.trace), cluster.trace, owner) && TurnIsOver(id)
      ensures outcome.Errored? ==> cluster.Faulty()
    {
      var ours, now := RenewOurs(id, epoch, built, false);
      if !ours { return LeaseLost; }
      var ok := WriteResult(id, epoch, built, now);
      outcome := if ok then Completed else Errored;
    }

    method WriteResult(id: Id, ghost epoch: nat, built: BuildJob, now: Time) returns (ok: bool)
      requires At(Finishing(id, epoch, Finished(built, now)))
      modifies cluster
      ensures At(if ok then Acking(id, epoch, true) else Idle) && old(cluster.trace) <= cluster.trace
      ensures ok ==> cluster.trace[|cluster.trace| - 1] == SaveFinal(owner)
      ensures if ok then id in cluster.records && cluster.records[id] == Finished(built, now) else cluster.Faulty()
    {
      var job := built;
      if job.finishedAt.None? { job := job.(finishedAt := Some(now)); }
      job := job.(heartbeatAt := job.finishedAt);
      var _ := cluster.Pass(owner);
      ok := cluster.Save(id, job, SaveFinal(owner), owner, Acking(id, epoch, true));
    }
  }

  /** How running a build, or one heartbeat of it, came out. */
  datatype Outcome = Completed | LeaseLost | Errored

  /** The build thread ends at last, and never reports a job as queued. */
  predicate Ends(turns: seq<Turn>) {
    && turns != [] && turns[|turns| - 1].ended.Some?
    && forall i, k :: 0 <= i < |turns| && 0 <= k < |turns[i].progress| ==> turns[i].progress[k].status != QUEUED
  }
}
