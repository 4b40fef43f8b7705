/** Durable build execution: the workers, the queue and the job store as one state machine.

    Queue operations are atomic here, and so is each read and each write of a record; the store hands
    out copies, so a worker builds on its own copy of the record. Recovery moves ids first, and then
    reads each of their records and writes it back; a status poll reads a record and, if it is stale,
    writes it back as failed. Any number of workers run, stall and crash, and leases lapse. A step that
    is not possible in a state leaves it unchanged, so every statement ranges over all sequences of steps.
 */
module BuildProtocol {
  import opened Options
  import opened Jobs
  import Fifo = LeasedFifo

  /** `timed` is the timing hypothesis: no lease lapses between a reserve or a successful renew and
      the save or acknowledgement that follows it, and no recovery and no status poll is so slow with
      its write that a worker has finished the job, or started it again since the record was read. */
  datatype Config = Config(maxAttempts: nat, timed: bool)

  /** Where a worker stands in run_once. `epoch` numbers the reservation it acts on. */
  datatype Worker =
    | Idle
    | Taken(id: Id, epoch: nat)                      // reserved, record not read yet
    | Starting(id: Id, epoch: nat, job: BuildJob)    // attempt counted, save to come
    | GivingUp(id: Id, epoch: nat, job: BuildJob)    // attempts exhausted, save to come
    | Building(id: Id, epoch: nat, job: BuildJob, alive: bool, renewed: bool)
    | Finishing(id: Id, epoch: nat, job: BuildJob)   // last renew succeeded, save to come
    | Acking(id: Id, epoch: nat, started: bool)
    | Dead

  datatype Save = Save(id: Id, epoch: nat)

  /** Somebody other than the holder who writes a record back: a worker on the recovery of an id, or a
      status poll. */
  datatype Writer = Recovery(w: nat, id: Id) | StatusPoll(k: nat)

  /** A record as it was read, to be written back. */
  datatype Draft = Draft(id: Id, read: BuildJob, now: Time)

  datatype State = State(
    jobs: map<Id, BuildJob>,
    queue: Fifo.Queue,
    workers: seq<Worker>,
    owed: set<(nat, Id)>,  // records a worker has still to rewrite for ids it has recovered
    drafts: map<Writer, Draft>,
    // what has happened so far
    pushed: set<Id>,
    acked: set<Id>,
    epochs: multiset<Id>,  // reservations of each id
    starts: multiset<Id>,  // builds started for each id
    aborted: multiset<Id>, // reservations cut short by a crash or an error before a build was started
    saves: seq<Save>)      // worker saves, oldest first

  datatype Step =
    | Create(id: Id, job: BuildJob)
    | Enqueue(id: Id)
    | Join
    | Reserve(w: nat)
    | Load(w: nat, now: Time)
    | SaveStart(w: nat)
    | SaveGiveUp(w: nat)
    | Work(w: nat, progress: Progress)
    | Return(w: nat, raised: Option<string>)
    | Renew(w: nat, now: Time, answered: bool)
    | SaveBeat(w: nat)
    | SaveFinal(w: nat)
    | Ack(w: nat)
    | Crash(w: nat)
    | Fail(w: nat)
    | Move(w: nat, id: Id)
    | Recall(w: nat, id: Id, now: Time)
    | Rewrite(w: nat, id: Id)
    | Lapse(id: Id)
    | Poll(k: nat, id: Id, now: Time)
    | Report(k: nat)

  predicate OfWorker(x: Step) {
    !x.Create? && !x.Enqueue? && !x.Join? && !x.Lapse? && !x.Poll? && !x.Report?
  }

  const INIT := State(map[], Fifo.EMPTY, [], {}, map[], {}, {}, multiset{}, multiset{}, multiset{}, [])

  predicate Has(s: State, w: nat, id: Id) { Fifo.Owns(s.queue, id, w) }

  /** Between a reserve or a successful renew and the save or acknowledgement that follows. */
  predicate Critical(p: Worker) {
    p.Taken? || p.Starting? || p.GivingUp? || p.Finishing? || p.Acking? || (p.Building? && p.renewed)
  }

  predicate Unstarted(p: Worker) {
    p.Taken? || p.Starting? || p.GivingUp? || (p.Acking? && !p.started)
  }

  predicate Protected(s: State, id: Id) {
    && id in s.queue.held && s.queue.held[id].Some?
    && var w := s.queue.held[id].value;
       w < |s.workers| && Critical(s.workers[w]) && s.workers[w].id == id
  }

  function At(s: State, w: nat, p: Worker): State
    requires w < |s.workers|
  {
    s.(workers := s.workers[w := p])
  }

  // ---- the steps of a worker -----------------------------------------------

  function DoReserve(s: State, w: nat): State
    requires w < |s.workers|
  {
    if !s.workers[w].Idle? || s.queue.waiting == [] then s else
    var id := s.queue.waiting[0];
    At(s, w, Taken(id, s.epochs[id] + 1)).(
      queue := Fifo.Reserve(s.queue, w),
      epochs := s.epochs[id := s.epochs[id] + 1])
  }

  /** Read the record and decide: nothing to build, already finished, exhausted, or build. */
  function Decide(c: Config, s: State, id: Id, epoch: nat, now: Time): Worker {
    if id !in s.jobs || Terminal(s.jobs[id].status) then Acking(id, epoch, false)
    else if s.jobs[id].attempts + 1 > c.maxAttempts
    then GivingUp(id, epoch, GivenUp(s.jobs[id], c.maxAttempts, now))
    else Starting(id, epoch, Started(s.jobs[id], now))
  }

  function DoLoad(c: Config, s: State, w: nat, now: Time): State
    requires w < |s.workers|
  {
    var p := s.workers[w];
    if p.Taken? then At(s, w, Decide(c, s, p.id, p.epoch, now)) else s
  }

  /** Write the worker's copy back and go on as `next`. */
  function SaveAs(s: State, w: nat, id: Id, epoch: nat, job: BuildJob, next: Worker): State
    requires w < |s.workers|
  {
    At(s, w, next).(jobs := s.jobs[id := job], saves := s.saves + [Save(id, epoch)])
  }

  function DoSaveStart(s: State, w: nat): State
    requires w < |s.workers|
  {
    var p := s.workers[w];
    if !p.Starting? then s else
    SaveAs(s, w, p.id, p.epoch, p.job, Building(p.id, p.epoch, p.job, true, false)).(
      starts := s.starts[p.id := s.starts[p.id] + 1])
  }

  function DoSaveGiveUp(s: State, w: nat): State
    requires w < |s.workers|
  {
    var p := s.workers[w];
    if p.GivingUp? then SaveAs(s, w, p.id, p.epoch, p.job, Acking(p.id, p.epoch, false)) else s
  }

  /** The build thread writes to the job it was handed, concurrently with the heartbeat. */
  function DoWork(s: State, w: nat, x: Progress): State
    requires w < |s.workers|
  {
    var p := s.workers[w];
    if p.Building? && p.alive && !x.status.QUEUED?
    then At(s, w, Building(p.id, p.epoch, Worked(p.job, x), true, p.renewed)) else s
  }

  function DoReturn(s: State, w: nat, raised: Option<string>): State
    requires w < |s.workers|
  {
    var p := s.workers[w];
    if p.Building? && p.alive then At(s, w, p.(job := Ended(p.job, raised), alive := false)) else s
  }

  /** Renew the lease: stand down if it is gone, or if the queue does not answer; otherwise a heartbeat
      while the build runs, or the last check before the result is written. */
  function DoRenew(s: State, w: nat, now: Time, answered: bool): State
    requires w < |s.workers|
  {
    var p := s.workers[w];
    if !p.Building? || p.renewed then s
    else if !answered || !Has(s, w, p.id) then At(s, w, Idle)
    else if p.alive then At(s, w, p.(job := p.job.(heartbeatAt := Some(now)), renewed := true))
    else At(s, w, Finishing(p.id, p.epoch, Finished(p.job, now)))
  }

  function DoSaveBeat(s: State, w: nat): State
    requires w < |s.workers|
  {
    var p := s.workers[w];
    if p.Building? && p.renewed then SaveAs(s, w, p.id, p.epoch, p.job, p.(renewed := false)) else s
  }

  function DoSaveFinal(s: State, w: nat): State
    requires w < |s.workers|
  {
    var p := s.workers[w];
    if p.Finishing? then SaveAs(s, w, p.id, p.epoch, p.job, Acking(p.id, p.epoch, true)) else s
  }

  function DoAck(s: State, w: nat): State
    requires w < |s.workers|
  {
    var p := s.workers[w];
    if !p.Acking? then s else
    At(s, w, Idle).(queue := Fifo.Ack(s.queue, p.id), acked := s.acked + {p.id})
  }

  /** One more reservation of this worker's job that came to nothing, if it had not started yet. */
  function Aborted(s: State, p: Worker): multiset<Id> {
    if Unstarted(p) then s.aborted[p.id := s.aborted[p.id] + 1] else s.aborted
  }

  function DoCrash(s: State, w: nat): State
    requires w < |s.workers|
  {
    At(s, w, Dead).(aborted := Aborted(s, s.workers[w]))
  }

  /** An error gets out of run_once: the loop goes on with the next turn, and the lease stays behind. */
  function DoFail(s: State, w: nat): State
    requires w < |s.workers|
  {
    if s.workers[w].Dead? then s else At(s, w, Idle).(aborted := Aborted(s, s.workers[w]))
  }

  /** requeue_expired, for one id. */
  function DoMove(s: State, w: nat, id: Id): State
    requires w < |s.workers|
  {
    if !s.workers[w].Idle? || !Fifo.Lapsed(s.queue, id) then s
    else s.(queue := Fifo.Requeue(s.queue, id), owed := s.owed + {(w, id)})
  }

  /** recover_abandoned takes up the next record, after anything else may have happened. */
  function DoRecall(s: State, w: nat, id: Id, now: Time): State
    requires w < |s.workers|
  {
    if !s.workers[w].Idle? || (w, id) !in s.owed then s
    else s.(owed := s.owed - {(w, id)},
            drafts := if id in s.jobs then s.drafts[Recovery(w, id) := Draft(id, s.jobs[id], now)]
                      else s.drafts - {Recovery(w, id)})
  }

  /** The job has not been acknowledged, and nobody is about to acknowledge it. */
  predicate Unfinished(s: State, id: Id) {
    id !in s.acked
    && forall w :: 0 <= w < |s.workers| && Has(s, w, id) ==> !(s.workers[w].Acking? && s.workers[w].id == id)
  }

  /** Since the record was read the job has neither been finished nor taken up again. */
  predicate InTime(s: State, d: Draft) {
    d.id in s.jobs && s.jobs[d.id].attempts == d.read.attempts && Unfinished(s, d.id)
  }

  /** What is written: the record put back to queued, whatever it said, or failed as stale. */
  function Written(who: Writer, d: Draft): BuildJob {
    if who.Recovery? then Requeued(d.read, d.now) else Reaped(d.read, d.now)
  }

  /** A draft reaches the store. No record is ever dropped, so it is still there. */
  function Land(c: Config, s: State, who: Writer): State {
    if who !in s.drafts then s
    else
      var (d, done) := (s.drafts[who], s.(drafts := s.drafts - {who}));
      if d.id !in s.jobs || (c.timed && !InTime(s, d)) then done
      else done.(jobs := s.jobs[d.id := Written(who, d)])
  }

  function DoRewrite(c: Config, s: State, w: nat, id: Id): State
    requires w < |s.workers|
  {
    if s.workers[w].Idle? then Land(c, s, Recovery(w, id)) else s
  }

  function WorkerStep(c: Config, s: State, x: Step): State
    requires OfWorker(x) && x.w < |s.workers|
  {
    match x
    case Reserve(w) => DoReserve(s, w)
    case Load(w, now) => DoLoad(c, s, w, now)
    case SaveStart(w) => DoSaveStart(s, w)
    case SaveGiveUp(w) => DoSaveGiveUp(s, w)
    case Work(w, progress) => DoWork(s, w, progress)
    case Return(w, raised) => DoReturn(s, w, raised)
    case Renew(w, now, answered) => DoRenew(s, w, now, answered)
    case SaveBeat(w) => DoSaveBeat(s, w)
    case SaveFinal(w) => DoSaveFinal(s, w)
    case Ack(w) => DoAck(s, w)
    case Crash(w) => DoCrash(s, w)
    case Fail(w) => DoFail(s, w)
    case Move(w, id) => DoMove(s, w, id)
    case Recall(w, id, now) => DoRecall(s, w, id, now)
    case Rewrite(w, id) => DoRewrite(c, s, w, id)
  }

  // ---- the steps of everything else ----------------------------------------

  /** The accept path writes the record before it queues the id; ids are fresh. */
  function DoCreate(s: State, id: Id, job: BuildJob): State {
    if id in s.jobs || id in s.pushed || job.attempts != 0 || job.status != QUEUED then s
    else s.(jobs := s.jobs[id := job])
  }

  function DoEnqueue(s: State, id: Id): State {
    if id in s.pushed then s
    else s.(queue := Fifo.Push(s.queue, id), pushed := s.pushed + {id})
  }

  function DoLapse(c: Config, s: State, id: Id): State {
    if c.timed && Protected(s, id) then s else s.(queue := Fifo.Lapse(s.queue, id))
  }

  /** reap_stale decides to write. */
  function DoPoll(s: State, k: nat, id: Id, now: Time): State {
    if id !in s.jobs || Reaped(s.jobs[id], now) == s.jobs[id] then s
    else s.(drafts := s.drafts[StatusPoll(k) := Draft(id, s.jobs[id], now)])
  }

  function Exec(c: Config, s: State, x: Step): State {
    match x
    case Create(id, job) => DoCreate(s, id, job)
    case Enqueue(id) => DoEnqueue(s, id)
    case Join => s.(workers := s.workers + [Idle])
    case Lapse(id) => DoLapse(c, s, id)
    case Poll(k, id, now) => DoPoll(s, k, id, now)
    case Report(k) => Land(c, s, StatusPoll(k))
    case _ => if x.w < |s.workers| then WorkerStep(c, s, x) else s
  }

  function Run(c: Config, s: State, steps: seq<Step>): State
    decreases |steps|
  {
    if steps == [] then s else Run(c, Exec(c, s, steps[0]), steps[1..])
  }

  lemma {:induction false} RunAppend(c: Config, s: State, a: seq<Step>, b: seq<Step>)
    ensures Run(c, s, a + b) == Run(c, Run(c, s, a), b)
    decreases |a|
  {
    if a == [] {
      assert a + b == b;
    } else {
      assert (a + b)[1..] == a[1..] + b;
      RunAppend(c, Exec(c, s, a[0]), a[1..], b);
    }
  }
}
