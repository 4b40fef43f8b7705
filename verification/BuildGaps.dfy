/** Runs of the build protocol that show why the guarantees of BuildSafety carry the conditions they
    carry. */
module BuildGaps {
  import opened Options
  import opened Jobs
  import opened BuildProtocol
  import opened BuildSafety
  import opened Finality
  import Fifo = LeasedFifo

  /** Two workers, and a job started by the first. */
  function FirstStart(id: Id, job: BuildJob): seq<Step> {
    [Join, Join, Create(id, job), Enqueue(id), Reserve(0), Load(0, 0), SaveStart(0)]
  }

  ghost predicate StartedByFirst(s: State, id: Id, job: BuildJob) {
    && s.jobs == map[id := Started(job, 0)]
    && s.queue == Fifo.Queue([], map[id := Some(0)])
    && s.workers == [Building(id, 1, Started(job, 0), true, false), Idle]
    && s.epochs == multiset{id} && s.saves == [Save(id, 1)] && s.acked == {} && s.drafts == map[]
  }

  ghost predicate Queued(s: State, id: Id, job: BuildJob) {
    && s.jobs == map[id := job] && s.queue == Fifo.Queue([id], map[])
    && s.workers == [Idle, Idle] && s.epochs == multiset{} && s.saves == [] && s.acked == {} && s.drafts == map[]
  }

  lemma AfterQueueing(c: Config, id: Id, job: BuildJob)
    requires job.attempts == 0 && job.status == QUEUED
    ensures Queued(Run(c, INIT, [Join, Join, Create(id, job), Enqueue(id)]), id, job)
  {
    var s1 := Exec(c, INIT, Join);
    var s2 := Exec(c, s1, Join);
    assert s2.workers == [Idle, Idle];
    var s3 := Exec(c, s2, Create(id, job));
    var s4 := Exec(c, s3, Enqueue(id));
    TraceIsRun(c, [INIT, s1, s2, s3, s4], [Join, Join, Create(id, job), Enqueue(id)]);
  }

  lemma AfterStarting(c: Config, s: State, id: Id, job: BuildJob)
    requires c.maxAttempts == 3 && job.attempts == 0 && job.status == QUEUED && Queued(s, id, job)
    ensures StartedByFirst(Run(c, s, [Reserve(0), Load(0, 0), SaveStart(0)]), id, job)
  {
    var s1 := DoReserve(s, 0);
    assert s1.queue == Fifo.Queue([], map[id := Some(0)]) && s1.workers == [Taken(id, 1), Idle];
    var s2 := DoLoad(c, s1, 0, 0);
    assert s2.workers == [Starting(id, 1, Started(job, 0)), Idle];
    var s3 := DoSaveStart(s2, 0);
    ThreeSteps(c, s, Reserve(0), Load(0, 0), SaveStart(0));
  }

  lemma AfterFirstStart(c: Config, id: Id, job: BuildJob)
    requires c.maxAttempts == 3 && job.attempts == 0 && job.status == QUEUED
    ensures StartedByFirst(Run(c, INIT, FirstStart(id, job)), id, job)
  {
    var queueing := [Join, Join, Create(id, job), Enqueue(id)];
    AfterQueueing(c, id, job);
    AfterStarting(c, Run(c, INIT, queueing), id, job);
    RunAppend(c, INIT, queueing, [Reserve(0), Load(0, 0), SaveStart(0)]);
    assert queueing + [Reserve(0), Load(0, 0), SaveStart(0)] == FirstStart(id, job);
  }

  // ---- the timing hypothesis -----------------------------------------------

  /** The lease lapses between a successful renew and the save that follows it, and the job goes
      back into the queue. */
  function LosesLease(id: Id): seq<Step> {
    [Renew(0, 1, true), Lapse(id)] + Recovering(1, id, 2)
  }

  /** The second worker starts the job again, and then the first worker's heartbeat lands. */
  function LateBeat(): seq<Step> {
    [Reserve(1), Load(1, 3), SaveStart(1), SaveBeat(0)]
  }

  ghost predicate BackInLine(s: State, id: Id, job: BuildJob) {
    && s.jobs == map[id := Requeued(Started(job, 0), 2)]
    && s.queue == Fifo.Queue([id], map[])
    && s.workers == [Building(id, 1, Started(job, 0).(heartbeatAt := Some(1)), true, true), Idle]
    && s.epochs == multiset{id} && s.saves == [Save(id, 1)] && s.acked == {}
  }

  /** The first worker has renewed and not yet saved, and its lease has lapsed since. */
  ghost predicate LeaseLost(s: State, id: Id, job: BuildJob) {
    && s.jobs == map[id := Started(job, 0)]
    && s.queue == Fifo.Queue([], map[id := None])
    && s.workers == [Building(id, 1, Started(job, 0).(heartbeatAt := Some(1)), true, true), Idle]
    && s.epochs == multiset{id} && s.saves == [Save(id, 1)] && s.acked == {}
  }

  lemma AfterLapsing(c: Config, s: State, id: Id, job: BuildJob)
    requires !c.timed && StartedByFirst(s, id, job)
    ensures LeaseLost(Run(c, s, [Renew(0, 1, true), Lapse(id)]), id, job)
  {
    var s1 := DoRenew(s, 0, 1, true);
    TraceIsRun(c, [s, s1, DoLapse(c, s1, id)], [Renew(0, 1, true), Lapse(id)]);
  }

  lemma AfterRecovering(c: Config, s: State, id: Id, job: BuildJob)
    requires LeaseLost(s, id, job)
    ensures BackInLine(Run(c, s, Recovering(1, id, 2)), id, job)
  {
    assert Fifo.Requeue(s.queue, id) == Fifo.Queue([id], map[]);
    Recovers(c, s, 1, id, 2);
  }

  lemma AfterLosesLease(c: Config, s: State, id: Id, job: BuildJob)
    requires !c.timed && StartedByFirst(s, id, job)
    ensures BackInLine(Run(c, s, LosesLease(id)), id, job)
  {
    AfterLapsing(c, s, id, job);
    AfterRecovering(c, Run(c, s, [Renew(0, 1, true), Lapse(id)]), id, job);
    RunAppend(c, s, [Renew(0, 1, true), Lapse(id)], Recovering(1, id, 2));
  }

  lemma AfterLateBeat(c: Config, s: State, id: Id, job: BuildJob)
    requires c.maxAttempts == 3 && job.attempts == 0 && BackInLine(s, id, job)
    ensures var t := Run(c, s, LateBeat());
            t.saves == [Save(id, 1), Save(id, 2), Save(id, 1)] && id in t.jobs && t.jobs[id].attempts == 1
  {
    var s1 := DoReserve(s, 1);
    assert s1.workers[1] == Taken(id, 2);
    var s2 := DoLoad(c, s1, 1, 3);
    assert s2.workers[1] == Starting(id, 2, Started(s.jobs[id], 3));
    var s3 := DoSaveStart(s2, 1);
    assert s3.workers[0] == s.workers[0];
    var s4 := DoSaveBeat(s3, 0);
    TraceIsRun(c, [s, s1, s2, s3, s4], LateBeat());
  }

  /** Without the timing hypothesis an old holder does overwrite a newer one, and takes back an
      attempt that was counted. */
  lemma UntimedSavesAreNotFenced(id: Id, job: BuildJob)
    requires job.attempts == 0 && job.status == QUEUED
    ensures var s := Run(Config(3, false), INIT, FirstStart(id, job) + LosesLease(id) + LateBeat());
            && s.saves == [Save(id, 1), Save(id, 2), Save(id, 1)]
            && id in s.jobs && s.jobs[id].attempts == 1
  {
    var c := Config(3, false);
    AfterFirstStart(c, id, job);
    AfterLosesLease(c, Run(c, INIT, FirstStart(id, job)), id, job);
    RunAppend(c, INIT, FirstStart(id, job), LosesLease(id));
    AfterLateBeat(c, Run(c, INIT, FirstStart(id, job) + LosesLease(id)), id, job);
    RunAppend(c, INIT, FirstStart(id, job) + LosesLease(id), LateBeat());
  }

  // ---- a terminal status before the acknowledgement ------------------------

  /** A heartbeat saves the terminal status the build has just set. */
  function BeatAfterSuccess(x: Progress): seq<Step> {
    [Work(0, x), Renew(0, 1, true), SaveBeat(0)]
  }

  function DiesAndIsRequeued(id: Id): seq<Step> {
    [Crash(0), Lapse(id)] + Recovering(1, id, 2)
  }

  ghost predicate HeldByFirst(s: State, id: Id, live: bool) {
    && id in s.jobs && id !in s.acked && |s.workers| == 2 && s.workers[1].Idle?
    && s.queue == Fifo.Queue([], map[id := if live then Some(0) else None])
  }

  lemma AfterBeat(c: Config, s: State, id: Id, job: BuildJob, x: Progress)
    requires StartedByFirst(s, id, job) && x.status == SUCCEEDED
    ensures var t := Run(c, s, BeatAfterSuccess(x));
            && HeldByFirst(t, id, true) && t.jobs[id].status == SUCCEEDED
  {
    AfterRenewing(c, s, id, job, x);
    var s2 := Run(c, s, [Work(0, x), Renew(0, 1, true)]);
    TraceIsRun(c, [s2, DoSaveBeat(s2, 0)], [SaveBeat(0)]);
    RunAppend(c, s, [Work(0, x), Renew(0, 1, true)], [SaveBeat(0)]);
    assert BeatAfterSuccess(x) == [Work(0, x), Renew(0, 1, true)] + [SaveBeat(0)];
  }

  lemma AfterRenewing(c: Config, s: State, id: Id, job: BuildJob, x: Progress)
    requires StartedByFirst(s, id, job) && x.status == SUCCEEDED
    ensures var t := Run(c, s, [Work(0, x), Renew(0, 1, true)]);
            && HeldByFirst(t, id, true) && t.workers[0].Building? && t.workers[0].renewed
            && t.workers[0].id == id && t.workers[0].job.status == SUCCEEDED
  {
    var s1 := DoWork(s, 0, x);
    TraceIsRun(c, [s, s1, DoRenew(s1, 0, 1, true)], [Work(0, x), Renew(0, 1, true)]);
  }

  lemma AfterCrash(c: Config, s: State, id: Id)
    requires HeldByFirst(s, id, true)
    ensures HeldByFirst(Run(c, s, [Crash(0), Lapse(id)]), id, false)
    ensures Run(c, s, [Crash(0), Lapse(id)]).jobs == s.jobs && Run(c, s, [Crash(0), Lapse(id)]).drafts == s.drafts
  {
    var s1 := DoCrash(s, 0);
    var s2 := DoLapse(c, s1, id);
    TraceIsRun(c, [s, s1, s2], [Crash(0), Lapse(id)]);
  }

  lemma AfterRecovery(c: Config, s: State, id: Id)
    requires HeldByFirst(s, id, false)
    ensures var t := Run(c, s, Recovering(1, id, 2));
            id in t.jobs && t.jobs[id].status == QUEUED && t.queue.waiting == [id]
  {
    Recovers(c, s, 1, id, 2);
  }

  /** Even under the timing hypothesis a record that says it succeeded can go back to queued: only
      the acknowledgement makes a terminal status final. */
  lemma TerminalBeforeAckIsNotFinal(id: Id, job: BuildJob, x: Progress)
    requires job.attempts == 0 && job.status == QUEUED && x.status == SUCCEEDED
    ensures var s := Run(Config(3, true), INIT, FirstStart(id, job) + BeatAfterSuccess(x));
            var t := Run(Config(3, true), s, DiesAndIsRequeued(id));
            && id in s.jobs && s.jobs[id].status == SUCCEEDED
            && id in t.jobs && t.jobs[id].status == QUEUED
  {
    var c := Config(3, true);
    AfterFirstStart(c, id, job);
    RunAppend(c, INIT, FirstStart(id, job), BeatAfterSuccess(x));
    AfterBeat(c, Run(c, INIT, FirstStart(id, job)), id, job, x);
    var s := Run(c, INIT, FirstStart(id, job) + BeatAfterSuccess(x));
    AfterCrash(c, s, id);
    AfterRecovery(c, Run(c, s, [Crash(0), Lapse(id)]), id);
    RunAppend(c, s, [Crash(0), Lapse(id)], Recovering(1, id, 2));
  }

  // ---- slow writes ---------------------------------------------------------

  /** The first worker dies on the job, and a third one moves it. */
  function DiesAndIsMoved(id: Id): seq<Step> {
    [Crash(0), Lapse(id)] + [Join, Move(2, id)]
  }

  /** The second worker takes the job, builds it to the end and acknowledges it. */
  function BuildsAgain(x: Progress): seq<Step> {
    [Reserve(1), Load(1, 3), SaveStart(1)] + ([Work(1, x), Return(1, None), Renew(1, 4, true)] + [SaveFinal(1), Ack(1)])
  }

  /** The job waits again, the third worker has still to rewrite its record, and these drafts are under
      way. */
  ghost predicate InLine(s: State, id: Id, drafts: map<Writer, Draft>) {
    && |s.workers| == 3 && s.workers[1].Idle? && s.queue == Fifo.Queue([id], map[])
    && s.workers[2].Idle? && (2, id) in s.owed && s.drafts == drafts
    && id in s.jobs && s.jobs[id].status == RUNNING && s.jobs[id].attempts == 1 && s.jobs[id].heartbeatAt == Some(0)
  }

  ghost predicate WithSecond(s: State, id: Id, drafts: map<Writer, Draft>) {
    && |s.workers| == 3 && s.queue == Fifo.Queue([], map[id := Some(1)]) && id in s.jobs
    && s.workers[2].Idle? && (2, id) in s.owed && s.drafts == drafts
  }

  /** The result is on record and acknowledged. */
  ghost predicate Done(s: State, id: Id, drafts: map<Writer, Draft>) {
    && id in s.jobs && s.jobs[id].status == SUCCEEDED && id in s.acked && s.queue == Fifo.EMPTY
    && |s.workers| == 3 && s.workers[2].Idle? && (2, id) in s.owed && s.drafts == drafts
  }

  lemma AfterMoving(c: Config, s: State, id: Id)
    requires HeldByFirst(s, id, false) && s.jobs[id].status == RUNNING && s.jobs[id].attempts == 1
    requires s.jobs[id].heartbeatAt == Some(0) && s.drafts == map[]
    ensures InLine(Run(c, s, [Join, Move(2, id)]), id, map[])
  {
    var s1 := Exec(c, s, Join);
    assert s1.workers == s.workers + [Idle];
    TraceIsRun(c, [s, s1, DoMove(s1, 2, id)], [Join, Move(2, id)]);
  }

  lemma SecondStarts(c: Config, s: State, id: Id, drafts: map<Writer, Draft>)
    requires c.maxAttempts == 3 && InLine(s, id, drafts)
    ensures var t := Run(c, s, [Reserve(1), Load(1, 3), SaveStart(1)]);
            && WithSecond(t, id, drafts) && t.workers[1].Building? && t.workers[1].id == id
            && t.workers[1].alive && !t.workers[1].renewed && t.workers[1].job.status == RUNNING
  {
    var s1 := DoReserve(s, 1);
    assert s1.queue == Fifo.Queue([], map[id := Some(1)]) && s1.workers[1].Taken?;
    var s2 := DoLoad(c, s1, 1, 3);
    assert s2.workers[1].Starting?;
    ThreeSteps(c, s, Reserve(1), Load(1, 3), SaveStart(1));
  }

  lemma SecondBuilds(c: Config, s: State, id: Id, x: Progress, drafts: map<Writer, Draft>)
    requires WithSecond(s, id, drafts) && s.workers[1].Building? && s.workers[1].id == id
    requires s.workers[1].alive && !s.workers[1].renewed && x.status == SUCCEEDED
    ensures var t := Run(c, s, [Work(1, x), Return(1, None), Renew(1, 4, true)]);
            && WithSecond(t, id, drafts) && t.workers[1].Finishing? && t.workers[1].id == id
            && t.workers[1].job.status == SUCCEEDED
  {
    var s1 := DoWork(s, 1, x);
    var s2 := DoReturn(s1, 1, None);
    assert s2.workers[1].Building? && s2.workers[1].job.status == SUCCEEDED;
    ThreeSteps(c, s, Work(1, x), Return(1, None), Renew(1, 4, true));
  }

  lemma SecondFinishes(c: Config, s: State, id: Id, drafts: map<Writer, Draft>)
    requires WithSecond(s, id, drafts) && s.workers[1].Finishing? && s.workers[1].id == id
    requires s.workers[1].job.status == SUCCEEDED
    ensures var t := Run(c, s, [SaveFinal(1), Ack(1)]);
            Done(t, id, drafts)
  {
    var s1 := DoSaveFinal(s, 1);
    TraceIsRun(c, [s, s1, DoAck(s1, 1)], [SaveFinal(1), Ack(1)]);
  }

  lemma SecondDoesItAll(c: Config, s: State, id: Id, x: Progress, drafts: map<Writer, Draft>)
    requires c.maxAttempts == 3 && InLine(s, id, drafts) && x.status == SUCCEEDED
    ensures var t := Run(c, s, BuildsAgain(x));
            Done(t, id, drafts)
  {
    var (first, second, third) :=
      ([Reserve(1), Load(1, 3), SaveStart(1)], [Work(1, x), Return(1, None), Renew(1, 4, true)], [SaveFinal(1), Ack(1)]);
    var s1 := Run(c, s, first);
    SecondStarts(c, s, id, drafts);
    SecondBuilds(c, s1, id, x, drafts);
    SecondFinishes(c, Run(c, s1, second), id, drafts);
    RunAppend(c, s, first, second + third);
    RunAppend(c, s1, second, third);
  }

  lemma LateRewrite(c: Config, s: State, id: Id, now: Time)
    requires !c.timed && Done(s, id, map[])
    ensures var t := Run(c, s, [Recall(2, id, now), Rewrite(2, id)]);
            id in t.jobs && t.jobs[id].status == QUEUED && t.queue == Fifo.EMPTY
  {
    var s1 := DoRecall(s, 2, id, now);
    TraceIsRun(c, [s, s1, DoRewrite(c, s1, 2, id)], [Recall(2, id, now), Rewrite(2, id)]);
  }

  lemma AfterBeingMoved(c: Config, s: State, id: Id, job: BuildJob)
    requires StartedByFirst(s, id, job) && job.attempts == 0
    ensures InLine(Run(c, s, DiesAndIsMoved(id)), id, map[])
  {
    AfterCrash(c, s, id);
    AfterMoving(c, Run(c, s, [Crash(0), Lapse(id)]), id);
    RunAppend(c, s, [Crash(0), Lapse(id)], [Join, Move(2, id)]);
  }

  lemma InLineAgain(c: Config, id: Id, job: BuildJob)
    requires c.maxAttempts == 3 && job.attempts == 0 && job.status == QUEUED
    ensures InLine(Run(c, INIT, FirstStart(id, job) + DiesAndIsMoved(id)), id, map[])
  {
    AfterFirstStart(c, id, job);
    AfterBeingMoved(c, Run(c, INIT, FirstStart(id, job)), id, job);
    RunAppend(c, INIT, FirstStart(id, job), DiesAndIsMoved(id));
  }

  /** With time between the halves of a recovery, a result that was saved and acknowledged is undone: the
      record goes back to queued although the id is in no list, so nobody will ever build it. */
  lemma LateRewriteUndoesAResult(id: Id, job: BuildJob, x: Progress, now: Time)
    requires job.attempts == 0 && job.status == QUEUED && x.status == SUCCEEDED
    ensures var c := Config(3, false);
            var t := Run(c, INIT, FirstStart(id, job) + DiesAndIsMoved(id) + BuildsAgain(x));
            var u := Run(c, t, [Recall(2, id, now), Rewrite(2, id)]);
            && id in t.jobs && t.jobs[id].status == SUCCEEDED && id in t.acked
            && id in u.jobs && u.jobs[id].status == QUEUED && u.queue == Fifo.EMPTY
  {
    var c := Config(3, false);
    var before := FirstStart(id, job) + DiesAndIsMoved(id);
    InLineAgain(c, id, job);
    SecondDoesItAll(c, Run(c, INIT, before), id, x, map[]);
    RunAppend(c, INIT, before, BuildsAgain(x));
    LateRewrite(c, Run(c, INIT, before + BuildsAgain(x)), id, now);
  }

  /** A status poll that finds the record stale while the job waits again. */
  function PollDraft(s: State, id: Id, at: Time): map<Writer, Draft>
    requires id in s.jobs
  {
    map[StatusPoll(0) := Draft(id, s.jobs[id], at)]
  }

  lemma AfterPolling(c: Config, s: State, id: Id, at: Time)
    requires InLine(s, id, map[]) && at > STALE_AFTER
    ensures InLine(Run(c, s, [Poll(0, id, at)]), id, PollDraft(s, id, at))
  {
    TraceIsRun(c, [s, DoPoll(s, 0, id, at)], [Poll(0, id, at)]);
  }

  lemma LateReport(c: Config, s: State, id: Id, was: State, at: Time)
    requires !c.timed && InLine(was, id, map[]) && at > STALE_AFTER && Done(s, id, PollDraft(was, id, at))
    ensures var t := Run(c, s, [Report(0)]);
            id in t.jobs && t.jobs[id].status == FAILED && t.jobs[id].failure == Some(Stale)
  {
    TraceIsRun(c, [s, Land(c, s, StatusPoll(0))], [Report(0)]);
  }

  /** With time between the read and the write of a status poll, it fails a job that has succeeded in the
      meantime. */
  lemma LatePollFailsAResult(id: Id, job: BuildJob, x: Progress, at: Time)
    requires job.attempts == 0 && job.status == QUEUED && x.status == SUCCEEDED && at > STALE_AFTER
    ensures var c := Config(3, false);
            var t := Run(c, INIT, FirstStart(id, job) + DiesAndIsMoved(id) + [Poll(0, id, at)] + BuildsAgain(x));
            var u := Run(c, t, [Report(0)]);
            && id in t.jobs && t.jobs[id].status == SUCCEEDED && id in t.acked
            && id in u.jobs && u.jobs[id].status == FAILED && u.jobs[id].failure == Some(Stale)
  {
    var c := Config(3, false);
    var before := FirstStart(id, job) + DiesAndIsMoved(id);
    InLineAgain(c, id, job);
    var s := Run(c, INIT, before);
    AfterPolling(c, s, id, at);
    RunAppend(c, INIT, before, [Poll(0, id, at)]);
    SecondDoesItAll(c, Run(c, INIT, before + [Poll(0, id, at)]), id, x, PollDraft(s, id, at));
    RunAppend(c, INIT, before + [Poll(0, id, at)], BuildsAgain(x));
    LateReport(c, Run(c, INIT, before + [Poll(0, id, at)] + BuildsAgain(x)), id, s, at);
  }

  // ---- errors before the first save ----------------------------------------

  /** An error between the reserve and the first save, after which the lease lapses and the job is
      recovered. */
  function ReservedInVain(id: Id): seq<Step> {
    [Reserve(0), Fail(0)] + ([Lapse(id)] + Recovering(0, id, 0))
  }

  ghost predicate Waits(s: State, id: Id, epochs: nat) {
    && s.workers == [Idle] && s.queue == Fifo.Queue([id], map[]) && id !in s.acked
    && s.epochs[id] == epochs && s.starts[id] == 0
  }

  ghost predicate LeftBehind(s: State, id: Id, epochs: nat) {
    && s.workers == [Idle] && s.queue == Fifo.Queue([], map[id := Some(0)]) && id !in s.acked
    && s.epochs[id] == epochs && s.starts[id] == 0
  }

  lemma AfterFailing(c: Config, s: State, id: Id, epochs: nat)
    requires Waits(s, id, epochs)
    ensures LeftBehind(Run(c, s, [Reserve(0), Fail(0)]), id, epochs + 1)
  {
    var s1 := DoReserve(s, 0);
    TraceIsRun(c, [s, s1, DoFail(s1, 0)], [Reserve(0), Fail(0)]);
  }

  lemma AfterTakingBack(c: Config, s: State, id: Id, epochs: nat)
    requires LeftBehind(s, id, epochs)
    ensures Waits(Run(c, s, [Lapse(id)] + Recovering(0, id, 0)), id, epochs)
  {
    var s1 := DoLapse(c, s, id);
    assert s1.queue == Fifo.Queue([], map[id := None]);
    TraceIsRun(c, [s, s1], [Lapse(id)]);
    Recovers(c, s1, 0, id, 0);
    assert Fifo.Requeue(s1.queue, id) == Fifo.Queue([id], map[]);
    RunAppend(c, s, [Lapse(id)], Recovering(0, id, 0));
  }

  lemma AfterReservedInVain(c: Config, s: State, id: Id, epochs: nat)
    requires Waits(s, id, epochs)
    ensures Waits(Run(c, s, ReservedInVain(id)), id, epochs + 1)
  {
    AfterFailing(c, s, id, epochs);
    AfterTakingBack(c, Run(c, s, [Reserve(0), Fail(0)]), id, epochs + 1);
    RunAppend(c, s, [Reserve(0), Fail(0)], [Lapse(id)] + Recovering(0, id, 0));
  }

  /** An error counts no attempt, so nothing bounds how often a job is reserved in vain: there are runs
      with any number of reservations in which no worker dies and no build is ever started. */
  lemma {:induction false} ErrorsAreNotAttempts(c: Config, id: Id, n: nat) returns (steps: seq<Step>)
    ensures Waits(Run(c, INIT, steps), id, n)
    ensures forall i :: 0 <= i < |steps| ==> !steps[i].Crash?
  {
    if n == 0 {
      steps := [Join, Enqueue(id)];
      var s1 := Exec(c, INIT, Join);
      assert s1.workers == [Idle];
      TraceIsRun(c, [INIT, s1, DoEnqueue(s1, id)], steps);
    } else {
      var before := ErrorsAreNotAttempts(c, id, n - 1);
      AfterReservedInVain(c, Run(c, INIT, before), id, n - 1);
      RunAppend(c, INIT, before, ReservedInVain(id));
      steps := before + ReservedInVain(id);
    }
  }
}
