/** What the build protocol keeps in every run under the timing hypothesis: nothing is lost, saves
    are fenced by reservation, attempts are bounded, and finished means finished. */
module BuildSafety {
  import opened Options
  import opened Jobs
  import opened BuildProtocol
  import Fifo = LeasedFifo

  // ---- the invariant -------------------------------------------------------

  /** Every pushed id is in exactly one of waiting, held and acknowledged, and waits at most once. */
  ghost predicate Placed(s: State) {
    && (forall i, j :: 0 <= i < j < |s.queue.waiting| ==> s.queue.waiting[i] != s.queue.waiting[j])
    && (forall id :: id in s.queue.waiting ==> id !in s.queue.held && id !in s.acked && id in s.pushed)
    && (forall id :: id in s.queue.held ==> id !in s.acked && id in s.pushed)
    && (forall id :: id in s.pushed ==> id in s.queue.waiting || id in s.queue.held || id in s.acked)
    && s.acked <= s.pushed
  }

  /** A live lease names a worker: one that is on that job, or that died on it or failed at it. */
  ghost predicate Owned(s: State) {
    forall id, w: nat :: Has(s, w, id) ==> w < |s.workers|
  }

  /** The copy a lease holder carries agrees with the record. */
  ghost predicate Coherent(c: Config, s: State, p: Worker)
    requires !p.Idle? && !p.Dead?
  {
    match p
    case Taken(_, _) => true
    case Starting(id, _, job) =>
      id in s.jobs && job.attempts == s.jobs[id].attempts + 1 <= c.maxAttempts && job.status == RUNNING
    case GivingUp(id, _, job) =>
      id in s.jobs && job.attempts == s.jobs[id].attempts + 1 && Terminal(job.status)
    case Building(id, _, job, alive, _) =>
      && id in s.jobs && job.attempts == s.jobs[id].attempts && job.status != QUEUED
      && (!alive ==> Terminal(job.status))
    case Finishing(id, _, job) =>
      id in s.jobs && job.attempts == s.jobs[id].attempts && Terminal(job.status)
    case Acking(id, _, _) => id in s.jobs ==> Terminal(s.jobs[id].status)
  }

  ghost predicate WorkerOk(c: Config, s: State, w: nat)
    requires w < |s.workers|
  {
    var p := s.workers[w];
    p.Idle? || p.Dead? ||
    (&& p.epoch <= s.epochs[p.id]
     && (Critical(p) ==> Has(s, w, p.id))
     && (p.Building? ==> p.job.status != QUEUED && (!p.alive ==> Terminal(p.job.status)))
     && (Has(s, w, p.id) ==> p.epoch == s.epochs[p.id] && Coherent(c, s, p)))
  }

  ghost predicate WorkersOk(c: Config, s: State) {
    forall w :: 0 <= w < |s.workers| ==> WorkerOk(c, s, w)
  }

  /** One reservation may be neither a started build nor cut short: the one that is still undecided,
      or the one that ended in the acknowledgement. */
  predicate Open(s: State, id: Id) {
    id in s.acked ||
    (id in s.queue.held && s.queue.held[id].Some? && s.queue.held[id].value < |s.workers|
     && var p := s.workers[s.queue.held[id].value]; Unstarted(p) && p.id == id)
  }

  ghost predicate JobOk(c: Config, s: State, id: Id) {
    && s.starts[id] <= c.maxAttempts
    && s.starts[id] <= (if id in s.jobs then s.jobs[id].attempts else 0)
    && s.epochs[id] <= s.starts[id] + s.aborted[id] + (if Open(s, id) then 1 else 0)
    && (id in s.acked && id in s.jobs ==> Terminal(s.jobs[id].status))
  }

  ghost predicate JobsOk(c: Config, s: State) {
    forall id :: JobOk(c, s, id)
  }

  /** The worker saves of each record, oldest first, are ordered by reservation. */
  ghost predicate Fenced(s: State) {
    && (forall i :: 0 <= i < |s.saves| ==> s.saves[i].epoch <= s.epochs[s.saves[i].id])
    && (forall i, j :: 0 <= i < j < |s.saves| && s.saves[i].id == s.saves[j].id
          ==> s.saves[i].epoch <= s.saves[j].epoch)
  }

  ghost predicate Inv(c: Config, s: State) {
    Placed(s) && Owned(s) && WorkersOk(c, s) && JobsOk(c, s) && Fenced(s)
  }

  // ---- steps of one worker on its own job ----------------------------------

  /** What the steps between a reserve and its acknowledgement have in common: worker w moves on, and
      at most the record of its own job changes, and that only while w has the lease. */
  ghost predicate Local(c: Config, s: State, t: State, w: nat)
    requires w < |s.workers|
  {
    var p := s.workers[w];
    && !p.Idle? && !p.Dead?
    && t.queue == s.queue && t.pushed == s.pushed && t.acked == s.acked
    && t.epochs == s.epochs && t.aborted == s.aborted
    && |t.workers| == |s.workers| && t.workers == s.workers[w := t.workers[w]]
    && !t.workers[w].Dead? && !t.workers[w].Idle? && t.workers[w].id == p.id
    && (t.jobs == s.jobs || (Has(s, w, p.id) && p.id in t.jobs && t.jobs == s.jobs[p.id := t.jobs[p.id]]))
    && (forall k :: k != p.id ==> t.starts[k] == s.starts[k])
    && (t.saves == s.saves || t.saves == s.saves + [Save(p.id, s.epochs[p.id])])
  }

  lemma LocalKeepsWorkers(c: Config, s: State, t: State, w: nat)
    requires Inv(c, s) && w < |s.workers| && Local(c, s, t, w) && WorkerOk(c, t, w)
    ensures Owned(t) && WorkersOk(c, t)
  {
    forall v | 0 <= v < |t.workers| ensures WorkerOk(c, t, v) {
      if v != w {
        assert t.workers[v] == s.workers[v] && WorkerOk(c, s, v);
      }
    }
    forall id, v: nat | Has(t, v, id)
      ensures v < |t.workers|
    {
      assert Has(s, v, id);
    }
  }

  lemma LocalKeepsJobs(c: Config, s: State, t: State, w: nat)
    requires Inv(c, s) && w < |s.workers| && Local(c, s, t, w) && JobOk(c, t, s.workers[w].id)
    ensures JobsOk(c, t)
  {
    forall k ensures JobOk(c, t, k) {
      assert JobOk(c, s, k);
      if k != s.workers[w].id && k in s.queue.held && s.queue.held[k] == Some(w) {
        assert Has(s, w, k);
      }
    }
  }

  lemma LocalKeepsFence(c: Config, s: State, t: State, w: nat)
    requires Inv(c, s) && w < |s.workers| && Local(c, s, t, w)
    ensures Placed(t) && Fenced(t)
  {
  }

  lemma LocalKeeps(c: Config, s: State, t: State, w: nat)
    requires Inv(c, s) && w < |s.workers| && Local(c, s, t, w)
    requires WorkerOk(c, t, w) && JobOk(c, t, s.workers[w].id)
    ensures Inv(c, t)
  {
    LocalKeepsWorkers(c, s, t, w);
    LocalKeepsJobs(c, s, t, w);
    LocalKeepsFence(c, s, t, w);
  }

  lemma LoadKeeps(c: Config, s: State, w: nat, now: Time)
    requires Inv(c, s) && w < |s.workers|
    ensures Inv(c, DoLoad(c, s, w, now))
  {
    var p, t := s.workers[w], DoLoad(c, s, w, now);
    if p.Taken? {
      assert WorkerOk(c, s, w) && Has(s, w, p.id) && JobOk(c, s, p.id);
      LocalKeeps(c, s, t, w);
    }
  }

  lemma SaveStartKeeps(c: Config, s: State, w: nat)
    requires Inv(c, s) && w < |s.workers|
    ensures Inv(c, DoSaveStart(s, w))
  {
    var p, t := s.workers[w], DoSaveStart(s, w);
    if p.Starting? {
      assert WorkerOk(c, s, w) && Has(s, w, p.id) && JobOk(c, s, p.id);
      assert t.jobs == s.jobs[p.id := p.job];
      LocalKeeps(c, s, t, w);
    }
  }

  lemma SaveGiveUpKeeps(c: Config, s: State, w: nat)
    requires Inv(c, s) && w < |s.workers|
    ensures Inv(c, DoSaveGiveUp(s, w))
  {
    var p, t := s.workers[w], DoSaveGiveUp(s, w);
    if p.GivingUp? {
      assert WorkerOk(c, s, w) && Has(s, w, p.id) && JobOk(c, s, p.id);
      assert t.jobs == s.jobs[p.id := p.job];
      LocalKeeps(c, s, t, w);
    }
  }

  lemma WorkKeeps(c: Config, s: State, w: nat, x: Progress)
    requires Inv(c, s) && w < |s.workers|
    ensures Inv(c, DoWork(s, w, x))
  {
    var p := s.workers[w];
    if p.Building? && p.alive && !x.status.QUEUED? {
      assert WorkerOk(c, s, w) && JobOk(c, s, p.id);
      LocalKeeps(c, s, DoWork(s, w, x), w);
    }
  }

  lemma ReturnKeeps(c: Config, s: State, w: nat, raised: Option<string>)
    requires Inv(c, s) && w < |s.workers|
    ensures Inv(c, DoReturn(s, w, raised))
  {
    var p := s.workers[w];
    if p.Building? && p.alive {
      assert WorkerOk(c, s, w) && JobOk(c, s, p.id);
      LocalKeeps(c, s, DoReturn(s, w, raised), w);
    }
  }

  lemma RenewKeeps(c: Config, s: State, w: nat, now: Time, answered: bool)
    requires Inv(c, s) && w < |s.workers|
    ensures Inv(c, DoRenew(s, w, now, answered))
  {
    var p, t := s.workers[w], DoRenew(s, w, now, answered);
    if p.Building? && !p.renewed {
      if !answered || !Has(s, w, p.id) {
        StopKeeps(c, s, w, Idle);
      } else {
        assert WorkerOk(c, s, w) && JobOk(c, s, p.id);
        LocalKeeps(c, s, t, w);
      }
    }
  }

  lemma SaveBeatKeeps(c: Config, s: State, w: nat)
    requires Inv(c, s) && w < |s.workers|
    ensures Inv(c, DoSaveBeat(s, w))
  {
    var p, t := s.workers[w], DoSaveBeat(s, w);
    if p.Building? && p.renewed {
      assert WorkerOk(c, s, w) && Has(s, w, p.id) && JobOk(c, s, p.id);
      assert t.jobs == s.jobs[p.id := p.job];
      LocalKeeps(c, s, t, w);
    }
  }

  lemma SaveFinalKeeps(c: Config, s: State, w: nat)
    requires Inv(c, s) && w < |s.workers|
    ensures Inv(c, DoSaveFinal(s, w))
  {
    var p, t := s.workers[w], DoSaveFinal(s, w);
    if p.Finishing? {
      assert WorkerOk(c, s, w) && Has(s, w, p.id) && JobOk(c, s, p.id);
      assert t.jobs == s.jobs[p.id := p.job];
      LocalKeeps(c, s, t, w);
    }
  }

  // ---- steps that move an id between the lists -----------------------------

  lemma ReserveKeeps(c: Config, s: State, w: nat)
    requires Inv(c, s) && w < |s.workers|
    ensures Inv(c, DoReserve(s, w))
  {
    var t := DoReserve(s, w);
    if s.workers[w].Idle? && s.queue.waiting != [] {
      var id := s.queue.waiting[0];
      assert id in s.queue.waiting && id !in s.queue.held;
      forall k | k in t.queue.waiting ensures k in s.queue.waiting && k != id {
        var n :| 0 <= n < |t.queue.waiting| && t.queue.waiting[n] == k;
        assert s.queue.waiting[n + 1] == k;
      }
      forall k | k in s.queue.waiting ensures k == id || k in t.queue.waiting {
        var n :| 0 <= n < |s.queue.waiting| && s.queue.waiting[n] == k;
        if n > 0 { assert t.queue.waiting[n - 1] == k; }
      }
      assert Placed(t);
      ReserveKeepsOwners(c, s, w);
      forall k ensures JobOk(c, t, k) {
        assert JobOk(c, s, k);
        if k != id && k in s.queue.held && s.queue.held[k] == Some(w) { assert Has(s, w, k); }
      }
    }
  }

  lemma ReserveKeepsOwners(c: Config, s: State, w: nat)
    requires Inv(c, s) && w < |s.workers|
    requires s.workers[w].Idle? && s.queue.waiting != []
    ensures Owned(DoReserve(s, w)) && WorkersOk(c, DoReserve(s, w))
  {
    var t, id := DoReserve(s, w), s.queue.waiting[0];
    assert id in s.queue.waiting && id !in s.queue.held;
    forall k, v: nat | Has(t, v, k)
      ensures v < |t.workers|
    {
      if k != id { assert Has(s, v, k); }
    }
    forall v | 0 <= v < |t.workers| ensures WorkerOk(c, t, v) {
      assert WorkerOk(c, s, v);
    }
  }

  lemma AckKeeps(c: Config, s: State, w: nat)
    requires Inv(c, s) && w < |s.workers|
    ensures Inv(c, DoAck(s, w))
  {
    var p, t := s.workers[w], DoAck(s, w);
    if p.Acking? {
      assert WorkerOk(c, s, w) && Has(s, w, p.id);
      forall k, v: nat | Has(t, v, k)
        ensures v < |t.workers|
      {
        assert Has(s, v, k);
      }
      forall v | 0 <= v < |t.workers| ensures WorkerOk(c, t, v) {
        assert WorkerOk(c, s, v);
        if v != w && Critical(s.workers[v]) { assert Has(s, v, s.workers[v].id); }
      }
      forall k ensures JobOk(c, t, k) {
        assert JobOk(c, s, k);
        if k != p.id && k in s.queue.held && s.queue.held[k] == Some(w) { assert Has(s, w, k); }
      }
    }
  }

  /** Worker w gives up what it is on, and becomes idle or dead. */
  lemma StopKeeps(c: Config, s: State, w: nat, next: Worker)
    requires Inv(c, s) && w < |s.workers| && (next.Idle? || next.Dead?)
    ensures Inv(c, At(s, w, next).(aborted := Aborted(s, s.workers[w])))
  {
    var p, t := s.workers[w], At(s, w, next).(aborted := Aborted(s, s.workers[w]));
    assert WorkerOk(c, s, w);
    forall k, v: nat | Has(t, v, k) ensures v < |t.workers| { assert Has(s, v, k); }
    forall v | 0 <= v < |t.workers| ensures WorkerOk(c, t, v) { assert WorkerOk(c, s, v); }
    forall k ensures JobOk(c, t, k) { StopKeepsJob(c, s, w, next, k); }
  }

  lemma StopKeepsJob(c: Config, s: State, w: nat, next: Worker, k: Id)
    requires Inv(c, s) && w < |s.workers| && (next.Idle? || next.Dead?)
    ensures JobOk(c, At(s, w, next).(aborted := Aborted(s, s.workers[w])), k)
  {
    assert JobOk(c, s, k) && WorkerOk(c, s, w);
    if k in s.queue.held && s.queue.held[k] == Some(w) { assert Has(s, w, k); }
    if Unstarted(s.workers[w]) { assert Has(s, w, s.workers[w].id); }
  }

  lemma MoveKeeps(c: Config, s: State, w: nat, id: Id)
    requires Inv(c, s) && w < |s.workers|
    ensures Inv(c, DoMove(s, w, id))
  {
    var t := DoMove(s, w, id);
    if s.workers[w].Idle? && Fifo.Lapsed(s.queue, id) {
      assert t.queue.waiting == s.queue.waiting + [id];
      assert Placed(t);
      forall k, v: nat | Has(t, v, k) ensures v < |t.workers| { assert Has(s, v, k); }
      forall v | 0 <= v < |t.workers| ensures WorkerOk(c, t, v) { assert WorkerOk(c, s, v); }
      forall k ensures JobOk(c, t, k) { assert JobOk(c, s, k); }
    }
  }

  /** This worker carries a copy of the record. */
  predicate Carries(p: Worker) { p.Starting? || p.GivingUp? || p.Building? || p.Finishing? }

  /** A record that somebody other than its holder writes: with the attempts its holder knows of, and
      terminal if the job is finished. */
  ghost predicate Fits(s: State, id: Id, job: BuildJob)
    requires id in s.jobs
  {
    && (Terminal(job.status) || Unfinished(s, id))
    && s.starts[id] <= job.attempts
    && forall w :: 0 <= w < |s.workers| && Has(s, w, id) && Carries(s.workers[w]) && s.workers[w].id == id
         ==> job.attempts == s.jobs[id].attempts
  }

  lemma FittingKeeps(c: Config, s: State, id: Id, job: BuildJob)
    requires Inv(c, s) && id in s.jobs && Fits(s, id, job)
    ensures Inv(c, s.(jobs := s.jobs[id := job]))
  {
    var t := s.(jobs := s.jobs[id := job]);
    forall k, v: nat | Has(t, v, k) ensures v < |t.workers| { assert Has(s, v, k); }
    forall v | 0 <= v < |t.workers| ensures WorkerOk(c, t, v) {
      assert WorkerOk(c, s, v);
      if Has(t, v, id) { assert Has(s, v, id); }
    }
    forall k ensures JobOk(c, t, k) { assert JobOk(c, s, k); }
  }

  lemma KeepingFits(c: Config, s: State, id: Id, job: BuildJob)
    requires Inv(c, s) && id in s.jobs && Inv(c, s.(jobs := s.jobs[id := job]))
    ensures Fits(s, id, job)
  {
    var t := s.(jobs := s.jobs[id := job]);
    assert JobOk(c, t, id);
    forall w | 0 <= w < |s.workers| && Has(s, w, id) && !s.workers[w].Idle? && !s.workers[w].Dead? && s.workers[w].id == id
      ensures Carries(s.workers[w]) ==> job.attempts == s.jobs[id].attempts
      ensures s.workers[w].Acking? ==> Terminal(job.status)
    {
      assert WorkerOk(c, s, w) && Has(t, w, id) && WorkerOk(c, t, w);
    }
  }

  /** Exactly when a write of a record by somebody other than its holder, however late, keeps the
      invariant. */
  lemma WritingIsSafeWhen(c: Config, s: State, id: Id, job: BuildJob)
    requires Inv(c, s) && id in s.jobs
    ensures Inv(c, s.(jobs := s.jobs[id := job])) <==> Fits(s, id, job)
  {
    if Fits(s, id, job) {
      FittingKeeps(c, s, id, job);
    } else if Inv(c, s.(jobs := s.jobs[id := job])) {
      KeepingFits(c, s, id, job);
    }
  }

  /** Recovery reads a record some time after it moved the id. Whatever has happened in between, putting
      the record it finds back to queued does no harm exactly while the job is not acknowledged and
      nobody is about to acknowledge it. */
  lemma RewritingIsSafeWhen(c: Config, s: State, id: Id, now: Time)
    requires Inv(c, s) && id in s.jobs
    ensures Inv(c, s.(jobs := s.jobs[id := Requeued(s.jobs[id], now)])) <==> Unfinished(s, id)
  {
    assert JobOk(c, s, id);
    WritingIsSafeWhen(c, s, id, Requeued(s.jobs[id], now));
  }

  lemma LandKeeps(c: Config, s: State, who: Writer)
    requires c.timed && Inv(c, s)
    ensures Inv(c, Land(c, s, who))
  {
    if who in s.drafts {
      var (d, done) := (s.drafts[who], s.(drafts := s.drafts - {who}));
      NotesAreNothing(c, s, done);
      if InTime(s, d) {
        assert JobOk(c, s, d.id);
        FittingKeeps(c, done, d.id, Written(who, d));
      }
    }
  }

  /** What is owed or drafted is no part of the invariant. */
  lemma NotesAreNothing(c: Config, s: State, t: State)
    requires Inv(c, s) && t == s.(owed := t.owed, drafts := t.drafts)
    ensures Inv(c, t)
  {
    forall k, v: nat | Has(t, v, k) ensures v < |t.workers| { assert Has(s, v, k); }
    forall v | 0 <= v < |t.workers| ensures WorkerOk(c, t, v) { assert WorkerOk(c, s, v); }
    forall k ensures JobOk(c, t, k) { assert JobOk(c, s, k); }
  }

  /** `Fencing` shows that no other lapse is safe. */
  lemma LapsingKeepsUnprotected(c: Config, s: State, id: Id)
    requires Inv(c, s) && !Protected(s, id)
    ensures Inv(c, s.(queue := Fifo.Lapse(s.queue, id)))
  {
    var t := s.(queue := Fifo.Lapse(s.queue, id));
    if id in s.queue.held {
      forall k, v: nat | Has(t, v, k) ensures v < |t.workers| { assert Has(s, v, k); }
      forall v | 0 <= v < |t.workers| ensures WorkerOk(c, t, v) { assert WorkerOk(c, s, v); }
      forall k ensures JobOk(c, t, k) {
        assert JobOk(c, s, k);
        if k == id && s.queue.held[id].Some? { assert Has(s, s.queue.held[id].value, id); }
      }
    }
  }

  lemma LapseKeeps(c: Config, s: State, id: Id)
    requires c.timed && Inv(c, s)
    ensures Inv(c, DoLapse(c, s, id))
  {
    if !Protected(s, id) { LapsingKeepsUnprotected(c, s, id); }
  }

  // ---- steps of everything else --------------------------------------------

  lemma CreateKeeps(c: Config, s: State, id: Id, job: BuildJob)
    requires Inv(c, s)
    ensures Inv(c, DoCreate(s, id, job))
  {
    var t := DoCreate(s, id, job);
    forall k, v: nat | Has(t, v, k) ensures Has(s, v, k) && k in s.pushed { }
    forall v | 0 <= v < |s.workers| ensures WorkerOk(c, t, v) { assert WorkerOk(c, s, v); }
    forall k ensures JobOk(c, t, k) { assert JobOk(c, s, k); }
  }

  lemma EnqueueKeeps(c: Config, s: State, id: Id)
    requires Inv(c, s)
    ensures Inv(c, DoEnqueue(s, id))
  {
    var t := DoEnqueue(s, id);
    forall k, v: nat | Has(t, v, k) ensures Has(s, v, k) && k in s.pushed { }
    forall v | 0 <= v < |s.workers| ensures WorkerOk(c, t, v) { assert WorkerOk(c, s, v); }
    forall k ensures JobOk(c, t, k) { assert JobOk(c, s, k); }
  }

  lemma JoinKeeps(c: Config, s: State)
    requires Inv(c, s)
    ensures Inv(c, s.(workers := s.workers + [Idle]))
  {
    var t := s.(workers := s.workers + [Idle]);
    forall k, v: nat | Has(t, v, k)
      ensures v < |t.workers|
    {
      assert Has(s, v, k);
    }
    forall v | 0 <= v < |t.workers| ensures WorkerOk(c, t, v) {
      if v < |s.workers| { assert WorkerOk(c, s, v); }
    }
    forall k ensures JobOk(c, t, k) { assert JobOk(c, s, k); }
  }

  // ---- every run -----------------------------------------------------------

  lemma StepKeeps(c: Config, s: State, x: Step)
    requires c.timed && Inv(c, s)
    ensures Inv(c, Exec(c, s, x))
  {
    if !OfWorker(x) {
      OtherStepKeeps(c, s, x);
    } else if x.w < |s.workers| {
      WorkerStepKeeps(c, s, x);
    }
  }

  lemma OtherStepKeeps(c: Config, s: State, x: Step)
    requires c.timed && Inv(c, s) && !OfWorker(x)
    ensures Inv(c, Exec(c, s, x))
  {
    match x
    case Create(id, job) => CreateKeeps(c, s, id, job);
    case Enqueue(id) => EnqueueKeeps(c, s, id);
    case Join => JoinKeeps(c, s);
    case Lapse(id) => LapseKeeps(c, s, id);
    case Poll(k, id, now) => NotesAreNothing(c, s, DoPoll(s, k, id, now));
    case Report(k) => LandKeeps(c, s, StatusPoll(k));
  }

  lemma WorkerStepKeeps(c: Config, s: State, x: Step)
    requires c.timed && Inv(c, s)
    requires OfWorker(x) && x.w < |s.workers|
    ensures Inv(c, WorkerStep(c, s, x))
  {
    match x
    case Reserve(w) => ReserveKeeps(c, s, w);
    case Load(w, now) => LoadKeeps(c, s, w, now);
    case SaveStart(w) => SaveStartKeeps(c, s, w);
    case SaveGiveUp(w) => SaveGiveUpKeeps(c, s, w);
    case Ack(w) => AckKeeps(c, s, w);
    case Crash(w) => StopKeeps(c, s, w, Dead);
    case Fail(w) => if !s.workers[w].Dead? { StopKeeps(c, s, w, Idle); }
    case Move(w, id) => MoveKeeps(c, s, w, id);
    case Recall(w, id, now) => NotesAreNothing(c, s, DoRecall(s, w, id, now));
    case Rewrite(w, id) => LandKeeps(c, s, Recovery(w, id));
    case _ => BuildStepKeeps(c, s, x);
  }

  lemma BuildStepKeeps(c: Config, s: State, x: Step)
    requires Inv(c, s)
    requires x.Work? || x.Return? || x.Renew? || x.SaveBeat? || x.SaveFinal?
    requires x.w < |s.workers|
    ensures Inv(c, WorkerStep(c, s, x))
  {
    match x
    case Work(w, progress) => WorkKeeps(c, s, w, progress);
    case Return(w, raised) => ReturnKeeps(c, s, w, raised);
    case Renew(w, now, answered) => RenewKeeps(c, s, w, now, answered);
    case SaveBeat(w) => SaveBeatKeeps(c, s, w);
    case SaveFinal(w) => SaveFinalKeeps(c, s, w);
  }

  lemma {:induction false} RunKeeps(c: Config, s: State, steps: seq<Step>)
    requires c.timed && Inv(c, s)
    ensures Inv(c, Run(c, s, steps))
    decreases |steps|
  {
    if steps != [] {
      StepKeeps(c, s, steps[0]);
      RunKeeps(c, Exec(c, s, steps[0]), steps[1..]);
    }
  }

  lemma InitHolds(c: Config)
    ensures Inv(c, INIT)
  {
    assert INIT.queue.waiting == [];
  }

  /** Every state of every run. */
  lemma {:induction false} Reachable(c: Config, steps: seq<Step>)
    requires c.timed
    ensures Inv(c, Run(c, INIT, steps))
  {
    InitHolds(c);
    RunKeeps(c, INIT, steps);
  }

  // ---- how one worker goes on ----------------------------------------------

  /** Worker w alone moves. */
  ghost predicate Moves(s: State, t: State, w: nat) {
    w < |s.workers| == |t.workers| && t.workers == s.workers[w := t.workers[w]]
  }

  /** It goes on with the job it was on, if any. */
  ghost predicate Quiet(s: State, t: State, w: nat) {
    && Moves(s, t, w) && t.queue == s.queue && t.pushed == s.pushed && t.starts == s.starts
    && (t.workers[w] == s.workers[w] || t.workers[w].Idle? || t.workers[w].Dead?
        || (!s.workers[w].Idle? && !s.workers[w].Dead? && t.workers[w].id == s.workers[w].id))
  }

  /** It goes on with the copy it had, or with one it has just read, if any. */
  ghost predicate Phase(s: State, t: State, w: nat) {
    && Moves(s, t, w) && t.jobs == s.jobs && t.drafts == s.drafts
    && (Carries(t.workers[w]) ==>
          || (Carries(s.workers[w]) && t.workers[w].id == s.workers[w].id && SameOrder(t.workers[w].job, s.workers[w].job))
          || (t.workers[w].id in s.jobs && SameOrder(t.workers[w].job, s.jobs[t.workers[w].id])))
  }

  lemma LookingStep(c: Config, s: State, w: nat, now: Time, answered: bool)
    requires w < |s.workers|
    ensures Quiet(s, DoLoad(c, s, w, now), w) && Phase(s, DoLoad(c, s, w, now), w)
    ensures Quiet(s, DoRenew(s, w, now, answered), w) && Phase(s, DoRenew(s, w, now, answered), w)
  {
  }

  lemma BuildingStep(s: State, w: nat, progress: Progress, raised: Option<string>)
    requires w < |s.workers|
    ensures Quiet(s, DoWork(s, w, progress), w) && Phase(s, DoWork(s, w, progress), w)
    ensures Quiet(s, DoReturn(s, w, raised), w) && Phase(s, DoReturn(s, w, raised), w)
  {
  }

  lemma StoppingStep(s: State, w: nat)
    requires w < |s.workers|
    ensures Quiet(s, DoCrash(s, w), w) && Phase(s, DoCrash(s, w), w)
    ensures Quiet(s, DoFail(s, w), w) && Phase(s, DoFail(s, w), w)
  {
  }

  /** The steps of a worker between its saves. */
  predicate Own(x: Step) { x.Load? || x.Renew? || x.Work? || x.Return? || x.Crash? || x.Fail? }

  lemma OwnStep(c: Config, s: State, x: Step)
    requires Own(x) && x.w < |s.workers|
    ensures Quiet(s, WorkerStep(c, s, x), x.w) && Phase(s, WorkerStep(c, s, x), x.w)
  {
    if x.Load? {
      LookingStep(c, s, x.w, x.now, true);
    } else if x.Renew? {
      LookingStep(c, s, x.w, x.now, x.answered);
    } else if x.Work? {
      BuildingStep(s, x.w, x.progress, None);
    } else if x.Return? {
      BuildingStep(s, x.w, Progress(QUEUED, [], None, None, None), x.raised);
    } else {
      StoppingStep(s, x.w);
    }
  }

  lemma ListStep(s: State, w: nat, id: Id)
    requires w < |s.workers|
    ensures Phase(s, DoReserve(s, w), w) && Phase(s, DoAck(s, w), w) && Phase(s, DoMove(s, w, id), w)
  {
  }

  // ---- every run, timed or not ---------------------------------------------

  /** The job is in no list, no worker is on it, and no build of it was ever started. */
  predicate Untouched(s: State, id: Id) {
    && id !in s.queue.waiting && id !in s.queue.held && s.starts[id] == 0
    && forall w :: 0 <= w < |s.workers| && !s.workers[w].Idle? && !s.workers[w].Dead? ==> s.workers[w].id != id
  }

  ghost predicate OnlyPushed(s: State) {
    && (forall id :: id in s.queue.waiting || id in s.queue.held ==> id in s.pushed)
    && (forall w :: 0 <= w < |s.workers| && !s.workers[w].Idle? && !s.workers[w].Dead? ==> s.workers[w].id in s.pushed)
    && (forall id :: s.starts[id] > 0 ==> id in s.pushed)
  }

  lemma QuietKeeps(s: State, t: State, w: nat)
    requires OnlyPushed(s) && Quiet(s, t, w)
    ensures OnlyPushed(t)
  {
  }

  lemma SaveIsQuiet(c: Config, s: State, x: Step)
    requires x.SaveGiveUp? || x.SaveBeat? || x.SaveFinal?
    requires x.w < |s.workers|
    ensures Quiet(s, WorkerStep(c, s, x), x.w)
  {
  }

  lemma StartKeepsOnlyPushed(s: State, w: nat)
    requires OnlyPushed(s) && w < |s.workers|
    ensures OnlyPushed(DoSaveStart(s, w)) && OnlyPushed(DoAck(s, w))
  {
  }

  lemma ListsKeepOnlyPushed(s: State, w: nat, id: Id)
    requires OnlyPushed(s) && w < |s.workers|
    ensures OnlyPushed(DoReserve(s, w)) && OnlyPushed(DoMove(s, w, id))
  {
  }

  lemma WorkerKeepsOnlyPushed(c: Config, s: State, x: Step)
    requires OnlyPushed(s) && OfWorker(x) && x.w < |s.workers|
    ensures OnlyPushed(WorkerStep(c, s, x))
  {
    if x.SaveStart? || x.Ack? {
      StartKeepsOnlyPushed(s, x.w);
    } else if x.Reserve? {
      ListsKeepOnlyPushed(s, x.w, "");
    } else if x.Move? {
      ListsKeepOnlyPushed(s, x.w, x.id);
    } else if !x.Recall? && !x.Rewrite? {
      if x.SaveGiveUp? || x.SaveBeat? || x.SaveFinal? { SaveIsQuiet(c, s, x); } else { OwnStep(c, s, x); }
      QuietKeeps(s, WorkerStep(c, s, x), x.w);
    }
  }

  lemma StepKeepsOnlyPushed(c: Config, s: State, x: Step)
    requires OnlyPushed(s)
    ensures OnlyPushed(Exec(c, s, x))
  {
    if OfWorker(x) && x.w < |s.workers| { WorkerKeepsOnlyPushed(c, s, x); }
  }

  lemma {:induction false} OnlyPushedIsBuilt(c: Config, s: State, steps: seq<Step>)
    requires OnlyPushed(s)
    ensures OnlyPushed(Run(c, s, steps))
    decreases |steps|
  {
    if steps != [] {
      StepKeepsOnlyPushed(c, s, steps[0]);
      OnlyPushedIsBuilt(c, Exec(c, s, steps[0]), steps[1..]);
    }
  }

  // ---- what this means -----------------------------------------------------

  /** Nothing is lost: at any moment of any run an id that was queued is waiting, held or
      acknowledged, exactly one of these, and an acknowledged job has ended. */
  lemma NothingIsLost(c: Config, steps: seq<Step>, id: Id)
    requires c.timed
    requires id in Run(c, INIT, steps).pushed
    ensures var s := Run(c, INIT, steps);
      && (id in s.queue.waiting <==> id !in s.queue.held && id !in s.acked)
      && (id in s.queue.held <==> id !in s.queue.waiting && id !in s.acked)
      && (id in s.acked && id in s.jobs ==> Terminal(s.jobs[id].status))
  {
    Reachable(c, steps);
    assert JobOk(c, Run(c, INIT, steps), id);
  }

  /** Fencing: the workers' saves of one record are ordered by reservation, so a worker whose job was
      reserved again never overwrites the newer holder, however long it stalls. */
  lemma SavesFollowReservations(c: Config, steps: seq<Step>, i: nat, j: nat)
    requires c.timed
    requires var s := Run(c, INIT, steps);
             i <= j < |s.saves| && s.saves[i].id == s.saves[j].id
    ensures var s := Run(c, INIT, steps);
            s.saves[i].epoch <= s.saves[j].epoch <= s.epochs[s.saves[j].id]
  {
    Reachable(c, steps);
  }

  /** Bounded attempts: a build is started at most maxAttempts times, whatever kills its workers;
      and every reservation but one is such a start, or was cut short by a crash or an error before
      it got as far as starting, so the reservations are bounded too. */
  lemma AttemptsAreBounded(c: Config, steps: seq<Step>, id: Id)
    requires c.timed
    ensures var s := Run(c, INIT, steps);
            && s.starts[id] <= c.maxAttempts
            && s.epochs[id] <= s.starts[id] + s.aborted[id] + 1
  {
    Reachable(c, steps);
    assert JobOk(c, Run(c, INIT, steps), id);
  }

  /** The reservation after the last allowed attempt is the one that gives up: if no reservation was
      cut short before its start, there are at most maxAttempts + 1 of them, and when there are that
      many, the job has been started at each of the first maxAttempts and not at the last, and once
      it is acknowledged its record is terminal with its attempts used up. */
  lemma LastReservationGivesUp(c: Config, steps: seq<Step>, id: Id)
    requires c.timed
    requires Run(c, INIT, steps).aborted[id] == 0
    ensures var s := Run(c, INIT, steps);
            && s.epochs[id] <= c.maxAttempts + 1
            && (s.epochs[id] == c.maxAttempts + 1 ==> s.starts[id] == c.maxAttempts)
            && (s.epochs[id] == c.maxAttempts + 1 && id in s.acked && id in s.jobs
                ==> Terminal(s.jobs[id].status) && s.jobs[id].attempts >= c.maxAttempts)
  {
    Reachable(c, steps);
    assert JobOk(c, Run(c, INIT, steps), id);
  }

  /** A run listed state by state. */
  lemma {:induction false} TraceIsRun(c: Config, states: seq<State>, steps: seq<Step>)
    requires |states| == |steps| + 1
    requires forall i :: 0 <= i < |steps| ==> states[i + 1] == Exec(c, states[i], steps[i])
    ensures Run(c, states[0], steps) == states[|steps|]
    decreases |steps|
  {
    if steps != [] {
      TraceIsRun(c, states[1..], steps[1..]);
    }
  }

  /** A worker that reserves a job with no attempts left, left alone, fails it and drops it. */
  lemma ExhaustedJobIsFailed(c: Config, s: State, w: nat, now: Time)
    requires w < |s.workers| && s.workers[w].Idle?
    requires s.queue.waiting != [] && s.queue.waiting[0] in s.jobs
    requires var job := s.jobs[s.queue.waiting[0]];
             !Terminal(job.status) && job.attempts >= c.maxAttempts
    ensures var id := s.queue.waiting[0];
            var t := Run(c, s, [Reserve(w), Load(w, now), SaveGiveUp(w), Ack(w)]);
            && t.jobs == s.jobs[id := GivenUp(s.jobs[id], c.maxAttempts, now)]
            && t.queue == Fifo.Queue(s.queue.waiting[1..], s.queue.held - {id})
            && w < |t.workers| && t.workers[w].Idle? && id in t.acked && t.starts == s.starts
  {
    var id := s.queue.waiting[0];
    AfterLastReserve(c, s, w, now);
    AfterGivingUp(c, Run(c, s, [Reserve(w), Load(w, now)]), w);
    RunAppend(c, s, [Reserve(w), Load(w, now)], [SaveGiveUp(w), Ack(w)]);
    assert [Reserve(w), Load(w, now)] + [SaveGiveUp(w), Ack(w)]
        == [Reserve(w), Load(w, now), SaveGiveUp(w), Ack(w)];
    assert s.queue.held[id := Some(w)] - {id} == s.queue.held - {id};
  }

  /** A worker that reserves a job with an attempt left, left alone, starts it and says so on its
      record. */
  lemma JobWithAttemptsLeftIsStarted(c: Config, s: State, w: nat, now: Time)
    requires w < |s.workers| && s.workers[w].Idle?
    requires s.queue.waiting != [] && s.queue.waiting[0] in s.jobs
    requires var job := s.jobs[s.queue.waiting[0]]; !Terminal(job.status) && job.attempts < c.maxAttempts
    ensures var id := s.queue.waiting[0];
            var t := Run(c, s, [Reserve(w), Load(w, now), SaveStart(w)]);
            && id in t.jobs && t.jobs == s.jobs[id := t.jobs[id]] && SameOrder(t.jobs[id], s.jobs[id])
            && t.jobs[id].attempts == s.jobs[id].attempts + 1 && t.jobs[id].status == RUNNING
            && t.jobs[id].heartbeatAt == Some(now) && t.starts[id] == s.starts[id] + 1
            && t.queue == Fifo.Queue(s.queue.waiting[1..], s.queue.held[id := Some(w)])
            && w < |t.workers| && t.workers[w].Building? && t.workers[w].id == id && t.workers[w].job == t.jobs[id]
  {
    var s1 := DoReserve(s, w);
    var s2 := DoLoad(c, s1, w, now);
    assert s1.jobs == s.jobs && s2.workers[w].Starting?;
    TraceIsRun(c, [s, s1, s2, DoSaveStart(s2, w)], [Reserve(w), Load(w, now), SaveStart(w)]);
  }

  /** A worker that reserves a job that has ended, or one without a record, drops it and leaves every
      record as it is. */
  lemma EndedJobIsDropped(c: Config, s: State, w: nat, now: Time)
    requires w < |s.workers| && s.workers[w].Idle? && s.queue.waiting != []
    requires s.queue.waiting[0] in s.jobs ==> Terminal(s.jobs[s.queue.waiting[0]].status)
    ensures var id := s.queue.waiting[0];
            var t := Run(c, s, [Reserve(w), Load(w, now), Ack(w)]);
            && t.jobs == s.jobs && t.starts == s.starts && id in t.acked
            && t.queue == Fifo.Queue(s.queue.waiting[1..], s.queue.held - {id})
            && w < |t.workers| && t.workers[w].Idle?
  {
    var s1 := DoReserve(s, w);
    var s2 := DoLoad(c, s1, w, now);
    assert s1.jobs == s.jobs && s2.workers[w].Acking?;
    TraceIsRun(c, [s, s1, s2, DoAck(s2, w)], [Reserve(w), Load(w, now), Ack(w)]);
    assert s.queue.held[s.queue.waiting[0] := Some(w)] - {s.queue.waiting[0]} == s.queue.held - {s.queue.waiting[0]};
  }

  lemma {:induction false} AfterLastReserve(c: Config, s: State, w: nat, now: Time)
    requires w < |s.workers| && s.workers[w].Idle?
    requires s.queue.waiting != [] && s.queue.waiting[0] in s.jobs
    requires var job := s.jobs[s.queue.waiting[0]];
             !Terminal(job.status) && job.attempts >= c.maxAttempts
    ensures var id := s.queue.waiting[0];
            var t := Run(c, s, [Reserve(w), Load(w, now)]);
            && t.queue == Fifo.Queue(s.queue.waiting[1..], s.queue.held[id := Some(w)])
            && t.jobs == s.jobs && t.starts == s.starts
            && t.workers == s.workers[w := GivingUp(id, s.epochs[id] + 1, GivenUp(s.jobs[id], c.maxAttempts, now))]
  {
    var s1 := DoReserve(s, w);
    TraceIsRun(c, [s, s1, DoLoad(c, s1, w, now)], [Reserve(w), Load(w, now)]);
  }

  lemma AfterGivingUp(c: Config, s: State, w: nat)
    requires w < |s.workers| && s.workers[w].GivingUp?
    ensures var p := s.workers[w];
            var t := Run(c, s, [SaveGiveUp(w), Ack(w)]);
            && t.jobs == s.jobs[p.id := p.job] && t.starts == s.starts && t.acked == s.acked + {p.id}
            && t.queue == Fifo.Queue(s.queue.waiting, s.queue.held - {p.id})
            && t.workers == s.workers[w := Idle]
  {
    var s1 := DoSaveGiveUp(s, w);
    TraceIsRun(c, [s, s1, DoAck(s1, w)], [SaveGiveUp(w), Ack(w)]);
  }

  /** A write that came too late for the job: of a recovery, or of a status poll. */
  predicate TooLate(c: Config, s: State, x: Step, id: Id) {
    && !c.timed && id in s.jobs
    && ((x.Rewrite? && x.w < |s.workers| && s.workers[x.w].Idle? && Overwrites(s, Recovery(x.w, x.id), id))
        || (x.Report? && Overwrites(s, StatusPoll(x.k), id)))
  }

  predicate Overwrites(s: State, who: Writer, id: Id)
    requires id in s.jobs
  {
    who in s.drafts && s.drafts[who].id == id && Written(who, s.drafts[who]) != s.jobs[id]
  }

  /** Once a job is acknowledged, two kinds of steps change its record, and no other: the rewrite of a
      recovery, and the write of a status poll, so slow that the job was finished in the meantime. */
  lemma AckedStepIsFinal(c: Config, s: State, x: Step, id: Id)
    requires Inv(c, s) && id in s.acked
    ensures id in Exec(c, s, x).acked
    ensures id in Exec(c, s, x).jobs <==> id in s.jobs
    ensures id in s.jobs ==> (Exec(c, s, x).jobs[id] != s.jobs[id] <==> TooLate(c, s, x, id))
  {
    if x.Rewrite? && x.w < |s.workers| {
      AckedLandIsFinal(c, s, Recovery(x.w, x.id), id);
    } else if x.Report? {
      AckedLandIsFinal(c, s, StatusPoll(x.k), id);
    } else if OfWorker(x) && x.w < |s.workers| {
      AckedWorkerStepIsFinal(c, s, x, id);
    } else {
      AckedOtherStepIsFinal(c, s, x, id);
    }
  }

  lemma AckedOtherStepIsFinal(c: Config, s: State, x: Step, id: Id)
    requires Placed(s) && id in s.acked && !x.Report? && (OfWorker(x) ==> x.w >= |s.workers|)
    ensures id in Exec(c, s, x).acked
    ensures id in Exec(c, s, x).jobs <==> id in s.jobs
    ensures id in s.jobs ==> Exec(c, s, x).jobs[id] == s.jobs[id]
  {
  }

  lemma AckedLandIsFinal(c: Config, s: State, who: Writer, id: Id)
    requires id in s.acked
    ensures id in Land(c, s, who).acked
    ensures id in Land(c, s, who).jobs <==> id in s.jobs
    ensures id in s.jobs ==> (Land(c, s, who).jobs[id] != s.jobs[id] <==> !c.timed && Overwrites(s, who, id))
  {
  }

  lemma AckedWorkerStepIsFinal(c: Config, s: State, x: Step, id: Id)
    requires Placed(s) && WorkersOk(c, s) && id in s.acked
    requires OfWorker(x) && !x.Rewrite? && x.w < |s.workers|
    ensures id in WorkerStep(c, s, x).acked
    ensures id in WorkerStep(c, s, x).jobs <==> id in s.jobs
    ensures id in s.jobs ==> WorkerStep(c, s, x).jobs[id] == s.jobs[id]
  {
    var p := s.workers[x.w];
    assert WorkerOk(c, s, x.w);
    if Critical(p) { assert Has(s, x.w, p.id); }
  }

  lemma {:induction false} StaysFinished(c: Config, s: State, steps: seq<Step>, id: Id)
    requires c.timed && Inv(c, s) && id in s.acked
    ensures id in Run(c, s, steps).acked
    ensures id in Run(c, s, steps).jobs <==> id in s.jobs
    ensures id in s.jobs ==> Run(c, s, steps).jobs[id] == s.jobs[id] && Terminal(s.jobs[id].status)
    decreases |steps|
  {
    assert JobOk(c, s, id);
    if steps != [] {
      AckedStepIsFinal(c, s, steps[0], id);
      StepKeeps(c, s, steps[0]);
      StaysFinished(c, Exec(c, s, steps[0]), steps[1..], id);
    }
  }

  /** Finished means finished: once a job is acknowledged, whatever workers, stalled workers, reapers
      and status polls do after that, its record is terminal and stays as it is, for ever. */
  lemma FinishedMeansFinished(c: Config, before: seq<Step>, after: seq<Step>, id: Id)
    requires c.timed && id in Run(c, INIT, before).acked
    ensures var (s, t) := (Run(c, INIT, before), Run(c, INIT, before + after));
      && id in t.acked && (id in t.jobs <==> id in s.jobs)
      && (id in s.jobs ==> t.jobs[id] == s.jobs[id] && Terminal(t.jobs[id].status))
  {
    Reachable(c, before);
    StaysFinished(c, Run(c, INIT, before), after, id);
    RunAppend(c, INIT, before, after);
  }

  /** Whether a job was paid for, is a preview, what it builds and when it was ordered is decided by the
      accept path alone: no worker, reaper or poll changes it. */
  ghost predicate SameOrder(a: BuildJob, b: BuildJob) {
    a.paid == b.paid && a.preview == b.preview && a.prd == b.prd && a.createdAt == b.createdAt
  }

  /** Copies carried by workers, and drafts, describe the same order as the record. */
  ghost predicate OrdersMatch(s: State) {
    && (forall w {:trigger s.workers[w]} :: 0 <= w < |s.workers| && Carries(s.workers[w]) ==>
          s.workers[w].id in s.jobs && SameOrder(s.workers[w].job, s.jobs[s.workers[w].id]))
    && (forall who :: who in s.drafts ==> s.drafts[who].id in s.jobs && SameOrder(s.drafts[who].read, s.jobs[s.drafts[who].id]))
  }

  /** From s to t no record is dropped or re-ordered, and only a creation adds one. */
  ghost predicate OrdersKept(s: State, t: State) {
    && OrdersMatch(t) && t.jobs.Keys == s.jobs.Keys
    && forall id :: id in s.jobs ==> SameOrder(t.jobs[id], s.jobs[id])
  }

  lemma SaveKeepsOrders(s: State, w: nat, next: Worker)
    requires OrdersMatch(s) && w < |s.workers|
    requires Carries(s.workers[w])
    requires next.Acking? || (next.Building? && next.id == s.workers[w].id && next.job == s.workers[w].job)
    ensures OrdersKept(s, SaveAs(s, w, s.workers[w].id, s.workers[w].epoch, s.workers[w].job, next))
  {
    var p := s.workers[w];
    assert p.id in s.jobs && SameOrder(p.job, s.jobs[p.id]);
  }

  lemma PhaseKeepsOrders(s: State, t: State, w: nat)
    requires OrdersMatch(s) && Phase(s, t, w)
    ensures OrdersKept(s, t)
  {
  }

  lemma OwnStepKeepsOrders(c: Config, s: State, x: Step)
    requires OrdersMatch(s)
    requires Own(x) || x.Reserve? || x.Ack? || x.Move?
    requires x.w < |s.workers|
    ensures OrdersKept(s, WorkerStep(c, s, x))
  {
    if Own(x) {
      OwnStep(c, s, x);
    } else {
      ListStep(s, x.w, if x.Move? then x.id else "");
    }
    PhaseKeepsOrders(s, WorkerStep(c, s, x), x.w);
  }

  lemma LandKeepsOrders(c: Config, s: State, who: Writer)
    requires OrdersMatch(s)
    ensures OrdersKept(s, Land(c, s, who))
  {
  }

  lemma DraftKeepsOrders(s: State, who: Writer, id: Id, now: Time, owed: set<(nat, Id)>)
    requires OrdersMatch(s) && id in s.jobs
    ensures OrdersKept(s, s.(drafts := s.drafts[who := Draft(id, s.jobs[id], now)], owed := owed))
    ensures OrdersKept(s, s.(drafts := s.drafts - {who}, owed := owed))
  {
  }

  lemma RecallKeepsOrders(s: State, w: nat, id: Id, now: Time)
    requires OrdersMatch(s)
    ensures w < |s.workers| ==> OrdersKept(s, DoRecall(s, w, id, now))
  {
    if w < |s.workers| && id in s.jobs { DraftKeepsOrders(s, Recovery(w, id), id, now, s.owed - {(w, id)}); }
  }

  lemma SaveStepKeepsOrders(c: Config, s: State, x: Step)
    requires OrdersMatch(s)
    requires x.SaveStart? || x.SaveGiveUp? || x.SaveBeat? || x.SaveFinal?
    requires x.w < |s.workers|
    ensures OrdersKept(s, WorkerStep(c, s, x))
  {
    var p := s.workers[x.w];
    if x.SaveStart? && p.Starting? {
      SaveKeepsOrders(s, x.w, Building(p.id, p.epoch, p.job, true, false));
    } else if x.SaveGiveUp? && p.GivingUp? {
      SaveKeepsOrders(s, x.w, Acking(p.id, p.epoch, false));
    } else if x.SaveBeat? && p.Building? {
      SaveKeepsOrders(s, x.w, p.(renewed := false));
    } else if x.SaveFinal? && p.Finishing? {
      SaveKeepsOrders(s, x.w, Acking(p.id, p.epoch, true));
    }
  }

  lemma CreateKeepsOrders(s: State, id: Id, job: BuildJob)
    requires OrdersMatch(s)
    ensures OrdersMatch(DoCreate(s, id, job))
    ensures DoCreate(s, id, job).jobs == s.jobs
         || (id !in s.jobs && DoCreate(s, id, job).jobs == s.jobs[id := job])
  {
  }

  lemma StepKeepsOrders(c: Config, s: State, x: Step)
    requires OrdersMatch(s)
    ensures OrdersMatch(Exec(c, s, x))
    ensures forall id :: id in s.jobs ==> id in Exec(c, s, x).jobs && SameOrder(Exec(c, s, x).jobs[id], s.jobs[id])
    ensures forall id :: id in Exec(c, s, x).jobs && id !in s.jobs ==> x == Create(id, Exec(c, s, x).jobs[id])
  {
    if x.Create? {
      CreateKeepsOrders(s, x.id, x.job);
    } else {
      OtherStepKeepsOrders(c, s, x);
    }
  }

  lemma OtherStepKeepsOrders(c: Config, s: State, x: Step)
    requires OrdersMatch(s) && !x.Create?
    ensures OrdersKept(s, Exec(c, s, x))
  {
    if x.Poll? {
      if x.id in s.jobs { DraftKeepsOrders(s, StatusPoll(x.k), x.id, x.now, s.owed); }
    } else if x.Report? {
      LandKeepsOrders(c, s, StatusPoll(x.k));
    } else if x.Rewrite? {
      LandKeepsOrders(c, s, Recovery(x.w, x.id));
    } else if x.Recall? {
      RecallKeepsOrders(s, x.w, x.id, x.now);
    } else if OfWorker(x) && x.w < |s.workers| {
      if x.SaveStart? || x.SaveGiveUp? || x.SaveBeat? || x.SaveFinal? {
        SaveStepKeepsOrders(c, s, x);
      } else {
        OwnStepKeepsOrders(c, s, x);
      }
    }
  }

  lemma {:induction false} OrdersNeverChange(c: Config, s: State, steps: seq<Step>)
    requires OrdersMatch(s)
    ensures OrdersMatch(Run(c, s, steps))
    ensures forall id :: id in s.jobs ==>
              id in Run(c, s, steps).jobs && SameOrder(Run(c, s, steps).jobs[id], s.jobs[id])
    decreases |steps|
  {
    if steps != [] {
      StepKeepsOrders(c, s, steps[0]);
      OrdersNeverChange(c, Exec(c, s, steps[0]), steps[1..]);
    }
  }
}
