/** What a lease that lapses too early costs: exactly when a lapse can lead to a job in two places, an
    attempt too many or a save out of order. */
module Fencing {
  import opened Options
  import opened Jobs
  import opened BuildProtocol
  import opened BuildSafety
  import opened Finality
  import Fifo = LeasedFifo

  /** Placement, the bounds on attempts and the order of saves; who believes to have which lease does
      not come into it. */
  ghost predicate Unharmed(c: Config, s: State) { Placed(s) && JobsOk(c, s) && Fenced(s) }

  ghost predicate Harms(c: Config, s: State, steps: seq<Step>) { !Unharmed(c, Run(c, s, steps)) }

  /** No continuation does any harm. */
  ghost predicate Harmless(c: Config, s: State) { forall steps: seq<Step> :: Unharmed(c, Run(c, s, steps)) }

  lemma HarmsLater(c: Config, s: State, a: seq<Step>, b: seq<Step>)
    requires Harms(c, Run(c, s, a), b)
    ensures Harms(c, s, a + b)
  {
    RunAppend(c, s, a, b);
  }

  lemma OneStep(c: Config, s: State, x: Step)
    ensures Run(c, s, [x]) == Exec(c, s, x)
  {
    TraceIsRun(c, [s, Exec(c, s, x)], [x]);
  }

  // ---- an acknowledgement of a job that waits again ------------------------

  lemma AckHarms(c: Config, s: State, w: nat)
    requires w < |s.workers| && s.workers[w].Acking? && s.workers[w].id in s.queue.waiting
    ensures Harms(c, s, [Ack(w)])
  {
    OneStep(c, s, Ack(w));
    var id := s.workers[w].id;
    assert id in DoAck(s, w).queue.waiting && id in DoAck(s, w).acked;
  }

  lemma LastSaveHarms(c: Config, s: State, w: nat) returns (steps: seq<Step>)
    requires w < |s.workers| && (s.workers[w].GivingUp? || s.workers[w].Finishing?)
    requires s.workers[w].id in s.queue.waiting
    ensures Harms(c, s, steps)
  {
    var x := if s.workers[w].GivingUp? then SaveGiveUp(w) else SaveFinal(w);
    OneStep(c, s, x);
    AckHarms(c, Exec(c, s, x), w);
    HarmsLater(c, s, [x], [Ack(w)]);
    return [x] + [Ack(w)];
  }

  // ---- a save by a worker that was overtaken -------------------------------

  /** From s to t others have acted, and only taken jobs. */
  ghost predicate OnlyTaken(s: State, t: State) {
    && t.jobs == s.jobs && t.saves == s.saves && |s.workers| <= |t.workers|
    && forall w :: 0 <= w < |s.workers| ==> t.workers[w] == s.workers[w]
  }

  /** New workers take the ids in front, and then this one. */
  lemma {:induction false} TakeInTurn(c: Config, s: State, id: Id) returns (steps: seq<Step>, v: nat)
    requires id in s.queue.waiting
    ensures var t := Run(c, s, steps);
      && OnlyTaken(s, t) && |s.workers| <= v < |t.workers| && t.workers[v] == Taken(id, s.epochs[id] + 1)
    decreases |s.queue.waiting|
  {
    v := |s.workers|;
    TwoSteps(c, s, Join, Reserve(v));
    var t := Run(c, s, [Join, Reserve(v)]);
    assert t == DoReserve(Exec(c, s, Join), v);
    assert OnlyTaken(s, t) && t.queue == Fifo.Reserve(s.queue, v);
    if s.queue.waiting[0] == id { return [Join, Reserve(v)], v; }
    assert s.queue.waiting == [s.queue.waiting[0]] + t.queue.waiting;
    var rest;
    rest, v := TakeInTurn(c, t, id);
    RunAppend(c, s, [Join, Reserve(|s.workers|)], rest);
    steps := [Join, Reserve(|s.workers|)] + rest;
  }

  /** A worker that has just taken a queued job saves its record, started or given up. */
  lemma TakenIsSaved(c: Config, s: State, v: nat) returns (steps: seq<Step>)
    requires v < |s.workers| && s.workers[v].Taken?
    requires s.workers[v].id in s.jobs && s.jobs[s.workers[v].id].status.QUEUED?
    ensures var t := Run(c, s, steps);
      && t.saves == s.saves + [Save(s.workers[v].id, s.workers[v].epoch)] && |t.workers| == |s.workers|
      && forall w :: 0 <= w < |s.workers| && w != v ==> t.workers[w] == s.workers[w]
  {
    var s1 := DoLoad(c, s, v, 0);
    var x := if s1.workers[v].Starting? then SaveStart(v) else SaveGiveUp(v);
    assert s1.workers[v].Starting? || s1.workers[v].GivingUp?;
    TwoSteps(c, s, Load(v, 0), x);
    steps := [Load(v, 0), x];
  }

  lemma LateSaveHarms(c: Config, s: State, w: nat, epoch: nat) returns (x: Step)
    requires w < |s.workers| && (s.workers[w].Starting? || (s.workers[w].Building? && s.workers[w].renewed))
    requires s.saves != [] && s.saves[|s.saves| - 1] == Save(s.workers[w].id, epoch) && s.workers[w].epoch < epoch
    ensures Harms(c, s, [x])
  {
    x := if s.workers[w].Starting? then SaveStart(w) else SaveBeat(w);
    OneStep(c, s, x);
    var (t, n) := (Exec(c, s, x), |s.saves|);
    assert t.saves == s.saves + [Save(s.workers[w].id, s.workers[w].epoch)];
    assert t.saves[n - 1].id == t.saves[n].id && t.saves[n - 1].epoch > t.saves[n].epoch;
  }

  /** A new worker takes a queued job and saves it, and then the save of its old holder arrives. */
  lemma OvertakenHarms(c: Config, s: State, w: nat) returns (steps: seq<Step>)
    requires w < |s.workers| && (s.workers[w].Starting? || (s.workers[w].Building? && s.workers[w].renewed))
    requires s.workers[w].id in s.queue.waiting && s.workers[w].epoch <= s.epochs[s.workers[w].id]
    requires s.workers[w].id in s.jobs && s.jobs[s.workers[w].id].status.QUEUED?
    ensures Harms(c, s, steps)
  {
    var taking, v := TakeInTurn(c, s, s.workers[w].id);
    var t := Run(c, s, taking);
    assert t.workers[w] == s.workers[w];
    var saving := TakenIsSaved(c, t, v);
    var u := Run(c, t, saving);
    assert u.workers[w] == s.workers[w];
    var x := LateSaveHarms(c, u, w, s.epochs[s.workers[w].id] + 1);
    HarmsLater(c, t, saving, [x]);
    HarmsLater(c, s, taking, saving + [x]);
    return taking + (saving + [x]);
  }

  // ---- a lapse at the wrong moment -----------------------------------------

  /** The job is back in the queue, its record is queued again if there is one, and worker w, who had it,
      is about to save or acknowledge. */
  ghost predicate Overtaken(s: State, w: nat) {
    && w < |s.workers| && Critical(s.workers[w])
    && var (p, id) := (s.workers[w], s.workers[w].id);
    && id in s.queue.waiting && p.epoch <= s.epochs[id]
    && (id in s.jobs ==> s.jobs[id].status.QUEUED?)
    && (p.Starting? || p.Building? ==> id in s.jobs)
  }

  lemma OvertakenDoesHarm(c: Config, s: State, w: nat) returns (steps: seq<Step>)
    requires Overtaken(s, w)
    ensures Harms(c, s, steps)
  {
    var p := s.workers[w];
    if p.Taken? {
      OneStep(c, s, Load(w, 0));
      var t := DoLoad(c, s, w, 0);
      var rest := PastLoading(c, t, w);
      HarmsLater(c, s, [Load(w, 0)], rest);
      return [Load(w, 0)] + rest;
    }
    steps := PastLoading(c, s, w);
  }

  lemma PastLoading(c: Config, s: State, w: nat) returns (steps: seq<Step>)
    requires Overtaken(s, w) && !s.workers[w].Taken?
    ensures Harms(c, s, steps)
  {
    var p := s.workers[w];
    if p.Acking? {
      AckHarms(c, s, w);
      steps := [Ack(w)];
    } else if p.GivingUp? || p.Finishing? {
      steps := LastSaveHarms(c, s, w);
    } else {
      steps := OvertakenHarms(c, s, w);
    }
  }

  /** Another worker recovers the job, and then its holder goes on. */
  lemma LapseHarms(c: Config, s: State, id: Id) returns (steps: seq<Step>)
    requires Inv(c, s) && Protected(s, id)
    ensures Harms(c, s.(queue := Fifo.Lapse(s.queue, id)), steps)
  {
    var (w, n, t) := (s.queue.held[id].value, |s.workers|, s.(queue := Fifo.Lapse(s.queue, id)));
    assert WorkerOk(c, s, w) && Has(s, w, id);
    OneStep(c, t, Join);
    var u := Run(c, t, [Join]);
    Recovers(c, u, n, id, 0);
    assert id in Fifo.Requeue(u.queue, id).waiting;
    assert Overtaken(Run(c, u, Recovering(n, id, 0)), w);
    var rest := OvertakenDoesHarm(c, Run(c, u, Recovering(n, id, 0)), w);
    HarmsLater(c, u, Recovering(n, id, 0), rest);
    HarmsLater(c, t, [Join], Recovering(n, id, 0) + rest);
    return [Join] + (Recovering(n, id, 0) + rest);
  }

  lemma LapseIsHarmless(c: Config, s: State, id: Id)
    requires c.timed && Inv(c, s) && !Protected(s, id)
    ensures Harmless(c, s.(queue := Fifo.Lapse(s.queue, id)))
  {
    var t := s.(queue := Fifo.Lapse(s.queue, id));
    LapsingKeepsUnprotected(c, s, id);
    forall steps: seq<Step> ensures Unharmed(c, Run(c, t, steps)) {
      RunKeeps(c, t, steps);
    }
  }

  /** The timing hypothesis asks no more of leases than it needs: a lapse keeps the invariant, and does
      no harm in any continuation, exactly if its owner is not between a reserve or a successful renew
      and the save or acknowledgement after it. Otherwise there is harm even if every lease lapses in
      time from then on. */
  lemma LapsingIsSafeWhen(c: Config, s: State, id: Id)
    requires Inv(c, s)
    ensures Inv(c, s.(queue := Fifo.Lapse(s.queue, id))) <==> !Protected(s, id)
    ensures Harmless(c, s.(queue := Fifo.Lapse(s.queue, id))) ==> !Protected(s, id)
    ensures c.timed && !Protected(s, id) ==> Harmless(c, s.(queue := Fifo.Lapse(s.queue, id)))
  {
    if Protected(s, id) {
      var (t, w) := (s.(queue := Fifo.Lapse(s.queue, id)), s.queue.held[id].value);
      assert !Has(t, w, id) && !WorkerOk(c, t, w);
      var steps := LapseHarms(c, s, id);
      assert !Unharmed(c, Run(c, t, steps));
    } else {
      LapsingKeepsUnprotected(c, s, id);
      if c.timed { LapseIsHarmless(c, s, id); }
    }
  }
}
