/** When a record is final: exactly when its job has been acknowledged. */
module Finality {
  import opened Options
  import opened Jobs
  import opened BuildProtocol
  import opened BuildSafety
  import Fifo = LeasedFifo

  /** No continuation changes the record. */
  ghost predicate Final(c: Config, s: State, id: Id) {
    forall steps: seq<Step> :: id in Run(c, s, steps).jobs && id in s.jobs && Run(c, s, steps).jobs[id] == s.jobs[id]
  }

  /** Some continuation puts the record back to queued. */
  ghost predicate Undone(c: Config, s: State, id: Id, steps: seq<Step>) {
    id in s.jobs && id in Run(c, s, steps).jobs && Run(c, s, steps).jobs[id] == Requeued(s.jobs[id], 0)
  }

  lemma TwoSteps(c: Config, s: State, x: Step, y: Step)
    ensures Run(c, s, [x, y]) == Exec(c, Exec(c, s, x), y)
  {
    TraceIsRun(c, [s, Exec(c, s, x), Exec(c, Exec(c, s, x), y)], [x, y]);
  }

  lemma ThreeSteps(c: Config, s: State, x: Step, y: Step, z: Step)
    ensures Run(c, s, [x, y, z]) == Exec(c, Exec(c, Exec(c, s, x), y), z)
  {
    var s1 := Exec(c, s, x);
    var s2 := Exec(c, s1, y);
    TraceIsRun(c, [s, s1, s2, Exec(c, s2, z)], [x, y, z]);
  }

  /** Worker w moves an id back and rewrites its record at once. */
  function Recovering(w: nat, id: Id, now: Time): seq<Step> { [Move(w, id), Recall(w, id, now), Rewrite(w, id)] }

  lemma Recovers(c: Config, s: State, w: nat, id: Id, now: Time)
    requires w < |s.workers| && s.workers[w].Idle? && Fifo.Lapsed(s.queue, id) && id !in s.acked
    ensures var t := Run(c, s, Recovering(w, id, now));
      && t.workers == s.workers && t.queue == Fifo.Requeue(s.queue, id) && t.epochs == s.epochs && t.acked == s.acked
      && t.jobs == (if id in s.jobs then s.jobs[id := Requeued(s.jobs[id], now)] else s.jobs)
      && t.saves == s.saves && t.starts == s.starts
  {
    ThreeSteps(c, s, Move(w, id), Recall(w, id, now), Rewrite(w, id));
    var s1 := DoMove(s, w, id);
    assert id !in s1.queue.held && (w, id) in s1.owed;
    var s2 := DoRecall(s1, w, id, now);
    assert Unfinished(s2, id);
    if id in s.jobs { assert InTime(s2, Draft(id, s.jobs[id], now)); }
    assert Exec(c, s2, Rewrite(w, id)) == DoRewrite(c, s2, w, id);
  }

  lemma UndoLapsed(c: Config, s: State, w: nat, id: Id)
    requires id in s.jobs && id !in s.acked && Fifo.Lapsed(s.queue, id) && w < |s.workers| && s.workers[w].Idle?
    ensures Undone(c, s, id, Recovering(w, id, 0))
  {
    Recovers(c, s, w, id, 0);
  }

  /** A new worker recovers a job whose holder is out of the way. */
  lemma UndoLapsing(c: Config, s: State, id: Id)
    requires id in s.jobs && id !in s.acked && id in s.queue.held && !Protected(s, id)
    ensures Undone(c, s, id, [Lapse(id), Join] + Recovering(|s.workers|, id, 0))
  {
    TwoSteps(c, s, Lapse(id), Join);
    var t := Run(c, s, [Lapse(id), Join]);
    assert Fifo.Lapsed(t.queue, id) && t.workers == s.workers + [Idle] && t.jobs == s.jobs && t.acked == s.acked;
    UndoLapsed(c, t, |s.workers|, id);
    RunAppend(c, s, [Lapse(id), Join], Recovering(|s.workers|, id, 0));
  }

  /** The holder dies first. */
  lemma UndoHeld(c: Config, s: State, id: Id) returns (steps: seq<Step>)
    requires id in s.jobs && id !in s.acked && id in s.queue.held
    requires s.queue.held[id].Some? ==> s.queue.held[id].value < |s.workers|
    ensures Undone(c, s, id, steps)
  {
    var rest := [Lapse(id), Join] + Recovering(|s.workers|, id, 0);
    if s.queue.held[id].Some? {
      var w := s.queue.held[id].value;
      var t := DoCrash(s, w);
      UndoLapsing(c, t, id);
      TraceIsRun(c, [s, t], [Crash(w)]);
      RunAppend(c, s, [Crash(w)], rest);
      return [Crash(w)] + rest;
    }
    UndoLapsing(c, s, id);
    return rest;
  }

  /** New workers take the ids in front, and then this one. */
  lemma {:induction false} UndoWaiting(c: Config, s: State, id: Id) returns (steps: seq<Step>)
    requires id in s.jobs && id !in s.acked && id in s.queue.waiting
    ensures Undone(c, s, id, steps)
    decreases |s.queue.waiting|
  {
    var w := |s.workers|;
    TwoSteps(c, s, Join, Reserve(w));
    var t := Run(c, s, [Join, Reserve(w)]);
    assert t == DoReserve(Exec(c, s, Join), w);
    assert t.jobs == s.jobs && t.acked == s.acked && t.queue == Fifo.Reserve(s.queue, w) && |t.workers| == w + 1;
    var rest;
    if s.queue.waiting[0] == id {
      rest := UndoHeld(c, t, id);
    } else {
      assert s.queue.waiting == [s.queue.waiting[0]] + t.queue.waiting;
      rest := UndoWaiting(c, t, id);
    }
    RunAppend(c, s, [Join, Reserve(w)], rest);
    return [Join, Reserve(w)] + rest;
  }

  /** Whatever its status says, a record that was not acknowledged can still go back to queued. */
  lemma NotAcknowledgedCanBeUndone(c: Config, s: State, id: Id) returns (steps: seq<Step>)
    requires Inv(c, s) && id in s.jobs && id !in s.acked
    ensures Undone(c, s, id, steps)
  {
    if id in s.queue.held {
      if s.queue.held[id].Some? { assert Has(s, s.queue.held[id].value, id); }
      steps := UndoHeld(c, s, id);
    } else if id in s.queue.waiting {
      steps := UndoWaiting(c, s, id);
    } else {
      var t := DoEnqueue(s, id);
      assert t.queue.waiting == s.queue.waiting + [id];
      TraceIsRun(c, [s, t], [Enqueue(id)]);
      var rest := UndoWaiting(c, t, id);
      RunAppend(c, s, [Enqueue(id)], rest);
      steps := [Enqueue(id)] + rest;
    }
  }

  /** A record is final exactly when its job has been acknowledged. */
  lemma FinalMeansAcknowledged(c: Config, s: State, id: Id)
    requires c.timed && Inv(c, s) && id in s.jobs
    ensures Final(c, s, id) <==> id in s.acked
  {
    if id in s.acked {
      forall steps: seq<Step> ensures id in Run(c, s, steps).jobs && Run(c, s, steps).jobs[id] == s.jobs[id] {
        StaysFinished(c, s, steps, id);
      }
    } else {
      var steps := NotAcknowledgedCanBeUndone(c, s, id);
      assert |Requeued(s.jobs[id], 0).log| == |s.jobs[id].log| + 1;
      assert Run(c, s, steps).jobs[id] != s.jobs[id];
    }
  }
}
