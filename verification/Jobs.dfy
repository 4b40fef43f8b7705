/** The record of one build and the rules that read it, from src/service/jobs.py. */
module Jobs {
  import opened Options

  type Id = string
  type Time = int  // seconds

  datatype Status = QUEUED | RUNNING | SUCCEEDED | FAILED

  predicate Terminal(s: Status) { s.SUCCEEDED? || s.FAILED? }

  datatype Failure =
    | NoOutcome                               // build finished without reporting an outcome
    | Raised(text: string)                    // the build raised
    | Exhausted(abandoned: int, allowed: nat) // given up on
    | Stale                                   // no worker has reported on it
    | Reported(text: string)                  // set by the build itself

  datatype LogLine = Line(text: string) | Abandoned(attempt: nat)

  datatype BuildJob = BuildJob(
    status: Status,
    attempts: nat,
    paid: bool,
    preview: bool,
    prd: Option<string>,
    log: seq<LogLine>,
    failure: Option<Failure>,
    apk: Option<string>,
    createdAt: Time,
    finishedAt: Option<Time>,
    heartbeatAt: Option<Time>)

  /** A record as the accept paths write it. */
  function Accepted(prd: string, paid: bool, preview: bool, now: Time): BuildJob {
    BuildJob(QUEUED, 0, paid, preview, Some(prd), [], None, None, now, None, None)
  }

  const STALE_AFTER: Time := 30 * 60

  function LastSeen(job: BuildJob): Time {
    if job.heartbeatAt.Some? then job.heartbeatAt.value else job.createdAt
  }

  /** What reap_stale makes of a record. */
  function Reaped(job: BuildJob, now: Time): BuildJob {
    if Terminal(job.status) || now - LastSeen(job) <= STALE_AFTER then job
    else job.(status := FAILED, failure := Some(Stale), finishedAt := Some(now))
  }

  /** What recover_abandoned writes on a record, whatever its status. */
  function Requeued(job: BuildJob, now: Time): BuildJob {
    job.(status := QUEUED, heartbeatAt := Some(now), log := job.log + [Abandoned(job.attempts)])
  }

  /** What run_once makes of a record it just reserved. */
  function Started(job: BuildJob, now: Time): BuildJob {
    job.(attempts := job.attempts + 1, status := RUNNING, heartbeatAt := Some(now))
  }

  function GivenUp(job: BuildJob, maxAttempts: nat, now: Time): BuildJob {
    job.(attempts := job.attempts + 1, status := FAILED, failure := Some(Exhausted(job.attempts, maxAttempts)),
         finishedAt := Some(now), heartbeatAt := Some(now))
  }

  /** The fields a build may set on the job it is handed; it never leaves it queued. */
  datatype Progress = Progress(status: Status, log: seq<LogLine>, failure: Option<Failure>,
                               apk: Option<string>, finishedAt: Option<Time>)

  function Worked(job: BuildJob, x: Progress): BuildJob {
    job.(status := x.status, log := x.log, failure := x.failure, apk := x.apk, finishedAt := x.finishedAt)
  }

  /** How the build thread ends: with the exception it raised, or by returning. */
  function Ended(job: BuildJob, raised: Option<string>): BuildJob {
    if raised.Some? then job.(status := FAILED, failure := Some(Raised(raised.value)))
    else if job.status.RUNNING? then job.(status := FAILED, failure := Some(NoOutcome))
    else job
  }

  /** The last write of _execute. */
  function Finished(job: BuildJob, now: Time): BuildJob {
    var at := if job.finishedAt.None? then now else job.finishedAt.value;
    job.(finishedAt := Some(at), heartbeatAt := Some(at))
  }

  // ---- runs ----------------------------------------------------------------

  /** A record after status polls at these times, each of which reaps it if it is stale. */
  function Polled(job: BuildJob, times: seq<Time>): BuildJob
    decreases |times|
  {
    if times == [] then job else Polled(Reaped(job, times[0]), times[1..])
  }

  lemma {:induction false} TerminalIsNotReaped(job: BuildJob, times: seq<Time>)
    requires Terminal(job.status)
    ensures Polled(job, times) == job
    decreases |times|
  {
    if times != [] { TerminalIsNotReaped(job, times[1..]); }
  }

  lemma {:induction false} PollsFindItAlive(job: BuildJob, times: seq<Time>)
    requires !Terminal(job.status)
    ensures Polled(job, times) == job <==> forall i :: 0 <= i < |times| ==> times[i] - LastSeen(job) <= STALE_AFTER
    decreases |times|
  {
    if times != [] {
      if times[0] - LastSeen(job) <= STALE_AFTER {
        PollsFindItAlive(job, times[1..]);
        assert forall i :: 0 < i < |times| ==> times[i] == times[1..][i - 1];
        assert forall i :: 0 <= i < |times| - 1 ==> times[1..][i] == times[i + 1];
      } else {
        TerminalIsNotReaped(Reaped(job, times[0]), times[1..]);
      }
    }
  }

  /** A requeued build that waits its turn survives any number of status polls, however long it had
      been silent before it was requeued, exactly as long as none of them comes more than half an hour
      after that. */
  lemma RequeueOutlastsPolls(job: BuildJob, at: Time, times: seq<Time>)
    ensures Polled(Requeued(job, at), times) == Requeued(job, at)
            <==> forall i :: 0 <= i < |times| ==> times[i] - at <= 30 * 60
  {
    PollsFindItAlive(Requeued(job, at), times);
  }

  /** The job after the build thread has written to it any number of times. */
  function AllWorked(job: BuildJob, progress: seq<Progress>): BuildJob {
    if progress == [] then job
    else Worked(AllWorked(job, progress[..|progress| - 1]), progress[|progress| - 1])
  }

  lemma {:induction false} WorkKeepsTheOrder(job: BuildJob, progress: seq<Progress>)
    ensures var done := AllWorked(job, progress);
            && done.attempts == job.attempts && done.paid == job.paid && done.preview == job.preview && done.prd == job.prd
            && (progress == [] ==> done == job)
            && (progress != [] ==> done.status == progress[|progress| - 1].status
                                   && done.failure == progress[|progress| - 1].failure)
  {
    if progress != [] { WorkKeepsTheOrder(job, progress[..|progress| - 1]); }
  }

  /** However the build thread has written to a started job, and however it ends, the record is
      terminal, with the attempt it was started as, and has succeeded exactly if the thread's last word
      was that it did and nothing was raised; and it says why it failed. */
  lemma BuildEndsTerminal(job: BuildJob, progress: seq<Progress>, raised: Option<string>, now: Time)
    requires job.status == RUNNING && forall i :: 0 <= i < |progress| ==> progress[i].status != QUEUED
    ensures var done := Finished(Ended(AllWorked(job, progress), raised), now);
            && Terminal(done.status) && done.attempts == job.attempts && done.finishedAt.Some?
            && (done.status == SUCCEEDED <==>
                  raised.None? && progress != [] && progress[|progress| - 1].status == SUCCEEDED)
            && done.failure == if raised.Some? then Some(Raised(raised.value))
                               else if progress == [] || progress[|progress| - 1].status == RUNNING then Some(NoOutcome)
                               else progress[|progress| - 1].failure
  {
    WorkKeepsTheOrder(job, progress);
  }
}
