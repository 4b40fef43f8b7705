/** What building a job means: `build_work` of src/service/app.py around the graph. An APK comes out
    for a paid job only, whatever the buyer wrote in the document. */
module PackagingGate {
  import opened Options
  import opened Jobs
  import Loop = RepairLoop

  datatype Refusal = NotPaid | PaidAndPreview | NoDocument

  /** build_work's checks before anything is built. */
  function Refused(job: BuildJob): Option<Refusal> {
    if !job.paid && !job.preview then Some(NotPaid)
    else if job.paid && job.preview then Some(PaidAndPreview)
    else if job.prd.None? || job.prd.value == "" then Some(NoDocument)
    else None
  }

  /** The document the graph runs, with payment decided by the server: whatever flag the buyer's own
      document carries is replaced. */
  datatype Document = Document(body: string, paymentVerified: bool)

  function VerifiedPrd(sent: Document): Document { sent.(paymentVerified := true) }

  function PreviewPrd(sent: Document): Document { sent.(paymentVerified := false) }

  function Submitted(job: BuildJob, sent: Document): Document {
    if job.preview then PreviewPrd(sent) else VerifiedPrd(sent)
  }

  /** A record is built for exactly one of two reasons, and with a document; and whatever the buyer wrote
      in that document, the graph is told that it is paid for if and only if the record is. */
  lemma ServerDecidesPayment(job: BuildJob, sent: Document)
    ensures Refused(job).None? <==> job.paid != job.preview && job.prd.Some? && job.prd.value != ""
    ensures Refused(job).None? ==> Submitted(job, sent) == Document(sent.body, job.paid)
  {
  }

  /** The graph on this job's document, from whatever is in its build directory. */
  ghost function Final(job: BuildJob, sent: Document, disk: Loop.Files, maxRepairs: nat, answers: seq<Loop.Answer>): Loop.State {
    Loop.Run(maxRepairs, Loop.Initial(Submitted(job, sent).paymentVerified, disk), answers)
  }

  /** What the build writes on the job when the graph has ended. */
  function Reported(job: BuildJob, final: Loop.State, now: Time): BuildJob {
    var ended :=
      if final.round.failed then job.(status := FAILED, failure := Some(Failure.Reported("build failed")))
      else if final.round.diagnostics != [] then job.(status := FAILED, failure := Some(Failure.Reported("unresolved diagnostics")))
      else job.(status := SUCCEEDED, apk := final.apk);
    var checked :=
      if ended.preview && ended.apk.Some?
      then ended.(apk := None, status := FAILED, failure := Some(Failure.Reported("packaging gate did not hold")))
      else ended;
    checked.(finishedAt := Some(now))
  }

  lemma ExecKeepsGate(maxRepairs: nat, s: Loop.State, a: Loop.Answer)
    ensures Loop.Exec(maxRepairs, s, a).verified == s.verified
    ensures s.apk.None? && (s.node.Package? ==> !s.verified) ==> Loop.Exec(maxRepairs, s, a).apk.None?
    ensures s.apk.None? && !s.node.Package? ==> Loop.Exec(maxRepairs, s, a).apk.None?
  {
  }

  /** The gate: an unverified run ends without an APK, whatever its tools answer. */
  lemma {:induction false} UnverifiedBuildsNothing(maxRepairs: nat, s: Loop.State, answers: seq<Loop.Answer>)
    requires !s.verified && s.apk.None?
    ensures Loop.Run(maxRepairs, s, answers).apk.None?
    decreases |answers|
  {
    if answers != [] {
      ExecKeepsGate(maxRepairs, s, answers[0]);
      UnverifiedBuildsNothing(maxRepairs, Loop.Exec(maxRepairs, s, answers[0]), answers[1..]);
    }
  }

  /** No APK without payment: of a job that is built at all, the graph yields an APK only if the accept
      path marked it paid, and only then does the record get one; a preview's last check on its own
      result therefore never fires. */
  lemma NoApkWithoutPayment(job: BuildJob, sent: Document, disk: Loop.Files, maxRepairs: nat,
                            answers: seq<Loop.Answer>, now: Time)
    requires Refused(job).None?
    ensures var final := Final(job, sent, disk, maxRepairs, answers);
      && (final.apk.Some? ==> job.paid && !job.preview)
      && (Reported(job, final, now).apk.Some? ==> job.paid && !job.preview)
  {
    if job.preview {
      UnverifiedBuildsNothing(maxRepairs, Loop.Initial(false, disk), answers);
    }
  }

  /** The graph's end, read off its state: it packaged, or it did not get that far. */
  ghost predicate EndOk(s: Loop.State) {
    && (s.node.End? && s.runs.package == 0 ==> s.round.failed || s.round.diagnostics != [])
    && (s.node.End? && s.runs.package > 0 ==> s.round.diagnostics == [])
    && (s.node.Package? ==> s.round.diagnostics == [])
    && (!s.node.End? ==> s.runs.package == 0)
  }

  lemma ExecKeepsEnd(maxRepairs: nat, s: Loop.State, a: Loop.Answer)
    requires EndOk(s)
    ensures EndOk(Loop.Exec(maxRepairs, s, a))
  {
    if s.node.Qa? { Loop.RouteSpends(maxRepairs, s, a.qa); }
  }

  lemma {:induction false} RunKeepsEnd(maxRepairs: nat, s: Loop.State, answers: seq<Loop.Answer>)
    requires EndOk(s)
    ensures EndOk(Loop.Run(maxRepairs, s, answers))
    decreases |answers|
  {
    if answers != [] {
      ExecKeepsEnd(maxRepairs, s, answers[0]);
      RunKeepsEnd(maxRepairs, Loop.Exec(maxRepairs, s, answers[0]), answers[1..]);
    }
  }

  /** Success is earned: given enough answers for the graph to end, the job is reported as succeeded
      exactly when the graph reached packaging and packaging did not fail, and as failed otherwise. */
  lemma SucceededMeansPackaged(job: BuildJob, sent: Document, disk: Loop.Files, maxRepairs: nat,
                               answers: seq<Loop.Answer>, now: Time)
    requires Refused(job).None? && |answers| >= 3 * maxRepairs + 5
    ensures var final := Final(job, sent, disk, maxRepairs, answers);
            var done := Reported(job, final, now);
      && final.node.End?
      && (done.status == SUCCEEDED <==> final.runs.package == 1 && !final.round.failed)
      && (done.status == SUCCEEDED || done.status == FAILED)
  {
    var verified := Submitted(job, sent).paymentVerified;
    Loop.BuildsEnd(maxRepairs, verified, disk, answers);
    Loop.BudgetHolds(maxRepairs, verified, disk, answers);
    RunKeepsEnd(maxRepairs, Loop.Initial(verified, disk), answers);
    if job.preview { UnverifiedBuildsNothing(maxRepairs, Loop.Initial(false, disk), answers); }
  }

  /** The graph packaged at this answer. */
  ghost predicate PackagedAt(maxRepairs: nat, s: Loop.State, answers: seq<Loop.Answer>, n: nat) {
    n < |answers| && Loop.Run(maxRepairs, s, answers[..n]).node.Package?
  }

  lemma {:induction false} NothingAfterTheEnd(maxRepairs: nat, s: Loop.State, answers: seq<Loop.Answer>)
    requires s.node.End?
    ensures Loop.Run(maxRepairs, s, answers) == s
    decreases |answers|
  {
    if answers != [] { NothingAfterTheEnd(maxRepairs, s, answers[1..]); }
  }

  /** A run that has packaged did so at one of its answers, and what it ends with is what the packaging
      tool answered there, if payment was verified. */
  lemma {:induction false} PackagedWith(maxRepairs: nat, s: Loop.State, answers: seq<Loop.Answer>) returns (n: nat)
    requires EndOk(s) && !s.node.End?
    requires Loop.Run(maxRepairs, s, answers).runs.package > 0
    ensures PackagedAt(maxRepairs, s, answers, n)
    ensures var t := Loop.Run(maxRepairs, s, answers);
      s.verified ==> t.apk == answers[n].apk && t.round.failed == answers[n].packagingFailed
    decreases |answers|
  {
    var next := Loop.Exec(maxRepairs, s, answers[0]);
    assert Loop.Run(maxRepairs, s, answers[..0]) == s;
    if s.node.Package? {
      NothingAfterTheEnd(maxRepairs, next, answers[1..]);
      return 0;
    }
    ExecKeepsEnd(maxRepairs, s, answers[0]);
    ExecKeepsGate(maxRepairs, s, answers[0]);
    if next.node.End? {
      NothingAfterTheEnd(maxRepairs, next, answers[1..]);
      OnlyPackagingPackages(maxRepairs, s, answers[0]);
      assert false;
    }
    var k := PackagedWith(maxRepairs, next, answers[1..]);
    n := k + 1;
    assert answers[..n][1..] == answers[1..][..k];
  }

  lemma OnlyPackagingPackages(maxRepairs: nat, s: Loop.State, a: Loop.Answer)
    requires !s.node.Package?
    ensures Loop.Exec(maxRepairs, s, a).runs.package == s.runs.package
  {
  }

  /** What the record of a build says in the end. A preview succeeded exactly if the graph packaged, and
      has no APK; a paid job succeeded exactly if it packaged and the packaging tool did not fail, and
      then has exactly the APK the tool answered; and a job that failed is given none. */
  lemma SucceededWithTheApk(job: BuildJob, sent: Document, disk: Loop.Files, maxRepairs: nat,
                            answers: seq<Loop.Answer>, now: Time) returns (n: nat)
    requires Refused(job).None? && |answers| >= 3 * maxRepairs + 5
    ensures var final := Final(job, sent, disk, maxRepairs, answers);
            var done := Reported(job, final, now);
      && (final.runs.package == 1 ==> PackagedAt(maxRepairs, Loop.Initial(job.paid, disk), answers, n))
      && (job.preview ==> done.apk == None && (done.status == SUCCEEDED <==> final.runs.package == 1))
      && (job.paid ==> (done.status == SUCCEEDED <==> final.runs.package == 1 && !answers[n].packagingFailed))
      && (job.paid ==> done.apk == if done.status == SUCCEEDED then answers[n].apk else job.apk)
      && (done.status == SUCCEEDED || done.status == FAILED)
      && done.finishedAt == Some(now) && done.attempts == job.attempts
  {
    n := 0;
    var (s0, final) := (Loop.Initial(job.paid, disk), Final(job, sent, disk, maxRepairs, answers));
    assert Submitted(job, sent).paymentVerified == job.paid;
    SucceededMeansPackaged(job, sent, disk, maxRepairs, answers, now);
    Loop.BudgetHolds(maxRepairs, job.paid, disk, answers);
    RunKeepsEnd(maxRepairs, s0, answers);
    if job.preview {
      UnverifiedBuildsNothing(maxRepairs, s0, answers);
      UnverifiedPackagingNeverFails(maxRepairs, s0, answers);
    }
    if final.runs.package == 1 { n := PackagedWith(maxRepairs, s0, answers); }
  }

  /** An unverified build that packages was green, and stays so. */
  lemma {:induction false} UnverifiedPackagingNeverFails(maxRepairs: nat, s: Loop.State, answers: seq<Loop.Answer>)
    requires EndOk(s) && !s.verified
    requires s.runs.package > 0 || s.node.Package? ==> !s.round.failed
    ensures var t := Loop.Run(maxRepairs, s, answers);
      t.runs.package > 0 || t.node.Package? ==> !t.round.failed
    decreases |answers|
  {
    if answers != [] {
      ExecKeepsEnd(maxRepairs, s, answers[0]);
      ExecKeepsGate(maxRepairs, s, answers[0]);
      if s.node.Qa? { Loop.RouteSpends(maxRepairs, s, answers[0].qa); }
      UnverifiedPackagingNeverFails(maxRepairs, Loop.Exec(maxRepairs, s, answers[0]), answers[1..]);
    }
  }
}
