/** The build graph of src/graph: planning, two writing agents, analysis, bounded repair, packaging.

    What the generator, the analyzer, the derived tests and the build tool answer is arbitrary, and
    may differ from call to call: a run is given by a sequence of answers, one for each node that
    runs, so every statement ranges over all of them. Sorting is not modelled; nothing here depends
    on the order of a list of diagnostics or paths. */
module RepairLoop {
  import opened Options
  import opened Ownership

  type Files = map<string, string>

  datatype Node = Plan | GenUi | Logic | Qa | Package | End

  datatype Tests = NoRunner | Ran(found: seq<Diagnostic>) | Unavailable

  /** What one analysis round is told. `analysis` is None when the toolchain is not available. */
  datatype QaAnswer = QaAnswer(
    smoke: Files, roundtrip: Files, navigation: Files, patchedPubspec: string,
    conformance: seq<Diagnostic>, analysis: Option<seq<Diagnostic>>, tests: Tests)

  /** Planning output, frozen once the agents write. */
  datatype Drafts = Drafts(design: string, pubspec: string, options: string)

  /** What the outside world would answer to whichever node runs next. */
  datatype Answer = Answer(drafts: Drafts, files: Files, qa: QaAnswer, packagingFailed: bool, apk: Option<string>)

  /** What the two agents have written, and the out-of-lane files of their last pass. */
  datatype Code = Code(ui: Files, providers: Files, uiViolations: seq<Diagnostic>, logicViolations: seq<Diagnostic>)

  /** The outcome of the last analysis. */
  datatype Round = Round(
    diagnostics: seq<Diagnostic>, attempts: nat, signature: Option<multiset<string>>, stalled: bool, failed: bool)

  /** The build directory: the paths written in the last round, the project as of that round, and
      every path ever materialised. */
  datatype Dir = Dir(disk: Files, written: set<string>, tree: Files, touched: set<string>)

  datatype Runs = Runs(plan: nat, genui: nat, logic: nat, qa: nat, failing: nat, package: nat)

  /** Diagnostics handed to the agents since the last analysis. */
  datatype Delivered = Delivered(ui: seq<Diagnostic>, logic: seq<Diagnostic>)

  datatype State = State(
    node: Node, drafts: Drafts, code: Code, round: Round, dir: Dir,
    verified: bool, apk: Option<string>, runs: Runs, got: Delivered)

  function Initial(verified: bool, disk: Files): State {
    State(Plan, Drafts("", "", ""), Code(map[], map[], [], []), Round([], 0, None, false, false),
          Dir(disk, {}, map[], {}), verified, None, Runs(0, 0, 0, 0, 0, 0), Delivered([], []))
  }

  // ---- the two writing agents ----------------------------------------------

  predicate InUi(path: string) { "lib/ui/" <= path }

  predicate InLogic(path: string) { "lib/" <= path && !InUi(path) }

  /** What reaches an agent: the whole batch in a stalled round, else what it owns. */
  function Mine(r: Round, o: Owner): seq<Diagnostic> {
    if r.stalled then r.diagnostics else OwnedBy(r.diagnostics, o)
  }

  ghost function Violations(paths: set<string>, code: string): seq<Diagnostic> {
    if paths == {} then []
    else var p :| p in paths; [Diagnostic("error", p, 0, code, "")] + Violations(paths - {p}, code)
  }

  ghost function UiWritten(code: Code, files: Files, repairing: bool): Code {
    var kept := map p | p in files && InUi(p) :: files[p];
    code.(ui := if repairing then code.ui + kept else kept,
          uiViolations := Violations(files.Keys - kept.Keys, "genui_lane_violation"))
  }

  ghost function LogicWritten(code: Code, files: Files, repairing: bool): Code {
    var kept := map p | p in files && InLogic(p) :: files[p];
    code.(providers := if repairing then code.providers + kept else kept,
          logicViolations := Violations(files.Keys - kept.Keys, "logic_lane_violation"))
  }

  ghost function DoGenUi(s: State, files: Files): State {
    var mine := Mine(s.round, GenUiOwns);
    s.(node := Logic, code := UiWritten(s.code, files, mine != []),
       got := s.got.(ui := mine), runs := s.runs.(genui := s.runs.genui + 1))
  }

  ghost function DoLogic(s: State, files: Files): State {
    var mine := Mine(s.round, LogicOwns);
    s.(node := Qa, code := LogicWritten(s.code, files, mine != []),
       got := s.got.(logic := mine), runs := s.runs.(logic := s.runs.logic + 1))
  }

  // ---- analysis ------------------------------------------------------------

  const PUBSPEC := "pubspec.yaml"
  const OPTIONS := "analysis_options.yaml"
  const DESIGN := "DESIGN.md"

  function Planned(d: Drafts): Files {
    (if d.pubspec == "" then map[] else map[PUBSPEC := d.pubspec])
    + (if d.options == "" then map[] else map[OPTIONS := d.options])
    + (if d.design == "" then map[] else map[DESIGN := d.design])
  }

  /** The full project tree. */
  function AllFiles(d: Drafts, c: Code): Files { Planned(d) + c.ui + c.providers }

  /** The tree with the tests derived from it. */
  function Project(d: Drafts, c: Code, a: QaAnswer): Files {
    var files := AllFiles(d, c) + a.smoke + a.roundtrip + a.navigation;
    if (a.roundtrip != map[] || a.navigation != map[]) && PUBSPEC in files && files[PUBSPEC] != ""
    then files[PUBSPEC := a.patchedPubspec] else files
  }

  predicate PubspecBroken(a: QaAnswer) {
    exists i :: 0 <= i < |a.conformance| && a.conformance[i].code == "unparseable_pubspec"
  }

  /** A tool that was needed is missing. */
  predicate ToolMissing(a: QaAnswer) { (!PubspecBroken(a) && a.analysis.None?) || a.tests.Unavailable? }

  function Found(c: Code, a: QaAnswer): seq<Diagnostic> {
    (if PubspecBroken(a) || a.analysis.None? then [] else a.analysis.value)
    + a.conformance + c.uiViolations + c.logicViolations
    + (if a.tests.Ran? then a.tests.found else [])
  }

  /** Unlink what is no longer part of the app, and write the rest. */
  function Synced(disk: Files, written: set<string>, files: Files): Files {
    (disk - (written - files.Keys)) + files
  }

  function Materialised(d: Dir, files: Files, finished: bool): Dir {
    Dir(Synced(d.disk, d.written, files), if finished then files.Keys else d.written, files, d.touched + files.Keys)
  }

  /** The verdict of a round: the counter ticks once per round with errors, and a round that repeats
      the errors of the one before is stalled. */
  function Judged(r: Round, errors: seq<Diagnostic>): Round {
    Round(errors, r.attempts + (if errors != [] then 1 else 0), Some(Signature(errors)),
          errors != [] && r.signature == Some(Signature(errors)), r.failed)
  }

  function NextRound(s: State, a: QaAnswer): Round {
    if ToolMissing(a) then s.round.(failed := true) else Judged(s.round, Fatal(Found(s.code, a)))
  }

  /** route_after_qa */
  function Route(maxRepairs: nat, r: Round): Node {
    if r.failed then End
    else if r.diagnostics == [] then Package
    else if r.attempts > maxRepairs then End
    else match RouteFor(r.diagnostics)
      case Fail => End
      case RepairUi => if r.stalled then Logic else GenUi
      case RepairLogic => if r.stalled then GenUi else Logic
  }

  function DoQa(maxRepairs: nat, s: State, a: QaAnswer): State {
    var round := NextRound(s, a);
    s.(node := Route(maxRepairs, round), round := round,
       dir := Materialised(s.dir, Project(s.drafts, s.code, a), !ToolMissing(a)),
       got := Delivered([], []),
       runs := s.runs.(qa := s.runs.qa + 1,
                       failing := s.runs.failing + (if !ToolMissing(a) && round.diagnostics != [] then 1 else 0)))
  }

  // ---- the graph -----------------------------------------------------------

  function DoPlan(s: State, drafts: Drafts): State {
    s.(node := GenUi, drafts := drafts, runs := s.runs.(plan := s.runs.plan + 1))
  }

  /** The packaging gate opens for a verified payment only; a build that is green but not paid for
      has not failed. */
  function DoPackage(s: State, failed: bool, apk: Option<string>): State {
    var t := s.(node := End, runs := s.runs.(package := s.runs.package + 1));
    if !s.verified then t else t.(round := s.round.(failed := failed), apk := apk)
  }

  ghost function Exec(maxRepairs: nat, s: State, a: Answer): State {
    match s.node
    case Plan => DoPlan(s, a.drafts)
    case GenUi => DoGenUi(s, a.files)
    case Logic => DoLogic(s, a.files)
    case Qa => DoQa(maxRepairs, s, a.qa)
    case Package => DoPackage(s, a.packagingFailed, a.apk)
    case End => s
  }

  ghost function Run(maxRepairs: nat, s: State, answers: seq<Answer>): State
    decreases |answers|
  {
    if answers == [] then s else Run(maxRepairs, Exec(maxRepairs, s, answers[0]), answers[1..])
  }

  // ---- what an agent writes ------------------------------------------------

  /** A pass leaves exactly the files of its lane that the generator wrote, and if it is a repair, those
      it did not write as they were. */
  ghost predicate PassLeaves(before: Files, after: Files, files: Files, lane: string -> bool, repairing: bool) {
    forall p ::
      && (p in after <==> (p in files && lane(p)) || (repairing && p in before))
      && (p in files && lane(p) ==> p in after && after[p] == files[p])
      && (repairing && p in before && !(p in files && lane(p)) ==> p in after && after[p] == before[p])
  }

  lemma PassesKeepFiles(code: Code, files: Files, repairing: bool)
    ensures PassLeaves(code.ui, UiWritten(code, files, repairing).ui, files, InUi, repairing)
    ensures PassLeaves(code.providers, LogicWritten(code, files, repairing).providers, files, InLogic, repairing)
  {
  }

  /** A repair pass loses nothing it did not rewrite: an agent that was given diagnostics leaves every
      file of its tree that the generator did not write again, and neither agent touches the tree of
      the other or the plan. */
  lemma RepairKeepsUntouchedFiles(s: State, files: Files)
    ensures var t := DoGenUi(s, files);
      && PassLeaves(s.code.ui, t.code.ui, files, InUi, Mine(s.round, GenUiOwns) != [])
      && t.code.providers == s.code.providers && t.drafts == s.drafts
    ensures var t := DoLogic(s, files);
      && PassLeaves(s.code.providers, t.code.providers, files, InLogic, Mine(s.round, LogicOwns) != [])
      && t.code.ui == s.code.ui && t.drafts == s.drafts
  {
    PassesKeepFiles(s.code, files, Mine(s.round, GenUiOwns) != []);
    PassesKeepFiles(s.code, files, Mine(s.round, LogicOwns) != []);
  }

  predicate Names(ds: seq<Diagnostic>, path: string) { exists i :: 0 <= i < |ds| && ds[i].file == path }

  lemma {:induction false} ViolationsAre(paths: set<string>, code: string)
    ensures forall d :: d in Violations(paths, code) ==> d.severity == "error" && d.code == code && d.file in paths
    ensures forall p :: p in paths ==> Names(Violations(paths, code), p)
    decreases paths
  {
    if paths != {} {
      var p :| p in paths && Violations(paths, code)
                          == [Diagnostic("error", p, 0, code, "")] + Violations(paths - {p}, code);
      var (all, rest) := (Violations(paths, code), Violations(paths - {p}, code));
      ViolationsAre(paths - {p}, code);
      forall q | q in paths ensures Names(all, q) {
        if q == p {
          assert all[0].file == q;
        } else {
          assert q in paths - {p} && Names(rest, q);
          var i :| 0 <= i < |rest| && rest[i].file == q;
          assert all[i + 1] == rest[i];
        }
      }
    }
  }

  /** The diagnostics in this list are errors that come back to this agent, one at least for each of
      these files. */
  ghost predicate ComeBack(ds: seq<Diagnostic>, paths: set<string>, to: Owner) {
    && (forall d :: d in ds ==> IsFatal(d) && OwnerOf(d) == to && d.file in paths)
    && (forall p :: p in paths ==> Names(ds, p))
  }

  lemma ViolationsComeBack(paths: set<string>)
    ensures ComeBack(Violations(paths, "genui_lane_violation"), paths, GenUiOwns)
    ensures ComeBack(Violations(paths, "logic_lane_violation"), paths, LogicOwns)
  {
    ViolationsAre(paths, "genui_lane_violation");
    ViolationsAre(paths, "logic_lane_violation");
    LaneCodes();
  }

  lemma LaneCodes()
    ensures ExplicitOwner("genui_lane_violation") == Some(GenUiOwns)
    ensures ExplicitOwner("logic_lane_violation") == Some(LogicOwns)
  {
  }

  /** Files outside an agent's lane are dropped, and each of them comes back to the agent that wrote it. */
  lemma OutOfLaneComesBack(s: State, files: Files)
    ensures ComeBack(DoGenUi(s, files).code.uiViolations, (set p | p in files && !InUi(p)), GenUiOwns)
    ensures ComeBack(DoLogic(s, files).code.logicViolations, (set p | p in files && !InLogic(p)), LogicOwns)
  {
    var (ui, logic) := (map p | p in files && InUi(p) :: files[p], map p | p in files && InLogic(p) :: files[p]);
    assert files.Keys - ui.Keys == set p | p in files && !InUi(p);
    assert files.Keys - logic.Keys == set p | p in files && !InLogic(p);
    ViolationsComeBack(files.Keys - ui.Keys);
    ViolationsComeBack(files.Keys - logic.Keys);
  }

  /** A diagnostic whose code does not say who can fix it goes by its file: to the agent in whose lane
      the file is, and of the state lane only for its two known places. */
  lemma OwnersFollowLanes(d: Diagnostic)
    requires ExplicitOwner(d.code).None?
    ensures OwnerOf(d) == GenUiOwns <==> InUi(Normalized(d.file))
    ensures OwnerOf(d) == LogicOwns ==> InLogic(Normalized(d.file))
    ensures OwnerOf(d) == LogicOwns <==>
            "lib/providers/" <= Normalized(d.file) || Normalized(d.file) == "lib/main.dart"
    ensures "lib/" <= d.file && '\\' !in d.file ==> (OwnerOf(d) == GenUiOwns <==> "lib/ui/" <= d.file)
  {
    if "lib/" <= d.file && '\\' !in d.file {
      assert d.file[0] == "lib/"[0] == 'l';
      PlainPathIsItself(d.file);
    }
    var path := Normalized(d.file);
    if InUi(path) {
      assert path[4] == 'u';
    } else if "lib/providers/" <= path {
      assert "lib/" <= path;
    }
  }

  // ---- lanes ---------------------------------------------------------------

  ghost predicate Lanes(c: Code) {
    && (forall p :: p in c.ui ==> InUi(p))
    && (forall p :: p in c.providers ==> InLogic(p))
  }

  lemma WritingKeepsLanes(c: Code, files: Files, repairing: bool)
    requires Lanes(c)
    ensures Lanes(UiWritten(c, files, repairing)) && Lanes(LogicWritten(c, files, repairing))
  {
  }

  lemma ExecKeepsLanes(maxRepairs: nat, s: State, a: Answer)
    requires Lanes(s.code)
    ensures Lanes(Exec(maxRepairs, s, a).code)
  {
    WritingKeepsLanes(s.code, a.files, Mine(s.round, GenUiOwns) != []);
    WritingKeepsLanes(s.code, a.files, Mine(s.round, LogicOwns) != []);
  }

  lemma {:induction false} RunKeepsLanes(maxRepairs: nat, s: State, answers: seq<Answer>)
    requires Lanes(s.code)
    ensures Lanes(Run(maxRepairs, s, answers).code)
    decreases |answers|
  {
    if answers != [] {
      ExecKeepsLanes(maxRepairs, s, answers[0]);
      RunKeepsLanes(maxRepairs, Exec(maxRepairs, s, answers[0]), answers[1..]);
    }
  }

  lemma LanesAreDisjoint(d: Drafts, c: Code)
    requires Lanes(c)
    ensures Planned(d).Keys !! c.ui.Keys !! c.providers.Keys
  {
    assert PUBSPEC[0] != 'l' && OPTIONS[0] != 'l' && DESIGN[0] != 'l';
    forall p | p in c.ui || p in c.providers ensures p !in Planned(d) {
      assert p[0] == "lib/"[0] == 'l';
    }
    forall p | p in c.ui ensures p !in c.providers {
      assert InUi(p);
    }
  }

  /** Separation of concerns, whatever the generator writes: in every reachable state the widget tree
      and the state tree are disjoint from each other and from the plan, so merging them into one
      project overwrites nothing, and every file is its owner's. */
  lemma MergeOverwritesNothing(maxRepairs: nat, verified: bool, disk: Files, answers: seq<Answer>)
    ensures var s := Run(maxRepairs, Initial(verified, disk), answers);
      var all := AllFiles(s.drafts, s.code);
      && Lanes(s.code) && Planned(s.drafts).Keys !! s.code.ui.Keys !! s.code.providers.Keys
      && (forall p :: p in s.code.ui ==> p in all && all[p] == s.code.ui[p])
      && (forall p :: p in s.code.providers ==> p in all && all[p] == s.code.providers[p])
      && (forall p :: p in Planned(s.drafts) ==> p in all && all[p] == Planned(s.drafts)[p])
  {
    RunKeepsLanes(maxRepairs, Initial(verified, disk), answers);
    var s := Run(maxRepairs, Initial(verified, disk), answers);
    LanesAreDisjoint(s.drafts, s.code);
  }

  // ---- the disk ------------------------------------------------------------

  /** The directory holds the tree as of the last analysis, and of what was there at the start all
      that no analysis ever wrote to. */
  ghost predicate DiskOk(start: Files, d: Dir, over: bool) {
    && d.disk == (start - d.touched) + d.tree
    && d.tree.Keys <= d.touched
    && (!over ==> d.written == d.tree.Keys)
  }

  lemma MaterialisedOk(start: Files, d: Dir, files: Files, finished: bool)
    requires DiskOk(start, d, false)
    ensures DiskOk(start, Materialised(d, files, finished), !finished)
  {
    var a := Materialised(d, files, finished).disk;
    var b := (start - (d.touched + files.Keys)) + files;
    assert forall p :: p in a <==> p in b;
    assert forall p :: p in a ==> a[p] == b[p];
  }

  lemma ExecKeepsDisk(maxRepairs: nat, start: Files, s: State, a: Answer)
    requires DiskOk(start, s.dir, s.node.End?)
    ensures DiskOk(start, Exec(maxRepairs, s, a).dir, Exec(maxRepairs, s, a).node.End?)
  {
    if s.node.Qa? {
      MaterialisedOk(start, s.dir, Project(s.drafts, s.code, a.qa), !ToolMissing(a.qa));
    }
  }

  lemma {:induction false} RunKeepsDisk(maxRepairs: nat, start: Files, s: State, answers: seq<Answer>)
    requires DiskOk(start, s.dir, s.node.End?)
    ensures var t := Run(maxRepairs, s, answers); DiskOk(start, t.dir, t.node.End?)
    decreases |answers|
  {
    if answers != [] {
      ExecKeepsDisk(maxRepairs, start, s, answers[0]);
      RunKeepsDisk(maxRepairs, start, Exec(maxRepairs, s, answers[0]), answers[1..]);
    }
  }

  /** The incremental sync leaves exactly what a fresh write of the current project would leave, if
      and only if every file that was in the directory at the start has been written over since; in
      particular whenever the build started in an empty directory. */
  lemma DiskIsFresh(maxRepairs: nat, verified: bool, start: Files, answers: seq<Answer>)
    ensures var d := Run(maxRepairs, Initial(verified, start), answers).dir;
      && (d.disk == d.tree <==> start.Keys <= d.touched)
      && (start == map[] ==> d.disk == d.tree)
  {
    var s0 := Initial(verified, start);
    assert start - {} == start && start + map[] == start;
    RunKeepsDisk(maxRepairs, start, s0, answers);
    var d := Run(maxRepairs, s0, answers).dir;
    if start.Keys <= d.touched {
      assert start - d.touched == map[];
    } else {
      var p :| p in start && p !in d.touched;
      assert p in d.disk && p !in d.tree;
    }
  }

  // ---- the budget ----------------------------------------------------------

  ghost predicate BudgetOk(maxRepairs: nat, s: State) {
    var r := s.runs;
    && s.round.attempts == r.failing <= r.qa
    && r.plan == (if s.node.Plan? then 0 else 1)
    && r.package <= (if s.node.End? then 1 else 0)
    && match s.node
       case Plan => r.genui == r.logic == r.qa == 0
       case GenUi => r.qa == r.failing <= maxRepairs && r.genui <= r.qa && r.logic <= r.qa
       case Logic => r.qa == r.failing <= maxRepairs && r.genui <= r.qa + 1 && r.logic <= r.qa
       case Qa => r.qa == r.failing <= maxRepairs && r.genui <= r.qa + 1 && r.logic <= r.qa + 1
       case Package =>
         && r.qa <= maxRepairs + 1 && r.genui <= r.qa && r.logic <= r.qa
         && s.round.diagnostics == [] && !s.round.failed
       case End => r.qa <= maxRepairs + 1 && r.genui <= r.qa && r.logic <= r.qa
  }

  /** Nodes still to run, at most. */
  function Distance(maxRepairs: nat, s: State): int {
    var rounds := 3 * (maxRepairs - s.runs.failing);
    match s.node
    case Plan => rounds + 5
    case GenUi => rounds + 4
    case Logic => rounds + 3
    case Qa => rounds + 2
    case Package => 1
    case End => 0
  }

  /** Either the round ends the loop, or it found errors and the budget allows another. */
  lemma RouteSpends(maxRepairs: nat, s: State, a: QaAnswer)
    ensures var r := NextRound(s, a);
      && (Route(maxRepairs, r).GenUi? || Route(maxRepairs, r).Logic? ==>
            !ToolMissing(a) && r.diagnostics != [] && r.attempts == s.round.attempts + 1 <= maxRepairs)
      && (Route(maxRepairs, r).Package? ==> r.diagnostics == [] && !r.failed)
      && !Route(maxRepairs, r).Qa? && !Route(maxRepairs, r).Plan?
      && r.attempts == s.round.attempts + (if !ToolMissing(a) && r.diagnostics != [] then 1 else 0)
  {
  }

  lemma ExecKeepsBudget(maxRepairs: nat, s: State, a: Answer)
    requires BudgetOk(maxRepairs, s)
    ensures BudgetOk(maxRepairs, Exec(maxRepairs, s, a))
    ensures s.node != End ==> 0 <= Distance(maxRepairs, Exec(maxRepairs, s, a)) < Distance(maxRepairs, s)
  {
    if s.node.Qa? { RouteSpends(maxRepairs, s, a.qa); }
  }

  lemma {:induction false} RunKeepsBudget(maxRepairs: nat, s: State, answers: seq<Answer>)
    requires BudgetOk(maxRepairs, s)
    ensures BudgetOk(maxRepairs, Run(maxRepairs, s, answers))
    decreases |answers|
  {
    if answers != [] {
      ExecKeepsBudget(maxRepairs, s, answers[0]);
      RunKeepsBudget(maxRepairs, Exec(maxRepairs, s, answers[0]), answers[1..]);
    }
  }

  /** How often a run visits this node. */
  ghost function Visits(maxRepairs: nat, s: State, answers: seq<Answer>, node: Node): nat
    decreases |answers|
  {
    if answers == [] then 0
    else (if s.node == node then 1 else 0) + Visits(maxRepairs, Exec(maxRepairs, s, answers[0]), answers[1..], node)
  }

  lemma {:induction false} RunsAreVisits(maxRepairs: nat, s: State, answers: seq<Answer>)
    ensures var (r, q) := (s.runs, Run(maxRepairs, s, answers).runs);
      && q.plan == r.plan + Visits(maxRepairs, s, answers, Plan)
      && q.genui == r.genui + Visits(maxRepairs, s, answers, GenUi)
      && q.logic == r.logic + Visits(maxRepairs, s, answers, Logic)
      && q.qa == r.qa + Visits(maxRepairs, s, answers, Qa)
      && q.package == r.package + Visits(maxRepairs, s, answers, Package)
    decreases |answers|
  {
    if answers != [] { RunsAreVisits(maxRepairs, Exec(maxRepairs, s, answers[0]), answers[1..]); }
  }

  /** The exact budget: whatever the generator and the analyzer do, planning is visited once at most, each
      agent and the analysis at most maxRepairs + 1 times, packaging once at most and only after a
      round without errors, and the repair counter is the number of rounds that found errors. */
  lemma BudgetHolds(maxRepairs: nat, verified: bool, disk: Files, answers: seq<Answer>)
    ensures var (s0, s) := (Initial(verified, disk), Run(maxRepairs, Initial(verified, disk), answers));
      && Visits(maxRepairs, s0, answers, Plan) <= 1
      && s.runs.package == Visits(maxRepairs, s0, answers, Package) <= 1
      && Visits(maxRepairs, s0, answers, GenUi) <= maxRepairs + 1
      && Visits(maxRepairs, s0, answers, Logic) <= maxRepairs + 1
      && Visits(maxRepairs, s0, answers, Qa) <= maxRepairs + 1
      && s.round.attempts == s.runs.failing <= Visits(maxRepairs, s0, answers, Qa)
      && (s.node.Package? ==> s.round.diagnostics == [] && !s.round.failed)
  {
    RunKeepsBudget(maxRepairs, Initial(verified, disk), answers);
    RunsAreVisits(maxRepairs, Initial(verified, disk), answers);
  }

  /** Every build ends: after planning, maxRepairs + 1 rounds of three nodes and packaging, at the
      latest, the graph is at its end. */
  lemma BuildsEnd(maxRepairs: nat, verified: bool, disk: Files, answers: seq<Answer>)
    requires |answers| >= 3 * maxRepairs + 5
    ensures Run(maxRepairs, Initial(verified, disk), answers).node == End
  {
    EndsWithin(maxRepairs, Initial(verified, disk), answers);
  }

  lemma {:induction false} EndsWithin(maxRepairs: nat, s: State, answers: seq<Answer>)
    requires BudgetOk(maxRepairs, s) && |answers| >= Distance(maxRepairs, s)
    ensures Run(maxRepairs, s, answers).node == End
    decreases |answers|
  {
    if answers != [] {
      ExecKeepsBudget(maxRepairs, s, answers[0]);
      EndsWithin(maxRepairs, Exec(maxRepairs, s, answers[0]), answers[1..]);
    }
  }

  // ---- delivery ------------------------------------------------------------

  predicate Reaches(d: Diagnostic, got: Delivered) { d in got.ui || d in got.logic }

  /** The agent the owner route would not have picked for this batch. */
  function Other(r: Round, got: Delivered): seq<Diagnostic> {
    if RouteFor(r.diagnostics).RepairUi? then got.logic else got.ui
  }

  /** On the way from a failing round to the next analysis: who has got what, and who still will. */
  ghost predicate DeliveryOk(s: State) {
    var r := s.round;
    && (s.node.Plan? ==> r == Initial(s.verified, map[]).round)
    && (s.node.GenUi? || s.node.Logic? || s.node.Qa? ==>
          !r.failed && (r.stalled ==> r.diagnostics != []) && !Owned(r.diagnostics, NobodyOwns))
    && (s.node.GenUi? && r.stalled ==> RouteFor(r.diagnostics).RepairLogic?)
    && (s.node.Logic? ==>
          || s.got.ui == Mine(r, GenUiOwns)
          || (r.stalled && RouteFor(r.diagnostics).RepairUi?)
          || (!r.stalled && !Owned(r.diagnostics, GenUiOwns)))
    && (s.node.Qa? ==>
          && (forall d :: d in r.diagnostics ==> Reaches(d, s.got))
          && (r.stalled ==> Other(r, s.got) == r.diagnostics))
  }

  /** With both agents' own diagnostics delivered, every one that somebody owns is. */
  lemma OwnersCover(ds: seq<Diagnostic>, got: Delivered)
    requires !Owned(ds, NobodyOwns)
    requires got.ui == OwnedBy(ds, GenUiOwns) || !Owned(ds, GenUiOwns)
    requires got.logic == OwnedBy(ds, LogicOwns)
    ensures forall d :: d in ds ==> Reaches(d, got)
  {
    OwnedByMembers(ds, GenUiOwns);
    OwnedByMembers(ds, LogicOwns);
    forall d | d in ds ensures Reaches(d, got) {
      var i :| 0 <= i < |ds| && ds[i] == d;
      assert OwnerOf(ds[i]) != NobodyOwns;
      if OwnerOf(d) == GenUiOwns { assert Owned(ds, GenUiOwns); }
    }
  }

  lemma LogicDelivers(s: State, files: Files)
    requires s.node.Logic? && DeliveryOk(s)
    ensures DeliveryOk(DoLogic(s, files))
  {
    var r := s.round;
    if !r.stalled {
      OwnersCover(r.diagnostics, Delivered(s.got.ui, Mine(r, LogicOwns)));
    }
  }

  lemma RouteRepairs(maxRepairs: nat, r: Round)
    ensures Route(maxRepairs, r).GenUi? || Route(maxRepairs, r).Logic? ==>
      !r.failed && r.diagnostics != [] && !Owned(r.diagnostics, NobodyOwns)
    ensures Route(maxRepairs, r).GenUi? && r.stalled ==> RouteFor(r.diagnostics).RepairLogic?
    ensures Route(maxRepairs, r).Logic? && r.stalled ==> RouteFor(r.diagnostics).RepairUi?
    ensures Route(maxRepairs, r).Logic? && !r.stalled ==> !Owned(r.diagnostics, GenUiOwns)
  {
  }

  lemma ExecKeepsDelivery(maxRepairs: nat, s: State, a: Answer)
    requires DeliveryOk(s)
    ensures DeliveryOk(Exec(maxRepairs, s, a))
  {
    if s.node.Logic? {
      LogicDelivers(s, a.files);
    } else if s.node.Qa? {
      RouteSpends(maxRepairs, s, a.qa);
      RouteRepairs(maxRepairs, NextRound(s, a.qa));
    }
  }

  lemma {:induction false} RunKeepsDelivery(maxRepairs: nat, s: State, answers: seq<Answer>)
    requires DeliveryOk(s)
    ensures DeliveryOk(Run(maxRepairs, s, answers))
    decreases |answers|
  {
    if answers != [] {
      ExecKeepsDelivery(maxRepairs, s, answers[0]);
      RunKeepsDelivery(maxRepairs, Exec(maxRepairs, s, answers[0]), answers[1..]);
    }
  }

  /** Delivery: whenever the graph is about to analyse again, every diagnostic of the round before has
      reached an agent since, and if that round was stalled, the agent the owner route would not have
      picked has been given the whole batch. */
  lemma EveryDiagnosticIsDelivered(maxRepairs: nat, verified: bool, disk: Files, answers: seq<Answer>)
    requires Run(maxRepairs, Initial(verified, disk), answers).node.Qa?
    ensures var s := Run(maxRepairs, Initial(verified, disk), answers);
      && (forall d :: d in s.round.diagnostics ==> Reaches(d, s.got))
      && (s.round.stalled ==> Other(s.round, s.got) == s.round.diagnostics)
  {
    RunKeepsDelivery(maxRepairs, Initial(verified, disk), answers);
  }

  /** Where a round leads, and exactly when: to packaging without errors, to repair with errors that
      all have an owner while the budget lasts, and to the end otherwise, stalled or not. A repair begins
      with the widget agent exactly if it owns any of them, and the other way round if it is stalled. */
  lemma RoundLeads(maxRepairs: nat, s: State, a: QaAnswer)
    requires s.node.Qa? && !s.round.failed
    ensures var t := DoQa(maxRepairs, s, a);
      var errors := Fatal(Found(s.code, a));
      && (t.node.Package? <==> !ToolMissing(a) && errors == [])
      && (t.node.GenUi? || t.node.Logic? <==>
            && !ToolMissing(a) && errors != [] && s.round.attempts < maxRepairs
            && forall i :: 0 <= i < |errors| ==> OwnerOf(errors[i]) != NobodyOwns)
      && (t.node.GenUi? || t.node.Logic? || t.node.Package? || t.node.End?)
      && (t.node.GenUi? || t.node.Logic? ==>
            (t.node.GenUi? <==> t.round.stalled != exists i :: 0 <= i < |errors| && OwnerOf(errors[i]) == GenUiOwns))
  {
    var t := DoQa(maxRepairs, s, a);
    if !ToolMissing(a) {
      var errors := Fatal(Found(s.code, a));
      assert t.round == Judged(s.round, errors);
      assert Owned(errors, NobodyOwns) <==> !forall i :: 0 <= i < |errors| ==> OwnerOf(errors[i]) != NobodyOwns;
    }
  }

  // ---- the verdict of a round ----------------------------------------------

  ghost predicate Unparseable(a: QaAnswer) { exists d :: d in a.conformance && d.code == "unparseable_pubspec" }

  /** A diagnostic one of the round's sources reported; an unparseable manifest silences the analyzer. */
  ghost predicate ReportedIn(c: Code, a: QaAnswer, d: Diagnostic) {
    || (!Unparseable(a) && a.analysis.Some? && d in a.analysis.value)
    || d in a.conformance || d in c.uiViolations || d in c.logicViolations
    || (a.tests.Ran? && d in a.tests.found)
  }

  /** The remembered signature is that of the diagnostics of the last round there was. */
  ghost predicate Remembers(s: State) {
    s.node.End? || s.round.signature == if s.runs.qa == 0 then None else Some(Signature(s.round.diagnostics))
  }

  lemma ExecKeepsMemory(maxRepairs: nat, s: State, a: Answer)
    requires Remembers(s)
    ensures Remembers(Exec(maxRepairs, s, a))
  {
  }

  lemma {:induction false} RunKeepsMemory(maxRepairs: nat, s: State, answers: seq<Answer>)
    requires Remembers(s)
    ensures Remembers(Run(maxRepairs, s, answers))
    decreases |answers|
  {
    if answers != [] {
      ExecKeepsMemory(maxRepairs, s, answers[0]);
      RunKeepsMemory(maxRepairs, Exec(maxRepairs, s, answers[0]), answers[1..]);
    }
  }

  lemma BrokenIsUnparseable(a: QaAnswer)
    ensures PubspecBroken(a) <==> Unparseable(a)
  {
    if PubspecBroken(a) {
      var i :| 0 <= i < |a.conformance| && a.conformance[i].code == "unparseable_pubspec";
      assert a.conformance[i] in a.conformance;
    }
  }

  /** What a completed round concludes, in any run: its diagnostics are exactly the fatal ones any of its
      sources reported, the counter ticks exactly if there are any, and it is stalled exactly if
      there are some and the round before it ended with the same, file and line and all. A round whose
      tools are missing fails the build and leaves the diagnostics as they were. */
  lemma RoundConcludes(maxRepairs: nat, verified: bool, disk: Files, answers: seq<Answer>, a: QaAnswer)
    requires Run(maxRepairs, Initial(verified, disk), answers).node.Qa?
    ensures var s := Run(maxRepairs, Initial(verified, disk), answers);
      var (before, after) := (s.round, DoQa(maxRepairs, s, a).round);
      if a.tests.Unavailable? || (a.analysis.None? && !Unparseable(a))
      then after.failed && after.diagnostics == before.diagnostics
      else
        && (forall d :: d in after.diagnostics <==> IsFatal(d) && ReportedIn(s.code, a, d))
        && after.attempts == before.attempts + (if after.diagnostics == [] then 0 else 1)
        && (after.stalled <==>
              after.diagnostics != [] && s.runs.qa > 0 && Signature(after.diagnostics) == Signature(before.diagnostics))
  {
    RunKeepsMemory(maxRepairs, Initial(verified, disk), answers);
    var s := Run(maxRepairs, Initial(verified, disk), answers);
    BrokenIsUnparseable(a);
    FatalMembers(Found(s.code, a));
  }
}
