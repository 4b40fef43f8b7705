/** The qa node of src/graph/nodes.py step by step: merge, derive tests, unlink, write, analyse, judge. */
module QaNode {
  import opened Options
  import opened Ownership
  import opened RepairLoop

  class Workspace {
    var files: Files

    constructor (files: Files)
      ensures this.files == files
    {
      this.files := files;
    }

    /** Remove what an earlier pass wrote and this one does not. */
    method UnlinkStale(written: set<string>, keep: Files)
      modifies this
      ensures files == old(files) - (written - keep.Keys)
    {
      var todo := written;
      while todo != {}
        invariant todo <= written
        invariant files == old(files) - ((written - todo) - keep.Keys)
        decreases |todo|
      {
        var path :| path in todo;
        if path !in keep { files := files - {path}; }
        todo := todo - {path};
      }
      assert written - {} == written;
    }

    method WriteAll(project: Files)
      modifies this
      ensures files == old(files) + project
    {
      var todo := project.Keys;
      while todo != {}
        invariant todo <= project.Keys
        invariant files == old(files) + (project - todo)
        decreases |todo|
      {
        var path :| path in todo;
        files := files[path := project[path]];
        todo := todo - {path};
      }
      assert project - {} == project;
    }
  }

  /** files.update(...), in the order the state fills it. */
  method Merge(drafts: Drafts, code: Code) returns (files: Files)
    ensures files == AllFiles(drafts, code)
  {
    files := map[];
    if drafts.pubspec != "" { files := files[PUBSPEC := drafts.pubspec]; }
    if drafts.options != "" { files := files[OPTIONS := drafts.options]; }
    if drafts.design != "" { files := files[DESIGN := drafts.design]; }
    assert files == Planned(drafts);
    files := files + code.ui;
    files := files + code.providers;
  }

  /** The project with the tests derived from it. */
  method Assemble(drafts: Drafts, code: Code, a: QaAnswer) returns (files: Files)
    ensures files == Project(drafts, code, a)
  {
    files := Merge(drafts, code);
    files := files + a.smoke;
    files := files + a.roundtrip;
    files := files + a.navigation;
    if (a.roundtrip != map[] || a.navigation != map[]) && PUBSPEC in files && files[PUBSPEC] != "" {
      files := files[PUBSPEC := a.patchedPubspec];
    }
  }

  /** Collect the diagnostics and judge the round. */
  method Judge(s: State, a: QaAnswer) returns (round: Round)
    ensures round == NextRound(s, a)
  {
    if ToolMissing(a) { return s.round.(failed := true); }
    var found := if PubspecBroken(a) then [] else a.analysis.value;
    found := found + a.conformance + s.code.uiViolations + s.code.logicViolations;
    if a.tests.Ran? { found := found + a.tests.found; } else { assert found == found + []; }
    assert found == Found(s.code, a);
    var errors := Fatal(found);
    var signature := Signature(errors);
    var stalled := errors != [] && s.round.signature == Some(signature);
    var attempts := s.round.attempts;
    if errors != [] { attempts := attempts + 1; }
    return Round(errors, attempts, Some(signature), stalled, s.round.failed);
  }

  /** Bring the directory up to date with the tree; remember what was written once the round is done. */
  method Sync(d: Dir, files: Files, finished: bool, ws: Workspace) returns (dir: Dir)
    requires ws.files == d.disk
    modifies ws
    ensures dir == Materialised(d, files, finished) && ws.files == dir.disk
  {
    ws.UnlinkStale(d.written, files);
    ws.WriteAll(files);
    dir := Dir(ws.files, if finished then files.Keys else d.written, files, d.touched + files.Keys);
  }

  /** One analysis: the workspace ends up as the model's disk, and the state as the model's state. */
  method Analyse(maxRepairs: nat, s: State, a: QaAnswer, ws: Workspace) returns (t: State)
    requires ws.files == s.dir.disk
    modifies ws
    ensures t == DoQa(maxRepairs, s, a) && ws.files == t.dir.disk
  {
    var files := Assemble(s.drafts, s.code, a);
    var finished := !ToolMissing(a);
    var dir := Sync(s.dir, files, finished, ws);
    var round := Judge(s, a);
    var runs := s.runs.(qa := s.runs.qa + 1);
    if finished && round.diagnostics != [] { runs := runs.(failing := runs.failing + 1); }
    t := s.(round := round, node := Route(maxRepairs, round), dir := dir, got := Delivered([], []), runs := runs);
  }
}
