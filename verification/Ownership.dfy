/** Diagnostics and which subagent can fix them: src/ports/ownership.py and the severity rules of
    src/ports/analyzer.py. */
module Ownership {
  import opened Options
  import opened Decimals

  datatype Diagnostic = Diagnostic(severity: string, file: string, line: nat, code: string, message: string)

  datatype Owner = GenUiOwns | LogicOwns | NobodyOwns

  /** Warnings that break a build: evidence of a hallucination, or of an analysis that did not run. */
  predicate PromotedCode(code: string) {
    code in {"unused_element", "unused_field", "unused_local_variable", "dead_code",
             "include_file_not_found", "analysis_option_unsupported_option"}
  }

  predicate IsFatal(d: Diagnostic) { d.severity == "error" || PromotedCode(d.code) }

  /** Codes whose owner the file does not imply. */
  function ExplicitOwner(code: string): Option<Owner> {
    if code in {"undefined_provider", "ui_in_logic", "logic_lane_violation", "missing_provider", "wrong_collection"}
    then Some(LogicOwns)
    else if code in {"setstate_in_ui", "logic_in_ui", "theme_mismatch", "missing_screen", "unreachable_screen",
                     "missing_form_field", "smoke_failure", "misplaced_entrypoint", "genui_lane_violation",
                     "duplicate_declaration"}
    then Some(GenUiOwns)
    else if code in {"missing_pubspec", "incomplete_pubspec", "unparseable_pubspec", "lints_not_installed"}
    then Some(NobodyOwns)
    else None
  }

  /** file.replace("\\", "/").lstrip("./") */
  function Normalized(file: string): string { LeftStripped(Slashed(file)) }

  function Slashed(s: string): string {
    if s == "" then "" else [if s[0] == '\\' then '/' else s[0]] + Slashed(s[1..])
  }

  function LeftStripped(s: string): string {
    if s != "" && (s[0] == '.' || s[0] == '/') then LeftStripped(s[1..]) else s
  }

  function OwnerOf(d: Diagnostic): Owner {
    if ExplicitOwner(d.code).Some? then ExplicitOwner(d.code).value
    else
      var path := Normalized(d.file);
      if "lib/ui/" <= path then GenUiOwns
      else if "lib/providers/" <= path || path == "lib/main.dart" then LogicOwns
      else NobodyOwns
  }

  datatype Target = Fail | RepairUi | RepairLogic

  predicate Owned(ds: seq<Diagnostic>, o: Owner) { exists i :: 0 <= i < |ds| && OwnerOf(ds[i]) == o }

  function RouteFor(ds: seq<Diagnostic>): Target {
    if Owned(ds, NobodyOwns) then Fail else if Owned(ds, GenUiOwns) then RepairUi else RepairLogic
  }

  /** The diagnostics an owner can act on. */
  function OwnedBy(ds: seq<Diagnostic>, o: Owner): seq<Diagnostic> {
    if ds == [] then [] else (if OwnerOf(ds[0]) == o then [ds[0]] else []) + OwnedBy(ds[1..], o)
  }

  lemma {:induction false} OwnedByMembers(ds: seq<Diagnostic>, o: Owner)
    ensures forall d :: d in OwnedBy(ds, o) <==> d in ds && OwnerOf(d) == o
  {
    if ds != [] { OwnedByMembers(ds[1..], o); }
  }

  function Fatal(ds: seq<Diagnostic>): seq<Diagnostic> {
    if ds == [] then [] else (if IsFatal(ds[0]) then [ds[0]] else []) + Fatal(ds[1..])
  }

  lemma {:induction false} FatalMembers(ds: seq<Diagnostic>)
    ensures forall d :: d in Fatal(ds) <==>
              d in ds && (d.severity == "error"
                          || d.code in {"unused_element", "unused_field", "unused_local_variable", "dead_code",
                                        "include_file_not_found", "analysis_option_unsupported_option"})
  {
    if ds != [] { FatalMembers(ds[1..]); }
  }

  /** One line of a round's signature. */
  function Mark(d: Diagnostic): string { d.code + ":" + d.file + ":" + Digits(d.line) }

  /** Two marks are equal exactly for the same code in the same file and line. */
  lemma MarkIdentifies(a: Diagnostic, b: Diagnostic)
    requires ':' !in a.code && ':' !in b.code && ':' !in a.file && ':' !in b.file
    ensures Mark(a) == Mark(b) <==> a.code == b.code && a.file == b.file && a.line == b.line
  {
    if Mark(a) == Mark(b) {
      assert Mark(a) == a.code + ":" + (a.file + ":" + Digits(a.line));
      assert Mark(b) == b.code + ":" + (b.file + ":" + Digits(b.line));
      SplitAtColon(a.code, b.code, a.file + ":" + Digits(a.line), b.file + ":" + Digits(b.line));
      SplitAtColon(a.file, b.file, Digits(a.line), Digits(b.line));
      DigitsRoundTrip(a.line);
      DigitsRoundTrip(b.line);
    }
  }

  /** The culprit goes before the path: a missing provider is the logic agent's though a widget asks for
      it, an out-of-lane file goes back to whoever wrote it, and what planning froze nobody can repair,
      wherever the diagnostic is anchored. */
  lemma CulpritBeforePath(d: Diagnostic)
    ensures d.code in {"undefined_provider", "missing_provider", "logic_lane_violation", "ui_in_logic"} ==> OwnerOf(d) == LogicOwns
    ensures d.code in {"setstate_in_ui", "logic_in_ui", "genui_lane_violation", "misplaced_entrypoint", "smoke_failure"}
            ==> OwnerOf(d) == GenUiOwns
    ensures d.code in {"missing_pubspec", "incomplete_pubspec", "unparseable_pubspec", "lints_not_installed"}
            ==> forall ds :: d in ds ==> RouteFor(ds) == Fail
  {
    if d.code in {"missing_pubspec", "incomplete_pubspec", "unparseable_pubspec", "lints_not_installed"} {
      forall ds | d in ds ensures RouteFor(ds) == Fail {
        var i :| 0 <= i < |ds| && ds[i] == d;
        assert OwnerOf(ds[i]) == NobodyOwns;
      }
    }
  }

  /** The sorted list of marks, which two rounds share exactly when they share the multiset. */
  function Signature(ds: seq<Diagnostic>): multiset<string> {
    if ds == [] then multiset{} else multiset{Mark(ds[0])} + Signature(ds[1..])
  }

  /** The path as Windows writes it. */
  function Windows(path: string): string {
    if path == "" then "" else [if path[0] == '/' then '\\' else path[0]] + Windows(path[1..])
  }

  lemma {:induction false} PrefixIsStripped(prefix: string, path: string)
    requires forall i :: 0 <= i < |prefix| ==> prefix[i] in {'.', '/', '\\'}
    ensures Normalized(prefix + path) == Normalized(path)
  {
    if prefix == "" {
      assert prefix + path == path;
    } else {
      assert (prefix + path)[1..] == prefix[1..] + path;
      PrefixIsStripped(prefix[1..], path);
      assert Slashed(prefix + path)[1..] == Slashed(prefix[1..] + path);
    }
  }

  lemma {:induction false} SlashesAreAlike(path: string)
    ensures Slashed(Windows(path)) == Slashed(path)
  {
    if path != "" {
      assert Windows(path)[1..] == Windows(path[1..]);
      SlashesAreAlike(path[1..]);
    }
  }

  /** A path in relative, dotted or Windows form is owned like the plain one. */
  lemma OwnerSeesThroughPrefixes(d: Diagnostic, prefix: string, plain: string)
    requires ExplicitOwner(d.code).None? && forall i :: 0 <= i < |prefix| ==> prefix[i] in {'.', '/', '\\'}
    requires d.file == prefix + plain || d.file == prefix + Windows(plain)
    ensures OwnerOf(d) == OwnerOf(d.(file := plain))
  {
    PrefixIsStripped(prefix, plain);
    PrefixIsStripped(prefix, Windows(plain));
    SlashesAreAlike(plain);
  }

  /** A plain path is compared as it is. */
  lemma PlainPathIsItself(path: string)
    requires '\\' !in path && path != "" && path[0] !in {'.', '/'}
    ensures Normalized(path) == path
  {
    NoBackslashes(path);
  }

  lemma {:induction false} NoBackslashes(path: string)
    requires '\\' !in path
    ensures Slashed(path) == path
  {
    if path != "" {
      assert path == [path[0]] + path[1..];
      NoBackslashes(path[1..]);
    }
  }
}
