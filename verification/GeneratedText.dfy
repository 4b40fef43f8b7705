/** Text written into generated files: dart_string and yaml_scalar of src/ports/templates.py, and
    the readers that see it again, the Dart and YAML scanners. */
module GeneratedText {
  import opened Options

  /** str.replace for a pattern of one character. */
  function Replace(s: string, c: char, to: string): string {
    if s == "" then "" else Put(s[0], c, to) + Replace(s[1..], c, to)
  }

  function Put(x: char, c: char, to: string): string { if x == c then to else [x] }

  lemma Associates(a: string, b: string, c: string)
    ensures a + (b + c) == a + b + c
  {
  }

  lemma {:induction false} ReplaceConcat(a: string, b: string, c: char, to: string)
    ensures Replace(a + b, c, to) == Replace(a, c, to) + Replace(b, c, to)
  {
    if a == "" {
      assert a + b == b;
    } else {
      ReplaceConcat(a[1..], b, c, to);
      var s := a + b;
      assert s[0] == a[0] && s[1..] == a[1..] + b;
      Associates(Put(a[0], c, to), Replace(a[1..], c, to), Replace(b, c, to));
    }
  }

  // ---- Dart string literals ------------------------------------------------

  /** Five replaces in a row, each over the output of the one before. */
  function DartString(value: string): string {
    Replace(Replace(Replace(Replace(Replace(value, '\\', "\\\\"), '\'', "\\'"), '$', "\\$"), '\r', ""), '\n', "\\n")
  }

  function EscapeOf(c: char): string {
    match c
    case '\\' => "\\\\"
    case '\'' => "\\'"
    case '$' => "\\$"
    case '\r' => ""
    case '\n' => "\\n"
    case _ => [c]
  }

  /** Each character escaped on its own, left to right. */
  function Escaped(s: string): string {
    if s == "" then "" else EscapeOf(s[0]) + Escaped(s[1..])
  }

  lemma DartStringConcat(a: string, b: string)
    ensures DartString(a + b) == DartString(a) + DartString(b)
  {
    var (a1, b1) := (Replace(a, '\\', "\\\\"), Replace(b, '\\', "\\\\"));
    var (a2, b2) := (Replace(a1, '\'', "\\'"), Replace(b1, '\'', "\\'"));
    var (a3, b3) := (Replace(a2, '$', "\\$"), Replace(b2, '$', "\\$"));
    ReplaceConcat(a, b, '\\', "\\\\");
    ReplaceConcat(a1, b1, '\'', "\\'");
    ReplaceConcat(a2, b2, '$', "\\$");
    ReplaceConcat(a3, b3, '\r', "");
    ReplaceConcat(Replace(a3, '\r', ""), Replace(b3, '\r', ""), '\n', "\\n");
  }

  lemma ReplaceOne(x: char, c: char, to: string)
    ensures Replace([x], c, to) == if x == c then to else [x]
  {
    assert [x][1..] == "";
  }

  lemma ReplaceTwo(x: char, y: char, c: char, to: string)
    requires x != c && y != c
    ensures Replace([x, y], c, to) == [x, y]
  {
    assert [x, y] == [x] + [y];
    ReplaceConcat([x], [y], c, to);
    ReplaceOne(x, c, to);
    ReplaceOne(y, c, to);
  }

  /** On one character no later replace touches what an earlier one put in. */
  lemma DartStringOfOne(x: char)
    ensures DartString([x]) == EscapeOf(x)
  {
    ReplaceOne(x, '\\', "\\\\");
    ReplaceOne(x, '\'', "\\'");
    ReplaceOne(x, '$', "\\$");
    ReplaceOne(x, '\r', "");
    ReplaceOne(x, '\n', "\\n");
    ReplaceTwo('\\', '\\', '\'', "\\'");
    ReplaceTwo('\\', '\\', '$', "\\$");
    ReplaceTwo('\\', '\\', '\r', "");
    ReplaceTwo('\\', '\\', '\n', "\\n");
    ReplaceTwo('\\', '\'', '$', "\\$");
    ReplaceTwo('\\', '\'', '\r', "");
    ReplaceTwo('\\', '\'', '\n', "\\n");
    ReplaceTwo('\\', '$', '\r', "");
    ReplaceTwo('\\', '$', '\n', "\\n");
  }

  /** The chain of whole-string replaces is one pass over the characters. */
  lemma {:induction false} ReplacesAreOnePass(s: string)
    ensures DartString(s) == Escaped(s)
  {
    if s != "" {
      assert s == [s[0]] + s[1..];
      DartStringConcat([s[0]], s[1..]);
      DartStringOfOne(s[0]);
      ReplacesAreOnePass(s[1..]);
    }
  }

  /** What a backslash and one more character stand for in Dart; \x and \u take digits as well. */
  function DartEscape(c: char): Option<char> {
    match c
    case 'n' => Some('\n')
    case 'r' => Some('\r')
    case 't' => Some('\t')
    case 'b' => Some(8 as char)
    case 'f' => Some(12 as char)
    case 'v' => Some(11 as char)
    case 'x' => None
    case 'u' => None
    case _ => Some(c)
  }

  datatype Scanned = Scanned(value: string, rest: string)

  /** A single-quoted Dart literal from behind its opening quote: its value and what follows the
      closing quote. Nothing on a raw line break, an interpolation or a missing quote. */
  function ScanDart(s: string): Option<Scanned> {
    if s == "" || s[0] == '$' || s[0] == '\n' || s[0] == '\r' then None
    else if s[0] == '\'' then Some(Scanned("", s[1..]))
    else if s[0] == '\\' then
      if |s| == 1 || DartEscape(s[1]).None? then None else Before(DartEscape(s[1]).value, ScanDart(s[2..]))
    else Before(s[0], ScanDart(s[1..]))
  }

  function Before(c: char, o: Option<Scanned>): Option<Scanned> {
    if o.None? then None else Some(Scanned([c] + o.value.value, o.value.rest))
  }

  function WithoutReturns(s: string): string { Replace(s, '\r', "") }

  /** An escaped string between single quotes is one literal, it ends at the quote that was put
      after it whatever comes next, and it means the input without its carriage returns. */
  lemma DartLiteralRoundTrip(value: string, rest: string)
    ensures ScanDart(DartString(value) + ("'" + rest)) == Some(Scanned(WithoutReturns(value), rest))
  {
    ReplacesAreOnePass(value);
    ScanEscaped(value, rest);
  }

  lemma {:induction false} ScanEscaped(s: string, rest: string)
    ensures ScanDart(Escaped(s) + ("'" + rest)) == Some(Scanned(WithoutReturns(s), rest))
  {
    if s == "" {
      assert "" + ("'" + rest) == "'" + rest;
      assert ("'" + rest)[1..] == rest;
    } else {
      ScanEscaped(s[1..], rest);
      Associates(EscapeOf(s[0]), Escaped(s[1..]), "'" + rest);
      ScanOneEscape(s[0], Escaped(s[1..]) + ("'" + rest));
      assert "" + WithoutReturns(s[1..]) == WithoutReturns(s[1..]);
    }
  }

  lemma ScanOneEscape(c: char, tail: string)
    ensures ScanDart(EscapeOf(c) + tail) == if c == '\r' then ScanDart(tail) else Before(c, ScanDart(tail))
  {
    var s := EscapeOf(c) + tail;
    if c == '\r' {
      assert s == tail;
    } else if |EscapeOf(c)| == 1 {
      assert s[0] == c && s[1..] == tail;
    } else {
      assert s[0] == '\\' && s[1] == EscapeOf(c)[1] && s[2..] == tail;
    }
  }

  /** The literal means exactly the input when there is no carriage return to lose. */
  lemma {:induction false} ReturnsAreTheOnlyLoss(value: string)
    ensures |WithoutReturns(value)| <= |value|
    ensures WithoutReturns(value) == value <==> '\r' !in value
  {
    if value != "" {
      ReturnsAreTheOnlyLoss(value[1..]);
      assert value == [value[0]] + value[1..];
      if value[0] != '\r' && WithoutReturns(value) == value {
        assert WithoutReturns(value)[1..] == WithoutReturns(value[1..]);
      }
    }
  }

  // ---- YAML scalars --------------------------------------------------------

  /** The characters str.split() separates on. */
  predicate IsSpace(c: char) {
    var n := c as int;
    || 0x09 <= n <= 0x0D || 0x1C <= n <= 0x20 || n == 0x85 || n == 0xA0 || n == 0x1680
    || 0x2000 <= n <= 0x200A || n == 0x2028 || n == 0x2029 || n == 0x202F || n == 0x205F || n == 0x3000
  }

  predicate IsWord(w: string) { w != "" && forall i :: 0 <= i < |w| ==> !IsSpace(w[i]) }

  /** str.split(): the maximal runs of characters that are not white space. */
  function Words(s: string): (ws: seq<string>)
    ensures forall i :: 0 <= i < |ws| ==> IsWord(ws[i])
    ensures s != "" && !IsSpace(s[0]) ==> ws != []
  {
    if s == "" then []
    else if IsSpace(s[0]) then Words(s[1..])
    else if |s| == 1 || IsSpace(s[1]) then [[s[0]]] + Words(s[1..])
    else
      var ws := Words(s[1..]);
      [[s[0]] + ws[0]] + ws[1..]
  }

  function Join(ws: seq<string>): string {
    if ws == [] then "" else if |ws| == 1 then ws[0] else ws[0] + " " + Join(ws[1..])
  }

  function Collapsed(value: string): string { Join(Words(value)) }

  function YamlScalar(value: string): string { "'" + Replace(Collapsed(value), '\'', "''") + "'" }

  lemma {:induction false} WordsOfWord(w: string, rest: string)
    requires IsWord(w)
    requires rest != "" ==> IsSpace(rest[0])
    ensures Words(w + rest) == [w] + Words(rest)
  {
    var s := w + rest;
    assert s[0] == w[0] && s[1..] == w[1..] + rest;
    if |w| == 1 {
      assert w == [w[0]] && s[1..] == rest;
    } else {
      assert s[1] == w[1] && !IsSpace(w[1]);
      assert forall i :: 0 <= i < |w[1..]| ==> w[1..][i] == w[i + 1];
      WordsOfWord(w[1..], rest);
      assert w == [w[0]] + w[1..];
      assert Words(s) == [[w[0]] + w[1..]] + Words(rest);
    }
  }

  lemma {:induction false} WordsOfJoin(ws: seq<string>)
    requires forall i :: 0 <= i < |ws| ==> IsWord(ws[i])
    ensures Words(Join(ws)) == ws
  {
    if |ws| == 1 {
      WordsOfWord(ws[0], "");
      assert ws[0] + "" == ws[0];
    } else if ws != [] {
      WordsOfJoin(ws[1..]);
      var rest := " " + Join(ws[1..]);
      assert ws[0] + " " + Join(ws[1..]) == ws[0] + rest;
      WordsOfWord(ws[0], rest);
      assert rest[1..] == Join(ws[1..]);
    }
  }

  /** Collapsing keeps the words and their order, so doing it again changes nothing. */
  lemma CollapsingKeepsWords(value: string)
    ensures Words(Collapsed(value)) == Words(value)
    ensures Collapsed(Collapsed(value)) == Collapsed(value)
  {
    WordsOfJoin(Words(value));
  }

  /** White space at i is one blank between two words. */
  predicate BlankBetweenWords(s: string, i: nat)
    requires i < |s|
  {
    IsSpace(s[i]) ==> s[i] == ' ' && 0 < i < |s| - 1 && !IsSpace(s[i - 1]) && !IsSpace(s[i + 1])
  }

  lemma {:induction false} JoinIsTidy(ws: seq<string>)
    requires forall i :: 0 <= i < |ws| ==> IsWord(ws[i])
    ensures ws != [] ==> Join(ws) != "" && !IsSpace(Join(ws)[0])
    ensures forall i :: 0 <= i < |Join(ws)| ==> BlankBetweenWords(Join(ws), i)
  {
    if |ws| > 1 {
      JoinIsTidy(ws[1..]);
      var (w, tail, s) := (ws[0], Join(ws[1..]), Join(ws));
      assert IsWord(w) && tail != "";
      assert s[0] == w[0];
      forall i | 0 <= i < |s| ensures BlankBetweenWords(s, i) {
        if i < |w| {
          assert s[i] == w[i];
        } else if i == |w| {
          assert s[i - 1] == w[i - 1] && s[i + 1] == tail[0];
        } else {
          assert BlankBetweenWords(tail, i - |w| - 1);
          assert forall j :: 0 <= j < |tail| ==> s[j + |w| + 1] == tail[j];
          if IsSpace(s[i]) {
            assert s[i - 1] == tail[i - |w| - 2] && s[i + 1] == tail[i - |w|];
          }
        }
      }
    }
  }

  /** Ends a line, or stands for more than a blank: tabs, line ends in ASCII and Unicode, and the
      separators and wide spaces. */
  predicate BreaksLayout(c: char) {
    var n := c as int;
    n in {0x09, 0x0A, 0x0B, 0x0C, 0x0D, 0x1C, 0x1D, 0x1E, 0x1F, 0x85, 0xA0, 0x1680, 0x2028, 0x2029, 0x202F, 0x205F, 0x3000}
    || 0x2000 <= n <= 0x200A
  }

  /** One line, nothing to trim, and a single blank between words. */
  lemma CollapsedIsTidy(value: string)
    ensures forall i :: 0 <= i < |Collapsed(value)| ==>
              BlankBetweenWords(Collapsed(value), i) && !BreaksLayout(Collapsed(value)[i])
  {
    JoinIsTidy(Words(value));
  }

  /** The characters that are neither blanks nor layout. */
  function Solid(s: string): string {
    if s == "" then ""
    else (if s[0] == ' ' || BreaksLayout(s[0]) then "" else [s[0]]) + Solid(s[1..])
  }

  function Flat(ws: seq<string>): string { if ws == [] then "" else ws[0] + Flat(ws[1..]) }

  lemma {:induction false} SolidAppend(a: string, b: string)
    ensures Solid(a + b) == Solid(a) + Solid(b)
  {
    if a == "" {
      assert a + b == b;
    } else {
      assert (a + b)[1..] == a[1..] + b;
      SolidAppend(a[1..], b);
    }
  }

  lemma {:induction false} WordIsSolid(w: string)
    requires forall i :: 0 <= i < |w| ==> !IsSpace(w[i])
    ensures Solid(w) == w
  {
    if w != "" { WordIsSolid(w[1..]); }
  }

  lemma {:induction false} JoinIsSolid(ws: seq<string>)
    requires forall i :: 0 <= i < |ws| ==> IsWord(ws[i])
    ensures Solid(Join(ws)) == Flat(ws)
  {
    if ws != [] {
      assert IsWord(ws[0]);
      WordIsSolid(ws[0]);
      if |ws| == 1 {
        assert ws[0] + "" == ws[0];
      } else {
        JoinIsSolid(ws[1..]);
        BlankIsLost(ws[0], Join(ws[1..]));
      }
    }
  }

  lemma {:induction false} BlankIsLost(a: string, b: string)
    ensures Solid(a + " " + b) == Solid(a) + Solid(b)
  {
    SolidAppend(a + " ", b);
    SolidAppend(a, " ");
    assert " "[1..] == "";
    assert Solid(" ") == "";
    assert Solid(a) + "" == Solid(a);
  }

  lemma {:induction false} WordsAreSolid(s: string)
    ensures Flat(Words(s)) == Solid(s)
  {
    if s != "" {
      WordsAreSolid(s[1..]);
      if !IsSpace(s[0]) {
        var ws := Words(s[1..]);
        if |s| == 1 || IsSpace(s[1]) { FlatFirst([s[0]], ws); } else { FlatLonger([s[0]], ws); }
      }
    }
  }

  lemma FlatFirst(w: string, ws: seq<string>)
    ensures Flat([w] + ws) == w + Flat(ws)
  {
    assert ([w] + ws)[1..] == ws;
  }

  lemma FlatLonger(w: string, ws: seq<string>)
    requires ws != []
    ensures Flat([w + ws[0]] + ws[1..]) == w + Flat(ws)
  {
    FlatFirst(w + ws[0], ws[1..]);
  }

  /** Collapsing loses blanks and layout, and no other character. */
  lemma CollapsingLosesOnlyLayout(value: string)
    ensures Solid(Collapsed(value)) == Solid(value)
  {
    WordsAreSolid(value);
    JoinIsSolid(Words(value));
  }

  /** Not allowed in a quoted scalar, sections 5.1 and 7.3.2 of YAML 1.2. */
  predicate IsControl(c: char) { c as int < 0x20 && c != '\t' }

  /** The rest of a single-quoted scalar on one line, from behind its opening quote. */
  function ScanYaml(s: string): Option<Scanned> {
    if s == "" || IsControl(s[0]) then None
    else if s[0] != '\'' then Before(s[0], ScanYaml(s[1..]))
    else if |s| > 1 && s[1] == '\'' then Before('\'', ScanYaml(s[2..]))
    else Some(Scanned("", s[1..]))
  }

  function ReadYaml(s: string): Option<Scanned> {
    if s != "" && s[0] == '\'' then ScanYaml(s[1..]) else None
  }

  predicate Printable(s: string) { forall i :: 0 <= i < |s| ==> !IsControl(s[i]) }

  lemma PrintableCons(c: char, s: string)
    ensures Printable([c] + s) <==> !IsControl(c) && Printable(s)
  {
    var t := [c] + s;
    assert t[0] == c;
    assert forall i :: 0 <= i < |s| ==> s[i] == t[i + 1];
    assert forall i :: 0 < i < |t| ==> t[i] == s[i - 1];
  }

  lemma ScanOneDoubled(c: char, tail: string)
    ensures ScanYaml(Put(c, '\'', "''") + tail) == if IsControl(c) then None else Before(c, ScanYaml(tail))
  {
    var s := Put(c, '\'', "''") + tail;
    if c == '\'' {
      assert s[0] == '\'' && s[1] == '\'' && s[2..] == tail;
    } else {
      assert s[0] == c && s[1..] == tail;
    }
  }

  lemma {:induction false} ScanDoubled(s: string, rest: string)
    requires rest != "" ==> rest[0] != '\''
    ensures ScanYaml(Replace(s, '\'', "''") + ("'" + rest)) ==
            if Printable(s) then Some(Scanned(s, rest)) else None
  {
    if s == "" {
      assert "" + ("'" + rest) == "'" + rest;
      assert ("'" + rest)[1..] == rest;
    } else {
      assert s == [s[0]] + s[1..];
      ScanDoubled(s[1..], rest);
      PrintableCons(s[0], s[1..]);
      Associates(Put(s[0], '\'', "''"), Replace(s[1..], '\'', "''"), "'" + rest);
      ScanOneDoubled(s[0], Replace(s[1..], '\'', "''") + ("'" + rest));
    }
  }

  /** A control character that splitting does not swallow. */
  predicate Unprintable(c: char) { c as int <= 0x08 || 0x0E <= c as int <= 0x1B }

  predicate HasUnprintable(s: string) { exists i :: 0 <= i < |s| && Unprintable(s[i]) }

  /** The written scalar reads back as the collapsed text, ending where it was meant to, for exactly
      the inputs without such a control character; with one it is not a scalar at all. */
  lemma YamlScalarRoundTrip(value: string, rest: string)
    requires rest != "" ==> rest[0] != '\''
    ensures ReadYaml(YamlScalar(value) + rest) ==
            if HasUnprintable(value) then None else Some(Scanned(Collapsed(value), rest))
  {
    var s := YamlScalar(value) + rest;
    assert s[0] == '\'' && s[1..] == Replace(Collapsed(value), '\'', "''") + ("'" + rest);
    ScanDoubled(Collapsed(value), rest);
    PrintableWords(value);
    PrintableJoin(Words(value));
  }

  predicate AllPrintable(ws: seq<string>) { forall i :: 0 <= i < |ws| ==> Printable(ws[i]) }

  lemma AllPrintableCons(w: string, ws: seq<string>)
    ensures AllPrintable([w] + ws) <==> Printable(w) && AllPrintable(ws)
  {
    var t := [w] + ws;
    assert t[0] == w;
    assert forall i :: 0 <= i < |ws| ==> ws[i] == t[i + 1];
    assert forall i :: 0 < i < |t| ==> t[i] == ws[i - 1];
  }

  lemma {:induction false} PrintableWords(s: string)
    ensures AllPrintable(Words(s)) <==> !HasUnprintable(s)
  {
    if s != "" {
      PrintableWords(s[1..]);
      assert HasUnprintable(s) <==> Unprintable(s[0]) || HasUnprintable(s[1..]) by {
        assert forall i :: 0 <= i < |s[1..]| ==> s[1..][i] == s[i + 1];
        assert forall i :: 0 < i < |s| ==> s[i] == s[1..][i - 1];
      }
      if !IsSpace(s[0]) {
        var ws := Words(s[1..]);
        PrintableCons(s[0], "");
        if |s| == 1 || IsSpace(s[1]) {
          assert [s[0]] + "" == [s[0]];
          AllPrintableCons([s[0]], ws);
        } else {
          PrintableCons(s[0], ws[0]);
          AllPrintableCons([s[0]] + ws[0], ws[1..]);
          AllPrintableCons(ws[0], ws[1..]);
          assert ws == [ws[0]] + ws[1..];
        }
      }
    }
  }

  lemma PrintableConcat(a: string, b: string)
    ensures Printable(a + b) <==> Printable(a) && Printable(b)
  {
    var t := a + b;
    assert forall i :: 0 <= i < |a| ==> a[i] == t[i];
    assert forall i :: 0 <= i < |b| ==> b[i] == t[i + |a|];
    assert forall i :: |a| <= i < |t| ==> t[i] == b[i - |a|];
  }

  lemma {:induction false} PrintableJoin(ws: seq<string>)
    ensures Printable(Join(ws)) <==> AllPrintable(ws)
  {
    if |ws| > 1 {
      PrintableJoin(ws[1..]);
      AllPrintableCons(ws[0], ws[1..]);
      assert ws == [ws[0]] + ws[1..];
      PrintableConcat(ws[0] + " ", Join(ws[1..]));
      PrintableConcat(ws[0], " ");
    }
  }
}
