/**
  Extraction of install directives from a code snippet: the engine collects
  `re.findall(r"pip install (.*)", code)`, the rest of the line after each
  `pip install ` phrase, scanning left to right with non-overlapping matches.
  `.` does not match a newline, so a match always runs to the end of its line.
 */
module Requirements {
  import opened Text

  /** The literal part of the pattern `pip install (.*)`. */
  const Directive: string := "pip install "

  /** How far the group `(.*)` reaches: the number of characters before the first newline. */
  function LineEnd(s: string): (k: nat)
    ensures k <= |s|
    ensures forall j :: 0 <= j < k ==> s[j] != '\n'
    ensures k < |s| ==> s[k] == '\n'
    decreases |s|
  {
    if s == [] || s[0] == '\n' then 0 else 1 + LineEnd(s[1..])
  }

  /** `re.findall(r"pip install (.*)", code)`: the captured groups of the successive matches. */
  function FindAll(code: string): (found: seq<string>)
    ensures forall k :: 0 <= k < |found| ==> '\n' !in found[k]
    decreases |code|
  {
    if code == [] then []
    else if Directive <= code then
      var rest := code[|Directive|..];
      var end := LineEnd(rest);
      [rest[..end]] + FindAll(rest[end..])
    else FindAll(code[1..])
  }

  /** The requirement a single line carries: the text after its leftmost `pip install `. */
  function LineRequirement(line: string): Option<string>
  {
    match Find(line, Directive)
    case None => None
    case Some(i) => Some(line[i + |Directive|..])
  }

  function AsList(o: Option<string>): seq<string>
  {
    match o
    case None => []
    case Some(r) => [r]
  }

  /** The requirements of a list of lines: one per line that carries one, in line order. */
  function PerLine(lines: seq<string>): seq<string>
    decreases |lines|
  {
    if lines == [] then [] else AsList(LineRequirement(lines[0])) + PerLine(lines[1..])
  }

  lemma DirectiveHasNoNewline()
    ensures forall k :: 0 <= k < |Directive| ==> Directive[k] != '\n'
    ensures Directive[0] == 'p'
  {
  }

  /** The group `(.*)` stops exactly at the end of the line it starts on. */
  lemma {:induction false} LineEndOf(line: string, rest: string)
    requires '\n' !in line
    requires rest == [] || rest[0] == '\n'
    ensures LineEnd(line + rest) == |line|
    decreases |line|
  {
    if line != [] {
      assert (line + rest)[1..] == line[1..] + rest;
      LineEndOf(line[1..], rest);
    } else {
      assert line + rest == rest;
    }
  }

  /** Dropping a first character that does not start a directive leaves the line's requirement alone. */
  lemma LineRequirementTail(line: string)
    requires line != []
    requires !(Directive <= line)
    ensures LineRequirement(line) == LineRequirement(line[1..])
  {
    if |line| >= |Directive| {
      assert line[..|Directive|] != Directive;
      match Find(line[1..], Directive)
      case None =>
      case Some(i) =>
        assert line[1..][i + |Directive|..] == line[i + 1 + |Directive|..];
    }
  }

  /** Scanning one whole line contributes exactly that line's requirement. */
  lemma {:induction false} ScanLine(line: string, rest: string)
    requires '\n' !in line
    requires rest == [] || rest[0] == '\n'
    ensures FindAll(line + rest) == AsList(LineRequirement(line)) + FindAll(rest)
    decreases |line|
  {
    var s := line + rest;
    if line == [] {
      assert s == rest;
    } else if Directive <= s {
      DirectiveHasNoNewline();
      assert forall k :: 0 <= k < |Directive| ==> s[k] != '\n';
      assert |line| < |s| ==> s[|line|] == '\n';
      assert |line| >= |Directive|;
      assert line[..|Directive|] == s[..|Directive|];
      assert LineRequirement(line) == Some(line[|Directive|..]);
      var tail := s[|Directive|..];
      assert tail == line[|Directive|..] + rest;
      LineEndOf(line[|Directive|..], rest);
      assert tail[..|line| - |Directive|] == line[|Directive|..];
      assert tail[|line| - |Directive|..] == rest;
    } else {
      assert s[1..] == line[1..] + rest;
      assert line[..1] + line[1..] == line;
      ScanLine(line[1..], rest);
      if |line| >= |Directive| {
        assert s[..|Directive|] == line[..|Directive|];
      }
      LineRequirementTail(line);
    }
  }

  /** A newline never starts a match, so the scan steps over it. */
  lemma SkipNewline(s: string)
    requires s != [] && s[0] == '\n'
    ensures FindAll(s) == FindAll(s[1..])
  {
    DirectiveHasNoNewline();
    assert !(Directive <= s) by {
      assert s[0] != Directive[0];
    }
  }

  lemma PerLineCons(line: string, lines: seq<string>)
    ensures PerLine([line] + lines) == AsList(LineRequirement(line)) + PerLine(lines)
  {
    assert ([line] + lines)[1..] == lines;
  }

  /**
    The extracted list is, in order, the text after the leftmost `pip install `
    of every line of the snippet that has one (lines as `code.split("\n")` gives them).
   */
  lemma {:induction false} FindAllByLine(code: string)
    ensures FindAll(code) == PerLine(Split(code, "\n"))
    decreases |code|
  {
    FindCorrect(code, "\n");
    match Find(code, "\n")
    case None =>
      ContainsChar('\n', code);
      ScanLine(code, []);
      assert code + [] == code;
      assert Split(code, "\n") == [code];
      PerLineCons(code, []);
    case Some(k) =>
      SplitUnfold(code, "\n", k);
      OccursAtChar('\n', code, k);
      forall j | 0 <= j < k ensures code[j] != '\n' {
        OccursAtChar('\n', code, j);
      }
      assert '\n' !in code[..k];
      assert code == code[..k] + code[k..];
      ScanLine(code[..k], code[k..]);
      SkipNewline(code[k..]);
      assert code[k..][1..] == code[k + 1..];
      FindAllByLine(code[k + 1..]);
      PerLineCons(code[..k], Split(code[k + 1..], "\n"));
  }

  /** A snippet without any `pip install ` yields no requirement, so nothing is installed. */
  lemma {:induction false} NoDirectiveNoRequirements(code: string)
    requires !Contains(code, Directive)
    ensures FindAll(code) == []
    decreases |code|
  {
    if code != [] {
      if Directive <= code {
        assert OccursAt(Directive, code, 0);
      } else {
        forall i | 0 <= i <= |code| - 1 && OccursAt(Directive, code[1..], i) ensures false {
          OccursAtTail(Directive, code, i);
        }
        NoDirectiveNoRequirements(code[1..]);
      }
    }
  }

  /** A directive with nothing after it on its line yields an empty requirement. */
  lemma EmptyRequirement(rest: string)
    requires rest == [] || rest[0] == '\n'
    ensures FindAll(Directive + rest) == [""] + FindAll(rest)
  {
    DirectiveHasNoNewline();
    assert Find(Directive, Directive) == Some(0) by {
      assert Directive[..|Directive|] == Directive;
    }
    assert Directive[|Directive|..] == "";
    ScanLine(Directive, rest);
  }

  /** A snippet whose first line is a directive for `package` has `package` as its first requirement. */
  lemma FirstLineDirective(package: string, rest: string)
    requires '\n' !in package
    ensures FindAll(Directive + package + "\n" + rest) == [package] + FindAll(rest)
  {
    var line := Directive + package;
    assert Directive + package + "\n" + rest == line + ("\n" + rest);
    DirectiveHasNoNewline();
    assert '\n' !in line;
    assert line[..|Directive|] == Directive;
    assert line[|Directive|..] == package;
    assert LineRequirement(line) == Some(package);
    ScanLine(line, "\n" + rest);
    SkipNewline("\n" + rest);
    assert ("\n" + rest)[1..] == rest;
  }
}
