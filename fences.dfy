/**
  Markdown fence stripping: when the snippet contains "```python", the engine
  keeps `code.split("```python")[1].split("```")[0]`, the text after the first
  opening fence up to the next fence; otherwise it keeps the snippet as it is.
 */
module Fences {
  import opened Text

  /** The opening fence of a Python code block. */
  const Fence: string := "```python"

  /** Any fence: the closing one, and the start of every opening one. */
  const Backticks: string := "```"

  /** The text the engine stages into `temp.py` for the snippet `code`. */
  function StripFence(code: string): (staged: string)
    ensures |staged| <= |code|
  {
    if Contains(code, Fence) then
      FindCorrect(code, Fence);
      var i := Find(code, Fence).value;
      SplitSecond(code, Fence, i);
      SplitIsPrefix(Split(code, Fence)[1], Backticks);
      SplitIsPrefix(code[i + |Fence|..], Fence);
      Split(Split(code, Fence)[1], Backticks)[0]
    else code
  }

  /** The first piece of a split is a prefix of the text split. */
  lemma SplitIsPrefix(s: string, sep: string)
    requires |sep| > 0
    ensures Split(s, sep)[0] <= s
  {
    SplitFirst(s, sep);
  }

  /** The text after the first opening fence, which the staged text is taken from. */
  function AfterFence(code: string): (after: string)
    requires Contains(code, Fence)
    ensures |after| < |code|
    ensures after == code[|code| - |after|..]
  {
    FindCorrect(code, Fence);
    code[Find(code, Fence).value + |Fence|..]
  }

  /** Without an opening fence the snippet is staged unchanged. */
  lemma NoFenceUnchanged(code: string)
    requires !Contains(code, Fence)
    ensures StripFence(code) == code
  {
  }

  /** The staged text is the first piece of the text after the fence, split on the first "```python" after it. */
  lemma StagedFromAfter(code: string)
    requires Contains(code, Fence)
    ensures StripFence(code) == Split(Split(AfterFence(code), Fence)[0], Backticks)[0]
  {
    FindCorrect(code, Fence);
    SplitSecond(code, Fence, Find(code, Fence).value);
  }

  /** Cutting a text at its first "```python" and then at its first "```" keeps a prefix of it. */
  lemma CutIsPrefix(t: string)
    ensures Split(Split(t, Fence)[0], Backticks)[0] <= t
  {
    SplitIsPrefix(t, Fence);
    SplitIsPrefix(Split(t, Fence)[0], Backticks);
  }

  /** The double cut ends where a "```" begins in the text, or at its end. */
  lemma CutEndsAtBackticks(t: string)
    ensures var cut := Split(Split(t, Fence)[0], Backticks)[0];
      |cut| == |t| || OccursAt(Backticks, t, |cut|)
  {
    var piece := Split(t, Fence)[0];
    SplitFirst(piece, Backticks);
    SplitFirst(t, Fence);
    match Find(piece, Backticks)
    case Some(j) =>
      FindOccurs(piece, Backticks);
      SplitIsPrefix(t, Fence);
      assert t[j..j + |Backticks|] == piece[j..j + |Backticks|];
    case None =>
      match Find(t, Fence)
      case None =>
      case Some(m) =>
        FindOccurs(t, Fence);
        assert t[m..m + |Backticks|] == t[m..m + |Fence|][..|Backticks|];
  }

  /**
    With an opening fence, the staged text follows the first "```python" directly,
    contains no "```", and ends where a "```" begins or where the snippet ends.
   */
  lemma FencedStaged(code: string)
    requires Contains(code, Fence)
    ensures StripFence(code) <= AfterFence(code)
    ensures !Contains(StripFence(code), Backticks)
    ensures |StripFence(code)| == |AfterFence(code)| || OccursAt(Backticks, AfterFence(code), |StripFence(code)|)
  {
    var after := AfterFence(code);
    StagedFromAfter(code);
    CutIsPrefix(after);
    CutEndsAtBackticks(after);
    SplitPiecesFree(Split(after, Fence)[0], Backticks, 0);
  }

  /** The staged text is the part of the snippet that starts right after its first "```python". */
  lemma StagedIsSubstring(code: string, i: nat)
    requires Find(code, Fence) == Some(i)
    ensures var staged := StripFence(code);
      && i + |Fence| + |staged| <= |code|
      && staged == code[i + |Fence|..i + |Fence| + |staged|]
  {
    FindCorrect(code, Fence);
    FencedStaged(code);
    var after := code[i + |Fence|..];
    assert after == AfterFence(code);
    assert StripFence(code) == after[..|StripFence(code)|];
  }

  /** The text up to the first "```", or all of it if there is none. */
  function UpToBackticks(t: string): (r: string)
    ensures r <= t
    ensures !Contains(r, Backticks)
  {
    FindCorrect(t, Backticks);
    match Find(t, Backticks)
    case None => t
    case Some(j) => PrefixBeforeFirst(t, Backticks, j); t[..j]
  }

  /** No "```python" starts one or two characters into the first "```" of `t`. */
  predicate OverlapFree(t: string)
  {
    match Find(t, Backticks)
    case None => true
    case Some(j) => !OccursAt(Fence, t, j + 1) && !OccursAt(Fence, t, j + 2)
  }

  /** The double cut the engine applies to the text after the first fence. */
  function Cut(t: string): string
  {
    Split(Split(t, Fence)[0], Backticks)[0]
  }

  /** Without "```python", the cut stops at the first "```", and no fence can overlap it. */
  lemma CutNoFence(t: string)
    requires !Contains(t, Fence)
    ensures Cut(t) == UpToBackticks(t)
    ensures OverlapFree(t)
  {
    FindCorrect(t, Fence);
    SplitFirst(t, Fence);
    SplitFirst(t, Backticks);
    match Find(t, Backticks)
    case None =>
    case Some(j) =>
      if OccursAt(Fence, t, j + 1) {
        assert Contains(t, Fence);
      }
      if OccursAt(Fence, t, j + 2) {
        assert Contains(t, Fence);
      }
  }

  /** An opening fence at `m` is a "```" at `m`. */
  lemma FenceIsBackticks(t: string, m: nat)
    requires OccursAt(Fence, t, m)
    ensures OccursAt(Backticks, t, m)
  {
    assert t[m..m + |Backticks|] == t[m..m + |Fence|][..|Backticks|];
  }

  lemma UpToAt(t: string, j: nat)
    requires Find(t, Backticks) == Some(j)
    ensures UpToBackticks(t) == t[..j]
  {
  }

  lemma OverlapFreeAt(t: string, j: nat)
    requires Find(t, Backticks) == Some(j)
    ensures OverlapFree(t) <==> !OccursAt(Fence, t, j + 1) && !OccursAt(Fence, t, j + 2)
  {
  }

  /** The first fence lies past the first "```": the cut stops at that "```", and no fence overlaps it. */
  lemma CutFenceFar(t: string, j: nat, m: nat)
    requires Find(t, Backticks) == Some(j)
    requires Find(t, Fence) == Some(m)
    requires m >= j + |Backticks|
    ensures Cut(t) == t[..j] == UpToBackticks(t)
    ensures OverlapFree(t)
  {
    UpToAt(t, j);
    OverlapFreeAt(t, j);
    FindCorrect(t, Backticks);
    SplitFirst(t, Fence);
    var piece := t[..m];
    assert piece[j..j + |Backticks|] == t[j..j + |Backticks|];
    forall i | 0 <= i < j ensures !OccursAt(Backticks, piece, i) {
      assert !OccursAt(Backticks, t, i);
      assert piece[i..i + |Backticks|] == t[i..i + |Backticks|];
    }
    FindIs(piece, Backticks, j);
    SplitFirst(piece, Backticks);
    FindCorrect(t, Fence);
  }

  /** The first fence lies before the end of the first "```": the cut stops at the fence. */
  lemma CutFenceNear(t: string, j: nat, m: nat)
    requires Find(t, Backticks) == Some(j)
    requires Find(t, Fence) == Some(m)
    requires m < j + |Backticks|
    ensures Cut(t) == t[..m]
  {
    FindOccurs(t, Fence);
    SplitFirst(t, Fence);
    PrefixShortOfFirst(t, Backticks, j, m);
    SplitSingle(t[..m], Backticks);
  }

  /** A "```python" cannot start one or two characters into another one. */
  lemma FenceNotOverlapped(t: string, j: nat)
    requires OccursAt(Fence, t, j)
    ensures !OccursAt(Fence, t, j + 1) && !OccursAt(Fence, t, j + 2)
  {
    assert t[j + 3] == 'p';
    if j + 1 + |Fence| <= |t| {
      assert t[j + 1..j + 1 + |Fence|][2] == t[j + 3];
    }
    if j + 2 + |Fence| <= |t| {
      assert t[j + 2..j + 2 + |Fence|][1] == t[j + 3];
    }
  }

  /** The first "```" opens the first fence: the cut stops there, and no fence overlaps it. */
  lemma CutFenceAt(t: string, j: nat)
    requires Find(t, Backticks) == Some(j)
    requires Find(t, Fence) == Some(j)
    ensures Cut(t) == t[..j] == UpToBackticks(t)
    ensures OverlapFree(t)
  {
    CutFenceNear(t, j, j);
    FindOccurs(t, Fence);
    UpToAt(t, j);
    OverlapFreeAt(t, j);
    FenceNotOverlapped(t, j);
  }

  /** The first fence starts inside the first "```": the cut runs past that "```". */
  lemma CutFenceInside(t: string, j: nat, m: nat)
    requires Find(t, Backticks) == Some(j)
    requires Find(t, Fence) == Some(m)
    requires j < m < j + |Backticks|
    ensures Cut(t) == t[..m] != UpToBackticks(t)
    ensures !OverlapFree(t)
  {
    CutFenceNear(t, j, m);
    UpToAt(t, j);
    assert |t[..m]| == m != j == |t[..j]|;
    FindOccurs(t, Fence);
    assert m == j + 1 || m == j + 2;
    OverlapFreeAt(t, j);
  }

  /** When the text holds a fence, its first "```" comes no later than its first fence. */
  lemma FirstBackticksNoLater(t: string)
    requires Contains(t, Fence)
    ensures Find(t, Fence).Some? && Find(t, Backticks).Some?
    ensures Find(t, Backticks).value <= Find(t, Fence).value
  {
    FindCorrect(t, Fence);
    var m := Find(t, Fence).value;
    FenceIsBackticks(t, m);
    FindCorrect(t, Backticks);
    assert Contains(t, Backticks);
  }

  /** The cut is the text up to the first "```" exactly when no fence overlaps that "```". */
  lemma CutUpToBackticks(t: string)
    ensures Cut(t) == UpToBackticks(t) <==> OverlapFree(t)
  {
    if !Contains(t, Fence) {
      CutNoFence(t);
    } else {
      FirstBackticksNoLater(t);
      var j, m := Find(t, Backticks).value, Find(t, Fence).value;
      if m >= j + |Backticks| {
        CutFenceFar(t, j, m);
      } else if m == j {
        CutFenceAt(t, j);
      } else {
        CutFenceInside(t, j, m);
      }
    }
  }

  /**
    With an opening fence, the staged text is the text after it up to the next
    "```" (or to the end if none follows) exactly when no second "```python"
    starts inside that "```".
   */
  lemma StagedUpToBackticks(code: string)
    requires Contains(code, Fence)
    ensures StripFence(code) == UpToBackticks(AfterFence(code)) <==> OverlapFree(AfterFence(code))
  {
    StagedFromAfter(code);
    CutUpToBackticks(AfterFence(code));
  }

  /** When a fence overlaps the first "```", the cut runs on to that fence. */
  lemma CutOverlap(t: string)
    requires !OverlapFree(t)
    ensures Find(t, Fence).Some? && Cut(t) == t[..Find(t, Fence).value]
  {
    var j := Find(t, Backticks).value;
    var k := if OccursAt(Fence, t, j + 1) then j + 1 else j + 2;
    assert OccursAt(Fence, t, k);
    FirstBackticksNoLater(t);
    FindCorrect(t, Fence);
    var m := Find(t, Fence).value;
    assert m <= k;
    CutFenceNear(t, j, m);
  }

  /**
    When a second "```python" overlaps the first "```" after the opening fence,
    the staged text runs on to that second fence: the text before the "```" and
    one or two of its backticks.
   */
  lemma StagedOverlap(code: string)
    requires Contains(code, Fence)
    requires !OverlapFree(AfterFence(code))
    ensures Find(AfterFence(code), Fence).Some?
    ensures StripFence(code) == AfterFence(code)[..Find(AfterFence(code), Fence).value]
  {
    StagedFromAfter(code);
    CutOverlap(AfterFence(code));
  }

  /** Staging is idempotent: stripping the staged text again changes nothing. */
  lemma StripFenceIdempotent(code: string)
    ensures StripFence(StripFence(code)) == StripFence(code)
  {
    if Contains(code, Fence) {
      FencedStaged(code);
      var staged := StripFence(code);
      if Contains(staged, Fence) {
        ContainsPrefixOfPattern(staged, Fence, Backticks);
      }
    }
  }

  /**
    Where a second "```python" starts one or two characters into the first "```"
    after the opening fence, the double split keeps those one or two backticks:
    the text after the fence begins with "```", yet the staged text is `lead`,
    not empty.
   */
  lemma OverlappingFence(lead: string, body: string)
    requires lead == "`" || lead == "``"
    ensures var code := Fence + lead + Fence + body;
      && Contains(code, Fence)
      && OccursAt(Backticks, AfterFence(code), 0)
      && !OverlapFree(AfterFence(code))
      && StripFence(code) == lead
  {
    var code := Fence + lead + Fence + body;
    var after := lead + Fence + body;
    assert code[..|Fence|] == Fence;
    assert OccursAt(Fence, code, 0);
    FindIs(code, Fence, 0);
    assert AfterFence(code) == after;
    assert after[..|Backticks|] == Backticks;
    FindIs(after, Backticks, 0);
    assert after[|lead|..|lead| + |Fence|] == Fence;
    forall j | 0 <= j < |lead| ensures !OccursAt(Fence, after, j) {
      assert after[j + 3] == '`' != Fence[3];
    }
    FindIs(after, Fence, |lead|);
    CutFenceInside(after, 0, |lead|);
    assert after[..|lead|] == lead;
    StagedFromAfter(code);
  }

  /** Text without a backtick before the first fence does not move where the fenced block starts. */
  lemma FenceAfterLine(line: string, body: string)
    requires '`' !in line
    ensures Contains(line + Fence + body, Fence)
    ensures AfterFence(line + Fence + body) == body
  {
    var code := line + Fence + body;
    assert code[|line|..|line| + |Fence|] == Fence;
    assert OccursAt(Fence, code, |line|);
    forall j | 0 <= j < |line| ensures !OccursAt(Fence, code, j) {
      assert code[j] == line[j];
      assert code[j..j + |Fence|][0] == code[j];
    }
    FindIs(code, Fence, |line|);
    assert code[|line| + |Fence|..] == body;
  }
}
