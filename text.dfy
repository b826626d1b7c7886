/**
  Python's string primitives that the execution engine relies on, over
  `string` (a `seq<char>`): substring search (`p in s`, `s.find(p)`),
  `s.split(sep)` and its inverse `sep.join(parts)`.
 */
module Text {

  datatype Option<T> = None | Some(value: T)

  /** `p` occurs in `s` starting at index `i`. */
  predicate OccursAt(p: string, s: string, i: int)
  {
    0 <= i && i + |p| <= |s| && s[i..i + |p|] == p
  }

  /** Python's `p in s`: the empty pattern is in every text, and no pattern longer than the text is. */
  predicate Contains(s: string, p: string)
    ensures p == [] ==> Contains(s, p)
    ensures Contains(s, p) ==> |p| <= |s|
  {
    assert p == [] ==> OccursAt(p, s, 0);
    exists i | 0 <= i <= |s| :: OccursAt(p, s, i)
  }

  /** Shifting the search window by one character. */
  lemma OccursAtTail(p: string, s: string, i: nat)
    requires |s| > 0
    ensures OccursAt(p, s[1..], i) <==> OccursAt(p, s, i + 1)
  {
    if 0 <= i && i + |p| <= |s| - 1 {
      assert s[1..][i..i + |p|] == s[i + 1..i + 1 + |p|];
    }
  }

  /** Python's `s.find(p)`: the index of the leftmost occurrence of `p`, or `None` where Python gives -1. */
  function Find(s: string, p: string): (r: Option<nat>)
    ensures r.Some? ==> r.value + |p| <= |s|
    decreases |s|
  {
    if |s| < |p| then None
    else if s[..|p|] == p then Some(0)
    else
      match Find(s[1..], p)
      case None => None
      case Some(k) => Some(k + 1)
  }

  /** What `Find` reports is an occurrence. */
  lemma {:induction false} FindOccurs(s: string, p: string)
    requires Find(s, p).Some?
    ensures OccursAt(p, s, Find(s, p).value)
    decreases |s|
  {
    if |s| >= |p| && s[..|p|] != p {
      FindOccurs(s[1..], p);
      OccursAtTail(p, s, Find(s[1..], p).value);
    }
  }

  /** `Find` gives an occurrence, none before it, and `None` exactly when there is none at all. */
  lemma {:induction false} FindCorrect(s: string, p: string)
    ensures Find(s, p).Some? ==> OccursAt(p, s, Find(s, p).value)
    ensures Find(s, p).Some? ==> forall j :: 0 <= j < Find(s, p).value ==> !OccursAt(p, s, j)
    ensures Find(s, p).None? <==> !Contains(s, p)
    decreases |s|
  {
    if |s| < |p| {
    } else if s[..|p|] == p {
      assert OccursAt(p, s, 0);
    } else {
      FindCorrect(s[1..], p);
      forall j: nat ensures OccursAt(p, s[1..], j) <==> OccursAt(p, s, j + 1) {
        OccursAtTail(p, s, j);
      }
      forall j | 0 < j ensures OccursAt(p, s, j) ==> OccursAt(p, s[1..], j - 1) {
        OccursAtTail(p, s, j - 1);
      }
      assert !OccursAt(p, s, 0);
    }
  }

  /** Python's `s.split(sep)` for a non-empty separator (Python raises ValueError on an empty one). */
  function Split(s: string, sep: string): (parts: seq<string>)
    requires |sep| > 0
    ensures |parts| >= 1
    decreases |s|
  {
    match Find(s, sep)
    case None => [s]
    case Some(i) => [s[..i]] + Split(s[i + |sep|..], sep)
  }

  /** A split has a single piece, the whole text, exactly when the separator does not occur. */
  lemma SplitSingle(s: string, sep: string)
    requires |sep| > 0
    ensures |Split(s, sep)| == 1 <==> !Contains(s, sep)
    ensures |Split(s, sep)| == 1 ==> Split(s, sep)[0] == s
  {
    FindCorrect(s, sep);
  }

  /** One step of a split: the text before the leftmost separator, then the split of what follows it. */
  lemma SplitUnfold(s: string, sep: string, i: nat)
    requires |sep| > 0
    requires Find(s, sep) == Some(i)
    ensures Split(s, sep) == [s[..i]] + Split(s[i + |sep|..], sep)
  {
  }

  /** No piece of a split contains the separator. */
  lemma {:induction false} SplitPiecesFree(s: string, sep: string, k: nat)
    requires |sep| > 0
    requires k < |Split(s, sep)|
    ensures !Contains(Split(s, sep)[k], sep)
    decreases |s|
  {
    var f := Find(s, sep);
    if f.Some? {
      var i := f.value;
      var rest := s[i + |sep|..];
      SplitUnfold(s, sep, i);
      if k == 0 {
        PrefixBeforeFirst(s, sep, i);
      } else {
        SplitPiecesFree(rest, sep, k - 1);
      }
    } else {
      FindCorrect(s, sep);
    }
  }

  /** The text before the leftmost occurrence of `p` does not contain `p`. */
  lemma PrefixBeforeFirst(s: string, p: string, i: nat)
    requires |p| > 0
    requires Find(s, p) == Some(i)
    ensures !Contains(s[..i], p)
  {
    FindCorrect(s, p);
    forall j | OccursAt(p, s[..i], j) ensures false {
      assert s[..i][j..j + |p|] == s[j..j + |p|];
      assert OccursAt(p, s, j) && j < i;
    }
  }

  /** A prefix of `s` too short to hold the leftmost occurrence of `p` does not contain `p`. */
  lemma PrefixShortOfFirst(s: string, p: string, i: nat, m: nat)
    requires Find(s, p) == Some(i)
    requires m <= |s| && m < i + |p|
    ensures !Contains(s[..m], p)
  {
    FindCorrect(s, p);
    forall j | OccursAt(p, s[..m], j) ensures false {
      assert s[..m][j..j + |p|] == s[j..j + |p|];
      assert OccursAt(p, s, j) && j < i;
    }
  }

  /** Python's `sep.join(parts)`. */
  function Join(parts: seq<string>, sep: string): (s: string)
    ensures |parts| == 1 ==> s == parts[0]
    decreases |parts|
  {
    if parts == [] then []
    else if |parts| == 1 then parts[0]
    else parts[0] + sep + Join(parts[1..], sep)
  }

  /** Joining a list of two pieces or more puts the separator after its first piece. */
  lemma JoinCons(first: string, parts: seq<string>, sep: string)
    requires |parts| >= 1
    ensures Join([first] + parts, sep) == first + sep + Join(parts, sep)
  {
    assert ([first] + parts)[1..] == parts;
  }

  /** A text is the part before an occurrence, the occurrence, and the part after it. */
  lemma Reassemble(s: string, p: string, i: nat)
    requires OccursAt(p, s, i)
    ensures s == s[..i] + p + s[i + |p|..]
  {
    assert s == s[..i] + s[i..i + |p|] + s[i + |p|..];
  }

  /** Joining the pieces of a split with the same separator gives back the original text. */
  lemma {:induction false} JoinSplit(s: string, sep: string)
    requires |sep| > 0
    ensures Join(Split(s, sep), sep) == s
    decreases |s|
  {
    var f := Find(s, sep);
    if f.Some? {
      var i := f.value;
      var rest := s[i + |sep|..];
      var parts := Split(rest, sep);
      JoinSplit(rest, sep);
      SplitUnfold(s, sep, i);
      FindOccurs(s, sep);
      JoinCons(s[..i], parts, sep);
      Reassemble(s, sep, i);
    } else {
      assert Split(s, sep) == [s];
    }
  }

  /** The first piece of a split is the text up to the leftmost separator, or all of it. */
  lemma SplitFirst(s: string, sep: string)
    requires |sep| > 0
    ensures Split(s, sep)[0] == match Find(s, sep) case None => s case Some(i) => s[..i]
  {
  }

  /** The second piece of a split begins right after the leftmost separator. */
  lemma SplitSecond(s: string, sep: string, i: nat)
    requires |sep| > 0
    requires Find(s, sep) == Some(i)
    ensures |Split(s, sep)| >= 2
    ensures Split(s, sep)[1] == Split(s[i + |sep|..], sep)[0]
  {
    SplitUnfold(s, sep, i);
    var parts := Split(s[i + |sep|..], sep);
    assert ([s[..i]] + parts)[1] == parts[0];
  }

  /** A one-character pattern occurs exactly where that character stands. */
  lemma OccursAtChar(c: char, s: string, i: int)
    ensures OccursAt([c], s, i) <==> 0 <= i < |s| && s[i] == c
  {
    if 0 <= i < |s| {
      assert s[i..i + 1] == [s[i]];
    }
  }

  /** A one-character pattern is contained in a text exactly when the character is. */
  lemma ContainsChar(c: char, s: string)
    ensures Contains(s, [c]) <==> c in s
  {
    if c in s {
      var i :| 0 <= i < |s| && s[i] == c;
      OccursAtChar(c, s, i);
    }
    if Contains(s, [c]) {
      var i :| OccursAt([c], s, i);
      OccursAtChar(c, s, i);
    }
  }

  /** A text containing a pattern contains every prefix of it. */
  lemma ContainsPrefixOfPattern(s: string, p: string, q: string)
    requires q <= p
    requires Contains(s, p)
    ensures Contains(s, q)
  {
    var i :| 0 <= i <= |s| && OccursAt(p, s, i);
    assert |q| <= |p|;
    assert s[i..i + |q|] == s[i..i + |p|][..|q|];
    assert OccursAt(q, s, i);
  }

  /** An occurrence with none before it is what `Find` reports. */
  lemma FindIs(s: string, p: string, i: nat)
    requires OccursAt(p, s, i)
    requires forall j :: 0 <= j < i ==> !OccursAt(p, s, j)
    ensures Find(s, p) == Some(i)
  {
    FindCorrect(s, p);
  }
}
