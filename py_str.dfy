/** A model of the one piece of Python's string library the booking form relies on:
    `s.split(sep)[0]`, the piece of `s` that comes before the first occurrence of a
    non-empty separator `sep`, or all of `s` when `sep` does not occur. */
module PyStr {

  /** `sep` occurs in `s` starting at index `i`. */
  predicate OccursAt(s: string, sep: string, i: nat) {
    i + |sep| <= |s| && s[i..i + |sep|] == sep
  }

  /** `sep` occurs somewhere in `s` (Python's `sep in s`). */
  ghost predicate Contains(s: string, sep: string) {
    exists i: nat :: i <= |s| && OccursAt(s, sep, i)
  }

  /** Reference definition of "r is the first piece of s.split(sep)": r is a prefix
      of s, no occurrence of sep starts inside r, and r either is all of s or is
      followed directly by an occurrence of sep. */
  ghost predicate IsFirstPiece(s: string, sep: string, r: string) {
    && r <= s
    && (forall i: nat :: i < |r| ==> !OccursAt(s, sep, i))
    && (r == s || OccursAt(s, sep, |r|))
  }

  /** Dropping the first character shifts every later occurrence down by one. */
  lemma OccursAtTail(s: string, sep: string, i: nat)
    requires 0 < i && s != []
    ensures OccursAt(s, sep, i) <==> OccursAt(s[1..], sep, i - 1)
  {
    if i + |sep| <= |s| {
      assert s[i..i + |sep|] == s[1..][i - 1..i - 1 + |sep|];
    }
  }

  /** Python's `s.split(sep)[0]`. Python raises ValueError for an empty separator,
      so a non-empty one is demanded of the caller. */
  function SplitFirst(s: string, sep: string): (r: string)
    requires sep != []
    ensures r <= s
    ensures forall i: nat :: i < |r| ==> !OccursAt(s, sep, i)
    ensures r == s || OccursAt(s, sep, |r|)
    decreases |s|
  {
    if |s| < |sep| then s
    else if s[..|sep|] == sep then []
    else
      var r := [s[0]] + SplitFirst(s[1..], sep);
      assert !OccursAt(s, sep, 0);
      forall i: nat | 0 < i <= |r|
        ensures OccursAt(s, sep, i) <==> OccursAt(s[1..], sep, i - 1)
      {
        OccursAtTail(s, sep, i);
      }
      r
  }

  /** The first piece is uniquely determined by the reference definition, so
      SplitFirst is the one function that meets it. */
  lemma FirstPieceUnique(s: string, sep: string, r1: string, r2: string)
    requires sep != []
    requires IsFirstPiece(s, sep, r1) && IsFirstPiece(s, sep, r2)
    ensures r1 == r2
  {
  }

  lemma SplitFirstIsFirstPiece(s: string, sep: string, r: string)
    requires sep != []
    ensures IsFirstPiece(s, sep, r) <==> r == SplitFirst(s, sep)
  {
    if IsFirstPiece(s, sep, r) {
      FirstPieceUnique(s, sep, r, SplitFirst(s, sep));
    }
  }

  /** The extracted piece never contains the separator. */
  lemma SplitFirstHasNoSeparator(s: string, sep: string)
    requires sep != []
    ensures !Contains(SplitFirst(s, sep), sep)
  {
    var r := SplitFirst(s, sep);
    forall i: nat | i <= |r|
      ensures !OccursAt(r, sep, i)
    {
      if i + |sep| <= |r| {
        assert r[i..i + |sep|] == s[i..i + |sep|];
        assert !OccursAt(s, sep, i);
      }
    }
  }

  /** With the separator absent, the whole string is returned. */
  lemma SplitFirstWithoutSeparator(s: string, sep: string)
    requires sep != []
    ensures !Contains(s, sep) <==> SplitFirst(s, sep) == s
  {
    var r := SplitFirst(s, sep);
    if r == s {
      SplitFirstHasNoSeparator(s, sep);
    } else {
      assert OccursAt(s, sep, |r|);
    }
  }

  /** The case the form relies on: a display string that is a code, the separator
      and a description, where no occurrence of sep starts inside the code, gives
      back exactly the code. */
  lemma SplitFirstOfCoded(code: string, sep: string, rest: string)
    requires sep != []
    requires forall i: nat :: i < |code| ==> !OccursAt(code + sep, sep, i)
    ensures SplitFirst(code + sep + rest, sep) == code
  {
    var s := code + sep + rest;
    forall i: nat | i < |code|
      ensures !OccursAt(s, sep, i)
    {
      assert !OccursAt(code + sep, sep, i);
      assert s[i..i + |sep|] == (code + sep)[i..i + |sep|];
    }
    assert s[|code|..|code| + |sep|] == sep;
    SplitFirstIsFirstPiece(s, sep, code);
  }

  /** For a one-character separator, the condition of SplitFirstOfCoded is that
      the code does not contain that character. */
  lemma CharFreeCode(code: string, c: char)
    requires c !in code
    ensures forall i: nat :: i < |code| ==> !OccursAt(code + [c], [c], i)
  {
    forall i: nat | i < |code|
      ensures !OccursAt(code + [c], [c], i)
    {
      assert (code + [c])[i..i + 1] == [code[i]];
    }
  }

  /** For a separator of the shape `a b a` (the form's " – "), a code that does
      not contain b meets the condition of SplitFirstOfCoded. */
  lemma MiddleCharFreeCode(code: string, a: char, b: char)
    requires a != b && b !in code
    ensures forall i: nat :: i < |code| ==> !OccursAt(code + [a, b, a], [a, b, a], i)
  {
    var t := code + [a, b, a];
    forall i: nat | i < |code|
      ensures !OccursAt(t, [a, b, a], i)
    {
      assert t[i + 1] != b by {
        if i + 1 < |code| {
          assert t[i + 1] == code[i + 1];
        } else {
          assert t[i + 1] == a;
        }
      }
      assert t[i..i + 3][1] == t[i + 1];
    }
  }
}
