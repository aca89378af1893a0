/**
 * The few Python string operations the tracker relies on, restricted to
 * ASCII text: `str.strip()`, `str.lower()` and `in` on strings.
 */
module Text {
  // ---------------------------------------------------------------------
  // Whitespace and str.strip()
  // ---------------------------------------------------------------------

  /** The ASCII characters Python's `str.isspace` accepts: TAB, LF, VT, FF,
      CR, the four information separators 0x1C-0x1F, and SPACE. */
  predicate IsSpace(c: char) {
    9 <= c as int <= 13 || 28 <= c as int <= 32
  }

  predicate AllSpace(s: string) {
    forall i :: 0 <= i < |s| ==> IsSpace(s[i])
  }

  predicate NoSpace(s: string) {
    forall i :: 0 <= i < |s| ==> !IsSpace(s[i])
  }

  /** `s.lstrip()`: what is left after dropping leading whitespace. */
  function StripLeft(s: string): string {
    if s != [] && IsSpace(s[0]) then StripLeft(s[1..]) else s
  }

  /** `s.rstrip()`: what is left after dropping trailing whitespace. */
  function StripRight(s: string): string {
    if s != [] && IsSpace(s[|s| - 1]) then StripRight(s[..|s| - 1]) else s
  }

  /** `s.strip()`. */
  function Strip(s: string): string {
    StripRight(StripLeft(s))
  }

  /** `lstrip()` keeps a suffix, drops only whitespace, and stops at the
      first character that is not whitespace. */
  lemma {:induction false} StripLeftShape(s: string)
    ensures var r := StripLeft(s);
      |r| <= |s| && r == s[|s| - |r|..] && AllSpace(s[..|s| - |r|]) && (r != [] ==> !IsSpace(r[0]))
  {
    if s != [] && IsSpace(s[0]) {
      var t := s[1..];
      StripLeftShape(t);
      var r := StripLeft(t);
      assert StripLeft(s) == r;
      assert t[|t| - |r|..] == s[|s| - |r|..];
      assert s[..|s| - |r|] == [s[0]] + t[..|t| - |r|];
    }
  }

  /** `rstrip()` keeps a prefix, drops only whitespace, and stops at the
      last character that is not whitespace. */
  lemma {:induction false} StripRightShape(s: string)
    ensures var r := StripRight(s);
      |r| <= |s| && r == s[..|r|] && AllSpace(s[|r|..]) && (r != [] ==> !IsSpace(r[|r| - 1]))
  {
    if s != [] && IsSpace(s[|s| - 1]) {
      var p := s[..|s| - 1];
      StripRightShape(p);
      var r := StripRight(p);
      assert StripRight(s) == r;
      assert p[..|r|] == s[..|r|];
      assert s[|r|..] == p[|r|..] + [s[|s| - 1]];
    }
  }

  lemma {:induction false} StripLeftAppend(s: string, t: string)
    ensures StripLeft(s + t) == if AllSpace(s) then StripLeft(t) else StripLeft(s) + t
  {
    if s != [] {
      assert (s + t)[1..] == s[1..] + t;
      if IsSpace(s[0]) {
        StripLeftAppend(s[1..], t);
      }
    } else {
      assert s + t == t;
    }
  }

  lemma {:induction false} StripRightPrepend(s: string, t: string)
    ensures StripRight(s + t) == if AllSpace(t) then StripRight(s) else s + StripRight(t)
  {
    if t != [] {
      assert (s + t)[..|s + t| - 1] == s + t[..|t| - 1];
      if IsSpace(t[|t| - 1]) {
        StripRightPrepend(s, t[..|t| - 1]);
      }
    } else {
      assert s + t == s;
    }
  }

  lemma {:induction false} StripLeftAllSpace(s: string)
    requires AllSpace(s)
    ensures StripLeft(s) == []
  {
    if s != [] {
      StripLeftAllSpace(s[1..]);
    }
  }

  /** Whitespace added around a string does not change what `strip()`
      returns. */
  lemma StripPadded(w1: string, s: string, w2: string)
    requires AllSpace(w1) && AllSpace(w2)
    ensures Strip(w1 + s + w2) == Strip(s)
  {
    assert w1 + s + w2 == w1 + (s + w2);
    StripLeftAppend(w1, s + w2);
    StripLeftAppend(s, w2);
    if AllSpace(s) {
      StripLeftAllSpace(s);
      StripLeftAllSpace(w2);
    } else {
      StripRightPrepend(StripLeft(s), w2);
    }
  }

  /** A string without whitespace is its own `strip()`. */
  lemma StripNoSpace(s: string)
    requires NoSpace(s)
    ensures Strip(s) == s
  {
    assert StripLeft(s) == s;
  }

  // ---------------------------------------------------------------------
  // Case: str.lower() on ASCII letters
  // ---------------------------------------------------------------------

  function LowerChar(c: char): char {
    if 'A' <= c <= 'Z' then ((c as int) + 32) as char else c
  }

  /** `s.lower()` on ASCII letters; every other character is kept. */
  function Lower(s: string): (r: string)
    ensures |r| == |s| && forall i :: 0 <= i < |s| ==> r[i] == LowerChar(s[i])
  {
    seq(|s|, i requires 0 <= i < |s| => LowerChar(s[i]))
  }

  /** Two strings that differ at most in the case of their letters. */
  predicate EqualIgnoringCase(s: string, t: string) {
    Lower(s) == Lower(t)
  }

  lemma {:induction false} LowerStripLeft(s: string)
    ensures Lower(StripLeft(s)) == StripLeft(Lower(s))
  {
    if s != [] {
      assert Lower(s)[1..] == Lower(s[1..]);
      if IsSpace(s[0]) {
        LowerStripLeft(s[1..]);
      }
    }
  }

  lemma {:induction false} LowerStripRight(s: string)
    ensures Lower(StripRight(s)) == StripRight(Lower(s))
  {
    if s != [] {
      assert Lower(s)[..|s| - 1] == Lower(s[..|s| - 1]);
      if IsSpace(s[|s| - 1]) {
        LowerStripRight(s[..|s| - 1]);
      }
    }
  }

  /** Lowering and stripping commute: case changes never touch whitespace. */
  lemma LowerStrip(s: string)
    ensures Lower(Strip(s)) == Strip(Lower(s))
  {
    LowerStripLeft(s);
    LowerStripRight(StripLeft(s));
  }

  // ---------------------------------------------------------------------
  // Substring test: `p in s`
  // ---------------------------------------------------------------------

  predicate OccursAt(s: string, p: string, i: int) {
    0 <= i <= |s| - |p| && s[i..i + |p|] == p
  }

  predicate Contains(s: string, p: string) {
    exists i | 0 <= i <= |s| - |p| :: OccursAt(s, p, i)
  }
}
