/** Decimal digits and Python's `int(str)` restricted to ASCII text. */
module Numerals {
  import opened Wrappers
  import opened Text

  predicate IsDigit(c: char) {
    '0' <= c <= '9'
  }

  predicate AllDigits(s: string) {
    forall i :: 0 <= i < |s| ==> IsDigit(s[i])
  }

  function DigitValue(c: char): nat
    requires IsDigit(c)
  {
    (c as int) - ('0' as int)
  }

  function DigitChar(k: nat): (c: char)
    requires k < 10
    ensures IsDigit(c) && DigitValue(c) == k
  {
    ((('0' as int) + k) as char)
  }

  /** The value of a string of decimal digits, most significant first. */
  function DigitsValue(s: string): nat
    requires AllDigits(s)
  {
    if s == [] then 0 else DigitsValue(s[..|s| - 1]) * 10 + DigitValue(s[|s| - 1])
  }

  /** Appending a digit multiplies the value by ten and adds the digit. */
  lemma DigitsValueSnoc(s: string, c: char)
    requires AllDigits(s) && IsDigit(c)
    ensures AllDigits(s + [c]) && DigitsValue(s + [c]) == DigitsValue(s) * 10 + DigitValue(c)
  {
    assert (s + [c])[..|s|] == s;
  }

  /** The shortest decimal rendering of a natural number (Python `str(n)`). */
  function ShowNat(n: nat): (r: string)
    ensures r != [] && AllDigits(r)
  {
    if n < 10 then [DigitChar(n)] else ShowNat(n / 10) + [DigitChar(n % 10)]
  }

  lemma {:induction false} DigitsValueShowNat(n: nat)
    ensures DigitsValue(ShowNat(n)) == n
  {
    if n >= 10 {
      var s := ShowNat(n);
      assert s[..|s| - 1] == ShowNat(n / 10);
      DigitsValueShowNat(n / 10);
    }
  }

  // ---------------------------------------------------------------------
  // The whitespace int() skips
  // ---------------------------------------------------------------------

  /** The whitespace `int()` skips around an ASCII literal: TAB, LF, VT,
      FF, CR and SPACE. The separators 0x1C-0x1F, which `str.strip()`
      drops, are not among them. */
  predicate IsIntSpace(c: char) {
    9 <= c as int <= 13 || c == ' '
  }

  predicate NoIntSpace(s: string) {
    forall i :: 0 <= i < |s| ==> !IsIntSpace(s[i])
  }

  function TrimLeft(s: string): string {
    if s != [] && IsIntSpace(s[0]) then TrimLeft(s[1..]) else s
  }

  function TrimRight(s: string): string {
    if s != [] && IsIntSpace(s[|s| - 1]) then TrimRight(s[..|s| - 1]) else s
  }

  /** What `int()` reads once the whitespace it skips is gone. */
  function Trim(s: string): string {
    TrimRight(TrimLeft(s))
  }

  /** Every character `int()` skips is one `str.strip()` drops too, but not
      the other way round: 0x1C is dropped by one and not by the other. */
  lemma IntSpaceNarrower(c: char)
    ensures IsIntSpace(c) ==> IsSpace(c)
    ensures IsSpace(28 as char) && !IsIntSpace(28 as char)
  {
  }

  /** Trimming on the left keeps a suffix and drops only skipped
      whitespace. */
  lemma {:induction false} TrimLeftShape(s: string)
    ensures var r := TrimLeft(s);
      |r| <= |s| && r == s[|s| - |r|..] && forall i :: 0 <= i < |s| - |r| ==> IsIntSpace(s[i])
  {
    if s != [] && IsIntSpace(s[0]) {
      var t := s[1..];
      TrimLeftShape(t);
      var r := TrimLeft(t);
      assert TrimLeft(s) == r;
      assert t[|t| - |r|..] == s[|s| - |r|..];
      assert forall i :: 1 <= i < |s| - |r| ==> s[i] == t[i - 1];
    }
  }

  /** Text without such whitespace is read as it stands. */
  lemma TrimNoSpace(s: string)
    requires NoIntSpace(s)
    ensures Trim(s) == s
  {
    assert TrimLeft(s) == s;
  }

  /** A last character that is not skipped stays the last character. */
  lemma TrimKeepsLast(s: string)
    requires s != [] && !IsIntSpace(s[|s| - 1])
    ensures Trim(s) != [] && Trim(s)[|Trim(s)| - 1] == s[|s| - 1]
  {
    var l := TrimLeft(s);
    TrimLeftShape(s);
    assert l != [];
    assert l[|l| - 1] == s[|s| - 1];
  }

  // ---------------------------------------------------------------------
  // int(str)
  // ---------------------------------------------------------------------

  /** `int(s)` for ASCII input: optional surrounding whitespace, an optional
      sign, then one or more decimal digits; anything else raises
      ValueError, here `None`. */
  function ParseInt(s: string): (r: Option<int>)
  {
    ParseLiteral(Trim(s))
  }

  /** The integer literal grammar once whitespace is skipped: `[+-]?[0-9]+`. */
  function ParseLiteral(t: string): (r: Option<int>)
    ensures r.Some? ==> t != [] && IsDigit(t[|t| - 1])
  {
    if t != [] && (t[0] == '+' || t[0] == '-') then
      var digits := t[1..];
      if digits != [] && AllDigits(digits) then
        var v: int := DigitsValue(digits);
        Some(if t[0] == '-' then -v else v)
      else None
    else if t != [] && AllDigits(t) then Some(DigitsValue(t))
    else None
  }

  /** An unsigned digit string parses to its value. */
  lemma ParseDigits(s: string)
    requires s != [] && AllDigits(s)
    ensures ParseInt(s) == Some(DigitsValue(s))
  {
    TrimNoSpace(s);
  }

  /** A sign character followed by digits contains no whitespace. */
  lemma SignedHasNoSpace(sign: char, s: string)
    requires sign == '+' || sign == '-'
    requires AllDigits(s)
    ensures NoIntSpace([sign] + s)
  {
    var t := [sign] + s;
    forall i | 0 <= i < |t| ensures !IsIntSpace(t[i]) {
      if i > 0 {
        assert t[i] == s[i - 1];
      }
    }
  }

  lemma {:induction false} LiteralSigned(sign: char, s: string)
    requires sign == '+' || sign == '-'
    requires s != [] && AllDigits(s)
    ensures ParseLiteral([sign] + s) == Some(if sign == '-' then -(DigitsValue(s) as int) else DigitsValue(s))
  {
    assert ([sign] + s)[1..] == s;
  }

  /** Text without whitespace is parsed as it stands. */
  lemma {:induction false} ParseIntNoSpace(t: string)
    requires NoIntSpace(t)
    ensures ParseInt(t) == ParseLiteral(t)
  {
    TrimNoSpace(t);
  }

  /** A sign followed by a digit string parses to the signed value. */
  lemma {:induction false} ParseSignedDigits(sign: char, s: string)
    requires sign == '+' || sign == '-'
    requires s != [] && AllDigits(s)
    ensures ParseInt([sign] + s) == Some(if sign == '-' then -(DigitsValue(s) as int) else DigitsValue(s))
  {
    SignedHasNoSpace(sign, s);
    ParseIntNoSpace([sign] + s);
    LiteralSigned(sign, s);
  }

  /** `int(str(n)) == n` and `int("-" + str(n)) == -n`. */
  lemma {:induction false} ParseIntShowNat(n: nat)
    ensures ParseInt(ShowNat(n)) == Some(n)
    ensures ParseInt("-" + ShowNat(n)) == Some(-(n as int))
  {
    DigitsValueShowNat(n);
    ParseDigits(ShowNat(n));
    ParseSignedDigits('-', ShowNat(n));
    assert "-" + ShowNat(n) == ['-'] + ShowNat(n);
  }

  /** Whatever ends in a character that is neither skipped whitespace nor a
      digit is not an integer literal; this includes a trailing 0x1C-0x1F. */
  lemma {:induction false} ParseIntRejectsTrailing(s: string)
    requires s != [] && !IsIntSpace(s[|s| - 1]) && !IsDigit(s[|s| - 1])
    ensures ParseInt(s).None?
  {
    TrimKeepsLast(s);
    var t := Trim(s);
    assert t != [] && t[|t| - 1] == s[|s| - 1];
    assert ParseLiteral(t).None?;
  }
}
