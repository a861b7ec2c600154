/**
 * String helpers with JavaScript's meaning: `trim`, `toLowerCase` restricted
 * to ASCII letters, and `includes`.
 */
module Text {

  /**
   * The characters `String.prototype.trim` strips: the WhiteSpace and
   * LineTerminator code points of sections 12.2 and 12.3 of ECMA-262 — tab,
   * vertical tab, form feed, the BOM, every space separator (category Zs:
   * U+0020, U+00A0, U+1680, U+2000 to U+200A, U+202F, U+205F, U+3000), line
   * feed, carriage return and the line and paragraph separators.
   */
  predicate IsWhitespace(c: char) {
    c in {'\t', '\U{000B}', '\U{000C}', '\U{FEFF}',
          ' ', '\U{00A0}', '\U{1680}', '\U{202F}', '\U{205F}', '\U{3000}',
          '\n', '\r', '\U{2028}', '\U{2029}'}
    || ('\U{2000}' <= c <= '\U{200A}')
  }

  predicate AllWhitespace(s: string) {
    forall i :: 0 <= i < |s| ==> IsWhitespace(s[i])
  }

  function TrimStart(s: string): (r: string)
    ensures |r| <= |s| && r == s[|s| - |r|..]
    ensures AllWhitespace(s[..|s| - |r|])
    ensures |r| > 0 ==> !IsWhitespace(r[0])
  {
    if |s| > 0 && IsWhitespace(s[0]) then TrimStart(s[1..]) else s
  }

  function TrimEnd(s: string): (r: string)
    ensures |r| <= |s| && r == s[..|r|]
    ensures AllWhitespace(s[|r|..])
    ensures |r| > 0 ==> !IsWhitespace(r[|r| - 1])
  {
    if |s| > 0 && IsWhitespace(s[|s| - 1]) then TrimEnd(s[..|s| - 1]) else s
  }

  /** `s.trim()`: the longest slice of `s` that neither starts nor ends with whitespace. */
  function Trim(s: string): (r: string)
    ensures |r| <= |s|
    ensures |r| > 0 ==> !IsWhitespace(r[0]) && !IsWhitespace(r[|r| - 1])
  {
    TrimEnd(TrimStart(s))
  }

  /** `!s.trim()`: the string is empty or whitespace only. */
  predicate IsBlank(s: string) {
    Trim(s) == []
  }

  lemma BlankIffAllWhitespace(s: string)
    ensures IsBlank(s) <==> AllWhitespace(s)
  {
    var t := TrimStart(s);
    var u := TrimEnd(t);
    forall j | 0 <= j < |s| - |t|
      ensures IsWhitespace(s[j])
    {
      assert s[..|s| - |t|][j] == s[j];
    }
    forall j | |u| <= j < |t|
      ensures IsWhitespace(t[j])
    {
      assert t[|u|..][j - |u|] == t[j];
    }
    if !AllWhitespace(s) {
      var i :| 0 <= i < |s| && !IsWhitespace(s[i]);
      assert t[i - (|s| - |t|)] == s[i];
    }
  }

  /** A string that already neither starts nor ends with whitespace is its own trim. */
  lemma TrimOfTrimmed(s: string)
    requires |s| > 0 ==> !IsWhitespace(s[0]) && !IsWhitespace(s[|s| - 1])
    ensures Trim(s) == s
  {
  }

  /** Trimming twice is trimming once. */
  lemma TrimIdempotent(s: string)
    ensures Trim(Trim(s)) == Trim(s)
  {
    TrimOfTrimmed(Trim(s));
  }

  /** ASCII-only `toLowerCase` of one character. */
  function LowerChar(c: char): (r: char)
    ensures 'A' <= c <= 'Z' ==> r as int == c as int + 32
    ensures !('A' <= c <= 'Z') ==> r == c
  {
    if 'A' <= c <= 'Z' then (c as int + 32) as char else c
  }

  /** `s.toLowerCase()`, restricted to ASCII letters. */
  function Lower(s: string): (r: string)
    ensures |r| == |s|
    ensures forall i :: 0 <= i < |s| ==> r[i] == LowerChar(s[i])
  {
    if |s| == 0 then [] else [LowerChar(s[0])] + Lower(s[1..])
  }

  /** `t` occurs in `s` starting at index `i`. */
  predicate OccursAt(s: string, t: string, i: int) {
    0 <= i && i + |t| <= |s| && s[i..i + |t|] == t
  }

  /** `s.includes(t)`, by scanning start positions left to right. */
  predicate Contains(s: string, t: string) {
    (|t| <= |s| && s[..|t|] == t) || (|s| > 0 && Contains(s[1..], t))
  }

  lemma {:induction false} ContainsOccurs(s: string, t: string)
    requires Contains(s, t)
    ensures exists i :: OccursAt(s, t, i)
  {
    if |t| <= |s| && s[..|t|] == t {
      assert OccursAt(s, t, 0);
    } else {
      ContainsOccurs(s[1..], t);
      var i :| OccursAt(s[1..], t, i);
      assert s[1..][i..i + |t|] == s[i + 1..i + 1 + |t|];
      assert OccursAt(s, t, i + 1);
    }
  }

  lemma {:induction false} OccursContains(s: string, t: string, i: int)
    requires OccursAt(s, t, i)
    ensures Contains(s, t)
    decreases i
  {
    if i == 0 {
      assert s[..|t|] == s[i..i + |t|];
    } else {
      assert s[1..][i - 1..i - 1 + |t|] == s[i..i + |t|];
      OccursContains(s[1..], t, i - 1);
    }
  }

  /** The scan finds `t` exactly when `t` occurs at some index. */
  lemma ContainsIff(s: string, t: string)
    ensures Contains(s, t) <==> exists i :: OccursAt(s, t, i)
  {
    if Contains(s, t) {
      ContainsOccurs(s, t);
    }
    if exists i :: OccursAt(s, t, i) {
      var i :| OccursAt(s, t, i);
      OccursContains(s, t, i);
    }
  }

  /** Every string contains the empty string, and contains itself. */
  lemma ContainsTrivial(s: string)
    ensures Contains(s, [])
    ensures Contains(s, s)
  {
  }

  predicate IsDigit(c: char) {
    '0' as int <= c as int <= '9' as int
  }

  /** The decimal rendering JavaScript gives a non-negative integer, as in `'temp-' + n`. */
  function NatToString(n: nat): (s: string)
    ensures |s| > 0
    ensures forall i :: 0 <= i < |s| ==> IsDigit(s[i])
    ensures s[0] == '0' ==> n == 0
  {
    if n < 10 then [('0' as int + n) as char]
    else NatToString(n / 10) + [('0' as int + n % 10) as char]
  }

  /** The value of a string of decimal digits. */
  function DigitsValue(s: string): nat
    requires forall i :: 0 <= i < |s| ==> IsDigit(s[i])
  {
    if |s| == 0 then 0
    else
      var last := s[|s| - 1];
      assert IsDigit(last);
      DigitsValue(s[..|s| - 1]) * 10 + (last as int - '0' as int)
  }

  /** Reading back a rendered number gives the number. */
  lemma {:induction false} DecimalRoundTrip(n: nat)
    ensures DigitsValue(NatToString(n)) == n
  {
    if n >= 10 {
      var s := NatToString(n);
      assert s[..|s| - 1] == NatToString(n / 10);
      DecimalRoundTrip(n / 10);
    }
  }

  /** Different numbers render differently. */
  lemma DecimalInjective(m: nat, n: nat)
    requires NatToString(m) == NatToString(n)
    ensures m == n
  {
    DecimalRoundTrip(m);
    DecimalRoundTrip(n);
  }
}
