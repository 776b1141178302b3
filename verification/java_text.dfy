/** The few pieces of `java.lang.String` and `java.lang.Integer` behaviour
    that the storage code relies on, stated over Dafny strings. */
module JavaText {
  import opened Optional

  /** `String.startsWith`. */
  predicate StartsWith(s: string, prefix: string) {
    |prefix| <= |s| && s[..|prefix|] == prefix
  }

  /** A prefix of the tail extends to a prefix of the whole. */
  lemma StartsWithAppend(a: string, b: string, prefix: string)
    requires StartsWith(b, prefix)
    ensures StartsWith(a + b, a + prefix)
  {
    assert (a + b)[..|a + prefix|] == a + b[..|prefix|];
  }

  /** `String.endsWith`. */
  predicate EndsWith(s: string, suffix: string) {
    |suffix| <= |s| && s[|s| - |suffix|..] == suffix
  }

  // ---------------------------------------------------------------------
  // String.trim
  // ---------------------------------------------------------------------

  /** `String.trim` removes every leading and trailing char at or below U+0020. */
  predicate IsSpace(c: char) {
    c <= ' '
  }

  /** No char at or below U+0020 at either end. */
  predicate IsTrimmed(s: string) {
    s == [] || (!IsSpace(s[0]) && !IsSpace(s[|s| - 1]))
  }

  /** Every char of `s` is at or below U+0020 (this includes the empty string). */
  predicate IsBlank(s: string) {
    forall i :: 0 <= i < |s| ==> IsSpace(s[i])
  }

  /** Drops the leading run of space chars: the result is a suffix of `s`
      that does not start with a space. */
  function TrimStart(s: string): (r: string)
    ensures |r| <= |s| && r == s[|s| - |r|..]
    ensures r == [] || !IsSpace(r[0])
  {
    if s != [] && IsSpace(s[0]) then TrimStart(s[1..]) else s
  }

  /** Drops the trailing run of space chars: the result is a prefix of `s`
      that does not end with a space. */
  function TrimEnd(s: string): (r: string)
    ensures |r| <= |s| && r == s[..|r|]
    ensures r == [] || !IsSpace(r[|r| - 1])
  {
    if s != [] && IsSpace(s[|s| - 1]) then TrimEnd(s[..|s| - 1]) else s
  }

  /** `String.trim`: no space char at either end of the result, which is
      `s` with its leading and trailing space runs removed. */
  function Trim(s: string): (r: string)
    ensures IsTrimmed(r)
    ensures |r| <= |s|
  {
    var a := TrimStart(s);
    var b := TrimEnd(a);
    assert b != [] ==> b[0] == a[0];
    b
  }

  /** Only space chars are cut off at the front. */
  lemma {:induction false} TrimStartDropsSpaces(s: string)
    ensures IsBlank(s[..|s| - |TrimStart(s)|])
  {
    if s != [] && IsSpace(s[0]) {
      TrimStartDropsSpaces(s[1..]);
      var n := |s| - |TrimStart(s)|;
      assert forall i :: 1 <= i < n ==> s[i] == s[1..][..n - 1][i - 1];
    }
  }

  /** Only space chars are cut off at the back. */
  lemma {:induction false} TrimEndDropsSpaces(s: string)
    ensures IsBlank(s[|TrimEnd(s)|..])
  {
    if s != [] && IsSpace(s[|s| - 1]) {
      var t := s[..|s| - 1];
      TrimEndDropsSpaces(t);
      var m := |TrimEnd(s)|;
      assert forall i :: m <= i < |s| - 1 ==> s[i] == t[m..][i - m];
    }
  }

  /** Trimming leaves nothing exactly when every char is a space. */
  lemma TrimEmptyIffBlank(s: string)
    ensures Trim(s) == [] <==> IsBlank(s)
  {
    var a := TrimStart(s);
    TrimStartDropsSpaces(s);
    if IsBlank(s) {
      assert a == [];
    } else {
      var k :| 0 <= k < |s| && !IsSpace(s[k]);
      assert k >= |s| - |a|;
      assert a != [];
      TrimEndDropsSpaces(a);
      assert TrimEnd(a) != [];
    }
  }

  /** Trimming a trimmed string changes nothing; in particular `Trim` is
      idempotent. */
  lemma TrimTrimmed(s: string)
    requires IsTrimmed(s)
    ensures Trim(s) == s
  {
  }

  // ---------------------------------------------------------------------
  // String.equalsIgnoreCase
  // ---------------------------------------------------------------------

  /** `Character.toUpperCase` on every char whose upper case is an ASCII
      letter: the ASCII lower-case letters, dotless i (U+0131) and long s
      (U+017F). Any other char is its own upper case here. */
  function ToUpperCase(c: char): char {
    if 'a' <= c <= 'z' then (c as int - 32) as char
    else if c == '\U{0131}' then 'I'
    else if c == '\U{017F}' then 'S'
    else c
  }

  /** `Character.toLowerCase` on every char whose lower case is an ASCII
      letter: the ASCII upper-case letters, dotted capital I (U+0130) and the
      Kelvin sign (U+212A). Any other char is its own lower case here. */
  function ToLowerCase(c: char): char {
    if 'A' <= c <= 'Z' then (c as int + 32) as char
    else if c == '\U{0130}' then 'i'
    else if c == '\U{212A}' then 'k'
    else c
  }

  /** The per-char test of `String.equalsIgnoreCase`: equal, or equal after
      upper-casing, or equal after upper-casing and then lower-casing. */
  predicate CharEqualsIgnoreCase(a: char, b: char) {
    a == b || ToUpperCase(a) == ToUpperCase(b) || ToLowerCase(ToUpperCase(a)) == ToLowerCase(ToUpperCase(b))
  }

  /** The case class of a char: lower case of its upper case. */
  function FoldCase(c: char): char {
    ToLowerCase(ToUpperCase(c))
  }

  /** Two chars match ignoring case exactly when they fold to the same char. */
  lemma CharEqualsIgnoreCaseFold(a: char, b: char)
    ensures CharEqualsIgnoreCase(a, b) <==> FoldCase(a) == FoldCase(b)
  {
  }

  /** The chars that match an ASCII letter ignoring case are that letter,
      its other case, and four non-ASCII letters: 'ı' and 'İ' match 'i' and
      'I', 'ſ' matches 's' and 'S', and the Kelvin sign matches 'k' and 'K'. */
  lemma AsciiLetterMatches(c: char, letter: char)
    requires 'a' <= letter <= 'z'
    ensures CharEqualsIgnoreCase(c, letter) <==>
              c == letter || c == (letter as int - 32) as char
              || (letter == 'i' && c in {'\U{0131}', '\U{0130}'})
              || (letter == 's' && c == '\U{017F}')
              || (letter == 'k' && c == '\U{212A}')
  {
  }

  /** `String.equalsIgnoreCase`: same length and chars pairwise equal
      ignoring case. */
  predicate EqualsIgnoreCase(s: string, t: string) {
    |s| == |t| && forall i :: 0 <= i < |s| ==> CharEqualsIgnoreCase(s[i], t[i])
  }

  /** Comparison ignoring case is an equivalence relation: reflexive,
      symmetric and transitive. */
  lemma EqualsIgnoreCaseIsEquivalence(s: string, t: string, u: string)
    ensures EqualsIgnoreCase(s, s)
    ensures EqualsIgnoreCase(s, t) ==> EqualsIgnoreCase(t, s)
    ensures EqualsIgnoreCase(s, t) && EqualsIgnoreCase(t, u) ==> EqualsIgnoreCase(s, u)
  {
    forall i | 0 <= i < |s| && i < |t| && i < |u|
      ensures CharEqualsIgnoreCase(s[i], t[i]) <==> FoldCase(s[i]) == FoldCase(t[i])
      ensures CharEqualsIgnoreCase(t[i], u[i]) <==> FoldCase(t[i]) == FoldCase(u[i])
      ensures CharEqualsIgnoreCase(s[i], u[i]) <==> FoldCase(s[i]) == FoldCase(u[i])
    {
      CharEqualsIgnoreCaseFold(s[i], t[i]);
      CharEqualsIgnoreCaseFold(t[i], u[i]);
      CharEqualsIgnoreCaseFold(s[i], u[i]);
    }
  }

  // ---------------------------------------------------------------------
  // Integer.toString and its inverse
  // ---------------------------------------------------------------------

  /** The Java `int` range. */
  type Int32 = x: int | -0x8000_0000 <= x < 0x8000_0000

  predicate IsDigit(c: char) {
    '0' <= c <= '9'
  }

  predicate AllDigits(s: string) {
    forall i :: 0 <= i < |s| ==> IsDigit(s[i])
  }

  function DigitChar(d: nat): (c: char)
    requires d < 10
    ensures IsDigit(c)
  {
    ('0' as int + d) as char
  }

  /** Decimal digits of a natural number, most significant first, without
      leading zeros. */
  function NatToString(n: nat): (r: string)
    ensures |r| >= 1 && AllDigits(r)
    ensures r[0] == '0' ==> n == 0
    decreases n
  {
    if n < 10 then [DigitChar(n)] else NatToString(n / 10) + [DigitChar(n % 10)]
  }

  /** `Integer.toString`, which is what `"" + n` produces for an `int`. */
  function IntToString(n: int): (r: string)
    ensures |r| >= 1
    ensures forall i :: 0 <= i < |r| ==> IsDigit(r[i]) || r[i] == '-'
    ensures r[0] == '-' <==> n < 0
  {
    if n < 0 then "-" + NatToString(-n) else NatToString(n)
  }

  /** The value of a string of decimal digits. */
  function DigitsValue(s: string): nat
    requires AllDigits(s)
  {
    if s == [] then 0 else DigitsValue(s[..|s| - 1]) * 10 + (s[|s| - 1] as int - '0' as int)
  }

  /** Reads an optionally negative decimal numeral; anything else is `None`. */
  function ParseInt(s: string): Option<int> {
    if s != [] && s[0] == '-' then
      if |s| > 1 && AllDigits(s[1..]) then Some(-(DigitsValue(s[1..]) as int)) else None
    else if s != [] && AllDigits(s) then Some(DigitsValue(s) as int)
    else None
  }

  lemma {:induction false} NatToStringValue(n: nat)
    ensures DigitsValue(NatToString(n)) == n
    decreases n
  {
    if n >= 10 {
      var p := NatToString(n / 10);
      NatToStringValue(n / 10);
      assert (p + [DigitChar(n % 10)])[..|p|] == p;
    }
  }

  /** The decimal rendering of an `int` reads back as the same number. */
  lemma IntToStringRoundTrip(n: int)
    ensures ParseInt(IntToString(n)) == Some(n)
  {
    if n < 0 {
      NatToStringValue(-n);
      assert IntToString(n)[1..] == NatToString(-n);
    } else {
      NatToStringValue(n);
    }
  }
}
