/**
 * Character and string helpers that stand for the Python built-ins the core
 * relies on: str() of an int, zero-padded formatting, str.upper(), the `in`
 * operator on strings, and the character classes of the `re` module.
 */
module Text {
  import opened Wrappers

  predicate IsDigit(c: char) { '0' <= c <= '9' }

  predicate AllDigits(s: string) { forall i :: 0 <= i < |s| ==> IsDigit(s[i]) }

  function DigitValue(c: char): (d: nat)
    requires IsDigit(c)
    ensures d < 10
  {
    c as int - '0' as int
  }

  function DigitChar(d: nat): (c: char)
    requires d < 10
    ensures IsDigit(c) && DigitValue(c) == d
  {
    ('0' as int + d) as char
  }

  /** The value of a string of decimal digits, most significant digit first. */
  function DecimalValue(s: string): nat
    requires AllDigits(s)
  {
    if s == [] then 0 else DecimalValue(s[..|s| - 1]) * 10 + DigitValue(s[|s| - 1])
  }

  /** str() of a non-negative Python int: its decimal digits, no leading zero. */
  function NatToDecimal(n: nat): (r: string)
    ensures r != [] && AllDigits(r)
    ensures |r| > 1 ==> r[0] != '0'
  {
    if n < 10 then [DigitChar(n)] else NatToDecimal(n / 10) + [DigitChar(n % 10)]
  }

  lemma {:induction false} NatToDecimalRoundTrip(n: nat)
    ensures DecimalValue(NatToDecimal(n)) == n
  {
    if n >= 10 {
      var r := NatToDecimal(n);
      assert r[..|r| - 1] == NatToDecimal(n / 10);
      NatToDecimalRoundTrip(n / 10);
    }
  }

  /** str() of a Python int. */
  function IntToDecimal(i: int): (r: string)
    ensures r != []
    ensures r[0] == '-' <==> i < 0
  {
    if i < 0 then "-" + NatToDecimal(-i) else NatToDecimal(i)
  }

  /** A number below 100 as "%02d" writes it. */
  function Two(n: nat): (r: string)
    requires n < 100
    ensures |r| == 2 && AllDigits(r) && DecimalValue(r) == n
  {
    var r := [DigitChar(n / 10), DigitChar(n % 10)];
    assert r[..1] == [r[0]] && r[..1][..0] == [];
    assert DecimalValue(r[..1]) == n / 10;
    r
  }

  /** A number below 10000 as "%04d" writes it. */
  function Four(n: nat): (r: string)
    requires n < 10000
    ensures |r| == 4 && AllDigits(r) && DecimalValue(r) == n
  {
    var r := [DigitChar(n / 1000), DigitChar(n / 100 % 10), DigitChar(n / 10 % 10), DigitChar(n % 10)];
    assert r[..3][..2][..1] == [r[0]] && r[..3][..2][..1][..0] == [];
    assert r[..3][..2] == [r[0], r[1]];
    assert r[..3] == [r[0], r[1], r[2]];
    assert DecimalValue(r[..3][..2][..1]) == n / 1000;
    assert DecimalValue(r[..3][..2]) == n / 100;
    assert DecimalValue(r[..3]) == n / 10;
    r
  }

  /**
   * The characters that `\s` matches in a str pattern of Python's `re` module
   * (the characters for which str.isspace() holds).
   */
  predicate IsSpace(c: char)
  {
    || ('\t' <= c <= '\r')
    || ('\U{001C}' <= c <= ' ')
    || c == '\U{0085}' || c == '\U{00A0}' || c == '\U{1680}'
    || ('\U{2000}' <= c <= '\U{200A}')
    || c == '\U{2028}' || c == '\U{2029}' || c == '\U{202F}' || c == '\U{205F}' || c == '\U{3000}'
  }

  /** Upper-casing of one character, for the ASCII letters; every other character is kept. */
  function UpperChar(c: char): (u: char)
    ensures !('a' <= u <= 'z')
    ensures 'a' <= c <= 'z' ==> u as int == c as int - 32
    ensures !('a' <= c <= 'z') ==> u == c
  {
    if 'a' <= c <= 'z' then (c as int - 32) as char else c
  }

  /** str.upper(), with the case mapping restricted to ASCII letters. */
  function Upper(s: string): (r: string)
    ensures |r| == |s|
    ensures forall i :: 0 <= i < |s| ==> r[i] == UpperChar(s[i])
  {
    seq(|s|, i requires 0 <= i < |s| => UpperChar(s[i]))
  }

  lemma UpperSlice(s: string, i: int, j: int)
    requires 0 <= i <= j <= |s|
    ensures Upper(s)[i..j] == Upper(s[i..j])
  {
  }

  /** Upper-casing leaves a string without lower-case ASCII letters as it is. */
  lemma UpperKeepsUpperCase(s: string)
    requires forall i :: 0 <= i < |s| ==> !('a' <= s[i] <= 'z')
    ensures Upper(s) == s
  {
  }

  /** t occurs in s starting at index i. */
  predicate OccursAt(s: string, t: string, i: int)
  {
    0 <= i && i + |t| <= |s| && s[i..i + |t|] == t
  }

  /** A word whose first character is nowhere in s occurs nowhere in s. */
  lemma AbsentInitialNeverOccurs(s: string, t: string, i: int)
    requires t != [] && forall k :: 0 <= k < |s| ==> s[k] != t[0]
    ensures !OccursAt(s, t, i)
  {
    if 0 <= i && i + |t| <= |s| {
      assert s[i..i + |t|][0] == s[i] != t[0];
    }
  }

  /** t occurs in a + t right after a. */
  lemma OccursAtEnd(a: string, t: string)
    ensures OccursAt(a + t, t, |a|)
  {
    assert (a + t)[|a|..|a| + |t|] == t;
  }

  /** An occurrence survives appending more text. */
  lemma OccursExtend(s: string, more: string, t: string, i: int)
    requires OccursAt(s, t, i)
    ensures OccursAt(s + more, t, i)
  {
    assert (s + more)[i..i + |t|] == s[i..i + |t|];
  }

  /** `t in s` for Python strings: some occurrence of t as a substring of s. */
  function Contains(s: string, t: string): (b: bool)
    ensures b <==> exists i :: OccursAt(s, t, i)
    decreases |s|
  {
    if |s| < |t| then false
    else if s[..|t|] == t then (assert OccursAt(s, t, 0); true)
    else
      var rest := Contains(s[1..], t);
      OccursShift(s, t);
      rest
  }

  lemma OccursShift(s: string, t: string)
    requires |s| >= |t| && s[..|t|] != t
    ensures (exists i :: OccursAt(s, t, i)) <==> (exists i :: OccursAt(s[1..], t, i))
  {
    forall i | OccursAt(s, t, i)
      ensures OccursAt(s[1..], t, i - 1)
    {
      assert i != 0;
      assert s[1..][i - 1..i - 1 + |t|] == s[i..i + |t|];
    }
    forall i | OccursAt(s[1..], t, i)
      ensures OccursAt(s, t, i + 1)
    {
      assert s[1..][i..i + |t|] == s[i + 1..i + 1 + |t|];
    }
  }

  /** The index of the first occurrence of c in s, if there is one. */
  function FirstIndexOf(s: string, c: char): (r: Option<nat>)
    ensures r.Some? ==> r.value < |s| && s[r.value] == c
    ensures r.Some? ==> forall k :: 0 <= k < r.value ==> s[k] != c
    ensures r.None? ==> forall k :: 0 <= k < |s| ==> s[k] != c
  {
    if s == [] then None
    else if s[0] == c then Some(0)
    else match FirstIndexOf(s[1..], c)
      case None => None
      case Some(k) => Some(k + 1)
  }

  /** The index of the last occurrence of c in s, if there is one. */
  function LastIndexOf(s: string, c: char): (r: Option<nat>)
    ensures r.Some? ==> r.value < |s| && s[r.value] == c
    ensures r.Some? ==> forall k :: r.value < k < |s| ==> s[k] != c
    ensures r.None? ==> forall k :: 0 <= k < |s| ==> s[k] != c
  {
    if s == [] then None
    else if s[|s| - 1] == c then Some(|s| - 1)
    else LastIndexOf(s[..|s| - 1], c)
  }
}
