/**
 * String and byte helpers the gateway relies on: Python's `str.lower()`
 * restricted to ASCII, the substring test `p in s`, `str.startswith`,
 * `str(n)` for a natural number, and ASCII `bytes` literals.
 */
module Text {

  /** One octet of a Python `bytes` value. */
  newtype byte = x: int | 0 <= x < 256

  function LowerChar(c: char): char {
    if 'A' <= c <= 'Z' then (c as int - 'A' as int + 'a' as int) as char else c
  }

  /** `s.lower()` on the ASCII letters; every other character is kept. */
  function Lower(s: string): (r: string)
    ensures |r| == |s|
  {
    seq(|s|, i requires 0 <= i < |s| => LowerChar(s[i]))
  }

  /** `s.startswith(p)`. */
  predicate StartsWith(s: string, p: string) {
    |p| <= |s| && s[..|p|] == p
  }

  /** `p` occurs in `s` starting at index `i`. */
  ghost predicate OccursAt(s: string, p: string, i: nat) {
    i + |p| <= |s| && s[i..i + |p|] == p
  }

  /** Python's substring test `p in s`, scanning from the left. */
  function Contains(s: string, p: string): bool
    decreases |s|
  {
    if |s| < |p| then false
    else StartsWith(s, p) || Contains(s[1..], p)
  }

  lemma {:induction false} ContainsIffOccurs(s: string, p: string)
    ensures Contains(s, p) <==> exists i: nat :: OccursAt(s, p, i)
    decreases |s|
  {
    if |s| < |p| {
      forall i: nat ensures !OccursAt(s, p, i) { }
    } else if StartsWith(s, p) {
      assert OccursAt(s, p, 0);
    } else {
      ContainsIffOccurs(s[1..], p);
      forall i: nat | OccursAt(s[1..], p, i) ensures OccursAt(s, p, i + 1) {
        assert s[1..][i..i + |p|] == s[i + 1..i + 1 + |p|];
      }
      forall i: nat | OccursAt(s, p, i) ensures i > 0 && OccursAt(s[1..], p, i - 1) {
        assert i != 0 by { assert s[0..|p|] == s[..|p|]; }
        assert s[1..][i - 1..i - 1 + |p|] == s[i..i + |p|];
      }
    }
  }

  /** `p` occurs in `s` at `i` when `s` is compared letter by letter, ignoring ASCII case. */
  ghost predicate OccursIgnoringCaseAt(s: string, p: string, i: nat) {
    i + |p| <= |s| && forall j :: 0 <= j < |p| ==> LowerChar(s[i + j]) == p[j]
  }

  /** `s` equals `p` letter by letter, ignoring ASCII case in `s`. */
  ghost predicate EqualsIgnoringCase(s: string, p: string) {
    |s| == |p| && forall j :: 0 <= j < |s| ==> LowerChar(s[j]) == p[j]
  }

  lemma LowerOccursAt(s: string, p: string, i: nat)
    ensures OccursAt(Lower(s), p, i) <==> OccursIgnoringCaseAt(s, p, i)
  {
  }

  /** `p in s.lower()` is a case-insensitive occurrence of `p` in `s`. */
  lemma ContainsLowerIffOccursIgnoringCase(s: string, p: string)
    ensures Contains(Lower(s), p) <==> exists i: nat :: OccursIgnoringCaseAt(s, p, i)
  {
    ContainsIffOccurs(Lower(s), p);
    forall i: nat ensures OccursAt(Lower(s), p, i) <==> OccursIgnoringCaseAt(s, p, i) {
      LowerOccursAt(s, p, i);
    }
  }

  /** `s.lower() == p` is case-insensitive equality with `p`. */
  lemma LowerEqualsIffEqualsIgnoringCase(s: string, p: string)
    ensures Lower(s) == p <==> EqualsIgnoringCase(s, p)
  {
  }

  function DigitChar(d: nat): char
    requires d < 10
  {
    ('0' as int + d) as char
  }

  predicate IsDigit(c: char) {
    '0' <= c <= '9'
  }

  /** `str(n)` for a natural number: decimal digits, no leading zero. */
  function DecimalString(n: nat): (s: string)
    ensures |s| > 0
    ensures forall k :: 0 <= k < |s| ==> IsDigit(s[k])
    ensures s[0] == '0' ==> n == 0
  {
    if n < 10 then [DigitChar(n)] else DecimalString(n / 10) + [DigitChar(n % 10)]
  }

  /** `int(s)` for a string of decimal digits. */
  function ParseDecimal(s: string): nat
    requires forall k :: 0 <= k < |s| ==> IsDigit(s[k])
  {
    if s == [] then 0
    else
      assert IsDigit(s[|s| - 1]);
      10 * ParseDecimal(s[..|s| - 1]) + (s[|s| - 1] as int - '0' as int)
  }

  /** Reading back the decimal rendering gives the number. */
  lemma {:induction false} DecimalRoundTrip(n: nat)
    ensures ParseDecimal(DecimalString(n)) == n
  {
    var s := DecimalString(n);
    if n >= 10 {
      DecimalRoundTrip(n / 10);
      assert s[..|s| - 1] == DecimalString(n / 10);
    }
  }

  predicate IsAscii(s: string) {
    forall k :: 0 <= k < |s| ==> s[k] as int < 128
  }

  /** A `b"..."` literal made of ASCII characters. */
  function AsciiBytes(s: string): (b: seq<byte>)
    requires IsAscii(s)
    ensures |b| == |s|
    ensures forall k :: 0 <= k < |s| ==> b[k] as int == s[k] as int
  {
    seq(|s|, k requires 0 <= k < |s| => s[k] as int as byte)
  }
}
