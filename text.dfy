/**
 * The string operations that the audit rationales and action descriptions
 * rely on: substring containment (what the source's tests check with
 * `contains`), Swift's interpolation of `Bool` and of non-negative integers.
 */
module Text {

  /** `sub` occurs in `s` starting at index `i`. */
  predicate ContainsAt(s: string, sub: string, i: int) {
    0 <= i <= |s| - |sub| && s[i..i + |sub|] == sub
  }

  /** Swift's `s.contains(sub)` for a non-empty `sub`. */
  ghost predicate Contains(s: string, sub: string) {
    exists i | 0 <= i <= |s| :: ContainsAt(s, sub, i)
  }

  lemma ContainsMiddle(a: string, b: string, c: string)
    ensures Contains(a + b + c, b)
  {
    assert (a + b + c)[|a|..|a| + |b|] == b;
    assert ContainsAt(a + b + c, b, |a|);
  }

  /** A keyword that opens the part after a fixed prefix occurs in the whole. */
  lemma ContainsAfter(prefix: string, rest: string, keyword: string)
    requires keyword <= rest
    ensures Contains(prefix + rest, keyword)
  {
    assert (prefix + rest)[|prefix|..|prefix| + |keyword|] == keyword;
    assert ContainsAt(prefix + rest, keyword, |prefix|);
  }

  /** Text added after a string keeps what it contains. */
  lemma ContainsBeforeSuffix(s: string, sub: string, after: string)
    requires Contains(s, sub)
    ensures Contains(s + after, sub)
  {
    var i :| 0 <= i <= |s| && ContainsAt(s, sub, i);
    assert (s + after)[i..i + |sub|] == s[i..i + |sub|];
    assert ContainsAt(s + after, sub, i);
  }

  /** Text added before a string keeps what it contains. */
  lemma ContainsAfterPrefix(before: string, s: string, sub: string)
    requires Contains(s, sub)
    ensures Contains(before + s, sub)
  {
    var i :| 0 <= i <= |s| && ContainsAt(s, sub, i);
    assert (before + s)[|before| + i..|before| + i + |sub|] == s[i..i + |sub|];
    assert ContainsAt(before + s, sub, |before| + i);
  }

  /** String interpolation of a `Bool`: `"\(b)"`. */
  function BoolText(b: bool): string {
    if b then "true" else "false"
  }

  predicate IsDigit(c: char) {
    '0' <= c <= '9'
  }

  function DigitChar(d: nat): (c: char)
    requires d < 10
    ensures IsDigit(c) && c as int - '0' as int == d
  {
    ('0' as int + d) as char
  }

  /** String interpolation of a non-negative integer: `"\(n)"`, in decimal without leading zeros. */
  function DecimalString(n: nat): (s: string)
    ensures |s| > 0
    ensures forall i :: 0 <= i < |s| ==> IsDigit(s[i])
    ensures n >= 10 ==> s[0] != '0'
  {
    if n < 10 then [DigitChar(n)] else DecimalString(n / 10) + [DigitChar(n % 10)]
  }

  /** The number a string of decimal digits denotes (the reading partner of DecimalString). */
  function DecimalValue(s: string): nat
    requires forall i :: 0 <= i < |s| ==> IsDigit(s[i])
  {
    if s == [] then 0
    else
      assert IsDigit(s[|s| - 1]);
      DecimalValue(s[..|s| - 1]) * 10 + (s[|s| - 1] as int - '0' as int)
  }

  /** Rendering an integer and reading it back gives the integer. */
  lemma {:induction false} DecimalRoundTrip(n: nat)
    ensures DecimalValue(DecimalString(n)) == n
  {
    var s := DecimalString(n);
    if n >= 10 {
      DecimalRoundTrip(n / 10);
      assert s[..|s| - 1] == DecimalString(n / 10);
    }
  }
}
