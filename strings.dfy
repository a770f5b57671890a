/**
 * The Python string operations the three front ends rely on: `str.endswith`,
 * `str.lower`, the slice `s[:k]`, and the decimal rendering `str(n)` that
 * f-strings apply to a non-negative integer.
 */
module Strings {

  /** `s.endswith(suffix)` */
  predicate EndsWith(s: string, suffix: string) {
    |suffix| <= |s| && s[|s| - |suffix|..] == suffix
  }

  /** `str.lower()` on one character; only the ASCII letters are folded. */
  function LowerChar(c: char): char {
    if 'A' <= c <= 'Z' then (c as int + 32) as char else c
  }

  /** `s.lower()` */
  function Lower(s: string): string {
    seq(|s|, i requires 0 <= i < |s| => LowerChar(s[i]))
  }

  /** Lowering never changes a character that is already lower case. */
  predicate IsLower(s: string) {
    forall i :: 0 <= i < |s| ==> LowerChar(s[i]) == s[i]
  }

  /** Every name a case-sensitive suffix test accepts, the test on the lowered
      name accepts too, as long as the suffix is written in lower case. */
  lemma EndsWithLower(s: string, suffix: string)
    requires IsLower(suffix)
    requires EndsWith(s, suffix)
    ensures EndsWith(Lower(s), suffix)
  {
    var k := |s| - |suffix|;
    forall i | 0 <= i < |suffix|
      ensures Lower(s)[k..][i] == suffix[i]
    {
      assert s[k..][i] == s[k + i];
    }
  }

  /** The slice `s[:k]` */
  function Prefix(s: string, k: nat): (r: string)
    ensures |r| == if k <= |s| then k else |s|
    ensures r <= s
  {
    if k <= |s| then s[..k] else s
  }

  predicate IsDigit(c: char) {
    '0' <= c <= '9'
  }

  predicate IsDigits(s: string) {
    forall i :: 0 <= i < |s| ==> IsDigit(s[i])
  }

  function DigitChar(d: nat): (c: char)
    requires d < 10
    ensures IsDigit(c)
  {
    ('0' as int + d) as char
  }

  /** `str(n)` for a non-negative integer: its decimal digits, most significant first. */
  function NatToString(n: nat): (r: string)
    ensures |r| >= 1
    ensures IsDigits(r)
    decreases n
  {
    if n < 10 then [DigitChar(n)] else NatToString(n / 10) + [DigitChar(n % 10)]
  }

  /** The value of a string of decimal digits (`int(s)`). */
  function ParseNat(s: string): nat
    requires IsDigits(s)
  {
    if s == [] then 0 else 10 * ParseNat(s[..|s| - 1]) + (s[|s| - 1] as int - '0' as int)
  }

  /** Reading back the decimal rendering of a number gives the number. */
  lemma {:induction false} ParseNatToString(n: nat)
    ensures ParseNat(NatToString(n)) == n
    decreases n
  {
    if n >= 10 {
      var s := NatToString(n);
      assert s[..|s| - 1] == NatToString(n / 10);
      ParseNatToString(n / 10);
    }
  }

  /** Distinct numbers are rendered as distinct strings. */
  lemma NatToStringInjective(m: nat, n: nat)
    requires NatToString(m) == NatToString(n)
    ensures m == n
  {
    ParseNatToString(m);
    ParseNatToString(n);
  }

  /** If two strings split at the first occurrence of a marker character, and
      neither head contains the marker, the heads are equal. */
  lemma {:induction false} SameHeadBeforeMarker(a: string, x: string, b: string, y: string, m: char)
    requires forall i :: 0 <= i < |a| ==> a[i] != m
    requires forall i :: 0 <= i < |b| ==> b[i] != m
    requires a + [m] + x == b + [m] + y
    ensures a == b
  {
    var s := a + [m] + x;
    assert s[|a|] == m && s[|b|] == m;
    assert forall i :: 0 <= i < |a| ==> s[i] == a[i];
    assert forall i :: 0 <= i < |b| ==> s[i] == b[i];
    if |a| < |b| || |b| < |a| {
      assert false;
    }
    assert a == s[..|a|];
    assert b == s[..|b|];
  }

  /** Strings that share a prefix and put a number before a non-digit are
      equal only when the numbers are. */
  lemma NumberedEqual(p: string, m: nat, n: nat, c: char, x: string, y: string)
    requires !IsDigit(c)
    requires p + NatToString(m) + [c] + x == p + NatToString(n) + [c] + y
    ensures m == n
  {
    var a, b := NatToString(m), NatToString(n);
    assert (p + a + [c] + x)[|p|..] == a + [c] + x;
    assert (p + b + [c] + y)[|p|..] == b + [c] + y;
    SameHeadBeforeMarker(a, x, b, y, c);
    NatToStringInjective(m, n);
  }
}
