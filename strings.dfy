/** The handful of Python `str` operations the model needs, on `seq<char>`.
    Digits are the ASCII digits `0`-`9`. */
module Strings {

  predicate IsDigit(c: char) {
    '0' <= c <= '9'
  }

  predicate AllDigits(s: string) {
    forall i :: 0 <= i < |s| ==> IsDigit(s[i])
  }

  /** True when every character of `s` is `c` (also for the empty string). */
  predicate AllChar(s: string, c: char) {
    forall i :: 0 <= i < |s| ==> s[i] == c
  }

  function DigitChar(d: nat): (c: char)
    requires d < 10
    ensures IsDigit(c)
  {
    (48 + d) as char
  }

  function DigitValue(c: char): (d: nat)
    requires IsDigit(c)
    ensures d < 10
  {
    (c as int) - 48
  }

  /** `str(n)` for a non-negative integer: its decimal digits, most significant first. */
  function NatToString(n: nat): (s: string)
    ensures |s| >= 1 && AllDigits(s)
    ensures s[0] == '0' ==> n == 0
  {
    if n < 10 then [DigitChar(n)] else NatToString(n / 10) + [DigitChar(n % 10)]
  }

  /** `int(s)` for a string of decimal digits (leading zeros allowed). */
  function DecimalValue(s: string): nat
    requires AllDigits(s)
  {
    if s == [] then 0 else DecimalValue(s[..|s| - 1]) * 10 + DigitValue(s[|s| - 1])
  }

  /** Reading back what `NatToString` writes gives the number again. */
  lemma {:induction false} DecimalValueOfNatToString(n: nat)
    ensures DecimalValue(NatToString(n)) == n
  {
    var s := NatToString(n);
    if n >= 10 {
      DecimalValueOfNatToString(n / 10);
      assert s[..|s| - 1] == NatToString(n / 10);
    }
  }

  /** Leading zeros do not change the value of a digit string. */
  lemma {:induction false} DecimalValueLeadingZeros(z: string, s: string)
    requires AllChar(z, '0') && AllDigits(s)
    ensures AllDigits(z + s) && DecimalValue(z + s) == DecimalValue(s)
    decreases |s|
  {
    if s == [] {
      assert z + s == z;
      DecimalValueOfZeros(z);
    } else {
      DecimalValueLeadingZeros(z, s[..|s| - 1]);
      assert (z + s)[..|z + s| - 1] == z + s[..|s| - 1];
    }
  }

  lemma {:induction false} DecimalValueOfZeros(z: string)
    requires AllChar(z, '0')
    ensures DecimalValue(z) == 0
    decreases |z|
  {
    if z != [] {
      DecimalValueOfZeros(z[..|z| - 1]);
    }
  }

  /** A number below 10^k has at most k digits. */
  lemma {:induction false} NatToStringLength(n: nat, k: nat)
    requires 1 <= k && n < Pow10(k)
    ensures |NatToString(n)| <= k
    decreases k
  {
    assert Pow10(1) == 10;
    if n >= 10 {
      NatToStringLength(n / 10, k - 1);
    }
  }

  function Pow10(k: nat): (p: nat)
    ensures p >= 1
  {
    if k == 0 then 1 else 10 * Pow10(k - 1)
  }

  /** `str(n)` for any integer: a `-` sign before the digits of a negative number. */
  function IntToString(n: int): (s: string)
    ensures |s| >= 1
    ensures n >= 0 <==> s[0] != '-'
    ensures n >= 0 ==> s == NatToString(n)
    ensures n < 0 ==> s == "-" + NatToString(-n)
  {
    if n < 0 then "-" + NatToString(-n) else NatToString(n)
  }

  function Repeat(c: char, n: nat): (s: string)
    ensures |s| == n && AllChar(s, c)
  {
    seq(n, _ => c)
  }

  /** `s.zfill(width)`: zeros inserted after an optional sign up to `width` characters. */
  function ZFill(s: string, width: int): (r: string)
    ensures |r| == if |s| >= width then |s| else width
    ensures |s| >= width ==> r == s
    ensures |s| < width && !(|s| > 0 && (s[0] == '-' || s[0] == '+')) ==> r == Repeat('0', width - |s|) + s
    ensures |s| < width && |s| > 0 && (s[0] == '-' || s[0] == '+') ==> r == [s[0]] + Repeat('0', width - |s|) + s[1..]
  {
    if |s| >= width then s
    else if |s| > 0 && (s[0] == '-' || s[0] == '+') then [s[0]] + Repeat('0', width - |s|) + s[1..]
    else Repeat('0', width - |s|) + s
  }

  /** `"%0*d" % (width, n)`, a zero-filled integer format and `str(n).zfill(width)`: all three agree. */
  function ZeroPadded(n: int, width: int): (r: string)
    ensures |r| >= 1 && |r| >= width
    ensures n >= 0 ==> AllDigits(r)
    ensures n < 0 ==> r[0] == '-'
  {
    ZFill(IntToString(n), width)
  }

  /** A padded non-negative number reads back as the number, and it is as long as its
      shortest numeral or `width`, whichever is longer. */
  lemma ZeroPaddedValue(n: nat, width: int)
    ensures DecimalValue(ZeroPadded(n, width)) == n
    ensures |ZeroPadded(n, width)| == if |NatToString(n)| >= width then |NatToString(n)| else width
  {
    var s := IntToString(n);
    DecimalValueOfNatToString(n);
    if |s| < width {
      assert IsDigit(s[0]);
      DecimalValueLeadingZeros(Repeat('0', width - |s|), s);
    }
  }

  /** `format(s, "c>width")`: `c` prepended until `s` has `width` characters. */
  function PadLeft(s: string, width: nat, c: char): (r: string)
    ensures |r| == if |s| >= width then |s| else width
    ensures r == Repeat(c, |r| - |s|) + s
  {
    if |s| >= width then
      assert s == Repeat(c, 0) + s;
      s
    else Repeat(c, width - |s|) + s
  }

  predicate StartsWith(s: string, prefix: string) {
    |prefix| <= |s| && s[..|prefix|] == prefix
  }

  /** `s.endswith(suffix)`; every string ends with the empty suffix. */
  predicate EndsWith(s: string, suffix: string) {
    |suffix| <= |s| && s[|s| - |suffix|..] == suffix
  }

  /** `s.replace(a, b)` for single characters. */
  function ReplaceChar(s: string, a: char, b: char): (r: string)
    ensures |r| == |s|
    ensures forall i :: 0 <= i < |s| ==> r[i] == if s[i] == a then b else s[i]
  {
    seq(|s|, i requires 0 <= i < |s| => if s[i] == a then b else s[i])
  }

  /** `s.replace(c, "")`. */
  function RemoveChar(s: string, c: char): (r: string)
    ensures c !in r
    ensures |r| <= |s|
  {
    if s == [] then [] else (if s[0] == c then [] else [s[0]]) + RemoveChar(s[1..], c)
  }

  /** `s.lstrip(c)`. */
  function LStrip(s: string, c: char): (r: string)
    ensures |r| <= |s| && s[|s| - |r|..] == r
    ensures r == [] || r[0] != c
    ensures AllChar(s[..|s| - |r|], c)
  {
    if s != [] && s[0] == c then
      var r := LStrip(s[1..], c);
      assert s[..|s| - |r|] == [c] + s[1..][..|s| - 1 - |r|];
      r
    else s
  }

  /** `s.rstrip(c)`. */
  function RStrip(s: string, c: char): (r: string)
    ensures |r| <= |s| && s[..|r|] == r
    ensures r == [] || r[|r| - 1] != c
    ensures AllChar(s[|r|..], c)
  {
    if s != [] && s[|s| - 1] == c then
      var r := RStrip(s[..|s| - 1], c);
      assert s[|r|..] == s[..|s| - 1][|r|..] + [c];
      r
    else s
  }

  /** `s.find(c)`: the first index of `c`, or -1. */
  function Find(s: string, c: char): (i: int)
    ensures -1 <= i < |s|
    ensures i >= 0 ==> s[i] == c
    ensures forall j :: 0 <= j < |s| && (i < 0 || j < i) ==> s[j] != c
  {
    if s == [] then -1
    else if s[0] == c then 0
    else var k := Find(s[1..], c); if k < 0 then -1 else k + 1
  }

  /** `s.rfind(c)`: the last index of `c`, or -1. */
  function RFind(s: string, c: char): (i: int)
    ensures -1 <= i < |s|
    ensures i >= 0 ==> s[i] == c
    ensures forall j :: i < j < |s| ==> s[j] != c
  {
    if s == [] then -1
    else if s[|s| - 1] == c then |s| - 1
    else RFind(s[..|s| - 1], c)
  }

  /** Python slicing `s[a:b]` with Python's rules for negative and out-of-range bounds. */
  function Slice(s: string, a: int, b: int): (r: string)
    ensures |r| <= |s|
  {
    var lo := Clamp(if a < 0 then a + |s| else a, |s|);
    var hi := Clamp(if b < 0 then b + |s| else b, |s|);
    if lo < hi then s[lo..hi] else []
  }

  function Clamp(i: int, n: nat): (r: nat)
    ensures r <= n
  {
    if i < 0 then 0 else if i > n then n else i
  }

  /** True when `pat` occurs in `s` at index `j`. */
  predicate OccursAt(s: string, pat: string, j: int) {
    0 <= j && j + |pat| <= |s| && s[j..j + |pat|] == pat
  }

  ghost predicate Occurs(s: string, pat: string) {
    exists j :: OccursAt(s, pat, j)
  }

  /** `s.replace(pat, rep)`: every non-overlapping occurrence, scanning left to right. */
  function ReplaceAll(s: string, pat: string, rep: string): string
    requires pat != []
  {
    if |s| < |pat| then s
    else if s[..|pat|] == pat then rep + ReplaceAll(s[|pat|..], pat, rep)
    else [s[0]] + ReplaceAll(s[1..], pat, rep)
  }

  /** An occurrence in `s[k..]` is an occurrence in `s`, `k` places further on. */
  lemma OccursAtShift(s: string, pat: string, k: nat, j: int)
    requires k <= |s|
    ensures OccursAt(s[k..], pat, j) <==> (0 <= j && OccursAt(s, pat, j + k))
  {
    if 0 <= j && j + |pat| <= |s| - k {
      assert s[k..][j..j + |pat|] == s[j + k..j + k + |pat|];
    }
  }

  /** Replacing a pattern that does not occur changes nothing. */
  lemma {:induction false} ReplaceAllAbsent(s: string, pat: string, rep: string)
    requires pat != [] && !Occurs(s, pat)
    ensures ReplaceAll(s, pat, rep) == s
    decreases |s|
  {
    if |s| >= |pat| {
      assert !OccursAt(s, pat, 0);
      forall j ensures !OccursAt(s[1..], pat, j) {
        OccursAtShift(s, pat, 1, j);
      }
      ReplaceAllAbsent(s[1..], pat, rep);
      assert s == [s[0]] + s[1..];
    }
  }

  /** No character of `w` can come out of `rep`: if the input of a replacement does not
      start with such a `w`, neither does its output. */
  lemma {:induction false} ReplaceAllKeepsNonPrefix(u: string, pat: string, rep: string, w: string)
    requires pat != [] && rep != [] && w != []
    requires forall i :: 0 <= i < |w| ==> w[i] !in rep
    requires !StartsWith(u, w)
    ensures !StartsWith(ReplaceAll(u, pat, rep), w)
    decreases |u|
  {
    var out := ReplaceAll(u, pat, rep);
    if |u| < |pat| {
      assert out == u;
    } else if u[..|pat|] == pat {
      assert out[0] == rep[0];
      assert w[0] !in rep;
      assert out[0] != w[0];
    } else {
      var t := ReplaceAll(u[1..], pat, rep);
      assert out == [u[0]] + t;
      if u[0] != w[0] {
        assert out[0] != w[0];
      } else {
        StartsWithCons(u, w);
        ReplaceAllKeepsNonPrefix(u[1..], pat, rep, w[1..]);
        assert out[1..] == t;
        StartsWithCons(out, w);
      }
    }
  }

  /** Two strings that agree on their first character: one starts with the other exactly
      when their tails do. */
  lemma StartsWithCons(u: string, w: string)
    requires u != [] && w != [] && u[0] == w[0]
    ensures StartsWith(u, w) <==> StartsWith(u[1..], w[1..])
  {
    if |w| <= |u| {
      assert u[..|w|] == [u[0]] + u[1..][..|w| - 1];
      assert w == [w[0]] + w[1..];
    }
  }

  /** When the replacement shares no character with the pattern, the result no longer
      contains the pattern. */
  lemma {:induction false} ReplaceAllRemovesPattern(s: string, pat: string, rep: string)
    requires pat != [] && rep != []
    requires forall i :: 0 <= i < |pat| ==> pat[i] !in rep
    ensures !Occurs(ReplaceAll(s, pat, rep), pat)
    decreases |s|
  {
    if |s| < |pat| {
      assert ReplaceAll(s, pat, rep) == s;
    } else if s[..|pat|] == pat {
      ReplaceAllRemovesPattern(s[|pat|..], pat, rep);
      NoOccurrenceAfterRep(rep, ReplaceAll(s[|pat|..], pat, rep), pat);
    } else {
      ReplaceAllRemovesPattern(s[1..], pat, rep);
      NoOccurrenceAfterChar(s, pat, rep);
    }
  }

  /** The replacement text cannot start an occurrence, so none appears in front of `t`. */
  lemma NoOccurrenceAfterRep(rep: string, t: string, pat: string)
    requires pat != [] && pat[0] !in rep && !Occurs(t, pat)
    ensures !Occurs(rep + t, pat)
  {
    var out := rep + t;
    forall j ensures !OccursAt(out, pat, j) {
      if 0 <= j < |rep| && j + |pat| <= |out| {
        assert out[j..j + |pat|][0] == rep[j];
      } else if j >= |rep| {
        assert out[|rep|..] == t;
        OccursAtShift(out, pat, |rep|, j - |rep|);
      }
    }
  }

  /** A kept first character cannot start an occurrence once the rest is replaced. */
  lemma NoOccurrenceAfterChar(s: string, pat: string, rep: string)
    requires pat != [] && rep != [] && |s| >= |pat| && s[..|pat|] != pat
    requires forall i :: 0 <= i < |pat| ==> pat[i] !in rep
    requires !Occurs(ReplaceAll(s[1..], pat, rep), pat)
    ensures !Occurs([s[0]] + ReplaceAll(s[1..], pat, rep), pat)
  {
    var t := ReplaceAll(s[1..], pat, rep);
    var out := [s[0]] + t;
    forall j ensures !OccursAt(out, pat, j) {
      if j == 0 {
        if s[0] == pat[0] {
          assert s[..|pat|] == [s[0]] + s[1..][..|pat| - 1];
          assert !StartsWith(s[1..], pat[1..]);
          if |pat| > 1 {
            forall i | 0 <= i < |pat| - 1 ensures pat[1..][i] !in rep { assert pat[1..][i] == pat[i + 1]; }
            ReplaceAllKeepsNonPrefix(s[1..], pat, rep, pat[1..]);
            assert |out| < |pat| || out[..|pat|] == [out[0]] + t[..|pat| - 1];
          }
        }
      } else if j > 0 {
        assert out[1..] == t;
        OccursAtShift(out, pat, 1, j - 1);
      }
    }
  }

  /** Every character is a digit or a minus sign: what `str(n)` and its paddings produce. */
  predicate NumeralChars(s: string) {
    forall i :: 0 <= i < |s| ==> IsDigit(s[i]) || s[i] == '-'
  }

  /** A zero-padded number holds only digits and at most a leading minus sign. */
  lemma ZeroPaddedAlphabet(n: int, width: int)
    ensures NumeralChars(ZeroPadded(n, width))
  {
    var s := IntToString(n);
    var r := ZeroPadded(n, width);
    assert r == ZFill(s, width);
    assert NumeralChars(s) by {
      if n < 0 {
        var d := NatToString(-n);
        assert s == "-" + d;
        forall i | 0 <= i < |s| ensures IsDigit(s[i]) || s[i] == '-' {
          if i > 0 { assert s[i] == d[i - 1]; }
        }
      }
    }
    if |s| < width {
      var z := Repeat('0', width - |s|);
      if s[0] == '-' || s[0] == '+' {
        assert r == [s[0]] + z + s[1..];
        forall i | 0 <= i < |r| ensures IsDigit(r[i]) || r[i] == '-' {
          if i == 0 {
          } else if i < 1 + |z| {
            assert r[i] == z[i - 1];
          } else {
            assert r[i] == s[i - |z|];
          }
        }
      } else {
        assert r == z + s;
        forall i | 0 <= i < |r| ensures IsDigit(r[i]) || r[i] == '-' {
          if i < |z| {
            assert r[i] == z[i];
          } else {
            assert r[i] == s[i - |z|];
          }
        }
      }
    }
  }

  /** Removing a character that does not occur changes nothing. */
  lemma {:induction false} RemoveCharAbsent(s: string, c: char)
    requires c !in s
    ensures RemoveChar(s, c) == s
  {
    if s != [] {
      assert s[0] != c;
      assert c !in s[1..];
      RemoveCharAbsent(s[1..], c);
      assert s == [s[0]] + s[1..];
    }
  }

  /** Removing `c` from `c` followed by a `c`-free string drops that first character. */
  lemma RemoveLeadingChar(s: string, c: char)
    requires s != [] && s[0] == c && c !in s[1..]
    ensures RemoveChar(s, c) == s[1..]
  {
    RemoveCharAbsent(s[1..], c);
  }
}
