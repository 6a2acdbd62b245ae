/**
 * The pieces of java.lang.String and java.lang.Integer that the judge relies on:
 * String.trim, String.toLowerCase (on the ASCII letters), String.replace and
 * Integer.toString.
 */
module Text {

  /** String.trim treats every character whose code is at most U+0020 as blank. */
  predicate IsBlank(c: char) { c <= ' ' }

  ghost predicate AllBlank(s: string) {
    forall k :: 0 <= k < |s| ==> IsBlank(s[k])
  }

  /** Neither end of `s` is blank. */
  ghost predicate IsTrimmed(s: string) {
    s == [] || (!IsBlank(s[0]) && !IsBlank(s[|s| - 1]))
  }

  /** Drops the blanks at the front. */
  function TrimStart(s: string): string {
    if s != [] && IsBlank(s[0]) then TrimStart(s[1..]) else s
  }

  /** Drops the blanks at the back. */
  function TrimEnd(s: string): string {
    if s != [] && IsBlank(s[|s| - 1]) then TrimEnd(s[..|s| - 1]) else s
  }

  /** String.trim: what is left once the blanks at both ends are removed. */
  function Trim(s: string): string {
    TrimEnd(TrimStart(s))
  }

  /** TrimStart leaves a suffix that does not start with a blank, and drops only blanks. */
  lemma {:induction false} TrimStartShape(s: string)
    ensures var r := TrimStart(s);
            && |r| <= |s| && r == s[|s| - |r|..]
            && AllBlank(s[..|s| - |r|])
            && (r == [] || !IsBlank(r[0]))
    decreases |s|
  {
    if s != [] && IsBlank(s[0]) {
      TrimStartShape(s[1..]);
      var r := TrimStart(s);
      assert s[1..][..|s| - 1 - |r|] == s[1..|s| - |r|];
    }
  }

  /** TrimEnd leaves a prefix that does not end with a blank, and drops only blanks. */
  lemma {:induction false} TrimEndShape(s: string)
    ensures var r := TrimEnd(s);
            && |r| <= |s| && r == s[..|r|]
            && AllBlank(s[|r|..])
            && (r == [] || !IsBlank(r[|r| - 1]))
    decreases |s|
  {
    if s != [] && IsBlank(s[|s| - 1]) {
      var t := s[..|s| - 1];
      TrimEndShape(t);
      var r := TrimEnd(s);
      assert t[..|r|] == s[..|r|];
      assert forall k :: |r| <= k < |s| - 1 ==> t[|r|..][k - |r|] == s[k];
      assert forall k :: |r| <= k < |s| ==> s[|r|..][k - |r|] == s[k];
    }
  }

  /** Trim(s) is a slice of `s` with blank borders and neither end blank. */
  lemma TrimShape(s: string)
    ensures IsTrimmed(Trim(s))
    ensures exists i :: 0 <= i <= |s| - |Trim(s)| && Trim(s) == s[i..i + |Trim(s)|]
                        && AllBlank(s[..i]) && AllBlank(s[i + |Trim(s)|..])
  {
    var front := TrimStart(s);
    TrimStartShape(s);
    TrimEndShape(front);
    var r := TrimEnd(front);
    var i := |s| - |front|;
    assert r == s[i..i + |r|];
    assert s[i + |r|..] == front[|r|..];
  }

  /** The blanks at the front of `s` are exactly s[..i]. */
  lemma {:induction false} TrimStartUnique(s: string, i: nat)
    requires i <= |s| && AllBlank(s[..i])
    requires i == |s| || !IsBlank(s[i])
    ensures TrimStart(s) == s[i..]
    decreases i
  {
    if i > 0 {
      assert s[0] == s[..i][0];
      assert s[1..][..i - 1] == s[1..i];
      TrimStartUnique(s[1..], i - 1);
      assert s[1..][i - 1..] == s[i..];
    }
  }

  /** The blanks at the back of `s` are exactly s[j..]. */
  lemma {:induction false} TrimEndUnique(s: string, j: nat)
    requires j <= |s| && AllBlank(s[j..])
    requires j == 0 || !IsBlank(s[j - 1])
    ensures TrimEnd(s) == s[..j]
    decreases |s| - j
  {
    if j < |s| {
      assert s[|s| - 1] == s[j..][|s| - 1 - j];
      var t := s[..|s| - 1];
      assert t[j..] == s[j..|s| - 1];
      TrimEndUnique(t, j);
      assert t[..j] == s[..j];
    }
  }

  /**
   * Trim(s) is the only slice of `s` with blank borders and non-blank ends: the
   * comparison of outputs is insensitive to blanks at the edges and exact inside.
   */
  lemma TrimUnique(s: string, i: nat, j: nat)
    requires i <= j <= |s|
    requires AllBlank(s[..i]) && AllBlank(s[j..]) && IsTrimmed(s[i..j])
    ensures Trim(s) == s[i..j]
  {
    if i < j {
      assert s[i] == s[i..j][0];
      assert s[j - 1] == s[i..j][j - 1 - i];
      TrimStartUnique(s, i);
      var front := s[i..];
      assert front[j - i..] == s[j..];
      TrimEndUnique(front, j - i);
      assert front[..j - i] == s[i..j];
    } else {
      assert AllBlank(s) by {
        forall k | 0 <= k < |s| ensures IsBlank(s[k]) {
          if k < i { assert s[k] == s[..i][k]; } else { assert s[k] == s[j..][k - j]; }
        }
      }
      assert s[..|s|] == s;
      TrimStartUnique(s, |s|);
    }
  }

  /** Trimming twice is trimming once. */
  lemma TrimIdempotent(s: string)
    ensures Trim(Trim(s)) == Trim(s)
  {
    var r := Trim(s);
    TrimShape(s);
    assert r[0..|r|] == r;
    assert r[..0] == [] && r[|r|..] == [];
    TrimUnique(r, 0, |r|);
  }

  /** The outputs the sample problems compare. */
  lemma TrimExamples()
    ensures Trim("8\n") == "8" && Trim("8 ") == "8" && Trim("8") == "8"
    ensures Trim("8\n9") == "8\n9" && Trim("89") == "89"
    ensures Trim("0\n") == "0" && Trim("30\n") == "30" && Trim("30") == "30"
  {
  }

  /** String.toLowerCase on the ASCII letters; other characters are kept. */
  function LowerChar(c: char): (d: char)
    ensures 'A' <= c <= 'Z' ==> d as int == c as int + 32
    ensures !('A' <= c <= 'Z') ==> d == c
  {
    if 'A' <= c <= 'Z' then (c as int - 'A' as int + 'a' as int) as char else c
  }

  function LowerAscii(s: string): (r: string)
    ensures |r| == |s|
    ensures forall k :: 0 <= k < |s| ==> r[k] == LowerChar(s[k])
  {
    if s == [] then [] else [LowerChar(s[0])] + LowerAscii(s[1..])
  }

  lemma LowerAsciiIdempotent(s: string)
    ensures LowerAscii(LowerAscii(s)) == LowerAscii(s)
  {
    var once := LowerAscii(s);
    assert forall k :: 0 <= k < |s| ==> LowerAscii(once)[k] == once[k];
  }

  /** String.startsWith, character by character. */
  predicate StartsWith(s: string, prefix: string) {
    prefix == [] || (s != [] && s[0] == prefix[0] && StartsWith(s[1..], prefix[1..]))
  }

  /** String.replace(target, ""): every non-overlapping occurrence, left to right, is removed. */
  function RemoveAll(s: string, target: string): string
    requires target != []
    decreases |s|
  {
    if |target| <= |s| && StartsWith(s, target) then RemoveAll(s[|target|..], target)
    else if s == [] then []
    else [s[0]] + RemoveAll(s[1..], target)
  }

  lemma {:induction false} StartsWithSelf(t: string)
    ensures StartsWith(t, t)
  {
    if t != [] {
      StartsWithSelf(t[1..]);
    }
  }

  /**
   * Removing `target` from `p + target`, where `target`'s first character
   * does not occur in `p`, leaves exactly `p`.
   */
  lemma {:induction false} RemoveAllTrailing(p: string, target: string)
    requires target != []
    requires forall i :: 0 <= i < |p| ==> p[i] != target[0]
    ensures RemoveAll(p + target, target) == p
  {
    if p == [] {
      assert p + target == target;
      StartsWithSelf(target);
      assert target[|target|..] == [];
    } else {
      assert (p + target)[1..] == p[1..] + target;
      assert !StartsWith(p + target, target);
      RemoveAllTrailing(p[1..], target);
      assert p == [p[0]] + p[1..];
    }
  }

  // ----- Integer.toString -----

  predicate IsDigit(c: char) { '0' <= c <= '9' }

  function DigitChar(d: nat): (c: char)
    requires d < 10
    ensures IsDigit(c)
  {
    ('0' as int + d) as char
  }

  function DigitValue(c: char): (d: nat)
    requires IsDigit(c)
    ensures d < 10 && DigitChar(d) == c
  {
    c as int - '0' as int
  }

  /** The decimal digits of `n`, without leading zeros. */
  function NatToString(n: nat): (r: string)
    ensures |r| >= 1
    ensures forall k :: 0 <= k < |r| ==> IsDigit(r[k])
    ensures r[0] == '0' ==> n == 0
    decreases n
  {
    if n < 10 then [DigitChar(n)] else NatToString(n / 10) + [DigitChar(n % 10)]
  }

  /** Integer.toString: a minus sign before the digits of a negative number. */
  function IntToString(i: int): (r: string)
    ensures |r| >= 1
  {
    if i < 0 then "-" + NatToString(-i) else NatToString(i)
  }

  /** Reads back a string of decimal digits (Integer.parseInt on digits). */
  function DigitsValue(s: string): nat
    requires forall k :: 0 <= k < |s| ==> IsDigit(s[k])
  {
    if s == [] then 0 else DigitsValue(s[..|s| - 1]) * 10 + DigitValue(s[|s| - 1])
  }

  /** Integer.parseInt on what Integer.toString produces. */
  function ParseInt(s: string): int
    requires s != [] && (s[0] == '-' || IsDigit(s[0]))
    requires forall k :: 1 <= k < |s| ==> IsDigit(s[k])
  {
    if s[0] == '-' then -(DigitsValue(s[1..]) as int) else DigitsValue(s)
  }

  lemma {:induction false} NatToStringRoundTrip(n: nat)
    ensures DigitsValue(NatToString(n)) == n
    decreases n
  {
    if n >= 10 {
      NatToStringRoundTrip(n / 10);
      var r := NatToString(n);
      assert r[..|r| - 1] == NatToString(n / 10);
    }
  }

  /** Integer.toString loses nothing: parsing its output gives the number back. */
  lemma IntToStringRoundTrip(i: int)
    ensures var r := IntToString(i); r[0] == '-' || IsDigit(r[0])
    ensures ParseInt(IntToString(i)) == i
  {
    var r := IntToString(i);
    if i < 0 {
      NatToStringRoundTrip(-i);
      assert r[1..] == NatToString(-i);
    } else {
      NatToStringRoundTrip(i);
    }
  }

  /** Distinct numbers print differently. */
  lemma IntToStringInjective(a: int, b: int)
    requires IntToString(a) == IntToString(b)
    ensures a == b
  {
    IntToStringRoundTrip(a);
    IntToStringRoundTrip(b);
  }
}
