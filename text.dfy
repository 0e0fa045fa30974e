/**
 * The string primitives of JavaScript that the application relies on:
 * `String(n)` for integers, `Number.parseInt` with no radix, `String.prototype.trim`.
 */
module Text {
  import opened Wrappers

  // ---------------------------------------------------------------- decimal text

  function DigitChar(d: nat): (c: char)
    requires d < 10
    ensures DigitValue(c) == d
  {
    "0123456789"[d]
  }

  /** The decimal text of a natural number, without leading zeros. */
  function NatText(n: nat): (s: string)
    ensures |s| >= 1
    ensures forall i :: 0 <= i < |s| ==> DigitValue(s[i]) < 10
    decreases n
  {
    if n < 10 then [DigitChar(n)] else NatText(n / 10) + [DigitChar(n % 10)]
  }

  /** The text of a number of two digits or more is the text of its tens and its last digit. */
  lemma NatTextSnoc(n: nat)
    requires n >= 10
    ensures NatText(n) == NatText(n / 10) + [DigitChar(n % 10)]
  {
  }

  /** `String(n)` of an integer-valued JavaScript number. */
  function IntText(n: int): (s: string)
    ensures |s| >= 1
  {
    if n < 0 then "-" + NatText(-n) else NatText(n)
  }

  // ---------------------------------------------------------------- parseInt

  /**
   * The value of a character as a digit, as `parseInt` reads digits: 0-9, then
   * letters a-z in either case as 10-35; 36 for anything that is no digit at all.
   */
  function DigitValue(c: char): (d: nat)
    ensures d <= 36
  {
    if '0' <= c <= '9' then c as int - '0' as int
    else if 'a' <= c <= 'z' then c as int - 'a' as int + 10
    else if 'A' <= c <= 'Z' then c as int - 'A' as int + 10
    else 36
  }

  /** The length of the longest prefix of `s` made of digits of the given radix. */
  function DigitRun(s: string, radix: nat): (k: nat)
    ensures k <= |s|
    ensures forall i :: 0 <= i < k ==> DigitValue(s[i]) < radix
    ensures k < |s| ==> DigitValue(s[k]) >= radix
  {
    if s == [] || DigitValue(s[0]) >= radix then 0 else 1 + DigitRun(s[1..], radix)
  }

  /** The number written by the digits `z`, most significant first. */
  function DigitsValue(z: string, radix: nat): nat
    requires forall i :: 0 <= i < |z| ==> DigitValue(z[i]) < radix
  {
    if z == [] then 0 else Shift(DigitsValue(z[..|z| - 1], radix), radix) + DigitValue(z[|z| - 1])
  }

  /** `a` moved one digit up in the given radix. */
  function Shift(a: nat, radix: nat): nat {
    a * radix
  }

  /** One more digit at the end moves the others up. */
  lemma DigitsValueSnoc(z: string, c: char, radix: nat)
    requires forall i :: 0 <= i < |z| ==> DigitValue(z[i]) < radix
    requires DigitValue(c) < radix
    ensures forall i :: 0 <= i < |z + [c]| ==> DigitValue((z + [c])[i]) < radix
    ensures DigitsValue(z + [c], radix) == Shift(DigitsValue(z, radix), radix) + DigitValue(c)
  {
    var s := z + [c];
    assert forall i :: 0 <= i < |z| ==> s[i] == z[i];
    assert s[..|s| - 1] == z;
  }

  lemma ShiftDivMod(n: nat, radix: nat)
    requires radix > 0
    ensures Shift(n / radix, radix) + n % radix == n
  {
  }

  /**
   * `Number.parseInt(s)` with no radix argument: skip leading white space, read an
   * optional sign, read hexadecimal after a `0x`/`0X` prefix and decimal otherwise,
   * stop at the first character that is not a digit. `None` stands for NaN, the
   * result when no digit is read.
   */
  function ParseInt(s: string): Option<int> {
    var t := s[LeadingSpace(s)..];
    var negative := |t| > 0 && t[0] == '-';
    var u := if |t| > 0 && (t[0] == '-' || t[0] == '+') then t[1..] else t;
    match ParseMagnitude(u)
    case None => None
    case Some(m) => Some(if negative then -(m as int) else m as int)
  }

  /** The unsigned part of `parseInt`: hexadecimal after `0x`/`0X`, decimal otherwise. */
  function ParseMagnitude(u: string): (r: Option<nat>)
    ensures r.None? <== u == []
  {
    if |u| >= 2 && u[0] == '0' && (u[1] == 'x' || u[1] == 'X') then
      var z := u[2..][..DigitRun(u[2..], 16)];
      if z == [] then None else Some(DigitsValue(z, 16))
    else
      var z := u[..DigitRun(u, 10)];
      if z == [] then None else Some(DigitsValue(z, 10))
  }

  lemma {:induction false} NatTextValue(n: nat)
    ensures DigitsValue(NatText(n), 10) == n
    decreases n
  {
    if n >= 10 {
      NatTextValue(n / 10);
      var s := NatText(n);
      assert s[..|s| - 1] == NatText(n / 10);
    }
  }

  lemma {:induction false} AllDigitsRun(s: string, radix: nat)
    requires forall i :: 0 <= i < |s| ==> DigitValue(s[i]) < radix
    ensures DigitRun(s, radix) == |s|
  {
    if s != [] {
      AllDigitsRun(s[1..], radix);
    }
  }

  lemma ParseMagnitudeText(m: nat)
    ensures ParseMagnitude(NatText(m)) == Some(m)
  {
    var u := NatText(m);
    NatTextValue(m);
    AllDigitsRun(u, 10);
    assert u[..|u|] == u;
    assert |u| >= 2 ==> DigitValue(u[1]) < 10;
  }

  /** `parseInt` reads back exactly the integer that `String` wrote. */
  lemma ParseIntText(n: int)
    ensures ParseInt(IntText(n)) == Some(n)
  {
    if n < 0 { ParseNegativeText(n); } else { ParseNatText(n); }
  }

  lemma {:induction false} ParseNatText(m: nat)
    ensures ParseInt(NatText(m)) == Some(m)
  {
    var s := NatText(m);
    ParseMagnitudeText(m);
    assert DigitValue(s[0]) < 10;
    assert LeadingSpace(s) == 0;
    assert s[0..] == s;
  }

  lemma ParseNegativeText(n: int)
    requires n < 0
    ensures ParseInt(IntText(n)) == Some(n)
  {
    var m: nat := -n;
    var u := NatText(m);
    assert IntText(n) == "-" + u;
    ParseMagnitudeText(m);
    ParseIntMinus(u);
  }

  /** Nothing but white space is no number. */
  lemma ParseIntBlank(s: string)
    requires forall i :: 0 <= i < |s| ==> IsSpace(s[i])
    ensures ParseInt(s).None?
  {
    if s != [] {
      assert !(DigitValue(s[0]) < 10) by { assert IsSpace(s[0]); }
      assert LeadingSpace(s) == |s|;
    }
  }

  /** A leading minus sign negates what follows it. */
  lemma ParseIntMinus(u: string)
    ensures ParseInt("-" + u) == if ParseMagnitude(u).Some? then Some(-(ParseMagnitude(u).value as int)) else None
  {
    var s := "-" + u;
    assert !IsSpace(s[0]);
    assert LeadingSpace(s) == 0;
    assert s[0..] == s;
    assert s[1..] == u;
  }

  /** Distinct integers have distinct decimal texts. */
  lemma IntTextInjective(a: int, b: int)
    requires IntText(a) == IntText(b)
    ensures a == b
  {
    ParseIntText(a);
    ParseIntText(b);
  }

  // ---------------------------------------------------------------- trim

  /**
   * ECMAScript white space and line terminators, the characters `trim` and
   * `parseInt` skip.
   */
  predicate IsSpace(c: char) {
    c == '\t' || c == '\n' || c == '\U{000B}' || c == '\U{000C}' || c == '\r' || c == ' '
    || c == '\U{00A0}' || c == '\U{1680}' || ('\U{2000}' <= c <= '\U{200A}')
    || c == '\U{2028}' || c == '\U{2029}' || c == '\U{202F}' || c == '\U{205F}'
    || c == '\U{3000}' || c == '\U{FEFF}'
  }

  /** The number of white-space characters `s` starts with. */
  function LeadingSpace(s: string): (k: nat)
    ensures k <= |s|
    ensures forall i :: 0 <= i < k ==> IsSpace(s[i])
    ensures k < |s| ==> !IsSpace(s[k])
  {
    if s == [] || !IsSpace(s[0]) then 0 else 1 + LeadingSpace(s[1..])
  }

  /** The number of white-space characters `s` ends with. */
  function TrailingSpace(s: string): (k: nat)
    ensures k <= |s|
    ensures forall i :: |s| - k <= i < |s| ==> IsSpace(s[i])
    ensures k < |s| ==> !IsSpace(s[|s| - 1 - k])
  {
    if s == [] || !IsSpace(s[|s| - 1]) then 0 else 1 + TrailingSpace(s[..|s| - 1])
  }

  /** `s.trim()`. */
  function Trim(s: string): (r: string)
    ensures r == [] || (!IsSpace(r[0]) && !IsSpace(r[|r| - 1]))
    ensures LeadingSpace(s) + |r| <= |s| && r == s[LeadingSpace(s)..LeadingSpace(s) + |r|]
    ensures forall i :: LeadingSpace(s) + |r| <= i < |s| ==> IsSpace(s[i])
  {
    var a := LeadingSpace(s);
    var t := s[a..];
    var r := t[..|t| - TrailingSpace(t)];
    assert r == s[a..a + |r|];
    r
  }

  /** A string with no white space at either end is its own trim. */
  lemma TrimUnpadded(s: string)
    requires s == [] || (!IsSpace(s[0]) && !IsSpace(s[|s| - 1]))
    ensures Trim(s) == s
  {
    assert LeadingSpace(s) == 0;
    assert s[0..] == s;
    assert TrailingSpace(s) == 0;
  }

  /** White space around a string with no white space at its ends is what `trim` removes. */
  lemma TrimSurrounded(s: string, before: string, r: string, after: string)
    requires s == before + r + after
    requires forall i :: 0 <= i < |before| ==> IsSpace(before[i])
    requires forall i :: 0 <= i < |after| ==> IsSpace(after[i])
    requires r == [] || (!IsSpace(r[0]) && !IsSpace(r[|r| - 1]))
    ensures Trim(s) == r
  {
    var t := Trim(s);
    var k := LeadingSpace(s);
    if r == [] {
      assert forall i :: 0 <= i < |s| ==> IsSpace(s[i]) by {
        forall i | 0 <= i < |s| ensures IsSpace(s[i]) {
          if i < |before| { assert s[i] == before[i]; } else { assert s[i] == after[i - |before|]; }
        }
      }
    } else {
      assert s[|before|] == r[0];
      assert forall i :: 0 <= i < |before| ==> s[i] == before[i];
      assert k == |before|;
      assert s[|before| + |r| - 1] == r[|r| - 1];
      assert |t| >= |r|;
      assert |t| == |r|;
      assert t == s[k..k + |r|];
    }
  }

  /** More white space before and after a string trims to the same thing. */
  lemma TrimPadded(s: string, before: string, after: string)
    requires forall i :: 0 <= i < |before| ==> IsSpace(before[i])
    requires forall i :: 0 <= i < |after| ==> IsSpace(after[i])
    ensures Trim(before + s + after) == Trim(s)
  {
    var k := LeadingSpace(s);
    var t := Trim(s);
    var lead := s[..k];
    var trail := s[k + |t|..];
    SliceSplit(s, k, k + |t|);
    SliceSpace(s, 0, k);
    SliceSpace(s, k + |t|, |s|);
    Regroup(before, lead, t, trail, after);
    SpaceAppend(before, lead);
    SpaceAppend(trail, after);
    TrimSurrounded(before + s + after, before + lead, t, trail + after);
  }

  /** A string is its prefix before `i`, its slice from `i` to `j` and its suffix from `j`. */
  lemma SliceSplit(s: string, i: nat, j: nat)
    requires i <= j <= |s|
    ensures s == s[..i] + s[i..j] + s[j..]
  {
    assert s == s[..i] + s[i..];
    assert s[i..] == s[i..j] + s[j..];
  }

  lemma SliceSpace(s: string, from: nat, to: nat)
    requires from <= to <= |s|
    requires forall i :: from <= i < to ==> IsSpace(s[i])
    ensures forall i :: 0 <= i < |s[from..to]| ==> IsSpace(s[from..to][i])
  {
    forall i | 0 <= i < |s[from..to]| ensures IsSpace(s[from..to][i]) {
      assert s[from..to][i] == s[from + i];
    }
  }

  lemma Regroup(before: string, lead: string, t: string, trail: string, after: string)
    ensures before + (lead + t + trail) + after == (before + lead) + t + (trail + after)
  {
  }

  /** Two runs of white space make one. */
  lemma SpaceAppend(a: string, b: string)
    requires forall i :: 0 <= i < |a| ==> IsSpace(a[i])
    requires forall i :: 0 <= i < |b| ==> IsSpace(b[i])
    ensures forall i :: 0 <= i < |a + b| ==> IsSpace((a + b)[i])
  {
    forall i | 0 <= i < |a + b| ensures IsSpace((a + b)[i]) {
      if i < |a| { assert (a + b)[i] == a[i]; } else { assert (a + b)[i] == b[i - |a|]; }
    }
  }

  /** Trimming twice is trimming once. */
  lemma TrimIdempotent(s: string)
    ensures Trim(Trim(s)) == Trim(s)
  {
    TrimUnpadded(Trim(s));
  }
}
