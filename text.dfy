/** String helpers of the JavaScript runtime that the application relies on:
    case conversion, `includes`, `startsWith`, `indexOf`/`replace`, number
    formatting and `parseInt`. Case conversion covers ASCII letters only. */
module Text {
  import opened Wrappers

  // ---------------------------------------------------------------------
  // Case conversion (String.prototype.toLowerCase / toUpperCase, ASCII)
  // ---------------------------------------------------------------------

  function ToLowerChar(c: char): char {
    if 'A' <= c <= 'Z' then (c as int + 32) as char else c
  }

  function ToUpperChar(c: char): char {
    if 'a' <= c <= 'z' then (c as int - 32) as char else c
  }

  function ToLower(s: string): (r: string)
    ensures |r| == |s|
    ensures forall i :: 0 <= i < |s| ==> r[i] == ToLowerChar(s[i])
  {
    if s == [] then [] else [ToLowerChar(s[0])] + ToLower(s[1..])
  }

  /** `s.charAt(0).toUpperCase() + s.slice(1)` */
  function Capitalize(s: string): (r: string)
    ensures |r| == |s|
    ensures |s| > 0 ==> r[0] == ToUpperChar(s[0]) && r[1..] == s[1..]
  {
    if s == [] then [] else [ToUpperChar(s[0])] + s[1..]
  }

  // ---------------------------------------------------------------------
  // Searching
  // ---------------------------------------------------------------------

  predicate StartsWith(s: string, prefix: string) {
    |prefix| <= |s| && s[..|prefix|] == prefix
  }

  /** `p` occurs in `s` at index `i`. */
  predicate OccursAt(s: string, p: string, i: int) {
    0 <= i && i + |p| <= |s| && s[i..i + |p|] == p
  }

  /** String.prototype.includes */
  predicate Contains(s: string, p: string) {
    exists i | 0 <= i <= |s| - |p| :: OccursAt(s, p, i)
  }

  /** A lower-case text found in `s` is also found in `s` lower-cased. */
  lemma ContainsLowered(s: string, p: string)
    requires Contains(s, p) && ToLower(p) == p
    ensures Contains(ToLower(s), p)
  {
    var i :| 0 <= i <= |s| - |p| && OccursAt(s, p, i);
    var t := ToLower(s);
    forall k | 0 <= k < |p|
      ensures t[i..i + |p|][k] == p[k]
    {
      assert s[i + k] == p[k];
      assert ToLower(p)[k] == ToLowerChar(p[k]);
    }
    assert OccursAt(t, p, i);
  }

  /** Case-insensitive `includes`, as `a.toLowerCase().includes(b)` with a lower-case `b`. */
  predicate ContainsIgnoreCase(s: string, p: string) {
    Contains(ToLower(s), ToLower(p))
  }

  /** The first index at or after `from` where `p` occurs in `s`. */
  function IndexOfFrom(s: string, p: string, from: nat): (r: Option<nat>)
    decreases |s| - from
    ensures r.Some? ==> from <= r.value && OccursAt(s, p, r.value)
    ensures r.Some? ==> forall j :: from <= j < r.value ==> !OccursAt(s, p, j)
    ensures r.None? ==> forall j :: from <= j ==> !OccursAt(s, p, j)
  {
    if from + |p| > |s| then None
    else if s[from..from + |p|] == p then Some(from)
    else IndexOfFrom(s, p, from + 1)
  }

  /** String.prototype.indexOf, with `None` for -1. */
  function IndexOf(s: string, p: string): (r: Option<nat>)
    ensures r.Some? ==> OccursAt(s, p, r.value)
    ensures r.Some? ==> forall j :: 0 <= j < r.value ==> !OccursAt(s, p, j)
    ensures r.None? <==> !Contains(s, p)
  {
    IndexOfFrom(s, p, 0)
  }

  /** String.prototype.replace with a string pattern: only the first occurrence is replaced. */
  function ReplaceFirst(s: string, p: string, q: string): (r: string)
    ensures !Contains(s, p) ==> r == s
    ensures Contains(s, p) ==>
              exists i :: OccursAt(s, p, i) && r == s[..i] + q + s[i + |p|..]
                          && (forall j :: 0 <= j < i ==> !OccursAt(s, p, j))
  {
    match IndexOf(s, p)
    case None => s
    case Some(i) => s[..i] + q + s[i + |p|..]
  }

  // ---------------------------------------------------------------------
  // Number formatting: `${n}` for integers
  // ---------------------------------------------------------------------

  predicate IsDigit(c: char) { '0' <= c <= '9' }

  function DigitChar(d: nat): char
    requires d < 10
  {
    ('0' as int + d) as char
  }

  function NatToString(n: nat): (r: string)
    ensures |r| > 0
    ensures forall i :: 0 <= i < |r| ==> IsDigit(r[i])
    ensures n > 0 ==> r[0] != '0'
  {
    if n < 10 then [DigitChar(n)] else NatToString(n / 10) + [DigitChar(n % 10)]
  }

  function IntToString(n: int): (r: string)
    ensures |r| > 0
  {
    if n < 0 then "-" + NatToString(-n) else NatToString(n)
  }

  // ---------------------------------------------------------------------
  // parseInt(s) with no radix argument
  // ---------------------------------------------------------------------

  /** The white-space and line-terminator characters that parseInt skips.
      Other Unicode space separators are not modelled. */
  predicate IsJsSpace(c: char) {
    c == ' ' || c == '\t' || c == '\n' || c == '\r' || c == '\U{000B}' || c == '\U{000C}'
    || c == '\U{00A0}' || c == '\U{FEFF}' || c == '\U{2028}' || c == '\U{2029}'
  }

  function TrimStart(s: string): (r: string)
    ensures |r| <= |s| && r == s[|s| - |r|..]
    ensures r == [] || !IsJsSpace(r[0])
  {
    if s != [] && IsJsSpace(s[0]) then TrimStart(s[1..]) else s
  }

  /** Value of `c` as a digit in base `radix` (10 or 16). */
  function DigitValue(c: char, radix: nat): Option<nat>
  {
    if '0' <= c <= '9' then Some(c as nat - '0' as nat)
    else if radix == 16 && 'a' <= c <= 'f' then Some(c as nat - 'a' as nat + 10)
    else if radix == 16 && 'A' <= c <= 'F' then Some(c as nat - 'A' as nat + 10)
    else None
  }

  /** Length of the longest prefix of `s` made of base-`radix` digits. */
  function DigitRun(s: string, radix: nat): (n: nat)
    ensures n <= |s|
    ensures forall i :: 0 <= i < n ==> DigitValue(s[i], radix).Some?
    ensures n < |s| ==> DigitValue(s[n], radix).None?
  {
    if s != [] && DigitValue(s[0], radix).Some? then 1 + DigitRun(s[1..], radix) else 0
  }

  /** Value of a string of base-`radix` digits, most significant first. */
  function DigitsValue(s: string, radix: nat): nat
    requires forall i :: 0 <= i < |s| ==> DigitValue(s[i], radix).Some?
  {
    if s == [] then 0
    else DigitsValue(s[..|s| - 1], radix) * radix + DigitValue(s[|s| - 1], radix).value
  }

  /** The unsigned part of parseInt: a `0x`/`0X` prefix selects base 16, and
      the longest run of digits that follows is read; no digits gives NaN. */
  function ParseUnsigned(u: string): Option<nat>
  {
    var hex := |u| >= 2 && u[0] == '0' && (u[1] == 'x' || u[1] == 'X');
    var radix := if hex then 16 else 10;
    var body := if hex then u[2..] else u;
    var n := DigitRun(body, radix);
    if n == 0 then None else Some(DigitsValue(body[..n], radix))
  }

  /** parseInt(s): `None` stands for NaN. Leading white space is skipped and
      one sign is accepted before the unsigned part. */
  function ParseInt(s: string): Option<int>
  {
    ParseTrimmed(TrimStart(s))
  }

  /** parseInt after its leading white space is gone: an optional sign, then
      the unsigned part. */
  function ParseTrimmed(t: string): Option<int>
  {
    if t != [] && t[0] == '-' then
      match ParseUnsigned(t[1..])
      case None => None
      case Some(v) => Some(-(v as int))
    else if t != [] && t[0] == '+' then
      match ParseUnsigned(t[1..])
      case None => None
      case Some(v) => Some(v as int)
    else
      match ParseUnsigned(t)
      case None => None
      case Some(v) => Some(v as int)
  }

  lemma {:induction false} NatToStringValue(n: nat)
    ensures forall i :: 0 <= i < |NatToString(n)| ==> DigitValue(NatToString(n)[i], 10).Some?
    ensures DigitsValue(NatToString(n), 10) == n
  {
    var r := NatToString(n);
    if n >= 10 {
      NatToStringValue(n / 10);
      assert r[..|r| - 1] == NatToString(n / 10);
    }
  }

  /** `${n}` read back by parseInt gives `n` again. */
  lemma {:induction false} ParseIntRoundTrip(n: int)
    ensures ParseInt(IntToString(n)) == Some(n)
  {
    if n < 0 {
      ParseDigitString(-n);
      ParseSigned(NatToString(-n), -n);
    } else {
      ParseDigitString(n);
      ParseUnsignedText(NatToString(n), n);
    }
  }

  /** A text that starts with a digit is read by its unsigned part alone. */
  lemma ParseUnsignedText(d: string, v: nat)
    requires d != [] && IsDigit(d[0]) && ParseUnsigned(d) == Some(v)
    ensures ParseInt(d) == Some(v as int)
  {
    TrimStartNoSpace(d);
  }

  /** A minus sign before such a text negates its value. */
  lemma ParseSigned(d: string, v: nat)
    requires d != [] && IsDigit(d[0]) && ParseUnsigned(d) == Some(v)
    ensures ParseInt("-" + d) == Some(-(v as int))
  {
    var s := "-" + d;
    TrimStartNoSpace(s);
    assert s[1..] == d;
  }

  lemma TrimStartNoSpace(s: string)
    requires s != [] && !IsJsSpace(s[0])
    ensures TrimStart(s) == s
  {
  }

  /** The digits of `${m}` are read back as `m`, and `${m}` starts with a digit. */
  lemma ParseDigitString(m: nat)
    ensures var d := NatToString(m);
            && IsDigit(d[0]) && !IsJsSpace(d[0])
            && ParseUnsigned(d) == Some(m)
  {
    var d := NatToString(m);
    NatToStringValue(m);
    DigitRunAll(d);
    assert d[..|d|] == d;
    if |d| >= 2 {
      assert IsDigit(d[1]);
    }
  }

  /** parseInt stops at the first character that is not a digit. */
  lemma DigitPrefix(d: string, rest: string)
    requires d != [] && forall i :: 0 <= i < |d| ==> IsDigit(d[i])
    requires rest != [] && !IsDigit(rest[0]) && rest[0] != 'x' && rest[0] != 'X'
    ensures ParseUnsigned(d + rest) == ParseUnsigned(d)
  {
    var u := d + rest;
    DigitRunAll(d);
    DigitRunStops(d, rest, 10);
    if |d| >= 2 {
      assert u[1] == d[1] && IsDigit(d[1]);
    } else {
      assert u[1] == rest[0];
    }
    assert u[..|d|] == d;
    assert d[..|d|] == d;
  }

  /** A run of digits followed by a non-digit has exactly that length. */
  lemma {:induction false} DigitRunStops(d: string, rest: string, radix: nat)
    requires forall i :: 0 <= i < |d| ==> DigitValue(d[i], radix).Some?
    requires rest != [] && DigitValue(rest[0], radix).None?
    ensures DigitRun(d + rest, radix) == |d|
  {
    if d != [] {
      assert (d + rest)[1..] == d[1..] + rest;
      DigitRunStops(d[1..], rest, radix);
    } else {
      assert d + rest == rest;
    }
  }

  /** parseInt reads a run of zeros as 0, also after white space. */
  lemma ZerosParse(zeros: string)
    requires zeros != [] && forall i :: 0 <= i < |zeros| ==> zeros[i] == '0'
    ensures ParseInt(zeros) == Some(0)
    ensures ParseInt(" " + zeros) == Some(0)
  {
    ZerosValue(zeros);
    ParseUnsignedText(zeros, 0);
    ParseAfterSpace(zeros);
  }

  /** ... and after either sign. */
  lemma SignedZerosParse(zeros: string)
    requires zeros != [] && forall i :: 0 <= i < |zeros| ==> zeros[i] == '0'
    ensures ParseInt("-" + zeros) == Some(0)
    ensures ParseInt("+" + zeros) == Some(0)
  {
    ZerosValue(zeros);
    MinusZero(zeros);
    ParsePlus(zeros, 0);
  }

  /** A minus sign before a text that reads as 0 still gives 0. */
  lemma MinusZero(d: string)
    requires d != [] && IsDigit(d[0]) && ParseUnsigned(d) == Some(0)
    ensures ParseInt("-" + d) == Some(0)
  {
    ParseSigned(d, 0);
    assert -(0 as int) == 0;
  }

  /** A plus sign before a text that starts with a digit keeps its value. */
  lemma ParsePlus(d: string, v: nat)
    requires d != [] && IsDigit(d[0]) && ParseUnsigned(d) == Some(v)
    ensures ParseInt("+" + d) == Some(v as int)
  {
    var s := "+" + d;
    TrimStartNoSpace(s);
    assert s[1..] == d;
  }

  /** A leading space is skipped. */
  lemma ParseAfterSpace(s: string)
    ensures ParseInt(" " + s) == ParseInt(s)
  {
    TrimSpace(s);
  }

  lemma TrimSpace(s: string)
    ensures TrimStart(" " + s) == TrimStart(s)
  {
    var spaced := " " + s;
    assert IsJsSpace(spaced[0]);
    assert spaced[1..] == s;
  }

  /** A text of zeros reads as 0. */
  lemma ZerosValue(zeros: string)
    requires zeros != [] && forall i :: 0 <= i < |zeros| ==> zeros[i] == '0'
    ensures IsDigit(zeros[0]) && ParseUnsigned(zeros) == Some(0)
  {
    DigitRunAll(zeros);
    assert zeros[..|zeros|] == zeros;
    ZerosDigitsValue(zeros);
  }

  lemma {:induction false} ZerosDigitsValue(zeros: string)
    requires forall i :: 0 <= i < |zeros| ==> zeros[i] == '0'
    ensures DigitsValue(zeros, 10) == 0
  {
    if zeros != [] {
      ZerosDigitsValue(zeros[..|zeros| - 1]);
    }
  }

  lemma {:induction false} DigitRunAll(s: string)
    requires forall i :: 0 <= i < |s| ==> IsDigit(s[i])
    ensures DigitRun(s, 10) == |s|
  {
    if s != [] {
      DigitRunAll(s[1..]);
    }
  }
}
