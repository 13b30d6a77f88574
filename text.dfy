/**
 * String helpers shared by the front end (JavaScript string methods) and the
 * back end (Python string methods and Django's `icontains` lookup).
 * Case folding covers the ASCII letters only.
 */
module Text {

  predicate IsDigit(c: char) { '0' <= c <= '9' }

  predicate AllDigits(s: string) { forall i :: 0 <= i < |s| ==> IsDigit(s[i]) }

  /** The characters JavaScript's `String.prototype.trim` removes (white space and line terminators). */
  predicate IsJsSpace(c: char) {
    c == ' ' || c == '\t' || c == '\n' || c == '\r' || c == '\U{B}' || c == '\U{C}'
    || c == '\U{A0}' || c == '\U{1680}' || ('\U{2000}' <= c <= '\U{200A}')
    || c == '\U{2028}' || c == '\U{2029}' || c == '\U{202F}' || c == '\U{205F}'
    || c == '\U{3000}' || c == '\U{FEFF}'
  }

  /** The characters Python's `str.strip()` removes when given no argument. */
  predicate IsPySpace(c: char) {
    c == ' ' || ('\t' <= c <= '\r') || ('\U{1C}' <= c <= '\U{1F}') || c == '\U{85}'
    || c == '\U{A0}' || c == '\U{1680}' || ('\U{2000}' <= c <= '\U{200A}')
    || c == '\U{2028}' || c == '\U{2029}' || c == '\U{202F}' || c == '\U{205F}'
    || c == '\U{3000}'
  }

  // ---------------------------------------------------------------- trimming

  function TrimStart(s: string, isSpace: char -> bool): (r: string)
    ensures |r| <= |s| && r == s[|s| - |r|..]
    ensures r == [] || !isSpace(r[0])
    ensures forall i :: 0 <= i < |s| - |r| ==> isSpace(s[i])
  {
    if s != [] && isSpace(s[0]) then TrimStart(s[1..], isSpace) else s
  }

  function TrimEnd(s: string, isSpace: char -> bool): (r: string)
    ensures r <= s
    ensures r == [] || !isSpace(r[|r| - 1])
    ensures forall i :: |r| <= i < |s| ==> isSpace(s[i])
  {
    if s != [] && isSpace(s[|s| - 1]) then TrimEnd(s[..|s| - 1], isSpace) else s
  }

  /** Removes the leading and trailing characters that satisfy `isSpace`. */
  function Trim(s: string, isSpace: char -> bool): (r: string)
    ensures r == [] || (!isSpace(r[0]) && !isSpace(r[|r| - 1]))
  {
    TrimEnd(TrimStart(s, isSpace), isSpace)
  }

  /**
   * The trimmed string is the slice `s[i..j]` of `s`, where `i` counts the leading
   * characters satisfying `isSpace`: only such characters lie outside the slice and
   * neither end of the slice is one. So all the leading and trailing white space is
   * removed, and nothing else.
   */
  lemma TrimIsSlice(s: string, isSpace: char -> bool)
    ensures var i := |s| - |TrimStart(s, isSpace)|;
            var j := i + |Trim(s, isSpace)|;
            && j <= |s| && Trim(s, isSpace) == s[i..j]
            && (forall k :: 0 <= k < i ==> isSpace(s[k]))
            && (forall k :: j <= k < |s| ==> isSpace(s[k]))
            && (i < j ==> !isSpace(s[i]) && !isSpace(s[j - 1]))
  {
    var t := TrimStart(s, isSpace);
    assert t == s[|s| - |t|..];
    TrimEndOfSuffix(s, |s| - |t|, isSpace);
  }

  /** Trimming the end of a suffix `s[i..]` leaves a slice `s[i..j]` followed by white space only. */
  lemma TrimEndOfSuffix(s: string, i: nat, isSpace: char -> bool)
    requires i <= |s|
    ensures var r := TrimEnd(s[i..], isSpace);
            && i + |r| <= |s| && r == s[i..i + |r|]
            && forall k :: i + |r| <= k < |s| ==> isSpace(s[k])
  {
    var t := s[i..];
    var r := TrimEnd(t, isSpace);
    forall k | i + |r| <= k < |s|
      ensures isSpace(s[k])
    {
      assert s[k] == t[k - i];
    }
  }

  /** Trimming adds no character that was not there. */
  lemma TrimKeepsAbsent(s: string, isSpace: char -> bool, c: char)
    requires c !in s
    ensures c !in Trim(s, isSpace)
  {
    var t := TrimStart(s, isSpace);
    assert forall k :: 0 <= k < |t| ==> t[k] == s[|s| - |t| + k];
    var u := TrimEnd(t, isSpace);
    assert forall k :: 0 <= k < |u| ==> u[k] == t[k];
  }

  /** Trimming twice is trimming once. */
  lemma TrimIdempotent(s: string, isSpace: char -> bool)
    ensures Trim(Trim(s, isSpace), isSpace) == Trim(s, isSpace)
  {
    var r := Trim(s, isSpace);
    assert TrimStart(r, isSpace) == r;
    assert TrimEnd(r, isSpace) == r;
  }

  function JsTrim(s: string): string { Trim(s, IsJsSpace) }

  function PyStrip(s: string): string { Trim(s, IsPySpace) }

  // ---------------------------------------------------------------- searching

  /** The text before the first `c`: `s.split(c)[0]` in JavaScript. */
  function Before(s: string, c: char): (r: string)
    ensures r <= s && c !in r
    ensures |r| < |s| <==> c in s
    ensures |r| < |s| ==> s[|r|] == c
  {
    if s == [] then [] else if s[0] == c then [] else [s[0]] + Before(s[1..], c)
  }

  /** `sub` occurs in `s` as a contiguous piece (JavaScript's `includes`). */
  predicate Contains(s: string, sub: string)
    decreases |s|
  {
    sub <= s || (s != [] && Contains(s[1..], sub))
  }

  /** A string contains every piece it is built from. */
  lemma {:induction false} ContainsMiddle(a: string, b: string, c: string)
    ensures Contains(a + b + c, b)
  {
    if a == [] {
      assert a + b + c == b + c;
    } else {
      assert (a + b + c)[1..] == a[1..] + b + c;
      ContainsMiddle(a[1..], b, c);
    }
  }

  // ---------------------------------------------------------------- case

  function LowerChar(c: char): char {
    if 'A' <= c <= 'Z' then (c as int + 32) as char else c
  }

  function UpperChar(c: char): char {
    if 'a' <= c <= 'z' then (c as int - 32) as char else c
  }

  /** `toLowerCase()` on the ASCII letters. */
  function Lower(s: string): (r: string)
    ensures |r| == |s| && forall i :: 0 <= i < |s| ==> r[i] == LowerChar(s[i])
  {
    seq(|s|, i requires 0 <= i < |s| => LowerChar(s[i]))
  }

  /** `toUpperCase()` on the ASCII letters. */
  function Upper(s: string): (r: string)
    ensures |r| == |s| && forall i :: 0 <= i < |s| ==> r[i] == UpperChar(s[i])
  {
    seq(|s|, i requires 0 <= i < |s| => UpperChar(s[i]))
  }

  /** `field.toLowerCase().includes(query.toLowerCase())`, also Django's `icontains`. */
  predicate ContainsIgnoringCase(field: string, query: string) {
    Contains(Lower(field), Lower(query))
  }

  /** Lower-casing is the same whatever the case of the input letters. */
  lemma ContainsIgnoringCaseOfUpper(field: string, query: string)
    ensures ContainsIgnoringCase(field, Upper(query)) == ContainsIgnoringCase(field, query)
  {
    assert Lower(Upper(query)) == Lower(query);
  }

  // ---------------------------------------------------------------- replacing

  /** `s.replace(from, to)` with a one-character pattern: only the first occurrence is replaced. */
  function ReplaceFirst(s: string, from: char, to: char): (r: string)
    ensures |r| == |s|
  {
    if s == [] then []
    else if s[0] == from then [to] + s[1..]
    else [s[0]] + ReplaceFirst(s[1..], from, to)
  }

  /** The first `from` is the one after a piece without `from`; only it is replaced. */
  lemma {:induction false} ReplaceFirstAt(a: string, from: char, to: char, b: string)
    requires from !in a
    ensures ReplaceFirst(a + [from] + b, from, to) == a + [to] + b
  {
    if a != [] {
      assert (a + [from] + b)[1..] == a[1..] + [from] + b;
      ReplaceFirstAt(a[1..], from, to, b);
    }
  }

  /** With a single `from`, replacing the first is replacing all. */
  lemma ReplaceFirstIsAll(a: string, from: char, to: char, b: string)
    requires from !in a && from !in b
    ensures ReplaceFirst(a + [from] + b, from, to) == ReplaceAll(a + [from] + b, from, to)
  {
    ReplaceFirstAt(a, from, to, b);
    var s := a + [from] + b;
    var r := a + [to] + b;
    forall i | 0 <= i < |s|
      ensures ReplaceAll(s, from, to)[i] == r[i]
    {
      if i < |a| {
        assert s[i] == a[i] && r[i] == a[i];
      } else if i > |a| {
        assert s[i] == b[i - |a| - 1] && r[i] == b[i - |a| - 1];
      }
    }
  }

  /** Without `from` there is nothing to replace. */
  lemma {:induction false} ReplaceFirstAbsent(s: string, from: char, to: char)
    requires from !in s
    ensures ReplaceFirst(s, from, to) == s == ReplaceAll(s, from, to)
  {
    if s != [] {
      ReplaceFirstAbsent(s[1..], from, to);
    }
  }

  /** Every occurrence of `from` replaced by `to`. */
  function ReplaceAll(s: string, from: char, to: char): (r: string)
    ensures |r| == |s|
    ensures forall i :: 0 <= i < |s| ==> r[i] == if s[i] == from then to else s[i]
  {
    seq(|s|, i requires 0 <= i < |s| => if s[i] == from then to else s[i])
  }

  // ---------------------------------------------------------------- numbers

  function DigitChar(d: nat): (c: char)
    requires d < 10
    ensures IsDigit(c)
  {
    ('0' as int + d) as char
  }

  function DigitValue(c: char): (d: nat)
    requires IsDigit(c)
    ensures d < 10 && DigitChar(d) == c
  {
    c as int - '0' as int
  }

  /** The decimal notation of `n`, as JavaScript prints a non-negative integer. */
  function NatToString(n: nat): (r: string)
    ensures |r| >= 1 && AllDigits(r)
    ensures |r| > 1 ==> r[0] != '0'
  {
    if n < 10 then [DigitChar(n)] else NatToString(n / 10) + [DigitChar(n % 10)]
  }

  /** The decimal notation of `i`, with a leading `-` when negative. */
  function IntToString(i: int): (r: string)
    ensures |r| >= 1
    ensures (r[0] == '-') <==> i < 0
  {
    if i < 0 then "-" + NatToString(-i) else NatToString(i)
  }

  /** The value of a string of decimal digits (JavaScript's `parseInt` on such a string). */
  function ParseDigits(s: string): (n: nat)
    requires AllDigits(s)
  {
    if s == [] then 0 else ParseDigits(s[..|s| - 1]) * 10 + DigitValue(s[|s| - 1])
  }

  /** Printing and then parsing gives the number back. */
  lemma {:induction false} ParsePrinted(n: nat)
    ensures ParseDigits(NatToString(n)) == n
  {
    if n >= 10 {
      var s := NatToString(n);
      assert s[..|s| - 1] == NatToString(n / 10);
      ParsePrinted(n / 10);
    }
  }

  /** Two numbers print the same only if they are equal. */
  lemma NatToStringInjective(m: nat, n: nat)
    requires NatToString(m) == NatToString(n)
    ensures m == n
  {
    ParsePrinted(m);
    ParsePrinted(n);
  }
}
