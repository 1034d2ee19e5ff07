/** The few JavaScript string operations the engine relies on, on `seq<char>`. */
module Strings {
  import opened Wrappers

  /** `t` occurs in `s` starting at index `i`. */
  predicate OccursAt(s: string, t: string, i: int) {
    0 <= i && i + |t| <= |s| && s[i..i + |t|] == t
  }

  /** `s.indexOf(t)`, with -1 as `None`: the first index at which `t` occurs. */
  function IndexOf(s: string, t: string): (r: Option<nat>)
    ensures r.Some? ==> OccursAt(s, t, r.value)
    ensures r.Some? ==> forall j :: 0 <= j < r.value ==> !OccursAt(s, t, j)
    ensures r.None? ==> forall j :: !OccursAt(s, t, j)
    decreases |s|
  {
    if t <= s then
      assert s[..|t|] == t;
      Some(0)
    else if s == [] then None
    else
      var r := IndexOf(s[1..], t);
      forall j | 1 <= j ensures OccursAt(s, t, j) == OccursAt(s[1..], t, j - 1) {
        if j + |t| <= |s| {
          assert s[j..j + |t|] == s[1..][j - 1..j - 1 + |t|];
        }
      }
      match r
      case Some(i) => Some(i + 1)
      case None => None
  }

  /** `s.includes(t)` */
  predicate Includes(s: string, t: string) {
    IndexOf(s, t).Some?
  }

  /** `s.replace(pattern, replacement)` with a string pattern: only the first
      occurrence is replaced (`$` patterns in `replacement` are not modelled). */
  function ReplaceFirst(s: string, pattern: string, replacement: string): string {
    match IndexOf(s, pattern)
    case None => s
    case Some(i) => s[..i] + replacement + s[i + |pattern|..]
  }

  /** When no earlier occurrence exists, the first occurrence of `pattern` in
      `a + pattern + b` is the one right after `a`. */
  lemma IndexOfAfter(a: string, pattern: string, b: string)
    requires forall j :: 0 <= j < |a| ==> !OccursAt(a + pattern + b, pattern, j)
    ensures IndexOf(a + pattern + b, pattern) == Some(|a|)
  {
    var s := a + pattern + b;
    assert OccursAt(s, pattern, |a|) by {
      assert s[|a|..|a| + |pattern|] == pattern;
    }
    var i := IndexOf(s, pattern).value;
    assert i == |a|;
  }

  /** A pattern does not occur where its first character does not. */
  lemma NoOccurrenceOnFirstMismatch(s: string, t: string, j: nat)
    requires j < |s| && |t| > 0 && s[j] != t[0]
    ensures !OccursAt(s, t, j)
  {
    if j + |t| <= |s| {
      assert s[j..j + |t|][0] == s[j];
    }
  }

  /** An occurrence that lies inside a prefix is an occurrence in the prefix. */
  lemma OccursInPrefix(p: string, s: string, t: string, j: int)
    requires p <= s && OccursAt(s, t, j) && j + |t| <= |p|
    ensures OccursAt(p, t, j)
  {
    assert p[j..j + |t|] == s[j..j + |t|];
  }

  /** When `pattern` first occurs right after `a`, the replacement takes its place
      and the text on both sides is kept. */
  lemma {:induction false} ReplaceFirstAfter(a: string, pattern: string, b: string, replacement: string)
    requires forall j :: 0 <= j < |a| ==> !OccursAt(a + pattern + b, pattern, j)
    ensures ReplaceFirst(a + pattern + b, pattern, replacement) == a + replacement + b
  {
    var s := a + pattern + b;
    IndexOfAfter(a, pattern, b);
    assert s[..|a|] == a;
    assert s[|a| + |pattern|..] == b;
  }

  // ---------------------------------------------------------------------------
  // Decimal digits and `split`

  predicate IsDigit(c: char) {
    '0' <= c <= '9'
  }

  predicate AllDigits(s: string) {
    forall i :: 0 <= i < |s| ==> IsDigit(s[i])
  }

  function DigitChar(d: nat): (c: char)
    requires d < 10
    ensures IsDigit(c)
  {
    "0123456789"[d]
  }

  function DigitValue(c: char): nat
    requires IsDigit(c)
  {
    c as nat - '0' as nat
  }

  /** `${n}` for a non-negative integer: its decimal digits, no padding. */
  function NatToString(n: nat): (s: string)
    ensures |s| > 0 && AllDigits(s)
    ensures n > 0 ==> s[0] != '0'
    ensures n == 0 ==> s == "0"
  {
    if n < 10 then [DigitChar(n)] else NatToString(n / 10) + [DigitChar(n % 10)]
  }

  /** The number a string of decimal digits denotes. */
  function DigitsValue(s: string): nat
    requires AllDigits(s)
  {
    if s == [] then 0 else DigitsValue(s[..|s| - 1]) * 10 + DigitValue(s[|s| - 1])
  }

  /** Reading the digits back gives the number written. */
  lemma {:induction false} NatToStringRoundTrip(n: nat)
    ensures DigitsValue(NatToString(n)) == n
  {
    if n >= 10 {
      NatToStringRoundTrip(n / 10);
      var s := NatToString(n);
      assert s[..|s| - 1] == NatToString(n / 10);
    }
  }

  /** `s.split(sep)` for a one-character separator. */
  function SplitOn(s: string, sep: char): (parts: seq<string>)
    ensures |parts| > 0
  {
    if s == [] then [""]
    else
      var rest := SplitOn(s[1..], sep);
      if s[0] == sep then [""] + rest else [[s[0]] + rest[0]] + rest[1..]
  }

  lemma {:induction false} SplitWithoutSeparator(a: string, sep: char)
    requires sep !in a
    ensures SplitOn(a, sep) == [a]
  {
    if a != [] {
      SplitWithoutSeparator(a[1..], sep);
      assert [a[0]] + a[1..] == a;
    }
  }

  lemma {:induction false} SplitAtFirstSeparator(a: string, sep: char, b: string)
    requires sep !in a
    ensures SplitOn(a + [sep] + b, sep) == [a] + SplitOn(b, sep)
  {
    if a == [] {
      assert (a + [sep] + b)[1..] == b;
    } else {
      SplitAtFirstSeparator(a[1..], sep, b);
      assert (a + [sep] + b)[1..] == a[1..] + [sep] + b;
      assert [a[0]] + a[1..] == a;
    }
  }
}
