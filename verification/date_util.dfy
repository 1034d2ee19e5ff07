/** The date helpers of Util.ts: unpadded `M-D-YYYY` and `H-M-S` strings built
    from a date's fields, and the shape test for an ISO 8601 calendar date. */
module DateUtil {
  import opened Strings

  /** `${n}` for any integer. */
  function IntToString(n: int): (s: string)
    ensures |s| > 0
    ensures forall i :: 0 <= i < |s| ==> IsDigit(s[i]) || (i == 0 && s[i] == '-')
  {
    if n < 0 then "-" + NatToString(-n) else NatToString(n)
  }

  /** The fields a JavaScript `Date` reports: `getFullYear`, `getMonth` (0 for
      January), `getDate`, `getHours`, `getMinutes`, `getSeconds`. */
  datatype DateTime = DateTime(year: int, month: int, day: int, hours: int, minutes: int, seconds: int)

  /** dateToString: month (counted from 1), day and year, joined by `-`. */
  function DateToString(d: DateTime): string {
    IntToString(d.month + 1) + "-" + IntToString(d.day) + "-" + IntToString(d.year)
  }

  /** timeToString: hours, minutes and seconds, joined by `-`. */
  function TimeToString(t: DateTime): string {
    IntToString(t.hours) + "-" + IntToString(t.minutes) + "-" + IntToString(t.seconds)
  }

  /** dateTimeToString: the date part, one space, the time part. */
  function DateTimeToString(d: DateTime): string {
    DateToString(d) + " " + TimeToString(d)
  }

  function CountChar(s: string, c: char): nat {
    if s == [] then 0 else (if s[0] == c then 1 else 0) + CountChar(s[1..], c)
  }

  lemma {:induction false} CountCharConcat(a: string, b: string, c: char)
    ensures CountChar(a + b, c) == CountChar(a, c) + CountChar(b, c)
  {
    if a == [] {
      assert a + b == b;
    } else {
      CountCharConcat(a[1..], b, c);
      assert (a + b)[0] == a[0];
      assert (a + b)[1..] == a[1..] + b;
    }
  }

  lemma {:induction false} CountAbsent(a: string, c: char)
    requires c !in a
    ensures CountChar(a, c) == 0
  {
    if a != [] {
      CountAbsent(a[1..], c);
    }
  }

  /** With non-negative fields, the date string has exactly two dashes. */
  lemma DateToStringDashes(d: DateTime)
    requires d.month + 1 >= 0 && d.day >= 0 && d.year >= 0
    ensures CountChar(DateToString(d), '-') == 2
  {
    var m, dd, y := NatToString(d.month + 1), NatToString(d.day), NatToString(d.year);
    NoDashInDigits(m);
    NoDashInDigits(dd);
    NoDashInDigits(y);
    CountAbsent(m, '-');
    CountAbsent(dd, '-');
    CountAbsent(y, '-');
    CountCharConcat(m + "-" + dd + "-", y, '-');
    CountCharConcat(m + "-" + dd, "-", '-');
    CountCharConcat(m + "-", dd, '-');
    CountCharConcat(m, "-", '-');
  }

  lemma NoDashInDigits(s: string)
    requires AllDigits(s)
    ensures '-' !in s && ' ' !in s
  {
  }

  /** Three non-negative numbers joined by dashes split back into three
      unpadded digit strings that read back as the numbers. */
  lemma DashJoinedRoundTrip(a: nat, b: nat, c: nat)
    ensures var parts := SplitOn(IntToString(a) + "-" + IntToString(b) + "-" + IntToString(c), '-');
      |parts| == 3 &&
      AllDigits(parts[0]) && AllDigits(parts[1]) && AllDigits(parts[2]) &&
      DigitsValue(parts[0]) == a && DigitsValue(parts[1]) == b && DigitsValue(parts[2]) == c &&
      (a > 0 ==> parts[0][0] != '0') && (b > 0 ==> parts[1][0] != '0') && (c > 0 ==> parts[2][0] != '0') &&
      (a == 0 ==> parts[0] == "0") && (b == 0 ==> parts[1] == "0") && (c == 0 ==> parts[2] == "0")
  {
    var x, y, z := NatToString(a), NatToString(b), NatToString(c);
    NoDashInDigits(x);
    NoDashInDigits(y);
    NoDashInDigits(z);
    assert IntToString(a) + "-" + IntToString(b) + "-" + IntToString(c) == x + ['-'] + (y + ['-'] + z);
    SplitAtFirstSeparator(x, '-', y + ['-'] + z);
    SplitAtFirstSeparator(y, '-', z);
    SplitWithoutSeparator(z, '-');
    assert SplitOn(IntToString(a) + "-" + IntToString(b) + "-" + IntToString(c), '-') == [x, y, z];
    NatToStringRoundTrip(a);
    NatToStringRoundTrip(b);
    NatToStringRoundTrip(c);
  }

  /** The date string splits at its dashes into the month (counted from 1),
      the day and the year, each written without padding and reading back as
      the field's value. */
  lemma DateToStringRoundTrip(d: DateTime)
    requires d.month + 1 >= 0 && d.day >= 0 && d.year >= 0
    ensures var parts := SplitOn(DateToString(d), '-');
      |parts| == 3 &&
      AllDigits(parts[0]) && AllDigits(parts[1]) && AllDigits(parts[2]) &&
      DigitsValue(parts[0]) == d.month + 1 && DigitsValue(parts[1]) == d.day && DigitsValue(parts[2]) == d.year &&
      (d.month + 1 > 0 ==> parts[0][0] != '0') && (d.day > 0 ==> parts[1][0] != '0') && (d.year > 0 ==> parts[2][0] != '0') &&
      (d.month + 1 == 0 ==> parts[0] == "0") && (d.day == 0 ==> parts[1] == "0") && (d.year == 0 ==> parts[2] == "0")
  {
    DashJoinedRoundTrip(d.month + 1, d.day, d.year);
  }

  /** The time string splits at its dashes into hours, minutes and seconds,
      each written without padding and reading back as the field's value. */
  lemma TimeToStringRoundTrip(t: DateTime)
    requires t.hours >= 0 && t.minutes >= 0 && t.seconds >= 0
    ensures var parts := SplitOn(TimeToString(t), '-');
      |parts| == 3 &&
      AllDigits(parts[0]) && AllDigits(parts[1]) && AllDigits(parts[2]) &&
      DigitsValue(parts[0]) == t.hours && DigitsValue(parts[1]) == t.minutes && DigitsValue(parts[2]) == t.seconds &&
      (t.hours > 0 ==> parts[0][0] != '0') && (t.minutes > 0 ==> parts[1][0] != '0') && (t.seconds > 0 ==> parts[2][0] != '0') &&
      (t.hours == 0 ==> parts[0] == "0") && (t.minutes == 0 ==> parts[1] == "0") && (t.seconds == 0 ==> parts[2] == "0")
  {
    DashJoinedRoundTrip(t.hours, t.minutes, t.seconds);
  }

  /** The combined string has exactly one space, between the date and the time. */
  lemma DateTimeSplitsAtSpace(d: DateTime)
    ensures SplitOn(DateTimeToString(d), ' ') == [DateToString(d), TimeToString(d)]
  {
    NoSpaceInNumbers(d.month + 1);
    NoSpaceInNumbers(d.day);
    NoSpaceInNumbers(d.year);
    NoSpaceInNumbers(d.hours);
    NoSpaceInNumbers(d.minutes);
    NoSpaceInNumbers(d.seconds);
    assert DateTimeToString(d) == DateToString(d) + [' '] + TimeToString(d);
    SplitAtFirstSeparator(DateToString(d), ' ', TimeToString(d));
    SplitWithoutSeparator(TimeToString(d), ' ');
  }

  lemma NoSpaceInNumbers(n: int)
    ensures ' ' !in IntToString(n)
  {
  }

  /** One element of a regular expression without alternation or repetition
      operators: `\d` or a literal character. */
  datatype Token = Digit | Literal(c: char)

  predicate TokenMatches(t: Token, c: char) {
    match t
    case Digit => IsDigit(c)
    case Literal(l) => c == l
  }

  function Repeat(t: Token, n: nat): (r: seq<Token>)
    ensures |r| == n && forall i :: 0 <= i < n ==> r[i] == t
  {
    if n == 0 then [] else [t] + Repeat(t, n - 1)
  }

  /** The whole of `s` matches the pattern (the pattern is anchored by `^` and `$`). */
  predicate MatchesWhole(p: seq<Token>, s: string) {
    if p == [] then s == []
    else s != [] && TokenMatches(p[0], s[0]) && MatchesWhole(p[1..], s[1..])
  }

  /** `/^\d{4}-\d{2}-\d{2}$/` */
  function IsoDatePattern(): seq<Token> {
    Repeat(Digit, 4) + [Literal('-')] + Repeat(Digit, 2) + [Literal('-')] + Repeat(Digit, 2)
  }

  /** isValidDate: a shape test, no range test. */
  predicate IsValidDate(s: string) {
    MatchesWhole(IsoDatePattern(), s)
  }

  lemma {:induction false} MatchesWholePointwise(p: seq<Token>, s: string)
    ensures MatchesWhole(p, s) <==> |s| == |p| && forall i :: 0 <= i < |p| ==> TokenMatches(p[i], s[i])
  {
    if p != [] && s != [] {
      MatchesWholePointwise(p[1..], s[1..]);
      if |s| == |p| && forall i :: 0 <= i < |p| ==> TokenMatches(p[i], s[i]) {
        assert forall i :: 0 <= i < |p| - 1 ==> TokenMatches(p[1..][i], s[1..][i]) by {
          forall i | 0 <= i < |p| - 1 ensures TokenMatches(p[1..][i], s[1..][i]) {
            assert TokenMatches(p[i + 1], s[i + 1]);
          }
        }
      }
    }
  }

  /** A valid date string is ten characters: digits, except for dashes at
      indices 4 and 7. */
  lemma IsValidDateShape(s: string)
    ensures IsValidDate(s) <==>
      |s| == 10 && s[4] == '-' && s[7] == '-' &&
      forall i :: 0 <= i < 10 && i != 4 && i != 7 ==> IsDigit(s[i])
  {
    var p := IsoDatePattern();
    MatchesWholePointwise(p, s);
    assert |p| == 10;
    assert p[4] == Literal('-') && p[7] == Literal('-');
    assert forall i :: 0 <= i < 10 && i != 4 && i != 7 ==> p[i] == Digit;
  }

  /** No month or day range is enforced. */
  lemma OutOfRangeAccepted()
    ensures IsValidDate("0000-99-99")
  {
    IsValidDateShape("0000-99-99");
  }
}
