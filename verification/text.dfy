/**
 The JavaScript string operations the work-window filter relies on:
 `startsWith`, `substring` and the relational operators on strings, which
 compare code unit by code unit (lexicographically), not by length or prefix.
 */
module Text {

  /** `s.startsWith(prefix)`. */
  predicate StartsWith(s: string, prefix: string) {
    |prefix| <= |s| && s[..|prefix|] == prefix
  }

  /** The clamping `substring` applies to each index. */
  function ClampIndex(i: int, len: nat): (r: nat)
    ensures r <= len
    ensures 0 <= i <= len ==> r == i
    ensures i < 0 ==> r == 0
    ensures len < i ==> r == len
  {
    if i < 0 then 0 else if i > len then len else i
  }

  /** `s.substring(start, end)`: indices are clamped to [0, |s|] and swapped when out of order. */
  function Substring(s: string, start: int, end: int): (r: string)
    ensures |r| <= |s|
    ensures 0 <= start <= end <= |s| ==> r == s[start..end]
    ensures 0 <= end <= start <= |s| ==> r == s[end..start]
    ensures 0 <= start <= |s| < end ==> r == s[start..]
    ensures 0 <= end <= |s| < start ==> r == s[end..]
    ensures start < 0 && 0 <= end <= |s| ==> r == s[..end]
    ensures end < 0 && 0 <= start <= |s| ==> r == s[..start]
    ensures (start <= 0 && end <= 0) || (|s| <= start && |s| <= end) ==> r == []
    ensures (start <= 0 && |s| <= end) || (end <= 0 && |s| <= start) ==> r == s
  {
    var a, b := ClampIndex(start, |s|), ClampIndex(end, |s|);
    if a <= b then s[a..b] else s[b..a]
  }

  /** `a < b` on strings: a proper prefix is smaller, otherwise the first differing character decides. */
  predicate Less(a: string, b: string)
    decreases |a|
  {
    if |b| == 0 then false
    else if |a| == 0 then true
    else if a[0] != b[0] then a[0] < b[0]
    else Less(a[1..], b[1..])
  }

  /** `a <= b` on strings, which JavaScript evaluates as `!(b < a)`. */
  predicate AtMost(a: string, b: string) {
    !Less(b, a)
  }

  lemma {:induction false} LessIrreflexive(a: string)
    ensures !Less(a, a)
  {
    if |a| > 0 {
      LessIrreflexive(a[1..]);
    }
  }

  lemma {:induction false} LessTransitive(a: string, b: string, c: string)
    requires Less(a, b) && Less(b, c)
    ensures Less(a, c)
    decreases |a|
  {
    if |a| > 0 && a[0] == b[0] && b[0] == c[0] {
      LessTransitive(a[1..], b[1..], c[1..]);
    }
  }

  /** Any two distinct strings are ordered one way or the other. */
  lemma {:induction false} LessTotal(a: string, b: string)
    ensures a == b || Less(a, b) || Less(b, a)
    decreases |a|
  {
    if |a| > 0 && |b| > 0 && a[0] == b[0] {
      LessTotal(a[1..], b[1..]);
      if a[1..] == b[1..] {
        assert a == [a[0]] + a[1..] && b == [b[0]] + b[1..];
      }
    }
  }

  lemma {:induction false} LessAsymmetric(a: string, b: string)
    ensures !(Less(a, b) && Less(b, a))
    decreases |a|
  {
    if |a| > 0 && |b| > 0 && a[0] == b[0] {
      LessAsymmetric(a[1..], b[1..]);
    }
  }

  /** `AtMost` is a total order on strings. */
  lemma AtMostIsTotalOrder(a: string, b: string, c: string)
    ensures AtMost(a, a)
    ensures AtMost(a, b) || AtMost(b, a)
    ensures AtMost(a, b) && AtMost(b, a) ==> a == b
    ensures AtMost(a, b) && AtMost(b, c) ==> AtMost(a, c)
  {
    LessIrreflexive(a);
    LessAsymmetric(a, b);
    LessTotal(a, b);
    if AtMost(a, b) && AtMost(b, c) && Less(c, a) && Less(a, b) {
      LessTransitive(c, a, b);
    }
  }

  predicate IsDigit(c: char) {
    '0' <= c <= '9'
  }

  function DigitValue(c: char): (d: nat)
    requires IsDigit(c)
    ensures d <= 9
  {
    (c as int) - ('0' as int)
  }

  /** A zero-padded 24-hour clock time `HH:MM`, as the time pickers and the weather provider write them. */
  predicate IsClockTime(s: string) {
    && |s| == 5
    && IsDigit(s[0]) && IsDigit(s[1])
    && s[2] == ':'
    && '0' <= s[3] <= '5' && IsDigit(s[4])
  }

  /** Minutes since midnight of a clock time. */
  function Minutes(s: string): nat
    requires IsClockTime(s)
  {
    (10 * DigitValue(s[0]) + DigitValue(s[1])) * 60 + 10 * DigitValue(s[3]) + DigitValue(s[4])
  }

  /** On zero-padded `HH:MM` strings, the string order is the order of the times of day. */
  lemma ClockTimeOrder(a: string, b: string)
    requires IsClockTime(a) && IsClockTime(b)
    ensures Less(a, b) <==> Minutes(a) < Minutes(b)
    ensures AtMost(a, b) <==> Minutes(a) <= Minutes(b)
  {
    ClockTimeLess(a, b);
    ClockTimeLess(b, a);
  }

  /** When the first characters agree, the comparison moves on to the rest. */
  lemma LessTail(a: string, b: string)
    requires |a| > 0 && |b| > 0 && a[0] == b[0]
    ensures Less(a, b) == Less(a[1..], b[1..])
  {
  }

  lemma ClockTimeLess(a: string, b: string)
    requires IsClockTime(a) && IsClockTime(b)
    ensures Less(a, b) <==> Minutes(a) < Minutes(b)
  {
    if a[0] == b[0] {
      LessTail(a, b);
      if a[1] == b[1] {
        LessTail(a[1..], b[1..]);
        LessTail(a[2..], b[2..]);
        assert a[1..][1..] == a[2..] && b[1..][1..] == b[2..];
        assert a[2..][1..] == a[3..] && b[2..][1..] == b[3..];
        if a[3] == b[3] {
          LessTail(a[3..], b[3..]);
          assert a[3..][1..] == a[4..] && b[3..][1..] == b[4..];
          if a[4] == b[4] {
            assert a == b;
            LessIrreflexive(a);
          }
        }
      }
    }
  }
}
