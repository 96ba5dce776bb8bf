/**
 * `YYYY-Www` strings as the filters and the week utilities use them: the shape
 * `/^\d{4}-W\d{2}$/`, the year and week they denote, and the fact that on this
 * shape JavaScript's string order is the order of (year, week).
 */
module Weeks {
  import opened Common
  import opened Strings

  /** `/^\d{4}-W\d{2}$/.test(s)` */
  predicate IsWeekShape(s: string) {
    |s| == 8 && AllDigits(s[..4]) && s[4] == '-' && s[5] == 'W' && AllDigits(s[6..])
  }

  /** The year a week string denotes: `parseInt` of its first four digits. */
  function YearOf(s: string): nat
    requires IsWeekShape(s)
  {
    DigitsValue(s[..4])
  }

  /** The week number a week string denotes: `parseInt` of its last two digits. */
  function WeekOf(s: string): nat
    requires IsWeekShape(s)
  {
    DigitsValue(s[6..])
  }

  /** (year, week) as one number, ordered as the pairs are. */
  function WeekKey(s: string): nat
    requires IsWeekShape(s)
  {
    YearOf(s) * 100 + WeekOf(s)
  }

  /** `s.split('-W')` on a week string gives its year and week digits, which `parseInt` reads as `YearOf` and `WeekOf`. */
  lemma WeekParts(s: string)
    requires IsWeekShape(s)
    ensures SplitOn(s, "-W") == [s[..4], s[6..]]
    ensures ParseInt(s[..4]) == Some(YearOf(s) as int) && ParseInt(s[6..]) == Some(WeekOf(s) as int)
  {
    assert s == s[..4] + "-W" + s[6..];
    assert '-' !in s[..4] by {
      assert forall i :: 0 <= i < 4 ==> IsDigit(s[..4][i]);
    }
    assert '-' !in s[6..] by {
      assert forall i :: 0 <= i < 2 ==> IsDigit(s[6..][i]);
    }
    SplitOnAtFirst(s[..4], "-W", s[6..]);
    SplitOnWithout(s[6..], "-W");
    ParseIntDigits(s[..4]);
    ParseIntDigits(s[6..]);
  }

  lemma WeekOfBound(s: string)
    requires IsWeekShape(s)
    ensures WeekOf(s) < 100 && YearOf(s) < 10000
  {
    DigitsValueBound(s[6..]);
    DigitsValueBound(s[..4]);
    assert Pow10(2) == 100;
    assert Pow10(4) == 10000;
  }

  /** Digit strings of one length with the same value are the same string. */
  lemma DigitsInjective(a: string, b: string)
    requires |a| == |b| && AllDigits(a) && AllDigits(b) && DigitsValue(a) == DigitsValue(b)
    ensures a == b
  {
    LexLeDigits(a, b);
    LexLeDigits(b, a);
    LexLeAntisymmetric(a, b);
  }

  /** On week strings, `a <= b` holds exactly when (year, week) of `a` is at most that of `b`. */
  lemma WeekOrder(a: string, b: string)
    requires IsWeekShape(a) && IsWeekShape(b)
    ensures LexLe(a, b) <==> WeekKey(a) <= WeekKey(b)
  {
    assert a == a[..4] + a[4..] && b == b[..4] + b[4..];
    assert a[4..] == "-W" + a[6..] && b[4..] == "-W" + b[6..];
    LexLeConcat(a[..4], a[4..], b[..4], b[4..]);
    LexLeConcat("-W", a[6..], "-W", b[6..]);
    LexLeDigits(a[..4], b[..4]);
    LexLeDigits(a[6..], b[6..]);
    WeekOfBound(a);
    WeekOfBound(b);
    if a[..4] != b[..4] {
      assert YearOf(a) != YearOf(b) by {
        if YearOf(a) == YearOf(b) {
          DigitsInjective(a[..4], b[..4]);
        }
      }
    }
  }

  /** Two week strings with the same year and week are the same string. */
  lemma WeekKeyInjective(a: string, b: string)
    requires IsWeekShape(a) && IsWeekShape(b) && WeekKey(a) == WeekKey(b)
    ensures a == b
  {
    WeekOrder(a, b);
    WeekOrder(b, a);
    LexLeAntisymmetric(a, b);
  }
}
