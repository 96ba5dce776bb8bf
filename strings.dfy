/**
 * The JavaScript string operations the components rely on, over `seq<char>`:
 * `String(n)` for integers, `parseInt` without a radix, `trim`, `split` on one
 * character, `join`, `includes`, ASCII case mapping and the code-point order
 * behind `<`, `<=` and `sort()` on strings.
 */
module Strings {
  import opened Common

  predicate IsDigit(c: char) {
    '0' <= c <= '9'
  }

  function DigitValue(c: char): nat
    requires IsDigit(c)
  {
    c as int - '0' as int
  }

  function DigitChar(d: nat): (c: char)
    requires d < 10
    ensures IsDigit(c) && DigitValue(c) == d
  {
    ('0' as int + d) as char
  }

  predicate AllDigits(s: string) {
    forall i :: 0 <= i < |s| ==> IsDigit(s[i])
  }

  /** The value of a decimal digit string, most significant digit first. */
  function DigitsValue(s: string): nat
    requires AllDigits(s)
  {
    if s == [] then 0 else DigitsValue(s[..|s| - 1]) * 10 + DigitValue(s[|s| - 1])
  }

  function Pow10(k: nat): (p: nat)
    ensures p >= 1
  {
    if k == 0 then 1 else 10 * Pow10(k - 1)
  }

  /** `String(n)` for a non-negative integer: decimal, no leading zeros. */
  function NatToString(n: nat): (r: string)
    ensures |r| >= 1 && AllDigits(r)
  {
    if n < 10 then [DigitChar(n)] else NatToString(n / 10) + [DigitChar(n % 10)]
  }

  /** `String(i)` for any integer. */
  function IntToString(i: int): string {
    if i < 0 then "-" + NatToString(-i) else NatToString(i)
  }

  /** `String(n).padStart(2, '0')` */
  function Pad2(n: nat): (r: string)
    ensures AllDigits(r)
  {
    if n < 10 then ['0'] + NatToString(n) else NatToString(n)
  }

  /** Reading back the decimal form of `n` gives `n`. */
  lemma {:induction false} NatToStringValue(n: nat)
    ensures DigitsValue(NatToString(n)) == n
    decreases n
  {
    if n >= 10 {
      var r := NatToString(n);
      assert r[..|r| - 1] == NatToString(n / 10);
      NatToStringValue(n / 10);
    }
  }

  /** A number from `10^(k-1)` up to below `10^k` prints with `k` digits. */
  lemma {:induction false} NatToStringLength(n: nat, k: nat)
    requires k >= 1 && Pow10(k - 1) <= n < Pow10(k)
    ensures |NatToString(n)| == k
    decreases n
  {
    if n >= 10 {
      NatToStringLength(n / 10, k - 1);
    }
  }

  /** A number up to 99 pads to two digits that read back as the number. */
  lemma Pad2Value(n: nat)
    requires n < 100
    ensures |Pad2(n)| == 2 && DigitsValue(Pad2(n)) == n
  {
    NatToStringValue(n);
    if n < 10 {
      var r := Pad2(n);
      assert r[..1] == "0";
    } else {
      NatToStringLength(n, 2);
    }
  }

  /** Printing is injective, so `String(a) == String(b)` only when `a == b`. */
  lemma NatToStringInjective(a: nat, b: nat)
    requires NatToString(a) == NatToString(b)
    ensures a == b
  {
    NatToStringValue(a);
    NatToStringValue(b);
  }

  /** The printed form starts with `-` exactly for negative numbers. */
  lemma IntToStringHead(n: int)
    ensures |IntToString(n)| >= 1
    ensures IntToString(n)[0] == '-' <==> n < 0
  {
    if n >= 0 {
      assert IsDigit(NatToString(n)[0]);
    }
  }

  lemma IntToStringInjective(a: int, b: int)
    requires IntToString(a) == IntToString(b)
    ensures a == b
  {
    IntToStringHead(a);
    IntToStringHead(b);
    assert (a < 0) == (b < 0);
    if a < 0 {
      assert NatToString(-a) == IntToString(a)[1..];
      NatToStringInjective(-a, -b);
    } else {
      NatToStringInjective(a, b);
    }
  }

  /** The position of the first `-` in `s` at or after `i`, or `|s|` when there is none. */
  function FirstDash(s: string, i: nat): (n: nat)
    ensures i <= n || n == |s|
    decreases |s| - i
  {
    if i >= |s| then |s| else if s[i] == '-' then i else FirstDash(s, i + 1)
  }

  lemma {:induction false} FirstDashAt(s: string, i: nat, n: nat)
    requires i <= n < |s| && s[n] == '-'
    requires forall j :: i <= j < n ==> s[j] != '-'
    ensures FirstDash(s, i) == n
    decreases n - i
  {
    if i < n {
      FirstDashAt(s, i + 1, n);
    }
  }

  /** After its sign, the printed form of an integer holds no `-`. */
  lemma IntToStringNoInnerDash(a: int)
    ensures forall j :: 1 <= j < |IntToString(a)| ==> IntToString(a)[j] != '-'
  {
    var x := IntToString(a);
    forall j | 1 <= j < |x| ensures x[j] != '-' {
      if a < 0 {
        assert x[j] == NatToString(-a)[j - 1];
      }
      assert IsDigit(x[j]);
    }
  }

  /** The key `${a}-${b}` of two integers determines both. */
  lemma DashKeyInjective(a1: int, b1: int, a2: int, b2: int)
    requires IntToString(a1) + "-" + IntToString(b1) == IntToString(a2) + "-" + IntToString(b2)
    ensures a1 == a2 && b1 == b2
  {
    var x1, x2 := IntToString(a1), IntToString(a2);
    var s := x1 + "-" + IntToString(b1);
    IntToStringHead(a1);
    IntToStringHead(a2);
    IntToStringNoInnerDash(a1);
    IntToStringNoInnerDash(a2);
    assert s == x2 + "-" + IntToString(b2);
    forall j | 1 <= j < |x1| ensures s[j] != '-' { assert s[j] == x1[j]; }
    forall j | 1 <= j < |x2| ensures s[j] != '-' { assert s[j] == x2[j]; }
    FirstDashAt(s, 1, |x1|);
    FirstDashAt(s, 1, |x2|);
    assert x1 == s[..|x1|] && x2 == s[..|x2|];
    IntToStringInjective(a1, a2);
    assert IntToString(b1) == s[|x1| + 1..] == IntToString(b2);
    IntToStringInjective(b1, b2);
  }

  /** A digit string of length `k` denotes a value below `10^k`. */
  lemma {:induction false} DigitsValueBound(s: string)
    requires AllDigits(s)
    ensures DigitsValue(s) < Pow10(|s|)
    decreases |s|
  {
    if s != [] {
      DigitsValueBound(s[..|s| - 1]);
    }
  }

  /** Reading a digit string from the front: the leading digit weighs `10^(k-1)`. */
  lemma {:induction false} DigitsValueFront(s: string)
    requires AllDigits(s) && |s| > 0
    ensures DigitsValue(s) == DigitValue(s[0]) * Pow10(|s| - 1) + DigitsValue(s[1..])
    decreases |s|
  {
    if |s| > 1 {
      var p := s[..|s| - 1];
      DigitsValueFront(p);
      assert p[1..] == s[1..][..|s[1..]| - 1];
      assert p[0] == s[0];
      var d: int, q: int, w: int, last: int := DigitValue(s[0]), Pow10(|p| - 1), DigitsValue(p[1..]), DigitValue(s[|s| - 1]);
      assert DigitsValue(s) == DigitsValue(p) * 10 + last;
      assert DigitsValue(s[1..]) == w * 10 + last;
      assert Pow10(|s| - 1) == q * 10;
      ShiftDecimal(d, q, w, last);
    } else {
      assert s[..0] == [];
      assert s[1..] == [];
    }
  }

  lemma ShiftDecimal(d: int, q: int, w: int, last: int)
    ensures (d * q + w) * 10 + last == d * (q * 10) + (w * 10 + last)
  {
  }

  // ---------------------------------------------------------------------
  // Whitespace and trim
  // ---------------------------------------------------------------------

  /** The characters JavaScript's `trim` and `parseInt` skip: WhiteSpace and LineTerminator. */
  predicate IsJsWhitespace(c: char) {
    c == '\t' || c == '\n' || c == '\U{000B}' || c == '\U{000C}' || c == '\r' || c == ' '
    || c == '\U{00A0}' || c == '\U{1680}' || ('\U{2000}' <= c <= '\U{200A}')
    || c == '\U{2028}' || c == '\U{2029}' || c == '\U{202F}' || c == '\U{205F}'
    || c == '\U{3000}' || c == '\U{FEFF}'
  }

  function TrimStart(s: string): (r: string)
    ensures |r| <= |s|
    decreases |s|
  {
    if |s| > 0 && IsJsWhitespace(s[0]) then TrimStart(s[1..]) else s
  }

  function TrimEnd(s: string): (r: string)
    ensures |r| <= |s|
    decreases |s|
  {
    if |s| > 0 && IsJsWhitespace(s[|s| - 1]) then TrimEnd(s[..|s| - 1]) else s
  }

  /** `s.trim()` */
  function Trim(s: string): (r: string)
    ensures |r| <= |s|
  {
    TrimEnd(TrimStart(s))
  }

  /** `s.trim()` leaves no whitespace at either end and keeps a contiguous piece of `s`. */
  lemma {:induction false} TrimShape(s: string)
    ensures var t := Trim(s); |t| > 0 ==> !IsJsWhitespace(t[0]) && !IsJsWhitespace(t[|t| - 1])
    ensures exists i, j :: 0 <= i <= j <= |s| && Trim(s) == s[i..j]
  {
    var i := TrimStartShape(s);
    var j := TrimEndShape(s[i..]);
    assert s[i..][..j] == s[i..i + j];
  }

  lemma {:induction false} TrimStartShape(s: string) returns (i: nat)
    ensures i <= |s| && TrimStart(s) == s[i..]
    ensures |TrimStart(s)| > 0 ==> !IsJsWhitespace(TrimStart(s)[0])
    ensures forall k :: 0 <= k < i ==> IsJsWhitespace(s[k])
    decreases |s|
  {
    if |s| > 0 && IsJsWhitespace(s[0]) {
      var i' := TrimStartShape(s[1..]);
      i := i' + 1;
      assert s[1..][i'..] == s[i..];
    } else {
      i := 0;
    }
  }

  lemma {:induction false} TrimEndShape(s: string) returns (j: nat)
    ensures j <= |s| && TrimEnd(s) == s[..j]
    ensures |TrimEnd(s)| > 0 ==> !IsJsWhitespace(TrimEnd(s)[|TrimEnd(s)| - 1])
    ensures forall k :: 0 <= k < j ==> s[k] == TrimEnd(s)[k]
    decreases |s|
  {
    if |s| > 0 && IsJsWhitespace(s[|s| - 1]) {
      j := TrimEndShape(s[..|s| - 1]);
      assert s[..|s| - 1][..j] == s[..j];
    } else {
      j := |s|;
    }
  }

  /** A string without whitespace at its ends is its own `trim`. */
  lemma TrimNoop(s: string)
    requires |s| > 0 ==> !IsJsWhitespace(s[0]) && !IsJsWhitespace(s[|s| - 1])
    ensures Trim(s) == s
  {
  }

  // ---------------------------------------------------------------------
  // parseInt
  // ---------------------------------------------------------------------

  /** The longest prefix of decimal digits. */
  function DecimalPrefix(s: string): (r: string)
    ensures r <= s && AllDigits(r)
    ensures |r| < |s| ==> !IsDigit(s[|r|])
  {
    if |s| > 0 && IsDigit(s[0]) then [s[0]] + DecimalPrefix(s[1..]) else []
  }

  predicate IsHexDigit(c: char) {
    IsDigit(c) || 'a' <= c <= 'f' || 'A' <= c <= 'F'
  }

  function HexDigitValue(c: char): nat
    requires IsHexDigit(c)
  {
    if IsDigit(c) then DigitValue(c)
    else if 'a' <= c <= 'f' then c as int - 'a' as int + 10
    else c as int - 'A' as int + 10
  }

  /** The longest prefix of hexadecimal digits. */
  function HexPrefix(s: string): (r: string)
    ensures r <= s && forall i :: 0 <= i < |r| ==> IsHexDigit(r[i])
    ensures |r| < |s| ==> !IsHexDigit(s[|r|])
  {
    if |s| > 0 && IsHexDigit(s[0]) then [s[0]] + HexPrefix(s[1..]) else []
  }

  function HexValue(s: string): nat
    requires forall i :: 0 <= i < |s| ==> IsHexDigit(s[i])
  {
    if s == [] then 0 else HexValue(s[..|s| - 1]) * 16 + HexDigitValue(s[|s| - 1])
  }

  /**
   * `parseInt(s)` with no radix; `None` stands for `NaN`. Leading whitespace is
   * skipped, one sign is accepted, a `0x`/`0X` prefix switches to base 16, and
   * the longest run of digits that follows is read.
   */
  function ParseInt(s: string): (r: Option<int>)
    ensures r.Some? ==> |TrimStart(s)| > 0 && (r.value < 0 ==> TrimStart(s)[0] == '-')
  {
    var t := TrimStart(s);
    var negative := |t| > 0 && t[0] == '-';
    var u := if |t| > 0 && (t[0] == '-' || t[0] == '+') then t[1..] else t;
    match ParseMagnitude(u)
    case None => None
    case Some(m) =>
      var v: int := m;
      Some(if negative then -v else v)
  }

  /** The unsigned part of `parseInt`: hexadecimal after `0x`/`0X`, decimal otherwise. */
  function ParseMagnitude(u: string): Option<nat> {
    if |u| >= 2 && u[0] == '0' && (u[1] == 'x' || u[1] == 'X') then
      var h := HexPrefix(u[2..]);
      if h == [] then None else Some(HexValue(h))
    else
      var d := DecimalPrefix(u);
      if d == [] then None else Some(DigitsValue(d))
  }

  /** A non-empty digit string reads as its decimal value. */
  lemma MagnitudeOfDigits(s: string)
    requires |s| > 0 && AllDigits(s)
    ensures ParseMagnitude(s) == Some(DigitsValue(s))
  {
    assert |s| >= 2 ==> IsDigit(s[1]);
    DecimalPrefixOfDigits(s);
  }

  lemma {:induction false} DecimalPrefixOfDigits(s: string)
    requires AllDigits(s)
    ensures DecimalPrefix(s) == s
    decreases |s|
  {
    if s != [] {
      DecimalPrefixOfDigits(s[1..]);
    }
  }

  /** `parseInt` of a non-empty digit string is its decimal value, leading zeros included. */
  lemma ParseIntDigits(s: string)
    requires |s| > 0 && AllDigits(s)
    ensures ParseInt(s) == Some(DigitsValue(s))
  {
    assert IsDigit(s[0]);
    assert !IsJsWhitespace(s[0]);
    assert TrimStart(s) == s;
    MagnitudeOfDigits(s);
  }

  /** `parseInt` of `-` and a non-empty digit string is minus its decimal value. */
  lemma ParseIntNegativeDigits(s: string)
    requires |s| > 0 && AllDigits(s)
    ensures ParseInt("-" + s) == Some(-(DigitsValue(s) as int))
  {
    MagnitudeOfDigits(s);
    ParseIntMinus(s);
  }

  /** A text that starts with `-` reads as its negated magnitude. */
  lemma ParseIntMinus(s: string)
    ensures ParseMagnitude(s).None? ==> ParseInt("-" + s).None?
    ensures ParseMagnitude(s).Some? ==> ParseInt("-" + s) == Some(-(ParseMagnitude(s).value as int))
  {
    var t := "-" + s;
    assert !IsJsWhitespace(t[0]);
    assert TrimStart(t) == t;
    assert t[1..] == s;
  }

  /** `parseInt(String(n)) == n` */
  lemma ParseIntOfIntToString(n: int)
    ensures ParseInt(IntToString(n)) == Some(n)
  {
    var m: nat := if n < 0 then -n else n;
    NatToStringValue(m);
    if n < 0 {
      ParseIntNegativeDigits(NatToString(m));
    } else {
      ParseIntDigits(NatToString(m));
    }
  }

  /** The printed form of an integer has nothing for `trim` to remove. */
  lemma TrimIntToString(n: int)
    ensures Trim(IntToString(n)) == IntToString(n)
  {
    var s := IntToString(n);
    var m: nat := if n < 0 then -n else n;
    assert s[|s| - 1] == NatToString(m)[|NatToString(m)| - 1];
    TrimNoop(s);
  }

  /** A token that does not start with a digit, sign or whitespace is `NaN`. */
  lemma ParseIntNaN(s: string)
    requires |s| == 0 || !(IsDigit(s[0]) || s[0] == '-' || s[0] == '+' || IsJsWhitespace(s[0]))
    ensures ParseInt(s) == None
  {
  }

  // ---------------------------------------------------------------------
  // split and join
  // ---------------------------------------------------------------------

  /** `s.split(sep)` for a non-empty separator: the pieces between non-overlapping matches, left to right. */
  function SplitOn(s: string, sep: string): (r: seq<string>)
    requires |sep| > 0
    ensures |r| >= 1
    decreases |s|
  {
    if |s| < |sep| then [s]
    else if sep <= s then [""] + SplitOn(s[|sep|..], sep)
    else
      var rest := SplitOn(s[1..], sep);
      [[s[0]] + rest[0]] + rest[1..]
  }

  /** `s.split(sep)` for a one-character separator; `"".split(sep)` is `[""]`. */
  function Split(s: string, sep: char): (r: seq<string>)
    ensures |r| >= 1
  {
    SplitOn(s, [sep])
  }

  /** With a one-character separator, a split is the first piece followed by the split of the rest. */
  lemma SplitUnfold(s: string, sep: char)
    ensures s == [] ==> Split(s, sep) == [""]
    ensures s != [] && s[0] == sep ==> Split(s, sep) == [""] + Split(s[1..], sep)
    ensures s != [] && s[0] != sep ==>
      Split(s, sep) == [[s[0]] + Split(s[1..], sep)[0]] + Split(s[1..], sep)[1..]
  {
    if s != [] && s[0] == sep {
      assert [sep] <= s;
    }
  }

  /** `ss.join(sep)` */
  function Join(ss: seq<string>, sep: string): (r: string)
    ensures |ss| > 0 ==> |ss[0]| <= |r| && r[..|ss[0]|] == ss[0]
  {
    if ss == [] then "" else if |ss| == 1 then ss[0] else ss[0] + sep + Join(ss[1..], sep)
  }

  /** `ids.map(String)` */
  function IntTokens(ids: seq<int>): (r: seq<string>)
    ensures |r| == |ids| && forall i :: 0 <= i < |ids| ==> r[i] == IntToString(ids[i])
  {
    if ids == [] then [] else [IntToString(ids[0])] + IntTokens(ids[1..])
  }

  function JoinIds(ids: seq<int>): string {
    Join(IntTokens(ids), ",")
  }

  lemma {:induction false} SplitWithoutSeparator(s: string, sep: char)
    requires sep !in s
    ensures Split(s, sep) == [s]
    decreases |s|
  {
    SplitUnfold(s, sep);
    if s != [] {
      SplitWithoutSeparator(s[1..], sep);
      assert [s[0]] + s[1..] == s;
    }
  }

  lemma {:induction false} SplitAtFirstSeparator(a: string, b: string, sep: char)
    requires sep !in a
    ensures Split(a + [sep] + b, sep) == [a] + Split(b, sep)
    decreases |a|
  {
    var s := a + [sep] + b;
    SplitUnfold(s, sep);
    if a == [] {
      assert s[0] == sep && s[1..] == b;
    } else {
      assert s[1..] == a[1..] + [sep] + b;
      SplitAtFirstSeparator(a[1..], b, sep);
      assert [a[0]] + a[1..] == a;
    }
  }

  /** Splitting a join gives back the pieces, as long as no piece holds the separator. */
  lemma {:induction false} SplitJoin(ss: seq<string>, sep: char)
    requires |ss| >= 1
    requires forall i :: 0 <= i < |ss| ==> sep !in ss[i]
    ensures Split(Join(ss, [sep]), sep) == ss
    decreases |ss|
  {
    if |ss| == 1 {
      SplitWithoutSeparator(ss[0], sep);
    } else {
      SplitJoin(ss[1..], sep);
      SplitAtFirstSeparator(ss[0], Join(ss[1..], [sep]), sep);
      assert [ss[0]] + ss[1..] == ss;
    }
  }

  /** Joining a split gives back the string. */
  lemma {:induction false} JoinSplit(s: string, sep: char)
    ensures Join(Split(s, sep), [sep]) == s
    decreases |s|
  {
    SplitUnfold(s, sep);
    if s != [] {
      var rest := Split(s[1..], sep);
      JoinSplit(s[1..], sep);
      if s[0] == sep {
        assert Join([""] + rest, [sep]) == "" + [sep] + Join(rest, [sep]);
        assert s == [sep] + s[1..];
      } else {
        var r := [[s[0]] + rest[0]] + rest[1..];
        if |rest| == 1 {
          assert Join(rest, [sep]) == rest[0];
        } else {
          assert Join(rest, [sep]) == rest[0] + [sep] + Join(rest[1..], [sep]);
          assert r[1..] == rest[1..];
        }
        assert s == [s[0]] + s[1..];
      }
    }
  }

  /** `split` with a longer separator: a piece free of the separator's first character, then the separator. */
  lemma {:induction false} SplitOnAtFirst(a: string, sep: string, b: string)
    requires |sep| > 0 && sep[0] !in a
    ensures SplitOn(a + sep + b, sep) == [a] + SplitOn(b, sep)
    decreases |a|
  {
    var s := a + sep + b;
    if a == [] {
      assert s == sep + b && sep <= s && s[|sep|..] == b;
    } else {
      assert !(sep <= s) by {
        assert s[0] == a[0] != sep[0];
      }
      assert s[1..] == a[1..] + sep + b;
      SplitOnAtFirst(a[1..], sep, b);
      assert [a[0]] + a[1..] == a;
    }
  }

  /** `split` on a string too short to hold the separator, or free of its first character, leaves it whole. */
  lemma {:induction false} SplitOnWithout(s: string, sep: string)
    requires |sep| > 0 && sep[0] !in s
    ensures SplitOn(s, sep) == [s]
    decreases |s|
  {
    if |s| >= |sep| {
      assert !(sep <= s) by {
        assert s[0] != sep[0];
      }
      SplitOnWithout(s[1..], sep);
      assert [s[0]] + s[1..] == s;
    }
  }

  // ---------------------------------------------------------------------
  // includes and case mapping
  // ---------------------------------------------------------------------

  /** `s.includes(sub)` */
  predicate Contains(s: string, sub: string)
    decreases |s|
  {
    sub <= s || (|s| > 0 && Contains(s[1..], sub))
  }

  lemma {:induction false} ContainsAt(s: string, sub: string, i: nat)
    requires i + |sub| <= |s| && s[i..i + |sub|] == sub
    ensures Contains(s, sub)
    decreases i
  {
    if i > 0 {
      assert s[1..][i - 1..i - 1 + |sub|] == s[i..i + |sub|];
      ContainsAt(s[1..], sub, i - 1);
    }
  }

  /** The empty string is part of every string. */
  lemma ContainsEmpty(s: string)
    ensures Contains(s, "")
  {
  }

  function LowerChar(c: char): char {
    if 'A' <= c <= 'Z' then (c as int + 32) as char else c
  }

  function UpperChar(c: char): char {
    if 'a' <= c <= 'z' then (c as int - 32) as char else c
  }

  /** `s.toLowerCase()` on ASCII letters. */
  function ToLower(s: string): (r: string)
    ensures |r| == |s|
  {
    if s == [] then [] else [LowerChar(s[0])] + ToLower(s[1..])
  }

  /** `s.toUpperCase()` on ASCII letters. */
  function ToUpper(s: string): (r: string)
    ensures |r| == |s|
  {
    if s == [] then [] else [UpperChar(s[0])] + ToUpper(s[1..])
  }

  // ---------------------------------------------------------------------
  // Code-point order (equal to UTF-16 code-unit order on the Basic Multilingual Plane)
  // ---------------------------------------------------------------------

  /** `a <= b` on JavaScript strings: lexicographic on characters, a prefix first. */
  predicate LexLe(a: string, b: string)
    ensures |a| <= |b| && a == b[..|a|] ==> LexLe(a, b)
    decreases |a|
  {
    if a == [] then true
    else if b == [] then false
    else if a[0] != b[0] then a[0] < b[0]
    else LexLe(a[1..], b[1..])
  }

  lemma {:induction false} LexLeTotal(a: string, b: string)
    ensures LexLe(a, b) || LexLe(b, a)
    decreases |a|
  {
    if a != [] && b != [] && a[0] == b[0] {
      LexLeTotal(a[1..], b[1..]);
    }
  }

  lemma {:induction false} LexLeAntisymmetric(a: string, b: string)
    requires LexLe(a, b) && LexLe(b, a)
    ensures a == b
    decreases |a|
  {
    if a != [] {
      LexLeAntisymmetric(a[1..], b[1..]);
      assert a == [a[0]] + a[1..] && b == [b[0]] + b[1..];
    }
  }

  lemma {:induction false} LexLeTransitive(a: string, b: string, c: string)
    requires LexLe(a, b) && LexLe(b, c)
    ensures LexLe(a, c)
    decreases |a|
  {
    if a != [] && a[0] == b[0] && b[0] == c[0] {
      LexLeTransitive(a[1..], b[1..], c[1..]);
    }
  }

  lemma LexLeReflexive(a: string)
    ensures LexLe(a, a)
  {
  }

  /** Comparing two strings that start with pieces of equal length. */
  lemma {:induction false} LexLeConcat(a1: string, a2: string, b1: string, b2: string)
    requires |a1| == |b1|
    ensures LexLe(a1 + a2, b1 + b2) == if a1 == b1 then LexLe(a2, b2) else LexLe(a1, b1)
    decreases |a1|
  {
    if a1 != [] {
      assert (a1 + a2)[0] == a1[0] && (b1 + b2)[0] == b1[0];
      if a1[0] == b1[0] {
        assert (a1 + a2)[1..] == a1[1..] + a2;
        assert (b1 + b2)[1..] == b1[1..] + b2;
        LexLeConcat(a1[1..], a2, b1[1..], b2);
        assert a1 == [a1[0]] + a1[1..] && b1 == [b1[0]] + b1[1..];
        assert LexLe(a1 + a2, b1 + b2) == LexLe(a1[1..] + a2, b1[1..] + b2);
        assert LexLe(a1, b1) == LexLe(a1[1..], b1[1..]);
        assert (a1 == b1) == (a1[1..] == b1[1..]);
      } else {
        assert a1 != b1;
      }
    } else {
      assert a1 + a2 == a2 && b1 + b2 == b2;
    }
  }

  /** A smaller leading digit wins whatever the lower digits are. */
  lemma LeadingDigitDominates(da: nat, db: nat, ra: nat, rb: nat, p: nat)
    requires da < db && ra < p
    ensures da * p + ra < db * p + rb
  {
    assert (da + 1) * p <= db * p;
  }

  /** On digit strings of one length, string order is numeric order. */
  lemma {:induction false} LexLeDigits(a: string, b: string)
    requires |a| == |b| && AllDigits(a) && AllDigits(b)
    ensures LexLe(a, b) <==> DigitsValue(a) <= DigitsValue(b)
    decreases |a|
  {
    if a != [] {
      var p := Pow10(|a| - 1);
      DigitsValueFront(a);
      DigitsValueFront(b);
      DigitsValueBound(a[1..]);
      DigitsValueBound(b[1..]);
      LexLeDigits(a[1..], b[1..]);
      var da, db := DigitValue(a[0]), DigitValue(b[0]);
      if da < db {
        LeadingDigitDominates(da, db, DigitsValue(a[1..]), DigitsValue(b[1..]), p);
      } else if da > db {
        LeadingDigitDominates(db, da, DigitsValue(b[1..]), DigitsValue(a[1..]), p);
      }
    }
  }
}
