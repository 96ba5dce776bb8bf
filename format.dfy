/**
 * The week utilities and number classifiers of the formatting helpers:
 * `isValidWeekFormat`, `generateWeekRange`, `calculatePercentageChange`,
 * `normalizeToIndex100`, `getExporterColor`, and the sign classification of
 * `formatYoYChange` and `formatPercentage`. Numbers are `real`; the text that
 * `toFixed` produces is not modelled.
 */
module Format {
  import opened Common
  import opened Strings
  import opened Weeks

  // ---------------------------------------------------------------------
  // Weeks
  // ---------------------------------------------------------------------

  /**
   * `isValidWeekFormat(week)`: the regex, then `parseInt` of the piece after
   * `-W` must lie in 1..53 (a missing piece or `NaN` fails the comparisons).
   */
  predicate IsValidWeekFormat(week: string) {
    if !IsWeekShape(week) then false
    else
      var parts := SplitOn(week, "-W");
      var weekInt := if |parts| > 1 then ParseInt(parts[1]) else None;
      weekInt.Some? && 1 <= weekInt.value <= 53
  }

  /** A `YYYY-Www` string whose week is 1 to 53. */
  predicate ValidWeek(s: string) {
    IsWeekShape(s) && 1 <= WeekOf(s) <= 53
  }

  /** A week string is valid exactly when it has the `YYYY-Www` shape and its week is 1 to 53. */
  lemma IsValidWeekFormatMeaning(week: string)
    ensures IsValidWeekFormat(week) <==> ValidWeek(week)
  {
    if IsWeekShape(week) {
      WeekParts(week);
    }
  }

  /**
   * The week the loop of `generateWeekRange` moves to: week 53 rolls over to
   * week 01 of the next year; any other week goes to the next number in the
   * same year, padded to two digits. No ISO week-year rule applies, so W52 is
   * always followed by W53.
   */
  function NextWeek(s: string): string
    requires IsWeekShape(s)
  {
    if WeekOf(s) == 53 then IntToString(YearOf(s) + 1) + "-W01"
    else s[..4] + "-W" + Pad2(WeekOf(s) + 1)
  }

  /**
   * The successor rule: `Y-W53` is followed by `(Y+1)-W01` and `Y-Www` by
   * `Y-W(ww+1)`. While the year keeps four digits the successor is again a
   * valid week string and comes strictly later.
   */
  lemma NextWeekStep(s: string)
    requires ValidWeek(s)
    requires WeekOf(s) == 53 ==> 999 <= YearOf(s) <= 9998
    ensures ValidWeek(NextWeek(s))
    ensures WeekOf(s) == 53 ==> YearOf(NextWeek(s)) == YearOf(s) + 1 && WeekOf(NextWeek(s)) == 1
    ensures WeekOf(s) != 53 ==> YearOf(NextWeek(s)) == YearOf(s) && WeekOf(NextWeek(s)) == WeekOf(s) + 1
    ensures WeekKey(NextWeek(s)) > WeekKey(s)
  {
    var n := NextWeek(s);
    if WeekOf(s) == 53 {
      var y := NatToString(YearOf(s) + 1);
      assert Pow10(3) == 1000 && Pow10(4) == 10000;
      NatToStringLength(YearOf(s) + 1, 4);
      NatToStringValue(YearOf(s) + 1);
      assert n == y + "-W01";
      assert n[..4] == y && n[6..] == "01";
      assert DigitsValue("01") == 1 by {
        assert "01"[..1] == "0";
        assert "0"[..0] == "";
      }
    } else {
      var w := Pad2(WeekOf(s) + 1);
      Pad2Value(WeekOf(s) + 1);
      assert n[..4] == s[..4] && n[6..] == w;
    }
  }

  lemma LastWeekKey()
    ensures IsWeekShape("9999-W53") && WeekKey("9999-W53") == 999953
  {
    var s := "9999-W53";
    assert s[..4] == "9999" && s[6..] == "53";
    assert "9999"[..3] == "999" && "999"[..2] == "99" && "99"[..1] == "9" && "9"[..0] == "";
    assert "53"[..1] == "5" && "5"[..0] == "";
    assert DigitsValue("9999") == 9999;
    assert DigitsValue("53") == 53;
  }

  /** One turn of the `generateWeekRange` loop while the current week is at most the end week. */
  lemma RangeStep(current: string, endWeek: string)
    requires ValidWeek(current) && ValidWeek(endWeek) && endWeek != "9999-W53"
    requires YearOf(current) >= 999 && WeekKey(current) <= WeekKey(endWeek)
    ensures ValidWeek(NextWeek(current)) && YearOf(NextWeek(current)) >= YearOf(current)
    ensures WeekKey(NextWeek(current)) > WeekKey(current)
    ensures LexLe(NextWeek(current), endWeek) <==> WeekKey(NextWeek(current)) <= WeekKey(endWeek)
  {
    if WeekOf(current) == 53 {
      assert YearOf(current) <= 9998 by {
        WeekOfBound(endWeek);
        if YearOf(current) == 9999 {
          LastWeekKey();
          assert WeekKey(endWeek) == 999953;
          WeekKeyInjective(endWeek, "9999-W53");
        }
      }
    }
    NextWeekStep(current);
    WeekOrder(NextWeek(current), endWeek);
  }

  /** What the `generateWeekRange` loop knows after some turns: `weeks` so far, `current` next. */
  predicate RangeSoFar(weeks: seq<string>, current: string, startWeek: string, endWeek: string) {
    ValidWeek(current) && ValidWeek(startWeek) && ValidWeek(endWeek) && YearOf(current) >= YearOf(startWeek)
    && (LexLe(current, endWeek) <==> WeekKey(current) <= WeekKey(endWeek))
    && (weeks == [] ==> current == startWeek)
    && (weeks != [] ==>
      weeks[0] == startWeek && ValidWeek(weeks[|weeks| - 1]) && current == NextWeek(weeks[|weeks| - 1]))
    && (forall i :: 0 <= i < |weeks| ==> ValidWeek(weeks[i]) && LexLe(weeks[i], endWeek))
    && (forall i :: 0 <= i < |weeks| - 1 ==> ValidWeek(weeks[i]) && weeks[i + 1] == NextWeek(weeks[i]))
    && (forall i :: 0 <= i < |weeks| ==> ValidWeek(weeks[i]) && WeekKey(weeks[i]) < WeekKey(current))
    && (forall i, j :: 0 <= i < j < |weeks| ==>
      ValidWeek(weeks[i]) && ValidWeek(weeks[j]) && WeekKey(weeks[i]) < WeekKey(weeks[j]))
  }

  /** One turn of the loop keeps `RangeSoFar` and moves the current week forward. */
  lemma RangeSoFarStep(weeks: seq<string>, current: string, startWeek: string, endWeek: string)
    requires RangeSoFar(weeks, current, startWeek, endWeek) && LexLe(current, endWeek)
    requires YearOf(startWeek) >= 999 && endWeek != "9999-W53"
    ensures ValidWeek(NextWeek(current)) && WeekKey(NextWeek(current)) > WeekKey(current)
    ensures 0 <= WeekKey(endWeek) - WeekKey(current)
    ensures RangeSoFar(weeks + [current], NextWeek(current), startWeek, endWeek)
  {
    RangeStep(current, endWeek);
    var w := weeks + [current];
    var next := NextWeek(current);
    assert w[0] == startWeek && w[|w| - 1] == current;
    BelowSnoc(weeks, current, endWeek, next);
    ConsecutiveSnoc(weeks, current);
    PairwiseSnoc(weeks, current);
  }

  /** Appending a week before the end keeps every week before the end and below the next one. */
  lemma BelowSnoc(weeks: seq<string>, current: string, endWeek: string, next: string)
    requires ValidWeek(current) && ValidWeek(next) && LexLe(current, endWeek) && WeekKey(current) < WeekKey(next)
    requires forall i :: 0 <= i < |weeks| ==> ValidWeek(weeks[i]) && LexLe(weeks[i], endWeek)
    requires forall i :: 0 <= i < |weeks| ==> ValidWeek(weeks[i]) && WeekKey(weeks[i]) < WeekKey(current)
    ensures var w := weeks + [current];
      (forall i :: 0 <= i < |w| ==> ValidWeek(w[i]) && LexLe(w[i], endWeek))
      && forall i :: 0 <= i < |w| ==> ValidWeek(w[i]) && WeekKey(w[i]) < WeekKey(next)
  {
    var w := weeks + [current];
    forall i | 0 <= i < |w| ensures ValidWeek(w[i]) && LexLe(w[i], endWeek) && WeekKey(w[i]) < WeekKey(next) {
      if i < |weeks| {
        assert w[i] == weeks[i];
      }
    }
  }

  /** Appending a week later than all others keeps the weeks strictly increasing. */
  lemma PairwiseSnoc(weeks: seq<string>, current: string)
    requires ValidWeek(current)
    requires forall i :: 0 <= i < |weeks| ==> ValidWeek(weeks[i]) && WeekKey(weeks[i]) < WeekKey(current)
    requires forall i, j :: 0 <= i < j < |weeks| ==>
      ValidWeek(weeks[i]) && ValidWeek(weeks[j]) && WeekKey(weeks[i]) < WeekKey(weeks[j])
    ensures var w := weeks + [current];
      forall i, j :: 0 <= i < j < |w| ==> ValidWeek(w[i]) && ValidWeek(w[j]) && WeekKey(w[i]) < WeekKey(w[j])
  {
    var w := weeks + [current];
    forall i, j | 0 <= i < j < |w| ensures ValidWeek(w[i]) && ValidWeek(w[j]) && WeekKey(w[i]) < WeekKey(w[j]) {
      assert w[i] == weeks[i];
      if j < |weeks| {
        assert w[j] == weeks[j];
      }
    }
  }

  /** Appending the successor of the last week keeps every week followed by its successor. */
  lemma ConsecutiveSnoc(weeks: seq<string>, current: string)
    requires forall i :: 0 <= i < |weeks| - 1 ==> ValidWeek(weeks[i]) && weeks[i + 1] == NextWeek(weeks[i])
    requires weeks != [] ==> ValidWeek(weeks[|weeks| - 1]) && current == NextWeek(weeks[|weeks| - 1])
    ensures var w := weeks + [current];
      forall i :: 0 <= i < |w| - 1 ==> ValidWeek(w[i]) && w[i + 1] == NextWeek(w[i])
  {
    var w := weeks + [current];
    forall i | 0 <= i < |w| - 1 ensures ValidWeek(w[i]) && w[i + 1] == NextWeek(w[i]) {
      assert w[i] == weeks[i];
      if i < |weeks| - 1 {
        assert w[i + 1] == weeks[i + 1];
      } else {
        assert w[i + 1] == current;
      }
    }
  }

  /**
   * `weeks` is the week range from `startWeek` to `endWeek`: empty when the
   * start is after the end, otherwise starting at the start, each week the
   * next of the one before, all `<=` the end, the week after the last past it,
   * and strictly increasing in week order.
   */
  predicate IsWeekRange(weeks: seq<string>, startWeek: string, endWeek: string) {
    (!LexLe(startWeek, endWeek) ==> weeks == [])
    && (LexLe(startWeek, endWeek) ==> |weeks| >= 1 && weeks[0] == startWeek)
    && (forall i :: 0 <= i < |weeks| ==> ValidWeek(weeks[i]) && LexLe(weeks[i], endWeek))
    && (forall i :: 0 <= i < |weeks| - 1 ==> ValidWeek(weeks[i]) && weeks[i + 1] == NextWeek(weeks[i]))
    && (|weeks| > 0 ==> ValidWeek(weeks[|weeks| - 1]) && !LexLe(NextWeek(weeks[|weeks| - 1]), endWeek))
    && (forall i, j :: 0 <= i < j < |weeks| ==>
      ValidWeek(weeks[i]) && ValidWeek(weeks[j]) && WeekKey(weeks[i]) < WeekKey(weeks[j]))
  }

  /** The loop of `generateWeekRange`, from a valid start week to a valid end week. */
  method WeeksUpTo(startWeek: string, endWeek: string) returns (weeks: seq<string>)
    requires ValidWeek(startWeek) && ValidWeek(endWeek)
    requires LexLe(startWeek, endWeek) ==> YearOf(startWeek) >= 999 && endWeek != "9999-W53"
    ensures IsWeekRange(weeks, startWeek, endWeek)
  {
    weeks := [];
    var currentWeek := startWeek;
    RangeStart(startWeek, endWeek);
    while LexLe(currentWeek, endWeek)
      invariant RangeSoFar(weeks, currentWeek, startWeek, endWeek)
      decreases WeekKey(endWeek) - WeekKey(currentWeek)
    {
      RangeSoFarStep(weeks, currentWeek, startWeek, endWeek);
      weeks := weeks + [currentWeek];
      currentWeek := NextWeek(currentWeek);
    }
    RangeDone(weeks, currentWeek, startWeek, endWeek);
  }

  /** Before the first turn nothing is collected and the start week is next. */
  lemma RangeStart(startWeek: string, endWeek: string)
    requires ValidWeek(startWeek) && ValidWeek(endWeek)
    ensures RangeSoFar([], startWeek, startWeek, endWeek)
  {
    WeekOrder(startWeek, endWeek);
  }

  /** When the loop stops, the weeks collected are the whole range. */
  lemma RangeDone(weeks: seq<string>, current: string, startWeek: string, endWeek: string)
    requires RangeSoFar(weeks, current, startWeek, endWeek) && !LexLe(current, endWeek)
    ensures IsWeekRange(weeks, startWeek, endWeek)
  {
  }

  /**
   * `generateWeekRange(startWeek, endWeek)`: `[]` unless both bounds are
   * valid, then every week from the start while it is `<=` the end. It is
   * specified for starts from year 0999 on and ends before `9999-W53`; outside
   * that the next week leaves the four-digit shape and string order no longer
   * follows week order.
   */
  method GenerateWeekRange(startWeek: string, endWeek: string) returns (weeks: seq<string>)
    requires IsValidWeekFormat(startWeek) && IsValidWeekFormat(endWeek) && LexLe(startWeek, endWeek) ==>
      YearOf(startWeek) >= 999 && endWeek != "9999-W53"
    ensures !IsValidWeekFormat(startWeek) || !IsValidWeekFormat(endWeek) ==> weeks == []
    ensures !LexLe(startWeek, endWeek) ==> weeks == []
    ensures IsValidWeekFormat(startWeek) && IsValidWeekFormat(endWeek) && LexLe(startWeek, endWeek) ==>
      |weeks| >= 1 && weeks[0] == startWeek
    ensures forall i :: 0 <= i < |weeks| ==> ValidWeek(weeks[i]) && LexLe(weeks[i], endWeek)
    ensures forall i :: 0 <= i < |weeks| - 1 ==> ValidWeek(weeks[i]) && weeks[i + 1] == NextWeek(weeks[i])
    ensures |weeks| > 0 ==> ValidWeek(weeks[|weeks| - 1]) && !LexLe(NextWeek(weeks[|weeks| - 1]), endWeek)
    ensures forall i, j :: 0 <= i < j < |weeks| ==>
      ValidWeek(weeks[i]) && ValidWeek(weeks[j]) && WeekKey(weeks[i]) < WeekKey(weeks[j])
  {
    IsValidWeekFormatMeaning(startWeek);
    IsValidWeekFormatMeaning(endWeek);
    if !IsValidWeekFormat(startWeek) || !IsValidWeekFormat(endWeek) {
      return [];
    }
    weeks := WeeksUpTo(startWeek, endWeek);
  }

  // ---------------------------------------------------------------------
  // Percentages and colours
  // ---------------------------------------------------------------------

  /** `calculatePercentageChange(current, previous)`; `None` is `null`. */
  function CalculatePercentageChange(current: real, previous: real): Option<real> {
    if previous == 0.0 then None else Some((current - previous) / previous * 100.0)
  }

  /** The change is `null` exactly when there is no previous value to compare with, and it is 0 exactly when nothing changed. */
  lemma PercentageChangeMeaning(current: real, previous: real)
    ensures CalculatePercentageChange(current, previous).None? <==> previous == 0.0
    ensures previous != 0.0 ==> (CalculatePercentageChange(current, previous).value == 0.0 <==> current == previous)
    ensures previous > 0.0 ==> (CalculatePercentageChange(current, previous).value > 0.0 <==> current > previous)
  {
    if previous != 0.0 {
      var r := (current - previous) / previous;
      assert r * previous == current - previous;
      if previous > 0.0 && current > previous {
        assert r > 0.0;
      }
    }
  }

  datatype YoYTone = Amber | Green | Red

  /** What `formatYoYChange` decides: colour, arrow and whether the text carries a `+`. */
  datatype YoYDisplay = YoYDisplay(tone: YoYTone, color: string, arrow: string, plusSign: bool)

  /** `formatYoYChange(value)` without the `toFixed` text. */
  function FormatYoYChange(value: Option<real>): YoYDisplay {
    if value.None? || value.value == 0.0 then YoYDisplay(Amber, "text-amber-600", "→", false)
    else if value.value > 0.0 then YoYDisplay(Green, "text-green-600", "↑", true)
    else YoYDisplay(Red, "text-red-600", "↓", false)
  }

  /** The tone follows the sign of the change: none or zero amber, rising green, falling red. */
  lemma YoYChangeBySign(value: Option<real>)
    ensures FormatYoYChange(value).tone == Amber <==> value.None? || value.value == 0.0
    ensures FormatYoYChange(value).tone == Green <==> value.Some? && value.value > 0.0
    ensures FormatYoYChange(value).tone == Red <==> value.Some? && value.value < 0.0
    ensures FormatYoYChange(value).plusSign <==> FormatYoYChange(value).tone == Green
  {
  }

  /** A year-on-year change against a positive baseline shows a rising arrow exactly when the current value is larger. */
  lemma YoYChangeOfPercentage(current: real, previous: real)
    requires previous > 0.0
    ensures FormatYoYChange(CalculatePercentageChange(current, previous)).tone == Green <==> current > previous
    ensures FormatYoYChange(CalculatePercentageChange(current, previous)).tone == Amber <==> current == previous
  {
    PercentageChangeMeaning(current, previous);
  }

  /** What `formatPercentage` prints: `0%`, `<0.1%`, or the value with `toFixed`. */
  datatype PercentLabel = ZeroPercent | BelowTenth | Fixed(value: real)

  function FormatPercentage(value: real): PercentLabel {
    if value == 0.0 then ZeroPercent
    else if value < 0.1 then BelowTenth
    else Fixed(value)
  }

  /** Only values from 0.1 up print their digits; every negative value prints as `<0.1%`. */
  lemma PercentageLabels(value: real)
    ensures FormatPercentage(value).Fixed? <==> value >= 0.1
    ensures value < 0.0 ==> FormatPercentage(value) == BelowTenth
    ensures FormatPercentage(value).Fixed? ==> FormatPercentage(value).value == value
  {
  }

  datatype Metric = Kilograms | Boxes

  datatype Point = Point(kilograms: real, boxes: real)

  datatype NormalizedPoint = NormalizedPoint(kilograms: real, boxes: real, normalized: real)

  function MetricOf(p: Point, metric: Metric): real {
    match metric
    case Kilograms => p.kilograms
    case Boxes => p.boxes
  }

  /** `normalizeToIndex100(data, metric)`: every point as a percentage of the first. */
  function NormalizeToIndex100(data: seq<Point>, metric: Metric): (r: seq<NormalizedPoint>)
  {
    if |data| == 0 then []
    else
      var first := MetricOf(data[0], metric);
      if first == 0.0 then seq(|data|, i requires 0 <= i < |data| => NormalizedPoint(data[i].kilograms, data[i].boxes, 0.0))
      else seq(|data|, i requires 0 <= i < |data| => NormalizedPoint(data[i].kilograms, data[i].boxes, MetricOf(data[i], metric) / first * 100.0))
  }

  /**
   * Normalising keeps the points and their order, adds the index, starts at
   * 100 unless the first value is 0, and is all zeros when it is.
   */
  lemma NormalizeToIndex100Meaning(data: seq<Point>, metric: Metric)
    ensures |NormalizeToIndex100(data, metric)| == |data|
    ensures forall i :: 0 <= i < |data| ==>
      NormalizeToIndex100(data, metric)[i].kilograms == data[i].kilograms
      && NormalizeToIndex100(data, metric)[i].boxes == data[i].boxes
    ensures |data| > 0 && MetricOf(data[0], metric) == 0.0 ==>
      forall i :: 0 <= i < |data| ==> NormalizeToIndex100(data, metric)[i].normalized == 0.0
    ensures |data| > 0 && MetricOf(data[0], metric) != 0.0 ==>
      NormalizeToIndex100(data, metric)[0].normalized == 100.0
      && forall i :: 0 <= i < |data| ==>
        NormalizeToIndex100(data, metric)[i].normalized * MetricOf(data[0], metric) == MetricOf(data[i], metric) * 100.0
  {
    if |data| > 0 && MetricOf(data[0], metric) != 0.0 {
      var first := MetricOf(data[0], metric);
      assert first / first == 1.0;
    }
  }

  /** The palette `getExporterColor` cycles through. */
  const Colors: seq<string> := ["#3B82F6", "#10B981", "#F59E0B", "#EF4444", "#8B5CF6",
                                "#F97316", "#06B6D4", "#84CC16", "#EC4899", "#6366F1"]

  /** JavaScript's `a % b` on integers: the remainder takes the sign of `a`. */
  function JsRemainder(a: int, b: int): int
    requires b > 0
  {
    if a >= 0 then a % b else -((-a) % b)
  }

  /** `getExporterColor(id)`; `None` is the `undefined` that a negative remainder indexes. */
  function GetExporterColor(exporterId: int): Option<string> {
    var r := JsRemainder(exporterId, |Colors|);
    if 0 <= r < |Colors| then Some(Colors[r]) else None
  }

  /**
   * Non-negative ids take the colour at `id mod 10`, so colours repeat every ten
   * ids; a negative id gets no colour unless it is a multiple of ten.
   */
  lemma ExporterColorCycle(exporterId: int)
    ensures exporterId >= 0 ==> GetExporterColor(exporterId) == Some(Colors[exporterId % 10])
    ensures exporterId >= 0 ==> GetExporterColor(exporterId + 10) == GetExporterColor(exporterId)
    ensures exporterId < 0 ==> (GetExporterColor(exporterId).Some? <==> exporterId % 10 == 0)
  {
    if exporterId < 0 {
      assert (-exporterId) % 10 == 0 <==> exporterId % 10 == 0;
    }
  }
}
