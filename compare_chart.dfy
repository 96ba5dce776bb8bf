/**
 * The data logic of the exporter comparison chart
 * (src/app/dashboard/exporters/_components/CompareChart.tsx): the capped
 * selection toggle, the initial selection, the chart rows over the union of
 * the series' periods, and the growth rate of each selected exporter.
 */
module CompareChart {
  import opened Common
  import opened Strings
  import opened Grouping
  import opened Sorting

  /** A point of one exporter's time series. */
  datatype ChartPoint = ChartPoint(period: string, kilograms: int, boxes: int, exporterId: Option<int>)

  /** The part of an exporter's KPI record that the chart reads. */
  datatype Exporter = Exporter(exporterId: int, exporterName: string, kilograms: int, boxes: int)

  datatype Metric = Kilograms | Boxes

  function PointValue(p: ChartPoint, metric: Metric): int {
    match metric
    case Kilograms => p.kilograms
    case Boxes => p.boxes
  }

  function ExporterTotal(e: Exporter, metric: Metric): int {
    match metric
    case Kilograms => e.kilograms
    case Boxes => e.boxes
  }

  const MaxSelected: nat := 5
  const InitialSelected: nat := 3

  // ---------------------------------------------------------------------
  // Selection
  // ---------------------------------------------------------------------

  /** `handleExporterToggle`: deselect a selected id, select a new one while fewer than five are selected. */
  function Toggle(prev: seq<int>, exporterId: int): (r: seq<int>)
    ensures |prev| <= MaxSelected ==> |r| <= MaxSelected
  {
    RemoveAllMembers(prev, exporterId);
    if exporterId in prev then RemoveAll(prev, exporterId)
    else if |prev| < MaxSelected then prev + [exporterId]
    else prev
  }

  /**
   * A selected id is removed with all its occurrences and the rest kept; a
   * new id is appended exactly when fewer than five are selected, and the
   * selection is left as it was otherwise.
   */
  lemma ToggleFacts(prev: seq<int>, exporterId: int)
    ensures var r := Toggle(prev, exporterId);
      (exporterId in prev ==> exporterId !in r && forall x :: x != exporterId ==> (x in r <==> x in prev))
      && (exporterId !in prev && |prev| < 5 ==> r == prev + [exporterId])
      && (exporterId !in prev && |prev| >= 5 ==> r == prev)
      && (exporterId in r <==> exporterId !in prev && |prev| < 5)
  {
    RemoveAllMembers(prev, exporterId);
  }

  /** Toggling an unselected id in and out again restores the selection. */
  lemma ToggleTwice(prev: seq<int>, exporterId: int)
    requires exporterId !in prev
    ensures Toggle(Toggle(prev, exporterId), exporterId) == prev
  {
    RemoveAllMembers(prev, exporterId);
    RemoveAllAppend(prev, [exporterId], exporterId);
    assert RemoveAll([exporterId], exporterId) == [];
  }

  function ExporterIds(es: seq<Exporter>): (r: seq<int>)
    ensures |r| == |es| && forall i :: 0 <= i < |es| ==> r[i] == es[i].exporterId
  {
    seq(|es|, i requires 0 <= i < |es| => es[i].exporterId)
  }

  /** The effect that seeds the selection: the first three exporters when nothing is selected yet. */
  function InitialSelection(exporters: seq<Exporter>, selected: seq<int>): (r: seq<int>)
    ensures |selected| <= MaxSelected ==> |r| <= MaxSelected
  {
    if |exporters| > 0 && |selected| == 0 then ExporterIds(Take(exporters, InitialSelected)) else selected
  }

  /** The seeded selection is the ids of the first up-to-three exporters; otherwise nothing changes. */
  lemma InitialSelectionFacts(exporters: seq<Exporter>, selected: seq<int>)
    ensures var r := InitialSelection(exporters, selected);
      (|exporters| > 0 && |selected| == 0 ==>
        |r| == Min([|exporters|, 3]) && forall i :: 0 <= i < |r| ==> r[i] == exporters[i].exporterId)
      && (|exporters| == 0 || |selected| > 0 ==> r == selected)
  {
    assert Min([|exporters|, 3]) == if |exporters| <= 3 then |exporters| else 3 by {
      assert [|exporters|, 3][1..] == [3];
    }
  }

  // ---------------------------------------------------------------------
  // Lookups: `Array.prototype.find` and `some`
  // ---------------------------------------------------------------------

  /** `exporters.find(e => e.exporterId === exporterId)` */
  function FindExporter(exporters: seq<Exporter>, exporterId: int): (r: Option<Exporter>)
    ensures r.None? <==> forall i :: 0 <= i < |exporters| ==> exporters[i].exporterId != exporterId
    ensures r.Some? ==> exists i :: (0 <= i < |exporters| && exporters[i] == r.value
      && exporters[i].exporterId == exporterId
      && forall j :: 0 <= j < i ==> exporters[j].exporterId != exporterId)
  {
    if exporters == [] then None
    else if exporters[0].exporterId == exporterId then Some(exporters[0])
    else
      var r := FindExporter(exporters[1..], exporterId);
      assert forall i :: 0 < i < |exporters| ==> exporters[i] == exporters[1..][i - 1];
      r
  }

  /** `series.some(p => p.exporterId === exporterId)` */
  predicate HasExporter(series: seq<ChartPoint>, exporterId: int) {
    exists i :: 0 <= i < |series| && series[i].exporterId == Some(exporterId)
  }

  /** `data.find(series => series.some(p => p.exporterId === exporterId))` */
  function FindSeries(data: seq<seq<ChartPoint>>, exporterId: int): (r: Option<seq<ChartPoint>>)
    ensures r.None? <==> forall i :: 0 <= i < |data| ==> !HasExporter(data[i], exporterId)
    ensures r.Some? ==> exists i :: (0 <= i < |data| && data[i] == r.value
      && HasExporter(data[i], exporterId)
      && forall j :: 0 <= j < i ==> !HasExporter(data[j], exporterId))
  {
    if data == [] then None
    else if HasExporter(data[0], exporterId) then Some(data[0])
    else
      var r := FindSeries(data[1..], exporterId);
      assert forall i :: 0 < i < |data| ==> data[i] == data[1..][i - 1];
      r
  }

  /** `seriesData.find(p => p.period === period)` */
  function FindPoint(series: seq<ChartPoint>, period: string): (r: Option<ChartPoint>)
    ensures r.None? <==> forall i :: 0 <= i < |series| ==> series[i].period != period
    ensures r.Some? ==> exists i :: (0 <= i < |series| && series[i] == r.value
      && series[i].period == period
      && forall j :: 0 <= j < i ==> series[j].period != period)
  {
    if series == [] then None
    else if series[0].period == period then Some(series[0])
    else
      var r := FindPoint(series[1..], period);
      assert forall i :: 0 < i < |series| ==> series[i] == series[1..][i - 1];
      r
  }

  // ---------------------------------------------------------------------
  // Chart rows
  // ---------------------------------------------------------------------

  /** All points of all series, series after series. */
  function Flatten(data: seq<seq<ChartPoint>>): seq<ChartPoint> {
    if data == [] then [] else Flatten(data[..|data| - 1]) + data[|data| - 1]
  }

  function PointPeriod(p: ChartPoint): string { p.period }

  /** The periods in the order of first appearance: the iteration order of the `allPeriods` set. */
  function PeriodsSeen(data: seq<seq<ChartPoint>>): seq<string> {
    Keys(Flatten(data), PointPeriod)
  }

  /** `Array.from(allPeriods).sort()`: the default sort, taken as code-point order on the strings. */
  function SortedPeriods(data: seq<seq<ChartPoint>>): seq<string> {
    SortBy(PeriodsSeen(data), LexLe)
  }

  /** One chart row: the period and `exporter_<id>` → value for the exporters that have a value there. */
  datatype ChartRow = ChartRow(period: string, values: map<int, int>)

  /** The value drawn for one exporter at one period, if any. */
  function Cell(data: seq<seq<ChartPoint>>, exporters: seq<Exporter>, metric: Metric, exporterId: int, period: string): Option<int> {
    if FindExporter(exporters, exporterId).None? then None
    else
      var series := FindSeries(data, exporterId);
      if series.None? then None
      else
        var point := FindPoint(series.value, period);
        if point.None? then None else Some(PointValue(point.value, metric))
  }

  /** The values that `selectedExporters.forEach` assigns into one row, in selection order. */
  function RowValues(data: seq<seq<ChartPoint>>, exporters: seq<Exporter>, metric: Metric, selected: seq<int>, period: string): map<int, int> {
    if selected == [] then map[]
    else
      var m := RowValues(data, exporters, metric, selected[..|selected| - 1], period);
      var id := selected[|selected| - 1];
      var c := Cell(data, exporters, metric, id, period);
      if c.Some? then m[id := c.value] else m
  }

  function RowsFor(data: seq<seq<ChartPoint>>, exporters: seq<Exporter>, metric: Metric, selected: seq<int>, periods: seq<string>): (r: seq<ChartRow>)
    ensures |r| == |periods|
    ensures forall i :: 0 <= i < |periods| ==> r[i] == ChartRow(periods[i], RowValues(data, exporters, metric, selected, periods[i]))
  {
    seq(|periods|, i requires 0 <= i < |periods| => ChartRow(periods[i], RowValues(data, exporters, metric, selected, periods[i])))
  }

  /** `chartData` */
  function ChartDataOf(data: seq<seq<ChartPoint>>, exporters: seq<Exporter>, metric: Metric, selected: seq<int>): (r: seq<ChartRow>)
    ensures |data| == 0 ==> r == []
    ensures |data| > 0 ==> |r| == |PeriodsSeen(data)|
  {
    SortByPermutation(PeriodsSeen(data), LexLe);
    if |data| == 0 then [] else RowsFor(data, exporters, metric, selected, SortedPeriods(data))
  }

  /** The first loop of `chartData`: `allPeriods.add(point.period)` for every point of every series. */
  method CollectPeriods(data: seq<seq<ChartPoint>>) returns (periods: seq<string>)
    ensures periods == PeriodsSeen(data)
  {
    periods := [];
    var i := 0;
    while i < |data|
      invariant 0 <= i <= |data|
      invariant periods == Keys(Flatten(data[..i]), PointPeriod)
    {
      ghost var before := Flatten(data[..i]);
      var series := data[i];
      var j := 0;
      assert before + series[..j] == before;
      while j < |series|
        invariant 0 <= j <= |series|
        invariant periods == Keys(before + series[..j], PointPeriod)
      {
        AddPeriod(before, series, j);
        if series[j].period !in periods {
          periods := periods + [series[j].period];
        }
        j := j + 1;
      }
      FlattenPrefix(data, i);
      i := i + 1;
    }
    assert data[..i] == data;
  }

  lemma AddPeriod(before: seq<ChartPoint>, series: seq<ChartPoint>, j: nat)
    requires j < |series|
    ensures var ks := Keys(before + series[..j], PointPeriod);
      Keys(before + series[..j + 1], PointPeriod) == if series[j].period in ks then ks else ks + [series[j].period]
  {
    KeysSnoc(before + series[..j], series[j], PointPeriod);
    assert before + series[..j + 1] == (before + series[..j]) + [series[j]];
  }

  lemma FlattenPrefix(data: seq<seq<ChartPoint>>, i: nat)
    requires i < |data|
    ensures Flatten(data[..i + 1]) == Flatten(data[..i]) + data[i][..|data[i]|]
  {
    assert data[..i + 1][..i] == data[..i];
    assert data[i][..|data[i]|] == data[i];
  }

  /** Fills one row: for each selected exporter that has a value at `period`, `point[exporter_<id>] = value`. */
  method FillRow(data: seq<seq<ChartPoint>>, exporters: seq<Exporter>, metric: Metric, selected: seq<int>, period: string)
    returns (row: ChartRow)
    ensures row == ChartRow(period, RowValues(data, exporters, metric, selected, period))
  {
    var values: map<int, int> := map[];
    var k := 0;
    while k < |selected|
      invariant 0 <= k <= |selected|
      invariant values == RowValues(data, exporters, metric, selected[..k], period)
    {
      assert selected[..k + 1][..k] == selected[..k];
      var exporterId := selected[k];
      if FindExporter(exporters, exporterId).Some? {
        var series := FindSeries(data, exporterId);
        if series.Some? {
          var point := FindPoint(series.value, period);
          if point.Some? {
            values := values[exporterId := PointValue(point.value, metric)];
          }
        }
      }
      k := k + 1;
    }
    assert selected[..k] == selected;
    row := ChartRow(period, values);
  }

  /** `chartData`: the period union, sorted, and one filled row per period. */
  method ChartData(data: seq<seq<ChartPoint>>, exporters: seq<Exporter>, metric: Metric, selected: seq<int>)
    returns (rows: seq<ChartRow>)
    ensures rows == ChartDataOf(data, exporters, metric, selected)
  {
    if |data| == 0 {
      return [];
    }
    var seen := CollectPeriods(data);
    var periods := SortSeq(seen, LexLe);
    rows := [];
    var i := 0;
    while i < |periods|
      invariant 0 <= i <= |periods|
      invariant rows == RowsFor(data, exporters, metric, selected, periods[..i])
    {
      var row := FillRow(data, exporters, metric, selected, periods[i]);
      rows := rows + [row];
      i := i + 1;
    }
    assert periods[..i] == periods;
  }

  lemma LexLePreorder()
    ensures TotalPreorder(LexLe)
  {
    forall a, b ensures LexLe(a, b) || LexLe(b, a) {
      LexLeTotal(a, b);
    }
    forall a, b, c | LexLe(a, b) && LexLe(b, c) ensures LexLe(a, c) {
      LexLeTransitive(a, b, c);
    }
  }

  /** The points of the flattened data are exactly the points of the series. */
  lemma {:induction false} FlattenMembers(data: seq<seq<ChartPoint>>)
    ensures forall p :: p in Flatten(data) <==> exists i :: 0 <= i < |data| && p in data[i]
    decreases |data|
  {
    if data != [] {
      var d := data[..|data| - 1];
      FlattenMembers(d);
      forall p ensures p in Flatten(data) <==> exists i :: 0 <= i < |data| && p in data[i] {
        if p in Flatten(d) {
          var i :| 0 <= i < |d| && p in d[i];
          assert data[i] == d[i];
        }
        if exists i :: 0 <= i < |data| && p in data[i] {
          var i :| 0 <= i < |data| && p in data[i];
          if i < |d| {
            assert d[i] == data[i];
          }
        }
      }
    }
  }

  /** A period is seen exactly when some point of some series has it. */
  lemma PeriodsSeenMembers(data: seq<seq<ChartPoint>>, period: string)
    ensures period in PeriodsSeen(data) <==> exists i :: 0 <= i < |data| && exists p :: p in data[i] && p.period == period
  {
    var f := Flatten(data);
    KeysComplete(f, PointPeriod);
    FlattenMembers(data);
    if period in PeriodsSeen(data) {
      var j :| 0 <= j < |f| && f[j].period == period;
      assert f[j] in f;
    }
    if exists i :: 0 <= i < |data| && exists p :: p in data[i] && p.period == period {
      var i, p :| 0 <= i < |data| && p in data[i] && p.period == period;
      assert p in f;
      var j :| 0 <= j < |f| && f[j] == p;
    }
  }

  function RowPeriods(rows: seq<ChartRow>): (r: seq<string>)
    ensures |r| == |rows| && forall i :: 0 <= i < |rows| ==> r[i] == rows[i].period
  {
    seq(|rows|, i requires 0 <= i < |rows| => rows[i].period)
  }

  /**
   * The chart has one row per distinct period of the data, in strictly
   * ascending string order, and no rows when there is no data.
   */
  lemma ChartPeriodsFacts(data: seq<seq<ChartPoint>>, exporters: seq<Exporter>, metric: Metric, selected: seq<int>)
    ensures var rows := ChartDataOf(data, exporters, metric, selected);
      (|data| == 0 ==> rows == [])
      && (forall i, j :: 0 <= i < j < |rows| ==> LexLe(rows[i].period, rows[j].period) && rows[i].period != rows[j].period)
      && forall period :: period in RowPeriods(rows) <==>
           exists s :: 0 <= s < |data| && exists p :: p in data[s] && p.period == period
  {
    var rows := ChartDataOf(data, exporters, metric, selected);
    var seen := PeriodsSeen(data);
    var ps := SortBy(seen, LexLe);
    LexLePreorder();
    SortBySorted(seen, LexLe);
    SortByPermutation(seen, LexLe);
    SortByMembers(seen, LexLe);
    KeysDistinct(Flatten(data), PointPeriod);
    NoDupPermutation(ps, seen);
    if |data| > 0 {
      assert RowPeriods(rows) == ps;
    }
    forall period
      ensures period in RowPeriods(rows) <==>
        exists s :: 0 <= s < |data| && exists p :: p in data[s] && p.period == period
    {
      PeriodsSeenMembers(data, period);
    }
  }

  /**
   * A row holds a value for exporter `k` exactly when `k` is selected and
   * has a value at that period, and then it is that value.
   */
  lemma {:induction false} RowValuesFacts(data: seq<seq<ChartPoint>>, exporters: seq<Exporter>, metric: Metric, selected: seq<int>, period: string, k: int)
    ensures var m := RowValues(data, exporters, metric, selected, period);
      var c := Cell(data, exporters, metric, k, period);
      (k in m <==> k in selected && c.Some?)
      && (k in m ==> m[k] == c.value)
    decreases |selected|
  {
    if selected != [] {
      RowValuesFacts(data, exporters, metric, selected[..|selected| - 1], period, k);
      assert selected == selected[..|selected| - 1] + [selected[|selected| - 1]];
    }
  }

  /**
   * What one exporter's value in one row is: the metric of the first point at
   * that period of the first series that mentions the exporter, for a known
   * exporter; nothing otherwise.
   */
  lemma CellFacts(data: seq<seq<ChartPoint>>, exporters: seq<Exporter>, metric: Metric, exporterId: int, period: string)
    ensures var c := Cell(data, exporters, metric, exporterId, period);
      (c.Some? <==>
        (exists i :: 0 <= i < |exporters| && exporters[i].exporterId == exporterId)
        && (exists s :: 0 <= s < |data| && HasExporter(data[s], exporterId))
        && FindPoint(FindSeries(data, exporterId).value, period).Some?)
      && (c.Some? ==> exists p :: p in FindSeries(data, exporterId).value && p.period == period && c.value == PointValue(p, metric))
  {
    var c := Cell(data, exporters, metric, exporterId, period);
    if c.Some? {
      var point := FindPoint(FindSeries(data, exporterId).value, period).value;
      var s := FindSeries(data, exporterId).value;
      var j :| 0 <= j < |s| && s[j] == point && s[j].period == period && forall j' :: 0 <= j' < j ==> s[j'].period != period;
      assert point in s;
    }
  }

  // ---------------------------------------------------------------------
  // Growth rates
  // ---------------------------------------------------------------------

  datatype GrowthRate = GrowthRate(exporterId: int, exporterName: string, growth: real, total: int)

  /** `first !== 0 ? ((last - first) / first) * 100 : 0` */
  function Growth(first: int, last: int): (g: real)
    ensures first != 0 ==> g * first as real == ((last - first) * 100) as real
    ensures first == 0 ==> g == 0.0
  {
    if first != 0 then ((last - first) as real / first as real) * 100.0 else 0.0
  }

  /** Growth is positive exactly when a non-zero series starts and ends on the same side of 0 and moves away from 0. */
  lemma GrowthSign(first: int, last: int)
    ensures first > 0 ==> (Growth(first, last) > 0.0 <==> last > first)
    ensures first > 0 ==> (Growth(first, last) == 0.0 <==> last == first)
    ensures first < 0 ==> (Growth(first, last) > 0.0 <==> last < first)
  {
  }

  /** The growth entry of one selected exporter, or `null`. */
  function GrowthEntry(data: seq<seq<ChartPoint>>, exporters: seq<Exporter>, metric: Metric, exporterId: int): (r: Option<GrowthRate>)
    ensures r.Some? ==>
      r.value.exporterId == exporterId && FindExporter(exporters, exporterId).Some?
      && r.value.exporterName == FindExporter(exporters, exporterId).value.exporterName
  {
    var exporter := FindExporter(exporters, exporterId);
    if exporter.None? then None
    else
      var series := FindSeries(data, exporterId);
      if series.None? || |series.value| < 2 then None
      else
        var s := series.value;
        Some(GrowthRate(exporterId, exporter.value.exporterName,
          Growth(PointValue(s[0], metric), PointValue(s[|s| - 1], metric)),
          ExporterTotal(exporter.value, metric)))
  }

  /** `growthRates`: `selectedExporters.map(...).filter(Boolean)`. */
  function GrowthRates(data: seq<seq<ChartPoint>>, exporters: seq<Exporter>, metric: Metric, selected: seq<int>): (r: seq<GrowthRate>)
    ensures |r| <= |selected|
  {
    if selected == [] then []
    else
      var e := GrowthEntry(data, exporters, metric, selected[|selected| - 1]);
      GrowthRates(data, exporters, metric, selected[..|selected| - 1]) + (if e.Some? then [e.value] else [])
  }

  /**
   * An exporter has an entry exactly when it is known and the first series
   * that mentions it has at least two points; the entry carries its name,
   * its total for the metric, and the growth from the first to the last
   * point of that series.
   */
  lemma GrowthEntryFacts(data: seq<seq<ChartPoint>>, exporters: seq<Exporter>, metric: Metric, exporterId: int)
    ensures var e := GrowthEntry(data, exporters, metric, exporterId);
      (e.Some? <==>
        (exists i :: 0 <= i < |exporters| && exporters[i].exporterId == exporterId)
        && (exists s :: 0 <= s < |data| && HasExporter(data[s], exporterId))
        && |FindSeries(data, exporterId).value| >= 2)
      && (e.Some? ==>
        var s := FindSeries(data, exporterId).value;
        var x := FindExporter(exporters, exporterId).value;
        e.value.exporterId == exporterId
        && e.value.exporterName == x.exporterName
        && e.value.total == ExporterTotal(x, metric)
        && e.value.growth == Growth(PointValue(s[0], metric), PointValue(s[|s| - 1], metric))
        && (PointValue(s[0], metric) == 0 ==> e.value.growth == 0.0))
  {
  }

  /** The entries are the non-null ones, in selection order: growth rates distribute over the selection. */
  lemma {:induction false} GrowthRatesAppend(data: seq<seq<ChartPoint>>, exporters: seq<Exporter>, metric: Metric, a: seq<int>, b: seq<int>)
    ensures GrowthRates(data, exporters, metric, a + b) == GrowthRates(data, exporters, metric, a) + GrowthRates(data, exporters, metric, b)
    decreases |b|
  {
    if b == [] {
      assert a + b == a;
    } else {
      var b' := b[..|b| - 1];
      assert (a + b)[..|a + b| - 1] == a + b';
      assert (a + b)[|a + b| - 1] == b[|b| - 1];
      GrowthRatesAppend(data, exporters, metric, a, b');
    }
  }

  /** A selected exporter has a growth entry exactly when its entry is not `null`, and every entry belongs to a selected exporter. */
  lemma {:induction false} GrowthRatesMembers(data: seq<seq<ChartPoint>>, exporters: seq<Exporter>, metric: Metric, selected: seq<int>)
    ensures var r := GrowthRates(data, exporters, metric, selected);
      (forall g :: g in r ==> g.exporterId in selected && GrowthEntry(data, exporters, metric, g.exporterId) == Some(g))
      && forall id :: id in selected && GrowthEntry(data, exporters, metric, id).Some? ==>
           GrowthEntry(data, exporters, metric, id).value in r
    decreases |selected|
  {
    if selected != [] {
      var p := selected[..|selected| - 1];
      GrowthRatesMembers(data, exporters, metric, p);
      assert selected == p + [selected[|selected| - 1]];
    }
  }
}
