/**
 * The server-side query helpers of the exporters dashboard: the SQL WHERE
 * string built from the filters, and the grouping done after each query for
 * the KPI record, the timeseries, the top-N lists and the per-season
 * rankings.
 *
 * Every query's reply `{ data, error }` is passed in. None of the four
 * grouping functions applies the filters it is given (the WHERE string built
 * for the KPIs is never sent), so each is modelled on its reply alone.
 */
module ExporterQueries {
  import opened Common
  import opened Strings
  import opened Grouping
  import opened Sorting
  import ExportersRoute

  // ---------------------------------------------------------------------
  // buildWhereClause
  // ---------------------------------------------------------------------

  /** The condition a non-empty id list adds: the column, ` IN (`, the ids joined by `,`, `)`. */
  function ListCondition(column: string, ids: Option<seq<int>>): (c: seq<string>)
    ensures |c| == OneIf(ExportersRoute.ListGiven(ids))
  {
    if ExportersRoute.ListGiven(ids) then [column + " IN (" + JoinIds(ids.value) + ")"] else []
  }

  /** The condition a non-empty week bound adds: `etd_week`, the operator, the bound in single quotes. */
  function WeekCondition(op: string, week: Option<string>): (c: seq<string>)
    ensures |c| == OneIf(ExportersRoute.WeekGiven(week))
  {
    if ExportersRoute.WeekGiven(week) then ["etd_week " + op + " '" + week.value + "'"] else []
  }

  /** The conditions in the order they are pushed; there is none for arrival ports. */
  function WhereConditions(f: ExportersRoute.Filters): seq<string> {
    ListCondition("season_id", f.seasonIds) + ListCondition("exporter_id", f.exporterIds)
    + ListCondition("species_id", f.speciesIds) + ListCondition("variety_id", f.varietyIds)
    + ListCondition("market_id", f.marketIds) + ListCondition("country_id", f.countryIds)
    + ListCondition("region_id", f.regionIds) + ListCondition("transport_type_id", f.transportTypeIds)
    + WeekCondition(">=", f.weekFrom) + WeekCondition("<=", f.weekTo)
  }

  /** Some filter that the WHERE string knows about is set. */
  predicate AnyWhereFilter(f: ExportersRoute.Filters) {
    ExportersRoute.ListGiven(f.seasonIds) || ExportersRoute.ListGiven(f.exporterIds) || ExportersRoute.ListGiven(f.speciesIds) || ExportersRoute.ListGiven(f.varietyIds)
    || ExportersRoute.ListGiven(f.marketIds) || ExportersRoute.ListGiven(f.countryIds) || ExportersRoute.ListGiven(f.regionIds) || ExportersRoute.ListGiven(f.transportTypeIds)
    || ExportersRoute.WeekGiven(f.weekFrom) || ExportersRoute.WeekGiven(f.weekTo)
  }

  /** The number of filters that add a condition. */
  function GivenCount(f: ExportersRoute.Filters): nat {
    OneIf(ExportersRoute.ListGiven(f.seasonIds)) + OneIf(ExportersRoute.ListGiven(f.exporterIds))
    + OneIf(ExportersRoute.ListGiven(f.speciesIds)) + OneIf(ExportersRoute.ListGiven(f.varietyIds))
    + OneIf(ExportersRoute.ListGiven(f.marketIds)) + OneIf(ExportersRoute.ListGiven(f.countryIds))
    + OneIf(ExportersRoute.ListGiven(f.regionIds)) + OneIf(ExportersRoute.ListGiven(f.transportTypeIds))
    + OneIf(ExportersRoute.WeekGiven(f.weekFrom)) + OneIf(ExportersRoute.WeekGiven(f.weekTo))
  }

  function OneIf(b: bool): nat { if b then 1 else 0 }

  /** `if (ids?.length) conditions.push(...)` for one id-list column. */
  method PushListCondition(conditions: seq<string>, column: string, ids: Option<seq<int>>) returns (r: seq<string>)
    ensures r == conditions + ListCondition(column, ids)
  {
    r := conditions;
    if ExportersRoute.ListGiven(ids) {
      r := r + [column + " IN (" + JoinIds(ids.value) + ")"];
    }
  }

  /** `if (week) conditions.push(...)` for one week bound. */
  method PushWeekCondition(conditions: seq<string>, op: string, week: Option<string>) returns (r: seq<string>)
    ensures r == conditions + WeekCondition(op, week)
  {
    r := conditions;
    if ExportersRoute.WeekGiven(week) {
      r := r + ["etd_week " + op + " '" + week.value + "'"];
    }
  }

  /**
   * `buildWhereClause`: the empty string when no condition applies, and
   * otherwise `WHERE ` and the conditions joined by ` AND `.
   */
  method BuildWhereClause(filters: ExportersRoute.Filters) returns (clause: string)
    ensures clause == "" <==> !AnyWhereFilter(filters)
    ensures clause != "" ==> clause == "WHERE " + Join(WhereConditions(filters), " AND ")
  {
    var conditions: seq<string> := [];
    conditions := PushListCondition(conditions, "season_id", filters.seasonIds);
    assert conditions == ListCondition("season_id", filters.seasonIds);
    conditions := PushListCondition(conditions, "exporter_id", filters.exporterIds);
    conditions := PushListCondition(conditions, "species_id", filters.speciesIds);
    conditions := PushListCondition(conditions, "variety_id", filters.varietyIds);
    conditions := PushListCondition(conditions, "market_id", filters.marketIds);
    conditions := PushListCondition(conditions, "country_id", filters.countryIds);
    conditions := PushListCondition(conditions, "region_id", filters.regionIds);
    conditions := PushListCondition(conditions, "transport_type_id", filters.transportTypeIds);
    conditions := PushWeekCondition(conditions, ">=", filters.weekFrom);
    conditions := PushWeekCondition(conditions, "<=", filters.weekTo);
    assert conditions == WhereConditions(filters);
    WhereConditionsCount(filters);
    clause := if |conditions| > 0 then "WHERE " + Join(conditions, " AND ") else "";
  }

  /** There is one condition per filter that is set, so none exactly when no such filter is set. */
  lemma WhereConditionsCount(f: ExportersRoute.Filters)
    ensures |WhereConditions(f)| == GivenCount(f)
    ensures |WhereConditions(f)| == 0 <==> !AnyWhereFilter(f)
  {
    var lists := ListCondition("season_id", f.seasonIds) + ListCondition("exporter_id", f.exporterIds)
      + ListCondition("species_id", f.speciesIds) + ListCondition("variety_id", f.varietyIds)
      + ListCondition("market_id", f.marketIds) + ListCondition("country_id", f.countryIds)
      + ListCondition("region_id", f.regionIds) + ListCondition("transport_type_id", f.transportTypeIds);
    assert |WhereConditions(f)| == |lists| + |WeekCondition(">=", f.weekFrom)| + |WeekCondition("<=", f.weekTo)|;
  }

  /** Arrival ports never reach the WHERE string. */
  lemma WhereConditionsIgnoreArrivalPorts(f: ExportersRoute.Filters, ports: Option<seq<int>>)
    ensures WhereConditions(f.(arrivalPortIds := ports)) == WhereConditions(f)
  {
  }

  // ---------------------------------------------------------------------
  // getExportersKPIs
  // ---------------------------------------------------------------------

  /** A row of the KPI query: `exporter_id` is never null, the joined exporter name may be. */
  datatype KpiRow = KpiRow(
    exporterId: int,
    exporterName: Option<string>,
    kilograms: Option<int>,
    boxes: Option<int>,
    importerId: Option<int>,
    varietyId: Option<int>)

  function KpiRowExporter(r: KpiRow): int { r.exporterId }
  function KpiRowKilograms(r: KpiRow): int { OrZero(r.kilograms) }
  function KpiRowBoxes(r: KpiRow): int { OrZero(r.boxes) }
  function KpiRowImporter(r: KpiRow): Option<int> { r.importerId }
  function KpiRowVariety(r: KpiRow): Option<int> { r.varietyId }

  /** `name || 'Unknown'` */
  function NameOrUnknown(name: Option<string>): string {
    if name.Some? && name.value != "" then name.value else "Unknown"
  }

  /** An entry of `exporterMap`. */
  datatype ExporterEntry = ExporterEntry(exporterName: string, kilograms: int, boxes: int, importers: set<int>, varieties: set<int>)

  /** The entry set on an exporter's first row: its name, zero sums, no ids. */
  function NewExporterEntry(r: KpiRow): ExporterEntry {
    ExporterEntry(NameOrUnknown(r.exporterName), 0, 0, {}, {})
  }

  /** What every row adds to its exporter's entry. */
  function AddKpiRow(e: ExporterEntry, r: KpiRow): ExporterEntry {
    ExporterEntry(e.exporterName, e.kilograms + OrZero(r.kilograms), e.boxes + OrZero(r.boxes),
      e.importers + (if Truthy(r.importerId) then {r.importerId.value} else {}),
      e.varieties + (if Truthy(r.varietyId) then {r.varietyId.value} else {}))
  }

  /** The entry of an exporter whose rows are `g`: the first row's name, the sums, the distinct truthy ids. */
  function ExporterEntryOf(g: seq<KpiRow>): ExporterEntry {
    ExporterEntry(if g == [] then "Unknown" else NameOrUnknown(g[0].exporterName),
      SumOf(g, KpiRowKilograms), SumOf(g, KpiRowBoxes), TruthyIds(g, KpiRowImporter), TruthyIds(g, KpiRowVariety))
  }

  lemma ExporterEntryOfSteps()
    ensures forall x :: ExporterEntryOf([x]) == AddKpiRow(NewExporterEntry(x), x)
    ensures forall g, x :: g != [] ==> ExporterEntryOf(g + [x]) == AddKpiRow(ExporterEntryOf(g), x)
  {
    forall x ensures ExporterEntryOf([x]) == AddKpiRow(NewExporterEntry(x), x) {
      assert [] + [x] == [x];
      SumOfSnoc([], x, KpiRowKilograms);
      SumOfSnoc([], x, KpiRowBoxes);
      TruthyIdsSnoc([], x, KpiRowImporter);
      TruthyIdsSnoc([], x, KpiRowVariety);
    }
    forall g, x | g != [] ensures ExporterEntryOf(g + [x]) == AddKpiRow(ExporterEntryOf(g), x) {
      SumOfSnoc(g, x, KpiRowKilograms);
      SumOfSnoc(g, x, KpiRowBoxes);
      TruthyIdsSnoc(g, x, KpiRowImporter);
      TruthyIdsSnoc(g, x, KpiRowVariety);
    }
  }

  /** An element of `exporters`: the year-over-year and retention fields are always null. */
  datatype ExporterKpi = ExporterKpi(
    exporterId: int,
    exporterName: string,
    kilograms: int,
    boxes: int,
    kgPerBox: Option<real>,
    yoyKg: Option<real>,
    yoyBoxes: Option<real>,
    importersActive: nat,
    importersRetention: Option<real>,
    varietiesActive: nat)

  /** `kgPerBox` is null exactly when the boxes are not positive, and otherwise the kilograms per box. */
  predicate KgPerBoxDefined(kilograms: int, boxes: int, kgPerBox: Option<real>) {
    (kgPerBox.None? <==> boxes <= 0) && (kgPerBox.Some? ==> kgPerBox.value * (boxes as real) == kilograms as real)
  }

  /** The record of one map entry. */
  function ToExporterKpi(id: int, e: ExporterEntry): (k: ExporterKpi)
    ensures k.exporterId == id && k.exporterName == e.exporterName && k.kilograms == e.kilograms && k.boxes == e.boxes
    ensures KgPerBoxDefined(k.kilograms, k.boxes, k.kgPerBox)
    ensures k.importersActive == |e.importers| && k.varietiesActive == |e.varieties|
    ensures k.yoyKg.None? && k.yoyBoxes.None? && k.importersRetention.None?
  {
    ExporterKpi(id, e.exporterName, e.kilograms, e.boxes,
      if e.boxes > 0 then Some(e.kilograms as real / e.boxes as real) else None,
      None, None, |e.importers|, None, |e.varieties|)
  }

  /** `exporters`: one record per distinct exporter id, in order of first appearance. */
  function ExporterKpisOf(rows: seq<KpiRow>): (r: seq<ExporterKpi>)
    ensures |r| == |Keys(rows, KpiRowExporter)|
    ensures forall i :: 0 <= i < |r| ==> r[i].exporterId == Keys(rows, KpiRowExporter)[i]
  {
    var ks := Keys(rows, KpiRowExporter);
    seq(|ks|, i requires 0 <= i < |ks| => ToExporterKpi(ks[i], ExporterEntryOf(Where(rows, KpiRowExporter, ks[i]))))
  }

  /** The global record of the KPI query. */
  datatype Kpi = Kpi(
    kilograms: int,
    boxes: int,
    kgPerBox: Option<real>,
    yoyKg: Option<real>,
    yoyBoxes: Option<real>,
    importersActive: nat,
    importersRetention: Option<real>,
    varietiesActive: nat)

  /** `` `${exporterId}-${i}` `` */
  function CountKey(id: int, i: nat): string {
    IntToString(id) + "-" + IntToString(i)
  }

  /** The keys `Array.from({ length: n }, (_, i) => ...)` makes for one exporter. */
  function CountKeys(id: int, n: int): set<string>
    decreases n
  {
    if n <= 0 then {} else CountKeys(id, n - 1) + {CountKey(id, n - 1)}
  }

  /** `new Set(exporters.flatMap(...))` for the count `count` of each exporter. */
  function FlatCountKeys(es: seq<ExporterKpi>, count: ExporterKpi -> int): set<string> {
    if es == [] then {}
    else FlatCountKeys(es[..|es| - 1], count) + CountKeys(es[|es| - 1].exporterId, count(es[|es| - 1]))
  }

  function KpiKilograms(e: ExporterKpi): int { e.kilograms }
  function KpiBoxes(e: ExporterKpi): int { e.boxes }
  function KpiImporters(e: ExporterKpi): int { e.importersActive }
  function KpiVarieties(e: ExporterKpi): int { e.varietiesActive }

  /** `global`, from the exporter records. */
  function GlobalKpiOf(es: seq<ExporterKpi>): (g: Kpi)
    ensures KgPerBoxDefined(g.kilograms, g.boxes, g.kgPerBox)
    ensures g.yoyKg.None? && g.yoyBoxes.None? && g.importersRetention.None?
  {
    var kg := SumOf(es, KpiKilograms);
    var boxes := SumOf(es, KpiBoxes);
    Kpi(kg, boxes, if boxes > 0 then Some(kg as real / boxes as real) else None, None, None,
      |FlatCountKeys(es, KpiImporters)|, None, |FlatCountKeys(es, KpiVarieties)|)
  }

  datatype KpisResult = KpisResult(global: Kpi, exporters: seq<ExporterKpi>)

  /**
   * `getExportersKPIs` on the reply of its query: the query's error is
   * rethrown; otherwise the rows are grouped by exporter into `exporterMap`,
   * converted in map order and summed into the global record.
   */
  method GetExportersKpis(reply: Reply<KpiRow>) returns (r: Outcome<KpisResult>)
    ensures reply.error.Some? ==> r == Threw(reply.error.value)
    ensures reply.error.None? ==>
      r == Ok(KpisResult(GlobalKpiOf(ExporterKpisOf(reply.Rows())), ExporterKpisOf(reply.Rows())))
  {
    if reply.error.Some? {
      return Threw(reply.error.value);
    }
    var rows := reply.Rows();
    var keys, entries := FoldByKey(rows, KpiRowExporter, NewExporterEntry, AddKpiRow);
    ExporterEntryOfSteps();
    forall k | k in keys ensures entries[k] == ExporterEntryOf(Where(rows, KpiRowExporter, k)) {
      GroupAccOfWhere(rows, KpiRowExporter, k, NewExporterEntry, AddKpiRow, ExporterEntryOf);
    }
    var exporters := seq(|keys|, i requires 0 <= i < |keys| => ToExporterKpi(keys[i], entries[keys[i]]));
    assert exporters == ExporterKpisOf(rows);
    r := Ok(KpisResult(GlobalKpiOf(exporters), exporters));
  }

  /** No two records share an exporter id. */
  predicate DistinctExporterIds(es: seq<ExporterKpi>) {
    forall i, j :: 0 <= i < j < |es| ==> es[i].exporterId != es[j].exporterId
  }

  /**
   * There is one record per distinct exporter id of the rows, and each holds
   * the first name, the sums and the distinct truthy id counts of its rows.
   */
  lemma ExporterKpisOfMeaning(rows: seq<KpiRow>)
    ensures DistinctExporterIds(ExporterKpisOf(rows))
    ensures forall i :: 0 <= i < |rows| ==> exists j :: 0 <= j < |ExporterKpisOf(rows)| && ExporterKpisOf(rows)[j].exporterId == rows[i].exporterId
    ensures forall e :: e in ExporterKpisOf(rows) ==>
      var g := Where(rows, KpiRowExporter, e.exporterId);
      g != [] && e.exporterName == NameOrUnknown(g[0].exporterName)
      && e.kilograms == SumOf(g, KpiRowKilograms) && e.boxes == SumOf(g, KpiRowBoxes)
      && e.importersActive == |TruthyIds(g, KpiRowImporter)| && e.varietiesActive == |TruthyIds(g, KpiRowVariety)|
      && KgPerBoxDefined(e.kilograms, e.boxes, e.kgPerBox)
  {
    var ks := Keys(rows, KpiRowExporter);
    var es := ExporterKpisOf(rows);
    KeysDistinct(rows, KpiRowExporter);
    forall i | 0 <= i < |rows| ensures exists j :: 0 <= j < |es| && es[j].exporterId == rows[i].exporterId {
      KeysContain(rows, KpiRowExporter, i);
      var j :| 0 <= j < |ks| && ks[j] == rows[i].exporterId;
      assert es[j].exporterId == ks[j];
    }
    forall e | e in es ensures Where(rows, KpiRowExporter, e.exporterId) != [] {
      var j :| 0 <= j < |es| && es[j] == e;
      WhereOfPresentKey(rows, KpiRowExporter, ks[j]);
    }
  }

  /** A number printed in decimal has no `-` when it is not negative. */
  lemma NoDashInNat(i: nat)
    ensures '-' !in IntToString(i)
  {
    assert AllDigits(IntToString(i));
  }

  /** The index of the last `-` in `s`, or -1 when there is none. */
  function LastDash(s: string): int {
    if s == [] then -1 else if s[|s| - 1] == '-' then |s| - 1 else LastDash(s[..|s| - 1])
  }

  lemma {:induction false} LastDashOf(x: string, y: string)
    requires '-' !in y
    ensures LastDash(x + "-" + y) == |x|
    decreases |y|
  {
    if y != [] {
      assert (x + "-" + y)[..|x + "-" + y| - 1] == x + "-" + y[..|y| - 1];
      LastDashOf(x, y[..|y| - 1]);
    }
  }

  /** Splitting at the last `-`: two `x-y` strings whose tails have no `-` agree part by part. */
  lemma DashSplit(x: string, y: string, u: string, v: string)
    requires '-' !in y && '-' !in v
    requires x + "-" + y == u + "-" + v
    ensures x == u && y == v
  {
    var s := x + "-" + y;
    LastDashOf(x, y);
    LastDashOf(u, v);
    assert x == s[..|x|] == u;
    assert y == s[|x| + 1..] == v;
  }

  /** Different exporter ids, or different indexes, give different key strings. */
  lemma CountKeyInjective(a: int, i: nat, b: int, j: nat)
    ensures CountKey(a, i) == CountKey(b, j) <==> a == b && i == j
  {
    if CountKey(a, i) == CountKey(b, j) {
      NoDashInNat(i);
      NoDashInNat(j);
      DashSplit(IntToString(a), IntToString(i), IntToString(b), IntToString(j));
      IntToStringInjective(a, b);
      IntToStringInjective(i, j);
    }
  }

  lemma {:induction false} CountKeysMembers(id: int, n: int)
    ensures forall x :: x in CountKeys(id, n) <==> exists j :: 0 <= j < n && x == CountKey(id, j)
    decreases n
  {
    if n > 0 {
      CountKeysMembers(id, n - 1);
    }
  }

  /** One exporter contributes exactly `n` keys. */
  lemma {:induction false} CountKeysSize(id: int, n: nat)
    ensures |CountKeys(id, n)| == n
    decreases n
  {
    if n > 0 {
      CountKeysSize(id, n - 1);
      CountKeysMembers(id, n - 1);
      forall j | 0 <= j < n - 1 ensures CountKey(id, j) != CountKey(id, n - 1) {
        CountKeyInjective(id, j, id, n - 1);
      }
    }
  }

  lemma {:induction false} FlatCountKeysMembers(es: seq<ExporterKpi>, count: ExporterKpi -> int, x: string)
    requires x in FlatCountKeys(es, count)
    ensures exists i, j :: 0 <= i < |es| && 0 <= j < count(es[i]) && x == CountKey(es[i].exporterId, j)
    decreases |es|
  {
    var p := es[..|es| - 1];
    var last := es[|es| - 1];
    if x in FlatCountKeys(p, count) {
      FlatCountKeysMembers(p, count, x);
      var i, j :| 0 <= i < |p| && 0 <= j < count(p[i]) && x == CountKey(p[i].exporterId, j);
      assert es[i] == p[i];
    } else {
      CountKeysMembers(last.exporterId, count(last));
      var j :| 0 <= j < count(last) && x == CountKey(last.exporterId, j);
      assert es[|es| - 1] == last;
    }
  }

  /** An exporter whose id no earlier record has adds only new keys. */
  lemma FlatCountKeysDisjoint(p: seq<ExporterKpi>, last: ExporterKpi, count: ExporterKpi -> int)
    requires forall i :: 0 <= i < |p| ==> p[i].exporterId != last.exporterId
    ensures FlatCountKeys(p, count) * CountKeys(last.exporterId, count(last)) == {}
  {
    CountKeysMembers(last.exporterId, count(last));
    forall x | x in FlatCountKeys(p, count) ensures x !in CountKeys(last.exporterId, count(last)) {
      FlatCountKeysMembers(p, count, x);
      var i, j :| 0 <= i < |p| && 0 <= j < count(p[i]) && x == CountKey(p[i].exporterId, j);
      if x in CountKeys(last.exporterId, count(last)) {
        var j' :| 0 <= j' < count(last) && x == CountKey(last.exporterId, j');
        CountKeyInjective(p[i].exporterId, j, last.exporterId, j');
      }
    }
  }

  lemma DisjointUnionSize(a: set<string>, b: set<string>)
    requires a * b == {}
    ensures |a + b| == |a| + |b|
  {
  }

  /**
   * With distinct exporter ids no key is made twice, so the set has as many
   * elements as the counts add up to: nothing is deduplicated across exporters.
   */
  lemma {:induction false} FlatCountKeysSize(es: seq<ExporterKpi>, count: ExporterKpi -> int)
    requires DistinctExporterIds(es)
    requires forall i :: 0 <= i < |es| ==> count(es[i]) >= 0
    ensures |FlatCountKeys(es, count)| == SumOf(es, count)
    decreases |es|
  {
    if es != [] {
      var p := es[..|es| - 1];
      var last := es[|es| - 1];
      var a := FlatCountKeys(p, count);
      var b := CountKeys(last.exporterId, count(last));
      assert DistinctExporterIds(p);
      FlatCountKeysSize(p, count);
      CountKeysSize(last.exporterId, count(last));
      forall i | 0 <= i < |p| ensures p[i].exporterId != last.exporterId {
        assert es[i] == p[i];
      }
      FlatCountKeysDisjoint(p, last, count);
      DisjointUnionSize(a, b);
    }
  }

  /** The records' exporter ids are distinct. */
  lemma ExporterKpisOfDistinct(rows: seq<KpiRow>)
    ensures DistinctExporterIds(ExporterKpisOf(rows))
  {
    KeysDistinct(rows, KpiRowExporter);
  }

  /** The global kilograms and boxes are the sums over all rows. */
  lemma GlobalKpiSums(rows: seq<KpiRow>)
    ensures var g := GlobalKpiOf(ExporterKpisOf(rows));
      g.kilograms == SumOf(rows, KpiRowKilograms) && g.boxes == SumOf(rows, KpiRowBoxes)
  {
    var es := ExporterKpisOf(rows);
    var ks := Keys(rows, KpiRowExporter);
    SumOfPointwise(es, KpiKilograms, ks, k => GroupSum(rows, KpiRowExporter, KpiRowKilograms, k));
    SumOfPointwise(es, KpiBoxes, ks, k => GroupSum(rows, KpiRowExporter, KpiRowBoxes, k));
    GroupTotalAsSum(rows, KpiRowExporter, ks, KpiRowKilograms);
    GroupTotalAsSum(rows, KpiRowExporter, ks, KpiRowBoxes);
    KeysPartitionSum(rows, KpiRowExporter, KpiRowKilograms);
    KeysPartitionSum(rows, KpiRowExporter, KpiRowBoxes);
  }

  /**
   * The global importer and variety counts are the sums of the per-exporter
   * counts: the keys are never shared between exporters.
   */
  lemma GlobalKpiCounts(rows: seq<KpiRow>)
    ensures var g := GlobalKpiOf(ExporterKpisOf(rows));
      g.importersActive == SumOf(ExporterKpisOf(rows), KpiImporters)
      && g.varietiesActive == SumOf(ExporterKpisOf(rows), KpiVarieties)
  {
    var es := ExporterKpisOf(rows);
    ExporterKpisOfDistinct(rows);
    FlatCountKeysSize(es, KpiImporters);
    FlatCountKeysSize(es, KpiVarieties);
  }

  // ---------------------------------------------------------------------
  // getExportersTimeseries
  // ---------------------------------------------------------------------

  /**
   * A row of the timeseries query: the week, the value stored under the key
   * `SUBSTRING(etd_week, 1, 7)` (whatever the database returns there), and
   * the joined season name.
   */
  datatype TimeRow = TimeRow(
    etdWeek: Option<string>,
    monthColumn: Option<string>,
    seasonName: Option<string>,
    kilograms: Option<int>,
    boxes: Option<int>)

  /** `filters.granularity || 'week'` */
  function EffectiveGranularity(granularity: Option<string>): string {
    if granularity.Some? && granularity.value != "" then granularity.value else "week"
  }

  /** The row's period: the season name for `season`, the `SUBSTRING` column for `month`, the week otherwise. */
  function PeriodOf(granularity: string, r: TimeRow): Option<string> {
    if granularity == "season" then r.seasonName
    else if granularity == "month" then r.monthColumn
    else r.etdWeek
  }

  /** A row that is kept: its period is truthy. */
  datatype Sample = Sample(period: string, kilograms: int, boxes: int)

  function SamplePeriod(x: Sample): string { x.period }
  function SampleKilograms(x: Sample): int { x.kilograms }
  function SampleBoxes(x: Sample): int { x.boxes }

  /** The row is not skipped: its period is truthy. */
  predicate Kept(granularity: string, r: TimeRow) {
    PeriodOf(granularity, r).Some? && PeriodOf(granularity, r).value != ""
  }

  function KeptFilter(granularity: string): TimeRow -> bool {
    r => Kept(granularity, r)
  }

  function SampleOf(granularity: string, r: TimeRow): Sample {
    Sample(PeriodOf(granularity, r).GetOr(""), OrZero(r.kilograms), OrZero(r.boxes))
  }

  /** The rows the `forEach` does not skip, in order, with their period and sums. */
  function SamplesOf(granularity: string, rows: seq<TimeRow>): seq<Sample> {
    var kept := Filter(rows, KeptFilter(granularity));
    seq(|kept|, i requires 0 <= i < |kept| => SampleOf(granularity, kept[i]))
  }

  /** The samples are exactly those of the rows with a truthy period. */
  lemma SamplesOfMembers(granularity: string, rows: seq<TimeRow>)
    ensures forall x :: x in SamplesOf(granularity, rows) ==>
      exists r :: r in rows && Kept(granularity, r) && x == SampleOf(granularity, r)
    ensures forall r :: r in rows && Kept(granularity, r) ==> SampleOf(granularity, r) in SamplesOf(granularity, rows)
  {
    var kept := Filter(rows, KeptFilter(granularity));
    var samples := SamplesOf(granularity, rows);
    FilterMembers(rows, KeptFilter(granularity));
    forall x | x in samples ensures exists r :: r in rows && Kept(granularity, r) && x == SampleOf(granularity, r) {
      var i :| 0 <= i < |samples| && samples[i] == x;
      assert kept[i] in kept;
    }
    forall r | r in rows && Kept(granularity, r) ensures SampleOf(granularity, r) in samples {
      assert KeptFilter(granularity)(r);
      assert r in kept;
      var i :| 0 <= i < |kept| && kept[i] == r;
      assert samples[i] == SampleOf(granularity, r);
    }
  }

  /** A `periodMap` entry. */
  datatype PeriodTotals = PeriodTotals(kilograms: int, boxes: int)

  function NewPeriodTotals(x: Sample): PeriodTotals { PeriodTotals(0, 0) }

  function AddSample(e: PeriodTotals, x: Sample): PeriodTotals {
    PeriodTotals(e.kilograms + x.kilograms, e.boxes + x.boxes)
  }

  /** The entry of a period whose kept rows are `g`: their sums. */
  function PeriodTotalsOf(g: seq<Sample>): PeriodTotals {
    PeriodTotals(SumOf(g, SampleKilograms), SumOf(g, SampleBoxes))
  }

  lemma PeriodTotalsOfSteps()
    ensures forall x :: PeriodTotalsOf([x]) == AddSample(NewPeriodTotals(x), x)
    ensures forall g, x :: g != [] ==> PeriodTotalsOf(g + [x]) == AddSample(PeriodTotalsOf(g), x)
  {
    forall x ensures PeriodTotalsOf([x]) == AddSample(NewPeriodTotals(x), x) {
      assert [] + [x] == [x];
      SumOfSnoc([], x, SampleKilograms);
      SumOfSnoc([], x, SampleBoxes);
    }
    forall g, x | g != [] ensures PeriodTotalsOf(g + [x]) == AddSample(PeriodTotalsOf(g), x) {
      SumOfSnoc(g, x, SampleKilograms);
      SumOfSnoc(g, x, SampleBoxes);
    }
  }

  datatype TimePoint = TimePoint(period: string, kilograms: int, boxes: int)

  function PointPeriod(t: TimePoint): string { t.period }
  function PointKilograms(t: TimePoint): int { t.kilograms }

  /** The comparator `a.period.localeCompare(b.period)`, as "a may precede b". */
  function PeriodAscending(a: TimePoint, b: TimePoint): bool {
    LexLe(a.period, b.period)
  }

  /** `Array.from(periodMap.entries())`: one point per distinct period, in order of first appearance. */
  function UnsortedPoints(samples: seq<Sample>): seq<TimePoint> {
    var ks := Keys(samples, SamplePeriod);
    seq(|ks|, i requires 0 <= i < |ks| =>
      TimePoint(ks[i], PeriodTotalsOf(Where(samples, SamplePeriod, ks[i])).kilograms,
        PeriodTotalsOf(Where(samples, SamplePeriod, ks[i])).boxes))
  }

  /** The timeseries for a granularity and the fetched rows. */
  function TimeseriesOf(granularity: Option<string>, rows: seq<TimeRow>): (r: seq<TimePoint>)
    ensures |r| == |Keys(SamplesOf(EffectiveGranularity(granularity), rows), SamplePeriod)|
  {
    SortByPermutation(UnsortedPoints(SamplesOf(EffectiveGranularity(granularity), rows)), PeriodAscending);
    SortBy(UnsortedPoints(SamplesOf(EffectiveGranularity(granularity), rows)), PeriodAscending)
  }

  /**
   * `getExportersTimeseries` on the reply of its query: the error is
   * rethrown; otherwise the kept rows are summed per period into `periodMap`
   * and the entries are sorted by period.
   */
  method GetExportersTimeseries(granularity: Option<string>, reply: Reply<TimeRow>) returns (r: Outcome<seq<TimePoint>>)
    ensures reply.error.Some? ==> r == Threw(reply.error.value)
    ensures reply.error.None? ==> r == Ok(TimeseriesOf(granularity, reply.Rows()))
  {
    var g := EffectiveGranularity(granularity);
    if reply.error.Some? {
      return Threw(reply.error.value);
    }
    var samples := SamplesOf(g, reply.Rows());
    var keys, entries := FoldByKey(samples, SamplePeriod, NewPeriodTotals, AddSample);
    PeriodTotalsOfSteps();
    forall k | k in keys ensures entries[k] == PeriodTotalsOf(Where(samples, SamplePeriod, k)) {
      GroupAccOfWhere(samples, SamplePeriod, k, NewPeriodTotals, AddSample, PeriodTotalsOf);
    }
    var points := seq(|keys|, i requires 0 <= i < |keys| => TimePoint(keys[i], entries[keys[i]].kilograms, entries[keys[i]].boxes));
    assert points == UnsortedPoints(samples);
    var sorted := SortSeq(points, PeriodAscending);
    r := Ok(sorted);
  }

  lemma PeriodAscendingPreorder()
    ensures TotalPreorder(PeriodAscending)
  {
    forall a, b ensures PeriodAscending(a, b) || PeriodAscending(b, a) {
      LexLeTotal(a.period, b.period);
    }
    forall a, b, c | PeriodAscending(a, b) && PeriodAscending(b, c) ensures PeriodAscending(a, c) {
      LexLeTransitive(a.period, b.period, c.period);
    }
  }

  /** The periods are distinct and strictly ascending in string order. */
  lemma TimeseriesAscending(granularity: Option<string>, rows: seq<TimeRow>)
    ensures var t := TimeseriesOf(granularity, rows);
      forall i, j :: 0 <= i < j < |t| ==> LexLe(t[i].period, t[j].period) && t[i].period != t[j].period
  {
    var u := UnsortedPoints(SamplesOf(EffectiveGranularity(granularity), rows));
    var t := TimeseriesOf(granularity, rows);
    KeysDistinct(SamplesOf(EffectiveGranularity(granularity), rows), SamplePeriod);
    assert DistinctBy(u, PointPeriod);
    SortByPermutation(u, PeriodAscending);
    DistinctByPermutation(t, u, PointPeriod);
    PeriodAscendingPreorder();
    SortBySorted(u, PeriodAscending);
  }

  /** Every truthy period of a row has a point. */
  lemma TimeseriesCoversPeriods(granularity: Option<string>, rows: seq<TimeRow>)
    ensures var g := EffectiveGranularity(granularity);
      forall r :: r in rows && Kept(g, r) ==>
        exists t :: t in TimeseriesOf(granularity, rows) && t.period == PeriodOf(g, r).value
  {
    var g := EffectiveGranularity(granularity);
    var samples := SamplesOf(g, rows);
    var ks := Keys(samples, SamplePeriod);
    var u := UnsortedPoints(samples);
    SamplesOfMembers(g, rows);
    SortByMembers(u, PeriodAscending);
    KeysComplete(samples, SamplePeriod);
    forall r | r in rows && Kept(g, r)
      ensures exists t :: t in TimeseriesOf(granularity, rows) && t.period == PeriodOf(g, r).value
    {
      var x := SampleOf(g, r);
      assert x in samples;
      var m :| 0 <= m < |samples| && samples[m] == x;
      assert SamplePeriod(samples[m]) == x.period;
      assert x.period in ks;
      var k :| 0 <= k < |ks| && ks[k] == x.period;
      assert u[k] in u;
    }
  }

  /** Every point is the period of some row, with the sums of the kept rows of that period. */
  lemma TimeseriesPointSums(granularity: Option<string>, rows: seq<TimeRow>)
    ensures var g := EffectiveGranularity(granularity);
      var samples := SamplesOf(g, rows);
      forall t :: t in TimeseriesOf(granularity, rows) ==>
        (exists r :: r in rows && Kept(g, r) && PeriodOf(g, r) == Some(t.period))
        && t.kilograms == SumOf(Where(samples, SamplePeriod, t.period), SampleKilograms)
        && t.boxes == SumOf(Where(samples, SamplePeriod, t.period), SampleBoxes)
  {
    var g := EffectiveGranularity(granularity);
    var samples := SamplesOf(g, rows);
    var ks := Keys(samples, SamplePeriod);
    var u := UnsortedPoints(samples);
    SamplesOfMembers(g, rows);
    SortByMembers(u, PeriodAscending);
    KeysComplete(samples, SamplePeriod);
    forall p | p in TimeseriesOf(granularity, rows)
      ensures (exists r :: r in rows && Kept(g, r) && PeriodOf(g, r) == Some(p.period))
        && p.kilograms == SumOf(Where(samples, SamplePeriod, p.period), SampleKilograms)
        && p.boxes == SumOf(Where(samples, SamplePeriod, p.period), SampleBoxes)
    {
      assert p in u;
      var k :| 0 <= k < |u| && u[k] == p;
      assert p.period == ks[k];
      assert ks[k] in ks;
      var m :| 0 <= m < |samples| && SamplePeriod(samples[m]) == ks[k];
      assert samples[m] in samples;
      var r :| r in rows && Kept(g, r) && samples[m] == SampleOf(g, r);
      assert PeriodOf(g, r) == Some(p.period);
    }
  }

  /** The points add up to the rows that are kept. */
  lemma TimeseriesTotal(granularity: Option<string>, rows: seq<TimeRow>)
    ensures SumOf(TimeseriesOf(granularity, rows), PointKilograms)
      == SumOf(SamplesOf(EffectiveGranularity(granularity), rows), SampleKilograms)
  {
    var samples := SamplesOf(EffectiveGranularity(granularity), rows);
    var ks := Keys(samples, SamplePeriod);
    var u := UnsortedPoints(samples);
    SortByPermutation(u, PeriodAscending);
    SumOfPermutation(TimeseriesOf(granularity, rows), u, PointKilograms);
    SumOfPointwise(u, PointKilograms, ks, k => GroupSum(samples, SamplePeriod, SampleKilograms, k));
    GroupTotalAsSum(samples, SamplePeriod, ks, SampleKilograms);
    KeysPartitionSum(samples, SamplePeriod, SampleKilograms);
  }

  // ---------------------------------------------------------------------
  // getExportersTops
  // ---------------------------------------------------------------------

  /** The columns `switch (topType)` picks: the joined table, its id column and its name column. */
  datatype TopColumns = TopColumns(joinTable: string, joinField: string, nameField: string)

  /** The columns of each top type, or `None` for a type the switch rejects. */
  function TopColumnsOf(topType: string): (c: Option<TopColumns>)
    ensures c.Some? <==> topType in ["importers", "markets", "countries", "varieties", "arrival_ports"]
    ensures c.Some? ==> c.value.joinTable == topType && c.value.nameField == topType + ".name"
  {
    match topType
    case "importers" => Some(TopColumns("importers", "importer_id", "importers.name"))
    case "markets" => Some(TopColumns("markets", "market_id", "markets.name"))
    case "countries" => Some(TopColumns("countries", "country_id", "countries.name"))
    case "varieties" => Some(TopColumns("varieties", "variety_id", "varieties.name"))
    case "arrival_ports" => Some(TopColumns("arrival_ports", "arrival_port_id", "arrival_ports.name"))
    case _ => None
  }

  /** A row of the tops query: the join column (never null, by the query), the name, the numbers. */
  datatype TopRow = TopRow(id: int, name: Option<string>, kilograms: Option<int>, boxes: Option<int>)

  function TopRowId(r: TopRow): int { r.id }
  function TopRowKilograms(r: TopRow): int { OrZero(r.kilograms) }
  function TopRowBoxes(r: TopRow): int { OrZero(r.boxes) }

  /** An entry of `itemMap`. */
  datatype TopEntry = TopEntry(name: string, kilograms: int, boxes: int)

  function NewTopEntry(r: TopRow): TopEntry { TopEntry(NameOrUnknown(r.name), 0, 0) }

  function AddTopRow(e: TopEntry, r: TopRow): TopEntry {
    TopEntry(e.name, e.kilograms + TopRowKilograms(r), e.boxes + TopRowBoxes(r))
  }

  /** The entry of an item whose rows are `g`: the first row's name and the sums. */
  function TopEntryOf(g: seq<TopRow>): TopEntry {
    TopEntry(if g == [] then "Unknown" else NameOrUnknown(g[0].name), SumOf(g, TopRowKilograms), SumOf(g, TopRowBoxes))
  }

  lemma TopEntryOfSteps()
    ensures forall x :: TopEntryOf([x]) == AddTopRow(NewTopEntry(x), x)
    ensures forall g, x :: g != [] ==> TopEntryOf(g + [x]) == AddTopRow(TopEntryOf(g), x)
  {
    forall x ensures TopEntryOf([x]) == AddTopRow(NewTopEntry(x), x) {
      assert [] + [x] == [x];
      SumOfSnoc([], x, TopRowKilograms);
      SumOfSnoc([], x, TopRowBoxes);
    }
    forall g, x | g != [] ensures TopEntryOf(g + [x]) == AddTopRow(TopEntryOf(g), x) {
      SumOfSnoc(g, x, TopRowKilograms);
      SumOfSnoc(g, x, TopRowBoxes);
    }
  }

  /** The kilograms of the entries of the ids `ks`, added up in order. */
  function EntriesKilograms(rows: seq<TopRow>, ks: seq<int>): int {
    if ks == [] then 0
    else EntriesKilograms(rows, ks[..|ks| - 1]) + TopEntryOf(Where(rows, TopRowId, ks[|ks| - 1])).kilograms
  }

  /** `totalKg`: the kilograms of the entries, added up in map order. */
  function TopTotalOf(rows: seq<TopRow>): int {
    EntriesKilograms(rows, Keys(rows, TopRowId))
  }

  /** `sharePct`: the percentage of the total, or 0 when the total is not positive. */
  function SharePct(kilograms: int, total: int): real {
    if total > 0 then kilograms as real / total as real * 100.0 else 0.0
  }

  datatype TopItem = TopItem(id: int, name: string, kilograms: int, boxes: int, sharePct: real)

  function TopItemId(t: TopItem): int { t.id }

  /** The comparator `(a, b) => b.kilograms - a.kilograms`, as "a may precede b". */
  function TopKgDescending(a: TopItem, b: TopItem): bool {
    b.kilograms - a.kilograms <= 0
  }

  function TopItemOf(id: int, e: TopEntry, total: int): TopItem {
    TopItem(id, e.name, e.kilograms, e.boxes, SharePct(e.kilograms, total))
  }

  /** `Array.from(itemMap.entries()).map(...)`: one item per distinct id, in order of first appearance. */
  function UnsortedTopItems(rows: seq<TopRow>): seq<TopItem> {
    var ks := Keys(rows, TopRowId);
    var total := TopTotalOf(rows);
    seq(|ks|, i requires 0 <= i < |ks| => TopItemOf(ks[i], TopEntryOf(Where(rows, TopRowId, ks[i])), total))
  }

  /** The top items: sorted by kilograms, largest first, and cut to the first 10. */
  function TopsOf(rows: seq<TopRow>): (r: seq<TopItem>)
    ensures |r| <= 10
  {
    Take(SortBy(UnsortedTopItems(rows), TopKgDescending), 10)
  }

  /**
   * `getExportersTops`: an unknown type throws before any query; otherwise
   * the query's error is rethrown, or the rows are grouped by id into
   * `itemMap`, the total is summed, and the items are sorted and cut.
   */
  method GetExportersTops(topType: string, reply: Reply<TopRow>) returns (r: Outcome<seq<TopItem>>)
    ensures TopColumnsOf(topType).None? ==> r == Threw("Invalid top type: " + topType)
    ensures TopColumnsOf(topType).Some? && reply.error.Some? ==> r == Threw(reply.error.value)
    ensures TopColumnsOf(topType).Some? && reply.error.None? ==> r == Ok(TopsOf(reply.Rows()))
  {
    var columns := TopColumnsOf(topType);
    if columns.None? {
      return Threw("Invalid top type: " + topType);
    }
    if reply.error.Some? {
      return Threw(reply.error.value);
    }
    var rows := reply.Rows();
    var keys, entries := TopEntries(rows);
    var total := EntriesTotal(rows, keys, entries);
    ItemsOfEntries(rows, keys, entries, total);
    var items := seq(|keys|, i requires 0 <= i < |keys| && keys[i] in entries => TopItemOf(keys[i], entries[keys[i]], total));
    var sorted := SortSeq(items, TopKgDescending);
    r := Ok(Take(sorted, 10));
  }

  /** The `itemMap` fold: one entry per distinct id, holding that id's rows folded. */
  method TopEntries(rows: seq<TopRow>) returns (keys: seq<int>, entries: map<int, TopEntry>)
    ensures keys == Keys(rows, TopRowId)
    ensures forall k :: k in entries <==> k in keys
    ensures forall i :: 0 <= i < |keys| ==> keys[i] in entries && entries[keys[i]] == TopEntryOf(Where(rows, TopRowId, keys[i]))
  {
    keys, entries := FoldByKey(rows, TopRowId, NewTopEntry, AddTopRow);
    TopEntryOfSteps();
    forall i | 0 <= i < |keys| ensures keys[i] in entries && entries[keys[i]] == TopEntryOf(Where(rows, TopRowId, keys[i])) {
      var k := keys[i];
      assert k in keys;
      GroupAccOfWhere(rows, TopRowId, k, NewTopEntry, AddTopRow, TopEntryOf);
    }
  }

  /** `totalKg`: the entries' kilograms added up in map order. */
  method EntriesTotal(rows: seq<TopRow>, keys: seq<int>, entries: map<int, TopEntry>) returns (total: int)
    requires forall i :: 0 <= i < |keys| ==> keys[i] in entries && entries[keys[i]] == TopEntryOf(Where(rows, TopRowId, keys[i]))
    ensures total == EntriesKilograms(rows, keys)
  {
    total := 0;
    for i := 0 to |keys|
      invariant total == EntriesKilograms(rows, keys[..i])
    {
      assert keys[..i + 1][..i] == keys[..i];
      total := total + entries[keys[i]].kilograms;
    }
    assert keys[..|keys|] == keys;
  }

  /** The items built from the folded entries are the items of the rows. */
  lemma ItemsOfEntries(rows: seq<TopRow>, keys: seq<int>, entries: map<int, TopEntry>, total: int)
    requires keys == Keys(rows, TopRowId)
    requires forall i :: 0 <= i < |keys| ==> keys[i] in entries && entries[keys[i]] == TopEntryOf(Where(rows, TopRowId, keys[i]))
    requires total == EntriesKilograms(rows, keys)
    ensures seq(|keys|, i requires 0 <= i < |keys| && keys[i] in entries => TopItemOf(keys[i], entries[keys[i]], total))
      == UnsortedTopItems(rows)
  {
  }

  lemma TopKgDescendingPreorder()
    ensures TotalPreorder(TopKgDescending)
  {
  }

  lemma {:induction false} EntriesKilogramsIsGroupTotal(rows: seq<TopRow>, ks: seq<int>)
    ensures EntriesKilograms(rows, ks) == GroupTotal(rows, TopRowId, ks, TopRowKilograms)
    decreases |ks|
  {
    if ks != [] {
      EntriesKilogramsIsGroupTotal(rows, ks[..|ks| - 1]);
    }
  }

  /** The total is the kilograms of all rows. */
  lemma TopTotalIsRowSum(rows: seq<TopRow>)
    ensures TopTotalOf(rows) == SumOf(rows, TopRowKilograms)
  {
    EntriesKilogramsIsGroupTotal(rows, Keys(rows, TopRowId));
    KeysPartitionSum(rows, TopRowId, TopRowKilograms);
  }

  /** The list is the first 10 of the sorted items. */
  lemma TopsShape(rows: seq<TopRow>) returns (u: seq<TopItem>, s: seq<TopItem>)
    ensures u == UnsortedTopItems(rows) && s == SortBy(u, TopKgDescending)
    ensures |u| == |s| == |Keys(rows, TopRowId)| && multiset(s) == multiset(u)
    ensures TopsOf(rows) == Take(s, 10)
  {
    u := UnsortedTopItems(rows);
    s := SortBy(u, TopKgDescending);
    SortByPermutation(u, TopKgDescending);
  }

  /** At most 10 items, and fewer only when there are fewer distinct ids. */
  lemma TopsSize(rows: seq<TopRow>)
    ensures |TopsOf(rows)| == if |Keys(rows, TopRowId)| < 10 then |Keys(rows, TopRowId)| else 10
  {
    var u, s := TopsShape(rows);
  }

  /** Kilograms never increase along the list, and no id is listed twice. */
  lemma TopsOrdered(rows: seq<TopRow>)
    ensures var t := TopsOf(rows);
      forall i, j :: 0 <= i < j < |t| ==> t[i].kilograms >= t[j].kilograms && t[i].id != t[j].id
  {
    var u, s := TopsShape(rows);
    KeysDistinct(rows, TopRowId);
    assert DistinctBy(u, TopItemId);
    DistinctByPermutation(s, u, TopItemId);
    TopKgDescendingPreorder();
    SortBySorted(u, TopKgDescending);
    var t := TopsOf(rows);
    forall i, j | 0 <= i < j < |t| ensures t[i].kilograms >= t[j].kilograms && t[i].id != t[j].id {
      assert t[i] == s[i] && t[j] == s[j];
      assert TopKgDescending(s[i], s[j]);
    }
  }

  /** A share is its kilograms over the total in percent, and zero without a positive total. */
  predicate IsShare(p: real, kilograms: int, total: int) {
    (total > 0 ==> p * (total as real) == (kilograms as real) * 100.0) && (total <= 0 ==> p == 0.0)
  }

  lemma SharePctIsShare(kilograms: int, total: int)
    ensures IsShare(SharePct(kilograms, total), kilograms, total)
  {
    if total > 0 {
      var q := kilograms as real / total as real;
      assert q * (total as real) == kilograms as real;
      assert SharePct(kilograms, total) * (total as real) == q * (total as real) * 100.0;
    }
  }

  /** Every listed item carries the first name, the sums of its rows and its share of all the rows' kilograms. */
  lemma TopsEntries(rows: seq<TopRow>)
    ensures forall t :: t in TopsOf(rows) ==>
      var g := Where(rows, TopRowId, t.id);
      g != [] && t.name == NameOrUnknown(g[0].name)
      && t.kilograms == SumOf(g, TopRowKilograms) && t.boxes == SumOf(g, TopRowBoxes)
      && IsShare(t.sharePct, t.kilograms, SumOf(rows, TopRowKilograms))
  {
    var u, s := TopsShape(rows);
    var ks := Keys(rows, TopRowId);
    TopTotalIsRowSum(rows);
    forall t | t in TopsOf(rows)
      ensures var g := Where(rows, TopRowId, t.id);
        g != [] && t.name == NameOrUnknown(g[0].name)
        && t.kilograms == SumOf(g, TopRowKilograms) && t.boxes == SumOf(g, TopRowBoxes)
        && IsShare(t.sharePct, t.kilograms, SumOf(rows, TopRowKilograms))
    {
      var i :| 0 <= i < |TopsOf(rows)| && TopsOf(rows)[i] == t;
      assert s[i] == t;
      assert t in multiset(u);
      var j :| 0 <= j < |u| && u[j] == t;
      assert t == TopItemOf(ks[j], TopEntryOf(Where(rows, TopRowId, ks[j])), TopTotalOf(rows));
      WhereOfPresentKey(rows, TopRowId, ks[j]);
      SharePctIsShare(t.kilograms, TopTotalOf(rows));
    }
  }

  /** An id left off the list has no more kilograms than any listed item. */
  lemma TopsAreLargest(rows: seq<TopRow>, k: int)
    requires k in Keys(rows, TopRowId)
    requires forall t :: t in TopsOf(rows) ==> t.id != k
    ensures forall t :: t in TopsOf(rows) ==> GroupSum(rows, TopRowId, TopRowKilograms, k) <= t.kilograms
  {
    var u, s := TopsShape(rows);
    var ks := Keys(rows, TopRowId);
    var t := TopsOf(rows);
    var a :| 0 <= a < |ks| && ks[a] == k;
    assert u[a] == TopItemOf(k, TopEntryOf(Where(rows, TopRowId, k)), TopTotalOf(rows));
    assert u[a] in multiset(s);
    var b :| 0 <= b < |s| && s[b] == u[a];
    forall i | 0 <= i < |t| ensures s[i] != u[a] {
      assert t[i] == s[i];
      assert t[i] in t;
    }
    TopKgDescendingPreorder();
    SortBySorted(u, TopKgDescending);
    forall x | x in t ensures GroupSum(rows, TopRowId, TopRowKilograms, k) <= x.kilograms {
      var i :| 0 <= i < |t| && t[i] == x;
      assert s[i] == x;
      assert TopKgDescending(s[i], s[b]);
    }
  }

  /** With at most 10 distinct ids, every id is listed. */
  lemma TopsComplete(rows: seq<TopRow>)
    requires |Keys(rows, TopRowId)| <= 10
    ensures forall r :: r in rows ==> exists t :: t in TopsOf(rows) && t.id == r.id
  {
    var u, s := TopsShape(rows);
    var ks := Keys(rows, TopRowId);
    KeysComplete(rows, TopRowId);
    forall r | r in rows ensures exists t :: t in TopsOf(rows) && t.id == r.id {
      var m :| 0 <= m < |rows| && rows[m] == r;
      assert TopRowId(rows[m]) == r.id;
      assert r.id in ks;
      var a :| 0 <= a < |ks| && ks[a] == r.id;
      assert u[a].id == r.id;
      assert u[a] in multiset(s);
      var b :| 0 <= b < |s| && s[b] == u[a];
      assert TopsOf(rows)[b] == s[b];
    }
  }

  // ---------------------------------------------------------------------
  // getExportersRankings
  // ---------------------------------------------------------------------

  /** A row of the rankings query; both joins are inner joins, so both ids are present. */
  datatype RankRow = RankRow(
    exporterId: int,
    exporterName: Option<string>,
    seasonId: int,
    seasonName: Option<string>,
    kilograms: Option<int>,
    boxes: Option<int>)

  /** `` `${exporter_id}-${season_id}` ``, the key of `rankingMap`. */
  function PairKey(exporterId: int, seasonId: int): string {
    IntToString(exporterId) + "-" + IntToString(seasonId)
  }

  function RankKey(r: RankRow): string { PairKey(r.exporterId, r.seasonId) }
  function RankRowKilograms(r: RankRow): int { OrZero(r.kilograms) }
  function RankRowBoxes(r: RankRow): int { OrZero(r.boxes) }

  /** An entry of `rankingMap`. */
  datatype RankEntry = RankEntry(
    exporterId: int,
    exporterName: string,
    seasonId: int,
    seasonName: string,
    kilograms: int,
    boxes: int)

  function NewRankEntry(r: RankRow): RankEntry {
    RankEntry(r.exporterId, NameOrUnknown(r.exporterName), r.seasonId, NameOrUnknown(r.seasonName), 0, 0)
  }

  function AddRankRow(e: RankEntry, r: RankRow): RankEntry {
    e.(kilograms := e.kilograms + RankRowKilograms(r), boxes := e.boxes + RankRowBoxes(r))
  }

  /** The entry of a key whose rows are `g`: the first row's ids and names, and the sums. */
  function RankEntryOf(g: seq<RankRow>): RankEntry {
    if g == [] then RankEntry(0, "Unknown", 0, "Unknown", 0, 0)
    else RankEntry(g[0].exporterId, NameOrUnknown(g[0].exporterName), g[0].seasonId, NameOrUnknown(g[0].seasonName),
      SumOf(g, RankRowKilograms), SumOf(g, RankRowBoxes))
  }

  lemma RankEntryOfSteps()
    ensures forall x :: RankEntryOf([x]) == AddRankRow(NewRankEntry(x), x)
    ensures forall g, x :: g != [] ==> RankEntryOf(g + [x]) == AddRankRow(RankEntryOf(g), x)
  {
    forall x ensures RankEntryOf([x]) == AddRankRow(NewRankEntry(x), x) {
      assert [] + [x] == [x];
      SumOfSnoc([], x, RankRowKilograms);
      SumOfSnoc([], x, RankRowBoxes);
    }
    forall g, x | g != [] ensures RankEntryOf(g + [x]) == AddRankRow(RankEntryOf(g), x) {
      assert (g + [x])[0] == g[0];
      SumOfSnoc(g, x, RankRowKilograms);
      SumOfSnoc(g, x, RankRowBoxes);
    }
  }

  /** `Array.from(rankingMap.values())`: one entry per distinct key, in order of first appearance. */
  function RankValues(rows: seq<RankRow>): seq<RankEntry> {
    var ks := Keys(rows, RankKey);
    seq(|ks|, i requires 0 <= i < |ks| => RankEntryOf(Where(rows, RankKey, ks[i])))
  }

  function EntrySeason(e: RankEntry): int { e.seasonId }
  function EntryPair(e: RankEntry): (int, int) { (e.exporterId, e.seasonId) }

  /** The comparator `(a, b) => b.kilograms - a.kilograms` on entries, as "a may precede b". */
  function KgDescending(a: RankEntry, b: RankEntry): bool {
    b.kilograms - a.kilograms <= 0
  }

  datatype ExporterRanking = ExporterRanking(
    exporterId: int,
    exporterName: string,
    seasonId: int,
    seasonName: string,
    kilograms: int,
    boxes: int,
    rank: int)

  function RankedAs(e: RankEntry, rank: int): ExporterRanking {
    ExporterRanking(e.exporterId, e.exporterName, e.seasonId, e.seasonName, e.kilograms, e.boxes, rank)
  }

  /** `sorted.forEach((exporter, index) => ... rank: index + 1)` */
  function Ranked(sorted: seq<RankEntry>): seq<ExporterRanking> {
    seq(|sorted|, i requires 0 <= i < |sorted| => RankedAs(sorted[i], i + 1))
  }

  /** The rankings of one season: its entries sorted by kilograms, largest first, and numbered from 1. */
  function SeasonRankings(values: seq<RankEntry>, s: int): seq<ExporterRanking> {
    Ranked(SortBy(Where(values, EntrySeason, s), KgDescending))
  }

  /** The rankings pushed while `seasonGroups.forEach` visits the seasons `ss` in order. */
  function ConcatRankings(values: seq<RankEntry>, ss: seq<int>): seq<ExporterRanking> {
    if ss == [] then [] else ConcatRankings(values, ss[..|ss| - 1]) + SeasonRankings(values, ss[|ss| - 1])
  }

  function RankingSeasonRank(x: ExporterRanking): (int, int) { (x.seasonId, x.rank) }
  function RankingPair(x: ExporterRanking): (int, int) { (x.exporterId, x.seasonId) }

  /** The comparator `a.seasonId - b.seasonId || a.rank - b.rank`, as "a may precede b". */
  function SeasonThenRank(a: ExporterRanking, b: ExporterRanking): bool {
    (if a.seasonId - b.seasonId != 0 then a.seasonId - b.seasonId else a.rank - b.rank) <= 0
  }

  /** The rankings of the fetched rows: every season's rankings, sorted by season and rank. */
  function RankingsOf(rows: seq<RankRow>): (r: seq<ExporterRanking>)
    ensures Sorted(r, SeasonThenRank)
  {
    var values := RankValues(rows);
    SeasonThenRankPreorder();
    SortBySorted(ConcatRankings(values, Keys(values, EntrySeason)), SeasonThenRank);
    SortBy(ConcatRankings(values, Keys(values, EntrySeason)), SeasonThenRank)
  }

  function NoEntries(e: RankEntry): seq<RankEntry> { [] }
  function PushEntry(g: seq<RankEntry>, e: RankEntry): seq<RankEntry> { g + [e] }
  function SameEntries(g: seq<RankEntry>): seq<RankEntry> { g }

  /** One season's `sorted.forEach`: the sorted group numbered from 1. */
  method RankGroup(group: seq<RankEntry>) returns (ranked: seq<ExporterRanking>)
    ensures ranked == Ranked(SortBy(group, KgDescending))
  {
    var sorted := SortSeq(group, KgDescending);
    ranked := [];
    for j := 0 to |sorted|
      invariant ranked == Ranked(sorted)[..j]
    {
      assert Ranked(sorted)[..j + 1] == Ranked(sorted)[..j] + [RankedAs(sorted[j], j + 1)];
      ranked := ranked + [RankedAs(sorted[j], j + 1)];
    }
    assert Ranked(sorted)[..|sorted|] == Ranked(sorted);
  }

  /** `seasonGroups.forEach`: every season's rankings pushed in the order of the seasons. */
  method RankSeasons(values: seq<RankEntry>, seasons: seq<int>, groups: map<int, seq<RankEntry>>)
    returns (rankings: seq<ExporterRanking>)
    requires forall i :: 0 <= i < |seasons| ==> seasons[i] in groups && groups[seasons[i]] == Where(values, EntrySeason, seasons[i])
    ensures rankings == ConcatRankings(values, seasons)
  {
    rankings := [];
    for i := 0 to |seasons|
      invariant rankings == ConcatRankings(values, seasons[..i])
    {
      var ranked := RankGroup(groups[seasons[i]]);
      rankings := rankings + ranked;
      assert seasons[..i + 1][..i] == seasons[..i];
    }
    assert seasons[..|seasons|] == seasons;
  }

  /**
   * `getExportersRankings` on the reply of its query: the error is rethrown;
   * otherwise the rows are summed per key into `rankingMap`, its values are
   * grouped per season into `seasonGroups`, every group is sorted and
   * numbered into `rankings`, and `rankings` is sorted.
   */
  method GetExportersRankings(reply: Reply<RankRow>) returns (r: Outcome<seq<ExporterRanking>>)
    ensures reply.error.Some? ==> r == Threw(reply.error.value)
    ensures reply.error.None? ==> r == Ok(RankingsOf(reply.Rows()))
  {
    if reply.error.Some? {
      return Threw(reply.error.value);
    }
    var rows := reply.Rows();
    var keys, entries := FoldByKey(rows, RankKey, NewRankEntry, AddRankRow);
    RankEntryOfSteps();
    forall k | k in keys ensures entries[k] == RankEntryOf(Where(rows, RankKey, k)) {
      GroupAccOfWhere(rows, RankKey, k, NewRankEntry, AddRankRow, RankEntryOf);
    }
    var values := seq(|keys|, i requires 0 <= i < |keys| => entries[keys[i]]);
    assert values == RankValues(rows);
    var seasons, groups := FoldByKey(values, EntrySeason, NoEntries, PushEntry);
    assert forall x :: SameEntries([x]) == PushEntry(NoEntries(x), x);
    forall i | 0 <= i < |seasons| ensures seasons[i] in groups && groups[seasons[i]] == Where(values, EntrySeason, seasons[i]) {
      assert seasons[i] in seasons;
      GroupAccOfWhere(values, EntrySeason, seasons[i], NoEntries, PushEntry, SameEntries);
    }
    var rankings := RankSeasons(values, seasons, groups);
    var result := SortSeq(rankings, SeasonThenRank);
    r := Ok(result);
  }

  // Properties of the rankings

  lemma KgDescendingPreorder()
    ensures TotalPreorder(KgDescending)
  {
  }

  lemma SeasonThenRankPreorder()
    ensures TotalPreorder(SeasonThenRank)
  {
  }

  /** The printed key of a pair of ids determines the pair: the rows of one key are one exporter's rows in one season. */
  lemma PairKeyInjective(e1: int, s1: int, e2: int, s2: int)
    requires PairKey(e1, s1) == PairKey(e2, s2)
    ensures e1 == e2 && s1 == s2
  {
    DashKeyInjective(e1, s1, e2, s2);
  }

  /** The rows summed into one entry are exactly the rows of that exporter in that season. */
  lemma RankGroupRows(rows: seq<RankRow>, exporterId: int, seasonId: int)
    ensures forall row :: row in Where(rows, RankKey, PairKey(exporterId, seasonId)) <==>
      row in rows && row.exporterId == exporterId && row.seasonId == seasonId
  {
    WhereMembers(rows, RankKey, PairKey(exporterId, seasonId));
    forall row | row in rows && RankKey(row) == PairKey(exporterId, seasonId)
      ensures row.exporterId == exporterId && row.seasonId == seasonId
    {
      PairKeyInjective(row.exporterId, row.seasonId, exporterId, seasonId);
    }
  }

  /** Every entry is the sum of the non-empty group of its own exporter and season. */
  lemma RankValueOf(rows: seq<RankRow>, i: nat)
    requires i < |RankValues(rows)|
    ensures var v := RankValues(rows)[i];
      var g := Where(rows, RankKey, PairKey(v.exporterId, v.seasonId));
      g != [] && v == RankEntryOf(g) && Keys(rows, RankKey)[i] == PairKey(v.exporterId, v.seasonId)
  {
    var ks := Keys(rows, RankKey);
    var g := Where(rows, RankKey, ks[i]);
    assert ks[i] in ks;
    WhereOfPresentKey(rows, RankKey, ks[i]);
    WhereMembers(rows, RankKey, ks[i]);
    assert g[0] in g;
  }

  /** No two entries share an exporter and a season. */
  lemma RankValuesDistinct(rows: seq<RankRow>)
    ensures DistinctBy(RankValues(rows), EntryPair)
  {
    var values := RankValues(rows);
    var ks := Keys(rows, RankKey);
    KeysDistinct(rows, RankKey);
    forall i, j | 0 <= i < j < |values| ensures EntryPair(values[i]) != EntryPair(values[j]) {
      RankValueOf(rows, i);
      RankValueOf(rows, j);
      assert ks[i] != ks[j];
    }
  }

  /** One season's entries sorted by kilograms, heaviest first. */
  lemma SeasonSorted(values: seq<RankEntry>, s: int) returns (sorted: seq<RankEntry>)
    ensures sorted == SortBy(Where(values, EntrySeason, s), KgDescending)
    ensures |sorted| == |Where(values, EntrySeason, s)|
    ensures forall i :: 0 <= i < |sorted| ==> sorted[i] in values && sorted[i].seasonId == s
    ensures forall i, j :: 0 <= i < j < |sorted| ==> sorted[i].kilograms >= sorted[j].kilograms
  {
    var g := Where(values, EntrySeason, s);
    sorted := SortBy(g, KgDescending);
    SortByPermutation(g, KgDescending);
    assert |sorted| == |multiset(sorted)| == |multiset(g)| == |g|;
    SortByMembers(g, KgDescending);
    WhereMembers(values, EntrySeason, s);
    forall i | 0 <= i < |sorted| ensures sorted[i] in values && sorted[i].seasonId == s {
      assert sorted[i] in sorted;
    }
    KgDescendingPreorder();
    SortBySorted(g, KgDescending);
    forall i, j | 0 <= i < j < |sorted| ensures sorted[i].kilograms >= sorted[j].kilograms {
      assert KgDescending(sorted[i], sorted[j]);
    }
  }

  /** One season's rankings: numbered 1, 2, ... in that season, heaviest first. */
  lemma SeasonRankingsFacts(values: seq<RankEntry>, s: int) returns (sorted: seq<RankEntry>)
    ensures sorted == SortBy(Where(values, EntrySeason, s), KgDescending)
    ensures var t := SeasonRankings(values, s);
      |t| == |sorted| == |Where(values, EntrySeason, s)|
      && (forall i :: 0 <= i < |t| ==> t[i] == RankedAs(sorted[i], i + 1) && sorted[i] in values)
      && (forall i :: 0 <= i < |t| ==> t[i].rank == i + 1 && t[i].seasonId == s)
      && (forall i, j :: 0 <= i < j < |t| ==> t[i].kilograms >= t[j].kilograms)
  {
    sorted := SeasonSorted(values, s);
  }

  /** Every ranking of a season is in that season. */
  lemma SeasonRankingsSeason(values: seq<RankEntry>, s: int)
    ensures forall x :: x in SeasonRankings(values, s) ==> x.seasonId == s
  {
    var _ := SeasonRankingsFacts(values, s);
  }

  /** The rankings of the seasons `ss` are the rankings of each of them. */
  lemma {:induction false} ConcatRankingsMembers(values: seq<RankEntry>, ss: seq<int>)
    ensures forall x :: x in ConcatRankings(values, ss) <==> exists k :: 0 <= k < |ss| && x in SeasonRankings(values, ss[k])
    decreases |ss|
  {
    if ss != [] {
      var p := ss[..|ss| - 1];
      var c := ConcatRankings(values, p);
      var t := SeasonRankings(values, ss[|ss| - 1]);
      assert ConcatRankings(values, ss) == c + t;
      ConcatRankingsMembers(values, p);
      forall x ensures x in c + t <==> exists k :: 0 <= k < |ss| && x in SeasonRankings(values, ss[k]) {
        if x in c {
          var k :| 0 <= k < |p| && x in SeasonRankings(values, p[k]);
          assert ss[k] == p[k];
        }
        if exists k :: 0 <= k < |ss| && x in SeasonRankings(values, ss[k]) {
          var k :| 0 <= k < |ss| && x in SeasonRankings(values, ss[k]);
          if k < |p| {
            assert p[k] == ss[k];
          }
        }
      }
    }
  }

  /** Distinct seasons give rankings with distinct (season, rank) pairs. */
  lemma {:induction false} ConcatRankingsDistinct(values: seq<RankEntry>, ss: seq<int>)
    requires NoDup(ss)
    ensures DistinctBy(ConcatRankings(values, ss), RankingSeasonRank)
    decreases |ss|
  {
    if ss != [] {
      var p := ss[..|ss| - 1];
      var last := ss[|ss| - 1];
      assert NoDup(p) by {
        forall i, j | 0 <= i < j < |p| ensures p[i] != p[j] {
          assert p[i] == ss[i] && p[j] == ss[j];
        }
      }
      ConcatRankingsDistinct(values, p);
      var c := ConcatRankings(values, p);
      var t := SeasonRankings(values, last);
      var _ := SeasonRankingsFacts(values, last);
      ConcatRankingsMembers(values, p);
      forall i, j | 0 <= i < |c| && 0 <= j < |t| ensures RankingSeasonRank(c[i]) != RankingSeasonRank(t[j]) {
        assert c[i] in c;
        var k :| 0 <= k < |p| && c[i] in SeasonRankings(values, p[k]);
        SeasonRankingsSeason(values, p[k]);
        assert p[k] == ss[k];
      }
      assert DistinctBy(t, RankingSeasonRank);
      DistinctByAppend(c, t, RankingSeasonRank);
    }
  }

  /** The rankings before the final sort, and what the final sort keeps of them. */
  lemma RankingsShape(rows: seq<RankRow>) returns (values: seq<RankEntry>, ss: seq<int>, all: seq<ExporterRanking>)
    ensures values == RankValues(rows) && ss == Keys(values, EntrySeason) && all == ConcatRankings(values, ss)
    ensures RankingsOf(rows) == SortBy(all, SeasonThenRank)
    ensures NoDup(ss)
    ensures multiset(RankingsOf(rows)) == multiset(all)
    ensures forall x :: x in RankingsOf(rows) <==> x in all
  {
    values := RankValues(rows);
    ss := Keys(values, EntrySeason);
    all := ConcatRankings(values, ss);
    KeysDistinct(values, EntrySeason);
    SortByPermutation(all, SeasonThenRank);
    SortByMembers(all, SeasonThenRank);
  }

  /** Where a ranking comes from: the entry at its rank in its season's sorted group. */
  lemma LocateRanking(values: seq<RankEntry>, x: ExporterRanking) returns (sorted: seq<RankEntry>)
    requires x in ConcatRankings(values, Keys(values, EntrySeason))
    ensures x.seasonId in Keys(values, EntrySeason)
    ensures sorted == SortBy(Where(values, EntrySeason, x.seasonId), KgDescending)
    ensures 1 <= x.rank <= |sorted| == |Where(values, EntrySeason, x.seasonId)|
    ensures x == SeasonRankings(values, x.seasonId)[x.rank - 1] == RankedAs(sorted[x.rank - 1], x.rank)
    ensures sorted[x.rank - 1] in values
  {
    var ss := Keys(values, EntrySeason);
    ConcatRankingsMembers(values, ss);
    var k :| 0 <= k < |ss| && x in SeasonRankings(values, ss[k]);
    var s := ss[k];
    sorted := SeasonRankingsFacts(values, s);
    var t := SeasonRankings(values, s);
    var a :| 0 <= a < |t| && t[a] == x;
  }

  lemma RankingsDistinct(rows: seq<RankRow>)
    ensures DistinctBy(RankingsOf(rows), RankingSeasonRank)
  {
    var values, ss, all := RankingsShape(rows);
    ConcatRankingsDistinct(values, ss);
    DistinctByPermutation(RankingsOf(rows), all, RankingSeasonRank);
  }

  /** The rankings are sorted by season and then by rank, with no (season, rank) pair twice. */
  lemma RankingsOrdered(rows: seq<RankRow>)
    ensures var r := RankingsOf(rows);
      forall i, j :: 0 <= i < j < |r| ==>
        r[i].seasonId < r[j].seasonId || (r[i].seasonId == r[j].seasonId && r[i].rank < r[j].rank)
  {
    RankingsDistinct(rows);
    StrictlyOrdered(RankingsOf(rows));
  }

  lemma StrictlyOrdered(r: seq<ExporterRanking>)
    requires Sorted(r, SeasonThenRank) && DistinctBy(r, RankingSeasonRank)
    ensures forall i, j :: 0 <= i < j < |r| ==>
      r[i].seasonId < r[j].seasonId || (r[i].seasonId == r[j].seasonId && r[i].rank < r[j].rank)
  {
    forall i, j | 0 <= i < j < |r|
      ensures r[i].seasonId < r[j].seasonId || (r[i].seasonId == r[j].seasonId && r[i].rank < r[j].rank)
    {
      assert SeasonThenRank(r[i], r[j]);
      assert RankingSeasonRank(r[i]) != RankingSeasonRank(r[j]);
    }
  }

  /** Within a season, a better rank never has fewer kilograms. */
  lemma RankingsKilograms(rows: seq<RankRow>)
    ensures var r := RankingsOf(rows);
      forall i, j :: 0 <= i < |r| && 0 <= j < |r| && r[i].seasonId == r[j].seasonId && r[i].rank < r[j].rank ==>
        r[i].kilograms >= r[j].kilograms
  {
    var values, ss, all := RankingsShape(rows);
    var r := RankingsOf(rows);
    forall i, j | 0 <= i < |r| && 0 <= j < |r| && r[i].seasonId == r[j].seasonId && r[i].rank < r[j].rank
      ensures r[i].kilograms >= r[j].kilograms
    {
      assert r[i] in r && r[j] in r;
      var _ := LocateRanking(values, r[i]);
      var _ := LocateRanking(values, r[j]);
      var _ := SeasonRankingsFacts(values, r[i].seasonId);
    }
  }

  /** How many entries a season has: its ranks run from 1 to this number. */
  function SeasonSize(rows: seq<RankRow>, seasonId: int): nat {
    |Where(RankValues(rows), EntrySeason, seasonId)|
  }

  /** Every rank lies between 1 and the number of entries of its season. */
  lemma RankingsRanks(rows: seq<RankRow>)
    ensures forall x :: x in RankingsOf(rows) ==> 1 <= x.rank <= SeasonSize(rows, x.seasonId)
  {
    var values, ss, all := RankingsShape(rows);
    forall x | x in RankingsOf(rows) ensures 1 <= x.rank <= SeasonSize(rows, x.seasonId) {
      var _ := LocateRanking(values, x);
    }
  }

  /** Every rank from 1 to the number of entries of a season is given in that season. */
  lemma RankingsRankListed(rows: seq<RankRow>, seasonId: int, rank: int)
    requires 1 <= rank <= SeasonSize(rows, seasonId)
    ensures exists x :: x in RankingsOf(rows) && x.seasonId == seasonId && x.rank == rank
  {
    var values, ss, all := RankingsShape(rows);
    WhereNonEmptyKey(values, EntrySeason, seasonId);
    var k :| 0 <= k < |ss| && ss[k] == seasonId;
    var _ := SeasonRankingsFacts(values, seasonId);
    var t := SeasonRankings(values, seasonId);
    assert t[rank - 1] in t;
    ConcatRankingsMembers(values, ss);
    assert t[rank - 1] in all;
  }

  /** Each ranking carries the names and sums of the rows of its own exporter and season. */
  lemma RankingsEntries(rows: seq<RankRow>)
    ensures forall x :: x in RankingsOf(rows) ==>
      var g := Where(rows, RankKey, PairKey(x.exporterId, x.seasonId));
      g != []
      && x.exporterName == NameOrUnknown(g[0].exporterName) && x.seasonName == NameOrUnknown(g[0].seasonName)
      && x.kilograms == SumOf(g, RankRowKilograms) && x.boxes == SumOf(g, RankRowBoxes)
  {
    var values, ss, all := RankingsShape(rows);
    forall x | x in RankingsOf(rows)
      ensures var g := Where(rows, RankKey, PairKey(x.exporterId, x.seasonId));
        g != []
        && x.exporterName == NameOrUnknown(g[0].exporterName) && x.seasonName == NameOrUnknown(g[0].seasonName)
        && x.kilograms == SumOf(g, RankRowKilograms) && x.boxes == SumOf(g, RankRowBoxes)
    {
      RankingEntry(rows, x);
    }
  }

  /** One ranking's figures are those of its pair's rows. */
  lemma RankingEntry(rows: seq<RankRow>, x: ExporterRanking)
    requires x in ConcatRankings(RankValues(rows), Keys(RankValues(rows), EntrySeason))
    ensures var g := Where(rows, RankKey, PairKey(x.exporterId, x.seasonId));
      g != []
      && x.exporterName == NameOrUnknown(g[0].exporterName) && x.seasonName == NameOrUnknown(g[0].seasonName)
      && x.kilograms == SumOf(g, RankRowKilograms) && x.boxes == SumOf(g, RankRowBoxes)
  {
    var values := RankValues(rows);
    var sorted := LocateRanking(values, x);
    var e := sorted[x.rank - 1];
    var m :| 0 <= m < |values| && values[m] == e;
    RankValueOf(rows, m);
  }

  /** Every entry is ranked in its season. */
  lemma EntryRanked(values: seq<RankEntry>, v: RankEntry)
    requires v in values
    ensures exists x :: x in ConcatRankings(values, Keys(values, EntrySeason)) && x == RankedAs(v, x.rank)
  {
    var ss := Keys(values, EntrySeason);
    var s := v.seasonId;
    WhereMembers(values, EntrySeason, s);
    assert v in Where(values, EntrySeason, s);
    WhereNonEmptyKey(values, EntrySeason, s);
    var c :| 0 <= c < |ss| && ss[c] == s;
    var sorted := SeasonRankingsFacts(values, s);
    SortByMembers(Where(values, EntrySeason, s), KgDescending);
    var b :| 0 <= b < |sorted| && sorted[b] == v;
    var t := SeasonRankings(values, s);
    assert t[b] == RankedAs(v, b + 1);
    assert t[b] in t;
    ConcatRankingsMembers(values, ss);
  }

  /** Every row has the entry of its exporter and season. */
  lemma RowEntry(rows: seq<RankRow>, row: RankRow) returns (m: nat)
    requires row in rows
    ensures m < |RankValues(rows)|
    ensures RankValues(rows)[m].exporterId == row.exporterId && RankValues(rows)[m].seasonId == row.seasonId
  {
    var ks := Keys(rows, RankKey);
    KeysComplete(rows, RankKey);
    var n :| 0 <= n < |rows| && rows[n] == row;
    assert RankKey(row) in ks;
    m :| 0 <= m < |ks| && ks[m] == RankKey(row);
    RankValueOf(rows, m);
    var v := RankValues(rows)[m];
    PairKeyInjective(v.exporterId, v.seasonId, row.exporterId, row.seasonId);
  }

  /** Every exporter with rows in a season is ranked in that season. */
  lemma RankingsCover(rows: seq<RankRow>)
    ensures forall row :: row in rows ==>
      exists x :: x in RankingsOf(rows) && x.exporterId == row.exporterId && x.seasonId == row.seasonId
  {
    var values, ss, all := RankingsShape(rows);
    forall row | row in rows
      ensures exists x :: x in RankingsOf(rows) && x.exporterId == row.exporterId && x.seasonId == row.seasonId
    {
      var m := RowEntry(rows, row);
      EntryRanked(values, values[m]);
    }
  }

  /** No exporter is ranked twice in one season. */
  lemma RankingsDistinctPairs(rows: seq<RankRow>)
    ensures DistinctBy(RankingsOf(rows), RankingPair)
  {
    var values, ss, all := RankingsShape(rows);
    var r := RankingsOf(rows);
    RankValuesDistinct(rows);
    RankingsDistinct(rows);
    forall i, j | 0 <= i < j < |r| ensures RankingPair(r[i]) != RankingPair(r[j]) {
      assert r[i] in all && r[j] in all;
      assert RankingSeasonRank(r[i]) != RankingSeasonRank(r[j]);
      SameSeasonPairsDiffer(values, r[i], r[j]);
    }
  }

  /** Two rankings of one season with different ranks come from entries of different exporters. */
  lemma SameSeasonPairsDiffer(values: seq<RankEntry>, x: ExporterRanking, y: ExporterRanking)
    requires DistinctBy(values, EntryPair)
    requires x in ConcatRankings(values, Keys(values, EntrySeason))
    requires y in ConcatRankings(values, Keys(values, EntrySeason))
    requires RankingSeasonRank(x) != RankingSeasonRank(y)
    ensures RankingPair(x) != RankingPair(y)
  {
    if x.seasonId == y.seasonId {
      var sorted := LocateRanking(values, x);
      var _ := LocateRanking(values, y);
      SeasonSortedDistinct(values, x.seasonId);
      RanksDiffer(sorted, x, y);
    }
  }

  lemma RanksDiffer(sorted: seq<RankEntry>, x: ExporterRanking, y: ExporterRanking)
    requires DistinctBy(sorted, EntryPair)
    requires 1 <= x.rank <= |sorted| && 1 <= y.rank <= |sorted| && x.rank != y.rank
    requires x == RankedAs(sorted[x.rank - 1], x.rank) && y == RankedAs(sorted[y.rank - 1], y.rank)
    ensures RankingPair(x) != RankingPair(y)
  {
    assert EntryPair(sorted[x.rank - 1]) != EntryPair(sorted[y.rank - 1]);
  }

  lemma SeasonSortedDistinct(values: seq<RankEntry>, seasonId: int)
    requires DistinctBy(values, EntryPair)
    ensures DistinctBy(SortBy(Where(values, EntrySeason, seasonId), KgDescending), EntryPair)
  {
    var g := Where(values, EntrySeason, seasonId);
    WhereDistinctBy(values, EntrySeason, seasonId, EntryPair);
    SortByPermutation(g, KgDescending);
    DistinctByPermutation(SortBy(g, KgDescending), g, EntryPair);
  }

  /** The exporters with at least one row in a season. */
  function SeasonExporters(rows: seq<RankRow>, seasonId: int): set<int> {
    set row | row in rows && row.seasonId == seasonId :: row.exporterId
  }

  function EntryExporter(e: RankEntry): int { e.exporterId }

  /** The entries of a season belong to distinct exporters. */
  lemma SeasonEntriesDistinct(rows: seq<RankRow>, seasonId: int)
    ensures DistinctBy(Where(RankValues(rows), EntrySeason, seasonId), EntryExporter)
  {
    var values := RankValues(rows);
    var g := Where(values, EntrySeason, seasonId);
    RankValuesDistinct(rows);
    WhereDistinctBy(values, EntrySeason, seasonId, EntryPair);
    WhereMembers(values, EntrySeason, seasonId);
    forall i, j | 0 <= i < j < |g| ensures EntryExporter(g[i]) != EntryExporter(g[j]) {
      assert g[i] in g && g[j] in g;
      assert EntryPair(g[i]) != EntryPair(g[j]);
    }
  }

  /** The exporters of a season's entries are the exporters with rows in that season. */
  lemma SeasonEntryExporters(rows: seq<RankRow>, seasonId: int)
    ensures KeySet(Where(RankValues(rows), EntrySeason, seasonId), EntryExporter) == SeasonExporters(rows, seasonId)
  {
    var values := RankValues(rows);
    var g := Where(values, EntrySeason, seasonId);
    WhereMembers(values, EntrySeason, seasonId);
    var ids := KeySet(g, EntryExporter);
    forall e | e in ids ensures e in SeasonExporters(rows, seasonId) {
      var x :| x in g && EntryExporter(x) == e;
      var m :| 0 <= m < |values| && values[m] == x;
      RankValueOf(rows, m);
      var w := Where(rows, RankKey, PairKey(x.exporterId, x.seasonId));
      RankGroupRows(rows, x.exporterId, x.seasonId);
      assert w[0] in w;
    }
    forall e | e in SeasonExporters(rows, seasonId) ensures e in ids {
      var row :| row in rows && row.seasonId == seasonId && row.exporterId == e;
      var m := RowEntry(rows, row);
      assert values[m] in values;
      assert values[m] in g;
    }
  }

  /** A season has one entry per exporter with rows in it: its ranks run from 1 to that count. */
  lemma SeasonSizeIsExporterCount(rows: seq<RankRow>, seasonId: int)
    ensures SeasonSize(rows, seasonId) == |SeasonExporters(rows, seasonId)|
  {
    var g := Where(RankValues(rows), EntrySeason, seasonId);
    SeasonEntriesDistinct(rows, seasonId);
    DistinctByKeyCount(g, EntryExporter);
    SeasonEntryExporters(rows, seasonId);
  }
}
