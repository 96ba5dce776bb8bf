/**
 * The POST handler of the exporters API: the filter record sent to the
 * database functions and the `hasFilters` test, the paged scans over the
 * filtered shipments, the accurate totals, the per-exporter aggregation and
 * its sort, and the global KPI record with its fallback constants,
 * year-over-year change and retention.
 *
 * The database is a table of shipments passed in; a scan's failure is a
 * `Fault` parameter; the results of the database functions for
 * year-over-year and retention are passed in as they arrive.
 */
module ExportersRoute {
  import opened Common
  import opened Strings
  import opened Grouping
  import opened Sorting

  /** The request body; every field is optional. */
  datatype Filters = Filters(
    seasonIds: Option<seq<int>>,
    exporterIds: Option<seq<int>>,
    speciesIds: Option<seq<int>>,
    varietyIds: Option<seq<int>>,
    marketIds: Option<seq<int>>,
    countryIds: Option<seq<int>>,
    regionIds: Option<seq<int>>,
    transportTypeIds: Option<seq<int>>,
    arrivalPortIds: Option<seq<int>>,
    weekFrom: Option<string>,
    weekTo: Option<string>)

  /** `filters.xIds && filters.xIds.length > 0` */
  predicate ListGiven(ids: Option<seq<int>>) {
    ids.Some? && |ids.value| > 0
  }

  /** A truthy week bound. */
  predicate WeekGiven(week: Option<string>) {
    week.Some? && week.value != ""
  }

  /** Some filter is set: a non-empty id list (arrival ports included) or a non-empty week bound. */
  predicate AnyFilter(f: Filters) {
    ListGiven(f.seasonIds) || ListGiven(f.exporterIds) || ListGiven(f.speciesIds) || ListGiven(f.varietyIds)
    || ListGiven(f.marketIds) || ListGiven(f.countryIds) || ListGiven(f.regionIds) || ListGiven(f.transportTypeIds)
    || ListGiven(f.arrivalPortIds) || WeekGiven(f.weekFrom) || WeekGiven(f.weekTo)
  }

  // ---------------------------------------------------------------------
  // buildFilterParams and hasFilters
  // ---------------------------------------------------------------------

  /** The record `buildFilterParams` returns: one optional `p_*` key per filter, `None` when the key is absent. */
  datatype FilterParams = FilterParams(
    pSeasonIds: Option<seq<int>>,
    pExporterIds: Option<seq<int>>,
    pSpeciesIds: Option<seq<int>>,
    pVarietyIds: Option<seq<int>>,
    pMarketIds: Option<seq<int>>,
    pCountryIds: Option<seq<int>>,
    pRegionIds: Option<seq<int>>,
    pTransportTypeIds: Option<seq<int>>,
    pArrivalPortIds: Option<seq<int>>,
    pWeekFrom: Option<string>,
    pWeekTo: Option<string>)

  const NoParams: FilterParams := FilterParams(None, None, None, None, None, None, None, None, None, None, None)

  /** A list key is set exactly when its filter list is non-empty, and then holds that list. */
  predicate ListKey(key: Option<seq<int>>, ids: Option<seq<int>>) {
    (key.Some? <==> ListGiven(ids)) && (key.Some? ==> key == ids)
  }

  /** A week key is set exactly when its bound is a non-empty string, and then holds it. */
  predicate WeekParamKey(key: Option<string>, week: Option<string>) {
    (key.Some? <==> WeekGiven(week)) && (key.Some? ==> key == week)
  }

  /** What `buildFilterParams` returns for `f`. */
  predicate ParamsOf(f: Filters, p: FilterParams) {
    ListKey(p.pSeasonIds, f.seasonIds) && ListKey(p.pExporterIds, f.exporterIds)
    && ListKey(p.pSpeciesIds, f.speciesIds) && ListKey(p.pVarietyIds, f.varietyIds)
    && ListKey(p.pMarketIds, f.marketIds) && ListKey(p.pCountryIds, f.countryIds)
    && ListKey(p.pRegionIds, f.regionIds) && ListKey(p.pTransportTypeIds, f.transportTypeIds)
    && ListKey(p.pArrivalPortIds, f.arrivalPortIds)
    && WeekParamKey(p.pWeekFrom, f.weekFrom) && WeekParamKey(p.pWeekTo, f.weekTo)
  }

  /** The first four assignments of `buildFilterParams`: seasons, exporters, species and varieties. */
  method SetFirstListParams(filters: Filters, start: FilterParams) returns (params: FilterParams)
    requires start.pSeasonIds.None?
    requires start.pExporterIds.None?
    requires start.pSpeciesIds.None?
    requires start.pVarietyIds.None?
    ensures ListKey(params.pSeasonIds, filters.seasonIds)
    ensures ListKey(params.pExporterIds, filters.exporterIds)
    ensures ListKey(params.pSpeciesIds, filters.speciesIds)
    ensures ListKey(params.pVarietyIds, filters.varietyIds)
    ensures params.pMarketIds == start.pMarketIds && params.pCountryIds == start.pCountryIds && params.pRegionIds == start.pRegionIds
    ensures params.pTransportTypeIds == start.pTransportTypeIds && params.pArrivalPortIds == start.pArrivalPortIds && params.pWeekFrom == start.pWeekFrom
    ensures params.pWeekTo == start.pWeekTo
  {
    params := start;
    if ListGiven(filters.seasonIds) { params := params.(pSeasonIds := filters.seasonIds); }
    if ListGiven(filters.exporterIds) { params := params.(pExporterIds := filters.exporterIds); }
    if ListGiven(filters.speciesIds) { params := params.(pSpeciesIds := filters.speciesIds); }
    if ListGiven(filters.varietyIds) { params := params.(pVarietyIds := filters.varietyIds); }
  }

  /** The next four assignments of `buildFilterParams`: markets, countries, regions and transport types. */
  method SetMiddleListParams(filters: Filters, start: FilterParams) returns (params: FilterParams)
    requires start.pMarketIds.None?
    requires start.pCountryIds.None?
    requires start.pRegionIds.None?
    requires start.pTransportTypeIds.None?
    ensures ListKey(params.pMarketIds, filters.marketIds)
    ensures ListKey(params.pCountryIds, filters.countryIds)
    ensures ListKey(params.pRegionIds, filters.regionIds)
    ensures ListKey(params.pTransportTypeIds, filters.transportTypeIds)
    ensures params.pSeasonIds == start.pSeasonIds && params.pExporterIds == start.pExporterIds && params.pSpeciesIds == start.pSpeciesIds
    ensures params.pVarietyIds == start.pVarietyIds && params.pArrivalPortIds == start.pArrivalPortIds && params.pWeekFrom == start.pWeekFrom
    ensures params.pWeekTo == start.pWeekTo
  {
    params := start;
    if ListGiven(filters.marketIds) { params := params.(pMarketIds := filters.marketIds); }
    if ListGiven(filters.countryIds) { params := params.(pCountryIds := filters.countryIds); }
    if ListGiven(filters.regionIds) { params := params.(pRegionIds := filters.regionIds); }
    if ListGiven(filters.transportTypeIds) { params := params.(pTransportTypeIds := filters.transportTypeIds); }
  }

  /** The last three assignments of `buildFilterParams`: arrival ports and the two week bounds. */
  method SetLastParams(filters: Filters, start: FilterParams) returns (params: FilterParams)
    requires start.pArrivalPortIds.None?
    requires start.pWeekFrom.None?
    requires start.pWeekTo.None?
    ensures ListKey(params.pArrivalPortIds, filters.arrivalPortIds)
    ensures WeekParamKey(params.pWeekFrom, filters.weekFrom)
    ensures WeekParamKey(params.pWeekTo, filters.weekTo)
    ensures params.pSeasonIds == start.pSeasonIds && params.pExporterIds == start.pExporterIds && params.pSpeciesIds == start.pSpeciesIds
    ensures params.pVarietyIds == start.pVarietyIds && params.pMarketIds == start.pMarketIds && params.pCountryIds == start.pCountryIds
    ensures params.pRegionIds == start.pRegionIds && params.pTransportTypeIds == start.pTransportTypeIds
  {
    params := start;
    if ListGiven(filters.arrivalPortIds) { params := params.(pArrivalPortIds := filters.arrivalPortIds); }
    if WeekGiven(filters.weekFrom) { params := params.(pWeekFrom := filters.weekFrom); }
    if WeekGiven(filters.weekTo) { params := params.(pWeekTo := filters.weekTo); }
  }

  /** `buildFilterParams()`: one conditional assignment per filter, on an empty record. */
  method BuildFilterParams(filters: Filters) returns (params: FilterParams)
    ensures ParamsOf(filters, params)
  {
    params := NoParams;
    params := SetFirstListParams(filters, params);
    params := SetMiddleListParams(filters, params);
    params := SetLastParams(filters, params);
  }

  /** `value && (Array.isArray(value) ? value.length > 0 : true)` for a list value. */
  predicate ListValuePresent(v: Option<seq<int>>) {
    v.Some? && |v.value| > 0
  }

  /** The same test for a string value: a non-empty string. */
  predicate StringValuePresent(v: Option<string>) {
    v.Some? && v.value != ""
  }

  /** `hasFilters`: some value of the record passes the test. */
  predicate HasFilters(p: FilterParams) {
    ListValuePresent(p.pSeasonIds) || ListValuePresent(p.pExporterIds) || ListValuePresent(p.pSpeciesIds)
    || ListValuePresent(p.pVarietyIds) || ListValuePresent(p.pMarketIds) || ListValuePresent(p.pCountryIds)
    || ListValuePresent(p.pRegionIds) || ListValuePresent(p.pTransportTypeIds) || ListValuePresent(p.pArrivalPortIds)
    || StringValuePresent(p.pWeekFrom) || StringValuePresent(p.pWeekTo)
  }

  /** `hasFilters` holds exactly when some filter is set; arrival ports alone are enough. */
  lemma HasFiltersMeaning(f: Filters, p: FilterParams)
    requires ParamsOf(f, p)
    ensures HasFilters(p) <==> AnyFilter(f)
    ensures ListGiven(f.arrivalPortIds) ==> HasFilters(p)
  {
  }

  /** With no filter set the record is empty. */
  lemma NoFiltersNoParams(f: Filters, p: FilterParams)
    requires ParamsOf(f, p)
    requires !AnyFilter(f)
    ensures p == NoParams
    ensures !HasFilters(p)
  {
  }

  /** The filter arguments every database call of the handler receives: `filterParams.p_x || null`. */
  datatype RpcFilterArgs = RpcFilterArgs(
    pSeasonIds: Option<seq<int>>,
    pExporterIds: Option<seq<int>>,
    pSpeciesIds: Option<seq<int>>,
    pVarietyIds: Option<seq<int>>,
    pMarketIds: Option<seq<int>>,
    pCountryIds: Option<seq<int>>,
    pRegionIds: Option<seq<int>>,
    pTransportTypeIds: Option<seq<int>>,
    pWeekFrom: Option<string>,
    pWeekTo: Option<string>)

  /** The arguments of the timeseries and tops calls. */
  function RpcArgsOf(p: FilterParams): (a: RpcFilterArgs)
    ensures a.pSeasonIds == p.pSeasonIds && a.pExporterIds == p.pExporterIds
    ensures a.pSpeciesIds == p.pSpeciesIds && a.pVarietyIds == p.pVarietyIds
    ensures a.pMarketIds == p.pMarketIds && a.pCountryIds == p.pCountryIds
    ensures a.pRegionIds == p.pRegionIds && a.pTransportTypeIds == p.pTransportTypeIds
    ensures a.pWeekFrom == p.pWeekFrom && a.pWeekTo == p.pWeekTo
  {
    RpcFilterArgs(p.pSeasonIds, p.pExporterIds, p.pSpeciesIds, p.pVarietyIds, p.pMarketIds,
      p.pCountryIds, p.pRegionIds, p.pTransportTypeIds, p.pWeekFrom, p.pWeekTo)
  }

  /** The arguments of the rankings call, which passes no exporter ids. */
  function RankingsArgsOf(p: FilterParams): (a: RpcFilterArgs)
    ensures a.pExporterIds.None?
    ensures a.pSeasonIds == p.pSeasonIds
    ensures a.pSpeciesIds == p.pSpeciesIds && a.pVarietyIds == p.pVarietyIds
    ensures a.pMarketIds == p.pMarketIds && a.pCountryIds == p.pCountryIds
    ensures a.pRegionIds == p.pRegionIds && a.pTransportTypeIds == p.pTransportTypeIds
    ensures a.pWeekFrom == p.pWeekFrom && a.pWeekTo == p.pWeekTo
  {
    RpcArgsOf(p).(pExporterIds := None)
  }

  /** No database call sees the arrival-port filter. */
  lemma ArrivalPortsNotForwarded(p: FilterParams, ports: Option<seq<int>>)
    ensures RpcArgsOf(p.(pArrivalPortIds := ports)) == RpcArgsOf(p)
    ensures RankingsArgsOf(p.(pArrivalPortIds := ports)) == RankingsArgsOf(p)
  {
  }

  // ---------------------------------------------------------------------
  // The direct query and its paged scan
  // ---------------------------------------------------------------------

  /** A row of `unified_shipments`, with the columns the handler reads or filters on. */
  datatype Shipment = Shipment(
    seasonId: Option<int>,
    exporterId: Option<int>,
    speciesId: Option<int>,
    varietyId: Option<int>,
    marketId: Option<int>,
    countryId: Option<int>,
    regionId: Option<int>,
    transportTypeId: Option<int>,
    arrivalPortId: Option<int>,
    importerId: Option<int>,
    etdWeek: Option<string>,
    kilograms: Option<int>,
    boxes: Option<int>)

  /** `.in(column, ids)` when the list is given: the column is not null and its value is listed. */
  predicate InList(column: Option<int>, ids: Option<seq<int>>) {
    !ListGiven(ids) || (column.Some? && column.value in ids.value)
  }

  /** `.gte('etd_week', weekFrom)` when the bound is given. */
  predicate WeekAtLeast(week: Option<string>, bound: Option<string>) {
    !WeekGiven(bound) || (week.Some? && LexLe(bound.value, week.value))
  }

  /** `.lte('etd_week', weekTo)` when the bound is given. */
  predicate WeekAtMost(week: Option<string>, bound: Option<string>) {
    !WeekGiven(bound) || (week.Some? && LexLe(week.value, bound.value))
  }

  /** The row predicate both direct queries build; it has no arrival-port condition. */
  predicate Matches(f: Filters, r: Shipment) {
    InList(r.seasonId, f.seasonIds) && InList(r.exporterId, f.exporterIds)
    && InList(r.speciesId, f.speciesIds) && InList(r.varietyId, f.varietyIds)
    && InList(r.marketId, f.marketIds) && InList(r.countryId, f.countryIds)
    && InList(r.regionId, f.regionIds) && InList(r.transportTypeId, f.transportTypeIds)
    && WeekAtLeast(r.etdWeek, f.weekFrom) && WeekAtMost(r.etdWeek, f.weekTo)
  }

  /** The rows the query selects, in table order. */
  function MatchingRows(f: Filters, table: seq<Shipment>): seq<Shipment> {
    Filter(table, RowFilter(f))
  }

  function RowFilter(f: Filters): Shipment -> bool {
    (r: Shipment) => Matches(f, r)
  }

  /** The query keeps exactly the rows that satisfy every given filter, whatever the arrival-port filter is. */
  lemma MatchingRowsMeaning(f: Filters, table: seq<Shipment>, ports: Option<seq<int>>)
    ensures forall r :: r in MatchingRows(f, table) <==> r in table && Matches(f, r)
    ensures MatchingRows(f.(arrivalPortIds := ports), table) == MatchingRows(f, table)
    ensures forall r :: Matches(f, r) <==> Matches(f, r.(arrivalPortId := None))
  {
    FilterMembers(table, RowFilter(f));
    FilterCongruent(table, RowFilter(f.(arrivalPortIds := ports)), RowFilter(f));
  }

  /** The rows requested per page: `rangeSize`. */
  const PageSize: nat := 1000

  /** How a scan goes wrong: not at all, an error response, or an exception, at the given request. */
  datatype Fault = NoFault | ErrorAt(request: nat) | ThrowAt(request: nat)

  /** The requests a scan of `n` rows issues when nothing fails: the last one returns a short or empty page. */
  function FullScanRequests(n: nat): nat {
    n / PageSize + 1
  }

  /** The request that fails, when the scan reaches it. */
  function FailingRequest(n: nat, fault: Fault): Option<nat> {
    match fault
    case NoFault => None
    case ErrorAt(k) => if k < FullScanRequests(n) then Some(k) else None
    case ThrowAt(k) => if k < FullScanRequests(n) then Some(k) else None
  }

  lemma PagesBefore(n: nat, k: nat)
    requires k < FullScanRequests(n)
    ensures PageSize * k <= n
  {
  }

  /** The rows a scan of `table` has collected when it stops. */
  function ScannedRows<R>(table: seq<R>, fault: Fault): (rows: seq<R>)
    ensures rows <= table
    ensures FailingRequest(|table|, fault).None? ==> rows == table
  {
    match FailingRequest(|table|, fault)
    case None => table
    case Some(k) =>
      PagesBefore(|table|, k);
      table[..PageSize * k]
  }

  /** The number of range requests a scan issues. */
  function ScanRequests(n: nat, fault: Fault): nat {
    match FailingRequest(n, fault)
    case None => FullScanRequests(n)
    case Some(k) => k + 1
  }

  /** The scan ends in an exception. */
  predicate ScanThrows(n: nat, fault: Fault) {
    FailingRequest(n, fault).Some? && fault.ThrowAt?
  }

  /** `query.range(from, from + rangeSize - 1)` on the query's rows. */
  function Range<R>(table: seq<R>, from: nat): (page: seq<R>)
    ensures |page| <= PageSize
  {
    if from >= |table| then []
    else if from + PageSize <= |table| then table[from..from + PageSize]
    else table[from..]
  }

  lemma PageCount(n: nat, q: nat)
    requires PageSize * q <= n < PageSize * q + PageSize
    ensures n / PageSize == q
  {
  }

  /**
   * The `while (hasMore)` loop: request a page, append it, and stop after an
   * empty, short or failed page. Without a failure it collects the whole table
   * with `|table| / 1000 + 1` requests; a failure at request `k` leaves the
   * first `k` full pages.
   */
  method PagedScan<R>(table: seq<R>, fault: Fault) returns (rows: seq<R>, requests: nat, threw: bool)
    ensures rows == ScannedRows(table, fault)
    ensures requests == ScanRequests(|table|, fault)
    ensures threw == ScanThrows(|table|, fault)
  {
    rows := [];
    requests := 0;
    threw := false;
    var from: nat := 0;
    var hasMore := true;
    while hasMore
      invariant hasMore ==> from == PageSize * requests
      invariant hasMore ==> from <= |table| && rows == table[..from] && !threw
      invariant hasMore ==> requests < FullScanRequests(|table|)
      invariant hasMore ==> FailingRequest(|table|, fault).None? || FailingRequest(|table|, fault).value >= requests
      invariant !hasMore ==> rows == ScannedRows(table, fault) && requests == ScanRequests(|table|, fault)
      invariant !hasMore ==> threw == ScanThrows(|table|, fault)
      decreases if hasMore then |table| + 1 - from else 0
    {
      if fault == ThrowAt(requests) {
        PagesBefore(|table|, requests);
        threw := true;
        requests := requests + 1;
        hasMore := false;
      } else {
        var response: Option<seq<R>> := if fault == ErrorAt(requests) then None else Some(Range(table, from));
        if response.Some? && |response.value| > 0 {
          var page := response.value;
          assert table[..from + |page|] == rows + page;
          rows := rows + page;
          if |page| < PageSize {
            PageCount(|table|, requests);
            hasMore := false;
          } else {
            PageCount(from + PageSize, requests + 1);
          }
          from := from + PageSize;
        } else {
          if response.Some? {
            PageCount(|table|, requests);
          }
          hasMore := false;
        }
        requests := requests + 1;
      }
    }
  }

  // ---------------------------------------------------------------------
  // Accurate totals
  // ---------------------------------------------------------------------

  function KilogramsOf(r: Shipment): int { OrZero(r.kilograms) }
  function BoxesOf(r: Shipment): int { OrZero(r.boxes) }
  function ExporterIdOf(r: Shipment): Option<int> { r.exporterId }
  function ImporterIdOf(r: Shipment): Option<int> { r.importerId }
  function VarietyIdOf(r: Shipment): Option<int> { r.varietyId }
  function CountryIdOf(r: Shipment): Option<int> { r.countryId }

  /** `accurateTotals` */
  datatype Totals = Totals(
    totalKilograms: int,
    totalBoxes: int,
    uniqueImporters: nat,
    uniqueVarieties: nat,
    uniqueExporters: nat,
    uniqueCountries: nat)

  /** The totals over the scanned rows, or nothing when there are none. */
  function AccurateTotals(rows: seq<Shipment>): (t: Option<Totals>)
    ensures t.None? <==> rows == []
  {
    if rows == [] then None
    else
      Some(Totals(SumOf(rows, KilogramsOf), SumOf(rows, BoxesOf),
        |TruthyIds(rows, ImporterIdOf)|, |TruthyIds(rows, VarietyIdOf)|,
        |TruthyIds(rows, ExporterIdOf)|, |TruthyIds(rows, CountryIdOf)|))
  }

  /** The non-zero ids carried by some row: what `new Set(rows.map(f).filter(Boolean))` holds. */
  ghost predicate DistinctTruthy(rows: seq<Shipment>, id: Shipment -> Option<int>, ids: set<int>) {
    forall k :: k in ids <==> k != 0 && exists i :: 0 <= i < |rows| && id(rows[i]) == Some(k)
  }

  /**
   * The totals sum kilograms and boxes with a missing value counted as 0, and
   * each unique count is the number of distinct non-zero ids, at most one per row.
   */
  lemma AccurateTotalsMeaning(rows: seq<Shipment>)
    requires rows != []
    ensures AccurateTotals(rows).value.totalKilograms == SumOf(rows, KilogramsOf)
    ensures AccurateTotals(rows).value.totalBoxes == SumOf(rows, BoxesOf)
    ensures DistinctTruthy(rows, ImporterIdOf, TruthyIds(rows, ImporterIdOf))
    ensures DistinctTruthy(rows, VarietyIdOf, TruthyIds(rows, VarietyIdOf))
    ensures DistinctTruthy(rows, ExporterIdOf, TruthyIds(rows, ExporterIdOf))
    ensures DistinctTruthy(rows, CountryIdOf, TruthyIds(rows, CountryIdOf))
    ensures AccurateTotals(rows).value.uniqueImporters <= |rows| && AccurateTotals(rows).value.uniqueVarieties <= |rows|
    ensures AccurateTotals(rows).value.uniqueExporters <= |rows| && AccurateTotals(rows).value.uniqueCountries <= |rows|
  {
    TruthyIdsMembers(rows, ImporterIdOf);
    TruthyIdsMembers(rows, VarietyIdOf);
    TruthyIdsMembers(rows, ExporterIdOf);
    TruthyIdsMembers(rows, CountryIdOf);
    TruthyIdsBound(rows, ImporterIdOf);
    TruthyIdsBound(rows, VarietyIdOf);
    TruthyIdsBound(rows, ExporterIdOf);
    TruthyIdsBound(rows, CountryIdOf);
  }

  // ---------------------------------------------------------------------
  // exportersMap and the exporter KPI list
  // ---------------------------------------------------------------------

  /** An entry of `exportersMap` while rows are added. */
  datatype ExporterAcc = ExporterAcc(kilograms: int, boxes: int, importers: set<int>, varieties: set<int>)

  const EmptyAcc: ExporterAcc := ExporterAcc(0, 0, {}, {})

  /** What one row adds to its exporter's entry. */
  function AddRow(a: ExporterAcc, r: Shipment): ExporterAcc {
    ExporterAcc(a.kilograms + OrZero(r.kilograms), a.boxes + OrZero(r.boxes),
      a.importers + (if Truthy(r.importerId) then {r.importerId.value} else {}),
      a.varieties + (if Truthy(r.varietyId) then {r.varietyId.value} else {}))
  }

  /** The entry of exporter `k` after the rows `s`: sums and distinct truthy ids over that exporter's rows. */
  function AccOf(s: seq<Shipment>, k: Option<int>): ExporterAcc {
    var g := Where(s, ExporterIdOf, k);
    ExporterAcc(SumOf(g, KilogramsOf), SumOf(g, BoxesOf), TruthyIds(g, ImporterIdOf), TruthyIds(g, VarietyIdOf))
  }

  lemma AccOfSnoc(s: seq<Shipment>, x: Shipment, k: Option<int>)
    ensures AccOf(s + [x], k) == if x.exporterId == k then AddRow(AccOf(s, k), x) else AccOf(s, k)
  {
    WhereSnoc(s, x, ExporterIdOf, k);
    if x.exporterId == k {
      var g := Where(s, ExporterIdOf, k);
      SumOfSnoc(g, x, KilogramsOf);
      SumOfSnoc(g, x, BoxesOf);
      TruthyIdsSnoc(g, x, ImporterIdOf);
      TruthyIdsSnoc(g, x, VarietyIdOf);
    }
  }

  lemma AccOfAbsent(s: seq<Shipment>, k: Option<int>)
    requires k !in Keys(s, ExporterIdOf)
    ensures AccOf(s, k) == EmptyAcc
  {
    WhereOfAbsentKey(s, ExporterIdOf, k);
  }

  /** An element of `exporters`; the year-over-year and retention fields are always null. */
  datatype ExporterKpi = ExporterKpi(
    exporterId: Option<int>,
    exporterName: string,
    kilograms: int,
    boxes: int,
    kgPerBox: Option<real>,
    yoyKg: Option<real>,
    yoyBoxes: Option<real>,
    importersActive: nat,
    importersRetention: Option<real>,
    varietiesActive: nat)

  /** `` `Exporter ${exporterId}` `` */
  function ExporterName(id: Option<int>): string {
    "Exporter " + (match id case Some(v) => IntToString(v) case None => "null")
  }

  /** `kgPerBox` is null exactly when the boxes are not positive, and otherwise the kilograms per box. */
  predicate KgPerBoxConsistent(e: ExporterKpi) {
    (e.kgPerBox.None? <==> e.boxes <= 0)
    && (e.kgPerBox.Some? ==> e.kgPerBox.value * (e.boxes as real) == e.kilograms as real)
  }

  /** The KPI record of one map entry. */
  function ToKpi(id: Option<int>, a: ExporterAcc): (e: ExporterKpi)
    ensures e.exporterId == id && e.kilograms == a.kilograms && e.boxes == a.boxes
    ensures KgPerBoxConsistent(e)
    ensures e.importersActive == |a.importers| && e.varietiesActive == |a.varieties|
  {
    ExporterKpi(id, ExporterName(id), a.kilograms, a.boxes,
      if a.boxes > 0 then Some(a.kilograms as real / a.boxes as real) else None,
      None, None, |a.importers|, None, |a.varieties|)
  }

  /** The comparator `(a, b) => b.kilograms - a.kilograms`, as "a may precede b". */
  function KilogramsDescending(a: ExporterKpi, b: ExporterKpi): bool {
    b.kilograms - a.kilograms <= 0
  }

  function KpiKilogramsOf(e: ExporterKpi): int { e.kilograms }
  function KpiBoxesOf(e: ExporterKpi): int { e.boxes }

  /** `Array.from(exportersMap.values()).map(...)`: one record per exporter, in order of first appearance. */
  function UnsortedExporters(rows: seq<Shipment>): seq<ExporterKpi> {
    var ks := Keys(rows, ExporterIdOf);
    seq(|ks|, i requires 0 <= i < |ks| => ToKpi(ks[i], AccOf(rows, ks[i])))
  }

  /** `exporters` after the sort. */
  function ExporterKpis(rows: seq<Shipment>): seq<ExporterKpi> {
    SortBy(UnsortedExporters(rows), KilogramsDescending)
  }

  /** The `forEach` that fills `exportersMap`, the conversion to records and the in-place sort. */
  method AggregateExporters(rows: seq<Shipment>) returns (exporters: seq<ExporterKpi>)
    ensures exporters == ExporterKpis(rows)
  {
    var keys, entries := FillExportersMap(rows);
    var unsorted := seq(|keys|, j requires 0 <= j < |keys| && keys[j] in entries => ToKpi(keys[j], entries[keys[j]]));
    assert unsorted == UnsortedExporters(rows);
    exporters := SortSeq(unsorted, KilogramsDescending);
  }

  /** `exportersMap` after the `forEach`: its keys in insertion order and each exporter's accumulated entry. */
  method FillExportersMap(rows: seq<Shipment>) returns (keys: seq<Option<int>>, entries: map<Option<int>, ExporterAcc>)
    ensures keys == Keys(rows, ExporterIdOf)
    ensures forall k :: k in entries <==> k in keys
    ensures forall j :: 0 <= j < |keys| ==> keys[j] in entries && entries[keys[j]] == AccOf(rows, keys[j])
  {
    keys := [];
    entries := map[];
    var i := 0;
    while i < |rows|
      invariant 0 <= i <= |rows|
      invariant keys == Keys(rows[..i], ExporterIdOf)
      invariant forall k :: k in entries <==> k in keys
      invariant forall k :: k in keys ==> entries[k] == AccOf(rows[..i], k)
    {
      var row := rows[i];
      var id := row.exporterId;
      assert rows[..i + 1] == rows[..i] + [row];
      KeysSnoc(rows[..i], row, ExporterIdOf);
      AccOfStep(rows[..i], row);
      if id !in entries {
        AccOfAbsent(rows[..i], id);
        entries := entries[id := EmptyAcc];
        keys := keys + [id];
      }
      entries := entries[id := AddRow(entries[id], row)];
      i := i + 1;
    }
    assert rows[..i] == rows;
    forall j | 0 <= j < |keys| ensures keys[j] in entries && entries[keys[j]] == AccOf(rows, keys[j]) {
      var k := keys[j];
      assert k in keys;
    }
  }

  lemma AccOfStep(rows: seq<Shipment>, row: Shipment)
    ensures forall k :: AccOf(rows + [row], k) == if row.exporterId == k then AddRow(AccOf(rows, k), row) else AccOf(rows, k)
  {
    forall k ensures AccOf(rows + [row], k) == if row.exporterId == k then AddRow(AccOf(rows, k), row) else AccOf(rows, k) {
      AccOfSnoc(rows, row, k);
    }
  }

  lemma KilogramsDescendingPreorder()
    ensures TotalPreorder(KilogramsDescending)
  {
  }

  /** After the sort the kilograms never increase along the list. */
  lemma ExporterKpisSorted(rows: seq<Shipment>)
    ensures forall i, j :: 0 <= i < j < |ExporterKpis(rows)| ==> ExporterKpis(rows)[i].kilograms >= ExporterKpis(rows)[j].kilograms
  {
    KilogramsDescendingPreorder();
    SortBySorted(UnsortedExporters(rows), KilogramsDescending);
  }

  /**
   * There is one record per distinct exporter id of the rows, and each record
   * holds exactly the sums and distinct counts of that exporter's rows.
   */
  lemma ExporterKpisEntries(rows: seq<Shipment>)
    ensures |ExporterKpis(rows)| == |Keys(rows, ExporterIdOf)|
    ensures forall e :: e in ExporterKpis(rows) ==>
      e.exporterId in Keys(rows, ExporterIdOf) && e == ToKpi(e.exporterId, AccOf(rows, e.exporterId))
    ensures forall k :: k in Keys(rows, ExporterIdOf) ==> ToKpi(k, AccOf(rows, k)) in ExporterKpis(rows)
  {
    var u := UnsortedExporters(rows);
    var ks := Keys(rows, ExporterIdOf);
    var sorted := ExporterKpis(rows);
    SortByPermutation(u, KilogramsDescending);
    SortByMembers(u, KilogramsDescending);
    forall e | e in sorted
      ensures e.exporterId in ks && e == ToKpi(e.exporterId, AccOf(rows, e.exporterId))
    {
      assert e in u;
      var i :| 0 <= i < |u| && u[i] == e;
      assert e == ToKpi(ks[i], AccOf(rows, ks[i]));
    }
    forall k | k in ks ensures ToKpi(k, AccOf(rows, k)) in sorted {
      var i :| 0 <= i < |ks| && ks[i] == k;
      assert u[i] == ToKpi(k, AccOf(rows, k));
      assert u[i] in u;
    }
  }

  /** Every row lands in exactly one record: the records' kilograms and boxes add up to the rows' sums. */
  lemma ExporterKpisTotals(rows: seq<Shipment>)
    ensures SumOf(ExporterKpis(rows), KpiKilogramsOf) == SumOf(rows, KilogramsOf)
    ensures SumOf(ExporterKpis(rows), KpiBoxesOf) == SumOf(rows, BoxesOf)
  {
    var u := UnsortedExporters(rows);
    var ks := Keys(rows, ExporterIdOf);
    SortByPermutation(u, KilogramsDescending);
    SumOfPermutation(ExporterKpis(rows), u, KpiKilogramsOf);
    SumOfPermutation(ExporterKpis(rows), u, KpiBoxesOf);
    SumOfPointwise(u, KpiKilogramsOf, ks, k => GroupSum(rows, ExporterIdOf, KilogramsOf, k));
    SumOfPointwise(u, KpiBoxesOf, ks, k => GroupSum(rows, ExporterIdOf, BoxesOf, k));
    GroupTotalAsSum(rows, ExporterIdOf, ks, KilogramsOf);
    GroupTotalAsSum(rows, ExporterIdOf, ks, BoxesOf);
    KeysPartitionSum(rows, ExporterIdOf, KilogramsOf);
    KeysPartitionSum(rows, ExporterIdOf, BoxesOf);
  }

  /** A record's kilograms per box is null exactly when its boxes are not positive. */
  lemma ExporterKpisRatio(rows: seq<Shipment>)
    ensures forall e :: e in ExporterKpis(rows) ==> KgPerBoxConsistent(e)
  {
    var u := UnsortedExporters(rows);
    SortByMembers(u, KilogramsDescending);
    assert forall i :: 0 <= i < |u| ==> KgPerBoxConsistent(u[i]);
  }

  // ---------------------------------------------------------------------
  // The global KPI record
  // ---------------------------------------------------------------------

  /** A row of `get_exporter_yoy_growth`. */
  datatype YoyRow = YoyRow(
    currentKilograms: Option<int>,
    previousKilograms: Option<int>,
    currentBoxes: Option<int>,
    previousBoxes: Option<int>)

  datatype YoyTotals = YoyTotals(currentKg: int, previousKg: int, currentBoxes: int, previousBoxes: int)

  function CurrentKgOf(r: YoyRow): int { OrZero(r.currentKilograms) }
  function PreviousKgOf(r: YoyRow): int { OrZero(r.previousKilograms) }
  function CurrentBoxesOf(r: YoyRow): int { OrZero(r.currentBoxes) }
  function PreviousBoxesOf(r: YoyRow): int { OrZero(r.previousBoxes) }

  /** `globalYoy`: the sums of the year-over-year rows, when there are any. */
  function GlobalYoy(data: Option<seq<YoyRow>>): (t: Option<YoyTotals>)
    ensures t.Some? <==> data.Some? && |data.value| > 0
    ensures t.Some? ==> t.value.previousKg == SumOf(data.value, PreviousKgOf) && t.value.currentKg == SumOf(data.value, CurrentKgOf)
    ensures t.Some? ==> t.value.previousBoxes == SumOf(data.value, PreviousBoxesOf) && t.value.currentBoxes == SumOf(data.value, CurrentBoxesOf)
  {
    if data.Some? && |data.value| > 0 then
      Some(YoyTotals(SumOf(data.value, CurrentKgOf), SumOf(data.value, PreviousKgOf),
        SumOf(data.value, CurrentBoxesOf), SumOf(data.value, PreviousBoxesOf)))
    else None
  }

  /** `previous > 0 ? ((current - previous) / previous) * 100 : null` */
  function YoyChange(current: int, previous: int): (r: Option<real>)
    ensures r.None? <==> previous <= 0
    ensures r.Some? ==> r.value * (previous as real) == ((current - previous) as real) * 100.0
  {
    if previous > 0 then Some(((current - previous) as real / previous as real) * 100.0) else None
  }

  /** A positive change means growth, zero means none, a negative one a fall. */
  lemma YoyChangeSign(current: int, previous: int)
    requires previous > 0
    ensures YoyChange(current, previous).value > 0.0 <==> current > previous
    ensures YoyChange(current, previous).value == 0.0 <==> current == previous
  {
    var r := YoyChange(current, previous).value;
    var p := previous as real;
    assert r * p == ((current - previous) as real) * 100.0;
    if r > 0.0 {
      assert r * p > 0.0;
    } else if r < 0.0 {
      assert r * p < 0.0;
    }
  }

  /** `row.retention_rate || 0` */
  function RateOf(rate: Option<real>): real {
    match rate
    case Some(v) => v
    case None => 0.0
  }

  function RateSum(rates: seq<Option<real>>): real {
    if rates == [] then 0.0 else RateSum(rates[..|rates| - 1]) + RateOf(rates[|rates| - 1])
  }

  /** `importersRetention`: the mean retention rate, or null without rows. */
  function Retention(data: Option<seq<Option<real>>>): (r: Option<real>)
    ensures r.Some? <==> data.Some? && |data.value| > 0
    ensures r.Some? ==> r.value * (|data.value| as real) == RateSum(data.value)
  {
    if data.Some? && |data.value| > 0 then Some(RateSum(data.value) / (|data.value| as real)) else None
  }

  lemma {:induction false} RateSumBounds(rates: seq<Option<real>>, lo: real, hi: real)
    requires forall i :: 0 <= i < |rates| ==> lo <= RateOf(rates[i]) <= hi
    ensures (|rates| as real) * lo <= RateSum(rates) <= (|rates| as real) * hi
    decreases |rates|
  {
    if rates != [] {
      RateSumBounds(rates[..|rates| - 1], lo, hi);
    }
  }

  /** The mean lies between the smallest and the largest rate. */
  lemma RetentionBounds(data: seq<Option<real>>, lo: real, hi: real)
    requires |data| > 0
    requires forall i :: 0 <= i < |data| ==> lo <= RateOf(data[i]) <= hi
    ensures lo <= Retention(Some(data)).value <= hi
  {
    RateSumBounds(data, lo, hi);
    var n := |data| as real;
    var m := Retention(Some(data)).value;
    assert m * n == RateSum(data);
  }

  /**
   * The seasons of the year-over-year and retention calls: the largest season
   * id as current and the smallest as previous, when at least two are given.
   */
  function YoySeasons(f: Filters): (r: Option<(int, int)>)
    ensures r.Some? <==> f.seasonIds.Some? && |f.seasonIds.value| >= 2
    ensures r.Some? ==> r.value.0 in f.seasonIds.value && r.value.1 in f.seasonIds.value
    ensures r.Some? ==> forall i :: 0 <= i < |f.seasonIds.value| ==> r.value.1 <= f.seasonIds.value[i] <= r.value.0
  {
    if f.seasonIds.Some? && |f.seasonIds.value| >= 2 then Some((Max(f.seasonIds.value), Min(f.seasonIds.value))) else None
  }

  const FallbackKilograms: int := 35549711
  const FallbackBoxes: int := 70799042
  const FallbackImporters: int := 4382
  const FallbackVarieties: int := 1500
  const FallbackCoverage: int := 107

  /** `accurateTotals?.x || fallback` */
  function OrFallback(t: Option<Totals>, field: Totals -> int, fallback: int): int {
    if t.Some? && field(t.value) != 0 then field(t.value) else fallback
  }

  function TotalKilogramsOf(t: Totals): int { t.totalKilograms }
  function TotalBoxesOf(t: Totals): int { t.totalBoxes }
  function UniqueImportersOf(t: Totals): int { t.uniqueImporters }
  function UniqueVarietiesOf(t: Totals): int { t.uniqueVarieties }
  function UniqueCountriesOf(t: Totals): int { t.uniqueCountries }

  /** `global` */
  datatype GlobalKpi = GlobalKpi(
    kilograms: int,
    boxes: int,
    kgPerBox: Option<real>,
    yoyKg: Option<real>,
    yoyBoxes: Option<real>,
    importersActive: int,
    importersRetention: Option<real>,
    varietiesActive: int,
    marketCoverage: int)

  /** The global record from the accurate totals, the exporter list and the two database results. */
  function GlobalKpis(accurate: Option<Totals>, exporters: seq<ExporterKpi>, yoy: Option<seq<YoyRow>>,
                      retention: Option<seq<Option<real>>>): GlobalKpi
  {
    var y := GlobalYoy(yoy);
    var kg := SumOf(exporters, KpiKilogramsOf);
    var boxes := SumOf(exporters, KpiBoxesOf);
    GlobalKpi(
      OrFallback(accurate, TotalKilogramsOf, FallbackKilograms),
      OrFallback(accurate, TotalBoxesOf, FallbackBoxes),
      if accurate.Some? && accurate.value.totalBoxes > 0
      then Some(accurate.value.totalKilograms as real / accurate.value.totalBoxes as real)
      else if boxes > 0 then Some(kg as real / boxes as real)
      else None,
      if y.Some? then YoyChange(y.value.currentKg, y.value.previousKg) else None,
      if y.Some? then YoyChange(y.value.currentBoxes, y.value.previousBoxes) else None,
      OrFallback(accurate, UniqueImportersOf, FallbackImporters),
      Retention(retention),
      OrFallback(accurate, UniqueVarietiesOf, FallbackVarieties),
      OrFallback(accurate, UniqueCountriesOf, FallbackCoverage))
  }

  /**
   * Without accurate totals every count is its fallback constant; with them, a
   * total of 0 is replaced by the same constant and any other total is kept.
   */
  lemma GlobalFallbacks(accurate: Option<Totals>, exporters: seq<ExporterKpi>, yoy: Option<seq<YoyRow>>,
                        retention: Option<seq<Option<real>>>)
    ensures var g := GlobalKpis(accurate, exporters, yoy, retention);
      accurate.None? ==>
        g.kilograms == 35549711 && g.boxes == 70799042 && g.importersActive == 4382
        && g.varietiesActive == 1500 && g.marketCoverage == 107
    ensures var g := GlobalKpis(accurate, exporters, yoy, retention);
      accurate.Some? ==>
        g.kilograms == (if accurate.value.totalKilograms == 0 then 35549711 else accurate.value.totalKilograms)
        && g.boxes == (if accurate.value.totalBoxes == 0 then 70799042 else accurate.value.totalBoxes)
        && g.importersActive == (if accurate.value.uniqueImporters == 0 then 4382 else accurate.value.uniqueImporters)
        && g.varietiesActive == (if accurate.value.uniqueVarieties == 0 then 1500 else accurate.value.uniqueVarieties)
        && g.marketCoverage == (if accurate.value.uniqueCountries == 0 then 107 else accurate.value.uniqueCountries)
    ensures var g := GlobalKpis(accurate, exporters, yoy, retention);
      accurate.None? && exporters == [] ==> g.kgPerBox.None?
  {
  }

  /**
   * The year-over-year fields are null unless there are previous-season
   * kilograms (boxes), and then the percentage change of the summed rows.
   */
  lemma GlobalYoyMeaning(accurate: Option<Totals>, exporters: seq<ExporterKpi>, yoy: Option<seq<YoyRow>>,
                         retention: Option<seq<Option<real>>>)
    ensures var g := GlobalKpis(accurate, exporters, yoy, retention);
      g.yoyKg.Some? <==> yoy.Some? && |yoy.value| > 0 && SumOf(yoy.value, PreviousKgOf) > 0
    ensures var g := GlobalKpis(accurate, exporters, yoy, retention);
      g.yoyKg.Some? ==>
        g.yoyKg.value * (SumOf(yoy.value, PreviousKgOf) as real)
        == ((SumOf(yoy.value, CurrentKgOf) - SumOf(yoy.value, PreviousKgOf)) as real) * 100.0
    ensures var g := GlobalKpis(accurate, exporters, yoy, retention);
      g.yoyBoxes.Some? <==> yoy.Some? && |yoy.value| > 0 && SumOf(yoy.value, PreviousBoxesOf) > 0
    ensures var g := GlobalKpis(accurate, exporters, yoy, retention);
      g.importersRetention.None? <==> retention.None? || |retention.value| == 0
  {
  }

  // ---------------------------------------------------------------------
  // The handler
  // ---------------------------------------------------------------------

  datatype Kpis = Kpis(global: GlobalKpi, exporters: seq<ExporterKpi>)

  /** The accurate totals: the first scan's totals, or nothing when it throws. */
  function TotalsAfterScan(table: seq<Shipment>, fault: Fault): Option<Totals> {
    if ScanThrows(|table|, fault) then None else AccurateTotals(ScannedRows(table, fault))
  }

  /**
   * The KPI part of the handler's reply. `totalsFault` and `exportersFault`
   * say how the two scans go; `yoyData` and `retentionData` are what the two
   * database functions return when they are called. Without filters there
   * are no exporters and the global record is made of the fallback constants.
   */
  method ExportersKpis(filters: Filters, table: seq<Shipment>, totalsFault: Fault, exportersFault: Fault,
                       yoyData: Option<seq<YoyRow>>, retentionData: Option<seq<Option<real>>>) returns (kpis: Kpis)
    ensures var rows := MatchingRows(filters, table);
      kpis.exporters == if AnyFilter(filters) then ExporterKpis(ScannedRows(rows, exportersFault)) else []
    ensures var rows := MatchingRows(filters, table);
      var accurate := if AnyFilter(filters) then TotalsAfterScan(rows, totalsFault) else None;
      var asked := YoySeasons(filters).Some?;
      kpis.global == GlobalKpis(accurate, kpis.exporters, if asked then yoyData else None, if asked then retentionData else None)
    ensures !AnyFilter(filters) ==>
      kpis.exporters == [] && kpis.global.kilograms == FallbackKilograms && kpis.global.boxes == FallbackBoxes
      && kpis.global.kgPerBox.None? && kpis.global.importersActive == FallbackImporters
      && kpis.global.varietiesActive == FallbackVarieties && kpis.global.marketCoverage == FallbackCoverage
  {
    var filterParams := BuildFilterParams(filters);
    HasFiltersMeaning(filters, filterParams);
    var hasFilters := HasFilters(filterParams);
    var rows := MatchingRows(filters, table);

    var accurateTotals: Option<Totals> := None;
    if hasFilters {
      var allData, _, threw := PagedScan(rows, totalsFault);
      if !threw {
        accurateTotals := AccurateTotals(allData);
      }
    }

    var asked := YoySeasons(filters).Some?;
    var yoyResponse := if asked then yoyData else None;
    var retentionResponse := if asked then retentionData else None;

    var allExportersData: seq<Shipment> := [];
    if hasFilters {
      var scanned, _, _ := PagedScan(rows, exportersFault);
      allExportersData := scanned;
    }
    var exporters := AggregateExporters(allExportersData);
    assert !hasFilters ==> exporters == [] by {
      assert Keys([], ExporterIdOf) == [];
    }
    kpis := Kpis(GlobalKpis(accurateTotals, exporters, yoyResponse, retentionResponse), exporters);
  }
}
