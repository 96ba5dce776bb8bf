/**
 * The plan executor of the AI assistant: `execPlan` sends a plan to the
 * executor of its intent, every executor turns a failed or rejected database
 * call into an error result instead of throwing, and `execSearch` looks an
 * exporter up by name and summarises its shipments.
 *
 * The database is passed in as the replies it gives: an RPC call by name and
 * arguments, the exporter lookup by search term, the shipments of a list of
 * exporter ids and the names of a list of ids held in a table.
 */
module Executors {
  import opened Common
  import opened Strings
  import opened Grouping
  import opened Sorting

  // ---------------------------------------------------------------------
  // Plans and results
  // ---------------------------------------------------------------------

  /** The filters an executor reads from a plan (`filters?.seasonIds`, ...). */
  datatype PlanFilters = PlanFilters(
    seasonIds: Option<seq<int>>,
    exporterIds: Option<seq<int>>,
    speciesIds: Option<seq<int>>,
    varietyIds: Option<seq<int>>,
    marketIds: Option<seq<int>>,
    countryIds: Option<seq<int>>,
    regionIds: Option<seq<int>>,
    transportTypeIds: Option<seq<int>>,
    weekFrom: Option<string>,
    weekTo: Option<string>)

  /** `{}` as a plan's filters. */
  const NoFilters := PlanFilters(None, None, None, None, None, None, None, None, None, None)

  /** The parameters of a plan. */
  datatype PlanParams = PlanParams(
    metric: Option<string>,
    topN: Option<int>,
    topType: Option<string>,
    granularity: Option<string>,
    searchTerm: Option<string>)

  /** A plan `{ intent, filters, params }`; `filters` and `params` may be missing. */
  datatype Plan = Plan(intent: string, filters: Option<PlanFilters>, params: Option<PlanParams>)

  /** The arguments of an RPC call: `p_top_type` and the `p_*` filter arguments. */
  datatype RpcArgs = RpcArgs(
    topType: Option<string>,
    seasonIds: Option<seq<int>>,
    exporterIds: Option<seq<int>>,
    speciesIds: Option<seq<int>>,
    varietyIds: Option<seq<int>>,
    marketIds: Option<seq<int>>,
    countryIds: Option<seq<int>>,
    regionIds: Option<seq<int>>,
    transportTypeIds: Option<seq<int>>,
    weekFrom: Option<string>,
    weekTo: Option<string>)

  /** A row an RPC function returns, kept as its serialised text. */
  datatype RpcRow = RpcRow(json: string)

  /** A row of `exporters` found by name. */
  datatype ExporterMatch = ExporterMatch(id: int, name: Option<string>)

  /** The columns of `unified_shipments_mv` that `execSearch` reads. */
  datatype Shipment = Shipment(
    exporterId: Option<int>,
    seasonId: Option<int>,
    marketId: Option<int>,
    speciesId: Option<int>,
    etdWeek: Option<string>,
    kilograms: Option<int>,
    boxes: Option<int>)

  /** An `{ id, name }` row of `seasons`, `markets` or `species`. */
  datatype NamedId = NamedId(id: int, name: Option<string>)

  /**
   * The database as the replies of its calls: `rpc(name, args)` (no
   * arguments is `None`), the exporters whose name contains a term (at most
   * five), the shipments of some exporters and the names of some ids of a
   * table. `Threw` is a call whose promise is rejected.
   */
  datatype Database = Database(
    rpc: (string, Option<RpcArgs>) -> Outcome<Reply<RpcRow>>,
    exportersNamed: string -> Outcome<Reply<ExporterMatch>>,
    shipmentsOf: seq<int> -> Outcome<Reply<Shipment>>,
    namesOf: (string, seq<Option<int>>) -> Outcome<Reply<NamedId>>)

  datatype Totals = Totals(kilograms: int, boxes: int)

  /** One `name: { kilograms, boxes }` member of `by_species` or `by_market`. */
  datatype Group = Group(name: string, totals: Totals)

  datatype Summary = Summary(
    totalKilograms: int,
    totalBoxes: int,
    seasons: seq<string>,
    marketsCount: nat,
    speciesCount: nat,
    weeks: seq<Option<string>>)

  /** The `data` of a successful search. */
  datatype SearchResult = SearchResult(
    exporter: ExporterMatch,
    summary: Summary,
    bySpecies: seq<Group>,
    byMarket: seq<Group>,
    shipments: seq<Shipment>)

  /** A result's `data`: the rows of a query (`[]` when there are none), or the search summary. */
  datatype ResultData = Rows(rows: seq<RpcRow>) | Found(search: SearchResult)

  /**
   * `{ kind, data, params }`, with `message` on the searches that found
   * nothing, or `{ kind: 'error', data: [], error }`.
   */
  datatype ExecResult =
    | Done(kind: string, data: ResultData, params: Option<PlanParams>, message: Option<string>)
    | Failed(error: string)
  {
    function Kind(): string {
      if Failed? then "error" else kind
    }

    function Data(): ResultData {
      if Failed? then Rows([]) else data
    }
  }

  const Intents: seq<string> := ["kpis", "timeseries", "tops", "rankings", "search"]

  // ---------------------------------------------------------------------
  // The RPC executors and the dispatch
  // ---------------------------------------------------------------------

  /** `x || null` on a string: the empty string is falsy. */
  function NonEmptyOrNull(s: Option<string>): (r: Option<string>)
    ensures r.Some? <==> s.Some? && s.value != ""
    ensures r.Some? ==> r == s
  {
    if s == Some("") then None else s
  }

  /**
   * The `p_*` arguments built from `filters?.x || null`: a list is sent as
   * it is, even when empty (an array is truthy), and is null only when the
   * filters or the list are missing; an empty week string is sent as null.
   */
  function FilterArgs(topType: Option<string>, filters: Option<PlanFilters>): (a: RpcArgs)
    ensures a.topType == topType
    ensures filters.None? ==> a == RpcArgs(topType, None, None, None, None, None, None, None, None, None, None)
    ensures filters.Some? ==>
      (a.seasonIds == filters.value.seasonIds && a.exporterIds == filters.value.exporterIds
       && a.speciesIds == filters.value.speciesIds && a.varietyIds == filters.value.varietyIds
       && a.marketIds == filters.value.marketIds && a.countryIds == filters.value.countryIds
       && a.regionIds == filters.value.regionIds && a.transportTypeIds == filters.value.transportTypeIds)
    ensures a.weekFrom.Some? <==> filters.Some? && filters.value.weekFrom.Some? && filters.value.weekFrom.value != ""
    ensures a.weekTo.Some? <==> filters.Some? && filters.value.weekTo.Some? && filters.value.weekTo.value != ""
  {
    var f := filters.GetOr(NoFilters);
    RpcArgs(topType, f.seasonIds, f.exporterIds, f.speciesIds, f.varietyIds, f.marketIds, f.countryIds,
      f.regionIds, f.transportTypeIds, NonEmptyOrNull(f.weekFrom), NonEmptyOrNull(f.weekTo))
  }

  /**
   * One RPC executor: a rejected call or a reply with an error gives the
   * error result; otherwise the result of kind `kind` holds `data || []` and
   * the plan's params.
   */
  function ExecRpc(kind: string, call: Outcome<Reply<RpcRow>>, params: Option<PlanParams>): (r: ExecResult)
    ensures r.Failed? <==> call.Threw? || call.value.error.Some?
    ensures call.Threw? ==> r == Failed(call.error)
    ensures call.Ok? && call.value.error.Some? ==> r == Failed(call.value.error.value)
    ensures r.Done? ==> r.kind == kind && r.data == Rows(call.value.Rows()) && r.params == params && r.message.None?
  {
    match call
    case Threw(e) => Failed(e)
    case Ok(reply) =>
      if reply.error.Some? then Failed(reply.error.value) else Done(kind, Rows(reply.Rows()), params, None)
  }

  /** `execPlan`: the executor of the plan's intent, or the `Unknown intent` error. */
  function ExecPlan(plan: Plan, db: Database): (r: ExecResult)
    ensures r.Kind() == "error" || r.Kind() == plan.intent
    ensures r.Done? ==> plan.intent in Intents && r.params == plan.params
    ensures plan.intent !in Intents ==> r == Failed("Unknown intent")
  {
    match plan.intent
    case "kpis" => ExecRpc("kpis", db.rpc("get_exporter_kpis", Some(FilterArgs(None, plan.filters))), plan.params)
    case "timeseries" =>
      ExecRpc("timeseries", db.rpc("get_exporter_timeseries", Some(FilterArgs(None, plan.filters))), plan.params)
    case "tops" => ExecRpc("tops", db.rpc("get_exporter_tops", None), plan.params)
    case "rankings" =>
      ExecRpc("rankings", db.rpc("get_exporter_tops", Some(FilterArgs(Some("exporters"), plan.filters))), plan.params)
    case "search" => SearchOf(plan.params, db)
    case _ => Failed("Unknown intent")
  }

  /** A plan whose intent has an RPC executor succeeds exactly when its call does, and then returns the call's rows. */
  lemma ExecPlanRpc(plan: Plan, db: Database)
    requires plan.intent in ["kpis", "timeseries", "tops", "rankings"]
    ensures var call := RpcCallOf(plan, db);
      var r := ExecPlan(plan, db);
      (r.Done? <==> call.Ok? && call.value.error.None?)
      && (r.Done? ==> r.kind == plan.intent && r.data == Rows(call.value.Rows()))
      && (call.Threw? ==> r == Failed(call.error))
  {
  }

  /** The RPC call an intent's executor makes (`tops` without arguments, `rankings` as `exporters` tops). */
  function RpcCallOf(plan: Plan, db: Database): Outcome<Reply<RpcRow>>
    requires plan.intent in ["kpis", "timeseries", "tops", "rankings"]
  {
    if plan.intent == "kpis" then db.rpc("get_exporter_kpis", Some(FilterArgs(None, plan.filters)))
    else if plan.intent == "timeseries" then db.rpc("get_exporter_timeseries", Some(FilterArgs(None, plan.filters)))
    else if plan.intent == "tops" then db.rpc("get_exporter_tops", None)
    else db.rpc("get_exporter_tops", Some(FilterArgs(Some("exporters"), plan.filters)))
  }

  // ---------------------------------------------------------------------
  // execSearch
  // ---------------------------------------------------------------------

  const NoSearchTerm: string := "No search term provided"

  function NoExporterMessage(term: string): (m: string)
    ensures |m| > 0
  {
    "No se encontró ningún exportador con el nombre \"" + term + "\""
  }

  function NoShipmentsMessage(term: string): (m: string)
    ensures |m| > 0
  {
    "No se encontraron datos de exportación para \"" + term + "\""
  }

  /** `params?.search_term` when it is truthy. */
  function SearchTermOf(params: Option<PlanParams>): (t: Option<string>)
    ensures t.Some? <==> params.Some? && params.value.searchTerm.Some? && params.value.searchTerm.value != ""
    ensures t.Some? ==> t == params.value.searchTerm
  {
    if params.Some? && params.value.searchTerm.Some? && params.value.searchTerm.value != "" then params.value.searchTerm
    else None
  }

  function ShipSeason(s: Shipment): Option<int> { s.seasonId }
  function ShipMarket(s: Shipment): Option<int> { s.marketId }
  function ShipSpecies(s: Shipment): Option<int> { s.speciesId }
  function ShipWeek(s: Shipment): Option<string> { s.etdWeek }
  function ShipKilograms(s: Shipment): int { OrZero(s.kilograms) }
  function ShipBoxes(s: Shipment): int { OrZero(s.boxes) }
  function MatchId(e: ExporterMatch): int { e.id }

  /** `${id}`: the decimal form of an id, `null` for a missing one. */
  function IdText(id: Option<int>): string {
    match id
    case Some(i) => IntToString(i)
    case None => "null"
  }

  /** The record `map[row.id] = row.name` after visiting `names` in order: a later row overwrites an earlier one. */
  function NameMapOf(names: seq<NamedId>): map<int, Option<string>> {
    if names == [] then map[]
    else NameMapOf(names[..|names| - 1])[names[|names| - 1].id := names[|names| - 1].name]
  }

  /** `map[id] || \`ID: ${id}\``: the id's name when it has a non-empty one. */
  function Label(m: map<int, Option<string>>, id: Option<int>): string {
    if id.Some? && id.value in m && m[id.value].Some? && m[id.value].value != "" then m[id.value].value
    else "ID: " + IdText(id)
  }

  /** The names map holds the ids of the rows, each with the name of the last row that has it. */
  lemma {:induction false} NameMapOfLast(names: seq<NamedId>, id: int)
    ensures id in NameMapOf(names) <==> exists i :: 0 <= i < |names| && names[i].id == id
    ensures id in NameMapOf(names) ==>
      exists i :: (0 <= i < |names| && names[i].id == id
        && NameMapOf(names)[id] == names[i].name
        && forall j :: i < j < |names| ==> names[j].id != id)
    decreases |names|
  {
    if names != [] {
      var p := names[..|names| - 1];
      var last := names[|names| - 1];
      NameMapOfLast(p, id);
      if last.id != id {
        if id in NameMapOf(p) {
          var i :| 0 <= i < |p| && p[i].id == id && NameMapOf(p)[id] == p[i].name
            && forall j :: i < j < |p| ==> p[j].id != id;
          assert names[i] == p[i];
          assert forall j :: i < j < |names| ==> names[j].id != id by {
            forall j | i < j < |names| ensures names[j].id != id {
              if j < |p| {
                assert names[j] == p[j];
              }
            }
          }
        }
        forall i | 0 <= i < |names| && names[i].id == id ensures exists k :: 0 <= k < |p| && p[k].id == id {
          assert i < |p| && p[i] == names[i];
        }
      }
    }
  }

  /** A label is the id's name when it has a non-empty one, and `ID: <id>` otherwise. */
  lemma LabelCases(m: map<int, Option<string>>, id: Option<int>)
    ensures (id.Some? && id.value in m && m[id.value].Some? && m[id.value].value != "") ==> Label(m, id) == m[id.value].value
    ensures !(id.Some? && id.value in m && m[id.value].Some? && m[id.value].value != "") ==>
      Label(m, id) == "ID: " + IdText(id) && |Label(m, id)| > 4 && Label(m, id)[..4] == "ID: "
  {
  }

  /** A shipment paired with the label it is grouped under. */
  datatype Labeled = Labeled(tag: string, row: Shipment)

  function LabelOf(l: Labeled): string { l.tag }
  function LabeledKilograms(l: Labeled): int { ShipKilograms(l.row) }
  function LabeledBoxes(l: Labeled): int { ShipBoxes(l.row) }

  /** Every shipment with the label of its id under `field`. */
  function LabeledBy(rows: seq<Shipment>, m: map<int, Option<string>>, field: Shipment -> Option<int>): (ls: seq<Labeled>)
    ensures |ls| == |rows|
    ensures forall i :: 0 <= i < |rows| ==> ls[i] == Labeled(Label(m, field(rows[i])), rows[i])
  {
    seq(|rows|, i requires 0 <= i < |rows| => Labeled(Label(m, field(rows[i])), rows[i]))
  }

  function TotalsOf(g: seq<Labeled>): Totals {
    Totals(SumOf(g, LabeledKilograms), SumOf(g, LabeledBoxes))
  }

  function ZeroTotals(l: Labeled): Totals { Totals(0, 0) }

  function AddLabeled(t: Totals, l: Labeled): Totals {
    Totals(t.kilograms + LabeledKilograms(l), t.boxes + LabeledBoxes(l))
  }

  function GroupKilograms(g: Group): int { g.totals.kilograms }
  function GroupBoxes(g: Group): int { g.totals.boxes }
  function GroupName(g: Group): string { g.name }

  /** The record filled by the `forEach`: one group per label, in order of first appearance, with its sums. */
  function GroupsOf(ls: seq<Labeled>): seq<Group> {
    var ks := Keys(ls, LabelOf);
    seq(|ks|, i requires 0 <= i < |ks| => Group(ks[i], TotalsOf(Where(ls, LabelOf, ks[i]))))
  }

  /** `${w}` compared by `sort()`: the week text, `null` for a missing week. */
  function WeekText(w: Option<string>): string {
    match w
    case Some(s) => s
    case None => "null"
  }

  /** The default order of `sort()`: the code-point order of the string forms. */
  function WeekLe(a: Option<string>, b: Option<string>): bool {
    LexLe(WeekText(a), WeekText(b))
  }

  /** The search summary of the exporter `exporter` and its shipments `rows`, given the three names maps. */
  function SearchResultOf(exporter: ExporterMatch, rows: seq<Shipment>, seasonMap: map<int, Option<string>>,
                          marketMap: map<int, Option<string>>, speciesMap: map<int, Option<string>>): SearchResult
  {
    var seasons := Keys(rows, ShipSeason);
    SearchResult(
      exporter,
      Summary(
        SumOf(rows, ShipKilograms),
        SumOf(rows, ShipBoxes),
        seq(|seasons|, i requires 0 <= i < |seasons| => Label(seasonMap, seasons[i])),
        |Keys(rows, ShipMarket)|,
        |Keys(rows, ShipSpecies)|,
        SortBy(Keys(rows, ShipWeek), WeekLe)),
      GroupsOf(LabeledBy(rows, speciesMap, ShipSpecies)),
      GroupsOf(LabeledBy(rows, marketMap, ShipMarket)),
      rows)
  }

  /** The names of some ids as `execSearch` reads them: a failed reply counts as no names. */
  function NamesOf(call: Outcome<Reply<NamedId>>): seq<NamedId>
    requires call.Ok?
  {
    call.value.Rows()
  }

  /** The ids of the exporters found. */
  function MatchIds(found: seq<ExporterMatch>): (ids: seq<int>)
    ensures |ids| == |found| && forall i :: 0 <= i < |found| ==> ids[i] == found[i].id
  {
    seq(|found|, i requires 0 <= i < |found| => found[i].id)
  }

  /** What `execSearch` returns for the plan parameters `params`. */
  function SearchOf(params: Option<PlanParams>, db: Database): (r: ExecResult)
    ensures SearchTermOf(params).None? ==> r == Failed(NoSearchTerm)
    ensures r.Done? ==> r.kind == "search" && r.params == params
  {
    var term := SearchTermOf(params);
    if term.None? then Failed(NoSearchTerm)
    else
      var lookup := db.exportersNamed(term.value);
      if lookup.Threw? then Failed(lookup.error)
      else if lookup.value.error.Some? then Failed(lookup.value.error.value)
      else
        var found := lookup.value.Rows();
        if found == [] then Done("search", Rows([]), params, Some(NoExporterMessage(term.value)))
        else
          var shipments := db.shipmentsOf(MatchIds(found));
          if shipments.Threw? then Failed(shipments.error)
          else if shipments.value.error.Some? then Failed(shipments.value.error.value)
          else
            var rows := shipments.value.Rows();
            if rows == [] then Done("search", Rows([]), params, Some(NoShipmentsMessage(term.value)))
            else
              var seasonNames := db.namesOf("seasons", Keys(rows, ShipSeason));
              var marketNames := db.namesOf("markets", Keys(rows, ShipMarket));
              var speciesNames := db.namesOf("species", Keys(rows, ShipSpecies));
              if seasonNames.Threw? then Failed(seasonNames.error)
              else if marketNames.Threw? then Failed(marketNames.error)
              else if speciesNames.Threw? then Failed(speciesNames.error)
              else
                Done("search", Found(SearchResultOf(found[0], rows, NameMapOf(NamesOf(seasonNames)),
                  NameMapOf(NamesOf(marketNames)), NameMapOf(NamesOf(speciesNames)))), params, None)
  }

  /** `seasonNames?.forEach((s) => (seasonMap[s.id] = s.name))` */
  method BuildNameMap(names: seq<NamedId>) returns (m: map<int, Option<string>>)
    ensures m == NameMapOf(names)
  {
    m := map[];
    for i := 0 to |names|
      invariant m == NameMapOf(names[..i])
    {
      assert names[..i + 1][..i] == names[..i];
      m := m[names[i].id := names[i].name];
    }
    assert names[..|names|] == names;
  }

  /** The `forEach` that fills `speciesData` or `marketData`, and the entries it ends with. */
  method GroupTotals(ls: seq<Labeled>) returns (groups: seq<Group>)
    ensures groups == GroupsOf(ls)
  {
    var keys, entries := FoldByKey(ls, LabelOf, ZeroTotals, AddLabeled);
    TotalsOfSteps();
    forall i | 0 <= i < |keys| ensures keys[i] in entries && entries[keys[i]] == TotalsOf(Where(ls, LabelOf, keys[i])) {
      var k := keys[i];
      assert k in keys;
      GroupAccOfWhere(ls, LabelOf, k, ZeroTotals, AddLabeled, TotalsOf);
    }
    groups := seq(|keys|, i requires 0 <= i < |keys| && keys[i] in entries => Group(keys[i], entries[keys[i]]));
  }

  /** `TotalsOf` is what the fold's first step and each later step compute. */
  lemma TotalsOfSteps()
    ensures forall x :: TotalsOf([x]) == AddLabeled(ZeroTotals(x), x)
    ensures forall g, x :: g != [] ==> TotalsOf(g + [x]) == AddLabeled(TotalsOf(g), x)
  {
    forall x ensures TotalsOf([x]) == AddLabeled(ZeroTotals(x), x) {
      SumOfSnoc([], x, LabeledKilograms);
      SumOfSnoc([], x, LabeledBoxes);
      assert [] + [x] == [x];
    }
    forall g, x | g != [] ensures TotalsOf(g + [x]) == AddLabeled(TotalsOf(g), x) {
      SumOfSnoc(g, x, LabeledKilograms);
      SumOfSnoc(g, x, LabeledBoxes);
    }
  }

  /** The totals, distinct ids, sorted weeks, names maps and per-species and per-market groups of a search. */
  method Summarize(exporter: ExporterMatch, rows: seq<Shipment>, seasonNames: seq<NamedId>,
                   marketNames: seq<NamedId>, speciesNames: seq<NamedId>) returns (result: SearchResult)
    ensures result == SearchResultOf(exporter, rows, NameMapOf(seasonNames), NameMapOf(marketNames), NameMapOf(speciesNames))
  {
    var totalKilograms := SumOf(rows, ShipKilograms);
    var totalBoxes := SumOf(rows, ShipBoxes);
    var seasons := Keys(rows, ShipSeason);
    var markets := Keys(rows, ShipMarket);
    var species := Keys(rows, ShipSpecies);
    var weeks := SortSeq(Keys(rows, ShipWeek), WeekLe);
    var seasonMap := BuildNameMap(seasonNames);
    var marketMap := BuildNameMap(marketNames);
    var speciesMap := BuildNameMap(speciesNames);
    var bySpecies := GroupTotals(LabeledBy(rows, speciesMap, ShipSpecies));
    var byMarket := GroupTotals(LabeledBy(rows, marketMap, ShipMarket));
    var seasonLabels := seq(|seasons|, i requires 0 <= i < |seasons| => Label(seasonMap, seasons[i]));
    var summary := Summary(totalKilograms, totalBoxes, seasonLabels, |markets|, |species|, weeks);
    result := SearchResult(exporter, summary, bySpecies, byMarket, rows);
  }

  /**
   * `execSearch`: no truthy search term is an error; a failed or rejected
   * lookup is an error; no exporter or no shipment is an empty search result
   * with a message; otherwise the first exporter found with the summary of
   * the shipments of all the exporters found.
   */
  method ExecSearch(params: Option<PlanParams>, db: Database) returns (r: ExecResult)
    ensures r == SearchOf(params, db)
  {
    var term := SearchTermOf(params);
    if term.None? {
      return Failed(NoSearchTerm);
    }
    var lookup := db.exportersNamed(term.value);
    if lookup.Threw? {
      return Failed(lookup.error);
    }
    if lookup.value.error.Some? {
      return Failed(lookup.value.error.value);
    }
    var found := lookup.value.Rows();
    if |found| == 0 {
      return Done("search", Rows([]), params, Some(NoExporterMessage(term.value)));
    }
    var shipments := db.shipmentsOf(MatchIds(found));
    if shipments.Threw? {
      return Failed(shipments.error);
    }
    if shipments.value.error.Some? {
      return Failed(shipments.value.error.value);
    }
    var rows := shipments.value.Rows();
    if |rows| == 0 {
      return Done("search", Rows([]), params, Some(NoShipmentsMessage(term.value)));
    }
    var seasonNames := db.namesOf("seasons", Keys(rows, ShipSeason));
    if seasonNames.Threw? {
      return Failed(seasonNames.error);
    }
    var marketNames := db.namesOf("markets", Keys(rows, ShipMarket));
    if marketNames.Threw? {
      return Failed(marketNames.error);
    }
    var speciesNames := db.namesOf("species", Keys(rows, ShipSpecies));
    if speciesNames.Threw? {
      return Failed(speciesNames.error);
    }
    var result := Summarize(found[0], rows, seasonNames.value.Rows(), marketNames.value.Rows(), speciesNames.value.Rows());
    r := Done("search", Found(result), params, None);
  }

  // ---------------------------------------------------------------------
  // Properties of the search
  // ---------------------------------------------------------------------

  lemma WeekLePreorder()
    ensures TotalPreorder(WeekLe)
  {
    forall a, b ensures WeekLe(a, b) || WeekLe(b, a) {
      LexLeTotal(WeekText(a), WeekText(b));
    }
    forall a, b, c | WeekLe(a, b) && WeekLe(b, c) ensures WeekLe(a, c) {
      LexLeTransitive(WeekText(a), WeekText(b), WeekText(c));
    }
  }

  /** The per-group kilograms and boxes add up to the search totals, for any names map and id column. */
  lemma {:induction false} GroupsOfLabeledSums(rows: seq<Shipment>, m: map<int, Option<string>>, field: Shipment -> Option<int>)
    ensures var groups := GroupsOf(LabeledBy(rows, m, field));
      SumOf(groups, GroupKilograms) == SumOf(rows, ShipKilograms)
      && SumOf(groups, GroupBoxes) == SumOf(rows, ShipBoxes)
  {
    var ls := LabeledBy(rows, m, field);
    var groups := GroupsOf(ls);
    var ks := Keys(ls, LabelOf);
    SumOfPointwise(groups, GroupKilograms, ks, k => GroupSum(ls, LabelOf, LabeledKilograms, k));
    SumOfPointwise(groups, GroupBoxes, ks, k => GroupSum(ls, LabelOf, LabeledBoxes, k));
    GroupTotalAsSum(ls, LabelOf, ks, LabeledKilograms);
    GroupTotalAsSum(ls, LabelOf, ks, LabeledBoxes);
    KeysPartitionSum(ls, LabelOf, LabeledKilograms);
    KeysPartitionSum(ls, LabelOf, LabeledBoxes);
    SumOfPointwise(ls, LabeledKilograms, rows, ShipKilograms);
    SumOfPointwise(ls, LabeledBoxes, rows, ShipBoxes);
  }

  /** Every group has its own name, each name is some shipment's label, and every shipment's label names a group. */
  lemma GroupsOfNames(rows: seq<Shipment>, m: map<int, Option<string>>, field: Shipment -> Option<int>)
    ensures var groups := GroupsOf(LabeledBy(rows, m, field));
      DistinctBy(groups, GroupName)
      && (forall a :: 0 <= a < |groups| ==> exists i :: 0 <= i < |rows| && Label(m, field(rows[i])) == groups[a].name)
      && forall i :: 0 <= i < |rows| ==> exists a :: 0 <= a < |groups| && groups[a].name == Label(m, field(rows[i]))
  {
    GroupNamesDistinct(LabeledBy(rows, m, field));
    GroupNamesFromRows(rows, m, field);
    RowLabelsGrouped(rows, m, field);
  }

  lemma GroupNamesFromRows(rows: seq<Shipment>, m: map<int, Option<string>>, field: Shipment -> Option<int>)
    ensures var groups := GroupsOf(LabeledBy(rows, m, field));
      forall a :: 0 <= a < |groups| ==> exists i :: 0 <= i < |rows| && Label(m, field(rows[i])) == groups[a].name
  {
    var ls := LabeledBy(rows, m, field);
    var groups := GroupsOf(ls);
    forall a | 0 <= a < |groups| ensures exists i :: 0 <= i < |rows| && Label(m, field(rows[i])) == groups[a].name {
      GroupNameListed(ls, a);
      var i :| 0 <= i < |ls| && ls[i].tag == groups[a].name;
      assert Label(m, field(rows[i])) == groups[a].name;
    }
  }

  lemma RowLabelsGrouped(rows: seq<Shipment>, m: map<int, Option<string>>, field: Shipment -> Option<int>)
    ensures var groups := GroupsOf(LabeledBy(rows, m, field));
      forall i :: 0 <= i < |rows| ==> exists a :: 0 <= a < |groups| && groups[a].name == Label(m, field(rows[i]))
  {
    var ls := LabeledBy(rows, m, field);
    var groups := GroupsOf(ls);
    forall i | 0 <= i < |rows| ensures exists a :: 0 <= a < |groups| && groups[a].name == Label(m, field(rows[i])) {
      GroupOfLabel(ls, i);
      assert ls[i].tag == Label(m, field(rows[i]));
    }
  }

  lemma GroupNamesDistinct(ls: seq<Labeled>)
    ensures DistinctBy(GroupsOf(ls), GroupName)
  {
    var groups := GroupsOf(ls);
    KeysDistinct(ls, LabelOf);
    assert forall a :: 0 <= a < |groups| ==> groups[a].name == Keys(ls, LabelOf)[a];
  }

  lemma GroupOfLabel(ls: seq<Labeled>, i: nat)
    requires i < |ls|
    ensures exists a :: 0 <= a < |GroupsOf(ls)| && GroupsOf(ls)[a].name == ls[i].tag
  {
    var ks := Keys(ls, LabelOf);
    KeysContain(ls, LabelOf, i);
    var a :| 0 <= a < |ks| && ks[a] == LabelOf(ls[i]);
    assert GroupsOf(ls)[a].name == ks[a];
  }

  lemma GroupNameListed(ls: seq<Labeled>, a: nat)
    requires a < |GroupsOf(ls)|
    ensures exists i :: 0 <= i < |ls| && ls[i].tag == GroupsOf(ls)[a].name
  {
    var ks := Keys(ls, LabelOf);
    KeysComplete(ls, LabelOf);
    assert ks[a] in ks;
  }

  /** A search summary: totals equal to the per-species and per-market sums, distinct counts, and sorted distinct weeks. */
  lemma SearchSummaryFacts(exporter: ExporterMatch, rows: seq<Shipment>, seasonMap: map<int, Option<string>>,
                           marketMap: map<int, Option<string>>, speciesMap: map<int, Option<string>>)
    ensures var r := SearchResultOf(exporter, rows, seasonMap, marketMap, speciesMap);
      r.exporter == exporter && r.shipments == rows
      && r.summary.totalKilograms == SumOf(rows, ShipKilograms) && r.summary.totalBoxes == SumOf(rows, ShipBoxes)
      && SumOf(r.bySpecies, GroupKilograms) == r.summary.totalKilograms
      && SumOf(r.bySpecies, GroupBoxes) == r.summary.totalBoxes
      && SumOf(r.byMarket, GroupKilograms) == r.summary.totalKilograms
      && SumOf(r.byMarket, GroupBoxes) == r.summary.totalBoxes
      && r.summary.marketsCount == |KeySet(rows, ShipMarket)|
      && r.summary.speciesCount == |KeySet(rows, ShipSpecies)|
      && |r.summary.seasons| == |KeySet(rows, ShipSeason)|
  {
    GroupsOfLabeledSums(rows, speciesMap, ShipSpecies);
    GroupsOfLabeledSums(rows, marketMap, ShipMarket);
    KeysCount(rows, ShipMarket);
    KeysCount(rows, ShipSpecies);
    KeysCount(rows, ShipSeason);
  }

  /** The weeks of a search are distinct, sorted as `sort()` sorts them, and exactly the weeks of its shipments. */
  lemma SearchWeeks(exporter: ExporterMatch, rows: seq<Shipment>, seasonMap: map<int, Option<string>>,
                    marketMap: map<int, Option<string>>, speciesMap: map<int, Option<string>>)
    ensures var w := SearchResultOf(exporter, rows, seasonMap, marketMap, speciesMap).summary.weeks;
      NoDup(w) && Sorted(w, WeekLe)
      && forall x :: x in w <==> exists i :: 0 <= i < |rows| && rows[i].etdWeek == x
  {
    WeekLePreorder();
    SortedKeysFacts(rows, ShipWeek, WeekLe);
    assert SearchResultOf(exporter, rows, seasonMap, marketMap, speciesMap).summary.weeks == SortBy(Keys(rows, ShipWeek), WeekLe);
  }

  /** The seasons of a search are the labels of its distinct season ids, in order of first appearance. */
  lemma SearchSeasons(exporter: ExporterMatch, rows: seq<Shipment>, seasonMap: map<int, Option<string>>,
                      marketMap: map<int, Option<string>>, speciesMap: map<int, Option<string>>)
    ensures var seasons := SearchResultOf(exporter, rows, seasonMap, marketMap, speciesMap).summary.seasons;
      var ids := Keys(rows, ShipSeason);
      |seasons| == |ids| && NoDup(ids)
      && (forall i :: 0 <= i < |ids| ==> seasons[i] == Label(seasonMap, ids[i]))
      && forall id :: id in ids <==> exists j :: 0 <= j < |rows| && rows[j].seasonId == id
  {
    KeysDistinct(rows, ShipSeason);
    KeysComplete(rows, ShipSeason);
  }

  /** Without a truthy search term the search is the `No search term provided` error. */
  lemma SearchWithoutTerm(params: Option<PlanParams>, db: Database)
    requires params.None? || params.value.searchTerm.None? || params.value.searchTerm == Some("")
    ensures SearchOf(params, db) == Failed(NoSearchTerm)
  {
  }

  /**
   * A search that finds no exporter, or no shipment of the exporters found,
   * is an empty `search` result with a message; every other outcome is an
   * error or a summary.
   */
  lemma SearchEmpty(params: Option<PlanParams>, db: Database)
    ensures var r := SearchOf(params, db);
      r.Kind() == "search" || r.Kind() == "error"
    ensures var r := SearchOf(params, db);
      r.Done? ==> r.params == params
    ensures var r := SearchOf(params, db);
      r.Done? && r.data == Rows([]) <==> r.Done? && r.message.Some?
    ensures var r := SearchOf(params, db);
      r.Done? && r.message.Some? ==> |r.message.value| > 0
  {
  }

  /** A successful search shows the first exporter found and the summary of the shipments of all of them. */
  lemma SearchFound(params: Option<PlanParams>, db: Database)
    requires SearchOf(params, db).Done? && SearchOf(params, db).data.Found?
    ensures var term := SearchTermOf(params).value;
      var found := db.exportersNamed(term).value.Rows();
      var rows := db.shipmentsOf(MatchIds(found)).value.Rows();
      var result := SearchOf(params, db).data.search;
      found != [] && rows != []
      && result.exporter == found[0] && result.shipments == rows
  {
  }
}
