// The FullCargo shipment queries (src/lib/fullcargo-api.ts): the page
// arithmetic and equality filters of `getShipments`, the totals and the
// per-name folds of `getShipmentAnalytics`, and the per-week fold of
// `getWeeklyShipments`. Each database reply is an input.

module FullCargo {
  import opened Common
  import opened Strings
  import opened Grouping
  import opened Sorting

  // ---------------------------------------------------------------------
  // getShipments
  // ---------------------------------------------------------------------

  /** The relations joined for display, in the order the select names them. */
  const JoinTables: seq<string> :=
    ["regions", "markets", "countries", "species", "varieties", "transport_types",
     "arrival_ports", "exporters", "importers", "seasons"]

  /** A joined relation: `{ name }`. */
  datatype Joined = Joined(name: Option<string>)

  /** A row as the database returns it: its own columns and one optional join per relation of `JoinTables`. */
  datatype RawShipment = RawShipment(id: int, boxes: Option<int>, kilograms: Option<int>, joins: seq<Option<Joined>>)

  /** `{ ...shipment, region_name: shipment.regions?.name, ... }` */
  datatype CargoShipment = CargoShipment(raw: RawShipment, names: seq<Option<string>>)

  /** The request built by `getShipments`. */
  datatype ShipmentQuery = ShipmentQuery(table: string, equalities: seq<(string, int)>, rangeFrom: int, rangeTo: int)

  /** `{ data, error, count }` */
  datatype ShipmentsReply = ShipmentsReply(data: Option<seq<RawShipment>>, error: Option<string>, count: Option<int>) {
    /** `shipments || []` */
    function Rows(): seq<RawShipment> {
      if data.Some? then data.value else []
    }
  }

  datatype ShipmentsPage = ShipmentsPage(
    success: bool,
    message: string,
    totalShipments: int,
    offset: int,
    limit: int,
    season: string,
    shipments: seq<CargoShipment>)

  const DefaultSeason: string := "2024_2025"
  const DefaultPage: int := 1
  const DefaultLimit: int := 50

  function OrDefault<T>(x: Option<T>, d: T): T {
    if x.Some? then x.value else d
  }

  function TableOf(season: string): string {
    "shipments_" + season
  }

  /** The filter entries that `if (value)` keeps. */
  function TruthyFilters(filters: seq<(string, Option<int>)>): (r: seq<(string, int)>)
    ensures |r| <= |filters|
  {
    if filters == [] then []
    else
      var (key, value) := filters[|filters| - 1];
      TruthyFilters(filters[..|filters| - 1]) + (if Truthy(value) then [(key, value.value)] else [])
  }

  /** The kept entries are exactly the truthy ones. */
  lemma {:induction false} TruthyFiltersMembers(filters: seq<(string, Option<int>)>)
    ensures forall e :: e in TruthyFilters(filters) <==> (e.0, Some(e.1)) in filters && e.1 != 0
    decreases |filters|
  {
    if filters != [] {
      var p := filters[..|filters| - 1];
      var last := filters[|filters| - 1];
      TruthyFiltersMembers(p);
      assert filters == p + [last];
      forall e ensures e in TruthyFilters(filters) <==> (e.0, Some(e.1)) in filters && e.1 != 0 {
        assert (e.0, Some(e.1)) in filters <==> (e.0, Some(e.1)) in p || (e.0, Some(e.1)) == last;
      }
    }
  }

  /** `Object.entries(filters).forEach(([key, value]) => { if (value) query = query.eq(key, value) })` */
  method ApplyFilters(filters: seq<(string, Option<int>)>) returns (equalities: seq<(string, int)>)
    ensures equalities == TruthyFilters(filters)
  {
    equalities := [];
    var i := 0;
    while i < |filters|
      invariant 0 <= i <= |filters|
      invariant equalities == TruthyFilters(filters[..i])
    {
      assert filters[..i + 1][..i] == filters[..i];
      var (key, value) := filters[i];
      if value.Some? && value.value != 0 {
        equalities := equalities + [(key, value.value)];
      }
      i := i + 1;
    }
    assert filters[..i] == filters;
  }

  function NameOf(j: Option<Joined>): Option<string> {
    if j.Some? then j.value.name else None
  }

  function Transform(raw: RawShipment): (s: CargoShipment)
    ensures s.raw == raw && |s.names| == |raw.joins|
    ensures forall i :: 0 <= i < |raw.joins| ==> s.names[i] == NameOf(raw.joins[i])
  {
    CargoShipment(raw, seq(|raw.joins|, i requires 0 <= i < |raw.joins| => NameOf(raw.joins[i])))
  }

  function TransformAll(rows: seq<RawShipment>): (r: seq<CargoShipment>)
    ensures |r| == |rows| && forall i :: 0 <= i < |rows| ==> r[i] == Transform(rows[i])
  {
    seq(|rows|, i requires 0 <= i < |rows| => Transform(rows[i]))
  }

  function QueryOf(season: string, page: int, limit: int, equalities: seq<(string, int)>): (q: ShipmentQuery)
    ensures q.rangeFrom == (page - 1) * limit && q.rangeTo - q.rangeFrom == limit - 1
  {
    var offset := (page - 1) * limit;
    ShipmentQuery(TableOf(season), equalities, offset, offset + limit - 1)
  }

  /** The page `getShipments` returns for the reply to its query (`Threw` when the call fails). */
  function ShipmentsPageOf(season: string, page: int, limit: int, reply: Outcome<ShipmentsReply>): (r: ShipmentsPage)
    ensures r.limit == limit && r.season == season
    ensures r.success <==> reply.Ok? && reply.value.error.None?
    ensures !r.success ==> r.shipments == [] && r.totalShipments == 0 && r.offset == 0
  {
    if reply.Ok? && reply.value.error.None? then
      ShipmentsPage(true, "Shipments retrieved successfully", OrZero(reply.value.count), (page - 1) * limit, limit, season,
                    TransformAll(reply.value.Rows()))
    else
      ShipmentsPage(false, "Failed to fetch shipments", 0, 0, limit, season, [])
  }

  /**
   * `getShipments({ season, page, limit, filters })`; `fetch` runs the
   * query (the `time` stamp of the reply is left out).
   */
  method GetShipments(season: Option<string>, page: Option<int>, limit: Option<int>,
                      filters: seq<(string, Option<int>)>, fetch: ShipmentQuery -> Outcome<ShipmentsReply>)
    returns (q: ShipmentQuery, r: ShipmentsPage)
    ensures var s := OrDefault(season, DefaultSeason);
      var p := OrDefault(page, DefaultPage);
      var l := OrDefault(limit, DefaultLimit);
      q == QueryOf(s, p, l, TruthyFilters(filters)) && r == ShipmentsPageOf(s, p, l, fetch(q))
  {
    var s := OrDefault(season, DefaultSeason);
    var p := OrDefault(page, DefaultPage);
    var l := OrDefault(limit, DefaultLimit);
    var equalities := ApplyFilters(filters);
    q := QueryOf(s, p, l, equalities);
    r := ShipmentsPageOf(s, p, l, fetch(q));
  }

  /**
   * The query asks for rows `(page - 1) * limit` to `page * limit - 1`, so
   * consecutive pages meet without overlap, and it filters on the truthy
   * filter values only.
   */
  lemma PagesAdjacent(season: string, page: int, limit: int, equalities: seq<(string, int)>)
    ensures var q := QueryOf(season, page, limit, equalities);
      var next := QueryOf(season, page + 1, limit, equalities);
      q.rangeTo == page * limit - 1 && next.rangeFrom == q.rangeTo + 1
  {
  }

  /**
   * A failed fetch gives `success: false`, no shipments, zero count and
   * offset, and keeps the limit and season; a successful one reports the
   * page's offset and the reply's rows in order.
   */
  lemma ShipmentsPageCases(season: string, page: int, limit: int, reply: Outcome<ShipmentsReply>)
    ensures var r := ShipmentsPageOf(season, page, limit, reply);
      r.success ==>
            r.offset == (page - 1) * limit && r.totalShipments == OrZero(reply.value.count)
            && |r.shipments| == |reply.value.Rows()|
            && forall i :: 0 <= i < |r.shipments| ==> r.shipments[i].raw == reply.value.Rows()[i]
  {
  }

  // ---------------------------------------------------------------------
  // Per-key folds
  // ---------------------------------------------------------------------

  /** `{ boxes, kilograms, shipments }` under its key (`name` or `week`). */
  datatype Stats = Stats(key: string, boxes: int, kilograms: int, shipments: int)

  function StatsKey(s: Stats): string { s.key }
  function StatsKilograms(s: Stats): int { s.kilograms }
  function StatsBoxes(s: Stats): int { s.boxes }
  function StatsShipments(s: Stats): int { s.shipments }

  /** A row of one fold: its key and its `boxes || 0`, `kilograms || 0`. */
  datatype Keyed = Keyed(key: string, boxes: int, kilograms: int)

  function KeyOf(r: Keyed): string { r.key }
  function BoxesOf(r: Keyed): int { r.boxes }
  function KilogramsOf(r: Keyed): int { r.kilograms }
  function One(r: Keyed): int { 1 }

  /** The entry a group of rows adds up to. */
  function StatsOf(g: seq<Keyed>): Stats {
    Stats(if g == [] then "" else g[0].key, SumOf(g, BoxesOf), SumOf(g, KilogramsOf), |g|)
  }

  /** `acc[key] = { boxes: 0, kilograms: 0, shipments: 0 }` */
  function NewStats(r: Keyed): Stats { Stats(r.key, 0, 0, 0) }

  /** `acc[key].boxes += …; acc[key].kilograms += …; acc[key].shipments += 1` */
  function AddRow(s: Stats, r: Keyed): Stats {
    Stats(s.key, s.boxes + r.boxes, s.kilograms + r.kilograms, s.shipments + 1)
  }

  /** The entries of the accumulator object, one per key in order of first appearance. */
  function Grouped(rows: seq<Keyed>): seq<Stats> {
    var ks := Keys(rows, KeyOf);
    seq(|ks|, i requires 0 <= i < |ks| => StatsOf(Where(rows, KeyOf, ks[i])))
  }

  lemma StatsOfSteps()
    ensures forall x :: StatsOf([x]) == AddRow(NewStats(x), x)
    ensures forall g, x :: g != [] ==> StatsOf(g + [x]) == AddRow(StatsOf(g), x)
  {
    forall x ensures StatsOf([x]) == AddRow(NewStats(x), x) {
      SumOfSnoc([], x, BoxesOf);
      SumOfSnoc([], x, KilogramsOf);
    }
    forall g, x | g != [] ensures StatsOf(g + [x]) == AddRow(StatsOf(g), x) {
      SumOfSnoc(g, x, BoxesOf);
      SumOfSnoc(g, x, KilogramsOf);
    }
  }

  /** The `reduce` that fills the accumulator object row by row, then `Object.values` in key order. */
  method GroupRows(rows: seq<Keyed>) returns (groups: seq<Stats>)
    ensures groups == Grouped(rows)
  {
    var keys, entries := FoldByKey(rows, KeyOf, NewStats, AddRow);
    FoldedStats(rows, keys, entries);
    groups := seq(|keys|, i requires 0 <= i < |keys| && keys[i] in entries => entries[keys[i]]);
  }

  /** The object the fold builds holds, under each key, the entry of that key's rows. */
  lemma FoldedStats(rows: seq<Keyed>, keys: seq<string>, entries: map<string, Stats>)
    requires keys == Keys(rows, KeyOf)
    requires forall k :: k in entries <==> k in keys
    requires forall k :: k in entries ==> GroupAcc(rows, KeyOf, k, NewStats, AddRow) == Some(entries[k])
    ensures forall i :: 0 <= i < |keys| ==> keys[i] in entries && entries[keys[i]] == StatsOf(Where(rows, KeyOf, keys[i]))
  {
    StatsOfSteps();
    forall i | 0 <= i < |keys| ensures keys[i] in entries && entries[keys[i]] == StatsOf(Where(rows, KeyOf, keys[i])) {
      var k := keys[i];
      assert k in keys;
      GroupAccOfWhere(rows, KeyOf, k, NewStats, AddRow, StatsOf);
    }
  }

  /** Each group carries its key, its row count and its sums, and the keys are distinct and cover the rows. */
  lemma GroupedFacts(rows: seq<Keyed>)
    ensures var gs := Grouped(rows);
      DistinctBy(gs, StatsKey)
      && (forall i :: 0 <= i < |gs| ==>
            var g := Where(rows, KeyOf, gs[i].key);
            g != [] && gs[i].shipments == |g| && gs[i].boxes == SumOf(g, BoxesOf) && gs[i].kilograms == SumOf(g, KilogramsOf))
      && forall k :: k in KeySet(gs, StatsKey) <==> exists j :: 0 <= j < |rows| && rows[j].key == k
  {
    var gs := Grouped(rows);
    var ks := Keys(rows, KeyOf);
    KeysDistinct(rows, KeyOf);
    KeysComplete(rows, KeyOf);
    forall i | 0 <= i < |gs| ensures gs[i].key == ks[i] && Where(rows, KeyOf, ks[i]) != [] {
      WhereOfPresentKey(rows, KeyOf, ks[i]);
      WhereFirstKey(rows, ks[i]);
    }
    forall k ensures k in KeySet(gs, StatsKey) <==> k in ks {
      if k in KeySet(gs, StatsKey) {
        var x :| x in gs && StatsKey(x) == k;
        var i :| 0 <= i < |gs| && gs[i] == x;
      }
      if k in ks {
        var i :| 0 <= i < |ks| && ks[i] == k;
        assert gs[i] in gs && StatsKey(gs[i]) == k;
      }
    }
  }

  lemma WhereFirstKey(rows: seq<Keyed>, k: string)
    requires Where(rows, KeyOf, k) != []
    ensures Where(rows, KeyOf, k)[0].key == k
  {
    WhereMembers(rows, KeyOf, k);
    assert Where(rows, KeyOf, k)[0] in Where(rows, KeyOf, k);
  }

  /** The groups' boxes, kilograms and shipments add up to the rows' sums and count. */
  lemma GroupedSums(rows: seq<Keyed>)
    ensures var gs := Grouped(rows);
      SumOf(gs, StatsBoxes) == SumOf(rows, BoxesOf)
      && SumOf(gs, StatsKilograms) == SumOf(rows, KilogramsOf)
      && SumOf(gs, StatsShipments) == |rows|
  {
    var gs := Grouped(rows);
    var ks := Keys(rows, KeyOf);
    forall i | 0 <= i < |gs| ensures gs[i].shipments == SumOf(Where(rows, KeyOf, ks[i]), One) {
      SumOfOne(Where(rows, KeyOf, ks[i]));
    }
    SumOfPointwise(gs, StatsBoxes, ks, k => GroupSum(rows, KeyOf, BoxesOf, k));
    SumOfPointwise(gs, StatsKilograms, ks, k => GroupSum(rows, KeyOf, KilogramsOf, k));
    SumOfPointwise(gs, StatsShipments, ks, k => GroupSum(rows, KeyOf, One, k));
    GroupTotalAsSum(rows, KeyOf, ks, BoxesOf);
    GroupTotalAsSum(rows, KeyOf, ks, KilogramsOf);
    GroupTotalAsSum(rows, KeyOf, ks, One);
    KeysPartitionSum(rows, KeyOf, BoxesOf);
    KeysPartitionSum(rows, KeyOf, KilogramsOf);
    KeysPartitionSum(rows, KeyOf, One);
    SumOfOne(rows);
  }

  lemma {:induction false} SumOfOne(s: seq<Keyed>)
    ensures SumOf(s, One) == |s|
    decreases |s|
  {
    if s != [] {
      SumOfSnoc(s[..|s| - 1], s[|s| - 1], One);
      SumOfOne(s[..|s| - 1]);
      assert s[..|s| - 1] + [s[|s| - 1]] == s;
    }
  }

  // ---------------------------------------------------------------------
  // getShipmentAnalytics
  // ---------------------------------------------------------------------

  /** A row of the totals query: `boxes, kilograms`. */
  datatype TotalRow = TotalRow(boxes: Option<int>, kilograms: Option<int>)

  /** A row of the species or country query: the joined name, `boxes`, `kilograms`. */
  datatype StatRow = StatRow(name: Option<string>, boxes: Option<int>, kilograms: Option<int>)

  datatype CargoTotals = CargoTotals(shipments: int, boxes: int, kilograms: int)

  datatype Analytics = Analytics(season: string, totals: CargoTotals, topSpecies: seq<Stats>, topCountries: seq<Stats>)

  function TotalBoxes(r: TotalRow): int { OrZero(r.boxes) }
  function TotalKilograms(r: TotalRow): int { OrZero(r.kilograms) }

  /** `item.species?.name || 'Unknown'` with `item.boxes || 0` and `item.kilograms || 0`. */
  function KeyedByName(rows: seq<StatRow>): (r: seq<Keyed>)
    ensures |r| == |rows|
    ensures forall i :: 0 <= i < |rows| ==> r[i] == Keyed(NameKey(rows[i].name), OrZero(rows[i].boxes), OrZero(rows[i].kilograms))
  {
    seq(|rows|, i requires 0 <= i < |rows| => Keyed(NameKey(rows[i].name), OrZero(rows[i].boxes), OrZero(rows[i].kilograms)))
  }

  function NameKey(name: Option<string>): string {
    if name.Some? && name.value != "" then name.value else "Unknown"
  }

  /** The comparator `(a, b) => b.kilograms - a.kilograms`, as "a may precede b". */
  function KgDescending(a: Stats, b: Stats): bool {
    b.kilograms - a.kilograms <= 0
  }

  /** `Object.entries(grouped).map(...).sort(byKilograms).slice(0, 10)` */
  function TopTen(groups: seq<Stats>): seq<Stats> {
    Take(SortBy(groups, KgDescending), 10)
  }

  const ZeroTotals := CargoTotals(0, 0, 0)

  /** The analytics for the three replies: zeroed when any query fails. */
  function AnalyticsOf(season: string, totals: Outcome<Reply<TotalRow>>, species: Outcome<Reply<StatRow>>,
                       countries: Outcome<Reply<StatRow>>): (a: Analytics)
    ensures a.season == season
    ensures |a.topSpecies| <= 10 && |a.topCountries| <= 10
  {
    if totals.Threw? || totals.value.error.Some? || species.Threw? || species.value.error.Some?
       || countries.Threw? || countries.value.error.Some? then
      Analytics(season, ZeroTotals, [], [])
    else
      var t := totals.value.Rows();
      Analytics(season, CargoTotals(|t|, SumOf(t, TotalBoxes), SumOf(t, TotalKilograms)),
                TopTen(Grouped(KeyedByName(species.value.Rows()))),
                TopTen(Grouped(KeyedByName(countries.value.Rows()))))
  }

  method SumTotals(rows: seq<TotalRow>) returns (boxes: int, kilograms: int)
    ensures boxes == SumOf(rows, TotalBoxes) && kilograms == SumOf(rows, TotalKilograms)
  {
    boxes, kilograms := 0, 0;
    var i := 0;
    while i < |rows|
      invariant 0 <= i <= |rows|
      invariant boxes == SumOf(rows[..i], TotalBoxes) && kilograms == SumOf(rows[..i], TotalKilograms)
    {
      SumOfSnoc(rows[..i], rows[i], TotalBoxes);
      SumOfSnoc(rows[..i], rows[i], TotalKilograms);
      assert rows[..i + 1] == rows[..i] + [rows[i]];
      boxes := boxes + OrZero(rows[i].boxes);
      kilograms := kilograms + OrZero(rows[i].kilograms);
      i := i + 1;
    }
    assert rows[..i] == rows;
  }

  method TopGroups(rows: seq<StatRow>) returns (top: seq<Stats>)
    ensures top == TopTen(Grouped(KeyedByName(rows)))
  {
    var groups := GroupRows(KeyedByName(rows));
    var sorted := SortSeq(groups, KgDescending);
    top := Take(sorted, 10);
  }

  /** `getShipmentAnalytics(season)` over the replies of its three queries. */
  method GetShipmentAnalytics(season: Option<string>, totals: Outcome<Reply<TotalRow>>, species: Outcome<Reply<StatRow>>,
                              countries: Outcome<Reply<StatRow>>) returns (r: Analytics)
    ensures r == AnalyticsOf(OrDefault(season, DefaultSeason), totals, species, countries)
  {
    var s := OrDefault(season, DefaultSeason);
    if totals.Threw? || totals.value.error.Some? || species.Threw? || species.value.error.Some?
       || countries.Threw? || countries.value.error.Some? {
      return Analytics(s, ZeroTotals, [], []);
    }
    var t := totals.value.Rows();
    var boxes, kilograms := SumTotals(t);
    var topSpecies := TopGroups(species.value.Rows());
    var topCountries := TopGroups(countries.value.Rows());
    r := Analytics(s, CargoTotals(|t|, boxes, kilograms), topSpecies, topCountries);
  }

  lemma KgDescendingPreorder()
    ensures TotalPreorder(KgDescending)
  {
  }

  /** At most ten entries, kilograms never increasing, each from the grouping, no name twice. */
  lemma TopTenFacts(groups: seq<Stats>)
    requires DistinctBy(groups, StatsKey)
    ensures var t := TopTen(groups);
      |t| == (if |groups| < 10 then |groups| else 10)
      && (forall i, j :: 0 <= i < j < |t| ==> t[i].kilograms >= t[j].kilograms)
      && (forall i :: 0 <= i < |t| ==> t[i] in groups)
      && DistinctBy(t, StatsKey)
  {
    var s := SortBy(groups, KgDescending);
    SortByPermutation(groups, KgDescending);
    SortByMembers(groups, KgDescending);
    KgDescendingPreorder();
    SortBySorted(groups, KgDescending);
    DistinctByPermutation(s, groups, StatsKey);
    var t := TopTen(groups);
    assert forall i :: 0 <= i < |t| ==> t[i] == s[i];
  }

  /** An entry left out of the ten has no more kilograms than any entry kept. */
  lemma TopTenAreLargest(groups: seq<Stats>, x: Stats)
    requires x in groups && x !in TopTen(groups)
    ensures forall i :: 0 <= i < |TopTen(groups)| ==> TopTen(groups)[i].kilograms >= x.kilograms
  {
    var s := SortBy(groups, KgDescending);
    SortByMembers(groups, KgDescending);
    KgDescendingPreorder();
    SortBySorted(groups, KgDescending);
    var j :| 0 <= j < |s| && s[j] == x;
    assert j >= 10;
    forall i | 0 <= i < |TopTen(groups)| ensures TopTen(groups)[i].kilograms >= x.kilograms {
      assert TopTen(groups)[i] == s[i];
      assert KgDescending(s[i], s[j]);
    }
  }

  /**
   * Totals are the row count and the null-as-zero sums; any failed query
   * zeroes everything; the species and country lists are each at most ten
   * distinct names by non-increasing kilograms, `Unknown` standing for a
   * missing name.
   */
  lemma AnalyticsFacts(season: string, totals: Outcome<Reply<TotalRow>>, species: Outcome<Reply<StatRow>>,
                       countries: Outcome<Reply<StatRow>>)
    ensures var a := AnalyticsOf(season, totals, species, countries);
      var failed := totals.Threw? || totals.value.error.Some? || species.Threw? || species.value.error.Some?
        || countries.Threw? || countries.value.error.Some?;
      a.season == season
      && (failed ==> a.totals == ZeroTotals && a.topSpecies == [] && a.topCountries == [])
      && (!failed ==>
            a.totals.shipments == |totals.value.Rows()|
            && a.totals.boxes == SumOf(totals.value.Rows(), TotalBoxes)
            && a.totals.kilograms == SumOf(totals.value.Rows(), TotalKilograms))
      && |a.topSpecies| <= 10 && |a.topCountries| <= 10
      && (forall i, j :: 0 <= i < j < |a.topSpecies| ==> a.topSpecies[i].kilograms >= a.topSpecies[j].kilograms)
      && (forall i, j :: 0 <= i < j < |a.topCountries| ==> a.topCountries[i].kilograms >= a.topCountries[j].kilograms)
  {
    if species.Ok? {
      GroupedFacts(KeyedByName(species.value.Rows()));
      TopTenFacts(Grouped(KeyedByName(species.value.Rows())));
    }
    if countries.Ok? {
      GroupedFacts(KeyedByName(countries.value.Rows()));
      TopTenFacts(Grouped(KeyedByName(countries.value.Rows())));
    }
  }

  // ---------------------------------------------------------------------
  // getWeeklyShipments
  // ---------------------------------------------------------------------

  /** A row of the weekly query (the query excludes rows without a week). */
  datatype WeekRow = WeekRow(week: string, boxes: Option<int>, kilograms: Option<int>)

  function KeyedByWeek(rows: seq<WeekRow>): (r: seq<Keyed>)
    ensures |r| == |rows|
    ensures forall i :: 0 <= i < |rows| ==> r[i] == Keyed(rows[i].week, OrZero(rows[i].boxes), OrZero(rows[i].kilograms))
  {
    seq(|rows|, i requires 0 <= i < |rows| => Keyed(rows[i].week, OrZero(rows[i].boxes), OrZero(rows[i].kilograms)))
  }

  /** `(a, b) => a.week.localeCompare(b.week)`, as "a may precede b". */
  function WeekAscending(a: Stats, b: Stats): bool {
    LexLe(a.key, b.key)
  }

  /** The weekly list for the reply: `[]` when the query fails. */
  function WeeklyOf(reply: Outcome<Reply<WeekRow>>): (r: seq<Stats>)
    ensures reply.Threw? || reply.value.error.Some? ==> r == []
    ensures Sorted(r, WeekAscending)
  {
    if reply.Threw? || reply.value.error.Some? then []
    else
      var groups := Grouped(KeyedByWeek(reply.value.Rows()));
      WeekAscendingPreorder();
      SortBySorted(groups, WeekAscending);
      SortBy(groups, WeekAscending)
  }

  /** `getWeeklyShipments(season)` over the reply of its query. */
  method GetWeeklyShipments(reply: Outcome<Reply<WeekRow>>) returns (r: seq<Stats>)
    ensures r == WeeklyOf(reply)
  {
    if reply.Threw? || reply.value.error.Some? {
      return [];
    }
    var groups := GroupRows(KeyedByWeek(reply.value.Rows()));
    r := SortSeq(groups, WeekAscending);
  }

  lemma WeekAscendingPreorder()
    ensures TotalPreorder(WeekAscending)
  {
    forall a, b ensures WeekAscending(a, b) || WeekAscending(b, a) {
      LexLeTotal(a.key, b.key);
    }
    forall a, b, c | WeekAscending(a, b) && WeekAscending(b, c) ensures WeekAscending(a, c) {
      LexLeTransitive(a.key, b.key, c.key);
    }
  }

  /**
   * One entry per week of the rows, strictly ascending in string order,
   * each with its rows' count and null-as-zero sums.
   */
  lemma WeeklyFacts(rows: seq<WeekRow>)
    ensures var w := WeeklyOf(Ok(Reply(Some(rows), None)));
      (forall i, j :: 0 <= i < j < |w| ==> LexLe(w[i].key, w[j].key) && w[i].key != w[j].key)
      && (forall k :: k in KeySet(w, StatsKey) <==> exists j :: 0 <= j < |rows| && rows[j].week == k)
      && forall i :: 0 <= i < |w| ==>
           var g := Where(KeyedByWeek(rows), KeyOf, w[i].key);
           w[i].shipments == |g| && w[i].boxes == SumOf(g, BoxesOf) && w[i].kilograms == SumOf(g, KilogramsOf)
  {
    var ks := KeyedByWeek(rows);
    var gs := Grouped(ks);
    var w := SortBy(gs, WeekAscending);
    assert WeeklyOf(Ok(Reply(Some(rows), None))) == w;
    GroupedFacts(ks);
    SortByPermutation(gs, WeekAscending);
    SortByMembers(gs, WeekAscending);
    WeekAscendingPreorder();
    SortBySorted(gs, WeekAscending);
    DistinctByPermutation(w, gs, StatsKey);
    forall k ensures k in KeySet(w, StatsKey) <==> k in KeySet(gs, StatsKey) {
      if k in KeySet(w, StatsKey) {
        var x :| x in w && x.key == k;
        assert x in gs;
      }
      if k in KeySet(gs, StatsKey) {
        var x :| x in gs && x.key == k;
        assert x in w;
      }
    }
    forall i | 0 <= i < |w|
      ensures var g := Where(ks, KeyOf, w[i].key);
        w[i].shipments == |g| && w[i].boxes == SumOf(g, BoxesOf) && w[i].kilograms == SumOf(g, KilogramsOf)
    {
      assert w[i] in gs;
      var a :| 0 <= a < |gs| && gs[a] == w[i];
    }
  }
}
