/**
 * The filter record of the exporters dashboard and its URL codec: the
 * comma-separated id lists, the defaults, the week-bound shape, the
 * date-range ordering check and the comparison-size bounds.
 */
module Schemas {
  import opened Common
  import opened Strings
  import opened Weeks

  /** The filter record after `formFiltersSchema` has applied its defaults. */
  datatype FormFilters = FormFilters(
    seasonIds: seq<int>,
    exporterIds: seq<int>,
    speciesIds: seq<int>,
    varietyIds: seq<int>,
    marketIds: seq<int>,
    countryIds: seq<int>,
    regionIds: seq<int>,
    transportTypeIds: seq<int>,
    arrivalPortIds: seq<int>,
    weekFrom: Option<string>,
    weekTo: Option<string>,
    granularity: string,
    metric: string)

  /** The query parameters `filtersToUrlParams` writes and `urlParamsToFilters` reads. */
  datatype ParamKey =
    SeasonsKey | ExportersKey | SpeciesKey | VarietiesKey | MarketsKey | CountriesKey | RegionsKey
    | TransportKey | ArrivalPortsKey | WeekFromKey | WeekToKey | GranularityKey | MetricKey

  /** The name under which each parameter appears in the query string. */
  function ParamName(k: ParamKey): string {
    match k
    case SeasonsKey => "seasons"
    case ExportersKey => "exporters"
    case SpeciesKey => "species"
    case VarietiesKey => "varieties"
    case MarketsKey => "markets"
    case CountriesKey => "countries"
    case RegionsKey => "regions"
    case TransportKey => "transport"
    case ArrivalPortsKey => "arrivalPorts"
    case WeekFromKey => "weekFrom"
    case WeekToKey => "weekTo"
    case GranularityKey => "granularity"
    case MetricKey => "metric"
  }

  /** Distinct parameters have distinct names, so keying the record by parameter loses nothing. */
  lemma ParamNameInjective(a: ParamKey, b: ParamKey)
    requires ParamName(a) == ParamName(b)
    ensures a == b
  {
  }

  /** A `Record<string, string>` of URL query parameters, keyed by parameter. */
  type UrlParams = map<ParamKey, string>

  /** `defaultFilters` */
  const DefaultFilters: FormFilters :=
    FormFilters([], [], [], [], [], [], [], [], [], None, None, "week", "kilograms")

  /** `params[key]`, `undefined` when absent. */
  function Lookup(p: UrlParams, key: ParamKey): Option<string> {
    if key in p then Some(p[key]) else None
  }

  /** JavaScript truthiness of an optional string. */
  predicate TruthyString(s: Option<string>) {
    s.Some? && s.value != ""
  }

  // ---------------------------------------------------------------------
  // parseCommaSeparatedNumbers
  // ---------------------------------------------------------------------

  /** `tokens.map(v => parseInt(v.trim())).filter(n => !isNaN(n))` */
  function ParseTokens(tokens: seq<string>): seq<int> {
    if tokens == [] then []
    else
      match ParseInt(Trim(tokens[0]))
      case None => ParseTokens(tokens[1..])
      case Some(n) => [n] + ParseTokens(tokens[1..])
  }

  /** `parseCommaSeparatedNumbers(value)` */
  function ParseCommaSeparatedNumbers(value: Option<string>): seq<int> {
    if !TruthyString(value) then [] else ParseTokens(Split(value.value, ','))
  }

  /**
   * Nothing, or the empty string, gives no ids; otherwise there is at most one
   * id per comma-separated token, each id is what `parseInt` reads from some
   * token, and every token `parseInt` accepts gives its id.
   */
  lemma ParseCommaSeparatedNumbersMeaning(value: Option<string>)
    ensures !TruthyString(value) ==> ParseCommaSeparatedNumbers(value) == []
    ensures TruthyString(value) ==>
      |ParseCommaSeparatedNumbers(value)| <= |Split(value.value, ',')|
      && (forall n :: n in ParseCommaSeparatedNumbers(value) ==>
        exists t :: t in Split(value.value, ',') && ParseInt(Trim(t)) == Some(n))
      && (forall t :: t in Split(value.value, ',') && ParseInt(Trim(t)).Some? ==>
        ParseInt(Trim(t)).value in ParseCommaSeparatedNumbers(value))
  {
    if TruthyString(value) {
      ParseTokensMeaning(Split(value.value, ','));
    }
  }

  lemma {:induction false} ParseTokensMeaning(tokens: seq<string>)
    ensures |ParseTokens(tokens)| <= |tokens|
    ensures forall n :: n in ParseTokens(tokens) ==> exists t :: t in tokens && ParseInt(Trim(t)) == Some(n)
    ensures forall t :: t in tokens && ParseInt(Trim(t)).Some? ==> ParseInt(Trim(t)).value in ParseTokens(tokens)
    decreases |tokens|
  {
    if tokens != [] {
      ParseTokensMeaning(tokens[1..]);
      forall n | n in ParseTokens(tokens) ensures exists t :: t in tokens && ParseInt(Trim(t)) == Some(n) {
        if n !in ParseTokens(tokens[1..]) {
          assert ParseInt(Trim(tokens[0])) == Some(n);
        } else {
          var t :| t in tokens[1..] && ParseInt(Trim(t)) == Some(n);
          assert t in tokens;
        }
      }
      forall t | t in tokens && ParseInt(Trim(t)).Some? ensures ParseInt(Trim(t)).value in ParseTokens(tokens) {
        if t != tokens[0] {
          assert t in tokens[1..];
        }
      }
    }
  }

  /**
   * The parse keeps its tokens' order: the ids of two runs of tokens are the
   * ids of the first run followed by those of the second.
   */
  lemma {:induction false} ParseTokensAppend(a: seq<string>, b: seq<string>)
    ensures ParseTokens(a + b) == ParseTokens(a) + ParseTokens(b)
    decreases |a|
  {
    if a == [] {
      assert a + b == b;
    } else {
      assert (a + b)[0] == a[0];
      assert (a + b)[1..] == a[1..] + b;
      ParseTokensAppend(a[1..], b);
      match ParseInt(Trim(a[0]))
      case None =>
      case Some(n) =>
        assert ParseTokens(a + b) == [n] + (ParseTokens(a[1..]) + ParseTokens(b));
    }
  }

  /** One token gives its id when `parseInt` accepts it after trimming, and nothing when it reads NaN. */
  lemma ParseTokensSingleton(t: string)
    ensures ParseInt(Trim(t)).Some? ==> ParseTokens([t]) == [ParseInt(Trim(t)).value]
    ensures ParseInt(Trim(t)).None? ==> ParseTokens([t]) == []
  {
    assert [t][1..] == [];
  }

  /** Tokens that are printed integers come back as those integers. */
  lemma {:induction false} ParseTokensOfInts(ids: seq<int>)
    ensures ParseTokens(IntTokens(ids)) == ids
    decreases |ids|
  {
    if ids != [] {
      var t := IntToString(ids[0]);
      TrimIntToString(ids[0]);
      ParseIntOfIntToString(ids[0]);
      assert IntTokens(ids) == [t] + IntTokens(ids[1..]);
      ParseTokensCons(t, IntTokens(ids[1..]), ids[0]);
      ParseTokensOfInts(ids[1..]);
      assert [ids[0]] + ids[1..] == ids;
    }
  }

  lemma ParseTokensCons(t: string, rest: seq<string>, n: int)
    requires ParseInt(Trim(t)) == Some(n)
    ensures ParseTokens([t] + rest) == [n] + ParseTokens(rest)
  {
    assert ([t] + rest)[0] == t;
    assert ([t] + rest)[1..] == rest;
  }

  lemma NoCommaInIntToString(n: int)
    ensures ',' !in IntToString(n)
  {
    var m: nat := if n < 0 then -n else n;
    assert forall i :: 0 <= i < |NatToString(m)| ==> IsDigit(NatToString(m)[i]);
  }

  /** Joining integers with `,` and parsing the result gives the integers back. */
  lemma ParseJoinIds(ids: seq<int>)
    requires |ids| > 0
    ensures TruthyString(Some(JoinIds(ids)))
    ensures ParseCommaSeparatedNumbers(Some(JoinIds(ids))) == ids
  {
    var tokens := IntTokens(ids);
    forall i | 0 <= i < |tokens| ensures ',' !in tokens[i] {
      NoCommaInIntToString(ids[i]);
    }
    SplitJoin(tokens, ',');
    ParseTokensOfInts(ids);
    assert JoinIds(ids) != "" by {
      if JoinIds(ids) == "" {
        assert Split("", ',') == [""];
        IntToStringHead(ids[0]);
      }
    }
  }

  // ---------------------------------------------------------------------
  // filtersToUrlParams / urlParamsToFilters
  // ---------------------------------------------------------------------

  /** An id-list parameter: present exactly when the list is non-empty, holding the ids joined by `,`. */
  predicate ListParam(p: UrlParams, key: ParamKey, ids: seq<int>) {
    (key in p <==> |ids| > 0) && (key in p ==> p[key] == JoinIds(ids))
  }

  /** A week-bound parameter: present exactly when the bound is a non-empty string, holding it. */
  predicate WeekParam(p: UrlParams, key: ParamKey, bound: Option<string>) {
    (key in p <==> TruthyString(bound)) && (key in p ==> p[key] == bound.value)
  }

  /** A parameter with a default: present exactly when the value differs from the default, holding it. */
  predicate ChoiceParam(p: UrlParams, key: ParamKey, value: string, default: string) {
    (key in p <==> value != default) && (key in p ==> p[key] == value)
  }

  /**
   * What `filtersToUrlParams(f)` writes: each list key exactly when its list is
   * non-empty, with the ids joined by `,`; `weekFrom` and `weekTo` when they
   * are non-empty; `granularity` unless it is `'week'`; `metric` unless it is
   * `'kilograms'`; and nothing else.
   */
  predicate UrlParamsOf(f: FormFilters, p: UrlParams) {
    ListParam(p, SeasonsKey, f.seasonIds)
    && ListParam(p, ExportersKey, f.exporterIds)
    && ListParam(p, SpeciesKey, f.speciesIds)
    && ListParam(p, VarietiesKey, f.varietyIds)
    && ListParam(p, MarketsKey, f.marketIds)
    && ListParam(p, CountriesKey, f.countryIds)
    && ListParam(p, RegionsKey, f.regionIds)
    && ListParam(p, TransportKey, f.transportTypeIds)
    && ListParam(p, ArrivalPortsKey, f.arrivalPortIds)
    && WeekParam(p, WeekFromKey, f.weekFrom)
    && WeekParam(p, WeekToKey, f.weekTo)
    && ChoiceParam(p, GranularityKey, f.granularity, "week")
    && ChoiceParam(p, MetricKey, f.metric, "kilograms")
  }

  /** Key `key` is the same in both records: present in both or neither, with the same value. */
  predicate SameParam(p: UrlParams, q: UrlParams, key: ParamKey) {
    (key in q <==> key in p) && (key in q ==> q[key] == p[key])
  }

  /** The `seasons` and `exporters` assignments of `filtersToUrlParams`; every other key is left as it was. */
  method WriteSeasonsExporters(filters: FormFilters, written: UrlParams) returns (params: UrlParams)
    requires SeasonsKey !in written
    requires ExportersKey !in written
    ensures ListParam(params, SeasonsKey, filters.seasonIds)
    ensures ListParam(params, ExportersKey, filters.exporterIds)
    ensures SameParam(written, params, SpeciesKey)
    ensures SameParam(written, params, VarietiesKey)
    ensures SameParam(written, params, MarketsKey)
    ensures SameParam(written, params, CountriesKey)
    ensures SameParam(written, params, RegionsKey)
    ensures SameParam(written, params, TransportKey)
    ensures SameParam(written, params, ArrivalPortsKey)
    ensures SameParam(written, params, WeekFromKey)
    ensures SameParam(written, params, WeekToKey)
    ensures SameParam(written, params, GranularityKey)
    ensures SameParam(written, params, MetricKey)
  {
    params := written;
    if |filters.seasonIds| > 0 { params := params[SeasonsKey := JoinIds(filters.seasonIds)]; }
    if |filters.exporterIds| > 0 { params := params[ExportersKey := JoinIds(filters.exporterIds)]; }
  }

  /** The `species` and `varieties` assignments of `filtersToUrlParams`; every other key is left as it was. */
  method WriteSpeciesVarieties(filters: FormFilters, written: UrlParams) returns (params: UrlParams)
    requires SpeciesKey !in written
    requires VarietiesKey !in written
    ensures ListParam(params, SpeciesKey, filters.speciesIds)
    ensures ListParam(params, VarietiesKey, filters.varietyIds)
    ensures SameParam(written, params, SeasonsKey)
    ensures SameParam(written, params, ExportersKey)
    ensures SameParam(written, params, MarketsKey)
    ensures SameParam(written, params, CountriesKey)
    ensures SameParam(written, params, RegionsKey)
    ensures SameParam(written, params, TransportKey)
    ensures SameParam(written, params, ArrivalPortsKey)
    ensures SameParam(written, params, WeekFromKey)
    ensures SameParam(written, params, WeekToKey)
    ensures SameParam(written, params, GranularityKey)
    ensures SameParam(written, params, MetricKey)
  {
    params := written;
    if |filters.speciesIds| > 0 { params := params[SpeciesKey := JoinIds(filters.speciesIds)]; }
    if |filters.varietyIds| > 0 { params := params[VarietiesKey := JoinIds(filters.varietyIds)]; }
  }

  /** The `markets` and `countries` assignments of `filtersToUrlParams`; every other key is left as it was. */
  method WriteMarketsCountries(filters: FormFilters, written: UrlParams) returns (params: UrlParams)
    requires MarketsKey !in written
    requires CountriesKey !in written
    ensures ListParam(params, MarketsKey, filters.marketIds)
    ensures ListParam(params, CountriesKey, filters.countryIds)
    ensures SameParam(written, params, SeasonsKey)
    ensures SameParam(written, params, ExportersKey)
    ensures SameParam(written, params, SpeciesKey)
    ensures SameParam(written, params, VarietiesKey)
    ensures SameParam(written, params, RegionsKey)
    ensures SameParam(written, params, TransportKey)
    ensures SameParam(written, params, ArrivalPortsKey)
    ensures SameParam(written, params, WeekFromKey)
    ensures SameParam(written, params, WeekToKey)
    ensures SameParam(written, params, GranularityKey)
    ensures SameParam(written, params, MetricKey)
  {
    params := written;
    if |filters.marketIds| > 0 { params := params[MarketsKey := JoinIds(filters.marketIds)]; }
    if |filters.countryIds| > 0 { params := params[CountriesKey := JoinIds(filters.countryIds)]; }
  }

  /** The `regions` and `transport` assignments of `filtersToUrlParams`; every other key is left as it was. */
  method WriteRegionsTransport(filters: FormFilters, written: UrlParams) returns (params: UrlParams)
    requires RegionsKey !in written
    requires TransportKey !in written
    ensures ListParam(params, RegionsKey, filters.regionIds)
    ensures ListParam(params, TransportKey, filters.transportTypeIds)
    ensures SameParam(written, params, SeasonsKey)
    ensures SameParam(written, params, ExportersKey)
    ensures SameParam(written, params, SpeciesKey)
    ensures SameParam(written, params, VarietiesKey)
    ensures SameParam(written, params, MarketsKey)
    ensures SameParam(written, params, CountriesKey)
    ensures SameParam(written, params, ArrivalPortsKey)
    ensures SameParam(written, params, WeekFromKey)
    ensures SameParam(written, params, WeekToKey)
    ensures SameParam(written, params, GranularityKey)
    ensures SameParam(written, params, MetricKey)
  {
    params := written;
    if |filters.regionIds| > 0 { params := params[RegionsKey := JoinIds(filters.regionIds)]; }
    if |filters.transportTypeIds| > 0 { params := params[TransportKey := JoinIds(filters.transportTypeIds)]; }
  }

  /** The `arrivalPorts` assignment of `filtersToUrlParams`; every other key is left as it was. */
  method WriteArrivalPorts(filters: FormFilters, written: UrlParams) returns (params: UrlParams)
    requires ArrivalPortsKey !in written
    ensures ListParam(params, ArrivalPortsKey, filters.arrivalPortIds)
    ensures SameParam(written, params, SeasonsKey)
    ensures SameParam(written, params, ExportersKey)
    ensures SameParam(written, params, SpeciesKey)
    ensures SameParam(written, params, VarietiesKey)
    ensures SameParam(written, params, MarketsKey)
    ensures SameParam(written, params, CountriesKey)
    ensures SameParam(written, params, RegionsKey)
    ensures SameParam(written, params, TransportKey)
    ensures SameParam(written, params, WeekFromKey)
    ensures SameParam(written, params, WeekToKey)
    ensures SameParam(written, params, GranularityKey)
    ensures SameParam(written, params, MetricKey)
  {
    params := written;
    if |filters.arrivalPortIds| > 0 { params := params[ArrivalPortsKey := JoinIds(filters.arrivalPortIds)]; }
  }

  /** The `weekFrom` and `weekTo` assignments of `filtersToUrlParams`; every other key is left as it was. */
  method WriteWeekBounds(filters: FormFilters, written: UrlParams) returns (params: UrlParams)
    requires WeekFromKey !in written
    requires WeekToKey !in written
    ensures WeekParam(params, WeekFromKey, filters.weekFrom)
    ensures WeekParam(params, WeekToKey, filters.weekTo)
    ensures SameParam(written, params, SeasonsKey)
    ensures SameParam(written, params, ExportersKey)
    ensures SameParam(written, params, SpeciesKey)
    ensures SameParam(written, params, VarietiesKey)
    ensures SameParam(written, params, MarketsKey)
    ensures SameParam(written, params, CountriesKey)
    ensures SameParam(written, params, RegionsKey)
    ensures SameParam(written, params, TransportKey)
    ensures SameParam(written, params, ArrivalPortsKey)
    ensures SameParam(written, params, GranularityKey)
    ensures SameParam(written, params, MetricKey)
  {
    params := written;
    if TruthyString(filters.weekFrom) { params := params[WeekFromKey := filters.weekFrom.value]; }
    if TruthyString(filters.weekTo) { params := params[WeekToKey := filters.weekTo.value]; }
  }

  /** The `granularity` and `metric` assignments of `filtersToUrlParams`; every other key is left as it was. */
  method WriteChoices(filters: FormFilters, written: UrlParams) returns (params: UrlParams)
    requires GranularityKey !in written
    requires MetricKey !in written
    ensures ChoiceParam(params, GranularityKey, filters.granularity, "week")
    ensures ChoiceParam(params, MetricKey, filters.metric, "kilograms")
    ensures SameParam(written, params, SeasonsKey)
    ensures SameParam(written, params, ExportersKey)
    ensures SameParam(written, params, SpeciesKey)
    ensures SameParam(written, params, VarietiesKey)
    ensures SameParam(written, params, MarketsKey)
    ensures SameParam(written, params, CountriesKey)
    ensures SameParam(written, params, RegionsKey)
    ensures SameParam(written, params, TransportKey)
    ensures SameParam(written, params, ArrivalPortsKey)
    ensures SameParam(written, params, WeekFromKey)
    ensures SameParam(written, params, WeekToKey)
  {
    params := written;
    if filters.granularity != "week" { params := params[GranularityKey := filters.granularity]; }
    if filters.metric != "kilograms" { params := params[MetricKey := filters.metric]; }
  }

  /** `filtersToUrlParams(filters)`: one conditional assignment per field, on an empty record. */
  method FiltersToUrlParams(filters: FormFilters) returns (params: UrlParams)
    ensures UrlParamsOf(filters, params)
  {
    params := map[];
    params := WriteSeasonsExporters(filters, params);
    params := WriteSpeciesVarieties(filters, params);
    params := WriteMarketsCountries(filters, params);
    params := WriteRegionsTransport(filters, params);
    params := WriteArrivalPorts(filters, params);
    params := WriteWeekBounds(filters, params);
    params := WriteChoices(filters, params);
  }

  /** `value || fallback` for an optional string. */
  function OrDefault(value: Option<string>, fallback: string): string {
    if TruthyString(value) then value.value else fallback
  }

  /** `urlParamsToFilters(params)`; the `as` casts check nothing, so any string passes. */
  function UrlParamsToFilters(params: UrlParams): (f: FormFilters)
    ensures f.granularity != "" && f.metric != ""
    ensures !TruthyString(Lookup(params, GranularityKey)) ==> f.granularity == "week"
    ensures TruthyString(Lookup(params, GranularityKey)) ==> Lookup(params, GranularityKey) == Some(f.granularity)
    ensures !TruthyString(Lookup(params, MetricKey)) ==> f.metric == "kilograms"
    ensures TruthyString(Lookup(params, MetricKey)) ==> Lookup(params, MetricKey) == Some(f.metric)
    ensures f.weekFrom == Lookup(params, WeekFromKey) && f.weekTo == Lookup(params, WeekToKey)
  {
    FormFilters(
      ParseCommaSeparatedNumbers(Lookup(params, SeasonsKey)),
      ParseCommaSeparatedNumbers(Lookup(params, ExportersKey)),
      ParseCommaSeparatedNumbers(Lookup(params, SpeciesKey)),
      ParseCommaSeparatedNumbers(Lookup(params, VarietiesKey)),
      ParseCommaSeparatedNumbers(Lookup(params, MarketsKey)),
      ParseCommaSeparatedNumbers(Lookup(params, CountriesKey)),
      ParseCommaSeparatedNumbers(Lookup(params, RegionsKey)),
      ParseCommaSeparatedNumbers(Lookup(params, TransportKey)),
      ParseCommaSeparatedNumbers(Lookup(params, ArrivalPortsKey)),
      Lookup(params, WeekFromKey),
      Lookup(params, WeekToKey),
      OrDefault(Lookup(params, GranularityKey), "week"),
      OrDefault(Lookup(params, MetricKey), "kilograms"))
  }

  /** One id list survives the trip through the URL. */
  lemma ListRoundTrip(p: UrlParams, key: ParamKey, ids: seq<int>)
    requires ListParam(p, key, ids)
    ensures ParseCommaSeparatedNumbers(Lookup(p, key)) == ids
  {
    if |ids| > 0 {
      ParseJoinIds(ids);
    }
  }

  /**
   * Round trip: reading back the parameters written for `f` gives `f`, as long
   * as the week bounds are absent or non-empty and granularity and metric are
   * non-empty (an empty week bound is dropped, and an empty granularity or
   * metric comes back as the default).
   */
  lemma UrlRoundTrip(f: FormFilters, p: UrlParams)
    requires UrlParamsOf(f, p)
    requires f.weekFrom.None? || f.weekFrom.value != ""
    requires f.weekTo.None? || f.weekTo.value != ""
    requires f.granularity != "" && f.metric != ""
    ensures UrlParamsToFilters(p) == f
  {
    ListRoundTrip(p, SeasonsKey, f.seasonIds);
    ListRoundTrip(p, ExportersKey, f.exporterIds);
    ListRoundTrip(p, SpeciesKey, f.speciesIds);
    ListRoundTrip(p, VarietiesKey, f.varietyIds);
    ListRoundTrip(p, MarketsKey, f.marketIds);
    ListRoundTrip(p, CountriesKey, f.countryIds);
    ListRoundTrip(p, RegionsKey, f.regionIds);
    ListRoundTrip(p, TransportKey, f.transportTypeIds);
    ListRoundTrip(p, ArrivalPortsKey, f.arrivalPortIds);
  }

  /** The default filters write no parameter at all. */
  lemma DefaultFiltersWriteNothing(p: UrlParams)
    requires UrlParamsOf(DefaultFilters, p)
    ensures p == map[]
  {
    forall k: ParamKey ensures k !in p {
      assert k.SeasonsKey? || k.ExportersKey? || k.SpeciesKey? || k.VarietiesKey? || k.MarketsKey?
        || k.CountriesKey? || k.RegionsKey? || k.TransportKey? || k.ArrivalPortsKey?
        || k.WeekFromKey? || k.WeekToKey? || k.GranularityKey? || k.MetricKey?;
    }
    assert p.Keys == {};
  }

  /** An empty query reads as the default filters. */
  lemma EmptyParamsReadAsDefaults()
    ensures UrlParamsToFilters(map[]) == DefaultFilters
  {
  }

  /** The parameter record describes its filters completely: there is only one for each `f`. */
  lemma UrlParamsOfUnique(f: FormFilters, p: UrlParams, q: UrlParams)
    requires UrlParamsOf(f, p) && UrlParamsOf(f, q)
    ensures p == q
  {
    forall k: ParamKey ensures (k in p <==> k in q) && (k in p ==> p[k] == q[k]) {
      assert k.SeasonsKey? || k.ExportersKey? || k.SpeciesKey? || k.VarietiesKey? || k.MarketsKey?
        || k.CountriesKey? || k.RegionsKey? || k.TransportKey? || k.ArrivalPortsKey?
        || k.WeekFromKey? || k.WeekToKey? || k.GranularityKey? || k.MetricKey?;
    }
    assert p.Keys == q.Keys;
  }

  // ---------------------------------------------------------------------
  // Week bounds, date range, comparison
  // ---------------------------------------------------------------------

  /** A week bound of `exportersFiltersSchema`: absent, or of the `YYYY-Www` shape. */
  predicate WeekBoundAccepted(bound: Option<string>) {
    bound.None? || IsWeekShape(bound.value)
  }

  /** `a > b` on numbers that may be `NaN` (`None`): false whenever one is `NaN`. */
  predicate JsGreater(a: Option<int>, b: Option<int>) {
    a.Some? && b.Some? && a.value > b.value
  }

  /** `a === b` on numbers that may be `NaN`: `NaN` equals nothing. */
  predicate JsEqual(a: Option<int>, b: Option<int>) {
    a.Some? && b.Some? && a.value == b.value
  }

  /** `parts[i]` read through `parseInt`: `parseInt(undefined)` is `NaN`. */
  function ParsePart(parts: seq<string>, i: nat): Option<int> {
    if i < |parts| then ParseInt(parts[i]) else None
  }

  /** The refinement of `dateRangeSchema`, on any two strings. */
  predicate DateRangeRefine(weekFrom: string, weekTo: string)
    ensures weekFrom == weekTo ==> DateRangeRefine(weekFrom, weekTo)
  {
    if weekFrom == "" || weekTo == "" then true
    else
      var from := SplitOn(weekFrom, "-W");
      var to := SplitOn(weekTo, "-W");
      if JsGreater(ParsePart(from, 0), ParsePart(to, 0)) then false
      else if JsEqual(ParsePart(from, 0), ParsePart(to, 0)) && JsGreater(ParsePart(from, 1), ParsePart(to, 1)) then false
      else true
  }

  /** `dateRangeSchema` accepts a pair when both match the week regex and the refinement holds. */
  predicate DateRangeAccepted(weekFrom: string, weekTo: string) {
    IsWeekShape(weekFrom) && IsWeekShape(weekTo) && DateRangeRefine(weekFrom, weekTo)
  }

  /**
   * On shaped week strings the refinement holds exactly when (year, week) of
   * the start is at most that of the end, compared as integers; an empty bound
   * always passes it.
   */
  lemma DateRangeRefineMeaning(weekFrom: string, weekTo: string)
    ensures weekFrom == "" || weekTo == "" ==> DateRangeRefine(weekFrom, weekTo)
    ensures IsWeekShape(weekFrom) && IsWeekShape(weekTo) ==>
      (DateRangeRefine(weekFrom, weekTo) <==>
        YearOf(weekFrom) < YearOf(weekTo) || (YearOf(weekFrom) == YearOf(weekTo) && WeekOf(weekFrom) <= WeekOf(weekTo)))
  {
    if IsWeekShape(weekFrom) && IsWeekShape(weekTo) {
      var from := SplitOn(weekFrom, "-W");
      var to := SplitOn(weekTo, "-W");
      WeekParts(weekFrom);
      WeekParts(weekTo);
      assert ParsePart(from, 0) == Some(YearOf(weekFrom) as int) && ParsePart(from, 1) == Some(WeekOf(weekFrom) as int);
      assert ParsePart(to, 0) == Some(YearOf(weekTo) as int) && ParsePart(to, 1) == Some(WeekOf(weekTo) as int);
    }
  }

  /** The accepted date ranges are those whose start is not after their end in string order. */
  lemma DateRangeAcceptedIsOrder(weekFrom: string, weekTo: string)
    ensures DateRangeAccepted(weekFrom, weekTo) <==>
      IsWeekShape(weekFrom) && IsWeekShape(weekTo) && LexLe(weekFrom, weekTo)
  {
    DateRangeRefineMeaning(weekFrom, weekTo);
    if IsWeekShape(weekFrom) && IsWeekShape(weekTo) {
      WeekOrder(weekFrom, weekTo);
      WeekOfBound(weekFrom);
      WeekOfBound(weekTo);
    }
  }

  datatype Validation<T> = Valid(value: T) | Invalid(message: string)

  /** `exporterComparisonSchema` on the exporter id list: from 2 to 5 ids. */
  function ValidateComparison(exporterIds: seq<int>): (r: Validation<seq<int>>)
  {
    if |exporterIds| < 2 then Invalid("Select at least 2 exporters to compare")
    else if |exporterIds| > 5 then Invalid("Maximum 5 exporters for comparison")
    else Valid(exporterIds)
  }

  /** The comparison accepts a list exactly when it holds 2 to 5 ids, and then keeps it as it is. */
  lemma ValidateComparisonMeaning(exporterIds: seq<int>)
    ensures ValidateComparison(exporterIds).Valid? <==> 2 <= |exporterIds| <= 5
    ensures ValidateComparison(exporterIds).Valid? ==> ValidateComparison(exporterIds).value == exporterIds
  {
  }
}
