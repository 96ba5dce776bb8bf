# Expo_Hub analytics core in Dafny

Expo_Hub is a dashboard for Chilean fruit exports. It covers exporters, shipments, markets, species and seasons, and adds an AI assistant that answers questions about the data. This project models the logic that sits between the database and the screens, and proves properties of that model. The logic falls into ten parts.

- **Filter record and URL codec** (`Schemas`). This covers comma-separated id lists, the defaults, the `YYYY-Www` week bounds, the week-range check and the comparison-size bounds.
- **Week utilities and number classifiers** (`Format`, with `Weeks`). `isValidWeekFormat` checks a week string. `generateWeekRange` is a loop. Around them are the percentage change, the index-100 normalisation, the colour cycle and the sign classification of formatted percentages.
- **Exporters API handler** (`ExportersRoute`). This covers:
  - the filter record sent to the database functions;
  - the paged scans over 1000-row ranges;
  - the accurate totals;
  - the per-exporter `Map` aggregation and its sort;
  - the global KPI record, with its fallback constants, year-over-year change and retention.
- **Query helpers** (`ExporterQueries`). These are the SQL WHERE string builder and the grouping done for the KPI record, timeseries, top-N lists and per-season rankings.
- **Plan executor of the assistant** (`Executors`). It dispatches a plan on its intent, turns every failure into an error result, and aggregates a company search.
- **Assistant endpoint** (`AiRoute`). This covers:
  - size-bounded JSON clipping;
  - the brace-span candidate in the model's reply;
  - the keyword fallback router and the demo router;
  - extraction of a capitalised company name;
  - the request guards and the bounded answer payload.
- **FullCargo shipment API** (`FullCargo`). It handles page offsets and truthy equality filters, totals, the per-name and per-week folds, and the top-ten lists.
- **Kanban store** (`Kanban`). This is a class with `tasks`, `columns` and `draggedTask`. Each action is a method taking the outcome of its remote call, and changes the store only when that call succeeds.
- **Selection logic of the multi-select box** (`MultiSearchSelect`) and **exporter comparison chart** (`CompareChart`). These are toggle updates, one of them capped at five. They also cover the selected and filtered options, the trigger text, the chart rows over the union of periods, and growth rates.

Four shared modules support the rest:
- `Common`: nullable values, JavaScript truthiness, sums, filters, `slice`, `Math.max`/`Math.min`.
- `Strings`: `String(n)`, `parseInt`, `trim`, `split`, `join`, `includes`, ASCII case mapping and code-point order (equal to code-unit order on the Basic Multilingual Plane).
- `Grouping`: the distinct keys of a `Map` filled row by row, one key's rows, per-key sums, and the sets of distinct truthy ids.
- `Sorting`: the stable sort `Array.prototype.sort` performs, as a function and as an in-place insertion sort on an array.

The model follows the form of the code. Loops that push or reassign are methods with loop invariants, each proved equal to a specification function:
- `generateWeekRange`;
- the paged scans;
- the `Map`-filling `forEach` loops;
- `filtersToUrlParams`;
- the in-place sort.

The kanban store is a class. Expression-only code is made of functions. Database and language-model calls are parameters: a reply, an outcome, or a function from request to reply.

## Model

| member | source | states |
|---|---|---|
| Schemas.ParamNameInjective | src/lib/schemas/exporters.ts:27-41 | the thirteen URL parameters have pairwise distinct names, so a record keyed by parameter is the string-keyed record |
| Schemas.ParseCommaSeparatedNumbersMeaning | src/lib/schemas/exporters.ts:129-137 | a missing or empty value gives no ids; otherwise at most one id per comma-separated token, each read by `parseInt` from a trimmed token, and every token `parseInt` accepts gives its id |
| Schemas.ParseTokensMeaning | src/lib/schemas/exporters.ts:133-136 | the map-then-filter keeps at most one number per token, every kept number is a token's `parseInt` value, and every accepted token's value is kept |
| Schemas.ParseTokensAppend | src/lib/schemas/exporters.ts:133-136 | the ids of two runs of tokens are the ids of the first run followed by those of the second, so the kept ids keep their tokens' order |
| Schemas.ParseTokensSingleton | src/lib/schemas/exporters.ts:135-136 | one token gives its `parseInt` value after trimming, or nothing when that value is NaN |
| Schemas.ParseTokensOfInts | src/lib/schemas/exporters.ts:133-136 | tokens that are printed integers are read back as exactly those integers, in order |
| Schemas.ParseJoinIds | src/lib/schemas/exporters.ts:129-137 | a non-empty id list joined with `,` is a truthy string that parses back to the same list |
| Schemas.WriteSeasonsExporters | src/lib/schemas/exporters.ts:145-148 | `seasons` / `exporters` are present exactly when their lists are non-empty, holding the joined ids; every other key is untouched |
| Schemas.WriteSpeciesVarieties | src/lib/schemas/exporters.ts:149-152 | `species` / `varieties` are present exactly when their lists are non-empty, holding the joined ids; every other key is untouched |
| Schemas.WriteMarketsCountries | src/lib/schemas/exporters.ts:153-156 | `markets` / `countries` are present exactly when their lists are non-empty, holding the joined ids; every other key is untouched |
| Schemas.WriteRegionsTransport | src/lib/schemas/exporters.ts:157-160 | `regions` / `transport` are present exactly when their lists are non-empty, holding the joined ids; every other key is untouched |
| Schemas.WriteArrivalPorts | src/lib/schemas/exporters.ts:161-162 | `arrivalPorts` is present exactly when its list is non-empty, holding the joined ids; every other key is untouched |
| Schemas.WriteWeekBounds | src/lib/schemas/exporters.ts:163-164 | `weekFrom` / `weekTo` are present exactly when the bound is a non-empty string, holding it; every other key is untouched |
| Schemas.WriteChoices | src/lib/schemas/exporters.ts:165-166 | `granularity` is present exactly when it is not `week`, `metric` exactly when it is not `kilograms`; every other key is untouched |
| Schemas.FiltersToUrlParams | src/lib/schemas/exporters.ts:140-169 | the record holds one entry per non-default field, with its value, and nothing else |
| Schemas.ListRoundTrip | src/lib/schemas/exporters.ts:176-184 | an id list written by `filtersToUrlParams` is read back unchanged by `parseCommaSeparatedNumbers` |
| Schemas.UrlRoundTrip | src/lib/schemas/exporters.ts:140-190 | `urlParamsToFilters(filtersToUrlParams(f)) == f` whenever week bounds are absent or non-empty and granularity and metric are non-empty |
| Schemas.UrlParamsToFilters | src/lib/schemas/exporters.ts:172-190 | the granularity and the metric are never empty: a missing or empty parameter falls back to `week` and `kilograms`, any other value is taken as it is; the week bounds are passed through |
| Schemas.DefaultFiltersWriteNothing | src/lib/schemas/exporters.ts:193-207 | the default filters produce the empty parameter record |
| Schemas.EmptyParamsReadAsDefaults | src/lib/schemas/exporters.ts:172-207 | the empty parameter record reads as the default filters |
| Schemas.UrlParamsOfUnique | src/lib/schemas/exporters.ts:140-169 | the written record is determined by the filters: any two records meeting the description are equal |
| Schemas.DateRangeRefineMeaning | src/lib/schemas/exporters.ts:80-100 | an empty bound passes; on `YYYY-Www` strings the refinement holds exactly when (year, week) of the start is at most that of the end |
| Schemas.DateRangeRefine | src/lib/schemas/exporters.ts:80-100 | a range whose two bounds are equal always passes the refinement |
| Schemas.DateRangeAcceptedIsOrder | src/lib/schemas/exporters.ts:71-100 | `dateRangeSchema` accepts exactly the pairs of week strings whose start is not after their end in string order |
| Schemas.ValidateComparisonMeaning | src/lib/schemas/exporters.ts:61-68 | the comparison accepts an id list exactly when it holds 2 to 5 ids, and keeps it unchanged |
| Format.IsValidWeekFormatMeaning | src/lib/format.ts:185-192 | a week string is valid exactly when it matches `YYYY-Www` and its week number is 1 to 53 |
| Format.NextWeekStep | src/lib/format.ts:207-215 | week 53 is followed by week 1 of the next year, any other week by the next week of the same year; the successor is valid and strictly later |
| Format.LastWeekKey | src/lib/format.ts:204-215 | `9999-W53` is the one valid week whose successor leaves the four-digit year shape |
| Format.RangeStep | src/lib/format.ts:204-215 | one turn of the loop below a valid end week moves to a valid, strictly later week on which string `<=` still agrees with week order |
| Format.RangeSoFarStep | src/lib/format.ts:204-215 | one turn of the loop keeps the loop invariant and strictly decreases the distance to the end week |
| Format.WeeksUpTo | src/lib/format.ts:201-218 | the weeks collected start at the start week, each is the successor of the one before, all are `<=` the end week, the next one is past it, and they strictly increase |
| Format.RangeStart | src/lib/format.ts:201-202 | before the first turn nothing is collected and the start week is current |
| Format.RangeDone | src/lib/format.ts:204-218 | when the loop condition fails the collected weeks are the whole range |
| Format.GenerateWeekRange | src/lib/format.ts:195-219 | an invalid start or end week gives `[]`; a start after the end gives `[]`; otherwise the result is the consecutive range from the start up to the end |
| Format.PercentageChangeMeaning | src/lib/format.ts:126-132 | the change is `null` exactly when the previous value is 0; it is 0 exactly when nothing changed and, on a positive base, positive exactly when the value rose |
| Format.YoYChangeBySign | src/lib/format.ts:73-91 | `null` or 0 is amber, a positive change green with a plus sign, a negative change red |
| Format.YoYChangeOfPercentage | src/lib/format.ts:73-132 | against a positive previous value the display is green exactly when the value rose and amber exactly when it is unchanged |
| Format.PercentageLabels | src/lib/format.ts:66-70 | only values from 0.1 up print their digits, unchanged; every negative value prints as `<0.1%` |
| Format.NormalizeToIndex100Meaning | src/lib/format.ts:135-148 | normalising keeps every point's kilograms and boxes in order, starts at 100 unless the first value is 0, and is all zeros when it is |
| Format.ExporterColorCycle | src/lib/format.ts:151-166 | a non-negative id takes colour `id mod 10` and colours repeat every ten ids; a negative id gets a colour only when it is a multiple of ten |
| Weeks.WeekParts | src/lib/format.ts:189-190 | `split('-W')` of a `YYYY-Www` string gives its year and week digits, and `parseInt` reads them as the year and week numbers |
| Weeks.WeekOrder | src/lib/format.ts:204 | on `YYYY-Www` strings, string `<=` holds exactly when (year, week) of the first is at most that of the second |
| Weeks.WeekKeyInjective | src/lib/format.ts:204 | two `YYYY-Www` strings with the same year and week are the same string |
| Weeks.DigitsInjective | src/lib/format.ts:186 | digit strings of one length with the same value are equal |
| Strings.Pad2Value | src/lib/format.ts:214 | `String(n).padStart(2, '0')` of a number up to 99 has two digits that read back as the number |
| Strings.NatToStringValue | src/lib/format.ts:212-214 | reading back the decimal form of a number gives the number |
| Strings.NatToStringLength | src/lib/format.ts:212 | a number from `10^(k-1)` up to below `10^k` prints with `k` digits |
| Strings.ParseIntOfIntToString | src/lib/schemas/exporters.ts:135 | `parseInt(String(n)) == n` for every integer |
| Strings.ParseIntDigits | src/lib/format.ts:190 | `parseInt` of a non-empty digit string, leading zeros included, is its decimal value |
| Strings.ParseInt | src/lib/schemas/exporters.ts:135 | a parsed number comes from non-empty text after the leading whitespace, and it is negative only when that text starts with `-` |
| Strings.ParseIntNegativeDigits | src/lib/schemas/exporters.ts:135 | `parseInt` of `-` followed by a non-empty digit string is minus its decimal value |
| Strings.ParseIntNaN | src/lib/schemas/exporters.ts:135-136 | a token that does not start with a digit, sign or whitespace is `NaN`, so the filter drops it |
| Strings.TrimIntToString | src/lib/schemas/exporters.ts:135 | the printed form of an integer is its own `trim` |
| Strings.TrimShape | src/lib/schemas/exporters.ts:135 | `trim` leaves no whitespace at either end and returns a contiguous piece of its input |
| Strings.Trim | src/lib/schemas/exporters.ts:135 | `trim` never lengthens its input |
| Strings.TrimNoop | src/lib/schemas/exporters.ts:135 | a string without whitespace at either end is its own `trim` |
| Strings.IntToStringInjective | src/lib/queries/exporters.ts:145-161 | `String(a) == String(b)` only when `a == b` |
| Strings.DashKeyInjective | src/lib/queries/exporters.ts:145-161 | the key `${a}-${b}` of two integers determines both integers |
| Strings.SplitJoin | src/lib/schemas/exporters.ts:133-146 | splitting a join on a separator that no piece holds gives back the pieces |
| Strings.Join | src/lib/schemas/exporters.ts:146-162 | a join of at least one piece starts with the first piece |
| Strings.JoinSplit | src/lib/schemas/exporters.ts:133-146 | joining the pieces of a split with the same separator gives back the string |
| Strings.SplitUnfold | src/lib/schemas/exporters.ts:134 | a split on one character is the first piece followed by the split of the rest; `"".split(c)` is `[""]` |
| Strings.Split | src/lib/schemas/exporters.ts:134 | a split always has at least one piece |
| Strings.LexLeTotal | src/lib/format.ts:204 | any two strings are comparable with `<=` |
| Strings.LexLe | src/app/dashboard/exporters/_components/CompareChart.tsx:77 | a prefix of a string never sorts after it |
| Strings.LexLeAntisymmetric | src/lib/format.ts:204 | strings that are `<=` each other are equal |
| Strings.LexLeTransitive | src/lib/format.ts:204 | string `<=` is transitive |
| Strings.LexLeDigits | src/lib/format.ts:204 | on digit strings of one length, string order is numeric order |
| ExportersRoute.SetFirstListParams | src/app/api/exporters/route.ts:42-53 | `p_season_ids`, `p_exporter_ids`, `p_species_ids`, `p_variety_ids` are set exactly when their filter list is non-empty, holding it; the other keys are unchanged |
| ExportersRoute.SetMiddleListParams | src/app/api/exporters/route.ts:54-65 | `p_market_ids`, `p_country_ids`, `p_region_ids`, `p_transport_type_ids` are set exactly when their filter list is non-empty, holding it; the other keys are unchanged |
| ExportersRoute.SetLastParams | src/app/api/exporters/route.ts:66-74 | `p_arrival_port_ids` is set exactly for a non-empty list, `p_week_from` / `p_week_to` exactly for non-empty bounds; the other keys are unchanged |
| ExportersRoute.BuildFilterParams | src/app/api/exporters/route.ts:39-79 | every key is set exactly when its filter is given, holding the filter's value |
| ExportersRoute.HasFiltersMeaning | src/app/api/exporters/route.ts:82-84 | `hasFilters` holds exactly when some filter is given; arrival ports alone are enough |
| ExportersRoute.NoFiltersNoParams | src/app/api/exporters/route.ts:39-84 | with no filter given the record is empty and `hasFilters` is false |
| ExportersRoute.RpcArgsOf | src/app/api/exporters/route.ts:199-226 | the timeseries and tops calls receive every one of the record's eight id lists and both week bounds as they are |
| ExportersRoute.RankingsArgsOf | src/app/api/exporters/route.ts:229-239 | the rankings call receives no exporter ids, and the record's season, species, variety, market, country, region and transport lists and both week bounds as they are |
| ExportersRoute.ArrivalPortsNotForwarded | src/app/api/exporters/route.ts:199-239 | no database call sees the arrival-port filter |
| ExportersRoute.MatchingRowsMeaning | src/app/api/exporters/route.ts:91-126 | the query keeps exactly the rows meeting every given filter, and the arrival-port filter plays no part |
| ExportersRoute.PagesBefore | src/app/api/exporters/route.ts:134-149 | arithmetic step of `PagedScan`'s proof: every request before the last one of a full scan starts inside the table |
| ExportersRoute.ScannedRows | src/app/api/exporters/route.ts:129-149 | the scan collects a prefix of the rows, and all of them when no request fails |
| ExportersRoute.Range | src/app/api/exporters/route.ts:135 | a page holds at most 1000 rows |
| ExportersRoute.PageCount | src/app/api/exporters/route.ts:134-149 | arithmetic step of `PagedScan`'s proof: a table of `n` rows holds `n / 1000` full pages |
| ExportersRoute.PagedScan | src/app/api/exporters/route.ts:129-149 | the loop collects the scanned rows with `n / 1000 + 1` requests when nothing fails, and stops with the pages before a failing request |
| ExportersRoute.AccurateTotals | src/app/api/exporters/route.ts:151-184 | there are totals exactly when rows were collected |
| ExportersRoute.AccurateTotalsMeaning | src/app/api/exporters/route.ts:151-184 | the totals sum kilograms and boxes with missing values as 0, and each unique count is the number of distinct non-zero ids, at most one per row |
| ExportersRoute.AccOfSnoc | src/app/api/exporters/route.ts:335-354 | a row changes its own exporter's entry and no other |
| ExportersRoute.AccOfAbsent | src/app/api/exporters/route.ts:338-347 | an exporter with no rows has the empty entry |
| ExportersRoute.ToKpi | src/app/api/exporters/route.ts:358-372 | the record keeps the entry's id and sums, counts its distinct importers and varieties, and has `kgPerBox` only for positive boxes |
| ExportersRoute.AggregateExporters | src/app/api/exporters/route.ts:333-375 | the exporters are the per-exporter records of the rows, sorted by kilograms |
| ExportersRoute.FillExportersMap | src/app/api/exporters/route.ts:333-355 | the map holds one entry per distinct exporter id, in order of first appearance, each accumulated over that exporter's rows |
| ExportersRoute.AccOfStep | src/app/api/exporters/route.ts:349-353 | one row adds its kilograms, boxes and truthy ids to its own exporter's entry only |
| ExportersRoute.KilogramsDescendingPreorder | src/app/api/exporters/route.ts:375 | the kilograms comparator is a total preorder |
| ExportersRoute.ExporterKpisSorted | src/app/api/exporters/route.ts:375 | after the sort kilograms never increase along the list |
| ExportersRoute.ExporterKpisEntries | src/app/api/exporters/route.ts:333-375 | one record per distinct exporter id, each holding exactly that exporter's sums and distinct counts |
| ExportersRoute.ExporterKpisTotals | src/app/api/exporters/route.ts:333-375 | the records' kilograms and boxes add up to the rows' sums |
| ExportersRoute.ExporterKpisRatio | src/app/api/exporters/route.ts:364-365 | every record's `kgPerBox` is null exactly when its boxes are not positive |
| ExportersRoute.GlobalYoy | src/app/api/exporters/route.ts:378-391 | there are year-over-year sums exactly when rows came back, and they are the sums of the rows |
| ExportersRoute.YoyChange | src/app/api/exporters/route.ts:404-415 | the change is null exactly when the previous value is not positive, and otherwise the percentage change |
| ExportersRoute.YoyChangeSign | src/app/api/exporters/route.ts:404-415 | a positive change means growth, zero none, a negative one a fall |
| ExportersRoute.Retention | src/app/api/exporters/route.ts:417-423 | the retention is null without rows and otherwise the mean of the rates, a missing rate counting as 0 |
| ExportersRoute.RetentionBounds | src/app/api/exporters/route.ts:417-423 | the mean lies between the smallest and the largest rate |
| ExportersRoute.YoySeasons | src/app/api/exporters/route.ts:242-257 | the calls are made exactly when two or more seasons are given, with the largest as current and the smallest as previous |
| ExportersRoute.GlobalFallbacks | src/app/api/exporters/route.ts:394-426 | without totals every count is its fallback constant; with them a 0 total is replaced by the same constant and any other is kept |
| ExportersRoute.GlobalYoyMeaning | src/app/api/exporters/route.ts:404-415 | the year-over-year fields are null unless there are previous-season kilograms (boxes), and then the percentage change of the summed rows |
| ExportersRoute.ExportersKpis | src/app/api/exporters/route.ts:79-426 | with filters the exporters are the records of the scanned matching rows and the global record uses the scan's totals; without filters there are no exporters and the fallbacks apply |
| ExporterQueries.ListCondition | src/lib/queries/exporters.ts:24-56 | a non-empty id list adds exactly one condition, an absent or empty one none |
| ExporterQueries.WeekCondition | src/lib/queries/exporters.ts:58-64 | a non-empty week bound adds exactly one condition, an absent or empty one none |
| ExporterQueries.PushListCondition | src/lib/queries/exporters.ts:24-56 | the conditions grow by the one condition of a non-empty id list, or stay as they were |
| ExporterQueries.PushWeekCondition | src/lib/queries/exporters.ts:58-64 | the conditions grow by the one condition of a non-empty week bound, or stay as they were |
| ExporterQueries.BuildWhereClause | src/lib/queries/exporters.ts:21-67 | the clause is empty exactly when no filter it knows is set, and otherwise `WHERE ` and the conditions joined by ` AND ` |
| ExporterQueries.WhereConditionsCount | src/lib/queries/exporters.ts:21-67 | there is one condition per set filter, so none exactly when no such filter is set |
| ExporterQueries.WhereConditionsIgnoreArrivalPorts | src/lib/queries/exporters.ts:21-67 | the arrival-port filter never changes the conditions |
| ExporterQueries.ExporterEntryOfSteps | src/lib/queries/exporters.ts:96-116 | an exporter's entry is created from its first row and then updated by every row in turn |
| ExporterQueries.ToExporterKpi | src/lib/queries/exporters.ts:118-132 | the record keeps the entry's id, name and sums, counts its distinct importers and varieties, has `kgPerBox` only for positive boxes, and no year-on-year fields |
| ExporterQueries.GlobalKpiOf | src/lib/queries/exporters.ts:135-162 | the global record has `kgPerBox` only for positive boxes and no year-on-year fields |
| ExporterQueries.GetExportersKpis | src/lib/queries/exporters.ts:70-169 | a query error is rethrown; otherwise the result is the global record and the per-exporter records of the rows |
| ExporterQueries.ExporterKpisOfMeaning | src/lib/queries/exporters.ts:94-132 | one record per distinct exporter id of the rows, each with its first row's name, its sums and its distinct truthy importer and variety counts |
| ExporterQueries.ExporterKpisOf | src/lib/queries/exporters.ts:94-132 | one record per distinct exporter id of the rows, in first-seen order |
| ExporterQueries.CountKeyInjective | src/lib/queries/exporters.ts:145-161 | the keys `${exporterId}-${i}` differ whenever the exporter or the index differs |
| ExporterQueries.CountKeysMembers | src/lib/queries/exporters.ts:147-150 | `Array.from({ length: n }, ...)` makes exactly the keys of indexes 0 to n-1 |
| ExporterQueries.CountKeysSize | src/lib/queries/exporters.ts:147-150 | one exporter contributes exactly `n` distinct keys |
| ExporterQueries.FlatCountKeysMembers | src/lib/queries/exporters.ts:145-152 | every key in the set is the key of some exporter and an index below its count |
| ExporterQueries.FlatCountKeysDisjoint | src/lib/queries/exporters.ts:145-152 | an exporter whose id no earlier record has adds only new keys |
| ExporterQueries.FlatCountKeysSize | src/lib/queries/exporters.ts:145-161 | with distinct exporter ids the set has as many keys as the counts add up to |
| ExporterQueries.ExporterKpisOfDistinct | src/lib/queries/exporters.ts:94-132 | no two exporter records share an id |
| ExporterQueries.GlobalKpiSums | src/lib/queries/exporters.ts:135-137 | the global kilograms and boxes are the sums over all rows |
| ExporterQueries.GlobalKpiCounts | src/lib/queries/exporters.ts:145-161 | the global importer and variety counts are the sums of the per-exporter counts |
| ExporterQueries.SamplesOfMembers | src/lib/queries/exporters.ts:210-213 | the rows kept are exactly those with a truthy period, each with its period and sums |
| ExporterQueries.PeriodTotalsOfSteps | src/lib/queries/exporters.ts:215-224 | a period's entry is created from its first kept row and then updated by every further row |
| ExporterQueries.GetExportersTimeseries | src/lib/queries/exporters.ts:172-238 | a query error is rethrown; otherwise the result is the sorted per-period sums of the kept rows |
| ExporterQueries.PeriodAscendingPreorder | src/lib/queries/exporters.ts:233 | the period comparator is a total preorder |
| ExporterQueries.TimeseriesAscending | src/lib/queries/exporters.ts:227-233 | the periods are distinct and strictly ascending |
| ExporterQueries.TimeseriesCoversPeriods | src/lib/queries/exporters.ts:210-233 | every truthy period of a row has a point |
| ExporterQueries.TimeseriesOf | src/lib/queries/exporters.ts:208-233 | one point per distinct period of the kept rows |
| ExporterQueries.TimeseriesPointSums | src/lib/queries/exporters.ts:210-233 | every point is some kept row's period and carries the sums of that period's rows |
| ExporterQueries.TimeseriesTotal | src/lib/queries/exporters.ts:210-233 | the points' kilograms add up to those of the kept rows |
| ExporterQueries.TopColumnsOf | src/lib/queries/exporters.ts:250-278 | only the five top types are accepted, each reading its own table and `name` column |
| ExporterQueries.TopEntryOfSteps | src/lib/queries/exporters.ts:300-315 | an item's entry is created from its first row and then updated by every row |
| ExporterQueries.GetExportersTops | src/lib/queries/exporters.ts:241-337 | an unknown type throws `Invalid top type`, a query error is rethrown, otherwise the result is the top items of the rows |
| ExporterQueries.TopEntries | src/lib/queries/exporters.ts:295-315 | the map holds one entry per distinct id, in order of first appearance, each the fold of that id's rows |
| ExporterQueries.EntriesTotal | src/lib/queries/exporters.ts:318-321 | `totalKg` is the entries' kilograms added up in map order |
| ExporterQueries.ItemsOfEntries | src/lib/queries/exporters.ts:323-330 | the items built from the map are the items of the rows |
| ExporterQueries.TopKgDescendingPreorder | src/lib/queries/exporters.ts:331 | the kilograms comparator is a total preorder |
| ExporterQueries.TopTotalIsRowSum | src/lib/queries/exporters.ts:318-321 | the total is the kilograms of all rows |
| ExporterQueries.TopsShape | src/lib/queries/exporters.ts:323-332 | the list is the first 10 of a permutation of the items sorted by kilograms |
| ExporterQueries.TopsSize | src/lib/queries/exporters.ts:332 | at most 10 items, fewer only when there are fewer distinct ids |
| ExporterQueries.TopsOf | src/lib/queries/exporters.ts:295-332 | at most 10 items |
| ExporterQueries.TopsOrdered | src/lib/queries/exporters.ts:331-332 | kilograms never increase along the list and no id is listed twice |
| ExporterQueries.SharePctIsShare | src/lib/queries/exporters.ts:329 | `sharePct` is kilograms over the total in percent, and 0 without a positive total |
| ExporterQueries.TopsEntries | src/lib/queries/exporters.ts:300-330 | every listed item has its first row's name, its rows' sums and its share of all rows' kilograms |
| ExporterQueries.TopsAreLargest | src/lib/queries/exporters.ts:331-332 | an id left off the list has no more kilograms than any listed item |
| ExporterQueries.TopsComplete | src/lib/queries/exporters.ts:331-332 | with at most 10 distinct ids every id is listed |
| ExporterQueries.RankEntryOfSteps | src/lib/queries/exporters.ts:373-390 | an entry is created from its key's first row and then updated by every row |
| ExporterQueries.RankGroup | src/lib/queries/exporters.ts:416-427 | one season's group is sorted by kilograms, heaviest first, and numbered from 1 |
| ExporterQueries.RankSeasons | src/lib/queries/exporters.ts:413-428 | every season's rankings are pushed in the order of the seasons |
| ExporterQueries.GetExportersRankings | src/lib/queries/exporters.ts:340-435 | a query error is rethrown; otherwise the result is the rankings of the rows |
| ExporterQueries.KgDescendingPreorder | src/lib/queries/exporters.ts:416 | the kilograms comparator is a total preorder |
| ExporterQueries.SeasonThenRankPreorder | src/lib/queries/exporters.ts:430 | the season-then-rank comparator is a total preorder |
| ExporterQueries.PairKeyInjective | src/lib/queries/exporters.ts:374 | the key `${exporter_id}-${season_id}` determines the exporter and the season |
| ExporterQueries.RankGroupRows | src/lib/queries/exporters.ts:373-390 | the rows summed into an entry are exactly that exporter's rows in that season |
| ExporterQueries.RankValueOf | src/lib/queries/exporters.ts:373-405 | every entry is the fold of the non-empty group of its own exporter and season |
| ExporterQueries.RankValuesDistinct | src/lib/queries/exporters.ts:361-405 | no two entries share an exporter and a season |
| ExporterQueries.SeasonSorted | src/lib/queries/exporters.ts:405-416 | one season's sorted group holds that season's entries, heaviest first |
| ExporterQueries.SeasonRankingsFacts | src/lib/queries/exporters.ts:415-427 | one season's rankings are numbered 1, 2, ... in that season, heaviest first |
| ExporterQueries.SeasonRankingsSeason | src/lib/queries/exporters.ts:417-426 | every ranking of a season is in that season |
| ExporterQueries.ConcatRankingsMembers | src/lib/queries/exporters.ts:413-428 | the rankings pushed are exactly those of the seasons visited |
| ExporterQueries.ConcatRankingsDistinct | src/lib/queries/exporters.ts:413-428 | distinct seasons give no (season, rank) pair twice |
| ExporterQueries.RankingsShape | src/lib/queries/exporters.ts:413-430 | the result is a permutation of the rankings pushed, sorted by season and rank |
| ExporterQueries.RankingsOf | src/lib/queries/exporters.ts:361-430 | the result is sorted by season, then rank |
| ExporterQueries.LocateRanking | src/lib/queries/exporters.ts:415-427 | every ranking is the entry at its rank in its season's sorted group |
| ExporterQueries.RankingsDistinct | src/lib/queries/exporters.ts:413-430 | no (season, rank) pair appears twice |
| ExporterQueries.RankingsOrdered | src/lib/queries/exporters.ts:430 | rankings strictly increase by season and, within a season, by rank |
| ExporterQueries.RankingsKilograms | src/lib/queries/exporters.ts:416-427 | within a season a better rank never has fewer kilograms |
| ExporterQueries.RankingsRanks | src/lib/queries/exporters.ts:417-426 | every rank lies between 1 and the number of entries of its season |
| ExporterQueries.RankingsRankListed | src/lib/queries/exporters.ts:417-426 | every rank from 1 to a season's entry count is given in that season |
| ExporterQueries.RankingsEntries | src/lib/queries/exporters.ts:373-427 | every ranking carries the first names and the sums of its own exporter's rows in its season |
| ExporterQueries.EntryRanked | src/lib/queries/exporters.ts:405-427 | every entry is ranked in its season |
| ExporterQueries.RowEntry | src/lib/queries/exporters.ts:373-390 | every row has the entry of its exporter and season |
| ExporterQueries.RankingsCover | src/lib/queries/exporters.ts:373-430 | every exporter with rows in a season is ranked in that season |
| ExporterQueries.RankingsDistinctPairs | src/lib/queries/exporters.ts:373-430 | no exporter is ranked twice in one season |
| ExporterQueries.SameSeasonPairsDiffer | src/lib/queries/exporters.ts:415-427 | two rankings with different (season, rank) come from different (exporter, season) entries |
| ExporterQueries.SeasonEntriesDistinct | src/lib/queries/exporters.ts:405-410 | the entries of a season belong to distinct exporters |
| ExporterQueries.SeasonEntryExporters | src/lib/queries/exporters.ts:373-410 | the exporters of a season's entries are the exporters with rows in that season |
| ExporterQueries.SeasonSizeIsExporterCount | src/lib/queries/exporters.ts:405-427 | a season's ranks run from 1 to the number of exporters with rows in it |
| Executors.NonEmptyOrNull | src/lib/data/executors.ts:43-44 | a string falls back to null exactly for a missing or empty string, and otherwise the string |
| Executors.FilterArgs | src/lib/data/executors.ts:34-45 | missing filters send every argument as null; a list is sent as it is, even when empty; a week bound is sent only when non-empty |
| Executors.ExecRpc | src/lib/data/executors.ts:32-58 | a rejected call or a reply with an error gives the error result with that error; otherwise the result of the executor's kind holds the reply's data, an empty list when it is missing, and the plan's params |
| Executors.ExecPlan | src/lib/data/executors.ts:8-30 | the result is of the plan's intent or an error; an intent outside the five gives `Unknown intent`; a success keeps the plan's params |
| Executors.ExecPlanRpc | src/lib/data/executors.ts:12-20 | a kpis, timeseries, tops or rankings plan succeeds exactly when its call does, with the call's rows, and a rejected call gives its error |
| Executors.NoExporterMessage | src/lib/data/executors.ts:157-164 | the no-exporter message is not empty |
| Executors.NoShipmentsMessage | src/lib/data/executors.ts:179-186 | the no-shipments message is not empty |
| Executors.SearchTermOf | src/lib/data/executors.ts:138-142 | there is a search term exactly when `params.search_term` is a non-empty string |
| Executors.NameMapOfLast | src/lib/data/executors.ts:229-234 | the names map holds exactly the ids of the name rows, each with the name of the last row that has it |
| Executors.LabelCases | src/lib/data/executors.ts:240-241 | a label is the id's name when it has a non-empty one, and `ID: <id>` otherwise |
| Executors.LabeledBy | src/lib/data/executors.ts:239-241 | every shipment is paired, in order, with the label of its id |
| Executors.MatchIds | src/lib/data/executors.ts:167 | the ids are those of the exporters found, in order |
| Executors.BuildNameMap | src/lib/data/executors.ts:229-234 | the loop builds the names map of the name rows |
| Executors.GroupTotals | src/lib/data/executors.ts:237-258 | the loop builds one group per distinct label, in order of first appearance, with that label's sums |
| Executors.TotalsOfSteps | src/lib/data/executors.ts:242-246 | a group is created at zero by its first row and then updated by every row |
| Executors.Summarize | src/lib/data/executors.ts:188-273 | the result holds the totals, distinct seasons, markets, species and weeks, and the per-species and per-market groups of the shipments |
| Executors.ExecSearch | src/lib/data/executors.ts:136-286 | the search returns the result its specification function describes for the params and the database replies |
| Executors.SearchOf | src/lib/data/executors.ts:136-286 | without a search term the result is the `No search term provided` error; every successful result is of kind `search` and carries the plan's params |
| Executors.WeekLePreorder | src/lib/data/executors.ts:208-210 | the default `sort()` comparison on week values is a total preorder |
| Executors.GroupsOfLabeledSums | src/lib/data/executors.ts:237-258 | the per-group kilograms and boxes add up to the shipments' totals, for any names map and id column |
| Executors.GroupsOfNames | src/lib/data/executors.ts:237-258 | group names are distinct, each is some shipment's label, and every shipment's label names a group |
| Executors.GroupNamesFromRows | src/lib/data/executors.ts:239-247 | every group's name is the label of some shipment |
| Executors.RowLabelsGrouped | src/lib/data/executors.ts:239-247 | every shipment's label names a group |
| Executors.GroupNamesDistinct | src/lib/data/executors.ts:242-244 | no two groups share a name |
| Executors.SearchSummaryFacts | src/lib/data/executors.ts:188-273 | the totals are the shipments' sums and equal both the per-species and the per-market sums; the counts are distinct-id counts |
| Executors.SearchWeeks | src/lib/data/executors.ts:208-210 | the weeks are distinct, sorted, and exactly the weeks of the shipments |
| Executors.SearchSeasons | src/lib/data/executors.ts:199-201 | the seasons are the labels of the distinct season ids, in order of first appearance |
| Executors.SearchWithoutTerm | src/lib/data/executors.ts:138-142 | without a truthy search term the result is the `No search term provided` error |
| Executors.SearchEmpty | src/lib/data/executors.ts:157-186 | a search is a `search` result or an error; an empty `search` result is exactly one with a message, and the message is not empty |
| Executors.SearchFound | src/lib/data/executors.ts:260-281 | a successful search shows the first exporter found and the summary of the shipments of all exporters found |
| AiRoute.ClipJson | src/app/api/ai/route.ts:9-16 | the clipped text is at most the bound plus the marker; it is the text itself when that fits; otherwise it starts with the text's first `maxChars` characters, and a serialised text then ends with the truncation marker; a text that could not be serialised is only cut |
| AiRoute.IndexOf | src/app/api/ai/route.ts:162 | the first position of a character at or after a start, or none when no later position holds it |
| AiRoute.LastIndexOf | src/app/api/ai/route.ts:162 | the last position of a character before a bound, or none when no earlier position holds it |
| AiRoute.BraceSpan | src/app/api/ai/route.ts:162 | the span the greedy brace pattern matches runs from the first `{` to the last `}`, with the `}` after the `{` |
| AiRoute.BraceSpanExists | src/app/api/ai/route.ts:162-163 | the pattern matches exactly when some `{` comes before some `}` |
| AiRoute.ModelPlan | src/app/api/ai/route.ts:160-173 | the model's reply yields a plan exactly when it holds a brace span that parses to a plan with an intent, filters and params, and then it is that parsed plan |
| AiRoute.RunLength | src/app/api/ai/route.ts:190 | the length of the leading run of non-whitespace, stopping at the first whitespace character |
| AiRoute.Words | src/app/api/ai/route.ts:190 | splitting on whitespace gives non-empty pieces that hold no whitespace |
| AiRoute.RunLengthStops | src/app/api/ai/route.ts:190 | a run of non-whitespace ends at the first whitespace character |
| AiRoute.WordsSplit | src/app/api/ai/route.ts:190 | a whitespace character separates the words before it from those after it, in order |
| AiRoute.OneWord | src/app/api/ai/route.ts:190 | a non-empty run without whitespace is one word |
| AiRoute.FindCapitalised | src/app/api/ai/route.ts:191-193 | `find` returns the first capitalised or all-capitals word, and none when no word is |
| AiRoute.FallbackOrder | src/app/api/ai/route.ts:175-235 | the fallback rules apply in order: a company word gives `search`; otherwise a top word gives `tops`; otherwise a trend word gives `timeseries`; otherwise `kpis`, each as an if-and-only-if |
| AiRoute.Fallback | src/app/api/ai/route.ts:175-291 | every fallback plan has an intent, filters and params, and it is a search exactly when the question holds a company word |
| AiRoute.FallbackShape | src/app/api/ai/route.ts:175-292 | a fallback plan has a known intent other than rankings, measures kilograms and carries empty filters |
| AiRoute.FallbackTops | src/app/api/ai/route.ts:205-219 | a tops fallback asks for the top 5, of markets exactly when the lower-cased question mentions `market` and of exporters otherwise |
| AiRoute.FallbackSearchTerm | src/app/api/ai/route.ts:188-203 | a question naming a company falls back to a search; its term is the one taken from the question after an unusable reply, and `company` after a failed call |
| AiRoute.SearchTermForFacts | src/app/api/ai/route.ts:190-199 | the term is never empty; it is `company` when no word is capitalised, and otherwise the first capitalised word |
| AiRoute.RouteWithGemini | src/app/api/ai/route.ts:59-293 | every routed plan has an intent, filters and params; an accepted plan from the reply is returned as it is; otherwise the result is the fallback, whose search term is `company` exactly when the model call threw |
| AiRoute.DemoRules | src/app/api/ai/route.ts:297-328 | the demo router never searches: `top` or `ranking` gives tops, otherwise a time word gives timeseries, otherwise kpis |
| AiRoute.RouteWithDemo | src/app/api/ai/route.ts:297-328 | the demo plan has an intent, filters and params, and its intent is tops, timeseries or kpis |
| AiRoute.SafeResultOf | src/app/api/ai/route.ts:379-385 | the payload keeps the result's kind (`unknown` when it is empty), the first 30 rows of a row list, a search summary as it is, and the params, or the empty params when the result has none |
| AiRoute.PayloadBounds | src/app/api/ai/route.ts:379-391 | the sample holds at most 30 rows, and a plan or result whose serialisation fits its bound reaches the answer model unclipped |
| AiRoute.PayloadOf | src/app/api/ai/route.ts:378-391 | the payload keeps the language, and its plan and result texts are within 2000 and 3500 characters plus the marker |
| AiRoute.SafeKindKnown | src/app/api/ai/route.ts:380 | every executor result has a kind, so the payload's kind is never `unknown` |
| AiRoute.Language | src/app/api/ai/route.ts:426 | the language is never empty: a missing or empty `lang` means Spanish, and any other value is kept |
| AiRoute.Post | src/app/api/ai/route.ts:421-476 | a body that is not JSON gives status 500 with the Spanish error; a missing or blank message gives status 400 `Message is required`; every refusal is a 400 or a 500 |
| AiRoute.PostAnswers | src/app/api/ai/route.ts:437-466 | a non-blank message is routed and executed; an empty row list gets the fixed no-data reply in the request's language; otherwise the narrator's answer is returned with the plan and the result kind, or a 500 when the narrator fails |
| AiRoute.PostFailureIsNoData | src/app/api/ai/route.ts:453-461 | an executor error, whose data is an empty list, always gets the no-data reply and is never narrated |
| AiRoute.PostBlankMessage | src/app/api/ai/route.ts:428-433 | a message made only of whitespace is refused with status 400 before any routing |
| AiRoute.TrimAllWhitespace | src/app/api/ai/route.ts:428 | trimming a whitespace-only message leaves the empty string |
| AiRoute.TrimStartAllWhitespace | src/app/api/ai/route.ts:428 | trimming the start of a whitespace-only string leaves the empty string |
| FullCargo.TruthyFiltersMembers | src/lib/fullcargo-api.ts:274-279 | the filter entries kept are exactly those with a value that is present and non-zero, i.e. truthy |
| FullCargo.TruthyFilters | src/lib/fullcargo-api.ts:274-279 | the filters kept are never more than the filters given |
| FullCargo.ApplyFilters | src/lib/fullcargo-api.ts:274-279 | the `forEach` adds one equality per truthy filter value, in entry order |
| FullCargo.Transform | src/lib/fullcargo-api.ts:292-306 | a transformed shipment keeps the raw row and adds the name of each of its joins |
| FullCargo.TransformAll | src/lib/fullcargo-api.ts:292-306 | every row is transformed, in order |
| FullCargo.QueryOf | src/lib/fullcargo-api.ts:281-285 | the range starts at `(page - 1) * limit` and spans `limit` rows |
| FullCargo.GetShipments | src/lib/fullcargo-api.ts:233-330 | missing arguments default to season `2024_2025`, page 1 and limit 50; the query filters on the truthy values; the page is built from the fetched reply |
| FullCargo.PagesAdjacent | src/lib/fullcargo-api.ts:281-285 | a page ends at `page * limit - 1` and the next page starts right after it, so pages neither overlap nor leave gaps |
| FullCargo.ShipmentsPageCases | src/lib/fullcargo-api.ts:287-329 | a successful page reports the page's offset, the count (0 when missing) and the rows in order |
| FullCargo.ShipmentsPageOf | src/lib/fullcargo-api.ts:287-329 | the page keeps limit and season; it succeeds exactly when the fetch neither threw nor returned an error, and a failed page has no shipments and zero count and offset |
| FullCargo.GroupRows | src/lib/fullcargo-api.ts:386-395 | the reduce over the rows and `Object.values` give the grouping by key in first-appearance order |
| FullCargo.FoldedStats | src/lib/fullcargo-api.ts:386-395 | the accumulator object holds, under each key, the entry built from exactly that key's rows |
| FullCargo.GroupedFacts | src/lib/fullcargo-api.ts:386-407 | the groups have distinct keys covering exactly the rows' keys; each group has its rows' count as `shipments` and its rows' box and kilogram sums |
| FullCargo.GroupedSums | src/lib/fullcargo-api.ts:386-407 | the groups' boxes and kilograms add up to the rows' sums, and their shipments to the row count |
| FullCargo.KeyedByName | src/lib/fullcargo-api.ts:387-392 | each row is keyed by its joined name, with `Unknown` for a missing or empty name, and a missing count read as 0 |
| FullCargo.SumTotals | src/lib/fullcargo-api.ts:379-382 | the two sums of the totals rows, a missing value read as 0 |
| FullCargo.TopGroups | src/lib/fullcargo-api.ts:386-423 | grouping, sorting by kilograms and taking the first ten give the ten top groups |
| FullCargo.GetShipmentAnalytics | src/lib/fullcargo-api.ts:333-434 | the analytics for the three query replies, season defaulting to `2024_2025` |
| FullCargo.KgDescendingPreorder | src/lib/fullcargo-api.ts:418 | the comparator `b.kilograms - a.kilograms` is a total preorder, so the sort is well defined |
| FullCargo.TopTenFacts | src/lib/fullcargo-api.ts:416-423 | the top list holds ten entries or all of them if fewer, kilograms never increase, every entry comes from the grouping and no name occurs twice |
| FullCargo.TopTenAreLargest | src/lib/fullcargo-api.ts:416-423 | an entry left out of the top ten has no more kilograms than any entry kept |
| FullCargo.AnalyticsFacts | src/lib/fullcargo-api.ts:333-434 | the season is kept; a failed query zeroes the totals and empties both lists; otherwise the totals are the row count and the sums; both lists have at most ten entries by non-increasing kilograms |
| FullCargo.AnalyticsOf | src/lib/fullcargo-api.ts:333-434 | the season is kept and each top list has at most ten entries |
| FullCargo.KeyedByWeek | src/lib/fullcargo-api.ts:503-511 | each row is keyed by its week, a missing count read as 0 |
| FullCargo.GetWeeklyShipments | src/lib/fullcargo-api.ts:490-521 | the weekly summary of the reply |
| FullCargo.WeekAscendingPreorder | src/lib/fullcargo-api.ts:514-516 | `localeCompare` on the weeks, taken as code-point order, is a total preorder |
| FullCargo.WeeklyFacts | src/lib/fullcargo-api.ts:503-516 | there is one entry per week that occurs, strictly ascending in string order, each with its rows' count and box and kilogram sums |
| FullCargo.WeeklyOf | src/lib/fullcargo-api.ts:490-521 | a thrown or erroneous query gives the empty list, and the list is always in ascending week order |
| Kanban.Restatus | src/features/kanban/utils/store.ts:127-129 | every task keeps its place, and a task with the id gets the new status while the others stay as they were |
| Kanban.Retitle | src/features/kanban/utils/store.ts:158-160 | every column keeps its place, and a column with the id gets the new title while the others stay as they were |
| Kanban.TasksWithoutMembers | src/features/kanban/utils/store.ts:112-114 | after removal the remaining tasks are exactly the old ones with another id |
| Kanban.TasksWithout | src/features/kanban/utils/store.ts:112-114 | removal never adds tasks |
| Kanban.TasksWithoutAppend | src/features/kanban/utils/store.ts:113 | the filter distributes over concatenation, so the kept tasks keep their order |
| Kanban.TasksWithoutAbsent | src/features/kanban/utils/store.ts:113 | removing an id that no task has leaves the list unchanged |
| Kanban.TasksWithoutIdempotent | src/features/kanban/utils/store.ts:113 | removing the same id twice is the same as removing it once |
| Kanban.TasksNotInMembers | src/features/kanban/utils/store.ts:172 | after removing a column the remaining tasks are exactly the old ones whose status is another column's id |
| Kanban.TasksNotIn | src/features/kanban/utils/store.ts:172 | removing a column's tasks never adds tasks |
| Kanban.TasksNotInAppend | src/features/kanban/utils/store.ts:172 | the status filter keeps task order |
| Kanban.ColumnsWithoutMembers | src/features/kanban/utils/store.ts:171 | after removal the columns are exactly the old columns with another id |
| Kanban.ColumnsWithout | src/features/kanban/utils/store.ts:171 | removal never adds columns |
| Kanban.ColumnsWithoutAppend | src/features/kanban/utils/store.ts:171 | the column filter keeps the columns' order |
| Kanban.RestatusFacts | src/features/kanban/utils/store.ts:120-134 | a status update keeps the length, order, ids, titles and descriptions; every matching task ends with the new status; every other task is unchanged; repeating the update changes nothing |
| Kanban.RetitleFacts | src/features/kanban/utils/store.ts:154-165 | a rename keeps the length, order and ids; every matching column gets the new title; every other column is unchanged; repeating the rename changes nothing |
| Kanban.RemoveColumnFacts | src/features/kanban/utils/store.ts:167-177 | after removing a column, neither it nor any task in it is left, and every other column and task is |
| Kanban.NewTaskData | src/features/kanban/utils/store.ts:91-98 | the data sent to the backend has the fresh id, the given title, status and column `TODO`, and the current task count as its position |
| Kanban.NewColumnData | src/features/kanban/utils/store.ts:139-143 | the column sent to the backend has the upper-cased title as its id, the given title, and the current column count as its position |
| Kanban.ToUpperNoLower | src/features/kanban/utils/store.ts:140 | an upper-cased id has no lower-case ASCII letter, and upper-casing it again changes nothing |
| Kanban.TaskStore.constructor | src/features/kanban/utils/store.ts:62-65 | the store starts with the two initial tasks, the one `TODO` column and no dragged task |
| Kanban.TaskStore.LoadTasks | src/features/kanban/utils/store.ts:68-75 | fetched tasks replace the list, even when there are none; a failed fetch changes nothing; the other fields are kept |
| Kanban.TaskStore.LoadColumns | src/features/kanban/utils/store.ts:77-86 | fetched columns replace the list only when there is at least one; otherwise, or on failure, the columns are kept |
| Kanban.TaskStore.AddTask | src/features/kanban/utils/store.ts:89-107 | the new task's data is sent; the returned task is appended on success, and nothing changes when the call throws |
| Kanban.TaskStore.RemoveTask | src/features/kanban/utils/store.ts:109-118 | on success every task with the id is removed; on failure nothing changes; the columns and the dragged task are kept |
| Kanban.TaskStore.UpdateTaskStatus | src/features/kanban/utils/store.ts:120-134 | on success the matching tasks are restatused; on failure nothing changes; the columns and the dragged task are kept |
| Kanban.TaskStore.AddCol | src/features/kanban/utils/store.ts:137-152 | the new column's data is sent; the returned column is appended on success, and nothing changes when the call throws |
| Kanban.TaskStore.UpdateCol | src/features/kanban/utils/store.ts:154-165 | on success the matching columns are retitled; on failure nothing changes; tasks are kept |
| Kanban.TaskStore.RemoveCol | src/features/kanban/utils/store.ts:167-177 | on success the column and every task with its id as status are removed; on failure nothing changes |
| Kanban.TaskStore.DragTask | src/features/kanban/utils/store.ts:180 | only the dragged task changes |
| Kanban.TaskStore.SetTasks | src/features/kanban/utils/store.ts:181 | only tasks are replaced |
| Kanban.TaskStore.SetCols | src/features/kanban/utils/store.ts:182 | only the columns are replaced |
| MultiSearchSelect.HandleSelect | src/components/ui/multi-search-select.tsx:52-57 | the toggled id is present afterwards exactly when it was absent before, and every other id keeps its membership; an absent id is appended at the end |
| MultiSearchSelect.RemoveOption | src/components/ui/multi-search-select.tsx:59-61 | the removed id is gone and every other id keeps its membership |
| MultiSearchSelect.HandleSelectTwice | src/components/ui/multi-search-select.tsx:52-57 | toggling an unselected id twice restores the selection |
| MultiSearchSelect.RemoveOptionFacts | src/components/ui/multi-search-select.tsx:59-61 | removing an absent id changes nothing, and removing twice is removing once |
| MultiSearchSelect.SelectedOptions | src/components/ui/multi-search-select.tsx:44 | the selected options are at most all the options |
| MultiSearchSelect.SelectedOptionsMembers | src/components/ui/multi-search-select.tsx:44 | the selected options are exactly the options whose id is in the value |
| MultiSearchSelect.SelectedOptionsAppend | src/components/ui/multi-search-select.tsx:44 | the filter distributes over concatenation, so the options keep their order |
| MultiSearchSelect.Names | src/components/ui/multi-search-select.tsx:49 | the names of the options, in order |
| MultiSearchSelect.DisplayTextCases | src/components/ui/multi-search-select.tsx:39-50 | the placeholder when nothing is selected (exactly when no option's id is in the value); the names joined by `, ` for up to `maxDisplay` options (default 2), so the single name for one option; `<n> selected` beyond that |
| MultiSearchSelect.DisplayText | src/components/ui/multi-search-select.tsx:39-50 | when no option's id is in the value, the placeholder is shown |
| MultiSearchSelect.FilteredOptions | src/components/ui/multi-search-select.tsx:63-65 | the filtered options are at most all the options |
| MultiSearchSelect.FilteredOptionsMembers | src/components/ui/multi-search-select.tsx:63-65 | the options kept are exactly those whose lower-cased name contains the lower-cased search |
| MultiSearchSelect.FilteredOptionsEmpty | src/components/ui/multi-search-select.tsx:63-65 | an empty search keeps every option, in order |
| MultiSearchSelect.FilteredOptionsCaseInsensitive | src/components/ui/multi-search-select.tsx:63-65 | a search in upper case keeps the same options as the search itself |
| MultiSearchSelect.FilteredOptionsSameLower | src/components/ui/multi-search-select.tsx:64 | two searches with the same lower-case form keep the same options |
| CompareChart.ToggleFacts | src/app/dashboard/exporters/_components/CompareChart.tsx:179-188 | a selected id is removed with all its occurrences and the other ids kept; an unselected id is appended exactly when fewer than five are selected; otherwise the selection is left as it was |
| CompareChart.Toggle | src/app/dashboard/exporters/_components/CompareChart.tsx:179-188 | a toggle never takes a selection of at most five above five |
| CompareChart.ToggleTwice | src/app/dashboard/exporters/_components/CompareChart.tsx:179-188 | toggling an unselected id in and then out restores the selection |
| CompareChart.ExporterIds | src/app/dashboard/exporters/_components/CompareChart.tsx:63 | the ids of the exporters, in order |
| CompareChart.InitialSelectionFacts | src/app/dashboard/exporters/_components/CompareChart.tsx:61-65 | with exporters and an empty selection, the selection becomes the ids of the first three exporters, or of all if fewer; otherwise it is kept |
| CompareChart.InitialSelection | src/app/dashboard/exporters/_components/CompareChart.tsx:61-65 | the seeded selection respects the five-exporter cap |
| CompareChart.FindExporter | src/app/dashboard/exporters/_components/CompareChart.tsx:83 | `find` gives the first exporter with the id, and none exactly when no exporter has it |
| CompareChart.FindSeries | src/app/dashboard/exporters/_components/CompareChart.tsx:85-87 | `find` gives the first series with a point of the exporter, and none exactly when no series has one |
| CompareChart.FindPoint | src/app/dashboard/exporters/_components/CompareChart.tsx:90 | `find` gives the first point at the period, and none exactly when no point has it |
| CompareChart.RowsFor | src/app/dashboard/exporters/_components/CompareChart.tsx:79-99 | one row per period, in the periods' order, each filled for that period |
| CompareChart.CollectPeriods | src/app/dashboard/exporters/_components/CompareChart.tsx:72-75 | the loops over every point of every series collect each period once, in first-seen order, as the `Set` does |
| CompareChart.AddPeriod | src/app/dashboard/exporters/_components/CompareChart.tsx:74 | adding a point's period to the set leaves it unchanged when the period is already there, and appends it otherwise |
| CompareChart.FillRow | src/app/dashboard/exporters/_components/CompareChart.tsx:80-98 | a row holds the metric of every selected exporter that has a value at the period |
| CompareChart.ChartData | src/app/dashboard/exporters/_components/CompareChart.tsx:68-100 | the chart rows are the sorted period union, each row filled |
| CompareChart.ChartDataOf | src/app/dashboard/exporters/_components/CompareChart.tsx:68-100 | no data gives no rows; otherwise there is one row per distinct period of the data |
| CompareChart.LexLePreorder | src/app/dashboard/exporters/_components/CompareChart.tsx:77 | the default sort order on the periods, taken as code-point order, is a total preorder |
| CompareChart.FlattenMembers | src/app/dashboard/exporters/_components/CompareChart.tsx:73-75 | the flattened points are exactly the points of the series |
| CompareChart.PeriodsSeenMembers | src/app/dashboard/exporters/_components/CompareChart.tsx:72-75 | a period is collected exactly when some point of some series has it |
| CompareChart.RowPeriods | src/app/dashboard/exporters/_components/CompareChart.tsx:79-80 | the periods of the rows, in order |
| CompareChart.ChartPeriodsFacts | src/app/dashboard/exporters/_components/CompareChart.tsx:68-99 | no data gives no rows; otherwise there is one row per distinct period of the data, in strictly ascending string order |
| CompareChart.RowValuesFacts | src/app/dashboard/exporters/_components/CompareChart.tsx:82-96 | a row has a value for an exporter exactly when the exporter is selected and has a value at that period, and then it is that value |
| CompareChart.CellFacts | src/app/dashboard/exporters/_components/CompareChart.tsx:83-94 | an exporter's cell is present exactly when the exporter is known, some series mentions it, and that first series has a point at the period; the cell is then that point's metric |
| CompareChart.Growth | src/app/dashboard/exporters/_components/CompareChart.tsx:118 | for a non-zero first value, the growth times the first value is `(last - first) * 100`; for a zero first value the growth is 0 |
| CompareChart.GrowthSign | src/app/dashboard/exporters/_components/CompareChart.tsx:118 | for a positive start, growth is positive exactly when the value rose and zero exactly when it stayed; for a negative start, growth is positive exactly when the value fell |
| CompareChart.GrowthRates | src/app/dashboard/exporters/_components/CompareChart.tsx:103-128 | there is at most one entry per element of the selection; a repeated id gets one entry per occurrence |
| CompareChart.GrowthEntryFacts | src/app/dashboard/exporters/_components/CompareChart.tsx:105-126 | an exporter has an entry exactly when it is known and its first series has at least two points; the entry has its id, name and metric total, and the growth from the series' first point to its last |
| CompareChart.GrowthEntry | src/app/dashboard/exporters/_components/CompareChart.tsx:105-126 | an entry is only made for a known exporter, and carries that exporter's id and name |
| CompareChart.GrowthRatesAppend | src/app/dashboard/exporters/_components/CompareChart.tsx:104-127 | the map and filter keep the selection's order: the rates distribute over concatenation |
| CompareChart.GrowthRatesMembers | src/app/dashboard/exporters/_components/CompareChart.tsx:104-127 | every entry belongs to a selected exporter and is that exporter's entry, and every selected exporter that has an entry appears |
| Grouping.FoldByKey | src/lib/queries/exporters.ts:208-225 | the `forEach` that fills a `Map` row by row leaves the keys in first-insertion order and, under each listed key, the entry the fold builds from that key's rows |
| Grouping.KeysDistinct | src/lib/queries/exporters.ts:208-225 | a `Map`'s keys are listed once each |
| Grouping.KeysComplete | src/lib/queries/exporters.ts:208-225 | the keys listed are exactly the keys some row carries |
| Grouping.KeysCount | src/lib/data/executors.ts:199-210 | the number of distinct keys is the size of the `Set` of the rows' keys |
| Grouping.TruthyIdsMembers | src/app/api/exporters/route.ts:163-174 | the distinct ids after `filter(Boolean)` are exactly the non-zero ids some row carries |
| Grouping.TruthyIdsBound | src/app/api/exporters/route.ts:163-174 | there are no more distinct ids than rows |
| Grouping.GroupTotalPartition | src/lib/queries/exporters.ts:295-321 | every row lands in exactly one group, so the per-group sums over keys listing every key once add up to the sum over all rows |
| Grouping.KeysPartitionSum | src/lib/queries/exporters.ts:295-321 | the per-key sums over the distinct keys add up to the sum over all rows |
| Grouping.GroupAccPresent | src/lib/queries/exporters.ts:208-225 | the map has an entry for a key exactly when some row carries that key |
| Grouping.GroupAccOfWhere | src/lib/queries/exporters.ts:208-225 | when a function of a key's rows follows the fold's create-then-add steps, the map's entry for every listed key is that function of the key's rows |
| Grouping.WhereMembers | src/lib/queries/exporters.ts:405-410 | one key's rows are exactly the rows with that key |
| Grouping.SortedKeysFacts | src/lib/data/executors.ts:208-210 | the distinct keys, sorted by a consistent order, hold each key once, in order, and exactly the rows' keys |
| Sorting.InsertionSort | src/app/api/exporters/route.ts:375 | the in-place `sort` leaves the array as the stable insertion sort of its old contents |
| Sorting.InsertAt | src/app/api/exporters/route.ts:375 | one insertion step moves the element into the sorted prefix and leaves the rest of the array alone |
| Sorting.SortSeq | src/lib/queries/exporters.ts:331 | sorting a copy gives the stable insertion sort of the list |
| Sorting.SortByPermutation | src/lib/queries/exporters.ts:331 | sorting only reorders: the result holds the same elements, equally often |
| Sorting.SortBySorted | src/lib/queries/exporters.ts:331 | with a comparator that is a total preorder, the result is in order |
| Sorting.SortByMembers | src/lib/queries/exporters.ts:331 | the sorted list holds exactly the input's elements |
| Common.Take | src/lib/queries/exporters.ts:332 | `slice(0, n)` gives the first `n` elements, or all of them when there are fewer |
| Common.Max | src/app/api/exporters/route.ts:244 | `Math.max` of a non-empty list is one of its elements and no element exceeds it |
| Common.Min | src/app/api/exporters/route.ts:245 | `Math.min` of a non-empty list is one of its elements and no element is below it |
| Common.SumOfPermutation | src/app/api/exporters/route.ts:151-184 | a sum does not depend on the order of the elements |
| Common.FilterMembers | src/lib/queries/exporters.ts:210-213 | skipping the rows a guard rejects keeps exactly the elements that satisfy its predicate, and no more of them than there were |
| Common.RemoveAllMembers | src/components/ui/multi-search-select.tsx:54 | `filter(id => id !== x)` keeps exactly the other elements, and changes nothing when `x` is absent |

## Left out

- Database and model calls: every Supabase query or RPC and every Gemini call is replaced by the reply it gives, passed in as a value, an `Outcome` or a function. The database functions, `exec_sql` and the SQL behind them are not part of this model.
- Promise.all: the parallel calls are independent and are modelled one after the other.
- Kanban store concurrency: the store methods run one at a time. Two actions interleaving across their `await`s are not modelled.
- Time-dependent values: logging, `new Date()`, the `time` stamp of the FullCargo reply and `uuid()` are left out. The fresh task id is a parameter.
- JSON: `JSON.stringify` and `JSON.parse` are abstract. A serialised value is given as its text, or as the `String` form shown when serialisation throws. Parsing is a function from text to an optional plan.
- Regex engine: the regular expressions are written out for the shapes they match. The company-name patterns become whole-word, case-insensitive matching against the ASCII words of the two patterns. The two non-ASCII alternatives, `garcés` and `compañía`, are not in the list.
- Case mapping: `toLowerCase` and `toUpperCase` are modelled on ASCII letters only.
- AiRoute.ClipJson: lengths and cuts are counted in code points, but JavaScript's `length` and `slice` count UTF-16 code units (src/app/api/ai/route.ts:12-15). A text holding characters above U+FFFF is longer in JavaScript than in the model. With the 2000 and 3500 bounds, the source can clip such a text and append the marker where the model keeps it whole. The source's cut can also fall between the two halves of a surrogate pair, in the `JSON.stringify` branch and in the `String(obj).slice` branch alike; a model string cannot hold half a pair. The model's bound and cut are exact for text without characters above U+FFFF.
- String order: `localeCompare` and the default `sort()` are modelled as code-point order. A locale's collation rules are not modelled. The default `sort()` compares UTF-16 code units, which differs from code-point order only between a character above U+FFFF and one from U+E000 to U+FFFF; that difference is not modelled.
- Object key order: a JavaScript object used as an accumulator is modelled with first-insertion key order. The engine lists integer-like keys first, and that is not modelled. It reorders FullCargo groups whose names are decimal numbers before they are sorted (src/lib/fullcargo-api.ts:386-407, 503-512). It also reorders the executors' `by_species` and `by_market` objects, which are returned unsorted (src/lib/data/executors.ts:237-257, 270-271), when a species or market name is integer-like.
- Inherited object keys: the accumulators `acc[name]` (src/lib/fullcargo-api.ts:386-407, 503-512) and `speciesData`/`marketData` (src/lib/data/executors.ts:237-257) are plain objects, so a group named `constructor`, `toString` or `__proto__` finds an inherited value and is not accumulated as a fresh group. The model's maps start empty, so it groups such names like any other.
- Query parameters: `URLSearchParams` is a map keyed by the thirteen parameter names the codec reads and writes. Other keys are ignored by the source and absent from the model.
- Numbers: kilograms and boxes are unbounded integers. Ratios, percentages and growth are `real`. IEEE rounding, `NaN` and `Infinity` are not modelled. Text produced by `toFixed`, `toLocaleString`, `Intl` and the other `format*` helpers is not modelled.
- Number printing: `String(n)` and `join` print integers of magnitude 1e21 or more in exponent form. `IntToString` always prints every decimal digit, so the round trips through the URL hold in the model for ids the source would print in exponent form.
- Chart mapping: the exporters handler copies its timeseries, tops and rankings replies into the response (src/app/api/exporters/route.ts:428-502), and this copying is not modelled. The 503 reply when the database client is not configured is not modelled either. Neither branch does any computation.
- Error text: the executors' `String(error)` is modelled as the error text passed in.
- Exporters handler `catch`: the outer `catch` of src/app/api/exporters/route.ts:503-511 is not modelled. Its reply is status 500 with `{ error: error.message }`, or `'Internal server error'` for a thrown value that is not an `Error`. `ExportersKpis` has no outcome that reaches it. The model's only throws are the two scans' (a `Fault`), which the handler catches itself. The other database calls are modelled as replies that succeed or carry an error, never as throws.
- ExporterQueries: `getExportersChartData` and `getExporterProfile` are not part of this model. They are thin wrappers over `exec_sql` and an RPC call. The remaining query functions receive filters they never apply, so each is modelled on its reply alone. What each select and `!inner` join returns is the reply passed in.
- Executors: the executors read camelCase filter names (`seasonIds`). The router's schema produces snake_case names (`season_ids`). That mismatch lives in the model's text, so it is not modelled; a plan's filters are taken as already parsed.
- Executors: a missing `etd_week` is compared by `sort()` as the text `null`, and a missing id is printed as `null`. This is how `String(null)` behaves, and it is modelled that way.
- AiRoute: the prompt texts, the demo reply texts of `generateDemoResponse` and the unused `pct` helper are not modelled. `routeWithDemo` is modelled, but `POST` never calls it. A `message` that is not a string (where `trim` would throw) is not modelled.
- React: hooks become functions of their inputs. `useEffect` and `useMemo` recompute from props and state, and `setState` updaters are functions of the previous value. Rendering, the loading flag and the popover state are not modelled. Chart point values are integers.
- FullCargo: `getShipmentById`, `searchGlobal` and the other catalogue queries in the file are not part of this model. They only pass database replies through.
- Format.GenerateWeekRange: when both bounds are valid and the start is not after the end, it requires a start year of at least 0999 and an end other than `9999-W53`. Outside that range the year after week 53 leaves the four-digit shape, string order stops following week order, and the source's loop can stop early or never end.
- Format.WeeksUpTo: has the same precondition as `GenerateWeekRange`, for the same reason.
- Format.NextWeekStep: requires a year from 0999 to 9998 for week 53, so that the successor keeps four digits.
- ExportersRoute.PagedScan: the table is fixed for the whole scan. The only faults modelled are an error reply or a throw at one request. A table that changes between range requests is not modelled.
