// The request logic of the AI endpoint (src/app/api/ai/route.ts): size-bounded
// JSON clipping, acceptance of the router model's JSON reply, the keyword
// fallback router, the demo router, and the guards and payload bounds of POST.
// The language models themselves, JSON.stringify/JSON.parse and the data
// executors' database are inputs.

module AiRoute {
  import opened Common
  import opened Strings
  import opened Executors

  // ---------------------------------------------------------------------
  // clipJson
  // ---------------------------------------------------------------------

  /**
   * The outcome of `JSON.stringify(obj)`: its text, or, when it throws,
   * the text of `String(obj)`.
   */
  datatype Stringified = Json(text: string) | Unserializable(shown: string)

  /** The marker appended to a clipped text (as the source file spells it). */
  const TruncationMarker: string := "\U{00E3}\U{0080}\U{00CE}[truncated]"

  const DefaultClip: nat := 4000

  /** `clipJson(obj, maxChars)` */
  /**
   * A clipped text is at most the bound plus the marker, is the text itself
   * when that fits, and otherwise begins like the text it clips; only a
   * serialised text gets the marker.
   */
  function ClipJson(obj: Stringified, maxChars: nat): (r: string)
    ensures var s := if obj.Json? then obj.text else obj.shown;
      |r| <= maxChars + |TruncationMarker|
      && (|s| <= maxChars ==> r == s)
      && (|s| > maxChars ==> |r| >= maxChars && r[..maxChars] == s[..maxChars])
    ensures obj.Json? && |obj.text| > maxChars ==> r[maxChars..] == TruncationMarker
    ensures obj.Unserializable? ==> |r| <= maxChars
  {
    match obj
    case Json(s) =>
      if |s| > maxChars then
        var r := s[..maxChars] + TruncationMarker;
        assert r[..maxChars] == s[..maxChars] && r[maxChars..] == TruncationMarker;
        r
      else s
    case Unserializable(s) => Take(s, maxChars)
  }

  // ---------------------------------------------------------------------
  // The router model's reply
  // ---------------------------------------------------------------------

  /** The first index of `c` in `s` at or after `from`. */
  function IndexOf(s: string, c: char, from: nat): (r: Option<nat>)
    requires from <= |s|
    ensures r.Some? ==> (from <= r.value < |s| && s[r.value] == c
                         && forall k :: from <= k < r.value ==> s[k] != c)
    ensures r.None? ==> forall k :: from <= k < |s| ==> s[k] != c
    decreases |s| - from
  {
    if from == |s| then None
    else if s[from] == c then Some(from)
    else IndexOf(s, c, from + 1)
  }

  /** The last index of `c` in `s[..upto]`. */
  function LastIndexOf(s: string, c: char, upto: nat): (r: Option<nat>)
    requires upto <= |s|
    ensures r.Some? ==> (r.value < upto && s[r.value] == c
                         && forall k :: r.value < k < upto ==> s[k] != c)
    ensures r.None? ==> forall k :: 0 <= k < upto ==> s[k] != c
  {
    if upto == 0 then None
    else if s[upto - 1] == c then Some(upto - 1)
    else LastIndexOf(s, c, upto - 1)
  }

  /**
   * The match of `/\{[\s\S]*\}/` in `response`, as the bounds `(i, j)` of
   * `response[i..j + 1]`: the greedy span from the first `{` to the last
   * `}`, when that `}` comes after that `{`.
   */
  function BraceSpan(response: string): (r: Option<(nat, nat)>)
    ensures r.Some? ==> var (i, j) := r.value;
      i < j < |response| && response[i] == '{' && response[j] == '}'
      && (forall k :: 0 <= k < i ==> response[k] != '{')
      && (forall k :: j < k < |response| ==> response[k] != '}')
  {
    match IndexOf(response, '{', 0)
    case None => None
    case Some(i) =>
      match LastIndexOf(response, '}', |response|)
      case None => None
      case Some(j) => if i < j then Some((i, j)) else None
  }

  /** The regex finds a span exactly when some `{` precedes some `}`. */
  lemma BraceSpanExists(response: string)
    ensures BraceSpan(response).Some? <==>
      exists i, j :: 0 <= i < j < |response| && response[i] == '{' && response[j] == '}'
  {
    if exists i, j :: 0 <= i < j < |response| && response[i] == '{' && response[j] == '}' {
      var i, j :| 0 <= i < j < |response| && response[i] == '{' && response[j] == '}';
      var a := IndexOf(response, '{', 0);
      var b := LastIndexOf(response, '}', |response|);
      assert a.Some? && a.value <= i;
      assert b.Some? && j <= b.value;
    }
  }

  /** The text handed to `JSON.parse`. */
  function Candidate(response: string): Option<string> {
    match BraceSpan(response)
    case None => None
    case Some((i, j)) => Some(response[i..j + 1])
  }

  /** `parsed.intent && parsed.filters && parsed.params` */
  predicate Accepted(p: Plan) {
    p.intent != "" && p.filters.Some? && p.params.Some?
  }

  /**
   * The plan taken from the router model: the parsed candidate when it is
   * accepted; `parse` is `JSON.parse`, `None` where it throws.
   */
  function ModelPlan(response: string, parse: string -> Option<Plan>): (r: Option<Plan>)
    ensures r.Some? <==> (Candidate(response).Some? && parse(Candidate(response).value).Some?
                          && Accepted(parse(Candidate(response).value).value))
    ensures r.Some? ==> r == parse(Candidate(response).value) && Accepted(r.value)
  {
    match Candidate(response)
    case None => None
    case Some(c) =>
      match parse(c)
      case None => None
      case Some(p) => if Accepted(p) then Some(p) else None
  }

  // ---------------------------------------------------------------------
  // The keyword fallback
  // ---------------------------------------------------------------------

  /** A character of `\w`: an ASCII letter, digit or `_`. */
  predicate IsWordChar(c: char) {
    'a' <= c <= 'z' || 'A' <= c <= 'Z' || '0' <= c <= '9' || c == '_'
  }

  /** `w` (lower case) occurs case-insensitively at `i` with a `\b` on either side. */
  predicate WordAt(s: string, w: string, i: nat) {
    i + |w| <= |s| && ToLower(s[i..i + |w|]) == w
    && (i == 0 || !IsWordChar(s[i - 1]))
    && (i + |w| == |s| || !IsWordChar(s[i + |w|]))
  }

  /** `/\b(w)\b/i.test(s)` */
  predicate HasWord(s: string, w: string) {
    exists i :: 0 <= i <= |s| && WordAt(s, w, i)
  }

  /** The ASCII alternatives of the two company patterns. */
  const CompanyWords: seq<string> :=
    ["allegria", "foods", "dole", "chile", "greenvic", "verfrut", "tuniche",
     "exportadora", "empresa", "company", "exporter"]

  /** `companyPatterns.some(pattern => pattern.test(question))` */
  predicate HasCompanyName(question: string) {
    exists k :: 0 <= k < |CompanyWords| && HasWord(question, CompanyWords[k])
  }

  /** The length of the run of non-whitespace at the start of `s`. */
  function RunLength(s: string): (n: nat)
    ensures n <= |s| && (forall k :: 0 <= k < n ==> !IsJsWhitespace(s[k]))
    ensures n < |s| ==> IsJsWhitespace(s[n])
  {
    if s == [] || IsJsWhitespace(s[0]) then 0 else 1 + RunLength(s[1..])
  }

  /**
   * The non-empty pieces of `s.split(/\s+/)` in order (the empty pieces
   * a leading or trailing blank gives are never chosen below).
   */
  function Words(s: string): (ws: seq<string>)
    ensures forall k :: 0 <= k < |ws| ==> ws[k] != [] && forall c :: c in ws[k] ==> !IsJsWhitespace(c)
    decreases |s|
  {
    if s == [] then []
    else if IsJsWhitespace(s[0]) then Words(s[1..])
    else var n := RunLength(s); [s[..n]] + Words(s[n..])
  }

  /** A whitespace character ends the run of non-whitespace before it. */
  lemma RunLengthStops(a: string, c: char, b: string)
    requires IsJsWhitespace(c)
    ensures RunLength(a + [c] + b) == RunLength(a)
  {
    var s := a + [c] + b;
    assert forall k :: 0 <= k < |a| ==> s[k] == a[k];
    assert s[|a|] == c;
  }

  /**
   * The split at whitespace: a whitespace character separates the words
   * before it from the words after it, in order, and a non-empty run without
   * whitespace is one word.
   */
  lemma {:induction false} WordsSplit(a: string, c: char, b: string)
    requires IsJsWhitespace(c)
    ensures Words(a + [c] + b) == Words(a) + Words(b)
    decreases |a|
  {
    var s := a + [c] + b;
    if a == [] {
      assert s[1..] == b;
    } else if IsJsWhitespace(a[0]) {
      assert s[0] == a[0];
      assert s[1..] == a[1..] + [c] + b;
      WordsSplit(a[1..], c, b);
    } else {
      assert s[0] == a[0];
      RunLengthStops(a, c, b);
      var n := RunLength(a);
      assert s[..n] == a[..n];
      assert s[n..] == a[n..] + [c] + b;
      WordsSplit(a[n..], c, b);
    }
  }

  /** A non-empty text without whitespace is a single word. */
  lemma OneWord(w: string)
    requires w != [] && forall k :: 0 <= k < |w| ==> !IsJsWhitespace(w[k])
    ensures Words(w) == [w]
  {
    assert RunLength(w) == |w|;
    assert w[..|w|] == w;
    assert w[|w|..] == [];
  }

  /** `/^[A-Z][a-z]+/.test(word) || /^[A-Z]+$/.test(word)` */
  predicate Capitalised(word: string) {
    (|word| >= 2 && 'A' <= word[0] <= 'Z' && 'a' <= word[1] <= 'z')
    || (|word| >= 1 && forall k :: 0 <= k < |word| ==> 'A' <= word[k] <= 'Z')
  }

  /** `words.find(Capitalised)` */
  function FindCapitalised(ws: seq<string>): (r: Option<string>)
    ensures r.Some? ==> exists i :: (0 <= i < |ws| && ws[i] == r.value && Capitalised(ws[i])
                                    && forall k :: 0 <= k < i ==> !Capitalised(ws[k]))
    ensures r.None? ==> forall k :: 0 <= k < |ws| ==> !Capitalised(ws[k])
  {
    if ws == [] then None
    else if Capitalised(ws[0]) then Some(ws[0])
    else
      var r := FindCapitalised(ws[1..]);
      assert forall k :: 1 <= k < |ws| ==> ws[k] == ws[1..][k - 1];
      r
  }

  /** No word of the question is capitalised. */
  predicate NoneCapitalised(ws: seq<string>) {
    forall k :: 0 <= k < |ws| ==> !Capitalised(ws[k])
  }

  /** `potentialCompany || 'company'` */
  function SearchTermFor(question: string): string {
    match FindCapitalised(Words(question))
    case Some(w) => w
    case None => "company"
  }

  predicate AnyOf(s: string, subs: seq<string>) {
    exists k :: 0 <= k < |subs| && Contains(s, subs[k])
  }

  const TopWords: seq<string> := ["top", "best", "highest"]
  const TrendWords: seq<string> := ["trend", "over time", "weekly", "monthly"]

  function ParamsOf(metric: string, topN: Option<int>, topType: Option<string>, granularity: Option<string>,
                    searchTerm: Option<string>): PlanParams {
    PlanParams(Some(metric), topN, topType, granularity, searchTerm)
  }

  /**
   * The fallback plan of `routeWithGemini`; `threw` tells the branch in the
   * outer `catch` (the model call failed), whose search term is always
   * `company`, from the one after an unusable reply.
   */
  function Fallback(question: string, threw: bool): (p: Plan)
    ensures Accepted(p)
    ensures p.intent == "search" <==> HasCompanyName(question)
  {
    var lowerQ := ToLower(question);
    if HasCompanyName(question) then
      Plan("search", Some(NoFilters),
           Some(ParamsOf("kilograms", None, None, None, Some(if threw then "company" else SearchTermFor(question)))))
    else if AnyOf(lowerQ, TopWords) then
      Plan("tops", Some(NoFilters),
           Some(ParamsOf("kilograms", Some(5), Some(if Contains(lowerQ, "market") then "markets" else "exporters"), None, None)))
    else if AnyOf(lowerQ, TrendWords) then
      Plan("timeseries", Some(NoFilters), Some(ParamsOf("kilograms", None, None, Some("week"), None)))
    else
      Plan("kpis", Some(NoFilters), Some(ParamsOf("kilograms", None, None, None, None)))
  }

  /**
   * The fallback's rules in their order: a company word gives `search`,
   * then a top word `tops`, then a trend word `timeseries`, else `kpis`.
   */
  lemma FallbackOrder(question: string, threw: bool)
    ensures var p := Fallback(question, threw);
      var q := ToLower(question);
      (p.intent == "search" <==> HasCompanyName(question))
      && (p.intent == "tops" <==> !HasCompanyName(question) && AnyOf(q, TopWords))
      && (p.intent == "timeseries" <==> !HasCompanyName(question) && !AnyOf(q, TopWords) && AnyOf(q, TrendWords))
      && (p.intent == "kpis" <==> !HasCompanyName(question) && !AnyOf(q, TopWords) && !AnyOf(q, TrendWords))
  {
  }

  /**
   * A fallback plan never asks for rankings, always measures kilograms, has
   * an executor, and carries `{}` filters.
   */
  lemma FallbackShape(question: string, threw: bool)
    ensures var p := Fallback(question, threw);
      p.intent in Intents && p.intent != "rankings"
      && p.params.Some? && p.params.value.metric == Some("kilograms")
      && p.filters == Some(NoFilters)
  {
  }

  /** A tops fallback asks for the top 5 markets when the question says `market`, the top 5 exporters otherwise. */
  lemma FallbackTops(question: string, threw: bool)
    requires Fallback(question, threw).intent == "tops"
    ensures var p := Fallback(question, threw).params.value;
      p.topN == Some(5)
      && (p.topType == Some("markets") <==> Contains(ToLower(question), "market"))
      && (p.topType == Some("exporters") <==> !Contains(ToLower(question), "market"))
  {
  }

  /**
   * The search term of a fallback search: `company` after a failed model
   * call, otherwise the term taken from the question. Either way the search
   * executor gets a term to look for.
   */
  lemma FallbackSearchTerm(question: string, threw: bool)
    requires HasCompanyName(question)
    ensures var p := Fallback(question, threw);
      p.intent == "search"
      && p.params.value.searchTerm == Some(if threw then "company" else SearchTermFor(question))
      && SearchTermOf(p.params).Some?
  {
    SearchTermForFacts(question);
  }

  /**
   * The term taken from a question: its first capitalised word, or
   * `company` when it has none.
   */
  lemma SearchTermForFacts(question: string)
    ensures var ws := Words(question);
      var t := SearchTermFor(question);
      t != ""
      && (NoneCapitalised(ws) ==> t == "company")
      && (!NoneCapitalised(ws) ==>
            exists i :: 0 <= i < |ws| && t == ws[i] && Capitalised(ws[i]) && forall k :: 0 <= k < i ==> !Capitalised(ws[k]))
  {
    var ws := Words(question);
    var t := SearchTermFor(question);
    match FindCapitalised(ws)
    case Some(w) =>
      var i :| 0 <= i < |ws| && ws[i] == w && Capitalised(ws[i])
               && forall k :: 0 <= k < i ==> !Capitalised(ws[k]);
      assert t == ws[i] && ws[i] != [];
      assert !NoneCapitalised(ws);
    case None =>
      assert t == "company" && NoneCapitalised(ws);
  }

  /**
   * `routeWithGemini(question, language)`: `reply` is the router model's
   * text, `None` when the call throws.
   */
  function RouteWithGemini(question: string, reply: Option<string>, parse: string -> Option<Plan>): (p: Plan)
    ensures Accepted(p)
    ensures reply.Some? && ModelPlan(reply.value, parse).Some? ==> p == ModelPlan(reply.value, parse).value
    ensures reply.None? || ModelPlan(reply.value, parse).None? ==> p == Fallback(question, reply.None?)
  {
    match reply
    case None => Fallback(question, true)
    case Some(text) =>
      match ModelPlan(text, parse)
      case Some(plan) => plan
      case None => Fallback(question, false)
  }

  // ---------------------------------------------------------------------
  // routeWithDemo
  // ---------------------------------------------------------------------

  const DemoTopWords: seq<string> := ["top", "ranking"]
  const DemoTrendWords: seq<string> := ["trend", "time", "week", "month"]

  /** `routeWithDemo(question, language)` */
  function RouteWithDemo(question: string): (p: Plan)
    ensures Accepted(p) && p.intent in ["tops", "timeseries", "kpis"]
  {
    var lowerQ := ToLower(question);
    if AnyOf(lowerQ, DemoTopWords) then
      Plan("tops", Some(NoFilters), Some(ParamsOf("kilograms", Some(5), Some("exporters"), Some("season"), None)))
    else if AnyOf(lowerQ, DemoTrendWords) then
      Plan("timeseries", Some(NoFilters), Some(ParamsOf("kilograms", None, None, Some("week"), None)))
    else
      Plan("kpis", Some(NoFilters), Some(ParamsOf("kilograms", None, None, None, None)))
  }

  /** The demo router never searches: `top`/`ranking` give `tops`, time words `timeseries`, the rest `kpis`. */
  lemma DemoRules(question: string)
    ensures var p := RouteWithDemo(question);
      var q := ToLower(question);
      p.intent in ["tops", "timeseries", "kpis"]
      && (p.intent == "tops" <==> AnyOf(q, DemoTopWords))
      && (p.intent == "timeseries" <==> !AnyOf(q, DemoTopWords) && AnyOf(q, DemoTrendWords))
  {
  }

  // ---------------------------------------------------------------------
  // finalAnswer's payload
  // ---------------------------------------------------------------------

  const SampleRows: nat := 30
  const PlanClip: nat := 2000
  const ResultClip: nat := 3500

  /** `{ kind, sample, params }` */
  datatype SafeResult = SafeResult(kind: string, sample: ResultData, params: PlanParams)

  const EmptyParams := PlanParams(None, None, None, None, None)

  /** `safeResult`: the kind (or `unknown`), the first 30 rows of a row list, and the params (or `{}`). */
  function SafeResultOf(result: ExecResult): (r: SafeResult)
    ensures r.kind == (if result.Kind() == "" then "unknown" else result.Kind())
    ensures result.Data().Rows? ==> r.sample == Rows(Take(result.Data().rows, SampleRows))
    ensures result.Data().Found? ==> r.sample == result.Data()
    ensures result.Done? && result.params.Some? ==> r.params == result.params.value
    ensures !(result.Done? && result.params.Some?) ==> r.params == EmptyParams
  {
    var data := result.Data();
    SafeResult(
      if result.Kind() == "" then "unknown" else result.Kind(),
      if data.Rows? then Rows(Take(data.rows, SampleRows)) else data,
      if result.Done? && result.params.Some? then result.params.value else EmptyParams)
  }

  /** The text the answer model receives besides its instructions. */
  datatype Payload = Payload(language: string, plan: string, result: string)

  /** `JSON.stringify` of a plan and of a safe result. */
  datatype Codec = Codec(planJson: Plan -> Stringified, resultJson: SafeResult -> Stringified)

  function PayloadOf(plan: Plan, result: ExecResult, language: string, codec: Codec): (p: Payload)
    ensures p.language == language
    ensures |p.plan| <= PlanClip + |TruncationMarker| && |p.result| <= ResultClip + |TruncationMarker|
  {
    Payload(language, ClipJson(codec.planJson(plan), PlanClip), ClipJson(codec.resultJson(SafeResultOf(result)), ResultClip))
  }

  /**
   * The payload's sample has at most 30 rows, and a plan or result whose
   * serialisation fits its bound reaches the answer model unclipped.
   */
  lemma PayloadBounds(plan: Plan, result: ExecResult, language: string, codec: Codec)
    ensures var p := PayloadOf(plan, result, language, codec);
      var j := codec.planJson(plan);
      var k := codec.resultJson(SafeResultOf(result));
      (j.Json? && |j.text| <= PlanClip ==> p.plan == j.text)
      && (k.Json? && |k.text| <= ResultClip ==> p.result == k.text)
    ensures var s := SafeResultOf(result).sample;
      s.Rows? ==> |s.rows| <= SampleRows
  {
  }

  /** The executors' results always have a kind, so the payload never says `unknown`. */
  lemma SafeKindKnown(plan: Plan, db: Database)
    ensures SafeResultOf(ExecPlan(plan, db)).kind != "unknown"
  {
    var r := ExecPlan(plan, db);
    if r.Done? {
      assert r.kind in Intents;
    }
  }

  // ---------------------------------------------------------------------
  // POST
  // ---------------------------------------------------------------------

  /** The fields of the request body that POST reads. */
  datatype Body = Body(message: Option<string>, lang: Option<string>)

  /** The JSON response: a reply (status 200), or an error with its status. */
  datatype Response =
    | Answer(reply: string, plan: Option<Plan>, resultKind: Option<string>)
    | Refused(status: int, error: string)

  /** `lang || 'es'` */
  function Language(lang: Option<string>): (l: string)
    ensures l != ""
    ensures l == "es" || lang == Some(l)
    ensures lang.Some? && lang.value != "" ==> l == lang.value
  {
    if lang.Some? && lang.value != "" then lang.value else "es"
  }

  const MessageRequired: string := "Message is required"

  function NoDataMessage(language: string): string {
    if language == "es" then
      "No se encontraron datos para tu consulta. Intenta ajustar los filtros o hacer una pregunta más general."
    else "No data found for your query. Try adjusting the filters or asking a more general question."
  }

  function ErrorMessage(language: string): string {
    if language == "es" then "Hubo un error procesando tu pregunta. Inténtalo de nuevo."
    else "There was an error processing your question. Please try again."
  }

  /** `!message?.trim()` */
  predicate Blank(message: Option<string>) {
    message.None? || Trim(message.value) == ""
  }

  /** `Array.isArray(result.data) && result.data.length === 0` */
  predicate NoData(result: ExecResult) {
    result.Data() == Rows([])
  }

  /**
   * `POST(request)`: `body` is the parsed request body (`None` when it is
   * not JSON), `routerReply` and `parse` feed `routeWithGemini`, `db` the
   * executors, and `narrator` is the answer model (`None` when it throws).
   */
  function Post(body: Option<Body>, routerReply: Option<string>, parse: string -> Option<Plan>, db: Database,
                codec: Codec, narrator: Payload -> Option<string>): (r: Response)
    ensures body.None? ==> r == Refused(500, ErrorMessage("es"))
    ensures body.Some? && Blank(body.value.message) ==> r == Refused(400, MessageRequired)
    ensures r.Refused? ==> r.status == 400 || r.status == 500
  {
    match body
    case None => Refused(500, ErrorMessage("es"))
    case Some(b) =>
      var language := Language(b.lang);
      if Blank(b.message) then Refused(400, MessageRequired)
      else
        var plan := RouteWithGemini(b.message.value, routerReply, parse);
        var result := ExecPlan(plan, db);
        if NoData(result) then Answer(NoDataMessage(language), None, None)
        else
          match narrator(PayloadOf(plan, result, language, codec))
          case None => Refused(500, ErrorMessage(language))
          case Some(text) => Answer(text, Some(plan), Some(result.Kind()))
  }

  /**
   * A non-blank message is routed and executed; a result without rows gets
   * the fixed reply in the request's language (Spanish by default) and is
   * not narrated; any other result is narrated from the bounded payload.
   */
  lemma PostAnswers(body: Body, routerReply: Option<string>, parse: string -> Option<Plan>, db: Database,
                    codec: Codec, narrator: Payload -> Option<string>)
    requires !Blank(body.message)
    ensures var plan := RouteWithGemini(body.message.value, routerReply, parse);
      var result := ExecPlan(plan, db);
      var language := Language(body.lang);
      var r := Post(Some(body), routerReply, parse, db, codec, narrator);
      (NoData(result) ==> r == Answer(NoDataMessage(language), None, None))
      && (!NoData(result) && narrator(PayloadOf(plan, result, language, codec)).Some? ==>
            r == Answer(narrator(PayloadOf(plan, result, language, codec)).value, Some(plan), Some(result.Kind())))
      && (!NoData(result) && narrator(PayloadOf(plan, result, language, codec)).None? ==>
            r == Refused(500, ErrorMessage(language)))
  {
  }

  /** A failed execution is never narrated: the user gets the no-data reply. */
  lemma PostFailureIsNoData(body: Body, routerReply: Option<string>, parse: string -> Option<Plan>, db: Database,
                            codec: Codec, narrator: Payload -> Option<string>)
    requires !Blank(body.message)
    requires ExecPlan(RouteWithGemini(body.message.value, routerReply, parse), db).Failed?
    ensures Post(Some(body), routerReply, parse, db, codec, narrator) == Answer(NoDataMessage(Language(body.lang)), None, None)
  {
  }

  /** A whitespace-only message is refused before any routing. */
  lemma PostBlankMessage(message: string, lang: Option<string>, routerReply: Option<string>, parse: string -> Option<Plan>,
                         db: Database, codec: Codec, narrator: Payload -> Option<string>)
    requires forall k :: 0 <= k < |message| ==> IsJsWhitespace(message[k])
    ensures Post(Some(Body(Some(message), lang)), routerReply, parse, db, codec, narrator) == Refused(400, MessageRequired)
  {
    TrimAllWhitespace(message);
  }

  lemma {:induction false} TrimAllWhitespace(s: string)
    requires forall k :: 0 <= k < |s| ==> IsJsWhitespace(s[k])
    ensures Trim(s) == ""
  {
    TrimStartAllWhitespace(s);
  }

  lemma {:induction false} TrimStartAllWhitespace(s: string)
    requires forall k :: 0 <= k < |s| ==> IsJsWhitespace(s[k])
    ensures TrimStart(s) == ""
    decreases |s|
  {
    if s != [] {
      TrimStartAllWhitespace(s[1..]);
    }
  }
}
