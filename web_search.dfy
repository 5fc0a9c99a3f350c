/**
 * The web_search MCP tool: the guards in front of a search, the result
 * count's default and clamps, the choice of search provider and the
 * request each provider is sent, and the tool result built from the
 * provider's response. The HTTP exchange itself is a parameter.
 */
module WebSearch {
  import opened Wrappers
  import opened Text
  import opened Json
  import opened Mcp

  const ToolWebSearch: string := "web_search"
  const GoogleCxRequired: string := "Google Custom Search requires cx (Search Engine ID)"
  const ProviderNotConfigured: string := "search provider not configured for this bot"
  const TavilyKeyRequired: string := "Tavily API key is required"
  const JsonMediaType: string := "application/json"

  /** The providers' public endpoints. */
  const BraveEndpoint: string := "https://api.search.brave.com/res/v1/web/search"
  const BingEndpoint: string := "https://api.bing.microsoft.com/v7.0/search"
  const GoogleEndpoint: string := "https://customsearch.googleapis.com/customsearch/v1"
  const TavilyEndpoint: string := "https://api.tavily.com/search"

  /** ListTools: the one tool when both backing services are configured, none otherwise. */
  function ListTools(available: bool): (r: seq<ToolDescriptor>)
    ensures !available <==> r == []
    ensures available ==> |r| == 1 && r[0].name == ToolWebSearch
    ensures available ==> "required" in r[0].inputSchema && r[0].inputSchema["required"] == Arr([Str("query")])
  {
    if !available then []
    else
      var props := map[
        "query" := Obj(map["type" := Str("string"), "description" := Str("Search query")]),
        "count" := Obj(map["type" := Str("integer"), "description" := Str("Number of results, default 5")])];
      [ToolDescriptor(ToolWebSearch, "Search web results via configured search provider.",
         map["type" := Str("object"), "properties" := Obj(props), "required" := Arr([Str("query")])])]
  }

  // ---------------------------------------------------------------------
  // Config values

  /** stringValue: a trimmed string for a string value, "" for anything else or nothing. */
  function StringValue(raw: Option<Value>): (r: string)
    ensures raw.Some? && raw.value.Str? ==> r == GoTrim(raw.value.s)
    ensures !(raw.Some? && raw.value.Str?) ==> r == ""
  {
    if raw.Some? && raw.value.Str? then GoTrim(raw.value.s) else ""
  }

  /** The config member under `key`; Go's lookup of a missing key gives nil. */
  function Lookup(cfg: Object, key: string): Option<Value> {
    if key in cfg then Some(cfg[key]) else None
  }

  /** A config value read with stringValue is already trimmed. */
  lemma StringValueTrimmed(raw: Option<Value>)
    ensures GoTrim(StringValue(raw)) == StringValue(raw)
  {
    if raw.Some? && raw.value.Str? {
      TrimIdempotent(raw.value.s, IsGoSpace);
    } else {
      assert StringValue(raw) == "";
    }
  }

  predicate Blank(s: string) {
    GoTrim(s) == ""
  }

  predicate NonBlank(s: string) {
    !Blank(s)
  }

  /** The index of the first value that `wanted` holds of. */
  function FirstIndex<T>(values: seq<T>, wanted: T -> bool): (r: Option<nat>)
    ensures r.Some? ==> r.value < |values|
  {
    if values == [] then None
    else if wanted(values[0]) then Some(0)
    else
      match FirstIndex(values[1..], wanted)
      case None => None
      case Some(k) => Some(k + 1)
  }

  /** The index found is the first one wanted, and there is none exactly when no value is wanted. */
  lemma {:induction false} FirstIndexIsFirst<T>(values: seq<T>, wanted: T -> bool)
    ensures FirstIndex(values, wanted).None? <==> forall i :: 0 <= i < |values| ==> !wanted(values[i])
    ensures FirstIndex(values, wanted).Some? ==> wanted(values[FirstIndex(values, wanted).value])
    ensures FirstIndex(values, wanted).Some? ==>
              forall j :: 0 <= j < FirstIndex(values, wanted).value ==> !wanted(values[j])
  {
    if values != [] && !wanted(values[0]) {
      var tail := values[1..];
      FirstIndexIsFirst(tail, wanted);
      assert forall i :: 1 <= i < |values| ==> values[i] == tail[i - 1];
    }
  }

  /** The index of the first argument that is not blank. */
  function FirstNonBlank(values: seq<string>): Option<nat> {
    FirstIndex(values, NonBlank)
  }

  /** firstNonEmpty's search: none iff every argument is blank, otherwise the first non-blank one. */
  lemma FirstNonBlankIsFirst(values: seq<string>)
    ensures FirstNonBlank(values).None? <==> forall i :: 0 <= i < |values| ==> Blank(values[i])
    ensures FirstNonBlank(values).Some? ==> FirstNonBlank(values).value < |values|
                                            && !Blank(values[FirstNonBlank(values).value])
    ensures FirstNonBlank(values).Some? ==> forall j :: 0 <= j < FirstNonBlank(values).value ==> Blank(values[j])
  {
    FirstIndexIsFirst(values, NonBlank);
  }

  /** firstNonEmpty: the first argument that is not blank, trimmed; "" when all are blank. */
  function FirstNonEmpty(values: seq<string>): (r: string)
    ensures r == "" <==> FirstNonBlank(values).None?
    ensures r != "" ==> r == GoTrim(values[FirstNonBlank(values).value])
  {
    if values == [] then ""
    else if NonBlank(values[0]) then GoTrim(values[0])
    else FirstNonEmpty(values[1..])
  }

  /** A non-blank configured base URL wins over the default. */
  lemma ConfiguredEndpointWins(cfg: Object, fallback: string)
    requires StringValue(Lookup(cfg, "base_url")) != ""
    ensures FirstNonEmpty([StringValue(Lookup(cfg, "base_url")), fallback]) == StringValue(Lookup(cfg, "base_url"))
  {
    StringValueTrimmed(Lookup(cfg, "base_url"));
  }

  // ---------------------------------------------------------------------
  // Providers and requests

  datatype Provider = Brave | Bing | Google | Tavily

  /** The provider for a configured name, matched exactly after trimming. */
  function ProviderNamed(name: string): (r: Option<Provider>)
    ensures r == Some(Brave) <==> GoTrim(name) == "brave"
    ensures r == Some(Bing) <==> GoTrim(name) == "bing"
    ensures r == Some(Google) <==> GoTrim(name) == "google"
    ensures r == Some(Tavily) <==> GoTrim(name) == "tavily"
  {
    match GoTrim(name)
    case "brave" => Some(Brave)
    case "bing" => Some(Bing)
    case "google" => Some(Google)
    case "tavily" => Some(Tavily)
    case _ => None
  }

  /** The HTTP request a provider is sent; `query` holds the URL's query parameters. */
  datatype SearchRequest = SearchRequest(
    provider: Provider, httpMethod: string, endpoint: string,
    query: map<string, string>, headers: map<string, string>, body: Object)

  /** What CallTool decides before any network traffic. */
  datatype Outcome = NotFound | Reply(result: ToolResult) | Send(request: SearchRequest)

  const DefaultCount: int := 5
  const MaxCount: int := 20
  const GoogleMaxCount: int := 10

  /**
   * The count of callWebSearch: 5 unless a positive integer is given, then at
   * most 20. The argument is what the gateway's integer-argument helper
   * returned: an error, no value, or a value.
   */
  method ResolveCount(countArg: Result<Option<int>, string>) returns (r: Result<int, string>)
    ensures r.Err? <==> countArg.Err?
    ensures r.Ok? ==> r.value == CountFor(countArg.value)
    ensures r.Err? ==> r.error == countArg.error
    ensures r.Ok? ==> 1 <= r.value <= MaxCount
    ensures r.Ok? && (countArg.value.None? || countArg.value.value <= 0) ==> r.value == DefaultCount
    ensures r.Ok? && countArg.value.Some? && countArg.value.value > 0 ==>
              r.value == (if countArg.value.value > MaxCount then MaxCount else countArg.value.value)
  {
    var count := DefaultCount;
    if countArg.Err? {
      return Err(countArg.error);
    } else if countArg.value.Some? && countArg.value.value > 0 {
      count := countArg.value.value;
    }
    if count > MaxCount {
      count := MaxCount;
    }
    return Ok(count);
  }

  /** The count a present or absent integer argument resolves to. */
  function CountFor(value: Option<int>): (c: nat)
    ensures 1 <= c <= MaxCount
  {
    var c := if value.Some? && value.value > 0 then value.value else DefaultCount;
    if c > MaxCount then MaxCount else c
  }

  /** The endpoint: the configured base URL or the default, with trailing slashes removed. */
  function Endpoint(cfg: Object, fallback: string): string {
    TrimRight(FirstNonEmpty([StringValue(Lookup(cfg, "base_url")), fallback]), IsSlash)
  }

  /** The URL a provider is sent to; Tavily's keeps its trailing slashes. */
  function ProviderEndpoint(provider: Provider, cfg: Object): string {
    if provider == Tavily then FirstNonEmpty([StringValue(Lookup(cfg, "base_url")), DefaultEndpoint(Tavily)])
    else Endpoint(cfg, DefaultEndpoint(provider))
  }

  predicate IsSlash(c: char) {
    c == '/'
  }

  /** The request headers, with the API key under `keyHeader` only when one is configured. */
  function KeyedHeaders(apiKey: string, keyHeader: string): (h: map<string, string>)
    requires keyHeader != "Accept"
    ensures "Accept" in h && h["Accept"] == JsonMediaType
    ensures keyHeader in h <==> GoTrim(apiKey) != ""
    ensures keyHeader in h ==> h[keyHeader] == GoTrim(apiKey)
  {
    if GoTrim(apiKey) != "" then map["Accept" := JsonMediaType, keyHeader := GoTrim(apiKey)]
    else map["Accept" := JsonMediaType]
  }

  /** The header that carries the API key for Brave and for Bing. */
  function KeyHeader(provider: Provider): (h: string)
    ensures h != "Accept"
  {
    if provider == Brave then "X-Subscription-Token" else "Ocp-Apim-Subscription-Key"
  }

  /** The endpoint used when no base URL is configured. */
  function DefaultEndpoint(provider: Provider): string {
    match provider
    case Brave => BraveEndpoint
    case Bing => BingEndpoint
    case Google => GoogleEndpoint
    case Tavily => TavilyEndpoint
  }

  /** callBraveSearch and callBingSearch up to the request: GET with `q` and `count`. */
  method KeyedGetRequest(provider: Provider, cfg: Object, endpoint: string, query: string, count: nat)
    returns (r: SearchRequest)
    requires provider == Brave || provider == Bing
    ensures r.provider == provider && r.httpMethod == "GET"
    ensures r.endpoint == endpoint
    ensures r.query == map["q" := query, "count" := NatToString(count)]
    ensures r.headers == KeyedHeaders(StringValue(Lookup(cfg, "api_key")), KeyHeader(provider))
    ensures CarriesQuery(r, cfg, query, count)
  {
    var params := map["q" := query, "count" := NatToString(count)];
    r := SearchRequest(provider, "GET", endpoint, params,
                       KeyedHeaders(StringValue(Lookup(cfg, "api_key")), KeyHeader(provider)), map[]);
  }

  /** The query parameters of a Google search: q, cx, num capped at 10, and key only when there is one. */
  function GoogleQuery(query: string, cx: string, key: string, count: nat): (r: map<string, string>)
    ensures r.Keys == if key == "" then {"q", "cx", "num"} else {"q", "cx", "num", "key"}
    ensures r["q"] == query && r["cx"] == cx
    ensures r["num"] == NatToString(if count > GoogleMaxCount then GoogleMaxCount else count)
    ensures key != "" ==> r["key"] == key
  {
    var sent := map["q" := query, "cx" := cx, "num" := NatToString(if count > GoogleMaxCount then GoogleMaxCount else count)];
    if key == "" then sent else sent["key" := key]
  }

  /** callGoogleSearch up to the request: cx is required and the count is capped at 10. */
  method GoogleRequest(cfg: Object, endpoint: string, query: string, count: nat) returns (o: Outcome)
    ensures !o.NotFound?
    ensures StringValue(Lookup(cfg, "cx")) == "" <==> o.Reply?
    ensures o.Reply? ==> o.result == ToolError(GoogleCxRequired)
    ensures o.Send? ==> o.request.provider == Google && o.request.httpMethod == "GET"
    ensures o.Send? ==> o.request.endpoint == endpoint
    ensures o.Send? ==> o.request.query == GoogleQuery(query, StringValue(Lookup(cfg, "cx")),
                                                       GoTrim(StringValue(Lookup(cfg, "api_key"))), count)
    ensures o.Send? ==> CarriesQuery(o.request, cfg, query, count)
  {
    var cx := StringValue(Lookup(cfg, "cx"));
    if cx == "" {
      return Reply(ToolError(GoogleCxRequired));
    }
    var params := GoogleQuery(query, cx, GoTrim(StringValue(Lookup(cfg, "api_key"))), count);
    return Send(SearchRequest(Google, "GET", endpoint, params, map["Accept" := JsonMediaType], map[]));
  }

  /** callTavilySearch up to the request: a POST with a JSON body and a bearer key, which is required. */
  method TavilyRequest(cfg: Object, endpoint: string, query: string, count: nat) returns (o: Outcome)
    ensures !o.NotFound?
    ensures StringValue(Lookup(cfg, "api_key")) == "" <==> o.Reply?
    ensures o.Reply? ==> o.result == ToolError(TavilyKeyRequired)
    ensures o.Send? ==> o.request.provider == Tavily && o.request.httpMethod == "POST"
    ensures o.Send? ==> o.request.endpoint == endpoint
    ensures o.Send? ==> o.request.body == map["query" := Str(query), "max_results" := Num(count as real)]
    ensures o.Send? ==> "Authorization" in o.request.headers
                        && o.request.headers["Authorization"] == "Bearer " + StringValue(Lookup(cfg, "api_key"))
    ensures o.Send? ==> CarriesQuery(o.request, cfg, query, count)
  {
    var apiKey := StringValue(Lookup(cfg, "api_key"));
    if apiKey == "" {
      return Reply(ToolError(TavilyKeyRequired));
    }
    return Send(SearchRequest(Tavily, "POST", endpoint, map[],
                              map["Content-Type" := JsonMediaType, "Accept" := JsonMediaType,
                                  "Authorization" := "Bearer " + apiKey],
                              map["query" := Str(query), "max_results" := Num(count as real)]));
  }

  /**
   * What a request sent to `r.provider` carries for a query and a count: its
   * endpoint, and each provider's own method, parameters, headers and body.
   */
  predicate Carries(r: SearchRequest, cfg: Object, query: string, count: nat) {
    r.endpoint == ProviderEndpoint(r.provider, cfg) && CarriesQuery(r, cfg, query, count)
  }

  /** Each provider's own method, parameters, headers and body for a query and a count. */
  predicate CarriesQuery(r: SearchRequest, cfg: Object, query: string, count: nat) {
    match r.provider
    case Brave | Bing =>
      && r.httpMethod == "GET"
      && r.query == map["q" := query, "count" := NatToString(count)]
      && r.headers == KeyedHeaders(StringValue(Lookup(cfg, "api_key")), KeyHeader(r.provider))
    case Google =>
      && r.httpMethod == "GET"
      && r.query == GoogleQuery(query, StringValue(Lookup(cfg, "cx")), GoTrim(StringValue(Lookup(cfg, "api_key"))), count)
    case Tavily =>
      && r.httpMethod == "POST"
      && r.body == map["query" := Str(query), "max_results" := Num(count as real)]
      && "Authorization" in r.headers
      && r.headers["Authorization"] == "Bearer " + StringValue(Lookup(cfg, "api_key"))
  }

  /** The provider switch of callWebSearch: only Google and Tavily can refuse before sending. */
  method BuildRequest(provider: Provider, cfg: Object, query: string, count: nat) returns (o: Outcome)
    ensures !o.NotFound?
    ensures o.Send? ==> o.request.provider == provider && Carries(o.request, cfg, query, count)
    ensures o.Reply? <==> (provider == Google && StringValue(Lookup(cfg, "cx")) == "")
                          || (provider == Tavily && StringValue(Lookup(cfg, "api_key")) == "")
    ensures o.Reply? ==> o.result == ToolError(if provider == Google then GoogleCxRequired else TavilyKeyRequired)
  {
    var endpoint := ProviderEndpoint(provider, cfg);
    match provider {
      case Brave =>
        var r := KeyedGetRequest(Brave, cfg, endpoint, query, count);
        o := Send(r);
      case Bing =>
        var r := KeyedGetRequest(Bing, cfg, endpoint, query, count);
        o := Send(r);
      case Google => o := GoogleRequest(cfg, endpoint, query, count);
      case Tavily => o := TavilyRequest(cfg, endpoint, query, count);
    }
  }

  /**
   * What callWebSearch answers: the blank-query, count and unknown-provider
   * errors in that order, then the provider's own refusal or its request
   * carrying the trimmed query and the resolved count.
   */
  predicate SearchOutcome(o: Outcome, providerName: string, cfg: Object, queryArg: string,
                          countArg: Result<Option<int>, string>) {
    var query := GoTrim(queryArg);
    if query == "" then o == Reply(ToolError("query is required"))
    else if countArg.Err? then o == Reply(ToolError(countArg.error))
    else if ProviderNamed(providerName).None? then o == Reply(ToolError("unsupported search provider"))
    else
      var provider := ProviderNamed(providerName).value;
      && !o.NotFound?
      && (o.Reply? <==> (provider == Google && StringValue(Lookup(cfg, "cx")) == "")
                        || (provider == Tavily && StringValue(Lookup(cfg, "api_key")) == ""))
      && (o.Reply? ==> o.result == ToolError(if provider == Google then GoogleCxRequired else TavilyKeyRequired))
      && (o.Send? ==> o.request.provider == provider && Carries(o.request, cfg, query, CountFor(countArg.value)))
  }

  /**
   * callWebSearch up to the request: a blank query and an unknown provider are
   * error results. The query argument is what the gateway's string-argument
   * helper returned.
   */
  method CallWebSearch(providerName: string, cfg: Object, queryArg: string,
                       countArg: Result<Option<int>, string>) returns (o: Outcome)
    ensures o.Send? || o.Reply?
    ensures GoTrim(queryArg) == "" ==> o == Reply(ToolError("query is required"))
    ensures GoTrim(queryArg) != "" && countArg.Err? ==> o == Reply(ToolError(countArg.error))
    ensures GoTrim(queryArg) != "" && countArg.Ok? && ProviderNamed(providerName).None? ==>
              o == Reply(ToolError("unsupported search provider"))
    ensures GoTrim(queryArg) != "" && countArg.Ok? && ProviderNamed(providerName).Some? ==>
              var provider := ProviderNamed(providerName).value;
              (o.Reply? <==> (provider == Google && StringValue(Lookup(cfg, "cx")) == "")
                             || (provider == Tavily && StringValue(Lookup(cfg, "api_key")) == ""))
    ensures o.Send? ==> Some(o.request.provider) == ProviderNamed(providerName) && countArg.Ok?
                        && Carries(o.request, cfg, GoTrim(queryArg), CountFor(countArg.value))
    ensures SearchOutcome(o, providerName, cfg, queryArg, countArg)
  {
    var query := GoTrim(queryArg);
    if query == "" {
      return Reply(ToolError("query is required"));
    }
    var count := ResolveCount(countArg);
    if count.Err? {
      return Reply(ToolError(count.error));
    }
    var provider := ProviderNamed(providerName);
    if provider.None? {
      return Reply(ToolError("unsupported search provider"));
    }
    o := BuildRequest(provider.value, cfg, query, count.value);
  }

  /** The settings and provider row CallTool reads; only the fields used. */
  datatype BotSettings = BotSettings(searchProviderId: string)
  datatype ProviderRow = ProviderRow(provider: string, config: Object)

  /**
   * CallTool. Unlike the contacts tool, every guard is checked before the tool
   * name, so an unknown tool under a misconfigured bot gets an error result.
   */
  method CallTool(available: bool, sessionBotId: string,
                  getBot: string -> Result<BotSettings, string>,
                  getProvider: string -> Result<ProviderRow, string>,
                  toolName: string, queryArg: string, countArg: Result<Option<int>, string>)
    returns (o: Outcome)
    ensures !available ==> o == Reply(ToolError("web tools are not available"))
    ensures available && GoTrim(sessionBotId) == "" ==> o == Reply(ToolError("bot_id is required"))
    ensures available && GoTrim(sessionBotId) != "" && getBot(GoTrim(sessionBotId)).Err? ==>
              o == Reply(ToolError(getBot(GoTrim(sessionBotId)).error))
    ensures available && GoTrim(sessionBotId) != "" && getBot(GoTrim(sessionBotId)).Ok?
            && GoTrim(getBot(GoTrim(sessionBotId)).value.searchProviderId) == "" ==>
              o == Reply(ToolError(ProviderNotConfigured))
    ensures available && GoTrim(sessionBotId) != "" && getBot(GoTrim(sessionBotId)).Ok?
            && GoTrim(getBot(GoTrim(sessionBotId)).value.searchProviderId) != "" ==>
              var row := getProvider(GoTrim(getBot(GoTrim(sessionBotId)).value.searchProviderId));
              && (row.Err? ==> o == Reply(ToolError(row.error)))
              && (row.Ok? ==> (o == NotFound <==> toolName != ToolWebSearch))
              && (row.Ok? && toolName == ToolWebSearch && GoTrim(queryArg) == "" ==>
                    o == Reply(ToolError("query is required")))
              && (row.Ok? && toolName == ToolWebSearch ==>
                    SearchOutcome(o, row.value.provider, row.value.config, queryArg, countArg))
              && (o.Send? ==> row.Ok? && Some(o.request.provider) == ProviderNamed(row.value.provider)
                              && countArg.Ok?
                              && Carries(o.request, row.value.config, GoTrim(queryArg), CountFor(countArg.value)))
    ensures o.Send? ==> available && GoTrim(sessionBotId) != "" && toolName == ToolWebSearch
                        && GoTrim(queryArg) != "" && countArg.Ok?
  {
    if !available {
      return Reply(ToolError("web tools are not available"));
    }
    var botId := GoTrim(sessionBotId);
    if botId == "" {
      return Reply(ToolError("bot_id is required"));
    }
    var settings := getBot(botId);
    if settings.Err? {
      return Reply(ToolError(settings.error));
    }
    var providerId := GoTrim(settings.value.searchProviderId);
    if providerId == "" {
      return Reply(ToolError(ProviderNotConfigured));
    }
    var row := getProvider(providerId);
    if row.Err? {
      return Reply(ToolError(row.error));
    }
    if toolName != ToolWebSearch {
      return NotFound;
    }
    o := CallWebSearch(row.value.provider, row.value.config, queryArg, countArg);
  }

  // ---------------------------------------------------------------------
  // Responses

  /** One result item, after each provider's own field names are mapped. */
  datatype Item = Item(title: string, url: string, description: string)

  /** The HTTP exchange's outcome: a transport error, or a status and the decoded items (None when decoding failed). */
  datatype Response = TransportError(message: string) | Response(status: int, items: Option<seq<Item>>)

  function ItemValue(item: Item): Value {
    Obj(map["title" := Str(item.title), "url" := Str(item.url), "description" := Str(item.description)])
  }

  /** The tool result for a provider's response. */
  function SearchResult(query: string, response: Response): (r: ToolResult)
    ensures response.TransportError? ==> r == ToolError(response.message)
    ensures response.Response? && !(200 <= response.status < 300) ==> r == ToolError("search request failed")
    ensures response.Response? && 200 <= response.status < 300 && response.items.None? ==>
              r == ToolError("invalid search response")
    ensures r.ToolSuccess? ==> r.payload.Keys == {"query", "results"} && r.payload["query"] == Str(query)
    ensures r.ToolSuccess? ==> r.payload["results"].Arr? && |r.payload["results"].items| == |response.items.value|
    ensures r.ToolSuccess? ==> forall i :: 0 <= i < |response.items.value| ==>
              r.payload["results"].items[i] == ItemValue(response.items.value[i])
  {
    match response
    case TransportError(msg) => ToolError(msg)
    case Response(status, items) =>
      if status < 200 || status >= 300 then ToolError("search request failed")
      else if items.None? then ToolError("invalid search response")
      else
        var results := seq(|items.value|, i requires 0 <= i < |items.value| => ItemValue(items.value[i]));
        ToolSuccess(map["query" := Str(query), "results" := Arr(results)])
  }
}
