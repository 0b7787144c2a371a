/** The two data providers of utils/tools.py: web search (SerpAPI, then Google
    Custom Search, then fixed demonstration results) and weather lookup
    (OpenWeather, or fixed demonstration data).

    The HTTP exchange is not modelled: each provider call receives the outcome
    of its one `requests.get` / `raise_for_status()` / `response.json()` step as
    an `HttpOutcome`, either the decoded payload or the exception raised. What
    the providers do with that outcome is modelled exactly: the projection of
    result lists, the status-code check, the nested-field mapping, the
    exceptions Python raises when the payload has an unexpected shape, and
    the mapping of every exception to a single-key error dictionary. */
module Tools {
  import opened Basics
  import opened Text
  import opened JsonValue

  // ---------------------------------------------------------------------
  // Exceptions and the HTTP exchange

  /** A Python exception as the `except` clauses see it: whether it is an
      instance of `requests.exceptions.RequestException`, whether it is an
      instance of `ValueError`, and `str(e)`. A JSON decode error is a
      `ValueError` and, with recent versions of `requests`, also a
      `RequestException`; both flags are left free. */
  datatype PyException = PyException(isRequestException: bool, isValueError: bool, text: string)

  /** The three `except` clauses of every provider call, in source order. */
  datatype Handler = RequestHandler | ValueHandler | GenericHandler

  /** The first clause, tried in the order RequestException, ValueError,
      Exception, that catches `e`. */
  function HandlerFor(e: PyException): (h: Handler)
    ensures h == RequestHandler <==> e.isRequestException
    ensures h == ValueHandler <==> !e.isRequestException && e.isValueError
    ensures h == GenericHandler <==> !e.isRequestException && !e.isValueError
  {
    if e.isRequestException then RequestHandler
    else if e.isValueError then ValueHandler
    else GenericHandler
  }

  /** What the HTTP request, the status check and the JSON decoding produced. */
  datatype HttpOutcome = Fetched(payload: Json) | Raised(exception: PyException)

  /** Exceptions the mapping code itself raises when the payload does not have
      the shape it expects. */
  datatype Fault =
    | NoAttributeGet(typeName: string)    // AttributeError: `.get` on a non-dict
    | NotSubscriptable(typeName: string)  // TypeError: indexing or slicing a scalar
    | UnhashableSlice                     // TypeError: slicing a dict
    | ListIndexOutOfRange                 // IndexError: `[0]` of an empty list
    | StringIndexOutOfRange               // IndexError: `[0]` of an empty string
    | NoKeyZero                           // KeyError: `[0]` of a dict

  /** `str(e)` for each fault, as CPython words it. */
  function FaultText(f: Fault): string
  {
    match f
    case NoAttributeGet(t) => "'" + t + "' object has no attribute 'get'"
    case NotSubscriptable(t) => "'" + t + "' object is not subscriptable"
    case UnhashableSlice => "unhashable type: 'slice'"
    case ListIndexOutOfRange => "list index out of range"
    case StringIndexOutOfRange => "string index out of range"
    case NoKeyZero => "0"
  }

  /** None of these faults is a `RequestException` or a `ValueError`, so each
      reaches the generic handler. */
  function FaultException(f: Fault): (e: PyException)
    ensures HandlerFor(e) == GenericHandler
    ensures e.text == FaultText(f)
  {
    PyException(false, false, FaultText(f))
  }

  /** The message prefixes of one provider call's three handlers. */
  datatype ErrorPrefixes = ErrorPrefixes(request: string, value: string, generic: string)

  const SerpApiPrefixes := ErrorPrefixes(
    "Error performing web search: ", "Error decoding API response: ", "An unexpected error occurred: ")
  const GooglePrefixes := ErrorPrefixes(
    "Error performing Google search: ", "Error decoding API response: ", "An unexpected error occurred: ")
  const WeatherPrefixes := ErrorPrefixes(
    "Error fetching weather: ", "Error decoding API response: ", "An unexpected error occurred: ")

  function PrefixFor(p: ErrorPrefixes, h: Handler): string
  {
    match h
    case RequestHandler => p.request
    case ValueHandler => p.value
    case GenericHandler => p.generic
  }

  /** The dictionary the handler that catches `e` returns. */
  function Caught(p: ErrorPrefixes, e: PyException): (d: Dict)
    ensures d.Keys == {"error"}
    ensures e.isRequestException ==> d["error"] == JStr(p.request + e.text)
    ensures !e.isRequestException && e.isValueError ==> d["error"] == JStr(p.value + e.text)
    ensures !e.isRequestException && !e.isValueError ==> d["error"] == JStr(p.generic + e.text)
  {
    ErrorDict(PrefixFor(p, HandlerFor(e)) + e.text)
  }

  // ---------------------------------------------------------------------
  // Python value operations the mapping code performs

  /** End index of Python's slice `xs[:n]` on a sequence of length `len`. */
  function SliceEnd(len: nat, n: int): (e: nat)
    ensures e <= len
    ensures n >= 0 ==> e == Min(n, len)
    ensures n < 0 ==> e == Max(0, len + n)
  {
    if n >= 0 then Min(n, len) else Max(0, len + n)
  }

  /** `v[:n]`, as the sequence of values a `for` loop then visits. */
  function SliceItems(v: Json, n: int): (r: Result<seq<Json>, Fault>)
    ensures v.JList? ==> r == Ok(v.items[..SliceEnd(|v.items|, n)])
    ensures r.Ok? ==> v.JList? || v.JStr?
  {
    match v
    case JList(xs) => Ok(xs[..SliceEnd(|xs|, n)])
    case JStr(s) =>
      var e := SliceEnd(|s|, n);
      Ok(seq(e, i requires 0 <= i < e => JStr([s[i]])))
    case JObj(_) => Err(UnhashableSlice)
    case _ => Err(NotSubscriptable(TypeName(v)))
  }

  /** `x.get(key)`, which needs `x` to be a dict. */
  function GetFrom(x: Json, key: string): (r: Result<Json, Fault>)
    ensures r.Ok? <==> x.JObj?
    ensures x.JObj? ==> r.value == Get(x.fields, key)
  {
    if x.JObj? then Ok(Get(x.fields, key)) else Err(NoAttributeGet(TypeName(x)))
  }

  /** `x[0]`. */
  function First(x: Json): (r: Result<Json, Fault>)
    ensures r.Ok? <==> (x.JList? && x.items != []) || (x.JStr? && x.s != [])
    ensures x.JList? && x.items != [] ==> r.value == x.items[0]
  {
    match x
    case JList(xs) => if xs == [] then Err(ListIndexOutOfRange) else Ok(xs[0])
    case JStr(s) => if s == [] then Err(StringIndexOutOfRange) else Ok(JStr([s[0]]))
    case JObj(_) => Err(NoKeyZero)
    case _ => Err(NotSubscriptable(TypeName(x)))
  }

  // ---------------------------------------------------------------------
  // Web search

  /** The three environment values `WebSearchTool` reads. */
  datatype SearchConfig = SearchConfig(serpApiKey: Option<string>, googleApiKey: Option<string>, googleCseId: Option<string>)

  /** The one request a search sends. */
  datatype SearchRequest =
    | SerpApiRequest(q: string, apiKey: string, engine: string, num: int)
    | GoogleRequest(q: string, key: string, cx: string, num: int)

  /** What a search returns: the simplified result list, or `{"error": ...}`. */
  datatype SearchReply = Hits(entries: seq<Dict>) | SearchFailed(error: Dict)

  /** The request `search` sends, if any: SerpAPI whenever its key is set,
      Google only when both its key and its engine id are set, none otherwise. */
  function SearchRequestFor(cfg: SearchConfig, query: string, n: int): (r: Option<SearchRequest>)
    ensures r.Some? && r.value.SerpApiRequest? <==> IsSet(cfg.serpApiKey)
    ensures r.Some? && r.value.GoogleRequest? <==>
      !IsSet(cfg.serpApiKey) && IsSet(cfg.googleApiKey) && IsSet(cfg.googleCseId)
    ensures r.Some? ==> r.value.q == query
    ensures r.Some? && r.value.SerpApiRequest? ==> r.value.num == n
    ensures r.Some? && r.value.GoogleRequest? ==> r.value.num == Min(n, 10)
  {
    if IsSet(cfg.serpApiKey) then
      Some(SerpApiRequest(query, cfg.serpApiKey.value, "google", n))
    else if IsSet(cfg.googleApiKey) && IsSet(cfg.googleCseId) then
      Some(GoogleRequest(query, cfg.googleApiKey.value, cfg.googleCseId.value, Min(n, 10)))
    else
      None
  }

  /** A search result as the tools return it: a dictionary with exactly the
      keys title, snippet and link. */
  function ResultEntry(title: Json, snippet: Json, link: Json): (d: Dict)
    ensures d.Keys == {"title", "snippet", "link"}
    ensures d["title"] == title && d["snippet"] == snippet && d["link"] == link
  {
    map["title" := title, "snippet" := snippet, "link" := link]
  }

  /** One simplified search result: only the title, snippet and link of a
      provider item, `None` where the item lacks one. */
  function Projection(item: Dict): (d: Dict)
    ensures d.Keys == {"title", "snippet", "link"}
    ensures d["title"] == Get(item, "title") && d["snippet"] == Get(item, "snippet") && d["link"] == Get(item, "link")
  {
    ResultEntry(Get(item, "title"), Get(item, "snippet"), Get(item, "link"))
  }

  /** What the loop building `simplified_results` ends with: the projection of
      every item in order, or the AttributeError raised at the first item that
      is not a dict. */
  function Simplify(items: seq<Json>): (r: Result<seq<Dict>, Fault>)
    ensures r.Ok? <==> forall i :: 0 <= i < |items| ==> items[i].JObj?
    ensures r.Ok? ==> |r.value| == |items|
    ensures r.Ok? ==> forall i :: 0 <= i < |items| ==> r.value[i] == Projection(items[i].fields)
    ensures r.Err? ==> exists k :: (0 <= k < |items| && !items[k].JObj? &&
      (forall j :: 0 <= j < k ==> items[j].JObj?) && r.error == NoAttributeGet(TypeName(items[k])))
  {
    if items == [] then Ok([])
    else if !items[0].JObj? then Err(NoAttributeGet(TypeName(items[0])))
    else
      match Simplify(items[1..])
      case Err(f) =>
        ghost var k :| 0 <= k < |items[1..]| && !items[1..][k].JObj? &&
          (forall j :: 0 <= j < k ==> items[1..][j].JObj?) && f == NoAttributeGet(TypeName(items[1..][k]));
        assert !items[k + 1].JObj? && forall j :: 0 <= j < k + 1 ==> items[j].JObj?;
        Err(f)
      case Ok(rest) => Ok([Projection(items[0].fields)] + rest)
  }

  /** What a search backend returns for the outcome of its request: the list
      under `key` of the payload, cut to `n` and simplified, or the error
      dictionary of the handler that catches the exception raised. */
  function BackendReply(p: ErrorPrefixes, key: string, n: int, fetched: HttpOutcome): (r: SearchReply)
    ensures r.SearchFailed? ==> r.error.Keys == {"error"}
    ensures r.Hits? ==> forall i :: 0 <= i < |r.entries| ==> r.entries[i].Keys == {"title", "snippet", "link"}
  {
    match fetched
    case Raised(e) => SearchFailed(Caught(p, e))
    case Fetched(results) =>
      match GetFrom(results, key)
      case Err(f) => SearchFailed(Caught(p, FaultException(f)))
      case Ok(_) =>
        match SliceItems(GetOr(results.fields, key, JList([])), n)
        case Err(f) => SearchFailed(Caught(p, FaultException(f)))
        case Ok(items) =>
          match Simplify(items)
          case Err(f) => SearchFailed(Caught(p, FaultException(f)))
          case Ok(entries) => Hits(entries)
  }

  /** `_search_serpapi` as a function of its request's outcome. A payload
      without "organic_results" is an empty result list, not an error. */
  function SerpApiReply(n: int, fetched: HttpOutcome): (r: SearchReply)
    ensures fetched.Raised? ==> r == SearchFailed(Caught(SerpApiPrefixes, fetched.exception))
    ensures fetched.Fetched? && fetched.payload.JObj? && "organic_results" !in fetched.payload.fields ==> r == Hits([])
    ensures fetched.Fetched? && !fetched.payload.JObj? ==>
      r == SearchFailed(ErrorDict("An unexpected error occurred: " + FaultText(NoAttributeGet(TypeName(fetched.payload)))))
  {
    BackendReply(SerpApiPrefixes, "organic_results", n, fetched)
  }

  /** `_search_google` as a function of its request's outcome. A payload
      without "items" is an empty result list, not an error. */
  function GoogleReply(n: int, fetched: HttpOutcome): (r: SearchReply)
    ensures fetched.Raised? ==> r == SearchFailed(Caught(GooglePrefixes, fetched.exception))
    ensures fetched.Fetched? && fetched.payload.JObj? && "items" !in fetched.payload.fields ==> r == Hits([])
    ensures fetched.Fetched? && !fetched.payload.JObj? ==>
      r == SearchFailed(ErrorDict("An unexpected error occurred: " + FaultText(NoAttributeGet(TypeName(fetched.payload)))))
  {
    BackendReply(GooglePrefixes, "items", n, fetched)
  }

  const DemoLink := "https://example.com/demo"
  const DemoSnippet1 := "This is demonstration data shown because no web search API keys were configured. In a real deployment, this would be actual search results."
  const DemoSnippet2 := "The system can use SerpAPI or Google Custom Search API when properly configured with API keys."

  /** `_get_demo_search_results`. */
  function DemoSearchResults(query: string): (r: seq<Dict>)
    ensures |r| == 2
    ensures forall i :: 0 <= i < 2 ==> r[i].Keys == {"title", "snippet", "link"} && r[i]["link"] == JStr(DemoLink)
    ensures r[0]["title"] == JStr("Search result for " + query) && r[0]["snippet"] == JStr(DemoSnippet1)
    ensures r[1]["title"] == JStr("Another result for " + query) && r[1]["snippet"] == JStr(DemoSnippet2)
  {
    [ ResultEntry(JStr("Search result for " + query), JStr(DemoSnippet1), JStr(DemoLink)),
      ResultEntry(JStr("Another result for " + query), JStr(DemoSnippet2), JStr(DemoLink)) ]
  }

  /** `WebSearchTool.search`: `fetched` is the outcome of the request
      `SearchRequestFor(cfg, query, n)`; it is not consulted when no request is
      sent. The reply never raises: it is a list of three-key entries or a
      single-key error dictionary. */
  function Search(cfg: SearchConfig, query: string, n: int, fetched: HttpOutcome): (r: SearchReply)
    ensures r.SearchFailed? ==> r.error.Keys == {"error"} && SearchRequestFor(cfg, query, n).Some?
    ensures r.Hits? ==> forall i :: 0 <= i < |r.entries| ==> r.entries[i].Keys == {"title", "snippet", "link"}
  {
    if IsSet(cfg.serpApiKey) then SerpApiReply(n, fetched)
    else if IsSet(cfg.googleApiKey) && IsSet(cfg.googleCseId) then GoogleReply(n, fetched)
    else Hits(DemoSearchResults(query))
  }

  /** `_search_serpapi`, with the loop that builds `simplified_results`. */
  method SearchSerpApi(n: int, fetched: HttpOutcome) returns (r: SearchReply)
    ensures r == SerpApiReply(n, fetched)
  {
    if fetched.Raised? {
      return SearchFailed(Caught(SerpApiPrefixes, fetched.exception));
    }
    var results := fetched.payload;
    if !results.JObj? {
      return SearchFailed(Caught(SerpApiPrefixes, FaultException(NoAttributeGet(TypeName(results)))));
    }
    var sliced := SliceItems(GetOr(results.fields, "organic_results", JList([])), n);
    if sliced.Err? {
      return SearchFailed(Caught(SerpApiPrefixes, FaultException(sliced.error)));
    }
    var organic := sliced.value;
    var simplified: seq<Dict> := [];
    for i := 0 to |organic|
      invariant |simplified| == i
      invariant forall j :: 0 <= j < i ==> organic[j].JObj? && simplified[j] == Projection(organic[j].fields)
    {
      var result := organic[i];
      if !result.JObj? {
        return SearchFailed(Caught(SerpApiPrefixes, FaultException(NoAttributeGet(TypeName(result)))));
      }
      simplified := simplified + [Projection(result.fields)];
    }
    return Hits(simplified);
  }

  /** `_search_google`, with the loop that builds `simplified_results`. */
  method SearchGoogle(n: int, fetched: HttpOutcome) returns (r: SearchReply)
    ensures r == GoogleReply(n, fetched)
  {
    if fetched.Raised? {
      return SearchFailed(Caught(GooglePrefixes, fetched.exception));
    }
    var results := fetched.payload;
    if !results.JObj? {
      return SearchFailed(Caught(GooglePrefixes, FaultException(NoAttributeGet(TypeName(results)))));
    }
    var sliced := SliceItems(GetOr(results.fields, "items", JList([])), n);
    if sliced.Err? {
      return SearchFailed(Caught(GooglePrefixes, FaultException(sliced.error)));
    }
    var items := sliced.value;
    var simplified: seq<Dict> := [];
    for i := 0 to |items|
      invariant |simplified| == i
      invariant forall j :: 0 <= j < i ==> items[j].JObj? && simplified[j] == Projection(items[j].fields)
    {
      var item := items[i];
      if !item.JObj? {
        return SearchFailed(Caught(GooglePrefixes, FaultException(NoAttributeGet(TypeName(item)))));
      }
      simplified := simplified + [Projection(item.fields)];
    }
    return Hits(simplified);
  }

  // ---------------------------------------------------------------------
  // Weather

  /** The request `get_weather` sends when its key is set. */
  datatype WeatherRequest = WeatherRequest(q: string, appid: string, units: string)

  function WeatherRequestFor(apiKey: Option<string>, location: string): (r: Option<WeatherRequest>)
    ensures r.Some? <==> IsSet(apiKey)
    ensures r.Some? ==> r.value.q == location && r.value.units == "metric"
  {
    if IsSet(apiKey) then Some(WeatherRequest(location, apiKey.value, "metric")) else None
  }

  const DemoWeatherKeys: set<string> := {"location", "temperature", "description", "humidity", "wind_speed", "source"}
  const ObservedWeatherKeys: set<string> := {"location", "temperature", "description", "humidity", "wind_speed"}

  /** `_get_demo_weather_data`. */
  function DemoWeather(location: string): (d: Dict)
    ensures d.Keys == DemoWeatherKeys
  {
    map["location" := JStr(location), "temperature" := JInt(22), "description" := JStr("Partly cloudy"),
        "humidity" := JInt(65), "wind_speed" := JFloat(3.5), "source" := JStr("demo_data")]
  }

  /** `data.get("cod") != 200` is false exactly for a code equal to 200 as a
      Python number. */
  predicate IsOk(code: Json): (b: bool)
    ensures b <==> (code.JInt? && code.i == 200) || (code.JFloat? && code.f == 200.0)
    ensures code.JStr? || code.JNull? ==> !b
  {
    code == JInt(200) || code == JFloat(200.0)
  }

  /** The text `data.get('message', 'Unknown error')` puts into the f-string;
      `render` is Python's `str()` of a non-string value. */
  function StatusMessage(data: Dict, render: Json -> string): (m: string)
    ensures "message" !in data ==> m == "Unknown error"
    ensures "message" in data && data["message"].JStr? ==> m == data["message"].s
  {
    if "message" !in data then "Unknown error"
    else match data["message"]
      case JStr(s) => s
      case v => render(v)
  }

  /** The dictionary literal `weather_info`, evaluated entry by entry: the
      first entry whose lookup raises decides the fault. */
  function WeatherInfo(data: Dict): (r: Result<Dict, Fault>)
    ensures r.Ok? ==> r.value.Keys == ObservedWeatherKeys && r.value["location"] == Get(data, "name")
  {
    var main := GetOr(data, "main", JObj(map[]));
    var wind := GetOr(data, "wind", JObj(map[]));
    var temperature :- GetFrom(main, "temp");
    var first :- First(GetOr(data, "weather", JList([JObj(map[])])));
    var description :- GetFrom(first, "description");
    // `main` is a dict once `temp` was read from it, so this lookup cannot raise
    var humidity := Get(main.fields, "humidity");
    var windSpeed :- GetFrom(wind, "speed");
    Ok(map["location" := Get(data, "name"), "temperature" := temperature, "description" := description,
           "humidity" := humidity, "wind_speed" := windSpeed])
  }

  /** What `get_weather` makes of a decoded payload. */
  function WeatherFromPayload(payload: Json, render: Json -> string): (d: Dict)
    ensures d.Keys == {"error"} || d.Keys == ObservedWeatherKeys
  {
    match payload
    case JObj(data) =>
      if !IsOk(Get(data, "cod")) then ErrorDict("Error fetching weather: " + StatusMessage(data, render))
      else
        (match WeatherInfo(data)
         case Ok(info) => info
         case Err(f) => Caught(WeatherPrefixes, FaultException(f)))
    case _ => Caught(WeatherPrefixes, FaultException(NoAttributeGet(TypeName(payload))))
  }

  /** `WeatherTool.get_weather`: `fetched` is the outcome of the request
      `WeatherRequestFor(apiKey, location)`, not consulted when the key is
      unset. The result never raises and has one of three shapes: demo data
      (exactly when no key is set), an observation, or `{"error": ...}`. */
  function GetWeather(apiKey: Option<string>, location: string, fetched: HttpOutcome, render: Json -> string): (d: Dict)
    ensures d.Keys == DemoWeatherKeys <==> !IsSet(apiKey)
    ensures IsSet(apiKey) ==> d.Keys == {"error"} || d.Keys == ObservedWeatherKeys
  {
    if !IsSet(apiKey) then DemoWeather(location)
    else
      match fetched
      case Raised(e) => Caught(WeatherPrefixes, e)
      case Fetched(payload) => WeatherFromPayload(payload, render)
  }

  // ---------------------------------------------------------------------
  // Properties

  /** A set SerpAPI key decides the route whatever the Google settings are. */
  lemma SerpApiTakesPriority(cfg: SearchConfig, google: Option<string>, cse: Option<string>, query: string, n: int, fetched: HttpOutcome)
    requires IsSet(cfg.serpApiKey)
    ensures Search(cfg, query, n, fetched) == SerpApiReply(n, fetched)
    ensures Search(SearchConfig(cfg.serpApiKey, google, cse), query, n, fetched) == Search(cfg, query, n, fetched)
  {
  }

  /** Without usable credentials the search sends nothing and returns the two
      fixed entries, whatever `n` and whatever a request would have returned. */
  lemma DemoSearchWithoutCredentials(cfg: SearchConfig, query: string, n: int, fetched: HttpOutcome, n': int, fetched': HttpOutcome)
    requires !IsSet(cfg.serpApiKey) && !(IsSet(cfg.googleApiKey) && IsSet(cfg.googleCseId))
    ensures SearchRequestFor(cfg, query, n).None?
    ensures Search(cfg, query, n, fetched) == Search(cfg, query, n', fetched')
    ensures var r := Search(cfg, query, n, fetched);
      && r.Hits? && |r.entries| == 2
      && r.entries[0]["title"] == JStr("Search result for " + query)
      && r.entries[1]["title"] == JStr("Another result for " + query)
      && r.entries[0]["link"] == JStr(DemoLink)
      && r.entries[1]["link"] == JStr(DemoLink)
  {
  }

  /** For a well-formed payload the reply keeps the provider's order, cuts the
      list as `[:n]` does (to `n` items for a non-negative `n`) and keeps only
      title, snippet and link of each item. */
  lemma {:induction false} BackendKeepsOrder(p: ErrorPrefixes, key: string, n: int, fields: Dict, items: seq<Json>)
    requires key in fields && fields[key] == JList(items)
    requires forall i :: 0 <= i < |items| ==> items[i].JObj?
    ensures var r := BackendReply(p, key, n, Fetched(JObj(fields)));
      && r.Hits?
      && |r.entries| == SliceEnd(|items|, n)
      && (n >= 0 ==> |r.entries| == Min(n, |items|) <= n)
      && forall i :: 0 <= i < |r.entries| ==> r.entries[i] == Projection(items[i].fields)
  {
    var cut := items[..SliceEnd(|items|, n)];
    assert forall i :: 0 <= i < |cut| ==> cut[i].JObj?;
  }

  /** For any non-negative `n` a backend never returns more than `n` entries. */
  lemma BackendAtMostN(p: ErrorPrefixes, key: string, n: int, fetched: HttpOutcome)
    requires n >= 0
    ensures BackendReply(p, key, n, fetched).Hits? ==> |BackendReply(p, key, n, fetched).entries| <= n
  {
    if fetched.Fetched? && fetched.payload.JObj? {
      var v := GetOr(fetched.payload.fields, key, JList([]));
      if v.JStr? {
        assert SliceEnd(|v.s|, n) <= n;
      }
    }
  }

  /** The Google request asks for at most ten results, and the reply is in
      addition cut to `n` itself. */
  lemma GoogleCapsRequestAndReply(cfg: SearchConfig, query: string, n: int, fetched: HttpOutcome)
    requires !IsSet(cfg.serpApiKey) && IsSet(cfg.googleApiKey) && IsSet(cfg.googleCseId)
    requires n >= 0
    ensures SearchRequestFor(cfg, query, n) == Some(GoogleRequest(query, cfg.googleApiKey.value, cfg.googleCseId.value, Min(n, 10)))
    ensures Search(cfg, query, n, fetched) == GoogleReply(n, fetched)
    ensures GoogleReply(n, fetched).Hits? ==> |GoogleReply(n, fetched).entries| <= n
  {
    BackendAtMostN(GooglePrefixes, "items", n, fetched);
  }

  /** An exception from the request is caught by the first matching clause in
      the order RequestException, ValueError, Exception, and becomes a
      single-key error dictionary with that clause's prefix. */
  lemma SearchExceptionsCaught(n: int, e: PyException)
    ensures SerpApiReply(n, Raised(e)).SearchFailed? && GoogleReply(n, Raised(e)).SearchFailed?
    ensures SerpApiReply(n, Raised(e)).error == ErrorDict(
      if e.isRequestException then "Error performing web search: " + e.text
      else if e.isValueError then "Error decoding API response: " + e.text
      else "An unexpected error occurred: " + e.text)
    ensures GoogleReply(n, Raised(e)).error == ErrorDict(
      if e.isRequestException then "Error performing Google search: " + e.text
      else if e.isValueError then "Error decoding API response: " + e.text
      else "An unexpected error occurred: " + e.text)
  {
  }

  /** Without a key the demo dictionary is returned, built from the input
      location, and nothing a request would return matters. */
  lemma DemoWeatherWithoutKey(apiKey: Option<string>, location: string, fetched: HttpOutcome, fetched': HttpOutcome, render: Json -> string)
    requires !IsSet(apiKey)
    ensures WeatherRequestFor(apiKey, location).None?
    ensures GetWeather(apiKey, location, fetched, render) == GetWeather(apiKey, location, fetched', render)
    ensures var d := GetWeather(apiKey, location, fetched, render);
      && d["location"] == JStr(location) && d["temperature"] == JInt(22)
      && d["description"] == JStr("Partly cloudy") && d["humidity"] == JInt(65)
      && d["wind_speed"] == JFloat(3.5) && d["source"] == JStr("demo_data")
  {
  }

  /** A payload whose `cod` is not 200 gives the provider's message, or
      "Unknown error" without one. */
  lemma WeatherStatusError(apiKey: Option<string>, location: string, data: Dict, render: Json -> string)
    requires IsSet(apiKey)
    requires !IsOk(Get(data, "cod"))
    ensures GetWeather(apiKey, location, Fetched(JObj(data)), render) ==
      ErrorDict("Error fetching weather: " + StatusMessage(data, render))
    ensures "message" !in data ==>
      GetWeather(apiKey, location, Fetched(JObj(data)), render) == ErrorDict("Error fetching weather: " + "Unknown error")
  {
  }

  /** A successful payload maps `name`, `main.temp`, `weather[0].description`,
      `main.humidity` and `wind.speed` to the five output keys; a missing
      `main` or `wind` gives `None`, not an error. */
  lemma WeatherObservation(apiKey: Option<string>, location: string, data: Dict, render: Json -> string)
    requires IsSet(apiKey)
    requires IsOk(Get(data, "cod"))
    requires "main" !in data || data["main"].JObj?
    requires "wind" !in data || data["wind"].JObj?
    requires "weather" in data ==> data["weather"].JList? && data["weather"].items != [] && data["weather"].items[0].JObj?
    ensures var d := GetWeather(apiKey, location, Fetched(JObj(data)), render);
      && d.Keys == ObservedWeatherKeys
      && d["location"] == Get(data, "name")
      && d["temperature"] == (if "main" in data then Get(data["main"].fields, "temp") else JNull)
      && d["humidity"] == (if "main" in data then Get(data["main"].fields, "humidity") else JNull)
      && d["wind_speed"] == (if "wind" in data then Get(data["wind"].fields, "speed") else JNull)
      && d["description"] == (if "weather" in data then Get(data["weather"].items[0].fields, "description") else JNull)
  {
  }

  /** An exception from the weather request is caught in the same clause
      order and becomes a single-key error dictionary. */
  lemma WeatherExceptionsCaught(apiKey: Option<string>, location: string, e: PyException, render: Json -> string)
    requires IsSet(apiKey)
    ensures GetWeather(apiKey, location, Raised(e), render) == ErrorDict(
      if e.isRequestException then "Error fetching weather: " + e.text
      else if e.isValueError then "Error decoding API response: " + e.text
      else "An unexpected error occurred: " + e.text)
  {
  }

  /** A payload with an empty `weather` list raises IndexError inside the
      mapping, which reaches the generic handler. */
  lemma WeatherEmptyListFault(apiKey: Option<string>, location: string, data: Dict, render: Json -> string)
    requires IsSet(apiKey)
    requires IsOk(Get(data, "cod"))
    requires "main" !in data || data["main"].JObj?
    requires "weather" in data && data["weather"] == JList([])
    ensures GetWeather(apiKey, location, Fetched(JObj(data)), render) ==
      ErrorDict("An unexpected error occurred: " + "list index out of range")
  {
  }
}
