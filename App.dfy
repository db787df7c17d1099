/**
 * The three Flask handlers of backend/app.py that do more than forward a call:
 * `search_properties`, `get_property_details` and `get_search_suggestions`.
 * Modelled are the request checks, the shaping of the search response (at most
 * five properties, their count, the summary message) and the choice of status
 * code for every outcome, including the exceptions the handlers catch.
 *
 * The request body is the value `request.get_json()` returned (JNull when there
 * is none). The call to the property server is not modelled: its outcome is a
 * McpResult. Replies of the language model are parameters, as in OpenRouter.
 */
module App {
  import opened Wrappers
  import opened PyText
  import opened PyJson
  import opened OpenRouter

  /** A status code with its JSON body. */
  datatype HttpResponse = HttpResponse(status: int, body: Json)

  /** The outcome of one request to the property server: an exception of `requests`
      (a timeout, a failed connection, anything else), or a response whose body is None
      when `.json()` cannot decode it. A connect timeout is a timeout. */
  datatype McpResult =
    | McpTimeout
    | McpConnectionError
    | McpOtherError
    | McpResponse(status: int, body: Option<Json>)

  /** `{'error': message}` with its status. */
  function ErrorResponse(status: int, message: string): HttpResponse {
    HttpResponse(status, JObj(map["error" := JStr(message)]))
  }

  const InternalError: string := "Internal server error"

  /** The result of `if not data or key not in data: ...; value = data[key]`. */
  datatype Lookup = Missing | Found(value: Json) | LookupRaised

  /** Reading a required field of the request body with Python's `in` and indexing: a false
      body or an absent key is Missing; a list holding the key or a string containing it passes
      the `in` test but cannot be indexed by a string, and a number or `True` cannot be searched
      with `in`, so those raise. */
  function RequestField(data: Json, key: string): (r: Lookup)
    ensures r.Found? <==> data.JObj? && key in data.fields
    ensures r.Found? ==> r.value == data.fields[key]
    ensures !Truthy(data) ==> r == Missing
    ensures data.JObj? && key !in data.fields ==> r == Missing
  {
    if !Truthy(data) then Missing
    else
      match data
      case JObj(m) => if key in m then Found(m[key]) else Missing
      case JArr(xs) => if JStr(key) in xs then LookupRaised else Missing
      case JStr(s) => if IsSubstring(key, s) then LookupRaised else Missing
      case _ => LookupRaised
  }

  // ---------------------------------------------------------------------------
  // search_properties

  /** The default summary message for `count` returned properties. */
  function FoundMessage(count: nat): string {
    "Found " + DecimalString(count) + " properties matching your search."
  }

  /** The properties the response starts from: the enhanced results' own, else the server's,
      else an empty list. */
  function ChosenProperties(enhanced: map<string, Json>, data: map<string, Json>): Json {
    Get(enhanced, "properties", Get(data, "properties", JArr([])))
  }

  /** The success body of `search_properties`. Both dicts are read with `.get`, so either one
      not being a dict raises, and so does slicing chosen properties that are neither a list nor
      a string. */
  function SearchPayload(query: Json, enhanced: Json, data: Json, processingTime: Json): (r: Outcome<Json>)
    ensures r.Returned? <==>
      enhanced.JObj? && data.JObj? && TakePrefix(ChosenProperties(enhanced.fields, data.fields), 5).Some?
    ensures r.Returned? ==>
      var body := r.value;
      body.JObj? && "data" in body.fields && body.fields["data"].JObj? &&
      var d := body.fields["data"].fields;
      "properties" in d && "total" in d && "query" in d &&
      Len(d["properties"]).Some? && Len(d["properties"]).value <= 5 &&
      d["total"] == JNum(Len(d["properties"]).value) &&
      d["query"] == query
    ensures r.Returned? ==>
      r.value.fields.Keys == {"success", "data", "message"} &&
      r.value.fields["success"] == JBool(true) &&
      r.value.fields["data"].fields.Keys == {"properties", "total", "query", "processingTime"} &&
      r.value.fields["data"].fields["processingTime"] == processingTime
  {
    if !enhanced.JObj? || !data.JObj? then Raised
    else
      match TakePrefix(ChosenProperties(enhanced.fields, data.fields), 5)
      case None => Raised
      case Some(properties) =>
        var count := Len(properties).value;
        Returned(JObj(map[
          "success" := JBool(true),
          "data" := JObj(map[
            "properties" := properties,
            "total" := JNum(count),
            "query" := query,
            "processingTime" := processingTime
          ]),
          "message" := Get(enhanced.fields, "ai_summary", JStr(FoundMessage(count)))
        ]))
  }

  /** The returned list is the first min(5, n) entries of the chosen list, in order, `total` is
      its length, and the message is the enhanced summary if there is one, else the count. */
  lemma TopFiveOfChosen(query: Json, enhanced: map<string, Json>, data: map<string, Json>,
                        processingTime: Json, xs: seq<Json>)
    requires ChosenProperties(enhanced, data) == JArr(xs)
    ensures var r := SearchPayload(query, JObj(enhanced), JObj(data), processingTime);
      var n := Min(5, |xs|);
      r.Returned? &&
      r.value.fields["data"].fields["properties"] == JArr(xs[..n]) &&
      r.value.fields["data"].fields["total"] == JNum(n) &&
      r.value.fields["message"] ==
        (if "ai_summary" in enhanced then enhanced["ai_summary"] else JStr(FoundMessage(n)))
  {
  }

  /** The number in the default message is the number of properties returned. */
  lemma FoundMessageReportsCount(count: nat)
    ensures FirstDigitRun(FoundMessage(count)) == Some(DecimalString(count))
    ensures DigitsValue(DecimalString(count)) == count
  {
    var post := " properties matching your search.";
    assert FoundMessage(count) == "Found " + DecimalString(count) + post;
    FirstDigitRunOf("Found ", DecimalString(count), post);
    DecimalRoundTrip(count);
  }

  /** What follows a successful property search: enhancement, then the payload. */
  function SearchResponse(svc: Service, query: Json, data: Json, enhanceReply: Option<string>,
                          loads: string -> Option<Json>, processingTime: Json): HttpResponse
  {
    match EnhanceSearchResults(svc, data, enhanceReply, loads)
    case Raised => ErrorResponse(500, InternalError)
    case Returned(enhanced) =>
      match SearchPayload(query, enhanced, data, processingTime)
      case Raised => ErrorResponse(500, InternalError)
      case Returned(body) => HttpResponse(200, body)
  }

  const FailedToProcess: string := "Failed to process search query"
  const SearchFailed: string := "Property search failed"

  /** The error messages a search can answer with 500 are told apart by their first letter. */
  lemma SearchErrorsDistinct()
    ensures ErrorResponse(500, InternalError) != ErrorResponse(500, FailedToProcess)
    ensures ErrorResponse(500, SearchFailed) != ErrorResponse(500, FailedToProcess)
  {
    assert InternalError[0] != FailedToProcess[0];
    assert SearchFailed[0] != FailedToProcess[0];
    assert ErrorResponse(500, InternalError).body.fields["error"] != ErrorResponse(500, FailedToProcess).body.fields["error"];
    assert ErrorResponse(500, SearchFailed).body.fields["error"] != ErrorResponse(500, FailedToProcess).body.fields["error"];
  }

  /** The rest of `search_properties` with its exception handlers: the property server's
      outcome decides the status. A timeout is 504, a failed connection 503, any other exception
      or a status other than 200 is 500; only a decoded 200 reply goes on to enhancement and the
      payload. */
  function ServerResponse(svc: Service, query: Json, mcp: McpResult, enhanceReply: Option<string>,
                          loads: string -> Option<Json>, processingTime: Json): (r: HttpResponse)
    ensures r.status in {200, 500, 503, 504}
    ensures r.status == 504 <==> mcp == McpTimeout
    ensures r.status == 503 <==> mcp == McpConnectionError
    ensures r.status == 200 ==> mcp.McpResponse? && mcp.status == 200 && mcp.body.Some?
    ensures mcp.McpResponse? && mcp.status != 200 ==> r == ErrorResponse(500, SearchFailed)
    ensures mcp == McpOtherError || mcp == McpResponse(200, None) ==> r == ErrorResponse(500, InternalError)
    ensures mcp.McpResponse? && mcp.status == 200 && mcp.body.Some? ==>
      var e := EnhanceSearchResults(svc, mcp.body.value, enhanceReply, loads);
      if e.Returned? && SearchPayload(query, e.value, mcp.body.value, processingTime).Returned?
      then r == HttpResponse(200, SearchPayload(query, e.value, mcp.body.value, processingTime).value)
      else r == ErrorResponse(500, InternalError)
    ensures r != ErrorResponse(500, FailedToProcess)
  {
    SearchErrorsDistinct();
    match mcp
    case McpTimeout => ErrorResponse(504, "Request timeout")
    case McpConnectionError => ErrorResponse(503, "Service unavailable")
    case McpOtherError => ErrorResponse(500, InternalError)
    case McpResponse(status, body) =>
      if status != 200 then ErrorResponse(500, SearchFailed)
      else if body.None? then ErrorResponse(500, InternalError)
      else SearchResponse(svc, query, body.value, enhanceReply, loads, processingTime)
  }

  /** `search_properties`. */
  function SearchProperties(svc: Service, request: Json, queryReply: Option<string>, mcp: McpResult,
                            enhanceReply: Option<string>, loads: string -> Option<Json>,
                            processingTime: Json): (r: HttpResponse)
    ensures r.status in {200, 400, 500, 503, 504}
    ensures r.status == 400 <==> RequestField(request, "query") == Missing
    ensures RequestField(request, "query") == LookupRaised ==> r == ErrorResponse(500, InternalError)
    ensures (RequestField(request, "query").Found? &&
             ProcessSearchQuery(svc, RequestField(request, "query").value, queryReply, loads).Raised?) ==>
      r == ErrorResponse(500, InternalError)
  {
    match RequestField(request, "query")
    case Missing => ErrorResponse(400, "Query is required")
    case LookupRaised => ErrorResponse(500, InternalError)
    case Found(query) =>
      match ProcessSearchQuery(svc, query, queryReply, loads)
      case Raised => ErrorResponse(500, InternalError)
      case Returned(params) =>
        if params == map[] then ErrorResponse(500, FailedToProcess)
        else ServerResponse(svc, query, mcp, enhanceReply, loads, processingTime)
  }

  /** A JSON object without a `query` key is rejected with 400 whatever the services would
      have answered: nothing downstream is consulted. */
  lemma MissingQueryRejected(svc: Service, fields: map<string, Json>, queryReply: Option<string>,
                             mcp: McpResult, enhanceReply: Option<string>,
                             loads: string -> Option<Json>, processingTime: Json)
    requires "query" !in fields
    ensures SearchProperties(svc, JObj(fields), queryReply, mcp, enhanceReply, loads, processingTime)
      == ErrorResponse(400, "Query is required")
  {
  }

  /** The "Failed to process search query" answer never happens: processed parameters always
      hold the four counts, so they are never empty. */
  lemma ParamsNeverEmpty(svc: Service, request: Json, queryReply: Option<string>, mcp: McpResult,
                         enhanceReply: Option<string>, loads: string -> Option<Json>,
                         processingTime: Json)
    ensures SearchProperties(svc, request, queryReply, mcp, enhanceReply, loads, processingTime)
      != ErrorResponse(500, FailedToProcess)
  {
    SearchErrorsDistinct();
    match RequestField(request, "query")
    case Missing =>
    case LookupRaised =>
    case Found(query) =>
      if ProcessSearchQuery(svc, query, queryReply, loads).Returned? {
        SearchReachesServer(svc, request, queryReply, mcp, enhanceReply, loads, processingTime, query);
      }
  }

  /** Once the query is read and processed, the search answers what the property server's
      outcome decides. */
  lemma SearchReachesServer(svc: Service, request: Json, queryReply: Option<string>, mcp: McpResult,
                            enhanceReply: Option<string>, loads: string -> Option<Json>,
                            processingTime: Json, query: Json)
    requires RequestField(request, "query") == Found(query)
    requires ProcessSearchQuery(svc, query, queryReply, loads).Returned?
    ensures SearchProperties(svc, request, queryReply, mcp, enhanceReply, loads, processingTime)
      == ServerResponse(svc, query, mcp, enhanceReply, loads, processingTime)
  {
    var p := ProcessSearchQuery(svc, query, queryReply, loads);
    assert "adults" in p.value;
  }

  /** Without an API key, a search for text whose first number `int()` can read answers 200
      with the payload built from the property server's own results, unchanged by enhancement;
      `TopFiveOfChosen` says what the payload then holds. */
  lemma SearchWithoutKey(svc: Service, q: string, queryReply: Option<string>,
                         enhanceReply: Option<string>, loads: string -> Option<Json>,
                         processingTime: Json, data: map<string, Json>)
    requires !svc.IsAvailable()
    requires !IntConversionFails(q)
    requires TakePrefix(ChosenProperties(data, data), 5).Some?
    ensures SearchPayload(JStr(q), JObj(data), JObj(data), processingTime).Returned?
    ensures SearchProperties(svc, JObj(map["query" := JStr(q)]), queryReply,
                             McpResponse(200, Some(JObj(data))), enhanceReply, loads, processingTime)
      == HttpResponse(200, SearchPayload(JStr(q), JObj(data), JObj(data), processingTime).value)
  {
    var request := JObj(map["query" := JStr(q)]);
    var mcp := McpResponse(200, Some(JObj(data)));
    assert RequestField(request, "query") == Found(JStr(q));
    assert ProcessSearchQuery(svc, JStr(q), queryReply, loads).Returned?;
    SearchReachesServer(svc, request, queryReply, mcp, enhanceReply, loads, processingTime, JStr(q));
    assert EnhanceSearchResults(svc, JObj(data), enhanceReply, loads) == Returned(JObj(data));
  }

  // ---------------------------------------------------------------------------
  // get_property_details

  /** `get_property_details`. */
  function GetPropertyDetails(svc: Service, mcp: McpResult, enhanceReply: Option<string>,
                              loads: string -> Option<Json>): (r: HttpResponse)
    ensures r.status in {200, 404, 500, 503, 504}
    ensures r.status == 404 <==> mcp.McpResponse? && mcp.status == 404
    ensures r.status == 504 <==> mcp == McpTimeout
    ensures r.status == 503 <==> mcp == McpConnectionError
    ensures mcp.McpResponse? && mcp.status != 200 && mcp.status != 404 ==>
      r == ErrorResponse(500, "Failed to fetch property details")
    ensures r.status == 200 <==>
      mcp.McpResponse? && mcp.status == 200 && mcp.body.Some? &&
      EnhancePropertyDetails(svc, mcp.body.value, enhanceReply, loads).Returned?
    ensures r.status == 200 ==> r.body == EnhancePropertyDetails(svc, mcp.body.value, enhanceReply, loads).value
    ensures mcp == McpOtherError || mcp == McpResponse(200, None) ==> r == ErrorResponse(500, InternalError)
    ensures (mcp.McpResponse? && mcp.status == 200 && mcp.body.Some? &&
             EnhancePropertyDetails(svc, mcp.body.value, enhanceReply, loads).Raised?) ==>
      r == ErrorResponse(500, InternalError)
  {
    match mcp
    case McpTimeout => ErrorResponse(504, "Request timeout")
    case McpConnectionError => ErrorResponse(503, "Service unavailable")
    case McpOtherError => ErrorResponse(500, InternalError)
    case McpResponse(status, body) =>
      if status == 404 then ErrorResponse(404, "Property not found")
      else if status != 200 then ErrorResponse(500, "Failed to fetch property details")
      else if body.None? then ErrorResponse(500, InternalError)
      else
        match EnhancePropertyDetails(svc, body.value, enhanceReply, loads)
        case Raised => ErrorResponse(500, InternalError)
        case Returned(enhanced) => HttpResponse(200, enhanced)
  }

  /** Without an API key, the property details pass through unchanged. */
  lemma DetailsWithoutKey(svc: Service, data: Json, enhanceReply: Option<string>,
                          loads: string -> Option<Json>)
    requires !svc.IsAvailable()
    ensures GetPropertyDetails(svc, McpResponse(200, Some(data)), enhanceReply, loads) == HttpResponse(200, data)
  {
  }

  // ---------------------------------------------------------------------------
  // get_search_suggestions

  const SuggestionsTimestamp: string := "2025-07-24T01:16:00.000Z"
  const SuggestionsFailed: string := "Failed to generate suggestions"

  /** `get_search_suggestions`. */
  function GetSearchSuggestions(svc: Service, request: Json, upstream: Option<string>,
                                loads: string -> Option<Json>, pyStr: Json -> string): (r: HttpResponse)
    ensures r.status in {200, 400, 500}
    ensures r.status == 400 <==> RequestField(request, "partial_query") == Missing
    ensures r.status == 200 ==>
      r.body.JObj? && "suggestions" in r.body.fields &&
      r.body.fields["suggestions"].JArr? && |r.body.fields["suggestions"].items| <= 5
    ensures var f := RequestField(request, "partial_query");
      r.status == 200 <==> f.Found? && GenerateSearchSuggestions(svc, f.value, upstream, loads, pyStr).Returned?
    ensures var f := RequestField(request, "partial_query");
      r.status == 200 ==>
        r.body.fields["suggestions"] == JArr(GenerateSearchSuggestions(svc, f.value, upstream, loads, pyStr).value) &&
        "timestamp" in r.body.fields && r.body.fields["timestamp"] == JStr(SuggestionsTimestamp)
    ensures r.status == 500 <==> r == ErrorResponse(500, SuggestionsFailed)
    ensures var f := RequestField(request, "partial_query");
      r.status == 500 <==>
        f == LookupRaised || (f.Found? && GenerateSearchSuggestions(svc, f.value, upstream, loads, pyStr).Raised?)
  {
    match RequestField(request, "partial_query")
    case Missing => ErrorResponse(400, "Partial query is required")
    case LookupRaised => ErrorResponse(500, SuggestionsFailed)
    case Found(partialQuery) =>
      match GenerateSearchSuggestions(svc, partialQuery, upstream, loads, pyStr)
      case Raised => ErrorResponse(500, SuggestionsFailed)
      case Returned(suggestions) =>
        HttpResponse(200, JObj(map[
          "suggestions" := JArr(suggestions),
          "timestamp" := JStr(SuggestionsTimestamp)
        ]))
  }
}
