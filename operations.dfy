/** The five API operations of the client: the request payload each one
    sends, the synchronous ones (`scrape`, `map`, `search`) that return the
    submission reply as it is, and the job-based ones (`crawl`, `extract`)
    that submit, check the reply and poll. */
module Operations {
  import opened Wrappers
  import opened Json
  import opened Transport
  import opened Poll

  const NoJobIdMessage := "No job ID returned from crawl request"

  /** A Python list of strings as JSON. */
  function StrList(ss: seq<string>): Json {
    JArr(seq(|ss|, k requires 0 <= k < |ss| => JStr(ss[k])))
  }

  // ---------------------------------------------------------------------
  // Payloads
  // ---------------------------------------------------------------------

  function ScrapePayload(url: string, formats: seq<string>, onlyMainContent: bool): Dict {
    map["url" := JStr(url), "formats" := StrList(formats), "onlyMainContent" := JBool(onlyMainContent)]
  }

  function CrawlPayload(url: string, limit: nat, formats: seq<string>): Dict {
    map["url" := JStr(url), "limit" := JInt(limit), "scrapeOptions" := JObj(map["formats" := StrList(formats)])]
  }

  function SearchPayload(query: string, limit: nat): Dict {
    map["query" := JStr(query), "limit" := JInt(limit)]
  }

  /** The `map` request body: the URL, and the search filter exactly when
      the query is non-empty. */
  function MapPayload(url: string, searchQuery: string): (p: Dict)
    ensures "url" in p && p["url"] == JStr(url)
    ensures "search" in p <==> searchQuery != ""
    ensures "search" in p ==> p["search"] == JStr(searchQuery)
    ensures p.Keys <= {"url", "search"}
  {
    if searchQuery != "" then map["url" := JStr(url), "search" := JStr(searchQuery)]
    else map["url" := JStr(url)]
  }

  /** The `extract` request body, or the rejection of a schema that does
      not parse: the URL list always, the prompt exactly when it is
      non-empty, the decoded schema exactly when the schema text is
      non-empty (and then it must parse). */
  function ExtractPayload(url: string, prompt: string, schema: string, parse: string -> Option<Json>): (r: Result<Dict, string>)
    ensures r.Err? <==> schema != "" && parse(schema).None?
    ensures r.Err? ==> r.error == "Invalid JSON schema: " + schema
    ensures r.Ok? ==>
      && "urls" in r.value && r.value["urls"] == JArr([JStr(url)])
      && ("prompt" in r.value <==> prompt != "")
      && ("prompt" in r.value ==> r.value["prompt"] == JStr(prompt))
      && ("schema" in r.value <==> schema != "")
      && ("schema" in r.value ==> parse(schema) == Some(r.value["schema"]))
      && r.value.Keys <= {"urls", "prompt", "schema"}
  {
    var base := map["urls" := JArr([JStr(url)])];
    var withPrompt := if prompt != "" then base["prompt" := JStr(prompt)] else base;
    if schema == "" then Ok(withPrompt)
    else match parse(schema)
      case None => Err("Invalid JSON schema: " + schema)
      case Some(decoded) => Ok(withPrompt["schema" := decoded])
  }

  /** Each request body carries only the parameters of its own operation. */
  lemma PayloadKeys(url: string, formats: seq<string>, onlyMainContent: bool, limit: nat)
    ensures ScrapePayload(url, formats, onlyMainContent).Keys == {"url", "formats", "onlyMainContent"}
    ensures CrawlPayload(url, limit, formats).Keys == {"url", "limit", "scrapeOptions"}
    ensures SearchPayload(url, limit).Keys == {"query", "limit"}
    ensures CrawlPayload(url, limit, formats)["scrapeOptions"].fields.Keys == {"formats"}
  {
  }

  // ---------------------------------------------------------------------
  // Synchronous operations
  // ---------------------------------------------------------------------

  /** `scrape`: one request, whose reply is the result. */
  function Scrape(url: string, formats: seq<string>, onlyMainContent: bool, reply: Reply): (c: Call)
    ensures Posts(c.effects) == 1 && StatusGets(c.effects) == 0
    ensures c.effects[0] == Post(ScrapeEndpoint, ScrapePayload(url, formats, onlyMainContent))
    ensures c.outcome == Received(reply)
  {
    Call(Received(reply), [Post(ScrapeEndpoint, ScrapePayload(url, formats, onlyMainContent))])
  }

  /** `search`: one request, whose reply is the result. */
  function Search(query: string, limit: nat, reply: Reply): (c: Call)
    ensures Posts(c.effects) == 1 && StatusGets(c.effects) == 0
    ensures c.effects[0] == Post(SearchEndpoint, SearchPayload(query, limit))
    ensures c.outcome == Received(reply)
  {
    Call(Received(reply), [Post(SearchEndpoint, SearchPayload(query, limit))])
  }

  /** `map_urls`: builds the body by adding the search filter in place,
      then issues one request whose reply is the result. */
  method MapUrls(url: string, searchQuery: string, reply: Reply) returns (c: Call)
    ensures c == Call(Received(reply), [Post(MapEndpoint, MapPayload(url, searchQuery))])
  {
    var payload: Dict := map["url" := JStr(url)];
    if searchQuery != "" {
      payload := payload["search" := JStr(searchQuery)];
    }
    var post := Post(MapEndpoint, payload);
    match reply
    case Fault(m) => c := Call(Raised(RequestFailed(m)), [post]);
    case Body(j) => c := Call(Returned(j), [post]);
  }

  // ---------------------------------------------------------------------
  // Job-based operations
  // ---------------------------------------------------------------------

  /** The submission reply asks for polling: a dict with a truthy
      `success` and a truthy `id`. */
  predicate StartsJob(submit: Reply) {
    && submit.Body? && submit.json.JObj?
    && Truthy(Get(submit.json.fields, "success"))
    && Truthy(Get(submit.json.fields, "id"))
  }

  /** Submit-then-poll, the reference definition for `crawl` and
      `extract` after their payload is built. */
  function JobFlow(kind: JobKind, payload: Dict, submit: Reply, st: StatusOracle): Call {
    var post := Post(EndpointOf(kind), payload);
    match submit
    case Fault(m) => Call(Raised(RequestFailed(m)), [post])
    case Body(result) =>
      if !result.JObj? then Call(Raised(Unexpected(NoGetMessage(result))), [post])
      else if !Truthy(Get(result.fields, "success")) then Call(Returned(result), [post])
      else
        var jobId := Get(result.fields, "id");
        if !Truthy(jobId) then
          match kind
          case CrawlJob => Call(Returned(JObj(FailureResult(NoJobIdMessage))), [post])
          case ExtractJob => Call(Returned(result), [post])
        else
          var polled := Polled(kind, jobId, st);
          Call(polled.outcome, [post] + polled.effects)
  }

  /** The submission step and the poll loop as the client runs them. */
  method RunJob(kind: JobKind, payload: Dict, submit: Reply, st: StatusOracle) returns (c: Call)
    ensures c == JobFlow(kind, payload, submit, st)
  {
    var post := Post(EndpointOf(kind), payload);
    if submit.Fault? {
      return Call(Raised(RequestFailed(submit.message)), [post]);
    }
    var result := submit.json;
    if !result.JObj? {
      return Call(Raised(Unexpected(NoGetMessage(result))), [post]);
    }
    if !Truthy(Get(result.fields, "success")) {
      return Call(Returned(result), [post]);
    }
    var jobId := Get(result.fields, "id");
    if !Truthy(jobId) {
      match kind
      case CrawlJob =>
        return Call(Returned(JObj(FailureResult(NoJobIdMessage))), [post]);
      case ExtractJob =>
        // the service answered synchronously
        return Call(Returned(result), [post]);
    }
    var polled := PollJob(kind, jobId, st);
    return Call(polled.outcome, [post] + polled.effects);
  }

  /** `crawl`. */
  method Crawl(url: string, limit: nat, formats: seq<string>, submit: Reply, st: StatusOracle) returns (c: Call)
    ensures c == JobFlow(CrawlJob, CrawlPayload(url, limit, formats), submit, st)
  {
    c := RunJob(CrawlJob, CrawlPayload(url, limit, formats), submit, st);
  }

  /** `extract` as a whole: a schema that does not parse is rejected before
      any request, otherwise submit-then-poll with the built payload. */
  function ExtractFlow(url: string, prompt: string, schema: string, parse: string -> Option<Json>,
                       submit: Reply, st: StatusOracle): Call
  {
    match ExtractPayload(url, prompt, schema, parse)
    case Err(message) => Call(Returned(JObj(FailureResult(message))), [])
    case Ok(payload) => JobFlow(ExtractJob, payload, submit, st)
  }

  /** The `extract` body built as the client does, adding keys in place. */
  method BuildExtractPayload(url: string, prompt: string, schema: string, parse: string -> Option<Json>)
    returns (r: Result<Dict, string>)
    ensures r == ExtractPayload(url, prompt, schema, parse)
  {
    var payload: Dict := map["urls" := JArr([JStr(url)])];
    if prompt != "" {
      payload := payload["prompt" := JStr(prompt)];
    }
    if schema != "" {
      var decoded := parse(schema);
      if decoded.None? {
        return Err("Invalid JSON schema: " + schema);
      }
      payload := payload["schema" := decoded.value];
    }
    return Ok(payload);
  }

  /** `extract`. */
  method Extract(url: string, prompt: string, schema: string, parse: string -> Option<Json>,
                 submit: Reply, st: StatusOracle) returns (c: Call)
    ensures c == ExtractFlow(url, prompt, schema, parse, submit, st)
  {
    var payload := BuildExtractPayload(url, prompt, schema, parse);
    if payload.Err? {
      return Call(Returned(JObj(FailureResult(payload.error))), []);
    }
    c := RunJob(ExtractJob, payload.value, submit, st);
  }

  // ---------------------------------------------------------------------
  // Properties of submit-then-poll
  // ---------------------------------------------------------------------

  /** A job-based operation makes exactly one submission request and at
      most 60 status requests; it polls if and only if the submission reply
      carries a truthy `success` and a truthy `id`, and then its result is
      the poll loop's. */
  lemma JobFlowRequests(kind: JobKind, payload: Dict, submit: Reply, st: StatusOracle)
    ensures var c := JobFlow(kind, payload, submit, st);
      && Posts(c.effects) == 1
      && c.effects[0] == Post(EndpointOf(kind), payload)
      && StatusGets(c.effects) <= MaxAttempts
      && (StatusGets(c.effects) > 0 <==> StartsJob(submit))
      && (StartsJob(submit) ==>
            var polled := Polled(kind, Get(submit.json.fields, "id"), st);
            c == Call(polled.outcome, [c.effects[0]] + polled.effects))
  {
    var post := Post(EndpointOf(kind), payload);
    if StartsJob(submit) {
      var polled := Polled(kind, Get(submit.json.fields, "id"), st);
      PollBounded(kind, Get(submit.json.fields, "id"), st);
      CountsOfConcat([post], polled.effects);
    }
  }

  /** The three ways the submission step ends without polling. */
  lemma SubmissionWithoutPolling(kind: JobKind, payload: Dict, d: Dict, st: StatusOracle)
    ensures var post := Post(EndpointOf(kind), payload);
      && (!Truthy(Get(d, "success")) ==>
            JobFlow(kind, payload, Body(JObj(d)), st) == Call(Returned(JObj(d)), [post]))
      && (Truthy(Get(d, "success")) && !Truthy(Get(d, "id")) ==>
            JobFlow(CrawlJob, payload, Body(JObj(d)), st)
              == Call(Returned(JObj(map["success" := JBool(false), "error" := JStr("No job ID returned from crawl request")])),
                      [Post(CrawlEndpoint, payload)])
            && JobFlow(ExtractJob, payload, Body(JObj(d)), st) == Call(Returned(JObj(d)), [Post(ExtractEndpoint, payload)]))
  {
  }

  /** A malformed schema rejects `extract` before any request is made;
      otherwise `extract` submits the payload it built. */
  lemma ExtractSchemaGate(url: string, prompt: string, schema: string, parse: string -> Option<Json>,
                          submit: Reply, st: StatusOracle)
    ensures var c := ExtractFlow(url, prompt, schema, parse, submit, st);
      && (schema != "" && parse(schema).None? ==>
            c == Call(Returned(JObj(map["success" := JBool(false),
                                        "error" := JStr("Invalid JSON schema: " + schema)])), []))
      && (schema == "" || parse(schema).Some? ==>
            Posts(c.effects) == 1
            && c.effects[0] == Post(ExtractEndpoint, ExtractPayload(url, prompt, schema, parse).value))
  {
    if schema == "" || parse(schema).Some? {
      JobFlowRequests(ExtractJob, ExtractPayload(url, prompt, schema, parse).value, submit, st);
    }
  }
}
