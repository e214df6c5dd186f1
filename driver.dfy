/** The command-line entry point: the usage and API-key checks, the
    dispatch of the action name to an operation, the normalisation of the
    operation's result into the printed envelope
    `{success, action, url, data, error?}`, and the conversion of caught
    exceptions into a failure report with exit status 1. */
module Driver {
  import opened Wrappers
  import opened Json
  import opened Transport
  import opened Poll
  import opened Operations
  import opened CommandLine

  const MissingKeyMessage := "FIRECRAWL_API_KEY environment variable not set"

  /** What one run of the program does: the JSON document it prints, its
      exit status, and the requests and waits it performed. */
  datatype Process = Process(printed: Dict, exitCode: nat, effects: seq<Effect>)

  /** `get_api_key`: the variable must be set to a non-empty value. */
  predicate HasApiKey(env: Option<string>) {
    env.Some? && env.value != ""
  }

  predicate IsKnownAction(action: string) {
    action in {"scrape", "crawl", "map", "search", "extract"}
  }

  // ---------------------------------------------------------------------
  // Dispatch
  // ---------------------------------------------------------------------

  /** The action chosen by string comparison; `map` takes the prompt
      argument as its search query; any other name makes no request and
      fails with "Unknown action: <name>". */
  function Dispatched(inv: Invocation, parse: string -> Option<Json>, submit: Reply, st: StatusOracle): (c: Call)
    ensures inv.action == "map" ==>
      c == Call(Received(submit), [Post(MapEndpoint, MapPayload(inv.target, inv.prompt))])
    ensures !IsKnownAction(inv.action) ==>
      c == Call(Returned(JObj(map["success" := JBool(false), "error" := JStr("Unknown action: " + inv.action)])), [])
  {
    var a := inv.action;
    if a == "scrape" then Scrape(inv.target, inv.formats, inv.onlyMainContent, submit)
    else if a == "crawl" then JobFlow(CrawlJob, CrawlPayload(inv.target, inv.limit, inv.formats), submit, st)
    else if a == "map" then Call(Received(submit), [Post(MapEndpoint, MapPayload(inv.target, inv.prompt))])
    else if a == "search" then Search(inv.target, inv.limit, submit)
    else if a == "extract" then ExtractFlow(inv.target, inv.prompt, inv.schema, parse, submit, st)
    else Call(Returned(JObj(FailureResult("Unknown action: " + a))), [])
  }

  method Dispatch(inv: Invocation, parse: string -> Option<Json>, submit: Reply, st: StatusOracle) returns (c: Call)
    ensures c == Dispatched(inv, parse, submit, st)
  {
    if inv.action == "scrape" {
      c := Scrape(inv.target, inv.formats, inv.onlyMainContent, submit);
    } else if inv.action == "crawl" {
      c := Crawl(inv.target, inv.limit, inv.formats, submit, st);
    } else if inv.action == "map" {
      c := MapUrls(inv.target, inv.prompt, submit);
    } else if inv.action == "search" {
      c := Search(inv.target, inv.limit, submit);
    } else if inv.action == "extract" {
      c := Extract(inv.target, inv.prompt, inv.schema, parse, submit, st);
    } else {
      c := Call(Returned(JObj(FailureResult("Unknown action: " + inv.action))), []);
    }
  }

  /** Whatever the action, at most one submission request and at most 60
      status requests; status requests only for `crawl` and `extract`. */
  lemma DispatchRequests(inv: Invocation, parse: string -> Option<Json>, submit: Reply, st: StatusOracle)
    ensures var c := Dispatched(inv, parse, submit, st);
      && Posts(c.effects) <= 1
      && StatusGets(c.effects) <= MaxAttempts
      && (StatusGets(c.effects) > 0 ==> inv.action == "crawl" || inv.action == "extract")
      && (c.effects != [] ==> IsKnownAction(inv.action))
  {
    if inv.action == "crawl" {
      JobFlowRequests(CrawlJob, CrawlPayload(inv.target, inv.limit, inv.formats), submit, st);
    } else if inv.action == "extract" {
      var payload := ExtractPayload(inv.target, inv.prompt, inv.schema, parse);
      if payload.Ok? {
        JobFlowRequests(ExtractJob, payload.value, submit, st);
      }
    }
  }

  // ---------------------------------------------------------------------
  // Envelope
  // ---------------------------------------------------------------------

  /** The printed envelope for a result dict. `action` and `url` are the
      command-line inputs; `data` is the result's `data` if it has one and
      the whole result otherwise (also on failure); `success` is copied as
      it is, True when missing; an `error` key is copied and forces
      `success` to False. */
  function Envelope(action: string, target: string, result: Dict): (out: Dict)
    ensures out.Keys == {"success", "action", "url", "data"} + (if "error" in result then {"error"} else {})
    ensures out["action"] == JStr(action) && out["url"] == JStr(target)
    ensures out["data"] == if "data" in result then result["data"] else JObj(result)
    ensures "error" in result ==> out["error"] == result["error"] && out["success"] == JBool(false)
    ensures "error" !in result ==> out["success"] == if "success" in result then result["success"] else JBool(true)
  {
    var base := map[
      "success" := GetOr(result, "success", JBool(true)),
      "action" := JStr(action),
      "url" := JStr(target),
      "data" := GetOr(result, "data", JObj(result))];
    if "error" in result then base["error" := result["error"]]["success" := JBool(false)] else base
  }

  /** The envelope as the client builds it: the four fields first, then
      `error` and `success` overwritten when the result carries an error. */
  method Normalize(action: string, target: string, result: Dict) returns (output: Dict)
    ensures output == Envelope(action, target, result)
  {
    output := map[
      "success" := GetOr(result, "success", JBool(true)),
      "action" := JStr(action),
      "url" := JStr(target),
      "data" := GetOr(result, "data", JObj(result))];
    if "error" in result {
      output := output["error" := result["error"]];
      output := output["success" := JBool(false)];
    }
  }

  /** Error present implies success False, but not the other way round:
      a reply `{"success": false}` gives a failed envelope with no error,
      and a reply that is not a boolean is copied as `success` unchanged. */
  lemma EnvelopeSuccessIsNotErrorFree()
    ensures var e := Envelope("scrape", "u", map["success" := JBool(false)]);
      e["success"] == JBool(false) && "error" !in e
    ensures Envelope("scrape", "u", map["success" := JStr("yes")])["success"] == JStr("yes")
  {
  }

  // ---------------------------------------------------------------------
  // The whole run
  // ---------------------------------------------------------------------

  /** The report printed when an exception reaches the entry point. */
  function ExceptionReport(action: string, target: string, message: string): Dict {
    map["success" := JBool(false), "action" := JStr(action), "url" := JStr(target), "error" := JStr(message)]
  }

  /** The operation's outcome as the entry point reports it: an envelope
      and status 0 for a returned dict; a report and status 1 for a
      transport exception, or for any other exception, including the
      AttributeError of a reply that is not a dict. */
  function Reported(action: string, target: string, c: Call): Process {
    match c.outcome
    case Raised(RequestFailed(m)) => Process(ExceptionReport(action, target, "Request failed: " + m), 1, c.effects)
    case Raised(Unexpected(m)) => Process(ExceptionReport(action, target, "Unexpected error: " + m), 1, c.effects)
    case Returned(result) =>
      if result.JObj? then Process(Envelope(action, target, result.fields), 0, c.effects)
      else Process(ExceptionReport(action, target, "Unexpected error: " + NoGetMessage(result)), 1, c.effects)
  }

  /** One run of the program on `sys.argv`, the environment's API key, the
      schema parser and the transport oracle: the reference definition the
      method `Run` is proved against. */
  function RunSpec(argv: seq<string>, env: Option<string>, parse: string -> Option<Json>,
                   submit: Reply, st: StatusOracle): Process
  {
    match ParseInvocation(argv)
    case Err(usage) => Process(FailureResult(usage), 1, [])
    case Ok(inv) =>
      if !HasApiKey(env) then Process(FailureResult(MissingKeyMessage), 1, [])
      else Reported(inv.action, inv.target, Dispatched(inv, parse, submit, st))
  }

  /** `main`. */
  method Run(argv: seq<string>, env: Option<string>, parse: string -> Option<Json>,
             submit: Reply, st: StatusOracle) returns (p: Process)
    ensures p == RunSpec(argv, env, parse, submit, st)
  {
    var parsed := ParseInvocation(argv);
    if parsed.Err? {
      return Process(FailureResult(parsed.error), 1, []);
    }
    var inv := parsed.value;
    if !HasApiKey(env) {
      return Process(FailureResult(MissingKeyMessage), 1, []);
    }
    var c := Dispatch(inv, parse, submit, st);
    match c.outcome {
      case Raised(RequestFailed(m)) =>
        p := Process(ExceptionReport(inv.action, inv.target, "Request failed: " + m), 1, c.effects);
      case Raised(Unexpected(m)) =>
        p := Process(ExceptionReport(inv.action, inv.target, "Unexpected error: " + m), 1, c.effects);
      case Returned(result) =>
        if !result.JObj? {
          p := Process(ExceptionReport(inv.action, inv.target, "Unexpected error: " + NoGetMessage(result)), 1, c.effects);
        } else {
          var output := Normalize(inv.action, inv.target, result.fields);
          p := Process(output, 0, c.effects);
        }
    }
  }

  // ---------------------------------------------------------------------
  // Properties of a run
  // ---------------------------------------------------------------------

  /** A run makes at most one submission and at most 60 status requests,
      and none at all on a usage error, a missing API key or an unknown
      action. */
  lemma RunRequests(argv: seq<string>, env: Option<string>, parse: string -> Option<Json>,
                    submit: Reply, st: StatusOracle)
    ensures var p := RunSpec(argv, env, parse, submit, st);
      && Posts(p.effects) <= 1
      && StatusGets(p.effects) <= MaxAttempts
      && (p.effects != [] ==> |argv| >= 3 && HasApiKey(env) && IsKnownAction(argv[1]))
      && (StatusGets(p.effects) > 0 ==> argv[1] == "crawl" || argv[1] == "extract")
  {
    if |argv| >= 3 && HasApiKey(env) {
      var inv := ParseInvocation(argv).value;
      RunOfParsed(argv, env, parse, submit, st, inv);
      DispatchRequests(inv, parse, submit, st);
    }
  }

  /** Once the arguments and the key are there, the printed document
      always echoes the command-line action and target, whatever the
      remote service answered. */
  lemma RunEchoesInvocation(argv: seq<string>, env: Option<string>, parse: string -> Option<Json>,
                            submit: Reply, st: StatusOracle)
    requires |argv| >= 3 && HasApiKey(env)
    ensures var p := RunSpec(argv, env, parse, submit, st);
      && "action" in p.printed && p.printed["action"] == JStr(argv[1])
      && "url" in p.printed && p.printed["url"] == JStr(argv[2])
  {
    var inv := ParseInvocation(argv).value;
    ReportedShape(inv.action, inv.target, Dispatched(inv, parse, submit, st));
  }

  /** On every path an error in the printed document comes with success
      False, and a non-zero exit status always comes with an error. */
  lemma RunErrorMeansFailure(argv: seq<string>, env: Option<string>, parse: string -> Option<Json>,
                             submit: Reply, st: StatusOracle)
    ensures var p := RunSpec(argv, env, parse, submit, st);
      && ("error" in p.printed ==> "success" in p.printed && p.printed["success"] == JBool(false))
      && (p.exitCode != 0 ==> "error" in p.printed)
  {
    if |argv| >= 3 && HasApiKey(env) {
      var inv := ParseInvocation(argv).value;
      ReportedShape(inv.action, inv.target, Dispatched(inv, parse, submit, st));
    }
  }

  /** Whatever the operation ended with, its report echoes the action and
      the target, an error in it means success False, and a non-zero status
      means an error. */
  lemma ReportedShape(action: string, target: string, c: Call)
    ensures var p := Reported(action, target, c);
      && "action" in p.printed && p.printed["action"] == JStr(action)
      && "url" in p.printed && p.printed["url"] == JStr(target)
      && ("error" in p.printed ==> "success" in p.printed && p.printed["success"] == JBool(false))
      && (p.exitCode != 0 ==> "error" in p.printed)
  {
  }

  /** An unknown action makes no request and prints a failed envelope
      whose `data` is the failure dict itself; the exit status is 0. */
  lemma UnknownActionRun(argv: seq<string>, env: Option<string>, parse: string -> Option<Json>,
                         submit: Reply, st: StatusOracle)
    requires |argv| >= 3 && HasApiKey(env) && !IsKnownAction(argv[1])
    ensures var failure := map["success" := JBool(false), "error" := JStr("Unknown action: " + argv[1])];
      RunSpec(argv, env, parse, submit, st) == Process(
        map["success" := JBool(false), "action" := JStr(argv[1]), "url" := JStr(argv[2]),
            "data" := JObj(failure), "error" := JStr("Unknown action: " + argv[1])],
        0, [])
  {
  }

  /** An `extract` whose schema argument does not parse makes no request
      and prints the validation failure. */
  lemma InvalidSchemaRun(argv: seq<string>, env: Option<string>, parse: string -> Option<Json>,
                         submit: Reply, st: StatusOracle)
    requires |argv| >= 8 && argv[1] == "extract" && argv[7] != "" && parse(argv[7]).None? && HasApiKey(env)
    ensures var message := JStr("Invalid JSON schema: " + argv[7]);
      RunSpec(argv, env, parse, submit, st) == Process(
        map["success" := JBool(false), "action" := JStr("extract"), "url" := JStr(argv[2]),
            "data" := JObj(map["success" := JBool(false), "error" := message]), "error" := message],
        0, [])
  {
    var inv := ParseInvocation(argv).value;
    ExtractSchemaGate(inv.target, inv.prompt, inv.schema, parse, submit, st);
  }

  /** A scrape reply `{"success": false}` is printed as a failure without
      an `error` key. */
  lemma ScrapeFailureWithoutError(url: string, env: Option<string>, parse: string -> Option<Json>, st: StatusOracle)
    requires HasApiKey(env)
    ensures var p := RunSpec(["firecrawl.py", "scrape", url], env, parse, Body(JObj(map["success" := JBool(false)])), st);
      && p.printed["success"] == JBool(false) && "error" !in p.printed && p.exitCode == 0
  {
  }

  /** The status reply of a job still running. */
  const Pending: Reply := Body(JObj(map["status" := JStr("pending")]))

  /** The invocation `firecrawl.py <action> <target>` with every optional
      argument left to its default. */
  lemma DefaultInvocation(action: string, target: string)
    ensures ParseInvocation(["firecrawl.py", action, target])
      == Ok(Invocation(action, target, ["markdown"], 10, true, "", ""))
  {
    OmittedArgumentsDefault(["firecrawl.py", action, target]);
  }

  /** What a default `crawl` run prints and does, given what its poll loop
      returned: the report of the loop's outcome, after the one submission
      request. */
  lemma DefaultCrawlReported(url: string, env: Option<string>, parse: string -> Option<Json>, id: Json, st: StatusOracle,
                             result: Dict)
    requires HasApiKey(env) && Truthy(id)
    requires Polled(CrawlJob, id, st).outcome == Returned(JObj(result))
    ensures var submit := Body(JObj(map["success" := JBool(true), "id" := id]));
      RunSpec(["firecrawl.py", "crawl", url], env, parse, submit, st)
        == Process(Envelope("crawl", url, result), 0,
                   [Post(CrawlEndpoint, CrawlPayload(url, 10, ["markdown"]))] + Polled(CrawlJob, id, st).effects)
  {
    var argv := ["firecrawl.py", "crawl", url];
    var inv := Invocation("crawl", url, ["markdown"], 10, true, "", "");
    var submit := Body(JObj(map["success" := JBool(true), "id" := id]));
    var post := Post(CrawlEndpoint, CrawlPayload(url, 10, ["markdown"]));
    var polled := Polled(CrawlJob, id, st);
    DefaultInvocation("crawl", url);
    RunOfParsed(argv, env, parse, submit, st, inv);
    assert Get(submit.json.fields, "success") == JBool(true) && Get(submit.json.fields, "id") == id;
    StartedCrawl(inv, parse, submit, st);
  }

  /** Once the arguments parse and the key is set, a run reports what the
      dispatched operation ended with. */
  lemma RunOfParsed(argv: seq<string>, env: Option<string>, parse: string -> Option<Json>,
                    submit: Reply, st: StatusOracle, inv: Invocation)
    requires ParseInvocation(argv) == Ok(inv) && HasApiKey(env)
    ensures RunSpec(argv, env, parse, submit, st) == Reported(inv.action, inv.target, Dispatched(inv, parse, submit, st))
  {
  }

  /** A `crawl` whose submission starts a job runs the poll loop on the
      job's id after the one submission. */
  lemma StartedCrawl(inv: Invocation, parse: string -> Option<Json>, submit: Reply, st: StatusOracle)
    requires inv.action == "crawl" && StartsJob(submit)
    ensures var polled := Polled(CrawlJob, Get(submit.json.fields, "id"), st);
      Dispatched(inv, parse, submit, st)
        == Call(polled.outcome, [Post(CrawlEndpoint, CrawlPayload(inv.target, inv.limit, inv.formats))] + polled.effects)
  {
  }

  /** A crawl job accepted as `{success: true, id: "job1"}`, pending twice
      and then completed with data `{pages: 3}`, prints a successful
      envelope with that data after three status requests. */
  lemma CrawlCompletesRun(url: string, env: Option<string>, parse: string -> Option<Json>, st: StatusOracle)
    requires HasApiKey(env)
    requires st(0) == Pending && st(1) == Pending
    requires st(2) == Body(JObj(map["status" := JStr("completed"), "data" := JObj(map["pages" := JInt(3)])]))
    ensures var submit := Body(JObj(map["success" := JBool(true), "id" := JStr("job1")]));
      var p := RunSpec(["firecrawl.py", "crawl", url], env, parse, submit, st);
      && p.printed == map["success" := JBool(true), "action" := JStr("crawl"), "url" := JStr(url),
                          "data" := JObj(map["pages" := JInt(3)])]
      && p.exitCode == 0
      && StatusGets(p.effects) == 3
      && p.effects[0] == Post(CrawlEndpoint, CrawlPayload(url, 10, ["markdown"]))
  {
    var id := JStr("job1");
    var submit := Body(JObj(map["success" := JBool(true), "id" := id]));
    var p := RunSpec(["firecrawl.py", "crawl", url], env, parse, submit, st);
    var completed := map["status" := JStr("completed"), "data" := JObj(map["pages" := JInt(3)])];
    var post := Post(CrawlEndpoint, CrawlPayload(url, 10, ["markdown"]));
    var polled := Polled(CrawlJob, id, st);
    assert polled.outcome == Returned(JObj(completed)) && StatusGets(polled.effects) == 3 by {
      assert forall j :: 0 <= j < 2 ==> NonTerminal(st(j)) by {
        forall j | 0 <= j < 2 ensures NonTerminal(st(j)) {
          assert j == 0 || j == 1;
        }
      }
      PollReturnsFirstCompleted(CrawlJob, id, st, 2);
    }
    assert p == Process(Envelope("crawl", url, completed), 0, [post] + polled.effects) by {
      DefaultCrawlReported(url, env, parse, id, st, completed);
    }
    assert Envelope("crawl", url, completed)
        == map["success" := JBool(true), "action" := JStr("crawl"), "url" := JStr(url),
               "data" := JObj(map["pages" := JInt(3)])] by {
      assert "data" in completed && "error" !in completed && "success" !in completed;
      DataResultEnvelope("crawl", url, completed);
    }
    assert StatusGets([post] + polled.effects) == 3 by {
      CountsOfConcat([post], polled.effects);
    }
  }

  /** A result that carries `data`, no `error`, and a `success` that is
      missing or True prints as a success envelope with that data. */
  lemma DataResultEnvelope(action: string, target: string, result: Dict)
    requires "data" in result && "error" !in result
    requires "success" !in result || result["success"] == JBool(true)
    ensures Envelope(action, target, result)
      == map["success" := JBool(true), "action" := JStr(action), "url" := JStr(target), "data" := result["data"]]
  {
    var e := Envelope(action, target, result);
    assert e.Keys == {"success", "action", "url", "data"};
  }

  /** `{"status": "pending"}` is not a terminal status. */
  lemma AllPendingIsNonTerminal(st: StatusOracle)
    requires forall j :: 0 <= j < MaxAttempts ==> st(j) == Pending
    ensures forall j :: 0 <= j < MaxAttempts ==> NonTerminal(st(j))
  {
    forall j | 0 <= j < MaxAttempts ensures NonTerminal(st(j)) {
      assert st(j) == Pending;
    }
  }

  /** The crawl loop's timeout, with the crawl's own message and interval. */
  lemma CrawlTimeoutOutcome(id: Json, st: StatusOracle)
    requires forall j :: 0 <= j < MaxAttempts ==> NonTerminal(st(j))
    ensures Polled(CrawlJob, id, st).outcome == Returned(JObj(map["success" := JBool(false), "error" := JStr("Crawl timed out")]))
    ensures StatusGets(Polled(CrawlJob, id, st).effects) == 60
    ensures SleptSeconds(Polled(CrawlJob, id, st).effects) == 300
  {
    PollTimesOut(CrawlJob, id, st);
    assert Noun(CrawlJob) + " timed out" == "Crawl timed out";
  }

  /** A crawl job that stays pending through all 60 attempts prints the
      timeout failure after 60 polls and 60 waits of 5 seconds. */
  lemma CrawlTimesOutRun(url: string, env: Option<string>, parse: string -> Option<Json>, st: StatusOracle)
    requires HasApiKey(env)
    requires forall j :: 0 <= j < MaxAttempts ==> st(j) == Pending
    ensures var submit := Body(JObj(map["success" := JBool(true), "id" := JStr("job2")]));
      var p := RunSpec(["firecrawl.py", "crawl", url], env, parse, submit, st);
      var failure := map["success" := JBool(false), "error" := JStr("Crawl timed out")];
      && p.printed == map["success" := JBool(false), "action" := JStr("crawl"), "url" := JStr(url),
                          "data" := JObj(failure), "error" := JStr("Crawl timed out")]
      && p.exitCode == 0
      && StatusGets(p.effects) == 60
      && SleptSeconds(p.effects) == 300
  {
    var id := JStr("job2");
    var submit := Body(JObj(map["success" := JBool(true), "id" := id]));
    var p := RunSpec(["firecrawl.py", "crawl", url], env, parse, submit, st);
    var failure := map["success" := JBool(false), "error" := JStr("Crawl timed out")];
    var post := Post(CrawlEndpoint, CrawlPayload(url, 10, ["markdown"]));
    var polled := Polled(CrawlJob, id, st);
    assert polled.outcome == Returned(JObj(failure))
        && StatusGets(polled.effects) == 60 && SleptSeconds(polled.effects) == 300 by {
      AllPendingIsNonTerminal(st);
      CrawlTimeoutOutcome(id, st);
    }
    assert p == Process(Envelope("crawl", url, failure), 0, [post] + polled.effects) by {
      DefaultCrawlReported(url, env, parse, id, st, failure);
    }
    assert Envelope("crawl", url, failure)
        == map["success" := JBool(false), "action" := JStr("crawl"), "url" := JStr(url),
               "data" := JObj(failure), "error" := JStr("Crawl timed out")] by {
      ErrorResultEnvelope("crawl", url, failure);
    }
    assert StatusGets([post] + polled.effects) == 60 && SleptSeconds([post] + polled.effects) == 300 by {
      CountsOfConcat([post], polled.effects);
    }
  }

  /** A result that carries an `error` and no `data` prints as a failed
      envelope with that error and the whole result as `data`, whatever its
      own `success`. */
  lemma ErrorResultEnvelope(action: string, target: string, result: Dict)
    requires "error" in result && "data" !in result
    ensures Envelope(action, target, result)
      == map["success" := JBool(false), "action" := JStr(action), "url" := JStr(target),
             "data" := JObj(result), "error" := result["error"]]
  {
    var e := Envelope(action, target, result);
    assert e.Keys == {"success", "action", "url", "data", "error"};
  }

  /** A submission reply that carries a job id but no `success` key is
      returned at once: no status request, and the envelope reports
      success with the reply itself as data. */
  lemma JobIdWithoutSuccessIsNotPolled(url: string, env: Option<string>, parse: string -> Option<Json>, st: StatusOracle)
    requires HasApiKey(env)
    ensures var submit := Body(JObj(map["id" := JStr("job1")]));
      var p := RunSpec(["firecrawl.py", "crawl", url], env, parse, submit, st);
      && p.printed == map["success" := JBool(true), "action" := JStr("crawl"), "url" := JStr(url),
                          "data" := JObj(map["id" := JStr("job1")])]
      && StatusGets(p.effects) == 0
  {
    var d := map["id" := JStr("job1")];
    DefaultInvocation("crawl", url);
    SubmissionWithoutPolling(CrawlJob, CrawlPayload(url, 10, ["markdown"]), d, st);
    PlainResultEnvelope("crawl", url, d);
  }

  /** A result with no `success`, `data` or `error` key is printed as a
      success whose `data` is the whole result. */
  lemma PlainResultEnvelope(action: string, target: string, result: Dict)
    requires "success" !in result && "data" !in result && "error" !in result
    ensures Envelope(action, target, result)
      == map["success" := JBool(true), "action" := JStr(action), "url" := JStr(target), "data" := JObj(result)]
  {
    var e := Envelope(action, target, result);
    assert e.Keys == {"success", "action", "url", "data"};
  }
}
