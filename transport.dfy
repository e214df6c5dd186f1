/** The boundary to the remote service. Every HTTP call of the client
    returns only `response.json()`, so the transport is an oracle: one reply
    to the submission request, and one reply per status poll, indexed by the
    attempt number. The side effects the client performs (requests issued,
    waits) are returned as a trace so that they can be counted. */
module Transport {
  import opened Json

  /** The five POST endpoints of the service. */
  datatype Endpoint = ScrapeEndpoint | CrawlEndpoint | MapEndpoint | SearchEndpoint | ExtractEndpoint

  /** The two operations that run as remote jobs and are polled. */
  datatype JobKind = CrawlJob | ExtractJob

  /** What one HTTP call hands back: the decoded JSON body, or a
      `requests.exceptions.RequestException` with its message. */
  datatype Reply = Body(json: Json) | Fault(message: string)

  /** One observable side effect of the client. */
  datatype Effect =
    | Post(endpoint: Endpoint, payload: Dict)   // submission request with its JSON body
    | StatusGet(job: JobKind, id: Json)         // one status poll of the job `id`
    | Sleep(seconds: nat)                       // `time.sleep(seconds)`

  /** The two kinds of exception the entry point catches. */
  datatype Exception = RequestFailed(message: string) | Unexpected(message: string)

  /** What an operation function ends with: a returned value or a raised
      exception. */
  datatype Outcome = Returned(value: Json) | Raised(exc: Exception)

  /** An outcome together with the side effects performed to reach it. */
  datatype Call = Call(outcome: Outcome, effects: seq<Effect>)

  /** The status reply received at each poll attempt. */
  type StatusOracle = nat -> Reply

  /** `response.json()`: the body, or the transport exception raised. */
  function Received(r: Reply): Outcome {
    match r
    case Body(j) => Returned(j)
    case Fault(m) => Raised(RequestFailed(m))
  }

  /** The `{"success": False, "error": message}` dict the client builds for
      its own failures. */
  function FailureResult(message: string): Dict {
    map["success" := JBool(false), "error" := JStr(message)]
  }

  function EndpointOf(kind: JobKind): Endpoint {
    match kind
    case CrawlJob => CrawlEndpoint
    case ExtractJob => ExtractEndpoint
  }

  /** Number of submission requests in a trace. */
  function Posts(effects: seq<Effect>): nat
    decreases |effects|
  {
    if effects == [] then 0
    else (if effects[0].Post? then 1 else 0) + Posts(effects[1..])
  }

  /** Number of status polls in a trace. */
  function StatusGets(effects: seq<Effect>): nat
    decreases |effects|
  {
    if effects == [] then 0
    else (if effects[0].StatusGet? then 1 else 0) + StatusGets(effects[1..])
  }

  /** Total time waited in a trace, in seconds. */
  function SleptSeconds(effects: seq<Effect>): nat
    decreases |effects|
  {
    if effects == [] then 0
    else (if effects[0].Sleep? then effects[0].seconds else 0) + SleptSeconds(effects[1..])
  }

  /** The three counts add up over a concatenation of traces. */
  lemma {:induction false} CountsOfConcat(a: seq<Effect>, b: seq<Effect>)
    ensures Posts(a + b) == Posts(a) + Posts(b)
    ensures StatusGets(a + b) == StatusGets(a) + StatusGets(b)
    ensures SleptSeconds(a + b) == SleptSeconds(a) + SleptSeconds(b)
    decreases |a|
  {
    if a == [] {
      assert a + b == b;
    } else {
      CountsOfConcat(a[1..], b);
      assert (a + b)[1..] == a[1..] + b;
    }
  }
}
