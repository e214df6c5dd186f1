# Firecrawl command-line client, modelled in Dafny

This project models `examples/tools/firecrawl/firecrawl.py`, the command-line
client of the Firecrawl web-scraping service. The client takes an action and a
target on the command line. On the normal path it sends one JSON request to
the service. For the two job-based actions (`crawl` and `extract`) it then
polls the job's status up to 60 times. It prints one JSON envelope
`{success, action, url, data, error?}` and exits with status 0.

There are four other outputs:

- A usage error prints `{success, error}`, sends no request and exits
  with 1.
- A missing API key prints `{success, error}`, sends no request and exits
  with 1.
- An unknown action, or an `extract` whose schema does not parse, prints
  the envelope of a local failure dict. It sends no request and exits with 0.
- A transport exception, or any other exception (including a reply that is
  not a dict), prints `{success, action, url, error}` with no `data`. It
  exits with 1.

The model covers:

- **Arguments** (`cli.dfy`, module `CommandLine`). This is the usage check
  and the defaults of the five optional positional arguments. The format
  list is `str.split(",")` followed by `str.strip()` with Python's full
  whitespace set. The page limit requires `str.isdigit()` and is read with
  `int()`. The flag test is `str.lower() == "true"`.
- **JSON values** (`json.dfy`, module `Json`). This covers Python
  truthiness, `dict.get` with and without a default, and the
  `AttributeError` text raised when `.get` is called on a value that is not
  a dict.
- **Transport** (`transport.dfy`, module `Transport`). The service is an
  oracle. The submission request gets one `Reply`, which is a decoded JSON
  body or a `RequestException` message. Status attempt `i` gets reply
  `st(i)`. Every operation returns its outcome (a value or a raised
  exception) together with a trace of its side effects: submission
  requests, status requests and sleeps.
- **Poll loop** (`poll.dfy`, module `Poll`). The loop shared by `crawl` and
  `extract` is the method `PollJob`. It is proved equal to the recursive
  reference definition `Polled`, and the loop's properties are proved
  about `Polled`.
- **Operations** (`operations.dfy`, module `Operations`). These are the
  request payloads of the five operations and the synchronous calls. They
  also cover submit-then-poll for `crawl` and `extract`, including the
  schema check of `extract`, which happens before any request.
- **Entry point** (`driver.dfy`, module `Driver`). This is `main`: the
  usage and API-key exits, the dispatch by action name and the envelope
  normalisation. It also covers the two exception handlers that print a
  report and exit with status 1.

Each method that changes a variable step by step is proved equal to a
reference function, for example `PollJob` to `Polled`, `Run` to `RunSpec`,
`Normalize` to `Envelope` and `MapUrls` to `MapPayload`. The lemmas then state
what the client promises about those functions.

### Behaviour of the code worth noting

The model follows the code:

- An `error` key forces `success` to False (lines 224-226). The converse
  does not hold. A reply `{"success": false}` prints a failed envelope with
  no `error` (`Driver.ScrapeFailureWithoutError`). A non-boolean `success`
  is copied unchanged (`Driver.EnvelopeSuccessIsNotErrorFree`).
- The exit status is 0 whenever a result dict reaches the envelope, even
  when that envelope reports failure. This includes unknown actions, an
  invalid schema, a failed job and a timed-out job. Only the usage error,
  the missing key and the two exception handlers exit with 1
  (`Driver.RunErrorMeansFailure`, `Driver.UnknownActionRun`,
  `Driver.CrawlTimesOutRun`).
- `data` is filled in on failure too. It is the whole failure dict when
  that dict has no `data` key, and the dict's own `data` otherwise.
- A submission reply is polled only when it carries a truthy `success`
  *and* a truthy `id`. A reply such as `{"id": "job1"}` with no `success`
  key is returned as it is, and not polled
  (`Driver.JobIdWithoutSuccessIsNotPolled`).

## Model

| member | source | states |
|---|---|---|
| Json.FalsyValues | examples/tools/firecrawl/firecrawl.py:59-63 | A JSON value is falsy exactly when it is null, False, 0, 0.0, an empty string, an empty list or an empty dict; these are the values the `not result.get(...)` tests reject |
| Json.MissingKeyIsFalsy | examples/tools/firecrawl/firecrawl.py:59-63 | A missing `success` or `id` key reads as a falsy None |
| CommandLine.Split | examples/tools/firecrawl/firecrawl.py:193 | `split(",")` always yields at least one piece |
| CommandLine.SplitThenJoin | examples/tools/firecrawl/firecrawl.py:193 | Re-joining the pieces of `split(sep)` with `sep` gives back the original string |
| CommandLine.SplitPiecesHaveNoSeparator | examples/tools/firecrawl/firecrawl.py:193 | No piece of `split(sep)` contains `sep` |
| CommandLine.SplitWithoutSeparator | examples/tools/firecrawl/firecrawl.py:186-193 | A string without the separator splits into exactly itself |
| CommandLine.LStripSlice | examples/tools/firecrawl/firecrawl.py:193 | Left strip removes a prefix made only of whitespace and stops at the first non-whitespace character |
| CommandLine.RStripSlice | examples/tools/firecrawl/firecrawl.py:193 | Right strip removes a suffix made only of whitespace and stops at the last non-whitespace character |
| CommandLine.StripSlice | examples/tools/firecrawl/firecrawl.py:193 | `strip()` is a slice of its input; everything cut off is whitespace; a non-empty result neither starts nor ends with whitespace |
| CommandLine.Formats | examples/tools/firecrawl/firecrawl.py:193 | The format list has one entry per comma-separated piece, and each entry is that piece stripped |
| CommandLine.DefaultFormatList | examples/tools/firecrawl/firecrawl.py:186-193 | Splitting and stripping the default format argument `"markdown"` gives the list `["markdown"]`, which is the list that parsing uses when the argument is absent |
| CommandLine.DecimalRoundTrip | examples/tools/firecrawl/firecrawl.py:187 | The decimal rendering of any natural number passes `isdigit()` and reads back with `int()` as that number |
| CommandLine.LeadingZero | examples/tools/firecrawl/firecrawl.py:187 | A leading zero does not change the value `int()` reads |
| CommandLine.FlagValueCases | examples/tools/firecrawl/firecrawl.py:188 | The content flag is set by exactly the four-letter spellings of "true" in any mixture of cases |
| CommandLine.ParseInvocation | examples/tools/firecrawl/firecrawl.py:177-190 | Parsing fails exactly when fewer than two arguments follow the script name, and then gives the usage message. Otherwise: action and target are the first two arguments. The formats are the split-and-stripped third argument, or `["markdown"]` when it is absent. The limit is `int()` of the fourth argument when that is all digits, and 10 otherwise. The content flag is `lower() == "true"` of the fifth argument, and True when it is absent. The prompt and schema are the sixth and seventh arguments, and `""` when absent |
| CommandLine.OmittedArgumentsDefault | examples/tools/firecrawl/firecrawl.py:186-190 | With only action and target, the defaults are formats `["markdown"]`, limit 10, main-content-only True, and an empty prompt and schema |
| CommandLine.LimitArgument | examples/tools/firecrawl/firecrawl.py:187 | A limit written in decimal is read as that number; any argument that is not all digits gives 10 |
| CommandLine.FormatsArgument | examples/tools/firecrawl/firecrawl.py:186-193 | A given format argument yields one comma-free, stripped entry per piece, and its pieces re-join to the argument |
| Poll.Replies | examples/tools/firecrawl/firecrawl.py:68-74 | The loop's budget is 60 attempts, and attempt `j` receives the oracle's reply `st(j)` |
| Poll.WaitsCounts | examples/tools/firecrawl/firecrawl.py:68-81 | `n` waiting rounds make `n` status requests, no submission, and sleep `n` times the job's interval |
| Poll.PollOverStep | examples/tools/firecrawl/firecrawl.py:68-81 | One attempt either waits and continues with the next attempt, or stops on its reply after its status request |
| Poll.Inspect | examples/tools/firecrawl/firecrawl.py:74-79 | A status reply stops the loop exactly when it is terminal, and the stopping outcome is the one the loop's definition gives |
| Poll.PollJob | examples/tools/firecrawl/firecrawl.py:66-83 | The client's loop (lines 156-173 for extract) returns the same outcome and performs the same requests and sleeps as `Polled` |
| Poll.PollStopsAtFirstTerminal | examples/tools/firecrawl/firecrawl.py:68-83 | The loop stops at the first terminal reply after exactly that many waiting rounds and one last request, or times out after every attempt has waited |
| Poll.PollBounded | examples/tools/firecrawl/firecrawl.py:67-81 | Polling makes between 1 and 60 status requests, no submission, and sleeps at most 60 times the interval (5 s for crawl, 2 s for extract) |
| Poll.PollReturnsFirstCompleted | examples/tools/firecrawl/firecrawl.py:76-77 | The first status that is exactly "completed", after only non-terminal ones, is returned unchanged after `k + 1` requests |
| Poll.PollStopsOnFirstFailed | examples/tools/firecrawl/firecrawl.py:78-79 | The first status that is exactly "failed" stops polling with success False and the remote error, or "Crawl failed"/"Extract failed" when the key is missing |
| Poll.PollTimesOut | examples/tools/firecrawl/firecrawl.py:81-83 | Sixty non-terminal statuses give exactly `{"success": False, "error": "<Job> timed out"}` after 60 requests, each followed by a sleep |
| Poll.CompletedComesFromFirstCompleted | examples/tools/firecrawl/firecrawl.py:68-77 | A returned completed status is the reply of some attempt whose earlier replies were all non-terminal |
| Operations.MapPayload | examples/tools/firecrawl/firecrawl.py:88-90 | The map body always has `url`, and has `search` exactly when the query is non-empty; it has no other key |
| Operations.ExtractPayload | examples/tools/firecrawl/firecrawl.py:123-134 | Building fails exactly when a non-empty schema does not parse, with "Invalid JSON schema: <schema>"; otherwise `urls` is `[url]`, `prompt` is present iff non-empty, and `schema` is present iff non-empty and holds the parsed value |
| Operations.PayloadKeys | examples/tools/firecrawl/firecrawl.py:29-115 | The scrape, crawl and search bodies carry exactly their documented keys, and crawl's `scrapeOptions` holds only `formats` |
| Operations.Scrape | examples/tools/firecrawl/firecrawl.py:21-36 | Scrape makes one submission with its body, no status request, and returns the decoded reply or raises the transport error |
| Operations.Search | examples/tools/firecrawl/firecrawl.py:104-118 | Search makes one submission with its body, no status request, and returns the decoded reply or raises the transport error |
| Operations.MapUrls | examples/tools/firecrawl/firecrawl.py:86-101 | Map builds its body in place, makes exactly one submission with the body `MapPayload` describes, and returns the reply |
| Operations.RunJob | examples/tools/firecrawl/firecrawl.py:58-83 | Submit-then-poll (also lines 147-173) behaves as `JobFlow`: a transport fault or non-dict reply raises, a falsy `success` returns the reply, a falsy `id` fails for crawl and returns the reply for extract, otherwise the loop runs |
| Operations.Crawl | examples/tools/firecrawl/firecrawl.py:39-83 | Crawl is submit-then-poll on the crawl body |
| Operations.BuildExtractPayload | examples/tools/firecrawl/firecrawl.py:123-134 | The in-place construction of the extract body gives `ExtractPayload` |
| Operations.Extract | examples/tools/firecrawl/firecrawl.py:121-173 | Extract rejects a bad schema with no request; otherwise it is submit-then-poll on the built body |
| Operations.JobFlowRequests | examples/tools/firecrawl/firecrawl.py:42-83 | A job operation makes exactly one submission and at most 60 status requests; it polls iff the reply has truthy `success` and `id`, and then its result is the loop's |
| Operations.SubmissionWithoutPolling | examples/tools/firecrawl/firecrawl.py:58-64 | With no truthy `success` the reply itself is returned; with no truthy `id`, crawl fails with "No job ID returned from crawl request" and extract (line 152-154) returns the reply |
| Operations.ExtractSchemaGate | examples/tools/firecrawl/firecrawl.py:130-145 | A schema that does not parse gives the validation failure with no request; otherwise exactly one submission with the built body |
| Driver.Dispatched | examples/tools/firecrawl/firecrawl.py:201-214 | `map` submits `MapPayload(target, prompt)`, so the prompt serves as search query; an unknown action makes no request and returns "Unknown action: <name>" |
| Driver.Dispatch | examples/tools/firecrawl/firecrawl.py:201-214 | The if/elif chain behaves as `Dispatched` |
| Driver.DispatchRequests | examples/tools/firecrawl/firecrawl.py:201-214 | Any action makes at most one submission and at most 60 status requests; status requests only for crawl and extract; no request at all for an unknown action |
| Driver.Envelope | examples/tools/firecrawl/firecrawl.py:217-226 | The envelope has `success`, `action`, `url`, `data`, plus `error` iff the result has one; `data` is the result's `data` or the whole result; an error forces success False; otherwise success is copied, True when missing |
| Driver.Normalize | examples/tools/firecrawl/firecrawl.py:217-226 | The in-place construction of the output dict gives `Envelope` |
| Driver.EnvelopeSuccessIsNotErrorFree | examples/tools/firecrawl/firecrawl.py:218-226 | `{"success": false}` gives a failed envelope without `error`, and a non-boolean `success` is copied unchanged |
| Driver.Run | examples/tools/firecrawl/firecrawl.py:176-245 | `main` behaves as `RunSpec`: usage or missing key prints a failure with status 1; otherwise the dispatched outcome is reported |
| Driver.RunRequests | examples/tools/firecrawl/firecrawl.py:176-214 | A run makes at most one submission and at most 60 status requests; none on a usage error, a missing key or an unknown action; status requests only for crawl and extract |
| Driver.RunEchoesInvocation | examples/tools/firecrawl/firecrawl.py:217-243 | Once arguments and key are present, the printed document carries the command-line action and target whatever the service replied |
| Driver.RunErrorMeansFailure | examples/tools/firecrawl/firecrawl.py:176-245 | On every path an `error` in the printed document comes with success False, and a non-zero exit status always comes with an `error` |
| Driver.ReportedShape | examples/tools/firecrawl/firecrawl.py:217-245 | Every report (envelope, request-failure or unexpected-error report) echoes action and target, ties error to success False and non-zero status to an error |
| Driver.UnknownActionRun | examples/tools/firecrawl/firecrawl.py:213-228 | An unknown action makes no request and prints a failed envelope whose `data` is the failure dict, with exit status 0 |
| Driver.InvalidSchemaRun | examples/tools/firecrawl/firecrawl.py:130-134 | An extract with an unparsable schema makes no request and prints the validation failure as a failed envelope |
| Driver.ScrapeFailureWithoutError | examples/tools/firecrawl/firecrawl.py:218-226 | A scrape reply `{"success": false}` prints success False with no `error`, exit status 0 |
| Driver.DefaultInvocation | examples/tools/firecrawl/firecrawl.py:184-193 | `firecrawl.py <action> <target>` parses with every optional argument at its default |
| Driver.DefaultCrawlReported | examples/tools/firecrawl/firecrawl.py:204-228 | A default crawl run whose job starts prints the envelope of the loop's result with exit status 0. Its trace is the one submission with the default crawl body, followed by the loop's requests and sleeps |
| Driver.RunOfParsed | examples/tools/firecrawl/firecrawl.py:196-228 | Once the arguments parse and the key is set, a run prints the report of the dispatched operation's outcome |
| Driver.StartedCrawl | examples/tools/firecrawl/firecrawl.py:58-83 | A crawl whose submission reply has a truthy `success` and `id` runs the poll loop on that id, after exactly one submission of the crawl body |
| Driver.CrawlCompletesRun | examples/tools/firecrawl/firecrawl.py:66-77 | A crawl accepted with an id, pending twice, then completed with data `{pages: 3}`, prints a success envelope with that data after three status requests |
| Driver.DataResultEnvelope | examples/tools/firecrawl/firecrawl.py:217-226 | Any result with `data`, no `error`, and a `success` that is missing or True prints as a success envelope whose `data` is the result's `data` |
| Driver.AllPendingIsNonTerminal | examples/tools/firecrawl/firecrawl.py:76-81 | A `pending` status is non-terminal |
| Driver.CrawlTimeoutOutcome | examples/tools/firecrawl/firecrawl.py:81-83 | A crawl pending throughout ends in "Crawl timed out" after 60 status requests and 300 seconds of sleep |
| Driver.CrawlTimesOutRun | examples/tools/firecrawl/firecrawl.py:67-83 | A crawl pending through all 60 attempts prints the timeout failure envelope with exit status 0, after 60 status requests and 300 seconds of sleep |
| Driver.ErrorResultEnvelope | examples/tools/firecrawl/firecrawl.py:217-226 | Any result with an `error` and no `data` prints as a failed envelope carrying that error, with the whole result as `data`, whatever its own `success` |
| Driver.JobIdWithoutSuccessIsNotPolled | examples/tools/firecrawl/firecrawl.py:58-60 | A submission reply `{"id": "job1"}` with no `success` is not polled and prints a success envelope with the reply as `data` |
| Driver.PlainResultEnvelope | examples/tools/firecrawl/firecrawl.py:217-222 | A result without `success`, `data` and `error` prints as a success whose `data` is the whole result |

## Left out

- HTTP: the URLs under `API_BASE`, the request headers with the API key,
  and the per-request timeouts are not modelled. Only which endpoint is
  called and the JSON body sent are. The service's replies are parameters
  (`submit`, `st`).
- `response.json()` failing to decode a body is treated as a
  `RequestException`, as it is for `requests` 2.27 and later. Older versions
  raise a `ValueError`, which would be reported as "Unexpected error".
- `time.sleep` is an effect in the trace. No clock is modelled.
- `json.loads` of the schema argument is the parameter `parse`. `None`
  stands for `json.JSONDecodeError`. Python's rules for the JSON grammar
  are not modelled, and neither are other exceptions `json.loads` could
  raise, such as `RecursionError`.
- The text of `str(e)` for a transport exception is the abstract message
  carried by `Fault`.
- `print(json.dumps(...))` is the `printed` dict of `Process`, and
  `sys.exit` is its `exitCode`. Key order and indentation are not
  modelled, because dicts are maps.
- `get_api_key`: the environment variable is an `Option<string>`.
- JSON numbers are `int` or `real`. NaN, the infinities and the sign of
  `-0.0` are not represented.
- CommandLine.IsDigits: `str.isdigit()` and `int()` are modelled for ASCII
  digits only. Other Unicode decimal digits are not modelled. Python
  accepts those and reads them with `int()`. It also accepts characters
  such as superscript digits, which pass `isdigit()` and then make `int()`
  raise `ValueError` outside the `try` block.
- CommandLine.Lower: only ASCII letters are lower-cased. Other Unicode case
  mappings are not modelled.
- Exceptions other than `RequestException` and the `AttributeError` of
  calling `.get` on a non-dict are not modelled. Examples are
  `KeyboardInterrupt` and memory errors.

The other files of the repository are not part of this model: the JSON
formatter and the example scripts.
