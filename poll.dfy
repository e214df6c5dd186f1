/** The status-poll loop shared by `crawl` and `extract`: at most 60 status
    requests, each followed by a wait unless its status is terminal;
    exactly `"completed"` returns the status dict, exactly `"failed"`
    returns a failure carrying the remote error, and a budget that runs out
    returns a fixed timeout failure. */
module Poll {
  import opened Json
  import opened Transport

  const MaxAttempts: nat := 60

  /** The word that starts the job's own failure messages. */
  function Noun(kind: JobKind): string {
    match kind
    case CrawlJob => "Crawl"
    case ExtractJob => "Extract"
  }

  /** Seconds slept after a non-terminal status. */
  function Interval(kind: JobKind): nat {
    match kind
    case CrawlJob => 5
    case ExtractJob => 2
  }

  /** `status.get("status") == s` on a reply whose body is a dict. */
  predicate HasStatus(r: Reply, s: string) {
    r.Body? && r.json.JObj? && Get(r.json.fields, "status") == JStr(s)
  }

  /** A reply after which the loop goes on: a dict whose status is neither
      `"completed"` nor `"failed"` (a missing status included). */
  predicate NonTerminal(r: Reply) {
    r.Body? && r.json.JObj? && !HasStatus(r, "completed") && !HasStatus(r, "failed")
  }

  /** The result of a `"failed"` status: the remote error when the key is
      there, whatever its value, and the job's default message otherwise. */
  function FailedResult(kind: JobKind, status: Dict): Dict {
    map["success" := JBool(false), "error" := GetOr(status, "error", JStr(Noun(kind) + " failed"))]
  }

  function TimedOutResult(kind: JobKind): Dict {
    FailureResult(Noun(kind) + " timed out")
  }

  /** How the loop ends on a reply that stops it: a transport fault or a
      non-dict body raises, a completed status is returned unchanged, a
      failed status becomes `FailedResult`. */
  function StopOutcome(kind: JobKind, r: Reply): Outcome
    requires !NonTerminal(r)
  {
    match r
    case Fault(m) => Raised(RequestFailed(m))
    case Body(j) =>
      if !j.JObj? then Raised(Unexpected(NoGetMessage(j)))
      else if HasStatus(r, "completed") then Returned(j)
      else Returned(JObj(FailedResult(kind, j.fields)))
  }

  /** The loop over the replies still to come, one per remaining attempt:
      the reference definition `PollJob` is proved against. The budget is
      the number of replies. */
  function PollOver(kind: JobKind, id: Json, replies: seq<Reply>): Call
    decreases |replies|
  {
    if replies == [] then Call(Returned(JObj(TimedOutResult(kind))), [])
    else if NonTerminal(replies[0]) then
      var rest := PollOver(kind, id, replies[1..]);
      Call(rest.outcome, [StatusGet(kind, id), Sleep(Interval(kind))] + rest.effects)
    else Call(StopOutcome(kind, replies[0]), [StatusGet(kind, id)])
  }

  /** The replies the oracle gives to the 60 attempts. */
  function Replies(st: StatusOracle): (rs: seq<Reply>)
    ensures |rs| == MaxAttempts
    ensures forall j :: 0 <= j < MaxAttempts ==> rs[j] == st(j)
  {
    seq(MaxAttempts, (j: int) requires 0 <= j => st(j))
  }

  /** The whole loop of the client with its budget of 60 attempts. */
  function Polled(kind: JobKind, id: Json, st: StatusOracle): Call {
    PollOver(kind, id, Replies(st))
  }

  /** `n` rounds of a non-terminal poll followed by its wait. */
  function Waits(kind: JobKind, id: Json, n: nat): seq<Effect>
    decreases n
  {
    if n == 0 then [] else [StatusGet(kind, id), Sleep(Interval(kind))] + Waits(kind, id, n - 1)
  }

  lemma {:induction false} WaitsCounts(kind: JobKind, id: Json, n: nat)
    ensures Posts(Waits(kind, id, n)) == 0
    ensures StatusGets(Waits(kind, id, n)) == n
    ensures SleptSeconds(Waits(kind, id, n)) == n * Interval(kind)
    decreases n
  {
    if n > 0 {
      WaitsCounts(kind, id, n - 1);
      var round := [StatusGet(kind, id), Sleep(Interval(kind))];
      CountsOfConcat(round, Waits(kind, id, n - 1));
      assert round[1..][1..] == [];
    }
  }

  /** One attempt of the loop: the remaining run from attempt `i`, after
      the rounds `effects` already waited, either waits once more and goes
      on with attempt `i + 1`, or stops on reply `i` after its request. */
  lemma PollOverStep(kind: JobKind, id: Json, rs: seq<Reply>, i: nat, effects: seq<Effect>, whole: Call)
    requires i < |rs|
    requires whole == Call(PollOver(kind, id, rs[i..]).outcome, effects + PollOver(kind, id, rs[i..]).effects)
    ensures NonTerminal(rs[i]) ==>
      whole == Call(PollOver(kind, id, rs[i + 1..]).outcome,
                    (effects + [StatusGet(kind, id), Sleep(Interval(kind))]) + PollOver(kind, id, rs[i + 1..]).effects)
    ensures !NonTerminal(rs[i]) ==> whole == Call(StopOutcome(kind, rs[i]), effects + [StatusGet(kind, id)])
  {
    assert rs[i..][0] == rs[i];
    assert rs[i..][1..] == rs[i + 1..];
    var round := [StatusGet(kind, id), Sleep(Interval(kind))];
    var rest := PollOver(kind, id, rs[i + 1..]).effects;
    assert effects + (round + rest) == (effects + round) + rest;
  }

  /** The checks made on one status reply: whether it stops the loop, and
      if so with which outcome. */
  method Inspect(kind: JobKind, reply: Reply) returns (stop: bool, outcome: Outcome)
    ensures stop == !NonTerminal(reply)
    ensures stop ==> outcome == StopOutcome(kind, reply)
  {
    stop, outcome := true, Returned(JNull);
    if reply.Fault? {
      outcome := Raised(RequestFailed(reply.message));
      return;
    }
    var status := reply.json;
    if !status.JObj? {
      outcome := Raised(Unexpected(NoGetMessage(status)));
    } else if Get(status.fields, "status") == JStr("completed") {
      outcome := Returned(status);
    } else if Get(status.fields, "status") == JStr("failed") {
      outcome := Returned(JObj(FailedResult(kind, status.fields)));
    } else {
      stop := false;
    }
  }

  /** The loop as run by the client: `for _ in range(max_attempts)` with
      early returns, issuing the status request of each attempt to the
      oracle and sleeping after every non-terminal status. The trace keeps
      the rounds already waited; the request of the current attempt is
      added where the attempt ends. */
  method PollJob(kind: JobKind, id: Json, st: StatusOracle) returns (c: Call)
    ensures c == Polled(kind, id, st)
  {
    ghost var replies := Replies(st);
    ghost var whole := PollOver(kind, id, replies);
    var effects: seq<Effect> := [];
    assert replies[0..] == replies;
    for attempt := 0 to MaxAttempts
      invariant whole == Call(PollOver(kind, id, replies[attempt..]).outcome,
                              effects + PollOver(kind, id, replies[attempt..]).effects)
    {
      PollOverStep(kind, id, replies, attempt, effects, whole);
      var reply := st(attempt);
      assert reply == replies[attempt];
      var stop, outcome := Inspect(kind, reply);
      if stop {
        return Call(outcome, effects + [StatusGet(kind, id)]);
      }
      effects := effects + [StatusGet(kind, id), Sleep(Interval(kind))];
    }
    assert replies[MaxAttempts..] == [];
    return Call(Returned(JObj(TimedOutResult(kind))), effects);
  }

  /** Every run of the loop stops at the first reply `k` that is terminal,
      after exactly `k` waiting rounds and one last poll, or times out after
      every attempt waited. */
  lemma {:induction false} PollStopsAtFirstTerminal(kind: JobKind, id: Json, replies: seq<Reply>) returns (k: nat)
    ensures k <= |replies|
    ensures forall j :: 0 <= j < k ==> NonTerminal(replies[j])
    ensures k < |replies| ==>
      && !NonTerminal(replies[k])
      && PollOver(kind, id, replies) == Call(StopOutcome(kind, replies[k]), Waits(kind, id, k) + [StatusGet(kind, id)])
    ensures k == |replies| ==>
      PollOver(kind, id, replies) == Call(Returned(JObj(TimedOutResult(kind))), Waits(kind, id, k))
    decreases |replies|
  {
    if replies == [] || !NonTerminal(replies[0]) {
      k := 0;
    } else {
      var tail := replies[1..];
      var k' := PollStopsAtFirstTerminal(kind, id, tail);
      k := k' + 1;
      var round := [StatusGet(kind, id), Sleep(Interval(kind))];
      var rest := PollOver(kind, id, tail);
      forall j | 0 <= j < k ensures NonTerminal(replies[j]) {
        if j > 0 {
          assert replies[j] == tail[j - 1];
        }
      }
      if k < |replies| {
        assert !NonTerminal(replies[k]) by {
          assert replies[k] == tail[k'];
        }
        assert PollOver(kind, id, replies) == Call(StopOutcome(kind, replies[k]), Waits(kind, id, k) + [StatusGet(kind, id)]) by {
          assert PollOver(kind, id, replies) == Call(rest.outcome, round + rest.effects);
          assert Waits(kind, id, k) == round + Waits(kind, id, k');
          assert replies[k] == tail[k'];
          assert round + (Waits(kind, id, k') + [StatusGet(kind, id)])
              == Waits(kind, id, k) + [StatusGet(kind, id)];
        }
      } else {
        assert PollOver(kind, id, replies) == Call(Returned(JObj(TimedOutResult(kind))), Waits(kind, id, k)) by {
          assert PollOver(kind, id, replies) == Call(rest.outcome, round + rest.effects);
          assert Waits(kind, id, k) == round + Waits(kind, id, k');
        }
      }
    }
  }

  /** Polling issues at least one and at most 60 status requests, makes no
      other request, and sleeps only between polls. */
  lemma PollBounded(kind: JobKind, id: Json, st: StatusOracle)
    ensures 1 <= StatusGets(Polled(kind, id, st).effects) <= MaxAttempts
    ensures Posts(Polled(kind, id, st).effects) == 0
    ensures SleptSeconds(Polled(kind, id, st).effects) <= MaxAttempts * Interval(kind)
  {
    var k := PollStopsAtFirstTerminal(kind, id, Replies(st));
    WaitsCounts(kind, id, k);
    if k < MaxAttempts {
      CountsOfConcat(Waits(kind, id, k), [StatusGet(kind, id)]);
    }
  }

  /** The first exactly-`"completed"` status, when every earlier one was
      non-terminal, is returned unchanged after `k + 1` polls, with no
      request after it. */
  lemma PollReturnsFirstCompleted(kind: JobKind, id: Json, st: StatusOracle, k: nat)
    requires k < MaxAttempts
    requires forall j :: 0 <= j < k ==> NonTerminal(st(j))
    requires HasStatus(st(k), "completed")
    ensures Polled(kind, id, st) == Call(Returned(st(k).json), Waits(kind, id, k) + [StatusGet(kind, id)])
    ensures StatusGets(Polled(kind, id, st).effects) == k + 1
  {
    var k' := PollStopsAtFirstTerminal(kind, id, Replies(st));
    assert k' == k;
    WaitsCounts(kind, id, k);
    CountsOfConcat(Waits(kind, id, k), [StatusGet(kind, id)]);
  }

  /** The first exactly-`"failed"` status stops polling at once with the
      remote `error` (or the job's default message) and success False. */
  lemma PollStopsOnFirstFailed(kind: JobKind, id: Json, st: StatusOracle, k: nat)
    requires k < MaxAttempts
    requires forall j :: 0 <= j < k ==> NonTerminal(st(j))
    requires HasStatus(st(k), "failed")
    ensures var d := st(k).json.fields;
      Polled(kind, id, st) == Call(
        Returned(JObj(map["success" := JBool(false),
                          "error" := if "error" in d then d["error"] else JStr(Noun(kind) + " failed")])),
        Waits(kind, id, k) + [StatusGet(kind, id)])
    ensures StatusGets(Polled(kind, id, st).effects) == k + 1
  {
    var k' := PollStopsAtFirstTerminal(kind, id, Replies(st));
    assert k' == k;
    WaitsCounts(kind, id, k);
    CountsOfConcat(Waits(kind, id, k), [StatusGet(kind, id)]);
  }

  /** Sixty non-terminal statuses in a row end in exactly the timeout
      result, after sixty polls each followed by a wait (the last one
      included). */
  lemma PollTimesOut(kind: JobKind, id: Json, st: StatusOracle)
    requires forall j :: 0 <= j < MaxAttempts ==> NonTerminal(st(j))
    ensures Polled(kind, id, st)
      == Call(Returned(JObj(map["success" := JBool(false), "error" := JStr(Noun(kind) + " timed out")])),
              Waits(kind, id, MaxAttempts))
    ensures StatusGets(Polled(kind, id, st).effects) == MaxAttempts
    ensures SleptSeconds(Polled(kind, id, st).effects) == MaxAttempts * Interval(kind)
  {
    var k := PollStopsAtFirstTerminal(kind, id, Replies(st));
    assert k == MaxAttempts;
    WaitsCounts(kind, id, MaxAttempts);
  }

  /** Conversely, a returned completed status is the reply of some attempt
      all of whose predecessors were non-terminal: the loop never invents a
      completion and never skips past the first one. */
  lemma CompletedComesFromFirstCompleted(kind: JobKind, id: Json, st: StatusOracle, d: Dict) returns (k: nat)
    requires Polled(kind, id, st).outcome == Returned(JObj(d))
    requires Get(d, "status") == JStr("completed")
    ensures k < MaxAttempts && st(k) == Body(JObj(d))
    ensures forall j :: 0 <= j < k ==> NonTerminal(st(j))
  {
    k := PollStopsAtFirstTerminal(kind, id, Replies(st));
  }
}
