/** The transport side of `LIFXService`: one request attempt, the retry
    policy of `handleRetry`, the error classifier `handleError`, and the two
    plain API calls `getLights` and `setState`, each as a function of the
    part of the service state a network exchange touches. */
module LifxRetry {
  import opened Base
  import opened LifxTypes

  /** The state one exchange reads and changes: the service's shared
      `retryCount`, the answers the network has yet to give, and the record
      of requests and pauses so far. */
  datatype Net = Net(retryCount: nat, answers: seq<Answer>, trace: seq<Event>)

  /** The next answer; once the script is used up every request succeeds. */
  function Head(answers: seq<Answer>): Answer
  {
    if answers == [] then Reply([]) else answers[0]
  }

  function Tail(answers: seq<Answer>): seq<Answer>
  {
    if answers == [] then [] else answers[1..]
  }

  function Drop(answers: seq<Answer>, k: nat): seq<Answer>
  {
    if k <= |answers| then answers[k..] else []
  }

  /** Puts `req` on the wire and takes the network's answer. */
  function Exchange(req: Request, net: Net): (Answer, Net)
  {
    (Head(net.answers), net.(answers := Tail(net.answers), trace := net.trace + [Sent(req)]))
  }

  function Pause(ms: nat, net: Net): Net
  {
    net.(trace := net.trace + [Waited(ms)])
  }

  const TOKEN_NOT_SET := "LIFX API token not set"

  /** One invocation of an operation: building the headers throws an `Error`
      before anything is sent when there is no credential. */
  function AttemptSpec(call: Call, timeout: Option<nat>, token: Option<string>, net: Net): (Answer, Net)
  {
    if Present(token) then Exchange(Request(call, token.value, timeout), net)
    else (Rejected(ErrorObj(TOKEN_NOT_SET)), net)
  }

  /** The failures `handleRetry` retries: an Axios error whose status is not
      401 and which is a 429, a 500 or a timeout (`ECONNABORTED`). */
  predicate Retryable(e: Thrown)
  {
    && e.AxiosErr?
    && e.responseStatus != Some(401)
    && (e.responseStatus == Some(429) || e.responseStatus == Some(500) || e.code == "ECONNABORTED")
  }

  /** The pause before retry number `retry` (counted from 1). */
  function RetryDelay(retry: nat): nat
    requires retry >= 1
  {
    RETRY_DELAY * Pow2(retry - 1)
  }

  /** `handleRetry`: attempt; on a retryable failure while the shared counter
      is below `MAX_RETRIES`, bump it, pause and start over; otherwise pass the
      answer on unchanged. */
  function RetrySpec(call: Call, timeout: Option<nat>, token: Option<string>, net: Net): (r: (Answer, Net))
    ensures net.retryCount <= r.1.retryCount
    ensures r.0.Rejected? && Retryable(r.0.error) ==> MAX_RETRIES <= r.1.retryCount
    decreases MAX_RETRIES - net.retryCount
  {
    var (a, n1) := AttemptSpec(call, timeout, token, net);
    if a.Rejected? && Retryable(a.error) && n1.retryCount < MAX_RETRIES then
      RetrySpec(call, timeout, token, RetryPause(n1))
    else
      (a, n1)
  }

  const MSG_INVALID_TOKEN := "Invalid LIFX API token"
  const MSG_RATE_LIMITED := "Rate limit exceeded. Please try again in a few moments."
  const MSG_SERVER_ERROR := "LIFX service is experiencing issues. Please try again later."
  const MSG_TIMEOUT := "Connection timeout. Please check your internet connection and try again."
  const MSG_UNREACHABLE := "Failed to connect to LIFX. Please check your internet connection."

  /** `status || 500` on an optional HTTP status. */
  function StatusOr500(status: Option<int>): int
  {
    if status.Some? && status.value != 0 then status.value else 500
  }

  /** `handleError`: an Axios error becomes a plain `ApiErr` with one of five
      fixed messages; any other value is thrown on unchanged. */
  function HandleError(e: Thrown): (r: Thrown)
    ensures !r.AxiosErr?
    ensures !e.AxiosErr? ==> r == e
    ensures e.AxiosErr? ==> r.ApiErr? && r.status == StatusOr500(e.responseStatus) && r.status != 0
  {
    match e
    case AxiosErr(status, code, _) =>
      ApiErr(
        if status == Some(401) then MSG_INVALID_TOKEN
        else if status == Some(429) then MSG_RATE_LIMITED
        else if status == Some(500) then MSG_SERVER_ERROR
        else if code == "ECONNABORTED" then MSG_TIMEOUT
        else MSG_UNREACHABLE,
        StatusOr500(status))
    case _ => e
  }

  /** `getLights`: a retried `GET /lights/all` with the request timeout; a
      success resets the shared retry counter, a failure is classified. */
  function GetLightsSpec(token: Option<string>, net: Net): (Result<seq<Device>, Thrown>, Net)
  {
    var (a, n1) := RetrySpec(ListLights, Some(REQUEST_TIMEOUT), token, net);
    if a.Reply? then (Success(a.devices), n1.(retryCount := 0))
    else (Failure(HandleError(a.error)), n1)
  }

  /** `setState`: a retried `PUT /lights/{selector}/state`, likewise. */
  function SetStateSpec(selector: string, state: LightState, token: Option<string>, net: Net): (Outcome<Thrown>, Net)
  {
    var (a, n1) := RetrySpec(PutState(selector, state), Some(REQUEST_TIMEOUT), token, net);
    if a.Reply? then (Pass, n1.(retryCount := 0))
    else (Fail(HandleError(a.error)), n1)
  }

  /** The events of a retried request that started with the counter at
      `from` and was retried `k` times: the request, then for each retry its
      pause and the request again. */
  function Schedule(req: Request, from: nat, k: nat): seq<Event>
    decreases k
  {
    if k == 0 then [Sent(req)]
    else [Sent(req), Waited(RetryDelay(from + 1))] + Schedule(req, from + 1, k - 1)
  }

  /** The number of requests in a record of events. */
  function Requests(events: seq<Event>): nat
  {
    if events == [] then 0
    else (if events[0].Sent? then 1 else 0) + Requests(events[1..])
  }

  // ---------------------------------------------------------------------
  // Retry policy

  lemma DropTail(answers: seq<Answer>, k: nat)
    ensures Drop(Tail(answers), k) == Drop(answers, k + 1)
  {
  }

  /** The state in which a retry starts: the counter bumped and its pause recorded. */
  function RetryPause(net: Net): Net
  {
    var c := net.retryCount + 1;
    Pause(RetryDelay(c), net.(retryCount := c))
  }

  /** `handleRetry` unfolded once for a request that is sent. */
  lemma RetryUnfold(call: Call, timeout: Option<nat>, token: Option<string>, net: Net)
    requires Present(token)
    ensures var req := Request(call, token.value, timeout);
      var n1 := net.(answers := Tail(net.answers), trace := net.trace + [Sent(req)]);
      var a := Head(net.answers);
      RetrySpec(call, timeout, token, net)
        == if a.Rejected? && Retryable(a.error) && net.retryCount < MAX_RETRIES
           then RetrySpec(call, timeout, token, RetryPause(n1))
           else (a, n1)
  {
  }

  /** The counter only grows, and never past `MAX_RETRIES` unless it started there. */
  lemma {:induction false} RetryCounterBounds(call: Call, timeout: Option<nat>, token: Option<string>, net: Net)
    requires Present(token)
    ensures var after := RetrySpec(call, timeout, token, net).1;
      net.retryCount <= after.retryCount
      && (after.retryCount == net.retryCount || after.retryCount <= MAX_RETRIES)
    decreases MAX_RETRIES - net.retryCount
  {
    RetryUnfold(call, timeout, token, net);
    var req := Request(call, token.value, timeout);
    var n1 := net.(answers := Tail(net.answers), trace := net.trace + [Sent(req)]);
    var a := Head(net.answers);
    if a.Rejected? && Retryable(a.error) && net.retryCount < MAX_RETRIES {
      RetryCounterBounds(call, timeout, token, RetryPause(n1));
    }
  }

  /** A retried request makes its first attempt and then one more per counter
      step, each after its pause: the record grows by exactly that schedule. */
  lemma {:induction false} RetryFollowsSchedule(call: Call, timeout: Option<nat>, token: Option<string>, net: Net)
    requires Present(token)
    ensures var after := RetrySpec(call, timeout, token, net).1;
      net.retryCount <= after.retryCount
      && after.trace == net.trace + Schedule(Request(call, token.value, timeout), net.retryCount, after.retryCount - net.retryCount)
    decreases MAX_RETRIES - net.retryCount
  {
    RetryUnfold(call, timeout, token, net);
    RetryCounterBounds(call, timeout, token, net);
    var req := Request(call, token.value, timeout);
    var n1 := net.(answers := Tail(net.answers), trace := net.trace + [Sent(req)]);
    var a := Head(net.answers);
    if a.Rejected? && Retryable(a.error) && net.retryCount < MAX_RETRIES {
      var n2 := RetryPause(n1);
      assert RetrySpec(call, timeout, token, net) == RetrySpec(call, timeout, token, n2);
      RetryFollowsSchedule(call, timeout, token, n2);
      var after := RetrySpec(call, timeout, token, n2).1;
      var k := after.retryCount - net.retryCount;
      assert n2.trace == net.trace + [Sent(req), Waited(RetryDelay(net.retryCount + 1))];
      assert Schedule(req, net.retryCount, k) == [Sent(req), Waited(RetryDelay(net.retryCount + 1))] + Schedule(req, net.retryCount + 1, k - 1);
    }
  }

  /** One answer is used per attempt, and the answer passed on is the last one used. */
  lemma {:induction false} RetryUsesOneAnswerPerAttempt(call: Call, timeout: Option<nat>, token: Option<string>, net: Net)
    requires Present(token)
    ensures var r := RetrySpec(call, timeout, token, net);
      net.retryCount <= r.1.retryCount
      && r.1.answers == Drop(net.answers, r.1.retryCount - net.retryCount + 1)
      && r.0 == Head(Drop(net.answers, r.1.retryCount - net.retryCount))
    decreases MAX_RETRIES - net.retryCount
  {
    RetryUnfold(call, timeout, token, net);
    RetryCounterBounds(call, timeout, token, net);
    var req := Request(call, token.value, timeout);
    var n1 := net.(answers := Tail(net.answers), trace := net.trace + [Sent(req)]);
    var a := Head(net.answers);
    if a.Rejected? && Retryable(a.error) && net.retryCount < MAX_RETRIES {
      var n2 := RetryPause(n1);
      assert RetrySpec(call, timeout, token, net) == RetrySpec(call, timeout, token, n2);
      RetryUsesOneAnswerPerAttempt(call, timeout, token, n2);
      var k := RetrySpec(call, timeout, token, n2).1.retryCount - net.retryCount;
      DropTail(net.answers, k - 1);
      DropTail(net.answers, k);
    } else {
      assert Drop(net.answers, 1) == Tail(net.answers);
    }
  }

  /** Every answer that was retried was a retryable failure, and the answer
      passed on is a response, a failure that is not retryable, or a failure
      met with the counter exhausted. */
  lemma {:induction false} RetriesOnlyTransientFailures(call: Call, timeout: Option<nat>, token: Option<string>, net: Net)
    requires Present(token)
    ensures var r := RetrySpec(call, timeout, token, net);
      && (forall j | 0 <= j < r.1.retryCount - net.retryCount ::
            Head(Drop(net.answers, j)).Rejected? && Retryable(Head(Drop(net.answers, j)).error))
      && (r.0.Rejected? ==> !Retryable(r.0.error) || r.1.retryCount >= MAX_RETRIES)
    decreases MAX_RETRIES - net.retryCount
  {
    RetryUnfold(call, timeout, token, net);
    var req := Request(call, token.value, timeout);
    var n1 := net.(answers := Tail(net.answers), trace := net.trace + [Sent(req)]);
    var a := Head(net.answers);
    if a.Rejected? && Retryable(a.error) && net.retryCount < MAX_RETRIES {
      var n2 := RetryPause(n1);
      RetriesOnlyTransientFailures(call, timeout, token, n2);
      var r := RetrySpec(call, timeout, token, n2);
      forall j | 0 <= j < r.1.retryCount - net.retryCount
        ensures Head(Drop(net.answers, j)).Rejected? && Retryable(Head(Drop(net.answers, j)).error)
      {
        if j > 0 {
          DropTail(net.answers, j - 1);
        }
      }
    }
  }

  /** Without a credential nothing is sent: the `Error` thrown while building
      the headers is passed on at once. */
  lemma MissingTokenSendsNothing(call: Call, timeout: Option<nat>, token: Option<string>, net: Net)
    requires !Present(token)
    ensures RetrySpec(call, timeout, token, net) == (Rejected(ErrorObj(TOKEN_NOT_SET)), net)
  {
  }

  /** A 401 is never retried, nor is any other failure that is not a 429, a
      500 or a timeout, nor any failure met once the counter is exhausted: the
      operation runs exactly once, the failure is passed on unchanged and the
      counter is left as it was. */
  lemma NotRetriedUnlessTransient(call: Call, timeout: Option<nat>, token: Option<string>, net: Net)
    requires Present(token)
    requires Head(net.answers).Rejected?
    requires !Retryable(Head(net.answers).error) || net.retryCount >= MAX_RETRIES
    ensures RetrySpec(call, timeout, token, net)
      == (Head(net.answers), net.(answers := Tail(net.answers), trace := net.trace + [Sent(Request(call, token.value, timeout))]))
  {
  }

  /** A 401 response is not retryable, whatever its error code. */
  lemma UnauthorizedIsPermanent(e: Thrown)
    requires e.AxiosErr? && e.responseStatus == Some(401)
    ensures !Retryable(e)
  {
  }

  /** Up to `MAX_RETRIES - retryCount` transient failures followed by a
      response: the response comes back, after one retry per failure. */
  lemma {:induction false} TransientFailuresThenSuccess(call: Call, timeout: Option<nat>, token: Option<string>, net: Net, k: nat)
    requires Present(token)
    requires net.retryCount + k <= MAX_RETRIES
    requires k < |net.answers| && net.answers[k].Reply?
    requires forall j | 0 <= j < k :: net.answers[j].Rejected? && Retryable(net.answers[j].error)
    ensures RetrySpec(call, timeout, token, net).0 == net.answers[k]
    ensures RetrySpec(call, timeout, token, net).1.retryCount == net.retryCount + k
    ensures RetrySpec(call, timeout, token, net).1.trace
      == net.trace + Schedule(Request(call, token.value, timeout), net.retryCount, k)
    decreases k
  {
    var req := Request(call, token.value, timeout);
    RetryUnfold(call, timeout, token, net);
    assert Head(net.answers) == net.answers[0];
    if k > 0 {
      var n2 := RetryPause(net.(answers := Tail(net.answers), trace := net.trace + [Sent(req)]));
      assert forall j | 0 <= j < k - 1 :: n2.answers[j] == net.answers[j + 1];
      TransientFailuresThenSuccess(call, timeout, token, n2, k - 1);
    }
  }

  /** Starting from a zero counter a request is made at most four times, with
      pauses of 2000, 4000 and 8000 ms between the attempts. */
  lemma AtMostFourAttempts(call: Call, timeout: Option<nat>, token: Option<string>, net: Net)
    requires Present(token) && net.retryCount == 0
    ensures var after := RetrySpec(call, timeout, token, net).1;
      var req := Request(call, token.value, timeout);
      && after.retryCount <= MAX_RETRIES
      && after.trace == net.trace + Schedule(req, 0, after.retryCount)
      && Requests(Schedule(req, 0, after.retryCount)) == after.retryCount + 1 <= 4
      && Schedule(req, 0, MAX_RETRIES)
         == [Sent(req), Waited(2000), Sent(req), Waited(4000), Sent(req), Waited(8000), Sent(req)]
  {
    RetryFollowsSchedule(call, timeout, token, net);
    RetryCounterBounds(call, timeout, token, net);
    var req := Request(call, token.value, timeout);
    var after := RetrySpec(call, timeout, token, net).1;
    ScheduleRequests(req, 0, after.retryCount);
    assert RetryDelay(1) == 2000 && RetryDelay(2) == 4000 && RetryDelay(3) == 8000;
  }

  lemma {:induction false} ScheduleRequests(req: Request, from: nat, k: nat)
    ensures Requests(Schedule(req, from, k)) == k + 1
    decreases k
  {
    if k > 0 {
      var rest := Schedule(req, from + 1, k - 1);
      ScheduleRequests(req, from + 1, k - 1);
      var s := [Sent(req), Waited(RetryDelay(from + 1))] + rest;
      assert s[1..] == [Waited(RetryDelay(from + 1))] + rest;
      assert s[1..][1..] == rest;
    } else {
      assert Schedule(req, from, 0)[1..] == [];
    }
  }

  /** Everything a retried request puts on the wire is that same request. */
  lemma {:induction false} ScheduleSendsOnlyItsRequest(req: Request, from: nat, k: nat)
    ensures forall e | e in Schedule(req, from, k) :: e == Sent(req) || e.Waited?
    decreases k
  {
    if k > 0 {
      ScheduleSendsOnlyItsRequest(req, from + 1, k - 1);
    }
  }

  /** A pause `handleRetry` takes: 2000, 4000 or 8000 ms. */
  predicate RetryWait(ev: Event)
  {
    ev.Waited? && (ev.ms == 2000 || ev.ms == 4000 || ev.ms == 8000)
  }

  /** The number of waits of exactly `ms` in a record of events. */
  function Waits(events: seq<Event>, ms: nat): nat
  {
    if events == [] then 0
    else (if events[0] == Waited(ms) then 1 else 0) + Waits(events[1..], ms)
  }

  lemma {:induction false} WaitsAppend(a: seq<Event>, b: seq<Event>, ms: nat)
    ensures Waits(a + b, ms) == Waits(a, ms) + Waits(b, ms)
    decreases |a|
  {
    if a == [] {
      assert a + b == b;
    } else {
      assert (a + b)[1..] == a[1..] + b;
      WaitsAppend(a[1..], b, ms);
    }
  }

  /** A schedule that stays within the retry budget holds its request and
      retry pauses only. */
  lemma {:induction false} ScheduleEvents(req: Request, from: nat, k: nat)
    requires k == 0 || from + k <= MAX_RETRIES
    ensures forall ev | ev in Schedule(req, from, k) :: ev == Sent(req) || RetryWait(ev)
    ensures forall ms: nat | ms != 2000 && ms != 4000 && ms != 8000 :: Waits(Schedule(req, from, k), ms) == 0
    decreases k
  {
    if k == 0 {
      assert Schedule(req, from, 0)[1..] == [];
    } else {
      var w := Waited(RetryDelay(from + 1));
      var rest := Schedule(req, from + 1, k - 1);
      ScheduleEvents(req, from + 1, k - 1);
      assert RetryWait(w) by {
        assert from <= 2;
        assert Pow2(0) == 1 && Pow2(1) == 2 && Pow2(2) == 4;
      }
      forall ms: nat | ms != 2000 && ms != 4000 && ms != 8000
        ensures Waits(Schedule(req, from, k), ms) == 0
      {
        WaitsAppend([Sent(req), w], rest, ms);
        assert [Sent(req), w][1..] == [w];
        assert [w][1..] == [];
      }
    }
  }

  /** What a `getLights` adds to the record: its own request, as often as it
      is retried, and retry pauses; nothing without a credential. */
  lemma GetLightsEvents(token: Option<string>, net: Net)
    ensures var t := GetLightsSpec(token, net).1.trace;
      && |net.trace| <= |t| && t[..|net.trace|] == net.trace
      && (forall ev | ev in t[|net.trace|..] :: (ev.Sent? && ev.req.call == ListLights) || RetryWait(ev))
      && (forall ms: nat | ms != 2000 && ms != 4000 && ms != 8000 :: Waits(t[|net.trace|..], ms) == 0)
  {
    var t := GetLightsSpec(token, net).1.trace;
    if Present(token) {
      var req := Request(ListLights, token.value, Some(REQUEST_TIMEOUT));
      RetryFollowsSchedule(ListLights, Some(REQUEST_TIMEOUT), token, net);
      RetryCounterBounds(ListLights, Some(REQUEST_TIMEOUT), token, net);
      var k := RetrySpec(ListLights, Some(REQUEST_TIMEOUT), token, net).1.retryCount - net.retryCount;
      ScheduleEvents(req, net.retryCount, k);
      assert t == net.trace + Schedule(req, net.retryCount, k);
      assert t[|net.trace|..] == Schedule(req, net.retryCount, k);
    } else {
      MissingTokenSendsNothing(ListLights, Some(REQUEST_TIMEOUT), token, net);
      assert t[|net.trace|..] == [];
    }
  }

  // ---------------------------------------------------------------------
  // Error classification

  /** The five messages of `handleError`, with the status kept or defaulted to 500. */
  lemma HandleErrorTable(status: Option<int>, code: string, msg: string)
    ensures var r := HandleError(AxiosErr(status, code, msg));
      && (status == Some(401) ==> r == ApiErr(MSG_INVALID_TOKEN, 401))
      && (status == Some(429) ==> r == ApiErr(MSG_RATE_LIMITED, 429))
      && (status == Some(500) ==> r == ApiErr(MSG_SERVER_ERROR, 500))
      && (status !in {Some(401), Some(429), Some(500)} && code == "ECONNABORTED" ==> r.msg == MSG_TIMEOUT)
      && (status !in {Some(401), Some(429), Some(500)} && code != "ECONNABORTED" ==> r.msg == MSG_UNREACHABLE)
      && (status == None ==> r.status == 500)
      && (r.msg == MSG_INVALID_TOKEN <==> status == Some(401))
  {
  }

  /** Classifying an already classified value changes nothing, so the second
      `handleError` in the flag methods passes on what `setState` threw. */
  lemma HandleErrorIdempotent(e: Thrown)
    ensures HandleError(HandleError(e)) == HandleError(e)
  {
  }

  // ---------------------------------------------------------------------
  // The shared retry counter

  /** Success resets the shared counter; failure leaves it wherever the
      retries took it. */
  lemma CallsResetCounterOnlyOnSuccess(selector: string, state: LightState, token: Option<string>, net: Net)
    ensures var (r, n) := GetLightsSpec(token, net);
      r.Success? ==> n.retryCount == 0
    ensures var (o, n) := SetStateSpec(selector, state, token, net);
      o.Pass? ==> n.retryCount == 0
    ensures var (r, n) := GetLightsSpec(token, net);
      r.Failure? ==> n.retryCount == RetrySpec(ListLights, Some(REQUEST_TIMEOUT), token, net).1.retryCount
    ensures var (o, n) := SetStateSpec(selector, state, token, net);
      o.Fail? ==> n.retryCount == RetrySpec(PutState(selector, state), Some(REQUEST_TIMEOUT), token, net).1.retryCount
  {
  }

  /** The counter is one per service, not one per request: a `getLights` that
      fails after using every retry leaves the counter at its maximum, and the
      next `setState` that meets a 500 is then not retried at all. */
  lemma {:induction false} RetryBudgetCarriesOver(selector: string, state: LightState, token: Option<string>, net: Net)
    requires Present(token) && net.retryCount == 0
    requires |net.answers| >= 5
    requires forall i | 0 <= i < 5 :: net.answers[i].Rejected? && net.answers[i].error.AxiosErr? && net.answers[i].error.responseStatus == Some(500)
    ensures var (r1, n1) := GetLightsSpec(token, net);
      var (o2, n2) := SetStateSpec(selector, state, token, n1);
      && r1 == Failure(ApiErr(MSG_SERVER_ERROR, 500))
      && n1.retryCount == MAX_RETRIES
      && o2 == Fail(ApiErr(MSG_SERVER_ERROR, 500))
      && n2.trace == n1.trace + [Sent(Request(PutState(selector, state), token.value, Some(REQUEST_TIMEOUT)))]
  {
    RetryUsesOneAnswerPerAttempt(ListLights, Some(REQUEST_TIMEOUT), token, net);
    RetryCounterBounds(ListLights, Some(REQUEST_TIMEOUT), token, net);
    RetriesOnlyTransientFailures(ListLights, Some(REQUEST_TIMEOUT), token, net);
    var (a1, m1) := RetrySpec(ListLights, Some(REQUEST_TIMEOUT), token, net);
    var k := m1.retryCount;
    assert k <= MAX_RETRIES;
    assert Head(Drop(net.answers, k)) == net.answers[k];
    assert a1 == net.answers[k];
    assert k == MAX_RETRIES;
    assert m1.answers == net.answers[4..];
    assert Head(m1.answers) == net.answers[4];
    NotRetriedUnlessTransient(PutState(selector, state), Some(REQUEST_TIMEOUT), token, m1);
  }
}
