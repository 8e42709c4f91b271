/** The HTTP client for the search endpoint (client/GrabApiClient.java): a
    null check on the payload, then up to three attempts, returning the first
    successful response. The transport is a script of attempt outcomes. */
module GrabClient {
  import opened Common
  import opened PayloadModel
  import opened Wire

  /** `MAX_RETRIES`: the number of attempts made for one request. */
  const MaxRetries := 3

  /** An HTTP response: its status code and the search node of its body. */
  datatype Response = Response(code: int, body: Body)

  /** OkHttp's `Response.isSuccessful`: a status code in [200, 300). */
  predicate IsSuccessful(r: Response) {
    200 <= r.code < 300
  }

  /** How one `Thread.sleep(RETRY_INTERVAL_MS)` ends. */
  datatype Sleep = Slept | SleepInterrupted

  /** The outcome of one `httpClient.newCall(request).execute()`, with how the
      delays after a failed attempt end. An unsuccessful response is followed
      by the sleep in the `try` block (`pause`); if that sleep is interrupted,
      the `catch` block sleeps again (`retryPause`). An I/O error goes to the
      `catch` block at once, so only `retryPause` applies. A successful
      response sleeps not at all. */
  datatype Attempt =
    | Answered(response: Response, pause: Sleep, retryPause: Sleep)
    | IoFailure(retryPause: Sleep)   // execute threw IOException

  /** The exceptions `makeRequest(Payload)` throws. */
  datatype ClientError =
    | NullPayload          // IllegalArgumentException("Payload cannot be null")
    | MaxRetriesExceeded   // IOException("Max retries exceeded for URL: ...")
    | DelayInterrupted     // InterruptedException from the sleep in the catch block

  predicate Succeeds(a: Attempt) {
    a.Answered? && IsSuccessful(a.response)
  }

  /** A failed attempt whose delay ends the loop: the sleep in the `catch`
      block is outside any `try`, so its interruption escapes. It is reached
      after an I/O error, or after an unsuccessful response whose first sleep
      was interrupted. */
  predicate Escapes(a: Attempt) {
    !Succeeds(a) && (a.Answered? ==> a.pause == SleepInterrupted) && a.retryPause == SleepInterrupted
  }

  /** An attempt after which the loop does not go on. */
  predicate Stops(a: Attempt) {
    Succeeds(a) || Escapes(a)
  }

  /** The outcome of the next attempt; a transport whose script is used up
      fails as with an I/O error, after which the delay completes. */
  function NextAttempt(script: seq<Attempt>): Attempt {
    if script == [] then IoFailure(Slept) else script[0]
  }

  /** The outcome of attempt number `i` (from 0) against `script`. */
  function AttemptAt(script: seq<Attempt>, i: nat): Attempt {
    if i < |script| then script[i] else IoFailure(Slept)
  }

  /** What remains of the script after `n` attempts. */
  function Drop(script: seq<Attempt>, n: nat): (r: seq<Attempt>)
    ensures |r| == if n <= |script| then |script| - n else 0
  {
    if n <= |script| then script[n..] else []
  }

  /** The result of the retry loop and the number of attempts it made. */
  datatype Retried = Retried(result: Result<Response, ClientError>, attempts: nat)

  /** The retry loop from the state where `retryCount` attempts have been made
      and `script` holds the outcomes still to come. */
  function RetryFrom(script: seq<Attempt>, retryCount: nat): Retried
    decreases MaxRetries - retryCount
  {
    if retryCount >= MaxRetries then
      Retried(Err(MaxRetriesExceeded), retryCount)
    else
      var a := NextAttempt(script);
      if Succeeds(a) then Retried(Ok(a.response), retryCount + 1)
      else if Escapes(a) then Retried(Err(DelayInterrupted), retryCount + 1)
      else RetryFrom(Drop(script, 1), retryCount + 1)
  }

  /** `executeRequestWithRetry` on a fresh request. */
  function Retry(script: seq<Attempt>): Retried {
    RetryFrom(script, 0)
  }

  /** The index of the first attempt among the first `MaxRetries` after which
      the loop stops, if any: an independent statement of how the loop ends. */
  function FirstStop(script: seq<Attempt>, from: nat): Option<nat>
    decreases MaxRetries - from
  {
    if from >= MaxRetries then None
    else if Stops(AttemptAt(script, from)) then Some(from)
    else FirstStop(script, from + 1)
  }

  lemma AttemptAtDrop(script: seq<Attempt>, k: nat, j: nat)
    ensures AttemptAt(Drop(script, k), j) == AttemptAt(script, k + j)
  {
  }

  /** The loop run from attempt `k` ends at the first attempt at or after `k`
      that stops it, after exactly that many attempts: with that response when
      it succeeded, with the interruption when its delay was interrupted. When
      no attempt stops it, it fails after `MaxRetries` attempts. */
  lemma {:induction false} RetryFromIsFirstStop(script: seq<Attempt>, k: nat)
    requires k <= MaxRetries
    ensures var run := RetryFrom(Drop(script, k), k);
      match FirstStop(script, k)
      case Some(i) =>
        && run.attempts == i + 1
        && (Succeeds(AttemptAt(script, i)) ==> run.result == Ok(AttemptAt(script, i).response))
        && (!Succeeds(AttemptAt(script, i)) ==> run.result == Err(DelayInterrupted))
      case None =>
        run == Retried(Err(MaxRetriesExceeded), MaxRetries)
    decreases MaxRetries - k
  {
    if k < MaxRetries {
      AttemptAtDrop(script, k, 0);
      assert NextAttempt(Drop(script, k)) == AttemptAt(script, k);
      if !Stops(AttemptAt(script, k)) {
        RetryFromIsFirstStop(script, k + 1);
        assert Drop(Drop(script, k), 1) == Drop(script, k + 1);
      }
    }
  }

  /** `FirstStop` finds the least stopping index below `MaxRetries`. */
  lemma {:induction false} FirstStopIsLeast(script: seq<Attempt>, from: nat)
    ensures match FirstStop(script, from)
      case Some(i) =>
        from <= i < MaxRetries && Stops(AttemptAt(script, i)) &&
        forall j :: from <= j < i ==> !Stops(AttemptAt(script, j))
      case None =>
        forall j :: from <= j < MaxRetries ==> !Stops(AttemptAt(script, j))
    decreases MaxRetries - from
  {
    if from < MaxRetries && !Stops(AttemptAt(script, from)) {
      FirstStopIsLeast(script, from + 1);
    }
  }

  /** The retry loop makes between 1 and `MaxRetries` attempts, every one
      before the last failed and waited out its delay. It returns the last
      attempt's response exactly when that attempt succeeded, and never an
      unsuccessful one; it throws the interruption exactly when the last
      attempt's delay was interrupted; and it throws "max retries exceeded"
      exactly when all `MaxRetries` attempts failed and were waited out. */
  lemma RetryReturnsFirstSuccess(script: seq<Attempt>)
    ensures var run := Retry(script);
      var last := AttemptAt(script, run.attempts - 1);
      && 1 <= run.attempts <= MaxRetries
      && (forall j :: 0 <= j < run.attempts - 1 ==> !Stops(AttemptAt(script, j)))
      && (run.result.Ok? <==> Succeeds(last))
      && (run.result.Ok? ==> run.result.value == last.response && IsSuccessful(run.result.value))
      && (run.result == Err(DelayInterrupted) <==> Escapes(last))
      && (run.result == Err(MaxRetriesExceeded) <==> run.attempts == MaxRetries && !Stops(last))
      && run.result != Err(NullPayload)
  {
    RetryFromIsFirstStop(script, 0);
    FirstStopIsLeast(script, 0);
    assert Drop(script, 0) == script;
  }

  /** An interrupted delay ends the call before the retries are used up: an
      I/O error whose `catch` sleep is interrupted stops after one attempt,
      even when the next attempt would have succeeded. */
  lemma InterruptedDelayEndsEarly(ok: Response)
    requires IsSuccessful(ok)
    ensures Retry([IoFailure(SleepInterrupted), Answered(ok, Slept, Slept)]) == Retried(Err(DelayInterrupted), 1)
    ensures Retry([IoFailure(Slept), Answered(ok, Slept, Slept)]) == Retried(Ok(ok), 2)
  {
  }

  /** How a scraper sees the outcome of `makeRequest`: an exception, or a
      response it then tests with `isSuccessful`. */
  function ReplyOf(r: Result<Response, ClientError>): Reply {
    match r
    case Err(_) => Raised
    case Ok(resp) => if IsSuccessful(resp) then Delivered(resp.body) else Refused
  }

  /** A scraper driven by this client never sees a null or unsuccessful
      response: every failure reaches it as an exception. It gets a response
      exactly when one of the first `MaxRetries` attempts succeeds with no
      interrupted delay before it. */
  lemma RetriedNeverRefused(script: seq<Attempt>)
    ensures ReplyOf(Retry(script).result) != Refused
    ensures ReplyOf(Retry(script).result).Delivered? <==>
      exists i :: 0 <= i < MaxRetries && Succeeds(AttemptAt(script, i)) &&
        forall j :: 0 <= j < i ==> !Escapes(AttemptAt(script, j))
  {
    RetryReturnsFirstSuccess(script);
    FirstStopIsLeast(script, 0);
    RetryFromIsFirstStop(script, 0);
    assert Drop(script, 0) == script;
  }

  /** `n` copies of the same request. */
  function Repeat(p: PayloadFields, n: nat): (r: seq<PayloadFields>)
    ensures |r| == n && forall i :: 0 <= i < n ==> r[i] == p
  {
    if n == 0 then [] else Repeat(p, n - 1) + [p]
  }

  class GrabApiClient {
    /** The outcomes the transport will give to the coming attempts. */
    var outcomes: seq<Attempt>
    /** Every request body put on the wire, one per attempt. */
    var attempted: seq<PayloadFields>

    constructor (outcomes: seq<Attempt>)
      ensures this.outcomes == outcomes && attempted == []
    {
      this.outcomes := outcomes;
      attempted := [];
    }

    /** `makeRequest(String)`: not implemented; returns null and contacts nothing. */
    method MakeRawRequest(requestBody: string) returns (r: Option<Response>)
      ensures r == None
    {
      r := None;
    }

    /** `makeRequest(Payload)`: a null payload is refused before any attempt;
        otherwise the serialised payload is sent with retries. */
    method MakeRequest(payload: Payload?) returns (r: Result<Response, ClientError>)
      modifies this
      ensures payload == null ==> r == Err(NullPayload) && unchanged(this)
      ensures payload != null ==>
        var run := Retry(old(outcomes));
        && r == run.result
        && outcomes == Drop(old(outcomes), run.attempts)
        && attempted == old(attempted) + Repeat(payload.Fields(), run.attempts)
    {
      if payload == null {
        return Err(NullPayload);
      }
      r := ExecuteRequestWithRetry(payload.Fields());
    }

    /** `executeRequestWithRetry`: at most `MaxRetries` attempts, each sending
        the same request; the first successful response is returned at once,
        an unsuccessful one or an I/O error counts as one attempt, and an
        interrupted delay in the `catch` block ends the call. */
    method ExecuteRequestWithRetry(request: PayloadFields) returns (r: Result<Response, ClientError>)
      modifies this
      ensures var run := Retry(old(outcomes));
        && r == run.result
        && outcomes == Drop(old(outcomes), run.attempts)
        && attempted == old(attempted) + Repeat(request, run.attempts)
    {
      ghost var run := Retry(outcomes);
      ghost var script0 := outcomes;
      ghost var attempted0 := attempted;
      var retryCount := 0;
      while retryCount < MaxRetries
        invariant 0 <= retryCount <= MaxRetries
        invariant run == RetryFrom(outcomes, retryCount)
        invariant outcomes == Drop(script0, retryCount)
        invariant attempted == attempted0 + Repeat(request, retryCount)
        decreases MaxRetries - retryCount
      {
        attempted := attempted + [request];
        var attempt := NextAttempt(outcomes);
        outcomes := Drop(outcomes, 1);
        assert Drop(Drop(script0, retryCount), 1) == Drop(script0, retryCount + 1);
        if Succeeds(attempt) {
          return Ok(attempt.response);
        }
        if Escapes(attempt) {
          return Err(DelayInterrupted);
        }
        retryCount := retryCount + 1;
      }
      return Err(MaxRetriesExceeded);
    }
  }
}
