/**
 The bounded exponential-backoff fetch (`fetchWithBackOff`). The HTTP call
 `doFetch(url, timeout)` is an oracle, and the calls made to it and the
 sleeps taken between attempts are returned as logs.
 */
module Backoff {
  import opened Request

  /** The loop retries only while the retry delay is at most this many seconds. */
  const MAX_RETRIES_DELAY_SEC: nat := 8

  /** What one `doFetch` call gives back: the response body, or an error. */
  datatype Outcome = Fetched(body: Bytes) | FetchFailed

  /**
   `doFetch(url, timeout)`, with the timeout in seconds. Each attempt of one
   backoff run uses a different timeout, so a function of the two arguments
   can describe any behaviour of the backend during that run.
   */
  type Fetcher = (Bytes, nat) -> Outcome

  /** The terminal error, naming the text and the two languages of the request. */
  datatype TranslateError = UnableToTranslate(data: Bytes, from: Tag, to: Tag)

  /** The `{body, err}` pair handed from a fetch to its waiters. */
  datatype FetchResult = Ok(body: Bytes) | Err(error: TranslateError)

  /** One backoff run: its result, the timeout of each `doFetch` call in order, and each sleep in order. */
  datatype FetchRun = FetchRun(result: FetchResult, timeouts: seq<nat>, sleeps: seq<nat>)

  function Pow2(n: nat): nat
  {
    if n == 0 then 1 else 2 * Pow2(n - 1)
  }

  /**
   The retry delays the loop goes through from delay `d` on: `d` doubled until
   it passes the ceiling, and the schedule stops only there.
   */
  function RetryDelays(d: nat): (r: seq<nat>)
    requires d >= 1
    ensures d <= MAX_RETRIES_DELAY_SEC <==> r != []
    ensures r != [] ==> r[0] == d
    ensures forall i :: 0 <= i < |r| ==> d <= r[i] <= MAX_RETRIES_DELAY_SEC
    ensures forall i :: 0 < i < |r| ==> r[i] == 2 * r[i - 1]
    ensures r != [] ==> 2 * r[|r| - 1] > MAX_RETRIES_DELAY_SEC
    decreases MAX_RETRIES_DELAY_SEC + 1 - d
  {
    if d <= MAX_RETRIES_DELAY_SEC then [d] + RetryDelays(2 * d) else []
  }

  /** From a first delay of one second, the `i`-th delay (from 0) is `2^i` seconds. */
  lemma {:induction false} RetryDelaysArePowers(i: nat)
    requires i < |RetryDelays(1)|
    ensures RetryDelays(1)[i] == Pow2(i)
  {
    if i > 0 {
      RetryDelaysArePowers(i - 1);
    }
  }

  /** Starting from a delay of one second the schedule is 1, 2, 4, 8. */
  lemma RetryDelaysFromOne()
    ensures RetryDelays(1) == [1, 2, 4, 8]
  {
  }

  /** The number of attempts the loop allows: one per retry delay. */
  function MaxAttempts(): nat
  {
    |RetryDelays(1)|
  }

  /** The timeouts of the first `n` attempts: attempt `i` (from 0) waits `i + 1` seconds. */
  function Timeouts(n: nat): seq<nat>
  {
    seq(n, i => i + 1)
  }

  /**
   The first attempt among the attempts `i` to `n - 1` (attempt `a` uses timeout
   `a + 1`) whose call succeeds, or `n` when none does.
   */
  function FirstSuccess(url: Bytes, doFetch: Fetcher, i: nat, n: nat): (j: nat)
    requires i <= n
    ensures i <= j <= n
    ensures forall t :: i < t <= j ==> doFetch(url, t).FetchFailed?
    ensures j < n ==> doFetch(url, j + 1).Fetched?
    decreases n - i
  {
    if i == n then n
    else if doFetch(url, i + 1).Fetched? then i
    else FirstSuccess(url, doFetch, i + 1, n)
  }

  /**
   The run the loop performs, described without the loop: it stops at the first
   attempt that succeeds; every failed attempt is followed by the sleep of its
   retry delay; and when all attempts fail the request's fields are reported.
   */
  function Run(url: Bytes, r: RequestKey, doFetch: Fetcher): FetchRun
  {
    var n := FirstSuccess(url, doFetch, 0, MaxAttempts());
    if n < MaxAttempts() then
      FetchRun(Ok(doFetch(url, n + 1).body), Timeouts(n + 1), RetryDelays(1)[..n])
    else
      FetchRun(Err(UnableToTranslate(r.data, r.from, r.to)), Timeouts(n), RetryDelays(1))
  }

  /**
   `fetchWithBackOff`: calls `doFetch` with timeouts 1, 2, ... seconds, sleeping
   `retryDelay` seconds after each failure and doubling it, while the delay is
   at most `MAX_RETRIES_DELAY_SEC`.
   */
  method FetchWithBackOff(url: Bytes, r: RequestKey, doFetch: Fetcher)
    returns (res: FetchResult, timeouts: seq<nat>, sleeps: seq<nat>)
    ensures FetchRun(res, timeouts, sleeps) == Run(url, r, doFetch)
  {
    var retryDelay: nat := 1;
    var timeout: nat := 1;
    var resp: Bytes := [];
    var failed := false;
    timeouts, sleeps := [], [];
    while retryDelay <= MAX_RETRIES_DELAY_SEC
      invariant |sleeps| <= 4 && timeout == |sleeps| + 1
      invariant retryDelay == [1, 2, 4, 8, 16][|sleeps|]
      invariant sleeps == [1, 2, 4, 8][..|sleeps|]
      invariant timeouts == Timeouts(|sleeps|)
      invariant failed == (|sleeps| > 0)
      invariant forall t :: 1 <= t < timeout ==> doFetch(url, t).FetchFailed?
    {
      var outcome := doFetch(url, timeout);
      timeouts := timeouts + [timeout];
      if outcome.FetchFailed? {
        failed, resp := true, [];
        sleeps := sleeps + [retryDelay];
        retryDelay := retryDelay * 2;
        timeout := timeout + 1;
      } else {
        failed, resp := false, outcome.body;
        assert timeouts == Timeouts(timeout);
        FirstSuccessEndsRun(url, r, doFetch, timeout);
        break;
      }
    }
    if failed {
      if retryDelay > MAX_RETRIES_DELAY_SEC {
        assert |sleeps| == 4;
        assert timeouts == [1, 2, 3, 4];
        AllAttemptsFail(url, r, doFetch);
      }
      res := Err(UnableToTranslate(r.data, r.from, r.to));
    } else {
      res := Ok(resp);
    }
  }

  /**
   At most four calls are made; attempt `i` (from 0) uses a timeout of `i + 1`
   seconds and, when it fails, is followed by a sleep of `2^i` seconds; every
   call but the last one failed; the result is a body exactly when the last
   call succeeded, and then it is that call's body unchanged.
   */
  lemma RunShape(url: Bytes, r: RequestKey, doFetch: Fetcher)
    ensures var run := Run(url, r, doFetch);
      && 1 <= |run.timeouts| <= 4
      && (forall i :: 0 <= i < |run.timeouts| ==> run.timeouts[i] == i + 1)
      && |run.sleeps| == (if run.result.Ok? then |run.timeouts| - 1 else |run.timeouts|)
      && (forall i :: 0 <= i < |run.sleeps| ==> run.sleeps[i] == Pow2(i))
      && (forall t :: 1 <= t < |run.timeouts| ==> doFetch(url, t).FetchFailed?)
      && (run.result.Ok? <==> doFetch(url, |run.timeouts|).Fetched?)
      && (run.result.Ok? ==> run.result.body == doFetch(url, |run.timeouts|).body)
  {
    RetryDelaysFromOne();
    var run := Run(url, r, doFetch);
    forall i | 0 <= i < |run.sleeps|
      ensures run.sleeps[i] == Pow2(i)
    {
      RetryDelaysArePowers(i);
    }
  }

  /**
   When every attempt fails: the calls use timeouts 1, 2, 3, 4, the sleeps are
   1, 2, 4 and 8 seconds (a sleep follows the last failure too), and the result
   is the error naming the text and both languages.
   */
  lemma AllAttemptsFail(url: Bytes, r: RequestKey, doFetch: Fetcher)
    requires forall t :: 1 <= t <= 4 ==> doFetch(url, t).FetchFailed?
    ensures Run(url, r, doFetch) == FetchRun(Err(UnableToTranslate(r.data, r.from, r.to)), [1, 2, 3, 4], [1, 2, 4, 8])
  {
    RetryDelaysFromOne();
    assert Timeouts(4) == [1, 2, 3, 4];
  }

  /**
   When attempt `n` (counting from 1) is the first to succeed, no later attempt
   is made, the sleeps are the first `n - 1` delays of 1, 2, 4, 8, and that
   attempt's body is the result.
   */
  lemma FirstSuccessEndsRun(url: Bytes, r: RequestKey, doFetch: Fetcher, n: nat)
    requires 1 <= n <= 4
    requires doFetch(url, n).Fetched?
    requires forall t :: 1 <= t < n ==> doFetch(url, t).FetchFailed?
    ensures Run(url, r, doFetch) == FetchRun(Ok(doFetch(url, n).body), Timeouts(n), [1, 2, 4, 8][..n - 1])
  {
    RetryDelaysFromOne();
  }

  /** The run fails exactly when none of the four attempts can succeed. */
  lemma RunFailsIffAllFail(url: Bytes, r: RequestKey, doFetch: Fetcher)
    ensures Run(url, r, doFetch).result.Err? <==> forall t :: 1 <= t <= 4 ==> doFetch(url, t).FetchFailed?
  {
    RetryDelaysFromOne();
  }
}
