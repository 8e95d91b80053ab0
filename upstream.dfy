/**
 * The call to the generative-text endpoint that all three route handlers make: up to
 * `MaxRetries` POSTs of the same payload, with exponential back-off between them.
 * The upstream is given as the outcome of each successive call; waiting is recorded
 * as the list of delays, in milliseconds, instead of being performed.
 */
module Upstream {
  import opened Wrappers

  const MaxRetries: nat := 3

  /** The structured output requested with `generationConfig`, if any. */
  datatype Schema = FlashcardsSchema | QuizSchema

  /** The user query: one of the fixed instruction templates with the caller's text inserted,
      or a literal string. */
  datatype Query = Templated(template: Schema, input: string) | Literal(text: string)

  /** The request body POSTed upstream (the system prompt is a constant of each route). */
  datatype Payload = Payload(userQuery: Query, generationConfig: Option<Schema>)

  /** The response body: the envelope with the text at `candidates[0].content.parts[0].text`
      (None when any step of that path is missing), or a body `response.json()` rejects. */
  datatype Body = Envelope(text: Option<string>) | NotJson

  /** One call of `fetch`: a response with its status, or a thrown transport error. */
  datatype Attempt = Reply(status: int, body: Body) | TransportFailure

  /** `response.ok`: the status is in the success range 200-299, so a 429 (rate limited)
      or any other error status is not ok. */
  predicate IsOkStatus(status: int): (r: bool)
    ensures r <==> status / 100 == 2
    ensures status == 429 ==> !r
  {
    200 <= status <= 299
  }

  predicate Succeeds(a: Attempt) {
    a.Reply? && IsOkStatus(a.status)
  }

  /** What can escape the retry loop: `API call failed with status N`, the transport error,
      or the post-loop `Failed to get response from LLM API after retries`. */
  datatype UpstreamError = FailedStatus(status: int) | Transport | NoResponseAfterRetries

  datatype FetchResult = Fetched(body: Body) | Thrown(error: UpstreamError)

  /** A whole retry loop: how many calls it made, the delays it waited, and its outcome. */
  datatype Run = Run(calls: nat, delays: seq<nat>, result: FetchResult)

  function Pow2(i: nat): (r: nat)
    ensures r >= 1
  {
    if i == 0 then 1 else 2 * Pow2(i - 1)
  }

  /** `Math.pow(2, i) * 1000`: the wait after a failed attempt `i`. */
  function BackoffMs(i: nat): nat {
    Pow2(i) * 1000
  }

  /** The waits after attempts `0 .. k-1`. */
  function Backoffs(k: nat): (r: seq<nat>)
    ensures |r| == k
    ensures forall i :: 0 <= i < k ==> r[i] == BackoffMs(i)
  {
    if k == 0 then [] else Backoffs(k - 1) + [BackoffMs(k - 1)]
  }

  function Sum(s: seq<nat>): nat {
    if s == [] then 0 else Sum(s[..|s| - 1]) + s[|s| - 1]
  }

  /** The error a failed attempt throws inside the loop. */
  function ErrorOf(a: Attempt): UpstreamError {
    match a
    case TransportFailure => Transport
    case Reply(status, _) => FailedStatus(status)
  }

  /**
   * The loop from attempt `i` on, as the code behaves: a success ends it; any failure before
   * the last attempt (a 429 in its own branch, every other status and every transport error
   * through the `catch`) waits `BackoffMs(i)` and retries; a failure on the last attempt escapes.
   */
  function Schedule(upstream: nat -> Attempt, i: nat): (r: Run)
    requires i < MaxRetries
    ensures 1 <= r.calls <= MaxRetries - i && |r.delays| == r.calls - 1
    decreases MaxRetries - i
  {
    var a := upstream(i);
    if Succeeds(a) then Run(1, [], Fetched(a.body))
    else if i == MaxRetries - 1 then Run(1, [], Thrown(ErrorOf(a)))
    else
      var rest := Schedule(upstream, i + 1);
      Run(rest.calls + 1, [BackoffMs(i)] + rest.delays, rest.result)
  }

  /** The whole loop: between one and `MaxRetries` calls, with a wait between consecutive ones. */
  function Retry(upstream: nat -> Attempt): (r: Run)
    ensures 1 <= r.calls <= MaxRetries && |r.delays| == r.calls - 1
  {
    Schedule(upstream, 0)
  }

  /** What the loop looks like from attempt `i` on, once attempts `0 .. i-1` have failed. */
  function Resume(i: nat, rest: Run): Run {
    Run(i + rest.calls, Backoffs(i) + rest.delays, rest.result)
  }

  /** A failed attempt before the last one is followed by the rest of the loop. */
  lemma RetryStep(upstream: nat -> Attempt, i: nat)
    requires i < MaxRetries - 1 && !Succeeds(upstream(i))
    ensures Resume(i, Schedule(upstream, i)) == Resume(i + 1, Schedule(upstream, i + 1))
  {
    var rest := Schedule(upstream, i + 1);
    assert Backoffs(i) + ([BackoffMs(i)] + rest.delays) == Backoffs(i + 1) + rest.delays;
  }

  /**
   * The retry loop of the route handlers. `response` keeps the last response `fetch` returned
   * (a throwing `fetch` leaves it as it was); `escaped` is an error rethrown out of the loop.
   */
  method CallWithRetry(upstream: nat -> Attempt) returns (calls: nat, delays: seq<nat>, result: FetchResult)
    ensures Run(calls, delays, result) == Retry(upstream)
  {
    calls, delays := 0, [];
    var response: Option<Attempt> := None;
    var escaped: Option<UpstreamError> := None;
    for i := 0 to MaxRetries
      invariant i < MaxRetries
      invariant calls == i && delays == Backoffs(i) && escaped.None?
      invariant Retry(upstream) == Resume(i, Schedule(upstream, i))
    {
      var a := upstream(i);
      calls := calls + 1;
      var thrown: Option<UpstreamError> := None;
      if a.TransportFailure? {
        thrown := Some(Transport);
      } else {
        response := Some(a);
        if IsOkStatus(a.status) {
          break;
        } else if a.status == 429 && i < MaxRetries - 1 {
          RetryStep(upstream, i);
          delays := delays + [BackoffMs(i)];
        } else {
          thrown := Some(FailedStatus(a.status));
        }
      }
      if thrown.Some? {
        if i == MaxRetries - 1 {
          escaped := thrown;
          break;
        }
        RetryStep(upstream, i);
        delays := delays + [BackoffMs(i)];
      }
    }
    if escaped.Some? {
      result := Thrown(escaped.value);
    } else if response.None? || !Succeeds(response.value) {
      result := Thrown(NoResponseAfterRetries);
    } else {
      result := Fetched(response.value.body);
    }
  }

  /** What the loop from attempt `i` on does: it calls until the first success or the last
      attempt, waits `BackoffMs(k)` after each failed attempt `k` it retries, returns the body
      of a success, and throws only the error of a failed last attempt. */
  lemma {:induction false} ScheduleFacts(upstream: nat -> Attempt, i: nat)
    requires i < MaxRetries
    ensures var r := Schedule(upstream, i);
      && 1 <= r.calls <= MaxRetries - i
      && (forall k :: i <= k < i + r.calls - 1 ==> !Succeeds(upstream(k)))
      && (r.result.Fetched? <==> Succeeds(upstream(i + r.calls - 1)))
      && (r.result.Fetched? ==> r.result.body == upstream(i + r.calls - 1).body)
      && (r.result.Thrown? ==> i + r.calls == MaxRetries && r.result.error == ErrorOf(upstream(MaxRetries - 1)))
      && |r.delays| == r.calls - 1
      && (forall k :: 0 <= k < |r.delays| ==> r.delays[k] == BackoffMs(i + k))
    decreases MaxRetries - i
  {
    var a := upstream(i);
    if !Succeeds(a) && i < MaxRetries - 1 {
      ScheduleFacts(upstream, i + 1);
      var rest := Schedule(upstream, i + 1);
      var r := Schedule(upstream, i);
      assert r.delays == [BackoffMs(i)] + rest.delays;
      forall k | 0 <= k < |r.delays|
        ensures r.delays[k] == BackoffMs(i + k)
      {
        if k > 0 {
          assert r.delays[k] == rest.delays[k - 1];
        }
      }
    }
  }

  /** The waits of a run that retries at most twice add up to at most 3000 ms. */
  lemma BackoffsTotal(k: nat)
    requires k < MaxRetries
    ensures Sum(Backoffs(k)) <= 3000
  {
    assert BackoffMs(0) == 1000 && BackoffMs(1) == 2000 by {
      assert Pow2(1) == 2;
    }
    var b := Backoffs(k);
    if k == 1 {
      assert b == [1000];
      assert Sum(b) == Sum([]) + 1000;
    } else if k == 2 {
      assert b == [1000, 2000];
      assert b[..1] == [1000];
      assert Sum(b[..1]) == Sum([]) + 1000;
    }
  }

  /** At most `MaxRetries` calls; the waits are 1000 ms and 2000 ms after the first and second
      failures, none after the last call, so at most 3000 ms in all. */
  lemma RetryBounds(upstream: nat -> Attempt)
    ensures var r := Retry(upstream);
      && 1 <= r.calls <= MaxRetries
      && r.delays == Backoffs(r.calls - 1)
      && Sum(r.delays) <= 3000
  {
    ScheduleFacts(upstream, 0);
    var r := Retry(upstream);
    assert r.delays == Backoffs(r.calls - 1);
    BackoffsTotal(r.calls - 1);
  }

  /** The loop stops at the first successful response and returns its body. */
  lemma RetryStopsAtFirstSuccess(upstream: nat -> Attempt)
    ensures var r := Retry(upstream);
      && (forall k :: 0 <= k < r.calls - 1 ==> !Succeeds(upstream(k)))
      && (r.result.Fetched? <==> Succeeds(upstream(r.calls - 1)))
      && (r.result.Fetched? ==> r.result.body == upstream(r.calls - 1).body)
  {
    ScheduleFacts(upstream, 0);
  }

  /** A response is obtained exactly when one of the three attempts succeeds. */
  lemma RetryFetchedIffSomeAttemptSucceeds(upstream: nat -> Attempt)
    ensures Retry(upstream).result.Fetched? <==> exists k :: 0 <= k < MaxRetries && Succeeds(upstream(k))
  {
    ScheduleFacts(upstream, 0);
    var r := Retry(upstream);
    if !r.result.Fetched? {
      assert r.calls == MaxRetries;
      forall k | 0 <= k < MaxRetries
        ensures !Succeeds(upstream(k))
      {
      }
    }
  }

  /** Every failure but the last is retried, whatever its status: an error escapes only after
      the third call, it is that call's error, and the post-loop error is never raised. */
  lemma RetryEscapesOnlyAfterLastAttempt(upstream: nat -> Attempt)
    ensures var r := Retry(upstream);
      r.result.Thrown? ==>
        && r.calls == MaxRetries
        && r.result.error == ErrorOf(upstream(MaxRetries - 1))
        && r.result.error != NoResponseAfterRetries
  {
    ScheduleFacts(upstream, 0);
  }

  /** An upstream that always answers 429 is called three times, then its 429 escapes. */
  lemma AlwaysRateLimited(upstream: nat -> Attempt, body: Body)
    requires forall k :: upstream(k) == Reply(429, body)
    ensures Retry(upstream) == Run(3, [1000, 2000], Thrown(FailedStatus(429)))
  {
    assert Schedule(upstream, 2) == Run(1, [], Thrown(FailedStatus(429)));
    assert Schedule(upstream, 1) == Run(2, [2000], Thrown(FailedStatus(429)));
  }

  /** Two 429 answers followed by a success: three calls, and the success's body. */
  lemma RateLimitedTwiceThenOk(upstream: nat -> Attempt, limited: Body, body: Body)
    requires upstream(0) == Reply(429, limited) && upstream(1) == Reply(429, limited)
    requires upstream(2) == Reply(200, body)
    ensures Retry(upstream) == Run(3, [1000, 2000], Fetched(body))
  {
    assert Schedule(upstream, 2) == Run(1, [], Fetched(body));
    assert Schedule(upstream, 1) == Run(2, [2000], Fetched(body));
  }

  /** A 403 on the first call is retried, not final: a success on the second call is returned. */
  lemma ForbiddenIsRetried(upstream: nat -> Attempt, denied: Body, body: Body)
    requires upstream(0) == Reply(403, denied) && upstream(1) == Reply(200, body)
    ensures Retry(upstream) == Run(2, [1000], Fetched(body))
  {
    assert Schedule(upstream, 1) == Run(1, [], Fetched(body));
  }

  /** An upstream that always answers 403 is called three times too. */
  lemma AlwaysForbidden(upstream: nat -> Attempt, body: Body)
    requires forall k :: upstream(k) == Reply(403, body)
    ensures Retry(upstream) == Run(3, [1000, 2000], Thrown(FailedStatus(403)))
  {
    assert Schedule(upstream, 2) == Run(1, [], Thrown(FailedStatus(403)));
    assert Schedule(upstream, 1) == Run(2, [2000], Thrown(FailedStatus(403)));
  }
}
