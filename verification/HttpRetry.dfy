/**
 * The HTTP POST client with exponential backoff (libs/http-retry).
 *
 * The network is an unknown stream of replies, one per call, and the jitter an unknown stream
 * of numbers below 200.  `Decide` says what a call to `post` does once it has seen a given
 * trace of replies; the loop is proved to follow it.
 */
module HttpRetry {
  import opened Wrappers
  import opened Collections

  /** What a caught value exposes to the two classifiers: `response.status`, and `code` on an Error. */
  datatype CallError = CallError(status: Option<int>, isError: bool, code: Option<string>)

  datatype Reply = Success(data: string) | Failure(err: CallError)

  /** Everything a caller of `post` distinguishes with `instanceof`. */
  datatype Thrown =
    | DispatchFailed(attempts: nat, cause: Option<CallError>, lastStatus: Option<int>)
    | NonRetryable(status: int)
    | OtherError

  datatype Outcome = Returned(data: string) | Threw(error: Thrown)

  datatype Decision = Continue | Stop(outcome: Outcome)

  const RETRYABLE_STATUS_CODES: set<int> := {429, 500, 502, 503, 504}

  const RETRYABLE_NETWORK_CODES: set<string> :=
    {"ECONNREFUSED", "ECONNRESET", "ETIMEDOUT", "ENOTFOUND", "ECONNABORTED", "ERR_NETWORK"}

  predicate IsRetryableNetworkError(err: CallError) {
    err.isError && err.code.Some? && err.code.value in RETRYABLE_NETWORK_CODES
  }

  /**
   * What a retry may fix, in the terms of the documentation: 429 and the 5xx of an overloaded or
   * restarting server, and without a status one of six network errors.
   */
  predicate IsRetryable(reply: Reply) {
    reply.Failure? &&
    match reply.err.status
    case Some(status) => status == 429 || status == 500 || status == 502 || status == 503 || status == 504
    case None =>
      reply.err.isError && reply.err.code.Some? &&
      var code := reply.err.code.value;
      || code == "ECONNREFUSED" || code == "ECONNRESET" || code == "ETIMEDOUT"
      || code == "ENOTFOUND" || code == "ECONNABORTED" || code == "ERR_NETWORK"
  }

  lemma Classified(err: CallError)
    ensures IsRetryable(Failure(err)) <==>
              if err.status.Some? then err.status.value in RETRYABLE_STATUS_CODES else IsRetryableNetworkError(err)
  {
  }

  /** The latest HTTP status in a trace, if any reply carried one. */
  function MostRecentStatus(trace: seq<Reply>): (r: Option<int>)
    ensures r.None? <==> forall i :: 0 <= i < |trace| ==> NoStatus(trace[i])
  {
    if trace == [] then None
    else
      var last := trace[|trace| - 1];
      if last.Failure? && last.err.status.Some? then last.err.status
      else MostRecentStatus(trace[..|trace| - 1])
  }

  /** It is the status of a reply after which no other carried one. */
  lemma {:induction false} MostRecentStatusIsLast(trace: seq<Reply>) returns (i: nat)
    requires MostRecentStatus(trace).Some?
    ensures i < |trace| && trace[i].Failure? && trace[i].err.status == MostRecentStatus(trace)
    ensures forall j :: i < j < |trace| ==> NoStatus(trace[j])
  {
    i := |trace| - 1;
    if NoStatus(trace[i]) {
      i := MostRecentStatusIsLast(trace[..i]);
    }
  }

  predicate NoStatus(reply: Reply) {
    reply.Success? || reply.err.status.None?
  }

  /** The state of a call that has seen exactly `trace`, all of it retryable but perhaps the last reply. */
  function Decide(trace: seq<Reply>, attempts: nat): Decision {
    if trace == [] then
      if attempts == 0 then Stop(Threw(DispatchFailed(0, None, None))) else Continue
    else
      match trace[|trace| - 1]
      case Success(data) => Stop(Returned(data))
      case Failure(err) =>
        if !IsRetryable(trace[|trace| - 1]) then
          match err.status
          case Some(status) => Stop(Threw(NonRetryable(status)))
          case None => Stop(Threw(DispatchFailed(|trace|, Some(err), None)))
        else if |trace| >= attempts then
          Stop(Threw(DispatchFailed(attempts, Some(err), MostRecentStatus(trace))))
        else Continue
  }

  ghost function Prefix<T>(stream: nat -> T, n: nat): seq<T> {
    seq(n, i requires 0 <= i => stream(i))
  }

  function Pow2(n: nat): nat {
    if n == 0 then 1 else 2 * Pow2(n - 1)
  }

  function ComputeDelay(attempt: nat, baseDelayMs: nat, maxDelayMs: nat, jitter: nat): nat {
    Min(baseDelayMs * Pow2(attempt) + jitter, maxDelayMs)
  }

  function Sum(s: seq<nat>): nat {
    if s == [] then 0 else Sum(s[..|s| - 1]) + s[|s| - 1]
  }

  /**
   * The retry loop.  It makes exactly as many calls as it takes for `Decide` to stop, never
   * more than `attempts`, and sleeps once between consecutive calls.
   */
  method Post(replies: nat -> Reply, jitter: nat -> nat, attempts: nat, baseDelayMs: nat, maxDelayMs: nat)
    returns (outcome: Outcome, calls: nat, sleeps: seq<nat>)
    ensures calls <= attempts && (attempts >= 1 ==> calls >= 1)
    ensures Decide(Prefix(replies, calls), attempts) == Stop(outcome)
    ensures forall k :: 0 <= k < calls ==> Decide(Prefix(replies, k), attempts) == Continue
    ensures forall k :: 0 <= k < calls - 1 ==> IsRetryable(replies(k))
    ensures |sleeps| == if calls == 0 then 0 else calls - 1
    ensures forall k :: 0 <= k < |sleeps| ==> sleeps[k] == ComputeDelay(k, baseDelayMs, maxDelayMs, jitter(k))
  {
    hide IsRetryable, IsRetryableNetworkError;
    var lastError: Option<CallError> := None;
    var lastStatusCode: Option<int> := None;
    calls, sleeps := 0, [];

    for attempt := 0 to attempts
      invariant calls == attempt == |sleeps|
      invariant attempt < attempts || attempts == 0
      invariant attempt == 0 ==> lastError.None?
      invariant forall k :: 0 <= k < attempt ==> IsRetryable(replies(k))
      invariant forall k :: 0 <= k <= attempt && k < attempts ==> Decide(Prefix(replies, k), attempts) == Continue
      invariant lastStatusCode == MostRecentStatus(Prefix(replies, attempt))
      invariant forall k :: 0 <= k < |sleeps| ==> sleeps[k] == ComputeDelay(k, baseDelayMs, maxDelayMs, jitter(k))
    {
      var reply := replies(attempt);
      calls := attempt + 1;
      assert Prefix(replies, calls)[..attempt] == Prefix(replies, attempt);
      if reply.Success? {
        outcome := Returned(reply.data);
        return;
      }
      lastError := Some(reply.err);
      Classified(reply.err);
      var statusCode := reply.err.status;
      if statusCode.Some? {
        lastStatusCode := statusCode;
        if statusCode.value !in RETRYABLE_STATUS_CODES {
          outcome := Threw(NonRetryable(statusCode.value));
          return;
        }
      } else if !IsRetryableNetworkError(reply.err) {
        outcome := Threw(DispatchFailed(attempt + 1, Some(reply.err), None));
        return;
      }
      if attempt == attempts - 1 {
        ghost var thrown := Threw(DispatchFailed(attempts, lastError, lastStatusCode));
        assert Decide(Prefix(replies, calls), attempts) == Stop(thrown);
        break;
      }
      sleeps := sleeps + [ComputeDelay(attempt, baseDelayMs, maxDelayMs, jitter(attempt))];
    }
    if attempts == 0 {
      assert Prefix(replies, calls) == [];
    }
    outcome := Threw(DispatchFailed(attempts, lastError, lastStatusCode));
  }

  /**
   * The outcome by the last reply: its data after a success; the status if no retry can fix it;
   * a failed dispatch otherwise, with the most recent status if it was the attempts that ran out.
   */
  lemma OutcomeByLastReply(replies: nat -> Reply, attempts: nat, calls: nat, outcome: Outcome)
    requires calls <= attempts && Decide(Prefix(replies, calls), attempts) == Stop(outcome)
    ensures calls < attempts ==> !IsRetryable(replies(calls - 1))
    ensures calls == 0 ==> outcome == Threw(DispatchFailed(0, None, None))
    ensures calls > 0 ==>
              match replies(calls - 1)
              case Success(data) => outcome == Returned(data)
              case Failure(err) =>
                if IsRetryable(replies(calls - 1)) then
                  outcome == Threw(DispatchFailed(attempts, Some(err), MostRecentStatus(Prefix(replies, calls))))
                else if err.status.Some? then outcome == Threw(NonRetryable(err.status.value))
                else outcome == Threw(DispatchFailed(calls, Some(err), None))
  {
  }

  /** `post` throws its own two error types and nothing else. */
  lemma ThrowsOnlyItsOwnErrors(trace: seq<Reply>, attempts: nat, outcome: Outcome)
    requires Decide(trace, attempts) == Stop(outcome)
    ensures outcome != Threw(OtherError)
  {
  }

  /** At most one number of calls is consistent with the contract of `Post`: the outcome is determined. */
  lemma OutcomeIsDetermined(replies: nat -> Reply, attempts: nat, m: nat, n: nat)
    requires Decide(Prefix(replies, m), attempts).Stop? && Decide(Prefix(replies, n), attempts).Stop?
    requires forall k :: 0 <= k < m ==> Decide(Prefix(replies, k), attempts) == Continue
    requires forall k :: 0 <= k < n ==> Decide(Prefix(replies, k), attempts) == Continue
    ensures m == n
  {
  }

  /**
   * A DispatchFailedError carries the most recent HTTP status seen, except that the early exit
   * on an unknown network error drops it: it is right exactly when that exit was not taken or
   * no earlier reply had a status.
   */
  lemma ReportsMostRecentStatusIff(trace: seq<Reply>, attempts: nat, outcome: Outcome)
    requires trace != [] && Decide(trace, attempts) == Stop(outcome) && outcome.Threw? && outcome.error.DispatchFailed?
    ensures outcome.error.lastStatus == MostRecentStatus(trace)
       <==> (IsRetryable(trace[|trace| - 1]) || MostRecentStatus(trace[..|trace| - 1]).None?)
  {
  }

  /** A 503 followed by a request timeout (an error with no code) reports no status at all. */
  lemma DroppedStatusExample()
    ensures
      var trace := [Failure(CallError(Some(503), true, None)), Failure(CallError(None, true, None))];
      Decide(trace[..1], 3) == Continue &&
      Decide(trace, 3) == Stop(Threw(DispatchFailed(2, Some(trace[1].err), None))) &&
      MostRecentStatus(trace) == Some(503)
  {
    var trace := [Failure(CallError(Some(503), true, None)), Failure(CallError(None, true, None))];
    assert trace[..1] == [trace[0]];
    assert MostRecentStatus([trace[0]]) == Some(503);
  }

  lemma {:induction false} Pow2Grows(k: nat)
    ensures Pow2(k) >= 1
  {
    if k > 0 {
      Pow2Grows(k - 1);
    }
  }

  predicate InOrder(k: nat, j0: nat, j1: nat, baseDelayMs: nat, maxDelayMs: nat) {
    ComputeDelay(k, baseDelayMs, maxDelayMs, j0) <= ComputeDelay(k + 1, baseDelayMs, maxDelayMs, j1)
  }

  ghost predicate NeverDecrease(baseDelayMs: nat, maxDelayMs: nat) {
    forall k: nat, j0: nat, j1: nat :: j0 < 200 && j1 < 200 ==> InOrder(k, j0, j1, baseDelayMs, maxDelayMs)
  }

  lemma ConsecutiveDelays(k: nat, j0: nat, j1: nat, baseDelayMs: nat, maxDelayMs: nat)
    requires j0 < 200 && j1 < 200
    requires baseDelayMs >= 199 || maxDelayMs <= 2 * baseDelayMs
    ensures InOrder(k, j0, j1, baseDelayMs, maxDelayMs)
  {
    Pow2Grows(k);
    Doubling(baseDelayMs, Pow2(k));
    assert Pow2(k + 1) == 2 * Pow2(k);
  }

  lemma Doubling(base: nat, p: nat)
    requires p >= 1
    ensures base * p >= base && base * (2 * p) == 2 * (base * p)
  {
  }

  /** Whatever the jitter, delays never decrease exactly when the base outgrows it or the cap hides it. */
  lemma DelaysNeverDecreaseIff(baseDelayMs: nat, maxDelayMs: nat)
    ensures NeverDecrease(baseDelayMs, maxDelayMs) <==> (baseDelayMs >= 199 || maxDelayMs <= 2 * baseDelayMs)
  {
    if baseDelayMs >= 199 || maxDelayMs <= 2 * baseDelayMs {
      forall k: nat, j0: nat, j1: nat | j0 < 200 && j1 < 200
        ensures InOrder(k, j0, j1, baseDelayMs, maxDelayMs)
      {
        ConsecutiveDelays(k, j0, j1, baseDelayMs, maxDelayMs);
      }
    } else {
      assert Pow2(0) == 1 && Pow2(1) == 2;
      assert !InOrder(0, 199, 0, baseDelayMs, maxDelayMs);
    }
  }

  /**
   * The backoff is exponential: below the cap the first delay is the base, each next one is
   * twice the last, jitter comes on top, and the cap is the largest delay.
   */
  lemma BackoffDoubles(k: nat, baseDelayMs: nat, maxDelayMs: nat, jitter: nat)
    ensures ComputeDelay(0, baseDelayMs, maxDelayMs, 0) == if baseDelayMs < maxDelayMs then baseDelayMs else maxDelayMs
    ensures var delay := ComputeDelay(k, baseDelayMs, maxDelayMs, 0);
            && (2 * delay <= maxDelayMs ==> ComputeDelay(k + 1, baseDelayMs, maxDelayMs, 0) == 2 * delay)
            && (2 * delay > maxDelayMs ==> ComputeDelay(k + 1, baseDelayMs, maxDelayMs, 0) == maxDelayMs)
            && ComputeDelay(k, baseDelayMs, maxDelayMs, jitter) ==
                 if delay + jitter < maxDelayMs then delay + jitter else maxDelayMs
  {
    Pow2Grows(k);
    Doubling(baseDelayMs, Pow2(k));
    assert Pow2(k + 1) == 2 * Pow2(k);
  }

  lemma GeometricStep(base: nat, n: nat)
    ensures base * (Pow2(n) - 1) + base * Pow2(n) == base * (Pow2(n + 1) - 1)
  {
    Pow2Grows(n);
    Pow2Grows(n + 1);
    var p := Pow2(n);
    assert Pow2(n + 1) == 2 * p;
    assert base * (p - 1) + base * p == base * (2 * p - 1);
  }

  /** Total sleep is bounded by the geometric series plus the jitter. */
  lemma {:induction false} TotalSleepWithinSeries(sleeps: seq<nat>, jitter: nat -> nat, baseDelayMs: nat,
                                                  maxDelayMs: nat)
    requires forall k :: 0 <= k < |sleeps| ==>
               jitter(k) < 200 && sleeps[k] == ComputeDelay(k, baseDelayMs, maxDelayMs, jitter(k))
    ensures Sum(sleeps) <= baseDelayMs * (Pow2(|sleeps|) - 1) + 199 * |sleeps|
  {
    if sleeps != [] {
      var n := |sleeps| - 1;
      TotalSleepWithinSeries(sleeps[..n], jitter, baseDelayMs, maxDelayMs);
      GeometricStep(baseDelayMs, n);
    }
  }

  /** Total sleep is bounded by the cap on each delay. */
  lemma {:induction false} TotalSleepWithinCap(sleeps: seq<nat>, jitter: nat -> nat, baseDelayMs: nat, maxDelayMs: nat)
    requires forall k :: 0 <= k < |sleeps| ==> sleeps[k] == ComputeDelay(k, baseDelayMs, maxDelayMs, jitter(k))
    ensures Sum(sleeps) <= |sleeps| * maxDelayMs
  {
    if sleeps != [] {
      var n := |sleeps| - 1;
      TotalSleepWithinCap(sleeps[..n], jitter, baseDelayMs, maxDelayMs);
      assert (n + 1) * maxDelayMs == n * maxDelayMs + maxDelayMs;
    }
  }
}
