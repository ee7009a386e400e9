/** The bounded retry loop of `_request` (mygengo.py:160-178). The network is a
    script: `transport(i)` is what the i-th attempt (counting from 0) produces. */
module Retry {
  import opened Outcomes
  import opened Errors

  /** `Client.NUM_TRIES` (mygengo.py:80). */
  const NUM_TRIES: nat := 3
  /** `Client.TIME_BETWEEN_TRIES`, 5.0 s (mygengo.py:81), in milliseconds. */
  const TIME_BETWEEN_TRIES_MS: nat := 5000

  /** What one `urllib2.urlopen(request).read()` produced. */
  datatype Attempt =
    | Delivered(body: string)
    | HttpFailure(status: int)
    | IoFailure(cause: string)

  /** "Service temporarily unavailable": the statuses worth another try. */
  predicate Retryable(status: int) {
    status == 500 || status == 503
  }

  /** An attempt the loop answers with a sleep and another try, if tries remain. */
  predicate RetriedOn(a: Attempt) {
    a.HttpFailure? && Retryable(a.status)
  }

  /** How the loop ends on an attempt it does not retry. */
  function Settle(a: Attempt): Result<string, Error>
  {
    match a
    case Delivered(body) => Success(body)
    case HttpFailure(status) => Failure(HttpError(status))
    case IoFailure(cause) => Failure(ConnectionError(CONNECTION_ERROR_CODE, cause))
  }

  /** Outcome of a run of the loop: the body or the raised error, how many attempts
      were made and how many times it slept. */
  datatype Run = Run(result: Result<string, Error>, attempts: nat, sleeps: nat)

  /** The loop from attempt `made` on, with `numTries` tries left before it. */
  function RunFrom(transport: nat -> Attempt, made: nat, numTries: nat): Run
    requires numTries > 0
    decreases numTries
  {
    var left := numTries - 1;
    match transport(made)
    case Delivered(body) => Run(Success(body), made + 1, made)
    case HttpFailure(status) =>
      if Retryable(status) && left > 0 then RunFrom(transport, made + 1, left)
      else Run(Failure(HttpError(status)), made + 1, made)
    case IoFailure(cause) =>
      Run(Failure(ConnectionError(CONNECTION_ERROR_CODE, cause)), made + 1, made)
  }

  /** The whole loop, starting with `num_tries = NUM_TRIES`. */
  function Retries(transport: nat -> Attempt): Run
  {
    RunFrom(transport, 0, NUM_TRIES)
  }

  /** The loop, step by step as the source runs it. */
  method SendWithRetry(transport: nat -> Attempt)
    returns (result: Result<string, Error>, attempts: nat, sleeps: nat)
    ensures Run(result, attempts, sleeps) == Retries(transport)
    ensures 1 <= attempts <= NUM_TRIES && sleeps == attempts - 1
  {
    var numTries := NUM_TRIES;
    attempts, sleeps := 0, 0;
    while numTries > 0
      invariant 0 < numTries && attempts + numTries == NUM_TRIES && sleeps == attempts
      invariant RunFrom(transport, attempts, numTries) == Retries(transport)
      decreases numTries
    {
      numTries := numTries - 1;
      var outcome := transport(attempts);
      attempts := attempts + 1;
      match outcome {
        case Delivered(body) =>
          result := Success(body);
          return;
        case HttpFailure(status) =>
          if !(Retryable(status) && numTries > 0) {
            result := Failure(HttpError(status));
            return;
          }
        case IoFailure(cause) =>
          result := Failure(ConnectionError(CONNECTION_ERROR_CODE, cause));
          return;
      }
      sleeps := sleeps + 1;
    }
    assert false;
  }

  /** Every run makes between one and `numTries` attempts and sleeps once between
      consecutive attempts. */
  lemma {:induction false} RunBounds(transport: nat -> Attempt, made: nat, numTries: nat)
    requires numTries > 0
    ensures var run := RunFrom(transport, made, numTries);
            made < run.attempts <= made + numTries && run.sleeps == run.attempts - 1
    decreases numTries
  {
    if RetriedOn(transport(made)) && numTries > 1 {
      RunBounds(transport, made + 1, numTries - 1);
    }
  }

  /** The loop stops on attempt `k` exactly when every earlier attempt was a 500/503
      and attempt `k` is either not one or the last try; the run then ends as `k` does. */
  lemma {:induction false} RunStopsAt(transport: nat -> Attempt, made: nat, numTries: nat, k: nat)
    requires numTries > 0 && made <= k < made + numTries
    requires forall j :: made <= j < k ==> RetriedOn(transport(j))
    requires k == made + numTries - 1 || !RetriedOn(transport(k))
    ensures RunFrom(transport, made, numTries) == Run(Settle(transport(k)), k + 1, k)
    decreases numTries
  {
    if k > made {
      assert RetriedOn(transport(made));
      RunStopsAt(transport, made + 1, numTries - 1, k);
    }
  }

  /** Whole-loop form of `RunStopsAt`. */
  lemma RetriesStopAt(transport: nat -> Attempt, k: nat)
    requires k < NUM_TRIES
    requires forall j :: 0 <= j < k ==> RetriedOn(transport(j))
    requires k == NUM_TRIES - 1 || !RetriedOn(transport(k))
    ensures Retries(transport) == Run(Settle(transport(k)), k + 1, k)
  {
    RunStopsAt(transport, 0, NUM_TRIES, k);
  }

  /** The first delivered body ends the loop, after at most two retried outages. */
  lemma StopsAtFirstSuccess(transport: nat -> Attempt, k: nat)
    requires k < NUM_TRIES && transport(k).Delivered?
    requires forall j :: 0 <= j < k ==> RetriedOn(transport(j))
    ensures Retries(transport) == Run(Success(transport(k).body), k + 1, k)
  {
    RetriesStopAt(transport, k);
  }

  /** A status other than 500/503 is raised on the attempt that received it. */
  lemma OtherStatusRaisedAtOnce(transport: nat -> Attempt, k: nat)
    requires k < NUM_TRIES && transport(k).HttpFailure? && !Retryable(transport(k).status)
    requires forall j :: 0 <= j < k ==> RetriedOn(transport(j))
    ensures Retries(transport) == Run(Failure(HttpError(transport(k).status)), k + 1, k)
  {
    RetriesStopAt(transport, k);
  }

  /** A connection failure becomes `ConnectionError(-1, ...)` and is not retried. */
  lemma ConnectionFailureNotRetried(transport: nat -> Attempt, k: nat)
    requires k < NUM_TRIES && transport(k).IoFailure?
    requires forall j :: 0 <= j < k ==> RetriedOn(transport(j))
    ensures Retries(transport)
            == Run(Failure(ConnectionError(CONNECTION_ERROR_CODE, transport(k).cause)), k + 1, k)
  {
    RetriesStopAt(transport, k);
  }

  /** Three 500/503 answers in a row: the third is raised, after two sleeps. */
  lemma ThirdOutageRaised(transport: nat -> Attempt)
    requires RetriedOn(transport(0)) && RetriedOn(transport(1)) && RetriedOn(transport(2))
    ensures Retries(transport) == Run(Failure(HttpError(transport(2).status)), 3, 2)
  {
    RetriesStopAt(transport, 2);
  }
}
