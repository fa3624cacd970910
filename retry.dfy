/**
 * The calls both programs make to the Azure management API to start (the
 * proxy) or stop (the player monitor) the container app: a cooldown on the
 * time of the last success, then at most three POST attempts with a sleep of
 * `1<<(attempt-1)` seconds before every attempt after the first. A 2xx or a
 * 409 is success, any other 4xx ends the loop, and everything else is tried
 * again; the two programs differ only in what a request that cannot be built
 * does (the proxy tries again, the monitor gives up at once).
 */
module AzureRetry {
  import opened GoBasics

  /** What one attempt produced. */
  datatype HttpOutcome =
    | RequestFailed                   // http.NewRequest failed
    | NetworkFailed                   // client.Do returned an error
    | Response(status: int, at: int)  // a response with this status, received when the clock read `at`

  /** A 2xx, or 409 (the app is already in the requested state). */
  predicate Accepted(status: int)
  {
    200 <= status < 300 || status == 409
  }

  /** A 4xx other than 409: retrying will not help. */
  predicate ClientRejected(status: int)
  {
    400 <= status < 500 && status != 409
  }

  const MaxAttempts: nat := 3

  function Pow2(k: nat): (r: nat)
    ensures r >= 1
  {
    if k == 0 then 1 else 2 * Pow2(k - 1)
  }

  /** The sleep before attempt number `attempt` (from 0) when it is not the first: `1<<(attempt-1)` seconds. */
  function Backoff(attempt: nat): int
    requires attempt > 0
  {
    Pow2(attempt - 1) * Second
  }

  /** The sleeps made in a loop that reaches `n` attempts: one before each attempt but the first. */
  function SleepsBefore(n: nat): (r: seq<int>)
    ensures |r| == if n == 0 then 0 else n - 1
    ensures forall k :: 0 <= k < |r| ==> r[k] == Backoff(k + 1)
  {
    if n <= 1 then [] else SleepsBefore(n - 1) + [Backoff(n - 1)]
  }

  /** A loop that uses all three attempts sleeps 1 s and then 2 s. */
  lemma AllAttemptsSleep()
    ensures SleepsBefore(MaxAttempts) == [Second, 2 * Second]
  {
    assert Backoff(2) == 2 * Second by {
      assert Pow2(1) == 2;
    }
  }

  /** How a retry loop ended. */
  datatype RetryEnd =
    | Succeeded(attempt: nat, at: int)       // accepted; the clock read `at`
    | ClientError(attempt: nat, status: int) // rejected with a 4xx other than 409: `break`
    | BuildError(attempt: nat)               // the monitor returns the request error
    | GaveUp                                 // all attempts used

  /** The attempt that ended the loop, or MaxAttempts when none did. */
  function Last(e: RetryEnd): nat
  {
    if e.GaveUp? then MaxAttempts else e.attempt
  }

  /** How many attempts the loop made. */
  function Attempts(e: RetryEnd): nat
  {
    if e.GaveUp? then MaxAttempts else e.attempt + 1
  }

  /**
   * Whether the loop goes on after outcome `o`; `buildErrorRetries` is the
   * proxy's `continue` on a request that cannot be built.
   */
  predicate Retries(o: HttpOutcome, buildErrorRetries: bool)
  {
    match o
    case RequestFailed => buildErrorRetries
    case NetworkFailed => true
    case Response(s, _) => !Accepted(s) && !ClientRejected(s)
  }

  /** The retry loop from attempt `attempt` on, where `respond(k)` is what attempt k produces. */
  function RetryFrom(respond: nat -> HttpOutcome, buildErrorRetries: bool, attempt: nat): (r: RetryEnd)
    requires attempt <= MaxAttempts
    ensures !r.GaveUp? ==> attempt <= r.attempt < MaxAttempts
    decreases MaxAttempts - attempt
  {
    if attempt == MaxAttempts then GaveUp
    else match respond(attempt)
      case RequestFailed =>
        if buildErrorRetries then RetryFrom(respond, buildErrorRetries, attempt + 1) else BuildError(attempt)
      case NetworkFailed => RetryFrom(respond, buildErrorRetries, attempt + 1)
      case Response(s, at) =>
        if Accepted(s) then Succeeded(attempt, at)
        else if ClientRejected(s) then ClientError(attempt, s)
        else RetryFrom(respond, buildErrorRetries, attempt + 1)
  }

  /**
   * What any end of the loop means: every attempt before the last one was
   * retried, and the last one's outcome is the reason the loop stopped.
   */
  lemma {:induction false} RetryFromEnds(respond: nat -> HttpOutcome, b: bool, attempt: nat)
    requires attempt <= MaxAttempts
    ensures var r := RetryFrom(respond, b, attempt);
            (forall j :: attempt <= j < Last(r) ==> Retries(respond(j), b)) &&
            (r.Succeeded? ==> respond(r.attempt) == Response(respond(r.attempt).status, r.at) &&
                              Accepted(respond(r.attempt).status)) &&
            (r.ClientError? ==> respond(r.attempt) == Response(r.status, respond(r.attempt).at) &&
                                ClientRejected(r.status)) &&
            (r.BuildError? ==> !b && respond(r.attempt) == RequestFailed)
    decreases MaxAttempts - attempt
  {
    if attempt < MaxAttempts && Retries(respond(attempt), b) {
      RetryFromEnds(respond, b, attempt + 1);
    }
  }

  /**
   * Conversely, the first attempt whose outcome is not retried ends the loop,
   * and a loop in which every outcome is retried gives up after all three.
   */
  lemma {:induction false} FirstDecisiveAttempt(respond: nat -> HttpOutcome, b: bool, attempt: nat, k: nat)
    requires attempt <= k <= MaxAttempts
    requires forall j :: attempt <= j < k ==> Retries(respond(j), b)
    requires k < MaxAttempts ==> !Retries(respond(k), b)
    ensures Last(RetryFrom(respond, b, attempt)) == k
    decreases k - attempt
  {
    if attempt < k {
      FirstDecisiveAttempt(respond, b, attempt + 1, k);
    }
  }

  /** Go's `time.Since(last) < cooldown`; the zero time (None) is never within a cooldown. */
  predicate CoolingDown(last: Option<int>, now: int, cooldown: int)
  {
    last.Some? && now - last.value < cooldown
  }
}
