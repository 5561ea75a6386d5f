/** The retry loop shared by both scrapers' fetch_html: up to `max_retries`
    calls to urlopen, stopping at the first page received or at an HTTP status
    that is not worth retrying. The network is abstracted as the outcome of
    each numbered attempt; sleeping and rate limiting are not modelled. */
module Fetching {
  import opened Base

  /** What one call to urlopen produced. */
  datatype Attempt =
    | Fetched(content: string)
    | HttpError(code: int)
    | UrlError
    | Timeout
    | OtherError

  /** Statuses after which fetch_html gives up at once. */
  predicate IsFatalStatus(code: int) {
    code == 404 || code == 410 || code == 403
  }

  /** An attempt that ends the loop: a page, or a fatal HTTP status. */
  predicate EndsLoop(a: Attempt) {
    a.Fetched? || (a.HttpError? && IsFatalStatus(a.code))
  }

  /** The promise of the retry loop: `attempts` calls were made, never more
      than `maxRetries`; every call but the last failed in a retriable way; the
      loop stopped early only on a page or a fatal status; the content is the
      page of the last call, if that call received one. */
  ghost predicate FetchOutcome(maxRetries: int, attempt: nat -> Attempt,
                               content: Option<string>, attempts: nat)
  {
    && attempts <= (if maxRetries < 0 then 0 else maxRetries)
    && (maxRetries > 0 ==> attempts >= 1)
    && (forall k :: 0 <= k < attempts - 1 ==> !EndsLoop(attempt(k)))
    && (0 < attempts < maxRetries ==> EndsLoop(attempt(attempts - 1)))
    && (content.Some? <==> attempts > 0 && attempt(attempts - 1).Fetched?)
    && (content.Some? ==> content.value == attempt(attempts - 1).content)
  }

  /** The outcome of the loop from call `k` on: the content received, if any,
      and the number of calls made in all. */
  function Retry(maxRetries: int, attempt: nat -> Attempt, k: nat): (Option<string>, nat)
    decreases maxRetries - k
  {
    if k >= maxRetries then (None, k)
    else match attempt(k)
      case Fetched(c) => (Some(c), k + 1)
      case HttpError(code) =>
        if IsFatalStatus(code) then (None, k + 1) else Retry(maxRetries, attempt, k + 1)
      case _ => Retry(maxRetries, attempt, k + 1)
  }

  /** Run from the first call, the loop keeps the promise of FetchOutcome. */
  lemma {:induction false} RetryKeepsPromise(maxRetries: int, attempt: nat -> Attempt, k: nat)
    requires k <= (if maxRetries < 0 then 0 else maxRetries)
    requires forall j :: 0 <= j < k ==> !EndsLoop(attempt(j))
    ensures FetchOutcome(maxRetries, attempt, Retry(maxRetries, attempt, k).0, Retry(maxRetries, attempt, k).1)
    decreases maxRetries - k
  {
    if k < maxRetries && !EndsLoop(attempt(k)) {
      RetryKeepsPromise(maxRetries, attempt, k + 1);
    }
  }

  /** The while loop of fetch_html; `attempt(k)` is the outcome of call k. */
  method RetryFetch(maxRetries: int, attempt: nat -> Attempt) returns (content: Option<string>, attempts: nat)
    ensures (content, attempts) == Retry(maxRetries, attempt, 0)
    ensures FetchOutcome(maxRetries, attempt, content, attempts)
  {
    RetryKeepsPromise(maxRetries, attempt, 0);
    content := None;
    attempts := 0;
    var retries := 0;
    while retries < maxRetries
      invariant 0 <= retries <= (if maxRetries < 0 then 0 else maxRetries)
      invariant attempts == retries
      invariant Retry(maxRetries, attempt, retries) == Retry(maxRetries, attempt, 0)
    {
      var outcome := attempt(retries);
      attempts := attempts + 1;
      if outcome.Fetched? {
        content := Some(outcome.content);
        return;
      }
      if outcome.HttpError? && IsFatalStatus(outcome.code) {
        break;
      }
      retries := retries + 1;
    }
  }

  /** When every call fails in a retriable way, exactly `maxRetries` calls are
      made and nothing is returned. */
  lemma AllFailuresExhaustRetries(maxRetries: int, attempt: nat -> Attempt,
                                  content: Option<string>, attempts: nat)
    requires FetchOutcome(maxRetries, attempt, content, attempts)
    requires forall k :: !EndsLoop(attempt(k))
    ensures content.None?
    ensures attempts == if maxRetries < 0 then 0 else maxRetries
  {
  }

  /** A fatal status on the first call stops the loop after that call. */
  lemma FatalFirstCallStops(maxRetries: int, attempt: nat -> Attempt,
                            content: Option<string>, attempts: nat)
    requires FetchOutcome(maxRetries, attempt, content, attempts)
    requires maxRetries > 0 && attempt(0).HttpError? && IsFatalStatus(attempt(0).code)
    ensures content.None? && attempts == 1
  {
  }
}
