/**
 * The error boundary around API-backed views: it catches a render error,
 * offers up to three retries with exponential back-off, and a reset.
 * The delay is a number the handler waits for; the wait itself is the gap
 * between `BeginRetry` and `FinishRetry`.
 */
module ApiErrorBoundary {
  import opened Wrappers
  import opened Text

  const MaxRetries := 3

  function Pow2(n: nat): (r: nat)
    ensures r >= 1
  {
    if n == 0 then 1 else 2 * Pow2(n - 1)
  }

  /** The back-off before retry `count + 1`: 2^count seconds, doubling each time. */
  function RetryDelay(count: nat): (r: nat)
    ensures r >= 1000
    ensures count == 0 ==> r == 1000
    ensures count > 0 ==> r == 2 * RetryDelay(count - 1)
  {
    Pow2(count) * 1000
  }

  /** The three delays the boundary can wait: one, two and four seconds. */
  lemma RetryDelays()
    ensures RetryDelay(0) == 1000 && RetryDelay(1) == 2000 && RetryDelay(2) == 4000
  {
  }

  /** The fallback panel: its sentence and, while retries remain, the retry button's label. */
  datatype Fallback = Fallback(message: string, retryLabel: Option<string>)

  /**
   * `render`: the fallback exactly when an error is held and no retry is in
   * progress (the children otherwise); a retry button exactly while fewer than
   * three retries were made, with the remaining count once one was made.
   */
  function View(hasError: bool, isRetrying: bool, retryCount: nat): (r: Option<Fallback>)
    ensures r.Some? <==> hasError && !isRetrying
    ensures r.Some? ==> (r.value.retryLabel.Some? <==> retryCount < MaxRetries)
    ensures r.Some? ==> (r.value.message == "We encountered an error while loading data. "
      + (if retryCount < MaxRetries then "Please try again." else "Maximum retries reached."))
    ensures r.Some? && retryCount == 0 ==> r.value.retryLabel == Some("Try Again")
    ensures r.Some? && 0 < retryCount < MaxRetries ==> (
      r.value.retryLabel == Some("Try Again (" + NatToString(MaxRetries - retryCount) + " left)"))
  {
    if !hasError || isRetrying then None
    else
      var canRetry := retryCount < MaxRetries;
      var message := "We encountered an error while loading data. "
        + (if canRetry then "Please try again." else "Maximum retries reached.");
      if !canRetry then Some(Fallback(message, None))
      else if retryCount == 0 then Some(Fallback(message, Some("Try Again")))
      else Some(Fallback(message, Some("Try Again (" + NatToString(MaxRetries - retryCount) + " left)")))
  }

  /** The labels the retry button takes: no suffix, two left, one left, then no button. */
  lemma RetryLabels()
    ensures View(true, false, 0).value.retryLabel == Some("Try Again")
    ensures View(true, false, 1).value.retryLabel == Some("Try Again (2 left)")
    ensures View(true, false, 2).value.retryLabel == Some("Try Again (1 left)")
    ensures View(true, false, 3).value.retryLabel.None?
  {
    assert NatToString(2) == "2" && NatToString(1) == "1";
    assert "Try Again (" + "2" + " left)" == "Try Again (2 left)";
    assert "Try Again (" + "1" + " left)" == "Try Again (1 left)";
  }

  class Boundary {
    var hasError: bool
    var error: Option<string>
    var errorInfo: Option<string>
    var isRetrying: bool
    var retryCount: nat

    /** At most three retries are ever made, and one is begun only while fewer were. */
    predicate Valid()
      reads this
    {
      retryCount <= MaxRetries && (isRetrying ==> retryCount < MaxRetries)
    }

    constructor ()
      ensures Valid()
      ensures !hasError && error.None? && errorInfo.None? && !isRetrying && retryCount == 0
    {
      hasError, error, errorInfo, isRetrying, retryCount := false, None, None, false, 0;
    }

    /** `getDerivedStateFromError` and `componentDidCatch`: the error and its details are held. */
    method Catch(e: string, info: string)
      requires Valid()
      modifies this
      ensures Valid()
      ensures hasError && error == Some(e) && errorInfo == Some(info)
      ensures isRetrying == old(isRetrying) && retryCount == old(retryCount)
    {
      hasError, error, errorInfo := true, Some(e), Some(info);
    }

    /**
     * The first half of `handleRetry`, run from the retry button of the
     * fallback: nothing once three retries were made; otherwise the retry is
     * in progress and the back-off to wait is returned.
     */
    method BeginRetry() returns (delay: Option<nat>)
      requires Valid() && hasError && !isRetrying
      modifies this
      ensures Valid()
      ensures old(retryCount) >= MaxRetries ==> delay.None? && !isRetrying
      ensures old(retryCount) < MaxRetries ==> delay == Some(RetryDelay(old(retryCount))) && isRetrying
      ensures hasError == old(hasError) && error == old(error) && errorInfo == old(errorInfo)
      ensures retryCount == old(retryCount)
    {
      if retryCount >= MaxRetries {
        return None;
      }
      isRetrying := true;
      delay := Some(RetryDelay(retryCount));
    }

    /** The second half of `handleRetry`, after the wait: the error is cleared and one more retry counted. */
    method FinishRetry()
      requires Valid() && isRetrying
      modifies this
      ensures Valid()
      ensures !hasError && error.None? && errorInfo.None? && !isRetrying
      ensures retryCount == old(retryCount) + 1
    {
      isRetrying, hasError, error, errorInfo := false, false, None, None;
      retryCount := retryCount + 1;
    }

    /** `handleReset`: everything back to the initial state, including the retry count. */
    method Reset()
      modifies this
      ensures Valid()
      ensures !hasError && error.None? && errorInfo.None? && !isRetrying && retryCount == 0
    {
      hasError, error, errorInfo, isRetrying, retryCount := false, None, None, false, 0;
    }
  }
}
