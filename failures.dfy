/**
 * The failures the polling client sees and raises (client/client.py),
 * and the classifier `_should_retry` that splits them into retryable and fatal.
 */
module Failures {

  /** An exception raised by a transport call or by decoding its response. */
  datatype Exc =
    | HttpError(code: int)  // an HTTP error response, raised by raise_for_status
    | ConnError             // a connection failure
    | TimeoutErr            // the transport's own time-out
    | OtherRequestErr       // any other exception of the HTTP library's hierarchy
    | NonRequestErr         // an exception outside that hierarchy (a missing JSON key, ...)

  /** True for the exceptions of the HTTP library's hierarchy. */
  predicate IsRequestException(e: Exc)
  {
    !e.NonRequestErr?
  }

  /** `_should_retry`: server errors, connection failures and time-outs are retryable. */
  function ShouldRetry(e: Exc): (r: bool)
    ensures r <==> (e.HttpError? && 500 <= e.code < 600) || e == ConnError || e == TimeoutErr
    ensures e.HttpError? && 400 <= e.code < 500 ==> !r
    ensures !IsRequestException(e) ==> !r
  {
    if IsRequestException(e) then
      if e.HttpError? then 500 <= e.code < 600
      else e == ConnError || e == TimeoutErr
    else
      false
  }

  /** What a client operation raises to its caller. */
  datatype Failure =
    | Raised(exc: Exc)              // the transport's or decoder's exception, re-raised unchanged
    | Retryable(cause: Exc)         // RetryableError, raised from a retryable transport exception
    | BreakerRejected               // RuntimeError: the circuit breaker is open
    | JobErrorStatus                // RuntimeError: the job reported the error status
    | MaxRetriesExceeded(cause: Exc) // RuntimeError: the retry budget is spent
    | Deadline                      // TimeoutError: the overall time-out has passed
    | NegativeSleep                 // ValueError from sleeping for a negative interval
}
