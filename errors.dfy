/** The errors the Pub/Sub input handles, and the chain test errors.Is(err,
    context.Canceled) that the watchdog applies to them
    (x-pack/filebeat/input/gcppubsub/input.go). */
module Errors {

  /** An error value. The client library's own errors are opaque; the
      input's wrappers keep their cause, as Go's %w does. */
  datatype Error =
    | Canceled                                          // context.Canceled
    | Remote(code: int)                                 // an error from the client library or the network
    | ExistsCheckFailed(cause: Error)                   // "failed to check if subscription exists: %w"
    | CreateFailed(cause: Error)                        // "failed to create subscription: %w"
    | NoSubscription                                    // "no subscription exists and 'subscription.create' is not enabled"
    | SubscribeFailed(cause: Error)                     // "failed to subscribe to pub/sub topic: %w"
    | AlternativeHostFailed(host: string, cause: Error) // "cannot connect to alternative host %q: %w"
    | ReceiveFailed(project: string, topic: string, cause: Error)
      // status text "failed to receive message from pub/sub topic %s/%s: %v" (formatted, not wrapped)

  /** A value or an error. */
  datatype Result<T> = Ok(value: T) | Err(error: Error)

  /** errors.Is(err, context.Canceled): the error or one of its wrapped
      causes is the cancellation. Wrapping never hides a cancellation: an
      error chain is a cancellation exactly when its root cause is. */
  predicate IsCanceled(e: Error)
    ensures IsCanceled(e) <==> Root(e) == Canceled
  {
    match e
    case Canceled => true
    case ExistsCheckFailed(cause) => IsCanceled(cause)
    case CreateFailed(cause) => IsCanceled(cause)
    case SubscribeFailed(cause) => IsCanceled(cause)
    case AlternativeHostFailed(_, cause) => IsCanceled(cause)
    case _ => false
  }

  /** The wrapped cause at the bottom of an error chain. */
  function Root(e: Error): (r: Error)
    ensures !r.ExistsCheckFailed? && !r.CreateFailed? && !r.SubscribeFailed? && !r.AlternativeHostFailed?
  {
    match e
    case ExistsCheckFailed(cause) => Root(cause)
    case CreateFailed(cause) => Root(cause)
    case SubscribeFailed(cause) => Root(cause)
    case AlternativeHostFailed(_, cause) => Root(cause)
    case _ => e
  }
}
