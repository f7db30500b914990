/**
 * Kotlin's `Result<T>` as an explicit two-variant outcome, and the
 * `mapCatching` combinator the portal communicator composes results with.
 * A thrown exception is the `Failure` variant: nothing escapes as a fault.
 */
module Results {

  datatype Option<+T> = None | Some(value: T)

  /** A thrown `Throwable`, reduced to its message. */
  datatype Error = Error(message: string)

  datatype Result<+T> = Success(value: T) | Failure(error: Error)

  /**
   * `r.mapCatching(transform)`: a failure is passed on as it is, and the
   * transform runs only on a success. A transform that throws is a
   * transform that returns `Failure`, and that failure becomes the result.
   */
  function MapCatching<T, U>(r: Result<T>, transform: T -> Result<U>): (out: Result<U>)
    ensures r.Failure? ==> out == Failure(r.error)
    ensures r.Success? ==> out == transform(r.value)
  {
    match r
    case Failure(e) => Failure(e)
    case Success(v) => transform(v)
  }

  /** On a failure the transform is never consulted: any two transforms give the same, original failure. */
  lemma FailureSkipsTransform<T, U>(e: Error, f: T -> Result<U>, g: T -> Result<U>)
    ensures MapCatching(Failure(e), f) == MapCatching(Failure(e), g) == Failure(e)
  {
  }

  /** A transform that throws on the value it is given turns a success into a failure. */
  lemma ThrowingTransformFails<T, U>(v: T, transform: T -> Result<U>)
    requires transform(v).Failure?
    ensures MapCatching(Success(v), transform) == Failure(transform(v).error)
  {
  }
}
