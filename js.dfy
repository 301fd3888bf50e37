/** The JavaScript values the core relies on: `undefined`/`null` as Option,
    fp-ts's Either, and the thrown Error object. */
module Js {

  /** `undefined` or `null` (None), or a present value. */
  datatype Option<+T> = None | Some(value: T) {
    /** The present value, or `default` when absent. */
    function GetOr(default: T): T {
      match this
      case Some(v) => v
      case None => default
    }
  }

  /** fp-ts's Either: Left carries the failure, Right the success. */
  datatype Either<+L, +R> = Left(left: L) | Right(right: R)

  /** A thrown JavaScript Error: its message and, for a Mongoose cast error,
      its `kind` (None for every other error). */
  datatype Error = Error(message: string, kind: Option<string>)

  /** `Error(message)` as the source builds it. */
  function Err(message: string): (e: Error)
    ensures e.message == message && e.kind.None?
  {
    Error(message, None)
  }
}
