/**
 * How an asynchronous operation answers its caller. The cache reports through
 * callbacks; the wrappers turn those into promises.
 */
module Callbacks {

  /** What became of one call, as its caller sees it. */
  datatype Reply<T> =
    | NoReply        // returned without calling any callback
    | Ok(value: T)   // the success (or response) callback was called with `value`
    | Err            // the error callback was called
    | Throws         // the call threw synchronously
    | Uncaught       // a callback of the platform threw later; no callback of the caller ran

  /** The state of a promise. */
  datatype Settlement<T> = Pending | Resolved(value: T) | Rejected

  /** A promise whose executor calls the operation with `resolve` and `reject` as
      its callbacks: it follows the callbacks, a synchronous throw rejects it, and
      it stays pending when neither callback runs. */
  function Promised<T>(r: Reply<T>): (s: Settlement<T>)
    ensures s.Resolved? <==> r.Ok?
    ensures s.Resolved? ==> s.value == r.value
    ensures s.Rejected? <==> r.Err? || r.Throws?
    ensures s.Pending? <==> r.NoReply? || r.Uncaught?
  {
    match r
    case Ok(v) => Resolved(v)
    case Err => Rejected
    case Throws => Rejected
    case NoReply => Pending
    case Uncaught => Pending
  }
}
