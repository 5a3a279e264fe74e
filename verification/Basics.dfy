/** Option and result types, and what one call to a remote service can do. */
module Basics {

  datatype Option<+T> = None | Some(value: T)

  datatype Result<+T, +E> = Success(value: T) | Failure(error: E)

  /** What happened to one mutating request: it was served and the answer arrived, it was
      served but the answer was lost, or it had no effect. */
  datatype Delivery = Served | AnswerLost | Dropped

  /** What the caller of the Oxide client sees. */
  datatype Reply<+T> = Ok(value: T) | NotFound | AlreadyExists | Error

  /** The answer to a request that would leave `after` behind, in case it is allowed at all. */
  function Answer<T>(delivery: Delivery, allowed: bool, after: T): Reply<T> {
    if delivery.Served? && allowed then Ok(after) else Error
  }

  /** The answer to a view request; `up` is false when the service cannot be reached. */
  function ViewReply<T>(thing: Option<T>, up: bool): Reply<T> {
    if !up then Error else if thing.None? then NotFound else Ok(thing.value)
  }

  /** How a reconcile ends: done, done with a timed requeue, or an error. */
  datatype Verdict = Finished | RequeueAfter10s | Errored

  lemma Regroup<T>(log: seq<T>, more: seq<T>)
    requires more != []
    ensures log + more == log + more[..|more| - 1] + [more[|more| - 1]]
  {
  }
}
