/** Result and option types shared by every module. */
module Wrappers {

  datatype Option<+T> = None | Some(value: T)

  /** The outcome of a service call: the new state, or the error it raised. */
  datatype Result<+T, +E> = Success(value: T) | Failure(error: E) {

    /** The state after the call: a raised error rolls the transaction back to `before`. */
    function Or(before: T): T {
      if Success? then value else before
    }
  }

  /** A method did what `spec` says: it moved `before` to the new state, or raised and changed nothing. */
  ghost predicate Commits<S(!new), E>(spec: Result<S, E>, before: S, after: S, raised: Option<E>) {
    match spec
    case Success(s) => after == s && raised == None
    case Failure(e) => after == before && raised == Some(e)
  }
}
