/** Result and option types, and the three ways a call to Redis can end. */
module Wrappers {

  datatype Option<+T> = None | Some(value: T)

  datatype Result<+T, +E> = Ok(value: T) | Err(error: E)

  /** What a caller sees of one Redis call, and whether the server ran it.
      A timeout can hide a call that the server did run. */
  datatype Reply = Answered | LostAfterCommit | NotDelivered

  predicate Committed(reply: Reply) {
    reply != NotDelivered
  }
}
