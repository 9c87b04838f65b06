/** Failure-carrying values used in place of Python's `None` returns and raised exceptions. */
module Results {

  /** A value that may be missing (Python's `None`). */
  datatype Option<+T> = None | Some(value: T)

  /** A computed value, or the exception that the source would raise instead. */
  datatype Result<+T, +E> = Ok(value: T) | Err(error: E)

  /** A procedure that returns nothing, or the exception it would raise. */
  datatype Outcome<+E> = Pass | Fail(error: E)
}

/** The recording side of every port fake: an append-only log of the calls made. */
module Tracing {

  class Trace<E> {
    var events: seq<E>

    constructor ()
      ensures events == []
    {
      events := [];
    }

    method Record(e: E)
      modifies this
      ensures events == old(events) + [e]
    {
      events := events + [e];
    }
  }
}
