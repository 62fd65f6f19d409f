/** The ways a request can end without a value, and the wrappers every module returns. */
module Results {

  /** `Abort(status)` is a thrown Vapor `Abort` carrying an HTTP status code;
      `DecodingError` is a thrown JSON decoding error of an upstream body;
      `Transport` is the error an outgoing GET throws when no response arrives at all
      (a refused connection, a timeout);
      `Trap` is a Swift runtime trap (a force-unwrapped nil, a duplicate key given to
      `Dictionary(uniqueKeysWithValues:)`, an index past the end of a string). A trap
      ends the process: no `catch` sees it. */
  datatype Error = Abort(status: int) | DecodingError | Transport | Trap

  const BadRequest: Error := Abort(400)
  const InternalServerError: Error := Abort(500)

  datatype Option<+T> = None | Some(value: T)

  /** A throwing Swift call: either its value or the error it throws. */
  datatype Result<+T> = Ok(value: T) | Err(error: Error) {

    predicate IsFailure() {
      Err?
    }

    function PropagateFailure<U>(): Result<U>
      requires Err?
    {
      Err(error)
    }

    function Extract(): T
      requires Ok?
    {
      value
    }
  }
}
