/**
 * The outcome of a command, as the installation service's result library
 * hands it back: success, or failure carrying the errors that caused it.
 * Every command of the installation aggregate fails with exactly one error,
 * so a failure holds a single error value.
 */
module Results {

  datatype Result<+E> = Ok | Fail(error: E) {

    /** The result's list of errors: empty on success, the one error on failure. */
    function Errors(): (es: seq<E>)
      ensures |es| <= 1
      ensures Ok? <==> es == []
    {
      match this
      case Ok => []
      case Fail(e) => [e]
    }

    /** A result succeeds exactly when it carries no error. */
    predicate IsSuccess()
    {
      |Errors()| == 0
    }
  }
}
