/** Java's Optional, the exceptions that cross the connector's methods, and the
    outcome of a call that either returns a value or throws. */
module Outcomes {

  /** java.util.Optional */
  datatype Option<+T> = None | Some(value: T) {

    /** Optional.orElse */
    function GetOr(default: T): T {
      if Some? then value else default
    }
  }

  /** The exceptions the connector raises, or catches from the HTTP client. */
  datatype Exception =
    | NotFound                    // javax.ws.rs.NotFoundException: 404 on a typed read, or thrown by the DAO
    | Processing                  // javax.ws.rs.ProcessingException: the request got no reply
    | WebApplication(status: int) // any other non-2xx status on a typed read
    | JamesClient(status: int)    // JamesClientException: userExists saw neither 200 nor 404
    | StringIndexOutOfBounds      // String.substring with the index -1
    | NumberFormat                // Long.parseLong on a malformed value
    | Io                          // IOException: a response body that does not decode
    | LscServiceCommunication     // raised to the framework for a transport failure on a read
    | LscService                  // raised to the framework for any other remote error on a read

  /** A call that returned `value`, or threw `error`. */
  datatype Outcome<+T> = Value(value: T) | Thrown(error: Exception)
}
