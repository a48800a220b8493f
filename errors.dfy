/**
 * `NetNeuronError` and the part of Swift's untyped `Error` the client can tell
 * apart. The type parameter `U` is the caller's error-body type.
 */
module Errors {
  import opened Foundation

  datatype NetNeuronError<U> =
    | ApiErrorWithBody(statusCode: int, error: U)
    | ApiErrorWithResponse(statusCode: int, response: HTTPURLResponse)
    | BadData
    | BadRequest
    | NoInternetConnection
    | NotFound
    | ParsingError(message: string, cause: Error<U>)
    | Unauthorized
    | UnexpectedError(cause: Error<U>)

  /**
   * A thrown Swift error: a `URLError`, a `NetNeuronError`, or any other error
   * (a decoding or encoding error, a cancellation), known only by its description.
   */
  datatype Error<U> =
    | URLError(code: URLErrorCode)
    | NetNeuron(error: NetNeuronError<U>)
    | Other(description: string)

  /** How a throwing Swift call ends: it returns a value or throws an error. */
  datatype Outcome<V, U> = Returned(value: V) | Threw(error: Error<U>)
}
