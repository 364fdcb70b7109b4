/** CrptApiException and the faults a call can end with. */
module Errors {

  datatype ErrorCode = ConnectionError | StatusCodeError | FormatError | IoError

  /** The exception the client raises: `statusCode` is -1 unless the
      exception reports an HTTP status. */
  datatype CrptApiException = CrptApiException(statusCode: int, errorCode: ErrorCode)

  /** Responses with a status of 300 or more are treated as errors. */
  const ErrorStatusFloor: int := 300

  predicate IsErrorStatus(status: int) { status >= ErrorStatusFloor }

  /** CrptApiException(cause, errorCode): wraps a caught exception; the
      status code keeps its initial -1. */
  function WithCause(errorCode: ErrorCode): (e: CrptApiException)
    ensures e.errorCode == errorCode && e.statusCode == -1
  {
    CrptApiException(-1, errorCode)
  }

  /** CrptApiException(statusCode): reports an unacceptable HTTP status. */
  function WithStatus(statusCode: int): (e: CrptApiException)
    ensures e.errorCode == StatusCodeError && e.statusCode == statusCode
  {
    CrptApiException(statusCode, StatusCodeError)
  }

  /** What every exception the client raises satisfies: a status error carries
      the offending status, any other error carries -1. */
  predicate WellFormed(e: CrptApiException) {
    if e.errorCode == StatusCodeError then IsErrorStatus(e.statusCode) else e.statusCode == -1
  }

  /** How a call can fail: with the client's own exception, or with an
      exception thrown by the caller-supplied signer, which propagates
      unwrapped (its message stands for it). */
  datatype Fault = Api(exception: CrptApiException) | Foreign(message: string)

  predicate WellFormedFault(f: Fault) { f.Api? ==> WellFormed(f.exception) }
}
