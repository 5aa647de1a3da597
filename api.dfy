/** The server's response envelope and the error thrown for a failed response (types/api.ts). */
module Api {
  import opened Common

  datatype ResponseType = Success | Fail

  /** The exception record of a failed response. */
  datatype ApiException = ApiException(errorNo: string, message: string, validation: Option<map<string, string>>)

  /** `ApiResponse<T>`: the outcome, the exception if any, and the payload. */
  datatype ApiResponse<T> = ApiResponse(kind: ResponseType, exception: Option<ApiException>, item: T)

  /** `ServerError`: an `Error` with its message and the server's error number and field messages. */
  datatype ServerError = ServerError(message: string, errorNo: Option<string>, validation: Option<map<string, string>>)

  const RequestFailed: string := "Request failed"

  /** `createServerError`: the exception's message unless it is missing or empty, and its error
      number and validation messages when there is an exception. */
  function CreateServerError<T>(data: ApiResponse<T>): (e: ServerError)
    ensures e.message != []
    ensures data.exception.Some? && data.exception.value.message != [] ==> e.message == data.exception.value.message
    ensures data.exception.None? || data.exception.value.message == [] ==> e.message == RequestFailed
    ensures e.errorNo == (if data.exception.Some? then Some(data.exception.value.errorNo) else None)
    ensures e.validation == (if data.exception.Some? then data.exception.value.validation else None)
  {
    match data.exception
    case None => ServerError(RequestFailed, None, None)
    case Some(ex) => ServerError(if ex.message != [] then ex.message else RequestFailed, Some(ex.errorNo), ex.validation)
  }

  /** The error depends on the exception alone, not on the outcome or the payload. */
  lemma ServerErrorFromExceptionOnly<T, U>(a: ApiResponse<T>, b: ApiResponse<U>)
    requires a.exception == b.exception
    ensures CreateServerError(a) == CreateServerError(b)
  {
  }
}
