/** The error vocabulary shared by the request handlers: FastAPI's
    `HTTPException`, the plain Python exceptions raised by the provider
    wrappers, and the value-or-error result of a handler. */
module Http {

  datatype Option<+T> = None | Some(value: T)

  /** An `HTTPException(status_code, detail)`. */
  datatype HttpError = HttpError(status: int, detail: string)

  /** What a handler's `try` block can raise: an `HTTPException`, which the
      handlers re-raise, or any other exception, known only by `str(e)`. */
  datatype Exception = HttpException(error: HttpError) | OtherException(message: string)

  /** A handler's outcome: its response, or the `HTTPException` it raises. */
  datatype Result<+T> = Ok(value: T) | Err(error: HttpError)

  /** The `except HTTPException: raise` / `except Exception as e: raise
      HTTPException(500, prefix + str(e))` pair that ends both handlers. */
  function MapException(e: Exception, prefix: string): (err: HttpError)
    ensures e.HttpException? ==> err == e.error
    ensures e.OtherException? ==> err.status == 500 && err.detail == prefix + e.message
  {
    match e
    case HttpException(h) => h
    case OtherException(m) => HttpError(500, prefix + m)
  }
}
