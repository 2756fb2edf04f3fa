/**
 * The Python exceptions the backend raises and catches, and the HTTP errors a
 * FastAPI handler turns them into.
 */
module Exceptions {

  /** The exception classes the handlers tell apart; `OtherError` is any other `Exception`. */
  datatype ExnKind = FileNotFoundError | ValueError | RuntimeError | OtherError

  /** A raised exception: its class and `str(e)`. */
  datatype Exn = Exn(kind: ExnKind, message: string)

  /** A raised `HTTPException(status_code, detail)`. */
  datatype HttpError = HttpError(status: nat, detail: string)
}
