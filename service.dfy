/** What a Google API call can come back with, seen from the tools. */
module Service {

  /** Building the service object: it may succeed, give `None`, or raise. */
  datatype Connection = Connected | NoService | ConnectFailed(detail: string)

  /** One `.execute()`: a record, an `HttpError` with its status, or another exception. */
  datatype Response<+T> = Ok(value: T) | HttpError(status: int, detail: string) | Failure(detail: string) {
    predicate IsNotFound() {
      HttpError? && status == 404
    }

    /** `str(e)` of the exception a failed call raised. */
    function Detail(): string
      requires !Ok?
    {
      detail
    }
  }

  /** `str(e)` of the exception a failed connection leads to. A `None` service fails at its
      first method call, `service.<resource>()`. */
  function ConnectionError(c: Connection, resource: string): string
    requires !c.Connected?
  {
    match c
    case NoService => "'NoneType' object has no attribute '" + resource + "'"
    case ConnectFailed(detail) => detail
  }
}
