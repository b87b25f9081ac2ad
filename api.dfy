/** Values every handler of the server and every page of the client shares:
    optional values, the failures a request can end in, and handler results. */
module Api {

  /** `undefined`/`null` versus a present value. */
  datatype Option<+T> = None | Some(value: T)

  /** How a request handler fails. `ApiError` is the project's own error class
      (a status code and a message) thrown by a handler; `RuntimeError` is a
      JavaScript exception raised by the engine or a library (a TypeError on
      `null.role`, a ReferenceError on an unbound name, a Mongoose
      ValidationError), whose HTTP status the error handler decides. */
  datatype Failure =
    | ApiError(statusCode: int, message: string)
    | RuntimeError(name: string, message: string)
  {
    predicate HasStatus(code: int) {
      ApiError? && statusCode == code
    }
  }

  /** What a handler produces: a response value or a failure. */
  datatype Result<+T> = Ok(value: T) | Err(failure: Failure)

  /** JavaScript truthiness of an optional string: `undefined` and `""` are falsy. */
  predicate Truthy(s: Option<string>) {
    s.Some? && s.value != ""
  }
}
