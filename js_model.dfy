/** Small value types shared by the models of the three exercise files. */
module JsModel {

  /** A JavaScript value that may be `null` or `undefined` (both falsy, both modelled by `Null`);
      `Value` holds any object value, which JavaScript treats as truthy. */
  datatype Nullable<+T> = Null | Value(value: T)

  /** Presence or absence of a value that is not itself a JavaScript value (a context value, a handle). */
  datatype Option<+T> = None | Some(value: T)

  /** An `Error` thrown by the code, identified by its message. */
  datatype Failure = Failure(message: string)

  /** The outcome of code that either returns a value or throws. */
  datatype Result<+T> = Ok(value: T) | Err(error: Failure)
}
