/** Small value types shared by every part of the model. */
module Common {

  /** A value that may be absent (`undefined` or `null` in the application). */
  datatype Option<+T> = None | Some(value: T)

  /** The outcome of a request handler: a value, or an error response. */
  datatype Result<+T, +E> = Ok(value: T) | Err(error: E)

  /** An HTTP error response: the status code and the text of the thrown error. */
  datatype HttpError = HttpError(status: int, message: string)

  /** An untyped JSON value that the model only stores and passes on, never inspects. */
  datatype Blob = Blob(json: string)

  /** JavaScript truthiness of an optional string: present and not the empty string. */
  predicate Truthy(s: Option<string>)
  {
    s.Some? && s.value != ""
  }
}
