/** Option and Result values shared by every module of the model. */
module Common {

  /** A value that may be absent (JavaScript `undefined`). */
  datatype Option<T> = None | Some(value: T)

  /** The outcome of an operation that can throw: the value, or the thrown error's message. */
  datatype Result<T> = Ok(value: T) | Err(message: string)

  /** JavaScript truthiness of an optional string: present and not empty. */
  predicate Truthy(value: Option<string>) {
    value.Some? && value.value != ""
  }
}
