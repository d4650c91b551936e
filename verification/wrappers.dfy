/** Option and Result values used across the model, and the abstract outcome of one HTTP call. */
module Wrappers {

  datatype Option<+T> = None | Some(value: T)

  /** What a `try` block ends with: a value, or the message of the error it threw. */
  datatype Result<+T> = Ok(value: T) | Err(message: string)

  /**
   * The outcome of one `fetch` as the application sees it: either the server answered
   * (with the `response.ok` flag and an already parsed body), or the promise rejected
   * (network failure, or a body that did not parse), carrying the thrown message.
   */
  datatype Fetch<+T> = Answered(ok: bool, body: T) | Failed(message: string)

  /** A JavaScript string used in a condition: `undefined`, `null` and `''` are falsy. */
  predicate Truthy(s: Option<string>)
  {
    s.Some? && s.value != ""
  }
}
