/** Failure-carrying datatypes shared by every module of the model. */
module Wrappers {

  datatype Option<T> = None | Some(value: T)

  /** An operation that either yields a value or fails with a message
      (a thrown Error in the JavaScript, an exception in the Python). */
  datatype Result<T> = Ok(value: T) | Err(message: string)

  /** What a `fetch(...)` followed by `response.json()` can give back:
      the request fails outright, or a response arrives with its `ok` flag
      and status, and with a body that parsed (`Some`) or not (`None`). */
  datatype Fetched<T> =
    | NetworkError
    | Response(ok: bool, status: int, body: Option<T>)
  {
    /** The document of an `ok` response whose body parsed. */
    predicate Delivered() {
      Response? && ok && body.Some?
    }
  }
}
