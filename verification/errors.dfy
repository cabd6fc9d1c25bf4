/** Optional values, rejection reasons and results shared by the authentifier and the Dream API client. */
module Errors {

  /** An optional value, standing for a TypeScript field that may be `undefined` or `null`. */
  datatype Option<+T> = None | Some(value: T)

  /** The value a rejected promise carries.
      - `Transport`: what the HTTP layer rejects with (network error, non-2xx status);
      - `Blank`: the bare `new Error()` thrown when a polled task reports the `failed` state;
      - `Wrapped`: the `{ reason, error }` object the client throws around an inner failure. */
  datatype Failure =
    | Transport(detail: string)
    | Blank
    | Wrapped(reason: string, cause: Failure)

  /** A settled promise: fulfilled with a value or rejected with a failure. */
  datatype Result<+T> = Ok(value: T) | Err(error: Failure)
}
