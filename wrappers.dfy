/** Shared vocabulary: optional values, results and the errors that travel
    through the gateway (Go's `error` values, modelled as data). */
module Wrappers {

  datatype Option<+T> = None | Some(value: T)

  datatype Result<+T, +E> = Ok(value: T) | Err(error: E)

  /** A Go `error`. Collaborators (the indexer, the store, the HTTP client)
      report opaque failures; the script fetch builds its own status error. */
  datatype Error =
    | Failed(message: string)
    | BadStatus(url: string, status: int)

  /** Bytes of an opaque payload (a serialised event, a fetched script). */
  type byte = x: int | 0 <= x < 256
}
