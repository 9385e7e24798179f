/** The two kinds of external calls the application makes, as abstract
    inputs: an HTTP request to the terminology registry, and a call into the
    hosted database. Nothing here performs I/O. */
module Remote {
  import opened Wrappers

  /** How a `fetch` to the registry ends. `Response` carries the HTTP status
      and the parsed JSON body, `None` when the body is not valid JSON.
      `NetworkError` is a rejected fetch, `TimedOut` the 5-second abort. */
  datatype Fetch<T> = Response(status: int, body: Option<T>) | NetworkError | TimedOut

  /** `response.ok`: a status in the 200-299 range. */
  predicate IsOkStatus(status: int) {
    200 <= status <= 299
  }

  /** The call yields a usable body: an OK response whose JSON parsed. */
  predicate Delivered<T>(f: Fetch<T>) {
    f.Response? && IsOkStatus(f.status) && f.body.Some?
  }

  /** The remote-first policy shared by the registry calls: the remote body
      when the call delivered one, the local fallback on every other outcome
      (non-OK status, malformed body, network error, timeout). */
  function RemoteOr<T>(f: Fetch<T>, fallback: T): (r: T)
    ensures Delivered(f) ==> r == f.body.value
    ensures !Delivered(f) ==> r == fallback
  {
    if f.Response? && IsOkStatus(f.status) && f.body.Some? then f.body.value else fallback
  }

  /** How an awaited database call ends: an answer `{ data, error }` whose
      data may be null and whose error flag may be set, or a rejection. */
  datatype Reply<T> = Reply(data: Option<T>, error: bool) | Threw

  /** The call reached the code after `if (error) throw error`. */
  predicate Succeeded<T>(r: Reply<T>) {
    r.Reply? && !r.error
  }
}
