/**
  How the pages see a `fetch`: an ok response with its decoded body, a
  response whose `ok` is false, or a promise that rejects (the network
  failed or the body did not decode), which lands in the page's `catch`.
 */
module Fetch {
  datatype Response<T> = Ok(payload: T) | NotOk | Thrown
}
