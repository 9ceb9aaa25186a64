/**
 * The completion handler of `promiseRequest` (Sources/GroupMeAPI/RequestHelper.swift).
 * `URLSession` hands the closure an optional error, an optional response and
 * optional data; the closure settles the promise from those three alone, by a fixed
 * early-return chain. The network exchange itself is not modelled: the triple is an input.
 */
module Transport {
  import opened Common

  /** `HTTPError`. `InvalidStatusCode` is declared by the source but never produced. */
  datatype HttpError = InvalidResponse | InvalidStatusCode(code: int) | NoData

  /** A `URLResponse`; `isHttp` says whether the cast `as? HTTPURLResponse` succeeds. */
  datatype UrlResponse = UrlResponse(isHttp: bool, statusCode: int)

  /** Why a promise was rejected: the session's own error `E`, passed through, or an `HTTPError`. */
  datatype TransportError<E> = Underlying(error: E) | Http(httpError: HttpError)

  /** How the promise returned by `promiseRequest` settles. */
  datatype Completion<E> = Delivered(data: Bytes) | Failed(reason: TransportError<E>)

  predicate IsHttpResponse(response: Option<UrlResponse>) {
    response.Some? && response.value.isHttp
  }

  /** The completion closure: error first, then the response kind, then the data. */
  function Complete<E>(error: Option<E>, response: Option<UrlResponse>, data: Option<Bytes>): (c: Completion<E>)
    // a reported error wins, whatever came with it
    ensures error.Some? ==> c == Failed(Underlying(error.value))
    // then a missing or non-HTTP response, even when data arrived
    ensures error.None? && !IsHttpResponse(response) ==> c == Failed(Http(InvalidResponse))
    // then missing data
    ensures error.None? && IsHttpResponse(response) && data.None? ==> c == Failed(Http(NoData))
    // fulfilled exactly when all three checks pass, and then with the received bytes unchanged
    ensures c.Delivered? <==> error.None? && IsHttpResponse(response) && data.Some?
    ensures c.Delivered? ==> c.data == data.value
    // the status code is never inspected
    ensures !(c.Failed? && c.reason.Http? && c.reason.httpError.InvalidStatusCode?)
  {
    if error.Some? then Failed(Underlying(error.value))
    else if !IsHttpResponse(response) then Failed(Http(InvalidResponse))
    else if data.None? then Failed(Http(NoData))
    else Delivered(data.value)
  }

  /** Two responses that differ only in their status code settle the promise the same way. */
  lemma StatusCodeIgnored<E>(error: Option<E>, isHttp: bool, code1: int, code2: int, data: Option<Bytes>)
    ensures Complete(error, Some(UrlResponse(isHttp, code1)), data)
         == Complete(error, Some(UrlResponse(isHttp, code2)), data)
  {
  }
}
