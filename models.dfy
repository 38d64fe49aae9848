/**
 * The values the geocoding core produces and the failures it reports: the
 * `LocationResult` record and the exceptions that leave a provider's
 * `geocode`.
 */
module Models {
  import opened Json

  /** WGS84 coordinates; the Python floats are modelled as reals. */
  datatype Point = Point(lat: real, lon: real)

  /** The free-form diagnostic payload: the raw upstream document, or a note. */
  datatype Extra = Raw(data: Json) | Note(text: string)

  datatype LocationResult = LocationResult(
    inputAddress: string,
    normalizedAddress: string,
    point: Point,
    provider: string,
    extra: Extra)

  /**
   * A `requests.RequestException` raised by one HTTP round trip: a timeout, a
   * connection failure, an HTTP error status from `raise_for_status`, a body
   * that is not JSON (`requests.JSONDecodeError`), or any other kind.
   */
  datatype RequestError =
    | Timeout
    | ConnectionFailed
    | HttpStatus(code: int)
    | BodyNotJson
    | OtherRequestError

  /**
   * An exception raised while reading a response that said "OK": a `.get` on
   * a value that is neither falsy nor a dict (AttributeError), a coordinate
   * `float()` cannot convert (TypeError or ValueError), or a refined address
   * that is not text.
   */
  datatype Fault = NotAMapping | NotANumber | NotText

  /** How a provider's `geocode(address)` ends: a result, `None`, or an exception. */
  datatype Outcome =
    | Found(result: LocationResult)
    | NotFound
    | RequestFailed(error: RequestError)
    | Faulted(fault: Fault)
}
