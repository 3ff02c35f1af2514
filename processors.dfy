/**
 * The body processors of the metadata proxy: each reads the upstream body once and
 * returns the data with the response's own headers, or fails with one error status.
 */
module Processors {
  import opened Common
  import opened ProxyTypes

  /**
   * A rejection raised while reading or parsing a body, described by the two tests the
   * processors ask of it: whether the size-limit matcher recognises it, and whether it
   * is a `SyntaxError`. Both may hold at once.
   */
  datatype Thrown = Thrown(overLimit: bool, syntaxError: bool)

  /** An upstream response: its headers and what each way of reading its body yields. */
  datatype Upstream = Upstream(
    headers: HeaderMap,
    arrayBuffer: Result<seq<byte>, Thrown>,
    text: Result<string, Thrown>)

  /** The `{ data, headers }` a processor returns. */
  datatype Processed = Processed(data: Data, headers: HeaderMap)

  /** `processBinary`: the buffer with the response's headers; 413 for a size failure, else 500. */
  function ProcessBinary(response: Upstream): (r: Result<Processed, ErrorStatus>)
    ensures r.Ok? <==> response.arrayBuffer.Ok?
    ensures r.Ok? ==> r.value.data == ArrayBuffer(response.arrayBuffer.value) && r.value.headers == response.headers
    ensures r.Err? ==> (r.error == PayloadTooLarge <==> response.arrayBuffer.error.overLimit)
    ensures r.Err? ==> r.error in {PayloadTooLarge, InternalError}
  {
    match response.arrayBuffer
    case Ok(buffer) => Ok(Processed(ArrayBuffer(buffer), response.headers))
    case Err(e) => Err(if e.overLimit then PayloadTooLarge else InternalError)
  }

  /** The single catch of `processJson`: size first, then syntax, then anything else. */
  function ClassifyJsonFailure(e: Thrown): (s: ErrorStatus)
    ensures e.overLimit ==> s == PayloadTooLarge
    ensures !e.overLimit && e.syntaxError ==> s == UnsupportedMediaType
    ensures !e.overLimit && !e.syntaxError ==> s == InternalError
  {
    if e.overLimit then PayloadTooLarge
    else if e.syntaxError then UnsupportedMediaType
    else InternalError
  }

  /**
   * `processJson`: reads the whole body as text and parses it with `parse`
   * (`JSON.parse`, whose failure is a `SyntaxError`); both failures reach one catch.
   */
  function ProcessJson(response: Upstream, parse: string -> Result<Json, Thrown>): (r: Result<Processed, ErrorStatus>)
    ensures r.Ok? <==> response.text.Ok? && parse(response.text.value).Ok?
    ensures r.Ok? ==> r.value.data == Value(parse(response.text.value).value) && r.value.headers == response.headers
    ensures response.text.Err? ==> r == Err(ClassifyJsonFailure(response.text.error))
    ensures response.text.Ok? && parse(response.text.value).Err? ==>
              r == Err(ClassifyJsonFailure(parse(response.text.value).error))
  {
    match response.text
    case Err(e) => Err(ClassifyJsonFailure(e))
    case Ok(text) =>
      match parse(text)
      case Ok(json) => Ok(Processed(Value(json), response.headers))
      case Err(e) => Err(ClassifyJsonFailure(e))
  }

  /** `processText`: the body text with the response's headers; every failure is 500. */
  function ProcessText(response: Upstream): (r: Result<Processed, ErrorStatus>)
    ensures r.Ok? <==> response.text.Ok?
    ensures r.Ok? ==> r.value.data == Value(JString(response.text.value)) && r.value.headers == response.headers
    ensures r.Err? ==> r.error == InternalError
  {
    match response.text
    case Ok(text) => Ok(Processed(Value(JString(text)), response.headers))
    case Err(_) => Err(InternalError)
  }

  /** Each processor's error statuses: {413, 500}, {413, 415, 500} and {500}. */
  lemma ProcessorStatusSets(response: Upstream, parse: string -> Result<Json, Thrown>)
    ensures ProcessBinary(response).Err? ==> ProcessBinary(response).error.Code() in {413, 500}
    ensures ProcessJson(response, parse).Err? ==> ProcessJson(response, parse).error.Code() in {413, 415, 500}
    ensures ProcessText(response).Err? ==> ProcessText(response).error.Code() == 500
  {
  }

  /**
   * The failures the fetch step reports, as exclusive signals: no or an unknown content
   * type, a size-limit rejection, a timeout, malformed JSON, or any other rejection.
   */
  datatype FetchSignal = UnknownMediaType | SizeExceeded | Timeout | MalformedJson | OtherRejection

  /** The status the fetch step rejects with for each signal. */
  function FetchFailureStatus(signal: FetchSignal): (s: ErrorStatus)
    ensures s.Code() in {413, 415, 500, 504}
    ensures s == GatewayTimeout <==> signal == Timeout
    ensures s == PayloadTooLarge <==> signal == SizeExceeded
    ensures s == UnsupportedMediaType <==> signal in {UnknownMediaType, MalformedJson}
  {
    match signal
    case UnknownMediaType => UnsupportedMediaType
    case SizeExceeded => PayloadTooLarge
    case Timeout => GatewayTimeout
    case MalformedJson => UnsupportedMediaType
    case OtherRejection => InternalError
  }
}
