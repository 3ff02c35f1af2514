/** Values exchanged by the metadata proxy's route, fetcher and body processors. */
module ProxyTypes {
  import opened Common

  /** A JSON value as `JSON.parse` produces it (numbers are kept to integers). */
  datatype Json =
    | JNull
    | JBool(b: bool)
    | JNumber(n: int)
    | JString(s: string)
    | JArray(items: seq<Json>)
    | JObject(members: seq<(string, Json)>)

  /** The `data` a fetch hands back: an ArrayBuffer, or any other JavaScript value. */
  datatype Data = ArrayBuffer(bytes: seq<byte>) | Value(json: Json)

  /** A header set; upstream header names are stored lower-case, as `Headers.get` matches them. */
  type HeaderMap = map<string, string>

  /** `Headers.get(name)`: the value, or null when the header is absent. */
  function Header(h: HeaderMap, name: string): (r: Option<string>)
    ensures r.Some? <==> name in h
    ensures r.Some? ==> r.value == h[name]
  {
    if name in h then Some(h[name]) else None
  }

  /** The closed set of statuses the proxy answers an error with (RFC 9110 section 15). */
  datatype ErrorStatus =
    | BadRequest
    | Forbidden
    | NotFound
    | PayloadTooLarge
    | UnsupportedMediaType
    | InternalError
    | GatewayTimeout
  {
    /** The numeric HTTP status code. */
    function Code(): int {
      match this
      case BadRequest => 400
      case Forbidden => 403
      case NotFound => 404
      case PayloadTooLarge => 413
      case UnsupportedMediaType => 415
      case InternalError => 500
      case GatewayTimeout => 504
    }
  }
}
