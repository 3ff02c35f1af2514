/**
 * The metadata proxy's GET handler: the feature gate, the URI checks, one fetch,
 * the closure of fetch failures onto a fixed status set, the response headers and
 * the choice of how to emit the body. The calls it makes into code outside this
 * model are the fields of `Env`.
 */
module ProxyRoute {
  import opened Common
  import opened ProxyTypes
  import Utf8
  import Decimal
  import Processors

  const DefaultUserAgent := "Solana Explorer"
  const DefaultMaxSize := 10_000_000
  const DefaultTimeout := 10_000
  const JsonContentType := "application/json; charset=utf-8"

  /** The three environment variables read once when the module loads (None when unset). */
  datatype Settings = Settings(userAgentVar: Option<string>, maxSizeVar: Option<string>, timeoutVar: Option<string>)

  /** The settings the handler works with. */
  datatype Config = Config(userAgent: string, maxSize: int, timeout: int)

  /**
   * The module-level constants: `??` for the user agent, so an empty value is kept, and a
   * truthiness test for each number, so an empty value takes the default.
   */
  function LoadConfig(settings: Settings, toNumber: string -> int): Config {
    Config(
      settings.userAgentVar.GetOr(DefaultUserAgent),
      if settings.maxSizeVar.Some? && settings.maxSizeVar.value != "" then toNumber(settings.maxSizeVar.value) else DefaultMaxSize,
      if settings.timeoutVar.Some? && settings.timeoutVar.value != "" then toNumber(settings.timeoutVar.value) else DefaultTimeout)
  }

  /** A parsed URL: its scheme, host and query parameters in order. */
  datatype Url = Url(protocol: string, hostname: string, searchParams: seq<(string, string)>)

  /** `URLSearchParams.get(name)`: the value of the first parameter with that name. */
  function SearchParam(params: seq<(string, string)>, name: string): (r: Option<string>)
    ensures r.None? <==> forall i | 0 <= i < |params| :: params[i].0 != name
    ensures r.Some? ==> exists i | 0 <= i < |params| :: params[i] == (name, r.value)
                          && forall j | 0 <= j < i :: params[j].0 != name
  {
    if params == [] then None
    else if params[0].0 == name then Some(params[0].1)
    else
      var r := SearchParam(params[1..], name);
      assert r.Some? ==> exists i | 0 <= i < |params| :: params[i] == (name, r.value)
                           && forall j | 0 <= j < i :: params[j].0 != name by {
        if r.Some? {
          var i :| 0 <= i < |params[1..]| && params[1..][i] == (name, r.value)
                   && forall j | 0 <= j < i :: params[1..][j].0 != name;
          assert params[i + 1] == (name, r.value);
          forall j | 0 <= j < i + 1 ensures params[j].0 != name {
            if j > 0 { assert params[j] == params[1..][j - 1]; }
          }
        }
      }
      assert r.None? ==> forall i | 0 <= i < |params| :: params[i].0 != name by {
        if r.None? {
          forall i | 0 <= i < |params| ensures params[i].0 != name {
            if i > 0 { assert params[i] == params[1..][i - 1]; }
          }
        }
      }
      r
  }

  /** What the private-address check answers: public, private, or a rejection (a failed lookup). */
  datatype AddressCheck = Public | Private | CheckFailed

  /** What `fetchResource` resolves with, or the `status` of what it rejects with (if any). */
  datatype FetchOutcome = Fetched(data: Data, headers: HeaderMap) | Rejected(status: Option<int>)

  /** The handler's calls into code outside this model. */
  datatype Env = Env(
    parseUrl: string -> Option<Url>,                        // new URL(s); None when it throws
    decodeUriComponent: string -> Option<string>,            // None when it throws
    isHttpProtocol: Url -> bool,
    checkUrlForPrivateIp: Url -> AddressCheck,
    fetchResource: (string, HeaderMap, int, int) -> FetchOutcome,
    toNumber: string -> int,                                 // Number(s)
    isJson: HeaderMap -> bool,
    isText: HeaderMap -> bool,
    message: ErrorStatus -> string)                          // errors[status].message

  /** How a successful response carries its body. */
  datatype Body =
    | BinaryBody(bytes: seq<byte>)     // the buffer, as is
    | JsonTextBody(text: string)       // a string passed through as JSON text
    | JsonBody(value: Json)            // a value serialised by NextResponse.json
    | TextBody(text: string)

  /**
   * The handler's answer: an error with its JSON `{ error }` body, a 200 response,
   * or an exception the handler does not catch.
   */
  datatype Response =
    | ErrorResponse(status: ErrorStatus, error: string)
    | Success(headers: map<string, string>, body: Body)
    | Uncaught

  /** `respondWithError`: the status as given, and the message or the catalogue's text for it. */
  function RespondWithError(status: ErrorStatus, message: Option<string>, catalogue: ErrorStatus -> string): (r: Response)
    ensures r.ErrorResponse? && r.status == status
    ensures message.Some? ==> r.error == message.value
    ensures message.None? ==> r.error == catalogue(status)
  {
    ErrorResponse(status, message.GetOr(catalogue(status)))
  }

  /** The fetch-failure switch: 413, 415, 500 and 504 pass through; anything else, or nothing, is 500. */
  function FetchFailureResponseStatus(status: Option<int>): (s: ErrorStatus)
    ensures s.Code() in {413, 415, 500, 504}
    ensures status.Some? && status.value in {413, 415, 500, 504} ==> s.Code() == status.value
    ensures !(status.Some? && status.value in {413, 415, 500, 504}) ==> s == InternalError
  {
    if status == Some(413) then PayloadTooLarge
    else if status == Some(415) then UnsupportedMediaType
    else if status == Some(504) then GatewayTimeout
    else InternalError
  }

  /** The outbound request headers: JSON content type and the configured user agent. */
  function OutboundHeaders(userAgent: string): (h: HeaderMap)
    ensures h.Keys == {"Content-Type", "User-Agent"}
    ensures h["Content-Type"] == JsonContentType && h["User-Agent"] == userAgent
  {
    map["Content-Type" := JsonContentType, "User-Agent" := userAgent]
  }

  // ---------------------------------------------------------------------------
  // Response headers: a per-name statement of what is forwarded.

  const CacheControl := "Cache-Control"
  const ContentType := "Content-Type"
  const Etag := "Etag"
  const ContentLength := "Content-Length"

  /** True when upstream sent a Content-Length that is a non-empty string. */
  predicate HasContentLength(upstream: HeaderMap) {
    "content-length" in upstream && upstream["content-length"] != ""
  }

  /** The names a successful response carries before the body is considered. */
  function ForwardedNames(upstream: HeaderMap): set<string> {
    {CacheControl, ContentType, Etag} + (if HasContentLength(upstream) then {ContentLength} else {})
  }

  /** The value forwarded under one name: upstream's value, or that name's default. */
  function ForwardedValue(upstream: HeaderMap, name: string): string {
    if name == CacheControl then Header(upstream, "cache-control").GetOr("no-cache")
    else if name == ContentType then Header(upstream, "content-type").GetOr(JsonContentType)
    else if name == Etag then Header(upstream, "etag").GetOr("no-etag")
    else Header(upstream, "content-length").GetOr("")
  }

  function Forwarded(upstream: HeaderMap): map<string, string> {
    map name | name in ForwardedNames(upstream) :: ForwardedValue(upstream, name)
  }

  /**
   * The three mandatory headers are always present, each upstream value is kept as sent
   * (an empty one included) and only an absent one takes its default, and Content-Length
   * is forwarded exactly when upstream supplied a non-empty one.
   */
  lemma ForwardedDefaults(upstream: HeaderMap)
    ensures CacheControl in Forwarded(upstream) && ContentType in Forwarded(upstream) && Etag in Forwarded(upstream)
    ensures Forwarded(upstream)[CacheControl] == if "cache-control" in upstream then upstream["cache-control"] else "no-cache"
    ensures Forwarded(upstream)[ContentType] == if "content-type" in upstream then upstream["content-type"] else JsonContentType
    ensures Forwarded(upstream)[Etag] == if "etag" in upstream then upstream["etag"] else "no-etag"
    ensures ContentLength in Forwarded(upstream) <==> HasContentLength(upstream)
    ensures ContentLength in Forwarded(upstream) ==> Forwarded(upstream)[ContentLength] == upstream["content-length"]
    ensures Forwarded(upstream).Keys <= {CacheControl, ContentType, Etag, ContentLength}
  {
  }

  /** The value a text response gives Content-Length: the decimal UTF-8 byte length of the text. */
  function TextContentLength(text: string): (v: string)
    ensures Decimal.Canonical(v)
    ensures Decimal.DecimalValue(v) == |Utf8.Encode(text)|
  {
    Decimal.DecimalRoundTrip(|Utf8.Encode(text)|);
    Decimal.NatToDecimal(|Utf8.Encode(text)|)
  }

  /** How a fetched body is emitted: binary, then JSON, then text, else 415. */
  function Emit(env: Env, data: Data, upstream: HeaderMap): Response {
    var headers := Forwarded(upstream);
    if data.ArrayBuffer? then Success(headers, BinaryBody(data.bytes))
    else if env.isJson(upstream) then
      if data.json.JString? then Success(headers[ContentType := JsonContentType], JsonTextBody(data.json.s))
      else Success(headers, JsonBody(data.json))
    else if env.isText(upstream) then
      if data.json.JString? then Success(headers[ContentLength := TextContentLength(data.json.s)], TextBody(data.json.s))
      else Uncaught
    else RespondWithError(UnsupportedMediaType, None, env.message)
  }

  /**
   * The dispatch order: binary data wins whatever the content-type predicates say;
   * JSON string data keeps every forwarded header except Content-Type, which becomes
   * the JSON type; text data keeps every forwarded header except Content-Length, which
   * states the UTF-8 byte length in canonical decimal; non-string JSON data keeps the
   * forwarded headers as they are (upstream's Content-Type included); non-string data on
   * the text path throws; 415 exactly when the data is not binary and neither predicate holds.
   */
  lemma EmitOrder(env: Env, data: Data, upstream: HeaderMap)
    ensures data.ArrayBuffer? ==> Emit(env, data, upstream) == Success(Forwarded(upstream), BinaryBody(data.bytes))
    ensures data.Value? && env.isJson(upstream) && data.json.JString? ==>
      var r := Emit(env, data, upstream);
      r.Success? && r.body == JsonTextBody(data.json.s) && r.headers[ContentType] == JsonContentType
      && forall name | name != ContentType :: (name in r.headers <==> name in Forwarded(upstream))
           && (name in r.headers ==> r.headers[name] == Forwarded(upstream)[name])
    ensures data.Value? && !env.isJson(upstream) && env.isText(upstream) && data.json.JString? ==>
      var r := Emit(env, data, upstream);
      r.Success? && r.body == TextBody(data.json.s)
      && Decimal.Canonical(r.headers[ContentLength])
      && Decimal.DecimalValue(r.headers[ContentLength]) == |Utf8.Encode(data.json.s)|
      && forall name | name != ContentLength :: (name in r.headers <==> name in Forwarded(upstream))
           && (name in r.headers ==> r.headers[name] == Forwarded(upstream)[name])
    ensures data.Value? && env.isJson(upstream) && !data.json.JString? ==>
      Emit(env, data, upstream) == Success(Forwarded(upstream), JsonBody(data.json))
    ensures data.Value? && !env.isJson(upstream) && env.isText(upstream) && !data.json.JString? ==>
      Emit(env, data, upstream) == Uncaught
    ensures Emit(env, data, upstream).ErrorResponse? <==> data.Value? && !env.isJson(upstream) && !env.isText(upstream)
    ensures Emit(env, data, upstream).ErrorResponse? ==> Emit(env, data, upstream).status == UnsupportedMediaType
  {
  }

  // ---------------------------------------------------------------------------
  // The stages of a request, recorded in the order they run.

  /** One call the handler makes, with its argument. */
  datatype Stage =
    | ReadQuery(requestUrl: string)                 // new URL(request.url), then searchParams.get('uri')
    | DecodeUri(raw: string)                        // decodeURIComponent
    | ParseUri(uri: string)                         // new URL(uriParam)
    | CheckProtocol(uri: string, url: Url)          // isHTTPProtocol
    | CheckAddress(uri: string, url: Url)           // checkURLForPrivateIP
    | Fetch(target: string, headers: HeaderMap, timeout: int, maxSize: int)

  /** The position of each stage in the pipeline. */
  function Rank(s: Stage): nat {
    match s
    case ReadQuery(_) => 0
    case DecodeUri(_) => 1
    case ParseUri(_) => 2
    case CheckProtocol(_, _) => 3
    case CheckAddress(_, _) => 4
    case Fetch(_, _, _, _) => 5
  }

  /** The `uri` query value of the request, when the request URL parses. */
  function QueryUri(env: Env, requestUrl: string): Option<string> {
    match env.parseUrl(requestUrl)
    case None => None
    case Some(url) => SearchParam(url.searchParams, "uri")
  }

  /** The stage let the request go on. */
  predicate Passed(env: Env, s: Stage) {
    match s
    case ReadQuery(r) => QueryUri(env, r).Some? && QueryUri(env, r).value != ""
    case DecodeUri(raw) => env.decodeUriComponent(raw).Some?
    case ParseUri(uri) => env.parseUrl(uri).Some?
    case CheckProtocol(_, url) => env.isHttpProtocol(url)
    case CheckAddress(_, url) => env.checkUrlForPrivateIp(url) == Public
    case Fetch(target, headers, timeout, maxSize) => env.fetchResource(target, headers, timeout, maxSize).Fetched?
  }

  /** The stage that follows one that passed, built from what it produced. */
  function Next(env: Env, config: Config, s: Stage): Stage
    requires Passed(env, s) && !s.Fetch?
  {
    match s
    case ReadQuery(r) => DecodeUri(QueryUri(env, r).value)
    case DecodeUri(raw) => ParseUri(env.decodeUriComponent(raw).value)
    case ParseUri(uri) => CheckProtocol(uri, env.parseUrl(uri).value)
    case CheckProtocol(uri, url) => CheckAddress(uri, url)
    case CheckAddress(uri, _) => Fetch(uri, OutboundHeaders(config.userAgent), config.timeout, config.maxSize)
  }

  /** The status a stage that did not pass answers with. */
  function RejectionStatus(env: Env, s: Stage): ErrorStatus {
    match s
    case CheckAddress(_, url) => if env.checkUrlForPrivateIp(url) == Private then Forbidden else BadRequest
    case Fetch(target, headers, timeout, maxSize) =>
      var outcome := env.fetchResource(target, headers, timeout, maxSize);
      if outcome.Rejected? then FetchFailureResponseStatus(outcome.status) else InternalError
    case _ => BadRequest
  }

  /** A run of the pipeline: it starts at the request, and each stage ran only because the previous one passed. */
  predicate IsRun(env: Env, config: Config, requestUrl: string, trace: seq<Stage>) {
    && (trace != [] ==> trace[0] == ReadQuery(requestUrl))
    && forall i | 0 <= i < |trace| - 1 :: Passed(env, trace[i]) && !trace[i].Fetch? && trace[i + 1] == Next(env, config, trace[i])
  }

  /** The answer a run gives once its last stage has run. */
  function Outcome(env: Env, last: Stage): Response {
    if !Passed(env, last) then RespondWithError(RejectionStatus(env, last), None, env.message)
    else if last.Fetch? then
      var outcome := env.fetchResource(last.target, last.headers, last.timeout, last.maxSize);
      Emit(env, outcome.data, outcome.headers)
    else Uncaught
  }

  /** A run stays a run when the stage its last passed stage leads to is appended. */
  lemma ExtendRun(env: Env, config: Config, requestUrl: string, trace: seq<Stage>)
    requires IsRun(env, config, requestUrl, trace) && trace != []
    requires Passed(env, trace[|trace| - 1]) && !trace[|trace| - 1].Fetch?
    ensures IsRun(env, config, requestUrl, trace + [Next(env, config, trace[|trace| - 1])])
  {
  }

  /** Each stage of a run sits at its own position in the pipeline. */
  lemma {:induction false} RunRankAt(env: Env, config: Config, requestUrl: string, trace: seq<Stage>, i: nat)
    requires IsRun(env, config, requestUrl, trace) && i < |trace|
    ensures Rank(trace[i]) == i
  {
    if i > 0 {
      RunRankAt(env, config, requestUrl, trace, i - 1);
      assert trace[i] == Next(env, config, trace[i - 1]);
    }
  }

  /** A run follows the pipeline's order and has at most its six stages. */
  lemma RunOrder(env: Env, config: Config, requestUrl: string, trace: seq<Stage>)
    requires IsRun(env, config, requestUrl, trace)
    ensures forall i | 0 <= i < |trace| :: Rank(trace[i]) == i
    ensures |trace| <= 6
  {
    forall i | 0 <= i < |trace| ensures Rank(trace[i]) == i {
      RunRankAt(env, config, requestUrl, trace, i);
    }
    if |trace| > 6 {
      RunRankAt(env, config, requestUrl, trace, 6);
    }
  }

  /**
   * The fetch runs only as the sixth stage, after every check passed: the request
   * carried a non-empty `uri`, it decoded to the fetched target, the target parsed to
   * an HTTP(S) URL whose address is public; the outbound headers carry the JSON
   * content type and the configured user agent, with the configured limits.
   */
  lemma FetchOnlyAfterChecks(env: Env, config: Config, requestUrl: string, trace: seq<Stage>, i: nat)
    requires IsRun(env, config, requestUrl, trace) && i < |trace| && trace[i].Fetch?
    ensures i == 5
    ensures QueryUri(env, requestUrl).Some? && QueryUri(env, requestUrl).value != ""
    ensures env.decodeUriComponent(QueryUri(env, requestUrl).value) == Some(trace[i].target)
    ensures env.parseUrl(trace[i].target).Some?
    ensures env.isHttpProtocol(env.parseUrl(trace[i].target).value)
    ensures env.checkUrlForPrivateIp(env.parseUrl(trace[i].target).value) == Public
    ensures trace[i].headers == OutboundHeaders(config.userAgent)
    ensures trace[i].timeout == config.timeout && trace[i].maxSize == config.maxSize
  {
    RunRankAt(env, config, requestUrl, trace, i);
    assert trace[0] == ReadQuery(requestUrl);
    assert Passed(env, trace[0]) && trace[1] == Next(env, config, trace[0]);
    assert Passed(env, trace[1]) && trace[2] == Next(env, config, trace[1]);
    assert Passed(env, trace[2]) && trace[3] == Next(env, config, trace[2]);
    assert Passed(env, trace[3]) && trace[4] == Next(env, config, trace[3]);
    assert Passed(env, trace[4]) && trace[5] == Next(env, config, trace[4]);
  }

  /**
   * The fetch carries the module-level settings: the user agent variable whenever it is
   * set (an empty value included), "Solana Explorer" otherwise; each limit from its
   * variable when that is set and non-empty, and 10 000 000 bytes and 10 000 ms otherwise.
   */
  lemma FetchCarriesSettings(env: Env, settings: Settings, requestUrl: string, trace: seq<Stage>, i: nat)
    requires IsRun(env, LoadConfig(settings, env.toNumber), requestUrl, trace) && i < |trace| && trace[i].Fetch?
    ensures "User-Agent" in trace[i].headers
    ensures settings.userAgentVar.None? ==> trace[i].headers["User-Agent"] == DefaultUserAgent
    ensures settings.userAgentVar.Some? ==> trace[i].headers["User-Agent"] == settings.userAgentVar.value
    ensures settings.maxSizeVar.None? || settings.maxSizeVar == Some("") ==> trace[i].maxSize == DefaultMaxSize
    ensures settings.maxSizeVar.Some? && settings.maxSizeVar.value != "" ==> trace[i].maxSize == env.toNumber(settings.maxSizeVar.value)
    ensures settings.timeoutVar.None? || settings.timeoutVar == Some("") ==> trace[i].timeout == DefaultTimeout
    ensures settings.timeoutVar.Some? && settings.timeoutVar.value != "" ==> trace[i].timeout == env.toNumber(settings.timeoutVar.value)
  {
    FetchOnlyAfterChecks(env, LoadConfig(settings, env.toNumber), requestUrl, trace, i);
  }

  /** The address check runs only on the URL whose scheme check has passed. */
  lemma AddressCheckAfterProtocol(env: Env, config: Config, requestUrl: string, trace: seq<Stage>, i: nat)
    requires IsRun(env, config, requestUrl, trace) && i < |trace| && trace[i].CheckAddress?
    ensures i == 4 && trace[3] == CheckProtocol(trace[i].uri, trace[i].url)
    ensures env.isHttpProtocol(trace[i].url)
  {
    RunRankAt(env, config, requestUrl, trace, i);
    RunRankAt(env, config, requestUrl, trace, i - 1);
    assert Passed(env, trace[3]) && trace[4] == Next(env, config, trace[3]);
  }

  /**
   * Where each error status of a run comes from: 404 never (only the feature gate
   * answers it); 403 exactly when the address check reports private; 400 exactly from a
   * check before the fetch that did not pass (an absent or empty `uri`, a decode or parse
   * failure, a non-HTTP scheme, a failed address lookup); after the fetch only 413, 415,
   * 500 or 504.
   */
  lemma OutcomeStatuses(env: Env, last: Stage)
    ensures var r := Outcome(env, last);
      r.ErrorResponse? ==> r.status != NotFound
    ensures var r := Outcome(env, last);
      (r.ErrorResponse? && r.status == Forbidden) <==> (last.CheckAddress? && env.checkUrlForPrivateIp(last.url) == Private)
    ensures var r := Outcome(env, last);
      r.ErrorResponse? && r.status == BadRequest ==> !last.Fetch? && !Passed(env, last)
    ensures !Passed(env, last) && !last.Fetch? && !(last.CheckAddress? && env.checkUrlForPrivateIp(last.url) == Private) ==>
      Outcome(env, last) == RespondWithError(BadRequest, None, env.message)
    ensures var r := Outcome(env, last);
      last.Fetch? && r.ErrorResponse? ==> r.status.Code() in {413, 415, 500, 504}
    ensures last.Fetch? && Passed(env, last) ==>
      var outcome := env.fetchResource(last.target, last.headers, last.timeout, last.maxSize);
      Outcome(env, last) == Emit(env, outcome.data, outcome.headers)
  {
    if last.Fetch? && Passed(env, last) {
      var outcome := env.fetchResource(last.target, last.headers, last.timeout, last.maxSize);
      EmitOrder(env, outcome.data, outcome.headers);
    }
  }

  /** Every failure the fetch step reports reaches the caller with its own status. */
  lemma FetchSignalsPassThrough(signal: Processors.FetchSignal)
    ensures FetchFailureResponseStatus(Some(Processors.FetchFailureStatus(signal).Code())) == Processors.FetchFailureStatus(signal)
  {
  }

  /** Every status a body processor fails with reaches the caller unchanged. */
  lemma ProcessorStatusesPassThrough(response: Processors.Upstream, parse: string -> Result<Json, Processors.Thrown>)
    ensures var r := Processors.ProcessBinary(response);
      r.Err? ==> FetchFailureResponseStatus(Some(r.error.Code())) == r.error
    ensures var r := Processors.ProcessJson(response, parse);
      r.Err? ==> FetchFailureResponseStatus(Some(r.error.Code())) == r.error
    ensures var r := Processors.ProcessText(response);
      r.Err? ==> FetchFailureResponseStatus(Some(r.error.Code())) == r.error
  {
    Processors.ProcessorStatusSets(response, parse);
  }

  /**
   * `GET`. `settings` are the variables read when the module loaded, `enabledVar` is the
   * feature-flag variable as read for this request and `requestUrl` the request's URL.
   * The ghost `trace` records the stages that ran.
   */
  method Get(env: Env, settings: Settings, enabledVar: Option<string>, requestUrl: string)
    returns (response: Response, ghost trace: seq<Stage>)
    ensures (response.ErrorResponse? && response.status == NotFound) <==> enabledVar != Some("true")
    ensures enabledVar != Some("true") ==> response.error == env.message(NotFound)
    ensures trace == [] <==> enabledVar != Some("true")
    ensures trace == [] ==> response == RespondWithError(NotFound, None, env.message)
    ensures IsRun(env, LoadConfig(settings, env.toNumber), requestUrl, trace)
    ensures trace != [] ==> response == Outcome(env, trace[|trace| - 1])
    ensures trace != [] ==> Passed(env, trace[|trace| - 1]) ==> trace[|trace| - 1].Fetch?
  {
    var config := LoadConfig(settings, env.toNumber);
    trace := [];
    var isProxyEnabled := enabledVar == Some("true");
    if !isProxyEnabled {
      response := RespondWithError(NotFound, None, env.message);
      return;
    }

    trace := [ReadQuery(requestUrl)];
    var url := env.parseUrl(requestUrl);
    if url.None? {
      response := RespondWithError(BadRequest, None, env.message);
      return;
    }
    var queryParam := SearchParam(url.value.searchParams, "uri");
    if queryParam.None? || queryParam.value == "" {
      response := RespondWithError(BadRequest, None, env.message);  // Absent URI
      return;
    }

    ExtendRun(env, config, requestUrl, trace);
    trace := trace + [DecodeUri(queryParam.value)];
    var decoded := env.decodeUriComponent(queryParam.value);
    if decoded.None? {
      response := RespondWithError(BadRequest, None, env.message);
      return;
    }
    var uriParam := decoded.value;

    ExtendRun(env, config, requestUrl, trace);
    trace := trace + [ParseUri(uriParam)];
    var parsed := env.parseUrl(uriParam);
    if parsed.None? {
      response := RespondWithError(BadRequest, None, env.message);
      return;
    }
    var parsedUrl := parsed.value;

    ExtendRun(env, config, requestUrl, trace);
    trace := trace + [CheckProtocol(uriParam, parsedUrl)];
    if !env.isHttpProtocol(parsedUrl) {
      response := RespondWithError(BadRequest, None, env.message);
      return;
    }

    ExtendRun(env, config, requestUrl, trace);
    trace := trace + [CheckAddress(uriParam, parsedUrl)];
    var isPrivate := env.checkUrlForPrivateIp(parsedUrl);
    if isPrivate == CheckFailed {
      response := RespondWithError(BadRequest, None, env.message);  // the rejection reaches the catch
      return;
    }
    if isPrivate == Private {
      response := RespondWithError(Forbidden, None, env.message);
      return;
    }

    var headers := map["Content-Type" := JsonContentType, "User-Agent" := config.userAgent];
    ExtendRun(env, config, requestUrl, trace);
    trace := trace + [Fetch(uriParam, headers, config.timeout, config.maxSize)];
    var fetched := env.fetchResource(uriParam, headers, config.timeout, config.maxSize);
    if fetched.Rejected? {
      response := RespondWithError(FetchFailureResponseStatus(fetched.status), None, env.message);
      return;
    }
    response := Respond(env, fetched.data, fetched.headers);
  }

  /** The part of `GET` after a successful fetch: compose the headers, then emit the body. */
  method Respond(env: Env, data: Data, resourceHeaders: HeaderMap) returns (response: Response)
    ensures response == Emit(env, data, resourceHeaders)
  {
    var contentLength := Header(resourceHeaders, "content-length");
    var responseHeaders := map[
      CacheControl := Header(resourceHeaders, "cache-control").GetOr("no-cache"),
      ContentType := Header(resourceHeaders, "content-type").GetOr(JsonContentType),
      Etag := Header(resourceHeaders, "etag").GetOr("no-etag")];
    if contentLength.Some? && contentLength.value != "" {
      responseHeaders := responseHeaders[ContentLength := contentLength.value];
    }
    assert responseHeaders == Forwarded(resourceHeaders);

    // Every header value is a string here, never null, so the missing-header check never
    // fires; it is written as a test that each mandatory name is present.
    if CacheControl !in responseHeaders || ContentType !in responseHeaders || Etag !in responseHeaders {
      response := RespondWithError(BadRequest, None, env.message);
      return;
    }

    if data.ArrayBuffer? {
      response := Success(responseHeaders, BinaryBody(data.bytes));
    } else if env.isJson(resourceHeaders) {
      if data.json.JString? {
        response := Success(responseHeaders[ContentType := JsonContentType], JsonTextBody(data.json.s));
      } else {
        response := Success(responseHeaders, JsonBody(data.json));
      }
    } else if env.isText(resourceHeaders) {
      if data.json.JString? {
        var textBytes := Utf8.Encode(data.json.s);
        var byteLength := |textBytes|;
        response := Success(responseHeaders[ContentLength := Decimal.NatToDecimal(byteLength)], TextBody(data.json.s));
      } else {
        response := Uncaught;  // Buffer.from on a non-string value
      }
    } else {
      response := RespondWithError(UnsupportedMediaType, None, env.message);
    }
  }
}
