/**
 * The request gateway: FMPClient keeps the api key, the normalised base URL
 * and the timeout; Request joins the URL, adds the api key to the query and
 * turns what the transport returned into the parsed JSON or an exception.
 * The transport itself (httpx) is a parameter: a function from the request
 * sent to the outcome received.
 */
module Client {
  import opened Wrappers
  import opened Values
  import opened Exceptions

  const DefaultBaseUrl: string := "https://financialmodelingprep.com/api/v3"
  /** 30.0 as an IEEE-754 double. */
  const DefaultTimeout: Float := Float(0x403E_0000_0000_0000)
  /** The query key that carries the api key. */
  const ApiKeyParam: string := "apikey"
  /** The key of an error reported inside a successful JSON body. */
  const ErrorMessageKey: string := "Error Message"
  const UnauthorizedMessage: string := "Invalid API key"
  const ForbiddenMessage: string := "Access forbidden - check your API key permissions"

  /** `s.rstrip(c)`: s without every trailing c. */
  function RStrip(s: string, c: char): (r: string)
    ensures r <= s
    ensures |r| == 0 || r[|r| - 1] != c
    ensures forall i :: |r| <= i < |s| ==> s[i] == c
    decreases |s|
  {
    if |s| != 0 && s[|s| - 1] == c then RStrip(s[..|s| - 1], c) else s
  }

  /** `s.lstrip(c)`: s without every leading c. */
  function LStrip(s: string, c: char): (r: string)
    ensures |r| <= |s| && r == s[|s| - |r|..]
    ensures |r| == 0 || r[0] != c
    ensures forall i :: 0 <= i < |s| - |r| ==> s[i] == c
    decreases |s|
  {
    if |s| != 0 && s[0] == c then LStrip(s[1..], c) else s
  }

  /** Stripping twice strips nothing more: a base URL that is already normalised is kept as it is. */
  lemma RStripIdempotent(s: string, c: char)
    ensures RStrip(RStrip(s, c), c) == RStrip(s, c)
  {
  }

  /**
   * `f"{base}/{endpoint.lstrip('/')}"`: the base, one '/', then the endpoint
   * less its leading slashes, so the separator is never followed by another '/'.
   */
  function JoinUrl(base: string, endpoint: string): (url: string)
    ensures |url| > |base| && url[..|base|] == base && url[|base|] == '/'
    ensures |url| > |base| + 1 ==> url[|base| + 1] != '/'
    ensures |url| - |base| - 1 <= |endpoint|
    ensures url[|base| + 1..] == endpoint[|endpoint| - (|url| - |base| - 1)..]
    ensures forall i :: 0 <= i < |endpoint| - (|url| - |base| - 1) ==> endpoint[i] == '/'
  {
    var tail := LStrip(endpoint, '/');
    assert (base + "/" + tail)[..|base|] == base;
    assert (base + "/" + tail)[|base| + 1..] == tail;
    base + "/" + tail
  }

  /**
   * The query sent: the caller's parameters ({} for None) with "apikey" set
   * to the client's key, which overrides a caller's "apikey"; every other key
   * keeps its value.
   */
  function WithApiKey(params: Option<Dict>, apiKey: string): (sent: Dict)
    ensures sent.Keys == (if params.Some? then params.value.Keys else {}) + {ApiKeyParam}
    ensures sent[ApiKeyParam] == PyStr(apiKey)
    ensures params.Some? ==> forall k :: k in params.value && k != ApiKeyParam ==> sent[k] == params.value[k]
  {
    var base := if params.None? then map[] else params.value;
    base[ApiKeyParam := PyStr(apiKey)]
  }

  /** What the client hands to the transport. */
  datatype HttpRequest = HttpRequest(verb: string, url: string, query: Dict)

  /** What the transport gives back: a response with its status, body text and parsed JSON, or a failure before any response. */
  datatype Outcome =
    | Response(status: int, text: string, json: Value)
    | TransportFailure(reason: string)

  /** The statuses `raise_for_status` lets through. */
  predicate IsSuccess(status: int) {
    200 <= status <= 299
  }

  /** A JSON body that reports an error in-band: a dict holding "Error Message". */
  predicate InBandError(json: Value) {
    json.PyDict? && ErrorMessageKey in json.entries
  }

  /** What can leave the body of the `try` in `_request`. */
  datatype Raised =
    | HTTPStatusError(status: int, text: string)  // from raise_for_status
    | RequestError(reason: string)                // from the transport
    | Raise(error: FMPError)                      // raised by the body itself

  /** The `try` body: dispatch, raise_for_status, then the in-band check; the JSON otherwise. */
  function TryBody(o: Outcome): Result<Value, Raised> {
    match o
    case TransportFailure(reason) => Failure(RequestError(reason))
    case Response(status, text, json) =>
      if !IsSuccess(status) then Failure(HTTPStatusError(status, text))
      else if InBandError(json) then Failure(Raise(APIError(json.entries[ErrorMessageKey], Some(status))))
      else Success(json)
  }

  /** The `except` clauses: an httpx error becomes an FMP exception; an FMP exception matches neither clause and propagates. */
  function Handle(x: Raised): FMPError {
    match x
    case HTTPStatusError(status, text) =>
      if status == 401 then AuthError(PyStr(UnauthorizedMessage), Some(401))
      else if status == 403 then AuthError(PyStr(ForbiddenMessage), Some(403))
      else APIError(PyStr("API request failed: " + text), Some(status))
    case RequestError(reason) => APIError(PyStr("Request failed: " + reason))
    case Raise(e) => e
  }

  /** The result of `_request` for a given transport outcome, case by case. */
  function Classify(o: Outcome): (r: Result<Value, FMPError>)
    ensures o.TransportFailure? ==> r == Failure(APIError(PyStr("Request failed: " + o.reason), None))
    ensures o.Response? && o.status == 401 ==> r == Failure(AuthError(PyStr(UnauthorizedMessage), Some(401)))
    ensures o.Response? && o.status == 403 ==> r == Failure(AuthError(PyStr(ForbiddenMessage), Some(403)))
    ensures o.Response? && !IsSuccess(o.status) && o.status != 401 && o.status != 403 ==>
      r == Failure(APIError(PyStr("API request failed: " + o.text), Some(o.status)))
    ensures o.Response? && IsSuccess(o.status) && InBandError(o.json) ==>
      r == Failure(APIError(o.json.entries[ErrorMessageKey], Some(o.status)))
    ensures r.Success? <==> o.Response? && IsSuccess(o.status) && !InBandError(o.json)
    ensures r.Success? ==> r.value == o.json
  {
    match TryBody(o)
    case Success(json) => Success(json)
    case Failure(x) => Failure(Handle(x))
  }

  /** Every failure of a request is caught by `except FMPAPIError`; it is an FMPAuthError exactly for statuses 401 and 403. */
  lemma FailuresAreAPIErrors(o: Outcome)
    requires Classify(o).Failure?
    ensures IsInstance(Classify(o).error, FMPAPIErrorClass)
    ensures IsInstance(Classify(o).error, FMPAuthErrorClass) <==> o.Response? && (o.status == 401 || o.status == 403)
  {
    Hierarchy();
  }

  /** A failure has no status code exactly when no response was received; otherwise it carries the response's status. */
  lemma FailureStatus(o: Outcome)
    requires Classify(o).Failure?
    ensures Classify(o).error.statusCode == (if o.Response? then Some(o.status) else None)
  {
  }

  /** The base URL normalisation and the join leave exactly one '/' between base and endpoint. */
  lemma SingleSlashAtJoin(rawBase: string, endpoint: string)
    ensures var base := RStrip(rawBase, '/'); var url := JoinUrl(base, endpoint);
      && (|base| == 0 || url[|base| - 1] != '/')
      && url[|base|] == '/'
      && (|url| > |base| + 1 ==> url[|base| + 1] != '/')
  {
    var base := RStrip(rawBase, '/');
    var url := JoinUrl(base, endpoint);
    if |base| != 0 {
      assert url[|base| - 1] == url[..|base|][|base| - 1] == base[|base| - 1];
    }
  }

  class FMPClient {
    const apiKey: string
    const baseUrl: string
    const timeout: Float

    constructor (apiKey: string, baseUrl: string := DefaultBaseUrl, timeout: Float := DefaultTimeout)
      ensures this.apiKey == apiKey && this.timeout == timeout
      ensures this.baseUrl == RStrip(baseUrl, '/')
    {
      this.apiKey := apiKey;
      this.baseUrl := RStrip(baseUrl, '/');
      this.timeout := timeout;
    }

    /** `_request`: one round trip through `transport`, nothing retried or cached. */
    method Request(transport: HttpRequest -> Outcome, httpMethod: string, endpoint: string, params: Option<Dict>)
      returns (sent: HttpRequest, r: Result<Value, FMPError>)
      ensures sent == HttpRequest(httpMethod, JoinUrl(baseUrl, endpoint), WithApiKey(params, apiKey))
      ensures r == Classify(transport(sent))
    {
      var query: Dict := if params.None? then map[] else params.value;
      query := query[ApiKeyParam := PyStr(apiKey)];
      var url := baseUrl + "/" + LStrip(endpoint, '/');
      sent := HttpRequest(httpMethod, url, query);
      r := Classify(transport(sent));
    }

    /** `_get`: a request with method "GET". */
    method Get(transport: HttpRequest -> Outcome, endpoint: string, params: Option<Dict> := None)
      returns (sent: HttpRequest, r: Result<Value, FMPError>)
      ensures sent.verb == "GET"
      ensures sent == HttpRequest("GET", JoinUrl(baseUrl, endpoint), WithApiKey(params, apiKey))
      ensures r == Classify(transport(sent))
    {
      sent, r := Request(transport, "GET", endpoint, params);
    }
  }

  /** A client built with the defaults keeps the production root as given, and a custom root without a trailing '/' is kept too. */
  lemma DefaultAndCustomBase()
    ensures RStrip(DefaultBaseUrl, '/') == DefaultBaseUrl
    ensures RStrip("https://custom.api.com/v1", '/') == "https://custom.api.com/v1"
    ensures RStrip("https://custom.api.com/v1//", '/') == "https://custom.api.com/v1"
  {
  }
}
