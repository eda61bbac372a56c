/**
 * The shape every endpoint method shares: build the call, `self._get` it,
 * then either return the JSON as it is or turn each item into a record.
 * The client is passed in explicitly.
 */
module Endpoints {
  import opened Wrappers
  import opened Values
  import opened Exceptions
  import opened Query
  import opened Records
  import opened Client

  /** The errors an endpoint method can end with: the gateway's exception, or Python's own while building records. */
  datatype CallError = Api(error: FMPError) | Runtime(failure: PyError)

  /**
   * What an endpoint method that builds records returns for a given transport
   * outcome, `conv` turning one item of the response into one record.
   */
  function TypedResult<R>(o: Outcome, conv: Value -> Result<R, PyError>): Result<seq<R>, CallError> {
    match Classify(o)
    case Failure(e) => Failure(Api(e))
    case Success(data) =>
      match MapRows(data, conv)
      case Failure(e) => Failure(Runtime(e))
      case Success(records) => Success(records)
  }

  /** `return self._get(endpoint, params=params)`: the JSON, unchanged. */
  method FetchRaw(client: FMPClient, transport: HttpRequest -> Outcome, call: ApiCall)
    returns (sent: HttpRequest, r: Result<Value, FMPError>)
    ensures sent == HttpRequest("GET", JoinUrl(client.baseUrl, call.endpoint), WithApiKey(call.params, client.apiKey))
    ensures r == Classify(transport(sent))
  {
    sent, r := client.Get(transport, call.endpoint, call.params);
  }

  /** `data = self._get(...); return [Model(**item) for item in data]`. */
  method FetchRecords<R>(client: FMPClient, transport: HttpRequest -> Outcome, call: ApiCall, build: Dict -> Result<R, PyError>)
    returns (sent: HttpRequest, r: Result<seq<R>, CallError>)
    ensures sent == HttpRequest("GET", JoinUrl(client.baseUrl, call.endpoint), WithApiKey(call.params, client.apiKey))
    ensures r == TypedResult(transport(sent), ModelConverter(build))
    ensures r.Success? ==> transport(sent).Response? && IsSuccess(transport(sent).status)
  {
    var data;
    sent, data := client.Get(transport, call.endpoint, call.params);
    if data.Failure? {
      return sent, Failure(Api(data.error));
    }
    var records := FromResponse(data.value, build);
    if records.Failure? {
      return sent, Failure(Runtime(records.error));
    }
    r := Success(records.value);
  }

  /**
   * An endpoint that builds records, whatever its conversion: a gateway
   * failure is returned untouched; a successful list response gives one
   * record per item, in order, and succeeds exactly when every item
   * converts, failing otherwise with the first failing item's error; any
   * other successful body gives no records when it is an empty dict or an
   * empty string and fails with TypeError otherwise.
   */
  lemma TypedResultCases<R>(o: Outcome, conv: Value -> Result<R, PyError>)
    ensures Classify(o).Failure? ==> TypedResult(o, conv) == Failure(Api(Classify(o).error))
    ensures o.Response? && IsSuccess(o.status) && o.json.PyList? ==>
      var items := o.json.items;
      var r := TypedResult(o, conv);
      && (r.Success? <==> forall i :: 0 <= i < |items| ==> conv(items[i]).Success?)
      && (r.Success? ==> |r.value| == |items| && forall i :: 0 <= i < |items| ==> r.value[i] == conv(items[i]).value)
      && (r.Failure? ==> exists j :: 0 <= j < |items| && conv(items[j]).Failure?
                                    && r.error == Runtime(conv(items[j]).error) && forall i :: 0 <= i < j ==> conv(items[i]).Success?)
    ensures o.Response? && IsSuccess(o.status) && !InBandError(o.json) && !o.json.PyList? ==>
      TypedResult(o, conv) == if o.json == PyDict(map[]) || o.json == PyStr("") then Success([]) else Failure(Runtime(TypeError))
  {
    if o.Response? && IsSuccess(o.status) && !InBandError(o.json) && !o.json.PyList? {
      NonListRows(o.json, conv);
    }
  }
}
