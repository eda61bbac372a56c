/**
 * How the endpoint methods turn parsed JSON into records: `for item in data`
 * over the response, one record per item, in order, and the whole call fails
 * on the first item that cannot be turned into a record.
 */
module Records {
  import opened Wrappers
  import opened Values

  /**
   * The items `for item in data` visits, as far as a row consumer can use
   * them. A list yields its elements. A dict or a str yields strings, on which
   * both consumers here (`Model(**item)` and `item["date"]`) raise TypeError,
   * so a non-empty one fails and an empty one yields nothing. Any other value
   * is not iterable.
   */
  function Rows(data: Value): (r: Result<seq<Value>, PyError>)
    ensures r.Success? <==> data.PyList? || data == PyDict(map[]) || data == PyStr("")
    ensures r.Success? ==> r.value == if data.PyList? then data.items else []
    ensures r.Failure? ==> r.error == TypeError
  {
    match data
    case PyList(items) => Success(items)
    case PyDict(entries) => if |entries| == 0 then Success([]) else Failure(TypeError)
    case PyStr(s) => if |s| == 0 then Success([]) else Failure(TypeError)
    case _ => Failure(TypeError)
  }

  /**
   * Converting a list item by item, left to right, stopping at the first
   * item that fails: the list comprehension and the append loop alike.
   */
  function MapItems<R>(items: seq<Value>, conv: Value -> Result<R, PyError>): (r: Result<seq<R>, PyError>)
    ensures r.Success? <==> forall i :: 0 <= i < |items| ==> conv(items[i]).Success?
    ensures r.Success? ==> |r.value| == |items| && forall i :: 0 <= i < |items| ==> r.value[i] == conv(items[i]).value
    ensures r.Failure? ==>
      exists j :: 0 <= j < |items| && conv(items[j]) == Failure(r.error) && forall i :: 0 <= i < j ==> conv(items[i]).Success?
    decreases |items|
  {
    if |items| == 0 then Success([])
    else
      var last := items[|items| - 1];
      match MapItems(items[..|items| - 1], conv)
      case Failure(e) => Failure(e)
      case Success(init) =>
        match conv(last)
        case Failure(e) => Failure(e)
        case Success(x) => Success(init + [x])
  }

  /** Iterating over a response and converting every item. */
  function MapRows<R>(data: Value, conv: Value -> Result<R, PyError>): Result<seq<R>, PyError> {
    match Rows(data)
    case Failure(e) => Failure(e)
    case Success(items) => MapItems(items, conv)
  }

  /**
   * `Model(**item)`: the item must be a dict (TypeError otherwise); `build`
   * stands for the record model's own validation, which is not modelled.
   */
  function Construct<R>(build: Dict -> Result<R, PyError>, item: Value): (r: Result<R, PyError>)
    ensures !item.PyDict? ==> r == Failure(TypeError)
    ensures item.PyDict? ==> r == build(item.entries)
  {
    if item.PyDict? then build(item.entries) else Failure(TypeError)
  }

  /** Construct as a function of the item alone. */
  function ModelConverter<R>(build: Dict -> Result<R, PyError>): Value -> Result<R, PyError> {
    item => Construct(build, item)
  }

  /** `[Model(**item) for item in data]`. */
  function FromResponse<R>(data: Value, build: Dict -> Result<R, PyError>): Result<seq<R>, PyError> {
    MapRows(data, ModelConverter(build))
  }

  /**
   * A typed endpoint returns one record per item of a list response, in the
   * response's order; it succeeds exactly when every item is a dict its model
   * accepts, and otherwise fails with the error of the first item that is not.
   */
  lemma FromListResponse<R>(items: seq<Value>, build: Dict -> Result<R, PyError>)
    ensures var r := FromResponse(PyList(items), build);
      && (r.Success? <==> forall i :: 0 <= i < |items| ==> items[i].PyDict? && build(items[i].entries).Success?)
      && (r.Success? ==> |r.value| == |items| && forall i :: 0 <= i < |items| ==> r.value[i] == build(items[i].entries).value)
      && (r.Failure? ==> exists j :: 0 <= j < |items| && Construct(build, items[j]) == Failure(r.error)
                                    && forall i :: 0 <= i < j ==> items[i].PyDict? && build(items[i].entries).Success?)
  {
    var conv := ModelConverter(build);
    var r := MapItems(items, conv);
    assert FromResponse(PyList(items), build) == r;
    assert forall i :: 0 <= i < |items| ==> conv(items[i]) == Construct(build, items[i]);
  }

  /**
   * Once a prefix of the list has failed, the rest is never converted: the
   * whole list fails with the prefix's error. This is what lets a loop
   * return as soon as one item fails.
   */
  lemma {:induction false} MapItemsStopsAtFailure<R>(items: seq<Value>, k: nat, conv: Value -> Result<R, PyError>)
    requires k <= |items| && MapItems(items[..k], conv).Failure?
    ensures MapItems(items, conv) == MapItems(items[..k], conv)
    decreases |items|
  {
    if k == |items| {
      assert items[..k] == items;
    } else {
      var init := items[..|items| - 1];
      assert init[..k] == items[..k];
      MapItemsStopsAtFailure(init, k, conv);
    }
  }

  /** Converting one more item: the prefix's records with the new one appended, or the new item's error. */
  lemma MapItemsStep<R>(items: seq<Value>, i: nat, conv: Value -> Result<R, PyError>)
    requires i < |items| && MapItems(items[..i], conv).Success?
    ensures conv(items[i]).Failure? ==> MapItems(items[..i + 1], conv) == Failure(conv(items[i]).error)
    ensures conv(items[i]).Success? ==> MapItems(items[..i + 1], conv) == Success(MapItems(items[..i], conv).value + [conv(items[i]).value])
  {
    assert items[..i + 1][..i] == items[..i];
  }

  /**
   * A response that is not a list yields no records when it is an empty dict
   * or an empty string, and otherwise fails with TypeError, whatever the
   * conversion: a non-empty dict or string yields strings, and any other
   * value is not iterable.
   */
  lemma NonListRows<R>(data: Value, conv: Value -> Result<R, PyError>)
    requires !data.PyList?
    ensures MapRows(data, conv) == if data == PyDict(map[]) || data == PyStr("") then Success([]) else Failure(TypeError)
  {
  }
}
