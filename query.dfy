/**
 * What every endpoint method hands to `_get`: a path and an optional
 * parameter dict, and the vocabulary used to state how an endpoint decides
 * whether an optional argument becomes a query parameter.
 */
module Query {
  import opened Wrappers
  import opened Values

  /** The arguments of one `self._get(endpoint, params=...)` call; params None when the method passes none. */
  datatype ApiCall = ApiCall(endpoint: string, params: Option<Dict>)

  /**
   * The two omission tests in the endpoint files: `if x is not None:`
   * (company screener and stock news) and `if x:` (the others).
   */
  datatype Rule = IsNotNone | IsTruthy

  predicate Keeps(rule: Rule, arg: Value) {
    match rule
    case IsNotNone => arg != PyNone
    case IsTruthy => Truthy(arg)
  }

  /** `params` holds `key` exactly when `rule` keeps `arg`, and then maps it to `wire`. */
  predicate Carries(params: Dict, key: string, rule: Rule, arg: Value, wire: Value) {
    && (key in params <==> Keeps(rule, arg))
    && (key in params ==> params[key] == wire)
  }

  /** Carries, for an argument sent as it is. */
  predicate Passes(params: Dict, key: string, rule: Rule, arg: Value) {
    Carries(params, key, rule, arg, arg)
  }

  /** One `if <rule keeps arg>: params[key] = wire` statement of an endpoint method. */
  datatype Insertion = Insertion(key: string, rule: Rule, arg: Value, wire: Value)

  /** The dict after one conditional insertion. */
  function SetIf(params: Dict, ins: Insertion): Dict {
    if Keeps(ins.rule, ins.arg) then params[ins.key := ins.wire] else params
  }

  /** The dict after a run of conditional insertions, performed in order. */
  function SetAll(params: Dict, run: seq<Insertion>): Dict
    decreases |run|
  {
    if |run| == 0 then params else SetAll(SetIf(params, run[0]), run[1..])
  }

  /** Running two runs one after the other is running their concatenation. */
  lemma {:induction false} SetAllAppend(params: Dict, first: seq<Insertion>, second: seq<Insertion>)
    ensures SetAll(params, first + second) == SetAll(SetAll(params, first), second)
    decreases |first|
  {
    if |first| > 0 {
      assert (first + second)[0] == first[0];
      assert (first + second)[1..] == first[1..] + second;
      SetAllAppend(SetIf(params, first[0]), first[1..], second);
    } else {
      assert first + second == second;
    }
  }

  /** No two insertions of the run write the same key. */
  predicate DistinctKeys(run: seq<Insertion>) {
    forall i, j :: 0 <= i < j < |run| ==> run[i].key != run[j].key
  }

  /** The keys a run names. */
  function KeysOf(run: seq<Insertion>): set<string> {
    set i | 0 <= i < |run| :: run[i].key
  }

  /** The keys a run actually writes. */
  function Written(run: seq<Insertion>): (keys: set<string>)
    ensures keys <= KeysOf(run)
  {
    set i | 0 <= i < |run| && Keeps(run[i].rule, run[i].arg) :: run[i].key
  }

  /** A key no insertion of the run names is left as it was. */
  lemma {:induction false} SetAllLeaves(params: Dict, run: seq<Insertion>, k: string)
    requires forall i :: 0 <= i < |run| ==> run[i].key != k
    ensures k in SetAll(params, run) <==> k in params
    ensures k in params ==> SetAll(params, run)[k] == params[k]
    decreases |run|
  {
    if |run| > 0 {
      SetAllLeaves(SetIf(params, run[0]), run[1..], k);
    }
  }

  /**
   * With distinct keys, a run starting from a dict that lacks the key of its
   * i-th insertion carries that key exactly as the insertion's rule decides.
   */
  lemma {:induction false} SetAllCarries(params: Dict, run: seq<Insertion>, i: int)
    requires DistinctKeys(run) && 0 <= i < |run| && run[i].key !in params
    ensures Carries(SetAll(params, run), run[i].key, run[i].rule, run[i].arg, run[i].wire)
    decreases |run|
  {
    var first := SetIf(params, run[0]);
    if i == 0 {
      SetAllLeaves(first, run[1..], run[0].key);
    } else {
      assert run[1..][i - 1] == run[i];
      SetAllCarries(first, run[1..], i - 1);
    }
  }

  /** A run none of whose rules keeps its argument leaves the dict as it was. */
  lemma {:induction false} SetAllNothingKept(params: Dict, run: seq<Insertion>)
    requires forall i :: 0 <= i < |run| ==> !Keeps(run[i].rule, run[i].arg)
    ensures SetAll(params, run) == params
    decreases |run|
  {
    if |run| > 0 {
      SetAllNothingKept(SetIf(params, run[0]), run[1..]);
    }
  }

  /** A run adds exactly the keys it writes. */
  lemma {:induction false} SetAllKeys(params: Dict, run: seq<Insertion>)
    ensures SetAll(params, run).Keys == params.Keys + Written(run)
    decreases |run|
  {
    if |run| > 0 {
      SetAllKeys(SetIf(params, run[0]), run[1..]);
      var head := if Keeps(run[0].rule, run[0].arg) then {run[0].key} else {};
      assert Written(run) == head + Written(run[1..]) by {
        forall k | k in Written(run) ensures k in head + Written(run[1..]) {
          var i :| 0 <= i < |run| && Keeps(run[i].rule, run[i].arg) && run[i].key == k;
          if i > 0 {
            assert run[1..][i - 1] == run[i];
          }
        }
        forall k | k in Written(run[1..]) ensures k in Written(run) {
          var i :| 0 <= i < |run[1..]| && Keeps(run[1..][i].rule, run[1..][i].arg) && run[1..][i].key == k;
          assert run[i + 1] == run[1..][i];
        }
      }
    }
  }

  /** `params` always holds `key`, mapped to `v`. */
  predicate Holds(params: Dict, key: string, v: Value) {
    key in params && params[key] == v
  }

  /** An optional argument as the Python value passed. */
  function OfStr(o: Option<string>): Value {
    if o.Some? then PyStr(o.value) else PyNone
  }

  function OfInt(o: Option<int>): Value {
    if o.Some? then PyInt(o.value) else PyNone
  }

  function OfFloat(o: Option<Float>): Value {
    if o.Some? then PyFloat(o.value) else PyNone
  }

  function OfBool(o: Option<bool>): Value {
    if o.Some? then PyBool(o.value) else PyNone
  }

  /** What `str(b).lower()` puts on the query for a boolean filter (unused when the filter is None). */
  function BoolWire(o: Option<bool>): Value {
    if o.Some? then PyStr(BoolParam(o.value)) else PyNone
  }

  /**
   * What `if x:` and `if x is not None:` test for an optional argument of
   * each annotated type: a string is kept unless None or "", a number unless
   * None or 0, a boolean unless None or False; `is not None` keeps every
   * argument that is given.
   */
  lemma ArgumentTests(s: Option<string>, n: Option<int>, x: Option<Float>, b: Option<bool>)
    ensures Keeps(IsTruthy, OfStr(s)) <==> s.Some? && s.value != ""
    ensures Keeps(IsTruthy, OfInt(n)) <==> n.Some? && n.value != 0
    ensures Keeps(IsTruthy, OfFloat(x)) <==> x.Some? && !x.value.IsZero()
    ensures Keeps(IsTruthy, OfBool(b)) <==> b == Some(true)
    ensures Keeps(IsNotNone, OfStr(s)) <==> s.Some?
    ensures Keeps(IsNotNone, OfInt(n)) <==> n.Some?
    ensures Keeps(IsNotNone, OfFloat(x)) <==> x.Some?
    ensures Keeps(IsNotNone, OfBool(b)) <==> b.Some?
  {
  }

  /**
   * The two rules differ exactly on the falsy values that are not None:
   * `is not None` sends 0, 0.0, "", False, while `if x:` drops them; both
   * drop None, and whatever `if x:` sends, `is not None` sends too.
   */
  lemma RulesCompared(v: Value)
    ensures Keeps(IsTruthy, v) ==> Keeps(IsNotNone, v)
    ensures Keeps(IsNotNone, v) && !Keeps(IsTruthy, v) <==> v != PyNone && !Truthy(v)
    ensures !Keeps(IsNotNone, PyNone) && !Keeps(IsTruthy, PyNone)
    ensures Keeps(IsNotNone, PyInt(0)) && !Keeps(IsTruthy, PyInt(0))
    ensures Keeps(IsNotNone, PyStr("")) && !Keeps(IsTruthy, PyStr(""))
    ensures Keeps(IsNotNone, PyBool(false)) && !Keeps(IsTruthy, PyBool(false))
  {
  }
}
