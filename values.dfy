/**
 * The Python values the client handles: query-parameter values, parsed JSON
 * and the items of a response list, with the few pieces of Python semantics
 * the client relies on (truthiness, `d[k]`, `d.get(k)`, `str(b).lower()`).
 */
module Values {
  import opened Wrappers

  /** A Python float, kept as its IEEE-754 bit pattern; it is only stored and passed on. */
  datatype Float = Float(bits: bv64) {
    /** 0.0 and -0.0, the only falsy floats. */
    predicate IsZero() {
      bits & 0x7FFF_FFFF_FFFF_FFFF == 0
    }
  }

  datatype Value =
    | PyNone
    | PyBool(b: bool)
    | PyInt(i: int)
    | PyFloat(f: Float)
    | PyStr(s: string)
    | PyList(items: seq<Value>)
    | PyDict(entries: map<string, Value>)

  type Dict = map<string, Value>

  /** The errors Python itself raises in the code modelled (not the client's own exceptions). */
  datatype PyError =
    | TypeError
    | KeyError(key: string)
    | ValidationError(detail: string)  // raised by a record model on a row it rejects

  /** `bool(v)`: what `if v:` tests. */
  predicate Truthy(v: Value) {
    match v
    case PyNone => false
    case PyBool(b) => b
    case PyInt(i) => i != 0
    case PyFloat(f) => !f.IsZero()
    case PyStr(s) => |s| != 0
    case PyList(items) => |items| != 0
    case PyDict(entries) => |entries| != 0
  }

  /** `v[key]` for a string key: a dict lookup, a KeyError, or a TypeError for anything that is not a dict. */
  function Subscript(v: Value, key: string): (r: Result<Value, PyError>)
    ensures r.Success? <==> v.PyDict? && key in v.entries
    ensures r.Success? ==> r.value == v.entries[key]
    ensures r.Failure? ==> r.error == if v.PyDict? then KeyError(key) else TypeError
  {
    match v
    case PyDict(entries) => if key in entries then Success(entries[key]) else Failure(KeyError(key))
    case _ => Failure(TypeError)
  }

  /** `d.get(key)`: the entry, or None when the key is missing. */
  function DictGet(d: Dict, key: string): Value {
    if key in d then d[key] else PyNone
  }

  /** `str(b)` for a bool. */
  function BoolStr(b: bool): string {
    if b then "True" else "False"
  }

  function LowerChar(c: char): char {
    if 'A' <= c <= 'Z' then (c as int - 'A' as int + 'a' as int) as char else c
  }

  /** `s.lower()`, for the ASCII letters it is applied to here. */
  function Lower(s: string): (r: string)
    ensures |r| == |s|
  {
    seq(|s|, i requires 0 <= i < |s| => LowerChar(s[i]))
  }

  /** `str(b).lower()`: how a boolean filter is put on the query string. */
  function BoolParam(b: bool): (r: string)
    ensures r == "true" || r == "false"
    ensures r == "true" <==> b
  {
    Lower(BoolStr(b))
  }
}
