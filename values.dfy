/**
  Dynamic values as the saver sees them: the loosely-typed dictionaries of a
  RunnableConfig, checkpoint payloads, record bins and parsed JSON. The
  operations here give Python's meaning to `None`, truthiness, `a or b` and
  `dict.get`, which the saver relies on throughout.
 */
module Values {

  datatype Option<+T> = None | Some(value: T)

  /** A Python value restricted to what the saver stores and reads (no floats). */
  datatype Value =
    | VNull
    | VBool(b: bool)
    | VInt(i: int)
    | VStr(s: string)
    | VBytes(bytes: seq<bv8>)
    | VList(items: seq<Value>)
    | VMap(entries: map<string, Value>)

  /** Python truthiness: `None`, `False`, `0` and empty containers are falsy. */
  predicate Truthy(v: Value) {
    match v
    case VNull => false
    case VBool(b) => b
    case VInt(i) => i != 0
    case VStr(s) => s != ""
    case VBytes(bs) => bs != []
    case VList(xs) => xs != []
    case VMap(m) => m != map[]
  }

  /** Python's `a or b`: the first operand when it is truthy, else the second. */
  function Or(a: Value, b: Value): (r: Value)
    ensures Truthy(a) ==> r == a
    ensures !Truthy(a) ==> r == b
    ensures Truthy(r) <==> Truthy(a) || Truthy(b)
  {
    if Truthy(a) then a else b
  }

  /** `d.get(k, default)` on a string-keyed dictionary. */
  function DictGetOr(d: map<string, Value>, k: string, default: Value): Value {
    if k in d then d[k] else default
  }

  /** `d.get(k)`: a missing key reads as `None`. */
  function DictGet(d: map<string, Value>, k: string): Value {
    DictGetOr(d, k, VNull)
  }

  /** Values that `json.dumps` can render: anything without a bytes object inside. */
  predicate JsonSafe(v: Value) {
    match v
    case VBytes(_) => false
    case VList(xs) => forall i :: 0 <= i < |xs| ==> JsonSafe(xs[i])
    case VMap(m) => forall k :: k in m ==> JsonSafe(m[k])
    case _ => true
  }

  /** The exceptions the saver raises, one constructor per cause. */
  datatype Error =
    | MissingThreadId       // ValueError: no truthy thread_id
    | MissingCheckpointId   // ValueError: put() without a truthy checkpoint id
    | NotADict              // AttributeError: `.get` on a value that is not a dict
    | MalformedLedger       // TypeError/AttributeError: a writes bin that is not a list of dicts
    | MissingBin            // KeyError: a bin the legacy saver indexes directly is absent
    | NotAString            // TypeError: `"|".join` over a value that is not a str
    | Undecodable           // an exception raised by a foreign decoder and not caught
    | RecordExists          // the create-only write found the key already present

  datatype Result<+T> = Ok(value: T) | Err(error: Error)
}
