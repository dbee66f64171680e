/**
  The foreign codecs the savers call: the serializer's `dumps_typed` and
  `loads_typed`, the `json` module, and Python's `str()` as used by f-strings.
  They are parameters of the model; `Lawful` collects the facts about them
  that the round-trip properties need, and nothing else assumes them.
 */
module Codecs {
  import opened Values

  datatype Codecs = Codecs(
    /** `serde.dumps_typed(v)`: a type tag and the serialized bytes. */
    dumpsTyped: Value -> (string, seq<bv8>),
    /** `serde.loads_typed((tag, data))`: `None` stands for a raised exception. */
    loadsTyped: (Value, Value) -> Option<Value>,
    /** `json.dumps(v)` */
    jsonDumps: Value -> string,
    /** `json.loads(v)`: `None` stands for a raised exception (bad text, or not text at all). */
    jsonLoads: Value -> Option<Value>,
    /** `str(v)`, as an f-string renders a key component. */
    toStr: Value -> string)

  /** Serializing with the typed serializer and loading the result gives the value back. */
  ghost predicate SerdeRoundTrips(c: Codecs) {
    forall v :: c.loadsTyped(VStr(c.dumpsTyped(v).0), VBytes(c.dumpsTyped(v).1)) == Some(v)
  }

  /** `json.loads(json.dumps(v)) == v` for every JSON-renderable value. */
  ghost predicate JsonRoundTrips(c: Codecs) {
    forall v :: JsonSafe(v) ==> c.jsonLoads(VStr(c.jsonDumps(v))) == Some(v)
  }

  /** `json.loads` only ever produces JSON values. */
  ghost predicate JsonParsesToJson(c: Codecs) {
    forall s, v :: c.jsonLoads(s) == Some(v) ==> JsonSafe(v)
  }

  ghost predicate Lawful(c: Codecs) {
    && SerdeRoundTrips(c)
    && JsonRoundTrips(c)
    && JsonParsesToJson(c)
    && c.jsonLoads(VStr("{}")) == Some(VMap(map[]))
    && c.jsonLoads(VStr("[]")) == Some(VList([]))
    && (forall s :: c.toStr(VStr(s)) == s)
  }
}
