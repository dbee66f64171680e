/**
  The Aerospike backend, abstracted to what the savers rely on: one namespace
  of records, each addressed by (namespace, set, user key) and holding a
  dictionary of bins. A write replaces the record; a read of an absent key is
  the client's `RecordNotFound`.
 */
module Backend {
  import opened Values

  datatype Key = Key(namespace: string, setName: string, user: string)

  type Bins = map<string, Value>

  type Store = map<Key, Bins>

  /** An operation's result together with the backend state it leaves. */
  datatype Outcome<T> = Outcome(result: Result<T>, store: Store)

  /** `client.get(key)` with `RecordNotFound` read as `None`. */
  function Lookup(s: Store, k: Key): (r: Option<Bins>)
    ensures r.Some? <==> k in s
    ensures r.Some? ==> r.value == s[k]
  {
    if k in s then Some(s[k]) else None
  }
}
