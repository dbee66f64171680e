/** What `AerospikeSaverMin`'s operations guarantee, stated over module `LegacySaver`'s functions. */
module LegacyProps {
  import opened Values
  import opened Backend
  import opened Codecs
  import Keys
  import opened LegacySaver

  /** A config naming only a thread and a namespace. */
  function MinConfig(thread: Value, ns: Value): map<string, Value> {
    map["configurable" := VMap(map["thread_id" := thread, "checkpoint_ns" := ns])]
  }

  /** The same, naming a checkpoint id too. */
  function MinConfigAt(thread: Value, ns: Value, ck: Value): map<string, Value> {
    map["configurable" := VMap(map["thread_id" := thread, "checkpoint_ns" := ns, "checkpoint_id" := ck])]
  }

  // ---------- _ids_from_config ----------

  /**
    For any config whose `configurable` reads as a dictionary (`{}` when
    absent): the call fails exactly when it has no truthy `thread_id`; the
    namespace falls back to `"default"` and the id is read as is.
   */
  lemma IdsCases(cfg: map<string, Value>, c: map<string, Value>)
    requires DictGetOr(cfg, "configurable", VMap(map[])) == VMap(c)
    ensures var r := IdsFromConfig(cfg);
      && (r.Err? <==> !Truthy(DictGet(c, "thread_id")))
      && (r.Err? ==> r.error == MissingThreadId)
      && (r.Ok? ==> r.value == MinIds(c["thread_id"], Or(DictGet(c, "checkpoint_ns"), VStr("default")), DictGet(c, "checkpoint_id")))
  {
  }

  /** A config without `configurable` has no thread. */
  lemma IdsNeedConfigurable(cfg: map<string, Value>)
    requires "configurable" !in cfg
    ensures IdsFromConfig(cfg) == Err(MissingThreadId)
  {
  }

  /** Unlike the main saver, this one never falls back to `metadata`. */
  lemma IdsIgnoreMetadata(cfg: map<string, Value>, md: Value)
    ensures IdsFromConfig(cfg["metadata" := md]) == IdsFromConfig(cfg)
  {
    assert DictGetOr(cfg["metadata" := md], "configurable", VMap(map[])) == DictGetOr(cfg, "configurable", VMap(map[]));
  }

  /** The parsed thread and namespace of a config parse back from `MinConfig`. */
  lemma MinConfigParses(ids: MinIds)
    requires Truthy(ids.thread) && Truthy(ids.ns)
    ensures IdsFromConfig(MinConfig(ids.thread, ids.ns)) == Ok(MinIds(ids.thread, ids.ns, VNull))
    ensures IdsFromConfig(MinConfigAt(ids.thread, ids.ns, ids.ck)) == Ok(ids)
  {
    var c := map["thread_id" := ids.thread, "checkpoint_ns" := ids.ns];
    assert DictGet(c, "thread_id") == ids.thread && DictGet(c, "checkpoint_ns") == ids.ns;
    assert DictGet(c, "checkpoint_id") == VNull;
    var c' := map["thread_id" := ids.thread, "checkpoint_ns" := ids.ns, "checkpoint_id" := ids.ck];
    assert DictGet(c', "thread_id") == ids.thread && DictGet(c', "checkpoint_ns") == ids.ns;
    assert DictGet(c', "checkpoint_id") == ids.ck;
  }

  // ---------- keys ----------

  /** Joining three strs is the f-string the main saver uses. */
  lemma JoinThree(a: string, b: string, c: string)
    ensures Join([VStr(a), VStr(b), VStr(c)]) == Ok(Keys.Joined(a, b, c))
  {
    var parts := [VStr(a), VStr(b), VStr(c)];
    assert parts[1..] == [VStr(b), VStr(c)];
    assert parts[1..][1..] == [VStr(c)];
    assert Join([VStr(c)]) == Ok(c);
    assert Join([VStr(b), VStr(c)]) == Ok(b + Sep + c);
    assert Keys.Joined(a, b, c) == a + Sep + (b + Sep + c);
  }

  /** Distinct triples get distinct checkpoint keys, when thread and namespace have no `|`. */
  lemma CkKeyInjective(l: MinLayout, t: string, n: string, ck: string, t': string, n': string, ck': string)
    requires '|' !in t && '|' !in n && '|' !in t' && '|' !in n'
    requires CkKey(l, VStr(t), VStr(n), VStr(ck)) == CkKey(l, VStr(t'), VStr(n'), VStr(ck'))
    ensures t == t' && n == n' && ck == ck'
  {
    JoinThree(t, n, ck);
    JoinThree(t', n', ck');
    Keys.JoinedInjective(t, n, ck, t', n', ck');
  }

  /** As in the main saver, the separator is not escaped: two triples can share a key. */
  lemma CkKeyCollision(l: MinLayout)
    ensures CkKey(l, VStr("a|b"), VStr("c"), VStr("d")) == CkKey(l, VStr("a"), VStr("b|c"), VStr("d"))
  {
    JoinThree("a|b", "c", "d");
    JoinThree("a", "b|c", "d");
    assert Keys.Joined("a|b", "c", "d") == "a|b|c|d" == Keys.Joined("a", "b|c", "d");
  }

  /** A generated id is all digits, so it never holds the separator. */
  lemma GeneratedIdHasNoSep(ids: MinIds, clockMs: nat)
    requires ids.ck == VNull
    ensures CheckpointIdFor(ids, clockMs).VStr? && '|' !in CheckpointIdFor(ids, clockMs).s
  {
  }

  // ---------- put ----------

  /**
    `put` is create-only: when the checkpoint record already exists it fails
    with `RecordExists` and writes nothing, not even the latest pointer.
   */
  lemma PutCreateOnly(c: Codecs, l: MinLayout, s: Store, cfg: map<string, Value>, cp: map<string, Value>,
                      md: map<string, Value>, taskId: Value, clockMs: nat, now: int)
    requires IdsFromConfig(cfg).Ok?
    requires var ids := IdsFromConfig(cfg).value;
      var k := CkKey(l, ids.thread, ids.ns, CheckpointIdFor(ids, clockMs));
      k.Ok? && k.value in s
    ensures PutSpec(c, l, s, cfg, cp, md, taskId, clockMs, now) == Outcome(Err(RecordExists), s)
  {
  }

  /**
    A failed `put` writes nothing, and a successful one writes the new
    checkpoint record and the latest pointer and no other record: no
    existing checkpoint record is ever overwritten.
   */
  lemma PutRecords(c: Codecs, l: MinLayout, s: Store, cfg: map<string, Value>, cp: map<string, Value>,
                   md: map<string, Value>, taskId: Value, clockMs: nat, now: int)
    requires l.setCkpt != l.setLatest
    ensures var o := PutSpec(c, l, s, cfg, cp, md, taskId, clockMs, now);
      && (o.result.Err? ==> o.store == s)
      && (o.result.Ok? ==>
            var ids := IdsFromConfig(cfg).value;
            var ck := CheckpointIdFor(ids, clockMs);
            var k := CkKey(l, ids.thread, ids.ns, ck);
            var lk := LatestKey(l, ids.thread, ids.ns);
            && k.Ok? && lk.Ok? && k.value !in s
            && Lookup(o.store, k.value) == Some(CheckpointBins(c, ids, ck, cp, md, taskId, now))
            && Lookup(o.store, lk.value) == Some(LatestBins(ids, ck, now))
            && (forall key :: key != k.value && key != lk.value ==> Lookup(o.store, key) == Lookup(s, key))
            && (forall key :: key in s && key.setName == l.setCkpt ==> key in o.store && o.store[key] == s[key]))
  {
    var o := PutSpec(c, l, s, cfg, cp, md, taskId, clockMs, now);
    if o.result.Ok? {
      var ids := IdsFromConfig(cfg).value;
      var k := CkKey(l, ids.thread, ids.ns, CheckpointIdFor(ids, clockMs));
      var lk := LatestKey(l, ids.thread, ids.ns);
      assert k.Ok? && lk.Ok?;
      assert k.value.setName == l.setCkpt && lk.value.setName == l.setLatest;
    }
  }

  /** Retrying a successful `put` with an explicit id fails and leaves the store as the first call left it. */
  lemma PutRetryRejected(c: Codecs, l: MinLayout, s: Store, cfg: map<string, Value>, cp: map<string, Value>,
                         md: map<string, Value>, taskId: Value, clockMs: nat, now: int,
                         cp': map<string, Value>, md': map<string, Value>, taskId': Value, clockMs': nat, now': int)
    requires l.setCkpt != l.setLatest
    requires IdsFromConfig(cfg).Ok? && IdsFromConfig(cfg).value.ck != VNull
    requires PutSpec(c, l, s, cfg, cp, md, taskId, clockMs, now).result.Ok?
    ensures var s1 := PutSpec(c, l, s, cfg, cp, md, taskId, clockMs, now).store;
      PutSpec(c, l, s1, cfg, cp', md', taskId', clockMs', now') == Outcome(Err(RecordExists), s1)
  {
    PutRecords(c, l, s, cfg, cp, md, taskId, clockMs, now);
    var s1 := PutSpec(c, l, s, cfg, cp, md, taskId, clockMs, now).store;
    var ids := IdsFromConfig(cfg).value;
    assert CheckpointIdFor(ids, clockMs') == CheckpointIdFor(ids, clockMs);
    PutCreateOnly(c, l, s1, cfg, cp', md', taskId', clockMs', now');
  }

  // ---------- get_tuple ----------

  /**
    The body of a found record decodes exactly when `state_blob` is present
    and both JSON bins parse; it yields a tuple exactly when the checkpoint
    is a dictionary with a `"v"` key, else no state.
   */
  lemma DecodeCases(c: Codecs, b: Bins)
    ensures var r := Decode(c, b);
      && ("state_blob" !in b ==> r == Err(MissingBin))
      && ("state_blob" in b && c.jsonLoads(b["state_blob"]).None? ==> r == Err(Undecodable))
      && (r.Ok? <==> "state_blob" in b && c.jsonLoads(b["state_blob"]).Some?
                      && c.jsonLoads(DictGetOr(b, "metadata_json", VStr("{}"))).Some?)
      && (r.Ok? ==>
            var checkpoint := c.jsonLoads(b["state_blob"]).value;
            (r.value.Some? <==> checkpoint.VMap? && "v" in checkpoint.entries)
            && (r.value.Some? ==> r.value.value == LegacyTuple(checkpoint,
                  c.jsonLoads(DictGetOr(b, "metadata_json", VStr("{}"))).value, VNull, [], VNull)))
  {
  }

  /** Without an id and without a latest pointer there is no state. */
  lemma GetTupleNoPointer(c: Codecs, l: MinLayout, s: Store, cfg: map<string, Value>)
    requires IdsFromConfig(cfg).Ok? && IdsFromConfig(cfg).value.ck == VNull
    requires var ids := IdsFromConfig(cfg).value;
      var lk := LatestKey(l, ids.thread, ids.ns);
      lk.Ok? && lk.value !in s
    ensures GetTupleSpec(c, l, s, cfg) == Ok(None)
  {
  }

  /** An id that resolves, by configuration or pointer, to a key with no record gives no state. */
  lemma GetTupleNoRecord(c: Codecs, l: MinLayout, s: Store, cfg: map<string, Value>, ck: Value)
    requires IdsFromConfig(cfg).Ok?
    requires var ids := IdsFromConfig(cfg).value;
      var k := CkKey(l, ids.thread, ids.ns, ck);
      ResolveCk(l, s, ids) == Ok(Some(ck)) && k.Ok? && k.value !in s
    ensures GetTupleSpec(c, l, s, cfg) == Ok(None)
  {
  }

  /** A latest pointer without a `checkpoint_id` bin raises `KeyError`. */
  lemma GetTuplePointerWithoutId(c: Codecs, l: MinLayout, s: Store, cfg: map<string, Value>)
    requires IdsFromConfig(cfg).Ok? && IdsFromConfig(cfg).value.ck == VNull
    requires var ids := IdsFromConfig(cfg).value;
      var lk := LatestKey(l, ids.thread, ids.ns);
      lk.Ok? && lk.value in s && "checkpoint_id" !in s[lk.value]
    ensures GetTupleSpec(c, l, s, cfg) == Err(MissingBin)
  {
  }

  /** The bins of a checkpoint record, read back. */
  lemma CheckpointBinsRead(c: Codecs, ids: MinIds, ck: Value, cp: map<string, Value>, md: map<string, Value>,
                           taskId: Value, now: int)
    ensures var b := CheckpointBins(c, ids, ck, cp, md, taskId, now);
      && "state_blob" in b && b["state_blob"] == VStr(c.jsonDumps(VMap(cp)))
      && DictGetOr(b, "metadata_json", VStr("{}")) == VStr(c.jsonDumps(VMap(md["task_id" := taskId])))
  {
  }

  /** What `get_tuple` finds in a store holding the two records `put` writes, once the config is parsed. */
  lemma ReadsRecords(c: Codecs, l: MinLayout, s: Store, q: MinIds, ids: MinIds, ck: Value, b: Bins,
                     cp: map<string, Value>, md: map<string, Value>, taskId: Value, now: int)
    requires JsonRoundTrips(c) && JsonSafe(VMap(cp)) && JsonSafe(VMap(md)) && JsonSafe(taskId)
    requires q.thread == ids.thread && q.ns == ids.ns && (q.ck == VNull || q.ck == ck)
    requires var k := CkKey(l, ids.thread, ids.ns, ck);
      k.Ok? && Lookup(s, k.value) == Some(b)
    requires "state_blob" in b && b["state_blob"] == VStr(c.jsonDumps(VMap(cp)))
    requires DictGetOr(b, "metadata_json", VStr("{}")) == VStr(c.jsonDumps(VMap(md["task_id" := taskId])))
    requires var lk := LatestKey(l, ids.thread, ids.ns);
      lk.Ok? && Lookup(s, lk.value) == Some(LatestBins(ids, ck, now))
    ensures TupleFor(c, l, s, q)
         == Ok(if "v" in cp then Some(LegacyTuple(VMap(cp), VMap(md["task_id" := taskId]), VNull, [], VNull)) else None)
  {
    assert "checkpoint_id" in LatestBins(ids, ck, now) && LatestBins(ids, ck, now)["checkpoint_id"] == ck;
    assert ResolveCk(l, s, q) == Ok(Some(ck));
    assert c.jsonLoads(VStr(c.jsonDumps(VMap(cp)))) == Some(VMap(cp));
    var m := md["task_id" := taskId];
    assert JsonSafe(VMap(m));
    assert c.jsonLoads(VStr(c.jsonDumps(VMap(m)))) == Some(VMap(m));
  }

  /**
    After a successful `put`, `get_tuple` for the same thread and
    namespace, by the latest pointer or by the id, returns the checkpoint
    and the metadata with `task_id` added; a checkpoint without `"v"` reads
    back as no state.
   */
  lemma PutThenGet(c: Codecs, l: MinLayout, s: Store, cfg: map<string, Value>, cp: map<string, Value>,
                   md: map<string, Value>, taskId: Value, clockMs: nat, now: int)
    requires JsonRoundTrips(c) && l.setCkpt != l.setLatest
    requires JsonSafe(VMap(cp)) && JsonSafe(VMap(md)) && JsonSafe(taskId)
    requires PutSpec(c, l, s, cfg, cp, md, taskId, clockMs, now).result.Ok?
    ensures var ids := IdsFromConfig(cfg).value;
      var s1 := PutSpec(c, l, s, cfg, cp, md, taskId, clockMs, now).store;
      var expected := Ok(if "v" in cp then Some(LegacyTuple(VMap(cp), VMap(md["task_id" := taskId]), VNull, [], VNull)) else None);
      && GetTupleSpec(c, l, s1, MinConfig(ids.thread, ids.ns)) == expected
      && GetTupleSpec(c, l, s1, MinConfigAt(ids.thread, ids.ns, CheckpointIdFor(ids, clockMs))) == expected
  {
    var ids := IdsFromConfig(cfg).value;
    var ck := CheckpointIdFor(ids, clockMs);
    var s1 := PutSpec(c, l, s, cfg, cp, md, taskId, clockMs, now).store;
    PutRecords(c, l, s, cfg, cp, md, taskId, clockMs, now);
    MinConfigParses(ids);
    MinConfigParses(MinIds(ids.thread, ids.ns, ck));
    var b := CheckpointBins(c, ids, ck, cp, md, taskId, now);
    CheckpointBinsRead(c, ids, ck, cp, md, taskId, now);
    ReadsRecords(c, l, s1, MinIds(ids.thread, ids.ns, VNull), ids, ck, b, cp, md, taskId, now);
    ReadsRecords(c, l, s1, MinIds(ids.thread, ids.ns, ck), ids, ck, b, cp, md, taskId, now);
  }
}
