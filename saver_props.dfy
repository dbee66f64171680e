/**
  What `AerospikeSaver`'s operations guarantee, stated over the specification
  functions of module `Saver` (and so, through their contracts, over the
  methods of the class).
 */
module SaverProps {
  import opened Values
  import opened Backend
  import opened Codecs
  import opened Keys
  import opened Timeline
  import opened Ledger
  import opened Saver

  /** A config naming only a thread and a namespace, as a caller asking for the latest checkpoint. */
  function LatestConfig(thread: Value, ns: Value): map<string, Value> {
    map["configurable" := VMap(map["thread_id" := thread, "checkpoint_ns" := ns])]
  }

  // ---------- _ids_from_config ----------

  /** A config naming a parsed thread and namespace parses back to them, without id or `before`. */
  lemma LatestConfigParses(thread: Value, ns: Value)
    requires Truthy(thread) && (Truthy(ns) || ns == VStr(""))
    ensures IdsFromConfig(LatestConfig(thread, ns)) == Ok(Ids(thread, ns, VNull, VNull))
  {
    var c := map["thread_id" := thread, "checkpoint_ns" := ns];
    assert Section(LatestConfig(thread, ns), "configurable") == Ok(c);
    assert DictGet(c, "thread_id") == thread;
    assert DictGet(c, "checkpoint_ns") == ns;
    assert DictGet(c, "checkpoint_id") == VNull;
    assert DictGet(c, "before") == VNull;
  }

  /**
    For any config whose two sections read as dictionaries (a missing or
    falsy section reads as `{}`): the call fails exactly when neither has a
    truthy `thread_id`; the thread comes from `configurable` first, the
    namespace from `configurable`, then `metadata`, then `""`.
   */
  lemma IdsFallback(cfg: map<string, Value>, c: map<string, Value>, md: map<string, Value>)
    requires Section(cfg, "configurable") == Ok(c) && Section(cfg, "metadata") == Ok(md)
    ensures var r := IdsFromConfig(cfg);
      && (r.Err? <==> !Truthy(DictGet(c, "thread_id")) && !Truthy(DictGet(md, "thread_id")))
      && (r.Err? ==> r.error == MissingThreadId)
      && (r.Ok? ==>
            && r.value.threadId == Or(DictGet(c, "thread_id"), DictGet(md, "thread_id"))
            && r.value.ns == Or(DictGet(c, "checkpoint_ns"), Or(DictGet(md, "checkpoint_ns"), VStr("")))
            && r.value.checkpointId == DictGet(c, "checkpoint_id")
            && r.value.before == DictGet(c, "before"))
  {
  }

  /** A malformed `metadata` section is never read when `configurable` supplies thread and namespace. */
  lemma IdsIgnoreMetadataWhenConfigured(c: map<string, Value>, md: Value)
    requires Truthy(DictGet(c, "thread_id")) && Truthy(DictGet(c, "checkpoint_ns"))
    ensures IdsFromConfig(map["configurable" := VMap(c), "metadata" := md])
         == Ok(Ids(c["thread_id"], c["checkpoint_ns"], DictGet(c, "checkpoint_id"), DictGet(c, "before")))
  {
  }

  /** A truthy `configurable` section that is not a dictionary is an error. */
  lemma IdsRejectNonDict(cfg: map<string, Value>)
    requires "configurable" in cfg && Truthy(cfg["configurable"]) && !cfg["configurable"].VMap?
    ensures IdsFromConfig(cfg) == Err(NotADict)
  {
  }

  // ---------- put ----------

  /** A failed `put` writes nothing; given a parsable config it fails exactly when the id is falsy. */
  lemma PutFailsCleanly(c: Codecs, l: Layout, cap: nat, s: Store, cfg: map<string, Value>,
                        cp: map<string, Value>, md: map<string, Value>, now: int)
    ensures var o := PutSpec(c, l, cap, s, cfg, cp, md, now);
      && (o.result.Err? ==> o.store == s)
      && (IdsFromConfig(cfg).Err? ==> o.result == Err(IdsFromConfig(cfg).error))
      && (IdsFromConfig(cfg).Ok? ==> (o.result == Err(MissingCheckpointId) <==> !Truthy(DictGet(cp, "id"))))
  {
  }

  /** A successful `put` returns the updated config and leaves the store `PutStore` describes. */
  lemma PutOk(c: Codecs, l: Layout, cap: nat, s: Store, cfg: map<string, Value>,
              cp: map<string, Value>, md: map<string, Value>, now: int)
    requires IdsFromConfig(cfg).Ok? && Truthy(DictGet(cp, "id"))
    ensures var ids := IdsFromConfig(cfg).value;
      PutSpec(c, l, cap, s, cfg, cp, md, now)
        == Outcome(Ok(ReturnedConfig(cfg, Section(cfg, "configurable").value, ids, DictGet(cp, "id"))),
                   PutStore(c, l, cap, s, ids, cp, md, now))
  {
  }

  /** The three records of a `put`, and nothing else touched, for already parsed ids. */
  lemma PutStoreRecords(c: Codecs, l: Layout, cap: nat, s: Store, ids: Ids,
                        cp: map<string, Value>, md: map<string, Value>, now: int)
    requires DistinctSets(l)
    ensures var id, ts := DictGet(cp, "id"), StampOf(cp, now);
      var ck := CheckpointKey(l, c.toStr, ids.threadId, ids.ns, id);
      var lk := LatestKey(l, c.toStr, ids.threadId, ids.ns);
      var tk := TimelineKey(l, c.toStr, ids.threadId, ids.ns);
      var st := PutStore(c, l, cap, s, ids, cp, md, now);
      && ck in st && st[ck] == CheckpointBins(c, ids, id, Stamped(cp, now), md, ts)
      && lk in st && st[lk] == LatestBins(id, ts)
      && tk in st && st[tk] == TimelineBins(c, Push(TimelineOf(c, s, tk), Entry(ts, id), cap))
      && (forall k :: k != ck && k != lk && k != tk ==> Lookup(st, k) == Lookup(s, k))
  {
    LatestNeverTimeline(l, c.toStr, ids.threadId, ids.ns, ids.threadId, ids.ns);
  }

  /** The bins of the main record, read back one by one. */
  lemma CheckpointBinsRead(c: Codecs, ids: Ids, id: Value, cp: map<string, Value>, md: map<string, Value>, ts: Value)
    ensures var bins := CheckpointBins(c, ids, id, cp, md, ts);
      && DictGet(bins, "cp_type") == VStr(c.dumpsTyped(VMap(cp)).0)
      && DictGet(bins, "checkpoint") == VBytes(c.dumpsTyped(VMap(cp)).1)
      && DictGet(bins, "metadata") == VStr(c.jsonDumps(VMap(md)))
      && DictGetOr(bins, "metadata", VStr("{}")) == VStr(c.jsonDumps(VMap(md)))
      && DictGet(bins, "p_checkpoint_id") == ids.checkpointId
  {
  }

  /**
    A successful `put` writes three records: the main record (whose
    `p_checkpoint_id` is the incoming config's `checkpoint_id`), the latest
    pointer `(id, ts)`, and the timeline with the new entry pushed. Every
    other record is as it was.
   */
  lemma PutRecords(c: Codecs, l: Layout, cap: nat, s: Store, cfg: map<string, Value>,
                   cp: map<string, Value>, md: map<string, Value>, now: int)
    requires DistinctSets(l)
    requires IdsFromConfig(cfg).Ok? && Truthy(DictGet(cp, "id"))
    ensures var ids := IdsFromConfig(cfg).value;
      var id, ts := DictGet(cp, "id"), StampOf(cp, now);
      var ck := CheckpointKey(l, c.toStr, ids.threadId, ids.ns, id);
      var lk := LatestKey(l, c.toStr, ids.threadId, ids.ns);
      var tk := TimelineKey(l, c.toStr, ids.threadId, ids.ns);
      var o := PutSpec(c, l, cap, s, cfg, cp, md, now);
      && o.result.Ok?
      && ck in o.store && o.store[ck] == CheckpointBins(c, ids, id, Stamped(cp, now), md, ts)
      && DictGet(o.store[ck], "p_checkpoint_id") == ids.checkpointId
      && lk in o.store && o.store[lk] == LatestBins(id, ts)
      && tk in o.store && o.store[tk] == TimelineBins(c, Push(TimelineOf(c, s, tk), Entry(ts, id), cap))
      && (forall k :: k != ck && k != lk && k != tk ==> Lookup(o.store, k) == Lookup(s, k))
  {
    var ids := IdsFromConfig(cfg).value;
    PutOk(c, l, cap, s, cfg, cp, md, now);
    PutStoreRecords(c, l, cap, s, ids, cp, md, now);
    CheckpointBinsRead(c, ids, DictGet(cp, "id"), Stamped(cp, now), md, StampOf(cp, now));
  }

  /** The returned config overrides thread, namespace and id in `configurable` and keeps everything else. */
  lemma ReturnedConfigKeeps(cfg: map<string, Value>, conf: map<string, Value>, ids: Ids, id: Value)
    ensures var r := ReturnedConfig(cfg, conf, ids, id);
      && "configurable" in r && r["configurable"].VMap?
      && (forall k :: k in cfg && k != "configurable" ==> k in r && r[k] == cfg[k])
      && var rc := r["configurable"].entries;
         && DictGet(rc, "checkpoint_id") == id
         && DictGet(rc, "thread_id") == ids.threadId
         && DictGet(rc, "checkpoint_ns") == ids.ns
         && (forall k :: k in conf && k != "thread_id" && k != "checkpoint_ns" && k != "checkpoint_id" ==> k in rc && rc[k] == conf[k])
  {
  }

  /**
    `put` returns the caller's config with `configurable` carrying the
    thread, the namespace and the new id; every other key of `configurable`
    and of the config is kept.
   */
  lemma PutReturnsConfig(c: Codecs, l: Layout, cap: nat, s: Store, cfg: map<string, Value>,
                         cp: map<string, Value>, md: map<string, Value>, now: int)
    requires IdsFromConfig(cfg).Ok? && Truthy(DictGet(cp, "id"))
    ensures var ids := IdsFromConfig(cfg).value;
      var conf := Section(cfg, "configurable").value;
      var r := PutSpec(c, l, cap, s, cfg, cp, md, now).result;
      && r.Ok? && "configurable" in r.value && r.value["configurable"].VMap?
      && (forall k :: k in cfg && k != "configurable" ==> k in r.value && r.value[k] == cfg[k])
      && var rc := r.value["configurable"].entries;
         && DictGet(rc, "checkpoint_id") == DictGet(cp, "id")
         && DictGet(rc, "thread_id") == ids.threadId
         && DictGet(rc, "checkpoint_ns") == ids.ns
         && (forall k :: k in conf && k != "thread_id" && k != "checkpoint_ns" && k != "checkpoint_id" ==> k in rc && rc[k] == conf[k])
  {
    PutOk(c, l, cap, s, cfg, cp, md, now);
    ReturnedConfigKeeps(cfg, Section(cfg, "configurable").value, IdsFromConfig(cfg).value, DictGet(cp, "id"));
  }

  /** A config without an id resolves through the latest pointer; one with the pointer's id resolves to it. */
  lemma ResolvesTo(c: Codecs, l: Layout, s: Store, q: Ids, id: Value, ts: Value)
    requires q.checkpointId == VNull || q.checkpointId == id
    requires var lk := LatestKey(l, c.toStr, q.threadId, q.ns);
      lk in s && s[lk] == LatestBins(id, ts)
    ensures ResolveId(c, l, s, q) == Some(id)
  {
    assert "checkpoint_id" in LatestBins(id, ts) && LatestBins(id, ts)["checkpoint_id"] == id;
  }

  /**
    `get_tuple` over any store holding a latest pointer to `id` and a main
    record for `id` with the bins `put` writes, once the config has been
    parsed to ids that resolve to `id`.
   */
  lemma TupleReads(c: Codecs, l: Layout, s: Store, q: Ids, ids: Ids, id: Value,
                   bins: Bins, cp: map<string, Value>, md: map<string, Value>, ts: Value)
    requires SerdeRoundTrips(c) && JsonRoundTrips(c) && JsonSafe(VMap(md))
    requires q.threadId == ids.threadId && q.ns == ids.ns && (q.checkpointId == VNull || q.checkpointId == id)
    requires var lk := LatestKey(l, c.toStr, ids.threadId, ids.ns);
      lk in s && s[lk] == LatestBins(id, ts)
    requires Lookup(s, CheckpointKey(l, c.toStr, ids.threadId, ids.ns, id)) == Some(bins)
    requires DictGet(bins, "cp_type") == VStr(c.dumpsTyped(VMap(cp)).0)
    requires DictGet(bins, "checkpoint") == VBytes(c.dumpsTyped(VMap(cp)).1)
    requires DictGet(bins, "metadata") == VStr(c.jsonDumps(VMap(md)))
    requires DictGet(bins, "p_checkpoint_id") == ids.checkpointId
    ensures var w := PendingOf(c.loadsTyped, Lookup(s, WritesKey(l, c.toStr, ids.threadId, ids.ns, id)));
      var g := TupleFor(c, l, s, q);
      && (w.Err? ==> g == Err(w.error))
      && (w.Ok? ==> g == Ok(Some(CheckpointTuple(
            ConfigFor(ids.threadId, ids.ns, id), VMap(cp), VMap(md),
            if Truthy(ids.checkpointId) then Some(ConfigFor(ids.threadId, ids.ns, ids.checkpointId)) else None,
            w.value))))
  {
    ResolvesTo(c, l, s, q, id, ts);
    var v := VMap(cp);
    assert c.loadsTyped(VStr(c.dumpsTyped(v).0), VBytes(c.dumpsTyped(v).1)) == Some(v);
    assert c.jsonLoads(VStr(c.jsonDumps(VMap(md)))) == Some(VMap(md));
    assert MetadataOf(c, DictGet(bins, "metadata")) == VMap(md);
  }

  /** `get_tuple` after the records of a `put`, for parsed ids naming the same thread and namespace. */
  lemma PutStoreTuple(c: Codecs, l: Layout, cap: nat, s: Store, ids: Ids,
                      cp: map<string, Value>, md: map<string, Value>, now: int, q: Ids)
    requires SerdeRoundTrips(c) && JsonRoundTrips(c) && DistinctSets(l) && JsonSafe(VMap(md))
    requires q.threadId == ids.threadId && q.ns == ids.ns && (q.checkpointId == VNull || q.checkpointId == DictGet(cp, "id"))
    ensures var id := DictGet(cp, "id");
      var w := PendingOf(c.loadsTyped, Lookup(s, WritesKey(l, c.toStr, ids.threadId, ids.ns, id)));
      var g := TupleFor(c, l, PutStore(c, l, cap, s, ids, cp, md, now), q);
      && (w.Err? ==> g == Err(w.error))
      && (w.Ok? ==> g == Ok(Some(CheckpointTuple(
            ConfigFor(ids.threadId, ids.ns, id), VMap(Stamped(cp, now)), VMap(md),
            if Truthy(ids.checkpointId) then Some(ConfigFor(ids.threadId, ids.ns, ids.checkpointId)) else None,
            w.value))))
  {
    var id := DictGet(cp, "id");
    var st := PutStore(c, l, cap, s, ids, cp, md, now);
    PutStoreRecords(c, l, cap, s, ids, cp, md, now);
    var wk := WritesKey(l, c.toStr, ids.threadId, ids.ns, id);
    assert wk != CheckpointKey(l, c.toStr, ids.threadId, ids.ns, id);
    assert wk != LatestKey(l, c.toStr, ids.threadId, ids.ns);
    assert wk != TimelineKey(l, c.toStr, ids.threadId, ids.ns);
    assert Lookup(st, wk) == Lookup(s, wk);
    var bins := CheckpointBins(c, ids, id, Stamped(cp, now), md, StampOf(cp, now));
    CheckpointBinsRead(c, ids, id, Stamped(cp, now), md, StampOf(cp, now));
    TupleReads(c, l, st, q, ids, id, bins, Stamped(cp, now), md, StampOf(cp, now));
  }

  /**
    After `put`, `get_tuple` without a `checkpoint_id` resolves through the
    latest pointer to the new checkpoint: it returns the stored checkpoint,
    the metadata, a parent exactly when the incoming `checkpoint_id` was
    truthy, and the pending writes already on record for the new id.
   */
  lemma PutThenGetLatest(c: Codecs, l: Layout, cap: nat, s: Store, cfg: map<string, Value>,
                         cp: map<string, Value>, md: map<string, Value>, now: int)
    requires Lawful(c) && DistinctSets(l)
    requires IdsFromConfig(cfg).Ok? && Truthy(DictGet(cp, "id")) && JsonSafe(VMap(md))
    ensures var ids := IdsFromConfig(cfg).value;
      var id := DictGet(cp, "id");
      var w := PendingOf(c.loadsTyped, Lookup(s, WritesKey(l, c.toStr, ids.threadId, ids.ns, id)));
      var g := GetTupleSpec(c, l, PutSpec(c, l, cap, s, cfg, cp, md, now).store, LatestConfig(ids.threadId, ids.ns));
      && (w.Err? ==> g == Err(w.error))
      && (w.Ok? ==> g == Ok(Some(CheckpointTuple(
            ConfigFor(ids.threadId, ids.ns, id), VMap(Stamped(cp, now)), VMap(md),
            if Truthy(ids.checkpointId) then Some(ConfigFor(ids.threadId, ids.ns, ids.checkpointId)) else None,
            w.value))))
  {
    var ids := IdsFromConfig(cfg).value;
    var qids := Ids(ids.threadId, ids.ns, VNull, VNull);
    LatestConfigParses(ids.threadId, ids.ns);
    PutOk(c, l, cap, s, cfg, cp, md, now);
    PutStoreTuple(c, l, cap, s, ids, cp, md, now, qids);
  }

  /** The config `put` returns parses back to the same thread and namespace, with the new id. */
  lemma ReturnedConfigParses(cfg: map<string, Value>, ids: Ids, id: Value)
    requires IdsFromConfig(cfg) == Ok(ids) && Truthy(id)
    ensures var r := IdsFromConfig(ReturnedConfig(cfg, Section(cfg, "configurable").value, ids, id));
      r.Ok? && r.value.threadId == ids.threadId && r.value.ns == ids.ns && r.value.checkpointId == id
  {
    var conf := Section(cfg, "configurable").value;
    var conf' := conf["thread_id" := ids.threadId]["checkpoint_ns" := ids.ns]["checkpoint_id" := id];
    var rc := ReturnedConfig(cfg, conf, ids, id);
    assert "thread_id" in conf';
    assert Section(rc, "configurable") == Ok(conf');
  }

  /** The config `put` returns reads back the same checkpoint (its `checkpoint_id` is the new id). */
  lemma PutThenGetReturned(c: Codecs, l: Layout, cap: nat, s: Store, cfg: map<string, Value>,
                           cp: map<string, Value>, md: map<string, Value>, now: int)
    requires Lawful(c) && DistinctSets(l)
    requires IdsFromConfig(cfg).Ok? && Truthy(DictGet(cp, "id")) && JsonSafe(VMap(md))
    ensures var ids := IdsFromConfig(cfg).value;
      var id := DictGet(cp, "id");
      var o := PutSpec(c, l, cap, s, cfg, cp, md, now);
      var w := PendingOf(c.loadsTyped, Lookup(s, WritesKey(l, c.toStr, ids.threadId, ids.ns, id)));
      var g := GetTupleSpec(c, l, o.store, o.result.value);
      && o.result.Ok?
      && (w.Err? ==> g == Err(w.error))
      && (w.Ok? ==> g.Ok? && g.value.Some? && g.value.value.checkpoint == VMap(Stamped(cp, now))
                    && g.value.value.config == ConfigFor(ids.threadId, ids.ns, id))
  {
    var ids := IdsFromConfig(cfg).value;
    var id := DictGet(cp, "id");
    var rc := ReturnedConfig(cfg, Section(cfg, "configurable").value, ids, id);
    PutOk(c, l, cap, s, cfg, cp, md, now);
    ReturnedConfigParses(cfg, ids, id);
    PutStoreTuple(c, l, cap, s, ids, cp, md, now, IdsFromConfig(rc).value);
  }

  /** Every entry read from a timeline record holds JSON values. */
  lemma TimelineOfJsonSafe(c: Codecs, s: Store, k: Key)
    requires JsonParsesToJson(c)
    ensures forall i :: 0 <= i < |TimelineOf(c, s, k)| ==>
      JsonSafe(TimelineOf(c, s, k)[i].ts) && JsonSafe(TimelineOf(c, s, k)[i].id)
  {
    if k in s {
      var parsed := c.jsonLoads(DictGetOr(s[k], "items", VStr("[]")));
      if parsed.Some? && parsed.value.VList? {
        assert JsonSafe(parsed.value);
        CleanJsonSafe(parsed.value.items);
      }
    }
  }

  /** A timeline record written from JSON-renderable entries with str ids reads back as those entries. */
  lemma TimelineReadsBack(c: Codecs, s: Store, k: Key, p: seq<Entry>)
    requires JsonRoundTrips(c)
    requires k in s && s[k] == TimelineBins(c, p)
    requires forall i :: 0 <= i < |p| ==> p[i].id.VStr? && JsonSafe(p[i].ts) && JsonSafe(p[i].id)
    ensures TimelineOf(c, s, k) == p
  {
    var enc := Encode(p);
    forall i | 0 <= i < |enc| ensures JsonSafe(enc[i]) {
      assert enc[i] == VList([p[i].ts, p[i].id]);
    }
    assert JsonSafe(VList(enc));
    assert c.jsonLoads(VStr(c.jsonDumps(VList(enc)))) == Some(VList(enc));
    CleanEncode(p);
  }

  /** The timeline after the records of a `put`, for parsed ids. */
  lemma PutStoreTimeline(c: Codecs, l: Layout, cap: nat, s: Store, ids: Ids,
                         cp: map<string, Value>, md: map<string, Value>, now: int)
    requires JsonRoundTrips(c) && JsonParsesToJson(c) && DistinctSets(l)
    requires DictGet(cp, "id").VStr? && JsonSafe(StampOf(cp, now))
    ensures var tk := TimelineKey(l, c.toStr, ids.threadId, ids.ns);
      TimelineOf(c, PutStore(c, l, cap, s, ids, cp, md, now), tk)
        == Push(TimelineOf(c, s, tk), Entry(StampOf(cp, now), DictGet(cp, "id")), cap)
  {
    var tk := TimelineKey(l, c.toStr, ids.threadId, ids.ns);
    var e := Entry(StampOf(cp, now), DictGet(cp, "id"));
    var prior := TimelineOf(c, s, tk);
    var p := Push(prior, e, cap);
    PutStoreRecords(c, l, cap, s, ids, cp, md, now);
    TimelineOfJsonSafe(c, s, tk);
    PushFrom(prior, e, cap);
    forall i | 0 <= i < |p| ensures p[i].id.VStr? && JsonSafe(p[i].ts) && JsonSafe(p[i].id) {
      assert p[i] == e || p[i] in prior;
    }
    TimelineReadsBack(c, PutStore(c, l, cap, s, ids, cp, md, now), tk, p);
  }

  /**
    The timeline `put` leaves is exactly the earlier one with the new entry
    pushed: entries with the same id dropped, the entry first, the cap
    applied. This needs the id to be a str (other ids are dropped when the
    timeline is read back) and the timestamp to be JSON-renderable.
   */
  lemma PutTimeline(c: Codecs, l: Layout, cap: nat, s: Store, cfg: map<string, Value>,
                    cp: map<string, Value>, md: map<string, Value>, now: int)
    requires Lawful(c) && DistinctSets(l)
    requires IdsFromConfig(cfg).Ok? && DictGet(cp, "id").VStr? && Truthy(DictGet(cp, "id"))
    requires JsonSafe(StampOf(cp, now))
    ensures var ids := IdsFromConfig(cfg).value;
      var tk := TimelineKey(l, c.toStr, ids.threadId, ids.ns);
      TimelineOf(c, PutSpec(c, l, cap, s, cfg, cp, md, now).store, tk)
        == Push(TimelineOf(c, s, tk), Entry(StampOf(cp, now), DictGet(cp, "id")), cap)
  {
    PutOk(c, l, cap, s, cfg, cp, md, now);
    PutStoreTimeline(c, l, cap, s, IdsFromConfig(cfg).value, cp, md, now);
  }

  /**
    Consequently, after `put` the new entry heads the timeline, its id occurs
    once, the length is within `timeline_max`, the older entries keep their
    order, and a timeline without duplicate ids stays without them.
   */
  lemma PutTimelineShape(c: Codecs, l: Layout, cap: nat, s: Store, cfg: map<string, Value>,
                         cp: map<string, Value>, md: map<string, Value>, now: int)
    requires Lawful(c) && DistinctSets(l) && cap >= 1
    requires IdsFromConfig(cfg).Ok? && DictGet(cp, "id").VStr? && Truthy(DictGet(cp, "id"))
    requires JsonSafe(StampOf(cp, now))
    ensures var ids := IdsFromConfig(cfg).value;
      var tk := TimelineKey(l, c.toStr, ids.threadId, ids.ns);
      var prior := TimelineOf(c, s, tk);
      var r := TimelineOf(c, PutSpec(c, l, cap, s, cfg, cp, md, now).store, tk);
      && 1 <= |r| <= cap
      && r[0] == Entry(StampOf(cp, now), DictGet(cp, "id"))
      && (forall i :: 0 <= i < |r| ==> (r[i].id == DictGet(cp, "id") <==> i == 0))
      && Subseq(r[1..], prior)
      && (NoDupIds(prior) ==> NoDupIds(r))
  {
    var ids := IdsFromConfig(cfg).value;
    var tk := TimelineKey(l, c.toStr, ids.threadId, ids.ns);
    var prior := TimelineOf(c, s, tk);
    var e := Entry(StampOf(cp, now), DictGet(cp, "id"));
    PutTimeline(c, l, cap, s, cfg, cp, md, now);
    PushPutsEntryFirstOnce(prior, e, cap);
    PushLength(prior, e, cap);
    PushKeepsOrder(prior, e, cap);
    if NoDupIds(prior) {
      PushKeepsNoDup(prior, e, cap);
    }
  }

  // ---------- list ----------

  /** The output loop is element-wise: two stretches of the window give the concatenation. */
  lemma {:induction false} CollectAppend(c: Codecs, l: Layout, s: Store, thread: Value, ns: Value, a: seq<Entry>, b: seq<Entry>)
    ensures Collect(c, l, s, thread, ns, a + b) == Collect(c, l, s, thread, ns, a) + Collect(c, l, s, thread, ns, b)
    decreases |b|
  {
    if b == [] {
      assert a + b == a;
    } else {
      var b' := b[..|b| - 1];
      assert (a + b)[..|a + b| - 1] == a + b';
      assert (a + b)[|a + b| - 1] == b[|b| - 1];
      CollectAppend(c, l, s, thread, ns, a, b');
    }
  }

  /**
    `list` yields a pair exactly when it is the id of a window entry that
    has a main record, together with that record's metadata: only the
    entries without a record are dropped.
   */
  lemma {:induction false} CollectMembers(c: Codecs, l: Layout, s: Store, thread: Value, ns: Value, w: seq<Entry>)
    ensures forall p :: p in Collect(c, l, s, thread, ns, w) <==>
      exists i :: 0 <= i < |w| && CheckpointKey(l, c.toStr, thread, ns, w[i].id) in s &&
        p == (w[i].id, ListMetadata(c, s[CheckpointKey(l, c.toStr, thread, ns, w[i].id)]))
    decreases |w|
  {
    if w != [] {
      var w' := w[..|w| - 1];
      var x := w[|w| - 1];
      var ck := CheckpointKey(l, c.toStr, thread, ns, x.id);
      CollectMembers(c, l, s, thread, ns, w');
      var prev := Collect(c, l, s, thread, ns, w');
      forall p ensures p in Collect(c, l, s, thread, ns, w) <==>
        exists i :: 0 <= i < |w| && CheckpointKey(l, c.toStr, thread, ns, w[i].id) in s &&
          p == (w[i].id, ListMetadata(c, s[CheckpointKey(l, c.toStr, thread, ns, w[i].id)]))
      {
        if p in prev {
          var i :| 0 <= i < |w'| && CheckpointKey(l, c.toStr, thread, ns, w'[i].id) in s &&
            p == (w'[i].id, ListMetadata(c, s[CheckpointKey(l, c.toStr, thread, ns, w'[i].id)]));
          assert w[i] == w'[i];
        }
        if exists i :: 0 <= i < |w| && CheckpointKey(l, c.toStr, thread, ns, w[i].id) in s &&
            p == (w[i].id, ListMetadata(c, s[CheckpointKey(l, c.toStr, thread, ns, w[i].id)])) {
          var i :| 0 <= i < |w| && CheckpointKey(l, c.toStr, thread, ns, w[i].id) in s &&
            p == (w[i].id, ListMetadata(c, s[CheckpointKey(l, c.toStr, thread, ns, w[i].id)]));
          if i < |w'| {
            assert w'[i] == w[i];
          }
        }
      }
    }
  }

  /** When every window entry has a main record, `list` yields one pair per entry, in window order. */
  lemma {:induction false} CollectAllPresent(c: Codecs, l: Layout, s: Store, thread: Value, ns: Value, w: seq<Entry>)
    requires forall i :: 0 <= i < |w| ==> CheckpointKey(l, c.toStr, thread, ns, w[i].id) in s
    ensures var r := Collect(c, l, s, thread, ns, w);
      && |r| == |w|
      && forall i :: 0 <= i < |w| ==>
           r[i] == (w[i].id, ListMetadata(c, s[CheckpointKey(l, c.toStr, thread, ns, w[i].id)]))
    decreases |w|
  {
    if w != [] {
      var w' := w[..|w| - 1];
      assert forall i :: 0 <= i < |w'| ==> w'[i] == w[i];
      CollectAllPresent(c, l, s, thread, ns, w');
    }
  }

  function IdsOf(w: seq<Entry>): (r: seq<Value>)
    ensures |r| == |w| && forall i :: 0 <= i < |w| ==> r[i] == w[i].id
  {
    seq(|w|, i requires 0 <= i < |w| => w[i].id)
  }

  function Firsts(out: seq<(Value, Value)>): (r: seq<Value>)
    ensures |r| == |out| && forall i :: 0 <= i < |out| ==> r[i] == out[i].0
  {
    seq(|out|, i requires 0 <= i < |out| => out[i].0)
  }

  /** The ids `list` returns are a subsequence of the window: timeline order is kept. */
  lemma {:induction false} CollectKeepsOrder(c: Codecs, l: Layout, s: Store, thread: Value, ns: Value, w: seq<Entry>)
    ensures Subseq(Firsts(Collect(c, l, s, thread, ns, w)), IdsOf(w))
    decreases |w|
  {
    if w != [] {
      var w' := w[..|w| - 1];
      var x := w[|w| - 1];
      CollectKeepsOrder(c, l, s, thread, ns, w');
      var prev := Collect(c, l, s, thread, ns, w');
      assert IdsOf(w) == IdsOf(w') + [x.id];
      match Lookup(s, CheckpointKey(l, c.toStr, thread, ns, x.id))
      case None =>
        SubseqExtend(Firsts(prev), IdsOf(w'), x.id);
      case Some(bins) =>
        assert Firsts(prev + [(x.id, ListMetadata(c, bins))]) == Firsts(prev) + [x.id];
        SubseqSnoc(Firsts(prev), IdsOf(w'), x.id);
    }
  }

  /** `list` returns at most `max(1, limit)` pairs, in the order of the timeline window. */
  lemma ListBoundedAndOrdered(c: Codecs, l: Layout, s: Store, cfg: map<string, Value>, limit: int)
    requires IdsFromConfig(cfg).Ok?
    ensures var ids := IdsFromConfig(cfg).value;
      var r := ListSpec(c, l, s, cfg, limit);
      && r.Ok?
      && |r.value| <= (if limit < 1 then 1 else limit)
      && Subseq(Firsts(r.value), IdsOf(ListWindow(c, l, s, ids, limit)))
  {
    var ids := IdsFromConfig(cfg).value;
    CollectKeepsOrder(c, l, s, ids.threadId, ids.ns, ListWindow(c, l, s, ids, limit));
  }

  /** With a truthy `before` that is not in the timeline, `list` returns nothing. */
  lemma ListBeforeAbsent(c: Codecs, l: Layout, s: Store, cfg: map<string, Value>, limit: int)
    requires IdsFromConfig(cfg).Ok?
    requires var ids := IdsFromConfig(cfg).value;
      var items := TimelineOf(c, s, TimelineKey(l, c.toStr, ids.threadId, ids.ns));
      Truthy(ids.before) && forall j :: 0 <= j < |items| ==> items[j].id != ids.before
    ensures ListSpec(c, l, s, cfg, limit) == Ok([])
  {
    var ids := IdsFromConfig(cfg).value;
    AfterAbsent(TimelineOf(c, s, TimelineKey(l, c.toStr, ids.threadId, ids.ns)), ids.before);
  }

  /** With a truthy `before` first found at position `p`, `list` looks only at the entries after it. */
  lemma ListBeforeFound(c: Codecs, l: Layout, s: Store, cfg: map<string, Value>, limit: int, p: nat)
    requires IdsFromConfig(cfg).Ok?
    requires var ids := IdsFromConfig(cfg).value;
      var items := TimelineOf(c, s, TimelineKey(l, c.toStr, ids.threadId, ids.ns));
      && Truthy(ids.before) && p < |items| && items[p].id == ids.before
      && forall j :: 0 <= j < p ==> items[j].id != ids.before
    ensures var ids := IdsFromConfig(cfg).value;
      var items := TimelineOf(c, s, TimelineKey(l, c.toStr, ids.threadId, ids.ns));
      ListWindow(c, l, s, ids, limit) == Window(items[p + 1..], limit)
  {
    var ids := IdsFromConfig(cfg).value;
    AfterFirst(TimelineOf(c, s, TimelineKey(l, c.toStr, ids.threadId, ids.ns)), ids.before, p);
  }

  /** The first pair `list` yields for a window whose first id has a main record carrying `md`. */
  lemma CollectHead(c: Codecs, l: Layout, s: Store, thread: Value, ns: Value, w: seq<Entry>, md: map<string, Value>)
    requires Lawful(c) && JsonSafe(VMap(md)) && |w| >= 1
    requires var ck := CheckpointKey(l, c.toStr, thread, ns, w[0].id);
      ck in s && DictGetOr(s[ck], "metadata", VStr("{}")) == VStr(c.jsonDumps(VMap(md)))
    ensures var r := Collect(c, l, s, thread, ns, w);
      |r| >= 1 && r[0] == (w[0].id, VMap(md))
  {
    assert c.jsonLoads(VStr(c.jsonDumps(VMap(md)))) == Some(VMap(md));
    assert w[..1][..0] == [];
    assert Collect(c, l, s, thread, ns, w[..1]) == [(w[0].id, VMap(md))];
    CollectAppend(c, l, s, thread, ns, w[..1], w[1..]);
    assert w[..1] + w[1..] == w;
  }

  /** Without `before`, `list` starts with the timeline's first id when that id has a main record. */
  lemma ListFromHead(c: Codecs, l: Layout, s: Store, ids: Ids, limit: int, md: map<string, Value>)
    requires Lawful(c) && JsonSafe(VMap(md)) && !Truthy(ids.before)
    requires var items := TimelineOf(c, s, TimelineKey(l, c.toStr, ids.threadId, ids.ns));
      && |items| >= 1
      && var ck := CheckpointKey(l, c.toStr, ids.threadId, ids.ns, items[0].id);
         ck in s && DictGetOr(s[ck], "metadata", VStr("{}")) == VStr(c.jsonDumps(VMap(md)))
    ensures var items := TimelineOf(c, s, TimelineKey(l, c.toStr, ids.threadId, ids.ns));
      var r := Collect(c, l, s, ids.threadId, ids.ns, ListWindow(c, l, s, ids, limit));
      |r| >= 1 && r[0] == (items[0].id, VMap(md))
  {
    var items := TimelineOf(c, s, TimelineKey(l, c.toStr, ids.threadId, ids.ns));
    var w := ListWindow(c, l, s, ids, limit);
    assert w == Window(items, limit);
    assert w[0] == items[0];
    CollectHead(c, l, s, ids.threadId, ids.ns, w, md);
  }

  /** After `put`, `list` for the same thread and namespace starts with the new id and its metadata. */
  lemma ListAfterPut(c: Codecs, l: Layout, cap: nat, s: Store, cfg: map<string, Value>,
                     cp: map<string, Value>, md: map<string, Value>, now: int, limit: int)
    requires Lawful(c) && DistinctSets(l) && cap >= 1
    requires IdsFromConfig(cfg).Ok? && DictGet(cp, "id").VStr? && Truthy(DictGet(cp, "id"))
    requires JsonSafe(StampOf(cp, now)) && JsonSafe(VMap(md))
    ensures var ids := IdsFromConfig(cfg).value;
      var r := ListSpec(c, l, PutSpec(c, l, cap, s, cfg, cp, md, now).store, LatestConfig(ids.threadId, ids.ns), limit);
      r.Ok? && |r.value| >= 1 && r.value[0] == (DictGet(cp, "id"), VMap(md))
  {
    var ids := IdsFromConfig(cfg).value;
    var qids := Ids(ids.threadId, ids.ns, VNull, VNull);
    LatestConfigParses(ids.threadId, ids.ns);
    PutOk(c, l, cap, s, cfg, cp, md, now);
    PutStoreListed(c, l, cap, s, ids, cp, md, now, limit);
  }

  /** `list` without `before` after the records of a `put`, for parsed ids. */
  lemma PutStoreListed(c: Codecs, l: Layout, cap: nat, s: Store, ids: Ids,
                       cp: map<string, Value>, md: map<string, Value>, now: int, limit: int)
    requires Lawful(c) && DistinctSets(l) && cap >= 1
    requires DictGet(cp, "id").VStr? && JsonSafe(StampOf(cp, now)) && JsonSafe(VMap(md))
    ensures var qids := Ids(ids.threadId, ids.ns, VNull, VNull);
      var st := PutStore(c, l, cap, s, ids, cp, md, now);
      var r := Collect(c, l, st, ids.threadId, ids.ns, ListWindow(c, l, st, qids, limit));
      |r| >= 1 && r[0] == (DictGet(cp, "id"), VMap(md))
  {
    var id := DictGet(cp, "id");
    var st := PutStore(c, l, cap, s, ids, cp, md, now);
    PutStoreRecords(c, l, cap, s, ids, cp, md, now);
    CheckpointBinsRead(c, ids, id, Stamped(cp, now), md, StampOf(cp, now));
    PutStoreTimeline(c, l, cap, s, ids, cp, md, now);
    var tk := TimelineKey(l, c.toStr, ids.threadId, ids.ns);
    PushPutsEntryFirstOnce(TimelineOf(c, s, tk), Entry(StampOf(cp, now), id), cap);
    ListFromHead(c, l, st, Ids(ids.threadId, ids.ns, VNull, VNull), limit, md);
  }

  // ---------- get_tuple ----------

  /**
    The cases in which `get_tuple` finds nothing: no latest pointer or one
    without a `checkpoint_id`, no main record, a main record without
    `cp_type` or `checkpoint`, or a checkpoint that does not decode.
   */
  lemma GetTupleNone(c: Codecs, l: Layout, s: Store, cfg: map<string, Value>)
    requires IdsFromConfig(cfg).Ok?
    ensures var ids := IdsFromConfig(cfg).value;
      var g := GetTupleSpec(c, l, s, cfg);
      var lk := LatestKey(l, c.toStr, ids.threadId, ids.ns);
      && (ids.checkpointId == VNull && (lk !in s || "checkpoint_id" !in s[lk]) ==> g == Ok(None))
      && (ids.checkpointId == VNull && lk in s && "checkpoint_id" in s[lk] ==>
            ResolveId(c, l, s, ids) == Some(s[lk]["checkpoint_id"]))
      && (ids.checkpointId != VNull ==> ResolveId(c, l, s, ids) == Some(ids.checkpointId))
      && (forall id :: ResolveId(c, l, s, ids) == Some(id) ==>
            var ck := CheckpointKey(l, c.toStr, ids.threadId, ids.ns, id);
            && (ck !in s ==> g == Ok(None))
            && (ck in s && (DictGet(s[ck], "cp_type") == VNull || DictGet(s[ck], "checkpoint") == VNull) ==> g == Ok(None))
            && (ck in s && c.loadsTyped(DictGet(s[ck], "cp_type"), DictGet(s[ck], "checkpoint")).None? ==> g == Ok(None)))
  {
  }

  /**
    When `get_tuple` finds a checkpoint: its config names the resolved id,
    the metadata falls back to `{}`, the parent config is present exactly
    when the record's `p_checkpoint_id` is truthy, and the pending writes
    are the ledger decoded in stored order.
   */
  lemma GetTupleFound(c: Codecs, l: Layout, s: Store, cfg: map<string, Value>)
    requires IdsFromConfig(cfg).Ok?
    requires GetTupleSpec(c, l, s, cfg).Ok? && GetTupleSpec(c, l, s, cfg).value.Some?
    ensures var ids := IdsFromConfig(cfg).value;
      var t := GetTupleSpec(c, l, s, cfg).value.value;
      && ResolveId(c, l, s, ids).Some?
      && var id := ResolveId(c, l, s, ids).value;
         var ck := CheckpointKey(l, c.toStr, ids.threadId, ids.ns, id);
         && ck in s
         && t.config == ConfigFor(ids.threadId, ids.ns, id)
         && Some(t.checkpoint) == c.loadsTyped(DictGet(s[ck], "cp_type"), DictGet(s[ck], "checkpoint"))
         && t.metadata == MetadataOf(c, DictGet(s[ck], "metadata"))
         && (t.parentConfig.Some? <==> Truthy(DictGet(s[ck], "p_checkpoint_id")))
         && (t.parentConfig.Some? ==> t.parentConfig.value == ConfigFor(ids.threadId, ids.ns, s[ck]["p_checkpoint_id"]))
         && Ok(t.pendingWrites) == PendingOf(c.loadsTyped, Lookup(s, WritesKey(l, c.toStr, ids.threadId, ids.ns, id)))
  {
  }

  // ---------- put_writes ----------

  /** `put_writes` does nothing for an empty batch or a config without a truthy `checkpoint_id`, and a failure writes nothing. */
  lemma PutWritesNoOp(c: Codecs, l: Layout, idxMap: map<string, int>, s: Store, cfg: map<string, Value>,
                      writes: seq<(string, Value)>, task: string, path: string, now: int)
    ensures var o := PutWritesSpec(c, l, idxMap, s, cfg, writes, task, path, now);
      && (writes == [] ==> o == Outcome(Ok(()), s))
      && (IdsFromConfig(cfg).Ok? && !Truthy(IdsFromConfig(cfg).value.checkpointId) ==> o == Outcome(Ok(()), s))
      && (o.result.Err? ==> o.store == s)
  {
  }

  /**
    Merging into a ledger whose items are dictionaries with distinct
    `(task_id, idx)` keys succeeds, keeps the keys distinct, and changes no
    other record.
   */
  lemma PutWritesKeepsUnique(c: Codecs, l: Layout, idxMap: map<string, int>, s: Store, cfg: map<string, Value>,
                             writes: seq<(string, Value)>, task: string, path: string, now: int)
    requires writes != [] && IdsFromConfig(cfg).Ok? && Truthy(IdsFromConfig(cfg).value.checkpointId)
    requires var ids := IdsFromConfig(cfg).value;
      var wk := WritesKey(l, c.toStr, ids.threadId, ids.ns, ids.checkpointId);
      wk in s ==> DictGet(s[wk], "writes").VList? && Unique(DictGet(s[wk], "writes").items)
    ensures var ids := IdsFromConfig(cfg).value;
      var wk := WritesKey(l, c.toStr, ids.threadId, ids.ns, ids.checkpointId);
      var o := PutWritesSpec(c, l, idxMap, s, cfg, writes, task, path, now);
      && o.result.Ok?
      && wk in o.store && DictGet(o.store[wk], "writes").VList? && Unique(DictGet(o.store[wk], "writes").items)
      && (forall k :: k != wk ==> Lookup(o.store, k) == Lookup(s, k))
  {
    var ids := IdsFromConfig(cfg).value;
    var wk := WritesKey(l, c.toStr, ids.threadId, ids.ns, ids.checkpointId);
    var xs := LedgerOf(Lookup(s, wk)).value;
    MergeAllKeepsUnique(xs, Batch(writes, task, path, now, idxMap, c.dumpsTyped), |writes|);
  }

  /**
    A batch with distinct slots written to a checkpoint without a ledger
    reads back, through `get_tuple`'s decoding, as its writes in order,
    each tagged with its `task_id`.
   */
  lemma PutWritesThenPending(c: Codecs, l: Layout, idxMap: map<string, int>, s: Store, cfg: map<string, Value>,
                             writes: seq<(string, Value)>, task: string, path: string, now: int)
    requires Lawful(c)
    requires writes != [] && IdsFromConfig(cfg).Ok? && Truthy(IdsFromConfig(cfg).value.checkpointId)
    requires DistinctSlots(Batch(writes, task, path, now, idxMap, c.dumpsTyped))
    requires var ids := IdsFromConfig(cfg).value;
      WritesKey(l, c.toStr, ids.threadId, ids.ns, ids.checkpointId) !in s
    ensures var ids := IdsFromConfig(cfg).value;
      var wk := WritesKey(l, c.toStr, ids.threadId, ids.ns, ids.checkpointId);
      var o := PutWritesSpec(c, l, idxMap, s, cfg, writes, task, path, now);
      var p := PendingOf(c.loadsTyped, Lookup(o.store, wk));
      && o.result.Ok? && p.Ok? && |p.value| == |writes|
      && forall k :: 0 <= k < |writes| ==> p.value[k] == PendingWrite(VStr(task), VStr(writes[k].0), writes[k].1)
  {
    var ids := IdsFromConfig(cfg).value;
    var wk := WritesKey(l, c.toStr, ids.threadId, ids.ns, ids.checkpointId);
    var b := Batch(writes, task, path, now, idxMap, c.dumpsTyped);
    var ys := Items(b, |writes|);
    assert LedgerOf(Lookup(s, wk)) == Ok([]);
    MergeAllFresh(b, |writes|);
    var o := PutWritesSpec(c, l, idxMap, s, cfg, writes, task, path, now);
    assert o == Outcome(Ok(()), s[wk := map["writes" := VList(ys)]]);
    assert forall v :: c.loadsTyped(VStr(b.dumps(v).0), VBytes(b.dumps(v).1)) == Some(v);
    DecodeBatch(c.loadsTyped, b, |writes|);
    assert Truthy(VList(ys));
    assert PendingOf(c.loadsTyped, Lookup(o.store, wk)) == DecodeItems(c.loadsTyped, ys);
  }
}
