/**
  `AerospikeSaver`: the main checkpointer. Its operations are given twice:
  as functions from the backend state to an outcome (the specification the
  properties are proved about), and as the methods of a class whose
  `backend` field is the Aerospike namespace, each proved to do exactly what
  its function says.
 */
module Saver {
  import opened Values
  import opened Backend
  import opened Codecs
  import opened Keys
  import opened Timeline
  import opened Ledger

  /** The constructor's defaults: namespace `test`, sets `lg_cp`, `lg_cp_w`, `lg_cp_meta`. */
  const DefaultLayout: Layout := Layout("test", "lg_cp", "lg_cp_w", "lg_cp_meta")
  const DefaultTimelineMax: int := 500
  /** How many pairs `list` returns when the caller gives no limit. */
  const DefaultListLimit: int := 20

  /** `max(1, int(timeline_max))` */
  function ClampMax(n: int): (r: nat)
    ensures r >= 1
    ensures r == n || (n < 1 && r == 1)
  {
    if n < 1 then 1 else n
  }

  // ---------- config parsing ----------

  /** What `_ids_from_config` returns: `(thread_id, checkpoint_ns, checkpoint_id, before)`. */
  datatype Ids = Ids(threadId: Value, ns: Value, checkpointId: Value, before: Value)

  /**
    `cfg.get(name, {}) or {}`, then used with `.get`: a falsy section reads as
    `{}`, a truthy one that is not a dictionary fails at its first `.get`.
   */
  function Section(cfg: map<string, Value>, name: string): (r: Result<map<string, Value>>)
    ensures r.Err? <==> Truthy(DictGetOr(cfg, name, VMap(map[]))) && !DictGetOr(cfg, name, VMap(map[])).VMap?
    ensures r.Ok? && Truthy(DictGetOr(cfg, name, VMap(map[]))) ==> r.value == DictGetOr(cfg, name, VMap(map[])).entries
    ensures r.Ok? && !Truthy(DictGetOr(cfg, name, VMap(map[]))) ==> r.value == map[]
  {
    var v := DictGetOr(cfg, name, VMap(map[]));
    if !Truthy(v) then Ok(map[])
    else match v
      case VMap(m) => Ok(m)
      case _ => Err(NotADict)
  }

  /**
    `_ids_from_config`. The `metadata` section is consulted only when the
    `configurable` section has no truthy value for a key, so a malformed
    `metadata` section matters only then.
   */
  function IdsFromConfig(cfg: map<string, Value>): (r: Result<Ids>)
    ensures r.Ok? ==> Section(cfg, "configurable").Ok?
    ensures r.Ok? ==> Truthy(r.value.threadId)
    ensures r.Ok? ==> Truthy(r.value.ns) || r.value.ns == VStr("")
  {
    match Section(cfg, "configurable")
    case Err(e) => Err(e)
    case Ok(c) =>
      var md := Section(cfg, "metadata");
      var t := DictGet(c, "thread_id");
      if !Truthy(t) && md.Err? then Err(md.error)
      else
        var thread := if Truthy(t) then t else DictGet(md.value, "thread_id");
        if !Truthy(thread) then Err(MissingThreadId)
        else
          var n := DictGet(c, "checkpoint_ns");
          if !Truthy(n) && md.Err? then Err(md.error)
          else
            var ns := if Truthy(n) then n else Or(DictGet(md.value, "checkpoint_ns"), VStr(""));
            Ok(Ids(thread, ns, DictGet(c, "checkpoint_id"), DictGet(c, "before")))
  }

  // ---------- put ----------

  /** The timestamp `put` records: the checkpoint's own `ts` unless that is `None`. */
  function StampOf(cp: map<string, Value>, now: int): Value {
    var ts := DictGet(cp, "ts");
    if ts == VNull then VInt(now) else ts
  }

  /** The checkpoint as `put` serializes it: a generated `ts` is written into it first. */
  function Stamped(cp: map<string, Value>, now: int): map<string, Value> {
    if DictGet(cp, "ts") == VNull then cp["ts" := VInt(now)] else cp
  }

  /** The bins of the main record. */
  function CheckpointBins(c: Codecs, ids: Ids, id: Value, cp: map<string, Value>, md: map<string, Value>, ts: Value): Bins {
    var (tag, data) := c.dumpsTyped(VMap(cp));
    map[
      "thread_id" := ids.threadId, "checkpoint_ns" := ids.ns, "checkpoint_id" := id,
      "p_checkpoint_id" := ids.checkpointId, "cp_type" := VStr(tag), "checkpoint" := VBytes(data),
      "metadata" := VStr(c.jsonDumps(VMap(md))), "ts" := ts]
  }

  function LatestBins(id: Value, ts: Value): Bins {
    map["checkpoint_id" := id, "ts" := ts]
  }

  function TimelineBins(c: Codecs, items: seq<Entry>): Bins {
    map["items" := VStr(c.jsonDumps(VList(Encode(items))))]
  }

  /**
    `_read_timeline_items`: no record, an `items` bin that does not parse, or
    a parsed value that is not a list all read as the empty timeline.
   */
  function TimelineOf(c: Codecs, s: Store, k: Key): (r: seq<Entry>)
    ensures k !in s ==> r == []
    ensures k in s ==> var p := c.jsonLoads(DictGetOr(s[k], "items", VStr("[]")));
      && (!(p.Some? && p.value.VList?) ==> r == [])
      && (p.Some? && p.value.VList? ==> r == Clean(p.value.items))
    ensures forall i :: 0 <= i < |r| ==> r[i].id.VStr?
  {
    match Lookup(s, k)
    case None => []
    case Some(bins) => Parse(c.jsonLoads(DictGetOr(bins, "items", VStr("[]"))))
  }

  /** The config `put` returns: the caller's, with thread, namespace and the new id in `configurable`. */
  function ReturnedConfig(cfg: map<string, Value>, conf: map<string, Value>, ids: Ids, id: Value): map<string, Value> {
    cfg["configurable" := VMap(conf["thread_id" := ids.threadId]["checkpoint_ns" := ids.ns]["checkpoint_id" := id])]
  }

  /** The records a successful `put` writes: main record, then latest pointer, then the timeline read back and re-written. */
  function PutStore(c: Codecs, l: Layout, cap: nat, s: Store, ids: Ids, cp: map<string, Value>, md: map<string, Value>, now: int): Store {
    var id := DictGet(cp, "id");
    var ts := StampOf(cp, now);
    var s1 := s[CheckpointKey(l, c.toStr, ids.threadId, ids.ns, id) := CheckpointBins(c, ids, id, Stamped(cp, now), md, ts)];
    var s2 := s1[LatestKey(l, c.toStr, ids.threadId, ids.ns) := LatestBins(id, ts)];
    var tk := TimelineKey(l, c.toStr, ids.threadId, ids.ns);
    s2[tk := TimelineBins(c, Push(TimelineOf(c, s2, tk), Entry(ts, id), cap))]
  }

  /** `put`: parse the config, demand a truthy id, write the records and return the updated config. */
  function PutSpec(c: Codecs, l: Layout, cap: nat, s: Store, cfg: map<string, Value>,
                   cp: map<string, Value>, md: map<string, Value>, now: int): Outcome<map<string, Value>>
  {
    match IdsFromConfig(cfg)
    case Err(e) => Outcome(Err(e), s)
    case Ok(ids) =>
      var id := DictGet(cp, "id");
      if !Truthy(id) then Outcome(Err(MissingCheckpointId), s)
      else Outcome(Ok(ReturnedConfig(cfg, Section(cfg, "configurable").value, ids, id)), PutStore(c, l, cap, s, ids, cp, md, now))
  }

  // ---------- put_writes ----------

  /** `bins.get("writes")` of an existing ledger record, as a list the merge can walk. */
  function LedgerOf(rec: Option<Bins>): Result<seq<Value>> {
    match rec
    case None => Ok([])
    case Some(bins) =>
      match DictGet(bins, "writes")
      case VList(xs) => Ok(xs)
      case _ => Err(MalformedLedger)
  }

  /** `put_writes`: nothing for no writes or no checkpoint id; else merge the batch and store the ledger. */
  function PutWritesSpec(c: Codecs, l: Layout, idxMap: map<string, int>, s: Store, cfg: map<string, Value>,
                         writes: seq<(string, Value)>, task: string, path: string, now: int): Outcome<()>
  {
    if writes == [] then Outcome(Ok(()), s)
    else match IdsFromConfig(cfg)
      case Err(e) => Outcome(Err(e), s)
      case Ok(ids) =>
        if !Truthy(ids.checkpointId) then Outcome(Ok(()), s)
        else
          var key := WritesKey(l, c.toStr, ids.threadId, ids.ns, ids.checkpointId);
          match LedgerOf(Lookup(s, key))
          case Err(e) => Outcome(Err(e), s)
          case Ok(xs) =>
            match MergeAll(xs, Batch(writes, task, path, now, idxMap, c.dumpsTyped), |writes|)
            case Err(e) => Outcome(Err(e), s)
            case Ok(ys) => Outcome(Ok(()), s[key := map["writes" := VList(ys)]])
  }

  // ---------- get_tuple ----------

  /** `CheckpointTuple(config, checkpoint, metadata, parent_config, pending_writes)` */
  datatype CheckpointTuple = CheckpointTuple(
    config: map<string, Value>,
    checkpoint: Value,
    metadata: Value,
    parentConfig: Option<map<string, Value>>,
    pendingWrites: seq<PendingWrite>)

  function ConfigFor(thread: Value, ns: Value, id: Value): map<string, Value> {
    map["configurable" := VMap(map["thread_id" := thread, "checkpoint_ns" := ns, "checkpoint_id" := id])]
  }

  /** The id `get_tuple` reads: the configured one unless it is `None`, else the latest pointer's. */
  function ResolveId(c: Codecs, l: Layout, s: Store, ids: Ids): Option<Value> {
    if ids.checkpointId != VNull then Some(ids.checkpointId)
    else match Lookup(s, LatestKey(l, c.toStr, ids.threadId, ids.ns))
      case None => None
      case Some(bins) => if "checkpoint_id" in bins then Some(bins["checkpoint_id"]) else None
  }

  /** `get_tuple`'s metadata: a missing bin or one that fails to parse gives `{}`. */
  function MetadataOf(c: Codecs, raw: Value): (r: Value)
    ensures raw == VNull ==> r == VMap(map[])
    ensures raw != VNull && c.jsonLoads(raw).None? ==> r == VMap(map[])
    ensures raw != VNull && c.jsonLoads(raw).Some? ==> r == c.jsonLoads(raw).value
  {
    if raw == VNull then VMap(map[])
    else match c.jsonLoads(raw)
      case None => VMap(map[])
      case Some(m) => m
  }

  function GetTupleSpec(c: Codecs, l: Layout, s: Store, cfg: map<string, Value>): Result<Option<CheckpointTuple>> {
    match IdsFromConfig(cfg)
    case Err(e) => Err(e)
    case Ok(ids) => TupleFor(c, l, s, ids)
  }

  /** `get_tuple` once the config has been parsed. */
  function TupleFor(c: Codecs, l: Layout, s: Store, ids: Ids): Result<Option<CheckpointTuple>> {
    match ResolveId(c, l, s, ids)
    case None => Ok(None)
    case Some(id) =>
      match Lookup(s, CheckpointKey(l, c.toStr, ids.threadId, ids.ns, id))
      case None => Ok(None)
      case Some(bins) =>
        var tag, raw := DictGet(bins, "cp_type"), DictGet(bins, "checkpoint");
        if tag == VNull || raw == VNull then Ok(None)
        else match c.loadsTyped(tag, raw)
          case None => Ok(None)
          case Some(checkpoint) =>
            match PendingOf(c.loadsTyped, Lookup(s, WritesKey(l, c.toStr, ids.threadId, ids.ns, id)))
            case Err(e) => Err(e)
            case Ok(pending) =>
              var p := DictGet(bins, "p_checkpoint_id");
              Ok(Some(CheckpointTuple(
                ConfigFor(ids.threadId, ids.ns, id), checkpoint, MetadataOf(c, DictGet(bins, "metadata")),
                if Truthy(p) then Some(ConfigFor(ids.threadId, ids.ns, p)) else None,
                pending)))
  }

  // ---------- list ----------

  /** `list`'s metadata: `json.loads(bins.get("metadata", "{}"))`, `{}` when that fails. */
  function ListMetadata(c: Codecs, bins: Bins): Value {
    match c.jsonLoads(DictGetOr(bins, "metadata", VStr("{}")))
    case None => VMap(map[])
    case Some(m) => m
  }

  /** The output loop of `list` over the window: entries without a main record are skipped. */
  function Collect(c: Codecs, l: Layout, s: Store, thread: Value, ns: Value, w: seq<Entry>): (r: seq<(Value, Value)>)
    ensures |r| <= |w|
  {
    if w == [] then []
    else
      var rest := Collect(c, l, s, thread, ns, w[..|w| - 1]);
      var cid := w[|w| - 1].id;
      match Lookup(s, CheckpointKey(l, c.toStr, thread, ns, cid))
      case None => rest
      case Some(bins) => rest + [(cid, ListMetadata(c, bins))]
  }

  /** The part of the timeline `list` looks at: after `before` when it is truthy, then the window. */
  function ListWindow(c: Codecs, l: Layout, s: Store, ids: Ids, limit: int): seq<Entry> {
    var items := TimelineOf(c, s, TimelineKey(l, c.toStr, ids.threadId, ids.ns));
    Window(if Truthy(ids.before) then After(items, ids.before) else items, limit)
  }

  function ListSpec(c: Codecs, l: Layout, s: Store, cfg: map<string, Value>, limit: int): Result<seq<(Value, Value)>> {
    match IdsFromConfig(cfg)
    case Err(e) => Err(e)
    case Ok(ids) => Ok(Collect(c, l, s, ids.threadId, ids.ns, ListWindow(c, l, s, ids, limit)))
  }

  // ---------- the saver ----------

  class AerospikeSaver {
    /** The Aerospike namespace the saver writes to. */
    var backend: Store
    const layout: Layout
    const timelineMax: nat
    /** `WRITES_IDX_MAP`: the reserved slot of each special channel. */
    const idxMap: map<string, int>
    const codecs: Codecs

    constructor (backend: Store, codecs: Codecs, idxMap: map<string, int>,
                 layout: Layout := DefaultLayout, timelineMax: int := DefaultTimelineMax)
      ensures this.backend == backend && this.codecs == codecs && this.idxMap == idxMap && this.layout == layout
      ensures this.timelineMax >= 1
      ensures timelineMax >= 1 ==> this.timelineMax == timelineMax
      ensures timelineMax < 1 ==> this.timelineMax == 1
    {
      this.backend := backend;
      this.codecs := codecs;
      this.idxMap := idxMap;
      this.layout := layout;
      this.timelineMax := ClampMax(timelineMax);
    }

    /** `_put`: the record at `k` now holds exactly `bins`. */
    method PutRecord(k: Key, bins: Bins)
      modifies this
      ensures backend == old(backend)[k := bins]
    {
      backend := backend[k := bins];
    }

    /** `_get`: the record's bins, `None` for `RecordNotFound`. */
    method GetRecord(k: Key) returns (r: Option<Bins>)
      ensures r.Some? <==> k in backend
      ensures r.Some? ==> r.value == backend[k]
    {
      r := Lookup(backend, k);
    }

    method ReadTimelineItems(k: Key) returns (items: seq<Entry>)
      ensures items == TimelineOf(codecs, backend, k)
    {
      var rec := GetRecord(k);
      if rec.None? {
        return [];
      }
      var parsed := codecs.jsonLoads(DictGetOr(rec.value, "items", VStr("[]")));
      if parsed.None? || !parsed.value.VList? {
        return [];
      }
      var raw := parsed.value.items;
      items := [];
      var i := 0;
      while i < |raw|
        invariant 0 <= i <= |raw|
        invariant items == Clean(raw[..i])
      {
        var it := raw[i];
        if it.VList? && |it.items| == 2 && it.items[1].VStr? {
          items := items + [Entry(it.items[0], it.items[1])];
        }
        assert raw[..i + 1][..i] == raw[..i];
        i := i + 1;
      }
      assert raw[..|raw|] == raw;
    }

    method Put(cfg: map<string, Value>, checkpoint: map<string, Value>, metadata: map<string, Value>, now: int)
      returns (r: Result<map<string, Value>>)
      modifies this
      ensures var o := PutSpec(codecs, layout, timelineMax, old(backend), cfg, checkpoint, metadata, now);
        r == o.result && backend == o.store
    {
      var ids := IdsFromConfig(cfg);
      if ids.Err? {
        return Err(ids.error);
      }
      var thread, ns := ids.value.threadId, ids.value.ns;
      var id := DictGet(checkpoint, "id");
      if !Truthy(id) {
        return Err(MissingCheckpointId);
      }
      var cp := checkpoint;
      var ts := DictGet(cp, "ts");
      if ts == VNull {
        ts := VInt(now);
        cp := cp["ts" := ts];
      }
      var (tag, data) := codecs.dumpsTyped(VMap(cp));
      PutRecord(CheckpointKey(layout, codecs.toStr, thread, ns, id), map[
        "thread_id" := thread, "checkpoint_ns" := ns, "checkpoint_id" := id,
        "p_checkpoint_id" := ids.value.checkpointId, "cp_type" := VStr(tag), "checkpoint" := VBytes(data),
        "metadata" := VStr(codecs.jsonDumps(VMap(metadata))), "ts" := ts]);
      PutRecord(LatestKey(layout, codecs.toStr, thread, ns), map["checkpoint_id" := id, "ts" := ts]);
      var tk := TimelineKey(layout, codecs.toStr, thread, ns);
      var items := ReadTimelineItems(tk);
      items := Without(items, id);
      items := [Entry(ts, id)] + items;
      if |items| > timelineMax {
        items := items[..timelineMax];
      }
      PutRecord(tk, map["items" := VStr(codecs.jsonDumps(VList(Encode(items))))]);
      var conf := Section(cfg, "configurable").value;
      conf := conf["thread_id" := thread]["checkpoint_ns" := ns]["checkpoint_id" := id];
      r := Ok(cfg["configurable" := VMap(conf)]);
    }

    /** The inner search loop of `put_writes`: the first item keyed `(task, slot)`, stopping at a non-dictionary. */
    method FindSlot(ledger: seq<Value>, task: Value, slot: Value) returns (r: Search)
      ensures r == Locate(ledger, task, slot)
    {
      var i := 0;
      while i < |ledger|
        invariant 0 <= i <= |ledger|
        invariant LocateFrom(ledger, task, slot, i) == Locate(ledger, task, slot)
      {
        var it := ledger[i];
        if !it.VMap? {
          return Malformed;
        }
        if DictGet(it.entries, "task_id") == task && DictGet(it.entries, "idx") == slot {
          return At(i);
        }
        i := i + 1;
      }
      return Absent;
    }

    /** One write of `put_writes`: search the ledger for the item's slot, then replace it or append. */
    method MergeItem(ledger: seq<Value>, item: Value, task: Value, slot: Value) returns (r: Result<seq<Value>>)
      ensures r == Merge(ledger, item, task, slot)
    {
      var found := FindSlot(ledger, task, slot);
      if found.Malformed? {
        return Err(MalformedLedger);
      }
      if found.At? {
        r := Ok(ledger[found.pos := item]);
      } else {
        r := Ok(ledger + [item]);
      }
    }

    /** The outer loop of `put_writes`: each write replaces the item in its slot or is appended. */
    method MergeBatch(ledger: seq<Value>, b: Batch) returns (r: Result<seq<Value>>)
      ensures r == MergeAll(ledger, b, |b.writes|)
    {
      var items := ledger;
      var k := 0;
      while k < |b.writes|
        invariant 0 <= k <= |b.writes|
        invariant MergeAll(ledger, b, k) == Ok(items)
      {
        MergeAllNext(ledger, b, k, items);
        var next := MergeItem(items, ItemAt(b, k), VStr(b.task), VInt(SlotAt(b, k)));
        if next.Err? {
          MergeAllErrSticks(ledger, b, k + 1, |b.writes|);
          return next;
        }
        items := next.value;
        k := k + 1;
      }
      r := Ok(items);
    }

    /** The items of the ledger record at `k`, as `put_writes` loads them. */
    method ReadLedger(k: Key) returns (r: Result<seq<Value>>)
      ensures r == LedgerOf(Lookup(backend, k))
    {
      var existing := GetRecord(k);
      if existing.None? {
        return Ok([]);
      }
      var w := DictGet(existing.value, "writes");
      if !w.VList? {
        return Err(MalformedLedger);
      }
      r := Ok(w.items);
    }

    method PutWrites(cfg: map<string, Value>, writes: seq<(string, Value)>, taskId: string, taskPath: string, now: int)
      returns (r: Result<()>)
      modifies this
      ensures PutWritesSpec(codecs, layout, idxMap, old(backend), cfg, writes, taskId, taskPath, now) == Outcome(r, backend)
    {
      if writes == [] {
        return Ok(());
      }
      var ids := IdsFromConfig(cfg);
      if ids.Err? {
        return Err(ids.error);
      }
      if !Truthy(ids.value.checkpointId) {
        return Ok(());
      }
      var key := WritesKey(layout, codecs.toStr, ids.value.threadId, ids.value.ns, ids.value.checkpointId);
      var ledger := ReadLedger(key);
      if ledger.Err? {
        return Err(ledger.error);
      }
      var merged := MergeBatch(ledger.value, Batch(writes, taskId, taskPath, now, idxMap, codecs.dumpsTyped));
      if merged.Err? {
        return Err(merged.error);
      }
      PutRecord(key, map["writes" := VList(merged.value)]);
      r := Ok(());
    }

    /** The loop of `get_tuple` over the stored ledger items. */
    method DecodePending(xs: seq<Value>) returns (r: Result<seq<PendingWrite>>)
      ensures r == DecodeItems(codecs.loadsTyped, xs)
    {
      var pending: seq<PendingWrite> := [];
      var i := 0;
      while i < |xs|
        invariant 0 <= i <= |xs|
        invariant DecodeItems(codecs.loadsTyped, xs[..i]) == Ok(pending)
      {
        var item := xs[i];
        assert xs[..i + 1][..i] == xs[..i];
        if !item.VMap? {
          DecodeItemsErrSticks(codecs.loadsTyped, xs, i + 1);
          return Err(MalformedLedger);
        }
        var m := item.entries;
        if "channel" in m && "type" in m && "value" in m {
          var v := codecs.loadsTyped(m["type"], m["value"]);
          if v.None? {
            DecodeItemsErrSticks(codecs.loadsTyped, xs, i + 1);
            return Err(Undecodable);
          }
          pending := pending + [PendingWrite(DictGetOr(m, "task_id", VStr("")), m["channel"], v.value)];
        }
        i := i + 1;
      }
      assert xs[..|xs|] == xs;
      r := Ok(pending);
    }

    /** The pending writes `get_tuple` reads from the ledger record at `k`. */
    method ReadPending(k: Key) returns (r: Result<seq<PendingWrite>>)
      ensures r == PendingOf(codecs.loadsTyped, Lookup(backend, k))
    {
      var wrec := GetRecord(k);
      if wrec.None? {
        return Ok([]);
      }
      var w := DictGet(wrec.value, "writes");
      if !Truthy(w) {
        return Ok([]);
      }
      if !w.VList? {
        return Err(MalformedLedger);
      }
      r := DecodePending(w.items);
    }

    /** `get_tuple` changes nothing; what it returns is `GetTupleSpec` of the current state. */
    method GetTuple(cfg: map<string, Value>) returns (r: Result<Option<CheckpointTuple>>)
      ensures r == GetTupleSpec(codecs, layout, backend, cfg)
    {
      var ids := IdsFromConfig(cfg);
      if ids.Err? {
        return Err(ids.error);
      }
      var thread, ns, id := ids.value.threadId, ids.value.ns, ids.value.checkpointId;
      if id == VNull {
        var latest := GetRecord(LatestKey(layout, codecs.toStr, thread, ns));
        if latest.None? || "checkpoint_id" !in latest.value {
          return Ok(None);
        }
        id := latest.value["checkpoint_id"];
      }
      var got := GetRecord(CheckpointKey(layout, codecs.toStr, thread, ns, id));
      if got.None? {
        return Ok(None);
      }
      var bins := got.value;
      var tag, raw := DictGet(bins, "cp_type"), DictGet(bins, "checkpoint");
      if tag == VNull || raw == VNull {
        return Ok(None);
      }
      var checkpoint := codecs.loadsTyped(tag, raw);
      if checkpoint.None? {
        return Ok(None);
      }
      var rawMeta := DictGet(bins, "metadata");
      var metadata := VMap(map[]);
      if rawMeta != VNull {
        var parsed := codecs.jsonLoads(rawMeta);
        if parsed.Some? {
          metadata := parsed.value;
        }
      }
      var pending := ReadPending(WritesKey(layout, codecs.toStr, thread, ns, id));
      if pending.Err? {
        return Err(pending.error);
      }
      var p := DictGet(bins, "p_checkpoint_id");
      var parent := if Truthy(p) then Some(ConfigFor(thread, ns, p)) else None;
      r := Ok(Some(CheckpointTuple(ConfigFor(thread, ns, id), checkpoint.value, metadata, parent, pending.value)));
    }

    /** The `seen`-flag loop of `list`: the entries after the first one with id `before`. */
    method SkipThrough(items: seq<Entry>, before: Value) returns (kept: seq<Entry>)
      ensures kept == After(items, before)
    {
      kept := [];
      var seen := false;
      ghost var p := 0;
      var i := 0;
      while i < |items|
        invariant 0 <= i <= |items|
        invariant !seen ==> kept == [] && forall j :: 0 <= j < i ==> items[j].id != before
        invariant seen ==> p < i && items[p].id == before && kept == items[p + 1..i]
        invariant seen ==> forall j :: 0 <= j < p ==> items[j].id != before
      {
        if !seen && items[i].id == before {
          seen := true;
          p := i;
        } else if seen {
          kept := kept + [items[i]];
        }
        i := i + 1;
      }
      if seen {
        AfterFirst(items, before, p);
      } else {
        AfterAbsent(items, before);
      }
    }

    /** The output loop of `list`: one `(id, metadata)` pair per window entry whose main record exists. */
    method CollectWindow(thread: Value, ns: Value, window: seq<Entry>) returns (out: seq<(Value, Value)>)
      ensures out == Collect(codecs, layout, backend, thread, ns, window)
    {
      out := [];
      var k := 0;
      while k < |window|
        invariant 0 <= k <= |window|
        invariant out == Collect(codecs, layout, backend, thread, ns, window[..k])
      {
        var cid := window[k].id;
        var rec := GetRecord(CheckpointKey(layout, codecs.toStr, thread, ns, cid));
        assert window[..k + 1][..k] == window[..k];
        if rec.Some? {
          var meta := VMap(map[]);
          var parsed := codecs.jsonLoads(DictGetOr(rec.value, "metadata", VStr("{}")));
          if parsed.Some? {
            meta := parsed.value;
          }
          out := out + [(cid, meta)];
        }
        k := k + 1;
      }
      assert window[..|window|] == window;
    }

    /** `list` changes nothing; what it returns is `ListSpec` of the current state. */
    method List(cfg: map<string, Value>, limit: int := DefaultListLimit) returns (r: Result<seq<(Value, Value)>>)
      ensures r == ListSpec(codecs, layout, backend, cfg, limit)
    {
      var ids := IdsFromConfig(cfg);
      if ids.Err? {
        return Err(ids.error);
      }
      var thread, ns, before := ids.value.threadId, ids.value.ns, ids.value.before;
      var items := ReadTimelineItems(TimelineKey(layout, codecs.toStr, thread, ns));
      if Truthy(before) {
        items := SkipThrough(items, before);
      }
      var out := CollectWindow(thread, ns, Window(items, limit));
      r := Ok(out);
    }
  }
}
