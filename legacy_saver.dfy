/**
  `AerospikeSaverMin`, the smallest saver: create-only checkpoint records
  keyed `"{thread}|{ns}|{id}"` in set `lg_checkpoints`, a latest pointer
  keyed `"latest|{thread}|{ns}"` in set `lg_latest`, JSON bodies, no pending
  writes and no listing.
 */
module LegacySaver {
  import opened Values
  import opened Backend
  import opened Codecs

  /** The namespace and the two sets of the minimal saver. */
  datatype MinLayout = MinLayout(namespace: string, setCkpt: string, setLatest: string)

  function DefaultMinLayout(namespace: string): MinLayout {
    MinLayout(namespace, "lg_checkpoints", "lg_latest")
  }

  // ---------- config parsing ----------

  /** `(thread_id, checkpoint_ns, checkpoint_id)` */
  datatype MinIds = MinIds(thread: Value, ns: Value, ck: Value)

  /**
    `_ids_from_config`: `configurable` defaults to `{}` when absent; any
    present value that is not a dictionary (`None` included) fails at
    `.get`. The namespace defaults to `"default"`; `metadata` is never read.
   */
  function IdsFromConfig(cfg: map<string, Value>): (r: Result<MinIds>)
    ensures r.Ok? ==> Truthy(r.value.thread) && Truthy(r.value.ns)
    ensures r == Err(NotADict) <==> "configurable" in cfg && !cfg["configurable"].VMap?
  {
    var c := DictGetOr(cfg, "configurable", VMap(map[]));
    if !c.VMap? then Err(NotADict)
    else if !Truthy(DictGet(c.entries, "thread_id")) then Err(MissingThreadId)
    else Ok(MinIds(c.entries["thread_id"], Or(DictGet(c.entries, "checkpoint_ns"), VStr("default")), DictGet(c.entries, "checkpoint_id")))
  }

  // ---------- keys ----------

  const Sep: string := "|"

  /** `"|".join(parts)`: a `TypeError` when any part is not a str. */
  function Join(parts: seq<Value>): (r: Result<string>)
    ensures r.Ok? <==> forall i :: 0 <= i < |parts| ==> parts[i].VStr?
    ensures r.Err? ==> r.error == NotAString
  {
    if parts == [] then Ok("")
    else if !parts[0].VStr? then Err(NotAString)
    else if |parts| == 1 then Ok(parts[0].s)
    else match Join(parts[1..])
      case Err(e) => Err(e)
      case Ok(rest) => Ok(parts[0].s + Sep + rest)
  }

  function CkKey(l: MinLayout, thread: Value, ns: Value, ck: Value): (r: Result<Key>)
    ensures r.Ok? <==> thread.VStr? && ns.VStr? && ck.VStr?
  {
    var parts := [thread, ns, ck];
    assert parts[0] == thread && parts[1] == ns && parts[2] == ck;
    match Join(parts)
    case Err(e) => Err(e)
    case Ok(u) => Ok(Key(l.namespace, l.setCkpt, u))
  }

  function LatestKey(l: MinLayout, thread: Value, ns: Value): (r: Result<Key>)
    ensures r.Ok? <==> thread.VStr? && ns.VStr?
  {
    var parts := [VStr("latest"), thread, ns];
    assert parts[1] == thread && parts[2] == ns;
    match Join(parts)
    case Err(e) => Err(e)
    case Ok(u) => Ok(Key(l.namespace, l.setLatest, u))
  }

  // ---------- put ----------

  function DigitChar(d: nat): (r: char)
    requires d < 10
    ensures '0' <= r <= '9'
  {
    "0123456789"[d]
  }

  /** `str(n)` for a non-negative int: its decimal digits. */
  function Decimal(n: nat): (r: string)
    ensures |r| >= 1 && forall i :: 0 <= i < |r| ==> '0' <= r[i] <= '9'
  {
    if n < 10 then [DigitChar(n)] else Decimal(n / 10) + [DigitChar(n % 10)]
  }

  /** The number a string of decimal digits spells, as `int(s)` reads it. */
  function DigitsValue(s: string): int {
    if s == [] then 0 else 10 * DigitsValue(s[..|s| - 1]) + (s[|s| - 1] as int - '0' as int)
  }

  lemma DigitCharValue(d: nat)
    requires d < 10
    ensures DigitChar(d) as int - '0' as int == d
  {
    assert "0123456789"[d] as int == '0' as int + d by {
      if d == 0 {} else if d == 1 {} else if d == 2 {} else if d == 3 {} else if d == 4 {}
      else if d == 5 {} else if d == 6 {} else if d == 7 {} else if d == 8 {} else {}
    }
  }

  /** `int(str(n)) == n`: the decimal digits spell the number they came from. */
  lemma {:induction false} DecimalValue(n: nat)
    ensures DigitsValue(Decimal(n)) == n
  {
    if n < 10 {
      DigitCharValue(n);
      assert Decimal(n)[..0] == [];
    } else {
      DecimalValue(n / 10);
      DigitCharValue(n % 10);
      assert Decimal(n)[..|Decimal(n)| - 1] == Decimal(n / 10);
    }
  }

  /** Two different clock readings give two different generated ids. */
  lemma DecimalInjective(m: nat, n: nat)
    requires m != n
    ensures Decimal(m) != Decimal(n)
  {
    DecimalValue(m);
    DecimalValue(n);
  }

  /** The id `put` writes under: the configured one unless it is `None`, else the clock in milliseconds. */
  function CheckpointIdFor(ids: MinIds, clockMs: nat): Value {
    if ids.ck == VNull then VStr(Decimal(clockMs)) else ids.ck
  }

  function CheckpointBins(c: Codecs, ids: MinIds, ck: Value, cp: map<string, Value>, md: map<string, Value>,
                          taskId: Value, now: int): Bins {
    map[
      "thread_id" := ids.thread, "checkpoint_ns" := ids.ns, "checkpoint_id" := ck,
      "state_blob" := VStr(c.jsonDumps(VMap(cp))),
      "metadata_json" := VStr(c.jsonDumps(VMap(md["task_id" := taskId]))),
      "created_at" := VInt(now)]
  }

  function LatestBins(ids: MinIds, ck: Value, now: int): Bins {
    map["thread_id" := ids.thread, "checkpoint_ns" := ids.ns, "checkpoint_id" := ck, "updated_at" := VInt(now)]
  }

  /**
    `put`: a create-only write of the checkpoint record (an existing key is
    an error and nothing is written), then the latest pointer. `clockMs` and
    `now` are the two clock readings the operation makes.
   */
  function PutSpec(c: Codecs, l: MinLayout, s: Store, cfg: map<string, Value>, cp: map<string, Value>,
                   md: map<string, Value>, taskId: Value, clockMs: nat, now: int): Outcome<()>
  {
    match IdsFromConfig(cfg)
    case Err(e) => Outcome(Err(e), s)
    case Ok(ids) => PutAt(l, s, ids, CheckpointIdFor(ids, clockMs), CheckpointBins(c, ids, CheckpointIdFor(ids, clockMs), cp, md, taskId, now), now)
  }

  /** `put` once the config is parsed and the id and the record's bins are known. */
  function PutAt(l: MinLayout, s: Store, ids: MinIds, ck: Value, bins: Bins, now: int): Outcome<()> {
    match CkKey(l, ids.thread, ids.ns, ck)
    case Err(e) => Outcome(Err(e), s)
    case Ok(k) =>
      if k in s then Outcome(Err(RecordExists), s)
      else
        var s1 := s[k := bins];
        match LatestKey(l, ids.thread, ids.ns)
        case Err(e) => Outcome(Err(e), s1)
        case Ok(lk) => Outcome(Ok(()), s1[lk := LatestBins(ids, ck, now)])
  }

  // ---------- get_tuple ----------

  /** `CheckpointTuple(checkpoint, metadata, parent, pending_writes, task_id)` in its five-field shape. */
  datatype LegacyTuple = LegacyTuple(checkpoint: Value, metadata: Value, parent: Value, pendingWrites: seq<Value>, taskId: Value)

  /** The id `get_tuple` reads: the configured one, else the latest pointer's (`None` without a pointer). */
  function ResolveCk(l: MinLayout, s: Store, ids: MinIds): Result<Option<Value>> {
    if ids.ck != VNull then Ok(Some(ids.ck))
    else match LatestKey(l, ids.thread, ids.ns)
      case Err(e) => Err(e)
      case Ok(lk) =>
        match Lookup(s, lk)
        case None => Ok(None)
        case Some(b) => if "checkpoint_id" in b then Ok(Some(b["checkpoint_id"])) else Err(MissingBin)
  }

  /**
    `get_tuple`: a missing pointer or record reads as no state; a missing
    `state_blob` or bad JSON raises; a checkpoint that is not a dictionary
    with a `"v"` key (a legacy record) reads as no state.
   */
  function GetTupleSpec(c: Codecs, l: MinLayout, s: Store, cfg: map<string, Value>): Result<Option<LegacyTuple>> {
    match IdsFromConfig(cfg)
    case Err(e) => Err(e)
    case Ok(ids) => TupleFor(c, l, s, ids)
  }

  /** `get_tuple` once the config has been parsed. */
  function TupleFor(c: Codecs, l: MinLayout, s: Store, ids: MinIds): Result<Option<LegacyTuple>> {
    match ResolveCk(l, s, ids)
    case Err(e) => Err(e)
    case Ok(None) => Ok(None)
    case Ok(Some(ck)) =>
      match CkKey(l, ids.thread, ids.ns, ck)
      case Err(e) => Err(e)
      case Ok(k) =>
        match Lookup(s, k)
        case None => Ok(None)
        case Some(b) => Decode(c, b)
  }

  /** The body of a found record: both JSON bins parsed, then the shape check. */
  function Decode(c: Codecs, b: Bins): (r: Result<Option<LegacyTuple>>)
    ensures r.Ok? && r.value.Some? ==> r.value.value.checkpoint.VMap? && "v" in r.value.value.checkpoint.entries
  {
    if "state_blob" !in b then Err(MissingBin)
    else match c.jsonLoads(b["state_blob"])
      case None => Err(Undecodable)
      case Some(checkpoint) =>
        match c.jsonLoads(DictGetOr(b, "metadata_json", VStr("{}")))
        case None => Err(Undecodable)
        case Some(metadata) =>
          if !checkpoint.VMap? || "v" !in checkpoint.entries then Ok(None)
          else Ok(Some(LegacyTuple(checkpoint, metadata, VNull, [], VNull)))
  }

  // ---------- the saver ----------

  class AerospikeSaverMin {
    var backend: Store
    const layout: MinLayout
    const codecs: Codecs

    constructor (backend: Store, codecs: Codecs, namespace: string)
      ensures this.backend == backend && this.codecs == codecs
      ensures layout == MinLayout(namespace, "lg_checkpoints", "lg_latest")
    {
      this.backend := backend;
      this.codecs := codecs;
      this.layout := DefaultMinLayout(namespace);
    }

    /** `client.put` with `POLICY_EXISTS_CREATE`: fails on an existing key, else writes. */
    method CreateRecord(k: Key, bins: Bins) returns (r: Result<()>)
      modifies this
      ensures k in old(backend) ==> r == Err(RecordExists) && backend == old(backend)
      ensures k !in old(backend) ==> r == Ok(()) && backend == old(backend)[k := bins]
    {
      if k in backend {
        return Err(RecordExists);
      }
      backend := backend[k := bins];
      r := Ok(());
    }

    /** A plain `client.put`: the record now holds exactly `bins`. */
    method PutRecord(k: Key, bins: Bins)
      modifies this
      ensures backend == old(backend)[k := bins]
    {
      backend := backend[k := bins];
    }

    method Put(cfg: map<string, Value>, checkpoint: map<string, Value>, metadata: map<string, Value>,
               taskId: Value, clockMs: nat, now: int) returns (r: Result<()>)
      modifies this
      ensures PutSpec(codecs, layout, old(backend), cfg, checkpoint, metadata, taskId, clockMs, now) == Outcome(r, backend)
    {
      var ids := IdsFromConfig(cfg);
      if ids.Err? {
        return Err(ids.error);
      }
      var ck := ids.value.ck;
      if ck == VNull {
        ck := VStr(Decimal(clockMs));
      }
      var bins := CheckpointBins(codecs, ids.value, ck, checkpoint, metadata, taskId, now);
      r := WriteRecords(ids.value, ck, bins, now);
    }

    /** The two writes of `put`: the create-only checkpoint record, then the latest pointer. */
    method WriteRecords(ids: MinIds, ck: Value, bins: Bins, now: int) returns (r: Result<()>)
      modifies this
      ensures PutAt(layout, old(backend), ids, ck, bins, now) == Outcome(r, backend)
    {
      var k := CkKey(layout, ids.thread, ids.ns, ck);
      if k.Err? {
        return Err(k.error);
      }
      r := CreateRecord(k.value, bins);
      if r.Err? {
        return;
      }
      var lk := LatestKey(layout, ids.thread, ids.ns);
      assert lk.Ok?;
      PutRecord(lk.value, LatestBins(ids, ck, now));
    }

    /** `put_writes` stores nothing and returns. */
    method PutWrites(cfg: map<string, Value>, writes: seq<(string, Value)>, metadata: map<string, Value>) returns (r: Result<()>)
      ensures r == Ok(())
    {
      r := Ok(());
    }

    method GetRecord(k: Key) returns (r: Option<Bins>)
      ensures r == Lookup(backend, k)
    {
      r := if k in backend then Some(backend[k]) else None;
    }

    method GetTuple(cfg: map<string, Value>) returns (r: Result<Option<LegacyTuple>>)
      ensures r == GetTupleSpec(codecs, layout, backend, cfg)
    {
      var ids := IdsFromConfig(cfg);
      if ids.Err? {
        return Err(ids.error);
      }
      var thread, ns, ck := ids.value.thread, ids.value.ns, ids.value.ck;
      if ck == VNull {
        var lk := LatestKey(layout, thread, ns);
        if lk.Err? {
          return Err(lk.error);
        }
        var latest := GetRecord(lk.value);
        if latest.None? {
          return Ok(None);
        }
        if "checkpoint_id" !in latest.value {
          return Err(MissingBin);
        }
        ck := latest.value["checkpoint_id"];
      }
      var k := CkKey(layout, thread, ns, ck);
      if k.Err? {
        return Err(k.error);
      }
      var got := GetRecord(k.value);
      if got.None? {
        return Ok(None);
      }
      var b := got.value;
      if "state_blob" !in b {
        return Err(MissingBin);
      }
      var checkpoint := codecs.jsonLoads(b["state_blob"]);
      if checkpoint.None? {
        return Err(Undecodable);
      }
      var metadata := codecs.jsonLoads(DictGetOr(b, "metadata_json", VStr("{}")));
      if metadata.None? {
        return Err(Undecodable);
      }
      if !checkpoint.value.VMap? || "v" !in checkpoint.value.entries {
        return Ok(None);
      }
      r := Ok(Some(LegacyTuple(checkpoint.value, metadata.value, VNull, [], VNull)));
    }
  }
}
