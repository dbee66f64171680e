# Aerospike checkpointer for LangGraph, modelled in Dafny

The repository stores LangGraph checkpoints in an Aerospike key-value
store. This project models its two savers and proves what they promise.

- `AerospikeSaver` (module `Saver`) writes four kinds of record, each under a user key `thread|ns|…`:
  - the main checkpoint record;
  - a pending-writes ledger per checkpoint;
  - a "latest" pointer per thread and namespace;
  - a newest-first, de-duplicated, capped timeline per thread and namespace.

  Its operations are `put`, `put_writes`, `get_tuple` and `list`.
- `AerospikeSaverMin` (module `LegacySaver`) is the smaller variant. It has a create-only checkpoint record keyed by `SEP.join`, a latest pointer, and a `put_writes` that stores nothing.

Each saver is a `class` whose `backend` field is the Aerospike namespace, a map from key to bins. Each method is proved to produce exactly what a specification function computes from the old state:

- `PutSpec`, `PutWritesSpec`, `GetTupleSpec` and `ListSpec`;
- the legacy `PutSpec` and `GetTupleSpec`.

The properties are lemmas about those functions, in modules `SaverProps` and `LegacyProps`:

- put-then-get returns the stored checkpoint;
- each operation writes exactly the records it should and nothing else;
- timeline order, capacity and de-duplication;
- ledger slot replacement and uniqueness;
- `list` ordering and the `before` cut-off.

Module layout:

- `Values`: Python values, truthiness, `or`, `dict.get`, errors as `Result`.
- `Backend`: the store, `Lookup` (the `RecordNotFound` case) and `Outcome`, which pairs a result with the new store.
- `Codecs`: the serializer `dumps_typed`/`loads_typed`, `json.dumps`/`json.loads` and `str()`. These are abstract function parameters. Their round-trip laws (`Lawful`) appear only as lemma premises.
- `Keys`: the main saver's key builders and their injectivity.
- `Timeline`: the timeline list operations and their JSON encoding.
- `Ledger`: the `put_writes` merge and the `get_tuple` ledger decoding.
- `Saver` / `SaverProps` and `LegacySaver` / `LegacyProps`: the two savers and their properties.

Behaviour of the code worth knowing:

- Keys do not escape or reject `|`. `Keys.SeparatorCollision` and `LegacyProps.CkKeyCollision` exhibit two distinct triples with the same checkpoint key. Injectivity (`Keys.CheckpointKeyInjective`, `LegacyProps.CkKeyInjective`) holds only when thread id and namespace contain no `|`.
- Reading the ledger in `get_tuple` skips only items missing `channel`, `type` or `value`, which is the `KeyError` case. A non-dictionary item, a truthy non-list `writes` bin, or a value the serializer cannot decode makes the whole call fail (`MalformedLedger` / `Undecodable`).
- The default namespace is `""` in the main saver and `"default"` in the legacy one.
- The legacy `put_writes` stores nothing. The main `put_writes` replaces by `(task_id, idx)` slot.

## Model

| member | source | states |
|---|---|---|
| Values.Or | langgraph/checkpoint/aerospike/saver.py:95-104 | Python `a or b`: `a` when truthy, else `b`; the result is truthy iff either operand is |
| Backend.Lookup | langgraph/checkpoint/aerospike/saver.py:132-136 | a record is returned exactly when the key is stored, with its bins; otherwise `None` (`RecordNotFound`) |
| Saver.ClampMax | langgraph/checkpoint/aerospike/saver.py:82 | the timeline cap is at least 1, and equals the requested value when that is at least 1 |
| Saver.AerospikeSaver.constructor | langgraph/checkpoint/aerospike/saver.py:66-82 | stores client state, layout and codecs, with the defaults namespace `test`, sets `lg_cp`, `lg_cp_w`, `lg_cp_meta` and cap 500; `timeline_max` is clamped to `max(1, n)` |
| Saver.Section | langgraph/checkpoint/aerospike/saver.py:90-92 | `cfg.get(name, {}) or {}`: a truthy dictionary gives its entries, a falsy or missing value gives `{}`, and any other truthy value fails (NotADict) |
| Saver.IdsFromConfig | langgraph/checkpoint/aerospike/saver.py:86-109 | a parsed config has a truthy thread id and a truthy or empty namespace, and its `configurable` section is usable |
| SaverProps.IdsFallback | langgraph/checkpoint/aerospike/saver.py:94-107 | for every config whose two sections parse: fails (MissingThreadId) iff neither section has a truthy thread id; otherwise thread and namespace fall back from `configurable` to `metadata` (namespace to `""`), id and `before` come from `configurable` |
| SaverProps.IdsIgnoreMetadataWhenConfigured | langgraph/checkpoint/aerospike/saver.py:95-104 | when `configurable` has truthy thread and namespace, the `metadata` section is never read, even when it is malformed |
| SaverProps.IdsRejectNonDict | langgraph/checkpoint/aerospike/saver.py:91 | a truthy non-dictionary `configurable` section is an error |
| SaverProps.LatestConfigParses | langgraph/checkpoint/aerospike/saver.py:86-109 | the config `{configurable: {thread_id, checkpoint_ns}}` parses to that thread and namespace with no id and no `before` |
| Keys.CheckpointAndWritesShareUserKey | langgraph/checkpoint/aerospike/saver.py:112-116 | the main record and the ledger share their user key and differ exactly when their sets differ |
| Keys.LatestNeverTimeline | langgraph/checkpoint/aerospike/saver.py:118-122 | a latest-pointer key never equals a timeline key, for any threads and namespaces |
| Keys.JoinedInjective | langgraph/checkpoint/aerospike/saver.py:113 | the joined key `a SEP b SEP c` determines `a`, `b` and `c` when the first two contain no separator |
| Keys.CheckpointKeyInjective | langgraph/checkpoint/aerospike/saver.py:112-113 | distinct `(thread, ns, id)` whose thread and ns contain no separator give distinct checkpoint keys |
| Keys.LatestKeyInjective | langgraph/checkpoint/aerospike/saver.py:118-119 | distinct `(thread, ns)` containing no separator give distinct latest keys |
| Keys.SeparatorCollision | langgraph/checkpoint/aerospike/saver.py:113 | the unescaped separator lets `("a SEP b", "c", "d")` and `("a", "b SEP c", "d")` share a checkpoint key |
| Saver.AerospikeSaver.PutRecord | langgraph/checkpoint/aerospike/saver.py:125-130 | `_put` replaces the record at the key by the given bins, and changes nothing else |
| Saver.AerospikeSaver.GetRecord | langgraph/checkpoint/aerospike/saver.py:132-136 | `_get` returns the stored bins exactly when the key exists |
| Saver.TimelineOf | langgraph/checkpoint/aerospike/saver.py:140-153 | a missing record, or an `items` bin that does not parse to a JSON list, reads as the empty timeline; otherwise the timeline is `Clean` of the parsed list; every entry read has a string id |
| Saver.AerospikeSaver.ReadTimelineItems | langgraph/checkpoint/aerospike/saver.py:140-153 | the cleaning loop returns exactly `TimelineOf` of the current store |
| Timeline.Clean | langgraph/checkpoint/aerospike/saver.py:147-150 | keeps only two-element lists whose second element is a string; the result is no longer than the raw list |
| Timeline.CleanMembers | langgraph/checkpoint/aerospike/saver.py:147-150 | an entry is kept exactly when some raw element is the two-element list `[ts, id]` with a string id |
| Timeline.CleanAppend | langgraph/checkpoint/aerospike/saver.py:147-150 | cleaning a concatenation cleans each part in turn, so the kept entries stay in their raw order |
| Timeline.Encode | langgraph/checkpoint/aerospike/saver.py:214 | each `(ts, id)` entry is written as the two-element list `[ts, id]`, in order |
| Timeline.CleanEncode | langgraph/checkpoint/aerospike/saver.py:146-150 | cleaning an encoded timeline with string ids gives back that timeline |
| Timeline.CleanJsonSafe | langgraph/checkpoint/aerospike/saver.py:146-150 | entries cleaned from JSON values have JSON timestamps and ids |
| Timeline.Without | langgraph/checkpoint/aerospike/saver.py:210 | the de-dup filter removes exactly the entries with that id and keeps the others |
| Timeline.WithoutSubseq | langgraph/checkpoint/aerospike/saver.py:210 | the filter keeps the remaining entries in their order |
| Timeline.WithoutNoDup | langgraph/checkpoint/aerospike/saver.py:210 | filtering keeps ids unique |
| Timeline.WithoutAbsent | langgraph/checkpoint/aerospike/saver.py:210 | filtering an absent id changes nothing |
| Timeline.Take | langgraph/checkpoint/aerospike/saver.py:212-213 | truncation gives the prefix of length `min(len, cap)` |
| Timeline.PushPutsEntryFirstOnce | langgraph/checkpoint/aerospike/saver.py:209-213 | after a push the new entry is first and its id appears nowhere else |
| Timeline.PushLength | langgraph/checkpoint/aerospike/saver.py:210-213 | the pushed timeline has length `min(1 + remaining, cap)`, never above the cap |
| Timeline.PushKeepsOrder | langgraph/checkpoint/aerospike/saver.py:210-213 | after the head come the older entries minus the id, in their old order, truncated to `cap - 1` |
| Timeline.PushFrom | langgraph/checkpoint/aerospike/saver.py:210-213 | every entry after a push is the new one or was in the old timeline |
| Timeline.PushKeepsNoDup | langgraph/checkpoint/aerospike/saver.py:209-213 | a push keeps ids unique |
| Timeline.PushFresh | langgraph/checkpoint/aerospike/saver.py:210-213 | pushing an id not yet present prepends it and truncates |
| Timeline.PushAllFresh | langgraph/checkpoint/aerospike/saver.py:207-214 | a series of puts of fresh ids leaves them newest-first ahead of the old timeline, cut to the cap |
| Timeline.TakeTake | langgraph/checkpoint/aerospike/saver.py:212-213 | truncating twice to the same cap is truncating once |
| Saver.AerospikeSaver.Put | langgraph/checkpoint/aerospike/saver.py:156-227 | the result and the new store are those of `PutSpec` on the old store |
| SaverProps.PutFailsCleanly | langgraph/checkpoint/aerospike/saver.py:173-179 | a failing put writes nothing; a config error is reported as such; a falsy checkpoint id is exactly the MissingCheckpointId case |
| SaverProps.PutOk | langgraph/checkpoint/aerospike/saver.py:173-227 | with parsed ids and a truthy id, put returns the updated config and leaves the store `PutStore` describes |
| SaverProps.PutStoreRecords | langgraph/checkpoint/aerospike/saver.py:187-214 | the main record, the latest pointer `{checkpoint_id, ts}` and the pushed timeline are written; every other record is unchanged |
| SaverProps.CheckpointBinsRead | langgraph/checkpoint/aerospike/saver.py:190-199 | the main record's `cp_type`, `checkpoint`, `metadata` and `p_checkpoint_id` bins hold the serialized checkpoint, JSON metadata and parent id |
| SaverProps.PutRecords | langgraph/checkpoint/aerospike/saver.py:187-214 | a successful put writes exactly those three records, the parent id being the config's `checkpoint_id` |
| SaverProps.ReturnedConfigKeeps | langgraph/checkpoint/aerospike/saver.py:217-227 | the returned config keeps every other top-level and `configurable` key, and sets `thread_id`, `checkpoint_ns` and the new `checkpoint_id` |
| SaverProps.PutReturnsConfig | langgraph/checkpoint/aerospike/saver.py:217-227 | put's returned config carries the checkpoint's id, the thread and the namespace, and keeps all other keys |
| SaverProps.ReturnedConfigParses | langgraph/checkpoint/aerospike/saver.py:217-227 | the returned config parses to the same thread and namespace with the new id |
| SaverProps.ResolvesTo | langgraph/checkpoint/aerospike/saver.py:301-306 | with no configured id, get_tuple follows the latest pointer |
| SaverProps.TupleReads | langgraph/checkpoint/aerospike/saver.py:299-376 | reading back a record written by put gives the checkpoint, metadata and parent config it was given, and the ledger's pending writes or its error |
| SaverProps.PutStoreTuple | langgraph/checkpoint/aerospike/saver.py:187-376 | after the writes of put, get_tuple via the latest pointer or the id returns the stamped checkpoint |
| SaverProps.PutThenGetLatest | langgraph/checkpoint/aerospike/saver.py:156-376 | put then get_tuple of `{thread_id, checkpoint_ns}` returns the stamped checkpoint, metadata, parent config, and the pending writes of the checkpoint's ledger |
| SaverProps.PutThenGetReturned | langgraph/checkpoint/aerospike/saver.py:156-376 | get_tuple of the config put returned gives back the stamped checkpoint under that id |
| SaverProps.TimelineOfJsonSafe | langgraph/checkpoint/aerospike/saver.py:140-153 | entries read from a timeline record are plain JSON values |
| SaverProps.TimelineReadsBack | langgraph/checkpoint/aerospike/saver.py:140-153 | a timeline written by put reads back unchanged |
| SaverProps.PutStoreTimeline | langgraph/checkpoint/aerospike/saver.py:207-214 | put's timeline, read back, is the old timeline with `(ts, id)` pushed |
| SaverProps.PutTimeline | langgraph/checkpoint/aerospike/saver.py:207-214 | the same, for `put` on a config |
| SaverProps.PutTimelineShape | langgraph/checkpoint/aerospike/saver.py:207-214 | after put the timeline has 1..cap entries, the new one first and only once, the rest a subsequence of the old one, and unique ids stay unique |
| Ledger.LocateFrom | langgraph/checkpoint/aerospike/saver.py:277-281 | the search finds the first item keyed `(task_id, idx)`, or reports absent, or reports a non-dictionary item reached before any match |
| Saver.AerospikeSaver.FindSlot | langgraph/checkpoint/aerospike/saver.py:277-281 | the search loop returns what `Locate` specifies |
| Saver.AerospikeSaver.MergeBatch | langgraph/checkpoint/aerospike/saver.py:263-286 | the write loop returns what `MergeAll` specifies |
| Saver.AerospikeSaver.MergeItem | langgraph/checkpoint/aerospike/saver.py:277-286 | one write's search and replace-or-append returns what `Merge` specifies, failing on a non-dictionary item met first |
| Saver.AerospikeSaver.ReadLedger | langgraph/checkpoint/aerospike/saver.py:255-259 | an absent ledger is empty; a present one must hold a list |
| Saver.AerospikeSaver.PutWrites | langgraph/checkpoint/aerospike/saver.py:230-289 | the result and the new store are those of `PutWritesSpec` |
| Ledger.ItemKey | langgraph/checkpoint/aerospike/saver.py:265-276 | each new item is a dictionary keyed by its `task_id` and its slot (`WRITES_IDX_MAP` or the position) |
| Ledger.MergeReplacesOrAppends | langgraph/checkpoint/aerospike/saver.py:277-286 | over dictionaries, a write replaces the item found in its slot by the new item, in place, or is appended when no item matches; the other items are kept |
| Ledger.LocateDicts | langgraph/checkpoint/aerospike/saver.py:277-281 | over dictionaries the search never meets a malformed item, and reports absent exactly when no item matches |
| Ledger.LocateUnique | langgraph/checkpoint/aerospike/saver.py:277-281 | with unique keys the search finds the one item that matches |
| Ledger.MergeKeepsUnique | langgraph/checkpoint/aerospike/saver.py:277-286 | merging an item keeps `(task_id, idx)` unique in the ledger |
| Ledger.MergeAllKeepsUnique | langgraph/checkpoint/aerospike/saver.py:263-286 | a whole batch keeps slot keys unique |
| Ledger.MergeAllGrows | langgraph/checkpoint/aerospike/saver.py:263-286 | over dictionaries, a batch of n writes succeeds and grows the ledger by at most n |
| Ledger.MergeAllFresh | langgraph/checkpoint/aerospike/saver.py:263-286 | with distinct slots, merging into an empty ledger gives exactly the new items, in order |
| Ledger.SameSlotReplacedInPlace | langgraph/checkpoint/aerospike/saver.py:263-286 | a later write to an existing slot replaces that item in place |
| Ledger.LastWrite | langgraph/checkpoint/aerospike/saver.py:263-267 | the last of the first n writes that takes a slot, or none when no write takes it |
| Ledger.MergeAllSlots | langgraph/checkpoint/aerospike/saver.py:263-286 | a batch into a ledger of dictionaries never fails and lands slot by slot: each written slot holds the item of its last write, at the old position of that slot or after all old items when it is new; every old item whose slot the batch does not write keeps its position; every item is an old one in its place or one stored under a written slot |
| Ledger.MergeAllMerged | langgraph/checkpoint/aerospike/saver.py:263-286 | over dictionaries every prefix of a batch gives a `Merged` ledger: the three facts above, all items dictionaries, and every slot no write takes found where it was, or not at all |
| Ledger.MergedNext | langgraph/checkpoint/aerospike/saver.py:277-286 | one more write of the batch keeps a `Merged` ledger `Merged` |
| SaverProps.PutWritesNoOp | langgraph/checkpoint/aerospike/saver.py:244-249 | no writes, or a config without a truthy checkpoint id, changes nothing; a failing call changes nothing |
| SaverProps.PutWritesKeepsUnique | langgraph/checkpoint/aerospike/saver.py:230-289 | put_writes on a ledger with unique slots succeeds, keeps them unique and touches no other record |
| SaverProps.PutWritesThenPending | langgraph/checkpoint/aerospike/saver.py:263-350 | put_writes of distinct slots into a fresh ledger reads back as exactly those writes `(task_id, channel, value)` |
| Ledger.DecodeNewItem | langgraph/checkpoint/aerospike/saver.py:341-347 | a stored item decodes back to its task id, channel and value |
| Ledger.DecodeSkipsIncomplete | langgraph/checkpoint/aerospike/saver.py:341-350 | an item missing `channel`, `type` or `value` is skipped |
| Ledger.DecodeBatch | langgraph/checkpoint/aerospike/saver.py:340-350 | a batch of new items decodes to the pending writes it came from |
| Saver.AerospikeSaver.DecodePending | langgraph/checkpoint/aerospike/saver.py:340-350 | the decode loop returns what `DecodeItems` specifies |
| Saver.AerospikeSaver.ReadPending | langgraph/checkpoint/aerospike/saver.py:336-350 | the ledger read returns what `PendingOf` specifies |
| Saver.MetadataOf | langgraph/checkpoint/aerospike/saver.py:326-333 | missing or unparsable metadata reads as `{}`, otherwise the parsed value |
| Saver.AerospikeSaver.GetTuple | langgraph/checkpoint/aerospike/saver.py:291-376 | returns `GetTupleSpec` of the current store |
| SaverProps.GetTupleNone | langgraph/checkpoint/aerospike/saver.py:301-324 | these cases give "not found": no latest pointer, a pointer without an id, no main record, a missing type or payload bin, an undecodable payload; a configured id is used as is |
| SaverProps.GetTupleFound | langgraph/checkpoint/aerospike/saver.py:309-376 | a found tuple has the resolved config, the decoded payload, `MetadataOf` the metadata bin, a parent config iff `p_checkpoint_id` is truthy, and the ledger's pending writes |
| Timeline.After | langgraph/checkpoint/aerospike/saver.py:392-401 | the `before` cut-off is shorter than the timeline, or empty |
| Timeline.AfterFirst | langgraph/checkpoint/aerospike/saver.py:392-401 | the entries kept are those after the first occurrence of `before` |
| Timeline.AfterAbsent | langgraph/checkpoint/aerospike/saver.py:392-401 | if `before` does not occur, nothing is kept |
| Timeline.Window | langgraph/checkpoint/aerospike/saver.py:404 | the window is the prefix of exactly `min(len, max(1, limit))` entries |
| Saver.Collect | langgraph/checkpoint/aerospike/saver.py:403-414 | the output has at most one pair per window entry (membership and order are `CollectMembers`, `CollectAllPresent` and `CollectKeepsOrder`) |
| Saver.AerospikeSaver.SkipThrough | langgraph/checkpoint/aerospike/saver.py:392-401 | the `seen` loop returns exactly `After` |
| Saver.AerospikeSaver.CollectWindow | langgraph/checkpoint/aerospike/saver.py:403-414 | the output loop returns exactly `Collect` |
| Saver.AerospikeSaver.List | langgraph/checkpoint/aerospike/saver.py:378-414 | returns `ListSpec` of the current store; `limit` defaults to 20 |
| SaverProps.CollectKeepsOrder | langgraph/checkpoint/aerospike/saver.py:403-414 | the listed ids are a subsequence of the window's ids, so newest-first order is kept |
| SaverProps.CollectMembers | langgraph/checkpoint/aerospike/saver.py:403-414 | a pair is listed exactly when it is a window entry's id whose main record exists, with that record's parsed metadata: only entries without a record are dropped |
| SaverProps.CollectAllPresent | langgraph/checkpoint/aerospike/saver.py:403-414 | when every window entry has a main record, list has one pair per entry, the i-th being the i-th id with its metadata |
| SaverProps.ListBoundedAndOrdered | langgraph/checkpoint/aerospike/saver.py:378-414 | list returns at most `max(1, limit)` pairs, in window order |
| SaverProps.ListBeforeAbsent | langgraph/checkpoint/aerospike/saver.py:392-401 | a `before` id not in the timeline gives an empty list |
| SaverProps.ListBeforeFound | langgraph/checkpoint/aerospike/saver.py:392-404 | with `before` at position p, the window is taken from the entries after p |
| SaverProps.CollectHead | langgraph/checkpoint/aerospike/saver.py:403-413 | when the first entry's record exists, the first pair is its id with its parsed metadata |
| SaverProps.ListFromHead | langgraph/checkpoint/aerospike/saver.py:388-414 | without `before`, list starts with the timeline's head and its metadata |
| SaverProps.ListAfterPut | langgraph/checkpoint/aerospike/saver.py:156-414 | after put, list of `{thread_id, checkpoint_ns}` starts with the new id and its metadata |
| SaverProps.PutStoreListed | langgraph/checkpoint/aerospike/saver.py:187-414 | the same, for the store put writes |
| LegacySaver.IdsFromConfig | aerospike_saver.py:8-12 | a parsed config has truthy thread and namespace; NotADict exactly when `configurable` is present and not a dictionary |
| LegacyProps.IdsCases | aerospike_saver.py:8-12 | for every config whose `configurable` section is a dictionary: fails (MissingThreadId) iff the thread id is falsy; otherwise thread, namespace or `"default"`, and the optional id |
| LegacyProps.IdsNeedConfigurable | aerospike_saver.py:9-11 | without `configurable` the thread id is missing |
| LegacyProps.IdsIgnoreMetadata | aerospike_saver.py:8-12 | the `metadata` section plays no part |
| LegacyProps.MinConfigParses | aerospike_saver.py:8-12 | the configs used to read back parse to the given ids |
| LegacySaver.AerospikeSaverMin.constructor | aerospike_saver.py:16-19 | namespace as given, sets `lg_checkpoints` and `lg_latest` |
| LegacySaver.Join | aerospike_saver.py:23 | `SEP.join` succeeds iff every part is a string, else TypeError (NotAString) |
| LegacySaver.CkKey | aerospike_saver.py:22-23 | the checkpoint key exists iff thread, namespace and id are strings |
| LegacySaver.LatestKey | aerospike_saver.py:25-26 | the latest key exists iff thread and namespace are strings |
| LegacyProps.JoinThree | aerospike_saver.py:22-26 | joining three strings gives `a SEP b SEP c` |
| LegacyProps.CkKeyInjective | aerospike_saver.py:22-23 | distinct triples whose thread and namespace contain no separator give distinct keys |
| LegacyProps.CkKeyCollision | aerospike_saver.py:22-23 | the unescaped separator lets two distinct triples share a key |
| LegacySaver.Decimal | aerospike_saver.py:33 | `str(int(...))` of a clock reading is a non-empty string of digits |
| LegacySaver.DecimalValue | aerospike_saver.py:33 | `int(str(n)) == n`: the generated id's digits spell the millisecond clock reading it came from |
| LegacySaver.DecimalInjective | aerospike_saver.py:31-33 | two different clock readings give two different generated ids |
| LegacyProps.GeneratedIdHasNoSep | aerospike_saver.py:31-33 | a generated id is a string without the separator |
| LegacySaver.AerospikeSaverMin.CreateRecord | aerospike_saver.py:45-46 | a create-only put fails (RecordExists) and changes nothing when the key exists; otherwise it stores the bins |
| LegacySaver.AerospikeSaverMin.PutRecord | aerospike_saver.py:48-50 | an ordinary put replaces the record |
| LegacySaver.AerospikeSaverMin.Put | aerospike_saver.py:29-50 | the result and the new store are those of `PutSpec` |
| LegacySaver.AerospikeSaverMin.WriteRecords | aerospike_saver.py:44-50 | the two writes of put are those of `PutAt` |
| LegacyProps.PutCreateOnly | aerospike_saver.py:44-46 | put onto an existing checkpoint key fails with RecordExists and leaves the store unchanged |
| LegacyProps.CheckpointBinsRead | aerospike_saver.py:36-43 | `state_blob` holds the checkpoint's JSON; `metadata_json` holds the metadata with `task_id` added |
| LegacyProps.PutRecords | aerospike_saver.py:29-50 | a failing put changes nothing; a successful one writes a new checkpoint record and the latest pointer, changes no other record, and never overwrites an existing checkpoint |
| LegacyProps.PutRetryRejected | aerospike_saver.py:44-46 | retrying put with the same explicit id fails with RecordExists, whatever the new payload |
| LegacySaver.AerospikeSaverMin.PutWrites | aerospike_saver.py:51-56 | put_writes succeeds and stores nothing |
| LegacySaver.AerospikeSaverMin.GetRecord | aerospike_saver.py:63-72 | a record read is `Lookup` of the store |
| LegacySaver.Decode | aerospike_saver.py:74-78 | a returned tuple's checkpoint is a dictionary with a `"v"` key |
| LegacyProps.DecodeCases | aerospike_saver.py:74-78 | a missing blob is an error (KeyError); unparsable JSON in either bin is an error; otherwise a tuple is returned iff the checkpoint is a dictionary with `"v"`, and it holds both parsed values |
| LegacySaver.AerospikeSaverMin.GetTuple | aerospike_saver.py:59-90 | returns `GetTupleSpec` of the current store |
| LegacyProps.GetTupleNoPointer | aerospike_saver.py:61-67 | no id and no latest pointer gives None |
| LegacyProps.GetTuplePointerWithoutId | aerospike_saver.py:61-65 | a latest pointer without `checkpoint_id` raises (KeyError, MissingBin) |
| LegacyProps.GetTupleNoRecord | aerospike_saver.py:69-72 | an id resolved from the config or the pointer whose checkpoint record is absent gives None |
| LegacyProps.ReadsRecords | aerospike_saver.py:59-90 | reading records written by put, via the pointer or the id, gives the checkpoint and metadata, or None without `"v"` |
| LegacyProps.PutThenGet | aerospike_saver.py:29-90 | after a successful put, get_tuple by thread (latest) and by the new id both return the stored checkpoint and metadata, or None without `"v"` |

## Left out

- I/O errors of the Aerospike client: the `RuntimeError` wrapping in `_put`/`_get`, connection setup and TTL. The backend is a map that never fails.
- `delete_thread` is not part of this model. The metrics wrapper `langgraph/checkpoint/aerospike/metrics_saver.py`, the demo and inspection scripts, and `wire_into_langgraph.py` are not part of this model.
- The arity probing of the legacy `get_tuple` (aerospike_saver.py:84-96) is not modelled. The tuple always has the five-field shape `(checkpoint, metadata, parent, pending_writes, task_id)`.
- The main saver's `new_versions` and the legacy saver's `**kwargs` (aerospike_saver.py:30, 51, 59) are ignored by the source and are absent from the model; the main saver's methods take no `**kwargs`. The legacy `put` has no `new_versions`: its fourth positional parameter is `task_id`, modelled as `taskId`.
- Mutation of the caller's checkpoint dictionary: `put` writes `ts` into it, but is modelled on values. `Saver.Stamped` is the stamped copy that is serialized and stored.
- The clocks (`time.time_ns()`, and the two `time.time()` readings of the legacy `put`) are parameters.
- Serialization formats are abstract:
  - `dumps_typed`/`loads_typed`, `json.dumps`/`json.loads` and `str()` are function parameters;
  - a decoder (`loads_typed`, `json.loads`) raising is modelled as `None`;
  - `dumps_typed` is total, so its failures are not modelled: in the source they raise in `put` (saver.py:187) and in `put_writes` (saver.py:266) before any write, leaving the store unchanged, while `PutSpec` and `PutWritesSpec` always succeed there;
  - `json.dumps` failures on non-JSON input are not modelled;
  - floats are not modelled, and neither is Python's `True == 1` conflation. It affects `dict` lookups; the slot match `item.get("idx") == idx_val` (saver.py:279), where a stored `True` equals slot 1; and the de-dup test `cid != checkpoint_id` (saver.py:210). The model compares values structurally.
- A `config` of `None` is modelled as an empty configuration map.
- A `loads_typed` that raises `KeyError` while `get_tuple` reads the ledger would be skipped by the source. The model treats every decoding failure there as `Undecodable`.
- `WRITES_IDX_MAP` comes from LangGraph and is a parameter, `idxMap`.
- Saver.AerospikeSaver.constructor: accepts any three set names, but the backend replaces a record's bins where Aerospike's `put` merges them into an existing record. The two agree while records of different kinds never share a key, which `DistinctSets(layout)` guarantees; the put-then-read lemmas assume it. When `set_cp == set_writes` the main record and the ledger share a key (`Keys.CheckpointAndWritesShareUserKey`). Then Aerospike merges the two kinds of bins into one record and the model does not: after `put` and then `put_writes`, the source's `get_tuple` still finds `cp_type` and `checkpoint` and returns the tuple, while in the model the ledger write replaced the main record and `get_tuple` reports not found; after `put_writes` and then `put`, the source keeps the `writes` bin and the model drops it.
- Concurrency: calls are modelled one at a time. Two concurrent `put`s read and rewrite the timeline (saver.py:208-214), and two concurrent `put_writes` read and rewrite the ledger (saver.py:255-289); in the source one of them can lose the other's entries.
