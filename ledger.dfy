/**
  The pending-writes ledger of one checkpoint: a list of write items, each a
  dictionary with `task_id`, `task_path`, `channel`, `idx`, `type`, `value`
  and `ts`. `put_writes` merges a batch into it keyed by `(task_id, idx)`;
  `get_tuple` decodes it back into `(task_id, channel, value)` triples.
 */
module Ledger {
  import opened Values
  import opened Backend

  // ---------- building items ----------

  /** `WRITES_IDX_MAP.get(channel, i)`: special channels have a reserved slot, others their position. */
  function Slot(idxMap: map<string, int>, channel: string, i: nat): int {
    if channel in idxMap then idxMap[channel] else i
  }

  /** The item `put_writes` stores for one write. */
  function NewItem(task: string, path: string, channel: string, slot: int, tag: string, data: seq<bv8>, now: int): Value {
    VMap(map[
      "task_id" := VStr(task), "task_path" := VStr(path), "channel" := VStr(channel),
      "idx" := VInt(slot), "type" := VStr(tag), "value" := VBytes(data), "ts" := VInt(now)])
  }

  /** One call of `put_writes`: its writes in order and what every item of it shares. */
  datatype Batch = Batch(
    writes: seq<(string, Value)>,
    task: string,
    path: string,
    now: int,
    idxMap: map<string, int>,
    dumps: Value -> (string, seq<bv8>))

  function SlotAt(b: Batch, k: nat): int
    requires k < |b.writes|
  {
    Slot(b.idxMap, b.writes[k].0, k)
  }

  function ItemAt(b: Batch, k: nat): Value
    requires k < |b.writes|
  {
    var (channel, value) := b.writes[k];
    var (tag, data) := b.dumps(value);
    NewItem(b.task, b.path, channel, SlotAt(b, k), tag, data, b.now)
  }

  // ---------- merging ----------

  /** The `(task_id, idx)` of a stored item, read with `.get`. */
  function KeyOf(m: map<string, Value>): (Value, Value) {
    (DictGet(m, "task_id"), DictGet(m, "idx"))
  }

  predicate Matches(v: Value, task: Value, slot: Value) {
    v.VMap? && KeyOf(v.entries) == (task, slot)
  }

  predicate AllDicts(items: seq<Value>) {
    forall i :: 0 <= i < |items| ==> items[i].VMap?
  }

  /** Every item is a dictionary and no two share a `(task_id, idx)`. */
  predicate Unique(items: seq<Value>) {
    && AllDicts(items)
    && forall i, j :: 0 <= i < j < |items| ==> KeyOf(items[i].entries) != KeyOf(items[j].entries)
  }

  /** What the inner search loop finds: the first match, no match, or an item `.get` fails on. */
  datatype Search = At(pos: nat) | Absent | Malformed

  function LocateFrom(items: seq<Value>, task: Value, slot: Value, i: nat): (r: Search)
    requires i <= |items|
    ensures r.At? ==> i <= r.pos < |items| && Matches(items[r.pos], task, slot)
    ensures r.At? || r.Absent? ==>
      forall j :: i <= j < (if r.At? then r.pos else |items|) ==> items[j].VMap? && !Matches(items[j], task, slot)
    ensures r.Malformed? ==>
      exists j :: i <= j < |items| && !items[j].VMap? &&
        forall k :: i <= k < j ==> items[k].VMap? && !Matches(items[k], task, slot)
    decreases |items| - i
  {
    if i == |items| then Absent
    else if !items[i].VMap? then Malformed
    else if Matches(items[i], task, slot) then At(i)
    else LocateFrom(items, task, slot, i + 1)
  }

  function Locate(items: seq<Value>, task: Value, slot: Value): Search {
    LocateFrom(items, task, slot, 0)
  }

  /** Replace the first item with the same key in place, else append; fail on a non-dictionary item met first. */
  function Merge(items: seq<Value>, item: Value, task: Value, slot: Value): Result<seq<Value>> {
    match Locate(items, task, slot)
    case At(p) => Ok(items[p := item])
    case Absent => Ok(items + [item])
    case Malformed => Err(MalformedLedger)
  }

  /** The ledger after the first `n` writes of a batch. */
  function MergeAll(items: seq<Value>, b: Batch, n: nat): Result<seq<Value>>
    requires n <= |b.writes|
  {
    if n == 0 then Ok(items)
    else match MergeAll(items, b, n - 1)
      case Err(e) => Err(e)
      case Ok(xs) => Merge(xs, ItemAt(b, n - 1), VStr(b.task), VInt(SlotAt(b, n - 1)))
  }

  /** One more write of a batch that has not failed so far: merge its item into the ledger so far. */
  lemma MergeAllNext(items: seq<Value>, b: Batch, k: nat, xs: seq<Value>)
    requires k < |b.writes| && MergeAll(items, b, k) == Ok(xs)
    ensures MergeAll(items, b, k + 1) == Merge(xs, ItemAt(b, k), VStr(b.task), VInt(SlotAt(b, k)))
  {
  }

  /**
    Over a list of dictionaries the merge never fails. An item with the same
    key is replaced at its own position; otherwise the new item goes last.
    Every item with another key stays where it was.
   */
  lemma MergeReplacesOrAppends(items: seq<Value>, item: Value, task: Value, slot: Value)
    requires AllDicts(items)
    ensures Merge(items, item, task, slot).Ok?
    ensures var r := Merge(items, item, task, slot).value;
      && ((exists j :: 0 <= j < |items| && Matches(items[j], task, slot)) ==> |r| == |items|)
      && ((forall j :: 0 <= j < |items| ==> !Matches(items[j], task, slot)) ==> r == items + [item])
      && (forall j :: 0 <= j < |items| && !Matches(items[j], task, slot) ==> r[j] == items[j])
      && (forall j :: 0 <= j < |r| ==> r[j] == item || (j < |items| && r[j] == items[j]))
    ensures Locate(items, task, slot).At? ==>
      Merge(items, item, task, slot) == Ok(items[Locate(items, task, slot).pos := item])
  {
  }

  /** Merging an item whose own key is the one searched for keeps keys unique. */
  lemma MergeKeepsUnique(items: seq<Value>, item: Value, task: Value, slot: Value)
    requires Unique(items)
    requires item.VMap? && KeyOf(item.entries) == (task, slot)
    ensures Merge(items, item, task, slot).Ok? && Unique(Merge(items, item, task, slot).value)
  {
    MergeReplacesOrAppends(items, item, task, slot);
    var r := Merge(items, item, task, slot).value;
    match Locate(items, task, slot)
    case At(p) =>
      assert r == items[p := item];
      forall i, j | 0 <= i < j < |r| ensures KeyOf(r[i].entries) != KeyOf(r[j].entries) {
        if i != p && j != p {
          assert r[i] == items[i] && r[j] == items[j];
        } else if i == p {
          assert r[j] == items[j] && KeyOf(items[p].entries) == (task, slot);
        } else {
          assert r[i] == items[i] && KeyOf(items[p].entries) == (task, slot);
        }
      }
    case Absent =>
      assert r == items + [item];
      forall i, j | 0 <= i < j < |r| ensures KeyOf(r[i].entries) != KeyOf(r[j].entries) {
        assert r[i] == items[i];
        if j == |items| {
          assert !Matches(items[i], task, slot);
        } else {
          assert r[j] == items[j];
        }
      }
  }

  /** A batch merged into a ledger with unique keys succeeds and leaves the keys unique. */
  lemma {:induction false} MergeAllKeepsUnique(items: seq<Value>, b: Batch, n: nat)
    requires n <= |b.writes|
    requires Unique(items)
    ensures MergeAll(items, b, n).Ok? && Unique(MergeAll(items, b, n).value)
  {
    if n > 0 {
      MergeAllKeepsUnique(items, b, n - 1);
      var xs := MergeAll(items, b, n - 1).value;
      var (channel, value) := b.writes[n - 1];
      var (tag, data) := b.dumps(value);
      assert ItemAt(b, n - 1) == NewItem(b.task, b.path, channel, SlotAt(b, n - 1), tag, data, b.now);
      MergeKeepsUnique(xs, ItemAt(b, n - 1), VStr(b.task), VInt(SlotAt(b, n - 1)));
    }
  }

  /** Over a list of dictionaries a batch never fails, and the ledger only grows. */
  lemma {:induction false} MergeAllGrows(items: seq<Value>, b: Batch, n: nat)
    requires n <= |b.writes|
    requires AllDicts(items)
    ensures MergeAll(items, b, n).Ok?
    ensures AllDicts(MergeAll(items, b, n).value)
    ensures |items| <= |MergeAll(items, b, n).value| <= |items| + n
  {
    if n > 0 {
      MergeAllGrows(items, b, n - 1);
      var xs := MergeAll(items, b, n - 1).value;
      var item := ItemAt(b, n - 1);
      MergeReplacesOrAppends(xs, item, VStr(b.task), VInt(SlotAt(b, n - 1)));
    }
  }

  /** Once the merge has failed, later writes of the batch do not change the outcome. */
  lemma {:induction false} MergeAllErrSticks(items: seq<Value>, b: Batch, n: nat, m: nat)
    requires n <= m <= |b.writes|
    requires MergeAll(items, b, n).Err?
    ensures MergeAll(items, b, m) == MergeAll(items, b, n)
    decreases m
  {
    if m > n {
      MergeAllErrSticks(items, b, n, m - 1);
    }
  }

  /** The last of the first `n` writes of a batch that takes slot `slot`, if any. */
  function LastWrite(b: Batch, n: nat, slot: int): (r: Option<nat>)
    requires n <= |b.writes|
    ensures r.Some? ==> r.value < n && SlotAt(b, r.value) == slot && forall k :: r.value < k < n ==> SlotAt(b, k) != slot
    ensures r.None? ==> forall k :: 0 <= k < n ==> SlotAt(b, k) != slot
  {
    if n == 0 then None
    else if SlotAt(b, n - 1) == slot then Some(n - 1)
    else LastWrite(b, n - 1, slot)
  }

  /** Some of the first `n` writes of the batch is stored under `key`. */
  predicate Touched(b: Batch, n: nat, key: (Value, Value))
    requires n <= |b.writes|
  {
    key.0 == VStr(b.task) && key.1.VInt? && LastWrite(b, n, key.1.i).Some?
  }

  /** Over dictionaries the search never fails, and finds nothing exactly when no item matches. */
  lemma LocateDicts(items: seq<Value>, task: Value, slot: Value)
    requires AllDicts(items)
    ensures Locate(items, task, slot).At? || Locate(items, task, slot).Absent?
    ensures Locate(items, task, slot).Absent? <==> forall j :: 0 <= j < |items| ==> !Matches(items[j], task, slot)
  {
  }

  /** With unique keys the search finds the one item that matches. */
  lemma LocateUnique(items: seq<Value>, task: Value, slot: Value, p: nat)
    requires Unique(items) && p < |items| && Matches(items[p], task, slot)
    ensures Locate(items, task, slot) == At(p)
  {
    LocateDicts(items, task, slot);
  }

  /** The key every item of a batch is stored under. */
  lemma ItemKey(b: Batch, k: nat)
    requires k < |b.writes|
    ensures ItemAt(b, k).VMap?
    ensures KeyOf(ItemAt(b, k).entries) == (VStr(b.task), VInt(SlotAt(b, k)))
  {
    var (channel, value) := b.writes[k];
    var (tag, data) := b.dumps(value);
    assert ItemAt(b, k) == NewItem(b.task, b.path, channel, SlotAt(b, k), tag, data, b.now);
  }

  /** The items of the first `n` writes, in order. */
  function Items(b: Batch, n: nat): (r: seq<Value>)
    requires n <= |b.writes|
    ensures |r| == n
    ensures forall k :: 0 <= k < n ==> r[k] == ItemAt(b, k)
  {
    if n == 0 then [] else Items(b, n - 1) + [ItemAt(b, n - 1)]
  }

  /** Every old item whose key none of the first `n` writes uses is still where it was in `r`. */
  ghost predicate Kept(items: seq<Value>, b: Batch, n: nat, r: seq<Value>)
    requires n <= |b.writes|
  {
    && |items| <= |r|
    && forall j :: 0 <= j < |items| && items[j].VMap? && !Touched(b, n, KeyOf(items[j].entries)) ==> r[j] == items[j]
  }

  /** Every item of `r` is an old one in its place or one stored under a key the first `n` writes use. */
  ghost predicate Sourced(items: seq<Value>, b: Batch, n: nat, r: seq<Value>)
    requires n <= |b.writes|
  {
    forall j :: 0 <= j < |r| ==> (j < |items| && r[j] == items[j]) || (r[j].VMap? && Touched(b, n, KeyOf(r[j].entries)))
  }

  /**
    Each slot the first `n` writes use holds the item of its last write, at
    the position the old ledger had for that key, or after all old items
    when it had none.
   */
  ghost predicate Landed(items: seq<Value>, b: Batch, n: nat, r: seq<Value>)
    requires n <= |b.writes|
  {
    forall slot {:trigger Locate(r, VStr(b.task), VInt(slot))} :: LastWrite(b, n, slot).Some? ==>
      var now := Locate(r, VStr(b.task), VInt(slot));
      var was := Locate(items, VStr(b.task), VInt(slot));
      && now.At? && r[now.pos] == ItemAt(b, LastWrite(b, n, slot).value)
      && (was.At? ==> now.pos == was.pos)
      && (!was.At? ==> now.pos >= |items|)
  }

  /**
    Into a ledger of dictionaries a batch lands slot by slot: each written
    slot holds its last write, in the old position or appended, and every
    other old item keeps its position.
   */
  lemma MergeAllSlots(items: seq<Value>, b: Batch, n: nat)
    requires n <= |b.writes|
    requires AllDicts(items)
    ensures MergeAll(items, b, n).Ok?
    ensures Kept(items, b, n, MergeAll(items, b, n).value)
    ensures Sourced(items, b, n, MergeAll(items, b, n).value)
    ensures Landed(items, b, n, MergeAll(items, b, n).value)
  {
    MergeAllMerged(items, b, n);
  }

  /** Every slot none of the first `n` writes takes is found in `r` where it was in the old ledger, or not at all. */
  ghost predicate Spared(items: seq<Value>, b: Batch, n: nat, r: seq<Value>)
    requires n <= |b.writes|
  {
    forall slot {:trigger Locate(r, VStr(b.task), VInt(slot))} :: LastWrite(b, n, slot).None? ==>
      Locate(r, VStr(b.task), VInt(slot)) == Locate(items, VStr(b.task), VInt(slot))
  }

  /** What holds of the ledger after the first `n` writes of a batch. */
  ghost predicate Merged(items: seq<Value>, b: Batch, n: nat, r: seq<Value>)
    requires n <= |b.writes|
  {
    && AllDicts(r)
    && Kept(items, b, n, r)
    && Sourced(items, b, n, r)
    && Landed(items, b, n, r)
    && Spared(items, b, n, r)
  }

  /** Over dictionaries every prefix of a batch merges without failure into a `Merged` ledger. */
  lemma {:induction false} MergeAllMerged(items: seq<Value>, b: Batch, n: nat)
    requires n <= |b.writes|
    requires AllDicts(items)
    ensures MergeAll(items, b, n).Ok?
    ensures Merged(items, b, n, MergeAll(items, b, n).value)
  {
    if n == 0 {
      assert forall slot :: LastWrite(b, 0, slot).None?;
    } else {
      MergeAllMerged(items, b, n - 1);
      var xs := MergeAll(items, b, n - 1).value;
      MergeAllNext(items, b, n - 1, xs);
      MergedNext(items, b, n, xs);
    }
  }

  /** One more write keeps `Merged`. */
  lemma MergedNext(items: seq<Value>, b: Batch, n: nat, xs: seq<Value>)
    requires 0 < n <= |b.writes|
    requires AllDicts(items) && Merged(items, b, n - 1, xs)
    ensures Merge(xs, ItemAt(b, n - 1), VStr(b.task), VInt(SlotAt(b, n - 1))).Ok?
    ensures Merged(items, b, n, Merge(xs, ItemAt(b, n - 1), VStr(b.task), VInt(SlotAt(b, n - 1))).value)
  {
    var p := StepShape(xs, b, n);
    var r := Merge(xs, ItemAt(b, n - 1), VStr(b.task), VInt(SlotAt(b, n - 1))).value;
    StepKept(items, b, n, xs, r, p);
    StepSourced(items, b, n, xs, r, p);
    StepLanded(items, b, n, xs, r, p);
    StepSpared(items, b, n, xs, r, p);
  }

  /** One more write keeps `Spared`. */
  lemma StepSpared(items: seq<Value>, b: Batch, n: nat, xs: seq<Value>, r: seq<Value>, p: nat)
    requires 0 < n <= |b.writes|
    requires AllDicts(xs) && AllDicts(r) && Spared(items, b, n - 1, xs)
    requires Shifted(xs, r, p) && Matches(r[p], VStr(b.task), VInt(SlotAt(b, n - 1)))
    requires p < |xs| ==> Matches(xs[p], VStr(b.task), VInt(SlotAt(b, n - 1)))
    ensures Spared(items, b, n, r)
  {
    forall slot | LastWrite(b, n, slot).None?
      ensures Locate(r, VStr(b.task), VInt(slot)) == Locate(items, VStr(b.task), VInt(slot))
    {
      assert LastWrite(b, n - 1, slot).None? && slot != SlotAt(b, n - 1);
      StepUntouched(xs, r, p, VStr(b.task), VInt(SlotAt(b, n - 1)), VInt(slot));
    }
  }

  /** `r` is `xs` with position `p` written, which may be one past its end. */
  ghost predicate Shifted(xs: seq<Value>, r: seq<Value>, p: nat) {
    && p <= |xs| && |r| == (if p < |xs| then |xs| else |xs| + 1)
    && forall j :: 0 <= j < |xs| && j != p ==> r[j] == xs[j]
  }

  /** The search reports the first match when every item before it is a non-matching dictionary. */
  lemma LocateFirst(items: seq<Value>, task: Value, slot: Value, q: nat)
    requires q < |items| && Matches(items[q], task, slot)
    requires forall j :: 0 <= j < q ==> items[j].VMap? && !Matches(items[j], task, slot)
    ensures Locate(items, task, slot) == At(q)
  {
  }

  /** Where the `n`-th write lands in `xs`, and what else the merge leaves alone. */
  lemma StepShape(xs: seq<Value>, b: Batch, n: nat) returns (p: nat)
    requires 0 < n <= |b.writes|
    requires AllDicts(xs)
    ensures Merge(xs, ItemAt(b, n - 1), VStr(b.task), VInt(SlotAt(b, n - 1))).Ok?
    ensures var r := Merge(xs, ItemAt(b, n - 1), VStr(b.task), VInt(SlotAt(b, n - 1))).value;
      && AllDicts(r) && Shifted(xs, r, p) && r[p] == ItemAt(b, n - 1)
      && Locate(r, VStr(b.task), VInt(SlotAt(b, n - 1))) == At(p)
    ensures Matches(ItemAt(b, n - 1), VStr(b.task), VInt(SlotAt(b, n - 1)))
    ensures p < |xs| ==> Matches(xs[p], VStr(b.task), VInt(SlotAt(b, n - 1)))
    ensures p < |xs| <==> Locate(xs, VStr(b.task), VInt(SlotAt(b, n - 1))).At?
    ensures p < |xs| ==> Locate(xs, VStr(b.task), VInt(SlotAt(b, n - 1))) == At(p)
  {
    var task, slot, item := VStr(b.task), VInt(SlotAt(b, n - 1)), ItemAt(b, n - 1);
    ItemKey(b, n - 1);
    LocateDicts(xs, task, slot);
    MergeReplacesOrAppends(xs, item, task, slot);
    var r := Merge(xs, item, task, slot).value;
    p := if Locate(xs, task, slot).At? then Locate(xs, task, slot).pos else |xs|;
    forall j | 0 <= j < p ensures r[j].VMap? && !Matches(r[j], task, slot) {
      assert r[j] == xs[j];
    }
    LocateFirst(r, task, slot, p);
  }

  /** One more write keeps `Kept`. */
  lemma StepKept(items: seq<Value>, b: Batch, n: nat, xs: seq<Value>, r: seq<Value>, p: nat)
    requires 0 < n <= |b.writes|
    requires Kept(items, b, n - 1, xs)
    requires Shifted(xs, r, p)
    requires p < |xs| ==> Matches(xs[p], VStr(b.task), VInt(SlotAt(b, n - 1)))
    ensures Kept(items, b, n, r)
  {
    assert LastWrite(b, n, SlotAt(b, n - 1)).Some?;
    forall j | 0 <= j < |items| && items[j].VMap? && !Touched(b, n, KeyOf(items[j].entries))
      ensures r[j] == items[j]
    {
      assert !Touched(b, n - 1, KeyOf(items[j].entries));
    }
  }

  /** One more write keeps `Sourced`. */
  lemma StepSourced(items: seq<Value>, b: Batch, n: nat, xs: seq<Value>, r: seq<Value>, p: nat)
    requires 0 < n <= |b.writes|
    requires Sourced(items, b, n - 1, xs)
    requires Shifted(xs, r, p) && r[p] == ItemAt(b, n - 1)
    ensures Sourced(items, b, n, r)
  {
    ItemKey(b, n - 1);
    assert LastWrite(b, n, SlotAt(b, n - 1)).Some?;
    forall j | 0 <= j < |r|
      ensures (j < |items| && r[j] == items[j]) || (r[j].VMap? && Touched(b, n, KeyOf(r[j].entries)))
    {
      if j != p {
        assert j < |xs| && r[j] == xs[j];
        if !(j < |items| && xs[j] == items[j]) {
          assert Touched(b, n - 1, KeyOf(xs[j].entries));
        }
      }
    }
  }

  /** One more write keeps `Landed`. */
  lemma StepLanded(items: seq<Value>, b: Batch, n: nat, xs: seq<Value>, r: seq<Value>, p: nat)
    requires 0 < n <= |b.writes|
    requires AllDicts(items) && AllDicts(xs) && AllDicts(r)
    requires Landed(items, b, n - 1, xs) && |items| <= |xs|
    requires LastWrite(b, n - 1, SlotAt(b, n - 1)).None? ==>
      Locate(xs, VStr(b.task), VInt(SlotAt(b, n - 1))) == Locate(items, VStr(b.task), VInt(SlotAt(b, n - 1)))
    requires Shifted(xs, r, p)
    requires r[p] == ItemAt(b, n - 1) && Locate(r, VStr(b.task), VInt(SlotAt(b, n - 1))) == At(p)
    requires Matches(ItemAt(b, n - 1), VStr(b.task), VInt(SlotAt(b, n - 1)))
    requires p < |xs| ==> Matches(xs[p], VStr(b.task), VInt(SlotAt(b, n - 1)))
    requires p < |xs| <==> Locate(xs, VStr(b.task), VInt(SlotAt(b, n - 1))).At?
    requires p < |xs| ==> Locate(xs, VStr(b.task), VInt(SlotAt(b, n - 1))) == At(p)
    ensures Landed(items, b, n, r)
  {
    var s, task := SlotAt(b, n - 1), VStr(b.task);
    forall slot | LastWrite(b, n, slot).Some?
      ensures var now := Locate(r, task, VInt(slot));
        var was := Locate(items, task, VInt(slot));
        && now.At? && r[now.pos] == ItemAt(b, LastWrite(b, n, slot).value)
        && (was.At? ==> now.pos == was.pos)
        && (!was.At? ==> now.pos >= |items|)
    {
      if slot == s {
        assert LastWrite(b, n, s) == Some(n - 1);
        StepLandedSlot(items, b, n, xs, p);
      } else {
        assert LastWrite(b, n, slot) == LastWrite(b, n - 1, slot);
        StepUntouched(xs, r, p, task, VInt(s), VInt(slot));
        var q := Locate(xs, task, VInt(slot)).pos;
        assert Matches(xs[q], task, VInt(slot));
        assert q != p;
        assert r[q] == xs[q];
      }
    }
  }

  /** The slot of the newest write lands where the old ledger had it, or after the old items. */
  lemma StepLandedSlot(items: seq<Value>, b: Batch, n: nat, xs: seq<Value>, p: nat)
    requires 0 < n <= |b.writes|
    requires AllDicts(items) && AllDicts(xs)
    requires Landed(items, b, n - 1, xs) && |items| <= |xs|
    requires LastWrite(b, n - 1, SlotAt(b, n - 1)).None? ==>
      Locate(xs, VStr(b.task), VInt(SlotAt(b, n - 1))) == Locate(items, VStr(b.task), VInt(SlotAt(b, n - 1)))
    requires p <= |xs|
    requires p < |xs| <==> Locate(xs, VStr(b.task), VInt(SlotAt(b, n - 1))).At?
    requires p < |xs| ==> Locate(xs, VStr(b.task), VInt(SlotAt(b, n - 1))) == At(p)
    ensures var was := Locate(items, VStr(b.task), VInt(SlotAt(b, n - 1)));
      && (was.At? ==> p == was.pos)
      && (!was.At? ==> p >= |items|)
  {
    var s, task := SlotAt(b, n - 1), VStr(b.task);
    LocateDicts(items, task, VInt(s));
    LocateDicts(xs, task, VInt(s));
    if LastWrite(b, n - 1, s).Some? {
      assert Locate(xs, task, VInt(s)).At?;
    }
  }

  /** Writing slot `s` at `p` does not move, create or hide an item in another slot. */
  lemma StepUntouched(xs: seq<Value>, r: seq<Value>, p: nat, task: Value, s: Value, slot: Value)
    requires AllDicts(xs) && AllDicts(r) && Shifted(xs, r, p)
    requires Matches(r[p], task, s) && s != slot
    requires p < |xs| ==> Matches(xs[p], task, s)
    ensures Locate(r, task, slot) == Locate(xs, task, slot)
  {
    LocateDicts(xs, task, slot);
    LocateDicts(r, task, slot);
    if Locate(xs, task, slot).At? {
      var q := Locate(xs, task, slot).pos;
      assert q != p;
      forall j | 0 <= j < q ensures r[j].VMap? && !Matches(r[j], task, slot) {
        if j != p {
          assert r[j] == xs[j];
        }
      }
      assert r[q] == xs[q];
      LocateFirst(r, task, slot, q);
    } else {
      forall j | 0 <= j < |r| ensures !Matches(r[j], task, slot) {
        if j != p {
          assert j < |xs| && r[j] == xs[j];
        }
      }
    }
  }

  /** Slots within a batch are pairwise different. */
  predicate DistinctSlots(b: Batch) {
    forall i, j :: 0 <= i < j < |b.writes| ==> SlotAt(b, i) != SlotAt(b, j)
  }

  /** Into an empty ledger, a batch whose slots differ is appended item by item. */
  lemma {:induction false} MergeAllFresh(b: Batch, n: nat)
    requires n <= |b.writes|
    requires DistinctSlots(b)
    ensures MergeAll([], b, n) == Ok(Items(b, n))
  {
    if n > 0 {
      MergeAllFresh(b, n - 1);
      var xs := Items(b, n - 1);
      var task, slot := VStr(b.task), VInt(SlotAt(b, n - 1));
      forall j | 0 <= j < |xs| ensures xs[j].VMap? && !Matches(xs[j], task, slot) {
        ItemKey(b, j);
        assert xs[j] == ItemAt(b, j) && SlotAt(b, j) != SlotAt(b, n - 1);
      }
      LocateDicts(xs, task, slot);
      assert Merge(xs, ItemAt(b, n - 1), task, slot) == Ok(xs + [ItemAt(b, n - 1)]);
    }
  }

  /**
    Two writes on the same non-special channel from one task take slots 0 and
    1; a later batch with one write on it replaces slot 0 in place, so the
    ledger still holds two items and the first is the new one.
   */
  lemma SameSlotReplacedInPlace(b1: Batch, b2: Batch)
    requires |b1.writes| == 2 && b1.writes[0].0 == "messages" && b1.writes[1].0 == "messages"
    requires |b2.writes| == 1 && b2.writes[0].0 == "messages"
    requires b1.task == b2.task
    requires "messages" !in b1.idxMap && "messages" !in b2.idxMap
    ensures MergeAll([], b1, 2) == Ok([ItemAt(b1, 0), ItemAt(b1, 1)])
    ensures MergeAll([ItemAt(b1, 0), ItemAt(b1, 1)], b2, 1) == Ok([ItemAt(b2, 0), ItemAt(b1, 1)])
  {
    var task := VStr(b1.task);
    var i0, i1, c := ItemAt(b1, 0), ItemAt(b1, 1), ItemAt(b2, 0);
    assert SlotAt(b1, 0) == 0 && SlotAt(b1, 1) == 1 && SlotAt(b2, 0) == 0;
    assert KeyOf(i0.entries) == (task, VInt(0));
    assert KeyOf(i1.entries) == (task, VInt(1));
    assert Locate([], task, VInt(0)) == Absent;
    assert MergeAll([], b1, 1) == Ok([] + [i0]);
    assert [] + [i0] == [i0];
    assert !Matches(i0, task, VInt(1));
    assert LocateFrom([i0], task, VInt(1), 1) == Absent;
    assert Locate([i0], task, VInt(1)) == Absent;
    assert MergeAll([], b1, 2) == Ok([i0] + [i1]);
    assert [i0] + [i1] == [i0, i1];
    assert Locate([i0, i1], task, VInt(0)) == At(0);
    assert [i0, i1][0 := c] == [c, i1];
  }

  // ---------- decoding for get_tuple ----------

  datatype PendingWrite = PendingWrite(taskId: Value, channel: Value, value: Value)

  /**
    One iteration of `get_tuple`'s loop over stored items: an item missing
    `channel`, `type` or `value` is skipped (the `KeyError` is caught); a
    non-dictionary item or a failing `loads_typed` raises.
   */
  function DecodeItem(loads: (Value, Value) -> Option<Value>, v: Value): Result<Option<PendingWrite>> {
    match v
    case VMap(m) =>
      if "channel" !in m || "type" !in m || "value" !in m then Ok(None)
      else (match loads(m["type"], m["value"])
            case None => Err(Undecodable)
            case Some(x) => Ok(Some(PendingWrite(DictGetOr(m, "task_id", VStr("")), m["channel"], x))))
    case _ => Err(MalformedLedger)
  }

  /** The loop over the stored items, in order; the first exception ends it. */
  function DecodeItems(loads: (Value, Value) -> Option<Value>, items: seq<Value>): Result<seq<PendingWrite>> {
    if items == [] then Ok([])
    else match DecodeItems(loads, items[..|items| - 1])
      case Err(e) => Err(e)
      case Ok(ws) =>
        match DecodeItem(loads, items[|items| - 1])
        case Err(e) => Err(e)
        case Ok(None) => Ok(ws)
        case Ok(Some(w)) => Ok(ws + [w])
  }

  /** `wbins.get("writes") or []`, iterated; a missing ledger record reads as no writes. */
  function PendingOf(loads: (Value, Value) -> Option<Value>, rec: Option<Bins>): Result<seq<PendingWrite>> {
    match rec
    case None => Ok([])
    case Some(wbins) =>
      var w := DictGet(wbins, "writes");
      if !Truthy(w) then Ok([])
      else match w
        case VList(xs) => DecodeItems(loads, xs)
        case _ => Err(MalformedLedger)
  }

  /** Decoding is item by item: two stretches of the ledger decode to the concatenation, in order. */
  lemma {:induction false} DecodeItemsAppend(loads: (Value, Value) -> Option<Value>, a: seq<Value>, b: seq<Value>)
    requires DecodeItems(loads, a).Ok? && DecodeItems(loads, b).Ok?
    ensures DecodeItems(loads, a + b) == Ok(DecodeItems(loads, a).value + DecodeItems(loads, b).value)
    decreases |b|
  {
    if b == [] {
      assert a + b == a;
      assert DecodeItems(loads, a).value + DecodeItems(loads, b).value == DecodeItems(loads, a).value;
    } else {
      var b' := b[..|b| - 1];
      assert (a + b)[..|a + b| - 1] == a + b';
      assert (a + b)[|a + b| - 1] == b[|b| - 1];
      var last := b[|b| - 1];
      assert DecodeItems(loads, b').Ok?;
      DecodeItemsAppend(loads, a, b');
      var x, y := DecodeItems(loads, a).value, DecodeItems(loads, b').value;
      match DecodeItem(loads, last)
      case Ok(None) =>
      case Ok(Some(w)) =>
        assert (x + y) + [w] == x + (y + [w]);
    }
  }

  /** Once decoding has failed on a prefix, the whole ledger fails with that error. */
  lemma {:induction false} DecodeItemsErrSticks(loads: (Value, Value) -> Option<Value>, xs: seq<Value>, j: nat)
    requires j <= |xs|
    requires DecodeItems(loads, xs[..j]).Err?
    ensures DecodeItems(loads, xs) == DecodeItems(loads, xs[..j])
    decreases |xs|
  {
    if j == |xs| {
      assert xs[..j] == xs;
    } else {
      var xs' := xs[..|xs| - 1];
      assert xs'[..j] == xs[..j];
      DecodeItemsErrSticks(loads, xs', j);
    }
  }

  /** What the first `n` writes of a batch should read back as. */
  function Pendings(b: Batch, n: nat): (r: seq<PendingWrite>)
    requires n <= |b.writes|
    ensures |r| == n
    ensures forall k :: 0 <= k < n ==> r[k] == PendingWrite(VStr(b.task), VStr(b.writes[k].0), b.writes[k].1)
  {
    if n == 0 then [] else Pendings(b, n - 1) + [PendingWrite(VStr(b.task), VStr(b.writes[n - 1].0), b.writes[n - 1].1)]
  }

  /** The items of a batch decode back to its writes, in order, when the codec round-trips. */
  lemma {:induction false} DecodeBatch(loads: (Value, Value) -> Option<Value>, b: Batch, n: nat)
    requires n <= |b.writes|
    requires forall v :: loads(VStr(b.dumps(v).0), VBytes(b.dumps(v).1)) == Some(v)
    ensures DecodeItems(loads, Items(b, n)) == Ok(Pendings(b, n))
  {
    if n > 0 {
      DecodeBatch(loads, b, n - 1);
      var xs := Items(b, n);
      assert xs[..n - 1] == Items(b, n - 1);
      var (channel, value) := b.writes[n - 1];
      var (tag, data) := b.dumps(value);
      assert ItemAt(b, n - 1) == NewItem(b.task, b.path, channel, SlotAt(b, n - 1), tag, data, b.now);
      assert loads(VStr(tag), VBytes(data)) == Some(value);
      DecodeNewItem(loads, b.task, b.path, channel, SlotAt(b, n - 1), tag, data, b.now, value);
    }
  }

  /** An item `put_writes` wrote decodes to its task, channel and original value. */
  lemma DecodeNewItem(loads: (Value, Value) -> Option<Value>, task: string, path: string, channel: string,
                      slot: int, tag: string, data: seq<bv8>, now: int, value: Value)
    requires loads(VStr(tag), VBytes(data)) == Some(value)
    ensures DecodeItem(loads, NewItem(task, path, channel, slot, tag, data, now))
         == Ok(Some(PendingWrite(VStr(task), VStr(channel), value)))
  {
  }

  /** An item without a `channel`, `type` or `value` key contributes nothing and stops nothing. */
  lemma DecodeSkipsIncomplete(loads: (Value, Value) -> Option<Value>, items: seq<Value>, m: map<string, Value>)
    requires "channel" !in m || "type" !in m || "value" !in m
    ensures DecodeItems(loads, items + [VMap(m)]) == DecodeItems(loads, items)
  {
    assert (items + [VMap(m)])[..|items|] == items;
  }
}
