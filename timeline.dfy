/**
  The timeline index of a (thread, namespace): `(ts, checkpoint_id)` pairs,
  newest first, de-duplicated by id and capped. This module holds the list
  transformations the saver applies to it and what they guarantee:
  re-inserting on `put`, parsing the stored JSON back, and the `before`
  filter and limit window of `list`.
 */
module Timeline {
  import opened Values

  /** One timeline item: a checkpoint's timestamp and id. */
  datatype Entry = Entry(ts: Value, id: Value)

  /** `a` is `b` with some elements left out, the rest in their order. */
  predicate Subseq<T(==)>(a: seq<T>, b: seq<T>)
    decreases |b|
  {
    a == [] || (b != [] && ((a[0] == b[0] && Subseq(a[1..], b[1..])) || Subseq(a, b[1..])))
  }

  /** No checkpoint id occurs twice. */
  predicate NoDupIds(items: seq<Entry>) {
    forall i, j :: 0 <= i < j < |items| ==> items[i].id != items[j].id
  }

  /** `xs[:n]` */
  function Take<T>(xs: seq<T>, n: nat): (r: seq<T>)
    ensures |r| == if |xs| <= n then |xs| else n
    ensures r == xs[..|r|]
  {
    if |xs| <= n then xs else xs[..n]
  }

  // ---------- re-insertion on put ----------

  /** `[(t, cid) for (t, cid) in items if cid != id]` */
  function Without(items: seq<Entry>, id: Value): (r: seq<Entry>)
    ensures |r| <= |items|
    ensures forall i :: 0 <= i < |r| ==> r[i].id != id
    ensures forall e :: e in r <==> e in items && e.id != id
  {
    if items == [] then []
    else if items[0].id == id then Without(items[1..], id)
    else [items[0]] + Without(items[1..], id)
  }

  /** The timeline after `put` of entry `e`: drop `e.id`, put `e` first, keep at most `cap` entries. */
  function Push(items: seq<Entry>, e: Entry, cap: nat): seq<Entry> {
    var xs := [e] + Without(items, e.id);
    if |xs| > cap then xs[..cap] else xs
  }

  lemma {:induction false} WithoutSubseq(items: seq<Entry>, id: Value)
    ensures Subseq(Without(items, id), items)
  {
    if items != [] {
      WithoutSubseq(items[1..], id);
      if items[0].id != id {
        assert Without(items, id)[1..] == Without(items[1..], id);
      }
    }
  }

  lemma NoDupCons(e: Entry, w: seq<Entry>)
    requires NoDupIds(w)
    requires forall k :: 0 <= k < |w| ==> w[k].id != e.id
    ensures NoDupIds([e] + w)
  {
    var xs := [e] + w;
    forall i, j | 0 <= i < j < |xs| ensures xs[i].id != xs[j].id {
      assert xs[j] == w[j - 1];
      if i > 0 {
        assert xs[i] == w[i - 1];
      }
    }
  }

  lemma NoDupTail(items: seq<Entry>)
    requires NoDupIds(items) && items != []
    ensures NoDupIds(items[1..])
    ensures forall k :: 0 <= k < |items| - 1 ==> items[1..][k].id != items[0].id
  {
    var rest := items[1..];
    forall i, j | 0 <= i < j < |rest| ensures rest[i].id != rest[j].id {
      assert rest[i] == items[i + 1] && rest[j] == items[j + 1];
    }
  }

  lemma {:induction false} WithoutNoDup(items: seq<Entry>, id: Value)
    requires NoDupIds(items)
    ensures NoDupIds(Without(items, id))
  {
    if items != [] {
      var rest := items[1..];
      NoDupTail(items);
      WithoutNoDup(rest, id);
      if items[0].id != id {
        var w := Without(rest, id);
        forall k | 0 <= k < |w| ensures w[k].id != items[0].id {
          assert w[k] in rest;
        }
        NoDupCons(items[0], w);
      }
    }
  }

  lemma {:induction false} SubseqPrefix<T>(a: seq<T>, b: seq<T>, k: nat)
    requires Subseq(a, b) && k <= |a|
    ensures Subseq(a[..k], b)
    decreases |b|
  {
    if k > 0 {
      if a[0] == b[0] && Subseq(a[1..], b[1..]) {
        SubseqPrefix(a[1..], b[1..], k - 1);
        assert a[..k][1..] == a[1..][..k - 1];
      } else {
        SubseqPrefix(a, b[1..], k);
      }
    }
  }

  /** The new entry comes first, and its id appears nowhere else. */
  lemma PushPutsEntryFirstOnce(items: seq<Entry>, e: Entry, cap: nat)
    requires cap >= 1
    ensures var r := Push(items, e, cap);
      |r| >= 1 && r[0] == e && forall i :: 0 <= i < |r| ==> (r[i].id == e.id <==> i == 0)
  {
    var r := Push(items, e, cap);
    var w := Without(items, e.id);
    forall i | 0 < i < |r| ensures r[i].id != e.id {
      assert r[i] == w[i - 1];
    }
  }

  /** The timeline never exceeds the cap, and only what the cap cuts off is lost. */
  lemma PushLength(items: seq<Entry>, e: Entry, cap: nat)
    ensures var n := 1 + |Without(items, e.id)|;
      |Push(items, e, cap)| == if n <= cap then n else cap
    ensures |Push(items, e, cap)| <= cap && |Push(items, e, cap)| <= |items| + 1
  {
  }

  /** The older entries are the surviving ones of the old timeline, in their old order. */
  lemma PushKeepsOrder(items: seq<Entry>, e: Entry, cap: nat)
    requires cap >= 1
    ensures var r := Push(items, e, cap);
      |r| >= 1 && r[1..] == Take(Without(items, e.id), cap - 1) && Subseq(r[1..], items)
  {
    var r := Push(items, e, cap);
    var w := Without(items, e.id);
    if |w| + 1 > cap {
      assert r == ([e] + w)[..cap];
      assert r[1..] == w[..cap - 1];
    } else {
      assert r == [e] + w;
      assert r[1..] == w;
    }
    WithoutSubseq(items, e.id);
    SubseqPrefix(w, items, |r| - 1);
    assert w[..|r| - 1] == r[1..];
  }

  /** Every entry of the new timeline is the new entry or one of the old timeline. */
  lemma PushFrom(items: seq<Entry>, e: Entry, cap: nat)
    ensures forall i :: 0 <= i < |Push(items, e, cap)| ==> Push(items, e, cap)[i] == e || Push(items, e, cap)[i] in items
  {
    var r := Push(items, e, cap);
    var w := Without(items, e.id);
    forall i | 0 < i < |r| ensures r[i] in items {
      assert r[i] == w[i - 1];
      assert w[i - 1] in w;
    }
  }

  lemma {:induction false} SubseqSingle<T>(b: seq<T>, x: T)
    ensures Subseq([x], b + [x])
    decreases |b|
  {
    if b == [] {
      assert Subseq([x][1..], ([] + [x])[1..]);
    } else {
      assert (b + [x])[1..] == b[1..] + [x];
      SubseqSingle(b[1..], x);
    }
  }

  /** Appending to the longer sequence keeps a subsequence. */
  lemma {:induction false} SubseqExtend<T>(a: seq<T>, b: seq<T>, x: T)
    requires Subseq(a, b)
    ensures Subseq(a, b + [x])
    decreases |b|
  {
    if a != [] {
      assert (b + [x])[1..] == b[1..] + [x];
      if a[0] == b[0] && Subseq(a[1..], b[1..]) {
        SubseqExtend(a[1..], b[1..], x);
      } else {
        SubseqExtend(a, b[1..], x);
      }
    }
  }

  /** Appending the same element to both keeps a subsequence. */
  lemma {:induction false} SubseqSnoc<T>(a: seq<T>, b: seq<T>, x: T)
    requires Subseq(a, b)
    ensures Subseq(a + [x], b + [x])
    decreases |b|
  {
    if a == [] {
      assert a + [x] == [x];
      SubseqSingle(b, x);
    } else {
      assert (a + [x])[1..] == a[1..] + [x];
      assert (b + [x])[1..] == b[1..] + [x];
      if a[0] == b[0] && Subseq(a[1..], b[1..]) {
        SubseqSnoc(a[1..], b[1..], x);
      } else {
        SubseqSnoc(a, b[1..], x);
      }
    }
  }

  /** A timeline without duplicate ids stays without duplicate ids. */
  lemma PushKeepsNoDup(items: seq<Entry>, e: Entry, cap: nat)
    requires NoDupIds(items)
    ensures NoDupIds(Push(items, e, cap))
  {
    var w := Without(items, e.id);
    WithoutNoDup(items, e.id);
    var xs := [e] + w;
    forall i, j | 0 <= i < j < |xs| ensures xs[i].id != xs[j].id {
      assert xs[j] == w[j - 1];
      if i > 0 {
        assert xs[i] == w[i - 1];
      }
    }
  }

  /** Pushing an id the timeline does not hold just prepends it under the cap. */
  lemma {:induction false} PushFresh(items: seq<Entry>, e: Entry, cap: nat)
    requires forall i :: 0 <= i < |items| ==> items[i].id != e.id
    ensures Push(items, e, cap) == Take([e] + items, cap)
  {
    WithoutAbsent(items, e.id);
  }

  lemma {:induction false} WithoutAbsent(items: seq<Entry>, id: Value)
    requires forall i :: 0 <= i < |items| ==> items[i].id != id
    ensures Without(items, id) == items
  {
    if items != [] {
      WithoutAbsent(items[1..], id);
    }
  }

  /** A run of puts, oldest first. */
  function PushAll(items: seq<Entry>, es: seq<Entry>, cap: nat): seq<Entry>
    decreases |es|
  {
    if es == [] then items else PushAll(Push(items, es[0], cap), es[1..], cap)
  }

  function Reversed<T>(xs: seq<T>): (r: seq<T>)
    ensures |r| == |xs|
    ensures forall i :: 0 <= i < |xs| ==> r[i] == xs[|xs| - 1 - i]
  {
    if xs == [] then [] else Reversed(xs[1..]) + [xs[0]]
  }

  lemma TakeTake<T>(a: seq<T>, b: seq<T>, cap: nat)
    ensures Take(a + Take(b, cap), cap) == Take(a + b, cap)
  {
  }

  /**
    Putting checkpoints with distinct new ids onto a timeline within its cap
    leaves the most recent entries, newest first, cut at the cap: starting
    from an empty timeline, `cap + 5` such puts leave exactly the `cap` newest.
   */
  lemma {:induction false} PushAllFresh(items: seq<Entry>, es: seq<Entry>, cap: nat)
    requires forall i, j :: 0 <= i < j < |es| ==> es[i].id != es[j].id
    requires forall i, j :: 0 <= i < |es| && 0 <= j < |items| ==> es[i].id != items[j].id
    requires |items| <= cap
    ensures PushAll(items, es, cap) == Take(Reversed(es) + items, cap)
    decreases |es|
  {
    if es != [] {
      var e, rest := es[0], es[1..];
      var items' := Take([e] + items, cap);
      calc {
        PushAll(items, es, cap);
        PushAll(Push(items, e, cap), rest, cap);
        { PushFresh(items, e, cap); }
        PushAll(items', rest, cap);
        { StillFresh(items, es, cap); PushAllFresh(items', rest, cap); }
        Take(Reversed(rest) + items', cap);
        { TakeTake(Reversed(rest), [e] + items, cap); }
        Take(Reversed(rest) + ([e] + items), cap);
        { ReversedCons(es); assert Reversed(rest) + ([e] + items) == (Reversed(rest) + [e]) + items; }
        Take(Reversed(es) + items, cap);
      }
    }
  }

  lemma StillFresh(items: seq<Entry>, es: seq<Entry>, cap: nat)
    requires es != []
    requires forall i, j :: 0 <= i < j < |es| ==> es[i].id != es[j].id
    requires forall i, j :: 0 <= i < |es| && 0 <= j < |items| ==> es[i].id != items[j].id
    ensures forall i, j :: 0 <= i < j < |es[1..]| ==> es[1..][i].id != es[1..][j].id
    ensures var items' := Take([es[0]] + items, cap);
      forall i, j :: 0 <= i < |es[1..]| && 0 <= j < |items'| ==> es[1..][i].id != items'[j].id
  {
    var rest := es[1..];
    var items' := Take([es[0]] + items, cap);
    forall i, j | 0 <= i < |rest| && 0 <= j < |items'| ensures rest[i].id != items'[j].id {
      assert rest[i] == es[i + 1];
      if j > 0 {
        assert items'[j] == items[j - 1];
      }
    }
    forall i, j | 0 <= i < j < |rest| ensures rest[i].id != rest[j].id {
      assert rest[i] == es[i + 1] && rest[j] == es[j + 1];
    }
  }

  lemma ReversedCons<T>(es: seq<T>)
    requires es != []
    ensures Reversed(es[1..]) + [es[0]] == Reversed(es)
  {
  }

  // ---------- the stored form ----------

  /** The JSON list the saver writes: `[[ts, id], ...]` (tuples serialize as lists). */
  function Encode(items: seq<Entry>): (r: seq<Value>)
    ensures |r| == |items|
    ensures forall i :: 0 <= i < |items| ==> r[i] == VList([items[i].ts, items[i].id])
  {
    seq(|items|, i requires 0 <= i < |items| => VList([items[i].ts, items[i].id]))
  }

  /** What `_read_timeline_items` keeps of one parsed element: a 2-element list whose second element is a str. */
  function CleanOne(v: Value): seq<Entry> {
    match v
    case VList(p) => if |p| == 2 && p[1].VStr? then [Entry(p[0], p[1])] else []
    case _ => []
  }

  /** The loop of `_read_timeline_items` over a parsed list, element by element in order. */
  function Clean(raw: seq<Value>): (r: seq<Entry>)
    ensures |r| <= |raw|
    ensures forall i :: 0 <= i < |r| ==> r[i].id.VStr?
  {
    if raw == [] then [] else Clean(raw[..|raw| - 1]) + CleanOne(raw[|raw| - 1])
  }

  /** An entry is kept exactly when some raw element is the pair `[ts, id]` with a str id. */
  lemma {:induction false} CleanMembers(raw: seq<Value>)
    ensures forall e :: e in Clean(raw) <==> e.id.VStr? && exists i :: 0 <= i < |raw| && raw[i] == VList([e.ts, e.id])
    decreases |raw|
  {
    if raw != [] {
      var n := |raw| - 1;
      CleanMembers(raw[..n]);
      assert forall i :: 0 <= i < n ==> raw[..n][i] == raw[i];
    }
  }

  /** The timeline a parsed `items` bin stands for; `None` is a parse failure. */
  function Parse(parsed: Option<Value>): seq<Entry> {
    match parsed
    case Some(VList(xs)) => Clean(xs)
    case _ => []
  }

  /** Cleaning is element-wise: it distributes over concatenation, so order is kept. */
  lemma {:induction false} CleanAppend(a: seq<Value>, b: seq<Value>)
    ensures Clean(a + b) == Clean(a) + Clean(b)
    decreases |b|
  {
    if b != [] {
      var b' := b[..|b| - 1];
      assert (a + b)[..|a + b| - 1] == a + b';
      CleanAppend(a, b');
      assert Clean(b) == Clean(b') + CleanOne(b[|b| - 1]);
    } else {
      assert a + b == a;
    }
  }

  /** Parsing what the saver encodes gives the entries back, when every id is a str. */
  lemma {:induction false} CleanEncode(items: seq<Entry>)
    requires forall i :: 0 <= i < |items| ==> items[i].id.VStr?
    ensures Clean(Encode(items)) == items
    decreases |items|
  {
    if items != [] {
      var n := |items| - 1;
      assert Encode(items)[..n] == Encode(items[..n]);
      CleanEncode(items[..n]);
      assert items == items[..n] + [items[n]];
    }
  }

  /** Every entry parsed from JSON values holds JSON values. */
  lemma {:induction false} CleanJsonSafe(raw: seq<Value>)
    requires forall i :: 0 <= i < |raw| ==> JsonSafe(raw[i])
    ensures forall i :: 0 <= i < |Clean(raw)| ==> JsonSafe(Clean(raw)[i].ts) && JsonSafe(Clean(raw)[i].id)
    decreases |raw|
  {
    if raw != [] {
      var n := |raw| - 1;
      CleanJsonSafe(raw[..n]);
      assert JsonSafe(raw[n]);
    }
  }

  // ---------- list ----------

  /** The entries strictly after the first one with id `before`; none when `before` is absent. */
  function After(items: seq<Entry>, before: Value): (r: seq<Entry>)
    ensures |r| < |items| || r == []
  {
    if items == [] then []
    else if items[0].id == before then items[1..]
    else After(items[1..], before)
  }

  lemma {:induction false} AfterFirst(items: seq<Entry>, before: Value, p: nat)
    requires p < |items| && items[p].id == before
    requires forall j :: 0 <= j < p ==> items[j].id != before
    ensures After(items, before) == items[p + 1..]
  {
    if p > 0 {
      AfterFirst(items[1..], before, p - 1);
      assert items[1..][p..] == items[p + 1..];
    }
  }

  lemma {:induction false} AfterAbsent(items: seq<Entry>, before: Value)
    requires forall j :: 0 <= j < |items| ==> items[j].id != before
    ensures After(items, before) == []
  {
    if items != [] {
      AfterAbsent(items[1..], before);
    }
  }

  /** `items[:max(1, int(limit))]` */
  function Window(items: seq<Entry>, limit: int): (r: seq<Entry>)
    ensures 1 <= |items| ==> 1 <= |r|
    ensures |r| <= |items| && |r| <= (if limit < 1 then 1 else limit)
    ensures r == items[..|r|]
    ensures var n := if limit < 1 then 1 else limit;
      |r| == if |items| <= n then |items| else n
  {
    Take(items, if limit < 1 then 1 else limit)
  }
}
