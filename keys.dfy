/**
  The key scheme of `AerospikeSaver`: checkpoint and pending-writes records
  are keyed `"{thread}|{ns}|{id}"`, the latest pointer and the timeline index
  `"{thread}|{ns}|__latest__"` and `"{thread}|{ns}|__timeline__"`. Components
  are rendered with `str()` and the separator is not escaped.
 */
module Keys {
  import opened Values
  import opened Backend

  /** Where the saver keeps each kind of record: its namespace and its three sets. */
  datatype Layout = Layout(namespace: string, setCp: string, setWrites: string, setMeta: string)

  predicate DistinctSets(l: Layout) {
    l.setCp != l.setWrites && l.setCp != l.setMeta && l.setWrites != l.setMeta
  }

  const Sep: string := "|"
  const LatestSuffix: string := "__latest__"
  const TimelineSuffix: string := "__timeline__"

  /** The f-string `f"{a}{SEP}{b}{SEP}{c}"` after each component has been rendered. */
  function Joined(a: string, b: string, c: string): string {
    a + Sep + b + Sep + c
  }

  function CheckpointKey(l: Layout, toStr: Value -> string, thread: Value, ns: Value, id: Value): Key {
    Key(l.namespace, l.setCp, Joined(toStr(thread), toStr(ns), toStr(id)))
  }

  function WritesKey(l: Layout, toStr: Value -> string, thread: Value, ns: Value, id: Value): Key {
    Key(l.namespace, l.setWrites, Joined(toStr(thread), toStr(ns), toStr(id)))
  }

  function LatestKey(l: Layout, toStr: Value -> string, thread: Value, ns: Value): Key {
    Key(l.namespace, l.setMeta, Joined(toStr(thread), toStr(ns), LatestSuffix))
  }

  function TimelineKey(l: Layout, toStr: Value -> string, thread: Value, ns: Value): Key {
    Key(l.namespace, l.setMeta, Joined(toStr(thread), toStr(ns), TimelineSuffix))
  }

  /** A checkpoint and its pending-writes ledger share one user key, in different sets. */
  lemma CheckpointAndWritesShareUserKey(l: Layout, toStr: Value -> string, thread: Value, ns: Value, id: Value)
    ensures CheckpointKey(l, toStr, thread, ns, id).user == WritesKey(l, toStr, thread, ns, id).user
    ensures l.setCp != l.setWrites <==> CheckpointKey(l, toStr, thread, ns, id) != WritesKey(l, toStr, thread, ns, id)
  {
  }

  /** No latest-pointer key is a timeline key, whatever the components: the suffixes differ. */
  lemma LatestNeverTimeline(l: Layout, toStr: Value -> string, t: Value, n: Value, t': Value, n': Value)
    ensures LatestKey(l, toStr, t, n) != TimelineKey(l, toStr, t', n')
  {
    var u := LatestKey(l, toStr, t, n).user;
    var w := TimelineKey(l, toStr, t', n').user;
    assert u == (toStr(t) + Sep + toStr(n) + Sep) + LatestSuffix;
    assert w == (toStr(t') + Sep + toStr(n') + Sep) + TimelineSuffix;
    assert u[|u| - 3] == LatestSuffix[7] == 't';
    assert w[|w| - 3] == TimelineSuffix[9] == 'e';
  }

  /** The position of the first separator in a string that has one. */
  function SepIndex(s: string): (i: nat)
    requires '|' in s
    ensures i < |s| && s[i] == '|' && '|' !in s[..i]
  {
    if s[0] == '|' then 0 else assert '|' in s[1..]; 1 + SepIndex(s[1..])
  }

  /** In `a + "|" + x` with no `|` in `a`, the first separator is the one after `a`. */
  lemma {:induction false} SepIndexAfter(a: string, x: string)
    requires '|' !in a
    ensures '|' in a + Sep + x && SepIndex(a + Sep + x) == |a|
  {
    var s := a + Sep + x;
    assert s[|a|] == '|';
    if a != [] {
      assert s[1..] == a[1..] + Sep + x;
      SepIndexAfter(a[1..], x);
    }
  }

  /** Splitting at the first separator: a prefix without `|` is determined by the string. */
  lemma SplitAtSep(a: string, x: string, a': string, x': string)
    requires '|' !in a && '|' !in a'
    requires a + Sep + x == a' + Sep + x'
    ensures a == a' && x == x'
  {
    var s := a + Sep + x;
    SepIndexAfter(a, x);
    SepIndexAfter(a', x');
    assert a == s[..|a|] == a';
    assert x == s[|a| + 1..] == x';
  }

  /** Joining is injective once the first two components are free of the separator. */
  lemma JoinedInjective(a: string, b: string, c: string, a': string, b': string, c': string)
    requires '|' !in a && '|' !in b && '|' !in a' && '|' !in b'
    requires Joined(a, b, c) == Joined(a', b', c')
    ensures a == a' && b == b' && c == c'
  {
    assert Joined(a, b, c) == a + Sep + (b + Sep + c);
    assert Joined(a', b', c') == a' + Sep + (b' + Sep + c');
    SplitAtSep(a, b + Sep + c, a', b' + Sep + c');
    SplitAtSep(b, c, b', c');
  }

  /** Distinct string triples get distinct checkpoint keys, when thread and namespace have no `|`. */
  lemma CheckpointKeyInjective(l: Layout, toStr: Value -> string, t: string, n: string, id: string, t': string, n': string, id': string)
    requires forall s :: toStr(VStr(s)) == s
    requires '|' !in t && '|' !in n && '|' !in t' && '|' !in n'
    requires CheckpointKey(l, toStr, VStr(t), VStr(n), VStr(id)) == CheckpointKey(l, toStr, VStr(t'), VStr(n'), VStr(id'))
    ensures t == t' && n == n' && id == id'
  {
    assert toStr(VStr(t)) == t && toStr(VStr(t')) == t';
    assert toStr(VStr(n)) == n && toStr(VStr(n')) == n';
    assert toStr(VStr(id)) == id && toStr(VStr(id')) == id';
    JoinedInjective(t, n, id, t', n', id');
  }

  /** The latest pointer of a (thread, namespace) pair is its own, under the same condition. */
  lemma LatestKeyInjective(l: Layout, toStr: Value -> string, t: string, n: string, t': string, n': string)
    requires forall s :: toStr(VStr(s)) == s
    requires '|' !in t && '|' !in n && '|' !in t' && '|' !in n'
    requires LatestKey(l, toStr, VStr(t), VStr(n)) == LatestKey(l, toStr, VStr(t'), VStr(n'))
    ensures t == t' && n == n'
  {
    assert toStr(VStr(t)) == t && toStr(VStr(t')) == t';
    assert toStr(VStr(n)) == n && toStr(VStr(n')) == n';
    JoinedInjective(t, n, LatestSuffix, t', n', LatestSuffix);
  }

  /** Because `|` is not escaped, two different triples can share a checkpoint key. */
  lemma SeparatorCollision(l: Layout, toStr: Value -> string)
    requires forall s :: toStr(VStr(s)) == s
    ensures CheckpointKey(l, toStr, VStr("a|b"), VStr("c"), VStr("d"))
         == CheckpointKey(l, toStr, VStr("a"), VStr("b|c"), VStr("d"))
  {
    assert toStr(VStr("a|b")) == "a|b" && toStr(VStr("c")) == "c" && toStr(VStr("d")) == "d";
    assert toStr(VStr("a")) == "a" && toStr(VStr("b|c")) == "b|c";
  }
}
