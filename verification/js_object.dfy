/** JavaScript plain objects as ordered sequences of own properties.

    The sequence order is the enumeration order of `Object.keys`, and no key
    occurs twice. Assignment `o[k] = v` keeps the position of an existing key
    and appends a new one; object spread `{ ...a, ...b }` is a run of such
    assignments. The record, the store and the resolver table of the model
    are all objects of this kind. */
module JsObject {
  import opened Wrappers

  /** No key occurs twice among the entries. */
  predicate UniqueKeys<V>(entries: seq<(string, V)>) {
    forall i, j :: 0 <= i < j < |entries| ==> entries[i].0 != entries[j].0
  }

  /** An object: own properties in enumeration order, each key once. */
  type Object<V> = entries: seq<(string, V)> | UniqueKeys(entries) witness []

  /** The keys occurring among the entries. */
  function KeySet<V>(entries: seq<(string, V)>): set<string> {
    set i | 0 <= i < |entries| :: entries[i].0
  }

  lemma KeySetConcat<V>(a: seq<(string, V)>, b: seq<(string, V)>)
    ensures KeySet(a + b) == KeySet(a) + KeySet(b)
  {
    var ab := a + b;
    forall k | k in KeySet(ab) ensures k in KeySet(a) + KeySet(b) {
      var i :| 0 <= i < |ab| && ab[i].0 == k;
      if i >= |a| { assert b[i - |a|].0 == k; }
    }
    forall k | k in KeySet(a) ensures k in KeySet(ab) {
      var i :| 0 <= i < |a| && a[i].0 == k;
      assert ab[i].0 == k;
    }
    forall k | k in KeySet(b) ensures k in KeySet(ab) {
      var i :| 0 <= i < |b| && b[i].0 == k;
      assert ab[|a| + i].0 == k;
    }
  }

  /** A list that names the keys of `o` one by one holds exactly its key set. */
  lemma KeyListMembers<V>(o: seq<(string, V)>, ks: seq<string>)
    requires |ks| == |o| && forall i :: 0 <= i < |o| ==> ks[i] == o[i].0
    ensures forall k :: k in ks <==> k in KeySet(o)
  {
  }

  /** `Object.keys(o)`. */
  function Keys<V>(o: seq<(string, V)>): (ks: seq<string>)
    ensures |ks| == |o|
    ensures forall k :: k in ks <==> k in KeySet(o)
  {
    var ks := seq(|o|, i requires 0 <= i < |o| => o[i].0);
    KeyListMembers(o, ks);
    ks
  }

  /** Both objects enumerate the same keys in the same order. */
  predicate SameKeys<V>(a: seq<(string, V)>, b: seq<(string, V)>) {
    |a| == |b| && forall i :: 0 <= i < |a| ==> a[i].0 == b[i].0
  }

  lemma SameKeysKeySet<V>(a: seq<(string, V)>, b: seq<(string, V)>)
    requires SameKeys(a, b)
    ensures KeySet(a) == KeySet(b)
  {
    forall k | k in KeySet(a) ensures k in KeySet(b) {
      var i :| 0 <= i < |a| && a[i].0 == k;
      assert b[i].0 == k;
    }
    forall k | k in KeySet(b) ensures k in KeySet(a) {
      var i :| 0 <= i < |b| && b[i].0 == k;
      assert a[i].0 == k;
    }
  }

  /** Property read `o[k]`; `None` is `undefined`. */
  function Get<V>(o: Object<V>, k: string): (r: Option<V>)
    ensures r.Some? <==> k in KeySet(o)
    ensures forall i :: 0 <= i < |o| && o[i].0 == k ==> r == Some(o[i].1)
  {
    if |o| == 0 then None
    else if o[0].0 == k then Some(o[0].1)
    else Get(o[1..], k)
  }

  /** Property assignment `o[k] = v`. */
  function Put<V>(o: Object<V>, k: string, v: V): (r: Object<V>)
    ensures Get(r, k) == Some(v)
    ensures forall k' :: k' != k ==> Get(r, k') == Get(o, k')
    ensures KeySet(r) == KeySet(o) + {k}
    ensures k in KeySet(o) ==> SameKeys(r, o)
    ensures k !in KeySet(o) ==> r == o + [(k, v)]
  {
    if |o| == 0 then [(k, v)]
    else
      var tail: Object<V> := o[1..];
      ConsFacts(o[0], tail);
      assert o == [o[0]] + tail;
      if o[0].0 == k then
        ConsFacts((k, v), tail);
        [(k, v)] + tail
      else
        var rest := Put(tail, k, v);
        ConsFacts(o[0], rest);
        [o[0]] + rest
  }

  /** What prepending one entry does to keys, uniqueness and reads. */
  lemma ConsFacts<V>(e: (string, V), o: Object<V>)
    ensures KeySet([e] + o) == {e.0} + KeySet(o)
    ensures e.0 !in KeySet(o) ==> UniqueKeys([e] + o)
    ensures ([e] + o)[1..] == o
  {
    KeySetConcat([e], o);
    assert [e][0].0 == e.0;
    assert KeySet([e]) == {e.0};
    if e.0 !in KeySet(o) {
      var eo := [e] + o;
      forall i, j | 0 <= i < j < |eo| ensures eo[i].0 != eo[j].0 {
        if i == 0 { assert eo[j] == o[j - 1]; }
        else { assert eo[i] == o[i - 1] && eo[j] == o[j - 1]; }
      }
    }
  }

  /** The value of the last entry with key `k`, if any. */
  function LastValue<V>(entries: seq<(string, V)>, k: string): (r: Option<V>)
    ensures r.Some? <==> k in KeySet(entries)
    ensures r.Some? ==> exists i :: 0 <= i < |entries| && entries[i] == (k, r.value)
  {
    if |entries| == 0 then None
    else
      var n := |entries| - 1;
      assert KeySet(entries) == KeySet(entries[..n]) + {entries[n].0};
      if entries[n].0 == k then Some(entries[n].1) else LastValue(entries[..n], k)
  }

  /** The assignments `o[k] = v` of `entries`, performed in order. */
  function PutAll<V>(o: Object<V>, entries: seq<(string, V)>): (r: Object<V>)
    ensures KeySet(r) == KeySet(o) + KeySet(entries)
    ensures forall k :: Get(r, k) == if k in KeySet(entries) then LastValue(entries, k) else Get(o, k)
    ensures |o| <= |r| && forall i :: 0 <= i < |o| ==> r[i].0 == o[i].0
    decreases |entries|
  {
    if |entries| == 0 then o
    else
      var n := |entries| - 1;
      assert KeySet(entries) == KeySet(entries[..n]) + {entries[n].0};
      Put(PutAll(o, entries[..n]), entries[n].0, entries[n].1)
  }

  /** Assigning distinct keys one by one to an empty object lists them in
      assignment order. */
  lemma {:induction false} PutAllDistinct<V>(entries: seq<(string, V)>)
    requires UniqueKeys(entries)
    ensures PutAll([], entries) == entries
    decreases |entries|
  {
    if |entries| > 0 {
      var n := |entries| - 1;
      assert UniqueKeys(entries[..n]);
      PutAllDistinct(entries[..n]);
      assert entries[n].0 !in KeySet(entries[..n]);
      assert entries == entries[..n] + [entries[n]];
    }
  }

  /** In an object the last entry with a key is its only one. */
  lemma {:induction false} LastValueOfObject<V>(o: Object<V>, k: string)
    ensures LastValue(o, k) == Get(o, k)
  {
    if LastValue(o, k).Some? {
      var i :| 0 <= i < |o| && o[i] == (k, LastValue(o, k).value);
    }
  }

  /** Object spread `{ ...a, ...b }`: the keys of `a` keep their positions,
      the new keys of `b` follow, and `b` wins on every key it has. */
  function Spread<V>(a: Object<V>, b: Object<V>): (r: Object<V>)
    ensures KeySet(r) == KeySet(a) + KeySet(b)
    ensures forall k :: Get(r, k) == if k in KeySet(b) then Get(b, k) else Get(a, k)
    ensures |a| <= |r| && forall i :: 0 <= i < |a| ==> r[i].0 == a[i].0
  {
    forall k ensures LastValue(b, k) == Get(b, k) {
      LastValueOfObject(b, k);
    }
    PutAll(a, b)
  }
}
