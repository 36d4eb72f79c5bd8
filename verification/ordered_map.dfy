/** A JavaScript `Map` as an immutable value: entries in insertion order, at most
    one entry per key, and `set` on a key already present replacing the value in
    place (the entry keeps its position). All the in-memory stores are built on it. */
module OrderedMap {
  import opened Wrappers

  /** Keys are the string ids the stores use. */
  type Key = string

  datatype Entry<V> = Entry(key: Key, value: V)

  /** Every key occurs in at most one entry, as in a JavaScript `Map`. */
  predicate DistinctKeys<V>(s: seq<Entry<V>>) {
    forall i, j :: 0 <= i < j < |s| ==> s[i].key != s[j].key
  }

  type Store<V> = s: seq<Entry<V>> | DistinctKeys(s) witness []

  /** True iff some entry has key `k` (the source's `map.has(k)`). */
  predicate Has<V>(s: Store<V>, k: Key) {
    exists i :: 0 <= i < |s| && s[i].key == k
  }

  /** `map.get(k)`: the value stored under `k`, if any. */
  function Get<V>(s: Store<V>, k: Key): (r: Option<V>)
    ensures r.None? <==> !Has(s, k)
    ensures forall i :: 0 <= i < |s| && s[i].key == k ==> r == Some(s[i].value)
  {
    if |s| == 0 then None
    else if s[0].key == k then Some(s[0].value)
    else
      var rest: Store<V> := s[1..];
      assert forall i :: 1 <= i < |s| ==> s[i] == rest[i - 1];
      Get(rest, k)
  }

  /** `map.set(k, v)`: replaces the value of an existing key where it stands,
      otherwise appends a new entry at the end. */
  function Set<V>(s: Store<V>, k: Key, v: V): (r: Store<V>)
    ensures Has(s, k) ==> |r| == |s|
    ensures !Has(s, k) ==> r == s + [Entry(k, v)]
    ensures forall i :: 0 <= i < |s| ==> r[i] == (if s[i].key == k then Entry(k, v) else s[i])
  {
    if Has(s, k) then
      var r := seq(|s|, i requires 0 <= i < |s| => if s[i].key == k then Entry(k, v) else s[i]);
      assert forall i :: 0 <= i < |s| ==> r[i].key == s[i].key;
      r
    else
      s + [Entry(k, v)]
  }

  /** After `Set(s, k, v)`, `k` reads back `v` and every other key reads as before. */
  lemma SetThenGet<V>(s: Store<V>, k: Key, v: V, other: Key)
    ensures Get(Set(s, k, v), k) == Some(v)
    ensures other != k ==> Get(Set(s, k, v), other) == Get(s, other)
  {
    var r := Set(s, k, v);
    if Has(s, k) {
      var j :| 0 <= j < |s| && s[j].key == k;
      assert r[j] == Entry(k, v);
    } else {
      assert r[|s|] == Entry(k, v);
    }
    if other != k && Has(s, other) {
      var j :| 0 <= j < |s| && s[j].key == other;
      assert r[j] == s[j];
    } else if other != k {
      assert forall i :: 0 <= i < |s| ==> r[i].key == s[i].key || r[i].key == k;
      assert !Has(r, other) by {
        assert !Has(s, k) ==> r[|r| - 1].key == k;
      }
    }
  }

  /** `Array.from(map.values())`: the values in insertion order. */
  function Values<V>(s: Store<V>): (vs: seq<V>)
    ensures |vs| == |s|
    ensures forall i :: 0 <= i < |s| ==> vs[i] == s[i].value
  {
    seq(|s|, i requires 0 <= i < |s| => s[i].value)
  }

  /** `map.values().next().value`: the value of the earliest-inserted entry. */
  function FirstValue<V>(s: Store<V>): (r: Option<V>)
    ensures r.None? <==> |s| == 0
    ensures r.Some? ==> r.value == s[0].value
  {
    if |s| == 0 then None else Some(s[0].value)
  }

  /** `map.clear()`. */
  function Clear<V>(): (r: Store<V>)
    ensures |r| == 0
  {
    []
  }
}
