/** JSON values as Express serialises them, with objects as insertion-ordered
    key/value lists (a JavaScript object keeps its keys in insertion order). */
module Json {
  import opened Wrappers

  datatype Json =
    | JNull
    | JBool(b: bool)
    | JNum(n: int)
    | JStr(s: string)
    | JArr(items: seq<Json>)
    | JObj(fields: seq<(string, Json)>)

  /** The keys of an object's entries, in order. */
  function Keys<V>(entries: seq<(string, V)>): (ks: seq<string>)
    ensures |ks| == |entries|
    ensures forall i :: 0 <= i < |entries| ==> ks[i] == entries[i].0
  {
    if entries == [] then [] else [entries[0].0] + Keys(entries[1..])
  }

  /** No key occurs twice. */
  predicate DistinctKeys<V>(entries: seq<(string, V)>) {
    forall i, j :: 0 <= i < j < |entries| ==> entries[i].0 != entries[j].0
  }

  /** `obj[key]`: the value stored under the first entry with that key,
      `undefined` when absent. */
  function Get<V>(entries: seq<(string, V)>, key: string): Option<V>
  {
    if entries == [] then None
    else if entries[0].0 == key then Some(entries[0].1)
    else Get(entries[1..], key)
  }

  /** A lookup misses exactly when the key is absent, and a hit is one of
      the entries. */
  lemma {:induction false} GetSpec<V>(entries: seq<(string, V)>, key: string)
    ensures Get(entries, key).None? <==> key !in Keys(entries)
    ensures Get(entries, key).Some? ==> (key, Get(entries, key).value) in entries
  {
    if entries != [] {
      GetSpec(entries[1..], key);
      assert Keys(entries) == [entries[0].0] + Keys(entries[1..]);
      if entries[0].0 != key && Get(entries, key).Some? {
        assert (key, Get(entries, key).value) in entries[1..];
      }
    }
  }

  /** A lookup finds the first entry under its key. */
  lemma {:induction false} GetAt<V>(entries: seq<(string, V)>, i: nat)
    requires i < |entries|
    requires forall j :: 0 <= j < i ==> entries[j].0 != entries[i].0
    ensures Get(entries, entries[i].0) == Some(entries[i].1)
  {
    if i > 0 {
      assert entries[1..][i - 1] == entries[i];
      GetAt(entries[1..], i - 1);
    }
  }

  /** `obj[key] = v`: overwrites the value in place when the key is already
      there (the key keeps its position), otherwise appends a new entry. */
  function Put<V>(entries: seq<(string, V)>, key: string, v: V): (r: seq<(string, V)>)
  {
    if entries == [] then [(key, v)]
    else if entries[0].0 == key then [(key, v)] + entries[1..]
    else [entries[0]] + Put(entries[1..], key, v)
  }

  /** After `obj[key] = v`, reading `key` gives `v`, every other key reads
      as before, and the key set grows by `key` only. */
  lemma {:induction false} PutGet<V>(entries: seq<(string, V)>, key: string, v: V, other: string)
    ensures Get(Put(entries, key, v), key) == Some(v)
    ensures other != key ==> Get(Put(entries, key, v), other) == Get(entries, other)
    ensures forall k :: k in Keys(Put(entries, key, v)) <==> k == key || k in Keys(entries)
  {
    if entries != [] && entries[0].0 != key {
      PutGet(entries[1..], key, v, other);
      var r := Put(entries, key, v);
      assert r[1..] == Put(entries[1..], key, v);
      assert Keys(r) == [entries[0].0] + Keys(r[1..]);
      assert Keys(entries) == [entries[0].0] + Keys(entries[1..]);
    } else if entries != [] {
      var r := Put(entries, key, v);
      assert r[1..] == entries[1..];
      assert Keys(r) == [key] + Keys(entries[1..]);
      assert Keys(entries) == [key] + Keys(entries[1..]);
    }
  }

  /** Writing an existing key leaves the key order as it was; a new key is
      appended at the end. */
  lemma {:induction false} PutKeys<V>(entries: seq<(string, V)>, key: string, v: V)
    ensures Keys(Put(entries, key, v)) == if key in Keys(entries) then Keys(entries) else Keys(entries) + [key]
  {
    if entries != [] {
      var tail := entries[1..];
      assert Keys(entries) == [entries[0].0] + Keys(tail);
      if entries[0].0 == key {
        assert Put(entries, key, v)[1..] == tail;
      } else {
        PutKeys(tail, key, v);
        assert Put(entries, key, v)[1..] == Put(tail, key, v);
      }
    }
  }

  /** Writing into an object never makes a key occur twice. */
  lemma PutDistinct<V>(entries: seq<(string, V)>, key: string, v: V)
    requires DistinctKeys(entries)
    ensures DistinctKeys(Put(entries, key, v))
  {
    var r := Put(entries, key, v);
    PutKeys(entries, key, v);
    forall a, b | 0 <= a < b < |r| ensures r[a].0 != r[b].0 {
      assert Keys(r)[a] == r[a].0 && Keys(r)[b] == r[b].0;
      if b < |entries| {
        assert Keys(entries)[a] == entries[a].0 && Keys(entries)[b] == entries[b].0;
      } else {
        assert Keys(entries)[a] == entries[a].0;
      }
    }
  }

  /** `value[key]` on a JSON value: only objects have members. */
  function Field(j: Json, key: string): Option<Json> {
    match j
    case JObj(fields) => Get(fields, key)
    case _ => None
  }

  /** The keys of a JSON object, in order; none for other values. */
  function ObjectKeys(j: Json): seq<string> {
    match j
    case JObj(fields) => Keys(fields)
    case _ => []
  }

  /** A list of strings as a JSON array. */
  function StrArray(ss: seq<string>): (r: Json)
    ensures r.JArr? && |r.items| == |ss|
    ensures forall i :: 0 <= i < |ss| ==> r.items[i] == JStr(ss[i])
  {
    if ss == [] then JArr([]) else JArr([JStr(ss[0])] + StrArray(ss[1..]).items)
  }
}
