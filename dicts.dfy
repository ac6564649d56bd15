/**
 * Python dictionaries with string keys, as their items in insertion order.
 * Assigning to an existing key keeps the key's position, as `d[k] = v`
 * does; a new key is appended at the end.
 */
module Dicts {
  import opened Wrappers

  function Keys<V>(d: seq<(string, V)>): (r: seq<string>)
    ensures |r| == |d|
  {
    seq(|d|, i requires 0 <= i < |d| => d[i].0)
  }

  /** No key occurs twice, as in any real `dict`. */
  predicate UniqueKeys<V>(d: seq<(string, V)>) {
    forall i, j :: 0 <= i < j < |d| ==> d[i].0 != d[j].0
  }

  /** `d.get(key)`: the value stored under the first occurrence of `key`. */
  function Lookup<V>(d: seq<(string, V)>, key: string): (r: Option<V>)
    ensures r.Some? <==> key in Keys(d)
    ensures r.Some? ==> exists i :: 0 <= i < |d| && d[i] == (key, r.value)
  {
    if d == [] then None
    else if d[0].0 == key then
      assert d[0] == (key, d[0].1) && Keys(d)[0] == key;
      Some(d[0].1)
    else
      var r := Lookup(d[1..], key);
      assert Keys(d) == [d[0].0] + Keys(d[1..]);
      assert forall i :: 0 < i < |d| ==> d[i] == d[1..][i - 1];
      r
  }

  /** `d[key] = v`. */
  function Put<V>(d: seq<(string, V)>, key: string, v: V): (r: seq<(string, V)>)
    ensures Lookup(r, key) == Some(v)
    ensures forall k :: k != key ==> Lookup(r, k) == Lookup(d, k)
  {
    if d == [] then [(key, v)]
    else if d[0].0 == key then [(key, v)] + d[1..]
    else
      var r := [d[0]] + Put(d[1..], key, v);
      assert r[1..] == Put(d[1..], key, v);
      r
  }

  /** The keys of an entry followed by more entries. */
  lemma KeysCons<V>(x: (string, V), rest: seq<(string, V)>)
    ensures Keys([x] + rest) == [x.0] + Keys(rest)
  {
    assert forall i :: 0 < i <= |rest| ==> ([x] + rest)[i] == rest[i - 1];
  }

  /** An existing key keeps its place; a new key goes last. */
  lemma {:induction false} PutKeys<V>(d: seq<(string, V)>, key: string, v: V)
    ensures key in Keys(d) ==> Keys(Put(d, key, v)) == Keys(d)
    ensures key !in Keys(d) ==> Keys(Put(d, key, v)) == Keys(d) + [key]
  {
    if d != [] {
      assert d == [d[0]] + d[1..];
      KeysCons(d[0], d[1..]);
      if d[0].0 == key {
        KeysCons((key, v), d[1..]);
      } else {
        PutKeys(d[1..], key, v);
        KeysCons(d[0], Put(d[1..], key, v));
      }
    } else {
      KeysCons((key, v), []);
    }
  }

  /** Assignment never duplicates a key. */
  lemma PutKeepsUnique<V>(d: seq<(string, V)>, key: string, v: V)
    requires UniqueKeys(d)
    ensures UniqueKeys(Put(d, key, v))
  {
    var r := Put(d, key, v);
    var ks, kd := Keys(r), Keys(d);
    PutKeys(d, key, v);
    assert forall i :: 0 <= i < |r| ==> r[i].0 == ks[i];
    assert forall i :: 0 <= i < |d| ==> d[i].0 == kd[i];
    if key !in kd {
      assert forall i :: 0 <= i < |d| ==> ks[i] == kd[i];
      assert ks[|d|] == key;
    }
  }

  /** A lookup through the unique keys finds the entry at that key's
      position. */
  lemma LookupAt<V>(d: seq<(string, V)>, i: nat)
    requires UniqueKeys(d) && i < |d|
    ensures Lookup(d, d[i].0) == Some(d[i].1)
  {
    if i > 0 {
      assert d[1..][i - 1] == d[i];
      LookupAt(d[1..], i - 1);
    }
  }

  /** Assigning a new key appends the entry. */
  lemma {:induction false} PutNew<V>(d: seq<(string, V)>, key: string, v: V)
    requires key !in Keys(d)
    ensures Put(d, key, v) == d + [(key, v)]
  {
    if d != [] {
      assert Keys(d) == [d[0].0] + Keys(d[1..]);
      PutNew(d[1..], key, v);
      assert d == [d[0]] + d[1..];
    }
  }
}
