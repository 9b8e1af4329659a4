/** Python dictionaries: entries kept in insertion order, `d.get(k)` and `d[k] = v`. */
module Dicts {
  import opened Wrappers

  /** A dict as its list of (key, value) entries in insertion order. */
  type Dict<V> = seq<(string, V)>

  /** `list(d.keys())`. */
  function Keys<V>(d: Dict<V>): (ks: seq<string>)
    ensures |ks| == |d|
    ensures forall i :: 0 <= i < |d| ==> ks[i] == d[i].0
  {
    if d == [] then [] else [d[0].0] + Keys(d[1..])
  }

  predicate NoDuplicates(s: seq<string>)
  {
    forall i, j :: 0 <= i < j < |s| ==> s[i] != s[j]
  }

  /** Every key occurs once, as in any Python dict. */
  predicate DistinctKeys<V>(d: Dict<V>)
  {
    NoDuplicates(Keys(d))
  }

  /** `d.get(k)`: the value stored under `k`, None when `k` is not a key. */
  function Get<V>(d: Dict<V>, k: string): (r: Option<V>)
    ensures r.None? <==> k !in Keys(d)
    ensures DistinctKeys(d) ==> forall i :: 0 <= i < |d| && d[i].0 == k ==> r == Some(d[i].1)
  {
    if d == [] then None
    else if d[0].0 == k then Some(d[0].1)
    else
      Get(d[1..], k)
  }

  /** `d[k] = v`: overwrite in place when `k` is a key, otherwise append. */
  function Put<V>(d: Dict<V>, k: string, v: V): (r: Dict<V>)
    ensures Keys(r) == if k in Keys(d) then Keys(d) else Keys(d) + [k]
    ensures Get(r, k) == Some(v)
    ensures forall k' :: k' != k ==> Get(r, k') == Get(d, k')
  {
    if d == [] then [(k, v)]
    else if d[0].0 == k then
      var r := [(k, v)] + d[1..];
      assert r[1..] == d[1..];
      r
    else
      var rest := Put(d[1..], k, v);
      var r := [d[0]] + rest;
      assert r[1..] == rest;
      assert Keys(r) == [d[0].0] + Keys(rest);
      assert Keys(d) == [d[0].0] + Keys(d[1..]);
      assert k in Keys(d) <==> k in Keys(d[1..]);
      r
  }

  /** Storing a new key appends exactly one entry at the end. */
  lemma {:induction false} PutFresh<V>(d: Dict<V>, k: string, v: V)
    requires k !in Keys(d)
    ensures Put(d, k, v) == d + [(k, v)]
  {
    if d != [] {
      var rest := d[1..];
      assert Keys(d) == [d[0].0] + Keys(rest);
      assert Put(d, k, v) == [d[0]] + Put(rest, k, v);
      PutFresh(rest, k, v);
      assert [d[0]] + (rest + [(k, v)]) == d + [(k, v)];
    }
  }

  /** Storing into a dict never creates a duplicate key. */
  lemma PutKeepsKeysDistinct<V>(d: Dict<V>, k: string, v: V)
    requires DistinctKeys(d)
    ensures DistinctKeys(Put(d, k, v))
  {
    var ks := Keys(Put(d, k, v));
    if k !in Keys(d) {
      forall i, j | 0 <= i < j < |ks| ensures ks[i] != ks[j] {
        if j == |ks| - 1 {
          assert ks[i] == Keys(d)[i];
        }
      }
    }
  }

  /** Looking up in a dict extended at the end: earlier entries win, the new entry answers only for its own key. */
  lemma {:induction false} GetAppend<V>(d: Dict<V>, e: (string, V), k: string)
    ensures Get(d + [e], k) == if k in Keys(d) then Get(d, k) else if e.0 == k then Some(e.1) else None
  {
    if d != [] {
      assert Keys(d) == [d[0].0] + Keys(d[1..]);
      assert (d + [e])[1..] == d[1..] + [e];
      GetAppend(d[1..], e, k);
    }
  }

  /** Extending a dict at the end keeps the earlier keys in front, in order. */
  lemma {:induction false} KeysAppend<V>(d: Dict<V>, e: (string, V))
    ensures Keys(d + [e]) == Keys(d) + [e.0]
  {
    if d != [] {
      assert (d + [e])[1..] == d[1..] + [e];
      KeysAppend(d[1..], e);
    }
  }
}
