/** Python dicts with string keys, as association lists in insertion order. */
module Dicts {
  import opened Wrappers

  /** `d.get(k)`: the value stored under `k`. */
  function Lookup<V>(m: seq<(string, V)>, k: string): (r: Option<V>)
    ensures r.Some? <==> exists i :: 0 <= i < |m| && m[i].0 == k
  {
    if |m| == 0 then None
    else if m[0].0 == k then Some(m[0].1)
    else Lookup(m[1..], k)
  }

  /** `d[k] = v`: an existing key keeps its position, a new key goes last. */
  function Put<V>(m: seq<(string, V)>, k: string, v: V): (r: seq<(string, V)>)
    ensures Lookup(r, k) == Some(v)
    ensures forall k' :: k' != k ==> Lookup(r, k') == Lookup(m, k')
  {
    if |m| == 0 then [(k, v)]
    else if m[0].0 == k then [(k, v)] + m[1..]
    else [m[0]] + Put(m[1..], k, v)
  }

  /** No key occurs twice, which every Python dict satisfies. */
  predicate UniqueKeys<V>(m: seq<(string, V)>) {
    forall i, j :: 0 <= i < j < |m| ==> m[i].0 != m[j].0
  }

  lemma {:induction false} PutNewKey<V>(m: seq<(string, V)>, k: string, v: V)
    requires Lookup(m, k) == None
    ensures Put(m, k, v) == m + [(k, v)]
  {
    if |m| > 0 {
      assert m[0].0 != k;
      PutNewKey(m[1..], k, v);
      assert [m[0]] + (m[1..] + [(k, v)]) == m + [(k, v)];
    }
  }

  /** In a dict, the entry at position `i` is what a lookup of its key finds. */
  lemma {:induction false} LookupAt<V>(m: seq<(string, V)>, i: nat)
    requires UniqueKeys(m) && i < |m|
    ensures Lookup(m, m[i].0) == Some(m[i].1)
  {
    if i > 0 {
      assert m[0].0 != m[i].0;
      assert m[1..][i - 1] == m[i];
      LookupAt(m[1..], i - 1);
    }
  }

  /** In a dict, the first key does not occur again. */
  lemma FirstKeyNotInTail<V>(m: seq<(string, V)>)
    requires UniqueKeys(m) && |m| > 0
    ensures Lookup(m[1..], m[0].0) == None
  {
    forall i | 0 <= i < |m| - 1
      ensures m[1..][i].0 != m[0].0
    {
      assert m[1..][i] == m[i + 1];
    }
  }
}
