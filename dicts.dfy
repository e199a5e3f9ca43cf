/**
 * A Python `dict` as the list of its items in insertion order. Assigning to a key already
 * present keeps its position and replaces its value; assigning to a new key appends it.
 */
module Dicts {

  type Items<K, V> = seq<(K, V)>

  /** Each key occurs once: the invariant of every dict. */
  ghost predicate DistinctKeys<K, V>(d: Items<K, V>) {
    forall i, j :: 0 <= i < j < |d| ==> d[i].0 != d[j].0
  }

  function Keys<K, V>(d: Items<K, V>): set<K> {
    set i | 0 <= i < |d| :: d[i].0
  }

  function Values<K, V>(d: Items<K, V>): seq<V> {
    seq(|d|, i requires 0 <= i < |d| => d[i].1)
  }

  /** Position of the (first) item whose key is k. */
  function IndexOf<K(==), V>(d: Items<K, V>, k: K): (i: nat)
    requires k in Keys(d)
    ensures i < |d| && d[i].0 == k
    ensures forall j :: 0 <= j < i ==> d[j].0 != k
  {
    if d[0].0 == k then 0
    else
      assert k in Keys(d[1..]) by {
        var j :| 0 <= j < |d| && d[j].0 == k;
        assert d[1..][j - 1].0 == k;
      }
      IndexOf(d[1..], k) + 1
  }

  /** `d[k]` */
  function Get<K(==), V>(d: Items<K, V>, k: K): V
    requires k in Keys(d)
  {
    d[IndexOf(d, k)].1
  }

  /** `d[k] = v`: an existing key keeps its position, a new key is appended. */
  function Put<K(==), V>(d: Items<K, V>, k: K, v: V): Items<K, V>
  {
    if k in Keys(d) then d[IndexOf(d, k) := (k, v)] else d + [(k, v)]
  }

  /** The keys after `d[k] = v`, and the order they come in. */
  lemma PutKeys<K, V>(d: Items<K, V>, k: K, v: V)
    ensures Keys(Put(d, k, v)) == Keys(d) + {k}
    ensures k in Keys(d) ==> |Put(d, k, v)| == |d| && forall i :: 0 <= i < |d| ==> Put(d, k, v)[i].0 == d[i].0
    ensures k !in Keys(d) ==> Put(d, k, v) == d + [(k, v)]
  {
    var r := Put(d, k, v);
    if k in Keys(d) {
      assert Keys(r) == Keys(d) by {
        forall x | x in Keys(d) ensures x in Keys(r) {
          var j :| 0 <= j < |d| && d[j].0 == x;
          assert r[j].0 == x;
        }
      }
    } else {
      assert r[|d|].0 == k;
      forall x | x in Keys(d) ensures x in Keys(r) {
        var j :| 0 <= j < |d| && d[j].0 == x;
        assert r[j].0 == x;
      }
    }
  }

  /** After `d[k] = v`, `k` reads `v` and every other key reads what it read before. */
  lemma PutGet<K, V>(d: Items<K, V>, k: K, v: V)
    ensures k in Keys(Put(d, k, v)) && Get(Put(d, k, v), k) == v
    ensures forall k' :: k' in Keys(d) && k' != k ==> k' in Keys(Put(d, k, v)) && Get(Put(d, k, v), k') == Get(d, k')
  {
    PutKeys(d, k, v);
    var r := Put(d, k, v);
    if k in Keys(d) {
      var i := IndexOf(d, k);
      forall k' | k' in Keys(d) && k' != k ensures Get(r, k') == Get(d, k') {
        var j := IndexOf(d, k');
        assert r[j] == d[j];
        assert forall m :: 0 <= m < j ==> r[m].0 == d[m].0;
      }
      assert r[i].0 == k && forall m :: 0 <= m < i ==> r[m].0 != k;
    } else {
      assert r[|d|].0 == k;
      forall k' | k' in Keys(d) ensures Get(r, k') == Get(d, k') {
        var j := IndexOf(d, k');
        assert r[j] == d[j];
      }
    }
  }

  /** `d[k] = v` keeps every key once. */
  lemma PutDistinct<K, V>(d: Items<K, V>, k: K, v: V)
    requires DistinctKeys(d)
    ensures DistinctKeys(Put(d, k, v))
  {
    PutKeys(d, k, v);
  }
}
