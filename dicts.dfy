/**
 * A Python dict as the sequence of its (key, value) entries in insertion order.
 * `Lookup` is `d.get(k)` and `Store` is `d[k] = v`: an existing key keeps its
 * place and gets the new value, a new key is appended at the end.
 */
module Dicts {
  import opened Results

  type Dict<K, V> = seq<(K, V)>

  /** No key occurs in two entries, as in every dict Python builds. */
  predicate DistinctKeys<K(==), V>(d: Dict<K, V>) {
    forall i, j :: 0 <= i < j < |d| ==> d[i].0 != d[j].0
  }

  predicate HasKey<K(==), V>(d: Dict<K, V>, k: K) {
    exists i :: 0 <= i < |d| && d[i].0 == k
  }

  /** `d.get(k)`: the value of the first entry with key `k`. */
  function Lookup<K(==), V>(d: Dict<K, V>, k: K): (r: Option<V>)
    ensures r.Some? <==> HasKey(d, k)
    ensures r.Some? ==> exists i :: 0 <= i < |d| && d[i].0 == k && d[i].1 == r.value
  {
    if d == [] then None
    else if d[0].0 == k then Some(d[0].1)
    else
      var r := Lookup(d[1..], k);
      assert HasKey(d, k) <==> HasKey(d[1..], k) by {
        if HasKey(d[1..], k) {
          var i :| 0 <= i < |d[1..]| && d[1..][i].0 == k;
          assert d[i + 1].0 == k;
        }
        if HasKey(d, k) {
          var i :| 0 <= i < |d| && d[i].0 == k;
          assert i > 0 && d[1..][i - 1].0 == k;
        }
      }
      assert r.Some? ==> exists i :: 0 <= i < |d| && d[i].0 == k && d[i].1 == r.value by {
        if r.Some? {
          var i :| 0 <= i < |d[1..]| && d[1..][i].0 == k && d[1..][i].1 == r.value;
          assert d[i + 1].0 == k && d[i + 1].1 == r.value;
        }
      }
      r
  }

  /** `d[k] = v`. */
  function Store<K(==), V>(d: Dict<K, V>, k: K, v: V): (r: Dict<K, V>)
    ensures |r| == if HasKey(d, k) then |d| else |d| + 1
    ensures forall i :: 0 <= i < |d| ==> r[i].0 == d[i].0
    ensures !HasKey(d, k) ==> r == d + [(k, v)]
  {
    if d == [] then [(k, v)]
    else if d[0].0 == k then [(k, v)] + d[1..]
    else
      assert HasKey(d, k) <==> HasKey(d[1..], k) by {
        if HasKey(d[1..], k) {
          var i :| 0 <= i < |d[1..]| && d[1..][i].0 == k;
          assert d[i + 1].0 == k;
        }
        if HasKey(d, k) {
          var i :| 0 <= i < |d| && d[i].0 == k;
          assert i > 0 && d[1..][i - 1].0 == k;
        }
      }
      [d[0]] + Store(d[1..], k, v)
  }

  /** Reading back a stored key gives the stored value; every other key is unaffected. */
  lemma {:induction false} LookupStore<K, V>(d: Dict<K, V>, k: K, v: V, k': K)
    ensures Lookup(Store(d, k, v), k') == if k' == k then Some(v) else Lookup(d, k')
  {
    if d != [] && d[0].0 != k {
      LookupStore(d[1..], k, v, k');
      assert Store(d, k, v)[1..] == Store(d[1..], k, v);
    }
  }

  /** Storing never introduces a duplicate key. */
  lemma StorePreservesDistinctKeys<K, V>(d: Dict<K, V>, k: K, v: V)
    requires DistinctKeys(d)
    ensures DistinctKeys(Store(d, k, v))
  {
    var r := Store(d, k, v);
    if !HasKey(d, k) {
      forall i, j | 0 <= i < j < |r| ensures r[i].0 != r[j].0 {
        if j == |d| {
          assert r[j].0 == k;
        }
      }
    }
  }

  /** The first entry with a key is the one `Lookup` finds. */
  lemma {:induction false} LookupFirst<K, V>(d: Dict<K, V>, i: nat, k: K)
    requires i < |d| && d[i].0 == k
    requires forall j :: 0 <= j < i ==> d[j].0 != k
    ensures Lookup(d, k) == Some(d[i].1)
  {
    if i > 0 {
      LookupFirst(d[1..], i - 1, k);
    }
  }

  /** With distinct keys, every entry is found by its key. */
  lemma LookupDistinct<K, V>(d: Dict<K, V>, i: nat)
    requires DistinctKeys(d) && i < |d|
    ensures Lookup(d, d[i].0) == Some(d[i].1)
  {
    LookupFirst(d, i, d[i].0);
  }
}
