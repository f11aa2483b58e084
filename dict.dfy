/**
 * A Python `dict` as the chatbot uses it: an association list whose order is
 * insertion order. `d[k] = v` replaces the value of an existing key where it
 * stands and appends a new key at the end; `d.get(k)` looks a key up.
 */
module Dict {
  import opened Wrappers

  /** The keys of `d`, in iteration order. */
  function Keys<K, V>(d: seq<(K, V)>): (ks: seq<K>)
    ensures |ks| == |d| && forall i :: 0 <= i < |d| ==> ks[i] == d[i].0
  {
    seq(|d|, i requires 0 <= i < |d| => d[i].0)
  }

  /** The values of `d`, in iteration order: `d.values()`. */
  function Values<K, V>(d: seq<(K, V)>): (vs: seq<V>)
    ensures |vs| == |d| && forall i :: 0 <= i < |d| ==> vs[i] == d[i].1
  {
    seq(|d|, i requires 0 <= i < |d| => d[i].1)
  }

  /** What every Python dictionary satisfies: no key occurs twice. */
  predicate DistinctKeys<K(==), V>(d: seq<(K, V)>)
  {
    forall i, j :: 0 <= i < j < |d| ==> d[i].0 != d[j].0
  }

  /** `d.get(k)`: the value stored under `k`, if any. */
  function Get<K(==), V>(d: seq<(K, V)>, k: K): Option<V>
  {
    if d == [] then None
    else if d[0].0 == k then Some(d[0].1)
    else Get(d[1..], k)
  }

  /** `d[k] = v`. */
  function Put<K(==), V>(d: seq<(K, V)>, k: K, v: V): seq<(K, V)>
  {
    if d == [] then [(k, v)]
    else if d[0].0 == k then [(k, v)] + d[1..]
    else [d[0]] + Put(d[1..], k, v)
  }

  /** `Get` finds a key exactly when it is stored, and then finds the value stored with it. */
  lemma {:induction false} GetSpec<K, V>(d: seq<(K, V)>, k: K)
    requires DistinctKeys(d)
    ensures Get(d, k).None? <==> k !in Keys(d)
    ensures forall i :: 0 <= i < |d| && d[i].0 == k ==> Get(d, k) == Some(d[i].1)
  {
    if d != [] {
      GetSpec(d[1..], k);
      assert Keys(d) == [d[0].0] + Keys(d[1..]);
      forall i | 0 <= i < |d| && d[i].0 == k
        ensures Get(d, k) == Some(d[i].1)
      {
        if i > 0 {
          assert d[1..][i - 1] == d[i];
        }
      }
    }
  }

  /** A value `Get` finds is stored under its key. */
  lemma {:induction false} GetFound<K, V>(d: seq<(K, V)>, k: K)
    ensures Get(d, k).Some? ==> exists i :: 0 <= i < |d| && d[i] == (k, Get(d, k).value)
  {
    if d != [] && d[0].0 != k {
      GetFound(d[1..], k);
      if Get(d, k).Some? {
        var i :| 0 <= i < |d[1..]| && d[1..][i] == (k, Get(d, k).value);
        assert d[i + 1] == d[1..][i];
      }
    }
  }

  /**
   * `d[k] = v` overwrites the entry of an existing key in place and leaves every
   * other entry where it was; a new key is appended at the end.
   */
  lemma {:induction false} PutEntries<K, V>(d: seq<(K, V)>, k: K, v: V)
    requires DistinctKeys(d)
    ensures k in Keys(d) ==> (|Put(d, k, v)| == |d| &&
      forall i :: 0 <= i < |d| ==> Put(d, k, v)[i] == (if d[i].0 == k then (k, v) else d[i]))
    ensures k !in Keys(d) ==> Put(d, k, v) == d + [(k, v)]
  {
    if d != [] {
      assert Keys(d) == [d[0].0] + Keys(d[1..]);
      if d[0].0 == k {
        forall i | 0 < i < |d|
          ensures d[i].0 != k
        {
        }
      } else {
        PutEntries(d[1..], k, v);
      }
    }
  }

  /** `d[k] = v` keeps the keys distinct and the key order, appending `k` if it is new. */
  lemma PutKeys<K, V>(d: seq<(K, V)>, k: K, v: V)
    requires DistinctKeys(d)
    ensures DistinctKeys(Put(d, k, v))
    ensures Keys(Put(d, k, v)) == if k in Keys(d) then Keys(d) else Keys(d) + [k]
  {
    PutEntries(d, k, v);
    var r := Put(d, k, v);
    if k in Keys(d) {
      assert forall i :: 0 <= i < |d| ==> r[i].0 == d[i].0;
    } else {
      assert forall i :: 0 <= i < |d| ==> d[i].0 != k;
    }
  }

  /** After `d[k] = v`, `k` maps to `v` and every other key maps to what it mapped to before. */
  lemma PutGet<K, V>(d: seq<(K, V)>, k: K, v: V, k': K)
    requires DistinctKeys(d)
    ensures Get(Put(d, k, v), k') == if k' == k then Some(v) else Get(d, k')
  {
    PutEntries(d, k, v);
    PutKeys(d, k, v);
    var r := Put(d, k, v);
    GetSpec(d, k');
    GetSpec(r, k');
    if k' == k {
      var i :| 0 <= i < |r| && r[i].0 == k;
    } else if k' in Keys(d) {
      var i :| 0 <= i < |d| && d[i].0 == k';
      assert r[i] == d[i];
    } else {
      assert k' !in Keys(r);
    }
  }
}
