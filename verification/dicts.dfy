/** Python's `dict`, which remembers insertion order, as a sequence of
    key/value pairs. Assigning `d[k] = v` overwrites the value in place when
    `k` is already a key and appends the pair otherwise, so iteration order is
    the order in which keys were first inserted. */
module Dicts {
  import opened Wrappers

  type Dict<K, V> = seq<(K, V)>

  function Keys<K, V>(d: Dict<K, V>): (r: seq<K>)
    ensures |r| == |d|
    ensures forall i :: 0 <= i < |d| ==> r[i] == d[i].0
    decreases |d|
  {
    if |d| == 0 then [] else [d[0].0] + Keys(d[1..])
  }

  function Values<K, V>(d: Dict<K, V>): (r: seq<V>)
    ensures |r| == |d|
    ensures forall i :: 0 <= i < |d| ==> r[i] == d[i].1
  {
    seq(|d|, i requires 0 <= i < |d| => d[i].1)
  }

  /** No key occurs twice: what every Python dict satisfies. */
  predicate UniqueKeys<K(==), V>(d: Dict<K, V>) {
    forall i, j :: 0 <= i < j < |d| ==> d[i].0 != d[j].0
  }

  /** `d.get(k)`. */
  function Get<K(==), V>(d: Dict<K, V>, k: K): Option<V>
    decreases |d|
  {
    if |d| == 0 then None
    else if d[0].0 == k then Some(d[0].1)
    else Get(d[1..], k)
  }

  /** A lookup fails exactly for keys the dict lacks, and otherwise finds a
      pair of the dict. */
  lemma {:induction false} GetSpec<K, V>(d: Dict<K, V>, k: K)
    ensures Get(d, k).None? <==> k !in Keys(d)
    ensures Get(d, k).Some? ==> (k, Get(d, k).value) in d
    decreases |d|
  {
    if |d| > 0 {
      assert Keys(d) == [d[0].0] + Keys(d[1..]);
      if d[0].0 != k {
        GetSpec(d[1..], k);
      }
    }
  }

  /** In a dict without repeated keys, the pair at position `i` is what a
      lookup of its key finds. */
  lemma {:induction false} GetAt<K, V>(d: Dict<K, V>, i: nat)
    requires UniqueKeys(d) && i < |d|
    ensures Get(d, d[i].0) == Some(d[i].1)
    decreases |d|
  {
    if i > 0 {
      assert d[0].0 != d[i].0;
      assert d[1..][i - 1] == d[i];
      GetAt(d[1..], i - 1);
    }
  }

  /** `d[k] = v`: afterwards `k` maps to `v`. */
  function Put<K(==), V>(d: Dict<K, V>, k: K, v: V): (r: Dict<K, V>)
    ensures Get(r, k) == Some(v)
    ensures |r| == if k in Keys(d) then |d| else |d| + 1
    decreases |d|
  {
    if |d| == 0 then [(k, v)]
    else if d[0].0 == k then [(k, v)] + d[1..]
    else
      var rest := Put(d[1..], k, v);
      assert Keys(d) == [d[0].0] + Keys(d[1..]);
      assert ([d[0]] + rest)[1..] == rest;
      [d[0]] + rest
  }

  /** `d[k] = v` changes the key order only by appending a key that was not
      there: an existing key keeps its position. */
  lemma {:induction false} PutKeys<K, V>(d: Dict<K, V>, k: K, v: V)
    ensures Keys(Put(d, k, v)) == if k in Keys(d) then Keys(d) else Keys(d) + [k]
    decreases |d|
  {
    if |d| > 0 {
      assert Keys(d) == [d[0].0] + Keys(d[1..]);
      if d[0].0 != k {
        var rest := Put(d[1..], k, v);
        PutKeys(d[1..], k, v);
        assert Keys([d[0]] + rest) == [d[0].0] + Keys(rest);
      } else {
        assert Keys([(k, v)] + d[1..]) == [k] + Keys(d[1..]);
      }
    }
  }

  /** `d[k] = v` leaves the value of every other key as it was. */
  lemma {:induction false} PutOther<K, V>(d: Dict<K, V>, k: K, v: V, k': K)
    requires k' != k
    ensures Get(Put(d, k, v), k') == Get(d, k')
    decreases |d|
  {
    if |d| > 0 && d[0].0 != k {
      PutOther(d[1..], k, v, k');
      assert ([d[0]] + Put(d[1..], k, v))[1..] == Put(d[1..], k, v);
    }
  }

  /** `d[k] = v` keeps a dict free of repeated keys. */
  lemma PutUnique<K, V>(d: Dict<K, V>, k: K, v: V)
    requires UniqueKeys(d)
    ensures UniqueKeys(Put(d, k, v))
  {
    var r := Put(d, k, v);
    PutKeys(d, k, v);
    forall i, j | 0 <= i < j < |r| ensures r[i].0 != r[j].0 {
      assert Keys(r)[i] == r[i].0 && Keys(r)[j] == r[j].0;
      if j == |d| {
        assert k !in Keys(d);
        assert Keys(d)[i] == d[i].0;
      } else {
        assert Keys(d)[i] == d[i].0 && Keys(d)[j] == d[j].0;
      }
    }
  }

  /** Storing under a new key appends the pair. */
  lemma {:induction false} PutFresh<K, V>(d: Dict<K, V>, k: K, v: V)
    requires k !in Keys(d)
    ensures Put(d, k, v) == d + [(k, v)]
    decreases |d|
  {
    if |d| > 0 {
      assert Keys(d) == [d[0].0] + Keys(d[1..]);
      PutFresh(d[1..], k, v);
      assert [d[0]] + (d[1..] + [(k, v)]) == d + [(k, v)];
    }
  }

  /** `for k, v in kvs: d[k] = v` */
  function PutAll<K(==), V>(d: Dict<K, V>, kvs: seq<(K, V)>): Dict<K, V>
    decreases |kvs|
  {
    if |kvs| == 0 then d else PutAll(Put(d, kvs[0].0, kvs[0].1), kvs[1..])
  }

  lemma UniqueKeysTail<K, V>(kvs: Dict<K, V>)
    requires |kvs| > 0 && UniqueKeys(kvs)
    ensures UniqueKeys(kvs[1..])
  {
    var rest := kvs[1..];
    forall i, j | 0 <= i < j < |rest| ensures rest[i].0 != rest[j].0 {
      assert rest[i] == kvs[i + 1] && rest[j] == kvs[j + 1];
    }
  }

  /** Once the first pair is appended, the remaining keys are still new. */
  lemma FreshTail<K, V>(d: Dict<K, V>, kvs: seq<(K, V)>)
    requires |kvs| > 0 && UniqueKeys(kvs)
    requires forall i :: 0 <= i < |kvs| ==> kvs[i].0 !in Keys(d)
    ensures forall i :: 0 <= i < |kvs| - 1 ==> kvs[1..][i].0 !in Keys(d + [kvs[0]])
  {
    var d' := d + [kvs[0]];
    assert Keys(d') == Keys(d) + [kvs[0].0];
    forall i | 0 <= i < |kvs| - 1 ensures kvs[1..][i].0 !in Keys(d') {
      assert kvs[1..][i] == kvs[i + 1];
      assert kvs[0].0 != kvs[i + 1].0;
    }
  }

  /** Storing pairs with distinct keys that are all new appends them in
      order. */
  lemma {:induction false} PutAllFresh<K, V>(d: Dict<K, V>, kvs: seq<(K, V)>)
    requires UniqueKeys(kvs)
    requires forall i :: 0 <= i < |kvs| ==> kvs[i].0 !in Keys(d)
    ensures PutAll(d, kvs) == d + kvs
    decreases |kvs|
  {
    if |kvs| == 0 {
      assert d + kvs == d;
    } else {
      var rest := kvs[1..];
      calc {
        PutAll(d, kvs);
        PutAll(Put(d, kvs[0].0, kvs[0].1), rest);
        { PutFresh(d, kvs[0].0, kvs[0].1); }
        PutAll(d + [kvs[0]], rest);
        { UniqueKeysTail(kvs); FreshTail(d, kvs); PutAllFresh(d + [kvs[0]], rest); }
        (d + [kvs[0]]) + rest;
        { assert [kvs[0]] + rest == kvs; }
        d + kvs;
      }
    }
  }

  /** After `d.update(kvs)` with distinct keys, a key of `kvs` has its value
      from `kvs` and any other key keeps its value from `d`. */
  lemma {:induction false} PutAllLookup<K, V>(d: Dict<K, V>, kvs: seq<(K, V)>, k: K)
    requires UniqueKeys(kvs)
    ensures Get(PutAll(d, kvs), k) == if k in Keys(kvs) then Get(kvs, k) else Get(d, k)
    decreases |kvs|
  {
    if |kvs| > 0 {
      var rest := kvs[1..];
      assert Keys(kvs) == [kvs[0].0] + Keys(rest);
      UniqueKeysTail(kvs);
      PutAllLookup(Put(d, kvs[0].0, kvs[0].1), rest, k);
      if k == kvs[0].0 {
        assert k !in Keys(rest) by {
          forall i | 0 <= i < |rest| ensures Keys(rest)[i] != k {
            assert Keys(rest)[i] == rest[i].0 == kvs[i + 1].0;
          }
        }
      } else {
        PutOther(d, kvs[0].0, kvs[0].1, k);
      }
    }
  }

  /** Storing twice under one key is storing the second value: the key keeps
      the position the first store gave it. */
  lemma {:induction false} PutPut<K, V>(d: Dict<K, V>, k: K, v1: V, v2: V)
    ensures Put(Put(d, k, v1), k, v2) == Put(d, k, v2)
    decreases |d|
  {
    if |d| == 0 {
      assert [(k, v1)][1..] == [];
    } else if d[0].0 == k {
      assert ([(k, v1)] + d[1..])[1..] == d[1..];
    } else {
      var r1 := Put(d[1..], k, v1);
      assert ([d[0]] + r1)[1..] == r1;
      PutPut(d[1..], k, v1, v2);
    }
  }
}
