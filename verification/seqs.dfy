/** List comprehensions with a condition, `[x for x in xs if keep(x)]`. */
module Seqs {

  /** The elements of `s` that satisfy `keep`, in their original order. */
  function Filter<T>(s: seq<T>, keep: T -> bool): (r: seq<T>)
    ensures |r| <= |s|
    ensures forall i :: 0 <= i < |r| ==> r[i] in s && keep(r[i])
    ensures forall i :: 0 <= i < |s| && keep(s[i]) ==> s[i] in r
    decreases |s|
  {
    if |s| == 0 then []
    else
      var rest := Filter(s[1..], keep);
      assert forall i :: 1 <= i < |s| ==> s[i] == s[1..][i - 1];
      if keep(s[0]) then [s[0]] + rest else rest
  }

  /** Filtering distributes over concatenation, so the kept elements keep the
      relative order they had: together with `FilterSingle` this pins the
      result down completely. */
  lemma {:induction false} FilterAppend<T>(a: seq<T>, b: seq<T>, keep: T -> bool)
    ensures Filter(a + b, keep) == Filter(a, keep) + Filter(b, keep)
    decreases |a|
  {
    if |a| == 0 {
      assert a + b == b;
    } else {
      assert (a + b)[0] == a[0];
      assert (a + b)[1..] == a[1..] + b;
      FilterAppend(a[1..], b, keep);
    }
  }

  lemma FilterSingle<T>(x: T, keep: T -> bool)
    ensures Filter([x], keep) == if keep(x) then [x] else []
  {
    assert [x][1..] == [];
  }

  /** Filtering keeps everything when every element passes. */
  lemma {:induction false} FilterAll<T>(s: seq<T>, keep: T -> bool)
    requires forall i :: 0 <= i < |s| ==> keep(s[i])
    ensures Filter(s, keep) == s
    decreases |s|
  {
    if |s| > 0 {
      FilterAll(s[1..], keep);
      assert [s[0]] + s[1..] == s;
    }
  }

  /** Filtering keeps nothing when no element passes. */
  lemma {:induction false} FilterNone<T>(s: seq<T>, keep: T -> bool)
    requires forall i :: 0 <= i < |s| ==> !keep(s[i])
    ensures Filter(s, keep) == []
    decreases |s|
  {
    if |s| > 0 {
      FilterNone(s[1..], keep);
    }
  }

  /** One more step of a left-to-right loop over `s`. */
  lemma TakeStep<T>(s: seq<T>, i: nat)
    requires i < |s|
    ensures s[..i + 1][..i] == s[..i]
    ensures s[..i + 1] == s[..i] + [s[i]]
  {
  }

  /** The end of a left-to-right loop over `s`. */
  lemma TakeAll<T>(s: seq<T>)
    ensures s[..|s|] == s
  {
  }

  /** Appending piece by piece builds the same sequence as appending the
      pieces joined. */
  lemma AppendAssoc<T>(a: seq<T>, b: seq<T>, c: seq<T>)
    ensures a + (b + c) == a + b + c
  {
  }

  /** A non-empty sequence is its front followed by its last element. */
  lemma InitLast<T>(s: seq<T>)
    requires |s| > 0
    ensures s[..|s| - 1] + [s[|s| - 1]] == s
  {
  }

  /** Dropping the last element of `a + b`, for a non-empty `b`, drops it
      from `b`. */
  lemma InitAppend<T>(a: seq<T>, b: seq<T>)
    requires |b| > 0
    ensures (a + b)[..|a + b| - 1] == a + b[..|b| - 1]
    ensures (a + b)[|a + b| - 1] == b[|b| - 1]
  {
  }

  /** The number of items over all groups, `sum(len(vs) for _, vs in groups)`. */
  function GroupTotal<K, V>(groups: seq<(K, seq<V>)>): nat
    decreases |groups|
  {
    if |groups| == 0 then 0 else |groups[0].1| + GroupTotal(groups[1..])
  }

  /** `[f(k, v) for k, vs in groups for v in vs]`: group after group, and
      within a group in the group's own order. */
  function FlatMapGroups<K, V, B>(groups: seq<(K, seq<V>)>, f: (K, V) -> B): (r: seq<B>)
    ensures |r| == GroupTotal(groups)
    decreases |groups|
  {
    if |groups| == 0 then []
    else
      var k := groups[0].0;
      var vs := groups[0].1;
      seq(|vs|, j requires 0 <= j < |vs| => f(k, vs[j])) + FlatMapGroups(groups[1..], f)
  }

  /** Counting the items of the first `i` groups peels off the first one. */
  lemma GroupTotalPrefix<K, V>(groups: seq<(K, seq<V>)>, i: nat)
    requires 0 < i <= |groups|
    ensures GroupTotal(groups[..i]) == |groups[0].1| + GroupTotal(groups[1..][..i - 1])
  {
    assert groups[..i][1..] == groups[1..][..i - 1];
    assert groups[..i][0] == groups[0];
  }

  /** Item `j` of group `i` lands at position (items of the groups before
      `i`) + `j`. */
  lemma {:induction false} FlatMapGroupsAt<K, V, B>(groups: seq<(K, seq<V>)>, f: (K, V) -> B, i: nat, j: nat)
    requires i < |groups| && j < |groups[i].1|
    ensures GroupTotal(groups[..i]) + j < GroupTotal(groups)
    ensures FlatMapGroups(groups, f)[GroupTotal(groups[..i]) + j] == f(groups[i].0, groups[i].1[j])
    decreases i
  {
    var vs := groups[0].1;
    var first := seq(|vs|, j requires 0 <= j < |vs| => f(groups[0].0, vs[j]));
    var rest := FlatMapGroups(groups[1..], f);
    assert FlatMapGroups(groups, f) == first + rest;
    if i == 0 {
      assert groups[..0] == [];
      assert first[j] == f(groups[0].0, vs[j]);
    } else {
      FlatMapGroupsAt(groups[1..], f, i - 1, j);
      GroupTotalPrefix(groups, i);
      var k := GroupTotal(groups[1..][..i - 1]) + j;
      assert (first + rest)[|first| + k] == rest[k];
      assert groups[1..][i - 1] == groups[i];
    }
  }

  /** Every item of the result satisfies `p` when every value of `f` does. */
  lemma {:induction false} FlatMapGroupsAll<K, V, B>(groups: seq<(K, seq<V>)>, f: (K, V) -> B, p: B -> bool)
    requires forall k, v :: p(f(k, v))
    ensures forall x :: x in FlatMapGroups(groups, f) ==> p(x)
    decreases |groups|
  {
    if |groups| > 0 {
      FlatMapGroupsAll(groups[1..], f, p);
    }
  }
}
