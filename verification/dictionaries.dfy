/**
 * A dictionary literal written as a sequence of groups of entries, read in
 * order. Python's `{...}` display builds its dictionary entry by entry, so a
 * key written twice keeps the value written last; these facts connect the
 * built map to the groups it was written from.
 */
module Dictionaries {
  /**
   * The map a dictionary display builds from the entries of `hs[..n]`,
   * written in that order: a key written again later overrides the earlier
   * value.
   */
  function UnionPrefix<K, V>(hs: seq<map<K, V>>, n: nat): map<K, V>
    requires n <= |hs|
  {
    if n == 0 then map[] else UnionPrefix(hs, n - 1) + hs[n - 1]
  }

  /** The map built from all of `hs`. */
  function Union<K, V>(hs: seq<map<K, V>>): map<K, V>
  {
    UnionPrefix(hs, |hs|)
  }

  /** The number of entries written in `hs[..n]`. */
  function EntryCount<K, V>(hs: seq<map<K, V>>, n: nat): nat
    requires n <= |hs|
  {
    if n == 0 then 0 else EntryCount(hs, n - 1) + |hs[n - 1]|
  }

  /** No key is written in two of the groups. */
  ghost predicate PairwiseDisjoint<K, V>(hs: seq<map<K, V>>)
  {
    forall i, j :: 0 <= i < j < |hs| ==> hs[i].Keys !! hs[j].Keys
  }

  /** A key of the built map is a key of one of the groups, and conversely. */
  lemma {:induction false} UnionKeys<K, V>(hs: seq<map<K, V>>, n: nat, k: K)
    requires n <= |hs|
    ensures k in UnionPrefix(hs, n) <==> exists i :: 0 <= i < n && k in hs[i]
  {
    if n > 0 {
      UnionKeys(hs, n - 1, k);
    }
  }

  /** An entry that no later group repeats keeps its value in the built map. */
  lemma {:induction false} UnionKeepsLastWriter<K, V>(hs: seq<map<K, V>>, n: nat, i: nat, k: K)
    requires i < n <= |hs| && k in hs[i]
    requires forall j :: i < j < n ==> k !in hs[j]
    ensures k in UnionPrefix(hs, n) && UnionPrefix(hs, n)[k] == hs[i][k]
  {
    if i < n - 1 {
      UnionKeepsLastWriter(hs, n - 1, i, k);
    }
  }

  /** Each group of `hs[..n]` writes only keys the groups before it did not. */
  ghost predicate OnlyNewKeys<K, V>(hs: seq<map<K, V>>, n: nat)
    requires n <= |hs|
  {
    n == 0 || (OnlyNewKeys(hs, n - 1) && UnionPrefix(hs, n - 1).Keys !! hs[n - 1].Keys)
  }

  /** When no key is written twice, the built map has one key per entry. */
  lemma UnionSize<K, V>(hs: seq<map<K, V>>)
    requires PairwiseDisjoint(hs)
    ensures |Union(hs)| == EntryCount(hs, |hs|)
  {
    DisjointGroupsAddNewKeys(hs, |hs|);
    FreshUnionSize(hs, |hs|);
  }

  /** Pairwise disjoint groups each write only new keys. */
  lemma {:induction false} DisjointGroupsAddNewKeys<K, V>(hs: seq<map<K, V>>, n: nat)
    requires n <= |hs| && PairwiseDisjoint(hs)
    ensures OnlyNewKeys(hs, n)
  {
    if n > 0 {
      DisjointGroupsAddNewKeys(hs, n - 1);
      LaterGroupIsNew(hs, n - 1);
    }
  }

  /** A built map whose groups write only new keys has one key per entry. */
  lemma {:induction false} FreshUnionSize<K, V>(hs: seq<map<K, V>>, n: nat)
    requires n <= |hs| && OnlyNewKeys(hs, n)
    ensures |UnionPrefix(hs, n)| == EntryCount(hs, n)
  {
    if n > 0 {
      FreshUnionSize(hs, n - 1);
      DisjointMergeSize(UnionPrefix(hs, n - 1), hs[n - 1]);
    }
  }

  /** A group shares no key with the map built from the groups before it. */
  lemma LaterGroupIsNew<K, V>(hs: seq<map<K, V>>, n: nat)
    requires n < |hs| && PairwiseDisjoint(hs)
    ensures UnionPrefix(hs, n).Keys !! hs[n].Keys
  {
    forall k | k in UnionPrefix(hs, n)
      ensures k !in hs[n]
    {
      UnionKeys(hs, n, k);
      var i :| 0 <= i < n && k in hs[i];
      assert hs[i].Keys !! hs[n].Keys;
    }
  }

  /** Merging two maps with no common key adds their sizes. */
  lemma DisjointMergeSize<K, V>(a: map<K, V>, b: map<K, V>)
    requires a.Keys !! b.Keys
    ensures |a + b| == |a| + |b|
  {
    assert (a + b).Keys == a.Keys + b.Keys;
    assert |a + b| == |(a + b).Keys|;
  }
}
