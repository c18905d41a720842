/** Column sums, as `sum()` and `groupby(...).agg("sum")` compute them, and row-wise column maps. */
module Sums {
  /** The sum of `f` over the elements of `s`, taken left to right. */
  function SumBy<T>(s: seq<T>, f: T -> int): int
  {
    if |s| == 0 then 0 else SumBy(s[..|s| - 1], f) + f(s[|s| - 1])
  }

  /** Summing a concatenation sums the two parts. */
  lemma {:induction false} SumByAppend<T>(s: seq<T>, t: seq<T>, f: T -> int)
    ensures SumBy(s + t, f) == SumBy(s, f) + SumBy(t, f)
  {
    if |t| > 0 {
      var init := t[..|t| - 1];
      assert (s + t)[..|s + t| - 1] == s + init;
      SumByAppend(s, init, f);
    } else {
      assert s + t == s;
    }
  }

  /** The sum of one element. */
  lemma SumBySingleton<T>(x: T, f: T -> int)
    ensures SumBy([x], f) == f(x)
  {
    assert [x][..0] == [];
  }

  /** Two sequences whose elements contribute the same amounts, position by position, have the same sum. */
  lemma {:induction false} SumByPointwise<S, T>(s: seq<S>, f: S -> int, t: seq<T>, g: T -> int)
    requires |s| == |t|
    requires forall i :: 0 <= i < |s| ==> f(s[i]) == g(t[i])
    ensures SumBy(s, f) == SumBy(t, g)
  {
    if |s| > 0 {
      var n := |s| - 1;
      assert forall i :: 0 <= i < n ==> s[..n][i] == s[i] && t[..n][i] == t[i];
      SumByPointwise(s[..n], f, t[..n], g);
    }
  }

  /** `t` with its element at `j` taken out. */
  function RemoveAt<T>(t: seq<T>, j: nat): seq<T>
    requires j < |t|
  {
    t[..j] + t[j + 1..]
  }

  /** Taking out one element takes its occurrence out of the multiset. */
  lemma {:induction false} RemoveAtMultiset<T>(t: seq<T>, j: nat)
    requires j < |t|
    ensures multiset(RemoveAt(t, j)) == multiset(t) - multiset{t[j]}
  {
    assert t == t[..j] + [t[j]] + t[j + 1..];
  }

  /** `f` applied to every element of `s`, in order: a column transformed row by row. */
  function MapBy<S, T>(s: seq<S>, f: S -> T): (r: seq<T>)
    ensures |r| == |s|
    ensures forall i :: 0 <= i < |s| ==> r[i] == f(s[i])
  {
    if |s| == 0 then [] else MapBy(s[..|s| - 1], f) + [f(s[|s| - 1])]
  }

  /** Transforming a sequence with one element taken out loses exactly that element's image. */
  lemma {:induction false} MapByRemoveAt<S, T>(t: seq<S>, j: nat, f: S -> T)
    requires j < |t|
    ensures multiset(MapBy(t, f)) == multiset(MapBy(RemoveAt(t, j), f)) + multiset{f(t[j])}
  {
    var mapped := MapBy(t, f);
    assert MapBy(RemoveAt(t, j), f) == mapped[..j] + mapped[j + 1..];
    assert mapped == mapped[..j] + [mapped[j]] + mapped[j + 1..];
  }

  /** Transforming every element of two permutations of each other gives permutations of each other. */
  lemma {:induction false} MapByPermutation<S, T>(s: seq<S>, t: seq<S>, f: S -> T)
    requires multiset(s) == multiset(t)
    ensures multiset(MapBy(s, f)) == multiset(MapBy(t, f))
  {
    if |s| == 0 {
      assert |t| == |multiset(t)| == 0;
    } else {
      var x := s[|s| - 1];
      var init := s[..|s| - 1];
      assert s == init + [x];
      assert x in multiset(t);
      var j :| 0 <= j < |t| && t[j] == x;
      RemoveAtMultiset(t, j);
      assert multiset(init) == multiset(s) - multiset{x};
      MapByPermutation(init, RemoveAt(t, j), f);
      MapByRemoveAt(t, j, f);
      assert MapBy(s, f) == MapBy(init, f) + [f(x)];
    }
  }

  /** Taking out one element takes its term out of the sum. */
  lemma {:induction false} SumByRemoveAt<T>(t: seq<T>, j: nat, f: T -> int)
    requires j < |t|
    ensures SumBy(t, f) == SumBy(RemoveAt(t, j), f) + f(t[j])
  {
    calc {
      SumBy(t, f);
      { assert t == t[..j] + [t[j]] + t[j + 1..]; }
      SumBy(t[..j] + [t[j]] + t[j + 1..], f);
      { SumByInsert(t[..j], t[j], t[j + 1..], f); }
      SumBy(t[..j] + t[j + 1..], f) + f(t[j]);
    }
  }

  /** Inserting an element anywhere adds its term to the sum. */
  lemma {:induction false} SumByInsert<T>(front: seq<T>, x: T, back: seq<T>, f: T -> int)
    ensures SumBy(front + [x] + back, f) == SumBy(front + back, f) + f(x)
  {
    SumByAppend(front + [x], back, f);
    SumByAppend(front, [x], f);
    SumBySingleton(x, f);
    SumByAppend(front, back, f);
  }

  /** The sum does not depend on the order of the elements. */
  lemma {:induction false} SumByPermutation<T>(s: seq<T>, t: seq<T>, f: T -> int)
    requires multiset(s) == multiset(t)
    ensures SumBy(s, f) == SumBy(t, f)
  {
    if |s| == 0 {
      assert |t| == |multiset(t)| == 0;
    } else {
      var x := s[|s| - 1];
      var init := s[..|s| - 1];
      assert s == init + [x];
      assert x in multiset(t);
      var j :| 0 <= j < |t| && t[j] == x;
      RemoveAtMultiset(t, j);
      assert multiset(init) == multiset(s) - multiset{x};
      SumByPermutation(init, RemoveAt(t, j), f);
      SumByRemoveAt(t, j, f);
    }
  }
}
