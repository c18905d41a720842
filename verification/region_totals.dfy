/**
 * The grouping half of `displayMap` in plotting.py: store rows are grouped by
 * region into a table of per-region sums of profit and store count.
 *
 * `groupby("region")` drops rows whose region is missing and, by default,
 * sorts its keys; the table is therefore kept strictly sorted by region name,
 * which also makes every region appear exactly once.
 */
module RegionTotals {
  import opened Wrappers
  import opened Sums
  import opened StringOrder

  /** A row of `df_map`: the store's region (`None` when missing), its profit and its store count. */
  datatype StoreRow = StoreRow(region: Option<string>, totalProfit: int, storeCount: int)

  /** A row of `df_region`: a region and the sums of its rows. */
  datatype RegionTotal = RegionTotal(region: string, totalProfit: int, storeCount: int)

  /** The two summed columns. */
  datatype Column = TotalProfit | StoreCount

  /** The value of column `c` in a store row. */
  function RowAmount(row: StoreRow, c: Column): int
  {
    match c
    case TotalProfit => row.totalProfit
    case StoreCount => row.storeCount
  }

  /** The value of column `c` in a table row. */
  function EntryAmount(e: RegionTotal, c: Column): int
  {
    match c
    case TotalProfit => e.totalProfit
    case StoreCount => e.storeCount
  }

  /** What a row adds to the sum of column `c` for region `k`. */
  function InRegion(k: string, c: Column): StoreRow -> int
  {
    (row: StoreRow) => if row.region == Some(k) then RowAmount(row, c) else 0
  }

  /** What a row adds to the sum of column `c` over all rows that have a region. */
  function WithRegion(c: Column): StoreRow -> int
  {
    (row: StoreRow) => if row.region.Some? then RowAmount(row, c) else 0
  }

  /** What a table row adds to the sum of column `c` over the table. */
  function OfEntry(c: Column): RegionTotal -> int
  {
    (e: RegionTotal) => EntryAmount(e, c)
  }

  /** The sum of column `c` over the rows of region `k`. */
  function Tally(rows: seq<StoreRow>, k: string, c: Column): int
  {
    SumBy(rows, InRegion(k, c))
  }

  /** The regions named by some row; rows without a region name none. */
  function RegionsOf(rows: seq<StoreRow>): set<string>
  {
    if |rows| == 0 then {}
    else
      var last := rows[|rows| - 1];
      RegionsOf(rows[..|rows| - 1]) + (if last.region.Some? then {last.region.value} else {})
  }

  /** A region is named by the rows exactly when some row names it. */
  lemma {:induction false} RegionsOfMember(rows: seq<StoreRow>, x: string)
    ensures x in RegionsOf(rows) <==> exists i :: 0 <= i < |rows| && rows[i].region == Some(x)
  {
    if |rows| > 0 {
      var init := rows[..|rows| - 1];
      RegionsOfMember(init, x);
      if x in RegionsOf(init) {
        var i :| 0 <= i < |init| && init[i].region == Some(x);
        assert rows[i] == init[i];
      }
      if exists i :: 0 <= i < |rows| && rows[i].region == Some(x) {
        var i :| 0 <= i < |rows| && rows[i].region == Some(x);
        if i < |init| {
          assert init[i] == rows[i];
        }
      }
    }
  }

  /** The regions that have a row in the table. */
  function KeysOf(t: seq<RegionTotal>): set<string>
  {
    if |t| == 0 then {} else {t[0].region} + KeysOf(t[1..])
  }

  /** A region is a key of the table exactly when some row carries it. */
  lemma {:induction false} KeysOfMember(t: seq<RegionTotal>, x: string)
    ensures x in KeysOf(t) <==> exists i :: 0 <= i < |t| && t[i].region == x
  {
    if |t| > 0 {
      KeysOfMember(t[1..], x);
      if x in KeysOf(t[1..]) {
        var i :| 0 <= i < |t[1..]| && t[1..][i].region == x;
        assert t[i + 1] == t[1..][i];
      }
      if exists i :: 0 <= i < |t| && t[i].region == x {
        var i :| 0 <= i < |t| && t[i].region == x;
        if i > 0 {
          assert t[1..][i - 1] == t[i];
        }
      }
    }
  }

  /** Regions strictly increase down the table. */
  predicate Sorted(t: seq<RegionTotal>)
  {
    forall i, j :: 0 <= i < j < |t| ==> Less(t[i].region, t[j].region)
  }

  /** `region in table.index` followed by `table.loc[region]`: the row for `k`, if any. */
  function Lookup(t: seq<RegionTotal>, k: string): (r: Option<RegionTotal>)
    ensures r.Some? ==> r.value.region == k && r.value in t
    ensures r.Some? <==> k in KeysOf(t)
  {
    if |t| == 0 then None
    else if t[0].region == k then Some(t[0])
    else Lookup(t[1..], k)
  }

  /** A table row for `k` carrying `profit` and `stores` on top of `prior`, the row `k` had so far. */
  function Absorb(prior: Option<RegionTotal>, k: string, profit: int, stores: int): RegionTotal
  {
    match prior
    case None => RegionTotal(k, profit, stores)
    case Some(e) => RegionTotal(k, e.totalProfit + profit, e.storeCount + stores)
  }

  /** Adds one row of region `k` to a sorted table: updates `k`'s row, or inserts one in order. */
  function Merge(t: seq<RegionTotal>, k: string, profit: int, stores: int): (r: seq<RegionTotal>)
    requires Sorted(t)
    ensures Sorted(r)
    ensures KeysOf(r) == KeysOf(t) + {k}
  {
    if |t| == 0 then
      [RegionTotal(k, profit, stores)]
    else if t[0].region == k then
      var r := [Absorb(Some(t[0]), k, profit, stores)] + t[1..];
      assert r[1..] == t[1..];
      r
    else if Less(k, t[0].region) then
      var r := [RegionTotal(k, profit, stores)] + t;
      assert r[1..] == t;
      assert Sorted(r) by {
        forall j | 1 < j < |r|
          ensures Less(k, r[j].region)
        {
          LessTransitive(k, t[0].region, t[j - 1].region);
        }
      }
      r
    else
      SortedTail(t);
      var rest := Merge(t[1..], k, profit, stores);
      var r := [t[0]] + rest;
      assert r[1..] == rest;
      LessTotal(k, t[0].region);
      assert Sorted(r) by {
        forall j | 0 < j < |r|
          ensures Less(r[0].region, r[j].region)
        {
          KeysOfMember(rest, rest[j - 1].region);
          if rest[j - 1].region != k {
            KeysOfMember(t[1..], rest[j - 1].region);
            var m :| 0 <= m < |t[1..]| && t[1..][m].region == rest[j - 1].region;
            assert t[m + 1] == t[1..][m];
          }
        }
      }
      r
  }

  /** The tail of a sorted table is sorted. */
  lemma SortedTail(t: seq<RegionTotal>)
    requires Sorted(t) && |t| > 0
    ensures Sorted(t[1..])
  {
    forall i, j | 0 <= i < j < |t| - 1
      ensures Less(t[1..][i].region, t[1..][j].region)
    {
      assert t[1..][i] == t[i + 1] && t[1..][j] == t[j + 1];
    }
  }

  /** Adds one store row to the table; a row without a region is dropped, as `groupby` does. */
  function AddRow(t: seq<RegionTotal>, row: StoreRow): (r: seq<RegionTotal>)
    requires Sorted(t)
    ensures Sorted(r)
    ensures row.region.None? ==> r == t
    ensures KeysOf(r) == KeysOf(t) + (if row.region.Some? then {row.region.value} else {})
  {
    match row.region
    case None => t
    case Some(k) => Merge(t, k, row.totalProfit, row.storeCount)
  }

  /**
   * `df_map.groupby("region", as_index=False).agg(total_profit=("total_profit", "sum"),
   * store_count=("store_count", "sum"))`: one row per region named by the input,
   * in sorted order.
   */
  function Aggregate(rows: seq<StoreRow>): (t: seq<RegionTotal>)
    ensures Sorted(t)
    ensures KeysOf(t) == RegionsOf(rows)
  {
    if |rows| == 0 then []
    else
      AddRow(Aggregate(rows[..|rows| - 1]), rows[|rows| - 1])
  }

  /** In a sorted table, no region has two rows. */
  lemma SortedUnique(t: seq<RegionTotal>, i: nat, j: nat)
    requires Sorted(t) && i < |t| && j < |t| && i != j
    ensures t[i].region != t[j].region
  {
    if i < j {
      LessIrreflexive(t[i].region);
    } else {
      LessIrreflexive(t[j].region);
    }
  }

  /** Every row of the grouped table has a region of its own: each feature matches at most one row. */
  lemma AggregateKeysUnique(rows: seq<StoreRow>, i: nat, j: nat)
    requires i < |Aggregate(rows)| && j < |Aggregate(rows)| && i != j
    ensures Aggregate(rows)[i].region != Aggregate(rows)[j].region
  {
    SortedUnique(Aggregate(rows), i, j);
  }

  /** In a sorted table, the lookup of a row's region finds that row. */
  lemma {:induction false} LookupSorted(t: seq<RegionTotal>, i: nat)
    requires Sorted(t) && i < |t|
    ensures Lookup(t, t[i].region) == Some(t[i])
  {
    if i > 0 {
      SortedTail(t);
      SortedUnique(t, 0, i);
      assert t[1..][i - 1] == t[i];
      LookupSorted(t[1..], i - 1);
    }
  }

  /** A name that sorts before a sorted table's first region has no row in it. */
  lemma BelowHeadAbsent(t: seq<RegionTotal>, k: string)
    requires Sorted(t) && |t| > 0 && Less(k, t[0].region)
    ensures Lookup(t, k) == None
  {
    if Lookup(t, k).Some? {
      KeysOfMember(t, k);
      var i :| 0 <= i < |t| && t[i].region == k;
      if i == 0 {
        LessIrreflexive(k);
      } else {
        LessAsymmetric(k, t[0].region);
      }
    }
  }

  /** How merging a row for `k` changes each lookup. */
  lemma {:induction false} MergeLookup(t: seq<RegionTotal>, k: string, profit: int, stores: int, j: string)
    requires Sorted(t)
    ensures Lookup(Merge(t, k, profit, stores), j)
         == if j == k then Some(Absorb(Lookup(t, k), k, profit, stores)) else Lookup(t, j)
  {
    var r := Merge(t, k, profit, stores);
    if |t| == 0 {
    } else if t[0].region == k {
      assert r[1..] == t[1..];
    } else if Less(k, t[0].region) {
      assert r[1..] == t;
      BelowHeadAbsent(t, k);
    } else {
      SortedTail(t);
      MergeLookup(t[1..], k, profit, stores, j);
      assert r[1..] == Merge(t[1..], k, profit, stores);
    }
  }

  /** Appending a row adds its amount to region `k`'s sum when the row is in `k`. */
  lemma TallySnoc(rows: seq<StoreRow>, k: string, c: Column)
    requires |rows| > 0
    ensures Tally(rows, k, c)
         == Tally(rows[..|rows| - 1], k, c)
            + (if rows[|rows| - 1].region == Some(k) then RowAmount(rows[|rows| - 1], c) else 0)
  {
  }

  /** A row that names no region, or another region, adds nothing to region `k`'s sums. */
  lemma TallyOfAbsent(rows: seq<StoreRow>, k: string, c: Column)
    requires k !in RegionsOf(rows)
    ensures Tally(rows, k, c) == 0
    decreases |rows|
  {
    if |rows| > 0 {
      TallySnoc(rows, k, c);
      TallyOfAbsent(rows[..|rows| - 1], k, c);
    }
  }

  /** What the table says about `k`: the sums over `k`'s rows if `rows` names `k`, and nothing otherwise. */
  predicate Describes(t: seq<RegionTotal>, rows: seq<StoreRow>, k: string)
  {
    Lookup(t, k)
      == if k in RegionsOf(rows)
         then Some(RegionTotal(k, Tally(rows, k, TotalProfit), Tally(rows, k, StoreCount)))
         else None
  }

  /** A last row of region `k`, the first of its region, starts `k`'s row. */
  lemma {:induction false} AbsorbFirst(rows: seq<StoreRow>, k: string)
    requires |rows| > 0 && rows[|rows| - 1].region == Some(k)
    requires k !in RegionsOf(rows[..|rows| - 1])
    requires Lookup(Aggregate(rows[..|rows| - 1]), k) == None
    ensures Lookup(Aggregate(rows), k) == Some(RegionTotal(k, Tally(rows, k, TotalProfit), Tally(rows, k, StoreCount)))
  {
    var init, last := rows[..|rows| - 1], rows[|rows| - 1];
    TallySnoc(rows, k, TotalProfit);
    TallySnoc(rows, k, StoreCount);
    TallyOfAbsent(init, k, TotalProfit);
    TallyOfAbsent(init, k, StoreCount);
    MergeLookup(Aggregate(init), k, last.totalProfit, last.storeCount, k);
  }

  /** A last row of region `k`, which already has a row, is added to it. */
  lemma {:induction false} AbsorbMore(rows: seq<StoreRow>, k: string)
    requires |rows| > 0 && rows[|rows| - 1].region == Some(k)
    requires Lookup(Aggregate(rows[..|rows| - 1]), k)
          == Some(RegionTotal(k, Tally(rows[..|rows| - 1], k, TotalProfit), Tally(rows[..|rows| - 1], k, StoreCount)))
    ensures Lookup(Aggregate(rows), k) == Some(RegionTotal(k, Tally(rows, k, TotalProfit), Tally(rows, k, StoreCount)))
  {
    var init, last := rows[..|rows| - 1], rows[|rows| - 1];
    calc {
      Lookup(Aggregate(rows), k);
      Lookup(Merge(Aggregate(init), k, last.totalProfit, last.storeCount), k);
      { MergeLookup(Aggregate(init), k, last.totalProfit, last.storeCount, k); }
      Some(Absorb(Lookup(Aggregate(init), k), k, last.totalProfit, last.storeCount));
      Some(RegionTotal(k, Tally(init, k, TotalProfit) + last.totalProfit, Tally(init, k, StoreCount) + last.storeCount));
      { TallySnoc(rows, k, TotalProfit); TallySnoc(rows, k, StoreCount); }
      Some(RegionTotal(k, Tally(rows, k, TotalProfit), Tally(rows, k, StoreCount)));
    }
  }

  /** A last row of another region, or of none, leaves `k`'s row as it was. */
  lemma {:induction false} SkipLast(rows: seq<StoreRow>, k: string)
    requires |rows| > 0 && rows[|rows| - 1].region != Some(k)
    requires Describes(Aggregate(rows[..|rows| - 1]), rows[..|rows| - 1], k)
    ensures Describes(Aggregate(rows), rows, k)
  {
    var init, last := rows[..|rows| - 1], rows[|rows| - 1];
    TallySnoc(rows, k, TotalProfit);
    TallySnoc(rows, k, StoreCount);
    if last.region.Some? {
      MergeLookup(Aggregate(init), last.region.value, last.totalProfit, last.storeCount, k);
    }
  }

  /**
   * Each region of the input has exactly one table row, holding the sums of
   * `total_profit` and `store_count` over that region's rows; any other name has none.
   */
  lemma {:induction false} AggregateLookup(rows: seq<StoreRow>, k: string)
    ensures Lookup(Aggregate(rows), k)
         == if k in RegionsOf(rows)
            then Some(RegionTotal(k, Tally(rows, k, TotalProfit), Tally(rows, k, StoreCount)))
            else None
  {
    if |rows| > 0 {
      AggregateLookup(rows[..|rows| - 1], k);
      if rows[|rows| - 1].region == Some(k) {
        if k in RegionsOf(rows[..|rows| - 1]) {
          AbsorbMore(rows, k);
        } else {
          AbsorbFirst(rows, k);
        }
      } else {
        SkipLast(rows, k);
      }
    }
  }

  /** The sum of column `c` over a table. */
  function TableSum(t: seq<RegionTotal>, c: Column): int
  {
    SumBy(t, OfEntry(c))
  }

  /** Merging a row adds its amount to the table's column sum. */
  lemma {:induction false} MergeSum(t: seq<RegionTotal>, k: string, profit: int, stores: int, c: Column)
    requires Sorted(t)
    ensures TableSum(Merge(t, k, profit, stores), c)
         == TableSum(t, c) + (match c case TotalProfit => profit case StoreCount => stores)
  {
    var r := Merge(t, k, profit, stores);
    if |t| == 0 {
      SumBySingleton(RegionTotal(k, profit, stores), OfEntry(c));
    } else if t[0].region == k {
      SumByAppend([r[0]], t[1..], OfEntry(c));
      SumByAppend([t[0]], t[1..], OfEntry(c));
      SumBySingleton(r[0], OfEntry(c));
      SumBySingleton(t[0], OfEntry(c));
      assert t == [t[0]] + t[1..];
    } else if Less(k, t[0].region) {
      SumByAppend([r[0]], t, OfEntry(c));
      SumBySingleton(r[0], OfEntry(c));
    } else {
      SortedTail(t);
      MergeSum(t[1..], k, profit, stores, c);
      SumByAppend([t[0]], Merge(t[1..], k, profit, stores), OfEntry(c));
      SumByAppend([t[0]], t[1..], OfEntry(c));
      SumBySingleton(t[0], OfEntry(c));
      assert t == [t[0]] + t[1..];
    }
  }

  /** Grouping keeps the grand totals of the rows that have a region. */
  lemma {:induction false} AggregateSum(rows: seq<StoreRow>, c: Column)
    ensures TableSum(Aggregate(rows), c) == SumBy(rows, WithRegion(c))
  {
    if |rows| > 0 {
      var init := rows[..|rows| - 1];
      var last := rows[|rows| - 1];
      AggregateSum(init, c);
      if last.region.Some? {
        MergeSum(Aggregate(init), last.region.value, last.totalProfit, last.storeCount, c);
      }
    }
  }

  /** When every row has a region, the table's totals are the column totals. */
  lemma {:induction false} WithRegionIsAll(rows: seq<StoreRow>, c: Column)
    requires forall i :: 0 <= i < |rows| ==> rows[i].region.Some?
    ensures SumBy(rows, WithRegion(c)) == SumBy(rows, (row: StoreRow) => RowAmount(row, c))
  {
    if |rows| > 0 {
      WithRegionIsAll(rows[..|rows| - 1], c);
    }
  }

  /** Two sorted tables that agree on every lookup are the same table. */
  lemma {:induction false} SortedCanonical(t1: seq<RegionTotal>, t2: seq<RegionTotal>)
    requires Sorted(t1) && Sorted(t2)
    requires forall k :: Lookup(t1, k) == Lookup(t2, k)
    ensures t1 == t2
  {
    if |t1| == 0 {
      if |t2| > 0 {
        LookupSorted(t2, 0);
      }
    } else if |t2| == 0 {
      LookupSorted(t1, 0);
    } else {
      var a, b := t1[0].region, t2[0].region;
      LookupSorted(t1, 0);
      LookupSorted(t2, 0);
      KeysOfMember(t2, a);
      KeysOfMember(t1, b);
      var i :| 0 <= i < |t2| && t2[i].region == a;
      var j :| 0 <= j < |t1| && t1[j].region == b;
      LookupSorted(t2, i);
      LookupSorted(t1, j);
      if i > 0 && j > 0 {
        LessAsymmetric(a, b);
      }
      assert t1[0] == t2[0];
      SortedTail(t1);
      SortedTail(t2);
      forall k
        ensures Lookup(t1[1..], k) == Lookup(t2[1..], k)
      {
        if k == a {
          HeadNotInTail(t1);
          HeadNotInTail(t2);
        } else {
          assert Lookup(t1, k) == Lookup(t1[1..], k);
          assert Lookup(t2, k) == Lookup(t2[1..], k);
        }
      }
      SortedCanonical(t1[1..], t2[1..]);
      assert t1 == [t1[0]] + t1[1..] && t2 == [t2[0]] + t2[1..];
    }
  }

  /** The first region of a sorted table does not come back further down. */
  lemma HeadNotInTail(t: seq<RegionTotal>)
    requires Sorted(t) && |t| > 0
    ensures t[0].region !in KeysOf(t[1..])
  {
    KeysOfMember(t[1..], t[0].region);
    if t[0].region in KeysOf(t[1..]) {
      var m :| 0 <= m < |t[1..]| && t[1..][m].region == t[0].region;
      assert t[m + 1] == t[1..][m];
      SortedUnique(t, 0, m + 1);
    }
  }

  /** The table does not depend on the order of the input rows. */
  lemma AggregateOrderIndependent(a: seq<StoreRow>, b: seq<StoreRow>)
    requires multiset(a) == multiset(b)
    ensures Aggregate(a) == Aggregate(b)
  {
    assert RegionsOf(a) == RegionsOf(b) by {
      forall x | x in RegionsOf(a) ensures x in RegionsOf(b) {
        RegionsOfMember(a, x);
        RegionsOfMember(b, x);
        var i :| 0 <= i < |a| && a[i].region == Some(x);
        assert a[i] in multiset(b);
      }
      forall x | x in RegionsOf(b) ensures x in RegionsOf(a) {
        RegionsOfMember(a, x);
        RegionsOfMember(b, x);
        var i :| 0 <= i < |b| && b[i].region == Some(x);
        assert b[i] in multiset(a);
      }
    }
    forall k
      ensures Lookup(Aggregate(a), k) == Lookup(Aggregate(b), k)
    {
      AggregateLookup(a, k);
      AggregateLookup(b, k);
      SumByPermutation(a, b, InRegion(k, TotalProfit));
      SumByPermutation(a, b, InRegion(k, StoreCount));
    }
    SortedCanonical(Aggregate(a), Aggregate(b));
  }
}
