/** Aggregation of the pending updates, which are kept in a map and visited in no particular order.
    The loops agree with a definition that does not depend on that order. */
module PendingAggregate {
  import opened Text
  import opened Core
  import opened RealSeq
  import OrderStats
  import Npy

  /** The real value of a float32 bit pattern, its product with a sample count, and rounding back to
      float32. The loops hold for any of them; `Exact` says that the product is one. */
  datatype Floats = Floats(toReal: Npy.F32 -> real, weigh: (Npy.F32, nat) -> real, round32: real -> Npy.F32)

  ghost predicate Exact(fl: Floats)
  {
    forall v, w :: fl.weigh(v, w) == OrderStats.Product(fl.toReal(v), w as real)
  }

  /** The values of `f` below `n`. */
  function Row(f: nat -> Npy.F32, n: nat): (r: seq<Npy.F32>)
    ensures |r| == n && forall d :: 0 <= d < n ==> r[d] == f(d)
  {
    if n == 0 then [] else Row(f, n - 1) + [f(n - 1)]
  }

  // ----- maps listed in some order

  /** `ks` lists the keys, each once. */
  ghost predicate Lists(ks: seq<string>, keys: set<string>)
  {
    && (forall i, j :: 0 <= i < j < |ks| ==> ks[i] != ks[j])
    && (forall k :: k in ks <==> k in keys)
  }

  ghost function Enumerate(keys: set<string>): (ks: seq<string>)
    ensures Lists(ks, keys)
  {
    if keys == {} then []
    else
      var k :| k in keys;
      var rest := Enumerate(keys - {k});
      assert forall x :: x in rest + [k] <==> x in keys;
      rest + [k]
  }

  function Listed(m: map<string, real>, ks: seq<string>): (s: seq<real>)
    requires forall k :: k in ks ==> k in m
    ensures |s| == |ks| && forall i :: 0 <= i < |ks| ==> s[i] == m[ks[i]]
  {
    seq(|ks|, i requires 0 <= i < |ks| => m[ks[i]])
  }

  lemma RemoveListed(m: map<string, real>, ks: seq<string>, j: nat)
    requires Lists(ks, m.Keys) && j < |ks|
    ensures Lists(ks[..j] + ks[j + 1..], m.Keys - {ks[j]})
    ensures multiset(Listed(m, ks)) == multiset(Listed(m, ks[..j] + ks[j + 1..])) + multiset{m[ks[j]]}
  {
    var rest := ks[..j] + ks[j + 1..];
    forall k ensures k in rest <==> k in m.Keys - {ks[j]} {
      if k in ks && k != ks[j] {
        var i :| 0 <= i < |ks| && ks[i] == k;
        assert rest[if i < j then i else i - 1] == k;
      }
    }
    assert Listed(m, rest) == RemoveAt(Listed(m, ks), j);
  }

  lemma NothingListed(ls: seq<string>)
    requires Lists(ls, {})
    ensures ls == []
  {
    var first := if |ls| > 0 then ls[0] else "";
    assert first !in ls;
  }

  lemma ListedFewer(m: map<string, real>, k: string, ks: seq<string>)
    requires forall x :: x in ks ==> x in m && x != k
    ensures Listed(m, ks) == Listed(m - {k}, ks)
  {
  }

  /** Two listings of one map have the same values. */
  lemma {:induction false} OrderIrrelevant(m: map<string, real>, ks: seq<string>, ls: seq<string>)
    requires Lists(ks, m.Keys) && Lists(ls, m.Keys)
    ensures SameElements(Listed(m, ks), Listed(m, ls))
    decreases |m.Keys|, 0
  {
    if m.Keys == {} {
      NothingListed(ks);
      NothingListed(ls);
    } else {
      var k :| k in m.Keys;
      var i :| 0 <= i < |ks| && ks[i] == k;
      var j :| 0 <= j < |ls| && ls[j] == k;
      RemoveListed(m, ks, i);
      RemoveListed(m, ls, j);
      OrderWithout(m, k, ks[..i] + ks[i + 1..], ls[..j] + ls[j + 1..]);
    }
  }

  lemma {:induction false} OrderWithout(m: map<string, real>, k: string, ks: seq<string>, ls: seq<string>)
    requires k in m && Lists(ks, m.Keys - {k}) && Lists(ls, m.Keys - {k})
    ensures SameElements(Listed(m, ks), Listed(m, ls))
    decreases |m.Keys| - 1, 1
  {
    assert (m - {k}).Keys == m.Keys - {k} && |m.Keys - {k}| == |m.Keys| - 1;
    ListedFewer(m, k, ks);
    ListedFewer(m, k, ls);
    OrderIrrelevant(m - {k}, ks, ls);
  }

  /** The values of a map, in the order of the reference enumeration. */
  ghost function Values(m: map<string, real>): (s: seq<real>)
    ensures s == Listed(m, Enumerate(m.Keys))
  {
    Listed(m, Enumerate(m.Keys))
  }

  // ----- the reference

  predicate WellShaped(updates: map<string, Update>, n: nat)
  {
    updates != map[] && n > 0 && forall k :: k in updates ==> |updates[k].values| == n
  }

  predicate AllFinite(updates: map<string, Update>)
  {
    forall k :: k in updates ==> Npy.AllFinite(updates[k].values)
  }

  predicate Weighted(updates: map<string, Update>)
  {
    forall k :: k in updates ==> updates[k].samples > 0
  }

  /** Coordinate `d` of every update. */
  function Column(fl: Floats, updates: map<string, Update>, d: nat): (m: map<string, real>)
    ensures m.Keys == updates.Keys
  {
    map k | k in updates :: if d < |updates[k].values| then fl.toReal(updates[k].values[d]) else 0.0
  }

  function Weights(updates: map<string, Update>): (m: map<string, real>)
    ensures m.Keys == updates.Keys
  {
    map k | k in updates :: updates[k].samples as real
  }

  function Products(fl: Floats, updates: map<string, Update>, d: nat): (m: map<string, real>)
    ensures m.Keys == updates.Keys
  {
    map k | k in updates :: if d < |updates[k].values| then fl.weigh(updates[k].values[d], updates[k].samples) else 0.0
  }

  lemma NonEmptyValues(m: map<string, real>)
    requires m != map[]
    ensures Values(m) != []
  {
    var k :| k in m.Keys;
    assert k in Enumerate(m.Keys);
  }

  /** The rounded median of coordinate `d`. */
  ghost function MedianOf(fl: Floats, updates: map<string, Update>, d: nat): Npy.F32
  {
    var values := Values(Column(fl, updates, d));
    if values == [] then 0 else fl.round32(OrderStats.Median(values))
  }

  ghost function MedianAt(fl: Floats, updates: map<string, Update>): nat -> Npy.F32
  {
    (d: nat) => MedianOf(fl, updates, d)
  }

  ghost function MedianUpdates(fl: Floats, updates: map<string, Update>, n: nat): Option<seq<Npy.F32>>
  {
    if !WellShaped(updates, n) || !AllFinite(updates) then None else Some(Row(MedianAt(fl, updates), n))
  }

  ghost function TotalWeight(updates: map<string, Update>): real
  {
    Sum(Values(Weights(updates)))
  }

  /** The rounded weighted mean of coordinate `d`. */
  ghost function WeightedOf(fl: Floats, updates: map<string, Update>, d: nat): Npy.F32
  {
    var total := TotalWeight(updates);
    if total > 0.0 then fl.round32(Sum(Values(Products(fl, updates, d))) / total) else 0
  }

  ghost function WeightedAt(fl: Floats, updates: map<string, Update>): nat -> Npy.F32
  {
    (d: nat) => WeightedOf(fl, updates, d)
  }

  lemma {:induction false} PositiveSum(s: seq<real>)
    requires s != [] && forall i :: 0 <= i < |s| ==> s[i] > 0.0
    ensures Sum(s) > 0.0
  {
    if |s| > 1 {
      PositiveSum(s[..|s| - 1]);
    } else {
      assert s[..0] == [];
    }
  }

  lemma PositiveTotal(updates: map<string, Update>)
    requires updates != map[] && Weighted(updates)
    ensures TotalWeight(updates) > 0.0
  {
    var weights := Weights(updates);
    var k :| k in updates;
    assert k in weights;
    NonEmptyValues(weights);
    PositiveSum(Values(weights));
  }

  ghost function WeightedUpdates(fl: Floats, updates: map<string, Update>, n: nat): Option<seq<Npy.F32>>
  {
    if !WellShaped(updates, n) || !Weighted(updates) then None else Some(Row(WeightedAt(fl, updates), n))
  }

  lemma ListedSnoc(m: map<string, real>, ks: seq<string>, k: string)
    requires (forall x :: x in ks ==> x in m) && k in m
    ensures Listed(m, ks + [k]) == Listed(m, ks) + [m[k]]
  {
  }

  lemma SumSnoc(s: seq<real>, x: real)
    ensures Sum(s + [x]) == Sum(s) + x
  {
    assert (s + [x])[..|s|] == s;
  }

  lemma DotSnoc(v: seq<real>, w: seq<real>, x: real, y: real)
    requires |v| == |w|
    ensures OrderStats.Dot(v + [x], w + [y]) == OrderStats.Dot(v, w) + OrderStats.Product(x, y)
  {
    assert (v + [x])[..|v|] == v && (w + [y])[..|w|] == w;
  }

  lemma {:induction false} ProductsAreDot(fl: Floats, updates: map<string, Update>, d: nat, ks: seq<string>)
    requires Exact(fl) && forall k :: k in ks ==> k in updates && d < |updates[k].values|
    ensures Sum(Listed(Products(fl, updates, d), ks)) == OrderStats.Dot(Listed(Column(fl, updates, d), ks), Listed(Weights(updates), ks))
  {
    if ks != [] {
      var front, k := ks[..|ks| - 1], ks[|ks| - 1];
      ProductsAreDot(fl, updates, d, front);
      assert ks == front + [k];
      var p, c, w := Products(fl, updates, d), Column(fl, updates, d), Weights(updates);
      ListedSnoc(p, front, k);
      ListedSnoc(c, front, k);
      ListedSnoc(w, front, k);
      SumSnoc(Listed(p, front), p[k]);
      DotSnoc(Listed(c, front), Listed(w, front), c[k], w[k]);
    }
  }

  /** With exact products the second method is the mean weighted by sample counts. */
  lemma WeightedIsMean(fl: Floats, updates: map<string, Update>, n: nat, d: nat)
    requires Exact(fl) && WellShaped(updates, n) && Weighted(updates) && d < n
    ensures Sum(Values(Weights(updates))) > 0.0
    ensures WeightedOf(fl, updates, d) ==
            fl.round32(OrderStats.WeightedMean(Values(Column(fl, updates, d)), Values(Weights(updates))))
  {
    PositiveTotal(updates);
    ProductsAreDot(fl, updates, d, Enumerate(updates.Keys));
  }

  // ----- the loops

  lemma ListsSnoc(ks: seq<string>, keys: set<string>, k: string)
    requires Lists(ks, keys) && k !in keys
    ensures Lists(ks + [k], keys + {k})
  {
    forall x ensures x in ks + [k] <==> x in keys + {k} {
    }
  }

  lemma Visited(seen: seq<string>, all: set<string>, keys: set<string>, k: string)
    requires keys <= all && k in keys && Lists(seen, all - keys)
    ensures Lists(seen + [k], all - (keys - {k})) && all - (keys - {k}) == all - keys + {k}
  {
    ListsSnoc(seen, all - keys, k);
    assert all - (keys - {k}) == all - keys + {k};
  }

  /** Every coordinate below `n` has the values of the visited updates, in visiting order. */
  ghost predicate Gathered(fl: Floats, updates: map<string, Update>, columns: seq<seq<real>>, seen: seq<string>)
  {
    && (forall k :: k in seen ==> k in updates)
    && forall d :: 0 <= d < |columns| ==> columns[d] == Listed(Column(fl, updates, d), seen)
  }

  /** The inner loop: append one update to the columns, or stop at a non-finite value. */
  method AddToColumns(fl: Floats, updates: map<string, Update>, columns: array<seq<real>>, k: string, ghost seen: seq<string>)
    returns (ok: bool)
    requires k in updates && |updates[k].values| == columns.Length && Gathered(fl, updates, columns[..], seen)
    modifies columns
    ensures ok <==> Npy.AllFinite(updates[k].values)
    ensures ok ==> Gathered(fl, updates, columns[..], seen + [k])
  {
    var values := updates[k].values;
    ghost var start := columns[..];
    for d := 0 to columns.Length
      invariant forall i :: 0 <= i < d ==> Npy.Finite(values[i]) && columns[i] == start[i] + [fl.toReal(values[i])]
      invariant forall i :: d <= i < columns.Length ==> columns[i] == start[i]
    {
      if !Npy.Finite(values[d]) {
        return false;
      }
      columns[d] := columns[d] + [fl.toReal(values[d])];
    }
    forall d | 0 <= d < columns.Length ensures columns[d] == Listed(Column(fl, updates, d), seen + [k]) {
      ListedSnoc(Column(fl, updates, d), seen, k);
    }
    ok := true;
  }

  predicate Usable(u: Update, n: nat)
  {
    |u.values| == n && Npy.AllFinite(u.values)
  }

  /** Gather the columns update by update, in any order. */
  method GatherColumns(fl: Floats, updates: map<string, Update>, n: nat) returns (ok: bool, gathered: seq<seq<real>>, ghost seen: seq<string>)
    ensures ok <==> forall k :: k in updates ==> Usable(updates[k], n)
    ensures ok ==> |gathered| == n && Lists(seen, updates.Keys) && Gathered(fl, updates, gathered, seen)
  {
    var columns := new seq<real>[n](_ => []);
    var keys := updates.Keys;
    gathered, seen := [], [];
    while keys != {}
      modifies columns
      invariant keys <= updates.Keys && Lists(seen, updates.Keys - keys)
      invariant Gathered(fl, updates, columns[..], seen)
      invariant forall k :: k in updates.Keys - keys ==> Usable(updates[k], n)
      decreases |keys|
    {
      var k :| k in keys;
      if |updates[k].values| != n {
        assert !Usable(updates[k], n);
        return false, [], [];
      }
      ok := AddToColumns(fl, updates, columns, k, seen);
      if !ok {
        assert !Usable(updates[k], n);
        return false, [], [];
      }
      Visited(seen, updates.Keys, keys, k);
      seen, keys := seen + [k], keys - {k};
    }
    assert updates.Keys - keys == updates.Keys;
    ok, gathered := true, columns[..];
  }

  /** The median of each gathered column. */
  method AggregateMedian(fl: Floats, updates: map<string, Update>, n: nat) returns (r: Option<seq<Npy.F32>>)
    ensures r == MedianUpdates(fl, updates, n)
  {
    if updates == map[] || n == 0 {
      return None;
    }
    var ok, columns, seen := GatherColumns(fl, updates, n);
    assert ok <==> WellShaped(updates, n) && AllFinite(updates);
    if !ok {
      return None;
    }
    forall d | 0 <= d < n ensures columns[d] != [] && MedianAt(fl, updates)(d) == fl.round32(OrderStats.Median(columns[d])) {
      MedianOfListed(fl, updates, d, seen);
    }
    var result := MedianColumns(fl, columns, MedianAt(fl, updates));
    r := Some(result);
  }

  method MedianColumns(fl: Floats, columns: seq<seq<real>>, ghost f: nat -> Npy.F32) returns (result: seq<Npy.F32>)
    requires forall d :: 0 <= d < |columns| ==> columns[d] != [] && f(d) == fl.round32(OrderStats.Median(columns[d]))
    ensures result == Row(f, |columns|)
  {
    result := [];
    for d := 0 to |columns|
      invariant result == Row(f, d)
    {
      var value := MiddleValue(columns[d]);
      result := result + [fl.round32(value)];
    }
  }

  /** Sort, then the middle value or the mean of the two in the middle. */
  method MiddleValue(column: seq<real>) returns (value: real)
    requires column != []
    ensures value == OrderStats.Median(column)
  {
    var values := Sort(column);
    var middle := |values| / 2;
    value := if |values| % 2 == 1 then values[middle] else (values[middle - 1] + values[middle]) / 2.0;
  }

  lemma MedianOfListed(fl: Floats, updates: map<string, Update>, d: nat, seen: seq<string>)
    requires updates != map[] && Lists(seen, updates.Keys)
    ensures Listed(Column(fl, updates, d), seen) != []
    ensures MedianAt(fl, updates)(d) == fl.round32(OrderStats.Median(Listed(Column(fl, updates, d), seen)))
  {
    var column := Column(fl, updates, d);
    var k :| k in updates;
    assert k in seen;
    OrderIrrelevant(column, Enumerate(column.Keys), seen);
    OrderStats.MedianOrderIrrelevant(Values(column), Listed(column, seen));
  }

  // ----- weighted mean

  /** Running sums over the visited updates. */
  ghost predicate Summed(fl: Floats, updates: map<string, Update>, sums: seq<real>, total: real, seen: seq<string>)
  {
    && (forall k :: k in seen ==> k in updates)
    && total == Sum(Listed(Weights(updates), seen))
    && forall d :: 0 <= d < |sums| ==> sums[d] == Sum(Listed(Products(fl, updates, d), seen))
  }

  method AddToSums(fl: Floats, updates: map<string, Update>, sums: array<real>, total: real, k: string, ghost seen: seq<string>)
    returns (newTotal: real)
    requires k in updates && |updates[k].values| == sums.Length && Summed(fl, updates, sums[..], total, seen)
    modifies sums
    ensures Summed(fl, updates, sums[..], newTotal, seen + [k])
  {
    var values, weight := updates[k].values, updates[k].samples;
    newTotal := total + weight as real;
    ghost var start := sums[..];
    for d := 0 to sums.Length
      invariant forall i :: 0 <= i < d ==> sums[i] == start[i] + fl.weigh(values[i], weight)
      invariant forall i :: d <= i < sums.Length ==> sums[i] == start[i]
    {
      sums[d] := sums[d] + fl.weigh(values[d], weight);
    }
    SummedMore(fl, updates, start, sums[..], total, seen, k);
  }

  lemma SummedMore(fl: Floats, updates: map<string, Update>, start: seq<real>, sums: seq<real>, total: real, seen: seq<string>, k: string)
    requires k in updates && |updates[k].values| == |start| == |sums| && Summed(fl, updates, start, total, seen)
    requires forall i :: 0 <= i < |sums| ==> sums[i] == start[i] + fl.weigh(updates[k].values[i], updates[k].samples)
    ensures Summed(fl, updates, sums, total + updates[k].samples as real, seen + [k])
  {
    forall d | 0 <= d < |sums| ensures sums[d] == Sum(Listed(Products(fl, updates, d), seen + [k])) {
      OneMore(Products(fl, updates, d), seen, k);
    }
    OneMore(Weights(updates), seen, k);
  }

  lemma OneMore(m: map<string, real>, seen: seq<string>, k: string)
    requires (forall x :: x in seen ==> x in m) && k in m
    ensures Sum(Listed(m, seen + [k])) == Sum(Listed(m, seen)) + m[k]
  {
    ListedSnoc(m, seen, k);
    SumSnoc(Listed(m, seen), m[k]);
  }

  predicate Countable(u: Update, n: nat)
  {
    |u.values| == n && u.samples > 0
  }

  method GatherSums(fl: Floats, updates: map<string, Update>, n: nat) returns (ok: bool, sums: seq<real>, total: real, ghost seen: seq<string>)
    ensures ok <==> forall k :: k in updates ==> Countable(updates[k], n)
    ensures ok ==> |sums| == n && Lists(seen, updates.Keys) && Summed(fl, updates, sums, total, seen)
  {
    var running := new real[n](_ => 0.0);
    var keys := updates.Keys;
    sums, total, seen := [], 0.0, [];
    while keys != {}
      modifies running
      invariant keys <= updates.Keys && Lists(seen, updates.Keys - keys)
      invariant Summed(fl, updates, running[..], total, seen)
      invariant forall k :: k in updates.Keys - keys ==> Countable(updates[k], n)
      decreases |keys|
    {
      var k :| k in keys;
      if |updates[k].values| != n || updates[k].samples == 0 {
        assert !Countable(updates[k], n);
        return false, [], 0.0, [];
      }
      total := AddToSums(fl, updates, running, total, k, seen);
      Visited(seen, updates.Keys, keys, k);
      seen, keys := seen + [k], keys - {k};
    }
    assert updates.Keys - keys == updates.Keys;
    ok, sums := true, running[..];
  }

  lemma SumsAreReference(fl: Floats, updates: map<string, Update>, sums: seq<real>, total: real, seen: seq<string>, d: nat)
    requires Lists(seen, updates.Keys) && Summed(fl, updates, sums, total, seen) && d < |sums|
    ensures total == TotalWeight(updates) && sums[d] == Sum(Values(Products(fl, updates, d)))
  {
    OrderIrrelevant(Weights(updates), Enumerate(updates.Keys), seen);
    SumOrderIrrelevant(Values(Weights(updates)), Listed(Weights(updates), seen));
    OrderIrrelevant(Products(fl, updates, d), Enumerate(updates.Keys), seen);
    SumOrderIrrelevant(Values(Products(fl, updates, d)), Listed(Products(fl, updates, d), seen));
  }

  method AggregateWeighted(fl: Floats, updates: map<string, Update>, n: nat) returns (r: Option<seq<Npy.F32>>)
    ensures r == WeightedUpdates(fl, updates, n)
  {
    if updates == map[] || n == 0 {
      return None;
    }
    var ok, sums, total, seen := GatherSums(fl, updates, n);
    assert ok <==> WellShaped(updates, n) && Weighted(updates);
    if !ok {
      return None;
    }
    PositiveTotal(updates);
    forall d | 0 <= d < n ensures total > 0.0 && WeightedAt(fl, updates)(d) == fl.round32(sums[d] / total) {
      SumsAreReference(fl, updates, sums, total, seen, d);
    }
    assert total > 0.0 by {
      SumsAreReference(fl, updates, sums, total, seen, 0);
    }
    var result := DivideSums(fl, sums, total, WeightedAt(fl, updates));
    r := Some(result);
  }

  method DivideSums(fl: Floats, sums: seq<real>, total: real, ghost f: nat -> Npy.F32) returns (result: seq<Npy.F32>)
    requires total > 0.0 && forall d :: 0 <= d < |sums| ==> f(d) == fl.round32(sums[d] / total)
    ensures result == Row(f, |sums|)
  {
    result := [];
    for d := 0 to |sums|
      invariant result == Row(f, d)
    {
      result := result + [fl.round32(sums[d] / total)];
    }
  }
}
