/** The two selection algorithms the robust aggregators rely on, specified by what
    they guarantee: `NthElement` partitions a buffer around its k-th smallest value and
    `PartialSort` puts the k best-scored indices first, ties broken by index. */
module Selection {

  /** Everything left of `k` is at most everything from `k` on. */
  predicate Split(s: seq<real>, k: int)
  {
    forall i, j :: 0 <= i < k <= j < |s| ==> s[i] <= s[j]
  }

  method Swap<T>(a: array<T>, i: nat, j: nat)
    requires i < a.Length && j < a.Length
    modifies a
    ensures a[..] == Swapped(old(a[..]), i, j)
  {
    a[i], a[j] := a[j], a[i];
  }

  function Swapped<T>(s: seq<T>, i: nat, j: nat): (r: seq<T>)
    requires i < |s| && j < |s|
    ensures |r| == |s| && r[i] == s[j] && r[j] == s[i]
    ensures forall k :: 0 <= k < |s| && k != i && k != j ==> r[k] == s[k]
    ensures multiset(r) == multiset(s)
  {
    s[i := s[j]][j := s[i]]
  }

  /** `t` differs from `s` only by a rearrangement of the positions `lo..hi`. */
  ghost predicate Rearranged(s: seq<real>, t: seq<real>, lo: nat, hi: nat)
  {
    && lo <= hi <= |s| == |t|
    && t[..lo] == s[..lo] && t[hi..] == s[hi..]
    && multiset(t[lo..hi]) == multiset(s[lo..hi])
  }

  lemma SwapRearranges(s: seq<real>, t: seq<real>, lo: nat, hi: nat, i: nat, j: nat)
    requires Rearranged(s, t, lo, hi) && lo <= i < hi && lo <= j < hi
    ensures Rearranged(s, Swapped(t, i, j), lo, hi)
  {
    assert Swapped(t, i, j)[lo..hi] == Swapped(t[lo..hi], i - lo, j - lo);
  }

  lemma RearrangedElement(s: seq<real>, t: seq<real>, lo: nat, hi: nat, j: nat) returns (k: nat)
    requires Rearranged(s, t, lo, hi) && lo <= j < hi
    ensures lo <= k < hi && s[k] == t[j]
  {
    assert t[lo..hi][j - lo] in multiset(t[lo..hi]);
    assert t[j] in s[lo..hi];
    var k' :| 0 <= k' < hi - lo && s[lo..hi][k'] == t[j];
    k := lo + k';
  }

  lemma RearrangedOutside(s: seq<real>, t: seq<real>, lo: nat, hi: nat, j: nat)
    requires Rearranged(s, t, lo, hi) && (j < lo || hi <= j < |s|)
    ensures t[j] == s[j]
  {
    if j < lo {
      assert t[..lo][j] == s[..lo][j];
    } else {
      assert t[hi..][j - hi] == s[hi..][j - hi];
    }
  }

  /** Rearranging a segment keeps every split at or outside its ends. */
  lemma RearrangedKeepsSplit(s: seq<real>, t: seq<real>, lo: nat, hi: nat, k: int)
    requires Rearranged(s, t, lo, hi) && Split(s, k) && (k <= lo || hi <= k)
    ensures Split(t, k)
  {
    forall i, j | 0 <= i < k <= j < |t| ensures t[i] <= t[j] {
      var i', j' := i, j;
      if lo <= i < hi { i' := RearrangedElement(s, t, lo, hi, i); } else { RearrangedOutside(s, t, lo, hi, i); }
      if lo <= j < hi { j' := RearrangedElement(s, t, lo, hi, j); } else { RearrangedOutside(s, t, lo, hi, j); }
      assert s[i'] <= s[j'];
    }
  }

  lemma RearrangedSameElements(s: seq<real>, t: seq<real>, lo: nat, hi: nat)
    requires Rearranged(s, t, lo, hi)
    ensures multiset(s) == multiset(t)
  {
    assert s == s[..lo] + s[lo..hi] + s[hi..];
    assert t == t[..lo] + t[lo..hi] + t[hi..];
  }

  /** `s[lo..p]` is at most the pivot and `s[p..j]` at least the pivot. */
  predicate Scanned(s: seq<real>, lo: nat, hi: nat, p: nat, j: nat, pivot: real)
  {
    && lo <= p <= j < hi <= |s|
    && s[hi - 1] == pivot
    && (forall i :: lo <= i < p ==> s[i] <= pivot)
    && (forall i :: p <= i < j ==> pivot <= s[i])
  }

  lemma ScanStep(s: seq<real>, lo: nat, hi: nat, p: nat, j: nat, pivot: real)
    requires Scanned(s, lo, hi, p, j, pivot) && j < hi - 1
    ensures s[j] < pivot ==> Scanned(Swapped(s, p, j), lo, hi, p + 1, j + 1, pivot)
    ensures !(s[j] < pivot) ==> Scanned(s, lo, hi, p, j + 1, pivot)
  {
  }

  /** `s` is divided around position `p` within `lo..hi`. */
  predicate Divided(s: seq<real>, lo: nat, hi: nat, p: nat)
  {
    && lo <= p < hi <= |s|
    && (forall i :: lo <= i < p ==> s[i] <= s[p])
    && (forall i :: p < i < hi ==> s[p] <= s[i])
  }

  lemma ScanEnd(s: seq<real>, lo: nat, hi: nat, p: nat, pivot: real)
    requires hi > 0 && Scanned(s, lo, hi, p, hi - 1, pivot)
    ensures Divided(Swapped(s, p, hi - 1), lo, hi, p)
  {
  }

  /** Lomuto partition of `a[lo..hi]` around its last value. */
  method Partition(a: array<real>, lo: nat, hi: nat) returns (p: nat)
    requires lo < hi <= a.Length
    modifies a
    ensures Rearranged(old(a[..]), a[..], lo, hi) && Divided(a[..], lo, hi, p)
  {
    p := lo;
    ghost var s, g := a[..], a[..];
    var pivot := a[hi - 1];
    for j := lo to hi - 1
      invariant a[..] == g && Scanned(g, lo, hi, p, j, pivot) && Rearranged(s, g, lo, hi)
    {
      ScanStep(g, lo, hi, p, j, pivot);
      if a[j] < pivot {
        SwapRearranges(s, g, lo, hi, p, j);
        Swap(a, p, j);
        g, p := Swapped(g, p, j), p + 1;
      }
    }
    SwapRearranges(s, g, lo, hi, p, hi - 1);
    ScanEnd(g, lo, hi, p, pivot);
    Swap(a, p, hi - 1);
  }

  lemma DividedSplits(s: seq<real>, lo: nat, hi: nat, p: nat)
    requires Divided(s, lo, hi, p) && Split(s, lo) && Split(s, hi)
    ensures Split(s, p) && Split(s, p + 1)
  {
  }

  /** `std::nth_element`: afterwards `a[k]` is the k-th smallest value, nothing before it
      is larger and nothing after it is smaller. */
  method NthElement(a: array<real>, k: nat)
    requires k < a.Length
    modifies a
    ensures Split(a[..], k) && Split(a[..], k + 1)
    ensures multiset(a[..]) == multiset(old(a[..]))
  {
    var lo, hi := 0, a.Length;
    while hi - lo > 1
      invariant 0 <= lo <= k < hi <= a.Length
      invariant Split(a[..], lo) && Split(a[..], hi)
      invariant multiset(a[..]) == multiset(old(a[..]))
    {
      ghost var s := a[..];
      var p := Partition(a, lo, hi);
      RearrangedKeepsSplit(s, a[..], lo, hi, lo);
      RearrangedKeepsSplit(s, a[..], lo, hi, hi);
      RearrangedSameElements(s, a[..], lo, hi);
      DividedSplits(a[..], lo, hi, p);
      if p == k {
        return;
      } else if k < p {
        hi := p;
      } else {
        lo := p + 1;
      }
    }
  }

  // ----- choosing the best-scored indices

  predicate Before(scores: seq<real>, x: nat, y: nat)
    requires x < |scores| && y < |scores|
  {
    if scores[x] == scores[y] then x < y else scores[x] < scores[y]
  }

  /** `chosen` lists the |chosen| best indices of `scores`, best first. */
  predicate BestFirst(scores: seq<real>, chosen: seq<nat>)
  {
    && (forall i :: 0 <= i < |chosen| ==> chosen[i] < |scores|)
    && (forall i, j :: 0 <= i < j < |chosen| ==> Before(scores, chosen[i], chosen[j]))
    && (forall i, x :: 0 <= i < |chosen| && 0 <= x < |scores| && x !in chosen ==> Before(scores, chosen[i], x))
  }

  lemma BestFirstSamePrefix(scores: seq<real>, s: seq<nat>, t: seq<nat>, i: nat)
    requires BestFirst(scores, s) && BestFirst(scores, t)
    requires i < |s| && i < |t| && forall j :: 0 <= j < i ==> s[j] == t[j]
    ensures !Before(scores, s[i], t[i])
  {
    if s[i] in t {
      var j :| 0 <= j < |t| && t[j] == s[i];
      assert j >= i;
    } else {
      assert Before(scores, t[i], s[i]);
    }
  }

  /** Selection is determined by the scores: equally long selections coincide. */
  lemma BestFirstUnique(scores: seq<real>, s: seq<nat>, t: seq<nat>)
    requires BestFirst(scores, s) && BestFirst(scores, t) && |s| <= |t|
    ensures s == t[..|s|]
  {
    var i := 0;
    while i < |s|
      invariant 0 <= i <= |s|
      invariant forall j :: 0 <= j < i ==> s[j] == t[j]
    {
      BestFirstSamePrefix(scores, s, t, i);
      BestFirstSamePrefix(scores, t, s, i);
      i := i + 1;
    }
  }

  /** `idx` holds every index of `scores` exactly once. */
  predicate Arranged(scores: seq<real>, idx: seq<nat>)
  {
    && |idx| == |scores|
    && (forall i :: 0 <= i < |idx| ==> idx[i] < |scores|)
    && (forall i, j :: 0 <= i < j < |idx| ==> idx[i] != idx[j])
    && (forall x :: 0 <= x < |scores| ==> x in idx)
  }

  /** The first `k` entries are in order and precede all the others. */
  predicate Leading(scores: seq<real>, idx: seq<nat>, k: nat)
    requires forall i :: 0 <= i < |idx| ==> idx[i] < |scores|
  {
    forall p, q :: 0 <= p < k && p < q < |idx| ==> Before(scores, idx[p], idx[q])
  }

  lemma SwapKeepsArranged(scores: seq<real>, idx: seq<nat>, i: nat, j: nat)
    requires Arranged(scores, idx) && i < |idx| && j < |idx|
    ensures Arranged(scores, Swapped(idx, i, j))
  {
    var t := Swapped(idx, i, j);
    forall x | 0 <= x < |scores| ensures x in t {
      assert x in idx;
      var q :| 0 <= q < |idx| && idx[q] == x;
      assert t[if q == i then j else if q == j then i else q] == x;
    }
  }

  lemma SwapExtendsLeading(scores: seq<real>, idx: seq<nat>, i: nat, best: nat)
    requires Arranged(scores, idx) && Leading(scores, idx, i) && i <= best < |idx|
    requires forall q :: i <= q < |idx| && q != best ==> Before(scores, idx[best], idx[q])
    ensures Arranged(scores, Swapped(idx, i, best)) && Leading(scores, Swapped(idx, i, best), i + 1)
  {
    SwapKeepsArranged(scores, idx, i, best);
  }

  lemma LeadingIsBestFirst(scores: seq<real>, idx: seq<nat>, k: nat)
    requires Arranged(scores, idx) && k <= |idx| && Leading(scores, idx, k)
    ensures BestFirst(scores, idx[..k])
  {
    var chosen := idx[..k];
    forall i, x | 0 <= i < k && 0 <= x < |scores| && x !in chosen ensures Before(scores, chosen[i], x) {
      assert x in idx;
      var q :| 0 <= q < |idx| && idx[q] == x;
      assert forall p :: 0 <= p < k ==> chosen[p] == idx[p];
    }
  }

  method FindBest(scores: seq<real>, indices: array<nat>, from: nat) returns (best: nat)
    requires Arranged(scores, indices[..]) && from < indices.Length
    ensures from <= best < indices.Length
    ensures forall q :: from <= q < indices.Length && q != best ==> Before(scores, indices[best], indices[q])
  {
    best := from;
    for j := from + 1 to indices.Length
      invariant from <= best < j
      invariant forall q :: from <= q < j && q != best ==> Before(scores, indices[best], indices[q])
    {
      if Before(scores, indices[j], indices[best]) {
        best := j;
      }
    }
  }

  /** `std::partial_sort` of the indices 0..n-1 by (score, index), keeping the first `k`. */
  method PartialSort(scores: seq<real>, k: nat) returns (chosen: seq<nat>)
    requires k <= |scores|
    ensures |chosen| == k && BestFirst(scores, chosen)
  {
    var indices := new nat[|scores|](i => i);
    forall x | 0 <= x < |scores| ensures x in indices[..] {
      assert indices[..][x] == x;
    }
    for i := 0 to k
      invariant Arranged(scores, indices[..]) && Leading(scores, indices[..], i)
    {
      var best := FindBest(scores, indices, i);
      SwapExtendsLeading(scores, indices[..], i, best);
      Swap(indices, i, best);
    }
    LeadingIsBestFirst(scores, indices[..], k);
    chosen := indices[..][..k];
  }

  // ----- the reference: a stable argsort

  /** Inserts the index `x`, larger than all indices in `order`, behind every entry whose
      score is not larger. */
  function InsertStable(scores: seq<real>, order: seq<nat>, x: nat): (r: seq<nat>)
    requires x < |scores| && forall i :: 0 <= i < |order| ==> order[i] < x
    ensures |r| == |order| + 1
    ensures forall y :: y in r <==> y == x || y in order
  {
    if order == [] || scores[order[|order| - 1]] <= scores[x] then order + [x]
    else
      var m := |order| - 1;
      assert order == order[..m] + [order[m]];
      InsertStable(scores, order[..m], x) + [order[m]]
  }

  function StableArgsort(scores: seq<real>, n: nat): (r: seq<nat>)
    requires n <= |scores|
    ensures |r| == n && forall y :: y in r <==> 0 <= y < n
  {
    if n == 0 then []
    else
      var shorter := StableArgsort(scores, n - 1);
      assert forall i :: 0 <= i < |shorter| ==> shorter[i] in shorter;
      InsertStable(scores, shorter, n - 1)
  }

  predicate Increasing(scores: seq<real>, order: seq<nat>)
  {
    && (forall i :: 0 <= i < |order| ==> order[i] < |scores|)
    && (forall i, j :: 0 <= i < j < |order| ==> Before(scores, order[i], order[j]))
  }

  lemma IncreasingSnoc(scores: seq<real>, order: seq<nat>, y: nat)
    requires Increasing(scores, order) && y < |scores|
    requires forall i :: 0 <= i < |order| ==> Before(scores, order[i], y)
    ensures Increasing(scores, order + [y])
  {
  }

  lemma {:induction false} InsertStableIncreasing(scores: seq<real>, order: seq<nat>, x: nat)
    requires x < |scores| && Increasing(scores, order) && forall i :: 0 <= i < |order| ==> order[i] < x
    ensures Increasing(scores, InsertStable(scores, order, x))
  {
    if order == [] || scores[order[|order| - 1]] <= scores[x] {
      IncreasingSnoc(scores, order, x);
    } else {
      var m := |order| - 1;
      InsertStableIncreasing(scores, order[..m], x);
      var t := InsertStable(scores, order[..m], x);
      forall i | 0 <= i < |t| ensures Before(scores, t[i], order[m]) {
        assert t[i] in t;
      }
      IncreasingSnoc(scores, t, order[m]);
    }
  }

  lemma {:induction false} StableArgsortIncreasing(scores: seq<real>, n: nat)
    requires n <= |scores|
    ensures Increasing(scores, StableArgsort(scores, n))
  {
    if n > 0 {
      StableArgsortIncreasing(scores, n - 1);
      var shorter := StableArgsort(scores, n - 1);
      assert forall i :: 0 <= i < |shorter| ==> shorter[i] in shorter;
      InsertStableIncreasing(scores, shorter, n - 1);
    }
  }

  /** Partial sorting selects exactly the first `k` indices of the full stable sort. */
  lemma PartialSortAgreesWithStableSort(scores: seq<real>, chosen: seq<nat>)
    requires BestFirst(scores, chosen) && |chosen| <= |scores|
    ensures chosen == StableArgsort(scores, |scores|)[..|chosen|]
  {
    var full := StableArgsort(scores, |scores|);
    StableArgsortIncreasing(scores, |scores|);
    assert BestFirst(scores, full);
    BestFirstUnique(scores, chosen, full);
  }
}
