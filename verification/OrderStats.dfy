/** Coordinate-wise median and trimmed mean: the selection-based loops against the sorted
    definition, and what they guarantee when some updates are adversarial. */
module OrderStats {
  import opened Text
  import opened RealSeq
  import opened Selection

  function Median(s: seq<real>): real
    requires s != []
  {
    var r := Sort(s);
    var middle := |r| / 2;
    if |r| % 2 == 1 then r[middle] else (r[middle - 1] + r[middle]) / 2.0
  }

  function MeanOf(c: seq<real>): real
    requires c != []
  {
    Sum(c) / (|c| as real)
  }

  function TrimmedMean(s: seq<real>, trim: nat): real
    requires 2 * trim < |s|
  {
    MeanOf(Sort(s)[trim..|s| - trim])
  }

  // ----- order independence

  lemma MedianOrderIrrelevant(s: seq<real>, t: seq<real>)
    requires s != [] && t != [] && SameElements(s, t)
    ensures Median(s) == Median(t)
  {
    SortOrderIrrelevant(s, t);
  }

  lemma TrimmedMeanOrderIrrelevant(s: seq<real>, t: seq<real>, trim: nat)
    requires 2 * trim < |s| && |s| == |t| && SameElements(s, t)
    ensures TrimmedMean(s, trim) == TrimmedMean(t, trim)
  {
    SortOrderIrrelevant(s, t);
  }

  // ----- robustness

  /** A strict majority of honest values confines the median to the honest range. */
  lemma MedianWithinHonestRange(s: seq<real>, honest: set<nat>, lo: real, hi: real)
    requires s != [] && TrustedWithin(s, honest, lo, hi) && 2 * |honest| > |s|
    ensures lo <= Median(s) <= hi
  {
    OutliersAreUntrusted(s, honest, lo, hi);
    var middle := |s| / 2;
    OrderStatisticWithin(s, honest, lo, hi, middle);
    if |s| % 2 == 0 {
      OrderStatisticWithin(s, honest, lo, hi, middle - 1);
    }
  }

  /** Trimming at least as many values on each side as there are adversarial ones
      confines the mean of the rest to the honest range. */
  lemma TrimmedMeanWithinHonestRange(s: seq<real>, honest: set<nat>, lo: real, hi: real, trim: nat)
    requires TrustedWithin(s, honest, lo, hi) && |s| - |honest| <= trim && 2 * trim < |s|
    ensures lo <= TrimmedMean(s, trim) <= hi
  {
    KeptWithinHonestRange(s, honest, lo, hi, trim);
    MeanWithin(Sort(s)[trim..|s| - trim], lo, hi);
  }

  lemma KeptWithinHonestRange(s: seq<real>, honest: set<nat>, lo: real, hi: real, trim: nat)
    requires TrustedWithin(s, honest, lo, hi) && |s| - |honest| <= trim && 2 * trim < |s|
    ensures forall i :: trim <= i < |s| - trim ==> lo <= Sort(s)[i] <= hi
  {
    OutliersAreUntrusted(s, honest, lo, hi);
    forall i | trim <= i < |s| - trim ensures lo <= Sort(s)[i] <= hi {
      OrderStatisticWithin(s, honest, lo, hi, i);
    }
  }

  lemma MeanWithin(c: seq<real>, lo: real, hi: real)
    requires c != [] && forall i :: 0 <= i < |c| ==> lo <= c[i] <= hi
    ensures lo <= MeanOf(c) <= hi
  {
    SumBounds(c, lo, hi);
    QuotientBounds(Sum(c), |c| as real, lo, hi);
  }

  lemma QuotientBounds(x: real, m: real, lo: real, hi: real)
    requires m > 0.0 && lo * m <= x <= hi * m
    ensures lo <= x / m <= hi
  {
    assert (x / m) * m == x;
  }

  lemma PositiveQuotient(x: real, m: real)
    requires m > 0.0 && x > 0.0
    ensures x / m > 0.0
  {
    assert (x / m) * m == x;
  }

  /** `honest` zeros followed by adversarial ones. */
  function Attack(n: nat, honest: nat): (s: seq<real>)
    requires honest <= n
    ensures |s| == n && forall i :: 0 <= i < n ==> s[i] == if i < honest then 0.0 else 1.0
  {
    seq(n, i => if i < honest then 0.0 else 1.0)
  }

  function FirstIndices(n: nat): (s: set<nat>)
    ensures |s| == n && forall i :: i in s <==> 0 <= i < n
  {
    if n == 0 then {} else FirstIndices(n - 1) + {n - 1}
  }

  lemma AttackIsTrusted(n: nat, honest: nat)
    requires honest <= n
    ensures TrustedWithin(Attack(n, honest), FirstIndices(honest), 0.0, 0.0)
  {
  }

  lemma AttackIsSorted(n: nat, honest: nat)
    requires honest <= n
    ensures Sort(Attack(n, honest)) == Attack(n, honest)
  {
    var s := Attack(n, honest);
    SortSorts(s);
    SortedUnique(Sort(s), s);
  }

  /** Without a strict honest majority the median can leave the honest range, so the
      majority condition is exact. */
  lemma MedianNeedsMajority(n: nat, honest: nat)
    requires 0 < n && honest <= n && 2 * honest <= n
    ensures TrustedWithin(Attack(n, honest), FirstIndices(honest), 0.0, 0.0)
    ensures Median(Attack(n, honest)) > 0.0
  {
    AttackIsSorted(n, honest);
    AttackIsTrusted(n, honest);
  }

  lemma {:induction false} SumNonNegative(s: seq<real>)
    requires forall i :: 0 <= i < |s| ==> s[i] >= 0.0
    ensures Sum(s) >= 0.0
  {
    if s != [] { SumNonNegative(s[..|s| - 1]); }
  }

  lemma SumPositive(s: seq<real>)
    requires s != [] && s[|s| - 1] > 0.0 && forall i :: 0 <= i < |s| ==> s[i] >= 0.0
    ensures Sum(s) > 0.0
  {
    SumNonNegative(s[..|s| - 1]);
  }

  lemma PositiveMean(c: seq<real>)
    requires c != [] && c[|c| - 1] > 0.0 && forall i :: 0 <= i < |c| ==> c[i] >= 0.0
    ensures MeanOf(c) > 0.0
  {
    SumPositive(c);
    PositiveQuotient(Sum(c), |c| as real);
  }

  lemma AttackKept(n: nat, honest: nat, trim: nat) returns (kept: seq<real>)
    requires honest <= n && 2 * trim < n && trim < n - honest
    ensures kept == Sort(Attack(n, honest))[trim..n - trim]
    ensures kept != [] && kept[|kept| - 1] > 0.0 && forall i :: 0 <= i < |kept| ==> kept[i] >= 0.0
  {
    AttackIsSorted(n, honest);
    kept := Attack(n, honest)[trim..n - trim];
  }

  /** Trimming fewer values than there are adversarial ones is not enough. */
  lemma TrimmedMeanNeedsTrim(n: nat, honest: nat, trim: nat)
    requires honest <= n && 2 * trim < n && trim < n - honest
    ensures TrustedWithin(Attack(n, honest), FirstIndices(honest), 0.0, 0.0)
    ensures TrimmedMean(Attack(n, honest), trim) > 0.0
  {
    AttackIsTrusted(n, honest);
    var kept := AttackKept(n, honest, trim);
    PositiveMean(kept);
  }

  // ----- selection-based median

  lemma LowerHalfAtMost(s: seq<real>, k: nat, x: real)
    requires k < |s| && Split(s, k) && x in multiset(s[..k])
    ensures x <= s[k]
  {
    var p :| 0 <= p < k && s[..k][p] == x;
    assert s[p] <= s[k];
  }

  lemma UpperHalfAtLeast(s: seq<real>, k: nat, x: real)
    requires k < |s| && Split(s, k + 1) && x in multiset(s[k + 1..])
    ensures s[k] <= x
  {
    var p :| 0 <= p < |s| - k - 1 && s[k + 1..][p] == x;
    assert s[k] <= s[k + 1 + p];
  }

  lemma SplitSorts(s: seq<real>, k: nat)
    requires k < |s| && Split(s, k) && Split(s, k + 1)
    ensures Sorted(Sort(s[..k]) + [s[k]] + Sort(s[k + 1..]))
    ensures SameElements(Sort(s[..k]) + [s[k]] + Sort(s[k + 1..]), s)
  {
    var low, high := Sort(s[..k]), Sort(s[k + 1..]);
    SortSorts(s[..k]);
    SortSorts(s[k + 1..]);
    forall i | 0 <= i < |low| ensures low[i] <= s[k] {
      LowerHalfAtMost(s, k, low[i]);
    }
    forall i | 0 <= i < |high| ensures s[k] <= high[i] {
      UpperHalfAtLeast(s, k, high[i]);
    }
    SortedJoin(low, s[k], high);
    JoinElements(s, k, low, high);
  }

  lemma JoinElements(s: seq<real>, k: nat, low: seq<real>, high: seq<real>)
    requires k < |s| && SameElements(low, s[..k]) && SameElements(high, s[k + 1..])
    ensures SameElements(low + [s[k]] + high, s)
  {
    assert s == s[..k] + [s[k]] + s[k + 1..];
  }

  lemma SplitSort(s: seq<real>, k: nat)
    requires k < |s| && Split(s, k) && Split(s, k + 1)
    ensures Sort(s) == Sort(s[..k]) + [s[k]] + Sort(s[k + 1..])
  {
    SplitSorts(s, k);
    SortSorts(s);
    SortedUnique(Sort(s), Sort(s[..k]) + [s[k]] + Sort(s[k + 1..]));
  }

  lemma SplitFixesOrderStatistic(s: seq<real>, k: nat)
    requires k < |s| && Split(s, k) && Split(s, k + 1)
    ensures Sort(s)[k] == s[k]
    ensures Sort(s)[..k] == Sort(s[..k])
  {
    SplitSort(s, k);
    MiddleOf(Sort(s[..k]), s[k], Sort(s[k + 1..]));
  }

  lemma MiddleOf(low: seq<real>, x: real, high: seq<real>)
    ensures (low + [x] + high)[|low|] == x && (low + [x] + high)[..|low|] == low
  {
  }

  lemma SortedJoin(low: seq<real>, x: real, high: seq<real>)
    requires Sorted(low) && Sorted(high)
    requires (forall i :: 0 <= i < |low| ==> low[i] <= x) && (forall i :: 0 <= i < |high| ==> x <= high[i])
    ensures Sorted(low + [x] + high)
  {
  }

  method MaxElement(a: array<real>, n: nat) returns (m: real)
    requires 0 < n <= a.Length
    ensures m == Sort(a[..n])[n - 1]
  {
    m := a[0];
    for i := 1 to n
      invariant m in a[..i] && forall j :: 0 <= j < i ==> a[j] <= m
    {
      if m < a[i] {
        m := a[i];
      }
    }
    assert m in multiset(a[..n]);
    SortSorts(a[..n]);
    SortedLastIsLargest(Sort(a[..n]), m);
    assert Sort(a[..n])[n - 1] in multiset(a[..n]);
    assert Sort(a[..n])[n - 1] in a[..n];
  }

  /** The native median of one coordinate: nth_element, then the maximum of the lower half
      when the number of values is even. */
  method MedianBySelection(values: array<real>) returns (m: real)
    requires values.Length > 0
    modifies values
    ensures m == Median(old(values[..]))
  {
    var n := values.Length;
    var middle := n / 2;
    NthElement(values, middle);
    ghost var s := values[..];
    SortOrderIrrelevant(s, old(values[..]));
    SplitFixesOrderStatistic(s, middle);
    var upper := values[middle];
    if n % 2 == 1 {
      return upper;
    }
    var lower := MaxElement(values, middle);
    assert values[..middle] == s[..middle];
    m := (lower + upper) * 0.5;
  }

  // ----- whole updates

  predicate ValidUpdates(updates: seq<seq<real>>)
  {
    && updates != [] && updates[0] != []
    && forall i :: 0 <= i < |updates| ==> |updates[i]| == |updates[0]|
  }

  /** The values of coordinate `d`, one per update. */
  function Column(updates: seq<seq<real>>, d: nat): (c: seq<real>)
    requires forall i :: 0 <= i < |updates| ==> d < |updates[i]|
    ensures |c| == |updates| && forall i :: 0 <= i < |updates| ==> c[i] == updates[i][d]
  {
    seq(|updates|, i requires 0 <= i < |updates| => updates[i][d])
  }

  method MedianAggregate(updates: seq<seq<real>>) returns (r: Option<seq<real>>)
    ensures r.Some? <==> ValidUpdates(updates)
    ensures r.Some? ==> |r.value| == |updates[0]|
    ensures r.Some? ==> forall d :: 0 <= d < |updates[0]| ==> r.value[d] == Median(Column(updates, d))
  {
    if !ValidUpdates(updates) {
      return None;
    }
    var result := [];
    for d := 0 to |updates[0]|
      invariant |result| == d
      invariant forall e :: 0 <= e < d ==> result[e] == Median(Column(updates, e))
    {
      var values := new real[|updates|](i requires 0 <= i < |updates| => updates[i][d]);
      assert values[..] == Column(updates, d);
      var m := MedianBySelection(values);
      result := result + [m];
    }
    r := Some(result);
  }

  method TrimmedMeanAggregate(updates: seq<seq<real>>, trim: nat) returns (r: Option<seq<real>>)
    ensures r.Some? <==> ValidUpdates(updates) && 2 * trim < |updates|
    ensures r.Some? ==> |r.value| == |updates[0]|
    ensures r.Some? ==> forall d :: 0 <= d < |updates[0]| ==> r.value[d] == TrimmedMean(Column(updates, d), trim)
  {
    var n := |updates|;
    if !ValidUpdates(updates) || 2 * trim >= n {
      return None;
    }
    var result := [];
    for d := 0 to |updates[0]|
      invariant |result| == d
      invariant forall e :: 0 <= e < d ==> result[e] == TrimmedMean(Column(updates, e), trim)
    {
      var values := Sort(Column(updates, d));
      var sum := 0.0;
      for i := trim to n - trim
        invariant sum == Sum(values[trim..i])
      {
        sum := sum + values[i];
        assert values[trim..i + 1][..i - trim] == values[trim..i];
      }
      result := result + [sum / ((n - 2 * trim) as real)];
    }
    r := Some(result);
  }

  // ----- weighted mean

  function Product(x: real, w: real): real
  {
    x * w
  }

  /** `sum(v[i] * w[i])` over equally long sequences. */
  function Dot(v: seq<real>, w: seq<real>): real
    requires |v| == |w|
  {
    if v == [] then 0.0 else Dot(v[..|v| - 1], w[..|w| - 1]) + Product(v[|v| - 1], w[|w| - 1])
  }

  function WeightedMean(v: seq<real>, w: seq<real>): real
    requires |v| == |w| && Sum(w) > 0.0
  {
    Dot(v, w) / Sum(w)
  }

  lemma {:induction false} DotBounds(v: seq<real>, w: seq<real>, lo: real, hi: real)
    requires |v| == |w|
    requires forall i :: 0 <= i < |v| ==> lo <= v[i] <= hi && w[i] > 0.0
    ensures lo * Sum(w) <= Dot(v, w) <= hi * Sum(w)
    ensures v != [] ==> Sum(w) > 0.0
  {
    if v != [] {
      var m := |v| - 1;
      DotBounds(v[..m], w[..m], lo, hi);
      ScaleBounds(v[m], w[m], lo, hi);
      assert lo * Sum(w) == lo * Sum(w[..m]) + lo * w[m];
      assert hi * Sum(w) == hi * Sum(w[..m]) + hi * w[m];
      if m == 0 { assert Sum(w[..m]) == 0.0; }
    }
  }

  lemma ScaleBounds(x: real, w: real, lo: real, hi: real)
    requires lo <= x <= hi && w > 0.0
    ensures lo * w <= x * w <= hi * w
  {
  }

  /** A weighted mean with positive weights is a convex combination. */
  lemma WeightedMeanWithinRange(v: seq<real>, w: seq<real>, lo: real, hi: real)
    requires |v| == |w| && v != [] && Sum(w) > 0.0
    requires forall i :: 0 <= i < |v| ==> lo <= v[i] <= hi && w[i] > 0.0
    ensures lo <= WeightedMean(v, w) <= hi
  {
    DotBounds(v, w, lo, hi);
    QuotientBounds(Dot(v, w), Sum(w), lo, hi);
  }
}
