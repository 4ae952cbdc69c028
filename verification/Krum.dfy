/** Krum and Multi-Krum: scores as minimal neighbour sums, the native loops against the
    plain sorted reference, and resilience to adversarial updates. */
module Krum {
  import opened Text
  import opened RealSeq
  import opened Selection
  import opened Distance
  import opened OrderStats

  // ----- sums over index sets

  /** The entries of `s` at the indices in `J`, in order. */
  function Pick(s: seq<real>, J: set<nat>): (r: seq<real>)
    ensures |r| <= |s|
  {
    if s == [] then []
    else Pick(s[..|s| - 1], J) + (if |s| - 1 in J then [s[|s| - 1]] else [])
  }

  predicate Indices(J: set<nat>, n: nat)
  {
    forall j :: j in J ==> j < n
  }

  lemma {:induction false} PickLength(s: seq<real>, J: set<nat>)
    requires Indices(J, |s|)
    ensures |Pick(s, J)| == |J|
  {
    if s == [] {
      assert J == {};
    } else {
      var m := |s| - 1;
      PickLength(s[..m], J - {m});
      PickIgnores(s[..m], J, m);
      if m in J {
        assert J == (J - {m}) + {m};
      } else {
        assert J - {m} == J;
      }
    }
  }

  /** Indices past the end are irrelevant. */
  lemma {:induction false} PickIgnores(s: seq<real>, J: set<nat>, k: nat)
    requires |s| <= k
    ensures Pick(s, J - {k}) == Pick(s, J)
  {
    if s != [] {
      PickIgnores(s[..|s| - 1], J, k);
    }
  }

  lemma {:induction false} PickMonotone(s: seq<real>, J: set<nat>, S: set<nat>)
    requires J <= S
    ensures multiset(Pick(s, J)) <= multiset(Pick(s, S))
  {
    if s != [] {
      PickMonotone(s[..|s| - 1], J, S);
    }
  }

  /** `n * x`, as repeated addition. */
  function Times(n: nat, x: real): real
  {
    if n == 0 then 0.0 else Times(n - 1, x) + x
  }

  lemma {:induction false} TimesIsProduct(n: nat, x: real)
    ensures Times(n, x) == (n as real) * x
  {
    if n > 0 {
      TimesIsProduct(n - 1, x);
      assert (n as real) * x == ((n - 1) as real) * x + x;
    }
  }

  lemma {:induction false} TimesMonotone(m: nat, n: nat, x: real)
    requires m <= n && x >= 0.0
    ensures Times(m, x) <= Times(n, x)
  {
    if m < n {
      TimesMonotone(m, n - 1, x);
    }
  }

  lemma {:induction false} PickBelow(s: seq<real>, J: set<nat>, bound: real)
    requires Indices(J, |s|) && forall j :: j in J ==> s[j] <= bound
    ensures Sum(Pick(s, J)) <= Times(|J|, bound)
  {
    PickLength(s, J);
    PickMembers(s, J);
    var t := Pick(s, J);
    forall i | 0 <= i < |t| ensures t[i] <= bound {
      assert t[i] in t;
    }
    SumAtMost(t, bound);
  }

  lemma {:induction false} PickAbove(s: seq<real>, J: set<nat>, bound: real)
    requires Indices(J, |s|) && forall j :: j in J ==> s[j] >= bound
    ensures Sum(Pick(s, J)) >= Times(|J|, bound)
  {
    PickLength(s, J);
    PickMembers(s, J);
    var t := Pick(s, J);
    forall i | 0 <= i < |t| ensures t[i] >= bound {
      assert t[i] in t;
    }
    SumAtLeast(t, bound);
  }

  lemma {:induction false} SumAtMost(t: seq<real>, bound: real)
    requires forall i :: 0 <= i < |t| ==> t[i] <= bound
    ensures Sum(t) <= Times(|t|, bound)
  {
    if t != [] {
      SumAtMost(t[..|t| - 1], bound);
    }
  }

  lemma {:induction false} SumAtLeast(t: seq<real>, bound: real)
    requires forall i :: 0 <= i < |t| ==> t[i] >= bound
    ensures Sum(t) >= Times(|t|, bound)
  {
    if t != [] {
      SumAtLeast(t[..|t| - 1], bound);
    }
  }

  lemma {:induction false} PickMembers(s: seq<real>, J: set<nat>)
    ensures forall x :: x in Pick(s, J) ==> exists j :: j in J && j < |s| && s[j] == x
  {
    if s != [] {
      var m := |s| - 1;
      PickMembers(s[..m], J);
      forall x | x in Pick(s, J) ensures exists j :: j in J && j < |s| && s[j] == x {
        if x in Pick(s[..m], J) {
          var j :| j in J && j < m && s[..m][j] == x;
          assert s[j] == x;
        } else {
          assert m in J && s[m] == x;
        }
      }
    }
  }

  /** Dropping nonnegative terms does not increase a sum. */
  lemma {:induction false} PickSumMonotone(s: seq<real>, J: set<nat>, S: set<nat>)
    requires J <= S && forall i :: 0 <= i < |s| ==> s[i] >= 0.0
    ensures Sum(Pick(s, J)) <= Sum(Pick(s, S))
  {
    if s != [] {
      var m := |s| - 1;
      PickSumMonotone(s[..m], J, S);
      PickSumSplit(s, J);
      PickSumSplit(s, S);
    }
  }

  lemma PickSumSplit(s: seq<real>, J: set<nat>)
    requires s != []
    ensures Sum(Pick(s, J)) == Sum(Pick(s[..|s| - 1], J)) + (if |s| - 1 in J then s[|s| - 1] else 0.0)
  {
    var t, x := Pick(s[..|s| - 1], J), s[|s| - 1];
    assert (t + [x])[..|t|] == t;
    assert t + [] == t;
  }

  /** The last entry split off. */
  lemma PickLast(s: seq<real>, S: set<nat>, front: seq<real>, m: nat)
    requires s != [] && m == |s| - 1 && front == s[..m]
    ensures Pick(s, S) == Pick(front, S - {m}) + if m in S then [s[m]] else []
  {
    PickIgnores(front, S, m);
  }

  lemma FrontIndices(S: set<nat>, m: nat)
    requires Indices(S, m + 1)
    ensures Indices(S - {m}, m)
  {
  }

  /** What the recursion on the front leaves to choose from. */
  lemma Remaining(s: seq<real>, S: set<nat>, t: seq<real>, front: seq<real>, m: nat) returns (rest: seq<real>)
    requires s != [] && m == |s| - 1 && front == s[..m] && multiset(t) <= multiset(Pick(s, S))
    ensures multiset(rest) <= multiset(Pick(front, S - {m}))
    ensures if m in S && s[m] in t then |t| == |rest| + 1 && Sum(t) == Sum(rest) + s[m] else rest == t
  {
    PickLast(s, S, front, m);
    if m in S && s[m] in t {
      rest := RemoveValue(t, s[m]);
      RemoveFromBoth(Pick(front, S - {m}), s[m], t, rest);
    } else {
      LastUnused(Pick(front, S - {m}), s[m], t, m in S);
      rest := t;
    }
  }

  lemma WithLast(s: seq<real>, J: set<nat>, front: seq<real>, m: nat)
    requires s != [] && m == |s| - 1 && front == s[..m] && Indices(J, m)
    ensures |J + {m}| == |J| + 1
    ensures Sum(Pick(s, J + {m})) == Sum(Pick(front, J)) + s[m] && Sum(Pick(s, J)) == Sum(Pick(front, J))
  {
    PickIgnores(front, J + {m}, m);
    assert J + {m} - {m} == J;
    PickSumSplit(s, J + {m});
    PickSumSplit(s, J);
  }

  /** Any list of values drawn from the entries at `S` comes from some subset of `S`. */
  lemma {:induction false} Extract(s: seq<real>, S: set<nat>, t: seq<real>) returns (J: set<nat>)
    requires Indices(S, |s|) && multiset(t) <= multiset(Pick(s, S))
    ensures J <= S && |J| == |t| && Sum(Pick(s, J)) == Sum(t)
  {
    if s == [] {
      EmptyList(t);
      J := {};
    } else {
      var m, front := |s| - 1, s[..|s| - 1];
      FrontIndices(S, m);
      var rest := Remaining(s, S, t, front, m);
      J := Extract(front, S - {m}, rest);
      WithLast(s, J, front, m);
      if m in S && s[m] in t {
        J := J + {m};
      }
    }
  }

  lemma RemoveValue(t: seq<real>, x: real) returns (t': seq<real>)
    requires x in t
    ensures multiset(t') == multiset(t) - multiset{x} && |t'| == |t| - 1 && Sum(t) == Sum(t') + x
  {
    var i :| 0 <= i < |t| && t[i] == x;
    t' := RemoveAt(t, i);
    SumRemoveAt(t, i);
  }

  lemma RemoveFromBoth(p: seq<real>, x: real, t: seq<real>, t': seq<real>)
    requires multiset(t) <= multiset(p + [x]) && multiset(t') == multiset(t) - multiset{x}
    ensures multiset(t') <= multiset(p)
  {
    assert multiset(p + [x]) == multiset(p) + multiset{x};
  }

  lemma EmptyList(t: seq<real>)
    requires multiset(t) <= multiset{}
    ensures t == []
  {
    assert multiset(t) == multiset{};
    assert |multiset(t)| == |t|;
  }

  lemma LastUnused(p: seq<real>, x: real, t: seq<real>, used: bool)
    requires multiset(t) <= multiset(p + if used then [x] else [])
    requires !(used && x in t)
    ensures multiset(t) <= multiset(p)
  {
    if used {
      assert multiset(p + [x]) == multiset(p) + multiset{x};
      assert x !in multiset(t);
    } else {
      assert p + [] == p;
    }
  }

  // ----- scores

  function Others(row: seq<real>, i: nat): (r: seq<real>)
    requires i < |row|
    ensures |r| == |row| - 1
  {
    row[..i] + row[i + 1..]
  }

  function All(n: nat): set<nat>
  {
    FirstIndices(n)
  }

  lemma {:induction false} PickAll(s: seq<real>, S: set<nat>)
    requires forall j :: 0 <= j < |s| ==> j in S
    ensures Pick(s, S) == s
  {
    if s != [] {
      PickAll(s[..|s| - 1], S);
    }
  }

  lemma {:induction false} PickOthers(s: seq<real>, i: nat, S: set<nat>)
    requires i < |s| && forall j :: 0 <= j < |s| ==> (j in S <==> j != i)
    ensures Pick(s, S) == Others(s, i)
  {
    var m := |s| - 1;
    if i == m {
      PickAll(s[..m], S);
    } else {
      PickOthers(s[..m], i, S);
      assert Others(s, i) == Others(s[..m], i) + [s[m]];
    }
  }

  /** The sum of the `m` smallest values other than entry `i`. */
  function Score(row: seq<real>, i: nat, m: nat): real
    requires i < |row| && m < |row|
  {
    Sum(Sort(Others(row, i))[..m])
  }

  ghost predicate Neighbours(J: set<nat>, n: nat, i: nat, m: nat)
  {
    Indices(J, n) && i !in J && |J| == m
  }

  lemma {:induction false} SmallestSum(r: seq<real>, t: seq<real>)
    requires Sorted(r) && multiset(t) <= multiset(r)
    ensures |t| <= |r| && Sum(r[..|t|]) <= Sum(t)
  {
    if r == [] {
      EmptyList(t);
    } else {
      var n := |r| - 1;
      var x := r[n];
      DropLast(r);
      if x in t {
        var t' := RemoveValue(t, x);
        RemoveFromBoth(r[..n], x, t, t');
        SmallestSum(r[..n], t');
        PrefixSum(r, n, |t'|);
      } else {
        LastUnused(r[..n], x, t, true);
        SmallestSum(r[..n], t);
        assert r[..n][..|t|] == r[..|t|];
      }
    }
  }

  lemma PrefixSum(r: seq<real>, n: nat, k: nat)
    requires k <= n < |r|
    ensures Sum(r[..k + 1]) == Sum(r[..n][..k]) + r[k]
  {
    assert r[..k + 1][..k] == r[..n][..k];
  }

  lemma OthersOf(n: nat, i: nat) returns (S: set<nat>)
    requires i < n
    ensures Indices(S, n) && |S| == n - 1 && forall j :: 0 <= j < n ==> (j in S <==> j != i)
  {
    S := All(n) - {i};
    assert All(n) == S + {i};
  }

  /** No set of `m` other indices has a smaller sum than the score. */
  lemma ScoreIsLowerBound(row: seq<real>, i: nat, m: nat, J: set<nat>)
    requires i < |row| && m < |row| && Neighbours(J, |row|, i, m)
    ensures Score(row, i, m) <= Sum(Pick(row, J))
  {
    var S := OthersOf(|row|, i);
    PickOthers(row, i, S);
    assert J <= S;
    PickMonotone(row, J, S);
    PickLength(row, J);
    SortSorts(Others(row, i));
    SmallestSum(Sort(Others(row, i)), Pick(row, J));
  }

  /** The score is attained by some set of `m` other indices. */
  lemma ScoreIsAttained(row: seq<real>, i: nat, m: nat) returns (J: set<nat>)
    requires i < |row| && m < |row|
    ensures Neighbours(J, |row|, i, m) && Score(row, i, m) == Sum(Pick(row, J))
  {
    var S := OthersOf(|row|, i);
    PickOthers(row, i, S);
    var r := Sort(Others(row, i));
    SortSorts(Others(row, i));
    assert r == r[..m] + r[m..];
    assert multiset(r[..m]) <= multiset(r);
    J := Extract(row, S, r[..m]);
  }

  /** What `nth_element` leaves in front sums to the score. */
  lemma PartitionedPrefixIsScore(row: seq<real>, i: nat, m: nat, s: seq<real>)
    requires i < |row| && m < |row| - 1
    requires SameElements(s, Others(row, i)) && |s| == |row| - 1 && Split(s, m) && Split(s, m + 1)
    ensures Sum(s[..m]) == Score(row, i, m)
  {
    SplitFixesOrderStatistic(s, m);
    SortOrderIrrelevant(s, Others(row, i));
    SortSorts(s[..m]);
    SumOrderIrrelevant(s[..m], Sort(s[..m]));
  }

  // ----- the aggregator

  /** An n-by-n matrix. */
  predicate SquareMatrix(rows: seq<seq<real>>)
  {
    forall i :: 0 <= i < |rows| ==> |rows[i]| == |rows|
  }

  function Row(updates: seq<seq<real>>, i: nat): (row: seq<real>)
    requires ValidUpdates(updates) && i < |updates|
    ensures |row| == |updates|
    ensures forall j :: 0 <= j < |updates| ==> row[j] == SquaredDistance(updates[i], updates[j])
  {
    seq(|updates|, j requires 0 <= j < |updates| => SquaredDistance(updates[i], updates[j]))
  }

  function Rows(updates: seq<seq<real>>): (rows: seq<seq<real>>)
    requires ValidUpdates(updates)
    ensures |rows| == |updates| && SquareMatrix(rows)
    ensures forall i :: 0 <= i < |updates| ==> rows[i] == Row(updates, i)
  {
    seq(|updates|, i requires 0 <= i < |updates| => Row(updates, i))
  }

  /** The scores of a distance matrix. */
  function ScoresOf(rows: seq<seq<real>>, f: nat): (scores: seq<real>)
    requires SquareMatrix(rows) && f + 2 <= |rows|
    ensures |scores| == |rows|
    ensures forall i :: 0 <= i < |rows| ==> scores[i] == Score(rows[i], i, |rows| - f - 2)
  {
    seq(|rows|, i requires 0 <= i < |rows| => Score(rows[i], i, |rows| - f - 2))
  }

  /** The first `k` indices of the stable sort of the scores. */
  function Select(rows: seq<seq<real>>, f: nat, k: nat): (chosen: seq<nat>)
    requires SquareMatrix(rows) && f + 2 <= |rows| && k <= |rows|
    ensures |chosen| == k && forall i :: 0 <= i < k ==> chosen[i] < |rows|
  {
    var order := StableArgsort(ScoresOf(rows, f), |rows|);
    assert forall i :: 0 <= i < |order| ==> order[i] in order;
    order[..k]
  }

  predicate Acceptable(updates: seq<seq<real>>, f: nat, k: nat)
  {
    && ValidUpdates(updates) && |updates| >= 2 * f + 3
    && 1 <= k <= |updates| - f - 2
  }

  /** The plain reference: a stable sort of all scores. */
  function Reference(updates: seq<seq<real>>, f: nat, k: nat): (chosen: seq<nat>)
    requires Acceptable(updates, f, k)
    ensures |chosen| == k && forall i :: 0 <= i < k ==> chosen[i] < |updates|
  {
    Select(Rows(updates), f, k)
  }

  function Chosen(updates: seq<seq<real>>, chosen: seq<nat>): (r: seq<seq<real>>)
    requires ValidUpdates(updates) && forall i :: 0 <= i < |chosen| ==> chosen[i] < |updates|
    ensures |r| == |chosen| && forall i :: 0 <= i < |chosen| ==> r[i] == updates[chosen[i]]
  {
    seq(|chosen|, i requires 0 <= i < |chosen| => updates[chosen[i]])
  }

  /** Fills the symmetric distance matrix, computing each pair once. */
  method DistanceMatrix(backend: Backend, updates: seq<seq<real>>) returns (distances: array2<real>)
    requires ValidUpdates(updates)
    ensures fresh(distances) && Complete(distances, updates)
  {
    var n := |updates|;
    distances := new real[n, n]((_, _) => 0.0);
    ZeroDiagonal(updates);
    for i := 0 to n
      invariant Filled(distances, updates, i, i)
    {
      for j := i + 1 to n
        invariant Filled(distances, updates, i, j)
      {
        FillPair(backend, distances, updates, i, j);
      }
    }
  }

  lemma ZeroDiagonal(updates: seq<seq<real>>)
    requires ValidUpdates(updates)
    ensures forall i :: 0 <= i < |updates| ==> SquaredDistance(updates[i], updates[i]) == 0.0
  {
    forall i | 0 <= i < |updates| ensures SquaredDistance(updates[i], updates[i]) == 0.0 {
      SelfDistance(updates[i], |updates[i]|);
    }
  }

  method FillPair(backend: Backend, distances: array2<real>, updates: seq<seq<real>>, i: nat, j: nat)
    requires ValidUpdates(updates) && i < j < |updates| && Filled(distances, updates, i, j)
    modifies distances
    ensures Filled(distances, updates, i, j + 1)
  {
    var distance := SquaredDistanceSimd(backend, updates[i], updates[j]);
    DistanceSymmetric(updates[i], updates[j], |updates[0]|);
    distances[i, j] := distance;
    distances[j, i] := distance;
  }

  ghost predicate Complete(distances: array2<real>, updates: seq<seq<real>>)
    requires ValidUpdates(updates)
    reads distances
  {
    && distances.Length0 == distances.Length1 == |updates|
    && forall i, j :: 0 <= i < |updates| && 0 <= j < |updates| ==>
                        distances[i, j] == SquaredDistance(updates[i], updates[j])
  }

  /** Rows above `i`, and row `i` up to column `j`, are done, with their mirror images. */
  ghost predicate Filled(distances: array2<real>, updates: seq<seq<real>>, i: nat, j: nat)
    requires ValidUpdates(updates)
    reads distances
  {
    && distances.Length0 == distances.Length1 == |updates|
    && forall p, q :: 0 <= p <= q < |updates| && (p < i || (p == i && q < j) || p == q) ==>
                        distances[p, q] == SquaredDistance(updates[p], updates[q])
                        && distances[q, p] == SquaredDistance(updates[q], updates[p])
  }

  lemma {:induction false} SelfDistance(a: seq<real>, n: nat)
    requires n <= |a|
    ensures SquaredDistanceTo(a, a, n) == 0.0
  {
    if n > 0 { SelfDistance(a, n - 1); }
  }

  /** One score: copy the other distances, partition them, add up the front. */
  method ScoreOf(row: seq<real>, i: nat, m: nat) returns (score: real)
    requires i < |row| && m < |row| - 1
    ensures score == Score(row, i, m)
  {
    var others := Others(row, i);
    var nearest := new real[|others|](j requires 0 <= j < |others| => others[j]);
    assert nearest[..] == others;
    NthElement(nearest, m);
    score := 0.0;
    for p := 0 to m
      invariant score == Sum(nearest[..p])
    {
      score := score + nearest[p];
      assert nearest[..p + 1][..p] == nearest[..p];
    }
    PartitionedPrefixIsScore(row, i, m, nearest[..]);
    assert nearest[..m] == nearest[..][..m];
  }

  method ReadRow(updates: seq<seq<real>>, distances: array2<real>, i: nat) returns (row: seq<real>)
    requires ValidUpdates(updates) && i < |updates| && Complete(distances, updates)
    ensures row == Row(updates, i)
  {
    row := [];
    for j := 0 to |updates|
      invariant |row| == j && forall p :: 0 <= p < j ==> row[p] == Row(updates, i)[p]
    {
      row := row + [distances[i, j]];
    }
  }

  method ReadRows(updates: seq<seq<real>>, distances: array2<real>) returns (rows: seq<seq<real>>)
    requires ValidUpdates(updates) && Complete(distances, updates)
    ensures rows == Rows(updates)
  {
    rows := [];
    for i := 0 to |updates|
      invariant rows == Rows(updates)[..i]
    {
      var row := ReadRow(updates, distances, i);
      rows := rows + [row];
    }
  }

  method AllScores(rows: seq<seq<real>>, f: nat) returns (scores: seq<real>)
    requires SquareMatrix(rows) && |rows| >= 2 * f + 3
    ensures scores == ScoresOf(rows, f)
  {
    scores := [];
    for i := 0 to |rows|
      invariant scores == ScoresOf(rows, f)[..i]
    {
      var score := ScoreOf(rows[i], i, |rows| - f - 2);
      scores := scores + [score];
    }
  }

  /** Distances, scores and partial sort together select what the reference selects. */
  method SelectCandidates(backend: Backend, updates: seq<seq<real>>, f: nat, k: nat) returns (chosen: seq<nat>)
    requires Acceptable(updates, f, k)
    ensures chosen == Reference(updates, f, k)
  {
    var distances := DistanceMatrix(backend, updates);
    var rows := ReadRows(updates, distances);
    var scores := AllScores(rows, f);
    chosen := PartialSort(scores, k);
    PartialSortAgreesWithStableSort(scores, chosen);
  }

  method KrumAggregate(backend: Backend, updates: seq<seq<real>>, f: nat, k: nat) returns (r: Option<seq<real>>)
    ensures r.Some? <==> Acceptable(updates, f, k)
    ensures r.Some? ==> |r.value| == |updates[0]|
    ensures r.Some? ==>
              forall d :: 0 <= d < |updates[0]| ==>
                            r.value[d] == MeanOf(Column(Chosen(updates, Reference(updates, f, k)), d))
  {
    if !Acceptable(updates, f, k) {
      return None;
    }
    var chosen := SelectCandidates(backend, updates, f, k);
    var mean := MeanOfChosen(updates, chosen);
    r := Some(mean);
  }

  method MeanOfChosen(updates: seq<seq<real>>, chosen: seq<nat>) returns (mean: seq<real>)
    requires ValidUpdates(updates) && chosen != [] && forall i :: 0 <= i < |chosen| ==> chosen[i] < |updates|
    ensures |mean| == |updates[0]|
    ensures forall d :: 0 <= d < |mean| ==> mean[d] == MeanOf(Column(Chosen(updates, chosen), d))
  {
    if |chosen| == 1 {
      SingleChoice(updates, chosen);
      return updates[chosen[0]];
    }
    mean := [];
    for d := 0 to |updates[0]|
      invariant |mean| == d
      invariant forall e :: 0 <= e < d ==> mean[e] == MeanOf(Column(Chosen(updates, chosen), e))
    {
      var m := MeanColumn(updates, chosen, d);
      mean := mean + [m];
    }
  }

  method MeanColumn(updates: seq<seq<real>>, chosen: seq<nat>, d: nat) returns (mean: real)
    requires ValidUpdates(updates) && d < |updates[0]|
    requires chosen != [] && forall i :: 0 <= i < |chosen| ==> chosen[i] < |updates|
    ensures mean == MeanOf(Column(Chosen(updates, chosen), d))
  {
    ghost var column := Column(Chosen(updates, chosen), d);
    var sum := 0.0;
    for p := 0 to |chosen|
      invariant sum == Sum(column[..p])
    {
      sum := sum + updates[chosen[p]][d];
      assert column[..p + 1][..p] == column[..p];
    }
    assert column[..|chosen|] == column;
    mean := sum / (|chosen| as real);
  }

  lemma SingleChoice(updates: seq<seq<real>>, chosen: seq<nat>)
    requires ValidUpdates(updates) && |chosen| == 1 && chosen[0] < |updates|
    ensures forall d :: 0 <= d < |updates[0]| ==>
                          updates[chosen[0]][d] == MeanOf(Column(Chosen(updates, chosen), d))
  {
    forall d | 0 <= d < |updates[0]|
      ensures updates[chosen[0]][d] == MeanOf(Column(Chosen(updates, chosen), d))
    {
      var x := updates[chosen[0]][d];
      assert Column(Chosen(updates, chosen), d) == [x];
      SingleMean(x);
    }
  }

  lemma SingleMean(x: real)
    ensures MeanOf([x]) == x
  {
    assert [x][..0] == [];
    assert Sum([x]) == Sum([]) + x;
    assert x / 1.0 == x;
  }
}
