/** Krum's resilience: with n >= 2f+3 updates of which at least n-f are honest and pairwise
    within squared distance D, every selected update is honest or close to an honest one,
    and the aggregate stays close to the honest range in every coordinate. */
module KrumResilience {
  import opened RealSeq
  import opened Selection
  import opened Distance
  import opened OrderStats
  import opened Krum

  // ----- index sets

  lemma SubsetOfSize(s: set<nat>, m: nat) returns (t: set<nat>)
    requires m <= |s|
    ensures t <= s && |t| == m
  {
    t := s;
    while |t| > m
      invariant t <= s && |t| >= m
      decreases |t|
    {
      var x :| x in t;
      t := t - {x};
    }
  }

  /** The index with the smallest entry of a nonempty index set. */
  lemma SmallestAt(s: seq<real>, J: set<nat>) returns (j: nat)
    requires J != {} && Indices(J, |s|)
    ensures j in J && forall i :: i in J ==> s[j] <= s[i]
  {
    j :| j in J;
    var rest := J - {j};
    while rest != {}
      invariant rest < J && j in J - rest
      invariant forall i :: i in J - rest ==> s[j] <= s[i]
      decreases rest
    {
      var i :| i in rest;
      rest := rest - {i};
      if s[i] < s[j] { j := i; }
    }
  }

  lemma {:induction false} SubsetSize(s: set<nat>, t: set<nat>)
    requires s <= t
    ensures |s| <= |t|
  {
    if s != {} {
      var x :| x in s;
      SubsetSize(s - {x}, t - {x});
    }
  }

  lemma {:induction false} DistinctCount(s: seq<nat>) returns (t: set<nat>)
    requires forall i, j :: 0 <= i < j < |s| ==> s[i] != s[j]
    ensures |t| == |s| && forall x :: x in t <==> x in s
  {
    if s == [] {
      t := {};
    } else {
      t := DistinctCount(s[..|s| - 1]);
      t := t + {s[|s| - 1]};
    }
  }

  /** Of the m neighbours of an adversarial update, at least n-2f-1 are honest. */
  lemma EnoughHonest(n: nat, f: nat, N: set<nat>, honest: set<nat>, c: nat)
    requires n >= 2 * f + 3 && Neighbours(N, n, c, n - f - 2)
    requires Indices(honest, n) && |honest| >= n - f && c < n && c !in honest
    ensures |N * honest| >= n - 2 * f - 1 > 0
  {
    var bad := N - honest;
    assert bad + honest + {c} <= All(n);
    SubsetSize(bad + honest + {c}, All(n));
    assert |bad + honest + {c}| == |bad| + |honest| + 1;
    assert N == bad + N * honest;
  }

  // ----- distance matrices

  predicate NonNegative(rows: seq<seq<real>>)
  {
    forall i, j :: 0 <= i < |rows| && 0 <= j < |rows[i]| ==> rows[i][j] >= 0.0
  }

  /** At least n-f indices, pairwise within D. */
  ghost predicate HonestRows(rows: seq<seq<real>>, f: nat, honest: set<nat>, D: real)
    requires SquareMatrix(rows)
  {
    && |rows| >= 2 * f + 3 && Indices(honest, |rows|) && |honest| >= |rows| - f
    && forall i, j :: i in honest && j in honest ==> rows[i][j] <= D
  }

  /** An honest update has n-f-2 honest neighbours within D. */
  lemma HonestScore(rows: seq<seq<real>>, f: nat, honest: set<nat>, D: real, h: nat)
    requires SquareMatrix(rows) && HonestRows(rows, f, honest, D) && h in honest
    ensures ScoresOf(rows, f)[h] <= Times(|rows| - f - 2, D)
  {
    var m := |rows| - f - 2;
    var J := SubsetOfSize(honest - {h}, m);
    ScoreIsLowerBound(rows[h], h, m, J);
    PickBelow(rows[h], J, D);
  }

  /** Of any neighbours summing to the score, the nearest honest one is near enough. */
  lemma NearestOf(row: seq<real>, N: set<nat>, honest: set<nat>, q: nat) returns (h: nat)
    requires Indices(N, |row|) && |N * honest| >= q > 0
    requires forall j :: 0 <= j < |row| ==> row[j] >= 0.0
    ensures h in honest && h < |row| && Times(q, row[h]) <= Sum(Pick(row, N))
  {
    h := SmallestAt(row, N * honest);
    PickSumMonotone(row, N * honest, N);
    PickAbove(row, N * honest, row[h]);
    TimesMonotone(q, |N * honest|, row[h]);
  }

  /** An adversarial score is at least n-2f-1 times the distance to some honest update. */
  lemma NearestHonest(rows: seq<seq<real>>, f: nat, honest: set<nat>, D: real, c: nat) returns (h: nat)
    requires SquareMatrix(rows) && NonNegative(rows) && HonestRows(rows, f, honest, D)
    requires c < |rows| && c !in honest
    ensures h in honest && Times(|rows| - 2 * f - 1, rows[c][h]) <= ScoresOf(rows, f)[c]
  {
    var N := ScoreIsAttained(rows[c], c, |rows| - f - 2);
    EnoughHonest(|rows|, f, N, honest, c);
    h := NearestOf(rows[c], N, honest, |rows| - 2 * f - 1);
  }

  lemma SelectIsBestFirst(rows: seq<seq<real>>, f: nat, k: nat)
    requires SquareMatrix(rows) && f + 2 <= |rows| && k <= |rows|
    ensures BestFirst(ScoresOf(rows, f), Select(rows, f, k))
  {
    var scores := ScoresOf(rows, f);
    StableArgsortIncreasing(scores, |rows|);
    var full, chosen := StableArgsort(scores, |rows|), Select(rows, f, k);
    forall i, x | 0 <= i < k && 0 <= x < |rows| && x !in chosen ensures Before(scores, chosen[i], x) {
      assert x in full;
      var j :| 0 <= j < |rows| && full[j] == x;
      assert forall p :: 0 <= p < k ==> chosen[p] == full[p];
    }
  }

  /** Some honest index is not chosen; it scores no better than any chosen one. */
  lemma UnselectedHonest(scores: seq<real>, chosen: seq<nat>, honest: set<nat>) returns (h: nat)
    requires BestFirst(scores, chosen) && Indices(honest, |scores|) && |chosen| < |honest|
    ensures h in honest
    ensures forall i :: 0 <= i < |chosen| ==> scores[chosen[i]] <= scores[h]
  {
    var picked := DistinctCount(chosen);
    assert !(honest <= picked) by {
      if honest <= picked { SubsetSize(honest, picked); }
    }
    h :| h in honest && h !in picked;
  }

  /** Every chosen adversarial index is close to an honest one. */
  lemma ChosenRowIsClose(rows: seq<seq<real>>, f: nat, chosen: seq<nat>, honest: set<nat>, D: real, i: nat)
    returns (h: nat)
    requires SquareMatrix(rows) && NonNegative(rows) && HonestRows(rows, f, honest, D)
    requires BestFirst(ScoresOf(rows, f), chosen) && i < |chosen| <= |rows| - f - 2 && chosen[i] !in honest
    ensures h in honest
    ensures Times(|rows| - 2 * f - 1, rows[chosen[i]][h]) <= Times(|rows| - f - 2, D)
  {
    var g := UnselectedHonest(ScoresOf(rows, f), chosen, honest);
    HonestScore(rows, f, honest, D, g);
    h := NearestHonest(rows, f, honest, D, chosen[i]);
  }

  // ----- updates

  ghost predicate Honest(updates: seq<seq<real>>, f: nat, honest: set<nat>, D: real)
    requires ValidUpdates(updates)
  {
    && Indices(honest, |updates|) && |honest| >= |updates| - f
    && forall i, j :: i in honest && j in honest ==> SquaredDistance(updates[i], updates[j]) <= D
  }

  lemma RowsOfHonest(updates: seq<seq<real>>, f: nat, honest: set<nat>, D: real)
    requires ValidUpdates(updates) && |updates| >= 2 * f + 3 && Honest(updates, f, honest, D)
    ensures NonNegative(Rows(updates)) && HonestRows(Rows(updates), f, honest, D)
  {
    var rows := Rows(updates);
    forall i, j | 0 <= i < |rows| && 0 <= j < |rows[i]| ensures rows[i][j] >= 0.0 {
      assert rows[i] == Row(updates, i);
    }
    forall i, j | i in honest && j in honest ensures rows[i][j] <= D {
      assert rows[i] == Row(updates, i);
    }
  }

  /** The squared distance `x` is at most (n-f-2) D / (n-2f-1). */
  predicate Close(n: nat, f: nat, D: real, x: real)
    requires n >= 2 * f + 3
  {
    ((n - 2 * f - 1) as real) * x <= ((n - f - 2) as real) * D
  }

  lemma CloseByTimes(n: nat, f: nat, D: real, x: real)
    requires n >= 2 * f + 3 && Times(n - 2 * f - 1, x) <= Times(n - f - 2, D)
    ensures Close(n, f, D, x)
  {
    TimesIsProduct(n - 2 * f - 1, x);
    TimesIsProduct(n - f - 2, D);
  }

  lemma ChosenIsClose(updates: seq<seq<real>>, f: nat, chosen: seq<nat>, honest: set<nat>, D: real, i: nat)
    returns (h: nat)
    requires ValidUpdates(updates) && |updates| >= 2 * f + 3 && Honest(updates, f, honest, D)
    requires BestFirst(ScoresOf(Rows(updates), f), chosen) && i < |chosen| <= |updates| - f - 2
    ensures h in honest
    ensures if chosen[i] in honest then h == chosen[i]
            else Close(|updates|, f, D, SquaredDistance(updates[chosen[i]], updates[h]))
  {
    if chosen[i] in honest {
      h := chosen[i];
    } else {
      h := IntruderIsClose(updates, f, chosen, honest, D, i);
    }
  }

  lemma IntruderIsClose(updates: seq<seq<real>>, f: nat, chosen: seq<nat>, honest: set<nat>, D: real, i: nat)
    returns (h: nat)
    requires ValidUpdates(updates) && |updates| >= 2 * f + 3 && Honest(updates, f, honest, D)
    requires BestFirst(ScoresOf(Rows(updates), f), chosen) && i < |chosen| <= |updates| - f - 2 && chosen[i] !in honest
    ensures h in honest && Close(|updates|, f, D, SquaredDistance(updates[chosen[i]], updates[h]))
  {
    var rows, c := Rows(updates), chosen[i];
    RowsOfHonest(updates, f, honest, D);
    h := ChosenRowIsClose(rows, f, chosen, honest, D, i);
    RowsAt(updates, c, h);
    CloseByTimes(|updates|, f, D, rows[c][h]);
  }

  lemma RowsAt(updates: seq<seq<real>>, c: nat, h: nat)
    requires ValidUpdates(updates) && c < |updates| && h < |updates|
    ensures |Rows(updates)| == |updates| && |Rows(updates)[c]| == |updates|
    ensures Rows(updates)[c][h] == SquaredDistance(updates[c], updates[h])
  {
    assert Rows(updates)[c] == Row(updates, c);
  }

  /** Every selected update is honest, or close to an honest one. */
  lemma SelectedIsCloseToHonest(updates: seq<seq<real>>, f: nat, k: nat, honest: set<nat>, D: real, i: nat)
    returns (h: nat)
    requires Acceptable(updates, f, k) && Honest(updates, f, honest, D) && i < k
    ensures h in honest
    ensures var c := Reference(updates, f, k)[i];
            if c in honest then h == c else Close(|updates|, f, D, SquaredDistance(updates[c], updates[h]))
  {
    SelectIsBestFirst(Rows(updates), f, k);
    h := ChosenIsClose(updates, f, Reference(updates, f, k), honest, D, i);
  }

  lemma LargerSquare(y: real, r: real)
    requires y > r >= 0.0
    ensures Square(y) > Square(r)
  {
    var u, v := y - r, y + r;
    PositiveProduct(u, v);
    calc {
      u * v;
      (y - r) * (y + r);
      y * (y + r) - r * (y + r);
      y * y + y * r - (r * y + r * r);
      y * y - r * r;
    }
  }

  lemma PositiveProduct(a: real, b: real)
    requires a > 0.0 && b > 0.0
    ensures a * b > 0.0
  {
  }

  lemma SquareOrder(x: real, r: real)
    requires r >= 0.0 && Square(x) <= Square(r)
    ensures -r <= x <= r
  {
    if x > r { LargerSquare(x, r); }
    if -x > r { LargerSquare(-x, r); }
  }

  /** A squared radius covering every selected update: B >= (n-f-2) D / (n-2f-1). */
  predicate Covers(n: nat, f: nat, D: real, B: real)
    requires n >= 2 * f + 3
  {
    B >= 0.0 && ((n - f - 2) as real) * D <= ((n - 2 * f - 1) as real) * B
  }

  lemma CloseIsCovered(n: nat, f: nat, D: real, x: real, B: real)
    requires n >= 2 * f + 3 && Close(n, f, D, x) && Covers(n, f, D, B)
    ensures x <= B
  {
    CancelFactor((n - 2 * f - 1) as real, x, B);
  }

  lemma CancelFactor(q: real, a: real, b: real)
    requires q > 0.0 && q * a <= q * b
    ensures a <= b
  {
    if b < a {
      PositiveProduct(q, a - b);
    }
  }

  lemma SelectedIsCovered(updates: seq<seq<real>>, f: nat, k: nat, honest: set<nat>, D: real, i: nat, B: real)
    returns (h: nat)
    requires Acceptable(updates, f, k) && Honest(updates, f, honest, D) && i < k && Covers(|updates|, f, D, B)
    ensures h in honest
    ensures SquaredDistance(updates[Reference(updates, f, k)[i]], updates[h]) <= B
  {
    h := SelectedIsCloseToHonest(updates, f, k, honest, D, i);
    var c := Reference(updates, f, k)[i];
    var x := SquaredDistance(updates[c], updates[h]);
    if c in honest {
      SelfDistance(updates[c], |updates[c]|);
    } else {
      CloseIsCovered(|updates|, f, D, x, B);
    }
  }

  lemma CloseCoordinates(a: seq<real>, b: seq<real>, d: nat, r: real)
    requires |a| == |b| && d < |a| && r >= 0.0 && SquaredDistance(a, b) <= Square(r)
    ensures b[d] - r <= a[d] <= b[d] + r
  {
    CoordinateWithinDistance(a, b, |a|, d);
    SquareOrder(a[d] - b[d], r);
  }

  /** The whole aggregate: every output coordinate lies within `r` of the honest range. */
  lemma AggregateNearHonestRange(updates: seq<seq<real>>, f: nat, k: nat, honest: set<nat>, D: real,
                                 d: nat, lo: real, hi: real, r: real)
    requires Acceptable(updates, f, k) && Honest(updates, f, honest, D)
    requires r >= 0.0 && Covers(|updates|, f, D, Square(r))
    requires d < |updates[0]| && TrustedWithin(Column(updates, d), honest, lo, hi)
    ensures lo - r <= MeanOf(Column(Chosen(updates, Reference(updates, f, k)), d)) <= hi + r
  {
    var chosen := Reference(updates, f, k);
    var column := Column(Chosen(updates, chosen), d);
    forall i | 0 <= i < |column| ensures lo - r <= column[i] <= hi + r {
      var h := SelectedIsCovered(updates, f, k, honest, D, i, Square(r));
      CloseCoordinates(updates[chosen[i]], updates[h], d, r);
      assert Column(updates, d)[h] == updates[h][d];
    }
    MeanWithin(column, lo - r, hi + r);
  }
}
