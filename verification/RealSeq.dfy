/** Finite sequences of exact reals: sums, sorting and order statistics. */
module RealSeq {

  function Sum(s: seq<real>): real
  {
    if s == [] then 0.0 else Sum(s[..|s| - 1]) + s[|s| - 1]
  }

  predicate Sorted(s: seq<real>)
  {
    forall i, j :: 0 <= i < j < |s| ==> s[i] <= s[j]
  }

  ghost predicate SameElements<T>(s: seq<T>, t: seq<T>)
  {
    multiset(s) == multiset(t)
  }

  function RemoveAt<T>(s: seq<T>, i: nat): (r: seq<T>)
    requires i < |s|
    ensures |r| == |s| - 1
    ensures multiset(s) == multiset(r) + multiset{s[i]}
    ensures multiset(r) == multiset(s) - multiset{s[i]}
  {
    assert s == s[..i] + [s[i]] + s[i + 1..];
    s[..i] + s[i + 1..]
  }

  lemma {:induction false} SumAppend(s: seq<real>, t: seq<real>)
    ensures Sum(s + t) == Sum(s) + Sum(t)
  {
    if t == [] {
      assert s + t == s;
    } else {
      var m := |t| - 1;
      assert (s + t)[..|s + t| - 1] == s + t[..m];
      SumAppend(s, t[..m]);
    }
  }

  lemma {:induction false} SumRemoveAt(s: seq<real>, i: nat)
    requires i < |s|
    ensures Sum(s) == Sum(RemoveAt(s, i)) + s[i]
  {
    assert s == (s[..i] + [s[i]]) + s[i + 1..];
    SumAppend(s[..i] + [s[i]], s[i + 1..]);
    SumAppend(s[..i], [s[i]]);
    SumAppend(s[..i], s[i + 1..]);
    assert Sum([s[i]]) == Sum([]) + s[i] by { assert [s[i]][..0] == []; }
  }

  /** A sum does not depend on the order of its terms. */
  lemma {:induction false} SumOrderIrrelevant(s: seq<real>, t: seq<real>)
    requires SameElements(s, t)
    ensures Sum(s) == Sum(t)
  {
    if s == [] {
      assert |multiset(t)| == 0;
      assert t == [];
    } else {
      var m := |s| - 1;
      assert s == s[..m] + [s[m]];
      assert s[m] in multiset(s);
      var i :| 0 <= i < |t| && t[i] == s[m];
      SumRemoveAt(t, i);
      assert multiset(s[..m]) == multiset(s) - multiset{s[m]};
      SumOrderIrrelevant(s[..m], RemoveAt(t, i));
    }
  }

  lemma {:induction false} SumBounds(s: seq<real>, lo: real, hi: real)
    requires forall i :: 0 <= i < |s| ==> lo <= s[i] <= hi
    ensures lo * (|s| as real) <= Sum(s) <= hi * (|s| as real)
  {
    if s != [] {
      SumBounds(s[..|s| - 1], lo, hi);
    }
  }

  // ----- sorting

  lemma SortedSnoc(s: seq<real>, x: real)
    requires Sorted(s) && forall i :: 0 <= i < |s| ==> s[i] <= x
    ensures Sorted(s + [x]) && multiset(s + [x]) == multiset(s) + multiset{x}
  {
  }

  function Insert(x: real, s: seq<real>): (r: seq<real>)
    ensures |r| == |s| + 1
  {
    if s == [] || s[|s| - 1] <= x then s + [x]
    else Insert(x, s[..|s| - 1]) + [s[|s| - 1]]
  }

  lemma {:induction false} InsertSorts(x: real, s: seq<real>)
    requires Sorted(s)
    ensures Sorted(Insert(x, s)) && multiset(Insert(x, s)) == multiset(s) + multiset{x}
  {
    if s == [] || s[|s| - 1] <= x {
      SortedSnoc(s, x);
    } else {
      var last := s[|s| - 1];
      var t := Insert(x, s[..|s| - 1]);
      InsertSorts(x, s[..|s| - 1]);
      DropLast(s);
      AllAtMost(t, s[..|s| - 1], x, last);
      SortedSnoc(t, last);
    }
  }

  lemma AllAtMost(t: seq<real>, s: seq<real>, x: real, bound: real)
    requires multiset(t) == multiset(s) + multiset{x}
    requires x <= bound && forall i :: 0 <= i < |s| ==> s[i] <= bound
    ensures forall i :: 0 <= i < |t| ==> t[i] <= bound
  {
    forall i | 0 <= i < |t| ensures t[i] <= bound {
      assert t[i] in multiset(t);
    }
  }

  function Sort(s: seq<real>): (r: seq<real>)
    ensures |r| == |s|
  {
    if s == [] then [] else Insert(s[|s| - 1], Sort(s[..|s| - 1]))
  }

  lemma {:induction false} SortSorts(s: seq<real>)
    ensures Sorted(Sort(s)) && SameElements(Sort(s), s)
  {
    if s != [] {
      SortSorts(s[..|s| - 1]);
      InsertSorts(s[|s| - 1], Sort(s[..|s| - 1]));
      DropLast(s);
    }
  }

  lemma SortedLastIsLargest(s: seq<real>, x: real)
    requires Sorted(s) && x in multiset(s)
    ensures x <= s[|s| - 1]
  {
    var i :| 0 <= i < |s| && s[i] == x;
  }

  lemma DropLast<T>(s: seq<T>)
    requires s != []
    ensures s == s[..|s| - 1] + [s[|s| - 1]]
    ensures multiset(s[..|s| - 1]) == multiset(s) - multiset{s[|s| - 1]}
  {
    var t := s[..|s| - 1];
    assert s == t + [s[|s| - 1]];
    assert multiset(s) == multiset(t) + multiset{s[|s| - 1]};
  }

  lemma SameLength<T>(s: seq<T>, t: seq<T>)
    requires SameElements(s, t)
    ensures |s| == |t|
  {
    assert |multiset(s)| == |s| && |multiset(t)| == |t|;
  }

  lemma SortedSameLast(s: seq<real>, t: seq<real>)
    requires Sorted(s) && Sorted(t) && SameElements(s, t) && |s| == |t| > 0
    ensures s[|s| - 1] == t[|s| - 1] && SameElements(s[..|s| - 1], t[..|s| - 1])
  {
    SortedLastIsLargest(s, t[|s| - 1]);
    SortedLastIsLargest(t, s[|s| - 1]);
    DropLast(s);
    DropLast(t);
  }

  /** Two sorted sequences over the same elements are the same sequence. */
  lemma {:induction false} SortedUnique(s: seq<real>, t: seq<real>)
    requires Sorted(s) && Sorted(t) && SameElements(s, t)
    ensures s == t
  {
    SameLength(s, t);
    if s != [] {
      SortedSameLast(s, t);
      SortedUnique(s[..|s| - 1], t[..|s| - 1]);
    }
  }

  lemma SortOrderIrrelevant(s: seq<real>, t: seq<real>)
    requires SameElements(s, t)
    ensures Sort(s) == Sort(t)
  {
    SortSorts(s);
    SortSorts(t);
    SortedUnique(Sort(s), Sort(t));
  }

  // ----- counting

  /** The number of entries strictly below `x`, or strictly above it. */
  function CountOutside(s: seq<real>, x: real, below: bool): (c: nat)
    ensures c <= |s|
  {
    if s == [] then 0
    else
      var v := s[|s| - 1];
      CountOutside(s[..|s| - 1], x, below) + (if (if below then v < x else v > x) then 1 else 0)
  }

  lemma {:induction false} CountAppend(s: seq<real>, t: seq<real>, x: real, below: bool)
    ensures CountOutside(s + t, x, below) == CountOutside(s, x, below) + CountOutside(t, x, below)
  {
    if t == [] {
      assert s + t == s;
    } else {
      assert (s + t)[..|s + t| - 1] == s + t[..|t| - 1];
      CountAppend(s, t[..|t| - 1], x, below);
    }
  }

  lemma {:induction false} CountOrderIrrelevant(s: seq<real>, t: seq<real>, x: real, below: bool)
    requires SameElements(s, t)
    ensures CountOutside(s, x, below) == CountOutside(t, x, below)
  {
    if s == [] {
      assert |multiset(t)| == 0;
      assert t == [];
    } else {
      var m := |s| - 1;
      assert s == s[..m] + [s[m]];
      assert s[m] in multiset(s);
      var i :| 0 <= i < |t| && t[i] == s[m];
      assert t == (t[..i] + [t[i]]) + t[i + 1..];
      CountAppend(t[..i] + [t[i]], t[i + 1..], x, below);
      CountAppend(t[..i], [t[i]], x, below);
      CountAppend(t[..i], t[i + 1..], x, below);
      assert RemoveAt(t, i) == t[..i] + t[i + 1..];
      assert [t[i]][..0] == [];
      assert multiset(s[..m]) == multiset(s) - multiset{s[m]};
      CountOrderIrrelevant(s[..m], RemoveAt(t, i), x, below);
    }
  }

  /** If every entry of a slice lies outside, the count is at least the slice's length. */
  lemma {:induction false} CountAll(s: seq<real>, x: real, below: bool)
    requires forall i :: 0 <= i < |s| ==> if below then s[i] < x else s[i] > x
    ensures CountOutside(s, x, below) == |s|
  {
    if s != [] {
      CountAll(s[..|s| - 1], x, below);
    }
  }

  /** Indices of trusted entries: every entry outside [lo, hi] is untrusted. */
  ghost predicate TrustedWithin(s: seq<real>, trusted: set<nat>, lo: real, hi: real)
  {
    forall i :: i in trusted ==> i < |s| && lo <= s[i] <= hi
  }

  lemma {:induction false} OutliersAreUntrusted(s: seq<real>, trusted: set<nat>, lo: real, hi: real)
    requires TrustedWithin(s, trusted, lo, hi)
    ensures CountOutside(s, lo, true) + |trusted| <= |s|
    ensures CountOutside(s, hi, false) + |trusted| <= |s|
  {
    if s == [] {
      assert trusted == {};
    } else {
      var m := |s| - 1;
      var rest := trusted - {m};
      assert forall i :: i in rest ==> i < m && s[..m][i] == s[i];
      OutliersAreUntrusted(s[..m], rest, lo, hi);
      if m in trusted {
        assert trusted == rest + {m};
      } else {
        assert trusted == rest;
      }
    }
  }

  lemma {:induction false} CountSortedPrefix(r: seq<real>, x: real, i: nat)
    requires Sorted(r) && i < |r| && r[i] < x
    ensures CountOutside(r, x, true) > i
  {
    assert r == r[..i + 1] + r[i + 1..];
    CountAppend(r[..i + 1], r[i + 1..], x, true);
    CountAll(r[..i + 1], x, true);
  }

  lemma {:induction false} CountSortedSuffix(r: seq<real>, x: real, i: nat)
    requires Sorted(r) && i < |r| && r[i] > x
    ensures CountOutside(r, x, false) >= |r| - i
  {
    assert r == r[..i] + r[i..];
    CountAppend(r[..i], r[i..], x, false);
    CountAll(r[i..], x, false);
  }

  /** An order statistic with at least as many entries on both sides as there are
      untrusted values lies in the range of the trusted values. */
  lemma {:induction false} OrderStatisticWithin(s: seq<real>, trusted: set<nat>, lo: real, hi: real, i: nat)
    requires TrustedWithin(s, trusted, lo, hi)
    requires |s| - |trusted| <= i < |trusted| && i < |s|
    ensures lo <= Sort(s)[i] <= hi
  {
    var r := Sort(s);
    SortSorts(s);
    OutliersAreUntrusted(s, trusted, lo, hi);
    CountOrderIrrelevant(r, s, lo, true);
    CountOrderIrrelevant(r, s, hi, false);
    if r[i] < lo {
      CountSortedPrefix(r, lo, i);
    }
    if r[i] > hi {
      CountSortedSuffix(r, hi, i);
    }
  }
}
