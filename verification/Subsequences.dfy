/** One sequence embedded in another, in order. */
module Subsequences {
  predicate Embeds<T(==)>(a: seq<T>, b: seq<T>)
  {
    a == []
    || (b != [] && (Embeds(a, b[..|b| - 1]) || (b[|b| - 1] == a[|a| - 1] && Embeds(a[..|a| - 1], b[..|b| - 1]))))
  }

  lemma EmbedsMore<T>(a: seq<T>, b: seq<T>, x: T)
    requires Embeds(a, b)
    ensures Embeds(a, b + [x]) && Embeds(a + [x], b + [x])
  {
    assert (b + [x])[..|b|] == b;
    assert (a + [x])[..|a|] == a;
  }

  /** Where two elements, in order, are found. */
  lemma {:induction false} EmbedsPair<T>(a: seq<T>, b: seq<T>, i: nat, j: nat) returns (k: nat, l: nat)
    requires Embeds(a, b) && i < j < |a|
    ensures k < l < |b| && b[k] == a[i] && b[l] == a[j]
    decreases |b|
  {
    var front, n := b[..|b| - 1], |a| - 1;
    if Embeds(a, front) {
      k, l := EmbedsPair(a, front, i, j);
    } else if j < n {
      k, l := EmbedsPair(a[..n], front, i, j);
    } else {
      k := EmbedsAt(a[..n], front, i);
      l := |b| - 1;
    }
  }

  lemma {:induction false} EmbedsAt<T>(a: seq<T>, b: seq<T>, i: nat) returns (k: nat)
    requires Embeds(a, b) && i < |a|
    ensures k < |b| && b[k] == a[i]
    decreases |b|
  {
    var front, n := b[..|b| - 1], |a| - 1;
    if Embeds(a, front) {
      k := EmbedsAt(a, front, i);
    } else if i < n {
      k := EmbedsAt(a[..n], front, i);
    } else {
      k := |b| - 1;
    }
  }
}
