/** Tables written out as lists sorted by key, and read back. */
module Keyed {
  datatype Item<+T> = Item(key: string, value: T)

  /** Order by code points, a proper prefix first. */
  predicate Less(a: string, b: string)
  {
    b != "" && (a == "" || a[0] < b[0] || (a[0] == b[0] && Less(a[1..], b[1..])))
  }

  lemma {:induction false} LessTotal(a: string, b: string)
    ensures a == b || Less(a, b) || Less(b, a)
  {
    if a != "" && b != "" && a[0] == b[0] {
      LessTotal(a[1..], b[1..]);
      assert a == [a[0]] + a[1..] && b == [b[0]] + b[1..];
    }
  }

  lemma {:induction false} LessIrreflexive(a: string)
    ensures !Less(a, a)
  {
    if a != "" {
      LessIrreflexive(a[1..]);
    }
  }

  lemma {:induction false} LessTransitive(a: string, b: string, c: string)
    requires Less(a, b) && Less(b, c)
    ensures Less(a, c)
  {
    if a != "" && a[0] == b[0] && b[0] == c[0] {
      LessTransitive(a[1..], b[1..], c[1..]);
    }
  }

  // ----- lists and maps

  ghost predicate Sorted<T>(items: seq<Item<T>>)
  {
    forall i, j :: 0 <= i < j < |items| ==> Less(items[i].key, items[j].key)
  }

  predicate Distinct<T>(items: seq<Item<T>>)
  {
    forall i, j :: 0 <= i < j < |items| ==> items[i].key != items[j].key
  }

  lemma SortedIsDistinct<T>(items: seq<Item<T>>)
    requires Sorted(items)
    ensures Distinct(items)
  {
    forall i, j | 0 <= i < j < |items| ensures items[i].key != items[j].key {
      LessIrreflexive(items[i].key);
    }
  }

  /** The table a list describes; a later item wins. */
  function ToMap<T>(items: seq<Item<T>>): map<string, T>
  {
    if items == [] then map[] else ToMap(items[..|items| - 1])[items[|items| - 1].key := items[|items| - 1].value]
  }

  lemma {:induction false} ToMapKeys<T>(items: seq<Item<T>>, k: string)
    ensures k in ToMap(items) <==> exists i :: 0 <= i < |items| && items[i].key == k
  {
    if items != [] {
      var n := |items| - 1;
      ToMapKeys(items[..n], k);
      if k in ToMap(items) && k != items[n].key {
        var i :| 0 <= i < n && items[..n][i].key == k;
        assert items[i].key == k;
      } else if k !in ToMap(items) {
        assert items[n].key != k;
        assert forall i :: 0 <= i < n ==> items[..n][i].key == items[i].key;
      } else {
        assert items[n].key == k;
      }
    }
  }

  lemma {:induction false} ToMapAt<T>(items: seq<Item<T>>, i: nat)
    requires Distinct(items) && i < |items|
    ensures items[i].key in ToMap(items) && ToMap(items)[items[i].key] == items[i].value
  {
    var n := |items| - 1;
    if i < n {
      ToMapAt(items[..n], i);
    }
  }

  lemma {:induction false} ToMapSize<T>(items: seq<Item<T>>)
    requires Distinct(items)
    ensures |ToMap(items)| == |items|
  {
    if items != [] {
      var n := |items| - 1;
      ToMapSize(items[..n]);
      ToMapKeys(items[..n], items[n].key);
      var m := ToMap(items[..n]);
      assert items[n].key !in m;
      assert m[items[n].key := items[n].value].Keys == m.Keys + {items[n].key};
    }
  }

  ghost predicate AllItems<T>(items: seq<Item<T>>, p: (string, T) -> bool)
  {
    forall i :: 0 <= i < |items| ==> p(items[i].key, items[i].value)
  }

  ghost predicate AllEntries<T>(m: map<string, T>, p: (string, T) -> bool)
  {
    forall k :: k in m ==> p(k, m[k])
  }

  lemma EntryIsItem<T>(items: seq<Item<T>>, k: string) returns (i: nat)
    requires Distinct(items) && k in ToMap(items)
    ensures i < |items| && items[i].key == k && items[i].value == ToMap(items)[k]
  {
    ToMapKeys(items, k);
    i :| 0 <= i < |items| && items[i].key == k;
    ToMapAt(items, i);
  }

  lemma ItemsCoverEntries<T(!new)>(items: seq<Item<T>>, p: (string, T) -> bool)
    requires Distinct(items) && AllItems(items, p)
    ensures AllEntries(ToMap(items), p)
  {
    forall k | k in ToMap(items) ensures p(k, ToMap(items)[k]) {
      var i := EntryIsItem(items, k);
    }
  }

  lemma EntriesCoverItems<T(!new)>(items: seq<Item<T>>, p: (string, T) -> bool)
    requires Distinct(items) && AllEntries(ToMap(items), p)
    ensures AllItems(items, p)
  {
    forall i | 0 <= i < |items| ensures p(items[i].key, items[i].value) {
      ToMapAt(items, i);
    }
  }

  /** `p` of every item is `p` of every entry. */
  lemma ItemsAreEntries<T(!new)>(items: seq<Item<T>>, p: (string, T) -> bool)
    requires Distinct(items)
    ensures AllItems(items, p) <==> AllEntries(ToMap(items), p)
  {
    if AllItems(items, p) {
      ItemsCoverEntries(items, p);
    }
    if AllEntries(ToMap(items), p) {
      EntriesCoverItems(items, p);
    }
  }

  // ----- writing a table out

  /** A list of distinct items describes the table whose entries they are. */
  ghost predicate Describes<T>(items: seq<Item<T>>, m: map<string, T>)
  {
    && (forall i :: 0 <= i < |items| ==> items[i].key in m && m[items[i].key] == items[i].value)
    && (forall k :: k in m ==> exists i :: 0 <= i < |items| && items[i].key == k)
  }

  lemma DescribedMap<T>(items: seq<Item<T>>, m: map<string, T>)
    requires Distinct(items) && Describes(items, m)
    ensures ToMap(items) == m
  {
    forall k ensures (k in ToMap(items) <==> k in m) && (k in m ==> ToMap(items)[k] == m[k]) {
      ToMapKeys(items, k);
      if k in m {
        var i :| 0 <= i < |items| && items[i].key == k;
        ToMapAt(items, i);
      }
    }
  }

  lemma InsertedSorted<T>(items: seq<Item<T>>, item: Item<T>, p: nat)
    requires Sorted(items) && p <= |items|
    requires forall i :: 0 <= i < p ==> Less(items[i].key, item.key)
    requires p < |items| ==> Less(item.key, items[p].key)
    ensures Sorted(items[..p] + [item] + items[p..])
  {
    forall i | p <= i < |items| ensures Less(item.key, items[i].key) {
      if i > p {
        LessTransitive(item.key, items[p].key, items[i].key);
      }
    }
  }

  lemma InsertedDescribes<T>(items: seq<Item<T>>, m: map<string, T>, item: Item<T>, p: nat)
    requires Describes(items, m) && p <= |items| && item.key !in m
    ensures Describes(items[..p] + [item] + items[p..], m[item.key := item.value])
  {
    var r, n := items[..p] + [item] + items[p..], m[item.key := item.value];
    forall k | k in n ensures exists i :: 0 <= i < |r| && r[i].key == k {
      if k == item.key {
        assert r[p].key == k;
      } else {
        var i :| 0 <= i < |items| && items[i].key == k;
        assert r[if i < p then i else i + 1].key == k;
      }
    }
  }

  /** Put an item with a new key into its place. */
  method InsertItem<T>(items: seq<Item<T>>, item: Item<T>, ghost m: map<string, T>) returns (r: seq<Item<T>>)
    requires Sorted(items) && Describes(items, m) && item.key !in m
    ensures Sorted(r) && Describes(r, m[item.key := item.value])
  {
    var p := 0;
    while p < |items| && Less(items[p].key, item.key)
      invariant 0 <= p <= |items|
      invariant forall i :: 0 <= i < p ==> Less(items[i].key, item.key)
    {
      p := p + 1;
    }
    if p < |items| {
      LessTotal(items[p].key, item.key);
    }
    InsertedSorted(items, item, p);
    InsertedDescribes(items, m, item, p);
    r := items[..p] + [item] + items[p..];
  }

  function Kept<T>(m: map<string, T>, keep: T -> bool): map<string, T>
  {
    map k | k in m && keep(m[k]) :: m[k]
  }

  /** Visit the table in any order and write the entries worth keeping, sorted by key. */
  method WriteTable<T>(m: map<string, T>, keep: T -> bool) returns (items: seq<Item<T>>)
    ensures Sorted(items) && Distinct(items) && ToMap(items) == Kept(m, keep)
  {
    items := [];
    var keys := m.Keys;
    ghost var written: map<string, T> := map[];
    while keys != {}
      invariant keys <= m.Keys && Sorted(items) && Describes(items, written)
      invariant forall k :: k in written <==> k in m.Keys - keys && keep(m[k])
      invariant forall k :: k in written ==> written[k] == m[k]
      decreases |keys|
    {
      var k :| k in keys;
      if keep(m[k]) {
        items := InsertItem(items, Item(k, m[k]), written);
        written := written[k := m[k]];
      }
      keys := keys - {k};
    }
    SortedIsDistinct(items);
    assert written == Kept(m, keep);
    DescribedMap(items, written);
  }

  lemma LastIsLargest<T>(items: seq<Item<T>>, k: string)
    requires Sorted(items) && k in ToMap(items)
    ensures items != [] && (k == items[|items| - 1].key || Less(k, items[|items| - 1].key))
  {
    ToMapKeys(items, k);
    var i :| 0 <= i < |items| && items[i].key == k;
  }

  lemma WithoutLast<T>(items: seq<Item<T>>)
    requires Distinct(items) && items != []
    ensures ToMap(items[..|items| - 1]) == ToMap(items) - {items[|items| - 1].key}
  {
    var front, last := items[..|items| - 1], items[|items| - 1];
    ToMapKeys(front, last.key);
    assert forall i :: 0 <= i < |front| ==> front[i].key != last.key;
    PutThenRemove(ToMap(front), last.key, last.value);
  }

  lemma PutThenRemove<T>(m: map<string, T>, k: string, v: T)
    requires k !in m
    ensures m[k := v] - {k} == m
  {
  }

  /** A table is written in exactly one way, whatever order it is visited in. */
  lemma {:induction false} WrittenOnce<T>(items: seq<Item<T>>, others: seq<Item<T>>)
    requires Sorted(items) && Sorted(others) && ToMap(items) == ToMap(others)
    ensures items == others
  {
    SortedIsDistinct(items);
    SortedIsDistinct(others);
    ToMapSize(items);
    ToMapSize(others);
    if items != [] {
      var n := |items| - 1;
      ToMapAt(items, n);
      ToMapAt(others, n);
      LastIsLargest(items, others[n].key);
      LastIsLargest(others, items[n].key);
      LessIrreflexive(items[n].key);
      if items[n].key != others[n].key {
        LessTransitive(items[n].key, others[n].key, items[n].key);
      }
      WithoutLast(items);
      WithoutLast(others);
      WrittenOnce(items[..n], others[..n]);
      assert items == items[..n] + [items[n]] && others == others[..n] + [others[n]];
    }
  }

  // ----- reading a table back

  /** Read a list into a table, refusing bad items and repeated keys. */
  method ReadTable<T>(items: seq<Item<T>>, ok: (string, T) -> bool) returns (good: bool, m: map<string, T>)
    ensures good <==> Distinct(items) && AllItems(items, ok)
    ensures good ==> m == ToMap(items)
  {
    m := map[];
    for n := 0 to |items|
      invariant m == ToMap(items[..n]) && Distinct(items[..n])
      invariant forall i :: 0 <= i < n ==> ok(items[i].key, items[i].value)
    {
      ToMapKeys(items[..n], items[n].key);
      if !ok(items[n].key, items[n].value) {
        return false, m;
      }
      if items[n].key in m {
        var i :| 0 <= i < n && items[..n][i].key == items[n].key;
        assert items[i].key == items[n].key;
        return false, m;
      }
      assert items[..n + 1][..n] == items[..n];
      m := m[items[n].key := items[n].value];
    }
    assert items[..|items|] == items;
    good := true;
  }
}
