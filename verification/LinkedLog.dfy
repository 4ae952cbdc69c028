/** Logs whose records are checked one by one against the hash of their predecessor. What a
    record's check is, and what its hash is, are parameters. */
module LinkedLog {
  import opened Text

  type Check<!R> = (R, seq<byte>, int) -> bool

  /** Each record passes its check against the head before it and the next sequence number. */
  predicate Links<R>(check: Check<R>, hashOf: R -> seq<byte>, rs: seq<R>, previous: seq<byte>, sequence: int)
  {
    rs != [] ==> check(rs[0], previous, sequence + 1) && Links(check, hashOf, rs[1..], hashOf(rs[0]), sequence + 1)
  }

  /** The head hash after `rs`. */
  function Head<R>(hashOf: R -> seq<byte>, rs: seq<R>, previous: seq<byte>): seq<byte>
  {
    if rs == [] then previous else hashOf(rs[|rs| - 1])
  }

  lemma HeadOfPrefix<R>(hashOf: R -> seq<byte>, rs: seq<R>, k: nat, previous: seq<byte>)
    requires 0 < k <= |rs|
    ensures Head(hashOf, rs[..k], previous) == hashOf(rs[k - 1])
  {
    assert rs[..k] != [] && rs[..k][k - 1] == rs[k - 1];
  }

  /** A concatenation is linked exactly when its parts are, with the head carried over. */
  lemma {:induction false} LinksConcat<R>(check: Check<R>, hashOf: R -> seq<byte>, a: seq<R>, b: seq<R>,
                                          previous: seq<byte>, sequence: int)
    ensures Links(check, hashOf, a + b, previous, sequence) <==>
            Links(check, hashOf, a, previous, sequence)
            && Links(check, hashOf, b, Head(hashOf, a, previous), sequence + |a|)
  {
    if a == [] {
      assert a + b == b;
    } else {
      assert (a + b)[0] == a[0] && (a + b)[1..] == a[1..] + b;
      LinksConcat(check, hashOf, a[1..], b, hashOf(a[0]), sequence + 1);
      assert Head(hashOf, a[1..], hashOf(a[0])) == Head(hashOf, a, previous);
    }
  }

  lemma LinksOne<R>(check: Check<R>, hashOf: R -> seq<byte>, r: R, previous: seq<byte>, sequence: int)
    ensures Links(check, hashOf, [r], previous, sequence) <==> check(r, previous, sequence + 1)
  {
    assert [r][1..] == [];
  }

  lemma LinksAt<R>(check: Check<R>, hashOf: R -> seq<byte>, rs: seq<R>, previous: seq<byte>, sequence: int, i: nat)
    requires Links(check, hashOf, rs, previous, sequence) && i < |rs|
    ensures check(rs[i], Head(hashOf, rs[..i], previous), sequence + i + 1)
  {
    assert rs == rs[..i] + rs[i..];
    LinksConcat(check, hashOf, rs[..i], rs[i..], previous, sequence);
  }

  /** Any stretch of a complete log is linked behind what precedes it. */
  lemma LinksStretch<R>(check: Check<R>, hashOf: R -> seq<byte>, rs: seq<R>, i: nat, j: nat)
    requires Links(check, hashOf, rs, [], 0) && i <= j <= |rs|
    ensures Links(check, hashOf, rs[i..j], Head(hashOf, rs[..i], []), i)
  {
    var front := rs[..j];
    assert Links(check, hashOf, front, [], 0) by {
      assert rs == front + rs[j..];
      LinksConcat(check, hashOf, front, rs[j..], [], 0);
    }
    assert front[..i] == rs[..i] && front[i..] == rs[i..j] && front == front[..i] + front[i..];
    LinksConcat(check, hashOf, front[..i], front[i..], [], 0);
  }

  /** The verification loop: a running head and a running sequence number. */
  method VerifyLinks<R>(check: Check<R>, hashOf: R -> seq<byte>, records: seq<R>, previousHash: seq<byte>, previousSequence: int)
    returns (ok: bool)
    ensures ok <==> Links(check, hashOf, records, previousHash, previousSequence)
  {
    var expectedPrevious, expectedSequence := previousHash, previousSequence + 1;
    for i := 0 to |records|
      invariant expectedSequence == previousSequence + 1 + i
      invariant Links(check, hashOf, records, previousHash, previousSequence)
                <==> Links(check, hashOf, records[i..], expectedPrevious, expectedSequence - 1)
    {
      var record := records[i];
      assert records[i..][0] == record && records[i..][1..] == records[i + 1..];
      if !check(record, expectedPrevious, expectedSequence) {
        return false;
      }
      expectedPrevious, expectedSequence := hashOf(record), expectedSequence + 1;
    }
    ok := true;
  }

  // ----- appending

  /** Records built one after the other behind the current head. */
  function Appended<R, E>(next: (nat, seq<byte>, E) -> R, hashOf: R -> seq<byte>, chain: seq<R>, events: seq<E>): (r: seq<R>)
    ensures |r| == |chain| + |events|
  {
    if events == [] then chain
    else
      var shorter := Appended(next, hashOf, chain, events[..|events| - 1]);
      shorter + [next(|shorter|, Head(hashOf, shorter, []), events[|events| - 1])]
  }

  /** The insertion loop: every event in turn behind the current head, or nothing at all. */
  method AppendEach<R, E>(next: (nat, seq<byte>, E) -> R, hashOf: R -> seq<byte>, valid: E -> bool, chain: seq<R>, events: seq<E>)
    returns (r: Option<seq<R>>)
    ensures r == if forall i :: 0 <= i < |events| ==> valid(events[i]) then Some(Appended(next, hashOf, chain, events)) else None
  {
    var lastSequence, previousHash, table := |chain|, Head(hashOf, chain, []), chain;
    for i := 0 to |events|
      invariant forall j :: 0 <= j < i ==> valid(events[j])
      invariant table == Appended(next, hashOf, chain, events[..i])
      invariant lastSequence == |table| && previousHash == Head(hashOf, table, [])
    {
      if !valid(events[i]) {
        return None;
      }
      var record := next(lastSequence, previousHash, events[i]);
      assert events[..i + 1][..i] == events[..i];
      table := table + [record];
      lastSequence, previousHash := lastSequence + 1, hashOf(record);
    }
    assert events[..|events|] == events;
    r := Some(table);
  }

  ghost predicate GoodNext<R, E>(check: Check<R>, hashOf: R -> seq<byte>, next: (nat, seq<byte>, E) -> R,
                                 link: seq<byte> -> bool, valid: E -> bool, n: nat, h: seq<byte>, e: E)
  {
    link(h) && valid(e) ==> check(next(n, h, e), h, n + 1) && link(hashOf(next(n, h, e)))
  }

  /** The builder makes records that pass the check and have hashes fit to link to. */
  ghost predicate Sound<R, E(!new)>(check: Check<R>, hashOf: R -> seq<byte>, next: (nat, seq<byte>, E) -> R,
                                    link: seq<byte> -> bool, valid: E -> bool)
  {
    && link([])
    && forall n: nat, h: seq<byte>, e: E :: GoodNext(check, hashOf, next, link, valid, n, h, e)
  }

  /** Appending events that the builder accepts keeps a complete chain linked. */
  lemma {:induction false} AppendKeepsLinks<R, E(!new)>(check: Check<R>, hashOf: R -> seq<byte>, next: (nat, seq<byte>, E) -> R,
                                                        link: seq<byte> -> bool, valid: E -> bool, chain: seq<R>, events: seq<E>)
    requires Sound(check, hashOf, next, link, valid)
    requires Links(check, hashOf, chain, [], 0) && link(Head(hashOf, chain, []))
    requires forall i :: 0 <= i < |events| ==> valid(events[i])
    ensures Links(check, hashOf, Appended(next, hashOf, chain, events), [], 0)
    ensures link(Head(hashOf, Appended(next, hashOf, chain, events), []))
  {
    if events != [] {
      var n := |events| - 1;
      AppendKeepsLinks(check, hashOf, next, link, valid, chain, events[..n]);
      var shorter := Appended(next, hashOf, chain, events[..n]);
      var h := Head(hashOf, shorter, []);
      var r := next(|shorter|, h, events[n]);
      assert GoodNext(check, hashOf, next, link, valid, |shorter|, h, events[n]);
      LinksOne(check, hashOf, r, h, |shorter|);
      LinksConcat(check, hashOf, shorter, [r], [], 0);
    }
  }

  /** The record added for the i-th event is built behind everything before it. */
  lemma {:induction false} AppendedAt<R, E>(next: (nat, seq<byte>, E) -> R, hashOf: R -> seq<byte>,
                                            chain: seq<R>, events: seq<E>, i: nat)
    requires i < |events|
    ensures var all := Appended(next, hashOf, chain, events);
            && all[..|chain|] == chain
            && all[|chain| + i] == next(|chain| + i, Head(hashOf, all[..|chain| + i], []), events[i])
  {
    var n := |events| - 1;
    var shorter, all := Appended(next, hashOf, chain, events[..n]), Appended(next, hashOf, chain, events);
    assert all[..|chain| + n] == shorter;
    AppendedPrefix(next, hashOf, chain, events);
    if i < n {
      AppendedAt(next, hashOf, chain, events[..n], i);
      assert shorter[..|chain| + i] == all[..|chain| + i];
    }
  }

  lemma {:induction false} AppendedPrefix<R, E>(next: (nat, seq<byte>, E) -> R, hashOf: R -> seq<byte>, chain: seq<R>, events: seq<E>)
    ensures Appended(next, hashOf, chain, events)[..|chain|] == chain
  {
    if events != [] {
      AppendedPrefix(next, hashOf, chain, events[..|events| - 1]);
    }
  }

  // ----- what equal heads prove

  /** Two records that pass against possibly different heads, yet hash alike. */
  ghost predicate Clash<R>(check: Check<R>, hashOf: R -> seq<byte>, sequence: int,
                           a: R, p: seq<byte>, b: R, q: seq<byte>)
  {
    check(a, p, sequence) && check(b, q, sequence) && hashOf(a) == hashOf(b)
  }

  /** The records at `i` agree, and so do the heads they were checked against. */
  predicate AgreeAt<R>(hashOf: R -> seq<byte>, same: (R, R) -> bool, a: seq<R>, b: seq<R>, previous: seq<byte>, i: nat)
    requires i < |a| && i < |b|
  {
    same(a[i], b[i]) && Head(hashOf, a[..i], previous) == Head(hashOf, b[..i], previous)
  }

  /** Equally long linked logs with equal heads either agree at every position, or contain
      two clashing records that do not agree. */
  lemma EqualHeads<R>(check: Check<R>, hashOf: R -> seq<byte>, same: (R, R) -> bool,
                      a: seq<R>, b: seq<R>, previous: seq<byte>, sequence: int)
    returns (bad: int)
    requires Links(check, hashOf, a, previous, sequence) && Links(check, hashOf, b, previous, sequence)
    requires |a| == |b| && Head(hashOf, a, previous) == Head(hashOf, b, previous)
    ensures -1 <= bad < |a|
    ensures forall i :: bad < i < |a| ==> AgreeAt(hashOf, same, a, b, previous, i)
    ensures bad >= 0 ==>
              && !AgreeAt(hashOf, same, a, b, previous, bad)
              && Clash(check, hashOf, sequence + bad + 1,
                       a[bad], Head(hashOf, a[..bad], previous), b[bad], Head(hashOf, b[..bad], previous))
  {
    bad := |a| - 1;
    assert a[..|a|] == a && b[..|b|] == b;
    while bad >= 0 && AgreeAt(hashOf, same, a, b, previous, bad)
      invariant -1 <= bad < |a|
      invariant Head(hashOf, a[..bad + 1], previous) == Head(hashOf, b[..bad + 1], previous)
      invariant forall i :: bad < i < |a| ==> AgreeAt(hashOf, same, a, b, previous, i)
    {
      bad := bad - 1;
    }
    if bad >= 0 {
      LinksAt(check, hashOf, a, previous, sequence, bad);
      LinksAt(check, hashOf, b, previous, sequence, bad);
    }
  }
}
