/** Conservation of updates. A book kept from the acknowledged traffic alone agrees with the
    coordinator in every run: each acknowledged update is in exactly one closed round, or was dropped
    by its node's revocation, or is still pending. */
module Ledger {
  import opened Text
  import opened Core
  import opened Service
  import opened Moves
  import opened Snapshots
  import opened History

  /** What an acknowledgement says about an update: its identifier and the round it was made for. */
  datatype Posted = Posted(updateID: string, round: nat, version: string)

  datatype Item = Item(node: string, posted: Posted)

  datatype Book = Book(open: map<string, Posted>, batches: seq<map<string, Posted>>, dropped: seq<Item>)

  const EMPTY := Book(map[], [], [])

  predicate IsAccept(e: Event)
  {
    e.Rpc? && e.response.Accepted? && e.request.Submit?
  }

  function ItemOf(e: Event): Item
    requires IsAccept(e)
  {
    Item(e.request.node, Posted(e.response.updateID, e.request.submission.round, e.request.submission.baseVersion))
  }

  /** One event, as seen from outside: requests and responses only. */
  function Post(b: Book, e: Event): Book
  {
    if IsAccept(e) then
      var open := b.open[ItemOf(e).node := ItemOf(e).posted];
      if e.response.aggregated then Book(map[], b.batches + [open], b.dropped) else b.(open := open)
    else if e.Rpc? && e.response.Revoked? && e.response.target in b.open then
      Book(b.open - {e.response.target}, b.batches, b.dropped + [Item(e.response.target, b.open[e.response.target])])
    else b
  }

  function Keep(run: seq<Transition>): Book
  {
    if run == [] then EMPTY else Post(Keep(run[..|run| - 1]), run[|run| - 1].event)
  }

  // ----- the book agrees with the coordinator

  /** The open column lists exactly the pending updates, all made for the current round. */
  ghost predicate OpenAgrees(open: map<string, Posted>, s: State)
  {
    && open.Keys == s.pending.Keys
    && forall n :: n in open ==> open[n] == Posted(s.pending[n].updateID, s.model.round, s.model.version)
  }

  /** A closed round: exactly the quorum, distinct nodes, all for that round and one version. */
  ghost predicate BatchOk(env: Env, batch: map<string, Posted>, round: nat)
  {
    && |batch| == env.minUpdates
    && (forall n :: n in batch ==> batch[n].round == round)
    && (forall m, n :: m in batch && n in batch ==> batch[m].version == batch[n].version)
  }

  ghost predicate Balanced(env: Env, b: Book, first: nat, s: State)
  {
    && OpenAgrees(b.open, s) && |s.pending| < env.minUpdates
    && first + |b.batches| == s.model.round
    && forall i :: 0 <= i < |b.batches| ==> BatchOk(env, b.batches[i], first + i)
  }

  lemma GrownSize<T, U>(m: map<string, T>, p: map<string, U>, k: string, x: T, y: U)
    requires m.Keys == p.Keys
    ensures m[k := x].Keys == p[k := y].Keys && |m[k := x]| == |p[k := y]|
    ensures |m| == |p|
    ensures k !in m ==> |m[k := x]| == |m| + 1
  {
    assert m[k := x].Keys == m.Keys + {k} && p[k := y].Keys == p.Keys + {k};
    assert |m| == |m.Keys| && |p| == |p.Keys|;
  }

  lemma JoinedBalanced(env: Env, b: Book, first: nat, s: State, t: State, e: Event, u: Update)
    requires IsAccept(e) && Joined(env, s, t, e.request.node, e.request.submission, e.response, u, e.now)
    requires Balanced(env, b, first, s)
    ensures Balanced(env, Post(b, e), first, t)
  {
    var node, item := e.request.node, ItemOf(e);
    GrownSize(b.open, s.pending, node, item.posted, u);
    if e.response.aggregated {
      assert BatchOk(env, b.open[node := item.posted], s.model.round);
    }
  }

  lemma CallBalanced(env: Env, b: Book, first: nat, s: State, t: State, e: Event)
    requires e.Rpc? && RoundMove(env, s, t, e.request, e.response, e.now) && Balanced(env, b, first, s)
    ensures Balanced(env, Post(b, e), first, t)
  {
    if e.response.Accepted? {
      var u :| Joined(env, s, t, e.request.node, e.request.submission, e.response, u, e.now);
      JoinedBalanced(env, b, first, s, t, e, u);
    } else if e.response.Revoked? {
      RemovedIsSmaller(s.pending, e.response.target);
      assert e.response.target !in s.pending ==> s.pending - {e.response.target} == s.pending;
    }
  }

  lemma EventBalanced(env: Env, b: Book, first: nat, tr: Transition)
    requires Legal(env, tr) && Balanced(env, b, first, tr.before)
    ensures Balanced(env, Post(b, tr.event), first, tr.after)
  {
    if tr.event.Rpc? {
      CallBalanced(env, b, first, tr.before, tr.after, tr.event);
    }
  }

  /** Round safety over whole runs: rounds advance one at a time, each closing a batch of exactly
      the quorum made for that round, and what is open is what is pending. */
  lemma {:induction false} BooksBalance(env: Env, s: State, run: seq<Transition>, now: Time)
    requires RunFrom(env, s, run, now) && s.pending == map[]
    ensures Balanced(env, Keep(run), s.model.round, Final(s, run))
  {
    if run != [] {
      var n := |run| - 1;
      Prefix(env, run, n);
      if n > 0 {
        assert Follows(run[n - 1], run[n]);
        BooksBalance(env, s, run[..n], End(run[n - 1].event));
      } else {
        BooksBalance(env, s, run[..n], now);
      }
      EventBalanced(env, Keep(run[..n]), s.model.round, run[n]);
    }
  }

  // ----- nothing is lost and nothing is counted twice

  function InBatches(batches: seq<map<string, Posted>>, x: Item): nat
  {
    if batches == [] then 0
    else InBatches(batches[..|batches| - 1], x) + InOpen(batches[|batches| - 1], x)
  }

  function InOpen(open: map<string, Posted>, x: Item): nat
  {
    if x.node in open && open[x.node] == x.posted then 1 else 0
  }

  function InDropped(dropped: seq<Item>, x: Item): nat
  {
    if dropped == [] then 0
    else InDropped(dropped[..|dropped| - 1], x) + if dropped[|dropped| - 1] == x then 1 else 0
  }

  function Occurs(b: Book, x: Item): nat
  {
    InOpen(b.open, x) + InBatches(b.batches, x) + InDropped(b.dropped, x)
  }

  /** How often `x` was acknowledged. */
  function Acknowledged(run: seq<Transition>, x: Item): nat
  {
    if run == [] then 0
    else
      var e := run[|run| - 1].event;
      Acknowledged(run[..|run| - 1], x) + if IsAccept(e) && ItemOf(e) == x then 1 else 0
  }

  lemma PostCounts(b: Book, e: Event, x: Item)
    requires IsAccept(e) ==> e.request.node !in b.open
    ensures Occurs(Post(b, e), x) == Occurs(b, x) + if IsAccept(e) && ItemOf(e) == x then 1 else 0
  {
    if IsAccept(e) {
      var open := b.open[ItemOf(e).node := ItemOf(e).posted];
      assert (b.batches + [open])[..|b.batches|] == b.batches;
    } else if e.Rpc? && e.response.Revoked? && e.response.target in b.open {
      var gone := Item(e.response.target, b.open[e.response.target]);
      assert (b.dropped + [gone])[..|b.dropped|] == b.dropped;
    }
  }

  lemma AcceptedWasNotOpen(env: Env, b: Book, first: nat, tr: Transition)
    requires Legal(env, tr) && Balanced(env, b, first, tr.before) && IsAccept(tr.event)
    ensures tr.event.request.node !in b.open
  {
    var e := tr.event;
    var u :| Joined(env, tr.before, tr.after, e.request.node, e.request.submission, e.response, u, e.now);
  }

  /** Conservation: every acknowledged update occurs in the book exactly as often as it was
      acknowledged, be it pending, aggregated or dropped. */
  lemma {:induction false} UpdatesAreConserved(env: Env, s: State, run: seq<Transition>, now: Time, x: Item)
    requires RunFrom(env, s, run, now) && s.pending == map[]
    ensures Acknowledged(run, x) == Occurs(Keep(run), x)
  {
    if run != [] {
      var n := |run| - 1;
      Prefix(env, run, n);
      var upTo := if n > 0 then End(run[n - 1].event) else now;
      if n > 0 {
        assert Follows(run[n - 1], run[n]);
      }
      UpdatesAreConserved(env, s, run[..n], upTo, x);
      BooksBalance(env, s, run[..n], upTo);
      if IsAccept(run[n].event) {
        AcceptedWasNotOpen(env, Keep(run[..n]), s.model.round, run[n]);
      }
      PostCounts(Keep(run[..n]), run[n].event, x);
    }
  }

  // ----- the new model

  /** A closed round's model is the old vector plus the aggregate of exactly the pending updates
      and the one that completed the quorum. */
  lemma ClosedRoundModel(env: Env, s: State, t: State, node: string, sub: Submission, r: Response, u: Update, now: Time)
    requires CodecSound(env) && r.Accepted? && r.aggregated && Joined(env, s, t, node, sub, r, u, now)
    ensures t.model.round == s.model.round + 1
    ensures var current := CurrentVector(env, s.model, |u.values|).value;
            var aggregated := env.aggregate(s.pending[node := u], |current|);
            aggregated.Some? && env.decode(t.model.payload) == Some(env.add(current, aggregated.value))
    ensures t.model.sha256 == env.sha256(t.model.payload) && t.model.version == env.version(t.model.round, t.model.sha256)
    ensures t.model.format == env.format && t.model.createdAt == Unix(now)
  {
  }
}
