/** What the run-level theorems say about every reachable world, store and memory alike: through any
    calls, commit faults, crashes and restarts, what was acknowledged still holds. */
module Reachable {
  import opened Text
  import opened Core
  import opened Registry
  import opened Moves
  import opened History
  import opened Worlds
  import opened Subsequences
  import Tombstones
  import Replays
  import Ledger

  // ----- books

  /** The book of the run balances with the state it ends in and lists every acknowledged update as
      often as it was acknowledged; and no pending update belongs to a revoked lease. */
  ghost predicate Accounted(env: Env, s: State, run: seq<Transition>)
  {
    && Ledger.Balanced(env, Ledger.Keep(run), s.model.round, Final(s, run))
    && (forall x :: Ledger.Acknowledged(run, x) == Ledger.Occurs(Ledger.Keep(run), x))
    && Tombstones.NoOrphans(Final(s, run))
  }

  lemma RunIsAccounted(env: Env, s: State, run: seq<Transition>, now: Time)
    requires RunFrom(env, s, run, now) && s.pending == map[]
    ensures Accounted(env, s, run)
  {
    Ledger.BooksBalance(env, s, run, now);
    forall x ensures Ledger.Acknowledged(run, x) == Ledger.Occurs(Ledger.Keep(run), x) {
      Ledger.UpdatesAreConserved(env, s, run, now, x);
    }
    Tombstones.NoOrphansEver(env, s, run, now);
  }

  /** From a fresh coordinator: the store, and the memory while the process is up, are the end of a run
      of real steps and reloads that contains every acknowledged call and no call that was not carried
      out, and whose book balances. */
  lemma EveryWorldIsAccounted(env: Env, s: State, w: World, actions: seq<Action>) returns (h: Trail)
    requires TextSound(env) && CodecSound(env) && Initial(env, s, w) && s.pending == map[]
    ensures var v := Execute(env, w, actions);
            && Inv(env, GenuineIn(env), s, v, h) && h.log == LogOf(env, w, actions)
            && Accounted(env, s, h.stored) && (v.up ==> Accounted(env, s, h.mem))
  {
    h := NothingAcknowledgedIsLost(env, s, w, actions);
    WorldAccounted(env, GenuineIn(env), s, Execute(env, w, actions), h);
  }

  lemma WorldAccounted(env: Env, good: Transition -> bool, s: State, v: World, h: Trail)
    requires Inv(env, good, s, v, h) && s.pending == map[]
    ensures Accounted(env, s, h.stored) && (v.up ==> Accounted(env, s, h.mem))
  {
    RunIsAccounted(env, s, h.stored, h.storedAt);
    if v.up {
      RunIsAccounted(env, s, h.mem, v.now);
    }
  }

  // ----- revocations

  /** A live tombstone until the announced time. */
  ghost predicate Entombed(regs: Leases, n: string, until: int, now: Time)
  {
    n in regs && IsRevoked(regs[n]) && Live(regs[n], now) && Unix(regs[n].expiresAt) == until
  }

  lemma UnixBefore(now: Time, until: Time)
    requires Unix(now) < Unix(until)
    ensures now < until
  {
  }

  /** In the state where a run ends, its revocations still stand. */
  lemma RevocationStandsInRun(env: Env, s: State, run: seq<Transition>, now: Time, j: nat)
    requires RunFrom(env, s, run, now) && j < |run| && run[j].event.Rpc? && run[j].event.response.Revoked?
    requires Unix(now) < run[j].event.response.blockedUntil
    ensures Entombed(Final(s, run).regs, run[j].event.response.target, run[j].event.response.blockedUntil, now)
  {
    var r := run[j].event.response;
    BuriedAt(env, run, j);
    var e := run[j].after.regs[r.target];
    UnixBefore(now, e.expiresAt);
    TombstoneToEnd(env, s, run, now, j, r.target, e);
  }

  lemma TombstoneToEnd(env: Env, s: State, run: seq<Transition>, now: Time, j: nat, n: string, e: Registration)
    requires RunFrom(env, s, run, now) && j < |run| && Tombstones.Blocked(run[j].after, n, e, now)
    ensures Tombstones.Blocked(Final(s, run), n, e, now)
  {
    Tombstones.TombstoneOutlasts(env, run, j, |run| - 1, n, e);
  }

  lemma BuriedAt(env: Env, run: seq<Transition>, j: nat)
    requires Run(env, run) && j < |run| && run[j].event.Rpc? && run[j].event.response.Revoked?
    ensures Buried(run[j].before.regs, run[j].after.regs, run[j].event.response, run[j].event.now)
  {
    assert Legal(env, run[j]);
  }

  /** Every acknowledged revocation stands, in the store and in memory, until its announced end. */
  lemma AcknowledgedRevocationStands(env: Env, s: State, w: World, actions: seq<Action>, i: nat)
    requires TextSound(env) && CodecSound(env) && Initial(env, s, w)
    requires i < |LogOf(env, w, actions).acks|
    requires var ack := LogOf(env, w, actions).acks[i];
             ack.Rpc? && ack.response.Revoked? && Unix(Execute(env, w, actions).now) < ack.response.blockedUntil
    ensures var v, r := Execute(env, w, actions), LogOf(env, w, actions).acks[i].response;
            && v.cell.Some? && Entombed(v.cell.value.regs, r.target, r.blockedUntil, v.now)
            && (v.up ==> Entombed(v.mem.regs, r.target, r.blockedUntil, v.now))
  {
    var h := NothingAcknowledgedIsLost(env, s, w, actions);
    RevocationStands(env, GenuineIn(env), s, Execute(env, w, actions), h, i);
  }

  lemma RevocationStands(env: Env, good: Transition -> bool, s: State, v: World, h: Trail, i: nat)
    requires Inv(env, good, s, v, h) && i < |h.log.acks| && h.log.acks[i].Rpc? && h.log.acks[i].response.Revoked?
    requires Unix(v.now) < h.log.acks[i].response.blockedUntil
    ensures var r := h.log.acks[i].response;
            && v.cell.Some? && Entombed(v.cell.value.regs, r.target, r.blockedUntil, v.now)
            && (v.up ==> Entombed(v.mem.regs, r.target, r.blockedUntil, v.now))
  {
    var j := EmbedsAt(h.log.acks, Events(h.stored), i);
    Later(env, s, h.stored, h.storedAt, v.now);
    RevocationStandsInRun(env, s, h.stored, v.now, j);
    if v.up {
      var k := EmbedsAt(h.log.acks, Events(h.mem), i);
      RevocationStandsInRun(env, s, h.mem, v.now, k);
    }
  }

  // ----- replays

  /** The acknowledged call carried this nonce. */
  predicate Used(ack: Event, node: string, nonce: seq<byte>)
  {
    && ack.Rpc? && !ack.response.Rejected? && Guarded(ack.request) && ack.request.node == node
    && SecurityOf(ack.request).Some? && SecurityOf(ack.request).value.nonce == nonce
  }

  /** Across crashes and restarts, two acknowledgements of one node with one nonce are more than the
      replay window apart. */
  lemma AcknowledgedReplaysAreSeparated(env: Env, s: State, w: World, actions: seq<Action>, i: nat, j: nat, node: string, nonce: seq<byte>)
    requires TextSound(env) && CodecSound(env) && Initial(env, s, w)
    requires i < j < |LogOf(env, w, actions).acks|
    requires Used(LogOf(env, w, actions).acks[i], node, nonce) && Used(LogOf(env, w, actions).acks[j], node, nonce)
    ensures LogOf(env, w, actions).acks[j].now - LogOf(env, w, actions).acks[i].now > REPLAY_WINDOW
  {
    var h := NothingAcknowledgedIsLost(env, s, w, actions);
    ReplaysInTrail(env, GenuineIn(env), s, Execute(env, w, actions), h, i, j, node, nonce);
  }

  lemma ReplaysInTrail(env: Env, good: Transition -> bool, s: State, v: World, h: Trail, i: nat, j: nat, node: string, nonce: seq<byte>)
    requires Inv(env, good, s, v, h) && i < j < |h.log.acks| && Used(h.log.acks[i], node, nonce) && Used(h.log.acks[j], node, nonce)
    ensures h.log.acks[j].now - h.log.acks[i].now > REPLAY_WINDOW
  {
    var k, l := EmbedsPair(h.log.acks, Events(h.stored), i, j);
    Replays.ReplaysAreSeparated(env, h.stored, k, l, node, nonce);
  }

  // ----- updates

  /** The update is pending, was aggregated in a closed round, or a carried-out revocation of its node
      dropped it. */
  ghost predicate Kept(run: seq<Transition>, state: State, x: Ledger.Item, handled: seq<Event>)
  {
    || (x.node in state.pending && state.pending[x.node].updateID == x.posted.updateID)
    || Ledger.InBatches(Ledger.Keep(run).batches, x) > 0
    || exists i :: 0 <= i < |handled| && handled[i].Rpc? && handled[i].response.Revoked? && handled[i].response.target == x.node
  }

  lemma {:induction false} CountedOnce(run: seq<Transition>, j: nat, x: Ledger.Item)
    requires j < |run| && Ledger.IsAccept(run[j].event) && Ledger.ItemOf(run[j].event) == x
    ensures Ledger.Acknowledged(run, x) > 0
  {
    if j < |run| - 1 {
      CountedOnce(run[..|run| - 1], j, x);
    }
  }

  /** Whatever the book lists as dropped, a revocation in the run dropped. */
  lemma {:induction false} DroppedByRevocation(run: seq<Transition>, x: Ledger.Item) returns (j: nat)
    requires Ledger.InDropped(Ledger.Keep(run).dropped, x) > 0
    ensures j < |run| && run[j].event.Rpc? && run[j].event.response.Revoked? && run[j].event.response.target == x.node
  {
    var n := |run| - 1;
    var before, e := Ledger.Keep(run[..n]), run[n].event;
    if Ledger.InDropped(before.dropped, x) > 0 {
      j := DroppedByRevocation(run[..n], x);
    } else {
      var after := Ledger.Post(before, e);
      assert after.dropped != before.dropped;
      assert after.dropped[..|before.dropped|] == before.dropped;
      j := n;
    }
  }

  lemma {:induction false} CallOfRun(run: seq<Transition>, j: nat) returns (k: nat)
    requires j < |run| && run[j].event.Rpc?
    ensures k < |Calls(run)| && Calls(run)[k] == run[j].event
  {
    var n := |run| - 1;
    if j < n {
      k := CallOfRun(run[..n], j);
    } else {
      k := |Calls(run[..n])|;
    }
  }

  lemma UpdateKeptInRun(env: Env, good: Transition -> bool, s: State, run: seq<Transition>, log: Log, i: nat)
    requires Accounted(env, s, run) && Told(good, run, log) && i < |log.acks| && Ledger.IsAccept(log.acks[i])
    ensures Kept(run, Final(s, run), Ledger.ItemOf(log.acks[i]), log.handled)
  {
    var x := Ledger.ItemOf(log.acks[i]);
    var j := EmbedsAt(log.acks, Events(run), i);
    CountedOnce(run, j, x);
    if Ledger.InDropped(Ledger.Keep(run).dropped, x) > 0 {
      var d := DroppedByRevocation(run, x);
      var k := CallOfRun(run, d);
      var l := EmbedsAt(Calls(run), log.handled, k);
    }
  }

  /** Every acknowledged update is, in the store and in memory, pending or aggregated, unless a
      revocation of its node was carried out. */
  lemma AcknowledgedUpdateIsKept(env: Env, s: State, w: World, actions: seq<Action>, i: nat) returns (h: Trail)
    requires TextSound(env) && CodecSound(env) && Initial(env, s, w) && s.pending == map[]
    requires i < |LogOf(env, w, actions).acks| && Ledger.IsAccept(LogOf(env, w, actions).acks[i])
    ensures var v, log := Execute(env, w, actions), LogOf(env, w, actions);
            && Inv(env, GenuineIn(env), s, v, h)
            && Kept(h.stored, Final(s, h.stored), Ledger.ItemOf(log.acks[i]), log.handled)
            && (v.up ==> Kept(h.mem, v.mem, Ledger.ItemOf(log.acks[i]), log.handled))
  {
    h := EveryWorldIsAccounted(env, s, w, actions);
    UpdateKept(env, GenuineIn(env), s, Execute(env, w, actions), h, i);
  }

  lemma UpdateKept(env: Env, good: Transition -> bool, s: State, v: World, h: Trail, i: nat)
    requires Inv(env, good, s, v, h) && i < |h.log.acks| && Ledger.IsAccept(h.log.acks[i])
    requires Accounted(env, s, h.stored) && (v.up ==> Accounted(env, s, h.mem))
    ensures Kept(h.stored, Final(s, h.stored), Ledger.ItemOf(h.log.acks[i]), h.log.handled)
    ensures v.up ==> Kept(h.mem, v.mem, Ledger.ItemOf(h.log.acks[i]), h.log.handled)
  {
    UpdateKeptInRun(env, good, s, h.stored, h.log, i);
    if v.up {
      UpdateKeptInRun(env, good, s, h.mem, h.log, i);
    }
  }
}
