/** Revocation: from the moment a lease is revoked until its fixed expiry nothing brings the node
    back, and no pending update ever belongs to a revoked lease. */
module Tombstones {
  import opened Text
  import opened Core
  import opened Registry
  import opened Service
  import opened Moves
  import opened History

  /** A live tombstone for `n`. */
  ghost predicate Blocked(s: State, n: string, e: Registration, now: Time)
  {
    n in s.regs && s.regs[n] == e && IsRevoked(e) && Live(e, now)
  }

  lemma TombstoneStays(env: Env, tr: Transition, n: string, e: Registration)
    requires Legal(env, tr) && Blocked(tr.before, n, e, End(tr.event))
    ensures Blocked(tr.after, n, e, End(tr.event))
  {
  }

  /** No run of calls and reloads moves a tombstone before its expiry. */
  lemma {:induction false} TombstoneHolds(env: Env, run: seq<Transition>, i: nat, j: nat, n: string, e: Registration)
    requires Run(env, run) && i <= j < |run|
    requires Blocked(run[i].before, n, e, End(run[j].event))
    ensures Blocked(run[j].after, n, e, End(run[j].event))
    decreases j - i
  {
    if i < j {
      assert Follows(run[j - 1], run[j]);
      StartBeforeEnd(env, run[j]);
      StartBeforeEnd(env, run[j - 1]);
      TombstoneHolds(env, run, i, j - 1, n, e);
    }
    TombstoneStays(env, run[j], n, e);
  }

  /** The same, counted from the moment the tombstone is there. */
  lemma {:induction false} TombstoneOutlasts(env: Env, run: seq<Transition>, i: nat, j: nat, n: string, e: Registration)
    requires Run(env, run) && i <= j < |run|
    requires Blocked(run[i].after, n, e, End(run[j].event))
    ensures Blocked(run[j].after, n, e, End(run[j].event))
    decreases j - i
  {
    if i < j {
      assert Follows(run[j - 1], run[j]);
      StartBeforeEnd(env, run[j]);
      TombstoneOutlasts(env, run, i, j - 1, n, e);
      TombstoneStays(env, run[j], n, e);
    }
  }

  /** A blocked node passes no check, whatever credential it presents, until the expiry. */
  lemma BlockedIsInactive(s: State, n: string, e: Registration, now: Time, id: Identity, rid: string, later: Time)
    requires Blocked(s, n, e, now) && id.nodeID == n
    ensures !Active(s.regs, id, rid, later)
    ensures later < e.expiresAt ==> NextGeneration(s.regs, id, later).None?
  {
  }

  /** Revoked once, out until the expiry: after every call and reload in between, the node has no
      usable lease, cannot get a new one, and the expiry has not moved. */
  lemma RevokedNodeStaysOut(env: Env, run: seq<Transition>, i: nat, j: nat, n: string, e: Registration, id: Identity, rid: string)
    requires Run(env, run) && i <= j < |run| && id.nodeID == n
    requires Blocked(run[i].before, n, e, End(run[j].event))
    ensures var s, now := run[j].after, End(run[j].event);
            && !Active(s.regs, id, rid, now) && NextGeneration(s.regs, id, now).None?
            && n in s.regs && s.regs[n].expiresAt == e.expiresAt
  {
    TombstoneHolds(env, run, i, j, n, e);
    BlockedIsInactive(run[j].after, n, e, End(run[j].event), id, rid, End(run[j].event));
  }

  /** An acknowledged revocation leaves such a tombstone, with the announced expiry, and drops
      the pending update. */
  lemma RevocationBlocks(env: Env, s: State, identity: Option<Identity>, node: string, rid: string, target: string,
                         reason: string, security: Option<Security>, now: Time)
    requires now > 0
    requires StepRevoke(env, s, identity, node, rid, target, reason, security, now).response.Revoked?
    ensures var o := StepRevoke(env, s, identity, node, rid, target, reason, security, now);
            var n := o.response.target;
            && n in o.state.regs && Blocked(o.state, n, o.state.regs[n], now)
            && o.response.blockedUntil == Unix(o.state.regs[n].expiresAt)
            && n in s.regs && o.state.regs[n].expiresAt == s.regs[n].expiresAt
            && n !in o.state.pending
  {
    var t := env.trim(target);
    var r := RevokeLease(env, s.regs, t, reason, now);
    var o := RevokeLocked(s, t, env.key(node, security.value.nonce), r, now);
    assert o.state.regs == r.regs && r.Tombstone?;
  }

  // ----- pending updates of revoked leases

  ghost predicate NoOrphans(s: State)
  {
    forall n :: n in s.pending && n in s.regs ==> !IsRevoked(s.regs[n])
  }

  lemma {:induction false} NoOrphansEver(env: Env, s: State, run: seq<Transition>, now: Time)
    requires RunFrom(env, s, run, now) && NoOrphans(s)
    ensures NoOrphans(Final(s, run))
  {
    if run != [] {
      var n := |run| - 1;
      Prefix(env, run, n);
      if n > 0 {
        assert Follows(run[n - 1], run[n]);
        NoOrphansEver(env, s, run[..n], End(run[n - 1].event));
      } else {
        NoOrphansEver(env, s, run[..n], now);
      }
      OrphanStep(env, run[n]);
    }
  }

  lemma OrphanStep(env: Env, tr: Transition)
    requires Legal(env, tr) && NoOrphans(tr.before)
    ensures NoOrphans(tr.after)
  {
    assert NoNewOrphans(tr.before, tr.after);
  }
}
