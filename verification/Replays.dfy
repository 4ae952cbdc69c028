/** Replay protection over whole runs, restarts and rollbacks included. */
module Replays {
  import opened Text
  import opened Core
  import opened Registry
  import opened Service
  import opened Moves
  import opened Snapshots
  import opened History

  /** The call at `i` was acknowledged and carried this nonce. */
  ghost predicate Acknowledged(run: seq<Transition>, i: nat, node: string, nonce: seq<byte>)
  {
    && i < |run| && run[i].event.Rpc? && !run[i].event.response.Rejected? && Guarded(run[i].event.request)
    && run[i].event.request.node == node
    && SecurityOf(run[i].event.request).Some? && SecurityOf(run[i].event.request).value.nonce == nonce
  }

  lemma AcknowledgedFacts(env: Env, run: seq<Transition>, i: nat, node: string, nonce: seq<byte>)
    requires Run(env, run) && Acknowledged(run, i, node, nonce)
    ensures SecurityOk(SecurityOf(run[i].event.request), run[i].event.now)
    ensures Stamped(run[i].before.nonces, run[i].after.nonces, env.key(node, nonce), run[i].event.now)
  {
    assert Legal(env, run[i]);
  }

  lemma NonceKept(env: Env, tr: Transition, key: string, seen: Time)
    requires Legal(env, tr) && key in tr.before.nonces && tr.before.nonces[key] == seen
    requires seen >= End(tr.event) - REPLAY_WINDOW
    ensures key in tr.after.nonces && tr.after.nonces[key] == seen
  {
    assert KeepsNonces(tr.before.nonces, tr.after.nonces, End(tr.event));
  }

  /** A recorded nonce is still on record whenever the window has not passed. */
  lemma {:induction false} NonceHeld(env: Env, run: seq<Transition>, i: nat, j: nat, key: string, seen: Time)
    requires Run(env, run) && i < j < |run|
    requires key in run[i].after.nonces && run[i].after.nonces[key] == seen
    requires seen >= Start(run[j].event) - REPLAY_WINDOW
    ensures key in run[j].before.nonces && run[j].before.nonces[key] == seen
    decreases j - i
  {
    assert Follows(run[j - 1], run[j]);
    if i < j - 1 {
      StartBeforeEnd(env, run[j - 1]);
      NonceHeld(env, run, i, j - 1, key, seen);
      NonceKept(env, run[j - 1], key, seen);
    }
  }

  /** Two acknowledged calls of one node with one nonce are more than the replay window apart. */
  lemma ReplaysAreSeparated(env: Env, run: seq<Transition>, i: nat, j: nat, node: string, nonce: seq<byte>)
    requires Run(env, run) && i < j
    requires Acknowledged(run, i, node, nonce) && Acknowledged(run, j, node, nonce)
    ensures run[j].event.now - run[i].event.now > REPLAY_WINDOW
  {
    AcknowledgedFacts(env, run, i, node, nonce);
    AcknowledgedFacts(env, run, j, node, nonce);
    var seen := run[i].event.now;
    if seen >= run[j].event.now - REPLAY_WINDOW {
      NonceHeld(env, run, i, j, env.key(node, nonce), seen);
    }
  }

  /** A request that was not issued after its first acceptance is never acknowledged again. */
  lemma NoSecondAcknowledgement(env: Env, run: seq<Transition>, i: nat, j: nat, node: string, nonce: seq<byte>)
    requires Run(env, run) && i < j
    requires Acknowledged(run, i, node, nonce) && Acknowledged(run, j, node, nonce)
    requires SecurityOf(run[i].event.request) == SecurityOf(run[j].event.request)
    ensures FromUnix(SecurityOf(run[i].event.request).value.issuedAt) > run[i].event.now
  {
    ReplaysAreSeparated(env, run, i, j, node, nonce);
    AcknowledgedFacts(env, run, j, node, nonce);
  }

  /** The bound is exact: once accepted at `first`, the metadata is acceptable again after the
      nonce has left the window if and only if it was issued after `first`. */
  lemma ReplayPossibleExactly(security: Security, first: Time)
    requires first > 0 && SecurityOk(Some(security), first)
    ensures (exists later :: later - first > REPLAY_WINDOW && SecurityOk(Some(security), later))
            <==> FromUnix(security.issuedAt) > first
  {
    if FromUnix(security.issuedAt) > first {
      var later := FromUnix(security.issuedAt) + REPLAY_WINDOW;
      assert later - first > REPLAY_WINDOW && SecurityOk(Some(security), later);
    }
  }

  // ----- one request acknowledged twice

  /** One revocation request. */
  datatype Order = Order(id: Identity, node: string, rid: string, target: string, reason: string, security: Security)

  function Obey(env: Env, s: State, r: Order, now: Time): Outcome
  {
    StepRevoke(env, s, Some(r.id), r.node, r.rid, r.target, r.reason, Some(r.security), now)
  }

  /** Sender and target keep their leases as long as the request can be acceptable at all, and the
      sender does not revoke itself. */
  ghost predicate LeasesOutlast(env: Env, s: State, r: Order)
  {
    var t, end := env.trim(r.target), FromUnix(r.security.issuedAt) + REPLAY_WINDOW;
    && t != r.node && r.node in s.regs && t in s.regs && Live(s.regs[r.node], end) && Live(s.regs[t], end)
  }

  /** What the first acknowledgement leaves behind. */
  lemma FirstRevocation(env: Env, s: State, r: Order, first: Time)
    requires first > 0 && Obey(env, s, r, first).response.Revoked? && env.trim(r.target) != r.node
    ensures var t, v, key := env.trim(r.target), Obey(env, s, r, first).state, env.key(r.node, r.security.nonce);
            && SecurityOk(Some(r.security), first) && Active(s.regs, r.id, r.rid, first) && r.id.nodeID == r.node
            && r.id.role == env.admin && !env.blank(r.target) && !env.blank(r.node) && !env.blank(r.rid)
            && env.trim(r.reason) != "" && |env.trim(r.reason)| <= MAX_REASON
            && r.node in v.regs && v.regs[r.node] == s.regs[r.node]
            && t in v.regs && t in s.regs && IsRevoked(v.regs[t]) && v.regs[t].expiresAt == s.regs[t].expiresAt
            && key in v.nonces && v.nonces[key] == first
  {
    var t, key := env.trim(r.target), env.key(r.node, r.security.nonce);
    var d := RevokeLease(env, s.regs, t, r.reason, first);
    assert Obey(env, s, r, first) == RevokeLocked(s, t, key, d, first);
  }

  /** The second one goes through once the nonce has left the window. */
  lemma SecondRevocation(env: Env, v: State, r: Order, later: Time)
    requires var t := env.trim(r.target);
             && Active(v.regs, r.id, r.rid, later) && r.id.nodeID == r.node && r.id.role == env.admin
             && !env.blank(r.target) && !env.blank(r.node) && !env.blank(r.rid)
             && env.trim(r.reason) != "" && |env.trim(r.reason)| <= MAX_REASON
             && t in v.regs && IsRevoked(v.regs[t]) && Live(v.regs[t], later)
    requires SecurityOk(Some(r.security), later) && env.key(r.node, r.security.nonce) !in LiveNonces(v.nonces, later)
    ensures Obey(env, v, r, later).response.Revoked?
  {
    var t, key := env.trim(r.target), env.key(r.node, r.security.nonce);
    assert Obey(env, v, r, later) == RevokeLocked(v, t, key, RevokeLease(env, v.regs, t, r.reason, later), later);
  }

  /** An acknowledged second time, the request was issued after the first. */
  lemma SecondNeedsLaterIssue(env: Env, v: State, r: Order, first: Time, later: Time)
    requires var key := env.key(r.node, r.security.nonce);
             key in v.nonces && v.nonces[key] == first
    requires Obey(env, v, r, later).response.Revoked?
    ensures FromUnix(r.security.issuedAt) > first
  {
    var t, key := env.trim(r.target), env.key(r.node, r.security.nonce);
    assert Obey(env, v, r, later) == RevokeLocked(v, t, key, RevokeLease(env, v.regs, t, r.reason, later), later);
    assert SecurityOk(Some(r.security), later);
  }

  /** The identical revocation request is acknowledged a second time at some later moment if and only
      if it was issued after its first acceptance. */
  lemma RepeatedRevocationExactly(env: Env, s: State, r: Order, first: Time)
    requires first > 0 && Obey(env, s, r, first).response.Revoked? && LeasesOutlast(env, s, r)
    ensures (exists later :: later >= first && Obey(env, Obey(env, s, r, first).state, r, later).response.Revoked?)
            <==> FromUnix(r.security.issuedAt) > first
  {
    var v := Obey(env, s, r, first).state;
    FirstRevocation(env, s, r, first);
    if FromUnix(r.security.issuedAt) > first {
      var later := SecondMoment(env, s, r, first, v);
    }
    forall later | later >= first && Obey(env, v, r, later).response.Revoked? ensures FromUnix(r.security.issuedAt) > first {
      SecondNeedsLaterIssue(env, v, r, first, later);
    }
  }

  function CallOf(r: Order): Call
  {
    Call(Some(r.id), Revoke(r.node, r.rid, r.target, r.reason, Some(r.security)))
  }

  lemma OrderStep(env: Env, s: State, r: Order, now: Time) returns (tr: Transition)
    requires TextSound(env) && CodecSound(env) && TablesOk(env, s) && now > 0 && Obey(env, s, r, now).response.Revoked?
    ensures Legal(env, tr) && Genuine(env, tr) && TablesOk(env, tr.after)
    ensures tr.before == s && tr.after == Obey(env, s, r, now).state
    ensures tr.event.Rpc? && tr.event.request == CallOf(r).request && tr.event.now == now && tr.event.response.Revoked?
  {
    tr := StepOf(env, s, CallOf(r), now, None);
    CallIsLegal(env, s, CallOf(r), now, None);
    assert tr == StepOf(env, tr.before, CallOf(r), now, None);
  }

  lemma TwoSteps(env: Env, r: Order, one: Transition, two: Transition) returns (run: seq<Transition>)
    requires Legal(env, one) && Legal(env, two) && Follows(one, two)
    requires one.event.Rpc? && one.event.request == CallOf(r).request && one.event.response.Revoked?
    requires two.event.Rpc? && two.event.request == CallOf(r).request && two.event.response.Revoked?
    ensures run == [one, two] && Run(env, run)
    ensures Acknowledged(run, 0, r.node, r.security.nonce) && Acknowledged(run, 1, r.node, r.security.nonce)
  {
    run := [one, two];
  }

  /** The run that shows it: two acknowledgements of one request. */
  lemma RepeatedRevocationRun(env: Env, s: State, r: Order, first: Time) returns (run: seq<Transition>)
    requires TextSound(env) && CodecSound(env) && TablesOk(env, s)
    requires first > 0 && Obey(env, s, r, first).response.Revoked? && LeasesOutlast(env, s, r)
    requires FromUnix(r.security.issuedAt) > first
    ensures |run| == 2 && Run(env, run) && Genuine(env, run[0]) && Genuine(env, run[1])
    ensures Acknowledged(run, 0, r.node, r.security.nonce) && Acknowledged(run, 1, r.node, r.security.nonce)
    ensures run[0].event.request == run[1].event.request
  {
    var one := OrderStep(env, s, r, first);
    var later := SecondMoment(env, s, r, first, one.after);
    var two := OrderStep(env, one.after, r, later);
    run := TwoSteps(env, r, one, two);
  }

  lemma SecondMoment(env: Env, s: State, r: Order, first: Time, v: State) returns (later: Time)
    requires first > 0 && Obey(env, s, r, first).response.Revoked? && LeasesOutlast(env, s, r)
    requires FromUnix(r.security.issuedAt) > first && v == Obey(env, s, r, first).state
    ensures later >= first && Obey(env, v, r, later).response.Revoked?
  {
    FirstRevocation(env, s, r, first);
    later := FromUnix(r.security.issuedAt) + REPLAY_WINDOW;
    SecondRevocation(env, v, r, later);
  }

  // ----- nobody is refused because of someone else

  /** Every nonce on record was put there by a call of this run, at the recorded time. */
  ghost predicate Explained(env: Env, run: seq<Transition>, key: string, seen: Time)
  {
    exists i :: 0 <= i < |run| && run[i].event.Rpc? && run[i].event.now == seen && KeyOf(env, run[i].event.request) == Some(key)
  }

  lemma ExplainedLonger(env: Env, run: seq<Transition>, tr: Transition, key: string, seen: Time)
    requires Explained(env, run, key, seen)
    ensures Explained(env, run + [tr], key, seen)
  {
    var i :| 0 <= i < |run| && run[i].event.Rpc? && run[i].event.now == seen && KeyOf(env, run[i].event.request) == Some(key);
    assert (run + [tr])[i] == run[i];
  }

  lemma NewNonce(env: Env, tr: Transition, key: string)
    requires Legal(env, tr) && key in tr.after.nonces
    ensures (key in tr.before.nonces && tr.after.nonces[key] == tr.before.nonces[key])
            || (tr.event.Rpc? && tr.after.nonces[key] == tr.event.now && KeyOf(env, tr.event.request) == Some(key))
  {
  }

  lemma ExplainedByLast(env: Env, run: seq<Transition>, tr: Transition, key: string)
    requires tr.event.Rpc? && KeyOf(env, tr.event.request) == Some(key)
    ensures Explained(env, run + [tr], key, tr.event.now)
  {
    assert (run + [tr])[|run|] == tr;
  }

  lemma {:induction false} NoncesExplained(env: Env, s: State, run: seq<Transition>, now: Time, key: string)
    requires RunFrom(env, s, run, now) && s.nonces == map[] && key in Final(s, run).nonces
    ensures Explained(env, run, key, Final(s, run).nonces[key])
  {
    var n := |run| - 1;
    var shorter, tr := run[..n], run[n];
    assert run == shorter + [tr];
    NewNonce(env, tr, key);
    if key in tr.before.nonces && tr.after.nonces[key] == tr.before.nonces[key] {
      WithoutLast(env, s, run, now, n);
      NoncesExplained(env, s, shorter, if n > 0 then End(run[n - 1].event) else now, key);
      ExplainedLonger(env, shorter, tr, key, tr.after.nonces[key]);
    } else {
      ExplainedByLast(env, shorter, tr, key);
    }
  }

  /** The last transition starts where the shorter run ends. */
  lemma WithoutLast(env: Env, s: State, run: seq<Transition>, now: Time, n: nat)
    requires RunFrom(env, s, run, now) && n == |run| - 1
    ensures RunFrom(env, s, run[..n], if n > 0 then End(run[n - 1].event) else now) && Final(s, run[..n]) == run[n].before
  {
    Prefix(env, run, n);
    if n > 0 {
      assert Follows(run[n - 1], run[n]);
    }
  }

  /** A call refused as a replay repeats a nonce that the same node used within the window. */
  lemma RefusedReplayIsReplay(env: Env, s: State, run: seq<Transition>, tr: Transition, now: Time) returns (i: nat)
    requires KeysInjective(env) && RunFrom(env, s, run, now) && s.nonces == map[] && tr.before == Final(s, run)
    requires Legal(env, tr) && tr.event.Rpc? && tr.event.response == Rejected(NonceUsed)
    ensures i < |run| && run[i].event.Rpc? && Guarded(run[i].event.request) && Guarded(tr.event.request)
    ensures run[i].event.request.node == tr.event.request.node
    ensures SecurityOf(run[i].event.request).Some? && SecurityOf(tr.event.request).Some?
    ensures SecurityOf(run[i].event.request).value.nonce == SecurityOf(tr.event.request).value.nonce
    ensures tr.event.now - run[i].event.now <= REPLAY_WINDOW
  {
    var key := KeyOf(env, tr.event.request).value;
    NoncesExplained(env, s, run, now, key);
    i :| 0 <= i < |run| && run[i].event.Rpc? && run[i].event.now == Final(s, run).nonces[key]
         && KeyOf(env, run[i].event.request) == Some(key);
  }
}
