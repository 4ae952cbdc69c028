/** How one call may move each part of the state. Every later argument about whole runs uses these
    relations instead of the definitions of the calls. */
module Moves {
  import opened Text
  import opened Core
  import opened Registry
  import opened Service
  import Npy

  // ----- leases

  /** Entries change only into well-formed leases, and a live tombstone does not move at all. */
  ghost predicate LeasesMove(env: Env, a: Leases, b: Leases, now: Time)
  {
    && (forall n :: n in b ==> (n in a && b[n] == a[n]) || LeaseOk(env, n, b[n]))
    && (forall n :: n in a && Live(a[n], now) && IsRevoked(a[n]) ==> n in b && b[n] == a[n])
  }

  /** No lease is new or different, and every live one is still there. */
  ghost predicate KeepsLive(a: Leases, b: Leases, now: Time)
  {
    && (forall n :: n in b ==> n in a && b[n] == a[n])
    && (forall n :: n in a && Live(a[n], now) ==> n in b)
  }

  /** A registration gives its node, and nobody else, a full lease of the next generation, and takes
      no live lease away from a revoked or differently certified holder. */
  ghost predicate Granted(env: Env, a: Leases, b: Leases, node: string, r: Response, now: Time)
    requires r.Registered?
  {
    && node in b && b == a[node := b[node]]
    && b[node].registrationID == r.registrationID && b[node].role == r.role && !IsRevoked(b[node])
    && b[node].expiresAt == now + env.leaseTTL && Unix(b[node].expiresAt) == r.leaseExpires
    && b[node].generation == r.generation == (if node in a then a[node].generation + 1 else 1)
    && (node in a && Live(a[node], now) ==>
          !IsRevoked(a[node]) && a[node].role == b[node].role && a[node].fingerprint == b[node].fingerprint)
  }

  /** The lease was usable with this credential. */
  predicate LeaseHeld(a: Leases, node: string, rid: string, now: Time)
  {
    node in a && Live(a[node], now) && !IsRevoked(a[node]) && a[node].registrationID == rid
  }

  /** A heartbeat extends the lease from now and changes nothing else. */
  ghost predicate Extended(env: Env, a: Leases, b: Leases, node: string, rid: string, r: Response, now: Time)
    requires r.Renewed?
  {
    && LeaseHeld(a, node, rid, now) && b == a[node := a[node].(expiresAt := now + env.leaseTTL)]
    && r.leaseExpires == Unix(now + env.leaseTTL) && r.generation == a[node].generation
  }

  /** A rotation replaces the credential by another one, for a full lease of the next generation. */
  ghost predicate Replaced(env: Env, a: Leases, b: Leases, node: string, rid: string, r: Response, now: Time)
    requires r.Rotated?
  {
    && LeaseHeld(a, node, rid, now) && r.registrationID != rid && r.generation == a[node].generation + 1
    && b == a[node := a[node].(registrationID := r.registrationID, generation := r.generation, expiresAt := now + env.leaseTTL)]
    && r.leaseExpires == Unix(now + env.leaseTTL)
  }

  /** A revocation leaves the target a tombstone until the expiry its lease already had. */
  ghost predicate Buried(a: Leases, b: Leases, r: Response, now: Time)
    requires r.Revoked?
  {
    && r.target in a && Live(a[r.target], now) && r.target in b && b == a[r.target := b[r.target]]
    && IsRevoked(b[r.target]) && b[r.target].expiresAt == a[r.target].expiresAt
    && b[r.target].generation == a[r.target].generation == r.generation
    && Unix(b[r.target].expiresAt) == r.blockedUntil
  }

  /** What each answer says about the leases. */
  ghost predicate LeaseAnswer(env: Env, a: Leases, b: Leases, request: Request, r: Response, now: Time)
  {
    match r
    case Registered(_, _, _, _) => request.Register? && Granted(env, a, b, request.node, r, now)
    case Renewed(_, _, _, _) => request.Heartbeat? && Extended(env, a, b, request.node, request.registrationID, r, now)
    case Rotated(_, _, _) => request.Rotate? && Replaced(env, a, b, request.node, request.registrationID, r, now)
    case Revoked(_, _, _, _) => request.Revoke? && Buried(a, b, r, now)
    case _ => KeepsLive(a, b, now)
  }

  /** A pending update of a revoked node was there, and revoked, before. */
  ghost predicate NoNewOrphans(s: State, t: State)
  {
    forall n :: n in t.pending && n in t.regs && IsRevoked(t.regs[n]) ==> n in s.pending && n in s.regs && IsRevoked(s.regs[n])
  }

  // ----- replay nonces

  /** Nonces inside the window stay as they are. */
  ghost predicate KeepsNonces(a: Nonces, b: Nonces, now: Time)
  {
    forall k :: k in a && a[k] >= now - REPLAY_WINDOW ==> k in b && b[k] == a[k]
  }

  /** The only key that can be new is `key`, stamped with the current time. */
  ghost predicate AddsOnly(a: Nonces, b: Nonces, key: Option<string>, now: Time)
  {
    forall k :: k in b ==> (k in a && b[k] == a[k]) || (key == Some(k) && b[k] == now)
  }

  /** The nonce key was outside the window and is now recorded. */
  ghost predicate Stamped(a: Nonces, b: Nonces, key: string, now: Time)
  {
    key in b && b[key] == now && (key in a ==> a[key] < now - REPLAY_WINDOW)
  }

  /** The security metadata of a call that carries one. */
  function SecurityOf(request: Request): Option<Security>
  {
    match request
    case Submit(_, _, sub) => sub.security
    case Rotate(_, _, security) => security
    case Revoke(_, _, _, _, security) => security
    case _ => None
  }

  predicate Guarded(request: Request)
  {
    request.Submit? || request.Rotate? || request.Revoke?
  }

  /** The key under which a guarded call is remembered. */
  function KeyOf(env: Env, request: Request): Option<string>
  {
    if Guarded(request) && SecurityOf(request).Some? then Some(env.key(request.node, SecurityOf(request).value.nonce)) else None
  }

  ghost predicate NoncesMove(env: Env, a: Nonces, b: Nonces, request: Request, r: Response, now: Time)
  {
    && KeepsNonces(a, b, now) && AddsOnly(a, b, KeyOf(env, request), now)
    // acknowledged: issued inside the window, and the nonce is consumed
    && (Guarded(request) && !r.Rejected? ==>
          SecurityOk(SecurityOf(request), now) && Stamped(a, b, KeyOf(env, request).value, now))
    // refused as a replay: the nonce is on record inside the window
    && (r == Rejected(NonceUsed) ==>
          KeyOf(env, request).Some? && KeyOf(env, request).value in a && a[KeyOf(env, request).value] >= now - REPLAY_WINDOW)
  }

  // ----- rate windows

  /** The submission passes every check up to and including the rate limit. */
  predicate Admitted(env: Env, s: State, call: Call, now: Time)
  {
    && call.request.Submit?
    && SubmitFault(env, s.regs, call.identity, call.request.node, call.request.registrationID, call.request.submission, now).None?
    && env.key(call.request.node, call.request.submission.security.value.nonce) !in LiveNonces(s.nonces, now)
    && RateAllows(env, s.rates, call.request.node, now)
  }

  ghost predicate RatesMove(env: Env, a: Rates, b: Rates, admitted: bool, request: Request, response: Response, now: Time)
  {
    if admitted then
      request.Submit? && !env.blank(request.node) && RateAllows(env, a, request.node, now) && b == Charged(a, request.node, now)
    else if response.Revoked? then b == a - {response.target}
    else b == a
  }

  // ----- the round

  /** The update holds the submitted vector and sample count. */
  predicate IsUpdateOf(env: Env, u: Update, sub: Submission)
  {
    env.decode(sub.payload) == Some(u.values) && sub.metrics.Some? && sub.metrics.value.samples == u.samples
  }

  /** An accepted update joined the open round, or closed it. */
  ghost predicate Joined(env: Env, s: State, t: State, node: string, sub: Submission, r: Response, u: Update, now: Time)
    requires r.Accepted?
  {
    && !env.blank(node) && node !in s.pending && sub.round == s.model.round && sub.baseVersion == s.model.version
    && UpdateOk(u) && u.updateID == r.updateID && !env.blank(u.updateID) && IsUpdateOf(env, u, sub)
    && CurrentVector(env, s.model, |u.values|).Some?
    && var grown := s.pending[node := u];
       if r.aggregated then
         && |grown| >= env.minUpdates && t.pending == map[]
         && NextModel(env, s.model, CurrentVector(env, s.model, |u.values|).value, grown, now) == Advanced(t.model)
       else |grown| < env.minUpdates && t.pending == grown && t.model == s.model
  }

  ghost predicate RoundMove(env: Env, s: State, t: State, request: Request, r: Response, now: Time)
  {
    match r
    case Accepted(_, _, _, _) => request.Submit? && exists u :: Joined(env, s, t, request.node, request.submission, r, u, now)
    case Revoked(target, _, _, _) => request.Revoke? && t.model == s.model && t.pending == s.pending - {target}
    case _ => t.model == s.model && t.pending == s.pending
  }

  /** All of the above. */
  ghost predicate Moved(env: Env, s: State, t: State, admitted: bool, request: Request, r: Response, now: Time)
  {
    && LeasesMove(env, s.regs, t.regs, now) && LeaseAnswer(env, s.regs, t.regs, request, r, now) && NoNewOrphans(s, t)
    && NoncesMove(env, s.nonces, t.nonces, request, r, now)
    && RatesMove(env, s.rates, t.rates, admitted, request, r, now)
    && RoundMove(env, s, t, request, r, now)
  }

  // ----- every call moves the state this way

  lemma Stays(env: Env, s: State, request: Request, r: Response, now: Time)
    requires (r.Rejected? && r != Rejected(NonceUsed)) || (r.ModelReply? && !Guarded(request))
    ensures Moved(env, s, s, false, request, r, now)
  {
  }

  lemma LeaseMoves(env: Env, s: State, regs: Leases, request: Request, r: Response, now: Time)
    requires !r.Accepted? && !r.Revoked? && (Guarded(request) ==> r.Rejected?) && r != Rejected(NonceUsed)
    requires LeasesMove(env, s.regs, regs, now) && LeaseAnswer(env, s.regs, regs, request, r, now) && NoNewOrphans(s, s.(regs := regs))
    ensures Moved(env, s, s.(regs := regs), false, request, r, now)
  {
  }

  lemma WriteLease(env: Env, s: State, n: string, e: Registration, now: Time)
    requires LeaseOk(env, n, e) && !IsRevoked(e)
    requires n in s.regs && Live(s.regs[n], now) ==> !IsRevoked(s.regs[n])
    ensures LeasesMove(env, s.regs, s.regs[n := e], now) && NoNewOrphans(s, s.(regs := s.regs[n := e]))
  {
  }

  lemma RegisterMoved(env: Env, s: State, identity: Option<Identity>, node: string, name: string, hardware: bool,
                      now: Time, entropy: Option<Entropy>)
    requires TextSound(env) && now > 0
    ensures var o := StepRegister(env, s, identity, node, name, hardware, now, entropy);
            Moved(env, s, o.state, false, Register(node, name, hardware), o.response, now)
  {
    var o := StepRegister(env, s, identity, node, name, hardware, now, entropy);
    var request := Register(node, name, hardware);
    if o.response.Rejected? {
      Stays(env, s, request, o.response, now);
    } else {
      var e := NewLease(env, s.regs, identity.value, env.hex(entropy.value), now).value;
      NewLeaseOk(env, s.regs, identity.value, env.hex(entropy.value), now);
      WriteLease(env, s, node, e, now);
      LeaseMoves(env, s, s.regs[node := e], request, o.response, now);
    }
  }

  lemma HeartbeatMoved(env: Env, s: State, identity: Option<Identity>, node: string, rid: string, now: Time)
    requires LeasesOk(env, s.regs) && now > 0
    ensures var o := StepHeartbeat(env, s, identity, node, rid, now);
            Moved(env, s, o.state, false, Heartbeat(node, rid), o.response, now)
  {
    var o := StepHeartbeat(env, s, identity, node, rid, now);
    if o.response.Rejected? {
      Stays(env, s, Heartbeat(node, rid), o.response, now);
    } else {
      var e := Refreshed(env, s.regs[node], now);
      WriteLease(env, s, node, e, now);
      LeaseMoves(env, s, s.regs[node := e], Heartbeat(node, rid), o.response, now);
    }
  }

  lemma GetModelMoved(env: Env, s: State, identity: Option<Identity>, node: string, rid: string, now: Time)
    ensures var o := StepGetModel(env, s, identity, node, rid, now);
            Moved(env, s, o.state, false, GetModel(node, rid), o.response, now)
  {
    Stays(env, s, GetModel(node, rid), StepGetModel(env, s, identity, node, rid, now).response, now);
  }

  /** What the nonce step does, given the nonces already pruned. */
  ghost predicate NonceStep(nonces: Nonces, key: string, now: Time)
  {
    var live := LiveNonces(nonces, now);
    && KeepsNonces(nonces, live, now) && AddsOnly(nonces, live, Some(key), now)
    && (if key in live then key in nonces && nonces[key] >= now - REPLAY_WINDOW
        else && KeepsNonces(nonces, live[key := now], now) && AddsOnly(nonces, live[key := now], Some(key), now)
             && Stamped(nonces, live[key := now], key, now))
  }

  lemma NonceMoves(nonces: Nonces, key: string, now: Time)
    ensures NonceStep(nonces, key, now)
  {
  }

  /** A guarded call that is rejected may still prune or record nonces, or drop a lapsed lease. */
  lemma RejectionMoves(env: Env, s: State, regs: Leases, nonces: Nonces, request: Request, fault: Fault, now: Time)
    requires LeasesMove(env, s.regs, regs, now) && KeepsLive(s.regs, regs, now) && NoNewOrphans(s, s.(regs := regs))
    requires NoncesMove(env, s.nonces, nonces, request, Rejected(fault), now)
    ensures Moved(env, s, s.(regs := regs, nonces := nonces), false, request, Rejected(fault), now)
  {
  }

  lemma SameLeases(env: Env, s: State, now: Time)
    ensures LeasesMove(env, s.regs, s.regs, now) && KeepsLive(s.regs, s.regs, now) && NoNewOrphans(s, s)
  {
  }

  // ----- rotation

  lemma RotateMoved(env: Env, s: State, identity: Option<Identity>, node: string, rid: string, security: Option<Security>,
                    now: Time, entropy: Option<Entropy>)
    requires TextSound(env) && LeasesOk(env, s.regs) && now > 0
    ensures var o := StepRotate(env, s, identity, node, rid, security, now, entropy);
            Moved(env, s, o.state, false, Rotate(node, rid, security), o.response, now)
  {
    var request := Rotate(node, rid, security);
    var fault := RotateFault(env, s.regs, identity, node, rid, security, now, entropy);
    if fault.Some? {
      Stays(env, s, request, Rejected(fault.value), now);
    } else {
      var key, next := env.key(node, security.value.nonce), RotatedLease(env, s.regs[node], env.hex(entropy.value), now);
      NonceMoves(s.nonces, key, now);
      SameLeases(env, s, now);
      if next.Some? {
        WriteLease(env, s, node, next.value, now);
        RotatedLeaseReplaces(env, s, identity.value, node, rid, env.hex(entropy.value), now);
      }
      RotateLockedMoved(env, s, node, rid, security, key, next, now);
    }
  }

  function RotationAnswer(e: Registration): Response
  {
    Rotated(e.registrationID, Unix(e.expiresAt), e.generation)
  }

  lemma RotatedLeaseReplaces(env: Env, s: State, id: Identity, node: string, rid: string, next: string, now: Time)
    requires LeasesOk(env, s.regs) && id.nodeID == node && Active(s.regs, id, rid, now) && RotatedLease(env, s.regs[node], next, now).Some?
    ensures var e := RotatedLease(env, s.regs[node], next, now).value;
            Replaced(env, s.regs, s.regs[node := e], node, rid, RotationAnswer(e), now)
  {
  }

  lemma RotateLockedMoved(env: Env, s: State, node: string, rid: string, security: Option<Security>, key: string,
                          next: Option<Registration>, now: Time)
    requires SecurityOk(security, now) && key == env.key(node, security.value.nonce)
    requires NonceStep(s.nonces, key, now)
    requires LeasesMove(env, s.regs, s.regs, now) && KeepsLive(s.regs, s.regs, now) && NoNewOrphans(s, s)
    requires next.Some? ==> LeasesMove(env, s.regs, s.regs[node := next.value], now)
                            && NoNewOrphans(s, s.(regs := s.regs[node := next.value]))
                            && Replaced(env, s.regs, s.regs[node := next.value], node, rid, RotationAnswer(next.value), now)
    ensures var o := RotateLocked(s, node, key, next, now);
            Moved(env, s, o.state, false, Rotate(node, rid, security), o.response, now)
  {
    var nonces := LiveNonces(s.nonces, now);
    if key in nonces {
      RejectionMoves(env, s, s.regs, nonces, Rotate(node, rid, security), NonceUsed, now);
    } else if next.None? {
      RejectionMoves(env, s, s.regs, nonces[key := now], Rotate(node, rid, security), RotationRefused, now);
    }
  }

  // ----- revocation

  function RevocationAnswer(target: string, e: Registration): Response
  {
    Revoked(target, e.generation, Unix(e.revokedAt), Unix(e.expiresAt))
  }

  /** Revocation keeps leases well formed and live tombstones in place; the entry it returns is
      the target's, and nobody else becomes revoked. */
  lemma RevokeLeaseMoves(env: Env, s: State, target: string, reason: string, now: Time)
    requires TextSound(env) && LeasesOk(env, s.regs) && now > 0
    ensures var r := RevokeLease(env, s.regs, target, reason, now);
            && LeasesMove(env, s.regs, r.regs, now)
            && (r.Refusal? ==> NoNewOrphans(s, s.(regs := r.regs)) && r.fault != NonceUsed)
            && (forall n :: n in r.regs && n != target ==> n in s.regs && r.regs[n] == s.regs[n])
  {
  }

  /** A refused revocation drops at most a lapsed lease; any other leaves a tombstone. */
  lemma RevokeLeaseBuries(env: Env, regs: Leases, target: string, reason: string, now: Time)
    requires now > 0
    ensures var r := RevokeLease(env, regs, target, reason, now);
            if r.Refusal? then KeepsLive(regs, r.regs, now) else Buried(regs, r.regs, RevocationAnswer(target, r.entry), now)
  {
  }

  lemma RevokeLockedMoved(env: Env, s: State, node: string, rid: string, target: string, reason: string,
                          security: Option<Security>, t: string, key: string, r: Revocation, now: Time)
    requires SecurityOk(security, now) && key == env.key(node, security.value.nonce)
    requires NonceStep(s.nonces, key, now)
    requires LeasesMove(env, s.regs, s.regs, now) && KeepsLive(s.regs, s.regs, now) && NoNewOrphans(s, s)
    requires LeasesMove(env, s.regs, r.regs, now)
    requires r.Refusal? ==> NoNewOrphans(s, s.(regs := r.regs)) && r.fault != NonceUsed && KeepsLive(s.regs, r.regs, now)
    requires r.Tombstone? ==> Buried(s.regs, r.regs, RevocationAnswer(t, r.entry), now)
    requires forall n :: n in r.regs && n != t ==> n in s.regs && r.regs[n] == s.regs[n]
    ensures var o := RevokeLocked(s, t, key, r, now);
            Moved(env, s, o.state, false, Revoke(node, rid, target, reason, security), o.response, now)
  {
    var nonces, request := LiveNonces(s.nonces, now), Revoke(node, rid, target, reason, security);
    if key in nonces {
      RejectionMoves(env, s, s.regs, nonces, request, NonceUsed, now);
    } else if r.Refusal? {
      RejectionMoves(env, s, r.regs, nonces[key := now], request, r.fault, now);
    }
  }

  lemma RevokeMoved(env: Env, s: State, identity: Option<Identity>, node: string, rid: string, target: string, reason: string,
                    security: Option<Security>, now: Time)
    requires TextSound(env) && LeasesOk(env, s.regs) && now > 0
    ensures var o := StepRevoke(env, s, identity, node, rid, target, reason, security, now);
            Moved(env, s, o.state, false, Revoke(node, rid, target, reason, security), o.response, now)
  {
    var request := Revoke(node, rid, target, reason, security);
    var fault := RevokeFault(env, s.regs, identity, node, rid, target, security, now);
    if fault.Some? {
      Stays(env, s, request, Rejected(fault.value), now);
    } else {
      var t, key := env.trim(target), env.key(node, security.value.nonce);
      NonceMoves(s.nonces, key, now);
      SameLeases(env, s, now);
      RevokeLeaseMoves(env, s, t, reason, now);
      RevokeLeaseBuries(env, s.regs, t, reason, now);
      RevokeLockedMoved(env, s, node, rid, target, reason, security, t, key, RevokeLease(env, s.regs, t, reason, now), now);
    }
  }

  // ----- submission

  lemma JoinMoves(env: Env, s: State, t: State, node: string, sub: Submission, u: Update, now: Time)
    requires !env.blank(node) && !env.blank(u.updateID) && UpdateOk(u) && IsUpdateOf(env, u, sub)
    requires RoundFault(env, s.model, s.pending, node, sub, |u.values|).None?
    requires var c := Join(env, s.model, s.pending, node, u, now);
             t.model == c.model && t.pending == c.pending
    ensures var c := Join(env, s.model, s.pending, node, u, now);
            if c.response.Accepted? then Joined(env, s, t, node, sub, c.response, u, now)
            else c.response.Rejected? && c.response != Rejected(NonceUsed) && t.model == s.model && t.pending == s.pending
  {
  }

  lemma ContributeMoves(env: Env, s: State, t: State, node: string, rid: string, sub: Submission, values: seq<Npy.F32>,
                        samples: nat, now: Time, entropy: Option<Entropy>)
    requires TextSound(env) && !env.blank(node) && 0 < samples <= MAX_SAMPLES && VectorOk(values)
    requires env.decode(sub.payload) == Some(values) && sub.metrics.Some? && samples == sub.metrics.value.samples
    requires var c := Contribute(env, s.model, s.pending, node, sub, values, samples, now, entropy);
             t.model == c.model && t.pending == c.pending
    ensures var c := Contribute(env, s.model, s.pending, node, sub, values, samples, now, entropy);
            && RoundMove(env, s, t, Submit(node, rid, sub), c.response, now)
            && (forall n :: n in t.pending ==> n in s.pending || n == node)
            && (c.response.Accepted? || c.response.Rejected?) && c.response != Rejected(NonceUsed)
  {
    if RoundFault(env, s.model, s.pending, node, sub, |values|).None? && entropy.Some? {
      JoinMoves(env, s, t, node, sub, Update(env.hex(entropy.value), values, samples), now);
    }
  }

  /** The admitted case: nonce recorded, window charged, round moved. */
  lemma AdmittedMoves(env: Env, s: State, t: State, request: Request, r: Response, now: Time)
    requires request.Submit? && !env.blank(request.node) && (r.Accepted? || r.Rejected?)
    requires t.regs == s.regs && (request.node in s.regs ==> !IsRevoked(s.regs[request.node]))
    requires forall n :: n in t.pending ==> n in s.pending || n == request.node
    requires SecurityOk(request.submission.security, now)
    requires r != Rejected(NonceUsed) && NoncesMove(env, s.nonces, t.nonces, request, r, now)
    requires RateAllows(env, s.rates, request.node, now) && t.rates == Charged(s.rates, request.node, now)
    requires RoundMove(env, s, t, request, r, now)
    ensures Moved(env, s, t, true, request, r, now)
  {
  }

  lemma SubmittedMoved(env: Env, s: State, node: string, rid: string, key: string, sub: Submission, values: seq<Npy.F32>,
                       samples: nat, now: Time, entropy: Option<Entropy>)
    requires TextSound(env) && !env.blank(node) && node in s.regs && !IsRevoked(s.regs[node])
    requires SecurityOk(sub.security, now) && key == env.key(node, sub.security.value.nonce)
    requires 0 < samples <= MAX_SAMPLES && VectorOk(values) && env.decode(sub.payload) == Some(values)
    requires sub.metrics.Some? && samples == sub.metrics.value.samples
    requires NonceStep(s.nonces, key, now)
    ensures var o := Submitted(env, s, node, key, sub, values, samples, now, entropy);
            var admitted := key !in LiveNonces(s.nonces, now) && RateAllows(env, s.rates, node, now);
            Moved(env, s, o.state, admitted, Submit(node, rid, sub), o.response, now)
  {
    var nonces, request := LiveNonces(s.nonces, now), Submit(node, rid, sub);
    SameLeases(env, s, now);
    if key in nonces {
      RejectionMoves(env, s, s.regs, nonces, request, NonceUsed, now);
    } else if !RateAllows(env, s.rates, node, now) {
      RejectionMoves(env, s, s.regs, nonces[key := now], request, RateLimited, now);
    } else {
      var c := Contribute(env, s.model, s.pending, node, sub, values, samples, now, entropy);
      var t := State(s.regs, c.model, c.pending, Charged(s.rates, node, now), nonces[key := now]);
      ContributeMoves(env, s, t, node, rid, sub, values, samples, now, entropy);
      AdmittedMoves(env, s, t, request, c.response, now);
    }
  }

  lemma SubmissionFacts(env: Env, sub: Submission, now: Time)
    requires CodecSound(env) && SubmissionFault(env, sub, now).None?
    ensures SecurityOk(sub.security, now) && sub.metrics.Some? && 0 < sub.metrics.value.samples <= MAX_SAMPLES
    ensures env.decode(sub.payload).Some? && VectorOk(env.decode(sub.payload).value)
  {
  }

  lemma AccessFacts(env: Env, regs: Leases, identity: Option<Identity>, node: string, rid: string, now: Time)
    requires AccessFault(env, regs, identity, node, rid, now).None?
    ensures identity.Some? && identity.value.nodeID == node && !env.blank(node)
    ensures node in regs && Live(regs[node], now) && !IsRevoked(regs[node])
  {
  }

  lemma SubmitMoved(env: Env, s: State, identity: Option<Identity>, node: string, rid: string, sub: Submission,
                    now: Time, entropy: Option<Entropy>)
    requires TextSound(env) && CodecSound(env)
    ensures var o := StepSubmit(env, s, identity, node, rid, sub, now, entropy);
            Moved(env, s, o.state, Admitted(env, s, Call(identity, Submit(node, rid, sub)), now), Submit(node, rid, sub), o.response, now)
  {
    var fault := SubmitFault(env, s.regs, identity, node, rid, sub, now);
    if fault.Some? {
      Stays(env, s, Submit(node, rid, sub), Rejected(fault.value), now);
    } else {
      var key := env.key(node, sub.security.value.nonce);
      AccessFacts(env, s.regs, identity, node, rid, now);
      SubmissionFacts(env, sub, now);
      NonceMoves(s.nonces, key, now);
      SubmittedMoved(env, s, node, rid, key, sub, env.decode(sub.payload).value, sub.metrics.value.samples, now, entropy);
    }
  }

  lemma GuardedMoved(env: Env, s: State, call: Call, now: Time, entropy: Option<Entropy>)
    requires TextSound(env) && CodecSound(env) && LeasesOk(env, s.regs) && now > 0 && Guarded(call.request)
    ensures var o := Step(env, s, call, now, entropy);
            Moved(env, s, o.state, Admitted(env, s, call, now), call.request, o.response, now)
  {
    match call.request
    case Submit(node, rid, sub) => SubmitMoved(env, s, call.identity, node, rid, sub, now, entropy);
    case Rotate(node, rid, security) => RotateMoved(env, s, call.identity, node, rid, security, now, entropy);
    case Revoke(node, rid, target, reason, security) =>
      RevokeMoved(env, s, call.identity, node, rid, target, reason, security, now);
  }

  /** Every call moves the state as described. */
  lemma StepMoved(env: Env, s: State, call: Call, now: Time, entropy: Option<Entropy>)
    requires TextSound(env) && CodecSound(env) && LeasesOk(env, s.regs) && now > 0
    ensures var o := Step(env, s, call, now, entropy);
            Moved(env, s, o.state, Admitted(env, s, call, now), call.request, o.response, now)
  {
    if Guarded(call.request) {
      GuardedMoved(env, s, call, now, entropy);
    } else {
      match call.request
      case NilRequest(_) => Stays(env, s, call.request, Step(env, s, call, now, entropy).response, now);
      case Register(node, name, hardware) => RegisterMoved(env, s, call.identity, node, name, hardware, now, entropy);
      case Heartbeat(node, rid) => HeartbeatMoved(env, s, call.identity, node, rid, now);
      case GetModel(node, rid) => GetModelMoved(env, s, call.identity, node, rid, now);
    }
  }
}
