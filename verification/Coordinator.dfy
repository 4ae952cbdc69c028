/** The coordinator's objects: the registration store, the service that owns it, and the durable
    service around both. Each method is proved against the functions the theorems are about. */
module Coordinator {
  import opened Text
  import opened Core
  import opened Registry
  import opened Service
  import opened Snapshots
  import opened Durable
  import opened Persisted
  import opened Worlds

  class RegistrationStore {
    var entries: Leases

    constructor (entries: Leases)
      ensures this.entries == entries
    {
      this.entries := entries;
    }

    /** Every entry carries a credential generation. */
    ghost predicate Numbered()
      reads this
    {
      forall n :: n in entries ==> entries[n].generation > 0
    }

    method Register(env: Env, identity: Identity, registrationID: string, now: Time) returns (r: Option<Registration>)
      requires Numbered()
      modifies this
      ensures r == NewLease(env, old(entries), identity, registrationID, now)
      ensures entries == if r.Some? then old(entries)[identity.nodeID := r.value] else old(entries)
    {
      if env.blank(identity.nodeID) || env.blank(identity.role) || env.blank(identity.fingerprint) || registrationID == "" {
        return None;
      }
      var generation := 1;
      if identity.nodeID in entries {
        var existing := Normalize(entries[identity.nodeID]);
        if now < existing.expiresAt {
          if existing.revokedAt != ZERO_TIME {
            return None;
          }
          if existing.role != identity.role || existing.fingerprint != identity.fingerprint {
            return None;
          }
        }
        if existing.generation >= MAX_GENERATION {
          return None;
        }
        generation := existing.generation + 1;
      }
      var entry := Registration(identity.role, identity.fingerprint, registrationID, now + env.leaseTTL, generation, ZERO_TIME, "");
      entries := entries[identity.nodeID := entry];
      r := Some(entry);
    }

    method Validate(identity: Identity, registrationID: string, now: Time) returns (ok: bool)
      requires Numbered()
      ensures ok == Active(entries, identity, registrationID, now)
    {
      if identity.nodeID !in entries {
        return false;
      }
      ok := Usable(Normalize(entries[identity.nodeID]), identity, registrationID, now);
    }

    method Refresh(env: Env, identity: Identity, registrationID: string, now: Time) returns (r: Option<Registration>)
      requires Numbered()
      modifies this
      ensures r.Some? <==> Active(old(entries), identity, registrationID, now)
      ensures r.Some? ==> r.value == Refreshed(env, old(entries)[identity.nodeID], now)
      ensures entries == if r.Some? then old(entries)[identity.nodeID := r.value] else old(entries)
    {
      var ok := Validate(identity, registrationID, now);
      if !ok {
        return None;
      }
      var entry := Normalize(entries[identity.nodeID]).(expiresAt := now + env.leaseTTL);
      entries := entries[identity.nodeID := entry];
      r := Some(entry);
    }

    method Rotate(env: Env, identity: Identity, currentID: string, nextID: string, now: Time) returns (r: Option<Registration>)
      requires Numbered()
      modifies this
      ensures r == if Active(old(entries), identity, currentID, now) then RotatedLease(env, old(entries)[identity.nodeID], nextID, now) else None
      ensures entries == if r.Some? then old(entries)[identity.nodeID := r.value] else old(entries)
    {
      if env.blank(nextID) || currentID == nextID {
        return None;
      }
      var ok := Validate(identity, currentID, now);
      if !ok {
        return None;
      }
      var entry := Normalize(entries[identity.nodeID]);
      if entry.generation >= MAX_GENERATION {
        return None;
      }
      entry := entry.(registrationID := nextID, generation := entry.generation + 1, expiresAt := now + env.leaseTTL,
                      revokedAt := ZERO_TIME, reason := "");
      entries := entries[identity.nodeID := entry];
      r := Some(entry);
    }

    method Revoke(env: Env, target: string, reason: string, now: Time) returns (r: Revocation)
      requires Numbered()
      modifies this
      ensures r == RevokeLease(env, old(entries), target, reason, now) && entries == r.regs
    {
      var text := env.trim(reason);
      if text == "" || |text| > MAX_REASON {
        return Refusal(entries, BadReason);
      }
      if target !in entries {
        return Refusal(entries, TargetNotActive);
      }
      var entry := Normalize(entries[target]);
      if !(now < entry.expiresAt) {
        entries := entries - {target};
        return Refusal(entries, TargetNotActive);
      }
      if entry.revokedAt == ZERO_TIME {
        entry := entry.(revokedAt := now, reason := text);
        entries := entries[target := entry];
      }
      r := Tombstone(entries, entry);
    }
  }

  class CoordinatorService {
    const env: Env
    const registry: RegistrationStore
    var model: Model
    var pending: map<string, Update>
    var rates: Rates
    var nonces: Nonces

    function View(): State
      reads this, registry
    {
      State(registry.entries, model, pending, rates, nonces)
    }

    constructor (env: Env, s: State)
      ensures this.env == env && fresh(registry) && View() == s
    {
      this.env := env;
      registry := new RegistrationStore(s.regs);
      model, pending, rates, nonces := s.model, s.pending, s.rates, s.nonces;
    }

    /** Drop the nonces that have left the window, in any order, then record the new one. */
    method AcceptNonce(key: string, now: Time) returns (accepted: bool)
      modifies this`nonces
      ensures accepted <==> key !in LiveNonces(old(nonces), now)
      ensures nonces == if accepted then LiveNonces(old(nonces), now)[key := now] else LiveNonces(old(nonces), now)
    {
      var cutoff := now - REPLAY_WINDOW;
      var keys := nonces.Keys;
      while keys != {}
        invariant keys <= old(nonces).Keys
        invariant forall k :: k in nonces <==> k in old(nonces) && (k in keys || old(nonces)[k] >= cutoff)
        invariant forall k :: k in nonces ==> nonces[k] == old(nonces)[k]
        decreases |keys|
      {
        var k :| k in keys;
        if nonces[k] < cutoff {
          nonces := nonces - {k};
        }
        keys := keys - {k};
      }
      assert nonces == LiveNonces(old(nonces), now);
      if key in nonces {
        return false;
      }
      nonces := nonces[key := now];
      accepted := true;
    }

    method AllowUpdate(node: string, now: Time) returns (allowed: bool)
      modifies this`rates
      ensures allowed <==> RateAllows(env, old(rates), node, now)
      ensures rates == if allowed then Charged(old(rates), node, now) else old(rates)
    {
      if node !in rates || rates[node].startedAt == ZERO_TIME || now - rates[node].startedAt >= MINUTE {
        rates := rates[node := Window(now, 1)];
        return true;
      }
      var window := rates[node];
      if window.count >= env.maxPerMinute {
        return false;
      }
      rates := rates[node := Window(window.startedAt, window.count + 1)];
      allowed := true;
    }

    method RegisterNode(identity: Option<Identity>, node: string, commonName: string, hardware: bool, now: Time, entropy: Option<Entropy>)
      returns (r: Response)
      requires registry.Numbered()
      modifies registry
      ensures Outcome(View(), r) == StepRegister(env, old(View()), identity, node, commonName, hardware, now, entropy)
    {
      var fault := RegisterFault(env, identity, node, commonName, hardware, entropy);
      if fault.Some? {
        return Rejected(fault.value);
      }
      var lease := registry.Register(env, identity.value, env.hex(entropy.value), now);
      if lease.None? {
        return Rejected(RegistrationRefused);
      }
      var e := lease.value;
      r := Registered(e.registrationID, e.role, Unix(e.expiresAt), e.generation);
    }

    method SendHeartbeat(identity: Option<Identity>, node: string, rid: string, now: Time) returns (r: Response)
      requires registry.Numbered()
      modifies registry
      ensures Outcome(View(), r) == StepHeartbeat(env, old(View()), identity, node, rid, now)
    {
      var fault := AccessFault(env, registry.entries, identity, node, rid, now);
      if fault.Some? {
        return Rejected(fault.value);
      }
      var lease := registry.Refresh(env, identity.value, rid, now);
      var e := lease.value;
      r := Renewed(Unix(now), model.version, Unix(e.expiresAt), e.generation);
    }

    method GetGlobalModel(identity: Option<Identity>, node: string, rid: string, now: Time) returns (r: Response)
      ensures Outcome(View(), r) == StepGetModel(env, View(), identity, node, rid, now)
    {
      var fault := AccessFault(env, registry.entries, identity, node, rid, now);
      r := if fault.Some? then Rejected(fault.value) else ModelReply(model);
    }

    method RotateRegistration(identity: Option<Identity>, node: string, rid: string, security: Option<Security>, now: Time,
                              entropy: Option<Entropy>) returns (r: Response)
      requires registry.Numbered()
      modifies this, registry
      ensures Outcome(View(), r) == StepRotate(env, old(View()), identity, node, rid, security, now, entropy)
    {
      var fault := RotateFault(env, registry.entries, identity, node, rid, security, now, entropy);
      if fault.Some? {
        return Rejected(fault.value);
      }
      var accepted := AcceptNonce(env.key(node, security.value.nonce), now);
      if !accepted {
        return Rejected(NonceUsed);
      }
      var lease := registry.Rotate(env, identity.value, rid, env.hex(entropy.value), now);
      if lease.None? {
        return Rejected(RotationRefused);
      }
      var e := lease.value;
      r := Rotated(e.registrationID, Unix(e.expiresAt), e.generation);
    }

    method RevokeRegistration(identity: Option<Identity>, node: string, rid: string, target: string, reason: string,
                              security: Option<Security>, now: Time) returns (r: Response)
      requires registry.Numbered()
      modifies this, registry
      ensures Outcome(View(), r) == StepRevoke(env, old(View()), identity, node, rid, target, reason, security, now)
    {
      var fault := RevokeFault(env, registry.entries, identity, node, rid, target, security, now);
      if fault.Some? {
        return Rejected(fault.value);
      }
      var accepted := AcceptNonce(env.key(node, security.value.nonce), now);
      if !accepted {
        return Rejected(NonceUsed);
      }
      var t := env.trim(target);
      var revocation := registry.Revoke(env, t, reason, now);
      if revocation.Refusal? {
        return Rejected(revocation.fault);
      }
      pending, rates := pending - {t}, rates - {t};
      var e := revocation.entry;
      r := Revoked(t, e.generation, Unix(e.revokedAt), Unix(e.expiresAt));
    }

    /** Add the update to the round; at the quorum, aggregate, advance the model and clear the round. */
    method JoinRound(node: string, u: Update, now: Time) returns (r: Response)
      requires node !in pending && CurrentVector(env, model, |u.values|).Some?
      modifies this`model, this`pending
      ensures Contribution(model, pending, r) == Join(env, old(model), old(pending), node, u, now)
    {
      var current := CurrentVector(env, model, |u.values|).value;
      pending := pending[node := u];
      if |pending| < env.minUpdates {
        return Accepted(u.updateID, false, |pending|, model.version);
      }
      var advance := NextModel(env, model, current, pending, now);
      if advance.Failed? {
        pending := pending - {node};
        assert pending == old(pending);
        return Rejected(advance.fault);
      }
      model, pending := advance.model, map[];
      r := Accepted(u.updateID, true, 0, model.version);
    }

    method SubmitLocalUpdate(identity: Option<Identity>, node: string, rid: string, sub: Submission, now: Time, entropy: Option<Entropy>)
      returns (r: Response)
      requires registry.Numbered()
      modifies this
      ensures Outcome(View(), r) == StepSubmit(env, old(View()), identity, node, rid, sub, now, entropy)
    {
      var fault := SubmitFault(env, registry.entries, identity, node, rid, sub, now);
      if fault.Some? {
        return Rejected(fault.value);
      }
      var values := env.decode(sub.payload).value;
      var accepted := AcceptNonce(env.key(node, sub.security.value.nonce), now);
      if !accepted {
        return Rejected(NonceUsed);
      }
      var allowed := AllowUpdate(node, now);
      if !allowed {
        return Rejected(RateLimited);
      }
      var stale := RoundFault(env, model, pending, node, sub, |values|);
      if stale.Some? {
        return Rejected(stale.value);
      }
      if entropy.None? {
        return Rejected(NoEntropy);
      }
      r := JoinRound(node, Update(env.hex(entropy.value), values, sub.metrics.value.samples), now);
    }

    /** Any of the six calls. */
    method Handle(call: Call, now: Time, entropy: Option<Entropy>) returns (r: Response)
      requires registry.Numbered()
      modifies this, registry
      ensures Outcome(View(), r) == Step(env, old(View()), call, now, entropy)
    {
      match call.request {
        case NilRequest(register) =>
          r := Rejected(if register && call.identity.None? then MissingIdentity else MissingRequest);
        case Register(node, name, hardware) => r := RegisterNode(call.identity, node, name, hardware, now, entropy);
        case Heartbeat(node, rid) => r := SendHeartbeat(call.identity, node, rid, now);
        case GetModel(node, rid) => r := GetGlobalModel(call.identity, node, rid, now);
        case Submit(node, rid, sub) => r := SubmitLocalUpdate(call.identity, node, rid, sub, now, entropy);
        case Rotate(node, rid, security) => r := RotateRegistration(call.identity, node, rid, security, now, entropy);
        case Revoke(node, rid, target, reason, security) =>
          r := RevokeRegistration(call.identity, node, rid, target, reason, security, now);
      }
    }

    /** Replace the whole state by a restored one. */
    method Load(s: State)
      modifies this, registry
      ensures View() == s
    {
      registry.entries := s.regs;
      model, pending, rates, nonces := s.model, s.pending, s.rates, s.nonces;
    }
  }

  class DurableService {
    const service: CoordinatorService
    var cell: Option<Record>

    constructor (service: CoordinatorService, cell: Option<Record>)
      ensures this.service == service && this.cell == cell
    {
      this.service := service;
      this.cell := cell;
    }

    /** No stored list repeats a key. */
    ghost predicate Orderly()
      reads this
    {
      cell.Some? ==> Tidy(cell.value)
    }

    /** The store as the map view sees it. */
    ghost function Stored(): Option<Snapshot>
      reads this
    {
      if cell.None? then None else Some(Image(cell.value))
    }

    /** The store validates what it is given; what happens afterwards is up to `fate`. */
    method Commit(r: Record, fate: Fate) returns (ok: bool)
      requires CodecSound(service.env) && Tidy(r)
      modifies this`cell
      ensures Commitment(Stored(), ok) == Durable.Commit(service.env, old(Stored()), Image(r), fate)
      ensures old(Orderly()) ==> Orderly()
    {
      var valid := ValidateRecord(service.env, r);
      if !valid || fate.FailsBefore? {
        return false;
      }
      cell := Some(r);
      ok := fate.Healthy?;
    }

    /** A failed commit: restore memory from the snapshot taken before, then commit that snapshot. */
    method RollBackTo(before: Record, restored: Time, fate: Fate) returns (r: Response)
      requires CodecSound(service.env) && Tidy(before)
      modifies this`cell, service, service.registry
      ensures Served(service.View(), Stored(), r) ==
              RollBack(service.env, old(service.View()), old(Stored()), Image(before), restored, fate)
      ensures old(Orderly()) ==> Orderly()
    {
      var state := RestoreRecord(service.env, before, restored);
      if state.None? {
        return Rejected(RollbackFailed);
      }
      service.Load(state.value);
      var ok := Commit(before, fate);
      r := Rejected(if ok then PreviousStateRestored else PersistentRollbackFailed);
    }

    /** One durable call: capture, step, commit, or roll back. */
    method Perform(call: Call, c: Clock, entropy: Option<Entropy>, first: Fate, second: Fate) returns (r: Response)
      requires CodecSound(service.env) && service.registry.Numbered()
      modifies this`cell, service, service.registry
      ensures Served(service.View(), Stored(), r) ==
              Serve(service.env, old(service.View()), old(Stored()), call, c, entropy, first, second)
      ensures old(Orderly()) ==> Orderly()
    {
      if call.request.GetModel? {
        r := service.Handle(call, c.now, entropy);
        return;
      }
      var before := CaptureRecord(service.View(), c.before);
      r := service.Handle(call, c.now, entropy);
      if r.Rejected? {
        return;
      }
      var after := CaptureRecord(service.View(), c.after);
      var ok := Commit(after, first);
      if !ok {
        r := RollBackTo(before, c.restored, second);
      }
    }

    /** Commit what is in memory now. */
    method CommitCurrent(captured: Time, fate: Fate) returns (ok: bool)
      requires CodecSound(service.env)
      modifies this`cell
      ensures Commitment(Stored(), ok) == Durable.Commit(service.env, old(Stored()), Capture(service.View(), captured), fate)
      ensures old(Orderly()) ==> Orderly()
    {
      var current := CaptureRecord(service.View(), captured);
      ok := Commit(current, fate);
    }

    /** Opening on stored state: restore it, then commit the normalised state. */
    method Recover(now: Time, restored: Time, captured: Time, fate: Fate) returns (up: bool)
      requires CodecSound(service.env) && Orderly()
      modifies this`cell, service, service.registry
      ensures var w := Restarted(service.env, World(false, old(service.View()), old(Stored()), now), restored, captured, fate);
              up == w.up && Stored() == w.cell && service.View() == w.mem
      ensures Orderly()
    {
      if cell.None? {
        return false;
      }
      var state := RestoreRecord(service.env, cell.value, restored);
      if state.None? {
        return false;
      }
      ghost var mem := Restore(Image(cell.value), restored);
      assert state == Some(mem) && Restorable(service.env, Image(cell.value));
      service.Load(state.value);
      up := CommitCurrent(captured, fate);
    }
  }
}
