/** The registration store: leases, credential rotation and revocation tombstones. */
module Registry {
  import opened Text
  import opened Core

  type Leases = map<string, Registration>

  predicate Live(e: Registration, now: Time)
  {
    now < e.expiresAt
  }

  predicate IsRevoked(e: Registration)
  {
    e.revokedAt != ZERO_TIME
  }

  predicate Bound(e: Registration, id: Identity)
  {
    e.role == id.role && e.fingerprint == id.fingerprint
  }

  predicate Usable(e: Registration, id: Identity, registrationID: string, now: Time)
  {
    Live(e, now) && !IsRevoked(e) && e.registrationID == registrationID && Bound(e, id)
  }

  predicate Active(regs: Leases, id: Identity, registrationID: string, now: Time)
  {
    id.nodeID in regs && Usable(regs[id.nodeID], id, registrationID, now)
  }

  /** The generation a new lease of `id` would get, or None when it is refused. */
  function NextGeneration(regs: Leases, id: Identity, now: Time): Option<nat>
  {
    if id.nodeID !in regs then Some(1)
    else
      var e := regs[id.nodeID];
      if Live(e, now) && (IsRevoked(e) || !Bound(e, id)) then None
      else if e.generation >= MAX_GENERATION then None
      else Some(e.generation + 1)
  }

  predicate Complete(env: Env, id: Identity)
  {
    !env.blank(id.nodeID) && !env.blank(id.role) && !env.blank(id.fingerprint)
  }

  function NewLease(env: Env, regs: Leases, id: Identity, registrationID: string, now: Time): Option<Registration>
  {
    var generation := NextGeneration(regs, id, now);
    if !Complete(env, id) || registrationID == "" || generation.None? then None
    else Some(Registration(id.role, id.fingerprint, registrationID, now + env.leaseTTL, generation.value, ZERO_TIME, ""))
  }

  function Refreshed(env: Env, e: Registration, now: Time): Registration
  {
    e.(expiresAt := now + env.leaseTTL)
  }

  function RotatedLease(env: Env, e: Registration, next: string, now: Time): Option<Registration>
  {
    if env.blank(next) || next == e.registrationID || e.generation >= MAX_GENERATION then None
    else Some(e.(registrationID := next, generation := e.generation + 1, expiresAt := now + env.leaseTTL,
                 revokedAt := ZERO_TIME, reason := ""))
  }

  /** Revocation of `target`: the leases afterwards, and the tombstone or the fault. */
  datatype Revocation = Tombstone(regs: Leases, entry: Registration) | Refusal(regs: Leases, fault: Fault)

  function RevokeLease(env: Env, regs: Leases, target: string, reason: string, now: Time): Revocation
  {
    var text := env.trim(reason);
    if text == "" || |text| > MAX_REASON then Refusal(regs, BadReason)
    else if target !in regs then Refusal(regs, TargetNotActive)
    else
      var e := regs[target];
      if !Live(e, now) then Refusal(regs - {target}, TargetNotActive)
      else if IsRevoked(e) then Tombstone(regs, e)
      else
        var tomb := e.(revokedAt := now, reason := text);
        Tombstone(regs[target := tomb], tomb)
  }

  /** The leases a snapshot taken or restored at `now` keeps. */
  function LiveLeases(regs: Leases, now: Time): (r: Leases)
    ensures forall n :: n in r <==> n in regs && Live(regs[n], now)
    ensures forall n :: n in r ==> r[n] == regs[n]
  {
    map n | n in regs && Live(regs[n], now) :: regs[n]
  }

  // ----- what every lease satisfies

  predicate LeaseOk(env: Env, n: string, e: Registration)
  {
    && !env.blank(n) && !env.blank(e.role) && !env.blank(e.fingerprint) && !env.blank(e.registrationID)
    && e.expiresAt != ZERO_TIME && 0 < e.generation <= MAX_GENERATION && |e.reason| <= MAX_REASON
    && (IsRevoked(e) <==> e.reason != "")
    && (IsRevoked(e) ==> !env.blank(e.reason) && e.revokedAt <= e.expiresAt)
  }

  predicate LeasesOk(env: Env, regs: Leases)
  {
    forall n :: n in regs ==> LeaseOk(env, n, regs[n])
  }

  lemma NewLeaseOk(env: Env, regs: Leases, id: Identity, registrationID: string, now: Time)
    requires NewLease(env, regs, id, registrationID, now).Some? && !env.blank(registrationID)
    requires now > 0
    ensures LeaseOk(env, id.nodeID, NewLease(env, regs, id, registrationID, now).value)
  {
  }
}
