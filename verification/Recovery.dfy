/** Recovery is unobservable: a state restored from its own snapshot answers every later sequence
    of calls as the original would, although lapsed leases, old nonces and closed rate windows were
    left out. Only the credential generations of leases that had already lapsed can differ. */
module Recovery {
  import opened Text
  import opened Core
  import opened Registry
  import opened Service
  import opened Snapshots
  import Npy

  // ----- when two states are indistinguishable from time t on

  /** Equal up to the credential generation. */
  predicate SameLease(a: Registration, b: Registration)
  {
    a == b.(generation := a.generation)
  }

  /** Outside `lapsed` the leases are equal; inside, equal while live, up to the generation. */
  ghost predicate LeasesAgree(a: Leases, b: Leases, lapsed: set<string>, t: Time)
  {
    && (forall n :: n !in lapsed ==> (n in a <==> n in b))
    && (forall n :: n !in lapsed && n in a ==> a[n] == b[n])
    && (forall n :: n in lapsed ==> ((n in a && Live(a[n], t)) <==> (n in b && Live(b[n], t))))
    && (forall n :: n in lapsed && n in a && Live(a[n], t) ==> SameLease(a[n], b[n]))
  }

  /** The generations of lapsed nodes can still grow `k` times. */
  ghost predicate Headroom(a: Leases, lapsed: set<string>, k: nat)
  {
    forall n :: n in lapsed && n in a ==> a[n].generation + k <= MAX_GENERATION
  }

  ghost predicate LeasesTwin(a: Leases, b: Leases, lapsed: set<string>, t: Time, k: nat)
  {
    LeasesAgree(a, b, lapsed, t) && Headroom(a, lapsed, k) && Headroom(b, lapsed, k)
  }

  ghost predicate Twins(a: State, b: State, lapsed: set<string>, t: Time, k: nat)
  {
    && a.model == b.model && a.pending == b.pending
    && LeasesTwin(a.regs, b.regs, lapsed, t, k)
    && LiveNonces(a.nonces, t) == LiveNonces(b.nonces, t)
    && LiveRates(a.rates, t) == LiveRates(b.rates, t)
  }

  function WithoutGeneration(r: Response): Response
  {
    match r
    case Registered(id, role, expires, _) => Registered(id, role, expires, 0)
    case Renewed(time, version, expires, _) => Renewed(time, version, expires, 0)
    case Rotated(id, expires, _) => Rotated(id, expires, 0)
    case Revoked(target, _, at, until) => Revoked(target, 0, at, until)
    case _ => r
  }

  /** The node whose lease the answer is about. */
  function Subject(request: Request, r: Response): string
  {
    if r.Revoked? then r.target else if request.NilRequest? then "" else request.node
  }

  /** Equal answers, up to the generation of a lapsed node's lease. */
  predicate SameAnswer(request: Request, a: Response, b: Response, lapsed: set<string>)
  {
    a == b || (WithoutGeneration(a) == WithoutGeneration(b) && Subject(request, a) in lapsed)
  }

  // ----- leases

  lemma LeasesAgreeLater(a: Leases, b: Leases, lapsed: set<string>, t: Time, now: Time, k: nat)
    requires LeasesTwin(a, b, lapsed, t, k + 1) && t <= now
    ensures LeasesTwin(a, b, lapsed, now, k)
  {
  }

  lemma AccessAgrees(env: Env, a: Leases, b: Leases, lapsed: set<string>, t: Time, k: nat,
                     identity: Option<Identity>, node: string, rid: string, now: Time)
    requires LeasesTwin(a, b, lapsed, t, k) && t <= now
    ensures AccessFault(env, a, identity, node, rid, now) == AccessFault(env, b, identity, node, rid, now)
    ensures AccessFault(env, a, identity, node, rid, now).None? ==>
              node in a && node in b && SameLease(a[node], b[node]) && (node !in lapsed ==> a[node] == b[node])
  {
  }

  /** Writing matching leases for one node. */
  lemma WriteAgrees(a: Leases, b: Leases, lapsed: set<string>, t: Time, now: Time, k: nat, n: string, e: Registration, f: Registration)
    requires LeasesTwin(a, b, lapsed, t, k + 1) && t <= now
    requires if n in lapsed then SameLease(e, f) && e.generation + k <= MAX_GENERATION && f.generation + k <= MAX_GENERATION else e == f
    ensures LeasesTwin(a[n := e], b[n := f], lapsed, now, k)
  {
  }

  /** Both options are empty, or hold leases that match for this node. */
  predicate MatchingLeases(e: Option<Registration>, f: Option<Registration>, inLapsed: bool, k: nat)
  {
    && (e.Some? <==> f.Some?)
    && (e.Some? ==> if inLapsed then
                      SameLease(e.value, f.value) && e.value.generation + k <= MAX_GENERATION && f.value.generation + k <= MAX_GENERATION
                    else e == f)
  }

  lemma NewLeaseAgrees(env: Env, a: Leases, b: Leases, lapsed: set<string>, t: Time, k: nat, id: Identity, rid: string, now: Time)
    requires LeasesTwin(a, b, lapsed, t, k + 1) && t <= now && k < MAX_GENERATION
    ensures MatchingLeases(NewLease(env, a, id, rid, now), NewLease(env, b, id, rid, now), id.nodeID in lapsed, k)
  {
  }

  lemma RotatedLeaseAgrees(env: Env, e: Registration, f: Registration, inLapsed: bool, k: nat, next: string, now: Time)
    requires if inLapsed then SameLease(e, f) && e.generation + k + 1 <= MAX_GENERATION && f.generation + k + 1 <= MAX_GENERATION else e == f
    ensures MatchingLeases(RotatedLease(env, e, next, now), RotatedLease(env, f, next, now), inLapsed, k)
  {
  }

  ghost predicate MatchingRevocations(r: Revocation, q: Revocation, lapsed: set<string>, target: string, now: Time, k: nat)
  {
    && LeasesTwin(r.regs, q.regs, lapsed, now, k)
    && (r.Tombstone? <==> q.Tombstone?)
    && (r.Refusal? ==> r.fault == q.fault)
    && (r.Tombstone? ==> SameLease(r.entry, q.entry) && (target !in lapsed ==> r.entry == q.entry))
  }

  lemma DropAgrees(a: Leases, b: Leases, lapsed: set<string>, t: Time, now: Time, k: nat, n: string)
    requires LeasesTwin(a, b, lapsed, t, k + 1) && t <= now
    ensures LeasesTwin(a - {n}, b - {n}, lapsed, now, k)
  {
  }

  /** The target's lease is live in both, or in neither. */
  lemma LiveAgrees(a: Leases, b: Leases, lapsed: set<string>, t: Time, now: Time, k: nat, n: string)
    requires LeasesTwin(a, b, lapsed, t, k + 1) && t <= now
    ensures (n in a && Live(a[n], now)) <==> (n in b && Live(b[n], now))
    ensures n in a && Live(a[n], now) ==> SameLease(a[n], b[n]) && (n !in lapsed ==> a[n] == b[n])
    ensures n in a && n in lapsed ==> a[n].generation + k + 1 <= MAX_GENERATION
    ensures n in b && n in lapsed ==> b[n].generation + k + 1 <= MAX_GENERATION
  {
  }

  lemma RevokeLeaseAgrees(env: Env, a: Leases, b: Leases, lapsed: set<string>, t: Time, k: nat, target: string, reason: string, now: Time)
    requires LeasesTwin(a, b, lapsed, t, k + 1) && t <= now
    ensures MatchingRevocations(RevokeLease(env, a, target, reason, now), RevokeLease(env, b, target, reason, now), lapsed, target, now, k)
  {
    var text := env.trim(reason);
    LeasesAgreeLater(a, b, lapsed, t, now, k);
    LiveAgrees(a, b, lapsed, t, now, k, target);
    if target in a && Live(a[target], now) {
      WriteAgrees(a, b, lapsed, t, now, k, target, a[target].(revokedAt := now, reason := text), b[target].(revokedAt := now, reason := text));
    } else {
      DropAgrees(a, b, lapsed, t, now, k, target);
      assert target !in a ==> a - {target} == a;
      assert target !in b ==> b - {target} == b;
    }
  }

  // ----- nonces and rate windows

  lemma NoncesAgree(a: Nonces, b: Nonces, t: Time, now: Time)
    requires LiveNonces(a, t) == LiveNonces(b, t) && t <= now
    ensures LiveNonces(a, now) == LiveNonces(b, now)
  {
    forall n | n in LiveNonces(a, now) ensures n in LiveNonces(b, now) && b[n] == a[n] {
      assert n in LiveNonces(a, t);
    }
    forall n | n in LiveNonces(b, now) ensures n in LiveNonces(a, now) && b[n] == a[n] {
      assert n in LiveNonces(b, t);
    }
  }

  lemma RatesAgree(env: Env, a: Rates, b: Rates, t: Time, now: Time, node: string)
    requires LiveRates(a, t) == LiveRates(b, t) && t <= now
    ensures LiveRates(a, now) == LiveRates(b, now)
    ensures RateAllows(env, a, node, now) == RateAllows(env, b, node, now)
    ensures ChargedWindow(a, node, now) == ChargedWindow(b, node, now)
  {
    forall n ensures (n in LiveRates(a, now) <==> n in LiveRates(b, now)) && (n in LiveRates(a, now) ==> a[n] == b[n]) {
      if n in LiveRates(a, now) {
        assert n in LiveRates(a, t);
      }
      if n in LiveRates(b, now) {
        assert n in LiveRates(b, t);
      }
    }
    assert (node in a && LiveWindow(a[node], now)) <==> node in LiveRates(a, now);
    assert (node in b && LiveWindow(b[node], now)) <==> node in LiveRates(b, now);
  }

  lemma WindowsAgree(a: Rates, b: Rates, now: Time, node: string, w: Window)
    requires LiveRates(a, now) == LiveRates(b, now)
    ensures LiveRates(a[node := w], now) == LiveRates(b[node := w], now)
    ensures LiveRates(a - {node}, now) == LiveRates(b - {node}, now)
  {
    forall n ensures (n in LiveRates(a, now) <==> n in LiveRates(b, now)) && (n in LiveRates(a, now) ==> a[n] == b[n]) {
    }
  }

  // ----- one call

  ghost predicate Match(request: Request, x: Outcome, y: Outcome, lapsed: set<string>, now: Time, k: nat)
  {
    Twins(x.state, y.state, lapsed, now, k) && SameAnswer(request, x.response, y.response, lapsed)
  }

  lemma TwinsLater(env: Env, a: State, b: State, lapsed: set<string>, t: Time, now: Time, k: nat)
    requires Twins(a, b, lapsed, t, k + 1) && t <= now
    ensures Twins(a, b, lapsed, now, k)
  {
    LeasesAgreeLater(a.regs, b.regs, lapsed, t, now, k);
    NoncesAgree(a.nonces, b.nonces, t, now);
    RatesAgree(env, a.rates, b.rates, t, now, "");
  }

  lemma RejectTwins(env: Env, a: State, b: State, lapsed: set<string>, t: Time, now: Time, k: nat, request: Request, fault: Fault)
    requires Twins(a, b, lapsed, t, k + 1) && t <= now
    ensures Match(request, Reject(a, fault), Reject(b, fault), lapsed, now, k)
  {
    TwinsLater(env, a, b, lapsed, t, now, k);
  }

  /** Both states write matching leases for `n`. */
  lemma LeaseTwins(env: Env, a: State, b: State, lapsed: set<string>, t: Time, now: Time, k: nat, n: string,
                   e: Option<Registration>, f: Option<Registration>)
    requires Twins(a, b, lapsed, t, k + 1) && t <= now && e.Some? && MatchingLeases(e, f, n in lapsed, k)
    ensures Twins(a.(regs := a.regs[n := e.value]), b.(regs := b.regs[n := f.value]), lapsed, now, k)
  {
    TwinsLater(env, a, b, lapsed, t, now, k);
    WriteAgrees(a.regs, b.regs, lapsed, t, now, k, n, e.value, f.value);
  }

  lemma EnrolledTwins(env: Env, a: State, b: State, lapsed: set<string>, t: Time, now: Time, k: nat,
                      node: string, name: string, hardware: bool, e: Option<Registration>, f: Option<Registration>)
    requires Twins(a, b, lapsed, t, k + 1) && t <= now && MatchingLeases(e, f, node in lapsed, k)
    ensures Match(Register(node, name, hardware), Enrolled(a, node, e), Enrolled(b, node, f), lapsed, now, k)
  {
    if e.Some? {
      LeaseTwins(env, a, b, lapsed, t, now, k, node, e, f);
    } else {
      RejectTwins(env, a, b, lapsed, t, now, k, Register(node, name, hardware), RegistrationRefused);
    }
  }

  lemma RegisterTwins(env: Env, a: State, b: State, lapsed: set<string>, t: Time, now: Time, k: nat,
                      identity: Option<Identity>, node: string, name: string, hardware: bool, entropy: Option<Entropy>)
    requires Twins(a, b, lapsed, t, k + 1) && t <= now && k < MAX_GENERATION
    ensures Match(Register(node, name, hardware), StepRegister(env, a, identity, node, name, hardware, now, entropy),
                  StepRegister(env, b, identity, node, name, hardware, now, entropy), lapsed, now, k)
  {
    var fault := RegisterFault(env, identity, node, name, hardware, entropy);
    if fault.Some? {
      RejectTwins(env, a, b, lapsed, t, now, k, Register(node, name, hardware), fault.value);
    } else {
      var rid := env.hex(entropy.value);
      NewLeaseAgrees(env, a.regs, b.regs, lapsed, t, k, identity.value, rid, now);
      EnrolledTwins(env, a, b, lapsed, t, now, k, node, name, hardware,
                    NewLease(env, a.regs, identity.value, rid, now), NewLease(env, b.regs, identity.value, rid, now));
    }
  }

  lemma RenewTwins(env: Env, a: State, b: State, lapsed: set<string>, t: Time, now: Time, k: nat, node: string, rid: string,
                   e: Registration, f: Registration)
    requires Twins(a, b, lapsed, t, k + 1) && t <= now && MatchingLeases(Some(e), Some(f), node in lapsed, k)
    ensures Match(Heartbeat(node, rid), Renew(a, node, e, now), Renew(b, node, f, now), lapsed, now, k)
  {
    LeaseTwins(env, a, b, lapsed, t, now, k, node, Some(e), Some(f));
  }

  lemma HeartbeatTwins(env: Env, a: State, b: State, lapsed: set<string>, t: Time, now: Time, k: nat,
                       identity: Option<Identity>, node: string, rid: string)
    requires Twins(a, b, lapsed, t, k + 1) && t <= now
    ensures Match(Heartbeat(node, rid), StepHeartbeat(env, a, identity, node, rid, now), StepHeartbeat(env, b, identity, node, rid, now), lapsed, now, k)
  {
    var fault := AccessFault(env, a.regs, identity, node, rid, now);
    AccessAgrees(env, a.regs, b.regs, lapsed, t, k + 1, identity, node, rid, now);
    if fault.Some? {
      RejectTwins(env, a, b, lapsed, t, now, k, Heartbeat(node, rid), fault.value);
    } else {
      LiveAgrees(a.regs, b.regs, lapsed, t, now, k, node);
      RenewTwins(env, a, b, lapsed, t, now, k, node, rid, Refreshed(env, a.regs[node], now), Refreshed(env, b.regs[node], now));
    }
  }

  lemma GetModelTwins(env: Env, a: State, b: State, lapsed: set<string>, t: Time, now: Time, k: nat,
                      identity: Option<Identity>, node: string, rid: string)
    requires Twins(a, b, lapsed, t, k + 1) && t <= now
    ensures Match(GetModel(node, rid), StepGetModel(env, a, identity, node, rid, now), StepGetModel(env, b, identity, node, rid, now), lapsed, now, k)
  {
    AccessAgrees(env, a.regs, b.regs, lapsed, t, k + 1, identity, node, rid, now);
    TwinsLater(env, a, b, lapsed, t, now, k);
  }

  /** Guarded calls record the same nonce in both states. */
  lemma StampedTwins(a: Nonces, b: Nonces, now: Time, key: string)
    requires LiveNonces(a, now) == LiveNonces(b, now)
    ensures LiveNonces(LiveNonces(a, now), now) == LiveNonces(LiveNonces(b, now), now)
    ensures LiveNonces(LiveNonces(a, now)[key := now], now) == LiveNonces(LiveNonces(b, now)[key := now], now)
  {
  }

  lemma RotateLockedTwins(env: Env, a: State, b: State, lapsed: set<string>, t: Time, now: Time, k: nat, node: string, rid: string,
                          security: Option<Security>, key: string, e: Option<Registration>, f: Option<Registration>)
    requires Twins(a, b, lapsed, t, k + 1) && t <= now && MatchingLeases(e, f, node in lapsed, k)
    ensures Match(Rotate(node, rid, security), RotateLocked(a, node, key, e, now), RotateLocked(b, node, key, f, now), lapsed, now, k)
  {
    TwinsLater(env, a, b, lapsed, t, now, k);
    StampedTwins(a.nonces, b.nonces, now, key);
    if e.Some? {
      LeaseTwins(env, a, b, lapsed, t, now, k, node, e, f);
    }
  }

  lemma RotateTwins(env: Env, a: State, b: State, lapsed: set<string>, t: Time, now: Time, k: nat,
                    identity: Option<Identity>, node: string, rid: string, security: Option<Security>, entropy: Option<Entropy>)
    requires Twins(a, b, lapsed, t, k + 1) && t <= now
    ensures Match(Rotate(node, rid, security), StepRotate(env, a, identity, node, rid, security, now, entropy),
                  StepRotate(env, b, identity, node, rid, security, now, entropy), lapsed, now, k)
  {
    AccessAgrees(env, a.regs, b.regs, lapsed, t, k + 1, identity, node, rid, now);
    var fault := RotateFault(env, a.regs, identity, node, rid, security, now, entropy);
    if fault.Some? {
      RejectTwins(env, a, b, lapsed, t, now, k, Rotate(node, rid, security), fault.value);
    } else {
      var next := env.hex(entropy.value);
      LiveAgrees(a.regs, b.regs, lapsed, t, now, k, node);
      RotatedLeaseAgrees(env, a.regs[node], b.regs[node], node in lapsed, k, next, now);
      RotateLockedTwins(env, a, b, lapsed, t, now, k, node, rid, security, env.key(node, security.value.nonce),
                        RotatedLease(env, a.regs[node], next, now), RotatedLease(env, b.regs[node], next, now));
    }
  }

  lemma RevokeLockedTwins(env: Env, a: State, b: State, lapsed: set<string>, t: Time, now: Time, k: nat, request: Request,
                          target: string, key: string, r: Revocation, q: Revocation)
    requires Twins(a, b, lapsed, t, k + 1) && t <= now && MatchingRevocations(r, q, lapsed, target, now, k)
    ensures Match(request, RevokeLocked(a, target, key, r, now), RevokeLocked(b, target, key, q, now), lapsed, now, k)
  {
    TwinsLater(env, a, b, lapsed, t, now, k);
    StampedTwins(a.nonces, b.nonces, now, key);
    WindowsAgree(a.rates, b.rates, now, target, Window(now, 1));
  }

  lemma RevokeTwins(env: Env, a: State, b: State, lapsed: set<string>, t: Time, now: Time, k: nat, identity: Option<Identity>,
                    node: string, rid: string, target: string, reason: string, security: Option<Security>)
    requires Twins(a, b, lapsed, t, k + 1) && t <= now
    ensures Match(Revoke(node, rid, target, reason, security), StepRevoke(env, a, identity, node, rid, target, reason, security, now),
                  StepRevoke(env, b, identity, node, rid, target, reason, security, now), lapsed, now, k)
  {
    var request := Revoke(node, rid, target, reason, security);
    AccessAgrees(env, a.regs, b.regs, lapsed, t, k + 1, identity, node, rid, now);
    var fault := RevokeFault(env, a.regs, identity, node, rid, target, security, now);
    if fault.Some? {
      RejectTwins(env, a, b, lapsed, t, now, k, request, fault.value);
    } else {
      var n := env.trim(target);
      RevokeLeaseAgrees(env, a.regs, b.regs, lapsed, t, k, n, reason, now);
      RevokeLockedTwins(env, a, b, lapsed, t, now, k, request, n, env.key(node, security.value.nonce),
                        RevokeLease(env, a.regs, n, reason, now), RevokeLease(env, b.regs, n, reason, now));
    }
  }

  lemma SubmittedTwins(env: Env, a: State, b: State, lapsed: set<string>, t: Time, now: Time, k: nat, request: Request, node: string,
                       key: string, sub: Submission, values: seq<Npy.F32>, samples: nat, entropy: Option<Entropy>)
    requires Twins(a, b, lapsed, t, k + 1) && t <= now
    ensures Match(request, Submitted(env, a, node, key, sub, values, samples, now, entropy),
                  Submitted(env, b, node, key, sub, values, samples, now, entropy), lapsed, now, k)
  {
    TwinsLater(env, a, b, lapsed, t, now, k);
    StampedTwins(a.nonces, b.nonces, now, key);
    RatesAgree(env, a.rates, b.rates, t, now, node);
    WindowsAgree(a.rates, b.rates, now, node, ChargedWindow(a.rates, node, now));
  }

  lemma SubmitTwins(env: Env, a: State, b: State, lapsed: set<string>, t: Time, now: Time, k: nat,
                    identity: Option<Identity>, node: string, rid: string, sub: Submission, entropy: Option<Entropy>)
    requires Twins(a, b, lapsed, t, k + 1) && t <= now
    ensures Match(Submit(node, rid, sub), StepSubmit(env, a, identity, node, rid, sub, now, entropy),
                  StepSubmit(env, b, identity, node, rid, sub, now, entropy), lapsed, now, k)
  {
    AccessAgrees(env, a.regs, b.regs, lapsed, t, k + 1, identity, node, rid, now);
    var fault := SubmitFault(env, a.regs, identity, node, rid, sub, now);
    if fault.Some? {
      RejectTwins(env, a, b, lapsed, t, now, k, Submit(node, rid, sub), fault.value);
    } else {
      SubmittedTwins(env, a, b, lapsed, t, now, k, Submit(node, rid, sub), node, env.key(node, sub.security.value.nonce), sub,
                     env.decode(sub.payload).value, sub.metrics.value.samples, entropy);
    }
  }

  lemma GuardedTwins(env: Env, a: State, b: State, lapsed: set<string>, t: Time, now: Time, k: nat, call: Call, entropy: Option<Entropy>)
    requires Twins(a, b, lapsed, t, k + 1) && t <= now
    requires call.request.Submit? || call.request.Rotate? || call.request.Revoke?
    ensures Match(call.request, Step(env, a, call, now, entropy), Step(env, b, call, now, entropy), lapsed, now, k)
  {
    match call.request
    case Submit(node, rid, sub) => SubmitTwins(env, a, b, lapsed, t, now, k, call.identity, node, rid, sub, entropy);
    case Rotate(node, rid, security) => RotateTwins(env, a, b, lapsed, t, now, k, call.identity, node, rid, security, entropy);
    case Revoke(node, rid, target, reason, security) =>
      RevokeTwins(env, a, b, lapsed, t, now, k, call.identity, node, rid, target, reason, security);
  }

  lemma PlainTwins(env: Env, a: State, b: State, lapsed: set<string>, t: Time, now: Time, k: nat, call: Call, entropy: Option<Entropy>)
    requires Twins(a, b, lapsed, t, k + 1) && t <= now && k < MAX_GENERATION
    requires !call.request.Submit? && !call.request.Rotate? && !call.request.Revoke?
    ensures Match(call.request, Step(env, a, call, now, entropy), Step(env, b, call, now, entropy), lapsed, now, k)
  {
    match call.request
    case NilRequest(_) => TwinsLater(env, a, b, lapsed, t, now, k);
    case Register(node, name, hardware) => RegisterTwins(env, a, b, lapsed, t, now, k, call.identity, node, name, hardware, entropy);
    case Heartbeat(node, rid) => HeartbeatTwins(env, a, b, lapsed, t, now, k, call.identity, node, rid);
    case GetModel(node, rid) => GetModelTwins(env, a, b, lapsed, t, now, k, call.identity, node, rid);
  }

  /** One call: matching answers, and indistinguishable states again. */
  lemma StepTwins(env: Env, a: State, b: State, lapsed: set<string>, t: Time, now: Time, k: nat, call: Call, entropy: Option<Entropy>)
    requires Twins(a, b, lapsed, t, k + 1) && t <= now && k < MAX_GENERATION
    ensures Match(call.request, Step(env, a, call, now, entropy), Step(env, b, call, now, entropy), lapsed, now, k)
  {
    if call.request.Submit? || call.request.Rotate? || call.request.Revoke? {
      GuardedTwins(env, a, b, lapsed, t, now, k, call, entropy);
    } else {
      PlainTwins(env, a, b, lapsed, t, now, k, call, entropy);
    }
  }

  // ----- whole futures

  datatype Input = Input(call: Call, now: Time, entropy: Option<Entropy>)

  function Play(env: Env, s: State, inputs: seq<Input>): State
  {
    if inputs == [] then s
    else
      var n := |inputs| - 1;
      Step(env, Play(env, s, inputs[..n]), inputs[n].call, inputs[n].now, inputs[n].entropy).state
  }

  function Answer(env: Env, s: State, inputs: seq<Input>, i: nat): Response
    requires i < |inputs|
  {
    Step(env, Play(env, s, inputs[..i]), inputs[i].call, inputs[i].now, inputs[i].entropy).response
  }

  /** The inputs arrive from `t` on, in nondecreasing time. */
  predicate InOrder(inputs: seq<Input>, t: Time)
  {
    && (inputs != [] ==> t <= inputs[0].now)
    && forall i :: 0 <= i < |inputs| - 1 ==> inputs[i].now <= inputs[i + 1].now
  }

  function LastTime(inputs: seq<Input>, t: Time): Time
  {
    if inputs == [] then t else inputs[|inputs| - 1].now
  }

  lemma {:induction false} FuturesMatch(env: Env, a: State, b: State, lapsed: set<string>, t: Time, inputs: seq<Input>, k: nat)
    requires Twins(a, b, lapsed, t, |inputs| + k) && InOrder(inputs, t) && |inputs| + k <= MAX_GENERATION
    ensures Twins(Play(env, a, inputs), Play(env, b, inputs), lapsed, LastTime(inputs, t), k)
    ensures forall i :: 0 <= i < |inputs| ==>
              SameAnswer(inputs[i].call.request, Answer(env, a, inputs, i), Answer(env, b, inputs, i), lapsed)
  {
    if inputs != [] {
      var n := |inputs| - 1;
      var rest, last := inputs[..n], inputs[n];
      FuturesMatch(env, a, b, lapsed, t, rest, k + 1);
      assert n > 0 ==> inputs[n - 1].now <= inputs[(n - 1) + 1].now;
      StepTwins(env, Play(env, a, rest), Play(env, b, rest), lapsed, LastTime(rest, t), last.now, k, last.call, last.entropy);
      forall i | 0 <= i < |inputs|
        ensures SameAnswer(inputs[i].call.request, Answer(env, a, inputs, i), Answer(env, b, inputs, i), lapsed)
      {
        if i < n {
          assert rest[..i] == inputs[..i];
          assert SameAnswer(rest[i].call.request, Answer(env, a, rest, i), Answer(env, b, rest, i), lapsed);
        }
      }
    }
  }

  // ----- a restored state is indistinguishable from the original

  /** The nodes whose leases had run out. */
  function Lapsed(regs: Leases, t: Time): (r: set<string>)
    ensures forall n :: n in r <==> n in regs && !Live(regs[n], t)
  {
    set n | n in regs && !Live(regs[n], t)
  }

  lemma RestoredLeasesAgree(regs: Leases, captured: Time, restored: Time)
    requires captured <= restored
    ensures LeasesAgree(regs, LiveLeases(LiveLeases(regs, captured), restored), Lapsed(regs, restored), restored)
  {
  }

  lemma RestoredNonces(nonces: Nonces, captured: Time, restored: Time)
    requires captured <= restored
    ensures LiveNonces(nonces, restored) == LiveNonces(LiveNonces(LiveNonces(nonces, captured), restored), restored)
  {
  }

  lemma RestoredRates(rates: Rates, captured: Time, restored: Time)
    requires captured <= restored
    ensures LiveRates(rates, restored) == LiveRates(LiveRates(LiveRates(rates, captured), restored), restored)
  {
  }

  lemma RestoredIsTwin(env: Env, s: State, captured: Time, restored: Time, k: nat)
    requires LeasesOk(env, s.regs) && captured <= restored && Headroom(s.regs, Lapsed(s.regs, restored), k)
    ensures Twins(s, Restore(Capture(s, captured), restored), Lapsed(s.regs, restored), restored, k)
  {
    ReloadIs(env, s, captured, restored);
    RestoredLeasesAgree(s.regs, captured, restored);
    RestoredNonces(s.nonces, captured, restored);
    RestoredRates(s.rates, captured, restored);
  }

  /** For every state, every snapshot of it and every later sequence of calls: the restored state
      gives the same answers and ends with the same model and pending updates. Answers about nodes
      whose lease had lapsed may differ in the credential generation, as long as that counter is
      not about to run out. */
  lemma RecoveryIsUnobservable(env: Env, s: State, captured: Time, restored: Time, inputs: seq<Input>)
    requires LeasesOk(env, s.regs) && captured <= restored && InOrder(inputs, restored) && |inputs| <= MAX_GENERATION
    requires Headroom(s.regs, Lapsed(s.regs, restored), |inputs|)
    ensures var b := Restore(Capture(s, captured), restored);
            && (forall i :: 0 <= i < |inputs| ==>
                  SameAnswer(inputs[i].call.request, Answer(env, s, inputs, i), Answer(env, b, inputs, i), Lapsed(s.regs, restored)))
            && Play(env, s, inputs).model == Play(env, b, inputs).model
            && Play(env, s, inputs).pending == Play(env, b, inputs).pending
  {
    RestoredIsTwin(env, s, captured, restored, |inputs|);
    FuturesMatch(env, s, Restore(Capture(s, captured), restored), Lapsed(s.regs, restored), restored, inputs, 0);
  }

  /** The counter condition is exact for re-registration: dropping a lapsed lease changes whether
      its node can register again if and only if its generation counter had run out. */
  lemma ExhaustedLapseIsObservable(env: Env, s: State, captured: Time, restored: Time, id: Identity, rid: string, now: Time)
    requires LeasesOk(env, s.regs) && captured <= restored <= now && id.nodeID in Lapsed(s.regs, restored)
    requires Complete(env, id) && rid != ""
    ensures var b := Restore(Capture(s, captured), restored);
            (NewLease(env, s.regs, id, rid, now).Some? <==> NewLease(env, b.regs, id, rid, now).Some?)
            <==> s.regs[id.nodeID].generation < MAX_GENERATION
  {
    ReloadIs(env, s, captured, restored);
  }
}
