/** The coordinator service: what each remote call answers and how it changes the state. */
module Service {
  import opened Text
  import opened Core
  import opened Registry
  import Npy

  datatype Outcome = Outcome(state: State, response: Response)

  function Reject(s: State, fault: Fault): Outcome
  {
    Outcome(s, Rejected(fault))
  }

  // ----- access

  function AccessFault(env: Env, regs: Leases, identity: Option<Identity>, node: string, registrationID: string, now: Time): Option<Fault>
  {
    if identity.None? then Some(MissingIdentity)
    else if env.blank(node) || node != identity.value.nodeID then Some(NodeMismatch)
    else if env.blank(registrationID) then Some(NoRegistrationID)
    else if !Active(regs, identity.value, registrationID, now) then Some(NotRegistered)
    else None
  }

  predicate SecurityOk(security: Option<Security>, now: Time)
  {
    && security.Some?
    && |security.value.nonce| >= MIN_NONCE
    && FromUnix(security.value.issuedAt) != ZERO_TIME
    && now - REPLAY_WINDOW <= FromUnix(security.value.issuedAt) <= now + REPLAY_WINDOW
  }

  // ----- replay nonces

  type Nonces = map<string, Time>

  /** The nonces still inside the replay window. */
  function LiveNonces(nonces: Nonces, now: Time): (r: Nonces)
    ensures forall k :: k in r <==> k in nonces && nonces[k] >= now - REPLAY_WINDOW
    ensures forall k :: k in r ==> r[k] == nonces[k]
  {
    map k | k in nonces && nonces[k] >= now - REPLAY_WINDOW :: nonces[k]
  }

  // ----- rate windows

  type Rates = map<string, Window>

  predicate LiveWindow(w: Window, now: Time)
  {
    w.startedAt != ZERO_TIME && now - w.startedAt < MINUTE
  }

  predicate RateAllows(env: Env, rates: Rates, node: string, now: Time)
  {
    node in rates && LiveWindow(rates[node], now) ==> rates[node].count < env.maxPerMinute
  }

  function ChargedWindow(rates: Rates, node: string, now: Time): Window
  {
    if node in rates && LiveWindow(rates[node], now) then Window(rates[node].startedAt, rates[node].count + 1)
    else Window(now, 1)
  }

  function Charged(rates: Rates, node: string, now: Time): Rates
  {
    rates[node := ChargedWindow(rates, node, now)]
  }

  // ----- submissions

  predicate FiniteNumber(x: Float64)
  {
    x.Number?
  }

  predicate MetricsOk(metrics: Option<Metrics>)
  {
    && metrics.Some?
    && metrics.value.epochs > 0
    && 0 < metrics.value.samples <= MAX_SAMPLES
    && FiniteNumber(metrics.value.loss)
    && forall i :: 0 <= i < |metrics.value.norms| ==> FiniteNumber(metrics.value.norms[i]) && metrics.value.norms[i].value >= 0.0
  }

  /** The checks of a submission that need no state. */
  function SubmissionFault(env: Env, sub: Submission, now: Time): Option<Fault>
  {
    if sub.payload == [] then Some(EmptyPayload)
    else if |sub.payload| > env.maxUpdateBytes then Some(OversizedPayload)
    else if sub.format != env.format then Some(WrongFormat)
    else if |sub.digest| != 32 then Some(DigestLength)
    else if env.sha256(sub.payload) != sub.digest then Some(DigestMismatch)
    else if !MetricsOk(sub.metrics) then Some(BadMetrics)
    else if env.decode(sub.payload).None? then Some(BadPayload)
    else if !SecurityOk(sub.security, now) then Some(BadSecurity)
    else None
  }

  /** The current model as a vector of `n` coordinates; a model without payload counts as zero. */
  function CurrentVector(env: Env, model: Model, n: nat): Option<seq<Npy.F32>>
  {
    if n == 0 then None
    else if model.payload == [] then Some(seq(n, _ => 0))
    else if model.format != env.format then None
    else if env.decode(model.payload).None? || |env.decode(model.payload).value| != n then None
    else env.decode(model.payload)
  }

  function RoundFault(env: Env, model: Model, pending: map<string, Update>, node: string, sub: Submission, n: nat): Option<Fault>
  {
    if sub.baseVersion != model.version then Some(StaleVersion)
    else if sub.round != model.round then Some(StaleRound)
    else if node in pending then Some(AlreadySubmitted)
    else if CurrentVector(env, model, n).None? then Some(VectorMismatch)
    else None
  }

  datatype Advance = Advanced(model: Model) | Failed(fault: Fault)

  /** The next global model: the current vector plus the aggregate of the pending updates. */
  function NextModel(env: Env, model: Model, current: seq<Npy.F32>, pending: map<string, Update>, now: Time): Advance
  {
    var aggregated := env.aggregate(pending, |current|);
    if aggregated.None? then Failed(AggregationFailed)
    else
      var sum := env.add(current, aggregated.value);
      if !Npy.AllFinite(sum) then Failed(NonFiniteModel)
      else
        var payload := env.encode(sum);
        if payload.None? then Failed(EncodingFailed)
        else
          var digest := env.sha256(payload.value);
          Advanced(Model(env.version(model.round + 1, digest), model.round + 1, payload.value, env.format, digest, Unix(now)))
  }

  /** The part of a submission that touches the round: the model, the pending updates, the answer. */
  datatype Contribution = Contribution(model: Model, pending: map<string, Update>, response: Response)

  function Contribute(env: Env, model: Model, pending: map<string, Update>, node: string, sub: Submission,
                      values: seq<Npy.F32>, samples: nat, now: Time, entropy: Option<Entropy>): Contribution
  {
    var fault := RoundFault(env, model, pending, node, sub, |values|);
    if fault.Some? then Contribution(model, pending, Rejected(fault.value))
    else if entropy.None? then Contribution(model, pending, Rejected(NoEntropy))
    else Join(env, model, pending, node, Update(env.hex(entropy.value), values, samples), now)
  }

  /** A fresh update joins the round, and closes it when the quorum is reached. */
  function Join(env: Env, model: Model, pending: map<string, Update>, node: string, u: Update, now: Time): Contribution
    requires CurrentVector(env, model, |u.values|).Some?
  {
    var grown := pending[node := u];
    if |grown| < env.minUpdates then Contribution(model, grown, Accepted(u.updateID, false, |grown|, model.version))
    else
      match NextModel(env, model, CurrentVector(env, model, |u.values|).value, grown, now)
      case Failed(fault) => Contribution(model, pending, Rejected(fault))
      case Advanced(next) => Contribution(next, map[], Accepted(u.updateID, true, 0, next.version))
  }

  // ----- the six calls

  function RegisterFault(env: Env, identity: Option<Identity>, node: string, commonName: string, hardware: bool,
                         entropy: Option<Entropy>): Option<Fault>
  {
    if identity.None? then Some(MissingIdentity)
    else if env.blank(node) || node != identity.value.nodeID then Some(NodeMismatch)
    else if commonName != identity.value.commonName then Some(NameMismatch)
    else if !hardware then Some(NoHardware)
    else if entropy.None? then Some(NoEntropy)
    else None
  }

  function StepRegister(env: Env, s: State, identity: Option<Identity>, node: string, commonName: string, hardware: bool,
                        now: Time, entropy: Option<Entropy>): Outcome
  {
    var fault := RegisterFault(env, identity, node, commonName, hardware, entropy);
    if fault.Some? then Reject(s, fault.value)
    else Enrolled(s, node, NewLease(env, s.regs, identity.value, env.hex(entropy.value), now))
  }

  function Enrolled(s: State, node: string, lease: Option<Registration>): Outcome
  {
    if lease.None? then Reject(s, RegistrationRefused)
    else
      var e := lease.value;
      Outcome(s.(regs := s.regs[node := e]), Registered(e.registrationID, e.role, Unix(e.expiresAt), e.generation))
  }

  function StepHeartbeat(env: Env, s: State, identity: Option<Identity>, node: string, registrationID: string, now: Time): Outcome
  {
    var fault := AccessFault(env, s.regs, identity, node, registrationID, now);
    if fault.Some? then Reject(s, fault.value) else Renew(s, node, Refreshed(env, s.regs[node], now), now)
  }

  function Renew(s: State, node: string, e: Registration, now: Time): Outcome
  {
    Outcome(s.(regs := s.regs[node := e]), Renewed(Unix(now), s.model.version, Unix(e.expiresAt), e.generation))
  }

  function StepGetModel(env: Env, s: State, identity: Option<Identity>, node: string, registrationID: string, now: Time): Outcome
  {
    var fault := AccessFault(env, s.regs, identity, node, registrationID, now);
    if fault.Some? then Reject(s, fault.value) else Outcome(s, ModelReply(s.model))
  }

  /** Everything checked before a submission takes the round lock. */
  function SubmitFault(env: Env, regs: Leases, identity: Option<Identity>, node: string, registrationID: string,
                       sub: Submission, now: Time): Option<Fault>
  {
    var fault := AccessFault(env, regs, identity, node, registrationID, now);
    if fault.Some? then fault else SubmissionFault(env, sub, now)
  }

  function StepSubmit(env: Env, s: State, identity: Option<Identity>, node: string, registrationID: string, sub: Submission,
                      now: Time, entropy: Option<Entropy>): Outcome
  {
    var fault := SubmitFault(env, s.regs, identity, node, registrationID, sub, now);
    if fault.Some? then Reject(s, fault.value)
    else
      Submitted(env, s, node, env.key(node, sub.security.value.nonce), sub, env.decode(sub.payload).value,
                sub.metrics.value.samples, now, entropy)
  }

  /** A well-formed submission under the round lock: nonce, then rate, then round. */
  function Submitted(env: Env, s: State, node: string, key: string, sub: Submission, values: seq<Npy.F32>, samples: nat,
                     now: Time, entropy: Option<Entropy>): Outcome
  {
    var nonces := LiveNonces(s.nonces, now);
    if key in nonces then Reject(s.(nonces := nonces), NonceUsed)
    else if !RateAllows(env, s.rates, node, now) then Reject(s.(nonces := nonces[key := now]), RateLimited)
    else
      var c := Contribute(env, s.model, s.pending, node, sub, values, samples, now, entropy);
      Outcome(State(s.regs, c.model, c.pending, Charged(s.rates, node, now), nonces[key := now]), c.response)
  }

  function RotateFault(env: Env, regs: Leases, identity: Option<Identity>, node: string, registrationID: string,
                       security: Option<Security>, now: Time, entropy: Option<Entropy>): Option<Fault>
  {
    var fault := AccessFault(env, regs, identity, node, registrationID, now);
    if fault.Some? then fault
    else if !SecurityOk(security, now) then Some(BadSecurity)
    else if entropy.None? then Some(NoEntropy)
    else None
  }

  function StepRotate(env: Env, s: State, identity: Option<Identity>, node: string, registrationID: string,
                      security: Option<Security>, now: Time, entropy: Option<Entropy>): Outcome
  {
    var fault := RotateFault(env, s.regs, identity, node, registrationID, security, now, entropy);
    if fault.Some? then Reject(s, fault.value)
    else RotateLocked(s, node, env.key(node, security.value.nonce), RotatedLease(env, s.regs[node], env.hex(entropy.value), now), now)
  }

  function RotateLocked(s: State, node: string, key: string, lease: Option<Registration>, now: Time): Outcome
  {
    var nonces := LiveNonces(s.nonces, now);
    if key in nonces then Reject(s.(nonces := nonces), NonceUsed)
    else if lease.None? then Reject(s.(nonces := nonces[key := now]), RotationRefused)
    else
      var e := lease.value;
      Outcome(s.(regs := s.regs[node := e], nonces := nonces[key := now]),
              Rotated(e.registrationID, Unix(e.expiresAt), e.generation))
  }

  function RevokeFault(env: Env, regs: Leases, identity: Option<Identity>, node: string, registrationID: string,
                       target: string, security: Option<Security>, now: Time): Option<Fault>
  {
    var fault := AccessFault(env, regs, identity, node, registrationID, now);
    if fault.Some? then fault
    else if identity.value.role != env.admin then Some(NotAdmin)
    else if env.blank(target) then Some(NoTarget)
    else if !SecurityOk(security, now) then Some(BadSecurity)
    else None
  }

  function StepRevoke(env: Env, s: State, identity: Option<Identity>, node: string, registrationID: string,
                      target: string, reason: string, security: Option<Security>, now: Time): Outcome
  {
    var fault := RevokeFault(env, s.regs, identity, node, registrationID, target, security, now);
    if fault.Some? then Reject(s, fault.value)
    else
      var t := env.trim(target);
      RevokeLocked(s, t, env.key(node, security.value.nonce), RevokeLease(env, s.regs, t, reason, now), now)
  }

  function RevokeLocked(s: State, t: string, key: string, r: Revocation, now: Time): Outcome
  {
    var nonces := LiveNonces(s.nonces, now);
    if key in nonces then Reject(s.(nonces := nonces), NonceUsed)
    else
      match r
      case Refusal(regs, fault) => Reject(s.(regs := regs, nonces := nonces[key := now]), fault)
      case Tombstone(regs, e) =>
        Outcome(State(regs, s.model, s.pending - {t}, s.rates - {t}, nonces[key := now]),
                Revoked(t, e.generation, Unix(e.revokedAt), Unix(e.expiresAt)))
  }

  function Step(env: Env, s: State, call: Call, now: Time, entropy: Option<Entropy>): Outcome
  {
    match call.request
    case NilRequest(register) => Reject(s, if register && call.identity.None? then MissingIdentity else MissingRequest)
    case Register(node, name, hardware) => StepRegister(env, s, call.identity, node, name, hardware, now, entropy)
    case Heartbeat(node, rid) => StepHeartbeat(env, s, call.identity, node, rid, now)
    case GetModel(node, rid) => StepGetModel(env, s, call.identity, node, rid, now)
    case Submit(node, rid, sub) => StepSubmit(env, s, call.identity, node, rid, sub, now, entropy)
    case Rotate(node, rid, security) => StepRotate(env, s, call.identity, node, rid, security, now, entropy)
    case Revoke(node, rid, target, reason, security) =>
      StepRevoke(env, s, call.identity, node, rid, target, reason, security, now)
  }
}
