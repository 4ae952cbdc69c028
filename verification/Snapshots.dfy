/** Captured state: what a snapshot keeps, what validation demands of it, and the invariant that
    makes every snapshot taken between operations valid. Tables are maps here; their stored form
    as sorted lists is in `Persisted`. */
module Snapshots {
  import opened Text
  import opened Core
  import opened Registry
  import opened Service
  import opened Moves
  import Npy

  datatype Snapshot = Snapshot(model: Model, pending: map<string, Update>, regs: Leases, nonces: Nonces, rates: Rates)

  /** The rate windows still open. */
  function LiveRates(rates: Rates, now: Time): (r: Rates)
    ensures forall n :: n in r <==> n in rates && LiveWindow(rates[n], now)
    ensures forall n :: n in r ==> r[n] == rates[n]
  {
    map n | n in rates && LiveWindow(rates[n], now) :: rates[n]
  }

  function Capture(s: State, now: Time): Snapshot
  {
    Snapshot(s.model, s.pending, LiveLeases(s.regs, now), LiveNonces(s.nonces, now), LiveRates(s.rates, now))
  }

  /** Leases written before credential generations existed count as the first generation. */
  function Normalize(e: Registration): Registration
  {
    if e.generation == 0 then e.(generation := 1) else e
  }

  function Normalized(regs: Leases): (r: Leases)
    ensures r.Keys == regs.Keys
    ensures forall n :: n in regs ==> r[n] == Normalize(regs[n])
  {
    map n | n in regs :: Normalize(regs[n])
  }

  function Restore(snap: Snapshot, now: Time): State
  {
    State(LiveLeases(Normalized(snap.regs), now), snap.model, snap.pending, LiveRates(snap.rates, now), LiveNonces(snap.nonces, now))
  }

  // ----- validation

  predicate ModelOk(env: Env, m: Model)
  {
    && !env.blank(m.version) && m.format == env.format
    && if m.payload == [] then m.sha256 == [] else env.decode(m.payload).Some? && env.sha256(m.payload) == m.sha256
  }

  predicate PendingOk(env: Env, pending: map<string, Update>)
  {
    forall n :: n in pending ==> !env.blank(n) && !env.blank(pending[n].updateID) && UpdateOk(pending[n])
  }

  /** All pending vectors have one length, the model's when it has a payload. */
  ghost predicate LengthsAgree(env: Env, m: Model, pending: map<string, Update>)
  {
    && (forall a, b :: a in pending && b in pending ==> |pending[a].values| == |pending[b].values|)
    && (m.payload != [] && env.decode(m.payload).Some? ==>
          forall a :: a in pending ==> |pending[a].values| == |env.decode(m.payload).value|)
  }

  predicate NoncesOk(env: Env, nonces: Nonces)
  {
    forall k :: k in nonces ==> !env.blank(k) && nonces[k] != ZERO_TIME
  }

  predicate RatesOk(env: Env, rates: Rates)
  {
    forall n :: n in rates ==> !env.blank(n) && rates[n].startedAt != ZERO_TIME && 0 < rates[n].count <= env.maxPerMinute
  }

  predicate BindingsOk(env: Env, regs: Leases)
  {
    forall n :: n in regs ==>
      && !env.blank(n) && !env.blank(regs[n].role) && !env.blank(regs[n].fingerprint) && !env.blank(regs[n].registrationID)
      && regs[n].expiresAt != ZERO_TIME
  }

  /** What every commit demands of a snapshot. */
  ghost predicate Valid(env: Env, snap: Snapshot)
  {
    && ModelOk(env, snap.model)
    && |snap.pending| < env.minUpdates && PendingOk(env, snap.pending) && LengthsAgree(env, snap.model, snap.pending)
    && BindingsOk(env, snap.regs) && NoncesOk(env, snap.nonces) && RatesOk(env, snap.rates)
  }

  /** What restoring demands: a valid snapshot whose leases the registry takes back. */
  ghost predicate Restorable(env: Env, snap: Snapshot)
  {
    Valid(env, snap) && LeasesOk(env, Normalized(snap.regs))
  }

  // ----- the invariant between operations

  ghost predicate TablesOk(env: Env, s: State)
  {
    && ModelOk(env, s.model) && |s.pending| < env.minUpdates && PendingOk(env, s.pending)
    && LeasesOk(env, s.regs) && NoncesOk(env, s.nonces) && RatesOk(env, s.rates)
  }

  ghost predicate Wf(env: Env, s: State)
  {
    TablesOk(env, s) && LengthsAgree(env, s.model, s.pending)
  }

  /** Snapshots taken between operations always pass validation, and can always be restored. */
  lemma CaptureRestorable(env: Env, s: State, now: Time)
    requires Wf(env, s)
    ensures Restorable(env, Capture(s, now))
  {
    CaptureValid(env, s, now);
    LiveLeasesOk(env, s.regs, now);
  }

  lemma LiveLeasesOk(env: Env, regs: Leases, now: Time)
    requires LeasesOk(env, regs)
    ensures LeasesOk(env, LiveLeases(regs, now)) && Normalized(LiveLeases(regs, now)) == LiveLeases(regs, now)
  {
  }

  /** Even right after a call, the only thing validation can object to is the vector lengths. */
  lemma CaptureValid(env: Env, s: State, now: Time)
    requires TablesOk(env, s)
    ensures Valid(env, Capture(s, now)) <==> LengthsAgree(env, s.model, s.pending)
  {
  }

  lemma RestoredOk(env: Env, snap: Snapshot, now: Time)
    requires Restorable(env, snap)
    ensures Wf(env, Restore(snap, now))
  {
  }

  /** Restoring normalises nothing that was captured between operations. */
  lemma ReloadIs(env: Env, s: State, captured: Time, restored: Time)
    requires LeasesOk(env, s.regs)
    ensures var t := Restore(Capture(s, captured), restored);
            && t.model == s.model && t.pending == s.pending
            && t.regs == LiveLeases(LiveLeases(s.regs, captured), restored)
            && t.nonces == LiveNonces(LiveNonces(s.nonces, captured), restored)
            && t.rates == LiveRates(LiveRates(s.rates, captured), restored)
  {
    var live := LiveLeases(s.regs, captured);
    assert Normalized(live) == live;
  }

  // ----- every call keeps the tables in order

  lemma RemovedIsSmaller<T>(m: map<string, T>, k: string)
    ensures |m - {k}| <= |m|
  {
    assert (m - {k}).Keys == m.Keys - {k};
    assert |m.Keys - {k}| <= |m.Keys|;
  }

  lemma AdvancedModelOk(env: Env, m: Model, current: seq<Npy.F32>, pending: map<string, Update>, now: Time)
    requires TextSound(env) && CodecSound(env) && NextModel(env, m, current, pending, now).Advanced?
    ensures ModelOk(env, NextModel(env, m, current, pending, now).model)
  {
  }

  lemma JoinedStaysOk(env: Env, s: State, t: State, node: string, sub: Submission, r: Response, u: Update, now: Time)
    requires TextSound(env) && CodecSound(env) && r.Accepted? && Joined(env, s, t, node, sub, r, u, now)
    requires ModelOk(env, s.model) && PendingOk(env, s.pending)
    ensures ModelOk(env, t.model) && |t.pending| < env.minUpdates && PendingOk(env, t.pending)
  {
    if r.aggregated {
      AdvancedModelOk(env, s.model, CurrentVector(env, s.model, |u.values|).value, s.pending[node := u], now);
    }
  }

  lemma RoundStaysOk(env: Env, s: State, t: State, request: Request, r: Response, now: Time)
    requires TextSound(env) && CodecSound(env) && RoundMove(env, s, t, request, r, now)
    requires ModelOk(env, s.model) && |s.pending| < env.minUpdates && PendingOk(env, s.pending)
    ensures ModelOk(env, t.model) && |t.pending| < env.minUpdates && PendingOk(env, t.pending)
  {
    if r.Accepted? {
      var u :| Joined(env, s, t, request.node, request.submission, r, u, now);
      JoinedStaysOk(env, s, t, request.node, request.submission, r, u, now);
    } else if r.Revoked? {
      RemovedIsSmaller(s.pending, r.target);
    }
  }

  lemma LeasesStayOk(env: Env, a: Leases, b: Leases, now: Time)
    requires LeasesOk(env, a) && LeasesMove(env, a, b, now)
    ensures LeasesOk(env, b)
  {
  }

  lemma NoncesStayOk(env: Env, a: Nonces, b: Nonces, request: Request, r: Response, now: Time)
    requires TextSound(env) && NoncesOk(env, a) && NoncesMove(env, a, b, request, r, now) && now > 0
    ensures NoncesOk(env, b)
  {
  }

  lemma RatesStayOk(env: Env, a: Rates, b: Rates, admitted: bool, request: Request, r: Response, now: Time)
    requires RatesOk(env, a) && RatesMove(env, a, b, admitted, request, r, now) && now > 0
    ensures RatesOk(env, b)
  {
  }

  lemma TablesStayOk(env: Env, s: State, t: State, admitted: bool, request: Request, r: Response, now: Time)
    requires TextSound(env) && CodecSound(env) && TablesOk(env, s) && now > 0 && Moved(env, s, t, admitted, request, r, now)
    ensures TablesOk(env, t)
  {
    RoundStaysOk(env, s, t, request, r, now);
    LeasesStayOk(env, s.regs, t.regs, now);
    NoncesStayOk(env, s.nonces, t.nonces, request, r, now);
    RatesStayOk(env, s.rates, t.rates, admitted, request, r, now);
  }
}
