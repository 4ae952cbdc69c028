/** Opening a durable coordinator on stored state of schema version 1, 2 or 3. Identities missing from
    older versions are adopted from the runtime configuration, once; from then on every differing
    configuration is refused. */
module Upgrade {
  import opened Text
  import opened Core
  import opened Registry
  import opened Snapshots
  import opened Durable
  import AuditChain

  const CURRENT_SCHEMA := 3
  const PREVIOUS_SCHEMA := 2
  const LEGACY_SCHEMA := 1
  const MAX_ID := 256
  const MICROSECOND := 1000

  datatype Experiment = Experiment(id: string, config: string, createdAt: Time)

  datatype Policy = Policy(leaseTTL: int, maxUpdateBytes: int, minUpdates: int, maxPerMinute: int, aggregation: string,
                           modelID: string, experiment: Experiment)

  /** A stored state with the schema version it was written in. */
  datatype Stored = Stored(schema: int, policy: Policy, snap: Snapshot)

  /** The configuration a coordinator is opened with. */
  datatype Runtime = Runtime(env: Env, aggregation: string, modelID: string, experiment: Experiment)

  function CurrentPolicy(rt: Runtime): Policy
  {
    Policy(rt.env.leaseTTL, rt.env.maxUpdateBytes, rt.env.minUpdates, rt.env.maxPerMinute, rt.aggregation, rt.modelID, rt.experiment)
  }

  // ----- validation

  predicate PlainID(id: string)
  {
    id != "" && TrimSpace(id) == id && |id| <= MAX_ID && '\0' !in id && '\r' !in id && '\n' !in id
  }

  predicate ExperimentOk(x: Experiment)
  {
    && PlainID(x.id)
    && |x.config| == 64 && IsHexText(x.config) && ToLower(x.config) == x.config
    && x.createdAt != ZERO_TIME && x.createdAt % MICROSECOND == 0
  }

  predicate NumbersOk(p: Policy)
  {
    && p.leaseTTL > 0 && p.maxUpdateBytes > 0 && p.minUpdates > 0 && p.maxPerMinute > 0
    && AuditChain.NormalizeMethod(p.aggregation) == Some(p.aggregation)
  }

  /** A snapshot is validated against the limits of its own policy. */
  ghost predicate ValidUnder(env: Env, p: Policy, snap: Snapshot)
  {
    NumbersOk(p) && PlainID(p.modelID) && ExperimentOk(p.experiment)
    && Valid(env.(minUpdates := p.minUpdates, maxPerMinute := p.maxPerMinute), snap)
  }

  predicate Missing(x: Experiment)
  {
    x == Experiment("", "", ZERO_TIME)
  }

  const MODEL_PLACEHOLDER := "global-model"
  const EXPERIMENT_PLACEHOLDER := Experiment("legacy-v1-validation", AuditChain.Zeros(64), UNIX_EPOCH + SECOND)

  function WithModel(p: Policy, id: string): Policy
  {
    if p.modelID == "" then p.(modelID := id) else p
  }

  function WithExperiment(p: Policy, x: Experiment): Policy
  {
    if Missing(p.experiment) then p.(experiment := x) else p
  }

  /** What loading demands: older versions may lack the identities they predate. */
  ghost predicate Loadable(env: Env, st: Stored)
  {
    if st.schema == CURRENT_SCHEMA then st.policy.modelID != "" && ValidUnder(env, st.policy, st.snap)
    else if st.schema == PREVIOUS_SCHEMA then ValidUnder(env, WithModel(st.policy, MODEL_PLACEHOLDER), st.snap)
    else st.schema == LEGACY_SCHEMA
         && ValidUnder(env, WithModel(WithExperiment(st.policy, EXPERIMENT_PLACEHOLDER), MODEL_PLACEHOLDER), st.snap)
  }

  // ----- opening

  /** The stored policy with missing identities taken from the runtime. */
  function Adopted(rt: Runtime, p: Policy): Policy
  {
    WithModel(WithExperiment(p, rt.experiment), rt.modelID)
  }

  /** Equal but for the creation time, which the stored state decides. */
  predicate SameConfiguration(rt: Runtime, p: Policy)
  {
    p == CurrentPolicy(rt).(experiment := rt.experiment.(createdAt := p.experiment.createdAt))
  }

  datatype Opened = Refused(store: Option<Stored>) | Open(store: Option<Stored>, mem: State)

  /** Load, adopt, validate, compare, restore, and commit the result in the current schema. */
  ghost function OpenStore(rt: Runtime, st: Stored, restored: Time, captured: Time, fate: Fate): Opened
  {
    var p := Adopted(rt, st.policy);
    if !Loadable(rt.env, st) || !ValidUnder(rt.env, p, st.snap) || !SameConfiguration(rt, p)
       || !LeasesOk(rt.env, Normalized(st.snap.regs)) then Refused(Some(st))
    else
      var mem := Restore(st.snap, restored);
      var next := Stored(CURRENT_SCHEMA, p, Capture(mem, captured));
      if !ValidUnder(rt.env, p, next.snap) then Refused(Some(st))
      else
        match fate
        case Healthy => Open(Some(next), mem)
        case FailsBefore => Refused(Some(st))
        case FailsAfter => Refused(Some(next))
  }

  // ----- what opening guarantees

  /** The stored state is bound to this runtime: current schema, this model, experiment and policy. */
  ghost predicate BoundTo(rt: Runtime, st: Stored)
  {
    st.schema == CURRENT_SCHEMA && SameConfiguration(rt, st.policy) && Loadable(rt.env, st)
    && LeasesOk(rt.env, Normalized(st.snap.regs))
  }

  lemma SameLimits(rt: Runtime, p: Policy)
    requires SameConfiguration(rt, p)
    ensures rt.env.(minUpdates := p.minUpdates, maxPerMinute := p.maxPerMinute) == rt.env
  {
  }

  /** Validation never objects to the state that was just restored. */
  lemma NormalizedStateIsValid(rt: Runtime, p: Policy, snap: Snapshot, restored: Time, captured: Time)
    requires SameConfiguration(rt, p) && ValidUnder(rt.env, p, snap) && LeasesOk(rt.env, Normalized(snap.regs))
    ensures ValidUnder(rt.env, p, Capture(Restore(snap, restored), captured))
    ensures LeasesOk(rt.env, Normalized(Capture(Restore(snap, restored), captured).regs))
  {
    SameLimits(rt, p);
    RestoredOk(rt.env, snap, restored);
    CaptureRestorable(rt.env, Restore(snap, restored), captured);
  }

  /** Opening succeeds exactly for loadable state whose adopted policy is the runtime's, and binds it:
      the round is kept, and so is any persisted creation time. Otherwise the store is untouched,
      unless the commit itself took effect and then failed. */
  lemma OpeningBinds(rt: Runtime, st: Stored, restored: Time, captured: Time, fate: Fate)
    ensures var o, p := OpenStore(rt, st, restored, captured, fate), Adopted(rt, st.policy);
            var acceptable := Loadable(rt.env, st) && ValidUnder(rt.env, p, st.snap) && SameConfiguration(rt, p)
                              && LeasesOk(rt.env, Normalized(st.snap.regs));
            && (o.Open? <==> acceptable && fate.Healthy?)
            && (o.Refused? && !(acceptable && fate.FailsAfter?) ==> o.store == Some(st))
            && (o.store != Some(st) ==>
                  && o.store.Some? && BoundTo(rt, o.store.value)
                  && o.store.value.snap.model == st.snap.model && o.store.value.snap.pending == st.snap.pending
                  && (!Missing(st.policy.experiment) ==> o.store.value.policy.experiment.createdAt == st.policy.experiment.createdAt))
            && (o.Open? ==> o.mem == Restore(st.snap, restored) && Wf(rt.env, o.mem) && o.store.Some? && BoundTo(rt, o.store.value))
  {
    var p := Adopted(rt, st.policy);
    if ValidUnder(rt.env, p, st.snap) && SameConfiguration(rt, p) && LeasesOk(rt.env, Normalized(st.snap.regs)) {
      NormalizedStateIsValid(rt, p, st.snap, restored, captured);
      SameLimits(rt, p);
      RestoredOk(rt.env, st.snap, restored);
    }
  }

  /** State of the current schema adopts nothing: the upgrade happens exactly once. */
  lemma BoundStateAdoptsNothing(rt: Runtime, other: Runtime, st: Stored)
    requires BoundTo(rt, st)
    ensures Adopted(other, st.policy) == st.policy
  {
  }

  /** Once bound, the state opens for the same configuration only, and stays untouched by all others. */
  lemma DifferingConfigurationIsRefused(rt: Runtime, other: Runtime, st: Stored, restored: Time, captured: Time, fate: Fate)
    requires BoundTo(rt, st) && !SameConfiguration(other, st.policy)
    ensures OpenStore(other, st, restored, captured, fate) == Refused(Some(st))
  {
    BoundStateAdoptsNothing(rt, other, st);
  }

  /** It differs exactly when some setting, the model identifier or the experiment identity does. */
  lemma ConfigurationsDifferExactly(rt: Runtime, other: Runtime, st: Stored)
    requires BoundTo(rt, st)
    ensures SameConfiguration(other, st.policy) <==>
              && other.env.leaseTTL == rt.env.leaseTTL && other.env.maxUpdateBytes == rt.env.maxUpdateBytes
              && other.env.minUpdates == rt.env.minUpdates && other.env.maxPerMinute == rt.env.maxPerMinute
              && other.aggregation == rt.aggregation && other.modelID == rt.modelID
              && other.experiment.id == rt.experiment.id && other.experiment.config == rt.experiment.config
  {
  }

  /** Reopening with the same configuration succeeds and keeps the policy, creation time included. */
  lemma ReopeningIsStable(rt: Runtime, st: Stored, restored: Time, captured: Time)
    requires BoundTo(rt, st)
    ensures var o := OpenStore(rt, st, restored, captured, Healthy);
            o.Open? && o.store.Some? && o.store.value.policy == st.policy && BoundTo(rt, o.store.value)
  {
    BoundStateAdoptsNothing(rt, rt, st);
    OpeningBinds(rt, st, restored, captured, Healthy);
  }

  /** Text without surrounding space or line breaks is a plain identifier. */
  lemma PlainText(id: string)
    requires 0 < |id| <= MAX_ID && (forall i :: 0 <= i < |id| ==> '-' <= id[i] <= 'z')
    ensures PlainID(id)
  {
  }

  lemma ZerosAreHex(n: nat)
    requires n % 2 == 0
    ensures IsHexText(AuditChain.Zeros(n)) && ToLower(AuditChain.Zeros(n)) == AuditChain.Zeros(n)
  {
  }

  /** The placeholders used for validation pass it, so legacy state can be upgraded at all. */
  lemma PlaceholdersPass()
    ensures PlainID(MODEL_PLACEHOLDER) && ExperimentOk(EXPERIMENT_PLACEHOLDER)
  {
    PlainText(MODEL_PLACEHOLDER);
    PlainText(EXPERIMENT_PLACEHOLDER.id);
    ZerosAreHex(64);
  }
}
