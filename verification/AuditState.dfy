/** The durable coordinator on an audited store, where a snapshot and its audit events are committed
    in one transaction. Log and stored state agree in every reachable world. */
module AuditState {
  import opened Text
  import opened Core
  import opened Service
  import opened Moves
  import opened Snapshots
  import opened History
  import opened Durable
  import opened AuditMarks
  import opened Iteration
  import AuditChain

  /** Record hashing, the digest shown for opaque identifiers, and the aggregation method's name. */
  datatype Auditor = Auditor(hash: AuditChain.Hasher, ident: string -> string, aggregation: string)

  // ----- the events of a call

  function NewEvent(kind: AuditChain.Kind, at: Time): AuditChain.AuditEvent
  {
    AuditChain.AuditEvent(AuditChain.AUDIT_SCHEMA_VERSION, AuditChain.NormalizeTime(at), kind, true, "", "", "", "", "",
                          0, "", "", 0, 0, 0, "", 0, 0, "", 0)
  }

  function StateEvent(kind: AuditChain.Kind, m: Model, at: Time): AuditChain.AuditEvent
  {
    NewEvent(kind, at).(roundID := m.round, modelVersion := m.version, modelSHA256 := Hex(m.sha256))
  }

  function AcceptedEvent(env: Env, au: Auditor, request: Request, r: Response, pending: nat, at: Time): AuditChain.AuditEvent
    requires request.Submit? && r.Accepted?
  {
    var sub := request.submission;
    NewEvent(AuditChain.UpdateAccepted, at).(
      nodeID := request.node, registrationIDHash := au.ident(request.registrationID), updateID := r.updateID,
      updateSHA256 := Hex(sub.digest), baseModelVersion := sub.baseVersion, roundID := sub.round, modelVersion := r.version,
      sampleCount := if sub.metrics.Some? then sub.metrics.value.samples else 0, pendingUpdates := pending, quorum := env.minUpdates)
  }

  function AggregatedEvent(env: Env, au: Auditor, node: string, m: Model, at: Time): AuditChain.AuditEvent
  {
    StateEvent(AuditChain.RoundAggregated, m, at).(nodeID := node, quorum := env.minUpdates, aggregationMethod := au.aggregation)
  }

  function LeaseEvent(au: Auditor, kind: AuditChain.Kind, m: Model, node: string, rid: string, expires: int, generation: nat,
                      at: Time): AuditChain.AuditEvent
  {
    StateEvent(kind, m, at).(nodeID := node, registrationIDHash := au.ident(rid), leaseExpiresUnix := expires,
                             credentialGeneration := generation)
  }

  /** The events an accepted call is committed with. */
  function EventsOf(env: Env, au: Auditor, request: Request, r: Response, before: Model, after: Snapshot, at: Time): seq<AuditChain.AuditEvent>
  {
    match r
    case Registered(rid, _, expires, generation) =>
      [LeaseEvent(au, AuditChain.NodeRegistered, after.model, NodeOf(request), rid, expires, generation, at)]
    case Renewed(_, _, expires, generation) =>
      [LeaseEvent(au, AuditChain.LeaseRenewed, after.model, NodeOf(request), RegistrationOf(request), expires, generation, at)]
    case Rotated(rid, expires, generation) =>
      [LeaseEvent(au, AuditChain.CredentialRotated, after.model, NodeOf(request), rid, expires, generation, at)]
    case Revoked(target, generation, _, until) =>
      [StateEvent(AuditChain.RegistrationRevoked, after.model, at).(
         nodeID := NodeOf(request), targetNodeID := target, credentialGeneration := generation, blockedUntilUnix := until)]
    case Accepted(_, _, _, _) =>
      if !request.Submit? then []
      else
        [AcceptedEvent(env, au, request, r, |after.pending|, at)]
        + if after.model.round > before.round then [AggregatedEvent(env, au, request.node, after.model, at)] else []
    case _ => []
  }

  function NodeOf(request: Request): string
  {
    if request.NilRequest? then "" else request.node
  }

  function RegistrationOf(request: Request): string
  {
    if request.NilRequest? || request.Register? then "" else request.registrationID
  }

  // ----- the audited store

  datatype Store = Store(cell: Option<Snapshot>, chain: seq<AuditChain.AuditRecord>)

  datatype Written = Written(store: Store, ok: bool)

  predicate AllRecordable(events: seq<AuditChain.AuditEvent>)
  {
    forall i :: 0 <= i < |events| ==> AuditChain.Recordable(events[i])
  }

  ghost function CommitWithAudit(env: Env, au: Auditor, st: Store, snap: Snapshot, events: seq<AuditChain.AuditEvent>, fate: Fate): Written
  {
    var next := Store(Some(snap), AuditChain.Append(au.hash, st.chain, events));
    if !Valid(env, snap) || !AllRecordable(events) then Written(st, false)
    else
      match fate
      case Healthy => Written(next, true)
      case FailsBefore => Written(st, false)
      case FailsAfter => Written(next, false)
  }

  // ----- marks

  function MarkOf(e: AuditChain.AuditEvent): Mark
  {
    match e.kind
    case UpdateAccepted => Accept(e.roundID)
    case RoundAggregated => Aggregate(e.roundID)
    case _ => Other
  }

  function EventMarks(events: seq<AuditChain.AuditEvent>): (r: seq<Mark>)
    ensures |r| == |events| && forall i :: 0 <= i < |events| ==> r[i] == MarkOf(events[i])
  {
    seq(|events|, i requires 0 <= i < |events| => MarkOf(events[i]))
  }

  function Marks(chain: seq<AuditChain.AuditRecord>): (r: seq<Mark>)
    ensures |r| == |chain| && forall i :: 0 <= i < |chain| ==> r[i] == MarkOf(chain[i].event)
  {
    seq(|chain|, i requires 0 <= i < |chain| => MarkOf(chain[i].event))
  }

  lemma AppendMarks(hash: AuditChain.Hasher, chain: seq<AuditChain.AuditRecord>, events: seq<AuditChain.AuditEvent>)
    ensures Marks(AuditChain.Append(hash, chain, events)) == Marks(chain) + EventMarks(events)
  {
    var all := AuditChain.Append(hash, chain, events);
    AuditChain.AppendKeepsRecords(hash, chain, events);
    forall i | 0 <= i < |events| ensures MarkOf(all[|chain| + i].event) == MarkOf(events[i]) {
      AuditChain.AppendAddsEvents(hash, chain, events, i);
    }
    MarksSplit(all, chain, events);
  }

  lemma MarksSplit(all: seq<AuditChain.AuditRecord>, chain: seq<AuditChain.AuditRecord>, events: seq<AuditChain.AuditEvent>)
    requires |all| == |chain| + |events| && all[..|chain|] == chain
    requires forall i :: 0 <= i < |events| ==> MarkOf(all[|chain| + i].event) == MarkOf(events[i])
    ensures Marks(all) == Marks(chain) + EventMarks(events)
  {
    forall i | 0 <= i < |all| ensures Marks(all)[i] == (Marks(chain) + EventMarks(events))[i] {
      if i < |chain| {
        assert all[..|chain|][i] == chain[i];
      } else {
        assert all[|chain| + (i - |chain|)] == all[i];
      }
    }
  }

  lemma AppendNothing(hash: AuditChain.Hasher, chain: seq<AuditChain.AuditRecord>)
    ensures AuditChain.Append(hash, chain, []) == chain
  {
  }

  /** The marks an accepted call adds. */
  ghost predicate Logged(s: State, r: Response, added: seq<Mark>)
  {
    if r.Accepted? && r.aggregated then added == [Accept(s.model.round), Aggregate(s.model.round + 1)]
    else if r.Accepted? then added == [Accept(s.model.round)]
    else added == [Other]
  }

  lemma JoinedRounds(env: Env, s: State, t: State, node: string, sub: Submission, r: Response, u: Update, now: Time)
    requires r.Accepted? && Joined(env, s, t, node, sub, r, u, now)
    ensures sub.round == s.model.round && t.model.round == s.model.round + if r.aggregated then 1 else 0
  {
  }

  lemma AcceptedMarks(env: Env, au: Auditor, request: Request, r: Response, before: Model, after: Snapshot, at: Time)
    requires request.Submit? && r.Accepted? && request.submission.round == before.round
    requires after.model.round == before.round + if r.aggregated then 1 else 0
    ensures EventMarks(EventsOf(env, au, request, r, before, after, at)) ==
            if r.aggregated then [Accept(before.round), Aggregate(before.round + 1)] else [Accept(before.round)]
  {
    var events := EventsOf(env, au, request, r, before, after, at);
    assert events[0] == AcceptedEvent(env, au, request, r, |after.pending|, at);
    assert MarkOf(events[0]) == Accept(before.round);
    if r.aggregated {
      assert events[1] == AggregatedEvent(env, au, request.node, after.model, at);
    }
  }

  lemma OtherMarks(env: Env, au: Auditor, request: Request, r: Response, before: Model, after: Snapshot, at: Time)
    requires !r.Accepted? && !r.Rejected? && !r.ModelReply?
    ensures EventMarks(EventsOf(env, au, request, r, before, after, at)) == [Other]
  {
    var events := EventsOf(env, au, request, r, before, after, at);
    assert |events| == 1 && MarkOf(events[0]) == Other;
  }

  lemma LoggedEvents(env: Env, au: Auditor, s: State, t: State, request: Request, r: Response, now: Time, after: Snapshot, at: Time)
    requires RoundMove(env, s, t, request, r, now) && !r.Rejected? && !r.ModelReply?
    requires after.model == t.model
    ensures Logged(s, r, EventMarks(EventsOf(env, au, request, r, s.model, after, at)))
  {
    if r.Accepted? {
      var u :| Joined(env, s, t, request.node, request.submission, r, u, now);
      JoinedRounds(env, s, t, request.node, request.submission, r, u, now);
      AcceptedMarks(env, au, request, r, s.model, after, at);
    } else {
      OtherMarks(env, au, request, r, s.model, after, at);
    }
  }

  /** The logged update is the pending one: node, identifier, samples, and how many are pending. */
  lemma LoggedUpdateIsPending(env: Env, au: Auditor, s: State, t: State, request: Request, r: Response, now: Time, after: Snapshot, at: Time)
    requires RoundMove(env, s, t, request, r, now) && r.Accepted? && !r.aggregated
    requires after.model == t.model && after.pending == t.pending
    ensures var events := EventsOf(env, au, request, r, s.model, after, at);
            && |events| == 1 && events[0].nodeID in t.pending && events[0].nodeID !in s.pending
            && t.pending[events[0].nodeID].updateID == events[0].updateID
            && t.pending[events[0].nodeID].samples == events[0].sampleCount
            && events[0].pendingUpdates == |t.pending| < events[0].quorum
            && events[0].baseModelVersion == t.model.version && events[0].roundID == t.model.round
  {
    var u :| Joined(env, s, t, request.node, request.submission, r, u, now);
  }

  // ----- one commit

  /** The log is an accepted chain and agrees with the stored snapshot. */
  ghost predicate Agreeing(env: Env, au: Auditor, first: nat, chain: seq<AuditChain.AuditRecord>, m: Model, pending: map<string, Update>)
  {
    AuditChain.Accepted(au.hash, chain, [], 0) && Agrees(env.minUpdates, Marks(chain), first, m.round, |pending|)
  }

  lemma JoinedAgrees(env: Env, s: State, t: State, node: string, sub: Submission, r: Response, u: Update, now: Time,
                     marks: seq<Mark>, added: seq<Mark>, first: nat)
    requires r.Accepted? && Joined(env, s, t, node, sub, r, u, now) && Logged(s, r, added)
    requires Agrees(env.minUpdates, marks, first, s.model.round, |s.pending|)
    ensures Agrees(env.minUpdates, marks + added, first, t.model.round, |t.pending|)
  {
    JoinedRounds(env, s, t, node, sub, r, u, now);
    GrownByOne(s.pending, node, u);
    if r.aggregated {
      CloseAgrees(env.minUpdates, marks, first, s.model.round, |s.pending|);
    } else {
      AcceptAgrees(env.minUpdates, marks, first, s.model.round, |s.pending|);
    }
  }

  lemma MovedAgrees(env: Env, s: State, t: State, request: Request, r: Response, now: Time, marks: seq<Mark>, added: seq<Mark>, first: nat)
    requires RoundMove(env, s, t, request, r, now) && Logged(s, r, added)
    requires Agrees(env.minUpdates, marks, first, s.model.round, |s.pending|)
    ensures Agrees(env.minUpdates, marks + added, first, t.model.round, |t.pending|)
  {
    if r.Accepted? {
      var u :| Joined(env, s, t, request.node, request.submission, r, u, now);
      JoinedAgrees(env, s, t, request.node, request.submission, r, u, now, marks, added, first);
    } else {
      if r.Revoked? {
        RemovedIsSmaller(s.pending, r.target);
      }
      OtherAgrees(env.minUpdates, marks, first, s.model.round, |s.pending|, |t.pending|);
    }
  }

  lemma GrownByOne<T>(m: map<string, T>, k: string, x: T)
    requires k !in m
    ensures |m[k := x]| == |m| + 1
  {
    assert m[k := x].Keys == m.Keys + {k};
  }

  lemma EventsAgree(env: Env, au: Auditor, first: nat, chain: seq<AuditChain.AuditRecord>, s: State, t: State, request: Request,
                    r: Response, now: Time, events: seq<AuditChain.AuditEvent>)
    requires RoundMove(env, s, t, request, r, now) && Logged(s, r, EventMarks(events)) && AllRecordable(events)
    requires Agreeing(env, au, first, chain, s.model, s.pending)
    ensures Agreeing(env, au, first, AuditChain.Append(au.hash, chain, events), t.model, t.pending)
  {
    AuditChain.AppendKeepsAccepted(au.hash, chain, events);
    AppendMarks(au.hash, chain, events);
    MovedAgrees(env, s, t, request, r, now, Marks(chain), EventMarks(events), first);
  }

  // ----- the audited coordinator

  datatype AuditedWorld = AuditedWorld(up: bool, mem: State, store: Store)

  ghost predicate Inv(env: Env, au: Auditor, first: nat, w: AuditedWorld)
  {
    && w.store.cell.Some? && Restorable(env, w.store.cell.value)
    && Agreeing(env, au, first, w.store.chain, w.store.cell.value.model, w.store.cell.value.pending)
    && (w.up ==> Wf(env, w.mem) && w.mem.model == w.store.cell.value.model && w.mem.pending == w.store.cell.value.pending)
  }

  /** Commit of an accepted step, or roll back. */
  ghost function FinishAudited(env: Env, au: Auditor, st: Store, before: Snapshot, o: Outcome, request: Request, c: Clock,
                               first: Fate, second: Fate): AuditedWorld
  {
    var after := Capture(o.state, c.after);
    var w := CommitWithAudit(env, au, st, after, EventsOf(env, au, request, o.response, before.model, after, c.after), first);
    if w.ok then AuditedWorld(true, o.state, w.store)
    else if !Restorable(env, before) then AuditedWorld(true, o.state, w.store)
    else AuditedWorld(true, Restore(before, c.restored), CommitWithAudit(env, au, w.store, before, [], second).store)
  }

  ghost function ServeAudited(env: Env, au: Auditor, w: AuditedWorld, call: Call, c: Clock, entropy: Option<Entropy>,
                              first: Fate, second: Fate): AuditedWorld
  {
    var o := Step(env, w.mem, call, c.now, entropy);
    if call.request.GetModel? || o.response.Rejected? then w.(mem := o.state)
    else FinishAudited(env, au, w.store, Capture(w.mem, c.before), o, call.request, c, first, second)
  }

  ghost function RestartAudited(env: Env, au: Auditor, w: AuditedWorld, restored: Time, captured: Time, fate: Fate): AuditedWorld
  {
    if w.store.cell.None? || !Restorable(env, w.store.cell.value) then w
    else
      var mem := Restore(w.store.cell.value, restored);
      var snap := Capture(mem, captured);
      var c := CommitWithAudit(env, au, w.store, snap, [StateEvent(AuditChain.StateRecovered, mem.model, captured)], fate);
      AuditedWorld(c.ok, mem, c.store)
  }

  // ----- agreement is kept

  lemma FinishAgrees(env: Env, au: Auditor, round0: nat, w: AuditedWorld, o: Outcome, request: Request, c: Clock, now: Time,
                     first: Fate, second: Fate)
    requires Inv(env, au, round0, w) && w.up && TablesOk(env, o.state) && !o.response.Rejected? && !o.response.ModelReply?
    requires RoundMove(env, w.mem, o.state, request, o.response, now)
    requires !first.FailsAfter? && !second.FailsAfter?
    ensures Inv(env, au, round0, FinishAudited(env, au, w.store, Capture(w.mem, c.before), o, request, c, first, second))
  {
    var after, before := Capture(o.state, c.after), Capture(w.mem, c.before);
    var events := EventsOf(env, au, request, o.response, before.model, after, c.after);
    var written := CommitWithAudit(env, au, w.store, after, events, first);
    if written.ok {
      LoggedEvents(env, au, w.mem, o.state, request, o.response, now, after, c.after);
      EventsAgree(env, au, round0, w.store.chain, w.mem, o.state, request, o.response, now, events);
      CaptureValid(env, o.state, c.after);
      CaptureRestorable(env, o.state, c.after);
    } else {
      RolledBackAgrees(env, au, round0, w, before, c, second);
    }
  }

  lemma RolledBackAgrees(env: Env, au: Auditor, round0: nat, w: AuditedWorld, before: Snapshot, c: Clock, second: Fate)
    requires Inv(env, au, round0, w) && w.up && before == Capture(w.mem, c.before) && !second.FailsAfter?
    ensures Restorable(env, before)
    ensures Inv(env, au, round0, AuditedWorld(true, Restore(before, c.restored), CommitWithAudit(env, au, w.store, before, [], second).store))
  {
    CaptureRestorable(env, w.mem, c.before);
    RestoredOk(env, before, c.restored);
    AppendNothing(au.hash, w.store.chain);
  }

  lemma RestartAgrees(env: Env, au: Auditor, round0: nat, w: AuditedWorld, restored: Time, captured: Time, fate: Fate)
    requires Inv(env, au, round0, w) && !w.up && !fate.FailsAfter?
    ensures Inv(env, au, round0, RestartAudited(env, au, w, restored, captured, fate))
  {
    var mem := Restore(w.store.cell.value, restored);
    var snap, events := Capture(mem, captured), [StateEvent(AuditChain.StateRecovered, mem.model, captured)];
    RestoredFacts(env, w.store.cell.value, restored, captured);
    StateEventMark(AuditChain.StateRecovered, mem.model, captured);
    RestartCommits(env, au, round0, w, mem, snap, events, fate);
  }

  lemma RestoredFacts(env: Env, snap: Snapshot, restored: Time, captured: Time)
    requires Restorable(env, snap)
    ensures Wf(env, Restore(snap, restored)) && Restorable(env, Capture(Restore(snap, restored), captured))
  {
    RestoredOk(env, snap, restored);
    CaptureRestorable(env, Restore(snap, restored), captured);
  }

  lemma StateEventMark(kind: AuditChain.Kind, m: Model, at: Time)
    requires kind.StateRecovered? || kind.StateInitialized?
    ensures EventMarks([StateEvent(kind, m, at)]) == [Other]
  {
  }

  lemma RestartCommits(env: Env, au: Auditor, round0: nat, w: AuditedWorld, mem: State, snap: Snapshot,
                       events: seq<AuditChain.AuditEvent>, fate: Fate)
    requires Inv(env, au, round0, w) && !w.up && !fate.FailsAfter? && Wf(env, mem) && Restorable(env, snap)
    requires mem.model == snap.model == w.store.cell.value.model && mem.pending == snap.pending == w.store.cell.value.pending
    requires EventMarks(events) == [Other]
    ensures var c := CommitWithAudit(env, au, w.store, snap, events, fate);
            Inv(env, au, round0, AuditedWorld(c.ok, mem, c.store))
  {
    if AllRecordable(events) {
      RecoveredAgrees(env, au, round0, w.store.chain, mem.model, mem.pending, events);
    }
  }

  lemma RecoveredAgrees(env: Env, au: Auditor, first: nat, chain: seq<AuditChain.AuditRecord>, m: Model, pending: map<string, Update>,
                        events: seq<AuditChain.AuditEvent>)
    requires Agreeing(env, au, first, chain, m, pending) && AllRecordable(events) && EventMarks(events) == [Other]
    ensures Agreeing(env, au, first, AuditChain.Append(au.hash, chain, events), m, pending)
  {
    AuditChain.AppendKeepsAccepted(au.hash, chain, events);
    AppendMarks(au.hash, chain, events);
    OtherAgrees(env.minUpdates, Marks(chain), first, m.round, |pending|, |pending|);
  }

  // ----- every reachable world

  datatype AuditedAction = HandleAudited(call: Call, clock: Clock, entropy: Option<Entropy>, first: Fate, second: Fate)
                         | CrashAudited
                         | RecoverAudited(restored: Time, captured: Time, fate: Fate)

  ghost function ActAudited(env: Env, au: Auditor, w: AuditedWorld, a: AuditedAction): AuditedWorld
  {
    match a
    case HandleAudited(call, clock, entropy, first, second) =>
      if !w.up || !Ticks(clock) then w else ServeAudited(env, au, w, call, clock, entropy, first, second)
    case CrashAudited => w.(up := false)
    case RecoverAudited(restored, captured, fate) => if w.up then w else RestartAudited(env, au, w, restored, captured, fate)
  }

  /** Every commit of the action either happens completely or not at all. */
  predicate AllOrNothing(a: AuditedAction)
  {
    match a
    case HandleAudited(_, _, _, first, second) => !first.FailsAfter? && !second.FailsAfter?
    case CrashAudited => true
    case RecoverAudited(_, _, fate) => !fate.FailsAfter?
  }

  ghost function Actor(env: Env, au: Auditor): (AuditedWorld, AuditedAction) -> AuditedWorld
  {
    (w, a) => ActAudited(env, au, w, a)
  }

  ghost function Agreement(env: Env, au: Auditor, round0: nat): AuditedWorld -> bool
  {
    w => Inv(env, au, round0, w)
  }

  lemma ServeAgrees(env: Env, au: Auditor, round0: nat, w: AuditedWorld, call: Call, clock: Clock, entropy: Option<Entropy>,
                    first: Fate, second: Fate)
    requires TextSound(env) && CodecSound(env) && Inv(env, au, round0, w) && w.up && Ticks(clock)
    requires !first.FailsAfter? && !second.FailsAfter?
    ensures Inv(env, au, round0, ServeAudited(env, au, w, call, clock, entropy, first, second))
  {
    var o := Step(env, w.mem, call, clock.now, entropy);
    var tr := StepOf(env, w.mem, call, clock.now, entropy);
    CallIsLegal(env, w.mem, call, clock.now, entropy);
    if call.request.GetModel? || o.response.Rejected? {
      UncommittedStaysWf(env, tr);
      UncommittedKeepsRound(env, tr);
    } else {
      OnlyGetModelReplies(env, w.mem, call, clock.now, entropy);
      FinishAgrees(env, au, round0, w, o, call.request, clock, clock.now, first, second);
    }
  }

  lemma UncommittedKeepsRound(env: Env, tr: Transition)
    requires Legal(env, tr) && tr.event.Rpc? && (tr.event.response.Rejected? || tr.event.request.GetModel?)
    ensures tr.after.model == tr.before.model && tr.after.pending == tr.before.pending
  {
    assert RoundMove(env, tr.before, tr.after, tr.event.request, tr.event.response, tr.event.now);
  }

  lemma OnlyGetModelReplies(env: Env, s: State, call: Call, now: Time, entropy: Option<Entropy>)
    requires !call.request.GetModel?
    ensures !Step(env, s, call, now, entropy).response.ModelReply?
  {
  }

  lemma ActAgrees(env: Env, au: Auditor, round0: nat, w: AuditedWorld, a: AuditedAction)
    requires TextSound(env) && CodecSound(env) && Inv(env, au, round0, w) && AllOrNothing(a)
    ensures Inv(env, au, round0, ActAudited(env, au, w, a))
  {
    match a
    case HandleAudited(call, clock, entropy, first, second) =>
      if w.up && Ticks(clock) {
        ServeAgrees(env, au, round0, w, call, clock, entropy, first, second);
      }
    case CrashAudited =>
    case RecoverAudited(restored, captured, fate) =>
      if !w.up {
        RestartAgrees(env, au, round0, w, restored, captured, fate);
      }
  }

  /** Audit and state agreement: from an agreeing store, through any calls, crashes and restarts
      with all-or-nothing commits, the log stays an accepted chain; its closed rounds carry
      consecutive round numbers, as many as the stored model has advanced, each preceded by a quorum
      of updates accepted for the round it closes. */
  lemma LogAgreesWithState(env: Env, au: Auditor, round0: nat, w: AuditedWorld, actions: seq<AuditedAction>)
    requires TextSound(env) && CodecSound(env) && Inv(env, au, round0, w)
    requires forall i :: 0 <= i < |actions| ==> AllOrNothing(actions[i])
    ensures Inv(env, au, round0, Iterate(Actor(env, au), w, actions))
  {
    forall v, a | Agreement(env, au, round0)(v) && AllOrNothing(a) ensures Agreement(env, au, round0)(Actor(env, au)(v, a)) {
      ActAgrees(env, au, round0, v, a);
    }
    Invariant(Actor(env, au), Agreement(env, au, round0), AllOrNothing, w, actions);
  }

  /** A freshly initialised store agrees: its log holds the one initialisation event. */
  lemma FreshStoreAgrees(env: Env, au: Auditor, s: State, now: Time)
    requires Wf(env, s) && s.pending == map[] && AllRecordable([StateEvent(AuditChain.StateInitialized, s.model, now)])
    ensures var events := [StateEvent(AuditChain.StateInitialized, s.model, now)];
            Inv(env, au, s.model.round, AuditedWorld(true, s, Store(Some(Capture(s, now)), AuditChain.Append(au.hash, [], events))))
  {
    CaptureRestorable(env, s, now);
    StateEventMark(AuditChain.StateInitialized, s.model, now);
    RecoveredAgrees(env, au, s.model.round, [], s.model, s.pending, [StateEvent(AuditChain.StateInitialized, s.model, now)]);
  }

  // ----- commits that take effect but report failure

  /** The stored snapshot agrees with the log beside it. */
  ghost predicate StoreAgrees(env: Env, au: Auditor, round0: nat, st: Store)
  {
    st.cell.Some? && Agreeing(env, au, round0, st.chain, st.cell.value.model, st.cell.value.pending)
  }

  /** With a call's events logged but its state rolled back, marks and state still agree exactly when
      the call closed no round. */
  lemma KeptStateAgrees(env: Env, s: State, r: Response, marks: seq<Mark>, added: seq<Mark>, first: nat)
    requires Agrees(env.minUpdates, marks, first, s.model.round, |s.pending|) && Logged(s, r, added)
    ensures Agrees(env.minUpdates, marks + added, first, s.model.round, |s.pending|) <==> !(r.Accepted? && r.aggregated)
  {
    if r.Accepted? && r.aggregated {
      AheadDisagrees(env.minUpdates, marks, first, s.model.round, |s.pending|);
    } else if r.Accepted? {
      AcceptAgrees(env.minUpdates, marks, first, s.model.round, |s.pending|);
      FewerAgree(env.minUpdates, marks + added, first, s.model.round, |s.pending| + 1, |s.pending|);
    } else {
      OtherAgrees(env.minUpdates, marks, first, s.model.round, |s.pending|, |s.pending|);
    }
  }

  lemma LateEventsAgreeExactly(env: Env, au: Auditor, round0: nat, chain: seq<AuditChain.AuditRecord>, s: State, t: State,
                               request: Request, r: Response, now: Time, events: seq<AuditChain.AuditEvent>)
    requires RoundMove(env, s, t, request, r, now) && Logged(s, r, EventMarks(events)) && AllRecordable(events)
    requires Agreeing(env, au, round0, chain, s.model, s.pending)
    ensures Agreeing(env, au, round0, AuditChain.Append(au.hash, chain, events), s.model, s.pending) <==> !(r.Accepted? && r.aggregated)
  {
    AuditChain.AppendKeepsAccepted(au.hash, chain, events);
    AppendMarks(au.hash, chain, events);
    KeptStateAgrees(env, s, r, Marks(chain), EventMarks(events), round0);
  }

  /** What the store holds when a call and its possible rollback are over. */
  ghost function StoreAfter(env: Env, au: Auditor, st: Store, before: Snapshot, after: Snapshot, events: seq<AuditChain.AuditEvent>,
                            first: Fate, second: Fate): Store
  {
    var late := Store(Some(after), AuditChain.Append(au.hash, st.chain, events));
    if Valid(env, after) && AllRecordable(events) && !first.FailsBefore? then
      if first.Healthy? || second.FailsBefore? then late else late.(cell := Some(before))
    else if second.FailsBefore? then st
    else st.(cell := Some(before))
  }

  lemma FinishedStore(env: Env, au: Auditor, st: Store, before: Snapshot, o: Outcome, request: Request, c: Clock, first: Fate, second: Fate)
    requires Restorable(env, before)
    ensures var after := Capture(o.state, c.after);
            FinishAudited(env, au, st, before, o, request, c, first, second).store ==
            StoreAfter(env, au, st, before, after, EventsOf(env, au, request, o.response, before.model, after, c.after), first, second)
  {
    var after := Capture(o.state, c.after);
    AppendNothing(au.hash, st.chain);
    AppendNothing(au.hash, AuditChain.Append(au.hash, st.chain, EventsOf(env, au, request, o.response, before.model, after, c.after)));
  }

  /** Exactly when a call leaves a log that disagrees with the stored state: its commit took effect,
      closed a round, and reported failure, and the rollback's commit took effect too. */
  predicate LogRunsAhead(taken: bool, r: Response, first: Fate, second: Fate)
  {
    taken && first.FailsAfter? && !second.FailsBefore? && r.Accepted? && r.aggregated
  }

  lemma FinishAgreesExactly(env: Env, au: Auditor, round0: nat, w: AuditedWorld, o: Outcome, request: Request, c: Clock, now: Time,
                            first: Fate, second: Fate)
    requires Inv(env, au, round0, w) && w.up && TablesOk(env, o.state) && !o.response.Rejected? && !o.response.ModelReply?
    requires RoundMove(env, w.mem, o.state, request, o.response, now)
    ensures var before, after := Capture(w.mem, c.before), Capture(o.state, c.after);
            var taken := Valid(env, after) && AllRecordable(EventsOf(env, au, request, o.response, before.model, after, c.after));
            var v := FinishAudited(env, au, w.store, before, o, request, c, first, second);
            StoreAgrees(env, au, round0, v.store) <==> !LogRunsAhead(taken, o.response, first, second)
  {
    var before, after := Capture(w.mem, c.before), Capture(o.state, c.after);
    var events := EventsOf(env, au, request, o.response, before.model, after, c.after);
    CaptureRestorable(env, w.mem, c.before);
    FinishedStore(env, au, w.store, before, o, request, c, first, second);
    LoggedEvents(env, au, w.mem, o.state, request, o.response, now, after, c.after);
    StoreAfterAgrees(env, au, round0, w.store, w.mem, o.state, before, after, request, o.response, now, events, first, second);
  }

  lemma StoreAfterAgrees(env: Env, au: Auditor, round0: nat, st: Store, s: State, t: State, before: Snapshot, after: Snapshot,
                         request: Request, r: Response, now: Time, events: seq<AuditChain.AuditEvent>, first: Fate, second: Fate)
    requires StoreAgrees(env, au, round0, st) && RoundMove(env, s, t, request, r, now) && Logged(s, r, EventMarks(events))
    requires st.cell.value.model == s.model == before.model && st.cell.value.pending == s.pending == before.pending
    requires after.model == t.model && after.pending == t.pending
    ensures StoreAgrees(env, au, round0, StoreAfter(env, au, st, before, after, events, first, second)) <==>
            !LogRunsAhead(Valid(env, after) && AllRecordable(events), r, first, second)
  {
    if Valid(env, after) && AllRecordable(events) && !first.FailsBefore? {
      EventsAgree(env, au, round0, st.chain, s, t, request, r, now, events);
      LateEventsAgreeExactly(env, au, round0, st.chain, s, t, request, r, now, events);
    }
  }

  lemma EmptyRoundAgrees(env: Env, s: State, t: State, request: Request, r: Response, now: Time)
    requires RoundMove(env, s, t, request, r, now) && r.Accepted? && r.aggregated
    ensures LengthsAgree(env, t.model, t.pending)
  {
    var u :| Joined(env, s, t, request.node, request.submission, r, u, now);
  }

  /** The failing case: a closing update with recordable events, committed, reported as failed, and
      rolled back. The state is restored and the log is not. */
  lemma LateFailureLeavesEvents(env: Env, au: Auditor, round0: nat, w: AuditedWorld, o: Outcome, request: Request, c: Clock, now: Time)
    requires Inv(env, au, round0, w) && w.up && TablesOk(env, o.state) && o.response.Accepted? && o.response.aggregated
    requires RoundMove(env, w.mem, o.state, request, o.response, now)
    requires AllRecordable(EventsOf(env, au, request, o.response, w.mem.model, Capture(o.state, c.after), c.after))
    ensures var v := FinishAudited(env, au, w.store, Capture(w.mem, c.before), o, request, c, FailsAfter, Healthy);
            v.store.cell == Some(Capture(w.mem, c.before)) && !StoreAgrees(env, au, round0, v.store)
  {
    assert Valid(env, Capture(o.state, c.after)) by {
      EmptyRoundAgrees(env, w.mem, o.state, request, o.response, now);
      CaptureValid(env, o.state, c.after);
    }
    CaptureRestorable(env, w.mem, c.before);
    FinishedStore(env, au, w.store, Capture(w.mem, c.before), o, request, c, FailsAfter, Healthy);
    FinishAgreesExactly(env, au, round0, w, o, request, c, now, FailsAfter, Healthy);
  }
}
