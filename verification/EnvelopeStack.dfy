/** The envelope, the coordinator behind it and all other calls, step by step. One enveloped submission
    is in flight at a time; it reads the model between durable calls, but may read the pending updates
    in the middle of one, before that call is committed or rolled back. */
module EnvelopeStack {
  import opened Text
  import opened Core
  import opened Registry
  import opened Service
  import opened Moves
  import opened Snapshots
  import opened History
  import opened Durable
  import opened Envelope
  import Npy

  /** A submission with its envelope. */
  datatype Job = Job(identity: Option<Identity>, node: string, rid: string, sub: Submission, header: Header)

  /** The submission that holds the update lock. `during`: the pending updates were read inside a call
      that is still unsettled. `revived`: that call was rolled back, which brought updates back. */
  datatype Flight = Idle | Checked(job: Job) | NeedsPending(job: Job) | Cleared(job: Job, during: bool, revived: bool)

  /** A durable call whose step is in memory but not yet committed or rolled back. */
  datatype Unsettled = Unsettled(before: State, captured: Time)

  datatype Stack = Stack(mem: State, open: Option<Unsettled>, flight: Flight)

  /** The environment, the model identifier, and whether the coordinator behind is durable. */
  datatype Setup = Setup(env: Env, modelID: string, durable: bool)

  datatype Move =
    | Begin(call: Call, captured: Time, now: Time, entropy: Option<Entropy>)   // the step of another call
    | Settle(ok: bool, restored: Time)                                         // its commit, or its rollback
    | Arrive(job: Job)                                                         // the header is checked
    | ReadModel(now: Time)                                                     // the inner model call
    | ReadPending                                                              // the pending schema
    | Deliver(clock: Clock, entropy: Option<Entropy>, ok: bool)                // the inner submission

  predicate Enabled(s: Stack, m: Move)
  {
    match m
    case Begin(call, captured, now, _) => s.open.None? && !call.request.Submit? && 0 < captured <= now
    case Settle(_, restored) => s.open.Some? && s.open.value.captured <= restored
    case Arrive(_) => s.flight.Idle?
    case ReadModel(_) => s.flight.Checked? && s.open.None?
    case ReadPending => s.flight.NeedsPending?
    case Deliver(clock, _, _) => s.flight.Cleared? && s.open.None? && Ticks(clock)
  }

  // ----- the moves

  function AfterBegin(su: Setup, s: Stack, call: Call, captured: Time, now: Time, entropy: Option<Entropy>): Stack
  {
    var o := Step(su.env, s.mem, call, now, entropy);
    var unsettled := su.durable && !o.response.Rejected? && !call.request.GetModel?;
    s.(mem := o.state, open := if unsettled then Some(Unsettled(s.mem, captured)) else None)
  }

  function AfterSettle(s: Stack, ok: bool, restored: Time): Stack
    requires s.open.Some?
  {
    var before, f := s.open.value.before, s.flight;
    if ok then Stack(s.mem, None, if f.Cleared? then f.(during := false) else f)
    else
      var back := f.Cleared? && f.during && before.pending != s.mem.pending;
      Stack(Restore(Capture(before, s.open.value.captured), restored), None,
            if f.Cleared? then Cleared(f.job, false, f.revived || back) else f)
  }

  function HeaderCheck(su: Setup, job: Job): Option<Stop>
  {
    HeaderStop(su.env, su.modelID, job.header, job.sub.payload)
  }

  /** What the model read ends the flight with, if anything. */
  function ModelCheck(su: Setup, s: State, job: Job, now: Time): Option<Stop>
  {
    var fault := AccessFault(su.env, s.regs, job.identity, job.node, job.rid, now);
    if fault.Some? then Some(NoAccess(fault.value))
    else if s.model.payload != [] then ModelStop(su.env, s.model, job.header.schema)
    else None
  }

  ghost function AfterReads(su: Setup, s: Stack, m: Move): Stack
    requires Enabled(s, m) && (m.Arrive? || m.ReadModel? || m.ReadPending?)
  {
    match m
    case Arrive(job) => if HeaderCheck(su, job).Some? then s else s.(flight := Checked(job))
    case ReadModel(now) =>
      var job := s.flight.job;
      if ModelCheck(su, s.mem, job, now).Some? then s.(flight := Idle)
      else if s.mem.model.payload != [] then s.(flight := Cleared(job, false, false))
      else s.(flight := NeedsPending(job))
    case ReadPending =>
      var job := s.flight.job;
      if PendingStop(su.env, s.mem.pending, job.header.schema).Some? then s.(flight := Idle)
      else s.(flight := Cleared(job, s.open.Some?, false))
  }

  /** The step of the inner submission. */
  function Attempt(su: Setup, s: State, job: Job, now: Time, entropy: Option<Entropy>): Outcome
  {
    StepSubmit(su.env, s, job.identity, job.node, job.rid, job.sub, now, entropy)
  }

  /** What of it survives its own commit. */
  ghost function Delivered(su: Setup, s: State, o: Outcome, clock: Clock, ok: bool): State
  {
    if o.response.Rejected? || !su.durable || (ok && Valid(su.env, Capture(o.state, clock.after))) then o.state
    else Restore(Capture(s, clock.before), clock.restored)
  }

  ghost function Apply(su: Setup, s: Stack, m: Move): Stack
    requires Enabled(s, m)
  {
    match m
    case Begin(call, captured, now, entropy) => AfterBegin(su, s, call, captured, now, entropy)
    case Settle(ok, restored) => AfterSettle(s, ok, restored)
    case Deliver(clock, entropy, ok) =>
      Stack(Delivered(su, s.mem, Attempt(su, s.mem, s.flight.job, clock.now, entropy), clock, ok), None, Idle)
    case _ => AfterReads(su, s, m)
  }

  // ----- the invariant

  /** `t` has the model of `s` and only updates that `s` has. */
  ghost predicate Shrunk(s: State, t: State)
  {
    t.model == s.model && forall k :: k in t.pending ==> k in s.pending && t.pending[k] == s.pending[k]
  }

  /** What the passed checks say about model and pending updates. */
  ghost predicate Agreed(env: Env, s: State, schema: seq<byte>)
  {
    if s.model.payload != [] then
      var values := env.decode(s.model.payload);
      values.Some? && |values.value| <= Npy.MAX_INT && Schema(env, |values.value|) == schema
    else AllOfSchema(env, s.pending, schema)
  }

  ghost predicate FlightInv(su: Setup, s: Stack)
  {
    match s.flight
    case Idle => true
    case Checked(job) => HeaderCheck(su, job).None?
    case NeedsPending(job) => HeaderCheck(su, job).None? && s.mem.model.payload == []
    case Cleared(job, during, revived) =>
      && HeaderCheck(su, job).None?
      && (!revived ==> Agreed(su.env, s.mem, job.header.schema))
      && (!revived && !during && s.open.Some? ==> Agreed(su.env, s.open.value.before, job.header.schema))
      && (during ==> s.open.Some?)
  }

  ghost predicate Inv(su: Setup, s: Stack)
  {
    && Wf(su.env, s.mem)
    && (s.open.Some? ==> su.durable && Wf(su.env, s.open.value.before) && Shrunk(s.open.value.before, s.mem))
    && (s.flight.Cleared? && (s.flight.during || s.flight.revived) ==> su.durable)
    && FlightInv(su, s)
  }

  ghost predicate Sound(su: Setup)
  {
    TextSound(su.env) && CodecSound(su.env) && AggregateSound(su.env)
  }

  /** The length of the vector of a submission in flight. */
  function Length(su: Setup, job: Job): nat
    requires HeaderCheck(su, job).None?
  {
    |su.env.decode(job.sub.payload).value|
  }

  /** The pending vector `k` and the one being delivered differ in length, but their manifests have
      the same digest. */
  ghost predicate CollidesWith(su: Setup, s: Stack, m: Move, k: string)
  {
    && m.Deliver? && s.flight.Cleared? && HeaderCheck(su, s.flight.job).None? && k in s.mem.pending
    && SchemaCollision(su.env, |s.mem.pending[k].values|, Length(su, s.flight.job))
  }

  ghost predicate Collides(su: Setup, s: Stack, m: Move)
  {
    exists k :: CollidesWith(su, s, m, k)
  }

  // ----- other calls only take pending updates away

  lemma AgreedShrinks(env: Env, s: State, t: State, schema: seq<byte>)
    requires Agreed(env, s, schema) && Shrunk(s, t)
    ensures Agreed(env, t, schema)
  {
  }

  lemma OtherCallShrinks(env: Env, s: State, call: Call, now: Time, entropy: Option<Entropy>)
    requires TextSound(env) && CodecSound(env) && Wf(env, s) && now > 0 && !call.request.Submit?
    ensures var o := Step(env, s, call, now, entropy);
            Wf(env, o.state) && Shrunk(s, o.state)
  {
    var tr := StepOf(env, s, call, now, entropy);
    CallIsLegal(env, s, call, now, entropy);
    assert RoundMove(env, s, tr.after, call.request, tr.event.response, now);
    ShrunkRoundAgrees(env, s, tr.after);
  }

  lemma ShrunkRoundAgrees(env: Env, s: State, t: State)
    requires Shrunk(s, t) && LengthsAgree(env, s.model, s.pending)
    ensures LengthsAgree(env, t.model, t.pending)
  {
  }

  lemma BeginKeeps(su: Setup, s: Stack, m: Move)
    requires Sound(su) && Inv(su, s) && m.Begin? && Enabled(s, m)
    ensures Inv(su, Apply(su, s, m))
  {
    OtherCallShrinks(su.env, s.mem, m.call, m.now, m.entropy);
    if s.flight.Cleared? && !s.flight.revived {
      AgreedShrinks(su.env, s.mem, Apply(su, s, m).mem, s.flight.job.header.schema);
    }
  }

  lemma Restored(env: Env, s: State, captured: Time, restored: Time)
    requires Wf(env, s) && captured <= restored
    ensures var t := Restore(Capture(s, captured), restored);
            Wf(env, t) && t.model == s.model && t.pending == s.pending
  {
    ReloadIsLegal(env, s, captured, restored);
  }

  lemma SettleKeeps(su: Setup, s: Stack, m: Move)
    requires Sound(su) && Inv(su, s) && m.Settle? && Enabled(s, m)
    ensures Inv(su, Apply(su, s, m))
  {
    Restored(su.env, s.open.value.before, s.open.value.captured, m.restored);
  }

  lemma ReadsKeep(su: Setup, s: Stack, m: Move)
    requires Inv(su, s) && Enabled(s, m) && (m.Arrive? || m.ReadModel? || m.ReadPending?)
    ensures Inv(su, Apply(su, s, m))
  {
    if m.ReadPending? && PendingStop(su.env, s.mem.pending, s.flight.job.header.schema).None? {
      PassedPending(su.env, s.mem.pending, s.flight.job.header.schema);
    }
  }

  // ----- delivery

  /** What the checks are for: unless a rollback brought updates back, the pending vectors have the
      length of the delivered one, or one of them collides with it. */
  lemma CheckedIsUniform(su: Setup, s: Stack, m: Move)
    requires Inv(su, s) && m.Deliver? && Enabled(s, m) && !s.flight.revived
    requires CurrentVector(su.env, s.mem.model, Length(su, s.flight.job)).Some?
    ensures Uniform(s.mem.pending, Length(su, s.flight.job)) || Collides(su, s, m)
  {
    var n := Length(su, s.flight.job);
    if s.mem.model.payload == [] {
      forall k | k in s.mem.pending && |s.mem.pending[k].values| != n ensures CollidesWith(su, s, m, k) {
        SameSchemaSameLength(su.env, |s.mem.pending[k].values|, n);
      }
    }
  }

  /** The delivery passes everything but the shape. */
  predicate Reaches(su: Setup, s: State, job: Job, now: Time, entropy: Option<Entropy>)
  {
    && HeaderCheck(su, job).None? && entropy.Some?
    && Admitted(su.env, s, Call(job.identity, Submit(job.node, job.rid, job.sub)), now)
    && RoundFault(su.env, s.model, s.pending, job.node, job.sub, Length(su, job)).None?
  }

  /** The delivery is refused because vectors of different lengths meet: by the aggregation, or by
      the validation before the commit. */
  ghost predicate RefusedForShape(su: Setup, o: Outcome, after: Time)
  {
    || o.response == Rejected(AggregationFailed)
    || (su.durable && !o.response.Rejected? && !Valid(su.env, Capture(o.state, after)))
  }

  /** The update a delivery puts into the round. */
  function Incoming(su: Setup, job: Job, entropy: Entropy): Update
    requires su.env.decode(job.sub.payload).Some? && job.sub.metrics.Some?
  {
    Update(su.env.hex(entropy), su.env.decode(job.sub.payload).value, job.sub.metrics.value.samples)
  }

  /** A delivery that reaches the round joins it. */
  lemma ReachesJoins(su: Setup, s: State, job: Job, now: Time, entropy: Option<Entropy>)
    requires Sound(su) && Reaches(su, s, job, now, entropy)
    ensures job.sub.metrics.Some? && UpdateOk(Incoming(su, job, entropy.value))
    ensures CurrentVector(su.env, s.model, Length(su, job)).Some? && job.node !in s.pending
    ensures var o, c := Attempt(su, s, job, now, entropy), Join(su.env, s.model, s.pending, job.node, Incoming(su, job, entropy.value), now);
            o.response == c.response && o.state.model == c.model && o.state.pending == c.pending
  {
    SubmissionFacts(su.env, job.sub, now);
  }

  lemma AttemptStaysOk(su: Setup, s: State, job: Job, now: Time, entropy: Option<Entropy>)
    requires Sound(su) && TablesOk(su.env, s) && now > 0
    ensures var o := Attempt(su, s, job, now, entropy);
            TablesOk(su.env, o.state) && RoundMove(su.env, s, o.state, Submit(job.node, job.rid, job.sub), o.response, now)
  {
    var request := Submit(job.node, job.rid, job.sub);
    var o := Attempt(su, s, job, now, entropy);
    SubmitMoved(su.env, s, job.identity, job.node, job.rid, job.sub, now, entropy);
    TablesStayOk(su.env, s, o.state, Admitted(su.env, s, Call(job.identity, request), now), request, o.response, now);
  }

  /** A delivery that fails no other check is refused for its shape exactly when some update pending at
      that moment has another length; without durability, only when it would close the round. */
  lemma RefusedForShapeExactly(su: Setup, s: State, job: Job, now: Time, entropy: Option<Entropy>, after: Time)
    requires Sound(su) && Wf(su.env, s) && now > 0 && Reaches(su, s, job, now, entropy)
    ensures RefusedForShape(su, Attempt(su, s, job, now, entropy), after) <==>
            !Uniform(s.pending, Length(su, job)) && (su.durable || |s.pending| + 1 >= su.env.minUpdates)
  {
    var o := Attempt(su, s, job, now, entropy);
    ReachesJoins(su, s, job, now, entropy);
    JoinedShapeExactly(su.env, s.model, s.pending, job.node, Incoming(su, job, entropy.value), now);
    AttemptStaysOk(su, s, job, now, entropy);
    CaptureValid(su.env, o.state, after);
  }

  /** A delivery that does not reach the round is rejected, but not for its shape. */
  lemma OnlyJoinsRefuse(su: Setup, s: State, job: Job, now: Time, entropy: Option<Entropy>)
    requires HeaderCheck(su, job).None? && !Reaches(su, s, job, now, entropy)
    ensures Attempt(su, s, job, now, entropy).response.Rejected?
    ensures Attempt(su, s, job, now, entropy).response != Rejected(AggregationFailed)
  {
  }

  /** A checked submission is not refused for its shape, unless a rollback brought updates back after
      the check or two manifests collide. */
  lemma CheckedIsNotRefused(su: Setup, s: Stack, m: Move)
    requires Sound(su) && Inv(su, s) && m.Deliver? && Enabled(s, m) && !s.flight.revived
    ensures RefusedForShape(su, Attempt(su, s.mem, s.flight.job, m.clock.now, m.entropy), m.clock.after) ==> Collides(su, s, m)
  {
    var job, now := s.flight.job, m.clock.now;
    if Reaches(su, s.mem, job, now, m.entropy) {
      CheckedIsUniform(su, s, m);
      RefusedForShapeExactly(su, s.mem, job, now, m.entropy, m.clock.after);
    } else {
      OnlyJoinsRefuse(su, s.mem, job, now, m.entropy);
    }
  }

  /** Whatever is delivered, a durable coordinator stays well formed. */
  lemma DurableDeliveryKeeps(su: Setup, s: State, o: Outcome, clock: Clock, ok: bool)
    requires su.durable && Wf(su.env, s) && TablesOk(su.env, o.state) && Ticks(clock)
    requires o.response.Rejected? ==> LengthsAgree(su.env, o.state.model, o.state.pending)
    ensures Wf(su.env, Delivered(su, s, o, clock, ok))
  {
    CaptureValid(su.env, o.state, clock.after);
    Restored(su.env, s, clock.before, clock.restored);
  }

  /** A plain one does unless manifests collide. */
  lemma PlainDeliveryKeeps(su: Setup, s: Stack, m: Move)
    requires Sound(su) && Inv(su, s) && m.Deliver? && Enabled(s, m) && !s.flight.revived
    ensures var o := Attempt(su, s.mem, s.flight.job, m.clock.now, m.entropy);
            !o.response.Rejected? && !LengthsAgree(su.env, o.state.model, o.state.pending) ==> Collides(su, s, m)
  {
    var job, now := s.flight.job, m.clock.now;
    if Reaches(su, s.mem, job, now, m.entropy) {
      CheckedIsUniform(su, s, m);
      ReachesJoins(su, s.mem, job, now, m.entropy);
      JoinedShapeExactly(su.env, s.mem.model, s.mem.pending, job.node, Incoming(su, job, m.entropy.value), now);
    } else {
      OnlyJoinsRefuse(su, s.mem, job, now, m.entropy);
    }
  }

  lemma RejectedRound(su: Setup, s: State, job: Job, now: Time, entropy: Option<Entropy>)
    requires Sound(su) && Wf(su.env, s) && now > 0 && Attempt(su, s, job, now, entropy).response.Rejected?
    ensures Wf(su.env, Attempt(su, s, job, now, entropy).state)
  {
    AttemptStaysOk(su, s, job, now, entropy);
  }

  lemma DeliveredStaysWf(su: Setup, s: State, job: Job, clock: Clock, entropy: Option<Entropy>, ok: bool)
    requires Sound(su) && Wf(su.env, s) && Ticks(clock)
    ensures var o := Attempt(su, s, job, clock.now, entropy);
            || Wf(su.env, Delivered(su, s, o, clock, ok))
            || (!su.durable && !o.response.Rejected? && !LengthsAgree(su.env, o.state.model, o.state.pending))
  {
    var o := Attempt(su, s, job, clock.now, entropy);
    AttemptStaysOk(su, s, job, clock.now, entropy);
    if o.response.Rejected? {
      RejectedRound(su, s, job, clock.now, entropy);
    }
    if su.durable {
      DurableDeliveryKeeps(su, s, o, clock, ok);
    }
  }

  lemma DeliverKeeps(su: Setup, s: Stack, m: Move)
    requires Sound(su) && Inv(su, s) && m.Deliver? && Enabled(s, m)
    ensures Inv(su, Apply(su, s, m)) || (!su.durable && Collides(su, s, m))
  {
    DeliveredStaysWf(su, s.mem, s.flight.job, m.clock, m.entropy, m.ok);
    if !su.durable {
      PlainDeliveryKeeps(su, s, m);
    }
  }

  lemma MoveKeeps(su: Setup, s: Stack, m: Move)
    requires Sound(su) && Inv(su, s) && Enabled(s, m)
    ensures Inv(su, Apply(su, s, m)) || (!su.durable && Collides(su, s, m))
  {
    match m
    case Begin(_, _, _, _) => BeginKeeps(su, s, m);
    case Settle(_, _) => SettleKeeps(su, s, m);
    case Deliver(_, _, _) => DeliverKeeps(su, s, m);
    case _ => ReadsKeep(su, s, m);
  }

  // ----- whole runs

  /** A starting state and the moves made since. */
  datatype Past = Start(state: State) | After(past: Past, move: Move)

  ghost predicate Possible(su: Setup, p: Past)
    decreases p, 0
  {
    match p
    case Start(s) => Wf(su.env, s)
    case After(q, m) => Possible(su, q) && Enabled(Now(su, q), m)
  }

  ghost function Now(su: Setup, p: Past): Stack
    requires Possible(su, p)
    decreases p, 1
  {
    match p
    case Start(s) => Stack(s, None, Idle)
    case After(q, m) => Apply(su, Now(su, q), m)
  }

  /** Everything up to `q` happened before the end of `p`, or is `p` itself. */
  predicate UpTo(q: Past, p: Past)
  {
    q == p || (p.After? && UpTo(q, p.past))
  }

  /** `p` ends with a delivery whose length collides with that of the pending update `k`. */
  ghost predicate EndsColliding(su: Setup, p: Past, k: string)
  {
    Possible(su, p) && p.After? && CollidesWith(su, Now(su, p.past), p.move, k)
  }

  /** Unless deliveries collide, as at the end of the returned part of the past, the invariant holds. */
  lemma {:induction false} PastKeepsInv(su: Setup, p: Past) returns (q: Past, k: string)
    requires Sound(su) && Possible(su, p)
    ensures Inv(su, Now(su, p)) || (!su.durable && UpTo(q, p) && EndsColliding(su, q, k))
  {
    q, k := p, "";
    if p.After? {
      q, k := PastKeepsInv(su, p.past);
      if Inv(su, Now(su, p.past)) {
        MoveKeeps(su, Now(su, p.past), p.move);
        if !Inv(su, Now(su, p)) {
          q := p;
          k :| CollidesWith(su, Now(su, p.past), p.move, k);
        }
      }
    }
  }

  /** In every run the pending vectors and the model have one length at all times. Without durability,
      two lengths whose manifests collide are the only way out. */
  lemma LengthsAlwaysAgree(su: Setup, p: Past) returns (q: Past, k: string)
    requires Sound(su) && Possible(su, p)
    ensures var s := Now(su, p).mem;
            LengthsAgree(su.env, s.model, s.pending) || (!su.durable && UpTo(q, p) && EndsColliding(su, q, k))
  {
    q, k := PastKeepsInv(su, p);
  }

  /** The submission that `m` delivers is refused for its shape. */
  ghost predicate Refused(su: Setup, s: Stack, m: Move)
    requires m.Deliver? && s.flight.Cleared?
  {
    RefusedForShape(su, Attempt(su, s.mem, s.flight.job, m.clock.now, m.entropy), m.clock.after)
  }

  /** In every run a submission that passed the checks is not refused for its shape, unless a rolled
      back call brought updates back after its check, or manifests collide. */
  lemma CheckedSubmissionsAggregate(su: Setup, p: Past) returns (q: Past, k: string)
    requires Sound(su) && Possible(su, p) && p.After? && p.move.Deliver?
    ensures Refused(su, Now(su, p.past), p.move) ==>
            Now(su, p.past).flight.revived || (UpTo(q, p) && EndsColliding(su, q, k))
  {
    var s := Now(su, p.past);
    q, k := PastKeepsInv(su, p.past);
    if Inv(su, s) && !s.flight.revived {
      CheckedIsNotRefused(su, s, p.move);
      if Collides(su, s, p.move) {
        q := p;
        k :| CollidesWith(su, s, p.move, k);
      }
    }
  }

  /** Updates come back only through the rollback of a call during which they were read. */
  lemma {:induction false} RevivedByRollback(su: Setup, p: Past) returns (q: Past)
    requires Possible(su, p) && Now(su, p).flight.Cleared? && Now(su, p).flight.revived
    ensures UpTo(q, p) && q.After? && q.move.Settle? && !q.move.ok && Possible(su, q)
    ensures var s := Now(su, q.past);
            s.flight.Cleared? && s.flight.during && s.open.Some? && s.open.value.before.pending != s.mem.pending
  {
    assert p.After?;
    var s := Now(su, p.past);
    if s.flight.Cleared? && s.flight.revived {
      q := RevivedByRollback(su, p.past);
    } else {
      q := p;
    }
  }

  // ----- the one interleaving

  /** Access at `now` means access at any earlier time, also after a reload then. */
  lemma AccessBefore(su: Setup, regs: Leases, job: Job, t: Time, now: Time)
    requires t <= now && AccessFault(su.env, regs, job.identity, job.node, job.rid, now).None?
    ensures AccessFault(su.env, regs, job.identity, job.node, job.rid, t).None?
    ensures AccessFault(su.env, LiveLeases(LiveLeases(regs, t), t), job.identity, job.node, job.rid, now).None?
  {
  }

  /** What a submission needs at `now` it still has after a reload before `now`. */
  lemma ReachesAfterReload(su: Setup, s: State, job: Job, t: Time, now: Time, entropy: Option<Entropy>)
    requires Wf(su.env, s) && t <= now && Reaches(su, s, job, now, entropy)
    ensures Reaches(su, Restore(Capture(s, t), t), job, now, entropy)
    ensures AccessFault(su.env, s.regs, job.identity, job.node, job.rid, t).None?
  {
    AccessBefore(su, s.regs, job, t, now);
    ReloadIs(su.env, s, t, t);
  }

  /** One pending update has another length than the submission, and `revoke` would take it away. */
  ghost predicate Staged(su: Setup, s: State, job: Job, revoke: Call, k: string, t: Time)
  {
    && su.durable && Wf(su.env, s) && s.model.payload == [] && s.pending.Keys == {k} && su.env.minUpdates == 2
    && HeaderCheck(su, job).None? && |s.pending[k].values| != Length(su, job)
    && t > 0 && revoke.request.Revoke?
    && var r := Step(su.env, s, revoke, t, None).response; r.Revoked? && r.target == k
  }

  lemma EmptiedInBetween(su: Setup, s: State, job: Job, revoke: Call, k: string, t: Time)
    requires Sound(su) && Staged(su, s, job, revoke, k, t)
    ensures Step(su.env, s, revoke, t, None).state.pending == map[]
  {
    var emptied := Step(su.env, s, revoke, t, None).state;
    StepMoved(su.env, s, revoke, t, None);
    assert emptied.pending.Keys == {};
  }

  /** Without the interleaving the check stops the submission. */
  lemma StoppedOtherwise(su: Setup, s: State, job: Job, revoke: Call, k: string, t: Time)
    requires Staged(su, s, job, revoke, k, t) && !SchemaCollision(su.env, |s.pending[k].values|, Length(su, job))
    ensures PendingStop(su.env, s.pending, job.header.schema) == Some(PendingConflict)
  {
    var n := |s.pending[k].values|;
    assert k in s.pending && PendingLength(s.pending, n);
    forall l | PendingLength(s.pending, l) ensures l == n {
    }
    if Schema(su.env, n) == job.header.schema {
      SameSchemaSameLength(su.env, n, Length(su, job));
    }
  }

  /** One more move. */
  ghost predicate Goes(su: Setup, p: Past, m: Move, s: Stack)
  {
    Possible(su, After(p, m)) && Now(su, After(p, m)) == s
  }

  lemma ArriveGoes(su: Setup, p: Past, s: State, job: Job)
    requires Possible(su, p) && Now(su, p) == Stack(s, None, Idle) && HeaderCheck(su, job).None?
    ensures Goes(su, p, Arrive(job), Stack(s, None, Checked(job)))
  {
  }

  lemma ReadModelGoes(su: Setup, p: Past, s: State, job: Job, t: Time)
    requires Possible(su, p) && Now(su, p) == Stack(s, None, Checked(job)) && s.model.payload == []
    requires AccessFault(su.env, s.regs, job.identity, job.node, job.rid, t).None?
    ensures Goes(su, p, ReadModel(t), Stack(s, None, NeedsPending(job)))
  {
  }

  lemma RevokeGoes(su: Setup, p: Past, s: State, f: Flight, revoke: Call, t: Time)
    requires Possible(su, p) && Now(su, p) == Stack(s, None, f) && su.durable && t > 0
    requires revoke.request.Revoke? && !Step(su.env, s, revoke, t, None).response.Rejected?
    ensures Goes(su, p, Begin(revoke, t, t, None), Stack(Step(su.env, s, revoke, t, None).state, Some(Unsettled(s, t)), f))
  {
  }

  lemma ReadPendingGoes(su: Setup, p: Past, s: State, open: Unsettled, job: Job)
    requires Possible(su, p) && Now(su, p) == Stack(s, Some(open), NeedsPending(job)) && s.pending == map[]
    ensures Goes(su, p, ReadPending, Stack(s, Some(open), Cleared(job, true, false)))
  {
    NothingPending(su.env, job.header.schema);
  }

  lemma RollbackGoes(su: Setup, p: Past, s: State, mem: State, job: Job, t: Time)
    requires Possible(su, p) && Now(su, p) == Stack(mem, Some(Unsettled(s, t)), Cleared(job, true, false)) && mem.pending != s.pending
    ensures Goes(su, p, Settle(false, t), Stack(Restore(Capture(s, t), t), None, Cleared(job, false, true)))
  {
  }

  /** The submission reads the model, then a revocation takes the only pending update away. */
  lemma FirstHalf(su: Setup, s: State, job: Job, revoke: Call, k: string, t: Time) returns (p: Past)
    requires Staged(su, s, job, revoke, k, t) && AccessFault(su.env, s.regs, job.identity, job.node, job.rid, t).None?
    ensures p == After(After(After(Start(s), Arrive(job)), ReadModel(t)), Begin(revoke, t, t, None)) && Possible(su, p)
    ensures Now(su, p) == Stack(Step(su.env, s, revoke, t, None).state, Some(Unsettled(s, t)), NeedsPending(job))
  {
    ArriveGoes(su, Start(s), s, job);
    ReadModelGoes(su, After(Start(s), Arrive(job)), s, job, t);
    p := After(After(Start(s), Arrive(job)), ReadModel(t));
    RevokeGoes(su, p, s, NeedsPending(job), revoke, t);
    p := After(p, Begin(revoke, t, t, None));
  }

  /** The submission reads that nothing is pending, then the revocation is rolled back. */
  lemma SecondHalf(su: Setup, p: Past, s: State, mem: State, job: Job, t: Time)
    requires Possible(su, p) && Now(su, p) == Stack(mem, Some(Unsettled(s, t)), NeedsPending(job))
    requires mem.pending == map[] && s.pending != map[]
    ensures Goes(su, After(p, ReadPending), Settle(false, t), Stack(Restore(Capture(s, t), t), None, Cleared(job, false, true)))
  {
    ReadPendingGoes(su, p, mem, Unsettled(s, t), job);
    RollbackGoes(su, After(p, ReadPending), s, mem, job, t);
  }

  /** A pending update of another length makes a closing delivery fail. */
  lemma RefusedAtQuorum(su: Setup, s: State, job: Job, k: string, now: Time, entropy: Option<Entropy>)
    requires Sound(su) && Wf(su.env, s) && Reaches(su, s, job, now, entropy)
    requires |s.pending| + 1 >= su.env.minUpdates && k in s.pending && |s.pending[k].values| != Length(su, job)
    ensures Attempt(su, s, job, now, entropy).response == Rejected(AggregationFailed)
  {
    ReachesJoins(su, s, job, now, entropy);
    JoinedShapeExactly(su.env, s.model, s.pending, job.node, Incoming(su, job, entropy.value), now);
  }

  lemma RefusedAfterReload(su: Setup, s: State, job: Job, revoke: Call, k: string, t: Time, now: Time, entropy: Option<Entropy>)
    requires Sound(su) && Staged(su, s, job, revoke, k, t) && t <= now && Reaches(su, s, job, now, entropy)
    ensures Attempt(su, Restore(Capture(s, t), t), job, now, entropy).response == Rejected(AggregationFailed)
  {
    Restored(su.env, s, t, t);
    ReachesAfterReload(su, s, job, t, now, entropy);
    assert |s.pending.Keys| == 1 && k in s.pending;
    RefusedAtQuorum(su, Restore(Capture(s, t), t), job, k, now, entropy);
  }

  /** The checks can be passed in vain: after these moves the delivery is refused by the aggregation. */
  lemma FailingInterleaving(su: Setup, s: State, job: Job, revoke: Call, k: string, t: Time, clock: Clock, entropy: Option<Entropy>)
      returns (p: Past)
    requires Sound(su) && Staged(su, s, job, revoke, k, t) && Ticks(clock) && t <= clock.before
    requires Reaches(su, s, job, clock.now, entropy)
    ensures p == After(After(After(After(After(Start(s), Arrive(job)), ReadModel(t)), Begin(revoke, t, t, None)), ReadPending), Settle(false, t))
    ensures Possible(su, p) && Now(su, p).flight == Cleared(job, false, true) && Enabled(Now(su, p), Deliver(clock, entropy, true))
    ensures Attempt(su, Now(su, p).mem, job, clock.now, entropy).response == Rejected(AggregationFailed)
  {
    ReachesAfterReload(su, s, job, t, clock.now, entropy);
    var half := FirstHalf(su, s, job, revoke, k, t);
    EmptiedInBetween(su, s, job, revoke, k, t);
    assert k in s.pending;
    SecondHalf(su, half, s, Step(su.env, s, revoke, t, None).state, job, t);
    p := After(After(half, ReadPending), Settle(false, t));
    RefusedAfterReload(su, s, job, revoke, k, t, clock.now, entropy);
  }
}
