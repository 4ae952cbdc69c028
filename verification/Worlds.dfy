/** The coordinator process and its store over time: calls with faulty commits, crashes and
    restarts. In every reachable world no acknowledged call is lost. */
module Worlds {
  import opened Text
  import opened Core
  import opened Service
  import opened Snapshots
  import opened History
  import opened Durable
  import opened Subsequences

  datatype World = World(up: bool, mem: State, cell: Option<Snapshot>, now: Time)

  datatype Action = Handle(call: Call, clock: Clock, entropy: Option<Entropy>, first: Fate, second: Fate)
                  | Crash
                  | Restart(restored: Time, captured: Time, fate: Fate)

  /** Loading the store, restoring it, and committing the normalised state. */
  ghost function Restarted(env: Env, w: World, restored: Time, captured: Time, fate: Fate): World
  {
    if w.cell.None? || !Restorable(env, w.cell.value) then w
    else
      var mem := Restore(w.cell.value, restored);
      var c := Commit(env, w.cell, Capture(mem, captured), fate);
      World(c.ok, mem, c.cell, captured)
  }

  ghost function Act(env: Env, w: World, a: Action): World
  {
    match a
    case Handle(call, clock, entropy, first, second) =>
      if !w.up || !Ticks(clock) || clock.before < w.now then w
      else
        var r := Serve(env, w.mem, w.cell, call, clock, entropy, first, second);
        World(true, r.mem, r.cell, clock.restored)
    case Crash => w.(up := false)
    case Restart(restored, captured, fate) =>
      if w.up || restored < w.now || captured < restored then w else Restarted(env, w, restored, captured, fate)
  }

  // ----- what happened in an execution

  /** The calls acknowledged, and the calls carried out at all, whatever became of their commits. */
  datatype Log = Log(acks: seq<Event>, handled: seq<Event>)

  /** One more call: the step it took, and the answer it got in the end. */
  function Logged(log: Log, step: Event, answer: Response): Log
    requires step.Rpc?
  {
    Log(if step.request.GetModel? || answer.Rejected? then log.acks else log.acks + [step.(response := answer)], log.handled + [step])
  }

  ghost function LogAct(env: Env, w: World, a: Action, log: Log): Log
  {
    match a
    case Handle(call, clock, entropy, first, second) =>
      if !w.up || !Ticks(clock) || clock.before < w.now then log
      else
        Logged(log, StepOf(env, w.mem, call, clock.now, entropy).event,
               Serve(env, w.mem, w.cell, call, clock, entropy, first, second).response)
    case _ => log
  }

  // ----- histories

  ghost predicate All(good: Transition -> bool, run: seq<Transition>)
  {
    forall i :: 0 <= i < |run| ==> good(run[i])
  }

  function Events(run: seq<Transition>): (r: seq<Event>)
    ensures |r| == |run| && forall i :: 0 <= i < |run| ==> r[i] == run[i].event
  {
    seq(|run|, i requires 0 <= i < |run| => run[i].event)
  }

  /** The calls of a run. */
  function Calls(run: seq<Transition>): seq<Event>
  {
    if run == [] then []
    else
      var e := run[|run| - 1].event;
      Calls(run[..|run| - 1]) + if e.Rpc? then [e] else []
  }

  /** The run consists of good transitions, contains every acknowledged call, and makes no call that
      was not carried out. */
  ghost predicate Told(good: Transition -> bool, run: seq<Transition>, log: Log)
  {
    All(good, run) && Embeds(log.acks, Events(run)) && Embeds(Calls(run), log.handled)
  }

  lemma EventsSnoc(run: seq<Transition>, tr: Transition)
    ensures Events(run + [tr]) == Events(run) + [tr.event]
    ensures Calls(run + [tr]) == Calls(run) + if tr.event.Rpc? then [tr.event] else []
  {
    assert (run + [tr])[..|run|] == run;
  }

  lemma ToldCall(good: Transition -> bool, run: seq<Transition>, tr: Transition, log: Log)
    requires Told(good, run, log) && good(tr) && tr.event.Rpc?
    ensures Told(good, run + [tr], Log(log.acks, log.handled + [tr.event]))
    ensures Told(good, run + [tr], Log(log.acks + [tr.event], log.handled + [tr.event]))
  {
    EventsSnoc(run, tr);
    EmbedsMore(log.acks, Events(run), tr.event);
    EmbedsMore(Calls(run), log.handled, tr.event);
  }

  lemma ToldReload(good: Transition -> bool, run: seq<Transition>, tr: Transition, log: Log)
    requires Told(good, run, log) && good(tr) && tr.event.Reload?
    ensures Told(good, run + [tr], log)
  {
    EventsSnoc(run, tr);
    EmbedsMore(log.acks, Events(run), tr.event);
    assert Calls(run + [tr]) == Calls(run);
  }

  lemma ToldLater(good: Transition -> bool, run: seq<Transition>, log: Log, e: Event)
    requires Told(good, run, log)
    ensures Told(good, run, Log(log.acks, log.handled + [e]))
  {
    EmbedsMore(Calls(run), log.handled, e);
  }

  /** The run behind the memory, the run behind the store, and the log. */
  datatype Trail = Trail(mem: seq<Transition>, stored: seq<Transition>, storedAt: Time, log: Log)

  /** The store holds a snapshot, taken at `at`, of the end of a run that tells the log. */
  ghost predicate Backed(env: Env, good: Transition -> bool, s: State, cell: Option<Snapshot>, run: seq<Transition>, at: Time, log: Log)
  {
    && 0 < at && RunFrom(env, s, run, at) && Wf(env, Final(s, run)) && Told(good, run, log)
    && cell == Some(Capture(Final(s, run), at))
  }

  /** So does the memory, while the process is up. */
  ghost predicate Held(env: Env, good: Transition -> bool, s: State, mem: State, run: seq<Transition>, now: Time, log: Log)
  {
    RunFrom(env, s, run, now) && mem == Final(s, run) && Wf(env, mem) && Told(good, run, log)
  }

  ghost predicate Inv(env: Env, good: Transition -> bool, s: State, w: World, h: Trail)
  {
    && h.storedAt <= w.now && Backed(env, good, s, w.cell, h.stored, h.storedAt, h.log)
    && (w.up ==> Held(env, good, s, w.mem, h.mem, w.now, h.log))
  }

  lemma RunLonger(env: Env, s: State, run: seq<Transition>, tr: Transition, t: Time, now: Time)
    requires RunFrom(env, s, run, t) && t <= Start(tr.event) && tr.before == Final(s, run) && Legal(env, tr) && End(tr.event) <= now
    ensures RunFrom(env, s, run + [tr], now) && Final(s, run + [tr]) == tr.after
  {
    Later(env, s, run, t, Start(tr.event));
    Extend(env, s, run, tr, now);
  }

  lemma HeldIsBacked(env: Env, good: Transition -> bool, s: State, mem: State, run: seq<Transition>, at: Time, log: Log)
    requires Held(env, good, s, mem, run, at, log) && at > 0
    ensures Backed(env, good, s, Some(Capture(mem, at)), run, at, log)
  {
  }

  lemma BackedLater(env: Env, good: Transition -> bool, s: State, cell: Option<Snapshot>, run: seq<Transition>, at: Time, log: Log, e: Event)
    requires Backed(env, good, s, cell, run, at, log)
    ensures Backed(env, good, s, cell, run, at, Log(log.acks, log.handled + [e]))
  {
    ToldLater(good, run, log, e);
  }

  /** The memory's run after one more call, acknowledged or not. */
  lemma HeldCall(env: Env, good: Transition -> bool, s: State, run: seq<Transition>, tr: Transition, t: Time, now: Time, log: Log)
    requires Held(env, good, s, tr.before, run, t, log) && t <= Start(tr.event) && good(tr) && tr.event.Rpc?
    requires Legal(env, tr) && Wf(env, tr.after) && End(tr.event) <= now
    ensures Held(env, good, s, tr.after, run + [tr], now, Log(log.acks, log.handled + [tr.event]))
    ensures Held(env, good, s, tr.after, run + [tr], now, Log(log.acks + [tr.event], log.handled + [tr.event]))
  {
    RunLonger(env, s, run, tr, t, now);
    ToldCall(good, run, tr, log);
  }

  lemma HeldReload(env: Env, good: Transition -> bool, s: State, run: seq<Transition>, tr: Transition, t: Time, now: Time, log: Log)
    requires Held(env, good, s, tr.before, run, t, log) && t <= Start(tr.event) && good(tr) && tr.event.Reload?
    requires Legal(env, tr) && Wf(env, tr.after) && End(tr.event) <= now
    ensures Held(env, good, s, tr.after, run + [tr], now, log)
  {
    RunLonger(env, s, run, tr, t, now);
    ToldReload(good, run, tr, log);
  }

  lemma HeldLater(env: Env, good: Transition -> bool, s: State, mem: State, run: seq<Transition>, t: Time, now: Time, log: Log, e: Event)
    requires Held(env, good, s, mem, run, t, log) && t <= now
    ensures Held(env, good, s, mem, run, now, log) && Held(env, good, s, mem, run, now, Log(log.acks, log.handled + [e]))
  {
    Later(env, s, run, t, now);
    ToldLater(good, run, log, e);
  }

  // ----- one call

  /** A call that commits nothing only lengthens the memory's run. */
  lemma UncommittedCall(env: Env, good: Transition -> bool, s: State, w: World, h: Trail, tr: Transition, clock: Clock) returns (k: Trail)
    requires Inv(env, good, s, w, h) && w.up && Ticks(clock) && w.now <= clock.before && good(tr)
    requires Legal(env, tr) && tr.event.Rpc? && tr.event.now == clock.now && tr.before == w.mem && Wf(env, tr.after)
    ensures Inv(env, good, s, World(true, tr.after, w.cell, clock.restored), k)
    ensures k.log == Log(h.log.acks, h.log.handled + [tr.event])
  {
    HeldCall(env, good, s, h.mem, tr, w.now, clock.restored, h.log);
    BackedLater(env, good, s, w.cell, h.stored, h.storedAt, h.log, tr.event);
    k := Trail(h.mem + [tr], h.stored, h.storedAt, Log(h.log.acks, h.log.handled + [tr.event]));
  }

  lemma AcknowledgedCall(env: Env, good: Transition -> bool, s: State, w: World, h: Trail, tr: Transition, clock: Clock) returns (k: Trail)
    requires Inv(env, good, s, w, h) && w.up && Ticks(clock) && w.now <= clock.before && good(tr)
    requires Legal(env, tr) && tr.event.Rpc? && tr.event.now == clock.now && tr.before == w.mem && Wf(env, tr.after)
    ensures Inv(env, good, s, World(true, tr.after, Some(Capture(tr.after, clock.after)), clock.restored), k)
    ensures k.log == Log(h.log.acks + [tr.event], h.log.handled + [tr.event])
  {
    var run, log := h.mem + [tr], Log(h.log.acks + [tr.event], h.log.handled + [tr.event]);
    HeldCall(env, good, s, h.mem, tr, w.now, clock.after, h.log);
    HeldIsBacked(env, good, s, tr.after, run, clock.after, log);
    Later(env, s, run, clock.after, clock.restored);
    k := Trail(run, run, clock.after, log);
  }

  /** The store after a rollback: untouched, the state before, or the state after. */
  lemma StoreAfterRollback(env: Env, good: Transition -> bool, s: State, w: World, h: Trail, tr: Transition, clock: Clock, cell: Option<Snapshot>)
    returns (stored: seq<Transition>, at: Time)
    requires Inv(env, good, s, w, h) && w.up && Ticks(clock) && w.now <= clock.before && good(tr)
    requires Legal(env, tr) && tr.event.Rpc? && tr.event.now == clock.now && tr.before == w.mem
    requires cell == w.cell || cell == Some(Capture(w.mem, clock.before))
             || (cell == Some(Capture(tr.after, clock.after)) && Wf(env, tr.after))
    ensures at <= clock.restored && Backed(env, good, s, cell, stored, at, Log(h.log.acks, h.log.handled + [tr.event]))
  {
    if cell == w.cell {
      stored, at := h.stored, h.storedAt;
      BackedLater(env, good, s, cell, stored, at, h.log, tr.event);
    } else if cell == Some(Capture(w.mem, clock.before)) {
      stored, at := h.mem, clock.before;
      HeldLater(env, good, s, w.mem, h.mem, w.now, at, h.log, tr.event);
      HeldIsBacked(env, good, s, w.mem, h.mem, at, Log(h.log.acks, h.log.handled + [tr.event]));
    } else {
      stored, at := h.mem + [tr], clock.after;
      HeldCall(env, good, s, h.mem, tr, w.now, at, h.log);
      HeldIsBacked(env, good, s, tr.after, stored, at, Log(h.log.acks, h.log.handled + [tr.event]));
    }
  }

  /** After a rollback the memory is a reload of what it was, and the store one of three states. */
  lemma RolledBackCall(env: Env, good: Transition -> bool, s: State, w: World, h: Trail, tr: Transition, clock: Clock, cell: Option<Snapshot>)
    returns (k: Trail)
    requires Inv(env, good, s, w, h) && w.up && Ticks(clock) && w.now <= clock.before
    requires good(tr) && good(ReloadOf(w.mem, clock.before, clock.restored))
    requires Legal(env, tr) && tr.event.Rpc? && tr.event.now == clock.now && tr.before == w.mem
    requires cell == w.cell || cell == Some(Capture(w.mem, clock.before))
             || (cell == Some(Capture(tr.after, clock.after)) && Wf(env, tr.after))
    ensures Inv(env, good, s, World(true, Restore(Capture(w.mem, clock.before), clock.restored), cell, clock.restored), k)
    ensures k.log == Log(h.log.acks, h.log.handled + [tr.event])
  {
    var reload, log := ReloadOf(w.mem, clock.before, clock.restored), Log(h.log.acks, h.log.handled + [tr.event]);
    ReloadIsLegal(env, w.mem, clock.before, clock.restored);
    HeldLater(env, good, s, w.mem, h.mem, w.now, w.now, h.log, tr.event);
    HeldReload(env, good, s, h.mem, reload, w.now, clock.restored, log);
    var stored, at := StoreAfterRollback(env, good, s, w, h, tr, clock, cell);
    k := Trail(h.mem + [reload], stored, at, log);
  }

  // ----- restarting

  lemma RestartedIs(env: Env, w: World, snap: Snapshot, mem: State, restored: Time, captured: Time, fate: Fate)
    requires w.cell == Some(snap) && Restorable(env, snap) && mem == Restore(snap, restored) && Valid(env, Capture(mem, captured))
    ensures Restarted(env, w, restored, captured, fate) ==
            World(fate.Healthy?, mem, if fate.FailsBefore? then w.cell else Some(Capture(mem, captured)), captured)
  {
  }

  lemma StoredRunReloads(env: Env, good: Transition -> bool, s: State, run: seq<Transition>, at: Time, restored: Time, captured: Time,
                         log: Log, reload: Transition)
    requires Backed(env, good, s, Some(Capture(Final(s, run), at)), run, at, log) && at <= restored <= captured
    requires reload == ReloadOf(Final(s, run), at, restored) && good(reload)
    ensures Held(env, good, s, reload.after, run + [reload], captured, log)
  {
    ReloadIsLegal(env, Final(s, run), at, restored);
    HeldReload(env, good, s, run, reload, at, captured, log);
  }

  /** A restart reloads the run behind the store; if its own commit fails the process stays down
      and can try again. */
  lemma RestartKeeps(env: Env, good: Transition -> bool, s: State, w: World, h: Trail, restored: Time, captured: Time, fate: Fate)
    returns (k: Trail)
    requires Inv(env, good, s, w, h) && !w.up && w.now <= restored <= captured
    requires good(ReloadOf(Final(s, h.stored), h.storedAt, restored))
    ensures Inv(env, good, s, Restarted(env, w, restored, captured, fate), k) && k.log == h.log
  {
    var snap, reload := Capture(Final(s, h.stored), h.storedAt), ReloadOf(Final(s, h.stored), h.storedAt, restored);
    var mem, run := reload.after, h.stored + [reload];
    StoredRunReloads(env, good, s, h.stored, h.storedAt, restored, captured, h.log, reload);
    assert Restorable(env, snap) && Valid(env, Capture(mem, captured)) by {
      CaptureRestorable(env, Final(s, h.stored), h.storedAt);
      CaptureRestorable(env, mem, captured);
    }
    RestartedIs(env, w, snap, mem, restored, captured, fate);
    k := RestartTrail(env, good, s, w, h, mem, run, captured, fate);
  }

  lemma RestartTrail(env: Env, good: Transition -> bool, s: State, w: World, h: Trail, mem: State, run: seq<Transition>, captured: Time, fate: Fate)
    returns (k: Trail)
    requires Inv(env, good, s, w, h) && w.now <= captured && Held(env, good, s, mem, run, captured, h.log)
    ensures Inv(env, good, s, World(fate.Healthy?, mem, if fate.FailsBefore? then w.cell else Some(Capture(mem, captured)), captured), k)
    ensures k.log == h.log
  {
    HeldIsBacked(env, good, s, mem, run, captured, h.log);
    k := if fate.FailsBefore? then h else Trail(run, run, captured, h.log);
  }

  // ----- every action

  /** With a commit, which may fail. */
  lemma ServeCommitted(env: Env, good: Transition -> bool, s: State, w: World, h: Trail, clock: Clock, first: Fate, second: Fate,
                       o: Outcome, tr: Transition) returns (k: Trail)
    requires Inv(env, good, s, w, h) && w.up && Ticks(clock) && w.now <= clock.before
    requires good(tr) && good(ReloadOf(w.mem, clock.before, clock.restored))
    requires tr.before == w.mem && tr.after == o.state && tr.event.Rpc? && tr.event.now == clock.now && tr.event.response == o.response
    requires Legal(env, tr) && TablesOk(env, tr.after) && !tr.event.request.GetModel? && !o.response.Rejected?
    ensures var r := Finish(env, w.cell, Capture(w.mem, clock.before), o, clock, first, second);
            Inv(env, good, s, World(true, r.mem, r.cell, clock.restored), k) && k.log == Logged(h.log, tr.event, r.response)
  {
    var r := Finish(env, w.cell, Capture(w.mem, clock.before), o, clock, first, second);
    FinishIsAtomic(env, w.mem, w.cell, o, clock, first, second);
    k := FinishTrail(env, good, s, w, h, clock, o, tr, r);
  }

  lemma FinishTrail(env: Env, good: Transition -> bool, s: State, w: World, h: Trail, clock: Clock, o: Outcome, tr: Transition, r: Served)
    returns (k: Trail)
    requires Inv(env, good, s, w, h) && w.up && Ticks(clock) && w.now <= clock.before
    requires good(tr) && good(ReloadOf(w.mem, clock.before, clock.restored))
    requires tr.before == w.mem && tr.after == o.state && tr.event.Rpc? && tr.event.now == clock.now
    requires tr.event.response == o.response && !tr.event.request.GetModel?
    requires Legal(env, tr) && Atomic(env, w.mem, w.cell, o, clock, r)
    ensures Inv(env, good, s, World(true, r.mem, r.cell, clock.restored), k)
    ensures k.log == Logged(h.log, tr.event, r.response)
  {
    if !r.response.Rejected? {
      assert r.mem == tr.after && r.cell == Some(Capture(tr.after, clock.after)) && Wf(env, tr.after);
      k := AcknowledgedCall(env, good, s, w, h, tr, clock);
    } else {
      assert r.mem == Restore(Capture(w.mem, clock.before), clock.restored);
      k := RolledBackCall(env, good, s, w, h, tr, clock, r.cell);
    }
  }

  /** Without a commit. */
  lemma ServeUncommitted(env: Env, good: Transition -> bool, s: State, w: World, h: Trail, clock: Clock, o: Outcome, tr: Transition) returns (k: Trail)
    requires Inv(env, good, s, w, h) && w.up && Ticks(clock) && w.now <= clock.before && good(tr)
    requires tr.before == w.mem && tr.after == o.state && tr.event.Rpc? && tr.event.now == clock.now && tr.event.response == o.response
    requires Legal(env, tr) && TablesOk(env, tr.after) && (tr.event.request.GetModel? || o.response.Rejected?)
    ensures Inv(env, good, s, World(true, o.state, w.cell, clock.restored), k) && k.log == Logged(h.log, tr.event, o.response)
  {
    UncommittedStaysWf(env, tr);
    k := UncommittedCall(env, good, s, w, h, tr, clock);
  }

  /** Every transition the coordinator really makes is good. */
  ghost predicate Admits(env: Env, good: Transition -> bool)
  {
    && (forall s, call, now, entropy :: good(StepOf(env, s, call, now, entropy)))
    && (forall s, captured, restored :: good(ReloadOf(s, captured, restored)))
  }

  lemma ServeKeeps(env: Env, good: Transition -> bool, s: State, w: World, h: Trail, call: Call, clock: Clock, entropy: Option<Entropy>,
                   first: Fate, second: Fate) returns (k: Trail)
    requires TextSound(env) && CodecSound(env) && Admits(env, good)
    requires Inv(env, good, s, w, h) && w.up && Ticks(clock) && w.now <= clock.before
    ensures var r := Serve(env, w.mem, w.cell, call, clock, entropy, first, second);
            && Inv(env, good, s, World(true, r.mem, r.cell, clock.restored), k)
            && k.log == Logged(h.log, StepOf(env, w.mem, call, clock.now, entropy).event, r.response)
  {
    var o, tr := Step(env, w.mem, call, clock.now, entropy), StepOf(env, w.mem, call, clock.now, entropy);
    CallIsLegal(env, w.mem, call, clock.now, entropy);
    assert good(tr) && good(ReloadOf(w.mem, clock.before, clock.restored));
    if call.request.GetModel? || o.response.Rejected? {
      k := ServeUncommitted(env, good, s, w, h, clock, o, tr);
    } else {
      k := ServeCommitted(env, good, s, w, h, clock, first, second, o, tr);
    }
  }

  lemma HandleActKeeps(env: Env, good: Transition -> bool, s: State, w: World, h: Trail, a: Action) returns (k: Trail)
    requires TextSound(env) && CodecSound(env) && Admits(env, good) && Inv(env, good, s, w, h) && a.Handle?
    ensures Inv(env, good, s, Act(env, w, a), k) && k.log == LogAct(env, w, a, h.log)
  {
    k := h;
    if w.up && Ticks(a.clock) && w.now <= a.clock.before {
      k := ServeKeeps(env, good, s, w, h, a.call, a.clock, a.entropy, a.first, a.second);
      var r := Serve(env, w.mem, w.cell, a.call, a.clock, a.entropy, a.first, a.second);
      assert Act(env, w, a) == World(true, r.mem, r.cell, a.clock.restored);
    }
  }

  lemma RestartActKeeps(env: Env, good: Transition -> bool, s: State, w: World, h: Trail, a: Action) returns (k: Trail)
    requires Admits(env, good) && Inv(env, good, s, w, h) && a.Restart?
    ensures Inv(env, good, s, Act(env, w, a), k) && k.log == h.log
  {
    k := h;
    if !w.up && w.now <= a.restored <= a.captured {
      assert good(ReloadOf(Final(s, h.stored), h.storedAt, a.restored));
      k := RestartKeeps(env, good, s, w, h, a.restored, a.captured, a.fate);
    }
  }

  lemma ActKeeps(env: Env, good: Transition -> bool, s: State, w: World, h: Trail, a: Action) returns (k: Trail)
    requires TextSound(env) && CodecSound(env) && Admits(env, good) && Inv(env, good, s, w, h)
    ensures Inv(env, good, s, Act(env, w, a), k) && k.log == LogAct(env, w, a, h.log)
  {
    match a
    case Handle(_, _, _, _, _) => k := HandleActKeeps(env, good, s, w, h, a);
    case Crash => k := h;
    case Restart(_, _, _) => k := RestartActKeeps(env, good, s, w, h, a);
  }

  // ----- whole executions

  ghost function Execute(env: Env, w: World, actions: seq<Action>): World
  {
    if actions == [] then w else Act(env, Execute(env, w, actions[..|actions| - 1]), actions[|actions| - 1])
  }

  /** Everything acknowledged, and everything carried out, in order. */
  ghost function LogOf(env: Env, w: World, actions: seq<Action>): Log
  {
    if actions == [] then Log([], [])
    else
      var shorter := actions[..|actions| - 1];
      LogAct(env, Execute(env, w, shorter), actions[|actions| - 1], LogOf(env, w, shorter))
  }

  /** A freshly initialised coordinator. */
  ghost predicate Initial(env: Env, s: State, w: World)
  {
    Wf(env, s) && w.now > 0 && w == World(true, s, Some(Capture(s, w.now)), w.now)
  }

  lemma {:induction false} ExecutionIsTold(env: Env, good: Transition -> bool, s: State, w: World, actions: seq<Action>) returns (h: Trail)
    requires TextSound(env) && CodecSound(env) && Admits(env, good) && Initial(env, s, w)
    ensures Inv(env, good, s, Execute(env, w, actions), h) && h.log == LogOf(env, w, actions)
  {
    if actions == [] {
      h := Trail([], [], w.now, Log([], []));
    } else {
      var n := |actions| - 1;
      h := ExecutionIsTold(env, good, s, w, actions[..n]);
      h := ActKeeps(env, good, s, Execute(env, w, actions[..n]), h, actions[n]);
    }
  }

  ghost function GenuineIn(env: Env): Transition -> bool
  {
    tr => Genuine(env, tr)
  }

  lemma GenuineAdmits(env: Env)
    ensures Admits(env, GenuineIn(env))
  {
    forall s, call, now, entropy ensures GenuineIn(env)(StepOf(env, s, call, now, entropy)) {
      StepIsGenuine(env, s, call, now, entropy);
    }
  }

  lemma StepIsGenuine(env: Env, s: State, call: Call, now: Time, entropy: Option<Entropy>)
    ensures Genuine(env, StepOf(env, s, call, now, entropy))
  {
    var tr := StepOf(env, s, call, now, entropy);
    assert tr == StepOf(env, tr.before, call, now, entropy);
  }

  /** Through any sequence of calls, commit faults, crashes and restarts: what is in the store, and
      what is in memory while the process is up, is the end of a run of steps the service really
      takes and of reloads. The run contains every call acknowledged so far, in order, and no call
      that was not carried out. */
  lemma NothingAcknowledgedIsLost(env: Env, s: State, w: World, actions: seq<Action>) returns (h: Trail)
    requires TextSound(env) && CodecSound(env) && Initial(env, s, w)
    ensures Inv(env, GenuineIn(env), s, Execute(env, w, actions), h) && h.log == LogOf(env, w, actions)
  {
    GenuineAdmits(env);
    h := ExecutionIsTold(env, GenuineIn(env), s, w, actions);
  }
}
