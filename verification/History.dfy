/** Runs of the coordinator: calls and reloads (a snapshot taken and later restored, by a rollback
    or a restart), in nondecreasing time. */
module History {
  import opened Text
  import opened Core
  import opened Registry
  import opened Service
  import opened Moves
  import opened Snapshots

  /** `admitted` says whether a submission passed the rate limit. */
  datatype Event = Rpc(request: Request, now: Time, admitted: bool, response: Response)
                 | Reload(captured: Time, restored: Time)

  datatype Transition = Transition(before: State, event: Event, after: State)

  function Start(e: Event): Time
  {
    match e case Rpc(_, now, _, _) => now case Reload(captured, _) => captured
  }

  function End(e: Event): Time
  {
    match e case Rpc(_, now, _, _) => now case Reload(_, restored) => restored
  }

  /** A reload keeps the round and everything live; nothing new appears. */
  ghost predicate Reloaded(env: Env, s: State, t: State, restored: Time)
  {
    && t.model == s.model && t.pending == s.pending
    && LeasesMove(env, s.regs, t.regs, restored) && KeepsLive(s.regs, t.regs, restored) && NoNewOrphans(s, t)
    && KeepsNonces(s.nonces, t.nonces, restored) && AddsOnly(s.nonces, t.nonces, None, restored)
    && (forall n :: n in t.rates ==> n in s.rates && t.rates[n] == s.rates[n])
    && (forall n :: n in s.rates && LiveWindow(s.rates[n], restored) ==> n in t.rates)
  }

  ghost predicate Legal(env: Env, tr: Transition)
  {
    match tr.event
    case Rpc(request, now, admitted, response) => now > 0 && Moved(env, tr.before, tr.after, admitted, request, response, now)
    case Reload(captured, restored) => captured <= restored && Reloaded(env, tr.before, tr.after, restored)
  }

  ghost predicate Follows(a: Transition, b: Transition)
  {
    a.after == b.before && End(a.event) <= Start(b.event)
  }

  ghost predicate Run(env: Env, run: seq<Transition>)
  {
    && (forall i :: 0 <= i < |run| ==> Legal(env, run[i]))
    && (forall i :: 0 <= i < |run| - 1 ==> Follows(run[i], run[i + 1]))
  }

  /** The state a run from `s` ends in. */
  function Final(s: State, run: seq<Transition>): State
  {
    if run == [] then s else run[|run| - 1].after
  }

  /** The run starts at `s` and is over by `now`. */
  ghost predicate RunFrom(env: Env, s: State, run: seq<Transition>, now: Time)
  {
    Run(env, run) && (run != [] ==> run[0].before == s && End(run[|run| - 1].event) <= now)
  }

  lemma Extend(env: Env, s: State, run: seq<Transition>, tr: Transition, now: Time)
    requires RunFrom(env, s, run, Start(tr.event)) && Legal(env, tr) && tr.before == Final(s, run) && End(tr.event) <= now
    ensures RunFrom(env, s, run + [tr], now) && Final(s, run + [tr]) == tr.after
  {
    var longer := run + [tr];
    forall i | 0 <= i < |longer| - 1 ensures Follows(longer[i], longer[i + 1]) {
      if i < |run| - 1 {
        assert Follows(run[i], run[i + 1]);
      }
    }
  }

  lemma Later(env: Env, s: State, run: seq<Transition>, t: Time, now: Time)
    requires RunFrom(env, s, run, t) && t <= now
    ensures RunFrom(env, s, run, now)
  {
  }

  lemma Prefix(env: Env, run: seq<Transition>, k: nat)
    requires Run(env, run) && k <= |run|
    ensures Run(env, run[..k])
  {
    forall i | 0 <= i < |run[..k]| - 1 ensures Follows(run[..k][i], run[..k][i + 1]) {
      assert Follows(run[i], run[i + 1]);
    }
  }

  lemma StartBeforeEnd(env: Env, tr: Transition)
    requires Legal(env, tr)
    ensures Start(tr.event) <= End(tr.event)
  {
  }

  // ----- the calls and reloads of the service are such transitions

  /** The transition a call really makes. */
  function StepOf(env: Env, s: State, call: Call, now: Time, entropy: Option<Entropy>): Transition
  {
    var o := Step(env, s, call, now, entropy);
    Transition(s, Rpc(call.request, now, Admitted(env, s, call, now), o.response), o.state)
  }

  /** The transition a reload really makes. */
  function ReloadOf(s: State, captured: Time, restored: Time): Transition
  {
    Transition(s, Reload(captured, restored), Restore(Capture(s, captured), restored))
  }

  /** The transition is that of some call, or of a reload. */
  ghost predicate Genuine(env: Env, tr: Transition)
  {
    match tr.event
    case Rpc(_, now, _, _) => exists call, entropy :: tr == StepOf(env, tr.before, call, now, entropy)
    case Reload(captured, restored) => tr == ReloadOf(tr.before, captured, restored)
  }

  lemma CallIsLegal(env: Env, s: State, call: Call, now: Time, entropy: Option<Entropy>)
    requires TextSound(env) && CodecSound(env) && TablesOk(env, s) && now > 0
    ensures Legal(env, StepOf(env, s, call, now, entropy)) && TablesOk(env, StepOf(env, s, call, now, entropy).after)
  {
    var o := Step(env, s, call, now, entropy);
    StepMoved(env, s, call, now, entropy);
    TablesStayOk(env, s, o.state, Admitted(env, s, call, now), call.request, o.response, now);
  }

  lemma PrunedLeases(env: Env, regs: Leases, captured: Time, restored: Time)
    requires captured <= restored
    ensures LeasesMove(env, regs, LiveLeases(LiveLeases(regs, captured), restored), restored)
    ensures KeepsLive(regs, LiveLeases(LiveLeases(regs, captured), restored), restored)
  {
  }

  lemma PrunedNonces(nonces: Nonces, captured: Time, restored: Time)
    requires captured <= restored
    ensures KeepsNonces(nonces, LiveNonces(LiveNonces(nonces, captured), restored), restored)
    ensures AddsOnly(nonces, LiveNonces(LiveNonces(nonces, captured), restored), None, restored)
  {
  }

  lemma PrunedState(env: Env, s: State, t: State, captured: Time, restored: Time)
    requires captured <= restored && t.model == s.model && t.pending == s.pending
    requires t.regs == LiveLeases(LiveLeases(s.regs, captured), restored)
    requires t.nonces == LiveNonces(LiveNonces(s.nonces, captured), restored)
    requires t.rates == LiveRates(LiveRates(s.rates, captured), restored)
    ensures Reloaded(env, s, t, restored)
  {
    PrunedLeases(env, s.regs, captured, restored);
    PrunedNonces(s.nonces, captured, restored);
  }

  lemma ReloadIsLegal(env: Env, s: State, captured: Time, restored: Time)
    requires Wf(env, s) && captured <= restored
    ensures Legal(env, ReloadOf(s, captured, restored)) && Wf(env, ReloadOf(s, captured, restored).after)
  {
    var t := Restore(Capture(s, captured), restored);
    assert Wf(env, t) by {
      CaptureRestorable(env, s, captured);
      RestoredOk(env, Capture(s, captured), restored);
    }
    assert Reloaded(env, s, t, restored) by {
      ReloadIs(env, s, captured, restored);
      PrunedState(env, s, t, captured, restored);
    }
  }

  // ----- tables stay in order along every run

  lemma TransitionKeepsTables(env: Env, tr: Transition)
    requires TextSound(env) && CodecSound(env) && Legal(env, tr) && TablesOk(env, tr.before)
    ensures TablesOk(env, tr.after)
  {
    match tr.event
    case Rpc(request, now, admitted, response) => TablesStayOk(env, tr.before, tr.after, admitted, request, response, now);
    case Reload(_, restored) => LeasesStayOk(env, tr.before.regs, tr.after.regs, restored);
  }

  lemma {:induction false} RunKeepsTables(env: Env, s: State, run: seq<Transition>, now: Time)
    requires TextSound(env) && CodecSound(env) && RunFrom(env, s, run, now) && TablesOk(env, s)
    ensures TablesOk(env, Final(s, run))
  {
    if run != [] {
      var n := |run| - 1;
      Prefix(env, run, n);
      if n > 0 {
        assert Follows(run[n - 1], run[n]);
        RunKeepsTables(env, s, run[..n], End(run[n - 1].event));
      } else {
        RunKeepsTables(env, s, run[..n], now);
      }
      TransitionKeepsTables(env, run[n]);
    }
  }
}
