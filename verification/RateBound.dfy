/** The update rate limit over whole runs. */
module RateBound {
  import opened Core
  import opened Service
  import opened Moves
  import opened Snapshots
  import opened History

  /** The event is an admitted submission of `node` in the minute that starts at `a`. */
  predicate Counts(e: Event, node: string, a: Time)
  {
    e.Rpc? && e.admitted && e.request.Submit? && e.request.node == node && a <= e.now < a + MINUTE
  }

  /** The event is an acknowledged revocation of `node`. */
  predicate Revokes(e: Event, node: string)
  {
    e.Rpc? && e.response.Revoked? && e.response.target == node
  }

  function AdmittedIn(run: seq<Transition>, node: string, a: Time): nat
  {
    if run == [] then 0
    else AdmittedIn(run[..|run| - 1], node, a) + if Counts(run[|run| - 1].event, node, a) then 1 else 0
  }

  /** How the count relates to the node's window at time `now`. */
  ghost predicate Tracked(env: Env, rates: Rates, node: string, a: Time, count: nat, now: Time)
  {
    && count < 2 * env.maxPerMinute
    && (now < a ==> count == 0)
    && (now < a + MINUTE ==>
          if node !in rates then count < env.maxPerMinute
          else if rates[node].startedAt < a then count < rates[node].count
          else count < env.maxPerMinute + rates[node].count)
  }

  lemma ChargeTracked(env: Env, rates: Rates, node: string, a: Time, count: nat, before: Time, now: Time)
    requires RatesOk(env, rates) && RateAllows(env, rates, node, now) && before <= now
    requires Tracked(env, rates, node, a, count, before)
    ensures Tracked(env, Charged(rates, node, now), node, a, count + (if a <= now < a + MINUTE then 1 else 0), now)
  {
  }

  lemma CallTracked(env: Env, s: State, t: State, e: Event, node: string, a: Time, count: nat, before: Time)
    requires e.Rpc? && RatesMove(env, s.rates, t.rates, e.admitted, e.request, e.response, e.now)
    requires RatesOk(env, s.rates) && before <= e.now && !Revokes(e, node)
    requires Tracked(env, s.rates, node, a, count, before)
    ensures Tracked(env, t.rates, node, a, count + (if Counts(e, node, a) then 1 else 0), e.now)
    ensures e.now > 0 ==> RatesOk(env, t.rates)
  {
    if e.admitted && e.request.node == node {
      ChargeTracked(env, s.rates, node, a, count, before, e.now);
    }
  }

  lemma ReloadTracked(env: Env, s: State, t: State, restored: Time, node: string, a: Time, count: nat, before: Time)
    requires Reloaded(env, s, t, restored) && RatesOk(env, s.rates) && before <= restored
    requires Tracked(env, s.rates, node, a, count, before)
    ensures Tracked(env, t.rates, node, a, count, restored) && RatesOk(env, t.rates)
  {
  }

  lemma EventTracked(env: Env, tr: Transition, node: string, a: Time, count: nat, before: Time)
    requires Legal(env, tr) && RatesOk(env, tr.before.rates) && before <= Start(tr.event) && !Revokes(tr.event, node)
    requires Tracked(env, tr.before.rates, node, a, count, before)
    ensures Tracked(env, tr.after.rates, node, a, count + (if Counts(tr.event, node, a) then 1 else 0), End(tr.event))
    ensures RatesOk(env, tr.after.rates)
  {
    match tr.event
    case Rpc(_, _, _, _) => CallTracked(env, tr.before, tr.after, tr.event, node, a, count, before);
    case Reload(_, restored) => ReloadTracked(env, tr.before, tr.after, restored, node, a, count, before);
  }

  lemma {:induction false} RunTracked(env: Env, s: State, run: seq<Transition>, node: string, a: Time, start: Time, now: Time)
    requires RunFrom(env, s, run, now) && RatesOk(env, s.rates) && (run == [] ==> now == start)
    requires run != [] ==> start <= Start(run[0].event) && now == End(run[|run| - 1].event)
    requires forall i :: 0 <= i < |run| ==> !Revokes(run[i].event, node)
    ensures Tracked(env, Final(s, run).rates, node, a, AdmittedIn(run, node, a), now) && RatesOk(env, Final(s, run).rates)
  {
    if run != [] {
      var n := |run| - 1;
      Prefix(env, run, n);
      var before := if n == 0 then start else End(run[n - 1].event);
      if n > 0 {
        assert Follows(run[n - 1], run[n]);
      }
      RunTracked(env, s, run[..n], node, a, start, before);
      EventTracked(env, run[n], node, a, AdmittedIn(run[..n], node, a), before);
    }
  }

  /** Between revocations of a node, restarts included, any half-open minute contains fewer than
      twice the limit of its admitted submissions; and every window count stays within the limit. */
  lemma RateIsBounded(env: Env, s: State, run: seq<Transition>, node: string, a: Time, now: Time)
    requires RunFrom(env, s, run, now) && RatesOk(env, s.rates)
    requires forall i :: 0 <= i < |run| ==> !Revokes(run[i].event, node)
    ensures AdmittedIn(run, node, a) < 2 * env.maxPerMinute
    ensures RatesOk(env, Final(s, run).rates)
  {
    if run != [] {
      RunTracked(env, s, run, node, a, Start(run[0].event), End(run[|run| - 1].event));
    }
  }
}
