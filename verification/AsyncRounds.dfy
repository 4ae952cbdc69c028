/** The asynchronous round protocol: one coordinator, persistent workers, a capacity-one
    command queue per worker and a shared result queue, under every interleaving of their
    steps and with workers dying at any point. */
module AsyncRounds {
  import opened Text
  import opened Quorum
  import Krum
  import OrderStats

  /** One worker process with its command queue and its results waiting in the shared queue. */
  datatype Worker = Worker(alive: bool, command: seq<nat>, running: Option<nat>, delivered: seq<WorkerResult>)

  datatype Phase =
    | Waiting
    | Dispatching(todo: seq<string>, selected: set<string>, minResults: nat)
    | Collecting(c: Collection)

  /** The checked configuration and the number of model parameters, which never change. */
  datatype Config = Config(sim: Simulation, dimension: nat)

  datatype System = System(config: Config, workers: map<string, Worker>, busy: map<string, nat>, round: nat, phase: Phase)

  datatype Step =
    | Take(node: string)                                                // worker: command_queue.get()
    | Finish(node: string, update: Option<seq<real>>, error: bool)      // worker: result_queue.put(result)
    | Die(node: string, kept: nat)                                      // the process exits; unflushed results are lost
    | Drain(node: string)                                               // coordinator: get_nowait() between rounds
    | Select(available: set<string>, chosen: seq<string>)               // coordinator: choose among the available workers
    | Dispatch                                                          // coordinator: put() the next command
    | StartCollecting
    | Receive(node: string)                                             // coordinator: get() returns a result
    | Poll(down: set<string>)                                           // coordinator: get() times out
    | Conclude                                                          // quorum reached, next round

  const QUEUE_CAPACITY := 1

  predicate Distinct(s: seq<string>)
  {
    forall i, j :: 0 <= i < j < |s| ==> s[i] != s[j]
  }

  /** The collection loop goes on. */
  predicate StillCollecting(c: Collection)
  {
    !QuorumReached(c) && !QuorumImpossible(c) && |c.observed| < |c.selected|
  }

  predicate Available(s: System, n: string)
  {
    n in s.workers && s.workers[n].alive && n !in s.busy
  }

  predicate Enabled(s: System, step: Step)
  {
    match step
    case Take(n) => n in s.workers && s.workers[n].alive && s.workers[n].running.None? && s.workers[n].command != []
    case Finish(n, update, _) =>
      && n in s.workers && s.workers[n].alive && s.workers[n].running.Some?
      && (update.Some? ==> |update.value| == s.config.dimension)
    case Die(n, kept) => n in s.workers && s.workers[n].alive && kept <= |s.workers[n].delivered|
    case Drain(n) => s.phase.Waiting? && n in s.workers && s.workers[n].delivered != []
    case Select(available, chosen) =>
      && s.phase.Waiting? && s.config.sim.Valid()
      && (forall n :: n in available ==> Available(s, n))
      && EnoughAvailable(s.config.sim, |available|)
      && Distinct(chosen) && |chosen| == SelectedCount(s.config.sim, |available|)
      && (forall i :: 0 <= i < |chosen| ==> chosen[i] in available)
      && s.config.sim.MinResultsFor(|chosen|).Some?
    case Dispatch =>
      && s.phase.Dispatching? && s.phase.todo != [] && s.phase.todo[0] in s.workers
      && |s.workers[s.phase.todo[0]].command| < QUEUE_CAPACITY
    case StartCollecting => s.phase.Dispatching? && s.phase.todo == []
    case Receive(n) => s.phase.Collecting? && StillCollecting(s.phase.c) && n in s.workers && s.workers[n].delivered != []
    case Poll(down) =>
      && s.phase.Collecting? && StillCollecting(s.phase.c)
      && forall n :: n in down ==> n in s.workers && !s.workers[n].alive
    case Conclude => s.phase.Collecting? && QuorumReached(s.phase.c)
  }

  function ToSet(s: seq<string>): (r: set<string>)
    ensures forall x :: x in r <==> x in s
  {
    set x | x in s
  }

  function SetWorker(s: System, n: string, w: Worker): System
  {
    s.(workers := s.workers[n := w])
  }

  function Apply(s: System, step: Step): System
    requires Enabled(s, step)
  {
    match step
    case Take(n) =>
      var w := s.workers[n];
      SetWorker(s, n, w.(command := w.command[1..], running := Some(w.command[0])))
    case Finish(n, update, error) =>
      var w := s.workers[n];
      var r := WorkerResult(n, w.running.value, update, error);
      SetWorker(s, n, w.(running := None, delivered := w.delivered + [r]))
    case Die(n, kept) =>
      var w := s.workers[n];
      SetWorker(s, n, w.(alive := false, running := None, delivered := w.delivered[..kept]))
    case Drain(n) =>
      var w := s.workers[n];
      SetWorker(s, n, w.(delivered := w.delivered[1..])).(busy := s.busy - {w.delivered[0].node})
    case Select(_, chosen) => s.(phase := Dispatching(chosen, ToSet(chosen), s.config.sim.MinResultsFor(|chosen|).value))
    case Dispatch =>
      var n, p := s.phase.todo[0], s.phase;
      var w := s.workers[n];
      SetWorker(s, n, w.(command := w.command + [s.round]))
      .(busy := s.busy[n := s.round], phase := p.(todo := p.todo[1..]))
    case StartCollecting =>
      s.(phase := Collecting(StartCollection(s.round, s.phase.selected, s.phase.minResults)))
    case Receive(n) =>
      var w := s.workers[n];
      SetWorker(s, n, w.(delivered := w.delivered[1..]))
      .(busy := s.busy - {w.delivered[0].node}, phase := Collecting(OnResult(s.phase.c, w.delivered[0])))
    case Poll(down) =>
      var c := s.phase.c;
      s.(busy := s.busy - Lost(c, down), phase := Collecting(OnEmpty(c, down)))
    case Conclude => s.(round := s.round + 1, phase := Waiting)
  }

  // ----- the invariant

  function Outstanding(w: Worker): nat
  {
    |w.command| + (if w.running.Some? then 1 else 0) + |w.delivered|
  }

  /** Every outstanding item of `n` belongs to `round`. */
  predicate ItemsOf(w: Worker, round: nat)
  {
    && (forall i :: 0 <= i < |w.command| ==> w.command[i] == round)
    && (w.running.Some? ==> w.running.value == round)
    && (forall i :: 0 <= i < |w.delivered| ==> w.delivered[i].round == round)
  }

  /** A live worker has exactly one outstanding item if it is busy and none otherwise; the
      items of a busy worker belong to the round it is busy with. */
  predicate WorkerInv(w: Worker, n: string, busy: Option<nat>)
  {
    && Outstanding(w) <= 1
    && (w.alive ==> Outstanding(w) == (if busy.Some? then 1 else 0))
    && (!w.alive ==> w.running.None?)
    && (busy.Some? ==> ItemsOf(w, busy.value))
    && (forall i :: 0 <= i < |w.delivered| ==> w.delivered[i].node == n)
  }

  function BusyRound(s: System, n: string): Option<nat>
  {
    if n in s.busy then Some(s.busy[n]) else None
  }

  predicate WorkersInv(s: System)
  {
    && s.busy.Keys <= s.workers.Keys
    && forall n :: n in s.workers ==> WorkerInv(s.workers[n], n, BusyRound(s, n))
  }

  ghost predicate PhaseInv(s: System)
  {
    match s.phase
    case Waiting => forall n :: n in s.busy ==> s.busy[n] < s.round
    case Dispatching(todo, selected, minResults) =>
      && Distinct(todo) && minResults > 0 && selected <= s.workers.Keys
      && (forall i :: 0 <= i < |todo| ==> todo[i] in selected && todo[i] !in s.busy && Outstanding(s.workers[todo[i]]) == 0)
      && (forall n :: n in selected && n !in todo ==> n in s.busy && s.busy[n] == s.round)
      && (forall n :: n in s.busy && n !in selected ==> s.busy[n] < s.round)
    case Collecting(c) => CollectingInv(s.workers, s.busy, s.round, c)
  }

  ghost predicate CollectingInv(workers: map<string, Worker>, busy: map<string, nat>, round: nat, c: Collection)
  {
    && c.round == round && c.minResults > 0 && c.selected <= workers.Keys
    && Consistent(c) && |c.results| <= c.minResults
    && Awaited(busy, round, c.selected, c.observed)
    && (forall n :: n in c.observed ==> Settled(workers[n], n, c))
  }

  /** Exactly the selected workers not yet heard of are busy with this round. */
  predicate Awaited(busy: map<string, nat>, round: nat, selected: set<string>, observed: set<string>)
  {
    && (forall n :: n in selected && n !in observed ==> n in busy && busy[n] == round)
    && (forall n :: n in observed ==> n !in busy)
    && (forall n :: n in busy && n !in selected ==> busy[n] < round)
  }

  /** Anything still outstanding of an observed worker was left behind by a dead one. */
  predicate Settled(w: Worker, n: string, c: Collection)
  {
    Outstanding(w) > 0 ==> !w.alive && n in c.failures
  }

  ghost predicate Inv(s: System)
  {
    WorkersInv(s) && PhaseInv(s)
  }

  ghost predicate Init(s: System)
  {
    && s.phase == Waiting && s.busy == map[]
    && forall n :: n in s.workers ==> s.workers[n] == Worker(true, [], None, [])
  }

  lemma InitInv(s: System)
    requires Init(s)
    ensures Inv(s)
  {
  }

  // ----- each step keeps it

  /** `t` differs from `s` only in worker `n` and in whether `n` is busy. */
  predicate OnlyWorker(s: System, t: System, n: string)
  {
    && n in s.workers && t.workers.Keys == s.workers.Keys && t.busy.Keys <= t.workers.Keys
    && (forall m :: m in s.workers && m != n ==> t.workers[m] == s.workers[m] && BusyRound(t, m) == BusyRound(s, m))
  }

  lemma WorkersInvAt(s: System, t: System, n: string)
    requires WorkersInv(s) && OnlyWorker(s, t, n) && WorkerInv(t.workers[n], n, BusyRound(t, n))
    ensures WorkersInv(t)
  {
    forall m | m in t.workers ensures WorkerInv(t.workers[m], m, BusyRound(t, m)) {
      if m != n { assert WorkerInv(s.workers[m], m, BusyRound(s, m)); }
    }
  }

  /** Worker steps, which never add outstanding items or revive a worker, keep the phase facts. */
  lemma WorkerStepKeepsPhase(s: System, t: System, n: string)
    requires PhaseInv(s) && OnlyWorker(s, t, n)
    requires t.busy == s.busy && t.round == s.round && t.phase == s.phase
    requires Outstanding(t.workers[n]) <= Outstanding(s.workers[n]) && (t.workers[n].alive ==> s.workers[n].alive)
    ensures PhaseInv(t)
  {
    match s.phase
    case Waiting =>
    case Dispatching(todo, selected, _) =>
      forall i | 0 <= i < |todo| ensures Outstanding(t.workers[todo[i]]) == 0 {
        assert todo[i] == n || t.workers[todo[i]] == s.workers[todo[i]];
      }
    case Collecting(c) =>
      forall m | m in c.observed ensures Settled(t.workers[m], m, c) {
        assert Settled(s.workers[m], m, c);
      }
  }

  lemma TakeKeepsInv(s: System, n: string)
    requires Inv(s) && Enabled(s, Take(n))
    ensures Inv(Apply(s, Take(n)))
  {
    var t := Apply(s, Take(n));
    WorkersInvAt(s, t, n);
    WorkerStepKeepsPhase(s, t, n);
  }

  lemma FinishKeepsInv(s: System, n: string, update: Option<seq<real>>, error: bool)
    requires Inv(s) && Enabled(s, Finish(n, update, error))
    ensures Inv(Apply(s, Finish(n, update, error)))
  {
    var t := Apply(s, Finish(n, update, error));
    WorkersInvAt(s, t, n);
    WorkerStepKeepsPhase(s, t, n);
  }

  lemma DieKeepsInv(s: System, n: string, kept: nat)
    requires Inv(s) && Enabled(s, Die(n, kept))
    ensures Inv(Apply(s, Die(n, kept)))
  {
    var t := Apply(s, Die(n, kept));
    WorkersInvAt(s, t, n);
    WorkerStepKeepsPhase(s, t, n);
  }

  lemma DrainKeepsInv(s: System, n: string)
    requires Inv(s) && Enabled(s, Drain(n))
    ensures Inv(Apply(s, Drain(n)))
  {
    var t := Apply(s, Drain(n));
    assert s.workers[n].delivered[0].node == n;
    WorkersInvAt(s, t, n);
  }

  lemma SelectKeepsInv(s: System, available: set<string>, chosen: seq<string>)
    requires Inv(s) && Enabled(s, Select(available, chosen))
    ensures Inv(Apply(s, Select(available, chosen)))
  {
    var t := Apply(s, Select(available, chosen));
    QuorumIsConstant(s.config.sim, |available|);
    forall n | n in t.phase.selected ensures n in s.workers {
      assert n in chosen;
    }
  }

  lemma DispatchKeepsPhase(s: System)
    requires Inv(s) && Enabled(s, Dispatch)
    ensures PhaseInv(Apply(s, Dispatch))
  {
    var t, n := Apply(s, Dispatch), s.phase.todo[0];
    assert s.phase.todo == [n] + t.phase.todo;
    forall m | m in t.phase.selected && m !in t.phase.todo ensures m in t.busy && t.busy[m] == t.round {
      assert m == n || m !in s.phase.todo;
    }
    forall i | 0 <= i < |t.phase.todo|
      ensures t.phase.todo[i] in t.phase.selected && t.phase.todo[i] !in t.busy
      ensures Outstanding(t.workers[t.phase.todo[i]]) == 0
    {
      assert t.phase.todo[i] == s.phase.todo[i + 1] != n;
    }
  }

  lemma DispatchKeepsInv(s: System)
    requires Inv(s) && Enabled(s, Dispatch)
    ensures Inv(Apply(s, Dispatch))
  {
    DispatchKeepsPhase(s);
    WorkersInvAt(s, Apply(s, Dispatch), s.phase.todo[0]);
  }

  lemma StartCollectingKeepsInv(s: System)
    requires Inv(s) && Enabled(s, StartCollecting)
    ensures Inv(Apply(s, StartCollecting))
  {
    StartConsistent(s.round, s.phase.selected, s.phase.minResults);
  }

  /** A result received from a worker still awaited is for this round; any other result comes
      from an unselected straggler or from a worker already declared dead. */
  lemma ReceivedIsNeverStale(s: System, n: string)
    requires Inv(s) && Enabled(s, Receive(n))
    ensures n in s.phase.c.selected - s.phase.c.observed ==> s.workers[n].delivered[0].round == s.phase.c.round
    ensures n in s.phase.c.observed ==> !s.workers[n].alive && n in s.phase.c.failures
    ensures n in s.busy && n !in s.phase.c.selected ==> s.workers[n].delivered[0].round < s.phase.c.round
  {
    var c := s.phase.c;
    if n in s.busy {
      assert ItemsOf(s.workers[n], s.busy[n]);
    }
  }

  lemma AwaitedWithout(busy: map<string, nat>, round: nat, selected: set<string>, observed: set<string>,
                       gone: set<string>, observed': set<string>)
    requires Awaited(busy, round, selected, observed)
    requires forall n :: n in observed' <==> n in observed || (n in gone && n in selected)
    ensures Awaited(busy - gone, round, selected, observed')
  {
  }

  lemma ReceivedWorkerInv(w: Worker, n: string, busy: Option<nat>)
    requires WorkerInv(w, n, busy) && w.delivered != []
    ensures WorkerInv(w.(delivered := w.delivered[1..]), n, None)
    ensures Outstanding(w.(delivered := w.delivered[1..])) == 0
  {
  }

  /** What taking result `r` of node `n` does to a collection whose result is not stale. */
  lemma ReceiveObserves(c: Collection, r: WorkerResult)
    requires Consistent(c) && |c.results| < c.minResults
    requires r.node in c.selected && r.node !in c.observed ==> r.round == c.round
    ensures var d := OnResult(c, r);
            && d.round == c.round && d.selected == c.selected && d.minResults == c.minResults
            && c.failures <= d.failures && |d.results| <= d.minResults && Consistent(d)
            && forall n :: n in d.observed <==> n in c.observed || (n in {r.node} && n in c.selected)
  {
    OnResultConsistent(c, r);
  }

  lemma ReceiveKeepsCollecting(workers: map<string, Worker>, busy: map<string, nat>, round: nat, c: Collection,
                               n: string, w: Worker, r: WorkerResult)
    requires CollectingInv(workers, busy, round, c) && n in workers && r.node == n && |c.results| < c.minResults
    requires n in c.selected && n !in c.observed ==> r.round == c.round
    requires Outstanding(w) == 0
    ensures CollectingInv(workers[n := w], busy - {n}, round, OnResult(c, r))
  {
    var d := OnResult(c, r);
    ReceiveObserves(c, r);
    AwaitedWithout(busy, round, c.selected, c.observed, {n}, d.observed);
    forall m | m in d.observed ensures Settled(workers[n := w][m], m, d) {
      assert m == n || Settled(workers[m], m, c);
    }
  }

  function Taken(w: Worker): Worker
    requires w.delivered != []
  {
    w.(delivered := w.delivered[1..])
  }

  lemma ReceiveKeepsPhase(s: System, n: string)
    requires PhaseInv(s) && Enabled(s, Receive(n))
    requires s.workers[n].delivered[0].node == n && Outstanding(Taken(s.workers[n])) == 0
    requires n in s.phase.c.selected && n !in s.phase.c.observed ==> s.workers[n].delivered[0].round == s.phase.c.round
    ensures PhaseInv(Apply(s, Receive(n)))
  {
    var w := s.workers[n];
    ReceiveKeepsCollecting(s.workers, s.busy, s.round, s.phase.c, n, Taken(w), w.delivered[0]);
  }

  lemma ReceiveKeepsWorkers(s: System, n: string)
    requires WorkersInv(s) && Enabled(s, Receive(n))
    ensures WorkersInv(Apply(s, Receive(n)))
    ensures s.workers[n].delivered[0].node == n && Outstanding(Taken(s.workers[n])) == 0
  {
    var w := s.workers[n];
    assert WorkerInv(w, n, BusyRound(s, n));
    ReceivedWorkerInv(w, n, BusyRound(s, n));
    WorkersInvAt(s, Apply(s, Receive(n)), n);
  }

  lemma ReceiveKeepsInv(s: System, n: string)
    requires Inv(s) && Enabled(s, Receive(n))
    ensures Inv(Apply(s, Receive(n)))
  {
    ReceivedIsNeverStale(s, n);
    ReceiveKeepsWorkers(s, n);
    ReceiveKeepsPhase(s, n);
  }

  lemma PollKeepsCollecting(workers: map<string, Worker>, busy: map<string, nat>, round: nat, c: Collection,
                            down: set<string>)
    requires CollectingInv(workers, busy, round, c)
    requires forall n :: n in down ==> n in workers && !workers[n].alive
    ensures CollectingInv(workers, busy - Lost(c, down), round, OnEmpty(c, down))
  {
    OnEmptyConsistent(c, down);
    var d := OnEmpty(c, down);
    AwaitedWithout(busy, round, c.selected, c.observed, Lost(c, down), d.observed);
    forall m | m in d.observed ensures Settled(workers[m], m, d) {
      assert m in c.observed ==> Settled(workers[m], m, c);
    }
  }

  lemma PollKeepsWorkers(s: System, gone: set<string>)
    requires WorkersInv(s) && forall n :: n in gone ==> n in s.workers && !s.workers[n].alive
    ensures WorkersInv(s.(busy := s.busy - gone))
  {
    var t := s.(busy := s.busy - gone);
    forall m | m in t.workers ensures WorkerInv(t.workers[m], m, BusyRound(t, m)) {
      assert WorkerInv(s.workers[m], m, BusyRound(s, m));
    }
  }

  lemma PollKeepsInv(s: System, down: set<string>)
    requires Inv(s) && Enabled(s, Poll(down))
    ensures Inv(Apply(s, Poll(down)))
  {
    PollKeepsCollecting(s.workers, s.busy, s.round, s.phase.c, down);
    PollKeepsWorkers(s, Lost(s.phase.c, down));
    SamePhaseWorkers(s.(busy := s.busy - Lost(s.phase.c, down)), Apply(s, Poll(down)));
  }

  lemma SamePhaseWorkers(s: System, t: System)
    requires WorkersInv(s) && t.workers == s.workers && t.busy == s.busy
    ensures WorkersInv(t)
  {
    forall m | m in t.workers ensures WorkerInv(t.workers[m], m, BusyRound(t, m)) {
      assert WorkerInv(s.workers[m], m, BusyRound(s, m));
    }
  }

  lemma ConcludeKeepsInv(s: System)
    requires Inv(s) && Enabled(s, Conclude)
    ensures Inv(Apply(s, Conclude))
  {
    var c := s.phase.c;
    forall n | n in s.busy ensures s.busy[n] <= s.round {
      assert n !in c.observed;
    }
  }

  lemma StepKeepsInv(s: System, step: Step)
    requires Inv(s) && Enabled(s, step)
    ensures Inv(Apply(s, step))
  {
    match step
    case Take(n) => TakeKeepsInv(s, n);
    case Finish(n, update, error) => FinishKeepsInv(s, n, update, error);
    case Die(n, kept) => DieKeepsInv(s, n, kept);
    case Drain(n) => DrainKeepsInv(s, n);
    case Select(available, chosen) => SelectKeepsInv(s, available, chosen);
    case Dispatch => DispatchKeepsInv(s);
    case StartCollecting => StartCollectingKeepsInv(s);
    case Receive(n) => ReceiveKeepsInv(s, n);
    case Poll(down) => PollKeepsInv(s, down);
    case Conclude => ConcludeKeepsInv(s);
  }

  // ----- whole runs

  /** `run[0]` is a start state and each state follows from the previous one by an enabled step. */
  ghost predicate IsRun(run: seq<System>, steps: seq<Step>)
  {
    && |run| == |steps| + 1 && Init(run[0])
    && forall i :: 0 <= i < |steps| ==> Enabled(run[i], steps[i]) && run[i + 1] == Apply(run[i], steps[i])
  }

  lemma {:induction false} EveryReachableStateInv(run: seq<System>, steps: seq<Step>, i: nat)
    requires IsRun(run, steps) && i < |run|
    ensures Inv(run[i])
  {
    if i == 0 {
      InitInv(run[0]);
    } else {
      EveryReachableStateInv(run, steps, i - 1);
      StepKeepsInv(run[i - 1], steps[i - 1]);
    }
  }

  /** The capacity-one command queue never blocks a dispatch. */
  lemma DispatchNeverBlocks(run: seq<System>, steps: seq<Step>, i: nat)
    requires IsRun(run, steps) && i < |run|
    requires run[i].phase.Dispatching? && run[i].phase.todo != []
    ensures Enabled(run[i], Dispatch)
  {
    EveryReachableStateInv(run, steps, i);
  }

  /** In every reachable state a live worker has one outstanding item exactly when it is busy. */
  lemma OneOutstandingItem(run: seq<System>, steps: seq<Step>, i: nat, n: string)
    requires IsRun(run, steps) && i < |run| && n in run[i].workers && run[i].workers[n].alive
    ensures Outstanding(run[i].workers[n]) == (if n in run[i].busy then 1 else 0)
  {
    EveryReachableStateInv(run, steps, i);
  }

  /** No run ever counts a stale result, and a concluding round has exactly its quorum of
      distinct successful results for that round. */
  lemma ConcludedRound(run: seq<System>, steps: seq<Step>, i: nat)
    requires IsRun(run, steps) && i < |steps| && steps[i] == Conclude
    ensures var c := run[i].phase.c;
            && |c.results| == c.minResults && |Completed(c)| == c.minResults && Completed(c) <= c.selected
            && AllSucceeded(c.results, run[i].round)
            && run[i + 1].round == run[i].round + 1
  {
    EveryReachableStateInv(run, steps, i);
  }

  // ----- round sizes in runs

  /** Once clients are selected, the round needs the number of results checked at construction. */
  predicate QuorumInv(s: System)
  {
    && s.config.sim.Valid()
    && (s.phase.Dispatching? ==> CheckedQuorum(s.config.sim, s.phase.minResults))
    && (s.phase.Collecting? ==> CheckedQuorum(s.config.sim, s.phase.c.minResults))
  }

  /** Every update under way or collected has the model's dimension. */
  predicate Sized(rs: seq<WorkerResult>, dimension: nat)
  {
    forall i :: 0 <= i < |rs| ==> rs[i].update.Some? ==> |rs[i].update.value| == dimension
  }

  predicate SizesInv(s: System)
  {
    && (forall n :: n in s.workers ==> Sized(s.workers[n].delivered, s.config.dimension))
    && (s.phase.Collecting? ==> Sized(s.phase.c.results, s.config.dimension))
  }

  lemma StepKeepsQuorum(s: System, step: Step)
    requires QuorumInv(s) && Enabled(s, step)
    ensures QuorumInv(Apply(s, step)) && Apply(s, step).config == s.config
  {
    if step.Select? {
      QuorumIsConstant(s.config.sim, |step.available|);
    }
  }

  lemma StepKeepsSizes(s: System, step: Step)
    requires SizesInv(s) && Enabled(s, step)
    ensures SizesInv(Apply(s, step))
  {
  }

  lemma {:induction false} EveryRoundIsSized(run: seq<System>, steps: seq<Step>, i: nat)
    requires IsRun(run, steps) && run[0].config.sim.Valid() && i < |run|
    ensures QuorumInv(run[i]) && SizesInv(run[i]) && run[i].config == run[0].config
  {
    if i > 0 {
      EveryRoundIsSized(run, steps, i - 1);
      StepKeepsQuorum(run[i - 1], steps[i - 1]);
      StepKeepsSizes(run[i - 1], steps[i - 1]);
    }
  }

  /** In every run, whatever workers were available and whichever died: the updates of a concluded
      round are exactly as many as checked at construction and meet the aggregator's bounds. */
  lemma ConcludedRoundIsAggregated(run: seq<System>, steps: seq<Step>, i: nat, a: Aggregation)
    requires IsRun(run, steps) && i < |steps| && steps[i] == Conclude
    requires run[0].config.sim.Valid() && run[0].config.dimension > 0 && a.Valid() && RoundCountsValid(run[0].config.sim, a)
    ensures Consistent(run[i].phase.c)
    ensures var updates := Updates(run[i].phase.c);
            && OrderStats.ValidUpdates(updates) && CheckedQuorum(run[0].config.sim, |updates|)
            && (a.how.PlainKrum? || a.how.MultiKrum? ==> Krum.Acceptable(updates, a.f, a.Candidates()))
            && (a.how.Trimmed? ==> 0 <= a.Trim(|updates|) && 2 * a.Trim(|updates|) < |updates|)
  {
    EveryReachableStateInv(run, steps, i);
    EveryRoundIsSized(run, steps, i);
    ConcludedRound(run, steps, i);
    var c := run[i].phase.c;
    SizedUpdates(c, run[i].config.dimension);
    RoundMeetsAggregatorBounds(run[i].config.sim, a, c);
  }

  lemma SizedUpdates(c: Collection, dimension: nat)
    requires Consistent(c) && Sized(c.results, dimension) && dimension > 0 && c.results != []
    ensures OrderStats.ValidUpdates(Updates(c))
  {
    forall i | 0 <= i < |c.results| ensures |Updates(c)[i]| == dimension {
      assert c.results[i].Succeeded();
    }
  }
}
