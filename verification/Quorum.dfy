/** Collecting one round of the asynchronous simulation: early quorum, failures, stragglers,
    and the round sizes that the constructor's checks guarantee. */
module Quorum {
  import opened Text
  import OrderStats
  import Krum

  datatype WorkerResult = WorkerResult(node: string, round: nat, update: Option<seq<real>>, error: bool)
  {
    predicate Succeeded() { !error && update.Some? }
  }

  /** The local variables of one collection. */
  datatype Collection = Collection(
    round: nat,
    selected: set<string>,
    minResults: nat,
    results: seq<WorkerResult>,
    failures: set<string>,
    observed: set<string>)

  function StartCollection(round: nat, selected: set<string>, minResults: nat): Collection
  {
    Collection(round, selected, minResults, [], {}, {})
  }

  /** A result was taken from the queue. */
  function OnResult(c: Collection, r: WorkerResult): Collection
  {
    if r.round != c.round || r.node !in c.selected || r.node in c.observed then c
    else
      var d := c.(observed := c.observed + {r.node});
      if r.Succeeded() then d.(results := c.results + [r])
      else d.(failures := c.failures + {r.node})
  }

  /** The selected workers that have exited without being heard of. */
  function Lost(c: Collection, down: set<string>): set<string>
  {
    (c.selected - c.observed) * down
  }

  /** The queue stayed empty; the workers in `down` are not alive. */
  function OnEmpty(c: Collection, down: set<string>): Collection
  {
    var dead := Lost(c, down);
    c.(failures := c.failures + dead, observed := c.observed + dead)
  }

  /** How many selected workers have not been heard of. */
  function Unheard(c: Collection): int
  {
    |c.selected| - |c.observed|
  }

  predicate QuorumReached(c: Collection)
  {
    |c.results| >= c.minResults
  }

  predicate QuorumImpossible(c: Collection)
  {
    |c.results| + Unheard(c) < c.minResults
  }

  function Nodes(results: seq<WorkerResult>): set<string>
  {
    if results == [] then {} else Nodes(results[..|results| - 1]) + {results[|results| - 1].node}
  }

  function Completed(c: Collection): set<string>
  {
    Nodes(c.results)
  }

  predicate AllSucceeded(results: seq<WorkerResult>, round: nat)
  {
    forall i :: 0 <= i < |results| ==> results[i].Succeeded() && results[i].round == round
  }

  /** What every step of a collection keeps: each observed worker either completed, with one
      successful result for this round, or failed. */
  ghost predicate Consistent(c: Collection)
  {
    && c.observed <= c.selected
    && c.observed == Completed(c) + c.failures
    && Completed(c) !! c.failures
    && |Completed(c)| == |c.results|
    && AllSucceeded(c.results, c.round)
  }

  lemma ObservedCount(c: Collection)
    requires Consistent(c)
    ensures |c.observed| == |c.results| + |c.failures| <= |c.selected|
  {
    assert |c.selected| == |c.observed| + |c.selected - c.observed|;
  }

  lemma NodesSnoc(results: seq<WorkerResult>, r: WorkerResult)
    ensures Nodes(results + [r]) == Nodes(results) + {r.node}
  {
    assert (results + [r])[..|results|] == results;
  }

  lemma SuccessConsistent(c: Collection, r: WorkerResult)
    requires Consistent(c) && r.node in c.selected - c.observed && r.Succeeded() && r.round == c.round
    ensures Consistent(c.(observed := c.observed + {r.node}, results := c.results + [r]))
  {
    NodesSnoc(c.results, r);
    assert r.node !in Completed(c);
  }

  lemma FailureConsistent(c: Collection, lost: set<string>)
    requires Consistent(c) && lost <= c.selected - c.observed
    ensures Consistent(c.(observed := c.observed + lost, failures := c.failures + lost))
  {
  }

  lemma OnResultConsistent(c: Collection, r: WorkerResult)
    requires Consistent(c)
    ensures Consistent(OnResult(c, r))
  {
    if r.round == c.round && r.node in c.selected - c.observed {
      if r.Succeeded() {
        SuccessConsistent(c, r);
      } else {
        FailureConsistent(c, {r.node});
      }
    }
  }

  lemma OnEmptyConsistent(c: Collection, down: set<string>)
    requires Consistent(c)
    ensures Consistent(OnEmpty(c, down))
  {
    FailureConsistent(c, Lost(c, down));
  }

  datatype Observation = Got(result: WorkerResult) | Empty(down: set<string>)

  function OnObservation(c: Collection, o: Observation): Collection
  {
    match o
    case Got(r) => OnResult(c, r)
    case Empty(down) => OnEmpty(c, down)
  }

  function AfterObservations(c: Collection, os: seq<Observation>): Collection
  {
    if os == [] then c else OnObservation(AfterObservations(c, os[..|os| - 1]), os[|os| - 1])
  }

  lemma {:induction false} AfterObservationsConsistent(c: Collection, os: seq<Observation>)
    requires Consistent(c)
    ensures Consistent(AfterObservations(c, os))
  {
    if os != [] {
      AfterObservationsConsistent(c, os[..|os| - 1]);
      var d := AfterObservations(c, os[..|os| - 1]);
      match os[|os| - 1]
      case Got(r) => OnResultConsistent(d, r);
      case Empty(down) => OnEmptyConsistent(d, down);
    }
  }

  lemma AfterOneMore(c: Collection, os: seq<Observation>, i: nat)
    requires i < |os|
    ensures AfterObservations(c, os[..i + 1]) == OnObservation(AfterObservations(c, os[..i]), os[i])
  {
    assert os[..i + 1][..i] == os[..i];
  }

  lemma StartConsistent(round: nat, selected: set<string>, minResults: nat)
    ensures Consistent(StartCollection(round, selected, minResults))
  {
  }

  lemma ObservationFrame(c: Collection, o: Observation)
    ensures var d := OnObservation(c, o);
            && d.round == c.round && d.selected == c.selected && d.minResults == c.minResults
            && |d.results| <= |c.results| + 1 && (o.Empty? ==> d.results == c.results)
  {
  }

  /** A collection that can no longer succeed has seen too many failures. */
  lemma Shortfall(c: Collection)
    requires Consistent(c) && |c.results| < c.minResults
    requires QuorumImpossible(c) || |c.observed| >= |c.selected|
    ensures |c.failures| > |c.selected| - c.minResults
  {
    ObservedCount(c);
  }

  /** The collection loop. `observations` is what the queue and the process table show before
      the deadline; running out of them is the deadline. */
  method CollectRoundResults(round: nat, selected: set<string>, minResults: nat, observations: seq<Observation>)
    returns (c: Collection, used: nat)
    requires minResults > 0
    ensures used <= |observations|
    ensures c == AfterObservations(StartCollection(round, selected, minResults), observations[..used])
    ensures Consistent(c) && c.selected == selected && |c.results| <= minResults
    ensures |c.results| < minResults ==> used == |observations| || |c.failures| > |selected| - minResults
  {
    ghost var start := StartCollection(round, selected, minResults);
    c := StartCollection(round, selected, minResults);
    used := 0;
    var decided := false;
    while !decided && used < |observations| && |c.observed| < |c.selected|
      invariant used <= |observations|
      invariant c == AfterObservations(start, observations[..used])
      invariant c.selected == selected && c.minResults == minResults && |c.results| <= minResults
      invariant if decided then QuorumReached(c) || QuorumImpossible(c) else |c.results| < minResults
    {
      var o := observations[used];
      AfterOneMore(start, observations, used);
      ObservationFrame(c, o);
      c := OnObservation(c, o);
      used := used + 1;
      decided := QuorumReached(c) || QuorumImpossible(c);
    }
    StartConsistent(round, selected, minResults);
    AfterObservationsConsistent(start, observations[..used]);
    if |c.results| < minResults && used < |observations| {
      Shortfall(c);
    }
  }

  /** Reported workers: completed, failed and straggling ones partition the selection. */
  lemma RoundPartition(c: Collection)
    requires Consistent(c)
    ensures var stragglers := c.selected - (Completed(c) + c.failures);
            && c.selected == Completed(c) + c.failures + stragglers
            && Completed(c) !! c.failures && stragglers !! Completed(c) + c.failures
            && |c.selected| == |c.results| + |c.failures| + |stragglers|
  {
    var stragglers := c.selected - (Completed(c) + c.failures);
    ObservedCount(c);
    assert c.selected == c.observed + stragglers;
  }

  // ----- round sizes

  datatype Method = Mean | PlainKrum | MultiKrum | Trimmed | Median

  datatype Simulation = Simulation(workers: nat, clientsPerRound: Option<nat>, clientFraction: real, minResults: Option<nat>)
  {
    predicate Valid()
    {
      && workers > 0
      && (clientsPerRound.Some? ==> clientsPerRound.value > 0)
      && 0.0 < clientFraction <= 1.0
      && (minResults.Some? ==> minResults.value > 0)
    }

    function ClientsPerRound(): nat
      requires Valid()
    {
      if clientsPerRound.Some? then (if workers <= clientsPerRound.value then workers else clientsPerRound.value)
      else
        var ceiling := -((-((workers as real) * clientFraction)).Floor);
        if ceiling >= 1 then ceiling else 1
    }

    /** None models the raised ValueError. */
    function MinResultsFor(count: nat): Option<nat>
    {
      if minResults.None? then Some(count)
      else if minResults.value > count then None
      else Some(minResults.value)
    }
  }

  datatype Aggregation = Aggregation(how: Method, f: nat, k: nat, beta: real)
  {
    predicate Valid() { k > 0 && 0.0 <= beta < 0.5 }

    function Candidates(): nat { if how == PlainKrum then 1 else k }

    function Trim(n: nat): int { (beta * (n as real)).Floor }
  }

  predicate RoundCountsValid(s: Simulation, a: Aggregation)
    requires s.Valid()
  {
    match s.MinResultsFor(s.ClientsPerRound())
    case None => false
    case Some(minimum) =>
      && (a.how.PlainKrum? || a.how.MultiKrum? ==> minimum >= 2 * a.f + 3 && a.Candidates() <= minimum - a.f - 2)
      && (a.how.Trimmed? ==> 2 * a.Trim(minimum) < minimum)
  }

  /** How many clients a round uses when `available` workers are free: the wait returns once
      enough are available, or at its deadline with at least the quorum. */
  function SelectedCount(s: Simulation, available: nat): nat
    requires s.Valid()
  {
    if available < s.ClientsPerRound() then available else s.ClientsPerRound()
  }

  /** The wait for workers ends with at least the quorum. */
  predicate EnoughAvailable(s: Simulation, available: nat)
    requires s.Valid()
  {
    var minimum := s.MinResultsFor(s.ClientsPerRound());
    minimum.Some? && available >= minimum.value
  }

  /** The quorum checked at construction. */
  predicate CheckedQuorum(s: Simulation, minResults: nat)
    requires s.Valid()
  {
    s.MinResultsFor(s.ClientsPerRound()) == Some(minResults)
  }

  /** Every round needs the same number of results as the constructor checked, however many
      workers happened to be available. */
  lemma QuorumIsConstant(s: Simulation, available: nat)
    requires s.Valid() && EnoughAvailable(s, available)
    ensures s.MinResultsFor(SelectedCount(s, available)) == s.MinResultsFor(s.ClientsPerRound())
    ensures s.MinResultsFor(s.ClientsPerRound()).value > 0
  {
  }

  function Updates(c: Collection): (updates: seq<seq<real>>)
    requires Consistent(c)
    ensures |updates| == |c.results|
  {
    seq(|c.results|, i requires 0 <= i < |c.results| => c.results[i].update.value)
  }

  lemma TrimIsNatural(a: Aggregation, n: nat)
    requires a.Valid()
    ensures a.Trim(n) >= 0
  {
    assert a.beta * (n as real) >= 0.0;
  }

  /** A round that reaches the checked quorum meets the Krum and trimming bounds. */
  lemma RoundMeetsAggregatorBounds(s: Simulation, a: Aggregation, c: Collection)
    requires s.Valid() && a.Valid() && RoundCountsValid(s, a)
    requires Consistent(c) && CheckedQuorum(s, c.minResults) && |c.results| == c.minResults
    requires OrderStats.ValidUpdates(Updates(c))
    ensures a.how.PlainKrum? || a.how.MultiKrum? ==> Krum.Acceptable(Updates(c), a.f, a.Candidates())
    ensures a.how.Trimmed? ==> 0 <= a.Trim(|Updates(c)|) && 2 * a.Trim(|Updates(c)|) < |Updates(c)|
  {
    TrimIsNatural(a, |c.results|);
  }
}
