# A verified model of ZeroTrust-FL-Sim

ZeroTrust-FL-Sim coordinates federated learning among untrusted nodes. This Dafny project models its
four cores and proves what they promise.

**The Go coordinator.** `Core`, `Registry` and `Service` describe the state (leases, global model,
pending updates, rate windows, replay nonces) and what each of the six remote calls answers and
changes. `Coordinator` holds the same behaviour as objects with fields and loops: the registration
store, the service and the durable service, each method proved against those functions. `Persisted`
and `Keyed` hold snapshots in their stored form, as lists sorted by key, with the loops that capture,
validate and restore them. The theorems are about whole runs:

- `Recovery`: a state restored from its own snapshot cannot be told apart from the original.
- `Durable`, `Worlds`, `Reachable`: through calls with commits that fail before or after taking
  effect, crashes and restarts, no acknowledged call is lost and none is invented. Acknowledged
  revocations stand, acknowledged updates are kept, and replays stay apart in all those worlds.
  `Subsequences` is how acknowledged and carried-out calls are compared.
- `Ledger`: a book kept from acknowledged traffic alone agrees with the coordinator; every
  acknowledged update is aggregated once, dropped by a revocation, or still pending.
- `Tombstones`, `Replays`, `RateBound`: revocation, replay protection and the rate limit over runs.
- `Envelope`, `EnvelopeStack`: schema digests keep all pending vectors equally long, over every
  interleaving of enveloped submissions with other calls, their commits and their rollbacks.
  `EnvelopeExample` is an interleaving in which a checked submission is nevertheless refused.
- `Upgrade`: state of schema versions 1 to 3 is bound to one configuration exactly once.
- `AuditState`, `AuditMarks`: the audit log agrees with the stored rounds.

Run-level arguments do not look inside the calls. `Moves` states how one call may move each table,
once and for all, and `History` defines runs of calls and reloads over these relations. Everything the
coordinator calls out to (SHA-256, float rounding, the NPY codec, text helpers) is a field of the
environment `Core.Env`; `Standard` gives the actual environment and shows that it meets every
condition the theorems ask for. SHA-256 stays a parameter: results that depend on it exhibit the two
particular inputs that would have to collide.

**Byzantine-robust aggregation (C++).** `Distance`, `Selection`, `Krum` and `OrderStats` model the
distance loops, `nth_element`, `partial_sort`, Krum, trimmed mean and median over exact reals and prove
them equal to plain references; `KrumResilience` and `OrderStats` prove what adversarial updates cannot
do. `PendingAggregate` does the same for the Go aggregation loops over an unordered map.

**The asynchronous round protocol (Python).** `AsyncRounds` is an interleaved system of coordinator,
workers and queues in which a dying worker may lose results it had not delivered; `Quorum` is result
collection and the bounds checked at construction, which every concluded round is shown to meet.

**Codecs and chains.** `Npy` and `NpyRoundTrip` are the NPY printer and parser, `Manifest` the
length-delimited schema encoding, `LinkedLog`, `AuditChain` and `AuditPages` the hash-linked audit log.

Where code and documentation disagree the code decides: the repository's README says that the Go
coordinator does not aggregate; `pkg/coordinator/service.go` does, and so does the model.

Findings stated as lemmas:

- Re-registration after a restart is distinguishable exactly when a lapsed lease's 64-bit generation
  counter had run out (`Recovery.ExhaustedLapseIsObservable`).
- Without the envelope a bootstrap round accepts vectors of different lengths
  (`Envelope.WithoutEnvelopeLengthsMix`).
- The envelope reads the pending updates without waiting for a durable call to be committed. If a
  revocation removes an update, the envelope reads, and the revocation is rolled back, then a submission
  that passed the checks is refused for its shape (`EnvelopeStack.FailingInterleaving`, with a concrete
  coordinator in `EnvelopeExample.InterleavingHappens`). It is refused
  exactly when some update pending at its delivery has another length
  (`EnvelopeStack.RefusedForShapeExactly`), and that happens in no other interleaving, up to colliding
  digests (`EnvelopeStack.CheckedSubmissionsAggregate`).
- When a commit takes effect but reports failure, rollback restores the state and not the log. Log and
  state then disagree exactly when the call closed a round and the rollback was stored
  (`AuditState.FinishAgreesExactly`).
- Record hashes do not cover event times below a microsecond (`AuditChain.SubMicrosecondTimesAreNotCovered`).
- A request can be acknowledged a second time exactly when it was issued after its first acceptance
  (`Replays.RepeatedRevocationExactly`, with the run in `Replays.RepeatedRevocationRun`).

## Model

| member | source | states |
|---|---|---|
| `Recovery.RecoveryIsUnobservable` | pkg/coordinator/durable_service.go:165-285 | For every state, every snapshot of it, and every later sequence of calls, the restored state gives the same answers and ends with the same model and pending updates, as long as no lapsed lease's generation counter could run out within that many calls; only generations of leases that had lapsed may differ |
| `Recovery.ExhaustedLapseIsObservable` | pkg/security/middleware.go:76-90 | Dropping a lapsed lease changes whether its node can register again if and only if its generation counter had run out |
| `Recovery.StepTwins` | pkg/coordinator/service.go:130-355 | One call on two indistinguishable states gives matching answers and indistinguishable states |
| `Recovery.FuturesMatch` | pkg/coordinator/service.go:130-355 | The same for every sequence of calls that the generation counters have room for |
| `Recovery.RestoredIsTwin` | pkg/coordinator/durable_service.go:214-285 | A state and its reload are indistinguishable although lapsed leases, old nonces and closed windows were pruned |
| `Recovery.NewLeaseAgrees` | pkg/security/middleware.go:57-102 | Registration decides alike in both states, with generations differing only for lapsed nodes |
| `Recovery.RevokeLeaseAgrees` | pkg/security/middleware.go:199-234 | Revocation decides alike, even where one state still holds a lapsed lease and the other does not |
| `Durable.FinishIsAtomic` | pkg/coordinator/durable_audit.go:11-41 | Acknowledged means memory and store hold the new state; "previous state restored" means both hold the old one; after a double failure memory holds the old state and the store one of the three states involved; restoring memory never fails |
| `Durable.UncommittedStaysWf` | pkg/coordinator/durable_service.go:59-114 | A call that commits nothing leaves memory fit for snapshots |
| `Worlds.NothingAcknowledgedIsLost` | pkg/coordinator/durable_service.go:59-142 | Through any calls, commit faults, crashes and restarts, store and memory are the end of a run of real service steps and reloads that contains every acknowledged call in order and, in order, only calls that were carried out |
| `Worlds.RolledBackCall` | pkg/coordinator/durable_audit.go:28-40 | After a rollback memory is the reload of what it was, and the store, whichever of the three states it holds, is still the end of such a run |
| `Worlds.RestartKeeps` | pkg/coordinator/durable_service.go:120-142 | A restart adds exactly the reload of the stored state to the run behind the store, also when its own commit fails |
| `Reachable.EveryWorldIsAccounted` | pkg/coordinator/durable_service.go:59-142 | In every reachable world the real runs behind store and memory contain every acknowledged call and nothing invented, their books balance, and no pending update belongs to a revoked lease |
| `Reachable.AcknowledgedRevocationStands` | pkg/coordinator/durable_credential_lifecycle.go:26-42 | Across faults, crashes and restarts, an acknowledged revocation is a tombstone in the store and in live memory until the announced time |
| `Reachable.AcknowledgedReplaysAreSeparated` | pkg/coordinator/service.go:342-355 | Across faults, crashes and restarts, two acknowledgements of one node with one nonce are more than the replay window apart |
| `Reachable.AcknowledgedUpdateIsKept` | pkg/coordinator/durable_service.go:59-114 | Across faults, crashes and restarts, an acknowledged update is pending or aggregated in store and memory, unless a revocation of its node was carried out |
| `Snapshots.CaptureRestorable` | pkg/coordinator/state_store.go:330-454 | Every snapshot taken between operations passes validation and can be restored, so rollback of memory never fails |
| `Snapshots.CaptureValid` | pkg/coordinator/state_store.go:382-413 | Right after a call, validation can object to the vector lengths only |
| `Snapshots.ReloadIs` | pkg/coordinator/durable_service.go:245-284 | Exactly what capturing and restoring keep of each table |
| `Snapshots.TablesStayOk` | pkg/coordinator/state_store.go:330-454 | Every call keeps every table in the form validation demands |
| `History.CallIsLegal` | pkg/coordinator/service.go:130-355 | The transition every call makes moves each table as stated, and keeps the tables in order |
| `History.ReloadIsLegal` | pkg/coordinator/durable_service.go:165-285 | So does the transition every reload makes: it keeps the round and every live lease, nonce and window, and adds nothing |
| `History.RunKeepsTables` | pkg/coordinator/state_store.go:330-454 | Tables stay in order along every run |
| `Moves.StepMoved` | pkg/coordinator/service.go:130-355 | How any call may move leases, nonces, rate windows and the round; for each answer, which lease was granted, extended, replaced or revoked, and that no other was touched |
| `Moves.SubmitMoved` | pkg/coordinator/service.go:199-326 | An accepted update was made for the current round and version by a node with none pending, and joins or closes the round; otherwise the round is untouched |
| `Moves.RevokeMoved` | pkg/coordinator/credential_lifecycle.go:50-91 | Revocation gives the target a tombstone with its lease's own generation and expiry, both announced, removes its pending update and rate window, and touches no other lease |
| `Moves.RotateMoved` | pkg/coordinator/credential_lifecycle.go:13-48 | Rotation replaces the caller's credential and generation as announced, consumes its nonce and keeps everything else |
| `Ledger.BooksBalance` | pkg/coordinator/service.go:249-326 | Rounds advance one at a time, each closing a batch of exactly the quorum from distinct nodes, all made for that round and one version; what is open is what is pending |
| `Ledger.UpdatesAreConserved` | pkg/coordinator/service.go:265-326 | Every acknowledged update is pending, in one closed round, or dropped, exactly as often as it was acknowledged |
| `Ledger.ClosedRoundModel` | pkg/coordinator/service.go:285-318 | A closed round's model decodes to the old vector plus the aggregate of exactly the pending updates and the last one, under matching digest and version |
| `Tombstones.RevokedNodeStaysOut` | pkg/security/middleware.go:57-102 | From revocation to the fixed expiry no calls and reloads give the node a usable or a new lease, or move the expiry |
| `Tombstones.TombstoneHolds` | pkg/security/middleware.go:139-324 | No run moves a tombstone before its expiry |
| `Tombstones.RevocationBlocks` | pkg/coordinator/credential_lifecycle.go:77-90 | An acknowledged revocation leaves a tombstone with the lease's own expiry, announces that expiry, and drops the pending update |
| `Tombstones.NoOrphansEver` | pkg/coordinator/credential_lifecycle.go:69-83 | No pending update ever belongs to a revoked lease |
| `Replays.ReplaysAreSeparated` | pkg/coordinator/service.go:342-355 | Two acknowledged calls of one node with one nonce are more than the replay window apart, reloads included |
| `Replays.NoSecondAcknowledgement` | pkg/coordinator/service.go:518-530 | A request acknowledged twice was issued after its first acceptance |
| `Replays.ReplayPossibleExactly` | pkg/coordinator/service.go:518-530 | The metadata test accepts again after the nonce has left the window if and only if the request was issued after the first acceptance |
| `Replays.RepeatedRevocationExactly` | pkg/coordinator/credential_lifecycle.go:50-91 | An identical revocation request is acknowledged a second time at some later moment if and only if it was issued after its first acceptance, while the leases involved last |
| `Replays.RepeatedRevocationRun` | pkg/coordinator/credential_lifecycle.go:50-91 | The run of two real steps that acknowledges one request twice |
| `Replays.RefusedReplayIsReplay` | pkg/coordinator/service.go:342-355 | A call refused as a replay repeats a nonce the same node used within the window |
| `Standard.NonceKeyInjective` | pkg/coordinator/service.go:349-349 | The key tells every node and nonce apart |
| `RateBound.RateIsBounded` | pkg/coordinator/service.go:328-340 | Between revocations any half-open minute contains fewer than twice the limit of a node's admitted submissions; stored counts stay within the limit |
| `EnvelopeStack.LengthsAlwaysAgree` | pkg/coordinator/envelope_service.go:82-129 | In every interleaving of enveloped submissions with other calls, commits and rollbacks, all pending vectors have one length, the model's when it has a payload; without durability, or else an earlier delivery collides with a named pending update |
| `EnvelopeStack.CheckedSubmissionsAggregate` | pkg/coordinator/envelope_service.go:95-129 | A submission that passed the checks is not refused for its shape, by aggregation or before its commit, unless a rolled back call brought updates back after the check, or a delivery collides with a named pending update |
| `EnvelopeStack.RefusedForShapeExactly` | pkg/coordinator/service.go:260-289 | A delivery that passes every other check is refused for its shape if and only if some update pending at that moment has another length; without durability, only when it would close the round |
| `EnvelopeStack.RevivedByRollback` | pkg/coordinator/durable_audit.go:28-40 | Updates come back after a check only through the rollback of a call inside which the pending updates were read |
| `EnvelopeStack.FailingInterleaving` | pkg/coordinator/envelope_service.go:195-202 | The run in which the pending updates are read between the step of a revocation and its rollback, and the submission that passed the checks is refused by the aggregation |
| `EnvelopeExample.InterleavingHappens` | pkg/coordinator/envelope_service.go:195-202 | That run exists for a concrete state and submission with the actual codec, keys and aggregation, whatever SHA-256 computes |
| `EnvelopeStack.StoppedOtherwise` | pkg/coordinator/envelope_service.go:118-126 | Without that interleaving the check stops the same submission |
| `Envelope.ShapeFailureExactly` | pkg/coordinator/service.go:285-289 | Aggregation at the quorum is refused for the shape if and only if some pending vector has another length than the newcomer |
| `Envelope.JoinedShapeExactly` | pkg/coordinator/service.go:269-326 | A newcomer of another length is refused exactly at the quorum and breaks the common length exactly below it |
| `Envelope.JoinKeepsLengthsExactly` | pkg/coordinator/state_store.go:398-406 | Lengths stay equal if and only if the newcomer has the length of the others |
| `Envelope.WithoutEnvelopeLengthsMix` | pkg/coordinator/service.go:260-283 | Without the envelope a bootstrap round accepts a vector of another length |
| `Envelope.ObservePending` | pkg/coordinator/envelope_service.go:195-224 | The loop finds the one length of the pending vectors, or reports that there is none |
| `Upgrade.OpeningBinds` | pkg/coordinator/durable_service.go:120-142 | Opening succeeds exactly for loadable state whose adopted policy is the runtime's, and binds it in the current schema keeping round and creation time; otherwise the store is untouched |
| `Upgrade.DifferingConfigurationIsRefused` | pkg/coordinator/durable_service.go:230-240 | Bound state is refused by, and untouched by, every differing configuration |
| `Upgrade.ConfigurationsDifferExactly` | pkg/coordinator/durable_service.go:236-240 | Configurations differ exactly when a setting, the model identifier or the experiment identity does |
| `Upgrade.BoundStateAdoptsNothing` | pkg/coordinator/durable_service.go:215-226 | State of the current schema adopts nothing: the upgrade happens once |
| `Upgrade.ReopeningIsStable` | pkg/coordinator/durable_service.go:241-243 | Reopening with the same configuration succeeds and keeps the policy, creation time included |
| `Upgrade.NormalizedStateIsValid` | pkg/coordinator/durable_service.go:136-140 | Validation never objects to the state that was just restored |
| `Upgrade.PlaceholdersPass` | pkg/coordinator/experiment.go:143-149 | The placeholders for missing identities pass validation |
| `AuditState.LogAgreesWithState` | pkg/coordinator/durable_audit.go:79-108 | With all-or-nothing commits the log stays an accepted chain whose closed rounds carry consecutive numbers, as many as the model advanced, each preceded by a quorum of updates accepted for it |
| `AuditState.FreshStoreAgrees` | pkg/coordinator/durable_service.go:122-129 | A freshly initialised store agrees with its log |
| `AuditState.FinishAgreesExactly` | pkg/coordinator/durable_audit.go:11-41 | After any committed or rolled back call, over all fates of both commits, the store agrees with its log unless a closing update with valid state and events was committed, reported as failed, and its rollback stored |
| `AuditState.LateFailureLeavesEvents` | pkg/coordinator/durable_audit.go:31-36 | In that case the restored state is stored again and the log keeps the round it closed |
| `AuditState.LoggedUpdateIsPending` | pkg/coordinator/durable_audit.go:85-97 | The logged update is the one that became pending: node, identifier, samples, count, round and version |
| `AuditState.LoggedEvents` | pkg/coordinator/durable_audit.go:99-107 | A round-aggregated event is logged exactly when the round closed |
| `AuditChain.AcceptedConcat` | pkg/coordinator/audit.go:221-259 | A concatenation is accepted exactly when its parts are, with the head carried over |
| `AuditChain.EqualHeadsMeanEqualRecords` | pkg/coordinator/audit.go:189-259 | Accepted chains of equal length and head agree record by record up to sub-microsecond times, or the records at the last disagreement collide |
| `AuditChain.AlignedRecordsAgreeExactly` | pkg/coordinator/audit.go:85-87 | For whole-microsecond times the agreement is exact |
| `AuditChain.SubMicrosecondTimesAreNotCovered` | pkg/coordinator/audit.go:177-215 | Verification cannot tell apart times within one microsecond, and tells apart all others or exhibits a collision |
| `AuditChain.VerifyAuditRecords` | pkg/coordinator/audit.go:221-259 | The loop accepts exactly the accepted chains |
| `AuditChain.AppendKeepsAccepted` | pkg/coordinator/postgres_audit.go:168-220 | Appending valid events keeps the chain accepted |
| `AuditChain.AppendAddsEvents` | pkg/coordinator/postgres_audit.go:186-218 | Appending keeps the old records and adds exactly the given events |
| `AuditChain.AppendAuditEvents` | pkg/coordinator/postgres_audit.go:168-220 | The insertion loop appends all events or, if one is invalid, nothing |
| `AuditPages.AcceptedPagesFormOneChain` | pkg/coordinator/postgres_audit.go:222-348 | Consecutive accepted pages of any sizes form one accepted chain starting at sequence one, of table rows whose time and type columns agree with their events |
| `AuditPages.StoredChainReadsBack` | pkg/coordinator/postgres_audit.go:222-348 | For the rows written for an accepted chain with whole-microsecond times every cursor and limit return exactly that stretch |
| `AuditPages.InsertedRowScansExactly` | pkg/coordinator/postgres_audit.go:309-348 | A row written for an accepted record scans back to it if and only if its time is in whole microseconds |
| `AuditPages.WrittenLogReadsBack` | pkg/coordinator/postgres_audit.go:168-290 | The log of any recordable events reads back in full, page by page |
| `Coordinator.RegistrationStore.Register` | pkg/security/middleware.go:57-102 | The entry and the table are those of the registration function |
| `Coordinator.RegistrationStore.Validate` | pkg/security/middleware.go:104-119 | True exactly for a usable lease |
| `Coordinator.RegistrationStore.Refresh` | pkg/security/middleware.go:139-160 | Extends exactly a usable lease |
| `Coordinator.RegistrationStore.Rotate` | pkg/security/middleware.go:162-197 | Replaces exactly a usable lease's credential |
| `Coordinator.RegistrationStore.Revoke` | pkg/security/middleware.go:199-234 | Tombstone, refusal and table are those of the revocation function |
| `Coordinator.CoordinatorService.AcceptNonce` | pkg/coordinator/service.go:342-355 | The pruning loop leaves exactly the nonces inside the window and records a new one |
| `Coordinator.CoordinatorService.AllowUpdate` | pkg/coordinator/service.go:328-340 | Admits exactly within the limit and charges the window |
| `Coordinator.CoordinatorService.RegisterNode` | pkg/coordinator/service.go:130-164 | New state and answer are those of the registration step |
| `Coordinator.CoordinatorService.SendHeartbeat` | pkg/coordinator/service.go:166-187 | New state and answer are those of the heartbeat step |
| `Coordinator.CoordinatorService.GetGlobalModel` | pkg/coordinator/service.go:189-197 | Answer of the model step; nothing changes |
| `Coordinator.CoordinatorService.JoinRound` | pkg/coordinator/service.go:269-325 | Adding an update, aggregating at the quorum, and undoing the addition on failure |
| `Coordinator.CoordinatorService.SubmitLocalUpdate` | pkg/coordinator/service.go:199-326 | New state and answer are those of the submission step |
| `Coordinator.CoordinatorService.RotateRegistration` | pkg/coordinator/credential_lifecycle.go:13-48 | New state and answer are those of the rotation step |
| `Coordinator.CoordinatorService.RevokeRegistration` | pkg/coordinator/credential_lifecycle.go:50-103 | New state and answer are those of the revocation step |
| `Coordinator.DurableService.Commit` | pkg/coordinator/state_store.go:181-191 | The store takes exactly valid snapshots, subject to its fate |
| `Coordinator.DurableService.RollBackTo` | pkg/coordinator/durable_audit.go:28-40 | Memory, store and answer are those of the rollback |
| `Coordinator.DurableService.Perform` | pkg/coordinator/durable_service.go:59-114 | Memory, store and answer are those of capture, step, commit or roll back |
| `Coordinator.DurableService.Recover` | pkg/coordinator/durable_service.go:120-142 | Memory and store are those of a restart |
| `Persisted.CaptureRecord` | pkg/coordinator/durable_service.go:165-212 | The loops write sorted lists without repeated keys that describe exactly the captured tables |
| `Persisted.ValidatePending` | pkg/coordinator/state_store.go:385-413 | The loop accepts exactly lists of distinct, sound updates of one length |
| `Persisted.ValidateRecord` | pkg/coordinator/state_store.go:330-454 | Validation accepts exactly lists without repeated keys whose table view is valid |
| `Persisted.RestoreLeases` | pkg/security/middleware.go:255-298 | All leases must be sound; lapsed ones are left out |
| `Persisted.RestoreRecord` | pkg/coordinator/durable_service.go:227-284 | Restores exactly the restorable snapshots |
| `Keyed.WriteTable` | pkg/coordinator/durable_service.go:191-202 | Visiting the table in any order writes the kept entries sorted by key |
| `Keyed.WrittenOnce` | pkg/coordinator/durable_service.go:178-202 | A table is written in exactly one way |
| `Keyed.ReadTable` | pkg/coordinator/state_store.go:415-438 | The reading loop accepts exactly items that are all good and have distinct keys |
| `PendingAggregate.AggregateMedian` | pkg/coordinator/service.go:405-439 | The loops over the unordered map compute the coordinate-wise median, whatever the order |
| `PendingAggregate.AggregateWeighted` | pkg/coordinator/service.go:441-472 | The running sums give the weighted mean, whatever the order |
| `PendingAggregate.WeightedIsMean` | pkg/coordinator/service.go:451-469 | With exact products this is the mean weighted by sample counts |
| `PendingAggregate.OrderIrrelevant` | pkg/coordinator/service.go:413-424 | Two visiting orders of one map collect the same values |
| `Standard.AddToModel` | pkg/coordinator/service.go:290-296 | The addition loop stops at the first non-finite sum and otherwise adds every coordinate |
| `Standard.EnvironmentIsSound` | pkg/coordinator/service.go:285-305 | The actual codec, keys, identifiers and aggregation meet every condition of the theorems |
| `Krum.SelectCandidates` | cpp/src/byzantine_aggregator.cpp:80-142 | Distances, partitioned scores and partial sort select what a full stable sort of exact scores selects |
| `Krum.KrumAggregate` | cpp/src/byzantine_aggregator.cpp:63-163 | Succeeds exactly for acceptable inputs, with the mean of the selected updates |
| `Krum.ScoreIsLowerBound` | cpp/src/byzantine_aggregator.cpp:115-124 | No other choice of that many distances has a smaller sum than the score |
| `Krum.ScoreIsAttained` | cpp/src/byzantine_aggregator.cpp:115-124 | Some choice attains it |
| `Krum.PartitionedPrefixIsScore` | cpp/src/byzantine_aggregator.cpp:115-124 | The partitioned prefix sums to the score |
| `Krum.ScoreOf` | cpp/src/byzantine_aggregator.cpp:106-125 | The copy, partition and accumulate loop computes the score |
| `Krum.DistanceMatrix` | cpp/src/byzantine_aggregator.cpp:80-96 | Computing each pair once fills the symmetric matrix |
| `KrumResilience.SelectedIsCloseToHonest` | cpp/src/byzantine_aggregator.cpp:71-142 | Every selected update is honest or within (n-f-2)/(n-2f-1) times D of an honest one |
| `KrumResilience.AggregateNearHonestRange` | cpp/src/byzantine_aggregator.cpp:144-162 | Every output coordinate lies within the covering radius of the honest range |
| `Distance.SquaredDistanceSimd` | cpp/src/simd_distance.cpp:18-101 | Whichever backend is active, the distance is the same |
| `Distance.SquaredDistanceLanes` | cpp/src/simd_distance.cpp:34-61 | Lane accumulators, horizontal sum and tail equal the plain sum |
| `Selection.NthElement` | cpp/src/byzantine_aggregator.cpp:115-119 | Quickselect splits the values at position k and permutes them |
| `Selection.PartialSort` | cpp/src/byzantine_aggregator.cpp:137-142 | The first k indices are the best by score, then index |
| `Selection.PartialSortAgreesWithStableSort` | benchmarks/benchmark_suite.py:181-197 | Partial sorting selects the first k of the full stable sort |
| `OrderStats.MedianBySelection` | cpp/src/byzantine_aggregator.cpp:208-250 | Quickselect plus maximum of the lower half is the sorted median |
| `OrderStats.MedianAggregate` | cpp/src/byzantine_aggregator.cpp:208-250 | Succeeds exactly for valid updates, with the median of every coordinate |
| `OrderStats.TrimmedMeanAggregate` | cpp/src/byzantine_aggregator.cpp:165-206 | Succeeds exactly when something is left after trimming, with the trimmed mean of every coordinate |
| `OrderStats.MedianOrderIrrelevant` | fl/zerotrust_fl/engine/coordinator.py:660-666 | The median does not depend on the order of updates |
| `OrderStats.TrimmedMeanOrderIrrelevant` | fl/zerotrust_fl/engine/coordinator.py:668-674 | Nor does the trimmed mean |
| `OrderStats.MedianWithinHonestRange` | cpp/src/byzantine_aggregator.cpp:208-250 | A strict honest majority confines the median to the honest range |
| `OrderStats.MedianNeedsMajority` | cpp/src/byzantine_aggregator.cpp:208-250 | Without a strict majority it can leave that range |
| `OrderStats.TrimmedMeanWithinHonestRange` | cpp/src/byzantine_aggregator.cpp:165-206 | Trimming at least as many as are adversarial confines the mean to the honest range |
| `OrderStats.TrimmedMeanNeedsTrim` | cpp/src/byzantine_aggregator.cpp:165-206 | Trimming fewer does not |
| `OrderStats.WeightedMeanWithinRange` | fl/zerotrust_fl/engine/coordinator.py:615-643 | A mean with positive weights stays within the range of its values |
| `AsyncRounds.EveryReachableStateInv` | fl/zerotrust_fl/engine/coordinator.py:258-451 | The protocol invariant holds in every reachable state, over all interleavings, deaths and results lost with a dying worker |
| `AsyncRounds.OneOutstandingItem` | fl/zerotrust_fl/engine/worker.py:139-170 | A live worker has exactly one outstanding item if it is busy and none otherwise |
| `AsyncRounds.DispatchNeverBlocks` | fl/zerotrust_fl/engine/coordinator.py:264-271 | The capacity-one command queue never blocks a dispatch |
| `AsyncRounds.ReceivedIsNeverStale` | fl/zerotrust_fl/engine/coordinator.py:361-368 | A result received from an awaited worker is for this round |
| `AsyncRounds.ConcludedRound` | fl/zerotrust_fl/engine/coordinator.py:273-310 | A concluded round has exactly its quorum of distinct successful results for that round |
| `AsyncRounds.ConcludedRoundIsAggregated` | fl/zerotrust_fl/engine/coordinator.py:273-310 | In every run, whatever workers were available, the updates of a concluded round are equally long, as many as checked at construction, and meet the Krum and trimming bounds |
| `Quorum.CollectRoundResults` | fl/zerotrust_fl/engine/coordinator.py:331-380 | Collection never exceeds the quorum and stops short only at the deadline or after too many failures |
| `Quorum.Shortfall` | fl/zerotrust_fl/engine/coordinator.py:358-378 | Giving up means that more workers failed than the round can spare |
| `Quorum.RoundPartition` | fl/zerotrust_fl/engine/coordinator.py:302-310 | Completed, failed and straggling workers partition the selection |
| `Quorum.QuorumIsConstant` | fl/zerotrust_fl/engine/coordinator.py:524-536 | However many workers are available, a round that starts needs the number of results checked at construction |
| `Quorum.RoundMeetsAggregatorBounds` | fl/zerotrust_fl/engine/coordinator.py:538-555 | A round that reaches the quorum checked at construction meets the Krum and trimming bounds checked there |
| `NpyRoundTrip.DecodeOfEncode` | pkg/coordinator/npy.go:81-112 | Every nonempty finite vector survives encoding and decoding bit for bit |
| `NpyRoundTrip.DecodeEncodeDecode` | pkg/coordinator/npy.go:16-112 | Whatever decodes is re-encoded to something that decodes to the same vector |
| `NpyRoundTrip.HeaderLengths` | pkg/coordinator/npy.go:91-101 | The data offset is a multiple of 16 and the header length fits its field |
| `NpyRoundTrip.DecodeNpy` | pkg/coordinator/npy.go:16-79 | The decoding loops compute the decoding function, errors included |
| `NpyRoundTrip.EncodeNpy` | pkg/coordinator/npy.go:81-112 | The encoding loop computes the encoding function, errors included |
| `Npy.Decode` | pkg/coordinator/npy.go:16-79 | Decoded vectors are nonempty, finite and no longer than a machine integer |
| `Manifest.CanonicalInjective` | pkg/coordinator/envelope_service.go:281-318 | Different manifests have different canonical encodings |
| `Manifest.SchemaFixesLength` | pkg/coordinator/envelope_service.go:248-297 | Equal schema digests of flat vectors mean equal lengths, or the two encodings collide |
| `Manifest.ModelSchemaDigest` | pkg/coordinator/envelope_service.go:281-318 | The writer loops hash exactly the canonical encoding |

## Left out

- Floating-point rounding: aggregation is over exact reals; float32 values are bit patterns whose conversion, weighting and rounding are parameters. The ARM distance loop subtracts in float32 before widening, which exact reals do not show.
- Machine-integer wrap-around: lengths, round numbers and sample counts are unbounded; decoder facts are stated for counts up to the largest machine integer. The 64-bit generation limit is modelled.
- Trim counts are integers; the floor of a float32 or float64 fraction is not modelled.
- Each call reads the clock once. The source reads it again for each registry access and snapshot inside one call; the second lease validation under the round lock then repeats the first.
- Lengths of reasons and identifiers are counted in characters, not in UTF-8 bytes.
- gRPC status codes and message texts: faults are an enumeration, one per error return; two error returns with one visible text share a fault.
- TLS, PKI, JWT, post-quantum key exchange and interceptors: an authenticated identity is an input.
- Randomness: fresh identifier bytes, or the failure to draw them, are inputs. That fresh identifiers are unused is not assumed.
- JSON, protobuf, SQL, files and S3: stored records are values, and a commit is one step that succeeds, fails before, or fails after taking effect. The size limit of the state file is not modelled.
- `EnvelopeService.GetGlobalModel` decoration of served models, `IsRegistered`, and the exporter of audit records: they would only add easy members.
- Experiment metadata is taken as configured; how its default digest is computed is not modelled.
- Torch's top-k order among equal scores, worker shutdown, local training, attacks, privacy noise, evaluation, telemetry, the dashboard, CKKS and CUDA.
- Quorum.CollectRoundResults: time is the sequence of observations made before the deadline.
