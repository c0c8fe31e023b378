# Models of the Flyte control plane

Proofs in Dafny 4.11 about the parts of the repository whose correctness rests on interleavings, on recursion over
types, or on arithmetic at the bit level. `dafny verify dfyconfig.toml` checks all of it.

| component | files | form |
|---|---|---|
| TaskAction watch pipeline: informer, sharded workers, watch streams, run service, terminal label | `Phases`, `WatchPipeline`, `PipelineHistories`, `NoLostUpdates`, `Coalescing`, `TerminalLabels`, `WatchStreams`, `EndedStreams`, `ServiceHistory`, `ServiceConverges`, `WatchClient` | a state machine of 17 atomic steps; classes for the client's maps and channels, tied to its steps |
| Signal, PutStatus and the reconciler as version-checked writers | `Signals`, `SignalOutcomes` | a state machine over the versions of one resource |
| cache reservations, and Put under them | `ReservationTable`, `Leases`, `CacheManager`, `CachePuts` | a state machine of repository statements; classes for the repository and the manager, whose methods meet another table at each statement |
| abort reconciler: dedup queue, workers, timers, backoff | `AbortQueue`, `AbortRequests`, `DedupeQueue`, `Backoff`, `Reconciler` | a state machine of tokens and requests; classes for the queue and the reconciler, tied to its steps; 64-bit durations |
| auto-refresh cache | `RefreshRaces`, `ProcessingMarks`, `AutoRefresh` | a machine for the races, a timed machine for the processing marks, a class for the cache |
| CompactArray over BitSet | `Words`, `BitPositions`, `BitSet`, `PackedItems`, `FloatWidths`, `CompactArray` | classes over arrays of 32-bit blocks, and the rounding of the item width |
| opposite-of-Bloom filter | `OppoBloom` | a class over an array of slots |
| Redis listing and its draining loop | `Decimals`, `StringOrder`, `RedisList` | loops over scan replies, and a specification of pages |
| SQL migrations | `Like`, `MigrationNames`, `Migrations` | a class for the database, and a LIKE matcher |
| launch-form converter | `Jsons`, `LiteralTypes`, `LiteralValues`, `SchemaMeaning`, `LiteralRoundTrips`, `LaunchForm`, `FormDefaults` | recursive functions over types, literals and JSON; loops for the forms |

## Assumptions

* The informer writes its cache before it calls a handler, calls handlers one at a time, and may skip versions. Cache
  reads fail only with not found. A name is not created again after its deletion. `ListChildActions` sees the latest
  versions. A final phase is not taken back; the executor leaves finished actions alone.
* A resource is reconciled by one call at a time, whose first read is at least as new as the last version a reconciler
  wrote.
* Every repository call is one atomic statement with the effect its SQL gives it. `CURRENT_TIMESTAMP` columns are left out.
* `math.Log2` is exact at powers of two and never decreases; the sum in it that adds an exponent k first rounds down to k
  at k = 49. How far above each larger power it does so, and `uint` of a negative infinity, are parameters.
* The database compares versions byte by byte. Calls of Migrate and Rollback do not overlap: Migrate holds an advisory
  lock, Rollback takes none, so callers see to it.
* A SCAN ends, and a complete one returns every matching key at least once. Memory holds fewer than 2^62
  keys. A compare-and-swap loop is one atomic swap.
* MD5 digests and FNV hashes are arbitrary functions. RFC 3339 times and Go duration texts are the parameters `Formats`
  of the converter.

## Findings

Where a promised property fails, a lemma gives the input and a theorem gives the exact condition.

* A signal can be accepted and stored while a reconciler is about to write, and the condition still times out, since
  `persistStatusWithRetry` reads again but does not decide again (`LateSignalTimesOut`; `ReadDecidesCondition` says which
  version decides). In the same way a task's reconciler drops the attempts of an acknowledged PutStatus, since what it
  writes is made of those it read first (`TaskReconcileDropsAttempts`; `TaskWriteKeepsExactly` says exactly when).
* A child whose parent carries the terminal-status-recorded label, or whose run spec sets that label, is born with it:
  the run service never hears of it (`LabelIsInherited`; `LabelMeansRecorded`, `BornLabelledIsInvisible`), and a stream
  shows it as first listed and never its end (`LabelledEndIsNotShown`; `BornLabelledIsShownOnce`).
* An owner that extends a reservation with a shorter heartbeat can lose the key to another owner while its first lease
  still runs (`ShorterHeartbeatBreaksExclusivity`), exactly if the new expiry lies before the one it was told
  (`ExtensionIsSafeExactly`). A configuration too large for a 64-bit duration grants leases that are over at once
  (`HugeTermIsNegative`; `FirstCallIsGranted` says exactly when). A call whose row is released between its refused write
  and its last read gets an internal error (`ReleaseFailsCall`; `CallStep` has the exact condition).
* A lease does not protect its holder from itself: of two overlapping plain Puts of one owner the second replaces the
  first (`OwnPutsReplace`). `AtomicExactly` and `PlainPutNeverReplaces` have the exact condition.
* An abort asked for after the abort call of an earlier one has returned, and before its key is removed, is dropped as a
  duplicate (`GivenUpRequestIsLost`; `LostExactly`, and `LostForGoodExactly` for the flag in the database). A new request
  sets the counter back below an attempt in flight, which may add one retry, not more (`ResetAddsRetry`,
  `RetriesAfterReset`).
* The retry delay panics for some configurations of long delays, without overflow for the longest one
  (`RetriesAreSafe`, `LargestDelayPanics`, `OverflowPanics`).
* `GetOrCreate` takes no lock, so a terminal item of the auto-refresh cache can be replaced in two ways (`CreateRace`,
  `EvictionRace`; `TerminalIsAbsorbing` says exactly when), and it may mark an item whose event a worker has already
  taken (`MarkCanOutliveItsEvent`, exactly as `MarkOutlivesExactly` says), which then waits for the mark to expire.
* The item width of a CompactArray is computed in floating point and is one bit short for 2^49, for 2^53, and for some
  other values above 2^49 (`PowersMisfit`; exactly as `WidthHoldsExactly` says), and 2^63 is accepted as a largest value
  that then cannot be stored (`HalfRangeIsMisfit`). Below 2^49 it is exact (`SmallWidthsHold`).
* Migration names that go on from another one with a character below the dot, or with a dot and something before `sql`,
  are applied in another order than Rollback undoes them (`LowCharactersDisagree`, `DotsDisagree`;
  `LargestIsLastExactly` has the exact condition).
* Rollback takes its prefix for a LIKE pattern. Where that matches another service's prefix, it deletes the other's record
  and runs its own down script (`LargerVersionGoes`, `UnderscoreReaches`; `HarmlessExactly` has the exact condition). The
  underscore of `cache_service` does no harm beside `runs` (`UsedPrefixesAreSeparate`).
* Listing panics for a page size so large that the sum with the offset wraps round (`PagePanicsExactly`); the draining
  loop of a download never meets this (`DrainAll`).
* Subscriber keys of different pairs can collide if a run name holds a slash (`SlashesCollide`; `KeysCollideExactly`).
* Integers that are no float64 value, maps with an entry `"type": "null"`, and floats in a union that lists integers
  first do not come back from a launch form (`BigIntegerIsLost`, `NullShapedMapIsLost`, `FloatInIntegerUnionIsLost`).
* The filter reports an empty id as present in an empty slot, against its documentation (`OppoBloomFilter.Add`).

## Model

| member | source | states |
|---|---|---|
| NoLostUpdates.NoUpdateIsLost | actions/k8s/client.go:577-634 | In every reachable state, a cached unlabelled version that was not handled has an event pending with the right worker: waiting for the handler, being sent, in its shard, just taken, or its worker is about to read the cache. An unhandled deletion likewise has a delete event on the way. |
| NoLostUpdates.MarkMeansInTransit | actions/k8s/client.go:585-600 | The dispatched mark of an action is held only while an event of that action is being sent, sits in its own shard, or was just taken by its worker. |
| Coalescing.AtMostOneEvent | actions/k8s/client.go:585-600 | Of every action, in every reachable state, at most one event that is no deletion is being sent, waits in the channel or was just taken, and there is one exactly while the dispatched mark is set. |
| Coalescing.CoalescedStep | actions/k8s/client.go:585-617 | Every step keeps that, and that nothing of an action comes after its deletion. |
| NoLostUpdates.QuietIsCaughtUp | actions/k8s/client.go:602-634 | When nothing is under way, every live unlabelled action was handled at the version the cache holds. |
| NoLostUpdates.QuietDeletionsWereHandled | actions/k8s/client.go:609-615 | When nothing is under way, every deletion the cache knows of was handled, unless the action was labelled or gone before the informer first saw it. |
| NoLostUpdates.InvStep | actions/k8s/client.go:515-600 | Each single step of API server, informer, worker, watcher or label patch keeps the whole invariant of the pipeline. |
| PipelineHistories.StepSound | actions/k8s/client.go:559-573 | Every step keeps the facts about histories: events carry versions that exist, all events of a name go to one first-in-first-out worker, and no count runs ahead of the cache. |
| NoLostUpdates.StepCovers | actions/k8s/client.go:577-634 | Every step keeps the two coverage facts: a mark means an event in transit, and nothing cached is lost. |
| NoLostUpdates.InvRun | actions/k8s/client.go:515-634 | The invariant holds in every state of every run. |
| NoLostUpdates.VersionsAreThere | actions/k8s/client.go:617-634 | The conditions under which a step reads a version always hold, so no run of the model is cut short by them. |
| WatchStreams.StreamsConverge | actions/service/actions_service.go:106-171 | Once everything stored has reached the cache and nothing is under way, the last message a drained stream sent for a live child carries its final phase, in every interleaving of subscription, snapshot, updates and delivery, older queued updates included. |
| WatchStreams.StreamsConvergeOnDeletion | actions/k8s/client.go:602-633 | Once the pipeline is quiet, the last message a drained stream sent for a deleted, unlabelled action that was ever notified is the deletion itself, with a final phase. |
| EndedStreams.LastOfLabelled | actions/k8s/client.go:602-633 | Of a deleted child whose end had been recorded, the last message a drained stream sent is a final phase, and where it is about a live version it is the phase the run service accepted. |
| EndedStreams.LastOfUnnotified | actions/service/actions_service.go:106-122 | Of an action that was never notified, the last message a stream sent is its snapshot's: the phase of a version that was live. |
| EndedStreams.BornLabelledIsShownOnce | actions/k8s/client.go:396-429 | A stream shows an action created with the label only as it was when the stream listed: every message about it is of a live version of that listing, and none is ever added. |
| EndedStreams.LabelledEndIsNotShown | actions/k8s/client.go:713-718 | A run in which a stream lists such a child before it has a phase, the child succeeds, and when everything is quiet the last word of the stream is still the first one. |
| EndedStreams.CaughtUpRun | actions/k8s/client.go:617-633 | In every state the version read last of an action was notified, or its worker is just about to. |
| EndedStreams.StreamDrains | actions/service/actions_service.go:125-171 | From every state, a stream that has listed can send all that its channel holds, in order, and nothing else changes. |
| Phases.OverExactly | actions/k8s/client.go:884-890 | A phase is final exactly if it is none of those in which an action waits or works. |
| WatchStreams.StreamRun | actions/service/actions_service.go:106-171 | In every run each stream follows what was notified, and what was notified follows what was read. |
| WatchStreams.ListFollows | actions/service/actions_service.go:106-122 | Subscribing before listing suffices: a snapshot put before whatever is queued leaves the stream up to date. |
| WatchStreams.OfferFollows | actions/k8s/client.go:721-733 | A non-blocking send keeps a stream up to date unless the channel was full. |
| WatchStreams.KeysAreDistinct | actions/k8s/client.go:452-454 | For run names without a slash, two subscriber keys are equal exactly if run and parent are. |
| WatchStreams.SlashesCollide | actions/k8s/client.go:452-454 | With a slash in a run name, two different pairs share one key. |
| WatchStreams.KeysCollideExactly | actions/k8s/client.go:452-454 | For all pairs: two different scopes share a key if and only if one run is the other's followed by a slash and some text, and the other's parent is that text followed by a slash and this parent. |
| WatchStreams.OffersStayInScope | actions/k8s/client.go:721-733 | An update only ever changes streams of its own run and parent, and is appended there unless it was lost. |
| TerminalLabels.LabelMeansRecorded | actions/k8s/client.go:738-849 | An action carries the terminal-status-recorded label together with an accepted terminal phase exactly if it was not born with the label; then the accepted phase is the final one. Holds for every pattern of failing calls; that label and phase do come is said by ServiceConverges.EndIsRecorded. |
| TerminalLabels.BornLabelledIsInvisible | actions/k8s/client.go:713-718 | An action created with the label is never recorded and never updated at the run service, and no update of it is broadcast to streams. |
| TerminalLabels.BornLabelledHasSource | actions/k8s/client.go:1086-1095 | It got the label from its run spec, or from a parent that carries it still. |
| TerminalLabels.LabelIsInherited | actions/k8s/client.go:1055-1095 | A run with a root whose run spec sets the label and a child that inherits it: the child ends, its final version reaches the handler, and the pipeline is quiet. |
| TerminalLabels.SkippedWasRecorded | actions/k8s/client.go:742-790 | RecordAction is skipped only for an action whose RecordAction succeeded earlier, whatever shares its filter slot. |
| TerminalLabels.LabelledIsSkipped | actions/k8s/client.go:617-634 | No version that carries the label, or is gone, is ever handled, whichever event led to it. |
| TerminalLabels.LabelStep | actions/k8s/client.go:904-922 | Every step keeps the relation between labels, origins and what the run service accepted. |
| TerminalLabels.LabelRun | actions/k8s/client.go:738-922 | That relation holds in every state of every run. |
| ServiceHistory.RecordedExactly | actions/k8s/client.go:738-800 | In every run, the run service knows an action if and only if a RecordAction of it succeeded, whatever the filter skipped. |
| ServiceHistory.AcceptedExactly | actions/k8s/client.go:811-848 | In every run, the final phase that the run service holds of an action is that of the last UpdateActionStatus of it that succeeded with one, and there is none without such a call. |
| ServiceHistory.NewsOfKinds | actions/k8s/client.go:515-557 | An action is announced as added the first time the informer shows it, as modified from then on, and as deleted exactly when it is gone. |
| ServiceHistory.LabelsAndLivesExactly | actions/k8s/client.go:904-922 | In every run, an action exists if and only if it was created and not removed, and it carries the label if and only if it was created with it or a label patch that went through found it. |
| ServiceConverges.EndIsRecorded | actions/k8s/client.go:738-922 | If the calls about an action succeed, then whenever the pipeline is quiet and the cache holds a final phase of a live action that was not born with the label, the run service recorded the action and accepted that phase, and the action is labelled. |
| ServiceConverges.DeletionIsRecorded | actions/k8s/client.go:653-658 | If they succeed and the informer saw such an action and then its deletion, then once the pipeline is quiet the run service recorded it and accepted its end: the phase of the version that the deletion carried if that is final, and an abort otherwise. |
| ServiceConverges.HandledIsTold | actions/k8s/client.go:738-922 | If they succeed, then in every quiet state each action that was handled is recorded, and if it was handled at a final phase that is accepted and a live action labelled. |
| ServiceConverges.TellingStep | actions/k8s/client.go:602-634 | Every step, of any actor and about any action, keeps what was read last of an action told or being told. |
| ServiceConverges.EndingStep | actions/k8s/client.go:602-634 | Every step keeps the deletion of an action, with the version it carries, on its way, being told or told. |
| WatchClients.ActionsClient.constructor | actions/k8s/client.go:94-125 | A new client has empty channels and no marks: the initial state of the pipeline. |
| WatchClients.ActionsClient.Subscribe | actions/k8s/client.go:456-467 | A fresh open channel joins the registered ones, and all of them stay open and filed under their key. |
| WatchClients.ActionsClient.Unsubscribe | actions/k8s/client.go:470-482 | The channel is closed and leaves the registry, whose other channels stay open. |
| WatchClients.ActionsClient.NotifySubscribers | actions/k8s/client.go:721-733 | Only registered, hence open, channels are sent to, and each ends with the queue the pipeline gives its stream. |
| WatchClients.ActionsClient.HandleInformerEvent | actions/k8s/client.go:577-600 | The handler on the real map and channels does what the pipeline does in its dispatch and send steps. |
| WatchClients.ActionsClient.TakeEvent | actions/k8s/client.go:559-621 | The head of the worker loop does what the pipeline does in its pop and unmark steps. |
| WatchClients.Channel.TrySend | actions/k8s/client.go:726-731 | A send on an open channel appends below capacity and loses the message at capacity. |
| WatchClients.SendAll | actions/k8s/client.go:726-732 | Every channel of the set gets the message, or loses it, on its own capacity. |
| Signals.SignalIsWriteOnce | actions/k8s/client.go:299-354 | Over every interleaving of Signal, PutStatus and reconcile calls, a stored signal never changes, has the declared kind, and belongs to a condition whose spec can be read. |
| Signals.SuccessMeansStored | actions/k8s/client.go:299-354 | A Signal call that returned success has its value stored, then and in every later state. |
| Signals.SuccessesAgree | actions/k8s/client.go:315-325 | Two Signal calls that succeeded were given the same value. |
| Signals.FinalPhaseStays | executor/pkg/controller/taskaction_controller.go:337-343 | A final phase is never replaced, and a condition that succeeded was signalled. |
| Signals.ReadDecidesCondition | executor/pkg/controller/taskaction_condition.go:47-104 | A condition that is reconciled succeeds exactly if its signal was stored in the version the reconciler first read, and the write leaves the signal alone; the other outcomes are said by SignalOutcomes.ConditionEndsExactly. |
| SignalOutcomes.ConditionEndsExactly | executor/pkg/controller/taskaction_condition.go:52-104 | In every run, a write of its reconciler ends a condition succeeded if and only if the version read first was signalled, failed if and only if it was not and the spec cannot be read, timed out if and only if neither and the deadline had passed, and leaves it paused, which is not final, if and only if none of these; nothing else of the status changes. |
| SignalOutcomes.WaitingTakesSignal | actions/k8s/client.go:292-354 | From every state in which a condition with a readable spec has no signal and no final phase, a Signal with a value of the declared type can be stored. |
| SignalOutcomes.SignalAlone | actions/k8s/client.go:292-354 | A Signal call that meets no other ends with each refusal exactly under the condition for it, in their order, and otherwise with its value stored and nothing else changed. |
| SignalOutcomes.PutStatusAlone | actions/k8s/client.go:261-288 | A PutStatus that meets no other call leaves exactly the attempts and cache status it was given, and writes a version if and only if one of them is new. |
| SignalOutcomes.UpdateIsChecked | actions/k8s/client.go:284-354 | In every run, an update is stored if and only if the resource still exists and is as its call last read it; then its version is the next one, and the call succeeds if and only if the answer arrives. Otherwise a Signal reads again and a PutStatus fails. |
| SignalOutcomes.NothingAfterDeletion | actions/k8s/client.go:261-354 | Once the resource is deleted, its status does not change any more. |
| SignalOutcomes.DeletedIsNotFound | actions/k8s/client.go:261-354 | A Signal or PutStatus that begins then ends with not found, unless the value is no primitive literal. |
| Signals.LateSignalTimesOut | executor/pkg/controller/taskaction_condition.go:122-142 | A run in which a signal is accepted and stored between the read and the retried write of a reconciler, and the condition still ends timed out. |
| Signals.TaskReconcileDropsAttempts | executor/pkg/controller/taskaction_controller.go:462-520 | A run in which an acknowledged PutStatus of more than one attempt is overwritten by a reconciler that had read none and observes its first. |
| Signals.TaskWriteKeepsExactly | executor/pkg/controller/taskaction_controller.go:462-520 | In every run, a write of a task's reconciler stores what it made of the version it first read: the attempts of that version but at least one, one more on a restart, the same on a permanent failure. So it keeps the stored attempts if and only if they are these, and likewise the cache status. |
| SignalOutcomes.TaskEndsExactly | executor/pkg/controller/taskaction_controller.go:462-520 | In every run, a write of a task's reconciler stores the observed phase and cache status with the attempts read but at least one; a restart is queued with one attempt more and no cache status; a permanent failure or a refusal only fails the version read, and a system error leaves it. Attempts are never fewer than those read. |
| Signals.WrittenOnceKeepsAttempts | executor/pkg/controller/taskaction_controller.go:232-252 | A system error or a refused spec is written on the version read or not at all, so it never changes attempts or cache status that were stored meanwhile. |
| Signals.PutStatusBetweenIsLost | executor/pkg/controller/taskaction_controller.go:717-777 | So what a PutStatus stores between that read and that write survives if and only if it is what the reconciler makes of the version it read. |
| Signals.AttemptsHaveAWriter | actions/k8s/client.go:261-293 | Attempts and cache status change only by a PutStatus that asked for the new ones, or by the reconciler of a task. |
| Signals.WritersKeepEachOther | actions/k8s/client.go:261-293 | Between two successive versions of a condition only the fields of one writer change; of any resource a signal is only ever added, and then nothing else changes. What a task's reconciler does to attempts and cache status is said by TaskWriteKeepsExactly. |
| Signals.InvStep | actions/k8s/client.go:261-354 | Every step of any writer keeps the invariant, and versions only grow. |
| Signals.NextVersion | actions/k8s/client.go:287-292 | A write that passes the version check changes the latest version only as its kind of writer may, although a reconciler decided on an older one. |
| ReservationTable.NewConfig | cache_service/manager/manager.go:42-60 | A positive heartbeat or grace multiplier is kept, any other is replaced by 10 seconds or 3. |
| ReservationTable.ResolvedHeartbeat | cache_service/manager/manager.go:235-241 | The requested heartbeat where it is positive and at most the maximum, and the maximum in every other case. |
| ReservationTable.TermIsExact | cache_service/manager/manager.go:166-172 | The time a lease is given is heartbeat times grace multiplier exactly if that product fits a 64-bit duration; the product is always positive. |
| ReservationTable.ShortestTerm | cache_service/manager/manager.go:166-172 | In every configuration the shortest heartbeat is given a positive time. |
| ReservationTable.HugeTermIsNegative | cache_service/manager/manager.go:166-172 | A configuration whose leases end before they begin. |
| LeaseProtocol.LeasesAreExclusive | cache_service/manager/manager.go:157-211 | At any moment of any run in which no owner puts back its own expiry and no clock runs ahead, all unexpired, unreleased leases handed out on a key belong to one owner. |
| LeaseProtocol.KeptLeasesAreExclusive | cache_service/manager/manager.go:157-211 | In any run in which no clock runs ahead, two running leases on a key that their owners have not released or shortened belong to one owner, whatever any other owner did with its own. |
| LeaseProtocol.ExtensionIsSafeExactly | cache_service/manager/manager.go:157-191 | An owner whose lease runs, and who extends it in a call that meets no one else, can lose that lease to another owner while it runs if and only if the expiry the call stores, computed in 64-bit durations, lies before the expiry it was told. |
| LeaseProtocol.ShorterExtensionLosesLease | cache_service/manager/manager.go:157-191 | Where the extension ends earlier, every other owner can be told it holds the key while the first lease still runs. |
| LeaseProtocol.LongExtensionKeepsLease | cache_service/manager/manager.go:157-191 | Where it does not, no continuation gives the key to anyone else while the first lease runs. |
| LeaseProtocol.FirstCallIsGranted | cache_service/manager/manager.go:174-191 | The first call on a key begins a lease of its owner if and only if the heartbeat times the grace multiplier, in Go's 64-bit durations, is positive. |
| LeaseProtocol.ShorterHeartbeatBreaksExclusivity | cache_service/manager/manager.go:157-211 | Without that condition there is a run in which two owners hold unexpired leases on one key. |
| LeaseProtocol.OwnershipMoves | cache_service/repository/impl/reservation.go:35-80 | A key changes hands only by an update of a row expired at the claimer's time, vanishes only by its own owner's release, and appears only by an insert. |
| LeaseProtocol.ReturnedRowWasStored | cache_service/manager/manager.go:157-211 | A row that a call returns was in the table at some moment of that call. |
| LeaseProtocol.FailsOnlyAfterRelease | cache_service/manager/manager.go:193-210 | A well-formed call that the repository does not fail ends in an error only if its key was released while it ran. |
| LeaseProtocol.FailsExactly | cache_service/manager/manager.go:157-206 | In every run, a call ends in an error if and only if a repository statement of it failed, its key or owner was missing, or its last read found no row. |
| LeaseProtocol.ReleaseFailsCall | cache_service/manager/manager.go:193-210 | A run, for any two owners, in which a call ends in an error because the holder releases between its refused write and its last read. |
| LeaseProtocol.RowVanished | cache_service/manager/manager.go:193-210 | A row that a call saw and that is gone was taken by a release in between. |
| LeaseProtocol.ReturnStaysHeld | cache_service/manager/manager.go:157-211 | From the moment a call is told its owner holds the key, the recorded expiry of that owner is at least the one returned, until that owner releases or stores an earlier one. |
| LeaseProtocol.InvStep | cache_service/manager/manager.go:157-233 | Every step of callers whose clocks do not run ahead keeps the table and the record of held leases in agreement, a write whose answer is lost included. |
| LeaseProtocol.InvRun | cache_service/manager/manager.go:157-233 | That agreement holds in every state of every such run. |
| LeaseProtocol.CallStep | cache_service/manager/manager.go:157-211 | Each outcome of a call is tied to the table of that very moment: a returned row is the stored one, and a call that the repository does not fail ends in an error exactly if its last read finds no row. |
| LeaseProtocol.CallAlone | cache_service/manager/manager.go:157-191 | An undisturbed call on a claimable key stores the caller's own row and returns it. |
| CacheManager.ReservationRepo.Find | cache_service/repository/impl/reservation.go:25-33 | Succeeds exactly if the key has a row, and then gives that row; the only error is not found. |
| CacheManager.ReservationRepo.Insert | cache_service/repository/impl/reservation.go:35-49 | Inserts if and only if the key is absent, and reports a conflict otherwise. |
| CacheManager.ReservationRepo.UpdateClaimable | cache_service/repository/impl/reservation.go:51-66 | Replaces the row if and only if it is expired at the given time or already the caller's. |
| CacheManager.ReservationRepo.Remove | cache_service/repository/impl/reservation.go:68-80 | Deletes the row if and only if it belongs to the given owner. |
| CacheManager.Manager.constructor | cache_service/manager/manager.go:42-60 | A new manager always has a usable configuration. |
| CacheManager.Manager.GetOrExtendReservation | cache_service/manager/manager.go:157-211 | Whatever tables its three statements meet, the caller's row is stored exactly when it may be and is then what is returned; otherwise the row read last is returned and nothing is written, or an error if that row is gone; empty keys and owners are refused. |
| CacheManager.Manager.ReleaseReservation | cache_service/manager/manager.go:217-233 | Deletes exactly the caller's own row; a missing or foreign one is a success that changes nothing. |
| CachePuts.PutUnderLeaseIsAtomic | cache_service/manager/manager.go:90-131 | A Put whose write is covered by its caller's unexpired lease since the read, and that no other Put of the same owner overtook, finds the entry it read, or none, and stores its own; the creation time survives unless the request names one, and no other key changes. |
| CachePuts.AtomicExactly | cache_service/manager/manager.go:90-131 | For every Put under its caller's lease: at the write the entry is the one that was there at the read, or gone, if and only if no Put of the same owner stored one in between that is still there. |
| CachePuts.OnlyOwnPutsOvertake | cache_service/manager/manager.go:90-131 | Under a lease, only Puts of the same owner can have stored an entry on the key between the read and the write. |
| CachePuts.OvertakenExactly | cache_service/manager/manager.go:90-131 | With or without leases, the entry is the one read, or gone, exactly if nothing was stored since that was not deleted again. |
| CachePuts.OwnPutsReplace | cache_service/manager/manager.go:90-131 | A run from a granted lease in which two overlapping plain Puts of its holder both read nothing, and the second replaces the first. |
| CachePuts.PlainPutNeverReplaces | cache_service/manager/manager.go:98-108 | Under its caller's lease a Put without overwrite or maximum age replaces an entry if and only if a Put of the same owner overtook it. |
| CachePuts.WriteIsStillAllowed | cache_service/manager/manager.go:98-108 | Under its caller's lease, and not overtaken by a Put of the same owner, a write still passes the guard that was passed at the read against the entry it replaces; which Puts pass it is said by RefusedExactly. |
| CachePuts.RunningWasNotBlocked | cache_service/manager/manager.go:98-108 | In every run, with leases or without, a Put that got past its guard would get past it at any later time, on the entry it read. |
| CachePuts.RefusedExactly | cache_service/manager/manager.go:98-112 | In every run, a Put is refused if and only if at its read the key had an entry, the request did not overwrite it, and had no maximum age or one that the entry had not passed. |
| CachePuts.PutAlone | cache_service/manager/manager.go:90-138 | A Put that meets no other call stores its uri exactly if it may, an overwriting one always, with the update time of the call and the creation time of the request, of the entry it replaces, or of the call, and changes no other key. |
| CachePuts.CreatedAtStays | cache_service/manager/manager.go:243-263 | Over any history of Puts under leases without a delete and without a supplied creation time, CreatedAt keeps its first value, unless a Put that read before the history began was overtaken by one of its own owner. |
| CachePuts.UncoveredPutsReplace | cache_service/manager/manager.go:90-131 | Without leases, two plain Puts that both read nothing make a run in which the second replaces the first. |
| CachePuts.InvStep | cache_service/manager/manager.go:90-131 | Every step keeps the owner of a covered Put the holder of its key. |
| AbortQueue.OneLiveToken | runs/service/abort_reconciler.go:70-108 | In every reachable state a key is in the dedup set exactly if there is one, and only one, token for it that is being sent, queued, processed, cleared or waiting, a Push between a timer's delete and its re-push included. |
| AbortQueue.NeverProcessedTwice | runs/service/abort_reconciler.go:206-233 | Two workers never process the same action at once. |
| AbortQueue.RetriesAreBounded | runs/service/abort_reconciler.go:220-273 | As long as an action's counter is not set back, by a clearing or by a new request, the numbers of the retried attempts it counted strictly rise and stay below MaxAttempts, so there are fewer than MaxAttempts of them. |
| AbortQueue.RetriesAfterReset | runs/service/abort_reconciler.go:220-273 | An attempt that was in flight when a new request set the counter back may add one more, and no more than that: at most MaxAttempts retries between two resets, whatever is in flight. |
| AbortRequests.ResetAddsRetry | runs/service/abort_reconciler.go:220-273 | A run in which it does: with MaxAttempts 2, two attempts are retried after the reset, since the first one was already in flight. |
| AbortQueue.AboveStep | runs/service/abort_reconciler.go:220-250 | Each retried attempt has a higher number than the one before and one below MaxAttempts; no other step lowers the bound. |
| AbortRequests.AttemptsAreCounted | runs/service/abort_reconciler.go:220-235 | The counter, and the number an attempt gets from it, is how many attempts were counted since the counter was last set back, by a clearing, a new request or the creation of the action. |
| AbortQueue.ChannelStep | runs/service/abort_reconciler.go:70-101 | Every step keeps the channel equal to the queued tokens, each once. |
| AbortQueue.TokenStep | runs/service/abort_reconciler.go:70-108 | Every step keeps one live token per key of the set and none for other keys. |
| AbortQueue.AttemptStep | runs/service/abort_reconciler.go:220-235 | Every step keeps the number of an attempt in flight positive, and the row it counts in present. |
| DedupeQueues.DedupeQueue.Push | runs/service/abort_reconciler.go:70-90 | On the real set and channel: a key already present drops the abort task and changes nothing, otherwise the key stays exactly if the abort task was sent; each outcome is the reserve step and the send or cancel step of the state machine. |
| DedupeQueues.DedupeQueue.TimerFires | runs/service/abort_reconciler.go:93-101 | The first half of the timer's callback frees the key, as the machine's step does. |
| DedupeQueues.DedupeQueue.Remove | runs/service/abort_reconciler.go:104-108 | Frees the key and leaves the channel alone. |
| DedupeQueues.DedupeQueue.Receive | runs/service/abort_reconciler.go:207-218 | A worker gets the oldest task, whose token the machine moves to processing. |
| Reconcilers.Reconciler.Mark | runs/service/abort_reconciler.go:221-235 | A task whose row is gone leaves the queue, a failing database puts it off by InitialDelay without counting, and otherwise the attempt gets the next number; each is one step of the machine. |
| Reconcilers.Reconciler.Finish | runs/service/abort_reconciler.go:238-272 | A task leaves the queue exactly after success or the last attempt; any other failure waits for the delay drawn for that attempt, at most MaxDelay and, where it fits, at most InitialDelay times 2^(attempt-1), every value up to these being drawn; or drawing it panics. Each is the steps of the machine. |
| Reconcilers.Reconciler.ScheduleRequeue | runs/service/abort_reconciler.go:93-101 | One more timer, after those already set. |
| Reconcilers.AbortMoves | runs/service/abort_reconciler.go:238-272 | After the abort call the token either leaves together with its key, the request cleared unless that statement failed, or it waits and keeps both; every queued token stays as it is. |
| AbortRequests.LostExactly | runs/service/abort_reconciler.go:238-260 | From a reachable state, a pushed abort request can end with no task and no further abort call if and only if the push meets an earlier task of the action whose abort call has returned and whose key is not yet removed. |
| AbortRequests.LostForGoodExactly | runs/service/abort_reconciler.go:238-260 | The request can vanish from the database as well, so that the scan of a restart does not find it, if and only if the push comes before the earlier task clears its request; otherwise the flag stays in every continuation that loses it. |
| AbortRequests.FlaggedExactly | runs/repository/impl/action.go:519-579 | In every state, an action is flagged for the scan of a restart if and only if its abort was asked for and no ClearAbortRequest of it went through since. |
| AbortRequests.GivenUpRequestIsLost | runs/service/abort_reconciler.go:250-260 | A run in which the reconciler gives up on an action, the user asks again, and no abort call follows, with the request gone from the database. |
| AbortRequests.AwaitedStep | runs/service/abort_reconciler.go:70-108 | While no abort call of an action returns and no push of it is withdrawn, every step leaves a task that will make one or is making one. |
| AbortRequests.FlagStep | runs/repository/impl/action.go:569-579 | A request stays flagged in the database for as long as no task of it is about to clear it. |
| Backoff.NextDelay | runs/service/abort_reconciler.go:264-271 | Panics exactly where the random draw does; otherwise the delay lies between 0 and the smaller of MaxDelay and InitialDelay times 2^(attempt-1) where that product fits, and every value of that range is drawn. |
| Backoff.CeilingIsExact | runs/service/abort_reconciler.go:266-270 | Where the product fits into 64 bits, the wrapped arithmetic gives the documented minimum, and the draw panics exactly if that minimum is the largest duration. |
| Backoff.CeilingIsMonotone | runs/service/abort_reconciler.go:266-270 | If the product fits for one attempt it fits for every earlier one, and the ceilings never fall. |
| Backoff.RetriesAreSafe | runs/service/abort_reconciler.go:119-143 | All retried attempts are free of overflow and panic exactly if InitialDelay times 2^(MaxAttempts-2) fits into 64 bits and is not the largest duration with MaxDelay as large. |
| Backoff.DefaultIsSafe | runs/service/abort_reconciler.go:119-143 | The default configuration is safe, with its ceilings spelled out. |
| Backoff.LargestDelayPanics | runs/service/abort_reconciler.go:266-270 | A configuration that fits without overflow and panics all the same. |
| Backoff.OverflowPanics | runs/service/abort_reconciler.go:266-270 | A configuration whose product overflows to a negative ceiling, where the draw panics. |
| RefreshCaches.TerminalIsAbsorbing | flytestdlib/autorefreshcache/auto_refresh.go:197-245 | In every run, a terminal item leaves the cache exactly by its deletion or eviction, and is replaced by another item exactly when a call writes that one which looked before the entry's life began. |
| RefreshCaches.CalmRunsKeepTerminalItems | flytestdlib/autorefreshcache/auto_refresh.go:197-245 | With GetOrCreate atomic per id and no eviction during an Update, a terminal item stays until it is deleted or evicted. |
| RefreshCaches.CreateRace | flytestdlib/autorefreshcache/auto_refresh.go:229-245 | Two concurrent GetOrCreate calls can replace a terminal item by a live one. |
| RefreshCaches.EvictionRace | flytestdlib/autorefreshcache/auto_refresh.go:197-207 | An eviction and re-creation between the two halves of an Update lets it replace a terminal item. |
| RefreshCaches.InvStep | flytestdlib/autorefreshcache/auto_refresh.go:197-252 | Every step keeps the lock and the birth times of entries consistent. |
| ProcessingMarks.ItemIsEnqueuedAgain | flytestdlib/autorefreshcache/auto_refresh.go:256-292 | An item that stays cached and live is enqueued again within 5 sync periods and one cycle, seen from any moment at which the enqueuer rests, even when a worker removes its mark before the enqueuer stores it. |
| ProcessingMarks.ItemIsAlwaysEnqueuedAgain | flytestdlib/autorefreshcache/auto_refresh.go:256-292 | Seen from any moment at all, in the middle of a cycle too, within 5 sync periods and two cycles. |
| ProcessingMarks.SlowAddIsLate | flytestdlib/autorefreshcache/auto_refresh.go:256-292 | A run in which the enqueuer is in the middle of adding the item after more than 5 periods and one cycle, so that one cycle alone is not enough there. |
| ProcessingMarks.MarksAreRenewed | flytestdlib/autorefreshcache/auto_refresh.go:383-394 | At any time at which the enqueuer rests, the last mark it stored is at most 5 sync periods and one cycle old. |
| ProcessingMarks.MarkCanOutliveItsEvent | flytestdlib/autorefreshcache/auto_refresh.go:229-245 | GetOrCreate can store its mark after a worker has taken the event: the item is then believed in processing with nothing queued. |
| ProcessingMarks.MarkOutlivesExactly | flytestdlib/autorefreshcache/auto_refresh.go:229-245 | In every run the mark that the creator stores finds nothing queued if and only if a worker emptied the queue between the creator's Add and its Store, with no Add of the enqueuer after that. |
| AutoRefreshes.UpdatesKeepTerminalItems | flytestdlib/autorefreshcache/auto_refresh.go:197-207 | Any list of sync results keeps the keys and the terminal items; a changed item is one that was in the list. |
| AutoRefreshes.UpdatesSettle | flytestdlib/autorefreshcache/auto_refresh.go:197-207 | After a list of sync results a live id has the item of the first terminal one of it in the list, or else of its last, or else its own item; it is terminal if and only if the list has a terminal one of it. |
| AutoRefreshes.Syncable | flytestdlib/autorefreshcache/auto_refresh.go:336-350 | The ids handed to the sync callback are exactly those of the batch that are present and not terminal. |
| AutoRefreshes.AutoRefresh.Update | flytestdlib/autorefreshcache/auto_refresh.go:197-207 | Stores the item under a present id whose item is not terminal, says so, and changes no other id; otherwise it changes nothing. |
| AutoRefreshes.AutoRefresh.Delete | flytestdlib/autorefreshcache/auto_refresh.go:210-215 | The id leaves the cache and the set of pending deletes. |
| AutoRefreshes.AutoRefresh.GetOrCreate | flytestdlib/autorefreshcache/auto_refresh.go:229-245 | A present item is returned and nothing changes; an absent one is stored, queued alone and marked. |
| AutoRefreshes.AutoRefresh.DeleteDelayed | flytestdlib/autorefreshcache/auto_refresh.go:249-252 | The id joins the pending deletes. |
| AutoRefreshes.AutoRefresh.InProcessing | flytestdlib/autorefreshcache/auto_refresh.go:383-394 | True exactly for a mark at most 5 sync periods old; an older mark is removed. |
| AutoRefreshes.AutoRefresh.EnqueueBatches | flytestdlib/autorefreshcache/auto_refresh.go:256-292 | Pending deletes are carried out, the ids queued, each once in a batch of its own, are exactly the live ones of the rest without a mark at most 5 sync periods old, and all of them are marked with the current time. |
| AutoRefreshes.AutoRefresh.Snapshot | flytestdlib/autorefreshcache/auto_refresh.go:257-276 | The snapshot holds exactly the live items that are neither marked nor to be deleted, each once. |
| AutoRefreshes.AutoRefresh.Visit | flytestdlib/autorefreshcache/auto_refresh.go:261-275 | One item of the loop: deleted, skipped or picked, and no other item is touched. |
| AutoRefreshes.AutoRefresh.TakeBatch | flytestdlib/autorefreshcache/auto_refresh.go:326-350 | The oldest batch leaves the queue, its marks go, and what is left to sync is exactly what can be synced. |
| AutoRefreshes.AutoRefresh.ApplySync | flytestdlib/autorefreshcache/auto_refresh.go:365-375 | The pending deletes leave the cache and none is left; of the other ids a terminal one keeps its item and a live one has the first terminal item the results bring for it, or else the last, or else its own. |
| BitSets.BitSet.constructor | flytestdlib/bitarray/bitset.go:73-80 | The least number of blocks that holds the capacity, with no bit set. |
| BitSets.BitSet.Copy | flytestdlib/bitarray/bitset.go:55-60 | The same bits in storage of its own. |
| BitSets.BitSet.Set | flytestdlib/bitarray/bitset.go:16-24 | Afterwards exactly bit i and the bits set before are set, whether or not the set had to grow. |
| BitSets.BitSet.Grow | flytestdlib/bitarray/bitset.go:18-20 | Growing adds blocks and changes no bit. |
| BitSets.BitSet.Clear | flytestdlib/bitarray/bitset.go:26-31 | Afterwards exactly the bits set before other than i are set. |
| BitSets.BitSet.IsSet | flytestdlib/bitarray/bitset.go:34-41 | True exactly if the bit is set; a bit beyond the end is not. |
| BitPositions.BitUpdate | flytestdlib/bitarray/bitset.go:16-31 | Or-ing and and-not-ing the mask of a bit into its block changes that bit and no other of any block. |
| Words.OrBits | flytestdlib/bitarray/bitset.go:23 | The bitwise or, digit by digit. |
| Words.AndBits | flytestdlib/bitarray/bitset.go:40 | The bitwise and, digit by digit. |
| Words.AndNotBits | flytestdlib/bitarray/bitset.go:30 | The bitwise and-not, digit by digit. |
| Words.MaskTests | flytestdlib/bitarray/bitset.go:34-41 | The source's test of a word against a mask is the test of that digit. |
| Words.Wrap64 | runs/service/abort_reconciler.go:266-267 | Always a signed 64-bit value, and the argument itself exactly where that fits. |
| PackedItems.BitsNeededIsCeilLog | flytestdlib/bitarray/compact_array.go:21-23 | The exact width, to which the computed one is compared: the least number of bits that holds every value up to maxValue. |
| FloatWidths.WidthHoldsExactly | flytestdlib/bitarray/compact_array.go:21-23 | The width computed in floating point is the exact one or one bit less, and it holds maxValue if and only if the float next to maxValue + 1 lies above the power of two below it by more than the logarithm of the platform rounds away. |
| FloatWidths.SmallWidthsHold | flytestdlib/bitarray/compact_array.go:21-23 | Below 2^49 the computed width is exact and holds maxValue, on every platform. |
| FloatWidths.PowersMisfit | flytestdlib/bitarray/compact_array.go:21-23 | At 2^49, and at every power of two from 2^53 on, the computed width is one bit short, on every platform. |
| PackedItems.WriteOneItem | flytestdlib/bitarray/compact_array.go:39-56 | If exactly the bits of one item change, to those of a value, then the sequence of items changes at that index only, across block boundaries. |
| PackedItems.LastWriteWins | flytestdlib/bitarray/compact_array.go:39-75 | After any list of writes each slot holds the last value written to it, and an unwritten slot its old one. |
| CompactArrays.CompactArray.constructor | flytestdlib/bitarray/compact_array.go:124-136 | All items are 0, and their width is the one computed in floating point. |
| CompactArrays.NewCompactArray | flytestdlib/bitarray/compact_array.go:124-136 | Below 2^64 - 1: refused exactly if maxValue is at least 2^63 and its width is not rounded down; otherwise an array of zeros, which holds maxValue exactly if its width is not rounded down. |
| CompactArrays.HalfRangeIsMisfit | flytestdlib/bitarray/compact_array.go:124-136 | With 2^63 as maxValue an array is made, on every platform, and storing that value panics. |
| CompactArrays.CompactArray.Copy | flytestdlib/bitarray/compact_array.go:100-121 | Equal items in storage of its own. |
| CompactArrays.CompactArray.SetItem | flytestdlib/bitarray/compact_array.go:39-56 | Panics exactly for an index or value out of range, changing nothing; otherwise replaces that item and no other. An item size of 0 is included. |
| CompactArrays.CompactArray.GetItem | flytestdlib/bitarray/compact_array.go:59-75 | Panics exactly for an index out of range; otherwise returns that item. |
| CompactArrays.CompactArray.GetItems | flytestdlib/bitarray/compact_array.go:78-86 | All items in order. |
| CompactArrays.CompactArray.BitIndexExact | flytestdlib/bitarray/compact_array.go:42-46 | The product of index and width never wraps in 64 bits. |
| CompactArrays.StoreBits | flytestdlib/bitarray/compact_array.go:46-55 | The loop writes the value, most significant digit first, at its bits and changes no other bit. |
| CompactArrays.LoadBits | flytestdlib/bitarray/compact_array.go:64-74 | The loop reads back the item at its bits. |
| CompactArrays.Countdown | flytestdlib/bitarray/compact_array.go:46-48 | The loop starts at width - 1 also when the width is 0 and the unsigned subtraction wraps. |
| CompactArrays.Replay | flytestdlib/bitarray/compact_array.go:39-121 | After any history of accepted writes the array is the sequence those writes make, and a copy taken before is unaffected. |
| FastCheck.Sum32 | flytestdlib/fastcheck/oppobloom.go:36-44 | The byte loop adds each byte shifted by its position modulo 8 and stays at most 18615. |
| FastCheck.RoundUpIsLeast | flytestdlib/fastcheck/oppobloom.go:109-121 | The size is rounded up to the least power of two that is no smaller. |
| FastCheck.MaskKeepsSmall | flytestdlib/fastcheck/oppobloom.go:55-61 | Under a power of two the mask is the identity below the size. |
| FastCheck.LastInIsLast | flytestdlib/fastcheck/oppobloom.go:90-105 | What the model calls the content of a slot is the last id added to it, and nothing exactly if none was. |
| FastCheck.HighSlotsStayEmpty | flytestdlib/fastcheck/oppobloom.go:55-61 | Whatever the configured size, slots above 18615 are never used. |
| FastCheck.Slot | flytestdlib/fastcheck/oppobloom.go:55-61 | The slot of an id is inside the array and at most 18615. |
| FastCheck.OppoBloomFilter.constructor | flytestdlib/fastcheck/oppobloom.go:109-121 | An empty filter of the rounded-up size. |
| FastCheck.OppoBloomFilter.GetIndex | flytestdlib/fastcheck/oppobloom.go:55-61 | The index is in bounds and is the slot of the id. |
| FastCheck.OppoBloomFilter.Add | flytestdlib/fastcheck/oppobloom.go:63-66 | Over any history the id becomes the content of its slot, and the answer is that the slot held something else; an empty id in an empty slot counts as present. |
| FastCheck.OppoBloomFilter.Contains | flytestdlib/fastcheck/oppobloom.go:68-78 | True exactly if the last id added to the slot was this one, so never for an id that was not added. |
| FastCheck.NewOppoBloomFilter | flytestdlib/fastcheck/oppobloom.go:109-121 | Refuses sizes out of range, each with its own error. |
| RedisListing.Scan | flytestdlib/storage/redis_store.go:137-151 | The scan loop collects the keys of every reply up to the one that ends it, or fails with the reply that failed. |
| RedisListing.CollectedExactly | flytestdlib/storage/redis_store.go:137-151 | A scan succeeds if and only if the first reply that ends it is no failure, and then has exactly the keys of the replies up to that one. |
| RedisListing.CursorsExactly | flytestdlib/storage/redis_store.go:126-135 | A decimal offset that fits an int is a good cursor, a negative, larger or empty one is refused, the start means 0 and the end is an error. |
| RedisListing.List | flytestdlib/storage/redis_store.go:112-178 | A bad cursor and a failed scan are errors; otherwise the result is the page of the sorted distinct keys at the cursor, or the panic of a slice whose end wrapped round to before its start. |
| RedisListing.PagePanicsExactly | flytestdlib/storage/redis_store.go:157-168 | The call panics if and only if the page size is larger than the largest integer less the offset, an offset past the end counted as the end. |
| RedisListing.ListedIsSorted | flytestdlib/storage/redis_store.go:153-155 | Sorting and compacting keeps exactly the scanned keys, strictly increasing. |
| RedisListing.ListingIgnoresScanOrder | flytestdlib/storage/redis_store.go:137-155 | Two complete scans of the same keys list the same, whatever their batches, order and repetitions. |
| RedisListing.AllInOnePage | flytestdlib/storage/redis_store.go:157-161 | Without a positive page size a page is all the rest and the last. |
| RedisListing.PageContinues | flytestdlib/storage/redis_store.go:157-177 | A page goes on where the listing was left, is empty only if nothing matches, and its cursor reads back as the place after it, unless offset and page size exceed the largest integer together; then the call panics. |
| RedisListing.DrainAll | flytecopilot/data/download.go:79-95 | Following the cursors gives every matching key once, sorted, from scans that may differ at every page; it ends, fails only if nothing matches, and never panics, whatever the page size. |
| Decimals.ParseOfItoa | flytestdlib/storage/redis_store.go:130-177 | A cursor written as a decimal reads back as the same number. |
| Like.PlainPrefix | flytestdlib/database/migrate.go:103-107 | Without wildcards the LIKE pattern finds exactly the strings with the prefix. |
| Like.PatternFindsExactly | flytestdlib/database/migrate.go:103-107 | For a flat file name, the pattern made of one prefix finds the version recorded under another prefix if and only if the one prefix, read as a pattern, matches the other; an escape left dangling at its end only escapes the slash. |
| MigrationNames.VersionOfFlat | flytestdlib/database/migrate.go:171-179 | A flat migration file is recorded under its own base name. |
| MigrationNames.ScriptsAreTold | flytestdlib/database/migrate.go:144-190 | A flat script is an up migration exactly if its name does not end in _down, and the script that undoes one never is. |
| MigrationNames.BareOfVersion | flytestdlib/database/migrate.go:183-193 | The name is found again in a recorded version. |
| MigrationNames.OrdersAgree | flytestdlib/database/migrate.go:144-179 | Two files are applied in the order in which their versions compare exactly if their names do not clash: neither goes on from the other with something that sorts before the file suffix. |
| MigrationNames.HighNamesDoNotClash | flytestdlib/database/migrate.go:144-179 | Names made of letters, digits and underscores never clash. |
| Migrator.LargestIsLastExactly | flytestdlib/database/migrate.go:103-107 | At every stage the largest recorded version, which Rollback undoes, is that of the file applied last, exactly if no two names of the service clash. |
| MigrationNames.LowCharactersDisagree | flytestdlib/database/migrate.go:144-179 | A name that goes on with a character below the dot clashes with its stem: it is applied before and compares after. |
| MigrationNames.DotsDisagree | flytestdlib/database/migrate.go:144-179 | So does one that goes on with a dot and a character below "s". |
| Migrator.Advance | flytestdlib/database/migrate.go:54-90 | Applying the next file brings one more file into step and leaves every other service alone. |
| Migrator.Retreat | flytestdlib/database/migrate.go:120-137 | Rolling back the last applied file leaves the ones before it in step and every other service alone. |
| Migrator.LatestIsLast | flytestdlib/database/migrate.go:103-107 | Whatever else the table holds, no version of a service is larger than that of its last applied file. |
| Migrator.CollectedAreTheFiles | flytestdlib/database/migrate.go:144-167 | The files collected are the up migrations, sorted by path, each once. |
| Migrator.Database.CollectUpMigrations | flytestdlib/database/migrate.go:144-167 | The loop gives the sorted up scripts of the walk. |
| Migrator.Database.Migrate | flytestdlib/database/migrate.go:34-94 | From an initial segment of the files to a longer one, each file applied once, with a failure or crash at any file; it succeeds exactly if the lock and the table are had, every file is looked up and every missing file commits, and then all files are applied; other services are untouched. |
| Migrator.Database.RunFile | flytestdlib/database/migrate.go:70-87 | One transaction: script and record go in together or not at all. |
| Migrator.Database.Rollback | flytestdlib/database/migrate.go:98-141 | Takes the largest version its pattern finds, runs the down script of that name and deletes that record, unless the script is missing or the transaction fails. Where the pattern finds own versions only, this undoes the last applied file exactly, and other services are untouched. |
| Migrator.PatternFindsOwn | flytestdlib/database/migrate.go:103-107 | Under separate prefixes the pattern of a service finds exactly its own versions. |
| Migrator.Replay | flytestdlib/database/migrate.go:34-141 | After any history of Migrate and Rollback calls of several services none of whose prefixes matches another as a pattern, with failures and crashes, the recorded versions of each service are an initial segment of its files and the schema is made of exactly those. |
| Migrator.HarmlessExactly | flytestdlib/database/migrate.go:98-141 | No Rollback, from any state in step and however it ends, leaves any service out of step if and only if no prefix, read as a pattern, matches a different one. |
| Migrator.UnseparateRollback | flytestdlib/database/migrate.go:98-141 | Where one does, its Rollback can delete the only record of the other service and run a down script of its own. |
| Migrator.LargerVersionGoes | flytestdlib/database/migrate.go:98-141 | Where one matches itself and a later prefix that does not begin with it, and both have the same file applied, its Rollback always runs its own down script and deletes the record of the other service. |
| Migrator.UnderscoreReaches | flytestdlib/database/migrate.go:103-107 | So it is with the prefixes a_b and axb. |
| Migrator.SeparateExactly | flytestdlib/database/migrate.go:103-107 | The pattern of every service finds its own versions of flat files and those of no other service if and only if each prefix, read as a pattern, matches itself and no other prefix. |
| Migrator.PlainPrefixesAreSeparate | flytestdlib/database/migrate.go:103-107 | Prefixes without wildcards match themselves and no other. |
| Migrator.UsedPrefixesAreSeparate | runs/migrations/migrations.go:17 | The two prefixes in use match themselves and not each other, although one holds a wildcard. |
| Jsons.PbIsClean | dataproxy/converter/literal_json_converter.go:44-80 | Passing a value through a protobuf Struct gives a value that passing again leaves alone. |
| Jsons.RoundExactly | dataproxy/converter/literal_json_converter.go:1129-1132 | Rounding to a float64 keeps exactly the float64 values. |
| Jsons.RoundIsNearest | dataproxy/converter/literal_json_converter.go:1540-1580 | Passing an integer through a JSON number takes it to a nearest float64 value. |
| Jsons.TiesGoToEven | dataproxy/converter/literal_json_converter.go:1540-1580 | Halfway between two such values, it goes to the one with an even significand. |
| Jsons.IntSurvives | dataproxy/converter/literal_json_converter.go:1544-1569 | An int64 that passes through a JSON number comes back exactly if it is a float64 value. |
| Jsons.SmallIntsSurvive | dataproxy/converter/literal_json_converter.go:1544-1569 | In particular up to 2^53 in absolute value. |
| LiteralTypes.TypeRoundTrip | dataproxy/converter/literal_json_converter.go:592-777 | Parsing the printed schema of a type gives the type back, normalised, also with title, description and default added. |
| LiteralTypes.ReadsBackExactly | dataproxy/converter/literal_json_converter.go:1289-1487 | A printed type comes back, normalised, exactly if all struct metadata inside it describes plain objects. |
| LiteralTypes.ReadBackIsParseable | dataproxy/converter/literal_json_converter.go:1289-1487 | If the kind of a type comes back from its schema, at any depth and with extra keys around, then its struct metadata is plain. |
| LiteralTypes.InnerRoundTrip | dataproxy/converter/literal_json_converter.go:1289-1487 | The same for the element of a list or map. |
| LiteralTypes.VariantRoundTrip | dataproxy/converter/literal_json_converter.go:933-977 | The same for a variant of a union, whose title is read as its tag and removed. |
| LiteralTypes.OnlyPlainObjectsReadBack | dataproxy/converter/literal_json_converter.go:1289-1487 | Struct metadata reads back as a struct exactly if it describes a plain object. |
| LiteralTypes.SchemaIsClean | dataproxy/converter/literal_json_converter.go:592-777 | A printed schema is unchanged by a protobuf Struct. |
| SchemaMeaning.DimensionsOffered | dataproxy/converter/literal_json_converter.go:691-716 | A value conforms to the dimensionality property of a blob schema if and only if it is one of the two names. |
| SchemaMeaning.BlobKindIsRead | dataproxy/converter/literal_json_converter.go:1414-1450 | A blob schema reads as the format its default gives, and the dimensionality that a value would read as, SINGLE where there is none to read. |
| SchemaMeaning.FormatsAreRead | dataproxy/converter/literal_json_converter.go:1312-1378 | Texts and whole numbers read as times or durations if and only if their format says so, and as what they are otherwise. |
| SchemaMeaning.TitlesTellKinds | dataproxy/converter/literal_json_converter.go:784-838 | The title of a union variant is the type or format keyword of its schema wherever one of these tells its kind, the name of its dataclass where it has one, and the fixed words for the rest. |
| SchemaMeaning.StructSchemaExactly | dataproxy/converter/literal_json_converter.go:627-648 | The schema of a struct has every entry of its metadata but title and additionalProperties, and a title that is not null as the dataclass. |
| SchemaMeaning.SentConforms | dataproxy/converter/literal_json_converter.go:592-777 | The JSON value sent for a literal conforms, by the meaning of the schema keywords, to the schema sent for its type, if the struct literals in it conform to the schemas their types carry. |
| LiteralValues.FirstNone | dataproxy/converter/literal_json_converter.go:857-871 | The first null variant of a union, or none exactly if there is none. |
| LiteralValues.ReadsExactlyWhatIsAdmitted | dataproxy/converter/literal_json_converter.go:1495-1929 | Conversion succeeds on exactly the values the type admits. |
| LiteralValues.ConversionIsTypeSound | dataproxy/converter/literal_json_converter.go:1495-1929 | Whatever conversion returns is well-typed: a union names one of its variants, a list keeps its length and order, a map its keys. |
| LiteralValues.MatchIsTypeSound | dataproxy/converter/literal_json_converter.go:980-1057 | The first matching variant gives a literal of the union type. |
| LiteralValues.DimensionTextReads | dataproxy/converter/literal_json_converter.go:1798-1830 | A blob dimensionality written as decimal text reads as that number. |
| LiteralValues.DimensionNumberReads | dataproxy/converter/literal_json_converter.go:1798-1830 | So does one written as a JSON number. |
| LiteralValues.SecondsReadAsSeconds | dataproxy/converter/literal_json_converter.go:1645-1672 | A duration written as bare seconds reads as those seconds. |
| LiteralValues.DurationTextExactly | dataproxy/converter/literal_json_converter.go:1645-1672 | A duration text that is no row of digits is read by the parser of Go durations, and a row of digits too long for 64 bits is refused. |
| LiteralValues.IntegersRead | dataproxy/converter/literal_json_converter.go:1540-1570 | An int64 reads as itself at an integer type and as the nearest float at a float type. |
| LiteralValues.ConvertedUnionIsNamed | dataproxy/converter/literal_json_converter.go:896-930 | A union literal names a variant of its type, with that variant's tag even when it is empty. |
| LiteralValues.NullsReadAlike | dataproxy/converter/literal_json_converter.go:1495-1520 | JSON null and the none of the forms read alike: as the none of an optional type, and as an error at any other. |
| LiteralValues.NumberReadsAsSeconds | dataproxy/converter/literal_json_converter.go:1673-1676 | A duration or integer given as a JSON number reads as its whole part. |
| LiteralRoundTrips.ValueRoundTrip | dataproxy/converter/literal_json_converter.go:1117-1286 | A literal printed and read back at a type is the literal again, up to union annotations, exactly if it is in the stated fragment; for all literals and types. |
| LiteralRoundTrips.OptionalRoundTrip | dataproxy/converter/literal_json_converter.go:841-930 | An optional type, in either order of its variants, loses nothing that its other variant keeps. |
| LiteralRoundTrips.FirstTakerDecides | dataproxy/converter/literal_json_converter.go:980-1057 | The first variant that admits a value decides the union. |
| LiteralRoundTrips.BigIntegerIsLost | dataproxy/converter/literal_json_converter.go:1544-1569 | 2^53 + 1 does not come back. |
| LiteralRoundTrips.NullShapedMapIsLost | dataproxy/converter/literal_json_converter.go:1496-1521 | A map with an entry "type" that is "null" does not come back. |
| LiteralRoundTrips.FloatInIntegerUnionIsLost | dataproxy/converter/literal_json_converter.go:980-1057 | A float does not come back from a union that tries the integer variant first. |
| LiteralRoundTrips.NormAdmitsTheSame | dataproxy/converter/literal_json_converter.go:1289-1487 | The type read back from a printed schema admits the same values as the type. |
| LiteralRoundTrips.NormKeepsRoundTrips | dataproxy/converter/literal_json_converter.go:1289-1487 | So the same literals come back through either. |
| LaunchForms.LiteralsToLaunchFormJson | dataproxy/converter/literal_json_converter.go:387-441 | The loop gives the form with a property for each literal that has a variable, or an error exactly if a type cannot be printed. |
| LaunchForms.LaunchFormJsonToLiterals | dataproxy/converter/literal_json_converter.go:236-384 | Succeeds exactly if the form has properties and each of them reads, and then lists exactly the fields with a value, each once. |
| LaunchForms.JSONValuesToLiterals | dataproxy/converter/literal_json_converter.go:94-180 | Succeeds exactly if every variable's value converts, and then gives exactly one well-typed literal for each declared variable. |
| LaunchForms.TaskSpecToLaunchFormJson | dataproxy/converter/literal_json_converter.go:44-80 | A form without values has one property for each variable and lists as required exactly the non-optional ones. |
| LaunchForms.PropertyOfEachLiteral | dataproxy/converter/literal_json_converter.go:387-441 | The form has exactly one property for each literal with a variable, made from that literal. |
| LaunchForms.FieldRoundTrip | dataproxy/converter/literal_json_converter.go:236-384 | A literal comes back from its form field exactly if it is in the fragment of its type, whichever of the default, blob and struct paths the reader takes. |
| LaunchForms.FormReads | dataproxy/converter/literal_json_converter.go:236-384 | A form whose literals are all in the fragment can be read. |
| LaunchForms.FormRoundTrip | dataproxy/converter/literal_json_converter.go:236-441 | Reading the form of some named literals gives back the same named literals, up to union annotations, exactly if all of them are in the fragment. |
| LaunchForms.SendAndReadForm | dataproxy/converter/literal_json_converter.go:236-441 | End to end, on the form as it is sent: making a form of some named literals and reading it back succeeds with the same literals, up to union annotations, if and only if all of them are in the fragment. |
| FormDefaults.FieldSchemaExactly | dataproxy/converter/literal_json_converter.go:444-559 | A field that is no blob has the schema of its type, the value as its default unless it is null or missing, and the description unless it is empty or the name. |
| FormDefaults.DimensionTextExactly | dataproxy/converter/literal_json_converter.go:483-541 | The dimensionality of a blob field is MULTIPART exactly for that name, for the number one and for a text of it, and SINGLE for all else. |
| FormDefaults.BlobDefaultExactly | dataproxy/converter/literal_json_converter.go:262-318 | A blob field without a default has one exactly if one of its properties has a usable one, and it is made of exactly these. |
| FormDefaults.StructsExactly | dataproxy/converter/literal_json_converter.go:184-233 | Nested defaults are gathered exactly from object schemas that have no format and do not leave their properties open. |
| FormDefaults.MissingValueExactly | dataproxy/converter/literal_json_converter.go:94-180 | A declared variable without a value is the none of its type if that is optional, and an error otherwise; with one it is what the value reads as. |
| FormDefaults.FormLayout | dataproxy/converter/literal_json_converter.go:404-440 | A form is an object schema with the given properties and required names, and the title Launch Form. |
| LaunchForms.RequiredExactly | dataproxy/converter/literal_json_converter.go:420-437 | A field is required exactly if its value is not null-shaped and its type is not optional. |
| LaunchForms.OptionalityAgrees | dataproxy/converter/literal_json_converter.go:841-871 | A printed schema offers null exactly if the type is a union with a null variant. |
| LaunchForms.EmptyFormReading | dataproxy/converter/literal_json_converter.go:236-384 | Reading a form without values gives none for each optional input, an empty blob for each blob input, and nothing for the others; struct inputs with a schema of their own are the subject of EmptyStructReading. |
| LaunchForms.EmptyStructReading | dataproxy/converter/literal_json_converter.go:236-384 | A struct input with a schema of its own reads as the default that schema carries, its own or that of its properties, as nothing without one, and as an error if that default is not an object. |
| LaunchForms.DefaultsAreCollected | dataproxy/converter/literal_json_converter.go:201-233 | Every default that a path of struct properties leads to is collected under that path. |
| LaunchForms.CollectedHasDefault | dataproxy/converter/literal_json_converter.go:201-233 | Nothing else is collected. |

## Left out

- NoLostUpdates.NoUpdateIsLost: a cache read that fails with another error drops the event (client.go:622-626); the model has no such failure.
- WatchStreams.StreamsConverge: says nothing about streams whose buffer overflowed, and only about moments at which nothing is under way.
- WatchClients.ActionsClient.HandleInformerEvent: a send to a full worker channel blocks; the method is called once there is room, and the waiting is in the state machine.
- Signals.SignalIsWriteOnce: the number of retries is not bounded, every conflict may be retried or given up; other writers of the resource leave its status as it is.
- TerminalLabels.LabelMeansRecorded: the direct report of trace actions in Enqueue, the promotion of a parent to running, and a missing run service client are not modelled.
- ServiceConverges.EndIsRecorded: where a call about the action fails, only a further event of it brings its end; the source does not retry either.
- SignalOutcomes.TaskEndsExactly: which outcome a plugin's state comes to, and the count of system failures.
- SchemaMeaning.SentConforms: "one of" is read as at least one; values of two variants may conform to both.
- LeaseProtocol.LeasesAreExclusive: metadata columns and the wire format of reservations.
- LeaseProtocol.ExtensionIsSafeExactly: about an extension whose three statements meet no other call in between; interleaved ones are covered by KeptLeasesAreExclusive.
- CachePuts.PutUnderLeaseIsAtomic: of an entry's metadata only the two times are kept.
- AbortQueue.RetriesAreBounded: if ClearAbortRequest itself fails after the last attempt, the stored counter goes on from there when the action is pushed again.
- AbortRequests.LostExactly: an abort call that is in flight when an abort is asked for counts as made for it; pushes withdrawn by a shutdown are set aside, the scan of a restart finds their flags.
- DedupeQueues.DedupeQueue.Push: a send that must wait is entered once the channel has room or the context is done; what others do in between is in the state machine.
- Reconcilers.Reconciler.Finish: the method itself meets no other step between the abort call's return, ClearAbortRequest and the removal; in the state machine these are three steps.
- AutoRefreshes.AutoRefresh.EnqueueBatches: only the default callback of one item a batch; the order of keys and the choice of the evicted item are arbitrary, where the LRU list fixes them; rate limiting of the work queue.
- ProcessingMarks.ItemIsEnqueuedAgain: time advances in whole units, and one enqueuer and one creator act on the item.
- FloatWidths.WidthHoldsExactly: for the largest 64-bit value the sum wraps to 0 and the width is what the platform makes of a negative infinity; nothing is promised there.
- CompactArrays.CompactArray.constructor: at most 2^51 items, so that bit positions fit into 64 bits.
- RedisListing.List: the key prefix and the match pattern; the keys that match are what the scan replies hold.
- Migrator.Replay: directories inside the migration directory, statements outside a transaction, and changes of the file set between calls; a prefix holds no slash. A failing table statement of Rollback changes nothing and is not modelled.
- LiteralTypes.TypeRoundTrip: schema types and types without a kind, which the printer refuses; error and binary types come back as strings, as in the source.
- LiteralRoundTrips.ValueRoundTrip: binary, error, schema and offloaded literals, NaN and infinities, and invalid UTF-8. Times and durations come back exactly when their texts do.
- LaunchForms.FormRoundTrip: in-place edits of shared arguments are values here; literals without a variable are skipped, as in the source.
- LiteralTypes.SchemaIsClean: enum values other than strings, which the source formats, do not occur in a printed schema; the metadata that the parser copies next to a type is dropped.
- startupScan: pushes every pending abort once; each of them is a Push step.
- StopWatching and shutting workers down.
- flytestdlib/cache/in_memory_auto_refresh.go: a near copy whose Update has no terminal check.
- RPC plumbing, configuration, logging and metrics.
