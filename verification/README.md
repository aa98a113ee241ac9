# Discovery protocols and data rewrites: a verification model

This project models the parts of the news platform's backend whose correctness depends on
several processes, or on several tables, staying consistent with each other, and proves
what they promise. Operations are transactions or sections under a lock, each one atomic
step; a run of the system is any sequence of steps of any actors, so that "over every
interleaving" is a statement about every sequence.

| Files | Subject |
|---|---|
| `BatchQueue`, `BatchQueueSafety`, `BatchQueueOrder`, `BatchDispatcher` | the durable two-slot batch queue: enqueue, claim, start, attach, reconcile, requeue, delete, stop-all, recovery |
| `EventLog`, `EventStream` | the gap-free event log of a run and its replay over server-sent events |
| `FormalRuns`, `FormalRunStore`, `FetchJobs` | formal fetch runs with leases, cancellation and dead-owner recovery; the in-process job registry |
| `DomainLocks`, `DomainLockWait` | taking several domain locks in sorted order, and polling for them under one deadline |
| `UrlRekeying`, `UrlRekeyingSafety`, `UrlRekeyingRun`, `Recipes` | the upgrade that rekeys ordinary website methods by their full entry URL |
| `Directions`, `DirectionsSafety`, `DirectionsUpgrade` | the sanitizer of direction tokens and the upgrade that uses it |
| `TagRoots`, `TagFacets`, `TagAliases` | tag-alias roots, filters, facet counts, and what keeps the alias table a map |
| `QrLogin`, `QrLoginManager`, `WechatCredentials` | QR login sessions and the stored credentials |
| `Checkpoints` | checkpoint keys, pointers and orphan cleanup |
| `Slots` | the client's asynchronous semaphore and the stream leases |
| `CategoryRename` | renaming a main category |
| `Prelude`, `Text` | shared vocabulary |

Each component has specification functions over a state datatype, lemmas about them, and,
where the source updates things in place, a class whose methods are proved to do what the
functions say. In the classes everything other actors do between two transactions, and
everything the outside world decides (clocks, failures, liveness of processes, what a page
shows), is a parameter that ranges over all possibilities. Loops over rows take the rows in
an arbitrary order.

Where the code does not do what its documentation or an obvious reading promises, the code
is modelled as it is. For each of these there is an input that shows it, and the exact
condition under which the promise holds:

- a batch run can be orphaned by a second dispatcher (run: `BatchQueueSafety.TwoDispatchersOrphanARun`; condition: `AttachKeepsRunIff`);
- requeue returns an item to its old place, not to the tail (run: `BatchQueueOrder.RequeuedOvertakes`; condition: `RequeuedPlace`);
- cancelling a fetch job whose process has exited can evict the successor (run: `FetchJobs.DeadBranchEvictsSuccessor`; condition: `DeadBranchEvictsIff`);
- the cancel at the end of a process fetch never reaches the process of that fetch, and can end the one of its successor (run: `FetchJobs.FinishEvictsSuccessor`; condition: `FinishEvictsIff`);
- sorted lock acquisition can deadlock when lock hashes collide (run, for any such hash: `DomainLocks.CollisionSticks`; condition: `DeadlockFreeIffConvex`);
- sanitizing is not idempotent on blank texts (input: `DirectionsSafety.EmptyTextIsNotStable`; condition: `IdempotentIff`);
- under the default direction labels every old result is classified as the first label (all texts: `DirectionsUpgrade.DefaultDirectionIsAlwaysAi`; condition on the labels: `SecondKindIsReachedIff`, `TextDecidesIff`);
- a sub tag aliased to a main category is shown under a name whose filter does not find it, and suggestions can record such an alias (input: `TagAliases.CategoryParentIsNotFound`; conditions: `TagRoots.FilterMatchesFacetsIff`, `TagAliases.RecordFindsAsShownIff`);
- a checkpoint of round 100 or more cannot be read back, and its file is never cleaned up (run: `Checkpoints.RoundHundredDoesNotResolve`; conditions: `PrintedKeyParsesIff`, `PointersResolveIff`, `LongRoundsStay`);
- a cleanup during a save removes the file about to be pointed to (run, in any state: `Checkpoints.OpenSaveLosesItsFile`; condition: `PointerSurvivesIff`).

The invariants are not empty: the systems start in states that satisfy them
(`FormalRuns.EmptyStoreIsOk`, `FetchJobs.EmptyIsOk`, `QrLogin.EmptyIsOk`,
`Checkpoints.EmptyIsOk`).

## Model

| member | source | states |
|---|---|---|
| BatchQueueSafety.AtMostTwoActive | backend/app/discovery/batch_queue.py:211-261 | For every sequence of operations of any number of dispatchers, routes and recoveries, at most two rows are starting, running or cancelling |
| BatchQueueSafety.ShapeAlways | backend/app/discovery/batch_queue.py:263-311 | In every reachable state a deletion request stands only on a cancelling row, and a running row names a run |
| BatchQueueSafety.SafeAlways | backend/app/discovery/batch_queue.py:161-209 | With one dispatcher, every interleaving with the routes, run ends and restarts keeps the safety invariant that the next three results are read from |
| BatchQueueSafety.AtMostTwoLive | backend/app/discovery/batch_queue.py:211-261 | With one dispatcher at most two runs of the queue are live at any moment, a run that is not yet attached included |
| BatchQueueSafety.LiveRunsAccountedFor | backend/app/api/discovery_routes.py:285-340 | With one dispatcher, once nothing is in flight every live run is named by an active row, and has been signalled if that row is being cancelled |
| BatchQueueSafety.CreatedRunIsAttached | backend/app/discovery/batch_queue.py:284-311 | With one dispatcher, a run just created finds its row still starting or cancelling, so it is always attached, and signalled if withdrawn |
| BatchQueueSafety.AttachKeepsRunIff | backend/app/discovery/batch_queue.py:284-296 | For any number of dispatchers, attaching keeps the run accounted for exactly if the row is gone, starting or cancelling by then |
| BatchQueueSafety.TwoDispatchersOrphanARun | backend/app/discovery/batch_queue.py:181-192 | A concrete run with two dispatchers and a stop-all that ends with a live run no row names and nobody signals |
| BatchQueueSafety.ReconcileSettlesEverything | backend/app/discovery/batch_queue.py:171-209 | After one reconcile pass no active row has an ended run and no cancelling row lacks a run |
| BatchQueueSafety.ReconcileOutcome | backend/app/discovery/batch_queue.py:181-209 | For every row which of removed, completed, failed with its reason, or untouched a reconcile pass makes it |
| BatchQueueSafety.ClaimTakesOldest | backend/app/discovery/batch_queue.py:236-248 | A claim takes the queued row that is first by creation time and id, only while fewer than two rows are active, and changes no other row |
| BatchQueueOrder.ClaimedAfterAhead | backend/app/discovery/batch_queue.py:211-261 | While nothing joins the lane and nothing in it is deleted, a queued row is taken by exactly the claim that follows as many claims as there are rows ahead of it, whatever dispatchers, routes and runs do |
| BatchQueueOrder.RequeuedIsClaimedAfter | backend/app/api/discovery_routes.py:264-282 | A requeued row keeps its creation time: it is claimed after exactly the queued rows that come before it by creation time and id |
| BatchQueueOrder.RequeuedPlace | backend/app/api/discovery_routes.py:264-282 | It goes to the tail that the docstring promises exactly if no queued row is later in claim order, and to the head exactly if none is earlier |
| BatchQueueOrder.RequeuedAtTailGoesLast | backend/app/api/discovery_routes.py:264-282 | In the first case nothing that was queued is left when it is claimed |
| BatchQueueOrder.RequeuedAtHeadGoesFirst | backend/app/api/discovery_routes.py:264-282 | In the second case the next claim takes it |
| BatchQueueOrder.RequeuedOvertakes | backend/app/api/discovery_routes.py:264-282 | A concrete run in which a requeued row is claimed before one that was waiting all the time |
| BatchQueueSafety.UniqueSitesAlways | backend/app/discovery/batch_queue.py:399-437 | Over whole runs no two website rows in queued, active or failed status share a normalized entry URL, although requeue checks nothing |
| BatchQueueSafety.EnqueueAcceptsIff | backend/app/discovery/batch_queue.py:399-437 | Which requests are accepted: those without an occupied website twin that are forced or have no method yet |
| BatchQueueSafety.DeletedForGood | backend/app/api/discovery_routes.py:293-312 | Once an item is deleted, or its deletion requested, no later operation brings it back to any lane |
| BatchQueueSafety.StopAllWithdraws | backend/app/api/discovery_routes.py:314-340 | Stop-all turns every active row to cancelling, arranges a signal for each run these rows name, and leaves queued and failed rows alone |
| BatchDispatcher.StartAttemptIsSafe | backend/app/discovery/batch_queue.py:263-311 | Whatever the others commit in the gaps of one start attempt, enqueueing and requeueing included, the dispatcher ends idle and the safety invariant holds |
| BatchDispatcher.StartAttemptKeepsLane | backend/app/discovery/batch_queue.py:263-311 | As long as the others add nothing to the lane, a start attempt adds nothing to it unless it is refused for capacity |
| BatchDispatcher.RoundKeepsOrder | backend/app/discovery/batch_queue.py:161-169 | One round of the dispatch loop claims later than all earlier rounds in claim order and uses up a queued row |
| BatchDispatcher.DiscoveryBatchQueue.Recover | backend/app/discovery/batch_queue.py:128-150 | Every active row without a run that still goes is failed, or removed if its deletion was requested; the number returned is that of these rows |
| BatchDispatcher.DiscoveryBatchQueue.ReconcileFinished | backend/app/discovery/batch_queue.py:171-209 | The loop over active rows leaves the state that the reconcile operation specifies |
| BatchDispatcher.DiscoveryBatchQueue.ClaimNextIfSlot | backend/app/discovery/batch_queue.py:211-261 | Returns the oldest queued row and marks it starting, exactly if a slot is free and a row waits |
| BatchDispatcher.DiscoveryBatchQueue.LaunchRun | backend/app/discovery/batch_queue.py:284-311 | The created run is attached, and cancelled if its row was withdrawn while it started, whatever the routes commit in the gap |
| BatchDispatcher.DiscoveryBatchQueue.FinishUnstartedCancellation | backend/app/discovery/batch_queue.py:348-363 | A withdrawn claim without run is failed as cancelled, or removed if its deletion was requested |
| BatchDispatcher.DiscoveryBatchQueue.FailClaimed | backend/app/discovery/batch_queue.py:325-338 | A claim whose start failed is failed, or removed if its deletion was requested; a row others moved on is left alone |
| BatchDispatcher.DiscoveryBatchQueue.ReturnClaimToPending | backend/app/discovery/batch_queue.py:313-323 | A claim refused for capacity is queued again, unless it was withdrawn |
| BatchDispatcher.DiscoveryBatchQueue.StartClaimed | backend/app/discovery/batch_queue.py:263-311 | One start attempt over all its outcomes equals the specified sequence of transactions, with whatever the routes commit in the gaps between them, and is refused further work only at capacity |
| BatchDispatcher.DiscoveryBatchQueue.DispatchOnce | backend/app/discovery/batch_queue.py:161-169 | While the others only delete, stop, signal and end runs, a pass terminates, claims at most the queued rows and in strictly increasing claim order; on exit no row is starting, every running row has a run, deletion requests stand on cancelling rows only, and nothing can be claimed unless the capacity was taken |
| EventLog.GaplessAlways | backend/app/discovery/events.py:130-162 | Whatever append transactions interleave, commit or roll back, the committed sequence numbers are exactly 1 to event_sequence in commit order, and later states only append larger ones |
| EventLog.TransactionIsAtomic | backend/app/discovery/events.py:130-162 | An event and the status written with it are committed together or not at all |
| EventLog.WindowIsExact | backend/app/api/discovery_routes.py:594-620 | The window of a cursor range holds exactly the committed public events of the range, once each, in increasing order |
| EventLog.WindowIsStable | backend/app/api/discovery_routes.py:594-620 | Events committed later never fall into a range that a reader has passed |
| EventLog.WindowsJoin | backend/app/api/discovery_routes.py:594-620 | Consecutive ranges join to the range they cover, without loss or repetition |
| EventLog.PageIsWindow | backend/app/api/discovery_routes.py:602-611 | A page of at most 200 rows is exactly the window up to its own last event; an empty page means nothing is left |
| EventStream.CursorNeverReplays | backend/app/api/discovery_routes.py:508-518 | The accepted cursor is the least that is at or above both the header and the query cursor; exactly malformed or negative headers are refused |
| EventStream.DiscoveryEvents.Append | backend/app/discovery/events.py:55-127 | Other writers commit between the attempts and may hold the row in any of them: the append commits at the first of at most twenty attempts that finds the row free and the database willing, with the next number after all that were committed by then, and otherwise leaves nothing |
| EventStream.DiscoveryEvents.DiscoveryEventPage | backend/app/api/discovery_routes.py:594-620 | Status and page are read at moments between which writers may commit; the page is that of the later moment |
| EventStream.DiscoveryEvents.EventStream | backend/app/api/discovery_routes.py:653-692 | From any cursor the stream has sent, once each and in order, exactly the public events in (cursor, current]; end is sent only after every public event committed before the terminal status was read; with no further writes the loop makes progress |
| EventStream.ReconnectLosesNothing | backend/app/api/discovery_routes.py:508-518 | Two streams, the second from the last id the client saw, together deliver one gap-free replay |
| FormalRuns.InvAlways | backend/app/discovery/fetch_runs.py:88-471 | Over every interleaving of start, finish, cancel, heartbeat and recovery: each method has at most one active run, acknowledged exactly if cancelled, and every terminal run is in the migration ledger exactly once; nothing terminal, requested, owned or accounted is undone |
| FormalRuns.TerminalIsFinal | backend/app/discovery/fetch_runs.py:205-247 | The row of a terminal run never changes again |
| FormalRuns.CancelWins | backend/app/discovery/fetch_runs.py:262-272 | A running run with a persisted cancel request can only stay running or end cancelled and acknowledged |
| FormalRuns.FinishAfterRequestCancels | backend/app/discovery/fetch_runs.py:205-252 | The finish of a run with a pending request stores cancelled, whatever was reported |
| FormalRuns.TerminalRowHasOneAuthor | backend/app/discovery/fetch_runs.py:205-252 | A run that becomes terminal in any interleaving is ended by one call only, and its row stays the one that this call wrote: the report of a finish it was open to, the counts of its owner's acknowledgement, or a recovery |
| FormalRuns.StaleOwnerIsFenced | backend/app/discovery/fetch_runs.py:205-247 | No call that carries another owner id changes the store |
| FormalRuns.StaleCallsChangeNothing | backend/app/discovery/fetch_runs.py:205-247 | All calls about runs by others than their owners can be struck out of any interleaving, and the store ends the same |
| FormalRuns.LedgerCountsTerminalRuns | backend/app/discovery/fetch_runs.py:236-259 | From an empty store on, the ledger always has as many entries as there are terminal runs, and no method two active runs |
| FormalRuns.RecoveryIsExact | backend/app/discovery/fetch_runs.py:419-469 | Recovery settles a running run exactly if it is owned, its owner dead, its method known and its sandbox cleaned up: as cancelled exactly if that was requested, else as failed, its counts untouched |
| FormalRuns.HeartbeatProtects | backend/app/discovery/fetch_runs.py:322-352 | Recovery leaves a run whose lease a live process has just renewed alone exactly as long as the lease lasts, cleanup and method permitting |
| FormalRuns.StartIffFree | backend/app/discovery/fetch_runs.py:108-157 | A start creates a run exactly for a known, current method without an active run |
| FormalRunStore.FormalRunTable.StartMethodFetchRun | backend/app/discovery/fetch_runs.py:88-161 | The table changes as the start operation says, or the start is refused with the reason |
| FormalRunStore.FormalRunTable.FinishMethodFetchRun | backend/app/discovery/fetch_runs.py:164-259 | Both compare-and-set statements with whatever unlocked processes commit between them equal the finish, the commits and the acknowledgement in turn |
| FormalRunStore.FormalRunTable.RequestMethodFetchCancel | backend/app/discovery/fetch_runs.py:262-272 | Reports true exactly if the run was running, and then the request is persisted |
| FormalRunStore.FormalRunTable.HeartbeatMethodFetchOwner | backend/app/discovery/fetch_runs.py:322-336 | Reports true exactly if the caller still owns a running run, and then renews the lease only |
| FormalRunStore.FormalRunTable.RecoverDeadMethodFetchRuns | backend/app/discovery/fetch_runs.py:388-469 | The loop over candidates, with other processes between them, equals that sequence of recoveries and counts the ones it settled |
| FormalRunStore.FormalRunTable.WatchMethodFetchOwner | backend/app/discovery/fetch_runs.py:282-312 | The watcher reports a cancellation only for a local event, a lost lease or a persisted request, tells the sandbox at once and at most twice, and acts on whatever its last poll could see |
| FormalRunStore.RecoverAllKeeps | backend/app/discovery/fetch_runs.py:388-469 | A whole recovery pass keeps the invariant and undoes nothing |
| FormalRunStore.QuietRecoveryConverges | backend/app/discovery/fetch_runs.py:388-469 | With nobody else at work a pass settles each dead candidate it could clean up and counts exactly these |
| FormalRunStore.LossIsPermanent | backend/app/discovery/fetch_runs.py:282-312 | A run the watcher found lost stays lost |
| FetchJobs.LivePluginJobStaysRegistered | backend/app/discovery/fetch_jobs.py:394-450 | Whatever jobs register, end, finish and are cancelled meanwhile, a plugin job that is not done holds the place of its method, so a method has at most one |
| FetchJobs.OwnRemovalSparesOthers | backend/app/discovery/fetch_jobs.py:186-216 | A canceller that waited, the first section of a runner on its way out, and all of it when its process has ended or nobody else has taken its place, clear at most that job's own entry |
| FetchJobs.FinishEvictsIff | backend/app/discovery/fetch_jobs.py:344-350 | The way out of a runner clears another job's entry exactly if its own process still runs and its place is by then held by another; that job's process is ended, and its own never |
| FetchJobs.FinishEvictsSuccessor | backend/app/discovery/fetch_jobs.py:344-350 | A concrete run in which the late finish of a job that was cancelled in vain ends its live successor |
| FetchJobs.FinishIsUninterrupted | backend/app/discovery/fetch_jobs.py:344-350 | Without others in its gaps the sections of a runner's way out amount to the one operation that the runs are made of |
| FetchJobs.ProcessHoldsIff | backend/app/discovery/fetch_jobs.py:294-350 | Over any run a process job keeps its place throughout exactly if no step registers a process there, removes the job itself, clears the place after a process was found not alive, or is the finish of another job of the method whose process still runs |
| FetchJobs.UnendedJobsStayRegistered | backend/app/discovery/fetch_jobs.py:164-350 | If no job is replaced, cleared away or finished before it has ended, every job that has not ended holds its place, so a method has at most one |
| FetchJobs.DeadBranchEvictsIff | backend/app/discovery/fetch_jobs.py:196-200 | The branch for a process found not alive clears the entry of another job exactly if the place has changed hands since the lookup |
| FetchJobs.DeadBranchEvictsSuccessor | backend/app/discovery/fetch_jobs.py:196-200 | A concrete run in which that branch evicts the live successor |
| FetchJobs.FetchJobRegistry.RunPluginFetch | backend/app/discovery/fetch_jobs.py:394-450 | Refused exactly while the place is taken or if the formal run cannot be created; otherwise the job holds its place at every moment of the run, and the place is free on return |
| FetchJobs.FetchJobRegistry.CancelFetchJob | backend/app/discovery/fetch_jobs.py:164-218 | With others between the lookup, the check whether the process is alive and the removal: which of the two removals a cancel ends with, and that it reports success only when the job it looked up is done or was found alive |
| FetchJobs.FetchJobRegistry.FinishProcessFetch | backend/app/discovery/fetch_jobs.py:344-350 | The way out of a process runner, with others in its gaps, is the removal of its own entry and then, if its process still runs, a cancel of the method |
| DomainLocks.ExclusiveAlways | backend/app/discovery/domain_transition.py:126-166 | However callers interleave, no lock has two holders |
| DomainLocks.InsideTogetherIsDisjoint | backend/app/discovery/domain_transition.py:126-166 | Two callers inside at once want no common domain |
| DomainLocks.ConvexNeverSticks | backend/app/discovery/domain_transition.py:131-165 | If equal hashes stand together in the domain order, no run of any set of callers gets stuck |
| DomainLocks.CollisionSticks | backend/app/discovery/domain_transition.py:152-165 | If a domain stands between two others that share a hash, two callers that acquire in sorted order can block each other |
| DomainLocks.DeadlockFreeIffConvex | backend/app/discovery/domain_transition.py:131-165 | Freedom from deadlock without help from the deadline holds for all callers and runs if and only if the lock hash is convex on the domain order |
| DomainLocks.InjectiveIsConvex | backend/app/discovery/domain_transition.py:152-155 | An injective hash is convex |
| DomainLockWait.SortedSet | backend/app/discovery/domain_transition.py:131-131 | The distinct domains in strictly increasing order |
| DomainLockWait.AdvisoryLocks.PollLock | backend/app/discovery/domain_transition.py:152-161 | Polling ends with the lock held, or cancelled, or busy with the deadline passed while another held it; own locks are kept and the number of pauses is bounded by the deadline |
| DomainLockWait.AdvisoryLocks.DomainTransitionLock | backend/app/discovery/domain_transition.py:57-115 | All or nothing, with the number of polls bounded by the timeout |
| DomainLockWait.AdvisoryLocks.DomainTransitionLocks | backend/app/discovery/domain_transition.py:118-183 | All domains locked or, after rollback, none; at most one poll per domain, one per pause before the shared deadline, and one more |
| UrlRekeyingSafety.PublicationIsConserved | backend/alembic/versions/full_url_method_keys_20260831.py:315-331 | A key with a published method before has exactly one after, of the same key and unchanged status, active if any published one was active |
| UrlRekeyingSafety.OnlyBeatenMethodsChangeStatus | backend/alembic/versions/full_url_method_keys_20260831.py:321-330 | No method becomes active; a method stops being active exactly if it was published and another publisher of its key ranks above it |
| UrlRekeyingSafety.PublishedAfterIff | backend/alembic/versions/full_url_method_keys_20260831.py:315-360 | An ordinary method is published afterwards exactly at its own new domain and exactly if it won its key or is the newest suppressed candidate; other mappings are as before |
| UrlRekeyingSafety.NewcomersStayInactive | backend/alembic/versions/full_url_method_keys_20260831.py:333-360 | A method published where none was before is the newest approved suppressed one and stays inactive or disabled |
| UrlRekeyingSafety.HandoversAgreeWithMapping | backend/alembic/versions/full_url_method_keys_20260831.py:210-308 | Each handover still in force has its legacy and plugin methods at one key, where the rebuilt mapping publishes the method its state implies, and is alone at that key |
| UrlRekeyingSafety.FurthestSoundHandoverSurvives | backend/alembic/versions/full_url_method_keys_20260831.py:255-268 | Of the sound handovers of a key exactly the furthest advanced, then newest, survives |
| UrlRekeyingSafety.OnlyUnsoundHandoversEnd | backend/alembic/versions/full_url_method_keys_20260831.py:226-283 | Only handovers in force of ordinary methods are ended, never the survivor, and each with the error of the check it failed; an ended one loses its legacy method and keeps its domain |
| UrlRekeyingSafety.HandoversFollowTheirMethods | backend/alembic/versions/full_url_method_keys_20260831.py:290-308 | A handover that is not ended is filed under its plugin method's new key exactly if it was already or its legacy method, if any, is there too; otherwise, and for other methods, it keeps its domain |
| UrlRekeyingSafety.ComparisonsEndWithTheirHandover | backend/alembic/versions/full_url_method_keys_20260831.py:270-288 | A comparison is failed, with its handover's error, exactly if it was queued or running for a handover that is ended |
| UrlRekeyingSafety.IndexesHold | backend/alembic/versions/full_url_method_keys_20260831.py:270-308 | Both unique indexes on handovers in force hold afterwards |
| UrlRekeyingSafety.OnlyReconciledSourcesChange | backend/alembic/versions/full_url_method_keys_20260831.py:362-377 | Whether a source has an active published method changes only for sources that are reconciled |
| UrlRekeyingSafety.SourcesStayInAgreement | backend/alembic/versions/full_url_method_keys_20260831.py:362-377 | If every source was enabled exactly while an active method of it was published, that is still so afterwards |
| UrlRekeyingSafety.UpgradeSettles | backend/alembic/versions/full_url_method_keys_20260831.py:167-377 | A second upgrade would change nothing but the domain of handovers the first one ended |
| UrlRekeyingRun.MaxRow | backend/alembic/versions/full_url_method_keys_20260831.py:112-115 | The maximum by a total order, whatever order the rows come in |
| UrlRekeyingRun.FindWinners | backend/alembic/versions/full_url_method_keys_20260831.py:196-204 | For each key the active, most recently reviewed, newest of the published methods |
| UrlRekeyingRun.JudgeFirst | backend/alembic/versions/full_url_method_keys_20260831.py:214-253 | The first pass ends every handover with differing keys or another owner, and keeps the sound ones by key |
| UrlRekeyingRun.JudgeSecond | backend/alembic/versions/full_url_method_keys_20260831.py:255-268 | After the second pass the verdicts are complete |
| UrlRekeyingRun.ChooseFor | backend/alembic/versions/full_url_method_keys_20260831.py:315-358 | The winner of the key, or else the newest suppressed candidate of a collision domain |
| UrlRekeyingRun.MethodTables.EndHandovers | backend/alembic/versions/full_url_method_keys_20260831.py:270-288 | Handovers and their waiting comparisons are ended as judged |
| UrlRekeyingRun.MethodTables.RekeyHandovers | backend/alembic/versions/full_url_method_keys_20260831.py:290-308 | Rekeyed as specified row by row, or refused by the unique index; never refused while no handover in the way uses a new key |
| UrlRekeyingRun.MethodTables.RebuildMappings | backend/alembic/versions/full_url_method_keys_20260831.py:315-360 | Mappings, statuses and the sources to reconcile as specified; refused exactly if a retained mapping stands where a new one must go |
| UrlRekeyingRun.MethodTables.ReconcileSources | backend/alembic/versions/full_url_method_keys_20260831.py:362-377 | Exactly the listed sources are set to whether an active published method uses them |
| UrlRekeyingRun.MethodTables.Upgrade | backend/alembic/versions/full_url_method_keys_20260831.py:167-377 | In any row order the tables end as specified or, if a unique index refused, unchanged; and when no index refuses |
| Recipes.PathIsIterated | backend/alembic/versions/full_url_method_keys_20260831.py:50-59 | Every action found by descending through nested loops is iterated |
| Recipes.IteratedHasPath | backend/alembic/versions/full_url_method_keys_20260831.py:50-59 | Every iterated action is found by descending through nested loops |
| Recipes.IsFeedRecipe | backend/alembic/versions/full_url_method_keys_20260831.py:62-72 | True exactly if an action at any depth fetches a feed |
| Recipes.IsOrdinaryWebsite | backend/alembic/versions/full_url_method_keys_20260831.py:75-86 | Exactly the methods that are no feed, chat history, internal forum or shared connector and have an http entry URL |
| Directions.RenderSum | backend/alembic/versions/v6a7b8c9d0e1_add_trend_result_directions.py:24-57 | Cleaning a text in pieces, no token being cut in two, equals cleaning it at once, labels included |
| Directions.RenderIsClean | backend/alembic/versions/v6a7b8c9d0e1_add_trend_result_directions.py:38-57 | A cleaned text is left alone by cleaning and has the same labels |
| DirectionsSafety.SanitizedLabelsAreValid | backend/alembic/versions/v6a7b8c9d0e1_add_trend_result_directions.py:29-57 | One to twelve distinct labels, each stripped, of one line, at most fifty characters, without braces |
| DirectionsSafety.SanitizedText | backend/alembic/versions/v6a7b8c9d0e1_add_trend_result_directions.py:36-58 | For every input the result is left alone by the cleaner, has every brace in a valid token and at least one label, those returned; and is already stripped exactly if the input was not blank |
| DirectionsSafety.NoStrayBraces | backend/alembic/versions/v6a7b8c9d0e1_add_trend_result_directions.py:38-57 | Every brace of the result opens or closes a token that holds a valid label |
| DirectionsSafety.ReparsesToSameLabels | backend/alembic/versions/v6a7b8c9d0e1_add_trend_result_directions.py:36-57 | Extracting from the result gives the same labels in the same order |
| DirectionsSafety.IdempotentIff | backend/alembic/versions/v6a7b8c9d0e1_add_trend_result_directions.py:23-57 | Sanitizing again changes nothing if and only if the input is not blank |
| DirectionsSafety.StableFromSecondPass | backend/alembic/versions/v6a7b8c9d0e1_add_trend_result_directions.py:23-57 | From the second pass on nothing changes, for every input |
| DirectionsSafety.NothingElseChanges | backend/alembic/versions/v6a7b8c9d0e1_add_trend_result_directions.py:38-57 | Apart from braces and whitespace the text is kept, followed by the default declaration exactly if it declared nothing |
| DirectionsUpgrade.SanitizeAndExtract | backend/alembic/versions/v6a7b8c9d0e1_add_trend_result_directions.py:36-58 | The scanning loop with its pieces, labels, seen labels and cursor computes the specified text and labels |
| DirectionsUpgrade.NextToken | backend/alembic/versions/v6a7b8c9d0e1_add_trend_result_directions.py:24-24 | The next leftmost match of the token pattern |
| DirectionsUpgrade.LegacyDirectionIs | backend/alembic/versions/v6a7b8c9d0e1_add_trend_result_directions.py:61-72 | With labels of both kinds the first of the kind that scores strictly more, the second kind on a tie; otherwise the very first label |
| DirectionsUpgrade.SecondKindIsReachedIff | backend/alembic/versions/v6a7b8c9d0e1_add_trend_result_directions.py:61-72 | Some text is of a label of the second kind exactly if the first label is of it or there are labels of both kinds |
| DirectionsUpgrade.TextDecidesIff | backend/alembic/versions/v6a7b8c9d0e1_add_trend_result_directions.py:61-72 | Two texts can be classified differently exactly if the first label of one kind is another than the first of the other |
| DirectionsUpgrade.DefaultDirectionIsAlwaysAi | backend/alembic/versions/v6a7b8c9d0e1_add_trend_result_directions.py:23-26 | Under the default labels every old result is classified as the first, since no term of the second kind occurs in them |
| DirectionsUpgrade.TrendTables.Upgrade | backend/alembic/versions/v6a7b8c9d0e1_add_trend_result_directions.py:96-134 | The three data loops leave templates, runs and results as specified |
| DirectionsUpgrade.EveryResultIsDirected | backend/alembic/versions/v6a7b8c9d0e1_add_trend_result_directions.py:114-134 | Every run's labels are those its stored text declares, and every result has a direction, declared by its run wherever the upgrade chose it |
| TagRoots.FindRootTagId | backend/app/api/routes.py:47-53 | The loop terminates for every alias map, cycles included, and returns the root |
| TagRoots.RootIsFirstStop | backend/app/api/routes.py:47-53 | The root is the first tag upwards that has no parent or lies on a cycle |
| TagRoots.StopIsOwnRoot | backend/app/api/routes.py:47-53 | A tag without parent, and every tag on a cycle, is its own root |
| TagRoots.RootIsIdempotent | backend/app/api/routes.py:47-53 | The root of a root is itself |
| TagRoots.TagIdsForRootName | backend/app/api/routes.py:61-76 | The filter selects exactly the sub tags whose root is a sub tag of the name |
| TagRoots.TagIdsForRootNames | backend/app/api/routes.py:94-103 | For several names the tags of each, none twice |
| TagRoots.FilterMatchesFacetsIff | backend/app/api/routes.py:56-76 | The filter for every name selects exactly the sub tags shown under it, if and only if every sub tag's root is a sub tag |
| TagRoots.FiltersPartitionIff | backend/app/api/routes.py:56-103 | No tag is selected by two names, and every sub tag is selected by one exactly if every root is a sub tag |
| TagRoots.SubTagParentsSuffice | backend/app/api/routes.py:42-53 | That condition holds if every parent is a sub tag |
| TagFacets.FacetCounts | backend/app/api/routes.py:378-392 | Each shown name has the sum of its rows, and all counts together are the sum of all rows, also when rows are of tags that came after the tags were read |
| TagFacets.CountAgainstFilter | backend/app/api/routes.py:271-280 | If roots are sub tags, a count is at least the number of visible items its filter returns, with equality exactly if no visible item carries two tags of the name |
| TagAliases.ItemRepository.RecordTagAliasSuggestions | backend/app/repository.py:85-141 | The loop over suggestions leaves tags and aliases as specified |
| TagAliases.ItemRepository.AddSourceLinkIfNew | backend/app/repository.py:64-76 | Inserts exactly if the link is new; no link is there twice |
| TagAliases.AliasTableStaysValid | backend/app/repository.py:120-141 | However many suggestions are recorded, each sub tag has at most one alias, never to itself, and names stay unique |
| TagAliases.RecordAsMap | backend/app/repository.py:107-141 | An effective suggestion redirects exactly its child in the alias map; any other leaves the map alone |
| TagAliases.ParentsStaySubTagsIff | backend/app/repository.py:107-121 | All parents stay sub tags exactly if the suggestion does not name a tag of another kind by number |
| TagAliases.RootsAreSubTagsIff | backend/app/repository.py:107-141 | In a valid alias table all roots are sub tags exactly if all parents are |
| TagAliases.RecordFindsAsShownIff | backend/app/repository.py:107-121 | If filters and facets agreed before a suggestion, they agree after it exactly if it does not name a tag of another kind by number as the parent of a sub tag |
| TagAliases.CategoryParentIsNotFound | backend/app/repository.py:107-121 | A concrete suggestion after which a sub tag is shown under a category whose filter finds nothing |
| TagAliases.SelectedNames | backend/app/repository.py:81-83 | At most four distinct, stripped, nonblank names, and all of them if there are fewer |
| QrLogin.InvAlways | backend/app/wechat_auth.py:409-681 | Over every interleaving sessions and profile index are in bijection, a running login is always kept, and a credential is saved for a session exactly if it ended in success |
| QrLogin.TerminalIsFinal | backend/app/wechat_auth.py:532-542 | A session that has ended keeps its status |
| QrLogin.CancelAndSuccessExclude | backend/app/wechat_auth.py:470-484 | A session that ended has its credential saved, now or later, exactly if it ended in success |
| QrLogin.OneLoginPerProfile | backend/app/wechat_auth.py:415-462 | A profile never has two running logins |
| QrLogin.PruneBounds | backend/app/wechat_auth.py:502-530 | After pruning at most a hundred sessions are kept or none could go; only ended, idle sessions go, and no outdated one stays |
| QrLogin.PruneTakesOldest | backend/app/wechat_auth.py:517-530 | Of two sessions that could go, the one updated earlier never outlives the other |
| QrLoginManager.WechatQrLoginManager.Start | backend/app/wechat_auth.py:415-462 | Which of started, already active, still cleaning up, lock busy and thread failed results, and that the manager is then as specified, the bijection kept in each case |
| QrLoginManager.WechatQrLoginManager.Get | backend/app/wechat_auth.py:464-468 | Prunes, and returns the session if it is still kept |
| QrLoginManager.WechatQrLoginManager.Cancel | backend/app/wechat_auth.py:470-484 | Returns the kept session, ended from now on |
| QrLoginManager.WechatQrLoginManager.PruneLocked | backend/app/wechat_auth.py:502-530 | Both passes leave exactly the sessions and index that pruning specifies |
| QrLoginManager.WechatQrLoginManager.SaveAuthenticatedContext | backend/app/wechat_auth.py:631-655 | Saves and succeeds exactly if the session is neither stopped nor ended and the store accepts; a raising store leaves everything as it was |
| QrLoginManager.WechatQrLoginManager.PublishScreenshot | backend/app/wechat_auth.py:657-681 | Shows a code only in an open session, and does not take back that it was scanned |
| QrLoginManager.WechatQrLoginManager.Run | backend/app/wechat_auth.py:544-629 | A login thread begins no round after its timeout and has as many rounds as that has seconds at most; it leaves its session ended unless it was told to stop, whatever the page and the other requests do, and the credential saved exactly if it ended in success |
| WechatCredentials.RenewedLoginSurvivesStaleVerdicts | backend/app/wechat_auth.py:260-371 | After a login the credential is valid and without error, whatever the row was, and no number of verdicts about other credentials changes that |
| WechatCredentials.OnlyLoginsChangeCredentials | backend/app/wechat_auth.py:260-371 | A stored credential changes only by a login or a logout of its profile |
| WechatCredentials.LateVerdictCountsIff | backend/app/wechat_auth.py:260-371 | A verdict about a credential that was read before any number of other operations takes effect exactly if the last login or logout among them, if any, stored the same credential; otherwise it changes nothing |
| Checkpoints.PrintedKeyParsesIff | backend/app/discovery/checkpoints.py:109-160 | A printed key parses back to the run and file names it was printed from exactly for run numbers from 1 and rounds up to 99 |
| Checkpoints.ParsedKeyWasPrinted | backend/app/discovery/checkpoints.py:297-310 | Every accepted key names a run and file that some save prints |
| Checkpoints.PointerSurvivesIff | backend/app/discovery/checkpoints.py:313-358 | A pointer that resolves still does after a cleanup exactly if the key of its file is a committed pointer |
| Checkpoints.PointersResolveIff | backend/app/discovery/checkpoints.py:82-177 | With cleanups only while no save is open, every committed pointer of every reachable state is a key that a save printed, and resolves exactly if the round of that save is at most 99 |
| Checkpoints.PointersAlwaysResolve | backend/app/discovery/checkpoints.py:82-177 | Over runs whose saves are all of rounds up to 99, every committed pointer resolves in every reachable state |
| Checkpoints.RoundHundredDoesNotResolve | backend/app/discovery/checkpoints.py:109-177 | A concrete run: a save of round 100 is committed, and its pointer does not resolve |
| Checkpoints.LongRoundsStay | backend/app/discovery/checkpoints.py:313-358 | A file of a round above 99 matches no pattern, and no later operation removes it |
| Checkpoints.CleanupLeavesExactly | backend/app/discovery/checkpoints.py:313-358 | After any run of saves that ends with a cleanup while none is open, the files left are exactly those of committed pointers and those of rounds above 99 |
| Checkpoints.OpenSaveLosesItsFile | backend/app/discovery/checkpoints.py:313-358 | A cleanup while a save is open removes its file, and the pointer then committed does not resolve |
| Checkpoints.CheckpointDirectory.CleanupOrphanedCheckpoints | backend/app/discovery/checkpoints.py:313-358 | The nested loops remove exactly the unreferenced regular checkpoint and temporary files, and count them |
| Slots.SlotsAreConserved | frontend/src/llmGenerationQueue.ts:9-34 | Over every run free permits and held slots stay the total, claims wait only while no permit is free, and waiters are served in order of arrival |
| Slots.NeverMoreThan | frontend/src/llmGenerationQueue.ts:47-58 | At most the given number of claims hold a slot |
| Slots.WaiterIsServedIff | frontend/src/llmGenerationQueue.ts:25-32 | A claim with k others before it has its slot exactly once k + 1 slots have been given back |
| Slots.AsyncSemaphore.Acquire | frontend/src/llmGenerationQueue.ts:16-24 | Takes a permit at once or joins the end of the queue |
| Slots.AsyncSemaphore.Release | frontend/src/llmGenerationQueue.ts:26-33 | Wakes the first waiter, or frees a permit if there is none |
| Slots.CardSlots.ClaimCardGenerationSlot | frontend/src/llmGenerationQueue.ts:50-58 | A claim as specified |
| Slots.CardSlots.CallRelease | frontend/src/llmGenerationQueue.ts:53-57 | However often the closure is called, it gives its slot back once |
| Slots.StreamSlots.Lease | backend/app/api/discovery_routes.py:640-642 | A stream is refused exactly while all 32 slots are leased |
| Slots.StreamSlots.ReleaseLease | backend/app/api/discovery_routes.py:479-491 | However many response paths release a lease, its slot comes back once and never more slots than there are |
| CategoryRename.MergeIsUnion | backend/app/api/discovery_routes.py:1938-1948 | After merging, the new tag's items are the union, the old tag has none, no link is there twice, and the rows of every other tag are the same |
| CategoryRename.TagsAreRenamed | backend/app/api/discovery_routes.py:1924-1948 | An item has a category tag afterwards exactly if it had one that the rename takes to it |
| CategoryRename.RenameKeepsAgreement | backend/app/api/discovery_routes.py:1951-1983 | Agreement between each item's category text and its category tag is kept, and names, tags and links stay unique |
| CategoryRename.ItemsFollowTheirCategory | backend/app/api/discovery_routes.py:1951-1983 | Over any sequence of rename requests, accepted or refused, no category or item is lost, texts and tags stay in agreement, and every item stays in the category row it was in |
| CategoryRename.RenameBackRestoresIff | backend/app/api/discovery_routes.py:1924-1983 | Renaming a category and back is accepted and restores every item's text exactly if no item stored the other name before, and every item's category tags exactly if none had a tag of it |
| CategoryRename.CategoryTables.RenameMainCategoryTag | backend/app/api/discovery_routes.py:1924-1948 | Tags and links as specified, in place |
| CategoryRename.CategoryTables.UpdateMainCategory | backend/app/api/discovery_routes.py:1951-1983 | Which outcome results; the tables are renamed or, in every other case, unchanged |

## Left out

- Transactions are atomic steps: races inside one transaction, such as two concurrent duplicate checks of enqueue before either commits or a stale ORM read, are not modelled.
- Timestamps of queue rows other than the creation time, display fields and the snapshot returned by the queue routes.
- Batch runs end once and stay ended; the resumption of a package finalization and runs that survive a restart are not part of this model.
- Starting a batch run either creates a run or fails without one; a failure after the run row exists is not modelled.
- The thread that calls the dispatcher periodically, and what runs inside a discovery or fetch run.
- The integrity-error branch of a formal start, which cannot be reached while the method row is locked.
- The inside of the migration ledger: a terminal run is one entry in it.
- The polling loop of a process fetch job over its process and log queue; its registrations and removals are operations of the registry.
- What a cancel of a fetch job reports to the formal run; `FormalRuns` has that finish as an operation of its own.
- `_owner_is_alive` reads process start tokens from the operating system; here a table of live processes is a parameter.
- Event redaction, size limits and the JSON text of frames; the public projection is taken as total on public event types.
- Heartbeat frames and disconnection of a stream only end or pad it and carry no event.
- The SQLite branch of the domain locks, which is one process-wide lock, and the row locks taken after the advisory locks.
- `active_formal_run_id`, a single read.
- URL normalization and hashing: the key of an entry URL is a field of the method row; so is whether the row is an ordinary website, which `Recipes` decides from its recipe.
- Review times are the place of their printed form in string order.
- Downgrades and the schema changes of both migrations.
- Lower-casing is modelled for ASCII letters.
- The truncation of facet counts to the thirty largest, and the other filters of the item list.
- Confidence, reason and source of an alias suggestion; saving the enriched item itself.
- A deletion of the old category tag that the database refuses because an alias still names it.
- Logout's removal of browser data, file locks between processes other than their being free or busy, and the probe that yields a verdict about a credential.
- Writing and syncing a checkpoint file, its size limits and its content; unlinking races of a cleanup with other processes.
- The generic `run` wrapper of the semaphore, which claims and gives back like a card slot.
- Deleting and creating main categories.
