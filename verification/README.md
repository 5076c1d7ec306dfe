# ProofOps: a Dafny model of its protocols and checks

The model covers the parts of ProofOps whose correctness spans many operations. `dafny verify dfyconfig.toml` verifies
the whole project.

- **Arena task journal and bundle verifier** (`Values`, `Arena`, `Journal`, `BundleVerifier`, `BundleTheorems`,
  `BundleSpec`, `BundleFaults`, `JournalTheorems`, `JournalHistory`) and the **evidence ledger** (`Ledger`). The store
  is a class whose methods are transactions, each equal to a step function on the tables; the theorems are about those
  functions over any sequence of transactions. `BundleSpec` says what the verifier accepts without running it,
  `BundleFaults` what each failure it reports means, `JournalHistory` what the store returns and holds in terms of the
  calls it accepted. Hashing is a parameter with one law, injectivity, and decoding undoes canonical encoding.
- **Permissioned execution** (`RiskGate`, `ExecutionStore`, `TaskService`, `ExecutionProtocol`, `ExecutionTheorems`,
  `ExecutionResults`, `ExecutionMoney`, `DailyCap`, `ExecutionRequests`, `ExecutionCounts`, `ExecutionRuns`).
  `TaskService` holds the service's calls as ordinary methods. `ExecutionProtocol` cuts the same calls into the steps
  between which other clients may run: one step per transaction, re-read, clock or gate reading, and adapter answer,
  with clock ticks, the kill switch, crashes and a failing `add_spend` as further actions. `TaskService.AloneIsSerial`
  and `ExecutionRequests.CallsAreSerial` tie the two together. `ExecutionRequests` says what a request must be to be
  executed, `ExecutionCounts` that the histories count what happened; `ExecutionRuns` builds the runs that reach the
  limits of what the other theorems promise.
- **Plugin registry** (`Ordering`, `PluginGraph`, `PluginOrder`, `OrderMeaning`, `PluginLifecycle`,
  `LifecycleTheorems`, `LifecycleRuns`): the sorted Kahn loop against an independent definition of start order and
  cycle, then start, rollback, stop and restart, for plugins that may raise at every stage.
- **Planners and acceptance** (`RangePlanner`, `GridPlanner`, `YieldPlanner`, `HealthPlanner`, `Acceptance`): tick
  arithmetic over integers, finance over exact reals. Fractional powers enter through their defining equations
  (`RangePlanner.SqrtPriceSquared`, `GridPlanner.GridIsGeometric`, `YieldPlanner.RowTells`).
- **JSON nesting scanner** (`NestingScanner`): the byte automaton against the tree of the JSON text.
- **Snapshot cache, market projection and quote breaker** (`SnapshotCache`, `MarketProjection`, `QuoteBreaker` for
  quotes one at a time, `QuoteOverlap` for quotes that overlap).

## Where the code and its promises part

- `create` accepts a `source_observation` that is not bound to the task's snapshot, and the export of such a task does
  not verify. `JournalTheorems.CreatedTaskVerifies` gives the exact condition; against the head of an unbound task no
  bundle at all is accepted (`JournalTheorems.HeadAcceptsIffBound`).
- `record_id` of a ledger record is covered by no hash (`Ledger.IdIsNotCovered`), so a trusted head pins a ledger only
  up to that field (`Ledger.HeadPinsLedger`).
- When `add_spend` raises, its handler commits SUCCEEDED (or, after a revocation in between, REVOKED) to FAILED, which
  is not an allowed transition. `ExecutionResults.StateChangesAreEdges` shows that nothing else ever leaves the table,
  and `ExecutionRuns.FailedSpendIsReachable` gives a run that does.
- The gate does not see executions in flight, so the daily cap is exact only for executions that do not overlap.
  `DailyCap.OverlapBoundsSpend` bounds what overlap adds, and `ExecutionRuns.CapIsReached` reaches the bound for every
  number of overlapping executions.
- The gate does not look at the simulation's expiry again. The check precedes the simulation's expiry and the gate the
  intent's deadline, five minutes each (`ExecutionResults.GatePassIsFresh`), so a stalled client can pass almost ten
  minutes after the simulation (`ExecutionRuns.LatePassIsReachable`).
- `start_all` can leave a wrong started list in three ways. It reaches a plugin that already runs, as every second
  `start_all` does (`LifecycleRuns.SecondStartAllCollides`, `LifecycleRuns.CollisionIsReachable`). A plugin raises in
  the rollback. Or everything comes up, but behind a running plugin that requires it: `restart_plugin` asks neither
  whether a plugin is enabled nor whether its requirements are there (`LifecycleRuns.OvertakingIsReachable`).
  `LifecycleTheorems.StartAllKeepsInvIff` gives the exact condition.
- A plugin that raises in `stop_all` stays in the started list (`LifecycleTheorems.StopAllStopsAll`). A plugin that
  raised there, or in `start`, does not run while its capabilities are still registered; if one of them is provided by
  no other plugin, no call ever brings it up again (`LifecycleRuns.NeverComesBack`,
  `LifecycleRuns.RaisingStopIsReachable`, `LifecycleRuns.RaisingStartBlocks`).
- The breaker's counter is read before an attempt and written after it, so overlapping failures can count once
  (`QuoteOverlap.OverlapHidesFailures`). `QuoteOverlap.OverlapBoundsAttempts` bounds what overlap lets through.

## Model

| member | source | states |
|---|---|---|
| `Journal.TaskStore.AppendEvent` | `src/proofops/arena/store.py:91-96` | the new event continues the task's chain at the next sequence number; no other row changes |
| `Journal.TaskStore.Create` | `src/proofops/arena/store.py:98-122` | one transaction: stale snapshots, a full table and a repeated id are refused without a trace; otherwise one task row and one opening event |
| `Journal.TaskStore.Submit` | `src/proofops/arena/store.py:131-168` | one transaction, in the code's order of checks: key form, parse, capability, replay, version, quota; only the last branch writes |
| `Journal.TaskStore.Bundle` | `src/proofops/arena/store.py:170-185` | the export of the stored rows, sealed with its integrity report and its own checksum |
| `BundleVerifier.VerifyBundle` | `src/proofops/arena/store.py:188-256` | the verifier with its two loops computes the verdict function, exceptions included |
| `BundleVerifier.CheckEvents` | `src/proofops/arena/store.py:201-224` | the event loop; its state after any row is a function of the rows read |
| `BundleVerifier.CheckProposals` | `src/proofops/arena/store.py:231-243` | the proposal loop |
| `BundleTheorems.CleanRow` | `src/proofops/arena/store.py:201-210` | a row without failures is in place, linked to the current head and hashed correctly, and the first one opens the task |
| `BundleTheorems.ChainBack` | `src/proofops/arena/store.py:201-224` | equal heads of two clean chains force equal lengths and equal rows, by induction backwards along both chains |
| `BundleTheorems.SameTask` | `src/proofops/arena/store.py:194-210` | equal opening events bind equal tasks and equal task ids |
| `BundleTheorems.SameHeadSameHistory` | `src/proofops/arena/store.py:188-252` | two bundles accepted with one head have the same task, the same events in order and the same proposals (text, report, version) up to reordering |
| `BundleSpec.AcceptedIff` | `src/proofops/arena/store.py:188-252` | a bundle is accepted if and only if it has the schema's version, a valid task with its hash, a chain that opens the task (with a bound observation, if any) and then checks different proposals, exactly those proposals with the recorded outputs and reports, the trusted head, and its own checksum if it carries one |
| `BundleFaults.FailuresSayWhy` | `src/proofops/arena/store.py:188-252` | when the verifier does not raise it reports exactly the faults of the bundle, its rows and its proposals, each under its name |
| `BundleSpec.SameChecksumSameBundle` | `src/proofops/arena/store.py:246-249` | two accepted bundles with one checksum are equal in every field |
| `JournalTheorems.CreateKeepsGood` | `src/proofops/arena/store.py:98-122` | create keeps the journal invariant and records the observation it was given |
| `JournalTheorems.SubmitKeepsGood` | `src/proofops/arena/store.py:131-168` | submit keeps the journal invariant, whatever the arguments |
| `JournalTheorems.EveryRun` | `src/proofops/arena/store.py:91-168` | after any run: quotas hold, version = events = 1 + proposals, each proposal has the sequence number of its event, no key or id repeats |
| `JournalTheorems.ExportVerifies` | `src/proofops/arena/store.py:170-252` | in every good state the export verifies, anchored or not, if and only if the collector's observation is bound to the snapshot |
| `JournalTheorems.CreatedTaskVerifies` | `src/proofops/arena/store.py:98-122` | over whole runs: the export of a created task verifies if and only if the observation handed to create is bound to the task handed to create |
| `JournalTheorems.TrustedHeadPinsExport` | `src/proofops/arena/store.py:188-252` | after any run, for every task: a bundle accepted against the head of its export tells exactly the history of that export |
| `JournalTheorems.HeadAcceptsIffBound` | `src/proofops/arena/store.py:188-252` | after any run, some bundle is accepted against the head of a task if and only if the task's recorded observation is bound |
| `JournalTheorems.AppendOnly` | `src/proofops/arena/store.py:91-168` | later transactions only append to a task's events and proposals |
| `JournalTheorems.RepeatIsReplayed` | `src/proofops/arena/store.py:141-147` | a repeat of a key with the same bytes returns the original receipt and changes nothing, however many transactions lie between; other bytes are a conflict |
| `JournalTheorems.OneCommitPerVersion` | `src/proofops/arena/store.py:148-159` | of submissions expecting one version at most one commits |
| `JournalHistory.JournalIsHistory` | `src/proofops/arena/store.py:91-168` | after any run the tables hold exactly the rows and events of the accepted calls, and create and submit answer every next call as those calls and its own arguments determine |
| `JournalHistory.CommittedReport` | `src/proofops/arena/store.py:131-168` | a committed submission is judged as the task create was given, with its own output, at its own time; the row and every later export carry that output and report |
| `JournalHistory.ExportTellsHistory` | `src/proofops/arena/store.py:124-185` | after any run bundle returns the task's history, sealed, to the token the task was created with, and MissingTask to any other |
| `JournalHistory.ChecksumPinsExport` | `src/proofops/arena/store.py:170-249` | an accepted bundle that carries the checksum of a genuine export is that export |
| `Ledger.EvidenceLedger.Last` | `src/proofops/plugins/evidence.py:47-57` | index and hash of the last record, or the genesis values |
| `Ledger.EvidenceLedger.Append` | `src/proofops/plugins/evidence.py:59-90` | the file grows by one record linked to the one before it |
| `Ledger.EvidenceLedger.Verify` | `src/proofops/plugins/evidence.py:99-129` | the verification loop, with the count, the head and every error |
| `Ledger.ValidIffLinked` | `src/proofops/plugins/evidence.py:99-129` | verification finds nothing if and only if every record is in place, hashed and linked |
| `Ledger.HeadPinsLedger` | `src/proofops/plugins/evidence.py:103-128` | another file passes with the head of a valid ledger if and only if it has the same records in order, up to record_id |
| `Ledger.IdIsNotCovered` | `src/proofops/plugins/evidence.py:65-76` | record_id is covered by no hash: changing it changes no verdict |
| `Ledger.AppendKeepsValid` | `src/proofops/plugins/evidence.py:59-90` | append keeps a valid ledger valid |
| `Ledger.RunKeepsValid` | `src/proofops/plugins/evidence.py:59-90` | over every run of append a valid ledger stays valid, keeps its records and gains one for each call |
| `Ledger.RunTellsPosts` | `src/proofops/plugins/evidence.py:59-90` | over every run the k-th call's record holds its time, kind, source and redacted payload, at the next index, with the identifier from its hash |
| `Ledger.ErrorsAreFaults` | `src/proofops/plugins/evidence.py:99-129` | verify reports an error if and only if some record has that fault |
| `Ledger.RecordsAreEntries` | `src/proofops/plugins/evidence.py:47-57` | reading skips blank lines, raises at garbage and keeps the order of the records |
| `PluginOrder.OrderedIds` | `src/proofops/harness/registry.py:59-101` | fails for a repeated capability, then a missing one, then if and only if the graph has a cycle, naming all the plugins that can never start; otherwise returns the lexicographically least start order |
| `PluginOrder.CapabilityOwners` | `src/proofops/harness/registry.py:65-73` | the owner of each capability, or the repetition error |
| `PluginOrder.Dependencies` | `src/proofops/harness/registry.py:75-85` | each plugin depends on the owners of its requirements that are not already provided, or a requirement is missing |
| `PluginOrder.Strike` | `src/proofops/harness/registry.py:92-97` | the inner loop: afterwards nothing waits for the placed plugin and the ready list is the sorted set of plugins that can go next |
| `PluginOrder.Kahn` | `src/proofops/harness/registry.py:87-97` | the order built is greedy and respects dependencies, and nothing more is ready at the end |
| `PluginGraph.GreedyIsLeast` | `src/proofops/harness/registry.py:88-97` | taking the least ready plugin each time gives the lexicographically least of all start orders |
| `PluginGraph.LeastOrderUnique` | `src/proofops/harness/registry.py:88-101` | there is only one such order |
| `PluginGraph.StuckHasCycle` | `src/proofops/harness/registry.py:98-100` | plugins that all wait for one another contain a cycle |
| `PluginGraph.CycleHasNoOrder` | `src/proofops/harness/registry.py:98-100` | a graph with a cycle has no start order |
| `PluginOrder.ListingOrderIrrelevant` | `src/proofops/harness/registry.py:59-101` | two listings of the same manifests end with the same error about the same plugins, or with the same start order |
| `OrderMeaning.OrderingMeans` | `src/proofops/harness/registry.py:59-101` | the three errors and the order said about the manifests alone: a capability provided twice, one provided by nobody, plugins waiting in a circle, or the least order in which each comes after those it waits for |
| `Ordering.LessIff` | `src/proofops/harness/registry.py:88-97` | sorted() compares by the first differing character, a proper prefix first |
| `PluginLifecycle.PluginRegistry.StartAllPlugins` | `src/proofops/harness/registry.py:117-141` | the start loop with its rollback, for plugins that may raise at any stage, in the rollback too |
| `PluginLifecycle.PluginRegistry.Stop` | `src/proofops/harness/registry.py:143-156` | stops a started plugin, removes one entry of the started list and its capabilities; raises half way where the plugin does; otherwise nothing |
| `PluginLifecycle.PluginRegistry.StopEverything` | `src/proofops/harness/registry.py:158-167` | stops a copy of the started list from its end; a plugin that raises is marked as failing and the loop goes on |
| `PluginLifecycle.PluginRegistry.RestartPlugin` | `src/proofops/harness/registry.py:169-187` | refused while a started plugin requires something it provides; otherwise stop, load, start, and back to the end of the list, up to the stage that raises |
| `LifecycleTheorems.StopAllStopsAll` | `src/proofops/harness/registry.py:158-167` | whatever plugins do, nothing runs afterwards; exactly the capabilities of those that did not raise are gone; those that raised stay listed, so the list is accurate if and only if none did |
| `LifecycleTheorems.StopsDependantsFirst` | `src/proofops/harness/registry.py:158-167` | when stop_all comes to a plugin, nothing that still runs requires anything it provides |
| `LifecycleTheorems.StopDoes` | `src/proofops/harness/registry.py:143-156` | a running plugin that does not raise leaves the list and takes its capabilities; nothing else changes |
| `LifecycleTheorems.StartAllFromRest` | `src/proofops/harness/registry.py:117-141` | on success the whole order runs, providers first; on failure nothing runs and extra capabilities belong to the plugin that failed or to those that raised in the rollback, which alone stay listed |
| `LifecycleTheorems.RestartKeepsInvIff` | `src/proofops/harness/registry.py:169-187` | restart keeps the started list duplicate-free, accurate and providers-first, whatever the plugin does, if and only if it does not raise in unload after it was stopped |
| `LifecycleTheorems.RestartDoes` | `src/proofops/harness/registry.py:169-187` | refused if a running plugin requires something it provides; otherwise succeeds if and only if no stage raises and its capabilities are free once it is stopped, and then runs at the end of the list with no other plugin changed |
| `LifecycleTheorems.RunKeepsInvIff` | `src/proofops/harness/registry.py:117-187` | over every run of start_all, stop_plugin, stop_all and restart_plugin, whatever plugins do: every state has a duplicate-free, accurate, providers-first started list if and only if every operation meets its condition where it is called |
| `LifecycleRuns.SecondStartAllCollides` | `src/proofops/harness/registry.py:117-141` | after a successful start_all the next one collides, whatever plugins do |
| `LifecycleRuns.CollisionIsReachable` | `src/proofops/harness/registry.py:117-141` | a run of two calls of start_all that ends with a plugin listed and not running |
| `LifecycleRuns.OvertakingIsReachable` | `src/proofops/harness/registry.py:169-187` | a run in which every plugin behaves and nothing collides, that ends with a provider behind its dependant |
| `LifecycleRuns.NeverComesBack` | `src/proofops/harness/registry.py:143-187` | a plugin that does not run while a capability that only it provides is there never runs again, over any run |
| `LifecycleRuns.RaisingStopIsReachable` | `src/proofops/harness/registry.py:158-167` | a run in which stop_all leaves a plugin listed and blocked in that way |
| `LifecycleRuns.RaisingStartBlocks` | `src/proofops/harness/registry.py:120-141` | start_all that fails because a plugin raises in start leaves that plugin blocked, if it alone provides one of its capabilities |
| `LifecycleTheorems.StartAllConsistentIff` | `src/proofops/harness/registry.py:117-141` | whatever runs and whatever plugins do, start_all leaves an accurate started list if and only if it neither reaches a running plugin first nor meets an exception in its rollback |
| `LifecycleTheorems.StartAllKeepsInvIff` | `src/proofops/harness/registry.py:117-141` | it also keeps providers first if and only if, besides, no running plugin requires what a started order provides |
| `RiskGate.Evaluate` | `src/proofops/execution/risk_gate.py:35-86` | allows if and only if the intent is authorised; the reasons are exactly the violated conditions |
| `RiskGate.AuthorisedIff` | `src/proofops/execution/risk_gate.py:39-80` | authorisation as one condition is the absence of all twenty violations |
| `RiskGate.EdgeIff` | `src/proofops/execution/state_machine.py:6-20` | the allowed transitions, by where they lead: execution only from APPROVED and to SUCCEEDED or FAILED, approval also after a failure, revocation from everything but EXECUTING, for good |
| `ExecutionStore.SQLiteStore.Update` | `src/proofops/execution/store.py:276-307` | commits against the version read and nothing else |
| `ExecutionStore.SQLiteStore.Create` | `src/proofops/execution/store.py:203-241` | a repeated idempotency key or id is refused; otherwise a draft at version 0 and its key |
| `ExecutionStore.SQLiteStore.SpentToday` | `src/proofops/execution/store.py:316-323` | the day's total, zero without a row |
| `ExecutionStore.SQLiteStore.RecordSpend` | `src/proofops/execution/store.py:325-332` | adds to the day's row |
| `ExecutionStore.SQLiteStore.Save` | `src/proofops/execution/store.py:143-183` | inserts or replaces a policy |
| `ExecutionStore.OneWriterPerVersion` | `src/proofops/execution/store.py:276-306` | after one commit a second writer with the same expected version conflicts |
| `ExecutionStore.SpendAdds` | `src/proofops/execution/store.py:325-332` | spend adds up and touches no other policy or day |
| `ExecutionStore.DayIs` | `src/proofops/execution/store.py:316-332` | a day of the spend table is the UTC day of the clock |
| `TaskService.TaskService.Execute` | `src/proofops/execution/service.py:144-227` | execute() alone: an admitted task ends SUCCEEDED and is charged once, or ends FAILED and is not; anything else changes nothing |
| `TaskService.TaskService.Carry` | `src/proofops/execution/service.py:196-225` | the part from the EXECUTING commit on, with the handler for adapter and add_spend failures |
| `TaskService.TaskService.Simulate` | `src/proofops/execution/service.py:112-133` | a passed simulation takes a draft to APPROVAL_REQUIRED and records request hash, policy and expiry |
| `TaskService.TaskService.Approve` | `src/proofops/execution/service.py:135-142` | one edge to APPROVED, one version |
| `TaskService.TaskService.RevokeTask` | `src/proofops/execution/service.py:229-236` | one edge to REVOKED, one version |
| `TaskService.TaskService.CreatePolicy` | `src/proofops/execution/service.py:33-68` | refuses a bad lifetime or an empty allowlist, otherwise stores the lower-cased policy, not revoked |
| `TaskService.TaskService.RevokePolicy` | `src/proofops/execution/service.py:76-83` | only the revoked flag changes |
| `TaskService.TaskService.CreateTask` | `src/proofops/execution/service.py:85-104` | a draft under a policy of the same agent, once per idempotency key |
| `TaskService.IssuedListsTheSame` | `src/proofops/execution/service.py:56-57` | lower-casing the allowlists changes nothing the gate sees |
| `ExecutionRequests.IssuedAuthorises` | `src/proofops/execution/service.py:33-68` | the stored policy authorises what the arguments of create_policy describe, until its lifetime is over |
| `ExecutionRequests.AdmittedIff` | `src/proofops/execution/service.py:144-193` | execute admits a call if and only if the task is approved and freshly simulated and the caller's chain, target, method, value, slippage, key and mode are within the stored policy |
| `ExecutionRequests.CallsAreSerial` | `src/proofops/execution/service.py:76-142` | simulate, approve, create_task and the two revocations as methods and as undisturbed protocol steps end in the same store |
| `TaskService.AloneIsSerial` | `src/proofops/execution/service.py:144-227` | with no other client moving, the interleaved protocol ends where the method ends |
| `ExecutionTheorems.ApplyKeepsInv` | `src/proofops/execution/service.py:112-236` | every action of every client, the clock and the operator keeps the protocol invariant |
| `ExecutionTheorems.RunKeepsInv` | `src/proofops/execution/service.py:112-236` | so does every run from an empty store |
| `ExecutionTheorems.ClosingIsCurrent` | `src/proofops/execution/service.py:203-225` | over every run: an executor about to close its task, or in its handler, finds the task EXECUTING at the version it read, so the update goes through |
| `ExecutionResults.StateChangesAreEdges` | `src/proofops/execution/state_machine.py:6-20` | over every run and its next action: every committed change raises the version by one and is an allowed transition, if and only if it is not the handler for a failed add_spend, which takes a settled task to FAILED |
| `ExecutionResults.OnlyExecutorCommits` | `src/proofops/execution/service.py:196-225` | over every run: while a task is EXECUTING its one executor alone can change it |
| `ExecutionResults.PerTaskLimits` | `src/proofops/execution/service.py:112-225` | over any run: adapter calls never outnumber approvals, one simulation, one charge at most, retries included |
| `ExecutionRequests.ExecutionsWereAllowed` | `src/proofops/execution/service.py:144-225` | over every run an execution under way came from a call whose request the gate found within the task's policy, on what was read at each step; it commits, calls for and charges that task and that value |
| `ExecutionRequests.RevokedBeforeIsStopped` | `src/proofops/execution/service.py:76-83` | over every run an execution under way read its policy before the policy was revoked |
| `ExecutionRequests.PoliciesOnlyRevoked` | `src/proofops/execution/service.py:76-83` | over every run a stored policy never changes but by its revocation, which is for good |
| `ExecutionRequests.TasksAreOwned` | `src/proofops/execution/service.py:85-104` | over every run each task is under a policy of its own agent |
| `ExecutionRequests.TasksCameFromCalls` | `src/proofops/execution/service.py:85-104` | over every run a task has the agent, policy and request that create_task was called with, and holds that call's key |
| `ExecutionCounts.HistoriesCount` | `src/proofops/execution/service.py:112-225` | over every run the history of a task holds the number of its committed approvals, simulations and executions, its adapter calls and its charges |
| `ExecutionResults.GatePassIsFresh` | `src/proofops/execution/service.py:165-199` | over every run: a gate pass rests on a check under five minutes after the task's only simulation, of the simulated request, and comes under five minutes after that check |
| `ExecutionResults.StalledCheckStillPasses` | `src/proofops/execution/service.py:165-193` | a client that stalls at the gate still passes until the intent's deadline, the policy's expiry or the end of the day |
| `ExecutionRuns.LatePassIsReachable` | `src/proofops/execution/service.py:165-199` | a run from an empty store to a gate pass 598 seconds after the simulation |
| `ExecutionRuns.FailedSpendIsReachable` | `src/proofops/execution/service.py:203-225` | a run from an empty store whose next step takes a task from SUCCEEDED to FAILED |
| `ExecutionMoney.NextDoes` | `src/proofops/execution/service.py:144-225` | what each step does to the books and to the value a client carries |
| `ExecutionMoney.BooksBalance` | `src/proofops/execution/service.py:203-225` | over any run: value of successful executions = recorded spend over all days + still owed + lost to crashes and failing add_spend |
| `ExecutionMoney.SpendIsExact` | `src/proofops/execution/store.py:325-332` | without crashes and failing add_spend, and with nobody in between, recorded spend is exactly the value of successful executions |
| `DailyCap.OverlapBoundsSpend` | `src/proofops/execution/risk_gate.py:61-64` | over any interleaving with at most k executions of a policy in flight no day exceeds daily_value_usd + (k - 1) * max_value_usd |
| `DailyCap.SerialSpendWithinDailyCap` | `src/proofops/execution/risk_gate.py:63-64` | executions one at a time keep every day within daily_value_usd, also when the day changes between check and write |
| `DailyCap.GateIgnoresFlight` | `src/proofops/execution/service.py:188-199` | of two clients that pass the gate the second still passes after the first was admitted |
| `ExecutionRuns.CapIsReached` | `src/proofops/execution/risk_gate.py:61-64` | for every k a run with at most k executions in flight whose day's spend is exactly daily_value_usd + (k - 1) * max_value_usd, above daily_value_usd from two on |
| `NestingScanner.ScanBody` | `src/proofops/arena/routes.py:319-338` | rejects if and only if some prefix of the bytes goes deeper than 64 |
| `NestingScanner.ScanComputesNesting` | `src/proofops/arena/routes.py:319-338` | on every JSON text (RFC 8259 sections 2 to 7) the deepest point is the nesting of the value, and the scan ends at depth zero, unquoted |
| `NestingScanner.Intake` | `src/proofops/arena/routes.py:304-338` | reading ends with a disconnect, the first message that makes the body too large, or the last message; the decision that follows |
| `NestingScanner.SplitDoesNotMatter` | `src/proofops/arena/routes.py:304-338` | however a text is cut into messages it is forwarded unchanged if and only if it nests at most 64 deep |
| `NestingScanner.AnyBodyIsBounded` | `src/proofops/arena/routes.py:304-338` | any bytes: refused as too large above 64000 in all, else as too deep if and only if some prefix opens more than 64 levels |
| `NestingScanner.BoundedReceive.Receive` | `src/proofops/arena/routes.py:341-347` | hands out what was read, then what the client sends next |
| `NestingScanner.Call` | `src/proofops/arena/routes.py:300-354` | a forwarded application receives the original stream from its start |
| `RangePlanner.RangeFits` | `src/proofops/arena/planners.py:43-51` | aligned, in-protocol bounds that contain the tick and cover the half width, by less than one spacing too much, except where clipped |
| `RangePlanner.RaisesIffNoRange` | `src/proofops/arena/planners.py:43-51` | raises if and only if no aligned in-protocol range contains the tick |
| `RangePlanner.InRangeDoesNotRaise` | `src/proofops/arena/planners.py:43-51` | a position in range can always be re-centred |
| `RangePlanner.SqrtPriceSquared` | `src/proofops/arena/planners.py:35-35` | the square root prices square to 1.0001 ** tick |
| `RangePlanner.InventoryOnCurve` | `src/proofops/arena/planners.py:29-40` | nonnegative amounts on (x + L/b)(y + L*a) = L*L for every tick; all token0 if and only if at or below the range, all token1 if and only if at or above it |
| `RangePlanner.InventoryMonotone` | `src/proofops/arena/planners.py:35-40` | token0 never rises and token1 never falls with the tick |
| `RangePlanner.InventoryAtPrice` | `src/proofops/arena/planners.py:29-40` | inside the range the amounts are in the proportion of the price; the decimals scale them; raises if and only if ticks are out of order or bounds |
| `GridPlanner.GridIsGeometric` | `src/proofops/arena/planners.py:54-69` | the prices run from lower to upper in equal ratios and rise |
| `GridPlanner.NetPositiveIffAboveBreakEven` | `src/proofops/arena/planners.py:58-67` | a cycle makes money if and only if the ratio exceeds the break-even ratio; cost is nonnegative and adds up with net to the gross gain |
| `GridPlanner.CycleIsTrade` | `src/proofops/arena/planners.py:54-69` | capital is split evenly, and net is what one buy and one sale a level higher leave after the three rates and the gas; at the break-even ratio that is zero |
| `YieldPlanner.YieldMetrics` | `src/proofops/arena/planners.py:72-86` | one row per venue, ranked |
| `YieldPlanner.RankingIndependentOfListing` | `src/proofops/arena/planners.py:78-86` | the ranking is the sorted permutation of the rows and does not depend on the listing |
| `YieldPlanner.RowTells` | `src/proofops/arena/planners.py:72-86` | a row compares both yields compounded over the horizon, less the cost of moving, and says whether the capital fits and is out in time |
| `YieldPlanner.YearIsPercent` | `src/proofops/arena/planners.py:72-86` | over 365 days the income is the plain percentage |
| `YieldPlanner.HigherYieldRanksFirst` | `src/proofops/arena/planners.py:72-86` | a venue with a higher yield that costs no more to move to ranks first; equal yield improves by exactly minus the cost |
| `HealthPlanner.RequiredRepayIsLeast` | `src/proofops/arena/planners.py:98-105` | the required repayment reaches the target and is at most every whole-cent repayment that does; whole cents or the whole debt |
| `HealthPlanner.ReachesIff` | `src/proofops/arena/planners.py:98-98` | a repayment reaches the target if and only if it covers the gap |
| `HealthPlanner.TotalsAreSums` | `src/proofops/arena/planners.py:89-97` | the stressed totals are sums over assets and debts: value times threshold less the drop, and value more the rise |
| `HealthPlanner.FactorsAreRatios` | `src/proofops/arena/planners.py:92-105` | each factor is collateral over debt; the factor now is that of the same position without stress |
| `HealthPlanner.StressNeverHelps` | `src/proofops/arena/planners.py:94-101` | a larger drop or rise never lowers the stressed debt or the required repayment |
| `Acceptance.Evaluate` | `src/proofops/arena/planners.py:135-242` | raises if and only if the planner raises; accepts if and only if the proposal meets the acceptance condition of its category |
| `Acceptance.CheckHold` | `src/proofops/arena/planners.py:147-157` | a hold passes only where the planner holds and nothing is left unresolved |
| `Acceptance.CheckRange` | `src/proofops/arena/planners.py:158-186` | a reset passes if and only if it is the planner's own range, out of range before, within caps |
| `Acceptance.CheckGrid` | `src/proofops/arena/planners.py:187-201` | a grid passes if and only if its prices are close to the geometric ones, it makes money and is within caps |
| `Acceptance.CheckYield` | `src/proofops/arena/planners.py:202-214` | a route passes if and only if it names a venue that is good |
| `Acceptance.CheckHealth` | `src/proofops/arena/planners.py:215-235` | a repayment passes if and only if it is affordable and sufficient; the reported health is then at target or the debt is cleared |
| `Acceptance.ReferenceAcceptedIfAnyIs` | `src/proofops/arena/planners.py:108-242` | if any proposal is accepted for a fresh task the reference plan is |
| `Acceptance.NeverBothHoldAndAct` | `src/proofops/arena/planners.py:108-242` | no task accepts both a hold and an action |
| `Acceptance.ReferenceRoutesToBest` | `src/proofops/arena/planners.py:120-125` | the reference routes to the first good venue in ranking order, and holds if and only if no venue is good |
| `Acceptance.AcceptedRepaySuffices` | `src/proofops/arena/planners.py:215-235` | every accepted repayment clears the debt or leaves modelled health at or above target |
| `Acceptance.ReferenceHoldsIff` | `src/proofops/arena/planners.py:108-132` | when the reference holds, in terms of the inputs and limits of each category |
| `Acceptance.AcceptedWithinLimits` | `src/proofops/arena/planners.py:146-235` | an accepted action is within the cost and slippage caps; an accepted hold leaves no position out of range and no loan below target |
| `Acceptance.GoodIff` | `src/proofops/arena/planners.py:120-122` | a venue is good if and only if the capital fits, is out in time, moving is within the cap and compounding there earns enough more |
| `Acceptance.AcceptanceWindow` | `src/proofops/arena/models.py:195-197` | an accepted proposal is accepted exactly from 5 seconds before the observation to the maximum age after it |
| `Acceptance.CloseIff` | `src/proofops/arena/planners.py:195-195` | prices are close when they differ by at most a ten-billionth of the larger or by 1e-14 |
| `MarketProjection.ProjectMarket` | `src/proofops/decision/market.py:71-89` | every row becomes a listing or is counted as rejected; the listings are those of the first admissible row of each token |
| `MarketProjection.OneListingPerToken` | `src/proofops/decision/market.py:77-89` | exactly one listing per token of an admissible row |
| `MarketProjection.HireableOnlyWhenLive` | `src/proofops/decision/market.py:98-116` | a hireable listing needs a reachable endpoint, no refresh error, a fresh observation and a catalogued scope, and comes from a row that is callable and carries a registration transaction |
| `MarketProjection.HireableIff` | `src/proofops/decision/market.py:49-116` | a listing shows its row and is hireable if and only if the row is callable and registered, the endpoint reachable, the refresh without error, the observation -5 to 60 seconds old and the scope one of the four catalogued |
| `MarketProjection.HireWindow` | `src/proofops/decision/market.py:49-68` | from one snapshot a listing is hireable exactly from 5 seconds before to 60 seconds after the observation |
| `MarketProjection.ListedTokens` | `src/proofops/decision/market.py:77-92` | exactly the positive tokens some row names with a skill and a known category are listed |
| `SnapshotCache.SnapshotCache.Get` | `src/proofops/decision/market.py:212-229` | get() without contention |
| `SnapshotCache.SnapshotCache.Settle` | `src/proofops/decision/market.py:217-229` | what a finished loader leaves in the cache: the new value, the old one marked stale, or nothing new |
| `SnapshotCache.RunKeepsInv` | `src/proofops/decision/market.py:212-229` | over every interleaving: at most one loader, starts spaced by ttl after the last handled refresh, returned values carry the last successful load |
| `SnapshotCache.NothingHireableAfterFailure` | `src/proofops/decision/market.py:223-229` | a value returned after a failed refresh offers no listing to hire, at any time |
| `SnapshotCache.ServedWhileCurrent` | `src/proofops/decision/market.py:212-216` | over every interleaving get() answers at once if and only if the last handled refresh is less than ttl old |
| `SnapshotCache.HistoryIsTrue` | `src/proofops/decision/market.py:212-229` | over every interleaving a start is recorded exactly when a loader starts, and a return when a caller leaves with the cache's value |
| `SnapshotCache.DegradedKeeps` | `src/proofops/decision/market.py:223-227` | a failed refresh changes the error and the reachability mark and nothing else |
| `QuoteBreaker.SelectIndependentOfListing` | `src/proofops/arena/providers.py:84-88` | the route found does not depend on the manifest's order |
| `QuoteBreaker.SelectIff` | `src/proofops/arena/providers.py:84-88` | the route found is the one of that agent in that category |
| `QuoteBreaker.QuoteGateway.RequestQuote` | `src/proofops/arena/providers.py:116-135` | route and snapshot checks touch no counter; then refusal, attempt and the new entry |
| `QuoteBreaker.RefusesExactlyWhenTripped` | `src/proofops/arena/providers.py:122-134` | for serialised quotes: refuses if and only if the last three attempts failed, each started under 30 s after the failure before it, the last under 30 s ago |
| `QuoteBreaker.AtMostThreePerWindow` | `src/proofops/arena/providers.py:122-134` | against an always-failing provider no 30 s window has more than three attempts |
| `QuoteOverlap.OverlapBoundsAttempts` | `src/proofops/arena/providers.py:116-135` | against an always-failing provider, with at most m quotes overlapping, under thirty seconds from any reachable state on see at most m + m * m + m * m * m starts |
| `QuoteOverlap.OverlapHidesFailures` | `src/proofops/arena/providers.py:116-135` | a run of three overlapping quotes that fail within a second and count as one |

## Left out

- SQLite, WAL, file permissions and fsync: each transaction, and each ledger append, is one atomic step.
- Random identifiers and tokens: supplied by the caller; a repeated one is refused where a primary key refuses it.
- pydantic, canonical JSON and sha256: functions with the laws named above. JSON numbers are integers, so Python's `1 == 1.0` and `True == 1` do not arise.
- Journal.TaskStore.Bundle: the integrity report carries its validity and head; its constant fields and the list of failures (none in a genuine export with a bound observation) are left out.
- BundleVerifier.VerifyBundle: failures form a set instead of a sorted list, an exception is the single verdict None without its type, and a first event whose data is text or a list counts as malformed.
- Ledger.EvidenceLedger.Append: redaction of secrets happens before the model's payload; error messages are kept as kinds with their index.
- ExecutionProtocol: a call's ledger entries and its last re-read are left out; the simulation's validity and the intent's deadline come from one clock reading, and so do the gate's clock, kill switch and spend readings. The adapter succeeds, fails or raises.
- TaskService.TaskService.Execute: one clock reading for the whole call; the protocol has a clock that moves between steps.
- ExecutionStore.SQLiteStore.Update: time stamps and the stored JSON of receipts; a receipt is its success flag, and a simulation its request hash, policy and expiry.
- Wallet challenges, sessions, flags and the listing queries of SQLiteStore.
- PluginLifecycle.PluginRegistry.StartAllPlugins: a plugin's load provides its declared capabilities in order and replaces none, event-bus handlers do not raise, and registry calls do not overlap; an unknown plugin id raises in the code and is not passed here; error texts are left out.
- IEEE rounding, Decimal precision and the finiteness check of `number`: arithmetic is exact, so a calculation that overflows a float is not refused.
- RangePlanner.InventoryOnCurve: states the raw amounts; scaling by token decimals and formatting as text are in LpInventory without further claims.
- Acceptance.Evaluate: detail texts, constant report fields and the metrics other than inventories, health after repayment and debt cleared; `compare`.
- MarketProjection.ProjectMarket: display fields, owners, coverage counts and the order of listings; a category that is a list or an object raises in the code and is rejected here.
- `compare_market` and the freshness of index signals.
- SnapshotCache.RunKeepsInv: values are immutable here, so the deep copies have no counterpart; a timed-out loader is a handled error.
- QuoteBreaker.RefusesExactlyWhenTripped: for quotes that do not overlap, overlapping ones are in QuoteOverlap; an attempt that ends with an exception the gateway does not handle leaves no trace, as in the code.
- The HTTP and DNS parts of a quote and the semaphore.
- NestingScanner.Call: paths outside the arena, response headers and the text of the 413 answers; JSON in encodings other than UTF-8.
- HTTP clients, chain reads, wallet signatures, route handlers, the web application and report assembly.
