# A verified model of the prime-rl rollout pipeline

This Dafny project models how prime-rl's orchestrator turns rollouts into training and evaluation
data, and proves what the pipeline promises over every run and every input.

1. **The pipeline as a concurrent state machine.** `Dispatch` has one event per stretch of code
   between two awaits; the dispatch loop, the weight watcher and the orchestrator interleave
   freely, and the place where a coroutine is suspended (client selection, the rate limiter inside
   `acquire`, a `put` on the bounded queue, the gap between two dropped groups) is part of the
   state. `DispatchInvariant` states a per-group ledger and the other clauses, `DispatchSafety` and
   `DispatchDrop` keep them event by event, `DispatchRuns` draws the whole-run theorems,
   `DispatchScheduling`, `DispatchVerdicts`, `DispatchAges` and `DispatchExact` say which group is
   served, which rollouts fail, age or are dropped, and what a group captures,
   `DispatchPaths`, `DispatchProgress` and `DispatchLiveness` show exactly which groups can still be
   delivered, `DispatchWitness` and `DispatchStranded` are concrete runs, and the class in
   `RolloutDispatcher` performs the same steps in place. `TrainSink*`, `TrainSelection`,
   `Orchestrator*`, `TrainingLoop`, `EvalSource`, `EvalSink`, `Grouping`, `EvalPipeline`, `Pipeline`,
   `TrainPipeline` and `TrainShipments` follow rollouts through the sinks to shipped batches, with
   classes where the program updates objects.
2. **Trace to training data.** `Trajectories`, `TrajectoryLayout` and `Materialize` credit every
   sampled node of a message forest in exactly one branch and lay out its spans. `Provenance`,
   `Projection`, `ProjectionImpl` and `Wire` parse and clip policy labels, project a trace onto a
   token budget and carry versions as int64 bytes.
3. **Leave-one-out critic context.** `JsonText`, `JsonValue`, `JsonUnique`, `JsonEscape` and
   `JsonSafe` treat JSON text character by character; `PromptText` frames it; `ValueContext*` and
   `LeaveOneOut` build the prompts and prove what they depend on; `ValueContextContent` reads a
   prompt back, `ValueContextExact` shows that nothing else is in it; `ValuePublication` inserts the
   prefix and publishes critic samples.

The pattern throughout: a specification function (or a declarative predicate), theorems about it
over all inputs or runs, and, where the program is imperative, a method or class method whose
`ensures` equates its result with that function. `dafny verify dfyconfig.toml` checks everything.

Where the code and its own text disagree, the model follows the code:

- The docstring of `is_idle` (src/prime_rl/orchestrator/dispatcher.py:228-231) says the pipeline has
  then fully drained. `DispatchWitness.IdleNotDrained` reaches a draining, idle state with an eval
  rollout still inside `acquire`; `DispatchRuns.IdleMeansDrained` gives the exact condition over
  every run, and `Pipeline.IdleEpochs` what it means for the eval epochs.
- The module text (src/prime_rl/orchestrator/dispatcher.py:6) promises every dispatched rollout once
  on the queue. A task cancelled from outside is discarded without markers
  (src/prime_rl/orchestrator/dispatcher.py:519-520): `DispatchWitness.CancelledNeverEmitted` is such
  a run, and `DispatchRuns.ExactlyOnce` says exactly when the promise holds of a group.
- "Eventually" in the same promise holds of dispatched rollouts: whenever the dispatch loop has not
  died, they can all still be delivered (`DispatchLiveness.DispatchedDelivered`). The rest of a group
  that was opened can be left behind. Train groups are no longer scheduled once training is disabled,
  or while an eval example is queued that is scored as a group larger than the capacity, which the
  configuration compares with the default group size only
  (packages/prime-rl-configs/src/prime_rl/configs/orchestrator.py:803-804); a train group is then
  delivered only if it is dropped or finishes with what is under way. `DispatchLiveness.ProgressIff`
  gives that condition as an if-and-only-if, and `DispatchStranded.Stranded` is a run of the program's
  own loop that strands half a group while training is enabled.
- The empty-batch limit does not bound a run whose post-batch filters drop whole cohorts
  (`TrainingLoop.EndlessFiltering`): `TrainingLoop.EmptyBatchesBounded` bounds such runs from both
  sides by the number of those cohorts.

A task that succeeds is taken to return exactly as many rollouts as it was asked for.

## Model

| member | source | states |
|---|---|---|
| `DispatchRuns.EmissionLedger` | src/prime_rl/orchestrator/dispatcher.py:409-643 | after every interleaving, each opened group's size equals what some frame or table still owes of it (unscheduled, reserved inside `acquire`, registered, held by the handler, held by the dropper), plus what reached the queue, plus what was discarded |
| `DispatchRuns.ExactlyOnce` | src/prime_rl/orchestrator/dispatcher.py:502-643 | over every run and for each group separately: it never emits more than its size; what it emitted plus what it is still owed is its size if and only if no event lost any of it; and once nothing is outstanding it has emitted its size if and only if nothing was lost |
| `DispatchRuns.StepLoses` | src/prime_rl/orchestrator/dispatcher.py:514-520 | an event adds to a group's losses exactly when it completes one of its registered tasks as a fatal episode or as cancelled from outside, or drains while it has a registered train task |
| `DispatchRuns.LostIff` | src/prime_rl/orchestrator/dispatcher.py:514-520 | over every run a group has lost nothing if and only if no event lost any of it |
| `DispatchRuns.StepKeeps` | src/prime_rl/orchestrator/dispatcher.py:250-643 | every event of every coroutine keeps the whole invariant: ledger, permits, ages, stamps, gate, FIFO queue, eval rows |
| `DispatchRuns.Reached` | src/prime_rl/orchestrator/dispatcher.py:250-643 | every state reachable from a fresh or resumed start satisfies the invariant |
| `DispatchRuns.PermitSafety` | src/prime_rl/orchestrator/dispatcher.py:318-379 | in every reachable state 0 <= permits <= capacity, and permits are the registered counts plus those the one suspended scheduler already took |
| `DispatchRuns.StalenessBound` | src/prime_rl/orchestrator/dispatcher.py:282-313 | between updates no registered task is past the limit; no emitted rollout is more than one past it; frozen-sourced and eval rollouts stay at 0 |
| `DispatchWitness.StalenessIsTight` | src/prime_rl/orchestrator/dispatcher.py:282-313 | a concrete run in which a stale task finishes while the watcher awaits the cancelled tasks of an earlier stale group and is emitted one past the limit, so the bound cannot be lowered |
| `DispatchWitness.CancelledNeverEmitted` | src/prime_rl/orchestrator/dispatcher.py:519-520 | a concrete run that ends with a group owed nothing and nothing of it emitted, after its task was cancelled from outside |
| `DispatchLiveness.ProgressIff` | src/prime_rl/orchestrator/dispatcher.py:6-8 | the exact condition, over every run whose dispatch loop has not died: some continuation that loses nothing, and handles completions only after filling, leaves nothing of a group owed if and only if the group is not stuck |
| `DispatchLiveness.StuckForever` | src/prime_rl/orchestrator/dispatcher.py:318-379 | stuck means: a train group with rollouts left while training is disabled or a group-scored eval example larger than the capacity is queued, with no drop due and no task or scheduler under way that will drop or finish it (a task of a live environment ages until the group is dropped, one of a frozen environment never does); every continuation that discards nothing of it keeps it stuck and owed |
| `DispatchLiveness.Progress` | src/prime_rl/orchestrator/dispatcher.py:6-8 | the continuation for a group that is not stuck; after it the group has been emitted whole if and only if nothing of it was lost before |
| `DispatchLiveness.DispatchedDelivered` | src/prime_rl/orchestrator/dispatcher.py:6-8 | without any such condition, for all groups at once: some lossless continuation after which each group is owed only what was never scheduled, and everything dispatched has been consumed except what had been lost before |
| `DispatchLiveness.BlockedForever` | src/prime_rl/orchestrator/dispatcher.py:318-379 | once a group-scored eval example larger than the capacity heads the queue, no continuation opens any group again |
| `DispatchStranded.Stranded` | src/prime_rl/orchestrator/dispatcher.py:318-379 | a concrete lossless run of the fill loop, with training enabled, that ends with nothing under way, one of two rollouts of a train group emitted, and the group stuck |
| `DispatchProgress.StepSound` | src/prime_rl/orchestrator/dispatcher.py:318-353 | every event keeps: training is preferred only without eval work, and every opened group-scored group fits the capacity |
| `DispatchRuns.StampedAtOpen` | src/prime_rl/orchestrator/dispatcher.py:547-567 | every rollout on the queue carries the kind, environment, eval step and policy version its group captured when it opened, whichever frame emitted it |
| `DispatchRuns.CapturedForever` | src/prime_rl/orchestrator/dispatcher.py:381-407 | what a group captured at open never changes over any continuation of the run |
| `DispatchRuns.GateOverRuns` | src/prime_rl/orchestrator/orchestrator.py:1013-1045 | at every yield point the gate is set exactly when (step - 1) - version <= TARGET_LAG, so every train group opened with version >= (its step - 1) - TARGET_LAG |
| `DispatchRuns.VersionAdvances` | src/prime_rl/orchestrator/watcher.py:74-126 | an applied update strictly raises the policy version, and no other event moves it; only shipping moves the step |
| `DispatchRuns.QueueIsFifo` | src/prime_rl/orchestrator/dispatcher.py:547-567 | consumed rollouts followed by the queue are the emission log, the queue respects its bound, and opened eval groups followed by the eval queue are the triggered rows in order |
| `DispatchRuns.IdleMeansDrained` | src/prime_rl/orchestrator/dispatcher.py:217-231 | over every run, drained or not: for an idle dispatcher every eval rollout has been consumed if and only if no scheduler or handler is suspended with one and no event lost any |
| `DispatchRuns.IdleMeansSettled` | src/prime_rl/orchestrator/dispatcher.py:217-231 | without fatal or cancelled tasks the suspended frames are all that matters, also while draining: a drain spares eval |
| `DispatchWitness.IdleNotDrained` | src/prime_rl/orchestrator/dispatcher.py:227-231 | a concrete run that is draining and idle, the state in which the main loop reads the property, while the second rollout of an eval epoch waits in the rate limiter |
| `Dispatch.FirstEligible` | src/prime_rl/orchestrator/dispatcher.py:368-374 | the first live group in insertion order that has rollouts left and whose cost fits; no earlier group does |
| `Dispatch.IndexOf` | src/prime_rl/orchestrator/dispatcher.py:510-512 | the position of a task among the registered ones, past the end exactly when it was already taken |
| `Dispatch.AgedAll` | src/prime_rl/orchestrator/dispatcher.py:293-302 | position by position, every registered task with only its age changed |
| `DispatchInvariant.ClaimLoad` | src/prime_rl/orchestrator/dispatcher.py:583-588 | the claim sweep splits the permits of the registered tasks into the group's and the rest, without loss |
| `DispatchInvariant.OwedCounts` | src/prime_rl/orchestrator/dispatcher.py:594-597 | the claimed tasks owe exactly as many markers as they held permits |
| `DispatchDrop.DropKeeps` | src/prime_rl/orchestrator/dispatcher.py:569-597 | the claim phase of dropping a group keeps the invariant |
| `DispatchDrop.SweepKeeps` | src/prime_rl/orchestrator/dispatcher.py:606-619 | owing markers for never-scheduled rollouts keeps the invariant |
| `DispatchDrop.DrainKeeps` | src/prime_rl/orchestrator/dispatcher.py:657-677 | cancelling the in-flight train tasks keeps the invariant, the discarded rollouts accounted |
| `DispatchSafety.ReserveKeeps` | src/prime_rl/orchestrator/dispatcher.py:453-470 | taking rollouts out of a group before `acquire` moves them to the reserved column of the ledger and fits the capacity |
| `DispatchSafety.LimiterKeeps` | src/prime_rl/orchestrator/dispatcher.py:480-497 | each permit the limiter passes, and the registration after the last one, keep the invariant, dropped group or not |
| `DispatchSafety.CompleteKeeps` | src/prime_rl/orchestrator/dispatcher.py:502-545 | completion, failure, a fatal episode or a cancelled task keep the invariant |
| `DispatchVerdicts.HandsOver` | src/prime_rl/orchestrator/dispatcher.py:521-545 | after a registered task finishes, the emitting loop holds one verdict per returned rollout, in order, failed unless that rollout has no error and took a turn; after it raised, as many failures as it held rollouts |
| `DispatchVerdicts.VerdictsConserved` | src/prime_rl/orchestrator/dispatcher.py:6-9 | over every run and for each group: the successes on the queue and those still held are exactly the clean rollouts its completed tasks returned, and every marker of a dropped group is a failure |
| `DispatchVerdicts.SuccessHasTrace` | src/prime_rl/orchestrator/dispatcher.py:521-545 | a rollout on the queue that did not fail comes from a registered task of its own group whose completion returned a clean rollout |
| `DispatchScheduling.FillExact` | src/prime_rl/orchestrator/dispatcher.py:318-379 | a turn of the fill loop takes up the first live group, in opening order, that can continue within the free permits; opens a fresh one, whole, exactly when none can and its first task fits; falls back to train exactly when a permit is free and no eval work is left; and otherwise changes nothing |
| `DispatchScheduling.SelectedExact` | src/prime_rl/orchestrator/dispatcher.py:427-470 | when client selection returns, a group dropped meanwhile is left alone; any other keeps its client and its next task is taken out of it, all rollouts left when it is scored as a group, else one |
| `DispatchScheduling.OneClient` | src/prime_rl/orchestrator/dispatcher.py:427-439 | over every run a group's client is selected at most once, exactly once if it ended up with one, and nothing of a group is under way without one |
| `DispatchAges.AgeCounts` | src/prime_rl/orchestrator/dispatcher.py:282-302 | over every run a registered task's age is the number of versions announced since its registration if it trains a live environment, and zero otherwise |
| `DispatchAges.EmittedAge` | src/prime_rl/orchestrator/dispatcher.py:547-619 | over every run the age on a rollout is that of a task of its own group at the moment it left the table, or zero on a marker of a group dropped with nothing in flight |
| `DispatchExact.PendingExact` | src/prime_rl/orchestrator/dispatcher.py:293-302 | an announced version ages exactly the train tasks of live environments, by one, leaves every other task as it was, and dooms exactly the groups with such a task past the limit |
| `DispatchExact.DrainExact` | src/prime_rl/orchestrator/dispatcher.py:657-677 | a drain keeps exactly the eval tasks in order, takes exactly the groups with a registered train task off the dictionary, and leaves the permits of what is still held |
| `DispatchExact.CapturedAtOpen` | src/prime_rl/orchestrator/dispatcher.py:381-407 | every group was opened by one turn of the fill loop and to the end of the run carries what it captured there: the version and step of that moment, and the environment drawn or the head of the eval queue; train only when preferred, allowed and not disabled |
| `DispatchExact.VersionExact` | src/prime_rl/orchestrator/watcher.py:74-126 | over every run the policy version is the one last announced before the last adoption, and the step counts the shipments |
| `RolloutDispatcherImpl.RolloutDispatcher.constructor` | src/prime_rl/orchestrator/dispatcher.py:136-184 | the fresh object is the initial state and satisfies the invariant |
| `RolloutDispatcherImpl.RolloutDispatcher.FillInflight` | src/prime_rl/orchestrator/dispatcher.py:318-346 | one turn of the fill loop takes the specified step |
| `RolloutDispatcherImpl.RolloutDispatcher.TryScheduleKind` | src/prime_rl/orchestrator/dispatcher.py:355-379 | continue the first eligible group, else open a fresh one, else change nothing |
| `RolloutDispatcherImpl.RolloutDispatcher.OnClientSelected` | src/prime_rl/orchestrator/dispatcher.py:427-439 | a group dropped during client selection is abandoned, otherwise pinned and reserved |
| `RolloutDispatcherImpl.RolloutDispatcher.OnLimiterPassed` | src/prime_rl/orchestrator/dispatcher.py:480-497 | one more permit taken; the last one registers the dispatched rollouts |
| `RolloutDispatcherImpl.RolloutDispatcher.HandleCompleted` | src/prime_rl/orchestrator/dispatcher.py:502-545 | pop, release and classify a finished task as specified; which rollouts count as failed is `DispatchVerdicts.HandsOver` |
| `RolloutDispatcherImpl.RolloutDispatcher.EmitNext` | src/prime_rl/orchestrator/dispatcher.py:547-566 | stamp the next rollout and count it, popping the group at its last emission |
| `RolloutDispatcherImpl.RolloutDispatcher.OnVersionPending` | src/prime_rl/orchestrator/dispatcher.py:282-302 | age the live train tasks in place and collect the stale groups |
| `RolloutDispatcherImpl.RolloutDispatcher.AgeTasks` | src/prime_rl/orchestrator/dispatcher.py:293-302 | the ageing loop equals the aged list and the set of groups with a task past the limit |
| `RolloutDispatcherImpl.RolloutDispatcher.ClaimTasks` | src/prime_rl/orchestrator/dispatcher.py:583-588 | the claim loop keeps the other tasks in order and returns the group's with their permits |
| `RolloutDispatcherImpl.RolloutDispatcher.OweMarkers` | src/prime_rl/orchestrator/dispatcher.py:594-597 | the nested loops owe one marker per rollout each claimed task held, in claim order |
| `RolloutDispatcherImpl.RolloutDispatcher.CutTrain` | src/prime_rl/orchestrator/dispatcher.py:660-672 | the drain's sweep keeps the eval tasks in order and returns the groups and permits of the train tasks it cut |
| `RolloutDispatcherImpl.RolloutDispatcher.DropGroupNow` | src/prime_rl/orchestrator/dispatcher.py:569-597 | the non-yielding claim phase as specified |
| `RolloutDispatcherImpl.RolloutDispatcher.SweepNeverScheduled` | src/prime_rl/orchestrator/dispatcher.py:606-619 | one marker per never-scheduled rollout, from the last claimed task or a stand-in |
| `RolloutDispatcherImpl.RolloutDispatcher.DrainTrain` | src/prime_rl/orchestrator/orchestrator.py:792-798 | disable train scheduling, cut in-flight train tasks and their groups, report the count |
| `RolloutDispatcherImpl.RolloutDispatcher.Perform` | src/prime_rl/orchestrator/dispatcher.py:250-677 | every enabled event, performed on the object, keeps the invariant and is exactly the specified step |
| `TrainSinkRuns.FifoBatching` | src/prime_rl/orchestrator/train_sink.py:322-341 | cohorts followed by the queue are the acceptance sequence; no arrival is in it twice; the token counter is the exact sum; in count mode with small groups fewer than a batch remain |
| `TrainSinkRuns.WindowConservation` | src/prime_rl/orchestrator/train_sink.py:144-189 | the multiset of arrivals is all returned windows plus the pending window, and fewer than the limit of the pending ones are settled after each add |
| `TrainSinkRuns.CohortExact` | src/prime_rl/orchestrator/train_sink.py:478-500 | a token batch takes the shortest prefix of the queue that reaches the target, a count batch exactly the target |
| `TrainSinkRuns.GroupBarrier` | src/prime_rl/orchestrator/train_sink.py:150-153 | a group reaches group processing with exactly its size, all of one environment |
| `TrainSinkRuns.AddKeeps` | src/prime_rl/orchestrator/train_sink.py:144-174 | one arrival keeps the sink's invariant and the two bounds |
| `TrainSinkRuns.AddRecords` | src/prime_rl/orchestrator/train_sink.py:144-174 | the recorded windows and cohorts are exactly what `add` returned |
| `TrainSelection.AcceptExact` | src/prime_rl/orchestrator/train_sink.py:244-341 | a complete group queues exactly its members that did not fail, have samples and are not pre-filtered, in order, provided all members are good when the environment is group-scored, the good ones number the group size when it is privileged, and they number at least the algorithm's minimum; otherwise nothing |
| `TrainSelection.AcceptedShares` | src/prime_rl/orchestrator/train_sink.py:144-174 | over every run the acceptance sequence is cut into one share per arrival: what its whole group deserves where the last member arrives, and nothing anywhere else |
| `TrainSelection.QueuedIff` | src/prime_rl/orchestrator/train_sink.py:244-341 | an arrival is ever queued for training if and only if it is good and unfiltered and its group is complete and admitted |
| `TrainSelection.AddOutcome` | src/prime_rl/orchestrator/train_sink.py:144-189 | a cohort leaves, with all its unfiltered members' samples, exactly when the queue reaches the target; short of it, a sample-free batch leaves exactly when the arrival completes its group and the settled arrivals reach the limit; the window is parted, in order, into what is returned and what is still queued or gathering |
| `TrainSelection.ProgressExact` | src/prime_rl/orchestrator/train_sink.py:164-177 | a sample-free batch made progress exactly when the queue holds more than when the last batch was returned, which is what the sink remembers |
| `TrainSelection.ShippedSamples` | src/prime_rl/orchestrator/train_sink.py:501-507 | over every run each shipped batch holds every sample of every unfiltered member of its cohort, in order, and its value version is the least among theirs, none when they carry none |
| `TrainSinkImpl.TrainSink.constructor` | src/prime_rl/orchestrator/train_sink.py:46-100 | the fresh sink is empty and valid |
| `TrainSinkImpl.TrainSink.AddRollout` | src/prime_rl/orchestrator/train_sink.py:144-174 | the object's arrival method keeps the invariant and returns exactly the specified batch and state; what these are is `TrainSelection.AcceptExact` and `TrainSelection.AddOutcome` |
| `TrainSinkImpl.TrainSink.TokenCut` | src/prime_rl/orchestrator/train_sink.py:489-500 | the running-sum loop stops at the specified cut with the exact sum |
| `TrainSinkImpl.TrainSink.TakeSettled` | src/prime_rl/orchestrator/train_sink.py:179-189 | settled arrivals leave the window in order, or nothing happens below the minimum |
| `TrainSinkImpl.TrainSink.TakeBatch` | src/prime_rl/orchestrator/train_sink.py:478-524 | cohort, samples, value version and window of a ready batch |
| `OrchestratorSpec.ShipmentDiscipline` | src/prime_rl/orchestrator/orchestrator.py:607-665 | over every run: shipped steps are consecutive from the start step, none above the step limit, none empty, and none scored below the warmup threshold |
| `OrchestratorSpec.NothingAfterDrain` | src/prime_rl/orchestrator/orchestrator.py:575-587 | once draining or aborted, no batch changes anything |
| `OrchestratorSpec.LastStepDrains` | src/prime_rl/orchestrator/orchestrator.py:780-798 | shipping the last allowed step drains |
| `OrchestratorSpec.FinalCheckpointIsLast` | src/prime_rl/orchestrator/orchestrator.py:519-532 | the final checkpoint carries the last shipped step, or the resumed one when nothing shipped |
| `OrchestratorSpec.WarmupHolds` | src/prime_rl/orchestrator/orchestrator.py:589-605 | a shipped batch holds no rollout scored before the warmup threshold, the least version being over exactly the shipped cohort |
| `OrchestratorSpec.BatchOutcome` | src/prime_rl/orchestrator/orchestrator.py:575-649 | a batch ships if and only if the run still collects, it has samples, its value version (the live one when no rollout carries any) is at the threshold and the step is within the limit; what each other case does to step, empty counter, drain and abort |
| `OrchestratorImpl.Orchestrator.PassesValueWarmup` | src/prime_rl/orchestrator/orchestrator.py:589-605 | the warmup decision and the remembered version |
| `OrchestratorImpl.Orchestrator.FinalizeTrainBatch` | src/prime_rl/orchestrator/orchestrator.py:607-665 | step, counter, drain and abort as specified |
| `OrchestratorImpl.Orchestrator.OnTrainBatch` | src/prime_rl/orchestrator/orchestrator.py:575-587 | the main loop's branch keeps the shipment discipline |
| `OrchestratorImpl.NewestIsLeastBound` | src/prime_rl/orchestrator/watcher.py:66-72 | the newest checkpoint is an upper bound of everything seen and is one of them |
| `OrchestratorImpl.WeightWatcher.Poll` | src/prime_rl/orchestrator/watcher.py:49-126 | checkpoint step and policy version stay equal to the newest checkpoint ever seen, updates count exactly the strict increases, and the update's notices are appended in order |
| `OrchestratorImpl.WeightWatcher.ApplyPolicyUpdate` | src/prime_rl/orchestrator/watcher.py:74-126 | nothing when already adopted; otherwise every observer is told under the old version, the weights are loaded, the version is written, and every observer is told under the new one |
| `OrchestratorImpl.HistoryInOrder` | src/prime_rl/orchestrator/watcher.py:74-126 | over any polls: versions only rise and each is pending, loaded, written and announced in this order, pending notices under an older version and announcements under the new one |
| `OrchestratorImpl.HistoryWhole` | src/prime_rl/orchestrator/watcher.py:74-126 | over any polls exactly the versions newer than all before are adopted, and each of these is loaded, written, and heard of by every observer before and after, once each |
| `TrainingLoop.ShippedOnceAndScored` | src/prime_rl/orchestrator/train_sink.py:501-507 | through sink and orchestrator together: every shipped batch is exactly its cohort's unfiltered samples, scored past warmup, and no rollout is in two shipped cohorts |
| `TrainingLoop.EmptyBatchesBounded` | src/prime_rl/orchestrator/orchestrator.py:626-649 | while a run neither ships nor aborts, the batches returned are at least as many as the cohorts its post-batch filters dropped whole, and fewer than ten times the target for each of those and once more |
| `TrainingLoop.UnfilteredBounded` | src/prime_rl/orchestrator/orchestrator.py:626-649 | so without a wholly filtered cohort the limit stops the run within ten times the target |
| `TrainingLoop.EmptyTurn` | src/prime_rl/orchestrator/train_sink.py:155-177 | each sample-free batch lowers the lexicographic budget of target minus counted progress and limit minus consecutive empties, except that a wholly filtered cohort refills it once |
| `TrainingLoop.EndlessFiltering` | src/prime_rl/orchestrator/orchestrator.py:626-649 | with every cohort filtered the counter never trips: for every n, n cycles of arrivals return 2n sample-free batches with nothing shipped and no abort |
| `EvalSourceSpec.MergeAt` | src/prime_rl/orchestrator/eval_source.py:59-69 | example r of fired environment j sits at exactly its place in the queue |
| `EvalSourceSpec.PlacesIncrease` | src/prime_rl/orchestrator/eval_source.py:59-69 | places grow with the example index first and the environment second |
| `EvalSourceSpec.EpochCounts` | src/prime_rl/orchestrator/eval_source.py:47-69 | one trigger queues, of every environment, all its examples at that step or none |
| `EvalSourceSpec.EpochsOnce` | src/prime_rl/orchestrator/eval_source.py:47-69 | triggered at increasing steps, every (environment, step) epoch is queued at most once and then completely |
| `EvalSourceSpec.FiredPicks` | src/prime_rl/orchestrator/eval_source.py:51-57 | the environments that fire are, in order, exactly those due: all of them at the first trigger of a fresh run, later those whose interval divides the step |
| `EvalSourceSpec.EpochExact` | src/prime_rl/orchestrator/eval_source.py:47-69 | a trigger queues every example of each environment that is due and none of any other; a skipped first trigger queues nothing |
| `EvalSourceSpec.QueuedExact` | src/prime_rl/orchestrator/eval_source.py:47-69 | over triggers at increasing steps: at each of them exactly the environments due there have their epoch queued, whole |
| `EvalSourceSpec.FirstFiresAll` | src/prime_rl/orchestrator/eval_source.py:51-57 | the first trigger of a fresh run fires every environment |
| `EvalSourceImpl.EvalSource.Trigger` | src/prime_rl/orchestrator/eval_source.py:47-69 | the queue grows by exactly the epoch, a name is returned exactly when its environment is due, and the first-trigger flag is cleared |
| `EvalSourceImpl.EvalSource.Interleave` | src/prime_rl/orchestrator/eval_source.py:59-69 | the nested loops produce the round-robin merge |
| `EvalSourceImpl.EvalSource.NextExample` | src/prime_rl/orchestrator/eval_source.py:71-81 | the head is popped exactly when its cost fits |
| `EvalSinkImpl.EvalSink.AddRollout` | src/prime_rl/orchestrator/eval_sink.py:35-46 | the object's arrival method returns exactly the specified batch and state |
| `EvalSinkImpl.EvalSink.ProcessGroup` | src/prime_rl/orchestrator/eval_sink.py:94-101 | the whole group moves into the epoch its first member names |
| `EvalSinkImpl.EvalSink.ProcessBatch` | src/prime_rl/orchestrator/eval_sink.py:113-120 | the epoch's bucket is popped whole |
| `EvalPipeline.FeedKeeps` | src/prime_rl/orchestrator/eval_sink.py:35-46 | over every legal arrival sequence: filling groups hold exactly what arrived, and every rollout of a complete group is in its epoch's bucket or in a returned batch |
| `EvalPipeline.BatchIff` | src/prime_rl/orchestrator/eval_sink.py:43-46 | an epoch has a batch if and only if all its rollouts have arrived |
| `Pipeline.EvalEpochs` | src/prime_rl/orchestrator/eval_sink.py:35-55 | dispatcher to eval sink over every run whose eval rows come from the source, poked at the start and after each shipment: at most one batch per (environment, step), of exactly examples times group size rollouts, all stamped with it, returned if and only if all of them were consumed |
| `Pipeline.RunTriggers` | src/prime_rl/orchestrator/orchestrator.py:800-809 | the rows a run queues are those of source triggers at strictly increasing steps, because the step rises between two pokes |
| `Pipeline.RunEpochs` | src/prime_rl/orchestrator/orchestrator.py:800-809 | over every run: at each step left behind, exactly the environments due there have all their examples queued; at the step being collected, those or, before the poke, none; at no other step any |
| `Pipeline.IdleEpochs` | src/prime_rl/orchestrator/dispatcher.py:658-660 | for an idle dispatcher every eval epoch that fired, also one fired just before a drain, has been returned as a batch if and only if no frame is suspended with one of its rollouts and no event lost any |
| `Pipeline.ConsumedAll` | src/prime_rl/orchestrator/dispatcher.py:6-8 | all of a group has been consumed if and only if nothing of it is owed, none of it is queued and no event lost any of it |
| `Pipeline.EvalGroupsOnce` | src/prime_rl/orchestrator/eval_sink.py:94-101 | dispatcher to eval sink over every run: a group is finalized at most once, with exactly its size of members sharing kind, environment, eval step and version, and it is finalized if and only if nothing of it is owed, queued or lost |
| `TrainPipeline.TrainGroupsOnce` | src/prime_rl/orchestrator/train_sink.py:144-153 | dispatcher to train sink over every run: a train group reaches group processing at most once, with all of its members, each carrying the group's captured kind, environment and version, and it does if and only if nothing of it is owed, queued or lost |
| `TrainShipments.ShippedOnceAsCaptured` | src/prime_rl/orchestrator/train_sink.py:501-507 | dispatcher to shipped batches over every run: no consumed train rollout is in two shipped cohorts, and every shipped rollout is one of them, usable and unfiltered, with the kind, environment and version its group captured, in a batch that is exactly its cohort's unfiltered samples |
| `Trajectories.ForestBranches` | src/prime_rl/orchestrator/trajectories.py:110-127 | root-to-leaf paths of a forest name each node once and cover every node |
| `Trajectories.BranchesExact` | src/prime_rl/orchestrator/trajectories.py:110-127 | the branches are exactly the root-to-leaf paths, each once |
| `Trajectories.SampleTokens` | src/prime_rl/orchestrator/trajectories.py:207-222 | every sample is its branch's nodes laid end to end: as many tokens as mask bits, and at each node's place that node's tokens |
| `Trajectories.CreditForward` | src/prime_rl/orchestrator/trajectories.py:128-146 | every trainable node token is credited in the first branch containing the node, and traced back from there |
| `Trajectories.CreditBackward` | src/prime_rl/orchestrator/trajectories.py:128-146 | every trainable sample position comes from a set token of a sampled node, and leads back to itself |
| `Trajectories.ForestCredit` | src/prime_rl/orchestrator/trajectories.py:110-146 | the two maps are inverse bijections between trainable (node, offset) and (sample, position) pairs of any forest, and the two hold the same token |
| `Trajectories.KeptIff` | src/prime_rl/orchestrator/trajectories.py:141-146 | a branch yields a sample exactly when it credits some token |
| `Trajectories.CreditedOnceIff` | src/prime_rl/orchestrator/trajectories.py:134-140 | a trainable token is credited in its first branch, and in no other if and only if its node is sampled or lies on one branch only |
| `Trajectories.UnsampledCreditedTwice` | src/prime_rl/orchestrator/trajectories.py:134-140 | a masked token of an unsampled node is credited in every branch that holds the node |
| `TrajectoryLayout.TrueRuns` | src/prime_rl/orchestrator/trajectories.py:162-171 | the loop yields the maximal runs of set bits |
| `TrajectoryLayout.RunsUnique` | src/prime_rl/orchestrator/trajectories.py:162-171 | there is only one list of separate intervals holding exactly the set bits |
| `TrajectoryLayout.NodeSpans` | src/prime_rl/orchestrator/trajectories.py:236-250 | a node's spans all come from the one sample that credits it |
| `TrajectoryLayout.LayoutExact` | src/prime_rl/orchestrator/trajectories.py:233-264 | layout spans are disjoint maximal runs, ordered by node then offset, covering exactly the trainable tokens and pointing at exactly the positions that credit them |
| `Materialize.BranchMask` | src/prime_rl/orchestrator/trajectories.py:128-140 | the trained-node set loop computes the declared mask |
| `Materialize.TrainableBranches` | src/prime_rl/orchestrator/trajectories.py:110-146 | kept branches and masks, for a lone branch and for forks |
| `Materialize.MaterializeTrainingData` | src/prime_rl/orchestrator/trajectories.py:202-264 | samples as declared, each token under its own mask bit (`Trajectories.SampleTokens`), and a layout exactly when the trace forks |
| `Provenance.CanonicalOrder` | src/prime_rl/orchestrator/provenance.py:34-41 | length first, then string order, is numeric order on canonical decimals |
| `Provenance.PolicyStepExact` | src/prime_rl/orchestrator/provenance.py:34-41 | a label parses to n if and only if n is at most 2^63 - 1 and the label is n's decimal print |
| `Provenance.ParseStep` | src/prime_rl/orchestrator/provenance.py:34-41 | the checks and the digit loop compute the specified step |
| `Provenance.ValidateWeightVersions` | src/prime_rl/orchestrator/provenance.py:14-31 | accepts exactly token-aligned, sampled, ordered, nonoverlapping intervals within the sampled count |
| `Provenance.NodePolicyVersions` | src/prime_rl/orchestrator/provenance.py:44-57 | refuses exactly invalid nodes, and otherwise fills the array with each sampled token's step and -1 elsewhere |
| `Provenance.StepAtIs` | src/prime_rl/orchestrator/provenance.py:54-57 | a rank inside an interval gets that interval's step |
| `Provenance.VersionsExact` | src/prime_rl/orchestrator/provenance.py:44-57 | a sampled token has the step of the label whose interval holds the number of sampled tokens before it; one that no label holds, and every other token, is unknown |
| `Provenance.ClipWeightVersions` | src/prime_rl/orchestrator/provenance.py:60-71 | refuses exactly invalid nodes and counts, and otherwise clips as specified |
| `Provenance.ClipStepAt` | src/prime_rl/orchestrator/provenance.py:60-71 | clipping keeps the steps of the kept ranks and forgets the rest |
| `Provenance.ClipIntervals` | src/prime_rl/orchestrator/provenance.py:60-71 | clipped intervals are valid for the clipped mask |
| `Projection.CutIsPrefix` | src/prime_rl/orchestrator/episodes.py:123-132 | cutting node by node under a shrinking budget is cutting the concatenation |
| `Projection.ProjectionCommutes` | src/prime_rl/orchestrator/episodes.py:120-132 | clip then concatenate equals concatenate then clip, for tokens, masks and versions |
| `Projection.LinearSamples` | src/prime_rl/orchestrator/trajectories.py:202-230 | a linear trace is one branch, and the materializer yields at most the one sample of its concatenated tokens and mask |
| `Projection.ProjectedSample` | src/prime_rl/orchestrator/trajectories.py:202-230 | for every accepted trace: the materializer's samples of the projected trace are the budget's prefix of the whole trace's tokens and mask, none exactly when the prefix holds no sampled token, and the decoded versions are the same prefix |
| `Projection.PayloadReads` | src/prime_rl/orchestrator/trajectories.py:215-221 | reading the optional payload, absent or not, gives every token's version |
| `Projection.LogprobsKept` | src/prime_rl/orchestrator/episodes.py:130-130 | one logprob per sampled token survives clipping, the same ones |
| `Projection.AcceptedIsLinear` | src/prime_rl/orchestrator/episodes.py:79-116 | an accepted trace is one linear branch with aligned masks, logprobs and valid labels, trainable only in its last node |
| `Projection.AcceptedIff` | src/prime_rl/orchestrator/episodes.py:79-116 | exactly which traces are accepted, on the trace's own fields: a positive budget, not projected before, one successful call naming the final node, nothing the runtime cannot credit, and every node projectable |
| `Projection.NodeProjected` | src/prime_rl/orchestrator/episodes.py:123-132 | what is left of each node: a prefix of its tokens with the same prefix of mask and content flags, one logprob per sampled token kept, and parent, facts and sampled flag as they were |
| `ProjectionImpl.ValidateTrainingTrace` | src/prime_rl/orchestrator/episodes.py:21-64 | the first unsupported feature in check order, or none |
| `ProjectionImpl.Check` | src/prime_rl/orchestrator/episodes.py:79-116 | the first failing projection check in order, or none |
| `ProjectionImpl.ClipNodes` | src/prime_rl/orchestrator/episodes.py:120-131 | the budget loop equals clipping every node to its room |
| `ProjectionImpl.ProjectTrainingTrace` | src/prime_rl/orchestrator/episodes.py:67-149 | refused with the first failing check, else the clipped trace and a receipt whose counts are the real ones |
| `Wire.RoundTrip` | src/prime_rl/transport/provenance.py:8-27 | encoding succeeds exactly for values >= -1, decoding gives the array back, and absence stands exactly for all-unknown |
| `Wire.DecodedReencodes` | src/prime_rl/transport/provenance.py:8-27 | every accepted payload with a known label re-encodes to itself, and to absence otherwise |
| `Wire.ValueBack` | src/prime_rl/transport/provenance.py:17-17 | eight bytes decode to a two's complement value that encodes to the same bytes |
| `Wire.EncodedBytes` | src/prime_rl/transport/provenance.py:20-27 | the bytes of an encoded array: eight for each value in turn, least significant first, of its two's complement |
| `JsonText.BodyRoundTrip` | src/prime_rl/orchestrator/value_context.py:68-77 | whichever characters are spelled as hexadecimal escapes, the string body decodes (section 7 of RFC 8259) to the same string, surrogate pairs included |
| `JsonText.RawIff` | src/prime_rl/orchestrator/value_context.py:48-49 | a printed string body is the string itself exactly when it holds no quote, backslash or control character |
| `JsonText.EscapeForm` | src/prime_rl/orchestrator/value_context.py:52-54 | a spelled-out character is one or two groups of a backslash, `u` and four lower-case hexadecimal digits |
| `JsonText.LexLiteral` | src/prime_rl/orchestrator/value_context.py:18-18 | the literal pattern ends exactly at the literal's closing quote |
| `JsonValue.PrintDenotes` | src/prime_rl/orchestrator/value_context.py:48-49 | the canonical print of a value denotes that value |
| `JsonUnique.DenotesOne` | src/prime_rl/orchestrator/value_context.py:48-49 | a text denotes at most one value |
| `JsonUnique.PrintInjective` | src/prime_rl/orchestrator/value_context.py:48-49 | distinct values print differently |
| `JsonEscape.EscapePreserves` | src/prime_rl/orchestrator/value_context.py:57-79 | whatever value a text denotes, the escaped text denotes it too |
| `JsonEscape.NoMarkerInBody` | src/prime_rl/orchestrator/value_context.py:57-79 | no control token made of marker characters survives in an escaped string |
| `JsonEscape.HitMatched` | src/prime_rl/orchestrator/value_context.py:68-77 | a character is spelled out only inside an occurrence of a control token |
| `JsonEscape.LeftAloneIff` | src/prime_rl/orchestrator/value_context.py:57-77 | a string is left alone exactly when no control token occurs in it |
| `JsonSafe.EscapeString` | src/prime_rl/orchestrator/value_context.py:68-77 | the match loop produces exactly the literal with leftmost-longest matches spelled out |
| `JsonSafe.MatchAt` | src/prime_rl/orchestrator/value_context.py:66-66 | the first alternative of the length-sorted pattern is the longest match |
| `JsonSafe.PayloadSafe` | src/prime_rl/orchestrator/value_context.py:57-79 | for every value and special-token set the payload denotes the value and holds no angle bracket and neither marker |
| `PromptText.MarkerPlaces` | src/prime_rl/orchestrator/value_context.py:216-230 | each marker occurs in the prompt at a position if and only if it is that marker's own line |
| `PromptText.UniqueSplit` | src/prime_rl/orchestrator/value_context.py:216-230 | any split of the prompt on its markers gives back the payload |
| `ValueContext.RefusedIff` | src/prime_rl/orchestrator/value_context.py:179-205 | the checks pass exactly for accepted groups |
| `ValueContextSafety.PromptSafe` | src/prime_rl/orchestrator/value_context.py:206-230 | every accepted group has a prompt for each rollout whose unique enclosed payload denotes the context document |
| `LeaveOneOut.SameRecord` | src/prime_rl/orchestrator/value_context.py:132-139 | a node's record is a function of the nodes up to it |
| `LeaveOneOut.NonInterference` | src/prime_rl/orchestrator/value_context.py:173-231 | two accepted groups that differ only in rollout i's reward and its nodes from a sampled one on give rollout i the identical prompt |
| `LeaveOneOut.SortedUnique` | src/prime_rl/orchestrator/value_context.py:207-207 | a multiset of records has one sorted order by canonical print |
| `LeaveOneOut.PermutationEquivariant` | src/prime_rl/orchestrator/value_context.py:173-231 | reordering a group keeps acceptance and gives equal rollouts equal prompts |
| `ValueContextContent.PeerBack` | src/prime_rl/orchestrator/value_context.py:142-170 | a reader of JSON recovers from a peer's record its reward (negative zero as zero) and, node by node, parent, sampled flag, message, tool calls and finish reason, shared prompt nodes by their place only |
| `ValueContextContent.ReferenceIff` | src/prime_rl/orchestrator/value_context.py:102-115 | a tool message is accepted exactly when it answers one call of one proper ancestor, and then refers to that call |
| `ValueContextContent.AcceptedExactly` | src/prime_rl/orchestrator/value_context.py:179-205 | exactly which groups are accepted, on the rollouts' own fields |
| `ValueContextContent.SharedExact` | src/prime_rl/orchestrator/value_context.py:186-200 | the omitted prefix is the longest one whose nodes every rollout has, unsampled, on one chain and showing the same |
| `ValueContextContent.PromptShows` | src/prime_rl/orchestrator/value_context.py:206-230 | the one text a prompt's markers can enclose denotes a document that gives back the group's size and, for every rollout but its own, once each, all that a peer shows |
| `ValueContextContent.SamePromptSamePeers` | src/prime_rl/orchestrator/value_context.py:173-231 | nothing is lost: groups that give two rollouts the same prompt have the same size and their peers can be paired so that each pair shows the same reward, tree, messages, tool calls and finish reasons |
| `ValueContextExact.SamePeersSamePrompt` | src/prime_rl/orchestrator/value_context.py:173-231 | and nothing else gets in: two rollouts of accepted groups whose peers can be paired so that each pair shows the same have the same prompt, whatever ids and tool call ids the peers have |
| `ValueContextExact.DocumentCanonical` | src/prime_rl/orchestrator/value_context.py:48-49 | in the context document every object's keys ascend, each once, and the peers ascend by their own print |
| `ValueContextExact.LeqIff` | src/prime_rl/orchestrator/value_context.py:207-207 | the order of the sort is the order of strings by character |
| `ValueContextImpl.EscapeSpecialTokens` | src/prime_rl/orchestrator/value_context.py:57-79 | the payload scan computes the specified escaped text |
| `ValueContextImpl.ToolCallReference` | src/prime_rl/orchestrator/value_context.py:102-115 | the parent walk finds the one matching ancestral call or refuses |
| `ValueContextImpl.OmittedPrefix` | src/prime_rl/orchestrator/value_context.py:186-200 | the prefix loop computes the shared prompt length or refuses |
| `ValueContextImpl.BuildPeer` | src/prime_rl/orchestrator/value_context.py:142-170 | a peer's record, or the first failing check; `ValueContextContent.PeerBack` reads the record back |
| `ValueContextImpl.GroupLeaveOneOutPrompts` | src/prime_rl/orchestrator/value_context.py:173-231 | refused with the first failing check, else one specified prompt per rollout; `ValueContextContent.PromptShows` says what it shows |
| `ValuePublication.MakePrefix` | src/prime_rl/orchestrator/value_context.py:27-29 | exactly positions 0 and 1 are accepted |
| `ValuePublication.ProjectApply` | src/prime_rl/orchestrator/value_context.py:31-40 | `project` undoes `apply`, which fails exactly on too short a sequence |
| `ValuePublication.ProjectLift` | src/prime_rl/orchestrator/value_context.py:36-45 | `project` undoes `lift`, whatever the fill |
| `ValuePublication.PrefixFits` | src/prime_rl/orchestrator/train_sink.py:355-414 | a built prefix fits every branch within the critic's length and puts the rendered context in front with exactly one beginning token |
| `ValuePublication.BuiltIff` | src/prime_rl/orchestrator/train_sink.py:355-414 | a prefix is built exactly for text that renders to something new, under one beginning convention shared by every branch, that fits the critic with each of them; none is wanted when disabled, without a critic length, samples or prompt; everything else is refused |
| `ValuePublication.BuiltAdmissible` | src/prime_rl/orchestrator/train_sink.py:355-414 | whatever the builder returns for a length limit, prefix or none, aligned samples are admissible under that limit |
| `ValuePublication.ConditionedFaithful` | src/prime_rl/orchestrator/train_sink.py:449-466 | a published sample is aligned, within the critic's length, and keeps every action with its own target |
| `ValuePublication.NoPositionAdded` | src/prime_rl/orchestrator/train_sink.py:451-454 | every trainable position of a prefixed sample is a shifted original one |
| `ValuePublication.KeptPicks` | src/prime_rl/orchestrator/train_sink.py:432-436 | kept for the critic are exactly the rollouts whose captured trajectory has samples or that have samples of their own, in order |
| `ValuePublication.ValuePublisher.PublishValueRollouts` | src/prime_rl/orchestrator/train_sink.py:429-476 | published ids stay consecutive from 0; nothing without targets; refused when some lack them; otherwise it succeeds exactly when every trajectory has a target per sample and a prefix that fits, with one publication per kept rollout with its own versions, each sample with an admissible input published aligned, within the length limit and with every action on its own target |
| `ValuePublication.ValuePublisher.PublishedFaithful` | src/prime_rl/orchestrator/train_sink.py:355-476 | with the builder's prefix and aligned targets, every published sample of a rollout is faithful without exception |

## Left out

- asyncio, inference servers, HTTP, message queues and metrics: only their yield points and outcomes appear, as events.
- `stop` and `cancel_inflight_rollouts` of the dispatcher: teardown discards everything and promises nothing further.
- Client pools, samplers and environment servers: reduced to group size, group scoring and live or frozen sourcing.
- Group and task objects of the dispatcher: values in tables that frames refer to by number, so aliasing is the shared index.
- Off-policy groups are dropped in an arbitrary order, and other coroutines may also run between the ageing sweep and the first drop: more interleavings than the program has.
- Algorithm scoring, advantages, filters' internals and materialization inside the sink: a rollout's samples, tokens, value version and filter verdicts are inputs.
- Waiting for the stable marker and the weight transfer of the watcher: Poll takes the newest checkpoint number as an argument.
- Checkpoint and rollout files, sending, and logging of the orchestrator: only step, counters, draining and the final checkpoint number.
- Shipments dropped by the warmup gate stay dropped; nothing is claimed about liveness of the trainer or of the critic.
- Multimodal and routed-expert sidecars of materialization: refused or defensive paths.
- The order in which the tracing library lists branches: leaves in creation order here; every credit theorem holds for any list of ascending paths that covers the nodes.
- The capture flags of materialization: sampled masks are the branch masks, and policy versions are modelled as captured.
- Branch-level logprobs: alignment is stated per node, where the projection clips them.
- Python type checks (exact `int` or `bool`): the types here are already exact.
- Lone surrogates in strings: characters are Unicode scalar values, as every text the program can encode as UTF-16 is.
- Floating-point rewards: a finite reward is its printed form; that it prints with number characters is a precondition.
- Whitespace and other spellings of JSON texts the program never writes: denotation covers compact texts.
- Sorting of keys by the JSON printer: records are built with ascending keys (`ValueContextExact.DocumentCanonical`).
- The renderer and tokenizer: a rendered prompt and a beginning token are inputs of BuildPrefix, and a prompt is absent, blank or text.
- ProgressIff: says that an orderly lossless continuation exists; that the event loop takes it (fairness), and which of the finished tasks are handled between two fills, is not modelled. The program's demand for at least one train environment (src/prime_rl/orchestrator/train_source.py:31) is its precondition.
- Poll: the waits of one update (stable marker, observers, engines) are not interruption points of the class; `Dispatch` has them as events.
