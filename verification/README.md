# Verified model of the AINDY runtime core

AINDY runs agent work through a job queue, resumable flows, execution units, a syscall kernel with
quotas and capability tokens, an event bus and a path-addressed memory. This project models the
parts of that runtime where operations interleave or must agree with one another, and proves what
they keep over every run.

- **Job queue** (`JobPayload`, `RedisStore`, `RedisProtocol`, `RedisBooks`, `RedisOrder`,
  `RedisIntegrity`, `RedisFailures`, `RedisRecovery`, `RedisBackend`, `JobMachine`, `MemoryQueue`,
  `MemoryBackend`). The Redis backend is a protocol in which each Redis command is one atomic step and any number of
  processes interleave, crash and acknowledge late. The in-process backend is a state machine with
  timers. Both are proved to refine one bounded FIFO.
- **Resuming flows** (`ResumeClaim`, `ResumeCallback`, `ExecutionUnits`). The conditional update on
  a waiting FlowRun, racing with dead-lettering and every other writer; the status table of
  execution units; the gate that requires a unit.
- **Kernel** (`CircuitBreaker`, `SyscallNames`, `TwoLevelMap`, `SyscallRegistry`,
  `ResourceManager`, `SyscallQuota`, `SyscallDispatch`, `EventBus`).
- **Capability tokens** (`Capabilities`) and **memory addresses** (`MemoryPaths`, `MemoryTree`).

`Prelude` holds the definitions they share, sums over sequences in particular.

Where the source updates an object in place the model is a class whose methods are proved against
specification functions; the theorems are about those functions and about runs of them. Protocols
are given by `Enabled`, `Next`, `IsRun` and `After`. Clocks, fresh ids, commit outcomes, handler
outcomes and the token hash are parameters, so every theorem holds for all of them.

## What the code does not promise

Some properties one might expect are false of the code. The model keeps the code's behaviour; a
lemma shows the failing case, and another states exactly when the property holds, or a bound that is
attained.

- Failing a Redis job takes three commands. Depending on what happens between them the job stays
  live beside its dead letter, or is gone with its payload (`RedisFailures.DeadLetterBesideLiveJob`,
  `FailForgetsPayload`, `CrashedFailForgetsPayload`; exact conditions `FailMovesIff` and `GoneIff`).
- Recovered Redis jobs are pushed without a capacity check (`RedisRecovery.PendingBoundAttained`,
  exact condition `AlwaysWithinIff`), and recovery can take a job from a worker that has just got it
  (`FreshEntryIsClaimed`, exact condition `ClaimIsOfStaleIff`).
- In process, a recovery can fill the queue under a pending timer, whose job is then lost although
  it was accepted (`MemoryQueue.RecoveryCanLoseDelayedJob`, exact conditions `WithinCapacityIff` and
  `ExactlyOnePlace`).
- A callback that crashes after winning its claim strands the run: resuming is at most once, not
  exactly once (`ResumeClaim.CrashedWinnerStrandsRun`, exact condition `RanIffNotStranded`).
- A unit created in a terminal status never gets a completion time
  (`ExecutionUnits.CreatedCompletedIsNeverMarked`, exact condition `TrailsFollowTable`).
- The breaker allows one probe per half-open period, but a late result of an earlier phase ends a
  period, so two probes can be out (`CircuitBreaker.TwoProbesInFlight`, exact conditions
  `PeriodEndsWithProbeIff` and `OneProbeThroughoutIff`). A threshold of zero or less makes its state
  inconsistent (`ConsistentIff`, `FollowsRuleIff`).
- Checking a tenant's limit and starting an execution are separate steps
  (`ResourceManager.CheckThenStartOvershoots`, exact condition `AlwaysWithinIff`). A unit id that is
  started again after completing loses its usage at the next check (`RestartedUsageIsPurged`, exact
  condition `NextCheckKeepsUsageIff`).
- The syscall budget is compared strictly and recorded after the handler, so overlapping dispatches
  pass it by their number (`SyscallQuota.SuccessBound`, `BoundAttained`).
- An event found to precede rehydration and buffered after the start-up drain stays in the buffer
  (`EventBus.DrainMissesEvent`, exact condition `DrainDeliversIff`).

Code and documentation disagree in a few places, and the model follows the code:

- `normalize_path` says that a path must start with the memory root, but only compares a string
  prefix, so "/memoryX" passes (`MemoryPaths.BesideTheRootIsAccepted`; exact condition for rebuilding a
  path `BuildParsedIff`). It is not idempotent when white space precedes a trailing slash
  (`NormalizeNotIdempotent`, exact condition `IdempotentIff`).
- `flatten_tree` is documented as a depth-first listing of the tree, but starts from the paths that
  are nobody's parent, so it lists only childless nodes (`MemoryTree.FlattenDropsParent`, exact
  conditions `FlattenKeepsAllIff` and `WrittenNodesFlattenIff`).
- `mark_completed` mentions counts above the limit that drop below it in one completion; one
  completion only ever goes from the limit to one below (`ResourceManager.PublishedIff`).

## Model

| member | source | states |
|---|---|---|
| JobPayload.Normalize | AINDY/core/distributed_queue.py:193-197 | post-initialisation leaves a payload alone exactly when its idempotency key was already usable |
| JobPayload.RoundTrip | AINDY/core/distributed_queue.py:199-208 | writing and reading back, with any unknown fields added by the writer, gives the normalised payload; the identical payload if and only if it was normal |
| JobPayload.WireRoundTrip | AINDY/core/distributed_queue.py:199-208 | every payload object survives the wire unchanged, whatever the clock |
| JobPayload.MissingKeyDefaultsToJobId | AINDY/core/distributed_queue.py:193-208 | an older payload without the key reads back with its job id as key and everything else intact |
| JobPayload.Reads | AINDY/core/distributed_queue.py:199-208 | a document reads as a payload exactly when id and task name are strings and the other fields have their types or are absent; each field comes from the document's field of that name or its default |
| RedisStore.ReadyCount | AINDY/core/distributed_queue.py:466-473 | how many delayed members one promotion takes: all of them ready, at most the limit, and the next one not ready unless the limit was reached |
| RedisStore.RunPromoteScript | AINDY/core/distributed_queue.py:466-473 | the script's loop of single pushes and removals: up to a hundred due members, by score, are handed out after everything that waited, in that order; the others stay |
| RedisStore.PromotionOrder | AINDY/core/distributed_queue.py:466-473 | popping until empty after a promotion yields what it would have yielded before, then the due members by score, at most a hundred; the rest stay delayed |
| RedisStore.PushedIsLast | AINDY/core/distributed_queue.py:475-481 | a pushed job is handed out after all that wait |
| RedisStore.DelayMakesDue | AINDY/core/distributed_queue.py:483-489 | below capacity an accepted delayed member is due at the score given, replacing its earlier one; every other member keeps its score and the rest of the store is unchanged |
| RedisProtocol.Conservation | AINDY/core/distributed_queue.py:579-780 | for every interleaving of any number of processes, with crashes between any two commands and arbitrary late acks and fails: copies accepted under an id = tracked + acked + failed + lost in a crash + merged; and dead letters with its payload + payloads about to be written + lost before the write + fails that had read nothing = failed + fails that came too late |
| RedisProtocol.ExactlyOnce | AINDY/core/distributed_queue.py:579-780 | without crashes, a job enqueued at most once is, when accepted, tracked in exactly one place, or acked once, or failed once, never two of these; and its payload is in exactly as many dead letters as fails had read it |
| RedisProtocol.AtMostOneCopy | AINDY/core/distributed_queue.py:579-780 | an id enqueued at most once never has two tracked copies, crashes and concurrent recoveries included |
| RedisProtocol.StepKeepsBalance | AINDY/core/distributed_queue.py:579-780 | every single Redis command, in every reachable state, keeps the per-id balance |
| RedisProtocol.StepKeepsLetters | AINDY/core/distributed_queue.py:579-780 | every single Redis command keeps the balance between failed copies and dead letters |
| RedisProtocol.StepKeepsFiled | AINDY/core/distributed_queue.py:602-780 | every command keeps in-flight fields and old scan results filed under their payload's id and the delayed set in score order |
| RedisProtocol.ClaimKeeps | AINDY/core/distributed_queue.py:733-780 | a recovery claim keeps the balance although the entry it deletes may be fresher than the one it scanned |
| RedisProtocol.PendingBound | AINDY/core/distributed_queue.py:475-489 | in every reachable state pending jobs exceed the configured capacity by at most the number of recovered jobs |
| RedisRecovery.WithinSurvivesIff | AINDY/core/distributed_queue.py:475-489 | from within capacity a step goes over if and only if it pushes a recovered job at capacity |
| RedisRecovery.AlwaysWithinIff | AINDY/core/distributed_queue.py:475-780 | pending jobs stay within capacity at every point of a run if and only if every recovered job is pushed while there is room |
| RedisRecovery.PendingBoundAttained | AINDY/core/distributed_queue.py:733-780 | for every capacity and every k some run has k recovered jobs and is exactly k over capacity |
| RedisRecovery.DeliveryBound | AINDY/core/distributed_queue.py:602-780 | over every run a job is handed to workers at most once per accepted enqueue plus once per recovery of it |
| RedisRecovery.ClaimIsOfStaleIff | AINDY/core/distributed_queue.py:733-780 | the entry a recovery claims is stale by its scan's clock if and only if the job was not handed out again too recently since the scan; always when it was not handed out again |
| RedisRecovery.FreshEntryIsClaimed | AINDY/core/distributed_queue.py:733-780 | a run in which two recoveries scan one entry and the second claims it from under the worker that has just taken it again, against the documented purpose |
| RedisProtocol.PromotionLeavesNothingReady | AINDY/core/distributed_queue.py:710-729 | in every reachable state a promotion that moves fewer than its limit leaves no ready delayed job |
| RedisOrder.LeaveInOrder | AINDY/core/distributed_queue.py:466-780 | over every run of every number of processes, crashes included: the jobs in the order they entered the main list, enqueued, promoted or recovered, are the jobs popped, in that order, and then those that would be handed out next |
| RedisOrder.RunOrder | AINDY/core/distributed_queue.py:466-780 | the same from every store |
| RedisOrder.StepOrder | AINDY/core/distributed_queue.py:466-780 | the same for every single command |
| RedisOrder.DelayedIsASet | AINDY/core/distributed_queue.py:483-489 | in every reachable state the delayed set holds a payload at most once |
| RedisBooks.BooksAreHistory | AINDY/core/distributed_queue.py:579-780 | over every run the counts the balances speak of are, for every job, how often the run accepted it with room, acked or failed it in flight, lost it in a crash, failed it unread, failed it when already gone, or crashed before its dead letter |
| RedisIntegrity.PayloadIntegrity | AINDY/core/distributed_queue.py:579-780 | over every run, every copy of a job enqueued once, wherever it is, dead letters included, is the wire of the payload enqueued under that id |
| RedisFailures.FailMovesIff | AINDY/core/distributed_queue.py:642-677 | whatever others do between its commands, a fail moves its job from flight to the dead letters, payload included, if and only if the entry is there at the HGET and at the HDEL and the process does not crash before the LPUSH; retiring the job and burying its payload each have their own exact condition |
| RedisFailures.GoneIff | AINDY/core/distributed_queue.py:579-780 | over every run, of a job enqueued once nothing is left, alive, acked or in a dead letter, if and only if its copy was lost in a crash or failed, and every fail of it was blank or crashed before writing |
| RedisFailures.DeadLetterBesideLiveJob | AINDY/core/distributed_queue.py:642-677 | a crash-free run in which recovery slips between the commands of a fail and one job ends in the main list and in the dead letters |
| RedisFailures.FailForgetsPayload | AINDY/core/distributed_queue.py:642-677 | a crash-free run in which a late fail reads before and deletes after the job is handed out again: an accepted job ends as a dead letter without payload, although the source promises that the entry preserves it |
| RedisFailures.CrashedFailForgetsPayload | AINDY/core/distributed_queue.py:642-677 | a run in which a crash between HDEL and LPUSH leaves nothing of an accepted job |
| JobMachine.Fifo | AINDY/core/distributed_queue.py:579-631 | over every sequence of calls: what waited, then what was accepted = what was handed out, then what still waits, in that order |
| JobMachine.QueueBounded | AINDY/core/distributed_queue.py:475-481 | a queue within capacity stays within capacity over every sequence of calls |
| JobMachine.InFlightIsOut | AINDY/core/distributed_queue.py:602-677 | over every sequence of calls a job is in flight exactly as its last hand-out not followed by an ack or fail left it |
| JobMachine.DeadLettersInOrder | AINDY/core/distributed_queue.py:642-677 | the dead letters are the failed jobs in the order they failed |
| JobMachine.DepthsAddUp | AINDY/core/distributed_queue.py:475-481 | the depths reported are what came in less what went out, one dead letter per fail and the ids in flight |
| RedisBackend.RedisRefines | AINDY/core/distributed_queue.py:579-677 | from every store that represents a machine, every sequence of calls gives the replies, payloads and depths of the abstract bounded FIFO |
| RedisBackend.CallSimulates | AINDY/core/distributed_queue.py:579-677 | one call answers as the machine does and keeps the representation relation |
| RedisBackend.CallIsProtocolRun | AINDY/core/distributed_queue.py:579-677 | the commands of a call, taken as protocol steps of one process, are enabled in turn and leave the store the call leaves |
| RedisBackend.RecoveryIsProtocolRun | AINDY/core/distributed_queue.py:733-780 | an undisturbed recovery, taken as protocol steps of one process, is enabled in turn and leaves the store the call leaves |
| RedisBackend.RedisQueueBackend.Enqueue | AINDY/core/distributed_queue.py:579-600 | accepted exactly when main list and delayed set together are below capacity, and then handed out after all that wait; nothing else changes |
| RedisBackend.RedisQueueBackend.Dequeue | AINDY/core/distributed_queue.py:602-631 | the job next in hand-out order, now in flight with its time; nothing for an empty list or an element that does not read, which is dropped |
| RedisBackend.RedisQueueBackend.Ack | AINDY/core/distributed_queue.py:633-640 | only the in-flight field goes |
| RedisBackend.RedisQueueBackend.Fail | AINDY/core/distributed_queue.py:642-677 | undisturbed, the in-flight entry goes and a dead letter with its payload, if any, and the error comes first in the list |
| RedisBackend.RedisQueueBackend.EnqueueDelayed | AINDY/core/distributed_queue.py:681-708 | accepted exactly below capacity; then this payload is due at the score given, every other member as before, and the set stays sorted |
| RedisBackend.RedisQueueBackend.ProcessDelayedJobs | AINDY/core/distributed_queue.py:710-729 | up to a hundred due jobs are handed out after everything that waited, by score; their number is returned |
| RedisBackend.RedisQueueBackend.RequeueStaleJobs | AINDY/core/distributed_queue.py:733-780 | undisturbed, exactly the entries handed out longer ago than the timeout leave the hash, and their payloads are handed out after everything that waited |
| MemoryQueue.Conservation | AINDY/core/distributed_queue.py:919-1066 | over every run of calls, timer firings and recoveries, blocked ones included: accepted = held + acked + drained + lost + merged per id, and the delayed counter is the number of unfired timers |
| MemoryQueue.BoundSurvivesIff | AINDY/core/distributed_queue.py:998-1013 | pending jobs stay within capacity over a step if and only if it does not put a recovered job back where, timers counted, there is no room |
| MemoryQueue.WithinCapacityIff | AINDY/core/distributed_queue.py:907-1013 | pending jobs stay within capacity at every point of a run if and only if every recovered job is put back while there is room, timers counted |
| MemoryQueue.RoomyLosesNothing | AINDY/core/distributed_queue.py:965-1013 | on such runs no timer loses a job |
| MemoryQueue.ExactlyOnePlace | AINDY/core/distributed_queue.py:919-1066 | over every run, an id enqueued at most once is in at most one of queue, timer, waiting recovery, flight, dead letters, acked, drained; once accepted it is nowhere if and only if its own timer fired at a full queue |
| MemoryQueue.RecoveryCanLoseDelayedJob | AINDY/core/distributed_queue.py:965-1013 | a concrete run in which a recovery fills the queue under a pending timer and the timer's accepted job is nowhere afterwards |
| MemoryQueue.RecoveredIsRun | AINDY/core/distributed_queue.py:998-1013 | an undisturbed recovery is a run of the machine: one removal, then puts in order while places are free |
| MemoryQueue.LeaveInOrder | AINDY/core/distributed_queue.py:919-1066 | over every run the jobs in the order they entered the queue, enqueued, fired or recovered, are the jobs handed out, in that order, and then those still queued |
| MemoryQueue.RecoversStaleIff | AINDY/core/distributed_queue.py:998-1013 | in every reachable state a recovery takes a job from flight if and only if its latest hand-out in the run is longer ago than the timeout |
| MemoryQueue.EntryTime | AINDY/core/distributed_queue.py:929-938 | over every run an in-flight entry carries the time of the job's latest hand-out |
| MemoryQueue.BooksAreHistory | AINDY/core/distributed_queue.py:919-1066 | over every run the counts of accepted, acked, drained and lost jobs are how often the run did that to the job |
| MemoryQueue.FirstDead | AINDY/core/distributed_queue.py:1048-1058 | the first dead letter of an id, or the length when there is none |
| MemoryBackend.BackendsAgree | AINDY/core/distributed_queue.py:579-961 | for every sequence of enqueue, dequeue, ack and fail calls, with any ids, both backends give the same replies, payloads and depths |
| MemoryBackend.MemoryRefines | AINDY/core/distributed_queue.py:919-961 | the in-process backend without delayed jobs is indistinguishable from the abstract machine |
| MemoryBackend.InMemoryQueueBackend.RejectIfFull | AINDY/core/distributed_queue.py:907-917 | rejects exactly when queue and delayed counter together reach capacity |
| MemoryBackend.InMemoryQueueBackend.Enqueue | AINDY/core/distributed_queue.py:919-927 | accepted exactly when queue and delayed counter together are below capacity, and then last in the queue; nothing else changes |
| MemoryBackend.InMemoryQueueBackend.Dequeue | AINDY/core/distributed_queue.py:929-938 | the oldest job, now in flight, or nothing |
| MemoryBackend.InMemoryQueueBackend.Ack | AINDY/core/distributed_queue.py:940-945 | only the in-flight entry goes |
| MemoryBackend.InMemoryQueueBackend.Fail | AINDY/core/distributed_queue.py:947-961 | the job, or its absence, is recorded as a dead letter and leaves flight |
| MemoryBackend.InMemoryQueueBackend.EnqueueDelayed | AINDY/core/distributed_queue.py:965-992 | accepted exactly below capacity; timer and counter go up together |
| MemoryBackend.InMemoryQueueBackend.Fire | AINDY/core/distributed_queue.py:965-992 | the counter goes down whether or not the put finds room |
| MemoryBackend.InMemoryQueueBackend.RequeueStaleJobs | AINDY/core/distributed_queue.py:998-1013 | exactly the jobs handed out longer ago than the timeout leave flight; as many as there are free places return to the queue in order, and the call returns if and only if that is all of them, else it waits with the rest |
| MemoryBackend.InMemoryQueueBackend.ListStale | AINDY/core/distributed_queue.py:998-1008 | every stale job id once, and no other |
| MemoryBackend.InMemoryQueueBackend.RemoveDeadLetter | AINDY/core/distributed_queue.py:1048-1058 | the first letter of the id goes; reports whether there was one |
| MemoryBackend.InMemoryQueueBackend.DrainDeadLetters | AINDY/core/distributed_queue.py:1060-1066 | all letters go and are counted |
| ResumeClaim.ResumedAtMostOnce | AINDY/core/flow_run_rehydration.py:252-341 | for any number of processes and firings and any other writers: each waiting episode is ended at most once, its unit and flow are resumed at most once, and only after that callback's own committed claim, unit before flow |
| ResumeClaim.DeadLetteredNeverRuns | AINDY/agents/dead_letter_service.py:11-57 | no unit and no flow is ever resumed for an episode that ended in dead letters |
| ResumeClaim.NoSecondWinner | AINDY/core/flow_run_rehydration.py:270-305 | once a row has left waiting, no claim or dead-letter move ends anything until another writer makes it wait again |
| ResumeClaim.StepKeeps | AINDY/core/flow_run_rehydration.py:252-341 | every step of every process and writer keeps the invariant behind these results |
| ResumeClaim.SoleHolder | AINDY/core/flow_run_rehydration.py:252-341 | two processes entitled to act on one episode are the same process |
| ResumeClaim.ClaimedHasOneFate | AINDY/core/flow_run_rehydration.py:252-341 | for every run, a claimed episode has exactly one fate: its flow was run, one process still has it in hand, or a crash hit the process that had it |
| ResumeClaim.RanIffNotStranded | AINDY/core/flow_run_rehydration.py:252-341 | of a claimed episode nobody has in hand, the flow was run if and only if no crash hit the process that had won it |
| ResumeClaim.StrandedNeverRuns | AINDY/core/flow_run_rehydration.py:252-341 | a stranded episode is never run by anybody |
| ResumeClaim.CrashedWinnerStrandsRun | AINDY/core/flow_run_rehydration.py:252-341 | at most once is not exactly once: for every number of processes and every continuation, a winner that crashes after its commit leaves its episode without a run for ever |
| ResumeClaim.EndedByWhom | AINDY/core/flow_run_rehydration.py:252-341 | over every run an episode is recorded as claimed by a firing, or as dead-lettered, if and only if that firing's conditional update, or the dead-letter move, met the row waiting in that episode with a successful commit |
| ResumeClaim.UndisturbedCallback | AINDY/core/flow_run_rehydration.py:259-341 | a callback run on its own claims, resumes the unit if there is one and runs the flow, in that order, exactly when the flow is found, the row waits and the commit succeeds; else it leaves row and log alone |
| ResumeCallback.FlowRunRow.ClaimWaiting | AINDY/core/flow_run_rehydration.py:274-305 | wins exactly from waiting with a successful commit; nothing but the status changes |
| ResumeCallback.FlowRunRow.MoveToDeadLetter | AINDY/agents/dead_letter_service.py:11-57 | moves exactly from waiting with a successful commit, writing all eight fields; otherwise nothing changes |
| ResumeCallback.Callback | AINDY/core/flow_run_rehydration.py:259-341 | runs the flow exactly when the flow is registered and the claim won; otherwise neither the row nor any unit changes |
| ResumeCallback.FireAll | AINDY/core/flow_run_rehydration.py:252-341 | any number of duplicate firings amount to exactly one run if the row waited and some commit succeeded, to none otherwise |
| ExecutionUnits.TrailsFollowTable | AINDY/core/execution_unit_service.py:26-124 | over every sequence of operations each unit's status history is a path of the transition table, and its completion time is set if and only if it is terminal and was not created terminal |
| ExecutionUnits.CreatedCompletedIsNeverMarked | AINDY/core/execution_unit_service.py:46-124 | a unit created completed never gets a completion time, whatever happens later |
| ExecutionUnits.RunOk | AINDY/core/execution_unit_service.py:26-210 | the same as an invariant from every legal store |
| ExecutionUnits.TerminalForever | AINDY/core/execution_unit_service.py:26-33 | completed and failed units keep status, completion time and history over every run |
| ExecutionUnits.ResumeEffect | AINDY/core/execution_unit_service.py:126-179 | a waiting unit goes through resumed to executing and loses its wait condition, every other unit stays as it is; success is reported exactly for units that were waiting, resumed, executing or completed |
| ExecutionUnits.ResumeIdempotent | AINDY/core/execution_unit_service.py:126-179 | resuming twice leaves the store of resuming once, from every store |
| ExecutionUnits.RequireIdempotent | AINDY/core/execution_gate.py:195-275 | requiring a unit twice for one source gives the same store and the same unit as once |
| ExecutionUnits.RequireEffect | AINDY/core/execution_gate.py:195-275 | the unit returned belongs to the source and is executing exactly unless it already was completed, failed or in a status the table does not know, which it keeps |
| ExecutionUnits.RequireKeepsTheRest | AINDY/core/execution_gate.py:195-275 | a unit is created exactly when the source has none; no other unit changes; a retry policy is added if and only if there was none |
| ExecutionUnits.UpdateIff | AINDY/core/execution_unit_service.py:26-124 | the transition table written out: from which statuses each status can be reached, refusal of all else without any change, and every field of the unit moved |
| ExecutionUnits.SetWaitEffect | AINDY/core/execution_unit_service.py:181-210 | the wait condition and the time of an existing unit change, and nothing else |
| ExecutionUnits.TrailSteps | AINDY/core/execution_unit_service.py:26-124 | over every sequence of operations: right before completed or waiting a unit was executing, right before executing pending, waiting or resumed, right before resumed executing or waiting, and nothing follows completed or failed |
| ExecutionUnits.PendingReaches | AINDY/core/execution_unit_service.py:26-124 | a unit created pending can reach executing, waiting, resumed, completed and failed |
| ExecutionUnits.BySource | AINDY/core/execution_unit_service.py:267-282 | the latest unit of a source, or none exactly when no unit has that source |
| ExecutionUnits.ExecutionUnitService.CreateUnit | AINDY/core/execution_unit_service.py:46-91 | appends one unit with the given status, source and extra, without wait condition or completion time |
| ExecutionUnits.ExecutionUnitService.SetStatus | AINDY/core/execution_unit_service.py:95-124 | moves the unit exactly along the table, else reports failure and changes nothing |
| ExecutionUnits.ExecutionUnitService.ResumeUnit | AINDY/core/execution_unit_service.py:126-179 | the three updates in sequence are the resume specification |
| ExecutionUnits.ExecutionUnitService.SetWaiting | AINDY/core/execution_unit_service.py:181-210 | sets the wait condition of an existing unit only |
| ExecutionUnits.ExecutionUnitService.RequireUnit | AINDY/core/execution_gate.py:195-275 | find or create, move to executing, backfill the policy: the require specification |
| CircuitBreaker.RefinesHistoryRule | AINDY/kernel/circuit_breaker.py:66-126 | for every sequence of calls that do not overlap, a fresh breaker admits exactly what a rule on the recorded history admits: fewer trailing failures than the threshold, or the recovery time since the last failure has passed |
| CircuitBreaker.FollowsRuleIff | AINDY/kernel/circuit_breaker.py:23-126 | it does so for all sequences if and only if the threshold is at least one |
| CircuitBreaker.CallFollowsRule | AINDY/kernel/circuit_breaker.py:66-126 | one call: admission agrees with the rule and the breaker again remembers the history |
| CircuitBreaker.RefinementNeedsThreshold | AINDY/kernel/circuit_breaker.py:23-36 | with threshold zero or less the first call already differs |
| CircuitBreaker.AlwaysConsistent | AINDY/kernel/circuit_breaker.py:41-108 | under every interleaving of overlapping calls: closed iff fewer failures than the threshold iff no opening time; half-open iff a probe is out; open since the latest recorded failure |
| CircuitBreaker.ConsistentIff | AINDY/kernel/circuit_breaker.py:23-36 | that holds on all runs if and only if the threshold is at least one |
| CircuitBreaker.OneProbePerPeriod | AINDY/kernel/circuit_breaker.py:66-108 | a half-open period begins by admitting one probe, rejects everything else, and ends only by a recorded result or reset |
| CircuitBreaker.PeriodEndsWithProbeIff | AINDY/kernel/circuit_breaker.py:66-108 | when a half-open period with one probe out ends, the probe is back if and only if its own result ended the period |
| CircuitBreaker.OneProbeThroughoutIff | AINDY/kernel/circuit_breaker.py:66-156 | one probe is out during every half-open period and none outside if and only if no result of an earlier phase and no reset falls into such a period |
| CircuitBreaker.AtMostOneProbe | AINDY/kernel/circuit_breaker.py:66-156 | on such runs never more than one probe is out |
| CircuitBreaker.OpenAdmitsIff | AINDY/kernel/circuit_breaker.py:66-89 | an open breaker admits exactly when the recovery time has passed since the latest recorded failure |
| CircuitBreaker.SuccessMakesFresh | AINDY/kernel/circuit_breaker.py:91-96 | in every run, a success recorded in any state and of any phase leaves the breaker of a new object, which admits the next call |
| CircuitBreaker.OpenIsLeftIff | AINDY/kernel/circuit_breaker.py:66-156 | an open breaker is left if and only if a success is recorded, it is reset or a probe is admitted |
| CircuitBreaker.ClosedIffFewFailures | AINDY/kernel/circuit_breaker.py:41-108 | under every interleaving the breaker is closed if and only if since the last success or reset fewer failures than the threshold were recorded and no probe failed; its counter is their number |
| CircuitBreaker.ProbeFailureReopens | AINDY/kernel/circuit_breaker.py:98-108 | a failed probe leaves the breaker open from that moment, with the counter at the threshold |
| CircuitBreaker.TwoProbesInFlight | AINDY/kernel/circuit_breaker.py:91-108 | a run in which a late result of an earlier phase ends the period and two probes are out at once |
| CircuitBreaker.CircuitBreakerObject.Transition | AINDY/kernel/circuit_breaker.py:41-57 | the fields each target state sets |
| CircuitBreaker.CircuitBreakerObject.EnterCall | AINDY/kernel/circuit_breaker.py:66-89 | admission or rejection and the new state are the specification's |
| CircuitBreaker.CircuitBreakerObject.RecordSuccess | AINDY/kernel/circuit_breaker.py:91-96 | the new state is the specification's, which `SuccessMakesFresh` shows to be a new object's |
| CircuitBreaker.CircuitBreakerObject.RecordFailure | AINDY/kernel/circuit_breaker.py:98-108 | the new state is the specification's |
| CircuitBreaker.CircuitBreakerObject.Call | AINDY/kernel/circuit_breaker.py:110-126 | enter, run, record: one step of the sequential specification |
| CircuitBreaker.CircuitBreakerObject.Reset | AINDY/kernel/circuit_breaker.py:154-156 | a fresh breaker from any state |
| SyscallNames.ParsePrinted | AINDY/kernel/syscall_versioning.py:77-142 | parsing a printed name gives the parts back if and only if the version is non-empty without dots and the action is non-empty |
| SyscallNames.PrintParsed | AINDY/kernel/syscall_versioning.py:77-142 | printing a parsed name gives the name back |
| SyscallNames.FullNameInjective | AINDY/kernel/syscall_versioning.py:77-78 | distinct proper pairs have distinct names |
| TwoLevelMap.PutAgrees | AINDY/kernel/syscall_registry.py:180-195 | for any injective key parser, writing both levels keeps a two-level view that files every parsable key and nothing else |
| TwoLevelMap.DropAgrees | AINDY/kernel/syscall_registry.py:197-221 | deleting does too, leaving no empty second level |
| TwoLevelMap.AgreesUnique | AINDY/kernel/syscall_registry.py:166-236 | at most one view agrees with a dictionary |
| SyscallRegistry.PartsAgreeWithParse | AINDY/kernel/syscall_registry.py:166-175 | the registry's own split accepts and yields exactly what the name parser does |
| SyscallRegistry.AgreesIsReference | AINDY/kernel/syscall_registry.py:166-236 | a view agrees with the flat dictionary if and only if it is the one got by parsing every flat key |
| SyscallRegistry.SetKeepsView | AINDY/kernel/syscall_registry.py:180-195 | the two-level write equals re-parsing all keys after the flat write |
| SyscallRegistry.DropKeepsView | AINDY/kernel/syscall_registry.py:197-221 | the two-level delete equals re-parsing all keys after the flat delete |
| SyscallRegistry.VersionedSyscallRegistry.Set | AINDY/kernel/syscall_registry.py:180-195 | the flat key is written and the views stay in step, for every key string |
| SyscallRegistry.VersionedSyscallRegistry.Link | AINDY/kernel/syscall_registry.py:190-195 | the write of the versioned view |
| SyscallRegistry.VersionedSyscallRegistry.Unlink | AINDY/kernel/syscall_registry.py:197-221 | the shared removal from the versioned view |
| SyscallRegistry.VersionedSyscallRegistry.Delete | AINDY/kernel/syscall_registry.py:197-203 | an absent key is an error and changes nothing; otherwise the views stay in step |
| SyscallRegistry.VersionedSyscallRegistry.Pop | AINDY/kernel/syscall_registry.py:214-221 | value, default or error, and the views stay in step even when a default is taken |
| SyscallRegistry.VersionedSyscallRegistry.Versions | AINDY/kernel/syscall_registry.py:234-236 | exactly the versions of the registered names |
| SyscallRegistry.GateFindsRegistered | AINDY/kernel/syscall_dispatcher.py:237-272 | the version gate reaches every registered name under that very name, parsable or not, fallback or not |
| SyscallRegistry.GateFindsOnlyRegistered | AINDY/kernel/syscall_dispatcher.py:237-272 | without fallback it reaches nothing else |
| SyscallRegistry.FallbackReachesStable | AINDY/kernel/syscall_dispatcher.py:237-272 | with fallback every parsable name of an unavailable version reaches exactly the stable syscall of the same action, if there is one; the version named unknown has no fallback |
| SyscallDispatch.SyscallDispatcher.Dispatch | AINDY/kernel/syscall_dispatcher.py:125-169 | for every call tree: context variables restored; one non-empty trace and unit id on every envelope below, inherited or from the context; success if and only if the name the gate looked up is registered, the caller holds that syscall's capability and names a user, the quota passes, the input is well-formed and the handler does not raise; every successful envelope in the tree is of a registered syscall whose capability that call's own context held; the unit's syscall count grew by the successful envelopes, its processor time by their durations, and is at most the nesting height over budget |
| SyscallDispatch.SyscallDispatcher.ResolveTraceContext | AINDY/kernel/syscall_dispatcher.py:173-227 | an active identity is inherited, otherwise one is established from the context or fresh ids; user and capabilities are the caller's |
| SyscallDispatch.SyscallDispatcher.Execute | AINDY/kernel/syscall_dispatcher.py:229-421 | the same guarantees for the ordered checks, the handler and the recording |
| SyscallDispatch.SyscallDispatcher.PassChecks | AINDY/kernel/syscall_dispatcher.py:236-314 | admits exactly when the name is registered, its capability held, a user named, the quota passes and the input is well-formed; the quota is consulted only after the first three; the unit's counts are unchanged, and within budget when admitted |
| SyscallDispatch.SyscallDispatcher.RunHandler | AINDY/kernel/syscall_dispatcher.py:330-385 | a handler's own dispatches are answered in order, keep identity, are each authorised by their own context and stay one level lower over budget |
| SyscallDispatch.SyscallDispatcher.Serve | AINDY/kernel/syscall_dispatcher.py:330-421 | an admitted call's handler and answer: the answer is its own, success exactly unless the handler raises, after the handler's own dispatches |
| SyscallDispatch.SyscallDispatcher.Finish | AINDY/kernel/syscall_dispatcher.py:376-421 | a raising handler is answered with an error and not recorded; else one syscall and its duration are recorded and answered with success |
| ResourceManager.CounterCountsLiveIff | AINDY/kernel/resource_manager.py:635-769 | a tenant's counter equals its live executions if and only if completions never outran starts, and never undercounts |
| ResourceManager.PublishedIff | AINDY/kernel/resource_manager.py:683-769 | the capacity event is published exactly on the completion that takes a tenant from its limit to one below |
| ResourceManager.NeverOverLimit | AINDY/kernel/resource_manager.py:517-666 | with check and start as one step, no tenant exceeds its limit over any run |
| ResourceManager.AlwaysWithinIff | AINDY/kernel/resource_manager.py:517-666 | as separate steps, a tenant stays within its limit throughout a run if and only if the check would still pass at every start |
| ResourceManager.CheckThenStartOvershoots | AINDY/kernel/resource_manager.py:517-666 | two callers that both passed the check take a limit of one to two |
| ResourceManager.LiveUsageKept | AINDY/kernel/resource_manager.py:517-816 | over every run a unit neither completed nor purged keeps its snapshot, and its syscall count is exactly what was recorded for it |
| ResourceManager.SnapshotIsRecorded | AINDY/kernel/resource_manager.py:773-816 | over such runs its processor time is the sum of what was recorded for it and its memory the highest value recorded |
| ResourceManager.TenantIsFirstKnown | AINDY/kernel/resource_manager.py:635-816 | its snapshot exists if and only if something named it, and carries the tenant known when it was first named |
| ResourceManager.QuotaPassesIff | AINDY/kernel/resource_manager.py:571-631 | from an empty manager, over every such run, the quota check passes if and only if nothing named the unit, or its tenant is below the concurrency limit and the recorded time and syscalls are within theirs |
| ResourceManager.NextCheckKeepsUsageIff | AINDY/kernel/resource_manager.py:517-769 | over every run the next purging step keeps a unit's snapshot if and only if the unit was not completed after the last purging step |
| ResourceManager.RestartedUsageIsPurged | AINDY/kernel/resource_manager.py:517-769 | a unit id started again after completing is live, yet the next check purges its usage |
| ResourceManager.ResourceManagerObject.MayExecute | AINDY/kernel/resource_manager.py:517-569 | exactly the completed units are purged, then a tenant is admitted exactly below its limit; no counter changes |
| ResourceManager.ResourceManagerObject.Check | AINDY/kernel/resource_manager.py:571-631 | the quota specification, purge included |
| ResourceManager.ResourceManagerObject.Begin | AINDY/kernel/resource_manager.py:635-666 | counter up, snapshot created unless present |
| ResourceManager.ResourceManagerObject.Finish | AINDY/kernel/resource_manager.py:683-769 | counter down unless zero, unit queued for purge, publication flag |
| ResourceManager.ResourceManagerObject.AddCpu | AINDY/kernel/resource_manager.py:773-780 | adds to the unit's snapshot, created when absent |
| ResourceManager.ResourceManagerObject.RaiseMemory | AINDY/kernel/resource_manager.py:782-789 | a high-water mark |
| ResourceManager.ResourceManagerObject.AddSyscalls | AINDY/kernel/resource_manager.py:791-801 | adds positive counts only |
| ResourceManager.ResourceManagerObject.RecordAll | AINDY/kernel/resource_manager.py:803-816 | the three records in sequence |
| ResourceManager.ResourceManagerObject.Purge | AINDY/kernel/resource_manager.py:871-880 | usage and tenant entries of that unit go, all others and the counters stay |
| SyscallQuota.SuccessBound | AINDY/kernel/syscall_dispatcher.py:296-402 | over every interleaving with everything else, a unit with at most k dispatches outstanding has at most budget + k successful ones |
| SyscallQuota.BoundAttained | AINDY/kernel/syscall_dispatcher.py:296-402 | for every budget and k some run reaches that bound exactly |
| Capabilities.CheckPassesIff | AINDY/agents/capability_service.py:348-594 | for every minted token and every run, user, tool and time: the check passes if and only if it is the token's own run and user, before expiry, a tool of the plan, a known approval mode, and (only for an empty agent type) the default agent's capabilities are covered |
| Capabilities.AutomaticGrantsAreSafe | AINDY/agents/capability_service.py:273-416 | outside manual approval every granted tool is registered as low-risk, unrestricted, and on the user's list, or without a list covered by the user's low-risk flag |
| Capabilities.MintedIff | AINDY/agents/capability_service.py:348-416 | a token is minted exactly when every planned tool has a capability and is registered and, without manual approval, automatic; and some capability is claimed |
| Capabilities.MintedHolds | AINDY/agents/capability_service.py:348-416 | a minted token carries exactly the planned tools and exactly the agent's and tools' capabilities, the request's run, user and mode, a day's validity and the hash of that |
| Capabilities.AutoGrantableIff | AINDY/agents/capability_service.py:273-308 | a tool is granted automatically exactly when it is registered, unrestricted and, with a list, on it and of low risk, or without one of low or medium risk with the flag for that risk set |
| Capabilities.OnlyLowIsAutomatic | AINDY/agents/capability_service.py:117-118 | the only risk level with automatic policy, in whatever case it is written, is low |
| Capabilities.CapsAre | AINDY/agents/capability_service.py:71-104 | a tool's and an agent's capabilities are exactly those the registries name |
| Capabilities.CheckIff | AINDY/agents/capability_service.py:422-594 | for every token, minted or not: the check passes if and only if run and user match, it has an execution token, a known mode, is unexpired, its hash is that of its claims restricted to known tools and capabilities, it grants the tool, and covers the tool's and the agent's capabilities |
| Capabilities.AlteredTokenFails | AINDY/agents/capability_service.py:422-594 | with an injective hash, a token that carries a minted token's hash and passes any check claims what was minted, apart from unknown names |
| Capabilities.GetAutoGrantableTools | AINDY/agents/capability_service.py:273-308 | the loop over the registered tools computes the set specified |
| Capabilities.GetGrantableTools | AINDY/agents/capability_service.py:311-345 | the loop grants all of the plan's tools or none, as specified on sets |
| Capabilities.GetPlanRequiredCapabilities | AINDY/agents/capability_service.py:126-136 | the loop collects the agent's and tools' capabilities, or none when some tool has none |
| EventBus.AtMostOnceInOrder | AINDY/kernel/event_bus.py:350-456 | over every interleaving of arrivals, rehydration and drains: each relevant event is in exactly one of handed over, under way, dropped, never handed over twice, and buffered ones are handed over in arrival order |
| EventBus.LostIffBufferedWhenFull | AINDY/kernel/event_bus.py:394-408 | over every run an event received is neither handed over nor under way if and only if it was to be buffered while a thousand were waiting |
| EventBus.BufferSettles | AINDY/kernel/event_bus.py:350-456 | after rehydration and without another drain, the buffer, the event in hand and what is dropped from then on are together what was buffered and in hand; something is dropped only if the buffer was full |
| EventBus.DrainDeliversIff | AINDY/kernel/event_bus.py:421-456 | after the start-up drain has settled, every event received was handed over once or dropped if and only if no event was in hand when the drain emptied the buffer |
| EventBus.DrainMissesEvent | AINDY/kernel/event_bus.py:350-456 | a run in which an event found to precede rehydration is buffered after the drain and stays there |
| EventBus.ReceivesWhatIsWanted | AINDY/kernel/event_bus.py:357-383 | over every run the events received are, in order, exactly those of well-formed messages of other instances, with their type and their correlation, an empty one counting as none |
| EventBus.EventBusObject.HandleMessage | AINDY/kernel/event_bus.py:350-418 | undisturbed: messages that are malformed or the bus's own change nothing; any other event is handed over after rehydration, and before it buffered unless a thousand are waiting |
| EventBus.EventBusObject.DrainBufferedEvents | AINDY/kernel/event_bus.py:421-456 | the buffer is handed over in order and empty afterwards |
| MemoryPaths.NormalShape | AINDY/memory/memory_address_space.py:64-92 | a normalised path is rooted, without double slashes and without a trailing slash |
| MemoryPaths.NormalizesIff | AINDY/memory/memory_address_space.py:64-92 | a path normalises if and only if, stripped, it starts with a slash and after its leading slashes with the letters memory |
| MemoryPaths.NormalizeKeepsSegments | AINDY/memory/memory_address_space.py:64-92 | normalising keeps the non-empty segments of the stripped path, in order |
| MemoryPaths.StripTakesSpace | AINDY/memory/memory_address_space.py:64-92 | stripping takes white space off both ends and nothing else |
| MemoryPaths.IdempotentIff | AINDY/memory/memory_address_space.py:64-92 | normalising again changes nothing if and only if cleaning left no white space before a trailing slash |
| MemoryPaths.JoinSplit | AINDY/memory/memory_address_space.py:117-183 | joining undoes splitting, for every string |
| MemoryPaths.SplitJoin | AINDY/memory/memory_address_space.py:117-183 | splitting undoes joining of slash-free parts |
| MemoryPaths.ParseBuiltIff | AINDY/memory/memory_address_space.py:117-183 | parsing a built path gives the components back if and only if they are slash-free and the last does not end in white space |
| MemoryPaths.BuildParsedIff | AINDY/memory/memory_address_space.py:117-183 | building what was parsed gives the normalised path if and only if it lies in the memory root proper, has a tenant and at most four components |
| MemoryPaths.BuildsIff | AINDY/memory/memory_address_space.py:148-183 | building succeeds if and only if there is a tenant and no component follows a missing one |
| MemoryPaths.GeneratedReadsBackIff | AINDY/memory/memory_address_space.py:186-195 | a generated path reads back as its components if and only if they are slash-free |
| MemoryPaths.WriteStaysUnderTenant | AINDY/memory/memory_address_space.py:95-294 | for every payload and every tenant an accepted write lies under its tenant, and a path the payload names is accepted only if it does |
| MemoryPaths.WriteAcceptedIff | AINDY/memory/memory_address_space.py:95-294 | which writes are accepted, in terms of the payload: without a path a tenant and some type; with one, that it normalises under the tenant and names a node or leaves a type to generate one |
| MemoryPaths.PathlessWrite | AINDY/memory/memory_address_space.py:262-294 | an accepted write without a path goes to the tenant, the payload's namespace or general, its address type or node type, and the fresh id, and these are what is returned |
| MemoryPaths.NamedWrite | AINDY/memory/memory_address_space.py:262-294 | an accepted write with a path takes namespace and type from its third and fourth segments, or the defaults, and keeps the path exactly when it has a fifth |
| MemoryPaths.WriteReadsBackIff | AINDY/memory/memory_address_space.py:262-294 | an accepted write reads back as the tenant, namespace and type returned, with a node id, if and only if the tenant and the payload fields that become segments are slash-free |
| MemoryPaths.NormalizeNotIdempotent | AINDY/memory/memory_address_space.py:64-92 | every canonical path given with a space and a slash behind it normalises differently the second time |
| MemoryPaths.BesideTheRootIsAccepted | AINDY/memory/memory_address_space.py:64-183 | every path beside the memory root is accepted, and rebuilding it leads into the root |
| MemoryTree.LastSlash | AINDY/memory/memory_address_space.py:212-224 | the last slash of a rooted path |
| MemoryTree.FileNodes | AINDY/memory/memory_address_space.py:299-318 | the first loop files every node under its path, derived when it has none, and lists every child under its parent; it fails exactly when some path has no parent path |
| MemoryTree.BuildTree | AINDY/memory/memory_address_space.py:198-324 | succeeds exactly when every path has a parent path, and then yields the tree specified per path: the last node given, and its children in the order given |
| MemoryTree.AddressableIff | AINDY/memory/memory_address_space.py:198-324 | that is the case if and only if every path that is given normalises; derived paths always do |
| MemoryTree.ChildrenAreFiled | AINDY/memory/memory_address_space.py:299-324 | children in the tree are exactly filed paths whose parent path is the key |
| MemoryTree.NodeAtIsLast | AINDY/memory/memory_address_space.py:299-318 | the node filed at a path is the last one given with it |
| MemoryTree.ChildrenInOrder | AINDY/memory/memory_address_space.py:299-324 | the children listed under a parent are in the order the nodes were given |
| MemoryTree.DerivedPath | AINDY/memory/memory_address_space.py:198-209 | the path of a node without one: its user, the legacy namespace, its type and its id, with the defaults for each |
| MemoryTree.Walk | AINDY/memory/memory_address_space.py:335-340 | the walk terminates and is the depth-first order: the node, then each child's walk in order |
| MemoryTree.WalkChildren | AINDY/memory/memory_address_space.py:335-340 | the loop over the children |
| MemoryTree.WalkListsBelow | AINDY/memory/memory_address_space.py:335-340 | a walk lists a node if and only if its chain of parents leads to the walk's path |
| MemoryTree.BuiltTreeIsShaped | AINDY/memory/memory_address_space.py:299-324 | in a built tree children are exactly the filed paths with that parent path, and paths grow downwards, so the walk applies |
| MemoryTree.LessIff | AINDY/memory/memory_address_space.py:327-345 | the order paths are sorted by: a proper prefix first, else the first differing character decides |
| MemoryTree.FlattenTree | AINDY/memory/memory_address_space.py:327-345 | yields one node per childless path, sorted by path |
| MemoryTree.FlattenKeepsAllIff | AINDY/memory/memory_address_space.py:327-345 | with distinct paths, flattening is a permutation of the nodes if and only if no node is the parent of another; otherwise exactly the parents are missing |
| MemoryTree.ListNodes | AINDY/memory/memory_address_space.py:299-345 | building and flattening: sorted by path, and with distinct paths a permutation of the given nodes if and only if no node is the parent of another |
| MemoryTree.ParentIff | AINDY/memory/memory_address_space.py:212-224 | on canonical paths below the root the parent path is the path without its last segment, and nothing else |
| MemoryTree.ParentIsRootIff | AINDY/memory/memory_address_space.py:212-224 | the parent is the memory root exactly for paths one segment below it and for one-segment paths |
| MemoryTree.WrittenNodesFlattenIff | AINDY/memory/memory_address_space.py:262-345 | for accepted writes at distinct paths: flattening is a permutation if and only if no written path is another with one more segment |
| MemoryTree.GeneratedNodesFlatten | AINDY/memory/memory_address_space.py:186-345 | nodes at paths as writes generate them are never lost |
| MemoryTree.LongPathIsAccepted | AINDY/memory/memory_address_space.py:262-294 | a named path with a fifth component is accepted as it is |
| MemoryTree.FlattenDropsParent | AINDY/memory/memory_address_space.py:327-345 | of two accepted writes, one a segment below the other, flattening returns only the lower one |

## Left out

- Redis and SQL transport, reconnects, retried commands whose first reply was lost, the Redis backend's own breaker, metrics and logging: they would add states without changing what a command does.
- JSON text: a document is modelled by the value it denotes, and a field of the wrong type counts as unreadable.
- The order Redis gives members of equal score (by raw text) and the order of HGETALL: the theorems allow every order.
- Delayed scores and ages are integers instead of floating-point seconds; only their order and differences matter.
- MemoryBackend.MemoryRefines: requires that no delayed job is pending, because the abstract machine has none; delayed jobs are covered by `MemoryQueue.Conservation`.
- RedisBackend.RedisQueueBackend.RequeueStaleJobs: describes a recovery undisturbed by other processes, because a method runs alone here; it is a run of `RedisProtocol` (`RecoveryIsProtocolRun`), where others interleave.
- The order in which concurrent in-process recoveries put their jobs back: any order is allowed.
- In-process calls are single steps; a thread switch inside one call is not modelled, except in a recovery.
- MemoryTree.WrittenNodesFlattenIff: leaves out written paths that end in white space, for which the condition is the one of `FlattenKeepsAllIff`.
- ExecutionUnits.BySource: units are kept in creation order, so ties of equal creation time are not modelled.
- How the retry policy of a unit is resolved: the policy is a parameter of the gate.
- The gate and the quota check returning normally after a database or backend exception.
- ResourceManager: only the local mode; the Redis counters, their failover and the testing switch are not modelled.
- The body of schema validation, syscall handlers and the flow runner: their outcomes are parameters.
- Capabilities.AlteredTokenFails: requires an injective hash; which documents the real hash tells apart is not modelled.
- Malformed token dictionaries and the catalogue tables behind capability mappings.
- EventBus: notify calls that raise, publishing, reconnecting, and the scheduler's own second buffer.
- Wildcard queries and the other read helpers of the memory address space.
- The worker loop, the scheduler's priority queues, leader election, the HTTP API and the database models.
