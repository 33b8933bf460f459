# Ballista in Dafny

A model of the parts of Ballista that decide whether a distributed query computes the right rows, and proofs about it:

- **The distributed planner and shuffle resolution.** A physical plan is cut into query stages connected by unresolved
  shuffles; stages run in order on executors that keep their outputs in per-executor stores. Operators are opaque: an
  `Engine` gives schema, partition count and rows of an operator as functions of its inputs, and everything is proved for
  every engine. The main result is that distributed execution computes, partition for partition, what running the plan in
  one place computes.
- **The task protocol between scheduler and executors.** A state machine with the interleavings the code allows: polls are
  served in phases under the global lock, submissions write plans and tasks one at a time without it, scans go up the
  keys, one task at a time, while submissions go on storing more, what the tasks say of a job is read first and recorded
  later, executors sample their channel, read their slots, free slots and send statuses each on its own, requests and
  replies get lost. An invariant is kept by every step, and from it follow, over every run: dependency safety,
  at-most-once dispatch, no deadlock in the search for work and exactly when it fails, slot conservation and exactly which
  tasks are lost, a balance of work done and work left, exactly when planning fails, where every error comes from, final
  job verdicts, and the right rows at the locations a completed job lists. Where
  the code falls short there is a concrete run that ends there, and the exact condition.
- **The scheduler's key-value store.** Keys are strings, scans go by prefix. The store refines a typed state, and the
  scheduler's methods on it are the protocol's steps.
- **Serialisation** of Arrow types, scalar types and values, and logical expressions: exactly what can be encoded, exactly
  what can be decoded, and round trips with their exact limits.

`dafny verify dfyconfig.toml` checks the project.

## Modules

| files | about |
|---|---|
| Plans, StagePlanner, ShuffleResolution, StageCuts, Planner, StageMeaning, DistributedExecution | planning, resolving and running stages |
| Scheduling, JobStages, TaskOrder, Protocol | what the scheduler decides, the order of its scans, and the protocol |
| StorageInvariant, OwnershipInvariant, TaskInvariants, DataInvariant, ProtocolInvariants, ProtocolFrame | the invariant |
| TaskHistory, DependencySafety, NoDeadlock, OrderedScans, Conservation, Termination, JobVerdicts, Synchronization, JobResults, FailureOrigins | theorems over runs |
| RunSteps, ExampleRuns, TornScanRun | runs in which something goes wrong |
| Keys, KeyValueStore, JobStatuses, StateOperations, SchedulerServices, ExecutionLoop, Refinement, JobSubmissions | the imperative code and how it fits |
| ArrowTypes, ScalarTypes, Scalars, Expressions | serialisation |

## Assumptions

- Operators are deterministic: the rows of a partition are a function of the operator and of its inputs' tables.
- Submitted plans come from DataFusion: no Ballista node in them, and `MergeExec` has one input (`InputPlan`).
- In the protocol, job ids are fresh, no stage of a submitted query is empty, and ids stay below 2^32 (`Query`); the
  direct execution of a query needs none of this. What happens with empty stages is stated by
  `JobStages.PlannedStagesAreGood`, `Scheduling.ResolvableWhenPopulated` and `Scheduling.OneShuffleResolvable`.
- Namespaces, job ids and executor ids contain no slash.
- A scan goes up the keys and sees every entry that is there all the time. Of what is stored while it runs, it may see
  anything that is still above it; `OrderedScans` is about scans that see all of that.
- Messages of the stored state round-trip through protobuf.
- DataFusion's binary operators are the fifteen of `Expressions.BinaryOp`; the type is DataFusion's and not part of the
  repository, and which operators the decoder does not know depends on it.
- Keys are compared by their bytes, which for UTF-8 is the order of their characters.

Where code and documentation disagree the model follows the code: `plan_query_stages` is documented to return no stage for
a plan that needs no cutting, but always adds a last stage; `CompletedJob` lists the partitions of all stages.

## Model

| member | source | states |
|---|---|---|
| Planner.DistributedPlanner.TryNew | rust/scheduler/src/planner.rs:51-62 | a planner is made exactly if there is an executor, and starts numbering stages at 1 |
| Planner.DistributedPlanner.NextStageId | rust/scheduler/src/planner.rs:201-204 | ids are consecutive |
| Planner.DistributedPlanner.PlanQueryStagesInternal | rust/scheduler/src/planner.rs:114-198 | the loop with its growing vectors computes `PlanStages`; it makes a stage for each edge that crosses a boundary, what is left of the plan has a shuffle below every boundary and nowhere else, and so has every stage that is not an input of a merge as it was submitted |
| Planner.DistributedPlanner.StageChildren | rust/scheduler/src/planner.rs:154-168 | every child becomes a stage of its own, replaced by a shuffle that names it; the same loop serves lines 179-193 |
| Planner.DistributedPlanner.PlanQueryStages | rust/scheduler/src/planner.rs:96-109 | the whole list of stages, one more than there are edges across boundaries, and the id counter moves by its length; the last stage is cut exactly at its boundaries, and all of them are if and only if no merge has a boundary below it |
| StageCuts.StageCount | rust/scheduler/src/planner.rs:114-198 | a query has one stage more than it has edges into a merge, a final aggregate, or an operator, other than a partial aggregate or a join, that does not keep the partition count of its first input |
| StageCuts.StagesCutRight | rust/scheduler/src/planner.rs:114-198 | in every stage the inputs of exactly these operators are shuffles and no others, except in the input of a merge, which is staged as it was submitted; that makes a difference if and only if there is such an operator below a merge |
| StageCuts.NestedMergeIsUncut | rust/scheduler/src/planner.rs:131-146 | the counterexample: the stage below the outer of two merges is the inner one, uncut |
| StageCuts.ShufflesAscend | rust/scheduler/src/planner.rs:114-198 | in every stage the shuffles, left to right, name strictly later stages, all of them before the stage itself |
| StagePlanner.QueryStages | rust/scheduler/src/planner.rs:102-108 | stages come out with consecutive ids in list order, the job's id on each |
| StagePlanner.PlanKeepsShape | rust/scheduler/src/planner.rs:114-198 | rewriting a plan keeps its schema and partition count |
| StagePlanner.QueryStagesInline | rust/scheduler/src/planner.rs:96-198 | replacing every shuffle by the stage it names, all the way down from the last stage, gives back exactly the plan that was submitted, also through the Merge branch; every shuffle names one strictly earlier stage and has its schema and partition count |
| StagePlanner.QueryStagesNamedOnce | rust/scheduler/src/planner.rs:136-193 | over all stages together, each stage is named by at most one shuffle, and the last by none |
| StagePlanner.NoBareShuffle | rust/scheduler/src/planner.rs:96-198 | no stage is itself an unresolved shuffle, the last one included |
| StagePlanner.LastStageShape | rust/scheduler/src/planner.rs:102-108 | the last stage has the schema and partition count of the query |
| ShuffleResolution.RemoveUnresolvedShuffles | rust/scheduler/src/planner.rs:236-269 | the nested loops compute `Resolve`, error cases included |
| ShuffleResolution.ResolveSucceeds | rust/scheduler/src/planner.rs:236-269 | resolution succeeds if and only if the plan is an operator, contains no reader, and every stage its shuffles read has locations |
| ShuffleResolution.ResolveKeepsForm | rust/scheduler/src/planner.rs:236-269 | a resolved plan has no shuffle left, the same operators in the same places, and the same schema and partition count at every node |
| ShuffleResolution.FoundInChild | rust/scheduler/src/state/mod.rs:365-378 | a shuffle is found in a plan exactly if it is found in one of its children |
| StageMeaning.ReaderMeans | rust/core/src/execution_plans/shuffle_reader.rs:77-99 | a reader, which asks for its own partition index, serves the rows of a stage if location `i` names partition `i` and points to where it is |
| StageMeaning.ReaderGoesByIndex | rust/core/src/execution_plans/shuffle_reader.rs:77-99 | what a reader serves does not depend on which partitions its locations name, only on where they point, and in which order |
| StageMeaning.ResolvedMeans | rust/scheduler/src/planner.rs:236-269 | a stage whose inputs are in place resolves, and running it gives the rows of the stage with its inputs inlined |
| StageMeaning.ExecuteFrame | rust/executor/src/flight_service.rs:104-126 | a resolved stage only depends on the stored partitions of the stages it reads |
| DistributedExecution.ChunksCover | rust/scheduler/src/planner.rs:295-301 | the chunks cover all partitions exactly once, in order |
| DistributedExecution.FewChunks | rust/scheduler/src/planner.rs:295-301 | `n` chunks at least and `2n - 1` at most for `n` executors, and as many as there are partitions if these are fewer than the executors |
| DistributedExecution.AtMostTwoChunks | rust/scheduler/src/planner.rs:309-332 | no executor gets more than two chunks, and each gets one if there are as many partitions as executors |
| DistributedExecution.RoundRobinIsFair | rust/scheduler/src/planner.rs:295-332 | with `n` different executors and `m` partitions: if `m < n` no executor is given two partitions, else each is given `m / n` at least and twice that at most; the first partition goes to the first executor |
| DistributedExecution.BuildLocations | rust/scheduler/src/planner.rs:308-317 | location `p` names partition `p` of the stage and the executor of its chunk, and different executors are given fair shares |
| DistributedExecution.BuildRequests | rust/scheduler/src/planner.rs:319-332 | every partition is sent once, to the executor its location names, and different executors are sent fair shares |
| DistributedExecution.Cluster.RunAll | rust/scheduler/src/planner.rs:325-351 | in whatever order the executions run, and whichever partitions fail: the others are written at their locations, with the stage's rows, nothing else changes, and it succeeds exactly if none fails; if an input is missing none succeeds and other stages stay as they are |
| DistributedExecution.Cluster.ExecuteQueryStage | rust/scheduler/src/planner.rs:280-359 | the same for a stage: it returns the locations in partition order exactly if no partition fails, fairly shared between different executors, and the partitions that do not fail are written either way |
| DistributedExecution.Cluster.Execute | rust/scheduler/src/planner.rs:207-234 | succeeds exactly if no partition of any stage fails, and then the reader returned serves the rows of the last stage with everything it reads inlined; stages are run up to the first that fails and no further, and in the end the work directories hold what those stages write, at the executor of its chunk, and are otherwise unchanged |
| DistributedExecution.Cluster.ExecuteDistributedQuery | rust/scheduler/src/planner.rs:70-89 | for every plan, every non-empty list of executors and every set of failing partitions: it succeeds exactly if none of the query's partitions fails, and then the returned reader gives, partition for partition, the rows of running the plan in one place, with its schema and partition count; if one fails no stage after it is run; and whatever happens, exactly what the stages that were run have written is new in the work directories |
| Scheduling.CollectKeys | rust/scheduler/src/state/mod.rs:199-243 | the search records locations for exactly the stages announced with at least one partition |
| Scheduling.CollectSimple | rust/scheduler/src/state/mod.rs:199-243 | for the planner's shuffles the recorded locations are the stage's own, in partition order |
| Scheduling.ResolvableWhenPopulated | rust/scheduler/src/state/mod.rs:199-244 | a task whose inputs are ready resolves if and only if every stage it reads is announced with a partition |
| Scheduling.OneShuffleResolvable | rust/scheduler/src/state/mod.rs:199-244 | with a single shuffle: if and only if that shuffle has a partition |
| Scheduling.EmptyShuffleUnresolvable | rust/scheduler/src/state/mod.rs:199-244 | the counterexample: a ready task over a stage of no partitions cannot be resolved |
| Scheduling.PassedOver | rust/scheduler/src/state/mod.rs:199-243 | a pending task is passed over if and only if the first of its inputs, in look-up order, that is not completed is there; what comes after that input is not looked up |
| Scheduling.SearchReturns | rust/scheduler/src/state/mod.rs:189-253 | over all orders of the hash map: the search can return a task if and only if looking at that task finds it ready, and nothing if and only if there is nothing to say about any task |
| Scheduling.SearchFails | rust/scheduler/src/state/mod.rs:189-253 | over all orders: the search can fail if and only if looking at some task fails |
| JobStages.PlannedStagesAreGood | rust/scheduler/src/planner.rs:96-198 | everything the scheduler relies on holds of planned stages (operators over distinct, earlier, non-empty stages, and inlining gives the query) if and only if no stage is empty |
| JobStages.PopulatedHasNoEmptyStage | rust/scheduler/src/planner.rs:96-198 | as is the case if no operator of the query is |
| StorageInvariant.StorageKeptBySave | rust/scheduler/src/lib.rs:365-398 | after every write of a save loop, what is stored is exactly what the loop's position says: whole earlier stages, then the plan, then the first tasks of the current one |
| StorageInvariant.SaveOnlyAdds | rust/scheduler/src/lib.rs:365-398 | a save loop adds pending tasks and plans, and never overwrites anything |
| OwnershipInvariant.SavedReport | rust/scheduler/src/lib.rs:128-137 | after saving reports, an unreported task is as before and a reported one has a reported status |
| OwnershipInvariant.BeginPollKeepsOwnership | rust/scheduler/src/lib.rs:128-137 | saving an executor's reports keeps every task in at most one place, stored as running there |
| OwnershipInvariant.AssignKeepsOwnership | rust/scheduler/src/state/mod.rs:246-250 | so does handing out a pending task |
| TaskInvariants.DependenciesKept | rust/scheduler/src/state/mod.rs:189-250 | no task leaves the pending state before all its inputs are completed |
| TaskInvariants.RightPlanKept | rust/scheduler/src/state/mod.rs:199-244 | a plan that reads its inputs where they were completed stays right, whatever is stored later |
| TaskInvariants.SnapshotReady | rust/scheduler/src/state/mod.rs:182-194 | what the scan saw as ready is still ready when it is assigned, however the store changed during the scan |
| DataInvariant.StageInPlace | rust/executor/src/flight_service.rs:104-126 | once all tasks of a stage are completed, its rows are where the stored tasks say, in partition order |
| DataInvariant.OutputIsRight | rust/executor/src/flight_service.rs:104-126 | running a task that was handed out succeeds and computes its partition of the stage with everything below it inlined |
| ProtocolInvariants.StorageIsClosed | rust/scheduler/src/lib.rs:365-398 | the order of the save loop guarantees that no stored task waits for a task that is not stored |
| ProtocolInvariants.StepKeepsInv | rust/scheduler/src/lib.rs:103-180 | every step of the protocol keeps the invariant |
| ProtocolInvariants.RunInv | rust/scheduler/src/lib.rs:103-399 | the invariant holds in every state of every run |
| TaskHistory.EveryStatusStep | rust/scheduler/src/lib.rs:128-165 | the only ways a stored status comes about: stored as pending by its own job, handed from pending to the polling executor, reported completed or failed by the executor it runs at |
| TaskHistory.RunIsLater | rust/scheduler/src/state/mod.rs:112-122 | over every run, statuses only move from pending to running to completed at the same executor or failed; stored plans, executors and stages never change |
| TaskHistory.HandedOutOnce | rust/scheduler/src/state/mod.rs:189-250 | over every run, each task is handed out at most once |
| TaskHistory.StaysWithItsExecutor | rust/scheduler/src/state/mod.rs:246-250 | over every run, a task is only ever running or completed at the executor it was handed to |
| DependencySafety.DependencySafe | rust/scheduler/src/state/mod.rs:189-250 | over every run, interleaved submissions included: from the moment a task is handed out, in every state, its plan has no unresolved shuffle, and each reader lists all partitions of an earlier stage, location `p` naming partition `p`, completed, at the executor that completed it |
| NoDeadlock.SomethingIsReady | rust/scheduler/src/state/mod.rs:189-253 | among tasks stored with all their inputs, following missing inputs to smaller stage ids ends at a ready task |
| NoDeadlock.StageResolves | rust/scheduler/src/state/mod.rs:244 | the plans of stored tasks always resolve |
| NoDeadlock.TornScan | rust/scheduler/src/state/mod.rs:182-234 | over every run, for whatever part of the stored tasks a scan returns: the search can fail if and only if the scan has a pending task and, of the tasks that one waits for, the first that is not completed is missing; and it fails by the panic at that look-up, never by an error |
| NoDeadlock.SearchFailsExactly | rust/scheduler/src/state/mod.rs:182-234 | over every run, with submissions storing tasks while a scan is under way: the same at every search; such a task was stored after the scan began, an input of it is stored but was not seen, a scan of just what was there when it began never fails, and where the search can fail it cannot come back with nothing |
| TornScanRun.TornScanFails | rust/scheduler/src/state/mod.rs:182-234 | the counterexample, with a scan strictly in the order of keys: ten of eleven tasks of a stage are stored and completed, the scan has gone up to `1/9`, then `1/10` and `2/0` are stored, the scan comes to `2/0` and ends, and the search can only fail |
| OrderedScans.OrderlyMiss | rust/scheduler/src/state/mod.rs:182-234 | over every run whose scans see all that is above them: a task misses an input only if a task of the same job is stored before that input but sorts between the input and the task |
| OrderedScans.SmallJobsNeverFail | rust/scheduler/src/state/mod.rs:182-234 | so, over every such run, no search fails as long as no query has ten stages or a stage of more than ten partitions |
| TaskOrder.KeysInOrder | rust/scheduler/src/state/mod.rs:411-424 | the order in which the protocol scans tasks is that of their keys, in every namespace |
| NoDeadlock.SearchFindsWork | rust/scheduler/src/state/mod.rs:189-253 | over every run, also while tasks are being stored: if a job has a pending task that was stored when the scan began, and nothing running or failed, the search has a task of that job to return and cannot return nothing |
| Conservation.SlotsConserved | rust/executor/src/execution_loop.rs:79-110 | over every run: free slots plus tasks in flight make `concurrent_tasks`, the counter never goes below zero, and a task that arrives is new and has a free slot |
| Conservation.RunningIsHeld | rust/executor/src/execution_loop.rs:38-110 | over every run, lost polls included: a task is stored as running at an executor if and only if the executor holds it, on its way there, in flight or on its way back, or a poll was lost with it; and it is held in one place at most |
| Conservation.HeldBalance | rust/executor/src/execution_loop.rs:38-110 | the balance of every step: what an executor holds after it, and what it reported or lost, is what it held before and was handed |
| Conservation.StrandedByLossOnly | rust/executor/src/execution_loop.rs:44-71 | a step leaves a task stored as running with nobody if and only if it was so before, or the step loses a poll that reported it or was answered with it |
| Conservation.StrandedExactly | rust/executor/src/execution_loop.rs:44-71 | over every run: such tasks are exactly those with which a poll was lost |
| Conservation.StrandedForGood | rust/executor/src/execution_loop.rs:44-71 | over every run, such a task stays stored as running with nobody for good |
| ExampleRuns.LostReplyStrands | rust/executor/src/execution_loop.rs:44-71 | the counterexample: a run in which the reply that hands out the only task gets lost, and the task is stranded |
| Termination.StepMeasure | rust/scheduler/src/lib.rs:128-165 | the measure 2 * pending + running goes down by one with every dispatch and every report, and up by two with every task stored |
| Termination.WorkBalances | rust/scheduler/src/lib.rs:128-165 | at every point of every run, dispatches and reports done and the measure left make two for each task stored |
| Termination.WorkIsBounded | rust/scheduler/src/lib.rs:128-165 | while no task is added there are at most as many dispatches and reports as the measure said |
| Termination.VerdictExists | rust/scheduler/src/state/mod.rs:294-350 | a job's tasks always say something about it |
| Termination.StopsWhenDone | rust/scheduler/src/state/mod.rs:177-254 | a run without lost polls and failed tasks, with an executor that takes tasks, that can make no more progress, not even by a search that fails, has saved every job and completed every task |
| JobVerdicts.RunInPhase | rust/scheduler/src/lib.rs:269-357 | over every run: a job is queued until its background work starts, running until it is planned, failed for good, with the error, if its submission was given up, and never queued again |
| JobSubmissions.SubmittedOnce | rust/scheduler/src/lib.rs:260-281 | over every run: each job is submitted once |
| JobSubmissions.WasSubmitted | rust/scheduler/src/lib.rs:248-281 | over every run: whatever is under way for a job was submitted before |
| JobSubmissions.PlanningFailsExactly | rust/scheduler/src/lib.rs:248-351 | over every run: a job that comes to be planned fails with the planner's error if and only if no executor was registered when it was submitted, whoever has registered since; otherwise it is running and the stages of the submitted plan are saved next |
| JobSubmissions.PlannerErrorIsFinal | rust/scheduler/src/lib.rs:288-351 | over every run: a job the planner has failed stays failed with that error |
| FailureOrigins.RunHasOrigins | rust/executor/src/execution_loop.rs:93-140 | over every run: every completed status, stored or on its way, goes back to a step at which that executor ended that task without error, and every failed one to a step at which the task ended with an error, whose text the status ends with |
| FailureOrigins.RunJobHasOrigin | rust/scheduler/src/state/mod.rs:318-350 | over every run: the error of a failed job is the one its plan was rejected with, the planner's, or that of a step at which one of its own tasks ended with an error |
| JobVerdicts.VerdictKind | rust/scheduler/src/state/mod.rs:300-350 | completed if and only if there are tasks and all are completed; failed if and only if one has failed; running if and only if one is running and none has failed |
| JobVerdicts.VerdictIsFinal | rust/scheduler/src/state/mod.rs:261-292 | over every run: once a job is recorded as completed or failed, by a synchronisation that began to read its tasks after the end of its save loop, no later step leaves that kind |
| JobVerdicts.ReadWasBegun | rust/scheduler/src/state/mod.rs:275-288 | over every run: whatever is recorded of a job was read before, in a read that began at a step of its own |
| Synchronization.PollSyncsEachJobOnce | rust/scheduler/src/state/mod.rs:261-292 | over every run: between the moment a poll turns to the jobs and its end, the status of each job is recorded once if the poll brought a report and the job was there at that moment, and not at all otherwise |
| JobVerdicts.JudgedKind | rust/scheduler/src/state/mod.rs:275-288 | what has been read of a job, while tasks were being stored, is failed or running if and only if the stored tasks say so when it is recorded; only completed may be out of date |
| JobVerdicts.LastStageMeansQuery | rust/scheduler/src/state/mod.rs:261-350 | as soon as the tasks of the last stage are completed, a reader over their locations gives the rows of the query |
| JobVerdicts.CompletedJobHasResult | rust/scheduler/src/state/mod.rs:261-350 | over every run: from the moment a job is recorded as completed, by a synchronisation that began to read its tasks after the end of its save loop, the executors hold the rows of its query, partition for partition, where the stored tasks say |
| JobResults.LocationsAreServed | rust/scheduler/src/state/mod.rs:318-335 | over every run, from the moment a job is recorded as completed, whenever that is: each location of its status belongs to another partition of the job, and the executor it names serves the rows of that partition |
| JobResults.CompletedStatusServesQuery | rust/scheduler/src/lib.rs:240-399 | over every run, from the submission of a query to the status a client reads: if the job is recorded as completed by a synchronisation that began to read its tasks after the end of its save loop, then from that moment the locations of the status serve the rows of the submitted query, partition for partition |
| JobVerdicts.CompletedIsRightExactly | rust/scheduler/src/state/mod.rs:275-288 | over every run, whenever a job is recorded as completed: all tasks of all its planned stages are completed if and only if its save loop had ended when the synchronisation began to read its tasks |
| ExampleRuns.CompletedTooSoon | rust/scheduler/src/lib.rs:365-398 | the counterexample: a job is recorded as completed while its tasks are still being saved, and ends up completed, saved, and with a pending task |
| ExampleRuns.CompletedInTheGap | rust/scheduler/src/state/mod.rs:275-288 | the other counterexample: the job is read while its tasks are being saved, the save loop ends, and then the job is recorded as completed with a pending task |
| Keys.PrefixOfJoin | rust/scheduler/src/state/mod.rs:380-427 | for slash-free parts, a prefix of a key is a prefix of its parts, the last one possibly cut short |
| Keys.KeysInjective | rust/scheduler/src/state/mod.rs:384-427 | different tasks, stages, jobs and executors, in the same or different namespaces, have different keys |
| Keys.ScansAreExact | rust/scheduler/src/state/mod.rs:380-405 | a scan for executors, jobs or tasks of a namespace finds exactly those |
| Keys.JobScanFinds | rust/scheduler/src/state/mod.rs:407-409 | a scan for a job's tasks finds the tasks of every job whose id starts with its id |
| Keys.JobScanExact | rust/scheduler/src/state/mod.rs:407-409 | so it is exact if and only if no stored job id extends this one |
| Keys.SameLengthIsExact | rust/scheduler/src/lib.rs:260-267 | as with the ids the scheduler draws, all of one length |
| Keys.JobScanTooWide | rust/scheduler/src/state/mod.rs:407-409 | the counterexample: job `a` is credited with a task of job `ab` |
| Keys.JobIdReadBack | rust/scheduler/src/state/mod.rs:392-401 | the job id is read back from its key if and only if it has no slash |
| Keys.JobIdRead | rust/scheduler/src/state/mod.rs:392-401 | of any key, a job id is read exactly if it has four slashes |
| KeyValueStore.StandaloneClient.Get | rust/scheduler/src/state/standalone.rs:62-69 | the value stored, or nothing |
| KeyValueStore.StandaloneClient.GetFromPrefix | rust/scheduler/src/state/standalone.rs:71-85 | every entry under the prefix once, and no other, in ascending order of keys |
| KeyValueStore.StandaloneClient.Put | rust/scheduler/src/state/standalone.rs:88-96 | one key is written, all others stay |
| KeyValueStore.PutRefines | rust/scheduler/src/state/standalone.rs:88-96 | a write under a key writes that entry of the typed state and no other |
| KeyValueStore.PutElsewhere | rust/scheduler/src/state/standalone.rs:88-96 | other namespaces do not notice |
| KeyValueStore.GetRefines | rust/scheduler/src/state/standalone.rs:62-69 | a read of a key reads the typed state |
| KeyValueStore.TaskScan | rust/scheduler/src/state/mod.rs:182-187 | the scan of all tasks lists the typed tasks, each once, under its key |
| KeyValueStore.JobTaskScan | rust/scheduler/src/state/mod.rs:300-306 | the scan of a job's tasks lists those whose job id starts with its id |
| KeyValueStore.JobScan | rust/scheduler/src/state/mod.rs:262-265 | the scan of jobs lists the typed jobs |
| KeyValueStore.ExecutorScan | rust/scheduler/src/state/mod.rs:69-72 | the scan of executors lists the typed executors |
| JobStatuses.StatusFrom | rust/scheduler/src/state/mod.rs:307-350 | the two loops: all completed, else the first failure, else running if one runs, else nothing |
| JobStatuses.StatusesGiveVerdict | rust/scheduler/src/state/mod.rs:307-350 | statuses that list a job's tasks in any order give the job's verdict |
| JobStatuses.CreditedIsVerdict | rust/scheduler/src/state/mod.rs:294-350 | what the tasks found by the job's scan say is the job's verdict, as long as no stored job id extends the job's |
| JobStatuses.CurrentIsSynchronized | rust/scheduler/src/state/mod.rs:261-292 | and so for all jobs |
| StateOperations.CollectPartitions | rust/scheduler/src/state/mod.rs:206-240 | the innermost loop, exactly: it panics if and only if the first task that is not completed is missing or was completed at an unknown executor, gives up if and only if that task is there, and else pushes the stage's locations in order |
| StateOperations.CollectLocations | rust/scheduler/src/state/mod.rs:199-243 | all three loops, exactly, over all look-ups in order: panic, give up, or compute `Collect` |
| StateOperations.SchedulerState.TryTask | rust/scheduler/src/state/mod.rs:190-252 | looking at one pending task: an error if its plan is missing or does not resolve, a panic if a look-up fails, nothing if it has to wait, else the task |
| StateOperations.SchedulerState.SearchTasks | rust/scheduler/src/state/mod.rs:189-253 | the search through whatever part of the stored tasks a scan has returned, in some order of the hash map: it ends with the first task there is something to say about |
| StateOperations.SchedulerState.SaveExecutorMetadata | rust/scheduler/src/state/mod.rs:80-85 | the typed state has the executor under its id |
| StateOperations.SchedulerState.SaveJobMetadata | rust/scheduler/src/state/mod.rs:87-97 | the typed state has the job's status |
| StateOperations.SchedulerState.SaveTaskStatus | rust/scheduler/src/state/mod.rs:112-122 | the typed state has the task's status |
| StateOperations.SchedulerState.SaveStagePlan | rust/scheduler/src/state/mod.rs:144-157 | the typed state has the stage's plan |
| StateOperations.SchedulerState.GetStagePlan | rust/scheduler/src/state/mod.rs:159-175 | the stored plan, or an error |
| StateOperations.SchedulerState.GetJobMetadata | rust/scheduler/src/state/mod.rs:99-110 | the stored status, or an error |
| StateOperations.SchedulerState.GetExecutorsMetadata | rust/scheduler/src/state/mod.rs:66-78 | all stored executors and no others |
| StateOperations.SchedulerState.AssignNextSchedulableTask | rust/scheduler/src/state/mod.rs:177-254 | it ends as the order of the hash map says: the first task that is ready, resolved and now running at the executor, or the first error or panic, or nothing; if it fails nothing has changed |
| StateOperations.SchedulerState.GetJobStatusFromTasks | rust/scheduler/src/state/mod.rs:294-350 | what the statuses of all tasks say whose job id starts with this one; the job's verdict if no stored job id extends it |
| StateOperations.SchedulerState.SynchronizeJobStatus | rust/scheduler/src/state/mod.rs:261-292 | every job gets the status that the tasks its scan finds call for, its own tasks if no stored job id extends it; no job is added or lost |
| SchedulerServices.SchedulerServer.PollWork | rust/scheduler/src/lib.rs:103-180 | executor and reports are saved, then a task is assigned if asked for, then every job is synchronised if anything was reported; it fails if and only if the metadata is missing, and then nothing has changed, or the search, in the order it goes, fails, and then executor and reports are saved and nothing else has changed |
| SchedulerServices.SchedulerServer.SaveAll | rust/scheduler/src/lib.rs:365-398 | the save loop writes every stage's plan and its pending tasks |
| SchedulerServices.SchedulerServer.ExecuteQuery | rust/scheduler/src/lib.rs:240-399 | on its own, a submission ends with all planned stages saved and the job running, or with the job failed, with the error if the query cannot be planned, or for lack of an executor |
| Refinement.SearchNeverFails | rust/scheduler/src/state/mod.rs:189-253 | over every run, in every state: a search through a scan read at one instant cannot fail, in whatever order it goes |
| Refinement.SearchMatchesProtocol | rust/scheduler/src/state/mod.rs:189-253 | for whatever a scan has seen: each way the search can end is a step of the protocol with the same effect on the store, and each of these steps is a way it can end |
| Refinement.ScanMatchesProtocol | rust/scheduler/src/state/mod.rs:182-187 | scanning task by task, in any order, while nothing else happens, reads the whole store |
| Refinement.PollMatchesProtocol | rust/scheduler/src/lib.rs:115-165 | the typed effect of a poll up to its search is that of the protocol's steps |
| Refinement.ExecutorsAreSound | rust/executor/src/execution_loop.rs:46-95 | over every run, executors are as `Executor.Valid` says, and a task they are answered with is one they do not have, with a free slot for it: what `Executor.RunReceivedTask` and `Executor.PollRound` rely on |
| Refinement.SyncMatchesProtocol | rust/scheduler/src/state/mod.rs:261-292 | reading and recording all jobs step by step, in any order, while nothing else happens, gives what `SynchronizeJobStatus` promises |
| Refinement.SaveStagesExact | rust/scheduler/src/lib.rs:365-398 | the save loop adds exactly the tasks of the stages, all pending, with ids cut to 32 bits, whatever their number |
| Refinement.TaskOfSmall | rust/scheduler/src/lib.rs:380-398 | with fewer than 2^32 stages and partitions that is one task for each partition of each stage |
| Refinement.SavePlansExact | rust/scheduler/src/lib.rs:365-379 | and exactly the stages' plans |
| Refinement.SaveMatchesProtocol | rust/scheduler/src/lib.rs:365-398 | these are the tasks the protocol's save steps have written when they reach the end |
| JobSubmissions.SubmissionMatchesProtocol | rust/scheduler/src/lib.rs:240-399 | a submission that nothing interrupts, from its first step to the last write of its save loop, leaves behind exactly what `ExecuteQuery` does, whether it is rejected, cannot be planned or is saved |
| JobSubmissions.SubmissionCanRun | rust/scheduler/src/lib.rs:240-399 | wherever a query can be submitted there is such a run |
| ExecutionLoop.Executor.SampleTasksStatus | rust/executor/src/execution_loop.rs:142-160 | the channel is drained, oldest status first; what the executor has and what was drained is what it had |
| ExecutionLoop.Executor.RunReceivedTask | rust/executor/src/execution_loop.rs:79-95 | a new task takes a free slot: the counter stays at zero or above, slots still add up, and every task is in one place |
| ExecutionLoop.Executor.TaskDone | rust/executor/src/execution_loop.rs:95-109 | the slot is free again and the outcome not yet in the channel; slots add up, and the executor has the tasks it had |
| ExecutionLoop.Executor.SendStatus | rust/executor/src/execution_loop.rs:105-109 | the outcome is in the channel, behind those already there; the executor has the tasks it had |
| ExecutionLoop.Executor.RunSpawned | rust/executor/src/execution_loop.rs:93-109 | whatever spawned tasks do while the loop waits, slots only become free and every task stays in one place |
| ExecutionLoop.Executor.PollRound | rust/executor/src/execution_loop.rs:41-76 | a whole round: a task is taken only if a free slot was advertised, there still is one when it arrives, and the tasks the executor has and those it reported are the ones it had and the one it was given |
| ArrowTypes.TypeRoundTrip | rust/core/src/serde/logical_plan/to_proto.rs:115-348 | decoding an encoded type gives it back with empty timezones turned into none |
| ArrowTypes.TypeComesBack | rust/core/src/serde/logical_plan/to_proto.rs:115-348 | a type comes back as it was if and only if no timezone in it is the empty string |
| ArrowTypes.DecodersAgree | rust/core/src/serde/logical_plan/from_proto.rs:319-429 | the decoder of the enum and that of the message agree on every message |
| ArrowTypes.TypeDecodesExactly | rust/core/src/serde/logical_plan/from_proto.rs:319-429 | decoding succeeds exactly if at every level the parts are there and the numbers of units known |
| ArrowTypes.FieldRoundTrip | rust/core/src/serde/logical_plan/from_proto.rs:991-1006 | a field comes back with its name and nullability, its type in normal form |
| ScalarTypes.FlattenList | rust/core/src/serde/logical_plan/to_proto.rs:409-462 | the loop over nested lists succeeds exactly if the innermost type is one a scalar can have, and yields all field names, outermost first, and that type, from which the list type can be read back with its fields nullable |
| ScalarTypes.DecodeDatatype | rust/core/src/serde/logical_plan/from_proto.rs:268-317 | the reversed loop nests lists under the names, all nullable |
| ScalarTypes.DecodeScalarListType | rust/core/src/serde/logical_plan/from_proto.rs:655-687 | the other reversed loop gives the same, so the two list decoders agree on every message |
| ScalarTypes.ScalarTypeDecodesExactly | rust/core/src/serde/logical_plan/from_proto.rs:268-317 | decoding succeeds exactly on known numbers, with a field name at least if it is a list |
| ScalarTypes.EncodesExactly | rust/core/src/serde/logical_plan/to_proto.rs:351-488 | encoding succeeds exactly on the sixteen primitive types of scalars and lists of them nested to any depth, and the check without lists accepts exactly those sixteen and every list |
| ScalarTypes.ScalarTypeRoundTrip | rust/core/src/serde/logical_plan/to_proto.rs:377-488 | decoding an encoded type gives it back with every nested list field nullable |
| ScalarTypes.ScalarTypeComesBack | rust/core/src/serde/logical_plan/to_proto.rs:377-488 | a type comes back as it was if and only if every nested list field is nullable |
| Scalars.FlatRoundTrip | rust/core/src/serde/logical_plan/to_proto.rs:499-553 | every scalar of a kind the messages provide for, nulls included, can be encoded and comes back unchanged, narrow integers through their truncating casts |
| Scalars.ScalarEncodesExactly | rust/core/src/serde/logical_plan/to_proto.rs:490-645 | encoding succeeds exactly on values of a kind the messages provide for and on lists of a valid type whose items are valid and of the item type, of nested lists only the kind of their items being compared; it panics exactly on items under a type that is no list, and no nested value does |
| Scalars.ScalarDecodesExactly | rust/core/src/serde/logical_plan/from_proto.rs:717-772 | decoding succeeds exactly if the value is there, its types are well-formed, so are all items, and a null names a type other than null |
| Scalars.NarrowingWraps | rust/core/src/serde/logical_plan/from_proto.rs:717-772 | numbers too big for their type lose their upper bits |
| Scalars.ScalarRoundTrip | rust/core/src/serde/logical_plan/to_proto.rs:490-645 | every valid value, of any list nesting, can be encoded, and decoding gives it back with every nested list field nullable |
| Scalars.ScalarComesBack | rust/core/src/serde/logical_plan/to_proto.rs:490-645 | a valid value comes back as it was if and only if all list fields in it are nullable |
| Scalars.NullabilityIsLost | rust/core/src/serde/logical_plan/from_proto.rs:655-687 | the counterexample: a null list of integers that may not be null comes back as one of integers that may |
| Expressions.OperatorsComeBack | rust/core/src/serde/logical_plan/from_proto.rs:935-955 | operator names come back, except for the two the decoder does not know |
| Expressions.EncodesExactly | rust/core/src/serde/logical_plan/to_proto.rs:938-1141 | encoding succeeds exactly without variables, user-defined functions, aggregates without arguments and invalid scalars, and panics exactly if the first part that cannot be encoded is one the encoder does not handle |
| Expressions.DecodesExactly | rust/core/src/serde/logical_plan/from_proto.rs:777-955 | decoding succeeds exactly if at every level the required parts are there and operators, aggregate functions, types and scalars are well-formed |
| Expressions.ExprRoundTrip | rust/core/src/serde/logical_plan/from_proto.rs:777-955 | decoding an encoded expression succeeds if and only if it has no operator the decoder does not know, and then gives it with scalars and types in normal form, and aggregates reduced to their first argument and not distinct |
| Expressions.ExprComesBack | rust/core/src/serde/logical_plan/from_proto.rs:777-955 | an expression that can be encoded comes back as it was if and only if the decoder knows its operators, its aggregates have one argument and are not distinct, its list fields are nullable and no timezone is empty |
| Expressions.DistinctIsLost | rust/core/src/serde/logical_plan/from_proto.rs:777-955 | the counterexample: `count(distinct x)` comes back as `count(x)` |

## Left out

- Logical and physical plan serialisation: it goes through DataFusion builders and planners; stored stage plans count as round-tripping.
- The `DFTableAdapter` branch of the planner: it calls DataFusion planning.
- Scalar functions in expressions: they are decoded through DataFusion constructors.
- The decoders `ScalarListValue`, `scalar_value::Value` and `typechecked_scalar_value_conversion`: literals do not go through them.
- The etcd backend, leases and their expiry; executors that crash or restart and lose their work directory.
- A poll whose connection breaks while the scheduler is still serving it: in the protocol a poll is lost before it is served or after it is answered.
- In the protocol the list of jobs to synchronise is read at one instant. A job submitted later has no tasks, or only pending ones, which say nothing of it.
- StateOperations.SchedulerState.AssignNextSchedulableTask: as a method it scans the store at one instant; `SearchTasks` is about any scan, and scans that overlap with submissions are in the protocol (`NoDeadlock.SearchFailsExactly`).
- SchedulerServices.SchedulerServer.PollWork: the same.
- Refinement.SearchNeverFails: is about scans read at one instant; `TornScanRun.TornScanFails` is a scan that does fail.
- NoDeadlock.SearchFailsExactly: does not promise that every search has an answer, because where a scan has missed an input the code may be left with nothing but a panic (`TornScanRun.TornScanFails`).
- OrderedScans.OrderlyMiss: one direction; that every query with such tasks has a run in which a search fails is shown for one query only (`TornScanRun.TornScanFails`).
- A failure of the store itself: reads and writes succeed.
- The reports of one poll are saved in one step; nothing else reads or writes these entries before the lock is free.
- SchedulerServices.SchedulerServer.ExecuteQuery: optimising and physical planning are DataFusion's and come in as a parameter, a plan or an error; of the error text for a missing executor the model has the planner's part, without what is put in front of it.
- A partition that fails half-way through writing its file: a partition is written whole or not at all.
- gRPC, Arrow Flight streaming, file formats, statistics of written partitions, logging and timing.
- Clients: `collect`, data frames, JDBC, Python, and what a client makes of the locations in `CompletedJob`.
- Plan formatting and diagrams, `MemoryStream`, `CollectExec`: no property here depends on them.
- Field metadata other than name, type and nullability (dictionary ids): the encoder drops it.
- 64-bit wrap-around of stage counters and of the slot counter; the latter never goes below zero (`Conservation.SlotsConserved`).
