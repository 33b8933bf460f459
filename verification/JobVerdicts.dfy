/** What becomes of a job: its status settles, and the rows of a completed job are the rows of its query. */
module JobVerdicts {
  import opened Plans
  import opened StagePlanner
  import opened StageMeaning
  import opened Scheduling
  import opened JobStages
  import opened Protocol
  import opened StorageInvariant
  import opened OwnershipInvariant
  import opened TaskInvariants
  import opened DataInvariant
  import opened ProtocolInvariants
  import opened ProtocolFrame
  import opened TaskHistory

  // ---- The kind of a verdict ----

  datatype Kind = NoChange | IsCompleted | IsFailed | IsRunning

  predicate SomeTask(tasks: Tasks, jobId: string) {
    exists pid | pid in tasks :: pid.jobId == jobId
  }

  predicate SomeFailed(tasks: Tasks, jobId: string) {
    exists pid | pid in tasks :: pid.jobId == jobId && tasks[pid].Failed?
  }

  predicate SomeRunning(tasks: Tasks, jobId: string) {
    exists pid | pid in tasks :: pid.jobId == jobId && tasks[pid].Running?
  }

  predicate OfKind(kind: Kind, v: Option<JobStatus>) {
    match kind
    case NoChange => v.None?
    case IsCompleted => v.Some? && v.value.CompletedJob?
    case IsFailed => v.Some? && v.value.FailedJob?
    case IsRunning => v == Some(RunningJob)
  }

  /** The kind of the verdict is settled by the tasks alone, whatever order they are looked at in. */
  lemma VerdictKind(tasks: Tasks, executors: Executors, jobId: string, v: Option<JobStatus>)
    requires Verdict(tasks, executors, jobId, v)
    ensures OfKind(IsCompleted, v) <==> SomeTask(tasks, jobId) && AllCompleted(tasks, jobId)
    ensures OfKind(IsFailed, v) <==> SomeFailed(tasks, jobId)
    ensures OfKind(IsRunning, v) <==> SomeRunning(tasks, jobId) && !SomeFailed(tasks, jobId)
  {
  }

  // ---- Statuses settle ----

  ghost predicate Settled(s: State, j: string, kind: Kind) {
    && SaveEnded(s, j) && j in s.jobs && OfKind(kind, Some(s.jobs[j]))
    && match kind
       case IsCompleted => SomeTask(s.tasks, j) && AllCompleted(s.tasks, j)
       case IsFailed => SomeTask(s.tasks, j) ==> SomeFailed(s.tasks, j)
       case _ => false
  }

  /** The steps of a submission end with it. */
  lemma EndedIsOther(cfg: Config, s: State, step: Step, j: string)
    requires Enabled(cfg, s, step) && SaveEnded(s, j) && Submits(step)
    ensures step.jobId != j
  {
    hide Assignable, SearchOk, Verdict, Query, Output;
  }

  lemma SaveStaysEnded(cfg: Config, s: State, step: Step, j: string)
    requires Enabled(cfg, s, step) && SaveEnded(s, j)
    ensures SaveEnded(Apply(cfg, s, step), j) && step != SaveNext(j)
  {
    hide Enabled, Apply;
    StepFrame(cfg, s, step);
    if Submits(step) {
      EndedIsOther(cfg, s, step, j);
    }
  }

  /** No task is added to a job that is saved. */
  lemma NoMoreTasks(cfg: Config, s: State, step: Step, j: string, pid: PartitionId)
    requires Inv(cfg, s) && Enabled(cfg, s, step) && SaveEnded(s, j)
    ensures pid.jobId == j && pid in Apply(cfg, s, step).tasks ==> pid in s.tasks
  {
    hide Inv, Enabled, Apply, SaveEnded;
    EveryStatusStep(cfg, s, step, pid);
    SaveStaysEnded(cfg, s, step, j);
  }

  /** What the tasks of a saved job say of it does not change once they are all completed or one has failed. */
  lemma TasksSettled(cfg: Config, s: State, step: Step, j: string)
    requires Inv(cfg, s) && Enabled(cfg, s, step) && SaveEnded(s, j)
    ensures
      var tasks' := Apply(cfg, s, step).tasks;
      && (SomeTask(tasks', j) <==> SomeTask(s.tasks, j))
      && (AllCompleted(s.tasks, j) ==> AllCompleted(tasks', j))
      && (SomeFailed(s.tasks, j) ==> SomeFailed(tasks', j))
  {
    hide Inv, Enabled, Apply, SaveEnded, PlansKept, ExecutorsKept, JobsKept;
    StepIsLater(cfg, s, step);
    forall pid: PartitionId ensures pid.jobId == j && pid in Apply(cfg, s, step).tasks ==> pid in s.tasks {
      NoMoreTasks(cfg, s, step, j, pid);
    }
  }

  lemma JobSettled(cfg: Config, s: State, step: Step, j: string, kind: Kind)
    requires Inv(cfg, s) && Enabled(cfg, s, step) && Settled(s, j, kind)
    ensures
      var jobs' := Apply(cfg, s, step).jobs;
      j in jobs' && OfKind(kind, Some(jobs'[j]))
  {
    hide Inv, Enabled, Apply;
    StepFrame(cfg, s, step);
    if Submits(step) {
      EndedIsOther(cfg, s, step, j);
    } else if step.SyncJob? {
      hide OfKind, SaveEnded, SomeTask, SomeFailed, SomeRunning, AllCompleted;
      SyncedJobs(cfg, s, step.jobId, step.verdict);
      if step.jobId == j {
        SyncVerdict(cfg, s, j, step.verdict);
        JudgedKind(cfg, s);
        RecordedKind(s, j, step.verdict, kind);
      }
    }
  }

  lemma RecordedKind(s: State, j: string, v: Option<JobStatus>, kind: Kind)
    requires Settled(s, j, kind)
    requires OfKind(IsFailed, v) <==> SomeFailed(s.tasks, j)
    requires SomeTask(s.tasks, j) && AllCompleted(s.tasks, j) ==> OfKind(IsCompleted, v)
    requires !SomeTask(s.tasks, j) ==> v.None?
    ensures OfKind(kind, Some(if v.Some? then v.value else s.jobs[j]))
  {
  }

  // ---- What has been read of a job ----

  /** The read has seen whatever is stored of the job. */
  ghost predicate ReadWhole(s: State, j: string) {
    s.lock.Judged? && forall pid | pid in s.tasks && pid.jobId == j :: pid in s.lock.present
  }

  /** What has been read of a job says what its stored tasks say; only for a completed job does it matter whether
      something has been stored since. */
  lemma JudgedKind(cfg: Config, s: State)
    requires Inv(cfg, s) && s.lock.Judged?
    ensures
      var j, v := s.lock.jobId, s.lock.verdict;
      && (OfKind(IsFailed, v) <==> SomeFailed(s.tasks, j))
      && (OfKind(IsRunning, v) <==> SomeRunning(s.tasks, j) && !SomeFailed(s.tasks, j))
      && (SomeTask(s.tasks, j) && AllCompleted(s.tasks, j) ==> OfKind(IsCompleted, v))
      && (!SomeTask(s.tasks, j) ==> v.None?)
      && (OfKind(IsCompleted, v) ==> SomeTask(s.tasks, j) && ReadCompleted(s, j))
  {
    hide Inv, Verdict, OfKind;
    SnapshotOf(cfg, s);
    var j, v, kvs := s.lock.jobId, s.lock.verdict, s.lock.kvs;
    VerdictKind(kvs, s.executors, j, v);
    if !SomeTask(kvs, j) {
      NoVerdictWithoutTasks(kvs, s.executors, j, v);
    }
    SeenIsStored(s, j);
  }

  /** All that was stored of the job when the read began is completed. */
  ghost predicate ReadCompleted(s: State, j: string) {
    s.lock.Judged? && forall pid | pid in s.lock.present && pid.jobId == j :: IsCompletedTask(s.tasks, pid)
  }

  lemma SeenIsStored(s: State, j: string)
    requires s.lock.Judged? && s.lock.jobId == j && s.lock.present <= s.tasks.Keys
    requires NewArePending(s.tasks, s.lock.present) && ReadOf(s.lock.present, s.lock.kvs, s.tasks, j)
    ensures SomeFailed(s.lock.kvs, j) <==> SomeFailed(s.tasks, j)
    ensures SomeRunning(s.lock.kvs, j) <==> SomeRunning(s.tasks, j)
    ensures SomeTask(s.lock.kvs, j) ==> SomeTask(s.tasks, j)
    ensures SomeTask(s.tasks, j) && AllCompleted(s.tasks, j) ==> SomeTask(s.lock.kvs, j) && AllCompleted(s.lock.kvs, j)
    ensures AllCompleted(s.lock.kvs, j) ==> ReadCompleted(s, j)
  {
  }

  lemma SyncedJobs(cfg: Config, s: State, j: string, v: Option<JobStatus>)
    requires Enabled(cfg, s, SyncJob(j, v))
    ensures Apply(cfg, s, SyncJob(j, v)).jobs == if v.Some? then s.jobs[j := v.value] else s.jobs
  {
    hide Verdict, ReadOf, ComesTo, Assignable, SearchOk, Query;
  }

  lemma NoVerdictWithoutTasks(tasks: Tasks, executors: Executors, jobId: string, v: Option<JobStatus>)
    requires Verdict(tasks, executors, jobId, v) && !SomeTask(tasks, jobId)
    ensures v.None?
  {
  }

  lemma StepKeepsSettled(cfg: Config, s: State, step: Step, j: string, kind: Kind)
    requires Inv(cfg, s) && Enabled(cfg, s, step) && Settled(s, j, kind)
    ensures Settled(Apply(cfg, s, step), j, kind)
  {
    hide Inv, Enabled, Apply, SaveEnded, SomeTask, SomeFailed, AllCompleted, OfKind;
    SaveStaysEnded(cfg, s, step, j);
    TasksSettled(cfg, s, step, j);
    JobSettled(cfg, s, step, j, kind);
  }

  /** Over every run, a settled job stays settled. */
  lemma {:induction false} StaysSettled(cfg: Config, trace: seq<State>, steps: seq<Step>, i: nat, k: nat, j: string,
                                        kind: Kind)
    requires IsRun(cfg, trace, steps) && i <= k < |trace| && Settled(trace[i], j, kind)
    ensures Settled(trace[k], j, kind)
    decreases k
  {
    hide IsRun, Settled, Inv, Enabled, Apply;
    if i < k {
      RunLength(cfg, trace, steps);
      StaysSettled(cfg, trace, steps, i, k - 1, j, kind);
      RunStep(cfg, trace, steps, k - 1);
      StepKeepsSettled(cfg, trace[k - 1], steps[k - 1], j, kind);
    }
  }

  /** Recording a job as completed or failed settles it, if all of it was read. */
  lemma SyncSettles(cfg: Config, s: State, j: string, v: Option<JobStatus>, kind: Kind)
    requires Inv(cfg, s) && Enabled(cfg, s, SyncJob(j, v)) && SaveEnded(s, j) && ReadWhole(s, j)
    requires (kind.IsCompleted? || kind.IsFailed?) && OfKind(kind, v)
    ensures Settled(Apply(cfg, s, SyncJob(j, v)), j, kind)
  {
    hide Inv, Enabled, Apply, SomeTask, SomeFailed, SaveEnded;
    SyncVerdict(cfg, s, j, v);
    JudgedKind(cfg, s);
    StepFrame(cfg, s, SyncJob(j, v));
    SyncedJobs(cfg, s, j, v);
    SaveStaysEnded(cfg, s, SyncJob(j, v), j);
  }

  /** The read of job `j` that is recorded at step `i` began at step `b`. */
  ghost predicate ReadBegan(steps: seq<Step>, b: nat, i: nat, j: string) {
    b < i < |steps| && steps[b] == ReadJob(j) && forall k | b < k < i :: !steps[k].ReadJob?
  }

  /** While a read is not over, the lock remembers what was stored when it began. */
  ghost predicate ReadSince(s: State, s': State, j: string) {
    s'.lock.Reading? || s'.lock.Judged? ==> s'.lock.jobId == j && s'.lock.present == s.tasks.Keys
  }

  /** Only a new read replaces what the lock remembers of the last one. */
  ghost predicate KeepsRead(s: State, step: Step, lock': Lock) {
    && (step.ReadJob? ==> lock'.Reading? && lock'.jobId == step.jobId && lock'.present == s.tasks.Keys)
    && (!step.ReadJob? && (lock'.Reading? || lock'.Judged?) ==>
          && (s.lock.Reading? || s.lock.Judged?)
          && lock'.jobId == s.lock.jobId && lock'.present == s.lock.present)
  }

  lemma LockStepKeepsRead(cfg: Config, s: State, step: Step)
    requires Enabled(cfg, s, step) && Locks(step)
    ensures KeepsRead(s, step, Apply(cfg, s, step).lock)
  {
    hide Assignable, SearchOk, Verdict, Query, Output, ReadOf, ComesTo, DoSubmit, DoReject, DoStart, DoCut, DoSave;
    hide DoFinish, SetWorker, SaveReports;
  }

  lemma ReadStepKeeps(cfg: Config, s: State, step: Step)
    requires Enabled(cfg, s, step)
    ensures KeepsRead(s, step, Apply(cfg, s, step).lock)
  {
    hide Enabled, Apply;
    StepFrame(cfg, s, step);
    if Locks(step) {
      LockStepKeepsRead(cfg, s, step);
    }
  }

  lemma {:induction false} ReadGoesBack(cfg: Config, trace: seq<State>, steps: seq<Step>, b: nat, i: nat, k: nat,
                                        j: string)
    requires IsRun(cfg, trace, steps) && ReadBegan(steps, b, i, j) && b < k <= i && i < |trace|
    ensures ReadSince(trace[b], trace[k], j)
    decreases k
  {
    hide IsRun, Enabled, Apply, Inv;
    RunLength(cfg, trace, steps);
    RunStep(cfg, trace, steps, k - 1);
    ReadStepKeeps(cfg, trace[k - 1], steps[k - 1]);
    if k - 1 > b {
      ReadGoesBack(cfg, trace, steps, b, i, k - 1, j);
    }
  }

  /** Every recorded status was read: there is such a step. */
  lemma {:induction false} ReadWasBegun(cfg: Config, trace: seq<State>, steps: seq<Step>, i: nat)
    returns (b: nat)
    requires IsRun(cfg, trace, steps) && i < |trace| && (trace[i].lock.Reading? || trace[i].lock.Judged?)
    ensures b < i <= |steps| && steps[b] == ReadJob(trace[i].lock.jobId) && forall k | b < k < i :: !steps[k].ReadJob?
    decreases i
  {
    hide IsRun, Enabled, Apply, Inv;
    RunLength(cfg, trace, steps);
    NotReadingYet(cfg, trace, steps);
    RunStep(cfg, trace, steps, i - 1);
    ReadStepKeeps(cfg, trace[i - 1], steps[i - 1]);
    if steps[i - 1].ReadJob? {
      b := i - 1;
    } else {
      b := ReadWasBegun(cfg, trace, steps, i - 1);
    }
  }

  lemma NotReadingYet(cfg: Config, trace: seq<State>, steps: seq<Step>)
    requires IsRun(cfg, trace, steps)
    ensures trace[0].lock.Unlocked?
  {
  }

  /** Over every run: once saved, always saved, with the same tasks. */
  lemma {:induction false} StaysSaved(cfg: Config, trace: seq<State>, steps: seq<Step>, b: nat, i: nat, j: string)
    requires IsRun(cfg, trace, steps) && b <= i < |trace| && SaveEnded(trace[b], j)
    ensures SaveEnded(trace[i], j)
    ensures forall pid | pid in trace[i].tasks && pid.jobId == j :: pid in trace[b].tasks
    decreases i
  {
    hide IsRun, Enabled, Apply, Inv, SaveEnded;
    if b < i {
      RunLength(cfg, trace, steps);
      StaysSaved(cfg, trace, steps, b, i - 1, j);
      RunStep(cfg, trace, steps, i - 1);
      SaveStaysEnded(cfg, trace[i - 1], steps[i - 1], j);
      forall pid: PartitionId ensures pid.jobId == j && pid in trace[i].tasks ==> pid in trace[i - 1].tasks {
        NoMoreTasks(cfg, trace[i - 1], steps[i - 1], j, pid);
      }
    }
  }

  lemma ReadAfterSave(cfg: Config, trace: seq<State>, steps: seq<Step>, b: nat, i: nat, j: string,
                      v: Option<JobStatus>)
    requires IsRun(cfg, trace, steps) && ReadBegan(steps, b, i, j) && i < |trace| && steps[i] == SyncJob(j, v)
    requires SaveEnded(trace[b], j)
    ensures SaveEnded(trace[i], j) && ReadWhole(trace[i], j)
  {
    hide IsRun, Enabled, Apply, Inv, SaveEnded;
    RunStep(cfg, trace, steps, i);
    SyncVerdict(cfg, trace[i], j, v);
    ReadGoesBack(cfg, trace, steps, b, i, i, j);
    StaysSaved(cfg, trace, steps, b, i, j);
  }

  /** Over every run: once a job is recorded as completed or failed, by a synchronisation that began to read its tasks
      after the end of its save loop, no later step leaves that kind of status. */
  lemma VerdictIsFinal(cfg: Config, trace: seq<State>, steps: seq<Step>, b: nat, i: nat, k: nat, j: string,
                       v: Option<JobStatus>, kind: Kind)
    requires IsRun(cfg, trace, steps) && ReadBegan(steps, b, i, j) && i < k < |trace|
    requires steps[i] == SyncJob(j, v) && SaveEnded(trace[b], j)
    requires (kind.IsCompleted? || kind.IsFailed?) && OfKind(kind, v)
    ensures j in trace[k].jobs && OfKind(kind, Some(trace[k].jobs[j]))
  {
    hide IsRun, Inv, Enabled, Apply, SaveEnded, SomeTask, SomeFailed, AllCompleted, ReadWhole;
    RunStep(cfg, trace, steps, i);
    ReadAfterSave(cfg, trace, steps, b, i, j, v);
    SyncSettles(cfg, trace[i], j, v, kind);
    StaysSettled(cfg, trace, steps, i + 1, k, j, kind);
  }

  // ---- The rows of a completed job ----

  /** The reader over the last stage of a job gives the rows of the query, as soon as the tasks of that stage are
      completed. */
  lemma LastStageMeansQuery(cfg: Config, s: State, j: string, schema: Schema)
    requires Inv(cfg, s) && j in s.submissions && s.submissions[j].Saving?
    requires
      var sub := s.submissions[j];
      |sub.counts| == |sub.stages| > 0 && forall p: nat | p < sub.counts[|sub.stages| - 1] ::
        var pid := PartitionId(j, |sub.stages|, p);
        pid in s.tasks && s.tasks[pid].Completed?
    ensures
      var sub := s.submissions[j];
      var locations := StageLocations(s.tasks, s.executors, j, |sub.stages|, sub.counts[|sub.stages| - 1]);
      cfg.eng.Execute(s.stores, ShuffleReader(locations, schema)) == cfg.eng.Execute(map[], sub.plan)
  {
    hide Storage, GoodJobs, Ownership, Crew, Registered, Dependencies, AllRightPlans, Snapshot, StoredRows;
    hide OutputsThere, ReportsThere;
    hide Materialized, StagesById, Inline, WellStaged, Dag;
    var sub := s.submissions[j];
    var n := |sub.stages|;
    StageFacts(cfg.eng, s.submissions, j, n);
    forall p: nat | p < sub.counts[n - 1] ensures Done(s.tasks, s.executors, PartitionId(j, n, p)) {
      CompletedIsDone(cfg, s, PartitionId(j, n, p));
    }
    StageInPlace(cfg, s.tasks, s.executors, s.lock, s.submissions, s.stores, j, n, sub.counts[n - 1]);
    ReaderMeans(cfg.eng, StagesById(sub.stages), s.stores, j, n,
                StageLocations(s.tasks, s.executors, j, n, sub.counts[n - 1]), schema);
    LastStageInlines(cfg.eng, s.submissions, j);
  }

  lemma CompletedIsDone(cfg: Config, s: State, pid: PartitionId)
    requires Registered(cfg, s.tasks, s.executors, s.lock) && pid in s.tasks && s.tasks[pid].Completed?
    ensures Done(s.tasks, s.executors, pid)
  {
  }

  lemma LastStageInlines(eng: Engine, subs: Submissions, j: string)
    requires GoodJobs(eng, subs) && j in subs && subs[j].Saving?
    ensures
      var sub := subs[j];
      var m := StagesById(sub.stages);
      && |sub.stages| > 0 && |sub.stages| in m
      && StageTable(eng, m, |sub.stages|) == eng.Execute(map[], sub.plan)
  {
    hide StagesById, Inline, WellStaged, GoodStage;
    var sub := subs[j];
    assert GoodJob(eng, j, sub);
    assert sub.stages[|sub.stages| - 1].stageId == |sub.stages|;
  }

  /** A settled, completed job has its result. */
  lemma SettledHasResult(cfg: Config, s: State, j: string, schema: Schema)
    requires Inv(cfg, s) && Settled(s, j, IsCompleted)
    ensures j in s.submissions && s.submissions[j].Saving? && |s.submissions[j].counts| == |s.submissions[j].stages| > 0
    ensures
      var sub := s.submissions[j];
      var locations := StageLocations(s.tasks, s.executors, j, |sub.stages|, sub.counts[|sub.stages| - 1]);
      cfg.eng.Execute(s.stores, ShuffleReader(locations, schema)) == cfg.eng.Execute(map[], sub.plan)
  {
    hide Storage, GoodJobs, Ownership, Crew, Registered, Dependencies, AllRightPlans, Snapshot, StoredRows;
    hide OutputsThere, ReportsThere;
    hide SaveEnded;
    SavedJobHasTasks(s.tasks.Keys, s.plans, s.submissions, s, j);
    LastStageInlines(cfg.eng, s.submissions, j);
    var sub := s.submissions[j];
    forall p: nat | p < sub.counts[|sub.stages| - 1] ensures PartitionId(j, |sub.stages|, p) in s.tasks {
      assert PartitionId(j, |sub.stages|, p) in s.tasks.Keys;
    }
    LastStageMeansQuery(cfg, s, j, schema);
  }

  /** Over every run: from the moment a job is recorded as completed, by a synchronisation that began to read its tasks
      after the end of its save loop, the executors' work directories hold the result of its query, partition for
      partition, where the stored tasks say. */
  lemma CompletedJobHasResult(cfg: Config, trace: seq<State>, steps: seq<Step>, b: nat, i: nat, k: nat, j: string,
                              v: Option<JobStatus>, schema: Schema)
    requires IsRun(cfg, trace, steps) && ReadBegan(steps, b, i, j) && i < k < |trace|
    requires steps[i] == SyncJob(j, v) && SaveEnded(trace[b], j) && OfKind(IsCompleted, v)
    ensures j in trace[k].submissions && trace[k].submissions[j].Saving?
    ensures |trace[k].submissions[j].counts| == |trace[k].submissions[j].stages| > 0
    ensures
      var s := trace[k];
      var sub := s.submissions[j];
      var locations := StageLocations(s.tasks, s.executors, j, |sub.stages|, sub.counts[|sub.stages| - 1]);
      cfg.eng.Execute(s.stores, ShuffleReader(locations, schema)) == cfg.eng.Execute(map[], sub.plan)
  {
    hide IsRun, Inv, Enabled, Apply, SaveEnded, Settled, ReadWhole;
    RunStep(cfg, trace, steps, i);
    ReadAfterSave(cfg, trace, steps, b, i, j, v);
    SyncSettles(cfg, trace[i], j, v, IsCompleted);
    StaysSettled(cfg, trace, steps, i + 1, k, j, IsCompleted);
    RunInv(cfg, trace, steps, k);
    SettledHasResult(cfg, trace[k], j, schema);
  }

  /** All tasks of all planned stages of the job are stored and completed. */
  ghost predicate AllPlannedCompleted(s: State, j: string) {
    && j in s.submissions && s.submissions[j].Saving? && |s.submissions[j].counts| == |s.submissions[j].stages|
    && forall id, p: nat | 1 <= id <= |s.submissions[j].stages| && p < s.submissions[j].counts[id - 1] ::
         PartitionId(j, id, p) in s.tasks && s.tasks[PartitionId(j, id, p)].Completed?
  }

  lemma LastTaskNotWritten(keys: set<PartitionId>, plans: StagePlans, subs: Submissions, j: string)
    requires Storage(keys, plans, subs) && j in subs && subs[j].Saving? && subs[j].stage != |subs[j].stages|
    ensures |subs[j].counts| == |subs[j].stages| > 0 && subs[j].counts[|subs[j].stages| - 1] > 0
    ensures PartitionId(j, |subs[j].stages|, subs[j].counts[|subs[j].stages| - 1] - 1) !in keys
  {
    assert GoodCursor(subs[j]);
    var sub := subs[j];
    assert !TaskWritten(subs, PartitionId(j, |sub.stages|, sub.counts[|sub.stages| - 1] - 1));
  }

  /** Over every run: a synchronisation that records a job as completed is right about all of the job, and not just the
      tasks it has read, if and only if the job's save loop had ended when it began to read them. */
  lemma CompletedIsRightExactly(cfg: Config, trace: seq<State>, steps: seq<Step>, b: nat, i: nat, j: string,
                                v: Option<JobStatus>)
    requires IsRun(cfg, trace, steps) && ReadBegan(steps, b, i, j) && i < |trace| && steps[i] == SyncJob(j, v)
    requires OfKind(IsCompleted, v)
    ensures AllPlannedCompleted(trace[i], j) <==> SaveEnded(trace[b], j)
  {
    hide IsRun, Inv, Enabled, Apply, SaveEnded, AllPlannedCompleted, SomeTask, OfKind;
    RunStep(cfg, trace, steps, i);
    SyncVerdict(cfg, trace[i], j, v);
    JudgedKind(cfg, trace[i]);
    ReadGoesBack(cfg, trace, steps, b, i, i, j);
    if SaveEnded(trace[b], j) {
      ReadAfterSave(cfg, trace, steps, b, i, j, v);
      WholeIsCompleted(cfg, trace[i], j);
    } else {
      RunStep(cfg, trace, steps, b);
      LatePlannedTask(cfg, trace, steps, b, i, j);
    }
  }

  lemma WholeIsCompleted(cfg: Config, s: State, j: string)
    requires Inv(cfg, s) && SaveEnded(s, j) && SomeTask(s.tasks, j) && ReadWhole(s, j) && ReadCompleted(s, j)
    ensures AllPlannedCompleted(s, j)
  {
    hide Storage, GoodJobs, Ownership, Crew, Registered, Dependencies, AllRightPlans, Snapshot, StoredRows;
    hide OutputsThere, ReportsThere;
    hide SaveEnded, SomeTask;
    SavedJobHasTasks(s.tasks.Keys, s.plans, s.submissions, s, j);
    var sub := s.submissions[j];
    forall id, p: nat | 1 <= id <= |sub.stages| && p < sub.counts[id - 1]
      ensures PartitionId(j, id, p) in s.tasks && s.tasks[PartitionId(j, id, p)].Completed?
    {
      assert PartitionId(j, id, p) in s.tasks.Keys;
      assert IsCompletedTask(s.tasks, PartitionId(j, id, p));
    }
  }

  /** If the job was not saved when its read began, then a planned task was not stored then, and is pending or still not
      stored when the status is recorded. */
  lemma LatePlannedTask(cfg: Config, trace: seq<State>, steps: seq<Step>, b: nat, i: nat, j: string)
    requires IsRun(cfg, trace, steps) && b < i < |trace| && !SaveEnded(trace[b], j)
    requires trace[i].lock.Judged? && trace[i].lock.present == trace[b].tasks.Keys
    ensures !AllPlannedCompleted(trace[i], j)
  {
    hide IsRun, Storage, GoodJobs, Ownership, Crew, Registered, Dependencies, AllRightPlans, StoredRows;
    hide OutputsThere, ReportsThere, Verdict, ReadOf, PlansKept, ExecutorsKept;
    RunInv(cfg, trace, steps, b);
    RunInv(cfg, trace, steps, i);
    RunIsLater(cfg, trace, steps, b, i);
    if AllPlannedCompleted(trace[i], j) {
      var sub := trace[i].submissions[j];
      PlannedHasTask(cfg.eng, trace[i].submissions, j);
      var last := PartitionId(j, |sub.stages|, sub.counts[|sub.stages| - 1] - 1);
      assert last in trace[i].tasks && trace[i].tasks[last].Completed?;
      assert last in trace[b].tasks.Keys;
      LastStoredIsSaved(trace[b], trace[i], j, last);
      assert false;
    }
  }

  lemma PlannedHasTask(eng: Engine, subs: Submissions, j: string)
    requires GoodJobs(eng, subs) && j in subs && subs[j].Saving?
    ensures |subs[j].stages| == |subs[j].counts| > 0 && subs[j].counts[|subs[j].stages| - 1] > 0
  {
    hide GoodJobs, StagesById, Dag, WellStaged;
    LastStageInlines(eng, subs, j);
    StageFacts(eng, subs, j, |subs[j].stages|);
  }

  /** The last task is stored last. */
  lemma LastStoredIsSaved(s: State, s': State, j: string, last: PartitionId)
    requires Storage(s.tasks.Keys, s.plans, s.submissions) && JobsKept(s.submissions, s'.submissions)
    requires j in s'.submissions && s'.submissions[j].Saving?
    requires
      var sub := s'.submissions[j];
      && |sub.counts| == |sub.stages| > 0 && sub.counts[|sub.stages| - 1] > 0
      && last == PartitionId(j, |sub.stages|, sub.counts[|sub.stages| - 1] - 1)
    requires last in s.tasks.Keys
    ensures SaveEnded(s, j)
  {
    hide Storage;
    StoredTask(s.tasks.Keys, s.plans, s.submissions, last);
    if s.submissions[j].stage != |s.submissions[j].stages| {
      LastTaskNotWritten(s.tasks.Keys, s.plans, s.submissions, j);
      assert false;
    }
  }

  lemma SyncVerdict(cfg: Config, s: State, j: string, v: Option<JobStatus>)
    requires Enabled(cfg, s, SyncJob(j, v))
    ensures s.lock.Judged? && s.lock.jobId == j && s.lock.verdict == v
  {
    hide Verdict, ReadOf, ComesTo, Assignable, SearchOk, Query;
  }

  lemma SavedJobHasTasks(keys: set<PartitionId>, plans: StagePlans, subs: Submissions, s: State, j: string)
    requires Storage(keys, plans, subs) && s.tasks.Keys == keys && s.submissions == subs
    requires SaveEnded(s, j) && SomeTask(s.tasks, j)
    ensures j in subs && subs[j].Saving? && |subs[j].counts| == |subs[j].stages|
    ensures forall id, p: nat | 1 <= id <= |subs[j].stages| && p < subs[j].counts[id - 1] ::
      PartitionId(j, id, p) in keys
  {
    var pid :| pid in s.tasks && pid.jobId == j;
    assert TaskWritten(subs, pid);
    forall id, p: nat | 1 <= id <= |subs[j].stages| && p < subs[j].counts[id - 1]
      ensures PartitionId(j, id, p) in keys
    {
      assert TaskWritten(subs, PartitionId(j, id, p));
    }
  }

  // ---- From submission to planning ----

  /** What the stored status of a job says about its submission, and the other way round. */
  ghost predicate InPhase(s: State, j: string) {
    && (j in s.jobs <==> j in s.submissions)
    && (j in s.submissions ==>
          match s.submissions[j]
          case Accepted(_, _) => s.jobs[j] == Queued
          case Started(_, _) => s.jobs[j] == RunningJob
          case Saving(_, _, _, _, _) => s.jobs[j] != Queued
          case Aborted(message) => s.jobs[j] == FailedJob(message))
  }

  /** A job that is not being saved has no tasks, so a synchronisation leaves its status alone. */
  lemma OnlySavedJobsSync(cfg: Config, s: State, j: string, v: Option<JobStatus>)
    requires Inv(cfg, s) && s.lock.Judged? && s.lock.jobId == j && s.lock.verdict == v && v.Some?
    ensures j in s.submissions && s.submissions[j].Saving? && v != Some(Queued)
  {
    hide GoodJobs, Ownership, Crew, Registered, Dependencies, AllRightPlans, StoredRows, OutputsThere;
    hide ReportsThere, Storage, ListsJob;
    var pid :| pid in s.lock.kvs && pid.jobId == j;
    StoredTask(s.tasks.Keys, s.plans, s.submissions, pid);
  }

  /** The phases of the job the step is about. */
  lemma OwnPhase(cfg: Config, s: State, step: Step)
    requires Enabled(cfg, s, step) && Submits(step) && InPhase(s, step.jobId)
    ensures InPhase(Apply(cfg, s, step), step.jobId)
  {
    hide Assignable, SearchOk, Verdict, Query, Output, DoSave, DoFinish, DoBeginPoll, NoExecutors, QueryStages;
    hide CountsOf;
    if step.SaveNext? {
      SaveFrame(s, step.jobId);
    }
  }

  lemma SubmissionKeepsPhase(cfg: Config, s: State, step: Step, j: string)
    requires Enabled(cfg, s, step) && Submits(step) && InPhase(s, j) && InPhase(s, step.jobId)
    ensures InPhase(Apply(cfg, s, step), j)
  {
    hide Enabled, Apply;
    OwnPhase(cfg, s, step);
    StepFrame(cfg, s, step);
  }

  lemma StepKeepsPhase(cfg: Config, s: State, step: Step, j: string)
    requires Inv(cfg, s) && Enabled(cfg, s, step) && InPhase(s, j) && (Submits(step) ==> InPhase(s, step.jobId))
    ensures InPhase(Apply(cfg, s, step), j)
  {
    hide Inv, Enabled, Apply;
    StepFrame(cfg, s, step);
    if Submits(step) {
      SubmissionKeepsPhase(cfg, s, step, j);
    } else if step.SyncJob? {
      SyncedJobs(cfg, s, step.jobId, step.verdict);
      SyncVerdict(cfg, s, step.jobId, step.verdict);
      if step.verdict.Some? {
        OnlySavedJobsSync(cfg, s, step.jobId, step.verdict);
      }
    }
  }

  /** Over every run: a job is queued until its background work starts, running until it is planned, failed for good if
      there was no executor to plan for, and never queued again. */
  lemma {:induction false} RunInPhase(cfg: Config, trace: seq<State>, steps: seq<Step>, i: nat, j: string)
    requires IsRun(cfg, trace, steps) && i < |trace|
    ensures InPhase(trace[i], j)
    decreases i
  {
    hide IsRun, InPhase, Inv, Enabled, Apply;
    if i == 0 {
      NoJobsYet(cfg, trace, steps, j);
    } else {
      RunLength(cfg, trace, steps);
      RunInPhase(cfg, trace, steps, i - 1, j);
      RunStep(cfg, trace, steps, i - 1);
      if Submits(steps[i - 1]) {
        RunInPhase(cfg, trace, steps, i - 1, steps[i - 1].jobId);
      }
      StepKeepsPhase(cfg, trace[i - 1], steps[i - 1], j);
    }
  }

  lemma NoJobsYet(cfg: Config, trace: seq<State>, steps: seq<Step>, j: string)
    requires IsRun(cfg, trace, steps)
    ensures InPhase(trace[0], j)
  {
  }
}
