/** The scheduler's operations on the key-value store are the protocol's steps. */
module Refinement {
  import opened Plans
  import opened Scheduling
  import opened KeyValueStore
  import opened JobStatuses
  import opened StateOperations
  import opened SchedulerServices
  import opened Protocol
  import opened StorageInvariant
  import opened OwnershipInvariant
  import opened TaskInvariants
  import opened DataInvariant
  import opened ProtocolInvariants
  import opened NoDeadlock
  import opened Conservation
  import opened ExecutionLoop

  function ViewOf(s: State): View {
    View(s.tasks, s.plans, s.jobs, s.executors)
  }

  // ---- The search for a task ----

  /** Over every run, in every state: a search over all stored tasks cannot fail, in whatever order it goes. */
  lemma SearchNeverFails(cfg: Config, trace: seq<State>, steps: seq<Step>, i: nat, order: seq<PartitionId>)
    requires IsRun(cfg, trace, steps) && i < |trace| && IsOrder(trace[i].tasks, order)
    ensures SearchIn(trace[i].tasks, trace[i].plans, trace[i].executors, order).Ok?
  {
    hide IsRun, Inv, SearchOk, SearchIn, Misses, Assignable, Closed;
    var s := trace[i];
    RunInv(cfg, trace, steps, i);
    AllStoredIsClosed(cfg, s);
    TornScan(cfg, trace, steps, i, s.tasks);
    forall pid ensures !Misses(s.tasks, s.plans, pid) {
      NothingIsMissed(s.tasks, s.plans, pid);
    }
    SearchEndsWell(s.tasks, s.plans, s.executors, order);
  }

  lemma NothingIsMissed(tasks: Tasks, plans: StagePlans, pid: PartitionId)
    requires Closed(tasks.Keys, plans)
    ensures !Misses(tasks, plans, pid)
  {
    hide Closed, Inputs;
    if Misses(tasks, plans, pid) {
      var inputs := InputsOf(plans, pid);
      var n :| 0 <= n < |inputs| && inputs[n] !in tasks && CompletedBefore(tasks, inputs, n);
      InputKnown(tasks.Keys, plans, pid, n);
      assert false;
    }
  }

  /** The search of a poll, over whatever its scan has seen: each way it can end is a step of the protocol with the same
      effect, and each such step is a way it can end. */
  lemma SearchMatchesProtocol(cfg: Config, s: State, r: Outcome<Option<Task>>)
    requires s.lock.Scanned? && s.lock.executorId in s.workers
    ensures CanEnd(s.lock.kvs, s.plans, s.lock.executors, r) && r.Ok? ==>
      && Enabled(cfg, s, Assign(r.value))
      && ViewOf(Apply(cfg, s, Assign(r.value))) == Taken(ViewOf(s), s.lock.executorId, r.value)
    ensures CanEnd(s.lock.kvs, s.plans, s.lock.executors, r) && !r.Ok? ==>
      Enabled(cfg, s, FailPoll) && ViewOf(Apply(cfg, s, FailPoll)) == ViewOf(s)
    ensures r.Ok? && Enabled(cfg, s, Assign(r.value)) ==> CanEnd(s.lock.kvs, s.plans, s.lock.executors, r)
    ensures Enabled(cfg, s, FailPoll) ==>
      || CanEnd(s.lock.kvs, s.plans, s.lock.executors, Err)
      || CanEnd(s.lock.kvs, s.plans, s.lock.executors, Panic)
  {
    hide SearchOk, Assignable, Verdict, Query, CanEnd, ComesTo, ReadOf;
    hide DoSubmit, DoReject, DoStart, DoCut, DoSave, DoBeginPoll, DoFinish;
    SearchFails(s.lock.kvs, s.plans, s.lock.executors);
    if r.Ok? {
      SearchReturns(s.lock.kvs, s.plans, s.lock.executors, r.value);
    }
  }

  /** A scan during which nothing else happens. */
  ghost predicate ScanRun(cfg: Config, trace: seq<State>, steps: seq<Step>) {
    && |trace| == |steps| + 1 && |steps| >= 2 && trace[0].lock.Saved? && trace[0].lock.canAccept
    && steps[0] == BeginScan && steps[|steps| - 1] == EndScan
    && (forall i | 0 < i < |steps| - 1 :: steps[i].ScanTask?)
    && forall i | 0 <= i < |steps| :: Enabled(cfg, trace[i], steps[i]) && trace[i + 1] == Apply(cfg, trace[i], steps[i])
  }

  /** The scan so far, of a store that stays as it is. */
  ghost predicate ScanSoFar(s: State, s': State) {
    && s.lock.Saved? && s'.lock.Scanning? && s' == s.(lock := s'.lock)
    && s'.lock == Scanning(s.lock.executorId, s.lock.reported, s.tasks.Keys, s'.lock.kvs)
    && PartOf(s'.lock.kvs, s.tasks)
  }

  lemma ScanBegins(cfg: Config, s: State)
    requires Enabled(cfg, s, BeginScan) && s.lock.canAccept
    ensures ScanSoFar(s, Apply(cfg, s, BeginScan))
  {
    hide SearchOk, Assignable, Verdict, Query, DoSubmit, DoReject, DoStart, DoCut, DoSave, DoBeginPoll, DoFailPoll;
    hide DoFinish;
  }

  lemma ScanContinues(cfg: Config, s: State, s': State, pid: PartitionId)
    requires ScanSoFar(s, s') && Enabled(cfg, s', ScanTask(pid))
    ensures ScanSoFar(s, Apply(cfg, s', ScanTask(pid)))
  {
    hide SearchOk, Assignable, Verdict, Query, DoSubmit, DoReject, DoStart, DoCut, DoSave, DoBeginPoll, DoFailPoll;
    hide DoFinish;
  }

  lemma ScanEnds(cfg: Config, s: State, s': State)
    requires ScanSoFar(s, s') && Enabled(cfg, s', EndScan)
    ensures Apply(cfg, s', EndScan) ==
      s.(lock := Scanned(s.lock.executorId, s.lock.reported, s.tasks.Keys, s.tasks, s.executors))
  {
    hide SearchOk, Assignable, Verdict, Query, DoSubmit, DoReject, DoStart, DoCut, DoSave, DoBeginPoll, DoFailPoll;
    hide DoFinish;
    assert s'.lock.kvs == s.tasks;
  }

  lemma {:induction false} ScanRunSoFar(cfg: Config, trace: seq<State>, steps: seq<Step>, n: nat)
    requires ScanRun(cfg, trace, steps) && 0 < n < |steps|
    ensures ScanSoFar(trace[0], trace[n])
  {
    hide ScanSoFar, Enabled, Apply;
    if n == 1 {
      ScanBegins(cfg, trace[0]);
      assert trace[0 + 1] == Apply(cfg, trace[0], steps[0]);
    } else {
      ScanRunSoFar(cfg, trace, steps, n - 1);
      ScanContinues(cfg, trace[0], trace[n - 1], steps[n - 1].id);
      assert trace[n - 1 + 1] == Apply(cfg, trace[n - 1], steps[n - 1]);
    }
  }

  /** Such a scan, in whatever order it goes, has read the whole store as it is. */
  lemma ScanMatchesProtocol(cfg: Config, trace: seq<State>, steps: seq<Step>)
    requires ScanRun(cfg, trace, steps)
    ensures
      var s := trace[0];
      trace[|steps|] == s.(lock := Scanned(s.lock.executorId, s.lock.reported, s.tasks.Keys, s.tasks, s.executors))
  {
    hide ScanSoFar, Enabled, Apply;
    var n := |steps| - 1;
    ScanRunSoFar(cfg, trace, steps, n);
    ScanEnds(cfg, trace[0], trace[n]);
    assert trace[n + 1] == Apply(cfg, trace[n], steps[n]);
  }

  // ---- A poll ----

  /** `PollWork` up to its search is the steps from taking the lock to the end of an undisturbed scan. */
  lemma PollMatchesProtocol(cfg: Config, s: State, e: string)
    requires ValidConfig(cfg) && Enabled(cfg, s, BeginPoll(e))
    ensures
      var req := s.workers[e].rpc;
      var s1 := Apply(cfg, s, BeginPoll(e));
      var saved := Reported(ViewOf(s), cfg.executors[e].meta, req.reports);
      && ViewOf(s1) == saved && s1.lock == Saved(e, req.reports != [], req.canAccept)
      && (!req.canAccept ==> BeginScanLock(s1) == Assigned(e, req.reports != [], None))
      && var s2 := s1.(lock := Scanned(e, req.reports != [], s1.tasks.Keys, s1.tasks, s1.executors));
         && ViewOf(s2) == saved && e in s2.workers
         && s2.lock.kvs == saved.tasks && s2.lock.executors == saved.executors
  {
    hide SaveReports, Assignable, SearchOk, ComesTo, ReadOf, Verdict, Query;
    hide DoSubmit, DoReject, DoStart, DoCut, DoSave, DoFailPoll, DoFinish;
  }

  // ---- The executors ----

  /** Over every run: executors are as `Executor.Valid` says, and a task they are answered with is what
      `Executor.RunReceivedTask` relies on, one they do not have, with a slot for it. */
  lemma ExecutorsAreSound(cfg: Config, trace: seq<State>, steps: seq<Step>, i: nat, e: string)
    requires IsRun(cfg, trace, steps) && i < |trace| && e in trace[i].workers
    ensures e in cfg.executors
    ensures
      var w := trace[i].workers[e];
      && Sound(w, cfg.executors[e].concurrentTasks)
      && (w.rpc.Answered? && w.rpc.task.Some? ==> w.free > 0 && Own(w, w.rpc.task.value.id) == 0)
  {
    hide Inv, IsRun, Occurs, RightPlans, WorkerReportsThere;
    RunInv(cfg, trace, steps, i);
    SlotsConserved(cfg, trace, steps, i, e);
    WorkerFacts(cfg, trace[i], e);
    var w := trace[i].workers[e];
    forall pid ensures Own(w, pid) + InRpc(w.rpc, pid) <= 1 {
      assert Held(w, trace[i].lock, e, pid) <= 1;
    }
    if w.rpc.Answered? && w.rpc.task.Some? {
      assert InRpc(w.rpc, w.rpc.task.value.id) == 1;
    }
  }

  // ---- Synchronisation ----

  /** Nothing but synchronisation of jobs. */
  ghost predicate SyncRun(cfg: Config, trace: seq<State>, steps: seq<Step>) {
    && |trace| == |steps| + 1 && trace[0].lock.Syncing?
    && forall i | 0 <= i < |steps| ::
         && (steps[i].ReadJob? || steps[i].Judge? || steps[i].SyncJob?)
         && Enabled(cfg, trace[i], steps[i]) && trace[i + 1] == Apply(cfg, trace[i], steps[i])
  }

  /** Half-way through: jobs still to do are as before, the others are up to date, and what is about to be recorded is
      right. */
  ghost predicate HalfSynced(s: State, s': State) {
    && s.lock.Syncing? && (s'.lock.Syncing? || s'.lock.Reading? || s'.lock.Judged?)
    && s'.tasks == s.tasks && s'.executors == s.executors
    && s'.lock.todo <= s.lock.todo && s'.jobs.Keys == s.jobs.Keys
    && (s'.lock.Reading? ==> s'.lock.present == s.tasks.Keys && s'.lock.jobId in s'.lock.todo)
    && (s'.lock.Judged? ==>
          s'.lock.jobId in s'.lock.todo && Verdict(s.tasks, s.executors, s'.lock.jobId, s'.lock.verdict))
    && forall j | j in s.jobs ::
         if j in s'.lock.todo then s'.jobs[j] == s.jobs[j]
         else j in s.lock.todo ==> SyncedJob(s.tasks, s.executors, j, s.jobs[j], s'.jobs[j])
  }

  /** A read that has seen all of the job's tasks says what they say. */
  lemma VerdictOfRead(kvs: Tasks, tasks: Tasks, executors: Executors, j: string, v: Option<JobStatus>)
    requires ReadOf(tasks.Keys, kvs, tasks, j) && Verdict(kvs, executors, j, v)
    ensures Verdict(tasks, executors, j, v)
  {
    forall pid: PartitionId | pid.jobId == j ensures pid in kvs <==> pid in tasks {
    }
    assert AllCompleted(kvs, j) <==> AllCompleted(tasks, j);
    if v.Some? && v.value.CompletedJob? {
      SameJobListed(kvs, tasks, executors, j, v.value.locations);
    }
  }

  lemma SameJobListed(kvs: Tasks, tasks: Tasks, executors: Executors, j: string, ls: seq<JobLocation>)
    requires ReadOf(tasks.Keys, kvs, tasks, j)
    ensures ListsJob(kvs, executors, j, ls) ==> ListsJob(tasks, executors, j, ls)
  {
  }

  lemma SyncOne(cfg: Config, s: State, s': State, step: Step)
    requires HalfSynced(s, s') && Enabled(cfg, s', step) && s.lock.todo <= s.jobs.Keys
    requires step.ReadJob? || step.Judge? || step.SyncJob?
    ensures HalfSynced(s, Apply(cfg, s', step))
  {
    hide Verdict, Assignable, SearchOk, Query, ComesTo, ReadOf;
    hide DoSubmit, DoReject, DoStart, DoCut, DoSave, DoBeginPoll, DoFailPoll, DoFinish;
    if step.Judge? {
      VerdictOfRead(step.kvs, s.tasks, s.executors, s'.lock.jobId, step.verdict);
    }
  }

  lemma {:induction false} SyncRunHalf(cfg: Config, trace: seq<State>, steps: seq<Step>, n: nat)
    requires SyncRun(cfg, trace, steps) && n <= |steps| && trace[0].lock.todo <= trace[0].jobs.Keys
    ensures HalfSynced(trace[0], trace[n])
  {
    hide HalfSynced, Enabled, Apply;
    if n == 0 {
      NotSyncedYet(trace[0]);
    } else {
      SyncRunHalf(cfg, trace, steps, n - 1);
      assert trace[n - 1 + 1] == Apply(cfg, trace[n - 1], steps[n - 1]);
      SyncOne(cfg, trace[0], trace[n - 1], steps[n - 1]);
    }
  }

  lemma NotSyncedYet(s: State)
    requires s.lock.Syncing?
    ensures HalfSynced(s, s)
  {
  }

  /** Synchronising all jobs, in whatever order, brings about what `SynchronizeJobStatus` promises. */
  lemma SyncMatchesProtocol(cfg: Config, trace: seq<State>, steps: seq<Step>)
    requires SyncRun(cfg, trace, steps) && trace[0].lock.todo == trace[0].jobs.Keys
    requires trace[|steps|].lock.Syncing? && trace[|steps|].lock.todo == {}
    ensures Synchronized(trace[0].tasks, trace[0].executors, trace[0].jobs, trace[|steps|].jobs)
  {
    hide Enabled, Apply, SyncedJob;
    SyncRunHalf(cfg, trace, steps, |steps|);
  }

  // ---- Submission ----

  /** The 32-bit ids that partition numbers below `n` turn into. */
  predicate IdBelow(id: nat, n: nat) {
    id < n && id < 0x1_0000_0000
  }

  lemma {:induction false} SaveTasksExact(tasks: Tasks, jobId: string, stageId: nat, n: nat, pid: PartitionId)
    ensures
      var saved := pid.jobId == jobId && pid.stageId == stageId % 0x1_0000_0000 && IdBelow(pid.partitionId, n);
      var tasks' := SaveTasks(tasks, jobId, stageId, n);
      && (pid in tasks' <==> pid in tasks || saved)
      && (pid in tasks' ==> tasks'[pid] == if saved then Pending else tasks[pid])
  {
    if n > 0 {
      SaveTasksExact(tasks, jobId, stageId, n - 1, pid);
      assert n - 1 < 0x1_0000_0000 ==> U32(n - 1) == n - 1;
    }
  }

  /** A task that saving the stage writes: ids lose their upper bits, so that later stages and partitions may write
      the same tasks again. */
  predicate SavedBy(eng: Engine, jobId: string, stage: QueryStage, pid: PartitionId) {
    && pid.jobId == jobId && pid.stageId == stage.stageId % 0x1_0000_0000
    && IdBelow(pid.partitionId, eng.Count(stage.child))
  }

  predicate TaskOf(eng: Engine, jobId: string, stages: seq<QueryStage>, pid: PartitionId) {
    exists i | 0 <= i < |stages| :: SavedBy(eng, jobId, stages[i], pid)
  }

  /** After the save loop, exactly the tasks of the job's stages have been added, all pending. */
  lemma {:induction false} SaveStagesExact(eng: Engine, view: View, jobId: string, stages: seq<QueryStage>,
                                           pid: PartitionId)
    ensures
      var view' := SaveStages(eng, view, jobId, stages);
      && view'.jobs == view.jobs && view'.executors == view.executors
      && (pid in view'.tasks <==> pid in view.tasks || TaskOf(eng, jobId, stages, pid))
      && (pid in view'.tasks ==>
          view'.tasks[pid] == if TaskOf(eng, jobId, stages, pid) then Pending else view.tasks[pid])
  {
    hide SaveTasks;
    if stages != [] {
      var init, last := stages[..|stages| - 1], stages[|stages| - 1];
      SaveStagesExact(eng, view, jobId, init, pid);
      SaveTasksExact(SaveStages(eng, view, jobId, init).tasks, jobId, last.stageId, eng.Count(last.child), pid);
      TaskOfLast(eng, jobId, stages, pid);
    }
  }

  lemma TaskOfLast(eng: Engine, jobId: string, stages: seq<QueryStage>, pid: PartitionId)
    requires stages != []
    ensures TaskOf(eng, jobId, stages, pid) <==>
      TaskOf(eng, jobId, stages[..|stages| - 1], pid) || SavedBy(eng, jobId, stages[|stages| - 1], pid)
  {
    hide SavedBy;
    var init := stages[..|stages| - 1];
    assert forall i | 0 <= i < |init| :: init[i] == stages[i];
  }

  /** With fewer than 2^32 stages and partitions no two of them write the same task. */
  lemma TaskOfSmall(eng: Engine, jobId: string, stages: seq<QueryStage>, pid: PartitionId)
    requires forall i | 0 <= i < |stages| :: stages[i].stageId == i + 1
    requires |stages| < 0x1_0000_0000 && forall i | 0 <= i < |stages| :: eng.Count(stages[i].child) <= 0x1_0000_0000
    ensures TaskOf(eng, jobId, stages, pid) <==>
      && pid.jobId == jobId && 1 <= pid.stageId <= |stages|
      && pid.partitionId < eng.Count(stages[pid.stageId - 1].child)
  {
    forall i | 0 <= i < |stages|
      ensures SavedBy(eng, jobId, stages[i], pid) <==>
        pid.jobId == jobId && pid.stageId == i + 1 && pid.partitionId < eng.Count(stages[i].child)
    {
      assert stages[i].stageId == i + 1;
    }
    if 1 <= pid.stageId <= |stages| {
      assert stages[pid.stageId - 1].stageId == pid.stageId;
    }
  }

  lemma {:induction false} SavePlansExact(eng: Engine, view: View, jobId: string, stages: seq<QueryStage>,
                                          key: StageKey)
    requires forall i | 0 <= i < |stages| :: stages[i].stageId == i + 1
    ensures
      var view' := SaveStages(eng, view, jobId, stages);
      if key.jobId == jobId && 1 <= key.stageId <= |stages| then
        key in view'.plans && view'.plans[key] == stages[key.stageId - 1].child
      else (key in view'.plans <==> key in view.plans) && (key in view.plans ==> view'.plans[key] == view.plans[key])
  {
    if stages != [] {
      SavePlansExact(eng, view, jobId, stages[..|stages| - 1], key);
    }
  }

  /** The save loop and the protocol's save steps write the same tasks: those the cursor has passed when it reaches the
      end. */
  lemma SaveMatchesProtocol(eng: Engine, view: View, jobId: string, sub: Submission, pid: PartitionId)
    requires GoodCursor(sub) && sub.Saving? && sub.stage == |sub.stages| && sub.counts == CountsOf(eng, sub.stages)
    ensures
      var view' := SaveStages(eng, view, jobId, sub.stages);
      pid in view'.tasks <==> pid in view.tasks || (pid.jobId == jobId && Written(sub, pid.stageId, pid.partitionId))
  {
    assert forall i | 0 <= i < |sub.counts| :: sub.counts[i] == eng.Count(sub.stages[i].child);
    SaveStagesExact(eng, view, jobId, sub.stages, pid);
    TaskOfSmall(eng, jobId, sub.stages, pid);
  }
}
