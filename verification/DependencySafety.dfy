/** A task that is handed out reads complete stages only, each partition where it was completed. */
module DependencySafety {
  import opened Plans
  import opened StagePlanner
  import opened ShuffleResolution
  import opened StageMeaning
  import opened Scheduling
  import opened Protocol
  import opened StorageInvariant
  import opened OwnershipInvariant
  import opened TaskInvariants
  import opened DataInvariant
  import opened ProtocolInvariants
  import opened TaskHistory

  /** The locations are those of all partitions of an earlier stage, in order: location `p` names partition
      `p`, which is completed, and the executor that completed it. */
  ghost predicate CompletedStage(eng: Engine, tasks: Tasks, plans: StagePlans, executors: Executors, jobId: string,
                                 limit: nat, locations: seq<PartitionLocation>, id: nat)
  {
    && id < limit && StageKey(jobId, id) in plans && |locations| == eng.Count(plans[StageKey(jobId, id)])
    && forall p: nat | p < |locations| ::
         var pid := PartitionId(jobId, id, p);
         && locations[p].partitionId == pid
         && Done(tasks, executors, pid) && locations[p].executorMeta == executors[tasks[pid].executorId]
  }

  /** A plan without unresolved shuffles, all of whose readers read completed earlier stages. */
  ghost predicate ReadsCompleted(eng: Engine, tasks: Tasks, plans: StagePlans, executors: Executors, jobId: string,
                                 limit: nat, p: Plan)
    decreases p
  {
    match p
    case Operator(_, cs) =>
      forall i | 0 <= i < |cs| :: ReadsCompleted(eng, tasks, plans, executors, jobId, limit, cs[i])
    case UnresolvedShuffle(_, _, _) => false
    case ShuffleReader(locations, _) =>
      exists id: nat :: CompletedStage(eng, tasks, plans, executors, jobId, limit, locations, id)
  }

  /** What resolution needs to know of a shuffle. */
  ghost predicate GoodShuffle(eng: Engine, tasks: Tasks, plans: StagePlans, executors: Executors, jobId: string,
                              limit: nat, locs: Locations, u: Plan)
    requires u.UnresolvedShuffle?
  {
    |u.stageIds| == 1 && u.stageIds[0] in locs
    && CompletedStage(eng, tasks, plans, executors, jobId, limit, locs[u.stageIds[0]], u.stageIds[0])
  }

  lemma {:induction false} ResolvedReadsCompleted(eng: Engine, tasks: Tasks, plans: StagePlans, executors: Executors,
                                                  jobId: string, limit: nat,
                                                  locs: Locations, q: Plan)
    requires ResolveChild(locs, q).Some?
    requires forall u <- FindUnresolvedShuffles(q) :: GoodShuffle(eng, tasks, plans, executors, jobId, limit, locs, u)
    ensures ReadsCompleted(eng, tasks, plans, executors, jobId, limit, ResolveChild(locs, q).value)
    decreases q
  {
    hide CompletedStage;
    match q
    case Operator(op, cs) =>
      forall i | 0 <= i < |cs|
        ensures ReadsCompleted(eng, tasks, plans, executors, jobId, limit, ResolveChild(locs, cs[i]).value)
      {
        forall u | u in FindUnresolvedShuffles(cs[i])
          ensures GoodShuffle(eng, tasks, plans, executors, jobId, limit, locs, u)
        {
          FoundInChild(cs, u);
        }
        ResolvedReadsCompleted(eng, tasks, plans, executors, jobId, limit, locs, cs[i]);
      }
    case UnresolvedShuffle(ids, _, _) =>
      assert q in FindUnresolvedShuffles(q);
      LocateOne(locs, ids);
    case ShuffleReader(_, _) =>
  }

  lemma StageCompleted(cfg: Config, tasks: Tasks, plans: StagePlans, executors: Executors, jobId: string, limit: nat,
                       id: nat, count: nat)
    requires id < limit && StageKey(jobId, id) in plans && count == cfg.eng.Count(plans[StageKey(jobId, id)])
    requires forall p: nat | p < count :: Done(tasks, executors, PartitionId(jobId, id, p))
    ensures CompletedStage(cfg.eng, tasks, plans, executors, jobId, limit,
                           StageLocations(tasks, executors, jobId, id, count), id)
  {
    var locations := StageLocations(tasks, executors, jobId, id, count);
    forall p: nat | p < count
      ensures locations[p] == LocationOf(tasks, executors, PartitionId(jobId, id, p))
      ensures Done(tasks, executors, PartitionId(jobId, id, p))
    {
    }
  }

  /** The plan of a stored task is followed by the plans of all stages it reads. */
  lemma EarlierPlanStored(keys: set<PartitionId>, plans: StagePlans, subs: Submissions, pid: PartitionId, id: nat)
    requires Storage(keys, plans, subs) && pid in keys && 1 <= id < pid.stageId
    ensures pid.jobId in subs && subs[pid.jobId].Saving? && id <= |subs[pid.jobId].stages|
    ensures StageKey(pid.jobId, id) in plans && plans[StageKey(pid.jobId, id)] == subs[pid.jobId].stages[id - 1].child
  {
    assert TaskWritten(subs, pid);
    assert StageWritten(subs, StageKey(pid.jobId, id));
  }

  lemma RightPlanReadsCompleted(cfg: Config, s: State, t: Task)
    requires Inv(cfg, s) && t.id in s.tasks && RightPlan(s.tasks, s.plans, s.executors, t)
    ensures ReadsCompleted(cfg.eng, s.tasks, s.plans, s.executors, t.id.jobId, t.id.stageId, t.plan)
  {
    hide Storage, GoodJobs, Ownership, Crew, Registered, Dependencies, AllRightPlans, Snapshot, StoredRows;
    hide OutputsThere, ReportsThere;
    hide Collect, Resolve, InputsReady, CompletedStage, StagesById, Dag, WellStaged, ReadsCompleted;
    var jobId, limit := t.id.jobId, t.id.stageId;
    var plan := s.plans[KeyOf(t.id)];
    var us := FindUnresolvedShuffles(plan);
    var locs := Collect(s.tasks, s.executors, jobId, us);
    StoredTask(s.tasks.Keys, s.plans, s.submissions, t.id);
    StageFacts(cfg.eng, s.submissions, jobId, limit);
    forall u | u in us ensures GoodShuffle(cfg.eng, s.tasks, s.plans, s.executors, jobId, limit, locs, u) {
      var k :| 0 <= k < |us| && us[k] == u;
      ShuffleIsGood(cfg, s, t.id, us, k);
    }
    OperatorResolves(locs, plan);
    ResolvedReadsCompleted(cfg.eng, s.tasks, s.plans, s.executors, jobId, limit, locs, plan);
  }

  lemma OperatorResolves(locs: Locations, p: Plan)
    requires p.Operator?
    ensures ResolveChild(locs, p) == Resolve(locs, p)
  {
  }

  lemma ShuffleIsGood(cfg: Config, s: State, pid: PartitionId, us: seq<Plan>, k: nat)
    requires Inv(cfg, s) && pid in s.tasks && Launchable(s.tasks, s.plans, pid)
    requires us == FindUnresolvedShuffles(s.plans[KeyOf(pid)]) && k < |us|
    ensures GoodShuffle(cfg.eng, s.tasks, s.plans, s.executors, pid.jobId, pid.stageId,
                        Collect(s.tasks, s.executors, pid.jobId, us), us[k])
  {
    hide Storage, GoodJobs, Ownership, Crew, Registered, Dependencies, AllRightPlans, Snapshot, StoredRows;
    hide OutputsThere, ReportsThere;
    hide Collect, CompletedStage, StagesById, Dag, WellStaged, ShuffleReady;
    StoredTask(s.tasks.Keys, s.plans, s.submissions, pid);
    StageFacts(cfg.eng, s.submissions, pid.jobId, pid.stageId);
    var u := us[k];
    var id := u.stageIds[0];
    assert u in us;
    CollectSimple(s.tasks, s.executors, pid.jobId, us, k);
    ReadyIsDone(cfg, s.tasks, s.executors, s.lock, pid.jobId, u);
    EarlierPlanStored(s.tasks.Keys, s.plans, s.submissions, pid, id);
    forall p: nat | p < u.partitionCount ensures Done(s.tasks, s.executors, PartitionId(pid.jobId, id, p)) {
      assert Done(s.tasks, s.executors, PartitionId(pid.jobId, u.stageIds[0], p));
    }
    StageCompleted(cfg, s.tasks, s.plans, s.executors, pid.jobId, pid.stageId, id, u.partitionCount);
  }

  lemma CompletedStageStays(eng: Engine, s: State, s': State, jobId: string, limit: nat,
                            locations: seq<PartitionLocation>, id: nat)
    requires Later(s, s') && CompletedStage(eng, s.tasks, s.plans, s.executors, jobId, limit, locations, id)
    ensures CompletedStage(eng, s'.tasks, s'.plans, s'.executors, jobId, limit, locations, id)
  {
    hide JobsKept;
    forall p: nat | p < |locations|
      ensures
        var pid := PartitionId(jobId, id, p);
        Done(s'.tasks, s'.executors, pid) && locations[p].executorMeta == s'.executors[s'.tasks[pid].executorId]
    {
      assert Done(s.tasks, s.executors, PartitionId(jobId, id, p));
    }
  }

  /** What is complete stays complete. */
  lemma {:induction false} CompletedStays(eng: Engine, s: State, s': State, jobId: string, limit: nat, p: Plan)
    requires Later(s, s') && ReadsCompleted(eng, s.tasks, s.plans, s.executors, jobId, limit, p)
    ensures ReadsCompleted(eng, s'.tasks, s'.plans, s'.executors, jobId, limit, p)
    decreases p
  {
    hide Later, CompletedStage;
    match p
    case Operator(_, cs) =>
      forall i | 0 <= i < |cs| ensures ReadsCompleted(eng, s'.tasks, s'.plans, s'.executors, jobId, limit, cs[i]) {
        CompletedStays(eng, s, s', jobId, limit, cs[i]);
      }
    case UnresolvedShuffle(_, _, _) =>
    case ShuffleReader(locations, _) =>
      var id: nat :| CompletedStage(eng, s.tasks, s.plans, s.executors, jobId, limit, locations, id);
      CompletedStageStays(eng, s, s', jobId, limit, locations, id);
  }

  /** Dependency safety, over every run: from the moment a task is handed out, in every state, everything its
      plan reads is completed, at the executor its reader asks. */
  lemma DependencySafe(cfg: Config, trace: seq<State>, steps: seq<Step>, i: nat, j: nat)
    requires IsRun(cfg, trace, steps) && i < j < |trace| && i < |steps|
    requires steps[i].Assign? && steps[i].task.Some?
    ensures
      var t := steps[i].task.value;
      ReadsCompleted(cfg.eng, trace[j].tasks, trace[j].plans, trace[j].executors, t.id.jobId, t.id.stageId, t.plan)
  {
    hide IsRun, Inv, Assignable, RightPlan, ReadsCompleted, Later, DoSubmit, DoStart, DoCut, DoSave, DoBeginPoll;
    hide DoFinish;
    var t := steps[i].task.value;
    HandedOut(cfg, trace, steps, i, t.id);
    RunStep(cfg, trace, steps, i);
    LockTaskRight(cfg, trace[i + 1]);
    RightPlanReadsCompleted(cfg, trace[i + 1], t);
    RunIsLater(cfg, trace, steps, i + 1, j);
    CompletedStays(cfg.eng, trace[i + 1], trace[j], t.id.jobId, t.id.stageId, t.plan);
  }

  lemma LockTaskRight(cfg: Config, s: State)
    requires Inv(cfg, s) && s.lock.Assigned? && s.lock.task.Some?
    ensures RightPlan(s.tasks, s.plans, s.executors, s.lock.task.value)
  {
    hide Storage, GoodJobs, Ownership, Crew, Registered, Dependencies, Snapshot, StoredRows, OutputsThere, ReportsThere;
    hide RightPlan, RightPlans;
  }
}
