/** Statuses only move forward, a task only starts after its inputs, and the plan it runs reads them. */
module TaskInvariants {
  import opened Plans
  import opened ShuffleResolution
  import opened Scheduling
  import opened TaskOrder
  import opened Protocol
  import opened OwnershipInvariant

  // ---- Statuses only move forward ----

  /** One move of a stored status: pending, then running somewhere, then completed there or failed. */
  predicate Moves(a: Status, b: Status) {
    || a == b
    || (a.Pending? && b.Running?)
    || (a.Running? && (b == Completed(a.executorId) || b.Failed?))
  }

  ghost predicate Progresses(tasks: Tasks, tasks': Tasks) {
    forall pid | pid in tasks :: pid in tasks' && Moves(tasks[pid], tasks'[pid])
  }

  lemma SavingReportsProgresses(tasks: Tasks, w: Worker, lock: Lock, e: string)
    requires HeldOnce(tasks, w, lock, e) && w.rpc.Sent? && GoodReports(w.rpc.reports, e)
    ensures Progresses(tasks, SaveReports(tasks, w.rpc.reports))
    ensures SaveReports(tasks, w.rpc.reports).Keys == tasks.Keys
    ensures forall pid :: !Launched(tasks, SaveReports(tasks, w.rpc.reports), pid)
  {
    var reports := w.rpc.reports;
    var tasks' := SaveReports(tasks, reports);
    forall pid
      ensures pid in tasks' <==> pid in tasks
      ensures pid in tasks ==> Moves(tasks[pid], tasks'[pid]) && (tasks[pid].Pending? ==> tasks'[pid].Pending?)
    {
      SavedReport(tasks, reports, pid);
      assert Held(w, lock, e, pid) >= Occurs(reports, pid);
    }
  }

  // ---- Registration ----

  /** Executors are registered as they are, and whoever runs or has run a task is registered. */
  ghost predicate Registered(cfg: Config, tasks: Tasks, executors: Executors, lock: Lock) {
    && (forall e | e in executors :: e in cfg.executors && executors[e] == cfg.executors[e].meta)
    && (forall pid | pid in tasks ::
         tasks[pid].Running? || tasks[pid].Completed? ==> tasks[pid].executorId in executors)
    && (!lock.Unlocked? ==> lock.executorId in executors)
  }

  // ---- Dependencies ----

  lemma ShuffleReadyKept(tasks: Tasks, tasks': Tasks, jobId: string, u: Plan)
    requires Progresses(tasks, tasks') && u.UnresolvedShuffle? && ShuffleReady(tasks, jobId, u)
    ensures ShuffleReady(tasks', jobId, u)
  {
    forall k, p: nat | 0 <= k < |u.stageIds| && p < u.partitionCount
      ensures PartitionId(jobId, u.stageIds[k], p) in tasks' && tasks'[PartitionId(jobId, u.stageIds[k], p)].Completed?
    {
      var pid := PartitionId(jobId, u.stageIds[k], p);
      assert pid in tasks && tasks[pid].Completed?;
    }
  }

  lemma InputsReadyKept(tasks: Tasks, tasks': Tasks, jobId: string, plan: Plan)
    requires Progresses(tasks, tasks') && InputsReady(tasks, jobId, plan)
    ensures InputsReady(tasks', jobId, plan)
  {
    forall u | u in FindUnresolvedShuffles(plan) ensures ShuffleReady(tasks', jobId, u) {
      ShuffleReadyKept(tasks, tasks', jobId, u);
    }
  }

  predicate Launchable(tasks: Tasks, plans: StagePlans, pid: PartitionId) {
    KeyOf(pid) in plans && InputsReady(tasks, pid.jobId, plans[KeyOf(pid)])
  }

  /** No task has left the pending state before all its inputs were completed. */
  ghost predicate Dependencies(tasks: Tasks, plans: StagePlans) {
    forall pid | pid in tasks && !tasks[pid].Pending? :: Launchable(tasks, plans, pid)
  }

  ghost predicate PlansKept(plans: StagePlans, plans': StagePlans) {
    forall key | key in plans :: key in plans' && plans'[key] == plans[key]
  }

  /** The tasks that have just left the pending state. */
  ghost predicate Launched(tasks: Tasks, tasks': Tasks, pid: PartitionId) {
    pid in tasks' && !tasks'[pid].Pending? && (pid in tasks ==> tasks[pid].Pending?)
  }

  lemma DependenciesKept(tasks: Tasks, plans: StagePlans, tasks': Tasks, plans': StagePlans)
    requires Dependencies(tasks, plans) && Progresses(tasks, tasks') && PlansKept(plans, plans')
    requires forall pid | Launched(tasks, tasks', pid) :: Launchable(tasks, plans, pid)
    ensures Dependencies(tasks', plans')
  {
    forall pid | pid in tasks' && !tasks'[pid].Pending? ensures Launchable(tasks', plans', pid) {
      if pid in tasks && !tasks[pid].Pending? {
        assert Launchable(tasks, plans, pid);
      } else {
        assert Launched(tasks, tasks', pid);
      }
      InputsReadyKept(tasks, tasks', pid.jobId, plans[KeyOf(pid)]);
    }
  }

  // ---- The plans handed out ----

  ghost predicate ExecutorsKept(executors: Executors, executors': Executors) {
    forall e | e in executors :: e in executors' && executors'[e] == executors[e]
  }

  /** The plan of a task is its stage's plan, reading its inputs where they were completed. */
  ghost predicate RightPlan(tasks: Tasks, plans: StagePlans, executors: Executors, t: Task) {
    && Launchable(tasks, plans, t.id)
    && var plan := plans[KeyOf(t.id)];
       Resolve(Collect(tasks, executors, t.id.jobId, FindUnresolvedShuffles(plan)), plan) == Some(t.plan)
  }

  ghost predicate RightPlans(tasks: Tasks, plans: StagePlans, executors: Executors, w: Worker) {
    && (forall pid | pid in w.inFlight :: RightPlan(tasks, plans, executors, Task(pid, w.inFlight[pid])))
    && (w.rpc.Answered? && w.rpc.task.Some? ==> RightPlan(tasks, plans, executors, w.rpc.task.value))
  }

  ghost predicate AllRightPlans(tasks: Tasks, plans: StagePlans, executors: Executors, workers: Workers, lock: Lock) {
    && (forall e | e in workers :: RightPlans(tasks, plans, executors, workers[e]))
    && (LockTask(lock).Some? ==> RightPlan(tasks, plans, executors, LockTask(lock).value))
  }

  lemma StageLocationsKept(tasks: Tasks, executors: Executors, tasks': Tasks, executors': Executors, jobId: string,
                           id: nat, count: nat)
    requires Progresses(tasks, tasks') && ExecutorsKept(executors, executors')
    requires forall p: nat | p < count :: Done(tasks, executors, PartitionId(jobId, id, p))
    ensures StageLocations(tasks, executors, jobId, id, count) == StageLocations(tasks', executors', jobId, id, count)
  {
    forall p: nat | p < count
      ensures LocationOf(tasks, executors, PartitionId(jobId, id, p))
           == LocationOf(tasks', executors', PartitionId(jobId, id, p))
    {
      assert Done(tasks, executors, PartitionId(jobId, id, p));
    }
  }

  ghost predicate ShuffleDone(tasks: Tasks, executors: Executors, jobId: string, u: Plan)
    requires u.UnresolvedShuffle?
  {
    forall k, p: nat | 0 <= k < |u.stageIds| && p < u.partitionCount ::
      Done(tasks, executors, PartitionId(jobId, u.stageIds[k], p))
  }

  lemma {:induction false} CollectIdsKept(tasks: Tasks, executors: Executors, tasks': Tasks, executors': Executors,
                                          jobId: string, ids: seq<nat>, count: nat, locs: Locations)
    requires Progresses(tasks, tasks') && ExecutorsKept(executors, executors')
    requires forall k, p: nat | 0 <= k < |ids| && p < count :: Done(tasks, executors, PartitionId(jobId, ids[k], p))
    ensures CollectIds(tasks, executors, jobId, ids, count, locs)
         == CollectIds(tasks', executors', jobId, ids, count, locs)
  {
    if ids != [] {
      var init := ids[..|ids| - 1];
      assert forall k | 0 <= k < |init| :: init[k] == ids[k];
      CollectIdsKept(tasks, executors, tasks', executors', jobId, init, count, locs);
      StageLocationsKept(tasks, executors, tasks', executors', jobId, ids[|ids| - 1], count);
    }
  }

  lemma {:induction false} CollectKept(tasks: Tasks, executors: Executors, tasks': Tasks, executors': Executors,
                                       jobId: string, us: seq<Plan>)
    requires Progresses(tasks, tasks') && ExecutorsKept(executors, executors')
    requires forall i | 0 <= i < |us| :: us[i].UnresolvedShuffle? && ShuffleDone(tasks, executors, jobId, us[i])
    ensures Collect(tasks, executors, jobId, us) == Collect(tasks', executors', jobId, us)
  {
    hide CollectIds;
    if us != [] {
      CollectKept(tasks, executors, tasks', executors', jobId, us[..|us| - 1]);
      var u := us[|us| - 1];
      assert ShuffleDone(tasks, executors, jobId, u);
      CollectIdsKept(tasks, executors, tasks', executors', jobId, u.stageIds, u.partitionCount,
                     Collect(tasks, executors, jobId, us[..|us| - 1]));
    }
  }

  /** Completed by registered executors. */
  lemma ReadyIsDone(cfg: Config, tasks: Tasks, executors: Executors, lock: Lock, jobId: string, u: Plan)
    requires Registered(cfg, tasks, executors, lock) && u.UnresolvedShuffle? && ShuffleReady(tasks, jobId, u)
    ensures ShuffleDone(tasks, executors, jobId, u)
  {
    forall k, p: nat | 0 <= k < |u.stageIds| && p < u.partitionCount
      ensures Done(tasks, executors, PartitionId(jobId, u.stageIds[k], p))
    {
      var pid := PartitionId(jobId, u.stageIds[k], p);
      assert pid in tasks && tasks[pid].Completed?;
    }
  }

  /** A right plan stays right: the statuses it was made from do not change any more. */
  lemma RightPlanKept(cfg: Config, lock: Lock, tasks: Tasks, plans: StagePlans, executors: Executors,
                      tasks': Tasks, plans': StagePlans, executors': Executors, t: Task)
    requires Progresses(tasks, tasks') && PlansKept(plans, plans') && ExecutorsKept(executors, executors')
    requires Registered(cfg, tasks, executors, lock) && RightPlan(tasks, plans, executors, t)
    ensures RightPlan(tasks', plans', executors', t)
  {
    hide Resolve, Collect, Registered;
    var plan := plans[KeyOf(t.id)];
    var us := FindUnresolvedShuffles(plan);
    InputsReadyKept(tasks, tasks', t.id.jobId, plan);
    forall i | 0 <= i < |us| ensures ShuffleDone(tasks, executors, t.id.jobId, us[i]) {
      assert us[i] in us;
      ReadyIsDone(cfg, tasks, executors, lock, t.id.jobId, us[i]);
    }
    CollectKept(tasks, executors, tasks', executors', t.id.jobId, us);
  }

  lemma AllRightPlansKept(cfg: Config, tasks: Tasks, plans: StagePlans, executors: Executors,
                          tasks': Tasks, plans': StagePlans, executors': Executors, workers: Workers, lock: Lock)
    requires Progresses(tasks, tasks') && PlansKept(plans, plans') && ExecutorsKept(executors, executors')
    requires Registered(cfg, tasks, executors, lock) && AllRightPlans(tasks, plans, executors, workers, lock)
    ensures AllRightPlans(tasks', plans', executors', workers, lock)
  {
    hide RightPlan, Registered, Progresses, PlansKept, ExecutorsKept;
    forall t | RightPlan(tasks, plans, executors, t) ensures RightPlan(tasks', plans', executors', t) {
      RightPlanKept(cfg, lock, tasks, plans, executors, tasks', plans', executors', t);
    }
  }

  // ---- The snapshot of a poll ----

  /** A stored task's plan is stored, and so are all the tasks it waits for. */
  ghost predicate Closed(keys: set<PartitionId>, plans: StagePlans) {
    forall pid | pid in keys :: KeyOf(pid) in plans && InputsKnown(keys, pid.jobId, plans[KeyOf(pid)])
  }

  predicate InputsKnown(keys: set<PartitionId>, jobId: string, plan: Plan) {
    forall u <- FindUnresolvedShuffles(plan) :: ShuffleKnown(keys, jobId, u)
  }

  predicate ShuffleKnown(keys: set<PartitionId>, jobId: string, u: Plan)
    requires u.UnresolvedShuffle?
  {
    forall k, p: nat | 0 <= k < |u.stageIds| && p < u.partitionCount :: PartitionId(jobId, u.stageIds[k], p) in keys
  }

  /** Among the tasks stored when the scan began, those still to come are above all it has seen. */
  ghost predicate Rising(present: set<PartitionId>, kvs: Tasks) {
    forall k, q | k in kvs && q in present && q !in kvs :: Precedes(k, q)
  }

  /** What has been stored since is pending: nobody hands tasks out while the lock is held. */
  ghost predicate NewArePending(tasks: Tasks, present: set<PartitionId>) {
    forall pid | pid in tasks && pid !in present :: tasks[pid].Pending?
  }

  /** What the poll in progress has read is still so; what was there when its scan began is self-contained, and in the
      scan by its end. The same goes for what it has read of a job. */
  ghost predicate Snapshot(tasks: Tasks, plans: StagePlans, executors: Executors, lock: Lock) {
    && (lock.Scanning? ==>
          && PartOf(lock.kvs, tasks) && lock.present <= tasks.Keys && Closed(lock.present, plans)
          && Rising(lock.present, lock.kvs))
    && (lock.Scanned? ==>
          && PartOf(lock.kvs, tasks) && lock.present <= lock.kvs.Keys && Closed(lock.present, plans)
          && lock.executors == executors)
    && (lock.Reading? ==> lock.present <= tasks.Keys && NewArePending(tasks, lock.present))
    && (lock.Judged? ==>
          && lock.present <= tasks.Keys && NewArePending(tasks, lock.present)
          && ReadOf(lock.present, lock.kvs, tasks, lock.jobId)
          && Verdict(lock.kvs, executors, lock.jobId, lock.verdict))
  }

  lemma ClosedKept(keys: set<PartitionId>, plans: StagePlans, plans': StagePlans)
    requires Closed(keys, plans) && PlansKept(plans, plans')
    ensures Closed(keys, plans')
  {
  }

  /** What is ready in the snapshot is ready now. */
  lemma SnapshotReady(tasks: Tasks, plans: StagePlans, executors: Executors, lock: Lock, t: Task)
    requires lock.Scanned? && Snapshot(tasks, plans, executors, lock)
    requires Assignable(lock.kvs, plans, lock.executors, Some(t))
    ensures t.id in tasks && tasks[t.id].Pending? && Launchable(tasks, plans, t.id)
  {
    hide Verdict, Assignable;
    FoundIsReady(lock.kvs, plans, lock.executors, t);
    var plan := plans[KeyOf(t.id)];
    assert Progresses(lock.kvs, tasks);
    InputsReadyKept(lock.kvs, tasks, t.id.jobId, plan);
  }

  /** The plan made from the snapshot is right now. */
  lemma AssignedPlanRight(cfg: Config, tasks: Tasks, plans: StagePlans, executors: Executors, lock: Lock, t: Task)
    requires lock.Scanned? && Snapshot(tasks, plans, executors, lock)
    requires Registered(cfg, lock.kvs, executors, lock)
    requires Assignable(lock.kvs, plans, lock.executors, Some(t))
    ensures RightPlan(tasks, plans, executors, t)
  {
    hide Resolve, Collect, Registered, InputsReady, Verdict, Assignable;
    FoundIsReady(lock.kvs, plans, lock.executors, t);
    assert Progresses(lock.kvs, tasks);
    assert RightPlan(lock.kvs, plans, executors, t);
    RightPlanKept(cfg, lock, lock.kvs, plans, executors, tasks, plans, executors, t);
  }
}
