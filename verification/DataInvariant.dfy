/** Whatever an executor has written for a task is what the task stands for. */
module DataInvariant {
  import opened Plans
  import opened StagePlanner
  import opened ShuffleResolution
  import opened StageMeaning
  import opened Scheduling
  import opened JobStages
  import opened Keys
  import opened Protocol
  import opened StorageInvariant
  import opened OwnershipInvariant
  import opened TaskInvariants

  // ---- Stage facts of every job ----

  ghost predicate GoodJob(eng: Engine, jobId: string, sub: Submission) {
    match sub
    case Accepted(plan, _) => Query(eng, jobId, plan)
    case Started(plan, _) => Query(eng, jobId, plan)
    case Saving(plan, stages, counts, _, _) =>
      SlashFree(jobId) && GoodStages(eng, jobId, plan, stages) && counts == CountsOf(eng, stages)
    case Aborted(_) => true
  }

  ghost predicate GoodJobs(eng: Engine, subs: Submissions) {
    forall j | j in subs :: GoodJob(eng, j, subs[j])
  }

  lemma CutIsGood(eng: Engine, j: string, plan: Plan)
    requires Query(eng, j, plan)
    ensures
      var stages := QueryStages(eng, j, plan, 0);
      var sub := Saving(plan, stages, CountsOf(eng, stages), 0, 0);
      GoodJob(eng, j, sub) && GoodCursor(sub)
  {
    var stages := QueryStages(eng, j, plan, 0);
    PlannedStagesAreGood(eng, j, plan);
    forall i | 0 <= i < |stages| ensures stages[i].stageId == i + 1 && CountsOf(eng, stages)[i] > 0 {
      assert GoodStage(eng, stages, i);
    }
  }

  lemma SaveKeepsGoodJob(eng: Engine, j: string, sub: Submission)
    requires GoodJob(eng, j, sub) && sub.Saving? && sub.stage < |sub.counts|
    ensures GoodJob(eng, j, Advance(sub))
  {
  }

  lemma OneGoodJob(eng: Engine, subs: Submissions, j: string, sub: Submission)
    requires GoodJobs(eng, subs) && GoodJob(eng, j, sub)
    ensures GoodJobs(eng, subs[j := sub])
  {
  }

  lemma OneStageFacts(eng: Engine, jobId: string, plan: Plan, stages: seq<QueryStage>, id: nat)
    requires GoodStages(eng, jobId, plan, stages) && 1 <= id <= |stages|
    ensures
      var m := StagesById(stages);
      && stages[id - 1].stageId == id && GoodStage(eng, stages, id - 1)
      && Dag(eng, m) && id in m && m[id] == stages[id - 1].child && WellStaged(eng, m, id, m[id])
  {
    hide StagesById, WellStaged, GoodStage, Inline;
    assert stages[id - 1].stageId == id;
  }

  /** What is known of stage `id` of a job being saved. */
  lemma StageFacts(eng: Engine, subs: Submissions, jobId: string, id: nat)
    requires GoodJobs(eng, subs) && jobId in subs && subs[jobId].Saving? && 1 <= id <= |subs[jobId].stages|
    ensures
      var sub := subs[jobId];
      var m := StagesById(sub.stages);
      && |sub.counts| == |sub.stages| && sub.counts[id - 1] == eng.Count(sub.stages[id - 1].child)
      && sub.stages[id - 1].stageId == id
      && GoodStage(eng, sub.stages, id - 1)
      && Dag(eng, m) && id in m && m[id] == sub.stages[id - 1].child
      && WellStaged(eng, m, id, m[id])
  {
    hide StagesById, WellStaged, GoodStage, GoodStages, Dag;
    var sub := subs[jobId];
    assert GoodJob(eng, jobId, sub);
    OneStageFacts(eng, jobId, sub.plan, sub.stages, id);
  }

  /** A job's stages stay what they are once planned. */
  ghost predicate JobsKept(subs: Submissions, subs': Submissions) {
    forall j | j in subs && subs[j].Saving? ::
      && j in subs' && subs'[j].Saving?
      && subs'[j].plan == subs[j].plan && subs'[j].stages == subs[j].stages && subs'[j].counts == subs[j].counts
  }

  // ---- Rows ----

  /** The rows are the partition's share of what its stage stands for. */
  ghost predicate RightRows(eng: Engine, subs: Submissions, pid: PartitionId, rows: Rows) {
    && pid.jobId in subs && subs[pid.jobId].Saving?
    && var m := StagesById(subs[pid.jobId].stages);
       && pid.stageId in m
       && var t := StageTable(eng, m, pid.stageId);
          t.Some? && pid.partitionId < |t.value| && rows == t.value[pid.partitionId]
  }

  ghost predicate StoredRows(eng: Engine, subs: Submissions, stores: Stores) {
    forall a, pid | Fetch(stores, a, pid).Some? :: RightRows(eng, subs, pid, Fetch(stores, a, pid).value)
  }

  predicate There(cfg: Config, stores: Stores, e: string, pid: PartitionId) {
    e in cfg.executors && Fetch(stores, AddressOf(cfg.executors[e].meta), pid).Some?
  }

  /** A completed task's output is where the scheduler believes it to be. */
  ghost predicate OutputsThere(cfg: Config, tasks: Tasks, stores: Stores) {
    forall pid | pid in tasks && tasks[pid].Completed? :: There(cfg, stores, tasks[pid].executorId, pid)
  }

  ghost predicate ReportedThere(cfg: Config, stores: Stores, reports: seq<Report>) {
    forall i | 0 <= i < |reports| && reports[i].status.Completed? ::
      There(cfg, stores, reports[i].status.executorId, reports[i].partitionId)
  }

  ghost predicate FinishedThere(cfg: Config, stores: Stores, finished: Tasks) {
    forall pid | pid in finished && finished[pid].Completed? :: There(cfg, stores, finished[pid].executorId, pid)
  }

  /** What an executor is about to report as completed is there. */
  ghost predicate WorkerReportsThere(cfg: Config, stores: Stores, w: Worker) {
    && FinishedThere(cfg, stores, w.finished) && ReportedThere(cfg, stores, w.channel)
    && (HasReports(w.rpc) ==> ReportedThere(cfg, stores, w.rpc.reports))
  }

  ghost predicate ReportsThere(cfg: Config, workers: Workers, stores: Stores) {
    forall e | e in workers :: WorkerReportsThere(cfg, stores, workers[e])
  }

  lemma RightRowsKept(eng: Engine, subs: Submissions, subs': Submissions, pid: PartitionId, rows: Rows)
    requires JobsKept(subs, subs') && RightRows(eng, subs, pid, rows)
    ensures RightRows(eng, subs', pid, rows)
  {
    hide StageTable, StagesById;
  }

  lemma StoredRowsKept(eng: Engine, subs: Submissions, subs': Submissions, stores: Stores)
    requires JobsKept(subs, subs') && StoredRows(eng, subs, stores)
    ensures StoredRows(eng, subs', stores)
  {
    hide RightRows, JobsKept, Fetch;
    forall pid, rows | RightRows(eng, subs, pid, rows) ensures RightRows(eng, subs', pid, rows) {
      RightRowsKept(eng, subs, subs', pid, rows);
    }
  }

  /** Once all tasks of a stage are completed, its output is in place, in partition order. */
  lemma StageInPlace(cfg: Config, tasks: Tasks, executors: Executors, lock: Lock, subs: Submissions, stores: Stores,
                     jobId: string, id: nat, count: nat)
    requires Registered(cfg, tasks, executors, lock)
    requires StoredRows(cfg.eng, subs, stores) && OutputsThere(cfg, tasks, stores)
    requires jobId in subs && subs[jobId].Saving?
    requires
      var m := StagesById(subs[jobId].stages);
      Dag(cfg.eng, m) && id in m && count == cfg.eng.Count(m[id])
    requires forall p: nat | p < count :: Done(tasks, executors, PartitionId(jobId, id, p))
    ensures Materialized(cfg.eng, StagesById(subs[jobId].stages), stores, jobId, id,
                         StageLocations(tasks, executors, jobId, id, count))
  {
    hide Dag, Inline, StagesById;
    var m := StagesById(subs[jobId].stages);
    var locations := StageLocations(tasks, executors, jobId, id, count);
    StageTableCount(cfg.eng, m, id);
    forall p | 0 <= p < count ensures ReadPartition(stores, locations, p) == Some(StageTable(cfg.eng, m, id).value[p]) {
      PartitionInPlace(cfg, tasks, executors, lock, subs, stores, PartitionId(jobId, id, p));
      assert locations[p] == LocationOf(tasks, executors, PartitionId(jobId, id, p));
    }
  }

  lemma PartitionInPlace(cfg: Config, tasks: Tasks, executors: Executors, lock: Lock, subs: Submissions, stores: Stores,
                         pid: PartitionId)
    requires Registered(cfg, tasks, executors, lock) && Done(tasks, executors, pid)
    requires StoredRows(cfg.eng, subs, stores) && OutputsThere(cfg, tasks, stores)
    ensures
      var found := Fetch(stores, AddressOf(LocationOf(tasks, executors, pid).executorMeta), pid);
      found.Some? && RightRows(cfg.eng, subs, pid, found.value)
  {
    hide RightRows;
    assert There(cfg, stores, tasks[pid].executorId, pid);
  }

  lemma InputsSupplied(cfg: Config, tasks: Tasks, plans: StagePlans, executors: Executors, lock: Lock,
                       subs: Submissions, stores: Stores,
                       pid: PartitionId)
    requires GoodJobs(cfg.eng, subs) && Registered(cfg, tasks, executors, lock)
    requires StoredRows(cfg.eng, subs, stores) && OutputsThere(cfg, tasks, stores)
    requires pid.jobId in subs && subs[pid.jobId].Saving? && 1 <= pid.stageId <= |subs[pid.jobId].stages|
    requires InputsReady(tasks, pid.jobId, subs[pid.jobId].stages[pid.stageId - 1].child)
    ensures
      var sub := subs[pid.jobId];
      var q := sub.stages[pid.stageId - 1].child;
      AllSupplied(cfg.eng, StagesById(sub.stages), stores, pid.jobId,
                  Collect(tasks, executors, pid.jobId, FindUnresolvedShuffles(q)), q)
  {
    hide StoredRows, OutputsThere, Registered, Materialized, Collect, StagesById, GoodJobs, Dag, WellStaged;
    var sub := subs[pid.jobId];
    var m := StagesById(sub.stages);
    var q := sub.stages[pid.stageId - 1].child;
    var us := FindUnresolvedShuffles(q);
    var locs := Collect(tasks, executors, pid.jobId, us);
    StageFacts(cfg.eng, subs, pid.jobId, pid.stageId);
    forall u | u in us ensures Supplied(cfg.eng, m, stores, pid.jobId, locs, u) {
      var k :| 0 <= k < |us| && us[k] == u;
      var id := u.stageIds[0];
      CollectSimple(tasks, executors, pid.jobId, us, k);
      ReadyIsDone(cfg, tasks, executors, lock, pid.jobId, u);
      StageFacts(cfg.eng, subs, pid.jobId, id);
      forall p: nat | p < u.partitionCount ensures Done(tasks, executors, PartitionId(pid.jobId, id, p)) {
        assert Done(tasks, executors, PartitionId(pid.jobId, u.stageIds[0], p));
      }
      StageInPlace(cfg, tasks, executors, lock, subs, stores, pid.jobId, id, u.partitionCount);
    }
  }

  /** Running a task computes its share of what its stage stands for. */
  lemma OutputIsRight(cfg: Config, tasks: Tasks, plans: StagePlans, executors: Executors, lock: Lock, subs: Submissions,
                      stores: Stores, t: Task)
    requires GoodJobs(cfg.eng, subs) && Registered(cfg, tasks, executors, lock)
    requires StoredRows(cfg.eng, subs, stores) && OutputsThere(cfg, tasks, stores)
    requires Storage(tasks.Keys, plans, subs) && t.id in tasks && RightPlan(tasks, plans, executors, t)
    ensures
      var table := cfg.eng.Execute(stores, t.plan);
      table.Some? && t.id.partitionId < |table.value| && RightRows(cfg.eng, subs, t.id, table.value[t.id.partitionId])
  {
    hide StoredRows, OutputsThere, Registered, Storage, AllSupplied, Collect, Resolve, InputsReady, StagesById;
    hide GoodJobs, Dag, WellStaged;
    StoredTask(tasks.Keys, plans, subs, t.id);
    var sub := subs[t.id.jobId];
    var m := StagesById(sub.stages);
    var q := sub.stages[t.id.stageId - 1].child;
    StageFacts(cfg.eng, subs, t.id.jobId, t.id.stageId);
    InputsSupplied(cfg, tasks, plans, executors, lock, subs, stores, t.id);
    ResolvedMeans(cfg.eng, m, t.id.stageId, q, stores, t.id.jobId,
                  Collect(tasks, executors, t.id.jobId, FindUnresolvedShuffles(q)));
    StageTableCount(cfg.eng, m, t.id.stageId);
  }
}
