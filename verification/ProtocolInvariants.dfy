/** The invariant of the protocol, kept by every step. */
module ProtocolInvariants {
  import opened Plans
  import opened StagePlanner
  import opened ShuffleResolution
  import opened Scheduling
  import opened Keys
  import opened TaskOrder
  import opened JobStages
  import opened Protocol
  import opened StorageInvariant
  import opened OwnershipInvariant
  import opened TaskInvariants
  import opened DataInvariant

  ghost predicate Inv(cfg: Config, s: State) {
    && s.workers.Keys == cfg.executors.Keys
    && Storage(s.tasks.Keys, s.plans, s.submissions)
    && GoodJobs(cfg.eng, s.submissions)
    && Ownership(s.tasks, s.workers, s.lock)
    && Crew(cfg, s.workers, s.lock)
    && Registered(cfg, s.tasks, s.executors, s.lock)
    && Dependencies(s.tasks, s.plans)
    && AllRightPlans(s.tasks, s.plans, s.executors, s.workers, s.lock)
    && Snapshot(s.tasks, s.plans, s.executors, s.lock)
    && StoredRows(cfg.eng, s.submissions, s.stores)
    && OutputsThere(cfg, s.tasks, s.stores)
    && ReportsThere(cfg, s.workers, s.stores)
  }

  // ---- Submission ----

  /** A submission that has saved nothing yet changes. */
  lemma NewJobKeepsInv(cfg: Config, s: State, s': State, j: string, sub: Submission)
    requires Inv(cfg, s) && s' == s.(jobs := s'.jobs, submissions := s.submissions[j := sub])
    requires j in s.submissions ==> !s.submissions[j].Saving?
    requires GoodCursor(sub) && GoodJob(cfg.eng, j, sub) && (sub.Saving? ==> sub.stage == 0 && sub.next == 0)
    ensures Inv(cfg, s')
  {
    hide Storage, GoodJobs, Ownership, Crew, Registered, Dependencies, AllRightPlans, Snapshot, StoredRows;
    hide OutputsThere, ReportsThere;
    hide GoodCursor, GoodJob;
    StorageKeptByNewJob(s.tasks.Keys, s.plans, s.submissions, j, sub);
    OneGoodJob(cfg.eng, s.submissions, j, sub);
    StoredRowsKept(cfg.eng, s.submissions, s'.submissions, s.stores);
  }

  lemma SubmitKeepsInv(cfg: Config, s: State, j: string, plan: Plan)
    requires Inv(cfg, s) && j !in s.submissions && Query(cfg.eng, j, plan)
    ensures Inv(cfg, DoSubmit(s, j, plan))
  {
    hide Inv;
    NewJobKeepsInv(cfg, s, DoSubmit(s, j, plan), j, Accepted(plan, s.executors != map[]));
  }

  lemma RejectKeepsInv(cfg: Config, s: State, j: string, message: string)
    requires Inv(cfg, s) && j in s.submissions && s.submissions[j].Accepted?
    ensures Inv(cfg, DoReject(s, j, message))
  {
    hide Inv;
    NewJobKeepsInv(cfg, s, DoReject(s, j, message), j, Aborted(message));
  }

  lemma StartKeepsInv(cfg: Config, s: State, j: string)
    requires Inv(cfg, s) && GoodJobs(cfg.eng, s.submissions) && j in s.submissions && s.submissions[j].Accepted?
    ensures Inv(cfg, DoStart(s, j))
  {
    hide Inv;
    var sub := s.submissions[j];
    assert GoodJob(cfg.eng, j, sub);
    NewJobKeepsInv(cfg, s, DoStart(s, j), j, Started(sub.plan, sub.hasExecutors));
  }

  lemma CutKeepsInv(cfg: Config, s: State, j: string)
    requires Inv(cfg, s) && GoodJobs(cfg.eng, s.submissions) && j in s.submissions && s.submissions[j].Started?
    ensures Inv(cfg, DoCut(cfg.eng, s, j))
  {
    hide Inv, GoodStages, GoodJobs, Query, QueryStages, CountsOf;
    var sub := s.submissions[j];
    GoodJobOf(cfg.eng, s.submissions, j);
    if sub.hasExecutors {
      var stages := QueryStages(cfg.eng, j, sub.plan, 0);
      CutIsGood(cfg.eng, j, sub.plan);
      NewJobKeepsInv(cfg, s, DoCut(cfg.eng, s, j), j, Saving(sub.plan, stages, CountsOf(cfg.eng, stages), 0, 0));
    } else {
      NewJobKeepsInv(cfg, s, DoCut(cfg.eng, s, j), j, Aborted(NoExecutors()));
    }
  }

  lemma GoodCursorOf(keys: set<PartitionId>, plans: StagePlans, subs: Submissions, j: string)
    requires Storage(keys, plans, subs) && j in subs
    ensures GoodCursor(subs[j])
  {
  }

  lemma GoodJobOf(eng: Engine, subs: Submissions, j: string)
    requires GoodJobs(eng, subs) && j in subs
    ensures GoodJob(eng, j, subs[j])
  {
  }

  /** What a save step does to the store, and nothing else. */
  ghost predicate Adds(s: State, s': State) {
    && (forall pid | pid in s.tasks :: pid in s'.tasks && s'.tasks[pid] == s.tasks[pid])
    && (forall pid | pid in s'.tasks && pid !in s.tasks :: s'.tasks[pid] == Pending)
    && PlansKept(s.plans, s'.plans)
    && s' == s.(tasks := s'.tasks, plans := s'.plans, submissions := s'.submissions)
  }

  lemma SaveKeepsInv(cfg: Config, s: State, j: string)
    requires Inv(cfg, s) && CanSave(s, j)
    ensures Inv(cfg, DoSave(s, j)) && Adds(s, DoSave(s, j))
  {
    hide Storage, GoodJobs, Ownership, Crew, Registered, Dependencies, AllRightPlans, Snapshot, StoredRows;
    hide OutputsThere, ReportsThere;
    hide GoodCursor, GoodJob, DoSave;
    var s' := DoSave(s, j);
    SaveFrame(s, j);
    GoodCursorOf(s.tasks.Keys, s.plans, s.submissions, j);
    GoodJobOf(cfg.eng, s.submissions, j);
    StorageKeptBySave(s, s', j);
    SaveOnlyAdds(s, s', j);
    SaveKeepsGoodJob(cfg.eng, j, s.submissions[j]);
    OneGoodJob(cfg.eng, s.submissions, j, s'.submissions[j]);
    NewTasksKeepOwnership(s.tasks, s'.tasks, s.workers, s.lock);
    AddsKeepsTaskFacts(cfg, s, s');
    AllRightPlansKept(cfg, s.tasks, s.plans, s.executors, s'.tasks, s'.plans, s'.executors, s.workers, s.lock);
    StoredRowsKept(cfg.eng, s.submissions, s'.submissions, s.stores);
  }

  lemma SaveFrame(s: State, j: string)
    requires CanSave(s, j)
    ensures
      var s' := DoSave(s, j);
      && s' == s.(tasks := s'.tasks, plans := s'.plans, submissions := s'.submissions)
      && s'.submissions == s.submissions[j := Advance(s.submissions[j])]
  {
  }

  lemma AddsKeepsTaskFacts(cfg: Config, s: State, s': State)
    requires Adds(s, s') && Registered(cfg, s.tasks, s.executors, s.lock) && Dependencies(s.tasks, s.plans)
    requires Snapshot(s.tasks, s.plans, s.executors, s.lock) && OutputsThere(cfg, s.tasks, s.stores)
    ensures Progresses(s.tasks, s'.tasks)
    ensures Registered(cfg, s'.tasks, s'.executors, s'.lock) && Dependencies(s'.tasks, s'.plans)
    ensures Snapshot(s'.tasks, s'.plans, s'.executors, s'.lock) && OutputsThere(cfg, s'.tasks, s'.stores)
  {
    hide Launchable, Closed, Rising, Verdict;
    assert forall pid | pid in s.tasks :: Moves(s.tasks[pid], s'.tasks[pid]);
    DependenciesKept(s.tasks, s.plans, s'.tasks, s'.plans);
    if s.lock.Scanning? || s.lock.Scanned? {
      ClosedKept(s.lock.present, s.plans, s'.plans);
    }
  }

  // ---- Executors ----

  /** An executor moves on, holding no more than before. */
  lemma WorkerStepKeepsInv(cfg: Config, s: State, e: string, w: Worker)
    requires Inv(cfg, s) && e in s.workers
    requires forall pid :: Held(w, s.lock, e, pid) <= Held(s.workers[e], s.lock, e, pid)
    requires CrewMember(cfg, w, s.lock, e)
    requires RightPlans(s.tasks, s.plans, s.executors, w)
    requires WorkerReportsThere(cfg, s.stores, w)
    ensures Inv(cfg, SetWorker(s, e, w))
  {
    hide Storage, GoodJobs, Ownership, Crew, Registered, Dependencies, Snapshot, StoredRows, OutputsThere;
    hide Held, CrewMember, RightPlans, WorkerReportsThere;
    WorkerStepKeepsOwnership(s.tasks, s.workers, s.lock, e, w);
    MemberKeepsCrew(cfg, s.workers, s.lock, e, w);
  }

  /** What is known of one executor. */
  lemma WorkerFacts(cfg: Config, s: State, e: string)
    requires Inv(cfg, s) && e in s.workers
    ensures e in cfg.executors
    ensures HeldOnce(s.tasks, s.workers[e], s.lock, e) && CrewMember(cfg, s.workers[e], s.lock, e)
    ensures RightPlans(s.tasks, s.plans, s.executors, s.workers[e])
    ensures WorkerReportsThere(cfg, s.stores, s.workers[e])
  {
    hide Storage, GoodJobs, Registered, Dependencies, Snapshot, StoredRows, OutputsThere;
    hide Held, RightPlans, WorkerReportsThere, HeldOnce;
  }

  lemma SampleKeepsInv(cfg: Config, s: State, e: string)
    requires Inv(cfg, s) && e in s.workers && s.workers[e].rpc.Idle?
    ensures Inv(cfg, SetWorker(s, e, SampleStatuses(s.workers[e])))
  {
    hide Inv, CrewMember, FinishedThere, ReportedThere, RightPlan, HeldOnce, Held;
    var w := s.workers[e];
    WorkerFacts(cfg, s, e);
    forall pid ensures Held(SampleStatuses(w), s.lock, e, pid) <= Held(w, s.lock, e, pid) {
      SampleKeepsHeld(w, s.lock, e, pid);
    }
    SampleKeepsMember(cfg, w, s.lock, e);
    NothingReported(cfg, s.stores);
    WorkerStepKeepsInv(cfg, s, e, SampleStatuses(w));
  }

  lemma SendKeepsInv(cfg: Config, s: State, e: string)
    requires Inv(cfg, s) && e in s.workers && s.workers[e].rpc.Sampled?
    ensures Inv(cfg, SetWorker(s, e, SendPoll(s.workers[e])))
  {
    hide Inv, CrewMember, FinishedThere, ReportedThere, RightPlan, HeldOnce, Held;
    var w := s.workers[e];
    WorkerFacts(cfg, s, e);
    forall pid ensures Held(SendPoll(w), s.lock, e, pid) <= Held(w, s.lock, e, pid) {
      SendKeepsHeld(w, s.lock, e, pid);
    }
    SendKeepsMember(cfg, w, s.lock, e);
    WorkerStepKeepsInv(cfg, s, e, SendPoll(w));
  }

  lemma AnnounceKeepsInv(cfg: Config, s: State, e: string, id: PartitionId)
    requires Inv(cfg, s) && e in s.workers && id in s.workers[e].finished
    ensures Inv(cfg, SetWorker(s, e, AnnounceTask(s.workers[e], id)))
  {
    hide Inv, CrewMember, ReportedThere, RightPlan, HeldOnce, Held;
    var w := s.workers[e];
    WorkerFacts(cfg, s, e);
    forall pid ensures Held(AnnounceTask(w, id), s.lock, e, pid) <= Held(w, s.lock, e, pid) {
      AnnounceKeepsHeld(w, s.lock, e, id, pid);
    }
    AnnounceKeepsMember(cfg, w, s.lock, e, id);
    ReportedOneMore(cfg, s.stores, w.channel, Report(id, w.finished[id]));
    WorkerStepKeepsInv(cfg, s, e, AnnounceTask(w, id));
  }

  lemma NothingReported(cfg: Config, stores: Stores)
    ensures ReportedThere(cfg, stores, [])
  {
  }

  lemma LossKeepsInv(cfg: Config, s: State, e: string)
    requires Inv(cfg, s) && e in s.workers && (s.workers[e].rpc.Sent? || s.workers[e].rpc.Answered?)
    ensures Inv(cfg, SetWorker(s, e, s.workers[e].(rpc := Idle)))
  {
    hide Inv, CrewMember, FinishedThere, ReportedThere, RightPlan, HeldOnce;
    var w := s.workers[e];
    WorkerFacts(cfg, s, e);
    assert forall pid :: Held(w.(rpc := Idle), s.lock, e, pid) <= Held(w, s.lock, e, pid);
    LossKeepsMember(cfg, w, s.lock, e);
    WorkerStepKeepsInv(cfg, s, e, w.(rpc := Idle));
  }

  lemma ReceiveKeepsInv(cfg: Config, s: State, e: string)
    requires Inv(cfg, s) && e in s.workers && s.workers[e].rpc.Answered?
    ensures Inv(cfg, SetWorker(s, e, ReceiveTask(s.workers[e])))
  {
    hide Inv, CrewMember, FinishedThere, ReportedThere, RightPlan, HeldOnce, Held;
    var w := s.workers[e];
    WorkerFacts(cfg, s, e);
    forall pid ensures Held(ReceiveTask(w), s.lock, e, pid) <= Held(w, s.lock, e, pid) {
      ReceiveKeepsHeld(s.tasks, w, s.lock, e, pid);
    }
    ReceiveKeepsHeld(s.tasks, w, s.lock, e, PartitionId("", 0, 0));
    ReceiveKeepsMember(cfg, w, s.lock, e);
    ReceivedPlanRight(s.tasks, s.plans, s.executors, w);
    WorkerStepKeepsInv(cfg, s, e, ReceiveTask(w));
  }

  lemma ReceivedPlanRight(tasks: Tasks, plans: StagePlans, executors: Executors, w: Worker)
    requires RightPlans(tasks, plans, executors, w) && w.rpc.Answered?
    ensures RightPlans(tasks, plans, executors, ReceiveTask(w))
  {
    hide RightPlan;
    if w.rpc.task.Some? {
      assert w.rpc.task.value == Task(w.rpc.task.value.id, w.rpc.task.value.plan);
    }
  }

  lemma MoreThere(cfg: Config, tasks: Tasks, workers: Workers, stores: Stores, stores': Stores)
    requires forall e, pid :: There(cfg, stores, e, pid) ==> There(cfg, stores', e, pid)
    requires OutputsThere(cfg, tasks, stores) && ReportsThere(cfg, workers, stores)
    ensures OutputsThere(cfg, tasks, stores') && ReportsThere(cfg, workers, stores')
  {
    hide There;
    forall e | e in workers ensures WorkerReportsThere(cfg, stores', workers[e]) {
      assert WorkerReportsThere(cfg, stores, workers[e]);
    }
  }

  lemma StoreKeepsRows(eng: Engine, subs: Submissions, stores: Stores, a: Address, pid: PartitionId, rows: Rows)
    requires StoredRows(eng, subs, stores) && RightRows(eng, subs, pid, rows)
    ensures StoredRows(eng, subs, Store(stores, a, pid, rows))
  {
    hide RightRows, Fetch;
  }

  /** An executor writes the rows its task stands for. */
  lemma StoreKeepsInv(cfg: Config, s: State, a: Address, pid: PartitionId, rows: Rows)
    requires Inv(cfg, s) && RightRows(cfg.eng, s.submissions, pid, rows)
    ensures Inv(cfg, s.(stores := Store(s.stores, a, pid, rows)))
  {
    hide Storage, GoodJobs, Ownership, Crew, Registered, Dependencies, AllRightPlans, Snapshot, RightRows, StoredRows;
    hide OutputsThere, ReportsThere;
    hide Fetch;
    StoreKeepsRows(cfg.eng, s.submissions, s.stores, a, pid, rows);
    MoreThere(cfg, s.tasks, s.workers, s.stores, Store(s.stores, a, pid, rows));
  }

  lemma FinishKeepsInv(cfg: Config, s: State, e: string, pid: PartitionId, error: Option<string>)
    requires Inv(cfg, s) && e in s.workers && e in cfg.executors && pid in s.workers[e].inFlight
    requires error.None? ==> Output(cfg.eng, s, e, pid).Some?
    ensures Inv(cfg, DoFinish(cfg, s, e, pid, error))
  {
    hide Inv, RightRows, Held, CrewMember, FinishedThere, ReportedThere, RightPlan, HeldOnce, Store, TaskFailure;
    var w := s.workers[e];
    var s1 := s;
    if error.None? {
      var rows := Output(cfg.eng, s, e, pid).value;
      InFlightOutputRight(cfg, s, e, pid);
      StoreKeepsInv(cfg, s, AddressOf(cfg.executors[e].meta), pid, rows);
      s1 := s.(stores := Store(s.stores, AddressOf(cfg.executors[e].meta), pid, rows));
    }
    WorkerFacts(cfg, s1, e);
    forall q ensures Held(FinishTask(w, e, pid, error), s.lock, e, q) <= Held(w, s.lock, e, q) {
      FinishKeepsHeld(s.tasks, w, s.lock, e, pid, error, q);
    }
    FinishKeepsMember(cfg, w, s.lock, e, pid, error);
    FinishedOneMore(cfg, s1.stores, w.finished, pid, OutcomeOf(e, error)) by {
      if error.None? {
        StoredIsThere(cfg, s.stores, e, pid, Output(cfg.eng, s, e, pid).value);
      }
    }
    FinishedPlansRight(s.tasks, s.plans, s.executors, w, e, pid, error);
    WorkerStepKeepsInv(cfg, s1, e, FinishTask(w, e, pid, error));
  }

  lemma InFlightOutputRight(cfg: Config, s: State, e: string, pid: PartitionId)
    requires Inv(cfg, s) && e in s.workers && pid in s.workers[e].inFlight
    ensures Output(cfg.eng, s, e, pid).Some?
    ensures RightRows(cfg.eng, s.submissions, pid, Output(cfg.eng, s, e, pid).value)
  {
    hide Storage, GoodJobs, Registered, Dependencies, Snapshot, StoredRows, OutputsThere, RightRows, RightPlan, Crew;
    var w := s.workers[e];
    assert HeldOnce(s.tasks, w, s.lock, e);
    assert Held(w, s.lock, e, pid) > 0;
    assert RightPlans(s.tasks, s.plans, s.executors, w);
    OutputIsRight(cfg, s.tasks, s.plans, s.executors, s.lock, s.submissions, s.stores, Task(pid, w.inFlight[pid]));
  }

  lemma StoredIsThere(cfg: Config, stores: Stores, e: string, pid: PartitionId, rows: Rows)
    requires e in cfg.executors
    ensures There(cfg, Store(stores, AddressOf(cfg.executors[e].meta), pid, rows), e, pid)
  {
  }

  lemma FinishedOneMore(cfg: Config, stores: Stores, finished: Tasks, pid: PartitionId, status: Status)
    requires FinishedThere(cfg, stores, finished)
    requires status.Completed? ==> There(cfg, stores, status.executorId, pid)
    ensures FinishedThere(cfg, stores, finished[pid := status])
  {
  }

  lemma ReportedOneMore(cfg: Config, stores: Stores, reports: seq<Report>, r: Report)
    requires ReportedThere(cfg, stores, reports)
    requires r.status.Completed? ==> There(cfg, stores, r.status.executorId, r.partitionId)
    ensures ReportedThere(cfg, stores, reports + [r])
  {
  }

  lemma FinishedPlansRight(tasks: Tasks, plans: StagePlans, executors: Executors, w: Worker, e: string,
                           pid: PartitionId, error: Option<string>)
    requires RightPlans(tasks, plans, executors, w)
    ensures RightPlans(tasks, plans, executors, FinishTask(w, e, pid, error))
  {
    hide RightPlan;
  }

  // ---- The scheduler ----

  lemma ReportsRegistered(cfg: Config, tasks: Tasks, executors: Executors, reports: seq<Report>, e: string, lock': Lock)
    requires Registered(cfg, tasks, executors, Unlocked) && e in cfg.executors && GoodReports(reports, e)
    requires lock'.Saved? && lock'.executorId == e
    ensures Registered(cfg, SaveReports(tasks, reports), executors[e := cfg.executors[e].meta], lock')
    ensures ExecutorsKept(executors, executors[e := cfg.executors[e].meta])
  {
    var tasks' := SaveReports(tasks, reports);
    forall pid | pid in tasks' && (tasks'[pid].Running? || tasks'[pid].Completed?)
      ensures tasks'[pid].executorId in executors[e := cfg.executors[e].meta]
    {
      SavedReport(tasks, reports, pid);
    }
  }

  lemma ReportedOutputsThere(cfg: Config, tasks: Tasks, stores: Stores, reports: seq<Report>)
    requires OutputsThere(cfg, tasks, stores) && ReportedThere(cfg, stores, reports)
    ensures OutputsThere(cfg, SaveReports(tasks, reports), stores)
  {
    hide There;
    var tasks' := SaveReports(tasks, reports);
    forall pid | pid in tasks' && tasks'[pid].Completed? ensures There(cfg, stores, tasks'[pid].executorId, pid) {
      SavedReport(tasks, reports, pid);
    }
  }

  lemma BeginPollWorkers(cfg: Config, tasks: Tasks, plans: StagePlans, executors: Executors, workers: Workers,
                         stores: Stores, e: string, lock': Lock)
    requires AllRightPlans(tasks, plans, executors, workers, Unlocked) && ReportsThere(cfg, workers, stores)
    requires e in workers && lock'.Saved?
    ensures
      var workers' := workers[e := workers[e].(rpc := Serving)];
      AllRightPlans(tasks, plans, executors, workers', lock') && ReportsThere(cfg, workers', stores)
  {
    hide RightPlan, FinishedThere, ReportedThere;
  }

  lemma BeginPollKeepsInv(cfg: Config, s: State, e: string)
    requires Inv(cfg, s) && e in s.workers && e in cfg.executors && s.workers[e].rpc.Sent? && s.lock.Unlocked?
    ensures Inv(cfg, DoBeginPoll(cfg.executors[e].meta, s, e))
  {
    hide Storage, GoodJobs, Ownership, Crew, Registered, Dependencies, AllRightPlans, Snapshot, StoredRows;
    hide OutputsThere, ReportsThere;
    hide HeldOnce, RightPlans, FinishedThere, ReportedThere, Progresses, Launched, ExecutorsKept, SaveReports;
    var s' := DoBeginPoll(cfg.executors[e].meta, s, e);
    var w := s.workers[e];
    WorkerFacts(cfg, s, e);
    SavingReportsProgresses(s.tasks, w, s.lock, e);
    BeginPollKeepsOwnership(s.tasks, s.workers, s.lock, e, s'.lock);
    BeginPollKeepsCrew(cfg, s.workers, e);
    ReportsRegistered(cfg, s.tasks, s.executors, w.rpc.reports, e, s'.lock);
    DependenciesKept(s.tasks, s.plans, s'.tasks, s'.plans);
    AllRightPlansKept(cfg, s.tasks, s.plans, s.executors, s'.tasks, s'.plans, s'.executors, s.workers, s.lock);
    BeginPollWorkers(cfg, s'.tasks, s'.plans, s'.executors, s.workers, s.stores, e, s'.lock);
    ReportedOutputsThere(cfg, s.tasks, s.stores, w.rpc.reports);
    NoSnapshot(s'.tasks, s'.plans, s'.executors, s'.lock);
  }

  lemma NoSnapshot(tasks: Tasks, plans: StagePlans, executors: Executors, lock: Lock)
    requires !lock.Scanning? && !lock.Scanned? && !lock.Reading? && !lock.Judged?
    ensures Snapshot(tasks, plans, executors, lock)
  {
  }

  /** The order of the save loop guarantees that no stored task waits for a task that is not stored. */
  lemma StorageIsClosed(eng: Engine, keys: set<PartitionId>, plans: StagePlans, subs: Submissions)
    requires Storage(keys, plans, subs) && GoodJobs(eng, subs)
    ensures Closed(keys, plans)
  {
    hide Storage, GoodJobs, InputsKnown;
    forall pid | pid in keys ensures KeyOf(pid) in plans && InputsKnown(keys, pid.jobId, plans[KeyOf(pid)]) {
      StoredTask(keys, plans, subs, pid);
      TaskInputsKnown(eng, keys, plans, subs, pid);
    }
  }

  lemma EarlierStageStored(keys: set<PartitionId>, plans: StagePlans, subs: Submissions, pid: PartitionId, id: nat,
                           p: nat)
    requires Storage(keys, plans, subs) && pid in keys
    requires
      var sub := subs[pid.jobId];
      pid.jobId in subs && sub.Saving? && 1 <= id < pid.stageId <= |sub.counts| && p < sub.counts[id - 1]
    ensures PartitionId(pid.jobId, id, p) in keys
  {
    assert TaskWritten(subs, pid);
    assert TaskWritten(subs, PartitionId(pid.jobId, id, p));
  }

  lemma TaskInputsKnown(eng: Engine, keys: set<PartitionId>, plans: StagePlans, subs: Submissions, pid: PartitionId)
    requires Storage(keys, plans, subs) && GoodJobs(eng, subs) && pid in keys && KeyOf(pid) in plans
    ensures InputsKnown(keys, pid.jobId, plans[KeyOf(pid)])
  {
    hide Storage, GoodJobs, StagesById;
    StoredTask(keys, plans, subs, pid);
    StageFacts(eng, subs, pid.jobId, pid.stageId);
    var us := FindUnresolvedShuffles(plans[KeyOf(pid)]);
    forall u | u in us ensures ShuffleKnown(keys, pid.jobId, u) {
      var n :| 0 <= n < |us| && us[n] == u;
      forall k, p: nat | 0 <= k < |u.stageIds| && p < u.partitionCount
        ensures PartitionId(pid.jobId, u.stageIds[k], p) in keys
      {
        assert u.stageIds[k] == us[n].stageIds[0];
        StageFacts(eng, subs, pid.jobId, u.stageIds[k]);
        EarlierStageStored(keys, plans, subs, pid, u.stageIds[k], p);
      }
    }
  }

  lemma LockHolderIsWorker(cfg: Config, workers: Workers, lock: Lock)
    requires Crew(cfg, workers, lock) && !lock.Unlocked?
    ensures lock.executorId in workers && workers[lock.executorId].rpc.Serving?
  {
    assert CrewMember(cfg, workers[lock.executorId], lock, lock.executorId);
  }

  /** The lock moves on without a new task, asking for no more than before. */
  lemma LockStepKeepsInv(cfg: Config, s: State, s': State)
    requires Inv(cfg, s) && s' == s.(lock := s'.lock, jobs := s'.jobs)
    requires !s.lock.Unlocked? && !s'.lock.Unlocked? && s'.lock.executorId == s.lock.executorId
    requires LockTask(s'.lock) == LockTask(s.lock)
    requires forall w :: Asking(w, s'.lock, s.lock.executorId) ==> Asking(w, s.lock, s.lock.executorId)
    requires Snapshot(s'.tasks, s'.plans, s'.executors, s'.lock)
    ensures Inv(cfg, s')
  {
    hide Storage, GoodJobs, Ownership, Crew, Dependencies, Snapshot, StoredRows, OutputsThere, ReportsThere, RightPlans;
    hide RightPlan, Asking;
    LockStepKeepsOwnership(s.tasks, s.workers, s.lock, s'.lock);
    LockHolderIsWorker(cfg, s.workers, s.lock);
    LockStepKeepsCrew(cfg, s.workers, s.lock, s'.lock);
  }

  /** The lock moves on after the search. */
  lemma QuietStepKeepsInv(cfg: Config, s: State, s': State)
    requires Inv(cfg, s) && s' == s.(lock := s'.lock, jobs := s'.jobs)
    requires !s.lock.Unlocked? && (s'.lock.Assigned? || s'.lock.Syncing?) && s'.lock.executorId == s.lock.executorId
    requires LockTask(s'.lock) == LockTask(s.lock)
    ensures Inv(cfg, s')
  {
    hide Inv, Snapshot;
    NoSnapshot(s'.tasks, s'.plans, s'.executors, s'.lock);
    LockStepKeepsInv(cfg, s, s');
  }

  lemma BeginScanKeepsInv(cfg: Config, s: State)
    requires Inv(cfg, s) && s.lock.Saved?
    ensures Inv(cfg, s.(lock := BeginScanLock(s)))
  {
    hide Inv, Closed;
    AllStoredIsClosed(cfg, s);
    LockStepKeepsInv(cfg, s, s.(lock := BeginScanLock(s)));
  }

  lemma AllStoredIsClosed(cfg: Config, s: State)
    requires Inv(cfg, s)
    ensures Closed(s.tasks.Keys, s.plans)
  {
    hide Storage, GoodJobs, Ownership, Crew, Registered, Dependencies, AllRightPlans, Snapshot, StoredRows;
    hide OutputsThere, ReportsThere;
    StorageIsClosed(cfg.eng, s.tasks.Keys, s.plans, s.submissions);
  }

  lemma SnapshotOf(cfg: Config, s: State)
    requires Inv(cfg, s)
    ensures Snapshot(s.tasks, s.plans, s.executors, s.lock)
  {
    hide Storage, GoodJobs, Ownership, Crew, Registered, Dependencies, AllRightPlans, Snapshot, StoredRows;
    hide OutputsThere, ReportsThere;
  }

  lemma ScanTaskKeepsInv(cfg: Config, s: State, pid: PartitionId)
    requires Inv(cfg, s) && s.lock.Scanning? && pid in s.tasks && ComesTo(s.lock.present, s.lock.kvs, pid)
    ensures Inv(cfg, s.(lock := ScanTaskLock(s, pid)))
  {
    hide Inv, Closed, Precedes;
    SnapshotOf(cfg, s);
    LockStepKeepsInv(cfg, s, s.(lock := ScanTaskLock(s, pid)));
  }

  lemma EndScanKeepsInv(cfg: Config, s: State)
    requires Inv(cfg, s) && s.lock.Scanning? && s.lock.present <= s.lock.kvs.Keys
    ensures Inv(cfg, s.(lock := EndScanLock(s)))
  {
    hide Inv, Closed;
    SnapshotOf(cfg, s);
    LockStepKeepsInv(cfg, s, s.(lock := EndScanLock(s)));
  }

  lemma ReadJobKeepsInv(cfg: Config, s: State, j: string)
    requires Inv(cfg, s) && s.lock.Syncing?
    ensures Inv(cfg, s.(lock := ReadLock(s, j)))
  {
    hide Inv;
    LockStepKeepsInv(cfg, s, s.(lock := ReadLock(s, j)));
  }

  lemma JudgeKeepsInv(cfg: Config, s: State, kvs: Tasks, v: Option<JobStatus>)
    requires Inv(cfg, s) && s.lock.Reading? && ReadOf(s.lock.present, kvs, s.tasks, s.lock.jobId)
    requires Verdict(kvs, s.executors, s.lock.jobId, v)
    ensures Inv(cfg, s.(lock := JudgeLock(s, kvs, v)))
  {
    hide Inv, Verdict, ReadOf;
    SnapshotOf(cfg, s);
    LockStepKeepsInv(cfg, s, s.(lock := JudgeLock(s, kvs, v)));
  }

  /** The lock is dropped, and its holder's poll is over or answered with what the lock held. */
  lemma UnlockKeepsPlans(tasks: Tasks, plans: StagePlans, executors: Executors, workers: Workers, lock: Lock, e: string,
                         rpc: Rpc)
    requires AllRightPlans(tasks, plans, executors, workers, lock) && e in workers
    requires rpc.Idle? || rpc == Answered(LockTask(lock))
    ensures AllRightPlans(tasks, plans, executors, workers[e := workers[e].(rpc := rpc)], Unlocked)
  {
    hide RightPlan;
  }

  lemma UnlockKeepsReports(cfg: Config, workers: Workers, stores: Stores, e: string, rpc: Rpc)
    requires ReportsThere(cfg, workers, stores) && e in workers && (rpc.Idle? || rpc.Answered?)
    ensures ReportsThere(cfg, workers[e := workers[e].(rpc := rpc)], stores)
  {
    hide FinishedThere, ReportedThere;
  }

  lemma UnlockKeepsInv(cfg: Config, s: State, s': State, rpc: Rpc)
    requires Inv(cfg, s) && !s.lock.Unlocked? && s.lock.executorId in s.workers
    requires rpc.Idle? || rpc == Answered(LockTask(s.lock))
    requires
      var e := s.lock.executorId;
      s' == s.(lock := Unlocked, workers := s.workers[e := s.workers[e].(rpc := rpc)])
    requires Ownership(s'.tasks, s'.workers, s'.lock) && Crew(cfg, s'.workers, s'.lock)
    ensures Inv(cfg, s')
  {
    hide Storage, GoodJobs, Ownership, Crew, Dependencies, AllRightPlans, StoredRows, OutputsThere, ReportsThere;
    hide Snapshot;
    UnlockKeepsPlans(s.tasks, s.plans, s.executors, s.workers, s.lock, s.lock.executorId, rpc);
    UnlockKeepsReports(cfg, s.workers, s.stores, s.lock.executorId, rpc);
    NoSnapshot(s'.tasks, s'.plans, s'.executors, s'.lock);
  }

  lemma OwnershipAndCrew(cfg: Config, s: State)
    requires Inv(cfg, s)
    ensures Ownership(s.tasks, s.workers, s.lock) && Crew(cfg, s.workers, s.lock)
  {
    hide Storage, GoodJobs, Ownership, Crew, Registered, Dependencies, AllRightPlans, StoredRows, OutputsThere;
    hide ReportsThere, Snapshot;
  }

  lemma FailPollKeepsInv(cfg: Config, s: State)
    requires Inv(cfg, s) && s.lock.Scanned? && s.lock.executorId in s.workers
    ensures Inv(cfg, DoFailPoll(s))
  {
    hide Inv, Ownership, Crew;
    OwnershipAndCrew(cfg, s);
    FailPollKeepsOwnership(s.tasks, s.workers, s.lock);
    FailPollKeepsCrew(cfg, s.workers, s.lock);
    UnlockKeepsInv(cfg, s, DoFailPoll(s), Idle);
  }

  lemma AssignTaskFacts(cfg: Config, s: State, t: Task)
    requires s.lock.Scanned? && Snapshot(s.tasks, s.plans, s.executors, s.lock)
    requires Registered(cfg, s.tasks, s.executors, s.lock) && Dependencies(s.tasks, s.plans)
    requires OutputsThere(cfg, s.tasks, s.stores)
    requires Assignable(s.lock.kvs, s.plans, s.lock.executors, Some(t))
    ensures
      var tasks' := s.tasks[t.id := Running(s.lock.executorId)];
      var lock' := Assigned(s.lock.executorId, s.lock.reported, Some(t));
      && t.id in s.tasks && s.tasks[t.id].Pending? && Progresses(s.tasks, tasks')
      && Registered(cfg, tasks', s.executors, lock') && Dependencies(tasks', s.plans)
      && OutputsThere(cfg, tasks', s.stores)
  {
    hide Launchable, There, Assignable, Closed;
    var tasks' := s.tasks[t.id := Running(s.lock.executorId)];
    SnapshotReady(s.tasks, s.plans, s.executors, s.lock, t);
    assert forall pid | pid in s.tasks :: Moves(s.tasks[pid], tasks'[pid]);
    assert forall pid | Launched(s.tasks, tasks', pid) :: pid == t.id;
    DependenciesKept(s.tasks, s.plans, tasks', s.plans);
  }

  lemma AssignPlansRight(cfg: Config, s: State, t: Task, tasks': Tasks)
    requires s.lock.Scanned? && Snapshot(s.tasks, s.plans, s.executors, s.lock)
    requires Registered(cfg, s.tasks, s.executors, s.lock) && Progresses(s.tasks, tasks')
    requires AllRightPlans(s.tasks, s.plans, s.executors, s.workers, s.lock)
    requires Assignable(s.lock.kvs, s.plans, s.lock.executors, Some(t))
    ensures AllRightPlans(tasks', s.plans, s.executors, s.workers,
                          Assigned(s.lock.executorId, s.lock.reported, Some(t)))
  {
    hide RightPlan, RightPlans, Assignable, Progresses, Closed;
    assert Registered(cfg, s.lock.kvs, s.executors, s.lock);
    AssignedPlanRight(cfg, s.tasks, s.plans, s.executors, s.lock, t);
    RightPlanKept(cfg, s.lock, s.tasks, s.plans, s.executors, tasks', s.plans, s.executors, t);
    AllRightPlansKept(cfg, s.tasks, s.plans, s.executors, tasks', s.plans, s.executors, s.workers, s.lock);
  }

  lemma AssignKeepsInv(cfg: Config, s: State, t: Task)
    requires Inv(cfg, s) && s.lock.Scanned? && Assignable(s.lock.kvs, s.plans, s.lock.executors, Some(t))
    ensures Inv(cfg, DoAssign(s, Some(t)))
  {
    hide Storage, GoodJobs, Ownership, Crew, Registered, Dependencies, AllRightPlans, Snapshot, StoredRows;
    hide OutputsThere, ReportsThere;
    hide Assignable, Progresses;
    var s' := DoAssign(s, Some(t));
    AssignTaskFacts(cfg, s, t);
    LockHolderIsWorker(cfg, s.workers, s.lock);
    AssignKeepsOwnership(s.tasks, s.workers, s.lock, t);
    LockStepKeepsCrew(cfg, s.workers, s.lock, s'.lock);
    AssignPlansRight(cfg, s, t, s'.tasks);
    NoSnapshot(s'.tasks, s'.plans, s'.executors, s'.lock);
    assert s'.tasks.Keys == s.tasks.Keys;
  }

  lemma EndPollKeepsInv(cfg: Config, s: State)
    requires Inv(cfg, s) && s.lock.Syncing? && s.lock.executorId in s.workers
    ensures Inv(cfg, DoEndPoll(s))
  {
    hide Inv, Ownership, Crew;
    OwnershipAndCrew(cfg, s);
    LockHolderIsWorker(cfg, s.workers, s.lock);
    EndPollKeepsOwnership(s.tasks, s.workers, s.lock);
    EndPollKeepsCrew(cfg, s.workers, s.lock);
    UnlockKeepsInv(cfg, s, DoEndPoll(s), Answered(s.lock.task));
  }

  // ---- Every step, every run ----

  lemma InitInv(cfg: Config)
    requires ValidConfig(cfg)
    ensures Inv(cfg, Init(cfg))
  {
    hide RightRows, GoodJob, Verdict, ReadOf, Rising, PartOf, NewArePending, Closed, RightPlan, Launchable, Written;
    var s := Init(cfg);
    assert forall e | e in s.workers :: |s.workers[e].inFlight| == 0;
  }

  lemma SubmissionKeepsInv(cfg: Config, s: State, step: Step)
    requires Inv(cfg, s) && Enabled(cfg, s, step)
    requires step.Submit? || step.Reject? || step.Start? || step.Cut? || step.SaveNext?
    ensures Inv(cfg, Apply(cfg, s, step))
  {
    hide Inv, GoodJobs, Assignable, SearchOk, Verdict, Query, Output;
    hide DoSubmit, DoReject, DoStart, DoCut, DoSave, SetWorker, DoBeginPoll, DoEndPoll, DoFailPoll, DoFinish, DoAssign;
    hide DoSyncJob;
    hide BeginScanLock, ScanTaskLock, EndScanLock, SyncLock, ReadLock, JudgeLock, ComesTo, ReadOf;
    JobsAreGood(cfg, s);
    match step
    case Submit(j, plan) => SubmitKeepsInv(cfg, s, j, plan);
    case Reject(j, message) => RejectKeepsInv(cfg, s, j, message);
    case Start(j) => StartKeepsInv(cfg, s, j);
    case Cut(j) => CutKeepsInv(cfg, s, j);
    case SaveNext(j) => SaveKeepsInv(cfg, s, j);
  }

  lemma ScanKeepsInv(cfg: Config, s: State, step: Step)
    requires Inv(cfg, s) && Enabled(cfg, s, step)
    requires (step.BeginScan? || step.ScanTask? || step.EndScan? || step.FailPoll?)
    ensures Inv(cfg, Apply(cfg, s, step))
  {
    hide Inv, Assignable, SearchOk, Verdict, Query, Output;
    hide DoSubmit, DoReject, DoStart, DoCut, DoSave, SetWorker, DoBeginPoll, DoEndPoll, DoFailPoll, DoFinish, DoAssign;
    hide DoSyncJob;
    hide BeginScanLock, ScanTaskLock, EndScanLock, SyncLock, ReadLock, JudgeLock, ComesTo, ReadOf;
    match step
    case BeginScan => BeginScanKeepsInv(cfg, s);
    case ScanTask(pid) => ScanTaskKeepsInv(cfg, s, pid);
    case EndScan => EndScanKeepsInv(cfg, s);
    case FailPoll => FailPollKeepsInv(cfg, s);
  }

  lemma PollKeepsInv(cfg: Config, s: State, step: Step)
    requires Inv(cfg, s) && Enabled(cfg, s, step)
    requires step.BeginPoll? || step.Assign? || step.BeginSync? || step.EndPoll?
    ensures Inv(cfg, Apply(cfg, s, step))
  {
    hide Inv, Assignable, SearchOk, Verdict, Query, Output, ComesTo, ReadOf;
    hide DoSubmit, DoStart, DoCut, DoSave, SetWorker, DoBeginPoll, DoEndPoll, DoFailPoll, DoFinish;
    match step
    case BeginPoll(e) => BeginPollKeepsInv(cfg, s, e);
    case Assign(task) =>
      if task.Some? {
        AssignKeepsInv(cfg, s, task.value);
      } else {
        QuietStepKeepsInv(cfg, s, DoAssign(s, None));
      }
    case BeginSync => QuietStepKeepsInv(cfg, s, s.(lock := SyncLock(s)));
    case EndPoll => EndPollKeepsInv(cfg, s);
  }

  lemma SyncKeepsInv(cfg: Config, s: State, step: Step)
    requires Inv(cfg, s) && Enabled(cfg, s, step) && (step.ReadJob? || step.Judge? || step.SyncJob?)
    ensures Inv(cfg, Apply(cfg, s, step))
  {
    hide Inv, Assignable, SearchOk, Verdict, Query, Output, ComesTo, ReadOf;
    hide DoSubmit, DoStart, DoCut, DoSave, SetWorker, DoBeginPoll, DoEndPoll, DoFailPoll, DoFinish;
    match step
    case ReadJob(j) => ReadJobKeepsInv(cfg, s, j);
    case Judge(kvs, v) => JudgeKeepsInv(cfg, s, kvs, v);
    case SyncJob(j, v) => QuietStepKeepsInv(cfg, s, DoSyncJob(s, j, v));
  }

  /** Every step keeps the invariant. */
  lemma StepKeepsInv(cfg: Config, s: State, step: Step)
    requires Inv(cfg, s) && Enabled(cfg, s, step)
    ensures Inv(cfg, Apply(cfg, s, step))
  {
    hide Inv, Assignable, SearchOk, Verdict, Query, Output;
    hide DoSubmit, DoReject, DoStart, DoCut, DoSave, SetWorker, DoBeginPoll, DoEndPoll, DoFailPoll, DoFinish, DoAssign;
    hide DoSyncJob;
    hide BeginScanLock, ScanTaskLock, EndScanLock, SyncLock, ReadLock, JudgeLock, ComesTo, ReadOf;
    match step
    case Sample(e) => SampleKeepsInv(cfg, s, e);
    case Send(e) => SendKeepsInv(cfg, s, e);
    case LoseRequest(e) => LossKeepsInv(cfg, s, e);
    case LoseReply(e) => LossKeepsInv(cfg, s, e);
    case Receive(e) => ReceiveKeepsInv(cfg, s, e);
    case Finish(e, pid, error) => FinishKeepsInv(cfg, s, e, pid, error);
    case Announce(e, pid) => AnnounceKeepsInv(cfg, s, e, pid);
    case _ =>
      if step.Submit? || step.Reject? || step.Start? || step.Cut? || step.SaveNext? {
        SubmissionKeepsInv(cfg, s, step);
      } else if step.BeginScan? || step.ScanTask? || step.EndScan? || step.FailPoll? {
        ScanKeepsInv(cfg, s, step);
      } else if step.ReadJob? || step.Judge? || step.SyncJob? {
        SyncKeepsInv(cfg, s, step);
      } else {
        PollKeepsInv(cfg, s, step);
      }
  }

  lemma JobsAreGood(cfg: Config, s: State)
    requires Inv(cfg, s)
    ensures GoodJobs(cfg.eng, s.submissions)
  {
  }

  lemma StoredIsSlashFree(cfg: Config, s: State, pid: PartitionId)
    requires Inv(cfg, s) && pid in s.tasks
    ensures SlashFree(pid.jobId)
  {
    hide Ownership, Crew, Registered, Dependencies, AllRightPlans, Snapshot, StoredRows, OutputsThere, ReportsThere;
    hide Storage, GoodStages;
    StoredTask(s.tasks.Keys, s.plans, s.submissions, pid);
    assert GoodJob(cfg.eng, pid.jobId, s.submissions[pid.jobId]);
  }

  /** The invariant holds in every state of every run. */
  lemma {:induction false} RunInv(cfg: Config, trace: seq<State>, steps: seq<Step>, i: nat)
    requires IsRun(cfg, trace, steps) && i < |trace|
    ensures Inv(cfg, trace[i])
  {
    hide Inv, Enabled, Apply;
    if i == 0 {
      InitInv(cfg);
    } else {
      RunInv(cfg, trace, steps, i - 1);
      StepKeepsInv(cfg, trace[i - 1], steps[i - 1]);
      assert Enabled(cfg, trace[i - 1], steps[i - 1]) && trace[i - 1 + 1] == Apply(cfg, trace[i - 1], steps[i - 1]);
    }
  }
}
