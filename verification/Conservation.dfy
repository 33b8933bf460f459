/** Conservation between the two parties: slots of an executor, and the tasks the scheduler believes it to run. */
module Conservation {
  import opened Plans
  import opened Scheduling
  import opened Protocol
  import opened OwnershipInvariant
  import opened TaskInvariants
  import opened DataInvariant
  import opened StorageInvariant
  import opened ProtocolInvariants
  import opened ProtocolFrame
  import opened TaskHistory

  /** The steps an executor takes on its own. */
  predicate ExecutorStep(step: Step) {
    step.Sample? || step.Send? || step.Receive? || step.Finish? || step.Announce?
  }

  predicate Loses(step: Step) {
    step.LoseRequest? || step.LoseReply?
  }

  // ---- The balance of one step ----

  function HeldIn(s: State, e: string, pid: PartitionId): nat
    requires e in s.workers
  {
    Held(s.workers[e], s.lock, e, pid)
  }

  /** Whether the step hands the task to `e`. */
  function Gained(s: State, step: Step, e: string, pid: PartitionId): nat {
    if HandsOut(step, pid) && s.lock.Scanned? && s.lock.executorId == e then 1 else 0
  }

  /** What `e` ceases to hold: tasks it has reported, and those on a poll that is lost. */
  function Dropped(s: State, step: Step, e: string, pid: PartitionId): nat
    requires e in s.workers
  {
    if step == BeginPoll(e) || step == LoseRequest(e) || step == LoseReply(e) then InRpc(s.workers[e].rpc, pid) else 0
  }

  ghost predicate Balanced(s: State, step: Step, s': State, e: string, pid: PartitionId) {
    && e in s.workers && e in s'.workers
    && HeldIn(s', e, pid) + Dropped(s, step, e, pid) == HeldIn(s, e, pid) + Gained(s, step, e, pid)
  }

  lemma WorkerBalance(s: State, step: Step, f: string, w: Worker, e: string, pid: PartitionId)
    requires e in s.workers && f in s.workers && ExecutorStep(step)
    requires Held(w, s.lock, f, pid) == Held(s.workers[f], s.lock, f, pid)
    ensures Balanced(s, step, SetWorker(s, f, w), e, pid)
  {
    hide Held;
  }

  lemma StoresDoNotMatter(s: State, s': State, step: Step, e: string, pid: PartitionId, stores: Stores)
    requires Balanced(s, step, s', e, pid)
    ensures Balanced(s, step, s'.(stores := stores), e, pid)
  {
    hide Held;
  }

  lemma FinishBalance(cfg: Config, s: State, f: string, id: PartitionId, error: Option<string>, e: string,
                      pid: PartitionId)
    requires f in s.workers && f in cfg.executors && id in s.workers[f].inFlight && e in s.workers
    requires error.None? ==> Output(cfg.eng, s, f, id).Some?
    requires HeldOnce(s.tasks, s.workers[f], s.lock, f)
    ensures Balanced(s, Finish(f, id, error), DoFinish(cfg, s, f, id, error), e, pid)
  {
    hide Output, FinishTask, Held, HeldOnce, Balanced;
    var w' := FinishTask(s.workers[f], f, id, error);
    FinishKeepsHeld(s.tasks, s.workers[f], s.lock, f, id, error, pid);
    WorkerBalance(s, Finish(f, id, error), f, w', e, pid);
    StoresDoNotMatter(s, SetWorker(s, f, w'), Finish(f, id, error), e, pid, DoFinish(cfg, s, f, id, error).stores);
  }

  lemma ExecutorBalance(cfg: Config, s: State, step: Step, e: string, pid: PartitionId)
    requires Inv(cfg, s) && Enabled(cfg, s, step) && e in s.workers && ExecutorStep(step)
    ensures Balanced(s, step, Apply(cfg, s, step), e, pid)
  {
    hide Inv, Held, HeldOnce, CrewMember, RightPlans, WorkerReportsThere, Output, Assignable, SearchOk, Verdict, Query;
    hide Balanced;
    hide DoSubmit, DoReject, DoStart, DoCut, DoSave, DoBeginPoll, DoFailPoll, DoFinish, ReceiveTask, SendPoll;
    hide SampleStatuses;
    hide AnnounceTask, SetWorker;
    var f := step.executorId;
    var w := s.workers[f];
    WorkerFacts(cfg, s, f);
    match step
    case Sample(_) =>
      SampleKeepsHeld(w, s.lock, f, pid);
      WorkerBalance(s, step, f, SampleStatuses(w), e, pid);
    case Send(_) =>
      SendKeepsHeld(w, s.lock, f, pid);
      WorkerBalance(s, step, f, SendPoll(w), e, pid);
    case Receive(_) =>
      ReceiveKeepsHeld(s.tasks, w, s.lock, f, pid);
      WorkerBalance(s, step, f, ReceiveTask(w), e, pid);
    case Announce(_, id) =>
      AnnounceKeepsHeld(w, s.lock, f, id, pid);
      WorkerBalance(s, step, f, AnnounceTask(w, id), e, pid);
    case Finish(_, id, error) => FinishBalance(cfg, s, f, id, error, e, pid);
  }

  lemma LossBalance(s: State, step: Step, e: string, pid: PartitionId)
    requires Loses(step) && step.executorId in s.workers && e in s.workers
    ensures Balanced(s, step, SetWorker(s, step.executorId, s.workers[step.executorId].(rpc := Idle)), e, pid)
  {
    hide Occurs;
  }

  lemma BeginPollBalance(meta: ExecutorMeta, s: State, f: string, e: string, pid: PartitionId)
    requires f in s.workers && s.workers[f].rpc.Sent? && s.lock.Unlocked? && e in s.workers
    ensures Balanced(s, BeginPoll(f), DoBeginPoll(meta, s, f), e, pid)
  {
    hide Occurs, SaveReports;
  }

  /** The lock moves on with the same task in hand. */
  lemma LockBalance(s: State, step: Step, s': State, e: string, pid: PartitionId)
    requires e in s.workers && s'.workers == s.workers && !step.BeginPoll? && !Loses(step) && !HandsOut(step, pid)
    requires InLock(s'.lock, e, pid) == InLock(s.lock, e, pid)
    ensures Balanced(s, step, s', e, pid)
  {
    hide Occurs;
  }

  lemma AssignBalance(s: State, t: Task, e: string, pid: PartitionId)
    requires s.lock.Scanned? && e in s.workers
    ensures Balanced(s, Assign(Some(t)), DoAssign(s, Some(t)), e, pid)
  {
    hide Occurs;
  }

  lemma FailPollBalance(s: State, e: string, pid: PartitionId)
    requires s.lock.Scanned? && s.lock.executorId in s.workers && s.workers[s.lock.executorId].rpc.Serving?
    requires e in s.workers
    ensures Balanced(s, FailPoll, DoFailPoll(s), e, pid)
  {
    hide Occurs;
  }

  lemma EndPollBalance(s: State, e: string, pid: PartitionId)
    requires s.lock.Syncing? && s.lock.executorId in s.workers && s.workers[s.lock.executorId].rpc.Serving?
    requires e in s.workers
    ensures Balanced(s, EndPoll, DoEndPoll(s), e, pid)
  {
    hide Occurs;
  }

  lemma PollBalance(cfg: Config, s: State, step: Step, e: string, pid: PartitionId)
    requires Inv(cfg, s) && Enabled(cfg, s, step) && e in s.workers
    requires !Submits(step) && !ExecutorStep(step) && !Loses(step)
    ensures Balanced(s, step, Apply(cfg, s, step), e, pid)
  {
    hide Inv, Held, Assignable, SearchOk, Verdict, Query, Output, ComesTo, ReadOf, Balanced;
    hide DoSubmit, DoReject, DoStart, DoCut, DoSave, DoBeginPoll, DoFailPoll, DoEndPoll, DoFinish;
    if !step.BeginPoll? {
      HolderServes(cfg, s);
    }
    if step.BeginPoll? {
      BeginPollBalance(cfg.executors[step.executorId].meta, s, step.executorId, e, pid);
    } else if step.Assign? && step.task.Some? {
      AssignBalance(s, step.task.value, e, pid);
    } else if step.FailPoll? {
      FailPollBalance(s, e, pid);
    } else if step.EndPoll? {
      EndPollBalance(s, e, pid);
    } else {
      LockBalance(s, step, Apply(cfg, s, step), e, pid);
    }
  }

  lemma HolderServes(cfg: Config, s: State)
    requires Inv(cfg, s) && !s.lock.Unlocked?
    ensures s.lock.executorId in s.workers && s.workers[s.lock.executorId].rpc.Serving?
  {
    hide Storage, GoodJobs, Ownership, Crew, Registered, Dependencies, AllRightPlans, Snapshot, StoredRows;
    hide OutputsThere, ReportsThere;
    LockHolderIsWorker(cfg, s.workers, s.lock);
  }

  /** The books of every step: an executor holds a task in one place more if it is handed the task, in as many fewer as
      its report is saved or its poll is lost with, and otherwise in as many as before. */
  lemma HeldBalance(cfg: Config, s: State, step: Step, e: string, pid: PartitionId)
    requires Inv(cfg, s) && Enabled(cfg, s, step) && e in s.workers
    ensures Balanced(s, step, Apply(cfg, s, step), e, pid)
  {
    hide Inv, Held, Assignable, SearchOk, Verdict, Query, Output;
    hide DoSubmit, DoReject, DoStart, DoCut, DoSave, DoBeginPoll, DoFailPoll, DoEndPoll, DoFinish, DoAssign, DoSyncJob;
    if Submits(step) {
      StepFrame(cfg, s, step);
    } else if ExecutorStep(step) {
      ExecutorBalance(cfg, s, step, e, pid);
    } else if Loses(step) {
      LossBalance(s, step, e, pid);
    } else {
      PollBalance(cfg, s, step, e, pid);
    }
  }

  // ---- Tasks nobody has ----

  /** The task is stored as running at `e`, which does not have it. */
  ghost predicate Stranded(s: State, e: string, pid: PartitionId) {
    e in s.workers && pid in s.tasks && s.tasks[pid] == Running(e) && HeldIn(s, e, pid) == 0
  }

  /** A poll of `e` is lost that reports the task, or is answered with it. */
  predicate LosesTask(s: State, step: Step, e: string, pid: PartitionId) {
    Loses(step) && step.executorId == e && e in s.workers && InRpc(s.workers[e].rpc, pid) > 0
  }

  /** What is known of a task an executor holds. */
  lemma HeldIsRunning(cfg: Config, s: State, e: string, pid: PartitionId)
    requires Inv(cfg, s) && e in s.workers && HeldIn(s, e, pid) > 0
    ensures HeldIn(s, e, pid) == 1 && pid in s.tasks && s.tasks[pid] == Running(e)
  {
    hide Inv, Held, CrewMember, RightPlans, WorkerReportsThere;
    WorkerFacts(cfg, s, e);
  }

  /** A report that is saved ends the task; no other report touches it. */
  lemma ReportEndsIt(cfg: Config, s: State, e: string, pid: PartitionId)
    requires Inv(cfg, s) && e in s.workers && s.workers[e].rpc.Sent?
    ensures
      var tasks' := SaveReports(s.tasks, s.workers[e].rpc.reports);
      && (InRpc(s.workers[e].rpc, pid) > 0 ==> pid in tasks' && !tasks'[pid].Running?)
      && (InRpc(s.workers[e].rpc, pid) == 0 && pid in s.tasks ==> pid in tasks' && tasks'[pid] == s.tasks[pid])
  {
    hide Inv, CrewMember, RightPlans, WorkerReportsThere;
    WorkerFacts(cfg, s, e);
    GoodReportsOf(cfg, s.workers[e], s.lock, e);
    SavedReport(s.tasks, s.workers[e].rpc.reports, pid);
  }

  lemma BeginPollTasks(cfg: Config, s: State, e: string)
    requires Enabled(cfg, s, BeginPoll(e))
    ensures e in s.workers && s.workers[e].rpc.Sent?
    ensures Apply(cfg, s, BeginPoll(e)).tasks == SaveReports(s.tasks, s.workers[e].rpc.reports)
  {
    hide SaveReports;
  }

  lemma HandedOutWasPending(cfg: Config, s: State, step: Step, pid: PartitionId)
    requires Inv(cfg, s) && Enabled(cfg, s, step) && HandsOut(step, pid)
    ensures pid in s.tasks && s.tasks[pid].Pending?
  {
    hide Inv, Assignable, SearchOk, Verdict, Query, Output;
    AssignStatuses(cfg, s, step.task.value, pid);
  }

  /** What the balance of holdings and the discipline of statuses say about stranded tasks. */
  lemma StrandedBalance(s: State, step: Step, s': State, e: string, pid: PartitionId)
    requires Balanced(s, step, s', e, pid) && StatusStep(s, step, s', pid)
    requires HeldIn(s, e, pid) > 0 ==> HeldIn(s, e, pid) == 1 && pid in s.tasks && s.tasks[pid] == Running(e)
    requires HandsOut(step, pid) ==> pid in s.tasks && s.tasks[pid].Pending?
    requires step == BeginPoll(e) && InRpc(s.workers[e].rpc, pid) > 0 ==> pid in s'.tasks && !s'.tasks[pid].Running?
    requires step == BeginPoll(e) && InRpc(s.workers[e].rpc, pid) == 0 && pid in s.tasks ==>
      pid in s'.tasks && s'.tasks[pid] == s.tasks[pid]
    ensures Stranded(s', e, pid) <==> Stranded(s, e, pid) || LosesTask(s, step, e, pid)
  {
    hide HeldIn, InRpc;
  }

  /** A task is newly stranded by a step exactly if the step loses a poll with it. */
  lemma StrandedByLossOnly(cfg: Config, s: State, step: Step, e: string, pid: PartitionId)
    requires Inv(cfg, s) && Enabled(cfg, s, step)
    ensures Stranded(Apply(cfg, s, step), e, pid) <==> Stranded(s, e, pid) || LosesTask(s, step, e, pid)
  {
    hide Inv, Enabled, Apply, HeldIn, InRpc, SaveReports, StatusStep, Balanced, HandsOut;
    SameExecutors(cfg, s, step);
    if e in s.workers {
      HeldBalance(cfg, s, step, e, pid);
      EveryStatusStep(cfg, s, step, pid);
      if HeldIn(s, e, pid) > 0 {
        HeldIsRunning(cfg, s, e, pid);
      }
      if step == BeginPoll(e) {
        BeginPollTasks(cfg, s, e);
        ReportEndsIt(cfg, s, e, pid);
      }
      if HandsOut(step, pid) {
        HandedOutWasPending(cfg, s, step, pid);
      }
      StrandedBalance(s, step, Apply(cfg, s, step), e, pid);
    }
  }

  lemma SameExecutors(cfg: Config, s: State, step: Step)
    requires Inv(cfg, s) && Enabled(cfg, s, step)
    ensures Apply(cfg, s, step).workers.Keys == s.workers.Keys
  {
    hide Inv, Enabled, Apply;
    StepKeepsInv(cfg, s, step);
    AllExecutorsWork(cfg, s);
    AllExecutorsWork(cfg, Apply(cfg, s, step));
  }

  lemma AllExecutorsWork(cfg: Config, s: State)
    requires Inv(cfg, s)
    ensures s.workers.Keys == cfg.executors.Keys
  {
  }

  /** Over every run, at every point: a task is stored as running at an executor that does not have it if and only if a
      poll of that executor has been lost, some time before, that reported the task or was answered with it. */
  lemma {:induction false} StrandedExactly(cfg: Config, trace: seq<State>, steps: seq<Step>, i: nat, e: string,
                                           pid: PartitionId)
    requires IsRun(cfg, trace, steps) && i < |trace|
    ensures Stranded(trace[i], e, pid) <==>
      exists k | 0 <= k < i && k < |steps| :: LosesTask(trace[k], steps[k], e, pid)
  {
    hide IsRun, Inv, Enabled, Apply, Stranded, LosesTask;
    if i == 0 {
      NothingStored(cfg, trace, steps, e, pid);
    } else {
      RunLength(cfg, trace, steps);
      StrandedExactly(cfg, trace, steps, i - 1, e, pid);
      RunStep(cfg, trace, steps, i - 1);
      StrandedByLossOnly(cfg, trace[i - 1], steps[i - 1], e, pid);
    }
  }

  lemma NothingStored(cfg: Config, trace: seq<State>, steps: seq<Step>, e: string, pid: PartitionId)
    requires IsRun(cfg, trace, steps)
    ensures !Stranded(trace[0], e, pid)
  {
  }

  /** Over every run, lost polls or not: the tasks stored as running at an executor are exactly those on their way to
      it, in flight there or on their way back as a report, each in one place only, and those that went with one of its
      lost polls. */
  lemma RunningIsHeld(cfg: Config, trace: seq<State>, steps: seq<Step>, i: nat, e: string, pid: PartitionId)
    requires IsRun(cfg, trace, steps) && i < |trace| && e in trace[i].workers
    ensures
      var s := trace[i];
      && HeldIn(s, e, pid) <= 1
      && (pid in s.tasks && s.tasks[pid] == Running(e) <==>
          HeldIn(s, e, pid) == 1 || exists k | 0 <= k < i && k < |steps| :: LosesTask(trace[k], steps[k], e, pid))
  {
    hide IsRun, Inv, HeldIn, LosesTask;
    RunInv(cfg, trace, steps, i);
    StrandedExactly(cfg, trace, steps, i, e, pid);
    if HeldIn(trace[i], e, pid) > 0 {
      HeldIsRunning(cfg, trace[i], e, pid);
    }
  }

  /** Over every run: a stranded task is stranded for good; it is never completed, nor handed out again. */
  lemma StrandedForGood(cfg: Config, trace: seq<State>, steps: seq<Step>, i: nat, k: nat, e: string, pid: PartitionId)
    requires IsRun(cfg, trace, steps) && i <= k < |trace| && Stranded(trace[i], e, pid)
    ensures Stranded(trace[k], e, pid)
  {
    hide IsRun, Stranded, LosesTask;
    StrandedExactly(cfg, trace, steps, i, e, pid);
    StrandedExactly(cfg, trace, steps, k, e, pid);
  }

  /** Every task stored as running is held by its executor. */
  ghost predicate NothingLost(tasks: Tasks, workers: Workers, lock: Lock) {
    forall pid | pid in tasks && tasks[pid].Running? ::
      tasks[pid].executorId in workers && Held(workers[tasks[pid].executorId], lock, tasks[pid].executorId, pid) > 0
  }

  lemma RunningSomewhere(cfg: Config, s: State, pid: PartitionId)
    requires Inv(cfg, s) && pid in s.tasks && s.tasks[pid].Running?
    ensures s.tasks[pid].executorId in s.workers
  {
    hide Storage, GoodJobs, Ownership, Crew, Dependencies, AllRightPlans, Snapshot, StoredRows, OutputsThere;
    hide ReportsThere;
  }

  lemma RunLosesNothing(cfg: Config, trace: seq<State>, steps: seq<Step>, i: nat)
    requires IsRun(cfg, trace, steps) && i < |trace| && forall k | 0 <= k < i && k < |steps| :: !Loses(steps[k])
    ensures NothingLost(trace[i].tasks, trace[i].workers, trace[i].lock)
  {
    hide IsRun, Inv, Held;
    var s := trace[i];
    RunInv(cfg, trace, steps, i);
    forall pid | pid in s.tasks && s.tasks[pid].Running?
      ensures s.tasks[pid].executorId in s.workers && HeldIn(s, s.tasks[pid].executorId, pid) > 0
    {
      RunningSomewhere(cfg, s, pid);
      StrandedExactly(cfg, trace, steps, i, s.tasks[pid].executorId, pid);
    }
  }

  // ---- Slots ----

  /** Over every run, lost polls included: slots are conserved, and an executor is only sent a task it has a free
      slot for, so that its counter never goes below zero. */
  lemma SlotsConserved(cfg: Config, trace: seq<State>, steps: seq<Step>, i: nat, e: string)
    requires IsRun(cfg, trace, steps) && i < |trace| && e in trace[i].workers
    ensures e in cfg.executors
    ensures
      var w := trace[i].workers[e];
      && w.free + |w.inFlight| == cfg.executors[e].concurrentTasks && w.free >= 0
      && (w.rpc.Answered? && w.rpc.task.Some? ==> ReceiveTask(w).free >= 0 && w.rpc.task.value.id !in w.inFlight)
  {
    hide Inv, Held, IsRun, RightPlans, WorkerReportsThere;
    RunInv(cfg, trace, steps, i);
    WorkerFacts(cfg, trace[i], e);
    var w := trace[i].workers[e];
    if w.rpc.Answered? && w.rpc.task.Some? {
      ReceiveKeepsHeld(trace[i].tasks, w, trace[i].lock, e, w.rpc.task.value.id);
    }
  }
}
