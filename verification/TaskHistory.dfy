/** The life of a task over whole runs: it is handed out at most once, its status only moves forward, and
    when it is handed out everything it reads is complete and stays so. */
module TaskHistory {
  import opened Plans
  import opened StagePlanner
  import opened Scheduling
  import opened Protocol
  import opened StorageInvariant
  import opened OwnershipInvariant
  import opened TaskInvariants
  import opened DataInvariant
  import opened ProtocolInvariants
  import opened ProtocolFrame

  // ---- One step ----

  /** The only ways a stored status comes about: a save loop stores a task as pending, a poll hands it out,
      or its executor reports it. */
  ghost predicate StatusStep(s: State, step: Step, s': State, pid: PartitionId) {
    if pid !in s.tasks then pid in s'.tasks ==> s'.tasks[pid].Pending? && step == SaveNext(pid.jobId)
    else
      && pid in s'.tasks
      && (|| s'.tasks[pid] == s.tasks[pid]
          || (&& step.Assign? && step.task.Some? && step.task.value.id == pid && s.lock.Scanned?
              && s.tasks[pid].Pending? && s'.tasks[pid] == Running(s.lock.executorId))
          || (&& step.BeginPoll? && s.tasks[pid] == Running(step.executorId)
              && (s'.tasks[pid] == Completed(step.executorId) || s'.tasks[pid].Failed?)))
  }

  lemma BeginPollStatuses(cfg: Config, s: State, e: string, pid: PartitionId)
    requires Inv(cfg, s) && e in s.workers && e in cfg.executors && s.workers[e].rpc.Sent? && s.lock.Unlocked?
    ensures StatusStep(s, BeginPoll(e), DoBeginPoll(cfg.executors[e].meta, s, e), pid)
  {
    hide Inv, CrewMember, RightPlans, WorkerReportsThere;
    WorkerFacts(cfg, s, e);
    var reports := s.workers[e].rpc.reports;
    GoodReportsOf(cfg, s.workers[e], s.lock, e);
    SavedReport(s.tasks, reports, pid);
    assert Held(s.workers[e], s.lock, e, pid) >= Occurs(reports, pid);
  }

  lemma GoodReportsOf(cfg: Config, w: Worker, lock: Lock, e: string)
    requires CrewMember(cfg, w, lock, e) && w.rpc.Sent?
    ensures GoodReports(w.rpc.reports, e)
  {
  }

  lemma SaveStatuses(cfg: Config, s: State, j: string, pid: PartitionId)
    requires Inv(cfg, s) && CanSave(s, j)
    ensures StatusStep(s, SaveNext(j), DoSave(s, j), pid)
  {
    hide Inv;
    SaveKeepsInv(cfg, s, j);
  }

  lemma AssignStatuses(cfg: Config, s: State, t: Task, pid: PartitionId)
    requires Inv(cfg, s) && s.lock.Scanned? && Assignable(s.lock.kvs, s.plans, s.lock.executors, Some(t))
    ensures t.id in s.tasks && s.tasks[t.id].Pending?
    ensures StatusStep(s, Assign(Some(t)), DoAssign(s, Some(t)), pid)
  {
    hide Storage, GoodJobs, Ownership, Crew, Registered, Dependencies, AllRightPlans, Snapshot, StoredRows;
    hide OutputsThere, ReportsThere;
    hide Assignable;
    SnapshotReady(s.tasks, s.plans, s.executors, s.lock, t);
  }

  lemma EveryStatusStep(cfg: Config, s: State, step: Step, pid: PartitionId)
    requires Inv(cfg, s) && Enabled(cfg, s, step)
    ensures StatusStep(s, step, Apply(cfg, s, step), pid)
  {
    hide Inv, Assignable, Verdict, Query, DoSubmit, DoStart, DoCut, DoSave, DoBeginPoll, DoFinish;
    StepFrame(cfg, s, step);
    if step.SaveNext? {
      SaveStatuses(cfg, s, step.jobId, pid);
    } else if step.BeginPoll? {
      BeginPollStatuses(cfg, s, step.executorId, pid);
    } else if step.Assign? && step.task.Some? {
      AssignStatuses(cfg, s, step.task.value, pid);
    }
  }

  // ---- Runs ----

  /** Statuses a task may have later on. */
  predicate Reaches(a: Status, b: Status) {
    || a == b
    || a.Pending?
    || (a.Running? && (b == Completed(a.executorId) || b.Failed?))
  }

  /** What `s` has stored is still there in `s'`: statuses have only moved forward, plans, executors and the
      stages of planned jobs are the same. */
  ghost predicate Later(s: State, s': State) {
    && (forall pid | pid in s.tasks :: pid in s'.tasks && Reaches(s.tasks[pid], s'.tasks[pid]))
    && PlansKept(s.plans, s'.plans)
    && ExecutorsKept(s.executors, s'.executors)
    && JobsKept(s.submissions, s'.submissions)
  }

  lemma StepKeepsPlans(cfg: Config, s: State, step: Step)
    requires Inv(cfg, s) && Enabled(cfg, s, step)
    ensures PlansKept(s.plans, Apply(cfg, s, step).plans)
  {
    hide Inv, Assignable, Verdict, Query, DoSubmit, DoStart, DoCut, DoSave, DoBeginPoll, DoFinish;
    StepFrame(cfg, s, step);
    if step.SaveNext? {
      SaveKeepsInv(cfg, s, step.jobId);
    }
  }

  lemma StepKeepsJobs(cfg: Config, s: State, step: Step)
    requires Enabled(cfg, s, step)
    ensures JobsKept(s.submissions, Apply(cfg, s, step).submissions)
  {
    hide Assignable, Verdict, Query, DoCut, DoSave, DoBeginPoll, DoFinish;
    StepFrame(cfg, s, step);
    if step.Cut? {
      CutKeepsJobs(cfg.eng, s, step.jobId);
    } else if step.SaveNext? {
      SaveFrame(s, step.jobId);
    }
  }

  lemma CutKeepsJobs(eng: Engine, s: State, j: string)
    requires j in s.submissions && s.submissions[j].Started?
    ensures JobsKept(s.submissions, DoCut(eng, s, j).submissions)
  {
    hide NoExecutors, QueryStages, CountsOf;
  }

  lemma StepKeepsExecutors(cfg: Config, s: State, step: Step)
    requires Registered(cfg, s.tasks, s.executors, s.lock) && Enabled(cfg, s, step)
    ensures ExecutorsKept(s.executors, Apply(cfg, s, step).executors)
  {
    hide Assignable, Verdict, Query, DoSubmit, DoStart, DoCut, DoSave, DoFinish, SaveReports;
    StepFrame(cfg, s, step);
  }

  lemma StepIsLater(cfg: Config, s: State, step: Step)
    requires Inv(cfg, s) && Enabled(cfg, s, step)
    ensures Later(s, Apply(cfg, s, step))
  {
    hide Enabled, Apply, PlansKept, ExecutorsKept, JobsKept;
    hide Storage, GoodJobs, Ownership, Crew, Registered, Dependencies, AllRightPlans, Snapshot, StoredRows;
    hide OutputsThere, ReportsThere;
    var s' := Apply(cfg, s, step);
    forall pid | pid in s.tasks ensures pid in s'.tasks && Reaches(s.tasks[pid], s'.tasks[pid]) {
      EveryStatusStep(cfg, s, step, pid);
    }
    StepKeepsPlans(cfg, s, step);
    StepKeepsJobs(cfg, s, step);
    StepKeepsExecutors(cfg, s, step);
  }

  lemma LaterTransitive(a: State, b: State, c: State)
    requires Later(a, b) && Later(b, c)
    ensures Later(a, c)
  {
  }

  /** What `IsRun` says of one step. */
  lemma RunStep(cfg: Config, trace: seq<State>, steps: seq<Step>, i: nat)
    requires IsRun(cfg, trace, steps) && i < |steps|
    ensures |trace| == |steps| + 1 && Inv(cfg, trace[i]) && Inv(cfg, trace[i + 1])
    ensures Enabled(cfg, trace[i], steps[i]) && trace[i + 1] == Apply(cfg, trace[i], steps[i])
  {
    hide Inv, Enabled, Apply;
    RunInv(cfg, trace, steps, i);
    RunInv(cfg, trace, steps, i + 1);
  }

  /** Over every run, whatever is stored at one point is only carried forward. */
  lemma {:induction false} RunIsLater(cfg: Config, trace: seq<State>, steps: seq<Step>, i: nat, j: nat)
    requires IsRun(cfg, trace, steps) && i <= j < |trace|
    ensures Later(trace[i], trace[j])
    decreases j - i
  {
    hide Inv, Enabled, Apply, IsRun;
    if i < j {
      assert |trace| == |steps| + 1 by { RunLength(cfg, trace, steps); }
      RunIsLater(cfg, trace, steps, i, j - 1);
      RunStep(cfg, trace, steps, j - 1);
      StepIsLater(cfg, trace[j - 1], steps[j - 1]);
      LaterTransitive(trace[i], trace[j - 1], trace[j]);
    }
  }

  lemma RunLength(cfg: Config, trace: seq<State>, steps: seq<Step>)
    requires IsRun(cfg, trace, steps)
    ensures |trace| == |steps| + 1
  {
  }

  predicate HandsOut(step: Step, pid: PartitionId) {
    step.Assign? && step.task.Some? && step.task.value.id == pid
  }

  /** The executor polling at this point gets the task. */
  lemma HandedOut(cfg: Config, trace: seq<State>, steps: seq<Step>, i: nat, pid: PartitionId)
    requires IsRun(cfg, trace, steps) && i < |steps| && HandsOut(steps[i], pid)
    ensures trace[i].lock.Scanned? && pid in trace[i].tasks && trace[i].tasks[pid].Pending?
    ensures pid in trace[i + 1].tasks && trace[i + 1].tasks[pid] == Running(trace[i].lock.executorId)
    ensures Assignable(trace[i].lock.kvs, trace[i].plans, trace[i].lock.executors, steps[i].task)
  {
    hide Inv, Assignable, IsRun, DoSubmit, DoStart, DoCut, DoSave, DoBeginPoll, DoFinish;
    RunStep(cfg, trace, steps, i);
    AssignStatuses(cfg, trace[i], steps[i].task.value, pid);
  }

  /** Over every run, a task is handed out at most once. */
  lemma HandedOutOnce(cfg: Config, trace: seq<State>, steps: seq<Step>, i: nat, j: nat, pid: PartitionId)
    requires IsRun(cfg, trace, steps) && i < |steps| && j < |steps|
    requires HandsOut(steps[i], pid) && HandsOut(steps[j], pid)
    ensures i == j
  {
    hide IsRun, Assignable;
    if i < j {
      NotHandedOutAgain(cfg, trace, steps, i, j, pid);
    } else if j < i {
      NotHandedOutAgain(cfg, trace, steps, j, i, pid);
    }
  }

  lemma NotHandedOutAgain(cfg: Config, trace: seq<State>, steps: seq<Step>, i: nat, j: nat, pid: PartitionId)
    requires IsRun(cfg, trace, steps) && i < j < |steps| && HandsOut(steps[i], pid)
    ensures !HandsOut(steps[j], pid)
  {
    hide IsRun, Assignable, PlansKept, ExecutorsKept, JobsKept;
    RunLength(cfg, trace, steps);
    HandedOut(cfg, trace, steps, i, pid);
    RunIsLater(cfg, trace, steps, i + 1, j);
    if HandsOut(steps[j], pid) {
      HandedOut(cfg, trace, steps, j, pid);
      assert false;
    }
  }

  /** Over every run: who a task was handed to is the only executor it is ever stored as running or
      completed at. */
  lemma StaysWithItsExecutor(cfg: Config, trace: seq<State>, steps: seq<Step>, i: nat, j: nat, pid: PartitionId)
    requires IsRun(cfg, trace, steps) && i < j < |trace| && i < |steps| && HandsOut(steps[i], pid)
    ensures trace[i].lock.Scanned? && pid in trace[j].tasks
    ensures
      var e := trace[i].lock.executorId;
      var status := trace[j].tasks[pid];
      status == Running(e) || status == Completed(e) || status.Failed?
  {
    hide IsRun, Assignable, PlansKept, ExecutorsKept, JobsKept;
    RunLength(cfg, trace, steps);
    HandedOut(cfg, trace, steps, i, pid);
    RunIsLater(cfg, trace, steps, i + 1, j);
  }
}
