/** Where errors come from: every failed task and every failed job goes back to a step at which something failed. */
module FailureOrigins {
  import opened Plans
  import opened StagePlanner
  import opened Scheduling
  import opened Protocol
  import opened OwnershipInvariant
  import opened ProtocolInvariants
  import opened ProtocolFrame
  import opened TaskHistory
  import opened JobVerdicts

  // ---- Tasks ----

  /** At this step the task ends with an error, and the error ends with what the executor said of it. */
  predicate FailsTask(step: Step, pid: PartitionId, error: string) {
    && step.Finish? && step.id == pid && step.error.Some?
    && error == "Task failed due to Tokio error: " + step.error.value
  }

  /** The status is the outcome of the task at one of the steps. */
  ghost predicate HasOrigin(steps: seq<Step>, pid: PartitionId, status: Status) {
    && (status.Failed? ==> exists i | 0 <= i < |steps| :: FailsTask(steps[i], pid, status.error))
    && (status.Completed? ==> exists i | 0 <= i < |steps| :: steps[i] == Finish(status.executorId, pid, None))
  }

  ghost predicate TasksHaveOrigins(steps: seq<Step>, tasks: Tasks) {
    forall pid | pid in tasks :: HasOrigin(steps, pid, tasks[pid])
  }

  ghost predicate ReportsHaveOrigins(steps: seq<Step>, reports: seq<Report>) {
    forall i | 0 <= i < |reports| :: HasOrigin(steps, reports[i].partitionId, reports[i].status)
  }

  ghost predicate WorkerHasOrigins(steps: seq<Step>, w: Worker) {
    && TasksHaveOrigins(steps, w.finished) && ReportsHaveOrigins(steps, w.channel)
    && (HasReports(w.rpc) ==> ReportsHaveOrigins(steps, w.rpc.reports))
  }

  /** All statuses there are, stored or still under way, have an origin. */
  ghost predicate AllHaveOrigins(steps: seq<Step>, s: State) {
    && TasksHaveOrigins(steps, s.tasks)
    && forall e | e in s.workers :: WorkerHasOrigins(steps, s.workers[e])
  }

  lemma OriginKept(steps: seq<Step>, step: Step, pid: PartitionId, status: Status)
    requires HasOrigin(steps, pid, status)
    ensures HasOrigin(steps + [step], pid, status)
  {
    hide FailsTask;
    if status.Failed? {
      var i :| 0 <= i < |steps| && FailsTask(steps[i], pid, status.error);
      assert FailsTask((steps + [step])[i], pid, status.error);
    }
    if status.Completed? {
      var i :| 0 <= i < |steps| && steps[i] == Finish(status.executorId, pid, None);
      assert (steps + [step])[i] == Finish(status.executorId, pid, None);
    }
  }

  lemma OriginsKept(steps: seq<Step>, step: Step, s: State)
    requires AllHaveOrigins(steps, s)
    ensures AllHaveOrigins(steps + [step], s)
  {
    hide HasOrigin;
    forall pid, status | HasOrigin(steps, pid, status) ensures HasOrigin(steps + [step], pid, status) {
      OriginKept(steps, step, pid, status);
    }
  }

  lemma OutcomeHasOrigin(steps: seq<Step>, e: string, pid: PartitionId, error: Option<string>)
    ensures HasOrigin(steps + [Finish(e, pid, error)], pid, OutcomeOf(e, error))
  {
    var steps' := steps + [Finish(e, pid, error)];
    assert steps'[|steps|] == Finish(e, pid, error);
    if error.Some? {
      assert FailsTask(steps'[|steps|], pid, OutcomeOf(e, error).error);
    }
  }

  lemma WorkerOrigins(steps: seq<Step>, s: State, e: string, w: Worker)
    requires AllHaveOrigins(steps, s) && WorkerHasOrigins(steps, w)
    ensures AllHaveOrigins(steps, SetWorker(s, e, w))
  {
    hide HasOrigin, ReportsHaveOrigins;
  }

  lemma CalmWorker(steps: seq<Step>, w: Worker, rpc: Rpc)
    requires WorkerHasOrigins(steps, w) && !HasReports(rpc)
    ensures WorkerHasOrigins(steps, w.(rpc := rpc))
  {
    hide HasOrigin;
  }

  lemma FinishHasOrigins(cfg: Config, s: State, e: string, pid: PartitionId, error: Option<string>, steps: seq<Step>)
    requires Enabled(cfg, s, Finish(e, pid, error)) && AllHaveOrigins(steps, s)
    requires HasOrigin(steps, pid, OutcomeOf(e, error))
    ensures AllHaveOrigins(steps, Apply(cfg, s, Finish(e, pid, error)))
  {
    hide HasOrigin, OutcomeOf, Output, Assignable, SearchOk, Verdict, Query, ComesTo, ReadOf, ReportsHaveOrigins;
    hide AllHaveOrigins;
    var w := s.workers[e];
    assert WorkerHasOrigins(steps, w) by { OriginsOf(steps, s, e); }
    WorkerOrigins(steps, s, e, FinishTask(w, e, pid, error));
    SameOrigins(steps, SetWorker(s, e, FinishTask(w, e, pid, error)), DoFinish(cfg, s, e, pid, error));
  }

  lemma OriginsOf(steps: seq<Step>, s: State, e: string)
    requires AllHaveOrigins(steps, s) && e in s.workers
    ensures WorkerHasOrigins(steps, s.workers[e])
  {
  }

  lemma SameOrigins(steps: seq<Step>, s: State, s': State)
    requires AllHaveOrigins(steps, s) && s'.tasks == s.tasks && s'.workers == s.workers
    ensures AllHaveOrigins(steps, s')
  {
  }

  lemma AnnounceHasOrigins(steps: seq<Step>, w: Worker, pid: PartitionId)
    requires WorkerHasOrigins(steps, w) && pid in w.finished
    ensures WorkerHasOrigins(steps, AnnounceTask(w, pid))
  {
    hide HasOrigin;
  }

  lemma SampleHasOrigins(steps: seq<Step>, w: Worker)
    requires WorkerHasOrigins(steps, w)
    ensures WorkerHasOrigins(steps, SampleStatuses(w))
  {
    hide HasOrigin;
  }

  lemma SendHasOrigins(steps: seq<Step>, w: Worker)
    requires WorkerHasOrigins(steps, w) && w.rpc.Sampled?
    ensures WorkerHasOrigins(steps, SendPoll(w))
  {
    hide HasOrigin;
  }

  lemma ReceiveHasOrigins(steps: seq<Step>, w: Worker)
    requires WorkerHasOrigins(steps, w) && w.rpc.Answered?
    ensures WorkerHasOrigins(steps, ReceiveTask(w))
  {
    hide HasOrigin;
  }

  /** Executors only pass statuses on, except when a task ends. */
  lemma WorkerStepHasOrigins(cfg: Config, s: State, step: Step, steps: seq<Step>)
    requires Enabled(cfg, s, step) && !Submits(step) && !Locks(step) && AllHaveOrigins(steps, s)
    requires step.Finish? ==> HasOrigin(steps, step.id, OutcomeOf(step.executorId, step.error))
    ensures AllHaveOrigins(steps, Apply(cfg, s, step))
  {
    hide HasOrigin, OutcomeOf, Output, Assignable, SearchOk, Verdict, Query, ComesTo, ReadOf, AllHaveOrigins;
    hide WorkerHasOrigins, SetWorker, DoFinish, SampleStatuses, SendPoll, ReceiveTask, AnnounceTask;
    var e := step.executorId;
    var w := s.workers[e];
    OriginsOf(steps, s, e);
    if step.Sample? {
      SampleHasOrigins(steps, w);
      WorkerOrigins(steps, s, e, SampleStatuses(w));
    } else if step.Send? {
      SendHasOrigins(steps, w);
      WorkerOrigins(steps, s, e, SendPoll(w));
    } else if step.LoseRequest? || step.LoseReply? {
      CalmWorker(steps, w, Idle);
      WorkerOrigins(steps, s, e, w.(rpc := Idle));
    } else if step.Receive? {
      ReceiveHasOrigins(steps, w);
      WorkerOrigins(steps, s, e, ReceiveTask(w));
    } else if step.Announce? {
      AnnounceHasOrigins(steps, w, step.id);
      WorkerOrigins(steps, s, e, AnnounceTask(w, step.id));
    } else {
      FinishHasOrigins(cfg, s, e, step.id, step.error, steps);
    }
  }

  lemma SavedHaveOrigins(steps: seq<Step>, tasks: Tasks, reports: seq<Report>)
    requires TasksHaveOrigins(steps, tasks) && ReportsHaveOrigins(steps, reports)
    ensures TasksHaveOrigins(steps, SaveReports(tasks, reports))
  {
    hide HasOrigin;
    if reports != [] {
      SavedHaveOrigins(steps, tasks, reports[..|reports| - 1]);
    }
  }

  lemma BeginPollHasOrigins(meta: ExecutorMeta, s: State, e: string, steps: seq<Step>)
    requires e in s.workers && s.workers[e].rpc.Sent? && AllHaveOrigins(steps, s)
    ensures AllHaveOrigins(steps, DoBeginPoll(meta, s, e))
  {
    hide HasOrigin, SaveReports;
    SavedHaveOrigins(steps, s.tasks, s.workers[e].rpc.reports);
  }

  lemma AssignHasOrigins(s: State, task: Option<Task>, steps: seq<Step>)
    requires s.lock.Scanned? && AllHaveOrigins(steps, s)
    ensures AllHaveOrigins(steps, DoAssign(s, task))
  {
    hide FailsTask, WorkerHasOrigins;
  }

  lemma EndPollHasOrigins(cfg: Config, s: State, steps: seq<Step>)
    requires Enabled(cfg, s, EndPoll) && AllHaveOrigins(steps, s)
    ensures AllHaveOrigins(steps, Apply(cfg, s, EndPoll))
  {
    hide Output, Assignable, SearchOk, Verdict, Query, ComesTo, ReadOf, AllHaveOrigins, WorkerHasOrigins;
    var e := s.lock.executorId;
    var w := s.workers[e].(rpc := Answered(s.lock.task));
    OriginsOf(steps, s, e);
    CalmWorker(steps, s.workers[e], w.rpc);
    WorkerOrigins(steps, s, e, w);
    SameOrigins(steps, SetWorker(s, e, w), Apply(cfg, s, EndPoll));
  }

  lemma FailPollHasOrigins(cfg: Config, s: State, steps: seq<Step>)
    requires Enabled(cfg, s, FailPoll) && AllHaveOrigins(steps, s)
    ensures AllHaveOrigins(steps, Apply(cfg, s, FailPoll))
  {
    hide Output, Assignable, SearchOk, Verdict, Query, ComesTo, ReadOf, AllHaveOrigins, WorkerHasOrigins;
    var e := s.lock.executorId;
    var w := s.workers[e].(rpc := Idle);
    OriginsOf(steps, s, e);
    CalmWorker(steps, s.workers[e], Idle);
    WorkerOrigins(steps, s, e, w);
    SameOrigins(steps, SetWorker(s, e, w), Apply(cfg, s, FailPoll));
  }

  /** The other steps under the lock leave tasks and executors alone. */
  lemma LockStepFrame(cfg: Config, s: State, step: Step)
    requires Enabled(cfg, s, step) && Locks(step)
    requires !step.BeginPoll? && !step.Assign? && !step.EndPoll? && !step.FailPoll?
    ensures Apply(cfg, s, step).tasks == s.tasks && Apply(cfg, s, step).workers == s.workers
  {
    hide Output, Assignable, SearchOk, Verdict, Query, ComesTo, ReadOf, BeginScanLock, ScanTaskLock, EndScanLock;
    hide SyncLock, ReadLock, JudgeLock, DoSubmit, DoReject, DoStart, DoCut, DoSave, DoBeginPoll, DoFailPoll, DoFinish;
    hide DoEndPoll, DoAssign, SetWorker;
  }

  lemma LockStepHasOrigins(cfg: Config, s: State, step: Step, steps: seq<Step>)
    requires Enabled(cfg, s, step) && Locks(step) && AllHaveOrigins(steps, s)
    ensures AllHaveOrigins(steps, Apply(cfg, s, step))
  {
    hide Enabled, Apply, AllHaveOrigins, WorkerHasOrigins, DoAssign, DoBeginPoll, HasReports;
    if step.BeginPoll? {
      BeginPollStep(cfg, s, step.executorId);
      BeginPollHasOrigins(cfg.executors[step.executorId].meta, s, step.executorId, steps);
    } else if step.Assign? {
      AssignStep(cfg, s, step.task);
      AssignHasOrigins(s, step.task, steps);
    } else if step.EndPoll? {
      EndPollHasOrigins(cfg, s, steps);
    } else if step.FailPoll? {
      FailPollHasOrigins(cfg, s, steps);
    } else {
      LockStepFrame(cfg, s, step);
      SameOrigins(steps, s, Apply(cfg, s, step));
    }
  }

  lemma BeginPollStep(cfg: Config, s: State, e: string)
    requires Enabled(cfg, s, BeginPoll(e))
    ensures e in s.workers && e in cfg.executors && s.workers[e].rpc.Sent?
    ensures Apply(cfg, s, BeginPoll(e)) == DoBeginPoll(cfg.executors[e].meta, s, e)
  {
    hide Output, Assignable, SearchOk, Verdict, Query, ComesTo, ReadOf, DoBeginPoll;
  }

  lemma AssignStep(cfg: Config, s: State, task: Option<Task>)
    requires Enabled(cfg, s, Assign(task))
    ensures s.lock.Scanned? && Apply(cfg, s, Assign(task)) == DoAssign(s, task)
  {
    hide Output, Assignable, SearchOk, Verdict, Query, ComesTo, ReadOf, DoAssign;
  }

  lemma SaveHasOrigins(s: State, j: string, steps: seq<Step>)
    requires CanSave(s, j) && AllHaveOrigins(steps, s)
    ensures AllHaveOrigins(steps, DoSave(s, j))
  {
    hide FailsTask, U32, Advance;
  }

  lemma StepHasOrigins(cfg: Config, s: State, step: Step, steps: seq<Step>)
    requires Enabled(cfg, s, step) && AllHaveOrigins(steps, s)
    ensures AllHaveOrigins(steps + [step], Apply(cfg, s, step))
  {
    hide Enabled, Apply, HasOrigin, OutcomeOf, DoSave;
    OriginsKept(steps, step, s);
    if Submits(step) {
      StepFrame(cfg, s, step);
      if step.SaveNext? {
        SaveStep(cfg, s, step.jobId);
        SaveHasOrigins(s, step.jobId, steps + [step]);
      }
    } else if Locks(step) {
      LockStepHasOrigins(cfg, s, step, steps + [step]);
    } else {
      if step.Finish? {
        OutcomeHasOrigin(steps, step.executorId, step.id, step.error);
      }
      WorkerStepHasOrigins(cfg, s, step, steps + [step]);
    }
  }

  lemma SaveStep(cfg: Config, s: State, j: string)
    requires Enabled(cfg, s, SaveNext(j))
    ensures CanSave(s, j) && Apply(cfg, s, SaveNext(j)) == DoSave(s, j)
  {
    hide Output, Assignable, SearchOk, Verdict, Query, ComesTo, ReadOf;
  }

  /** Over every run: whatever is stored, or on its way, about a task that is over was said at a step at which the task
      ended. A completed task has ended without error, at the executor it is recorded with; a failed one with an error
      that the recorded text ends with. */
  lemma {:induction false} RunHasOrigins(cfg: Config, trace: seq<State>, steps: seq<Step>, k: nat)
    requires IsRun(cfg, trace, steps) && k < |trace|
    ensures k <= |steps| && AllHaveOrigins(steps[..k], trace[k])
  {
    hide IsRun, Inv, Enabled, Apply, AllHaveOrigins;
    RunLength(cfg, trace, steps);
    if k == 0 {
      NoStatusYet(cfg, trace, steps);
    } else {
      RunHasOrigins(cfg, trace, steps, k - 1);
      RunStep(cfg, trace, steps, k - 1);
      StepHasOrigins(cfg, trace[k - 1], steps[k - 1], steps[..k - 1]);
      assert steps[..k - 1] + [steps[k - 1]] == steps[..k];
    }
  }

  lemma NoStatusYet(cfg: Config, trace: seq<State>, steps: seq<Step>)
    requires IsRun(cfg, trace, steps)
    ensures AllHaveOrigins(steps[..0], trace[0])
  {
    hide Enabled, Apply, HasOrigin;
  }

  // ---- Jobs ----

  /** At this step the job fails: its plan is rejected, it cannot be planned, or one of its tasks fails. */
  predicate FailsJob(step: Step, j: string, error: string) {
    || step == Reject(j, error)
    || (step == Cut(j) && error == "DistributedPlanner requires at least one executor")
    || (step.Finish? && step.id.jobId == j && FailsTask(step, step.id, error))
  }

  ghost predicate JobHasOrigin(steps: seq<Step>, s: State, j: string) {
    j in s.jobs && s.jobs[j].FailedJob? ==> exists i | 0 <= i < |steps| :: FailsJob(steps[i], j, s.jobs[j].error)
  }

  lemma JobOriginKept(steps: seq<Step>, step: Step, s: State, s': State, j: string)
    requires j in s'.jobs ==> j in s.jobs && s'.jobs[j] == s.jobs[j]
    requires JobHasOrigin(steps, s, j)
    ensures JobHasOrigin(steps + [step], s', j)
  {
    hide FailsJob;
    if j in s'.jobs && s'.jobs[j].FailedJob? {
      var i :| 0 <= i < |steps| && FailsJob(steps[i], j, s.jobs[j].error);
      assert FailsJob((steps + [step])[i], j, s'.jobs[j].error);
    }
  }

  /** What the steps of a job's own submission record. */
  ghost predicate RecordsFailure(s: State, step: Step, s': State)
    requires Submits(step)
  {
    var j := step.jobId;
    j in s'.jobs && s'.jobs[j].FailedJob? ==>
      FailsJob(step, j, s'.jobs[j].error) || (j in s.jobs && s'.jobs[j] == s.jobs[j])
  }

  lemma SubmissionFailsJob(cfg: Config, s: State, step: Step)
    requires Enabled(cfg, s, step) && Submits(step)
    ensures RecordsFailure(s, step, Apply(cfg, s, step))
  {
    hide Output, Assignable, SearchOk, Verdict, Query, ComesTo, ReadOf, RecordsFailure;
    hide DoSubmit, DoReject, DoStart, DoCut, DoSave;
    match step
    case Submit(j, plan) => SubmitFails(s, j, plan);
    case Reject(j, message) => RejectFails(s, j, message);
    case Start(j) => StartFails(s, j);
    case Cut(j) => CutFails(cfg.eng, s, j);
    case SaveNext(j) => SaveFails(s, j);
  }

  lemma SubmitFails(s: State, j: string, plan: Plan)
    ensures RecordsFailure(s, Submit(j, plan), DoSubmit(s, j, plan))
  {
  }

  lemma RejectFails(s: State, j: string, message: string)
    ensures RecordsFailure(s, Reject(j, message), DoReject(s, j, message))
  {
    hide FailsJob;
    RejectFailsJob(j, message);
  }

  lemma StartFails(s: State, j: string)
    requires j in s.submissions && s.submissions[j].Accepted?
    ensures RecordsFailure(s, Start(j), DoStart(s, j))
  {
    hide FailsJob;
  }

  lemma CutFails(eng: Engine, s: State, j: string)
    requires j in s.submissions && s.submissions[j].Started?
    ensures RecordsFailure(s, Cut(j), DoCut(eng, s, j))
  {
    hide FailsJob, NoExecutors, QueryStages, CountsOf;
    var s' := DoCut(eng, s, j);
    if s.submissions[j].hasExecutors {
      assert s'.jobs == s.jobs;
    } else {
      assert s'.jobs[j] == FailedJob(NoExecutors());
      CutFailsJob(j);
    }
  }

  lemma SaveFails(s: State, j: string)
    requires CanSave(s, j)
    ensures RecordsFailure(s, SaveNext(j), DoSave(s, j))
  {
    hide FailsJob, DoSave;
    SaveFrame(s, j);
  }

  lemma CutFailsJob(j: string)
    ensures FailsJob(Cut(j), j, NoExecutors())
  {
  }

  lemma RejectFailsJob(j: string, message: string)
    ensures FailsJob(Reject(j, message), j, message)
  {
  }

  /** What a synchronisation records of a failed job is what one of its tasks says. */
  lemma VerdictHasTask(cfg: Config, s: State) returns (pid: PartitionId)
    requires Inv(cfg, s) && s.lock.Judged? && s.lock.verdict.Some? && s.lock.verdict.value.FailedJob?
    ensures pid.jobId == s.lock.jobId && pid in s.tasks && s.tasks[pid] == Failed(s.lock.verdict.value.error)
  {
    hide Inv, ListsJob;
    SnapshotOf(cfg, s);
    pid :| pid in s.lock.kvs && pid.jobId == s.lock.jobId && s.lock.kvs[pid] == Failed(s.lock.verdict.value.error);
  }

  lemma SyncHasOrigin(cfg: Config, s: State, step: Step, steps: seq<Step>)
    requires Inv(cfg, s) && Enabled(cfg, s, step) && step.SyncJob? && AllHaveOrigins(steps, s)
    requires JobHasOrigin(steps, s, step.jobId)
    ensures JobHasOrigin(steps + [step], Apply(cfg, s, step), step.jobId)
  {
    hide Inv, Enabled, Apply, FailsTask;
    var j, v := step.jobId, step.verdict;
    SyncedJobs(cfg, s, j, v);
    SyncVerdict(cfg, s, j, v);
    if v.Some? && v.value.FailedJob? {
      var pid := VerdictHasTask(cfg, s);
      assert HasOrigin(steps, pid, s.tasks[pid]);
      var i :| 0 <= i < |steps| && FailsTask(steps[i], pid, v.value.error);
      FailedTaskFailsJob(steps[i], pid, v.value.error);
      assert FailsJob((steps + [step])[i], j, v.value.error);
    } else {
      hide FailsJob;
      if v.None? {
        JobOriginKept(steps, step, s, Apply(cfg, s, step), j);
      }
    }
  }

  lemma FailedTaskFailsJob(step: Step, pid: PartitionId, error: string)
    requires FailsTask(step, pid, error)
    ensures FailsJob(step, pid.jobId, error)
  {
  }

  lemma StepKeepsJobOrigin(cfg: Config, s: State, step: Step, steps: seq<Step>, j: string)
    requires Inv(cfg, s) && Enabled(cfg, s, step) && AllHaveOrigins(steps, s) && JobHasOrigin(steps, s, j)
    ensures JobHasOrigin(steps + [step], Apply(cfg, s, step), j)
  {
    hide Inv, Enabled, Apply, AllHaveOrigins, FailsJob;
    var s' := Apply(cfg, s, step);
    StepFrame(cfg, s, step);
    if step.SyncJob? && step.jobId == j {
      SyncHasOrigin(cfg, s, step, steps);
    } else if step.SyncJob? {
      SyncedJobs(cfg, s, step.jobId, step.verdict);
      JobOriginKept(steps, step, s, s', j);
    } else if Submits(step) && step.jobId == j {
      SubmissionFailsJob(cfg, s, step);
      if j in s'.jobs && s'.jobs[j].FailedJob? {
        if FailsJob(step, j, s'.jobs[j].error) {
          assert FailsJob((steps + [step])[|steps|], j, s'.jobs[j].error);
        } else {
          JobOriginKept(steps, step, s, s', j);
        }
      }
    } else {
      JobOriginKept(steps, step, s, s', j);
    }
  }

  /** Over every run: the error of a failed job is the one its plan was rejected with, the planner's, or that of a step
      at which one of its tasks ended with an error. */
  lemma {:induction false} RunJobHasOrigin(cfg: Config, trace: seq<State>, steps: seq<Step>, k: nat, j: string)
    requires IsRun(cfg, trace, steps) && k < |trace|
    ensures k <= |steps| && JobHasOrigin(steps[..k], trace[k], j)
  {
    hide IsRun, Inv, Enabled, Apply, AllHaveOrigins, JobHasOrigin;
    RunLength(cfg, trace, steps);
    if k == 0 {
      NoJobYet(cfg, trace, steps, j);
    } else {
      RunJobHasOrigin(cfg, trace, steps, k - 1, j);
      RunHasOrigins(cfg, trace, steps, k - 1);
      RunStep(cfg, trace, steps, k - 1);
      StepKeepsJobOrigin(cfg, trace[k - 1], steps[k - 1], steps[..k - 1], j);
      assert steps[..k - 1] + [steps[k - 1]] == steps[..k];
    }
  }

  lemma NoJobYet(cfg: Config, trace: seq<State>, steps: seq<Step>, j: string)
    requires IsRun(cfg, trace, steps)
    ensures JobHasOrigin(steps[..0], trace[0], j)
  {
    hide Enabled, Apply;
  }
}
