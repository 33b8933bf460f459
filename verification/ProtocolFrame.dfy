/** Which parts of the state a step of the protocol leaves alone. */
module ProtocolFrame {
  import opened Plans
  import opened StagePlanner
  import opened Scheduling
  import opened Protocol

  /** The steps of a background task of `execute_query`. */
  predicate Submits(step: Step) {
    step.Submit? || step.Reject? || step.Start? || step.Cut? || step.SaveNext?
  }

  /** The steps of the executor that holds the lock, or takes it. */
  predicate Locks(step: Step) {
    || step.BeginPoll? || step.BeginScan? || step.ScanTask? || step.EndScan? || step.Assign? || step.FailPoll?
    || step.BeginSync? || step.ReadJob? || step.Judge? || step.SyncJob? || step.EndPoll?
  }

  ghost predicate Frame(s: State, step: Step, s': State) {
    && (!step.SaveNext? ==> s'.plans == s.plans)
    && (!step.BeginPoll? ==> s'.executors == s.executors)
    && (!step.SaveNext? && !step.BeginPoll? && !step.Assign? ==> s'.tasks == s.tasks)
    && (!Submits(step) ==> s'.submissions == s.submissions)
    && (!Submits(step) && !step.SyncJob? ==> s'.jobs == s.jobs)
    && (!Locks(step) ==> s'.lock == s.lock)
    && (Submits(step) ==>
          && s'.workers == s.workers
          && SameElsewhere(s.jobs, s'.jobs, step.jobId) && SameElsewhere(s.submissions, s'.submissions, step.jobId))
  }

  ghost predicate SameElsewhere<V(!new)>(m: map<string, V>, m': map<string, V>, j: string) {
    forall k | k != j :: (k in m <==> k in m') && (k in m ==> m'[k] == m[k])
  }

  lemma SubmitFrame(s: State, j: string, plan: Plan)
    ensures Frame(s, Submit(j, plan), DoSubmit(s, j, plan))
  {
  }

  lemma RejectFrame(s: State, j: string, message: string)
    ensures Frame(s, Reject(j, message), DoReject(s, j, message))
  {
  }

  lemma StartFrame(s: State, j: string)
    requires j in s.submissions && s.submissions[j].Accepted?
    ensures Frame(s, Start(j), DoStart(s, j))
  {
  }

  lemma CutFrame(eng: Engine, s: State, j: string)
    requires j in s.submissions && s.submissions[j].Started?
    ensures Frame(s, Cut(j), DoCut(eng, s, j))
  {
    hide NoExecutors, QueryStages;
  }

  lemma SaveNextFrame(s: State, j: string)
    requires CanSave(s, j)
    ensures Frame(s, SaveNext(j), DoSave(s, j))
  {
  }

  lemma WorkerFrame(s: State, step: Step, e: string, w: Worker)
    requires !Submits(step)
    ensures Frame(s, step, SetWorker(s, e, w))
  {
  }

  lemma LockFrame(s: State, step: Step, lock: Lock)
    requires Locks(step)
    ensures Frame(s, step, s.(lock := lock))
  {
  }

  lemma BeginPollFrame(meta: ExecutorMeta, s: State, e: string)
    requires e in s.workers && s.workers[e].rpc.Sent?
    ensures Frame(s, BeginPoll(e), DoBeginPoll(meta, s, e))
  {
  }

  lemma AssignFrame(s: State, task: Option<Task>)
    requires s.lock.Scanned?
    ensures Frame(s, Assign(task), DoAssign(s, task))
  {
  }

  lemma SyncFrame(s: State, j: string, v: Option<JobStatus>)
    requires s.lock.Judged?
    ensures Frame(s, SyncJob(j, v), DoSyncJob(s, j, v))
  {
  }

  lemma EndPollFrame(s: State)
    requires s.lock.Syncing? && s.lock.executorId in s.workers
    ensures Frame(s, EndPoll, DoEndPoll(s))
  {
  }

  lemma FailPollFrame(s: State)
    requires s.lock.Scanned? && s.lock.executorId in s.workers
    ensures Frame(s, FailPoll, DoFailPoll(s))
  {
  }

  lemma FinishFrame(cfg: Config, s: State, e: string, pid: PartitionId, error: Option<string>)
    requires e in s.workers && e in cfg.executors && pid in s.workers[e].inFlight
    requires error.None? ==> Output(cfg.eng, s, e, pid).Some?
    ensures Frame(s, Finish(e, pid, error), DoFinish(cfg, s, e, pid, error))
  {
    hide Output;
  }

  lemma SubmissionFrame(cfg: Config, s: State, step: Step)
    requires Enabled(cfg, s, step) && Submits(step)
    ensures Frame(s, step, Apply(cfg, s, step))
  {
    hide Frame, DoSubmit, DoReject, DoStart, DoCut, DoSave, DoBeginPoll, DoFailPoll, DoSyncJob, DoEndPoll, DoFinish;
    hide Assignable, SearchOk, Verdict, Query, Output, ComesTo, ReadOf;
    match step
    case Submit(j, plan) => SubmitFrame(s, j, plan);
    case Reject(j, message) => RejectFrame(s, j, message);
    case Start(j) => StartFrame(s, j);
    case Cut(j) => CutFrame(cfg.eng, s, j);
    case SaveNext(j) => SaveNextFrame(s, j);
  }

  lemma PollFrame(cfg: Config, s: State, step: Step)
    requires Enabled(cfg, s, step) && Locks(step)
    ensures Frame(s, step, Apply(cfg, s, step))
  {
    hide Frame, DoSubmit, DoReject, DoStart, DoCut, DoSave, SetWorker, DoBeginPoll, DoAssign, DoFailPoll, DoSyncJob;
    hide DoEndPoll, DoFinish, BeginScanLock, ScanTaskLock, EndScanLock, SyncLock, ReadLock, JudgeLock;
    hide Assignable, SearchOk, Verdict, Query, Output, ComesTo, ReadOf;
    match step
    case BeginPoll(e) => BeginPollFrame(cfg.executors[e].meta, s, e);
    case BeginScan => LockFrame(s, step, BeginScanLock(s));
    case ScanTask(pid) => LockFrame(s, step, ScanTaskLock(s, pid));
    case EndScan => LockFrame(s, step, EndScanLock(s));
    case Assign(task) => AssignFrame(s, task);
    case FailPoll => FailPollFrame(s);
    case BeginSync => LockFrame(s, step, SyncLock(s));
    case ReadJob(j) => LockFrame(s, step, ReadLock(s, j));
    case Judge(kvs, v) => LockFrame(s, step, JudgeLock(s, kvs, v));
    case SyncJob(j, v) => SyncFrame(s, j, v);
    case EndPoll => EndPollFrame(s);
  }

  lemma ExecutorFrame(cfg: Config, s: State, step: Step)
    requires Enabled(cfg, s, step) && !Submits(step) && !Locks(step)
    ensures Frame(s, step, Apply(cfg, s, step))
  {
    hide Frame, DoSubmit, DoReject, DoStart, DoCut, DoSave, SetWorker, DoBeginPoll, DoFailPoll, DoSyncJob, DoEndPoll;
    hide DoFinish, Assignable, SearchOk, Verdict, Query, Output, ComesTo, ReadOf;
    match step
    case Sample(e) => WorkerFrame(s, step, e, SampleStatuses(s.workers[e]));
    case Send(e) => WorkerFrame(s, step, e, SendPoll(s.workers[e]));
    case LoseRequest(e) => WorkerFrame(s, step, e, s.workers[e].(rpc := Idle));
    case LoseReply(e) => WorkerFrame(s, step, e, s.workers[e].(rpc := Idle));
    case Receive(e) => WorkerFrame(s, step, e, ReceiveTask(s.workers[e]));
    case Finish(e, pid, error) => FinishFrame(cfg, s, e, pid, error);
    case Announce(e, pid) => WorkerFrame(s, step, e, AnnounceTask(s.workers[e], pid));
  }

  lemma StepFrame(cfg: Config, s: State, step: Step)
    requires Enabled(cfg, s, step)
    ensures Frame(s, step, Apply(cfg, s, step))
  {
    hide Frame, Enabled, Apply;
    if Submits(step) {
      SubmissionFrame(cfg, s, step);
    } else if Locks(step) {
      PollFrame(cfg, s, step);
    } else {
      ExecutorFrame(cfg, s, step);
    }
  }
}
