/** How to build a run, step by step. */
module RunSteps {
  import opened Plans
  import opened Scheduling
  import opened Keys
  import opened TaskOrder
  import opened Protocol
  import opened TaskInvariants
  import opened ProtocolInvariants
  import opened TaskHistory
  import opened OrderedScans

  // ---- Building runs ----

  /** Some run ends here whose scans are orderly. */
  ghost predicate Reachable(cfg: Config, s: State) {
    exists trace, steps :: EndsIn(cfg, trace, steps, s)
  }

  ghost predicate EndsIn(cfg: Config, trace: seq<State>, steps: seq<Step>, s: State) {
    IsRun(cfg, trace, steps) && Orderly(trace, steps) && trace[|trace| - 1] == s
  }

  lemma ReachableInv(cfg: Config, s: State)
    requires Reachable(cfg, s)
    ensures Inv(cfg, s)
  {
    hide Inv, IsRun;
    var trace, steps :| EndsIn(cfg, trace, steps, s);
    RunLength(cfg, trace, steps);
    RunInv(cfg, trace, steps, |trace| - 1);
  }

  lemma Started0(cfg: Config)
    requires ValidConfig(cfg)
    ensures Reachable(cfg, Init(cfg))
  {
    assert EndsIn(cfg, [Init(cfg)], [], Init(cfg));
  }

  lemma Next(cfg: Config, s: State, step: Step)
    requires Reachable(cfg, s) && Enabled(cfg, s, step) && InOrder(s, step)
    ensures Reachable(cfg, Apply(cfg, s, step))
  {
    hide Enabled, Apply, InOrder;
    var trace, steps :| EndsIn(cfg, trace, steps, s);
    var trace', steps' := trace + [Apply(cfg, s, step)], steps + [step];
    forall i | 0 <= i < |steps'|
      ensures Enabled(cfg, trace'[i], steps'[i]) && trace'[i + 1] == Apply(cfg, trace'[i], steps'[i])
      ensures InOrder(trace'[i], steps'[i])
    {
      if i < |steps| {
        assert trace'[i] == trace[i] && steps'[i] == steps[i] && trace'[i + 1] == trace[i + 1];
      }
    }
    assert EndsIn(cfg, trace', steps', Apply(cfg, s, step));
  }

  // ---- Submissions ----

  lemma Submitted(cfg: Config, s: State, j: string, plan: Plan)
    requires Reachable(cfg, s) && j !in s.jobs && j !in s.submissions && Query(cfg.eng, j, plan)
    ensures Reachable(cfg, DoStart(DoSubmit(s, j, plan), j))
  {
    hide Reachable, Assignable, SearchOk, Verdict, Query, Output, ComesTo, ReadOf, DoReject, DoStart, DoCut, DoSave;
    hide DoBeginPoll, DoFailPoll, DoFinish;
    Next(cfg, s, Submit(j, plan));
    Next(cfg, DoSubmit(s, j, plan), Start(j));
  }

  lemma IsCut(cfg: Config, s: State, j: string)
    requires Reachable(cfg, s) && j in s.submissions && s.submissions[j].Started?
    ensures Reachable(cfg, DoCut(cfg.eng, s, j))
  {
    hide Reachable, Assignable, SearchOk, Verdict, Query, Output, ComesTo, ReadOf, DoSubmit, DoReject, DoStart, DoCut;
    hide DoSave;
    hide DoBeginPoll, DoFailPoll, DoFinish;
    Next(cfg, s, Cut(j));
  }

  lemma Saves(cfg: Config, s: State, j: string)
    requires Reachable(cfg, s) && CanSave(s, j)
    ensures Reachable(cfg, DoSave(s, j))
  {
    hide Reachable, Assignable, SearchOk, Verdict, Query, Output, ComesTo, ReadOf, DoSubmit, DoReject, DoStart, DoCut;
    hide DoSave;
    hide DoBeginPoll, DoFailPoll, DoFinish;
    Next(cfg, s, SaveNext(j));
  }

  // ---- Polls ----

  lemma PollSent(cfg: Config, s: State, e: string)
    requires Reachable(cfg, s) && e in s.workers && s.workers[e].rpc.Idle?
    ensures Reachable(cfg, SetWorker(s, e, SendPoll(SampleStatuses(s.workers[e]))))
  {
    hide Reachable, Assignable, SearchOk, Verdict, Query, Output, ComesTo, ReadOf, DoSubmit, DoReject, DoStart, DoCut;
    hide DoSave;
    hide DoBeginPoll, DoFailPoll, DoFinish;
    var s1 := SetWorker(s, e, SampleStatuses(s.workers[e]));
    Next(cfg, s, Sample(e));
    Next(cfg, s1, Send(e));
    assert SetWorker(s1, e, SendPoll(s1.workers[e])) == SetWorker(s, e, SendPoll(SampleStatuses(s.workers[e])));
  }

  lemma PollBegins(cfg: Config, s: State, e: string)
    requires Reachable(cfg, s) && e in s.workers && e in cfg.executors && s.workers[e].rpc.Sent? && s.lock.Unlocked?
    ensures Reachable(cfg, DoBeginPoll(cfg.executors[e].meta, s, e))
  {
    hide Reachable, Assignable, SearchOk, Verdict, Query, Output, ComesTo, ReadOf, DoSubmit, DoReject, DoStart, DoCut;
    hide DoSave;
    hide DoBeginPoll, DoFailPoll, DoFinish;
    Next(cfg, s, BeginPoll(e));
  }

  lemma ScanBegins(cfg: Config, s: State)
    requires Reachable(cfg, s) && s.lock.Saved?
    ensures Reachable(cfg, s.(lock := BeginScanLock(s)))
  {
    hide Reachable, Assignable, SearchOk, Verdict, Query, Output, ComesTo, ReadOf, DoSubmit, DoReject, DoStart, DoCut;
    hide DoSave;
    hide DoBeginPoll, DoFailPoll, DoFinish;
    Next(cfg, s, BeginScan);
  }

  lemma TaskScanned(cfg: Config, s: State, pid: PartitionId)
    requires Reachable(cfg, s) && s.lock.Scanning? && pid in s.tasks && ComesTo(s.lock.present, s.lock.kvs, pid)
    requires InOrder(s, ScanTask(pid))
    ensures Reachable(cfg, s.(lock := ScanTaskLock(s, pid)))
  {
    hide Reachable, Assignable, SearchOk, Verdict, Query, Output, DoSubmit, DoReject, DoStart, DoCut, DoSave;
    hide DoBeginPoll, DoFailPoll, DoFinish, ComesTo, ReadOf, InOrder;
    Next(cfg, s, ScanTask(pid));
  }

  lemma ScanEnds(cfg: Config, s: State)
    requires Reachable(cfg, s) && s.lock.Scanning? && s.lock.present <= s.lock.kvs.Keys && InOrder(s, EndScan)
    ensures Reachable(cfg, s.(lock := EndScanLock(s)))
  {
    hide Reachable, Assignable, SearchOk, Verdict, Query, Output, DoSubmit, DoReject, DoStart, DoCut, DoSave;
    hide DoBeginPoll, DoFailPoll, DoFinish, ComesTo, ReadOf, InOrder;
    Next(cfg, s, EndScan);
  }

  /** A scan that goes up all stored tasks, with nothing stored in between. */
  lemma {:induction false} ScanGoesUp(cfg: Config, s: State)
    requires Reachable(cfg, s) && s.lock.Scanning? && s.lock.present == s.tasks.Keys && PartOf(s.lock.kvs, s.tasks)
    requires Rising(s.tasks.Keys, s.lock.kvs)
    ensures Reachable(cfg, s.(lock := Scanning(s.lock.executorId, s.lock.reported, s.tasks.Keys, s.tasks)))
    decreases s.tasks.Keys - s.lock.kvs.Keys
  {
    hide Reachable, Inv, Precedes;
    var left := s.tasks.Keys - s.lock.kvs.Keys;
    if left == {} {
      forall pid | pid in s.tasks ensures pid in s.lock.kvs {
        assert pid !in left;
      }
      assert s.lock.kvs == s.tasks;
    } else {
      ReachableInv(cfg, s);
      forall pid | pid in left ensures SlashFree(pid.jobId) {
        StoredIsSlashFree(cfg, s, pid);
      }
      var pid := LeastTask(left);
      forall q | q in s.tasks && q != pid && Above(s.lock.kvs, q) ensures Precedes(pid, q) {
        NotPrecedesItself(q);
      }
      TaskScanned(cfg, s, pid);
      ScanGoesUp(cfg, s.(lock := ScanTaskLock(s, pid)));
    }
  }

  lemma ScansUp(cfg: Config, s: State)
    requires Reachable(cfg, s) && s.lock.Saved? && s.lock.canAccept
    ensures Reachable(cfg, s.(lock := Scanning(s.lock.executorId, s.lock.reported, s.tasks.Keys, s.tasks)))
  {
    hide Reachable;
    ScanBegins(cfg, s);
    ScanGoesUp(cfg, s.(lock := BeginScanLock(s)));
  }

  /** ... and then ends. */
  lemma ScansAll(cfg: Config, s: State)
    requires Reachable(cfg, s) && s.lock.Saved? && s.lock.canAccept
    ensures Reachable(cfg, s.(lock := Scanned(s.lock.executorId, s.lock.reported, s.tasks.Keys, s.tasks, s.executors)))
  {
    hide Reachable, Above;
    ScansUp(cfg, s);
    ScanEnds(cfg, s.(lock := Scanning(s.lock.executorId, s.lock.reported, s.tasks.Keys, s.tasks)));
  }

  lemma TaskAssigned(cfg: Config, s: State, task: Option<Task>)
    requires Reachable(cfg, s) && s.lock.Scanned? && Assignable(s.lock.kvs, s.plans, s.lock.executors, task)
    ensures Reachable(cfg, DoAssign(s, task).(lock := SyncLock(DoAssign(s, task))))
  {
    hide Reachable, Assignable, SearchOk, Verdict, Query, Output, ComesTo, ReadOf, DoSubmit, DoReject, DoStart, DoCut;
    hide DoSave;
    hide DoBeginPoll, DoFailPoll, DoFinish;
    Next(cfg, s, Assign(task));
    Next(cfg, DoAssign(s, task), BeginSync);
  }

  /** The job's tasks are read, and what they say is about to be recorded. */
  lemma JobRead(cfg: Config, s: State, j: string, v: Option<JobStatus>)
    requires Reachable(cfg, s) && s.lock.Syncing? && j in s.lock.todo && Verdict(s.tasks, s.executors, j, v)
    ensures Reachable(cfg, s.(lock := Judged(s.lock.executorId, s.lock.task, s.lock.todo, j, s.tasks.Keys, s.tasks, v)))
  {
    hide Reachable, Assignable, SearchOk, Verdict, Query, Output, DoSubmit, DoReject, DoStart, DoCut, DoSave;
    hide DoBeginPoll, DoFailPoll, DoFinish, ComesTo;
    Next(cfg, s, ReadJob(j));
    Next(cfg, s.(lock := ReadLock(s, j)), Judge(s.tasks, v));
  }

  lemma JobRecorded(cfg: Config, s: State)
    requires Reachable(cfg, s) && s.lock.Judged?
    ensures Reachable(cfg, DoSyncJob(s, s.lock.jobId, s.lock.verdict))
  {
    hide Reachable, Assignable, SearchOk, Verdict, Query, Output, DoSubmit, DoReject, DoStart, DoCut, DoSave;
    hide DoBeginPoll, DoFailPoll, DoFinish, ComesTo, ReadOf;
    Next(cfg, s, SyncJob(s.lock.jobId, s.lock.verdict));
  }

  lemma PollAnswered(cfg: Config, s: State)
    requires Reachable(cfg, s) && s.lock.Syncing? && s.lock.todo == {} && s.lock.executorId in s.workers
    ensures Reachable(cfg, DoEndPoll(s))
  {
    hide Reachable, Assignable, SearchOk, Verdict, Query, Output, ComesTo, ReadOf, DoSubmit, DoReject, DoStart, DoCut;
    hide DoSave;
    hide DoBeginPoll, DoFailPoll, DoFinish;
    Next(cfg, s, EndPoll);
  }

  // ---- Executors ----

  lemma ReplyIsLost(cfg: Config, s: State, e: string)
    requires Reachable(cfg, s) && e in s.workers && s.workers[e].rpc.Answered?
    ensures Reachable(cfg, SetWorker(s, e, s.workers[e].(rpc := Idle)))
  {
    hide Reachable, Assignable, SearchOk, Verdict, Query, Output, ComesTo, ReadOf, DoSubmit, DoReject, DoStart, DoCut;
    hide DoSave;
    hide DoBeginPoll, DoFailPoll, DoFinish;
    Next(cfg, s, LoseReply(e));
  }

  lemma TaskReceived(cfg: Config, s: State, e: string)
    requires Reachable(cfg, s) && e in s.workers && s.workers[e].rpc.Answered?
    ensures Reachable(cfg, SetWorker(s, e, ReceiveTask(s.workers[e])))
  {
    hide Reachable, Assignable, SearchOk, Verdict, Query, Output, ComesTo, ReadOf, DoSubmit, DoReject, DoStart, DoCut;
    hide DoSave;
    hide DoBeginPoll, DoFailPoll, DoFinish;
    Next(cfg, s, Receive(e));
  }

  lemma TaskFinished(cfg: Config, s: State, e: string, pid: PartitionId)
    requires Reachable(cfg, s) && e in s.workers && e in cfg.executors && pid in s.workers[e].inFlight
    requires Output(cfg.eng, s, e, pid).Some?
    ensures Reachable(cfg, DoFinish(cfg, s, e, pid, None))
  {
    hide Reachable, Assignable, SearchOk, Verdict, Query, Output, ComesTo, ReadOf, DoSubmit, DoReject, DoStart, DoCut;
    hide DoSave;
    hide DoBeginPoll, DoFailPoll, DoFinish;
    Next(cfg, s, Finish(e, pid, None));
  }

  lemma TaskAnnounced(cfg: Config, s: State, e: string, pid: PartitionId)
    requires Reachable(cfg, s) && e in s.workers && pid in s.workers[e].finished
    ensures Reachable(cfg, SetWorker(s, e, AnnounceTask(s.workers[e], pid)))
  {
    hide Reachable, Assignable, SearchOk, Verdict, Query, Output, ComesTo, ReadOf, DoSubmit, DoReject, DoStart, DoCut;
    hide DoSave;
    hide DoBeginPoll, DoFailPoll, DoFinish;
    Next(cfg, s, Announce(e, pid));
  }
}
