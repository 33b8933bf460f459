/** Runs come to an end: every dispatch and every report uses up a fixed amount of work, and a run that has
    nothing left to do has completed every task. */
module Termination {
  import opened Plans
  import opened Scheduling
  import opened Keys
  import opened TaskOrder
  import opened Protocol
  import opened StorageInvariant
  import opened OwnershipInvariant
  import opened TaskInvariants
  import opened DataInvariant
  import opened ProtocolInvariants
  import opened ProtocolFrame
  import opened TaskHistory
  import opened NoDeadlock
  import opened Conservation

  // ---- The measure ----

  function PendingTasks(tasks: Tasks): set<PartitionId> {
    set pid | pid in tasks && tasks[pid].Pending?
  }

  function RunningTasks(tasks: Tasks): set<PartitionId> {
    set pid | pid in tasks && tasks[pid].Running?
  }

  /** The work left: a pending task is still to be handed out and reported, a running one to be reported. */
  function Measure(tasks: Tasks): nat {
    2 * |PendingTasks(tasks)| + |RunningTasks(tasks)|
  }

  function Weight(status: Status): nat {
    match status
    case Pending => 2
    case Running(_) => 1
    case _ => 0
  }

  lemma SizeOfUpdate<T>(before: set<T>, after: set<T>, x: T)
    requires after - {x} == before - {x}
    ensures |after| == |before| + (if x in after then 1 else 0) - if x in before then 1 else 0
  {
    assert x in after ==> after == (after - {x}) + {x};
    assert x in before ==> before == (before - {x}) + {x};
    assert x !in after ==> after == after - {x};
    assert x !in before ==> before == before - {x};
  }

  lemma MeasureOfUpdate(tasks: Tasks, pid: PartitionId, status: Status)
    ensures
      var was := if pid in tasks then Weight(tasks[pid]) else 0;
      Measure(tasks[pid := status]) == Measure(tasks) + Weight(status) - was
  {
    var tasks' := tasks[pid := status];
    SizeOfUpdate(PendingTasks(tasks), PendingTasks(tasks'), pid);
    SizeOfUpdate(RunningTasks(tasks), RunningTasks(tasks'), pid);
  }

  lemma {:induction false} OccursPrefix(reports: seq<Report>, pid: PartitionId)
    requires reports != []
    ensures
      var last := reports[|reports| - 1];
      Occurs(reports, pid) == Occurs(reports[..|reports| - 1], pid) + if last.partitionId == pid then 1 else 0
  {
  }

  /** Saving reports of distinct running tasks uses up one unit each. */
  lemma {:induction false} MeasureOfReports(tasks: Tasks, reports: seq<Report>, e: string)
    requires GoodReports(reports, e)
    requires forall pid | Occurs(reports, pid) > 0 :: Occurs(reports, pid) == 1 && pid in tasks && tasks[pid].Running?
    ensures Measure(SaveReports(tasks, reports)) + |reports| == Measure(tasks)
    ensures SaveReports(tasks, reports).Keys == tasks.Keys
  {
    hide Measure, Occurs;
    if reports != [] {
      var init, last := reports[..|reports| - 1], reports[|reports| - 1];
      forall pid | Occurs(init, pid) > 0 ensures Occurs(init, pid) == 1 && pid in tasks && tasks[pid].Running? {
        OccursPrefix(reports, pid);
      }
      MeasureOfReports(tasks, init, e);
      OccursPrefix(reports, last.partitionId);
      SavedReport(tasks, init, last.partitionId);
      MeasureOfUpdate(SaveReports(tasks, init), last.partitionId, last.status);
    }
  }

  /** The dispatches and reports of one step. */
  function Work(s: State, step: Step): nat {
    match step
    case Assign(task) => if task.Some? then 1 else 0
    case BeginPoll(e) => if e in s.workers && s.workers[e].rpc.Sent? then |s.workers[e].rpc.reports| else 0
    case _ => 0
  }

  lemma BeginPollMeasure(cfg: Config, s: State, e: string)
    requires Inv(cfg, s) && e in s.workers && e in cfg.executors && s.workers[e].rpc.Sent? && s.lock.Unlocked?
    ensures
      var tasks' := SaveReports(s.tasks, s.workers[e].rpc.reports);
      Measure(tasks') + |s.workers[e].rpc.reports| == Measure(s.tasks) && tasks'.Keys == s.tasks.Keys
  {
    hide Inv, Measure, CrewMember, RightPlans, WorkerReportsThere, SaveReports;
    WorkerFacts(cfg, s, e);
    GoodReportsOf(cfg, s.workers[e], s.lock, e);
    var reports := s.workers[e].rpc.reports;
    forall pid | Occurs(reports, pid) > 0 ensures Occurs(reports, pid) == 1 && pid in s.tasks && s.tasks[pid].Running? {
      assert Held(s.workers[e], s.lock, e, pid) >= Occurs(reports, pid);
    }
    MeasureOfReports(s.tasks, reports, e);
  }

  lemma SaveMeasure(cfg: Config, s: State, j: string)
    requires Inv(cfg, s) && CanSave(s, j)
    ensures
      var tasks' := DoSave(s, j).tasks;
      Measure(tasks') == Measure(s.tasks) + 2 * (|tasks'| - |s.tasks|) && |tasks'| >= |s.tasks|
  {
    hide Measure, DoSave, Storage, GoodJobs, Ownership, Crew, Registered, Dependencies, AllRightPlans, Snapshot;
    hide StoredRows, OutputsThere, ReportsThere;
    hide GoodCursor, Advance;
    var sub := s.submissions[j];
    GoodCursorOf(s.tasks.Keys, s.plans, s.submissions, j);
    SaveParts(s, j);
    NotYetWritten(s.tasks.Keys, s.plans, s.submissions, j);
    if sub.next > 0 {
      MeasureOfNewTask(s.tasks, PartitionId(j, sub.stage + 1, sub.next - 1));
    }
  }

  lemma MeasureOfNewTask(tasks: Tasks, pid: PartitionId)
    requires pid !in tasks
    ensures Measure(tasks[pid := Pending]) == Measure(tasks) + 2 && |tasks[pid := Pending]| == |tasks| + 1
  {
    hide Measure;
    MeasureOfUpdate(tasks, pid, Pending);
    SizeOfUpdate(tasks.Keys, tasks[pid := Pending].Keys, pid);
  }

  lemma SameSize(a: Tasks, b: Tasks)
    requires a.Keys == b.Keys
    ensures |a| == |b|
  {
    assert |a| == |a.Keys| && |b| == |b.Keys|;
  }

  /** What a step adds to and takes from the work left. */
  lemma StepMeasure(cfg: Config, s: State, step: Step)
    requires Inv(cfg, s) && Enabled(cfg, s, step)
    ensures
      var tasks' := Apply(cfg, s, step).tasks;
      && |tasks'| >= |s.tasks|
      && Measure(tasks') + Work(s, step) == Measure(s.tasks) + 2 * (|tasks'| - |s.tasks|)
  {
    hide Inv, Measure, Assignable, SearchOk, Verdict, Query, Output;
    hide DoSubmit, DoReject, DoStart, DoCut, DoSave, DoFinish, SaveReports, DoFailPoll, DoSyncJob, DoEndPoll;
    StepFrame(cfg, s, step);
    if step.SaveNext? {
      SaveMeasure(cfg, s, step.jobId);
    } else if step.BeginPoll? {
      BeginPollMeasure(cfg, s, step.executorId);
      SameSize(s.tasks, Apply(cfg, s, step).tasks);
    } else if step.Assign? && step.task.Some? {
      AssignMeasure(cfg, s, step.task.value);
    }
  }

  lemma AssignMeasure(cfg: Config, s: State, t: Task)
    requires Inv(cfg, s) && s.lock.Scanned? && Assignable(s.lock.kvs, s.plans, s.lock.executors, Some(t))
    ensures
      var tasks' := DoAssign(s, Some(t)).tasks;
      Measure(tasks') + 1 == Measure(s.tasks) && |tasks'| == |s.tasks|
  {
    hide Inv, Measure, Assignable;
    AssignStatuses(cfg, s, t, t.id);
    MeasureOfUpdate(s.tasks, t.id, Running(s.lock.executorId));
    assert DoAssign(s, Some(t)).tasks.Keys == s.tasks.Keys;
    SameSize(s.tasks, DoAssign(s, Some(t)).tasks);
  }

  /** All dispatches and reports of the first `n` steps. */
  function TotalWork(trace: seq<State>, steps: seq<Step>, n: nat): nat
    requires n <= |steps| < |trace|
  {
    if n == 0 then 0 else TotalWork(trace, steps, n - 1) + Work(trace[n - 1], steps[n - 1])
  }

  /** The books balance at every point of every run: work done and work left make two units for each task stored. */
  lemma {:induction false} WorkBalances(cfg: Config, trace: seq<State>, steps: seq<Step>, n: nat)
    requires IsRun(cfg, trace, steps) && n <= |steps| < |trace|
    ensures Measure(trace[n].tasks) + TotalWork(trace, steps, n) == 2 * |trace[n].tasks|
  {
    hide Inv, Enabled, Apply, Measure, Work;
    if n == 0 {
      NoWorkYet();
    } else {
      WorkBalances(cfg, trace, steps, n - 1);
      RunStep(cfg, trace, steps, n - 1);
      StepMeasure(cfg, trace[n - 1], steps[n - 1]);
    }
  }

  lemma NoWorkYet()
    ensures Measure(map[]) == 0
  {
    assert PendingTasks(map[]) == {} && RunningTasks(map[]) == {};
  }

  /** While no further task is stored, every dispatch and every report brings the measure down by one; so there are at
      most as many of them as the measure said at the start. */
  lemma WorkIsBounded(cfg: Config, trace: seq<State>, steps: seq<Step>, i: nat, j: nat)
    requires IsRun(cfg, trace, steps) && i <= j <= |steps| < |trace|
    requires |trace[i].tasks| == |trace[j].tasks|
    ensures Measure(trace[j].tasks) + (TotalWork(trace, steps, j) - TotalWork(trace, steps, i))
         == Measure(trace[i].tasks)
    ensures TotalWork(trace, steps, j) - TotalWork(trace, steps, i) <= Measure(trace[i].tasks)
  {
    hide IsRun, Measure, TotalWork;
    WorkBalances(cfg, trace, steps, i);
    WorkBalances(cfg, trace, steps, j);
  }

  // ---- Runs that have nothing left to do ----

  /** Steps that get something done: all but new queries, losses, failures of planning and of tasks, and polls that
      report nothing and would find nothing to run. A search that fails ends its poll. */
  ghost predicate Progress(cfg: Config, s: State, step: Step) {
    && Enabled(cfg, s, step)
    && !step.Submit? && !step.Reject? && !Loses(step)
    && (step.Finish? ==> step.error.None?)
    && (step.Sample? ==> s.workers[step.executorId].channel != [] || AsksForWork(s, step.executorId))
  }

  ghost predicate AsksForWork(s: State, e: string) {
    e in s.workers && s.workers[e].free > 0 && exists pid :: Ready(s.tasks, s.plans, pid)
  }

  function JobLocationOf(tasks: Tasks, executors: Executors, pid: PartitionId): JobLocation {
    JobLocation(pid, if Done(tasks, executors, pid) then Some(executors[tasks[pid].executorId]) else None)
  }

  function TasksOf(tasks: Tasks, jobId: string): set<PartitionId> {
    set pid | pid in tasks && pid.jobId == jobId
  }

  ghost predicate ListsKeys(tasks: Tasks, executors: Executors, keys: set<PartitionId>, ls: seq<JobLocation>) {
    && (forall pid | pid in keys :: exists i | 0 <= i < |ls| :: ls[i].partitionId == pid)
    && (forall i, j | 0 <= i < j < |ls| :: ls[i].partitionId != ls[j].partitionId)
    && (forall i | 0 <= i < |ls| ::
         ls[i].partitionId in keys && ls[i] == JobLocationOf(tasks, executors, ls[i].partitionId))
  }

  lemma {:induction false} TasksCanBeListed(tasks: Tasks, executors: Executors, keys: set<PartitionId>)
    ensures exists ls :: ListsKeys(tasks, executors, keys, ls)
    decreases keys
  {
    if keys == {} {
      assert ListsKeys(tasks, executors, keys, []);
    } else {
      var pid :| pid in keys;
      TasksCanBeListed(tasks, executors, keys - {pid});
      var ls :| ListsKeys(tasks, executors, keys - {pid}, ls);
      OneMoreListed(tasks, executors, keys, ls, pid);
    }
  }

  lemma OneMoreListed(tasks: Tasks, executors: Executors, keys: set<PartitionId>, ls: seq<JobLocation>,
                      pid: PartitionId)
    requires pid in keys && ListsKeys(tasks, executors, keys - {pid}, ls)
    ensures ListsKeys(tasks, executors, keys, ls + [JobLocationOf(tasks, executors, pid)])
  {
    hide JobLocationOf;
    var ls' := ls + [JobLocationOf(tasks, executors, pid)];
    assert JobLocationOf(tasks, executors, pid).partitionId == pid by { JobLocationId(tasks, executors, pid); }
    forall q | q in keys ensures exists i | 0 <= i < |ls'| :: ls'[i].partitionId == q {
      if q == pid {
        assert ls'[|ls|].partitionId == q;
      } else {
        assert q in keys - {pid};
        var i :| 0 <= i < |ls| && ls[i].partitionId == q;
        assert ls'[i].partitionId == q;
      }
    }
  }

  lemma JobLocationId(tasks: Tasks, executors: Executors, pid: PartitionId)
    ensures JobLocationOf(tasks, executors, pid).partitionId == pid
  {
  }

  lemma CompletedJobListed(tasks: Tasks, executors: Executors, jobId: string, ls: seq<JobLocation>)
    requires AllCompleted(tasks, jobId)
    requires ListsKeys(tasks, executors, TasksOf(tasks, jobId), ls)
    ensures ListsJob(tasks, executors, jobId, ls)
  {
    forall pid | pid in tasks && pid.jobId == jobId ensures exists i | 0 <= i < |ls| :: ls[i].partitionId == pid {
      assert pid in TasksOf(tasks, jobId);
    }
  }

  /** The tasks always say something about a job, if only that there is nothing new. */
  lemma VerdictExists(tasks: Tasks, executors: Executors, jobId: string)
    ensures exists v :: Verdict(tasks, executors, jobId, v)
  {
    hide ListsJob, ListsKeys;
    if forall pid | pid in tasks :: pid.jobId != jobId {
      assert Verdict(tasks, executors, jobId, None);
    } else if AllCompleted(tasks, jobId) {
      var keys := TasksOf(tasks, jobId);
      TasksCanBeListed(tasks, executors, keys);
      var ls :| ListsKeys(tasks, executors, keys, ls);
      CompletedJobListed(tasks, executors, jobId, ls);
      assert Verdict(tasks, executors, jobId, Some(CompletedJob(ls)));
    } else if exists pid | pid in tasks :: pid.jobId == jobId && tasks[pid].Failed? {
      var pid :| pid in tasks && pid.jobId == jobId && tasks[pid].Failed?;
      assert Verdict(tasks, executors, jobId, Some(FailedJob(tasks[pid].error)));
    } else if exists pid | pid in tasks :: pid.jobId == jobId && tasks[pid].Running? {
      assert Verdict(tasks, executors, jobId, Some(RunningJob));
    } else {
      assert Verdict(tasks, executors, jobId, None);
    }
  }

  /** The scan comes to the first of the tasks it must not leave out. */
  lemma ScanGoesOn(cfg: Config, s: State)
    requires Inv(cfg, s) && s.lock.Scanning?
    ensures exists step :: Progress(cfg, s, step)
  {
    hide Inv, Assignable, SearchOk, Verdict, Query, Output, Ready, Closed, Precedes;
    SnapshotOf(cfg, s);
    var left := s.lock.present - s.lock.kvs.Keys;
    if left == {} {
      forall pid | pid in s.lock.present ensures pid in s.lock.kvs.Keys {
        assert pid !in left;
      }
      assert Progress(cfg, s, EndScan);
    } else {
      forall pid | pid in left ensures SlashFree(pid.jobId) {
        StoredIsSlashFree(cfg, s, pid);
      }
      var pid := LeastTask(left);
      assert ComesTo(s.lock.present, s.lock.kvs, pid);
      assert Progress(cfg, s, ScanTask(pid));
    }
  }

  lemma ScannedGoesOn(cfg: Config, s: State)
    requires Inv(cfg, s) && s.lock.Scanned?
    ensures exists step :: Progress(cfg, s, step)
  {
    hide Inv, Assignable, SearchOk, Verdict, Query, Output, Ready, ComesTo, ReadOf;
    SearchGoesOn(s.lock.kvs, s.plans, s.lock.executors);
    LockHolderOf(cfg, s);
    if !SearchOk(s.lock.kvs, s.plans, s.lock.executors) {
      assert Progress(cfg, s, FailPoll);
    } else {
      var task :| Assignable(s.lock.kvs, s.plans, s.lock.executors, task);
      assert Progress(cfg, s, Assign(task));
    }
  }

  lemma ReadingGoesOn(cfg: Config, s: State)
    requires Inv(cfg, s) && s.lock.Reading?
    ensures exists step :: Progress(cfg, s, step)
  {
    hide Inv, Assignable, SearchOk, Verdict, Query, Output, Ready, ComesTo;
    SnapshotOf(cfg, s);
    VerdictExists(s.tasks, s.executors, s.lock.jobId);
    var v :| Verdict(s.tasks, s.executors, s.lock.jobId, v);
    assert ReadOf(s.lock.present, s.tasks, s.tasks, s.lock.jobId);
    assert Progress(cfg, s, Judge(s.tasks, v));
  }

  /** The scheduler is never stuck inside a poll. */
  lemma PollGoesOn(cfg: Config, s: State)
    requires Inv(cfg, s) && !s.lock.Unlocked?
    ensures exists step :: Progress(cfg, s, step)
  {
    hide Inv, Assignable, SearchOk, Verdict, Query, Output, Ready, ComesTo, ReadOf;
    match s.lock
    case Saved(_, _, _) => assert Progress(cfg, s, BeginScan);
    case Scanning(_, _, _, _) => ScanGoesOn(cfg, s);
    case Scanned(_, _, _, _, _) => ScannedGoesOn(cfg, s);
    case Assigned(_, _, _) => assert Progress(cfg, s, BeginSync);
    case Syncing(_, _, todo) =>
      if todo == {} {
        LockHolderOf(cfg, s);
        assert Progress(cfg, s, EndPoll);
      } else {
        var j :| j in todo;
        assert Progress(cfg, s, ReadJob(j));
      }
    case Reading(_, _, _, _, _) => ReadingGoesOn(cfg, s);
    case Judged(_, _, _, j, _, _, v) => assert Progress(cfg, s, SyncJob(j, v));
  }

  /** Nor is a submission stuck between two of its writes. */
  lemma SubmissionGoesOn(cfg: Config, s: State, j: string)
    requires Inv(cfg, s) && j in s.submissions
    requires !s.submissions[j].Aborted?
    requires (s.submissions[j].Saving? ==> s.submissions[j].stage != |s.submissions[j].stages|)
    ensures exists step :: Progress(cfg, s, step)
  {
    hide GoodJobs, Ownership, Crew, Registered, Dependencies, AllRightPlans, Snapshot, StoredRows, OutputsThere;
    hide ReportsThere;
    hide Assignable, SearchOk, Verdict, Query, Output, Ready, Storage;
    GoodCursorOf(s.tasks.Keys, s.plans, s.submissions, j);
    match s.submissions[j]
    case Accepted(_, _) => assert Progress(cfg, s, Start(j));
    case Started(_, _) => assert Progress(cfg, s, Cut(j));
    case Saving(_, _, _, _, _) => assert Progress(cfg, s, SaveNext(j));
  }

  predicate AtRest(w: Worker) {
    w.rpc.Idle? && w.channel == [] && w.finished == map[] && w.inFlight == map[]
  }

  lemma InFlightGoesOn(cfg: Config, s: State, e: string, pid: PartitionId)
    requires Inv(cfg, s) && e in s.workers && e in cfg.executors && pid in s.workers[e].inFlight
    ensures Progress(cfg, s, Finish(e, pid, None))
  {
    hide Inv, Assignable, SearchOk, Verdict, Query, Output, Ready;
    InFlightOutputRight(cfg, s, e, pid);
  }

  lemma FinishedGoesOn(cfg: Config, s: State, e: string, pid: PartitionId)
    requires e in s.workers && pid in s.workers[e].finished
    ensures Progress(cfg, s, Announce(e, pid))
  {
    hide Assignable, SearchOk, Verdict, Query, Output, Ready;
  }

  lemma RoundGoesOn(cfg: Config, s: State, e: string)
    requires e in s.workers && e in cfg.executors && s.lock.Unlocked? && !s.workers[e].rpc.Serving?
    requires s.workers[e].rpc.Idle? ==> s.workers[e].channel != []
    ensures exists step :: Progress(cfg, s, step)
  {
    hide Assignable, SearchOk, Verdict, Query, Output, Ready;
    match s.workers[e].rpc
    case Idle => assert Progress(cfg, s, Sample(e));
    case Sampled(_) => assert Progress(cfg, s, Send(e));
    case Sent(_, _) => assert Progress(cfg, s, BeginPoll(e));
    case Answered(_) => assert Progress(cfg, s, Receive(e));
  }

  /** An executor that has something to run, to report or to wait for moves on: the rows its tasks read are there. */
  lemma ExecutorGoesOn(cfg: Config, s: State, e: string)
    requires Inv(cfg, s) && s.lock.Unlocked? && e in s.workers && !AtRest(s.workers[e])
    ensures exists step :: Progress(cfg, s, step)
  {
    hide Inv, Progress, HeldOnce, RightPlans, WorkerReportsThere;
    WorkerFacts(cfg, s, e);
    var w := s.workers[e];
    if w.inFlight != map[] {
      var pid :| pid in w.inFlight;
      InFlightGoesOn(cfg, s, e, pid);
    } else if w.finished != map[] {
      var pid :| pid in w.finished;
      FinishedGoesOn(cfg, s, e, pid);
    } else {
      RoundGoesOn(cfg, s, e);
    }
  }

  /** At rest nothing is held, so nothing is stored as running. */
  lemma NothingRuns(s: State, pid: PartitionId)
    requires NothingLost(s.tasks, s.workers, s.lock) && s.lock.Unlocked?
    requires forall e | e in s.workers :: AtRest(s.workers[e])
    requires pid in s.tasks
    ensures !s.tasks[pid].Running?
  {
    forall e | e in s.workers ensures Held(s.workers[e], s.lock, e, pid) == 0 {
      assert AtRest(s.workers[e]);
    }
  }

  lemma WaitingTaskGoesOn(cfg: Config, s: State, pid: PartitionId, e: string)
    requires Inv(cfg, s) && s.lock.Unlocked? && pid in s.tasks && s.tasks[pid].Pending?
    requires OnlyWaiting(s.tasks, pid.jobId)
    requires e in s.workers && AtRest(s.workers[e]) && e in cfg.executors && cfg.executors[e].concurrentTasks > 0
    ensures exists step :: Progress(cfg, s, step)
  {
    hide Storage, GoodJobs, Ownership, Registered, Dependencies, AllRightPlans, Snapshot, StoredRows, OutputsThere;
    hide ReportsThere;
    hide Assignable, SearchOk, Verdict, Query, Output, Ready, Closed, Downward;
    assert CrewMember(cfg, s.workers[e], s.lock, e);
    StorageIsClosed(cfg.eng, s.tasks.Keys, s.plans, s.submissions);
    StorageIsDownward(cfg.eng, s.tasks.Keys, s.plans, s.submissions);
    SomethingIsReady(s.tasks, s.tasks.Keys, s.plans, pid);
    assert Progress(cfg, s, Sample(e));
  }

  /** A run without lost polls and failed tasks, with an executor that can run tasks, that can make no more progress,
      has saved every stage of every job and completed every task. */
  lemma StopsWhenDone(cfg: Config, trace: seq<State>, steps: seq<Step>, i: nat, e: string)
    requires IsRun(cfg, trace, steps) && i < |trace| && (forall k | 0 <= k < i && k < |steps| :: !Loses(steps[k]))
    requires e in cfg.executors && cfg.executors[e].concurrentTasks > 0
    requires forall pid | pid in trace[i].tasks :: !trace[i].tasks[pid].Failed?
    requires !exists step :: Progress(cfg, trace[i], step)
    ensures forall j | j in trace[i].submissions :: SaveEnded(trace[i], j)
    ensures forall pid | pid in trace[i].tasks :: trace[i].tasks[pid].Completed?
  {
    hide IsRun, Inv, Progress, NothingLost, AtRest;
    var s := trace[i];
    RunInv(cfg, trace, steps, i);
    RunLosesNothing(cfg, trace, steps, i);
    if !s.lock.Unlocked? {
      PollGoesOn(cfg, s);
    }
    forall f | f in s.workers ensures AtRest(s.workers[f]) {
      if !AtRest(s.workers[f]) {
        ExecutorGoesOn(cfg, s, f);
      }
    }
    forall j | j in s.submissions ensures SaveEnded(s, j) {
      if !SaveEnded(s, j) {
        SubmissionGoesOn(cfg, s, j);
      }
    }
    forall pid | pid in s.tasks ensures !s.tasks[pid].Running? {
      NothingRuns(s, pid);
    }
    forall pid | pid in s.tasks ensures s.tasks[pid].Completed? {
      if s.tasks[pid].Pending? {
        AllExecutorsWork(cfg, s);
        WaitingTaskGoesOn(cfg, s, pid, e);
      }
    }
  }
}
