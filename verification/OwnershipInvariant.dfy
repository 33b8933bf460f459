/** Who holds a running task: exactly one executor, in exactly one place. */
module OwnershipInvariant {
  import opened Plans
  import opened Scheduling
  import opened Protocol

  /** How often a task is reported. */
  function Occurs(reports: seq<Report>, pid: PartitionId): nat {
    if reports == [] then 0
    else Occurs(reports[..|reports| - 1], pid) + (if reports[|reports| - 1].partitionId == pid then 1 else 0)
  }

  function IsTask(task: Option<Task>, pid: PartitionId): nat {
    if task.Some? && task.value.id == pid then 1 else 0
  }

  function InRpc(rpc: Rpc, pid: PartitionId): nat {
    match rpc
    case Sampled(reports) => Occurs(reports, pid)
    case Sent(_, reports) => Occurs(reports, pid)
    case Answered(task) => IsTask(task, pid)
    case _ => 0
  }

  /** The task the lock holder is about to answer with. */
  function LockTask(lock: Lock): Option<Task> {
    match lock
    case Assigned(_, _, task) => task
    case Syncing(_, task, _) => task
    case Reading(_, task, _, _, _) => task
    case Judged(_, task, _, _, _, _, _) => task
    case _ => None
  }

  function InLock(lock: Lock, e: string, pid: PartitionId): nat {
    if lock.Unlocked? || lock.executorId != e then 0 else IsTask(LockTask(lock), pid)
  }

  /** In how many places executor `e` holds the task: on its way there, running there, or on its way
      back as a report. */
  function Held(w: Worker, lock: Lock, e: string, pid: PartitionId): nat {
    (if pid in w.inFlight then 1 else 0) + (if pid in w.finished then 1 else 0)
    + Occurs(w.channel, pid) + InRpc(w.rpc, pid) + InLock(lock, e, pid)
  }

  ghost predicate HeldOnce(tasks: Tasks, w: Worker, lock: Lock, e: string) {
    forall pid :: Held(w, lock, e, pid) > 0 ==> Held(w, lock, e, pid) == 1 && pid in tasks && tasks[pid] == Running(e)
  }

  type Workers = map<string, Worker>

  /** Nothing is held twice, and what an executor holds is stored as running there. */
  ghost predicate Ownership(tasks: Tasks, workers: Workers, lock: Lock) {
    forall e | e in workers :: HeldOnce(tasks, workers[e], lock, e)
  }

  predicate Serves(lock: Lock, e: string) {
    !lock.Unlocked? && lock.executorId == e
  }

  /** A poll of `e` that asked for a task is under way. */
  predicate Asking(w: Worker, lock: Lock, e: string) {
    || (w.rpc.Sent? && w.rpc.canAccept)
    || (w.rpc.Answered? && w.rpc.task.Some?)
    || (Serves(lock, e) && (lock.Scanning? || lock.Scanned? || (lock.Saved? && lock.canAccept) || LockTask(lock).Some?))
  }

  /** An executor only reports tasks as completed by itself, or as failed. */
  ghost predicate GoodReports(reports: seq<Report>, e: string) {
    forall i | 0 <= i < |reports| :: reports[i].status == Completed(e) || reports[i].status.Failed?
  }

  ghost predicate GoodFinished(finished: Tasks, e: string) {
    forall pid | pid in finished :: finished[pid] == Completed(e) || finished[pid].Failed?
  }

  predicate HasReports(rpc: Rpc) {
    rpc.Sampled? || rpc.Sent?
  }

  /** What is not free is in flight; whoever asks for a task has a slot for it; and an executor is
      being served exactly when its poll holds the lock. */
  ghost predicate CrewMember(cfg: Config, w: Worker, lock: Lock, e: string) {
    && e in cfg.executors && w.free >= 0 && w.free + |w.inFlight| == cfg.executors[e].concurrentTasks
    && (Asking(w, lock, e) ==> w.free > 0)
    && GoodFinished(w.finished, e) && GoodReports(w.channel, e) && (HasReports(w.rpc) ==> GoodReports(w.rpc.reports, e))
    && (w.rpc.Serving? <==> Serves(lock, e))
  }

  ghost predicate Crew(cfg: Config, workers: Workers, lock: Lock) {
    && (forall e | e in workers :: CrewMember(cfg, workers[e], lock, e))
    && (!lock.Unlocked? ==> lock.executorId in workers)
  }

  lemma SampleKeepsMember(cfg: Config, w: Worker, lock: Lock, e: string)
    requires CrewMember(cfg, w, lock, e) && w.rpc.Idle?
    ensures CrewMember(cfg, SampleStatuses(w), lock, e)
  {
  }

  lemma SendKeepsMember(cfg: Config, w: Worker, lock: Lock, e: string)
    requires CrewMember(cfg, w, lock, e) && w.rpc.Sampled?
    ensures CrewMember(cfg, SendPoll(w), lock, e)
  {
  }

  lemma AnnounceKeepsMember(cfg: Config, w: Worker, lock: Lock, e: string, pid: PartitionId)
    requires CrewMember(cfg, w, lock, e) && pid in w.finished
    ensures CrewMember(cfg, AnnounceTask(w, pid), lock, e)
  {
  }

  lemma LossKeepsMember(cfg: Config, w: Worker, lock: Lock, e: string)
    requires CrewMember(cfg, w, lock, e) && (w.rpc.Sent? || w.rpc.Answered?)
    ensures CrewMember(cfg, w.(rpc := Idle), lock, e)
  {
  }

  lemma ReceiveKeepsMember(cfg: Config, w: Worker, lock: Lock, e: string)
    requires CrewMember(cfg, w, lock, e) && w.rpc.Answered?
    requires w.rpc.task.Some? ==> w.rpc.task.value.id !in w.inFlight
    ensures CrewMember(cfg, ReceiveTask(w), lock, e)
  {
    hide GoodReports, GoodFinished;
    if w.rpc.task.Some? {
      OneMore(w.inFlight, w.rpc.task.value.id, w.rpc.task.value.plan);
    }
  }

  lemma OneMore<K, V>(m: map<K, V>, k: K, v: V)
    requires k !in m
    ensures |m[k := v]| == |m| + 1
  {
    assert m[k := v].Keys == m.Keys + {k};
    assert |m.Keys + {k}| == |m.Keys| + 1;
  }

  lemma OneLess<K, V>(m: map<K, V>, k: K)
    requires k in m
    ensures |m - {k}| == |m| - 1
  {
    assert (m - {k}).Keys == m.Keys - {k};
    assert |m.Keys - {k}| == |m.Keys| - 1;
  }

  lemma FinishKeepsMember(cfg: Config, w: Worker, lock: Lock, e: string, pid: PartitionId, error: Option<string>)
    requires CrewMember(cfg, w, lock, e) && pid in w.inFlight
    ensures CrewMember(cfg, FinishTask(w, e, pid, error), lock, e)
  {
    hide TaskFailure, GoodReports;
    OneLess(w.inFlight, pid);
  }

  lemma MemberKeepsCrew(cfg: Config, workers: Workers, lock: Lock, e: string, w: Worker)
    requires Crew(cfg, workers, lock) && CrewMember(cfg, w, lock, e)
    ensures Crew(cfg, workers[e := w], lock)
  {
  }

  /** The lock moves on in the hands of the same poll, which asks for no more than before. */
  lemma LockStepKeepsCrew(cfg: Config, workers: Workers, lock: Lock, lock': Lock)
    requires Crew(cfg, workers, lock) && !lock.Unlocked? && !lock'.Unlocked? && lock'.executorId == lock.executorId
    requires
      var e := lock.executorId;
      e in workers && (Asking(workers[e], lock', e) ==> Asking(workers[e], lock, e))
    ensures Crew(cfg, workers, lock')
  {
    forall e | e in workers ensures CrewMember(cfg, workers[e], lock', e) {
      assert CrewMember(cfg, workers[e], lock, e);
    }
  }

  lemma BeginPollKeepsCrew(cfg: Config, workers: Workers, e: string)
    requires Crew(cfg, workers, Unlocked) && e in workers && workers[e].rpc.Sent?
    ensures
      var req := workers[e].rpc;
      Crew(cfg, workers[e := workers[e].(rpc := Serving)], Saved(e, req.reports != [], req.canAccept))
  {
    var req := workers[e].rpc;
    var lock' := Saved(e, req.reports != [], req.canAccept);
    var workers' := workers[e := workers[e].(rpc := Serving)];
    forall f | f in workers' ensures CrewMember(cfg, workers'[f], lock', f) {
      assert CrewMember(cfg, workers[f], Unlocked, f);
    }
  }

  lemma EndPollKeepsCrew(cfg: Config, workers: Workers, lock: Lock)
    requires Crew(cfg, workers, lock) && lock.Syncing? && lock.executorId in workers
    ensures
      var e := lock.executorId;
      Crew(cfg, workers[e := workers[e].(rpc := Answered(lock.task))], Unlocked)
  {
    var e := lock.executorId;
    var workers' := workers[e := workers[e].(rpc := Answered(lock.task))];
    forall f | f in workers' ensures CrewMember(cfg, workers'[f], Unlocked, f) {
      assert CrewMember(cfg, workers[f], lock, f);
    }
  }

  lemma FailPollKeepsCrew(cfg: Config, workers: Workers, lock: Lock)
    requires Crew(cfg, workers, lock) && lock.Scanned? && lock.executorId in workers
    ensures Crew(cfg, workers[lock.executorId := workers[lock.executorId].(rpc := Idle)], Unlocked)
  {
    hide GoodReports, GoodFinished;
    var workers' := workers[lock.executorId := workers[lock.executorId].(rpc := Idle)];
    forall f | f in workers' ensures CrewMember(cfg, workers'[f], Unlocked, f) {
      assert CrewMember(cfg, workers[f], lock, f);
    }
  }

  // ---- Saving reports ----

  lemma OccursAppend(reports: seq<Report>, r: Report, pid: PartitionId)
    ensures Occurs(reports + [r], pid) == Occurs(reports, pid) + if r.partitionId == pid then 1 else 0
  {
    assert (reports + [r])[..|reports|] == reports;
  }

  lemma {:induction false} OccursIn(reports: seq<Report>, pid: PartitionId)
    ensures Occurs(reports, pid) > 0 <==> exists i | 0 <= i < |reports| :: reports[i].partitionId == pid
  {
    if reports != [] {
      var init := reports[..|reports| - 1];
      OccursIn(init, pid);
      assert forall i | 0 <= i < |init| :: init[i] == reports[i];
    }
  }

  /** After saving, an unreported task is as before, and a reported one has one of its reported statuses. */
  lemma {:induction false} SavedReport(tasks: Tasks, reports: seq<Report>, pid: PartitionId)
    ensures
      var tasks' := SaveReports(tasks, reports);
      if Occurs(reports, pid) == 0 then
        (pid in tasks' <==> pid in tasks) && (pid in tasks ==> tasks'[pid] == tasks[pid])
      else
        pid in tasks' && exists i | 0 <= i < |reports| :: reports[i] == Report(pid, tasks'[pid])
  {
    if reports != [] {
      var init, last := reports[..|reports| - 1], reports[|reports| - 1];
      SavedReport(tasks, init, pid);
      assert reports[|reports| - 1] == last;
      assert forall i | 0 <= i < |init| :: init[i] == reports[i];
    }
  }

  // ---- Steps of one worker ----

  lemma SampleKeepsHeld(w: Worker, lock: Lock, e: string, pid: PartitionId)
    requires w.rpc.Idle?
    ensures Held(SampleStatuses(w), lock, e, pid) == Held(w, lock, e, pid)
  {
  }

  lemma SendKeepsHeld(w: Worker, lock: Lock, e: string, pid: PartitionId)
    requires w.rpc.Sampled?
    ensures Held(SendPoll(w), lock, e, pid) == Held(w, lock, e, pid)
  {
  }

  lemma ReceiveKeepsHeld(tasks: Tasks, w: Worker, lock: Lock, e: string, pid: PartitionId)
    requires w.rpc.Answered? && HeldOnce(tasks, w, lock, e)
    ensures Held(ReceiveTask(w), lock, e, pid) == Held(w, lock, e, pid)
    ensures w.rpc.task.Some? ==> w.rpc.task.value.id !in w.inFlight
  {
    if w.rpc.task.Some? {
      assert Held(w, lock, e, w.rpc.task.value.id) == 1;
    }
  }

  lemma FinishKeepsHeld(tasks: Tasks, w: Worker, lock: Lock, e: string, id: PartitionId, error: Option<string>,
                        pid: PartitionId)
    requires id in w.inFlight && HeldOnce(tasks, w, lock, e)
    ensures Held(FinishTask(w, e, id, error), lock, e, pid) == Held(w, lock, e, pid)
  {
    hide OutcomeOf;
    assert Held(w, lock, e, id) == 1;
  }

  lemma AnnounceKeepsHeld(w: Worker, lock: Lock, e: string, id: PartitionId, pid: PartitionId)
    requires id in w.finished
    ensures Held(AnnounceTask(w, id), lock, e, pid) == Held(w, lock, e, pid)
  {
    OccursAppend(w.channel, Report(id, w.finished[id]), pid);
  }

  // ---- Every step keeps ownership ----

  lemma WorkerStepKeepsOwnership(tasks: Tasks, workers: Workers, lock: Lock, e: string, w: Worker)
    requires Ownership(tasks, workers, lock) && e in workers
    requires forall pid :: Held(w, lock, e, pid) <= Held(workers[e], lock, e, pid)
    ensures Ownership(tasks, workers[e := w], lock)
  {
    assert HeldOnce(tasks, workers[e], lock, e);
    assert HeldOnce(tasks, w, lock, e);
  }

  lemma BeginPollKeepsOwnership(tasks: Tasks, workers: Workers, lock: Lock, e: string, lock': Lock)
    requires Ownership(tasks, workers, lock) && e in workers && workers[e].rpc.Sent? && lock.Unlocked? && lock'.Saved?
    ensures Ownership(SaveReports(tasks, workers[e].rpc.reports), workers[e := workers[e].(rpc := Serving)], lock')
  {
    var reports := workers[e].rpc.reports;
    var tasks' := SaveReports(tasks, reports);
    var workers' := workers[e := workers[e].(rpc := Serving)];
    forall f | f in workers' ensures HeldOnce(tasks', workers'[f], lock', f) {
      assert HeldOnce(tasks, workers[f], lock, f);
      assert HeldOnce(tasks, workers[e], lock, e);
      forall pid | Held(workers'[f], lock', f, pid) > 0
        ensures Held(workers'[f], lock', f, pid) == 1 && pid in tasks' && tasks'[pid] == Running(f)
      {
        assert Held(workers'[f], lock', f, pid) <= Held(workers[f], lock, f, pid);
        assert Held(workers[e], lock, e, pid) >= Occurs(reports, pid);
        assert Occurs(reports, pid) == 0;
        SavedReport(tasks, reports, pid);
      }
    }
  }

  lemma AssignKeepsOwnership(tasks: Tasks, workers: Workers, lock: Lock, task: Task)
    requires Ownership(tasks, workers, lock) && lock.Scanned? && lock.executorId in workers
    requires task.id in tasks && tasks[task.id].Pending?
    ensures Ownership(tasks[task.id := Running(lock.executorId)], workers,
                      Assigned(lock.executorId, lock.reported, Some(task)))
  {
    var e := lock.executorId;
    var lock' := Assigned(e, lock.reported, Some(task));
    var tasks' := tasks[task.id := Running(e)];
    forall f | f in workers ensures HeldOnce(tasks', workers[f], lock', f) {
      assert HeldOnce(tasks, workers[f], lock, f);
      assert Held(workers[f], lock, f, task.id) == 0;
      forall pid ensures Held(workers[f], lock', f, pid) ==
        Held(workers[f], lock, f, pid) + if f == e && pid == task.id then 1 else 0 {
      }
    }
  }

  /** The lock moves on with the same task in hand. */
  lemma LockStepKeepsOwnership(tasks: Tasks, workers: Workers, lock: Lock, lock': Lock)
    requires Ownership(tasks, workers, lock)
    requires forall e, pid :: InLock(lock', e, pid) == InLock(lock, e, pid)
    ensures Ownership(tasks, workers, lock')
  {
    forall e | e in workers ensures HeldOnce(tasks, workers[e], lock', e) {
      assert HeldOnce(tasks, workers[e], lock, e);
      forall pid ensures Held(workers[e], lock', e, pid) == Held(workers[e], lock, e, pid) {
      }
    }
  }

  lemma EndPollKeepsOwnership(tasks: Tasks, workers: Workers, lock: Lock)
    requires Ownership(tasks, workers, lock) && lock.Syncing? && lock.executorId in workers
    requires workers[lock.executorId].rpc.Serving?
    ensures
      var e := lock.executorId;
      Ownership(tasks, workers[e := workers[e].(rpc := Answered(lock.task))], Unlocked)
  {
    var e := lock.executorId;
    var workers' := workers[e := workers[e].(rpc := Answered(lock.task))];
    forall f | f in workers' ensures HeldOnce(tasks, workers'[f], Unlocked, f) {
      assert HeldOnce(tasks, workers[f], lock, f);
      forall pid ensures Held(workers'[f], Unlocked, f, pid) == Held(workers[f], lock, f, pid) {
      }
    }
  }

  lemma FailPollKeepsOwnership(tasks: Tasks, workers: Workers, lock: Lock)
    requires Ownership(tasks, workers, lock) && lock.Scanned? && lock.executorId in workers
    ensures Ownership(tasks, workers[lock.executorId := workers[lock.executorId].(rpc := Idle)], Unlocked)
  {
    var e := lock.executorId;
    var workers' := workers[e := workers[e].(rpc := Idle)];
    forall f | f in workers' ensures HeldOnce(tasks, workers'[f], Unlocked, f) {
      assert HeldOnce(tasks, workers[f], lock, f);
      forall pid ensures Held(workers'[f], Unlocked, f, pid) <= Held(workers[f], lock, f, pid) {
      }
    }
  }

  /** New pending tasks are nobody's. */
  lemma NewTasksKeepOwnership(tasks: Tasks, tasks': Tasks, workers: Workers, lock: Lock)
    requires Ownership(tasks, workers, lock)
    requires forall pid | pid in tasks :: pid in tasks' && tasks'[pid] == tasks[pid]
    ensures Ownership(tasks', workers, lock)
  {
    forall e | e in workers ensures HeldOnce(tasks', workers[e], lock, e) {
      assert HeldOnce(tasks, workers[e], lock, e);
    }
  }
}
