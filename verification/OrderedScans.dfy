/** Scans that read each entry as they come to it, and which queries they are safe for.

    A scan goes up the keys. In general it may leave out what was stored after it began; here it leaves out nothing that
    is stored above what it has seen.
  */
module OrderedScans {
  import opened Plans
  import opened ShuffleResolution
  import opened Scheduling
  import opened Keys
  import opened TaskOrder
  import opened Protocol
  import opened StorageInvariant
  import opened OwnershipInvariant
  import opened TaskInvariants
  import opened DataInvariant
  import opened ProtocolInvariants
  import opened ProtocolFrame
  import opened TaskHistory
  import opened NoDeadlock

  predicate Above(kvs: Tasks, pid: PartitionId) {
    forall q | q in kvs :: Precedes(q, pid)
  }

  /** The scan takes the first task above those it has seen, and ends when there is none. */
  ghost predicate InOrder(s: State, step: Step) {
    && (step.ScanTask? && s.lock.Scanning? ==>
          forall q | q in s.tasks && q != step.id && Above(s.lock.kvs, q) :: Precedes(step.id, q))
    && (step.EndScan? && s.lock.Scanning? ==> forall q | q in s.tasks && q !in s.lock.kvs :: !Above(s.lock.kvs, q))
  }

  ghost predicate Orderly(trace: seq<State>, steps: seq<Step>) {
    forall i | 0 <= i < |steps| && i < |trace| :: InOrder(trace[i], steps[i])
  }

  // ---- The order in which a job's tasks are stored ----

  predicate StoredFirst(a: PartitionId, b: PartitionId) {
    a.stageId < b.stageId || (a.stageId == b.stageId && a.partitionId < b.partitionId)
  }

  /** A task that is stored is the last of its job. */
  lemma StoredLast(s: State, j: string, a: PartitionId, b: PartitionId)
    requires CanSave(s, j) && GoodCursor(s.submissions[j]) && Storage(s.tasks.Keys, s.plans, s.submissions)
    requires a in s.tasks && b in DoSave(s, j).tasks && b !in s.tasks && a.jobId == b.jobId
    ensures StoredFirst(a, b)
  {
    hide Storage, GoodCursor, DoSave, Advance;
    SaveParts(s, j);
    StoredSoFar(s.tasks.Keys, s.plans, s.submissions, a);
  }

  lemma StoredSoFar(keys: set<PartitionId>, plans: StagePlans, subs: Submissions, pid: PartitionId)
    requires Storage(keys, plans, subs) && pid in keys
    ensures pid.jobId in subs && subs[pid.jobId].Saving?
    ensures
      var sub := subs[pid.jobId];
      pid.stageId <= sub.stage || (pid.stageId == sub.stage + 1 && pid.partitionId + 1 < sub.next)
  {
    assert TaskWritten(subs, pid);
  }

  // ---- What a scan has passed ----

  /** The scan was past the task when it was stored: it had seen a task above it, of another job or stored before it,
      and whatever else of the job was stored later and seen is above that one. */
  ghost predicate Passed(kvs: Tasks, x: PartitionId, c: PartitionId) {
    && c in kvs && Precedes(x, c) && (c.jobId == x.jobId ==> StoredFirst(c, x))
    && forall t | t in kvs && t.jobId == x.jobId && StoredFirst(x, t) :: Precedes(c, t)
  }

  ghost predicate IsPassed(kvs: Tasks, x: PartitionId) {
    exists c :: Passed(kvs, x, c)
  }

  ghost predicate HasLater(kvs: Tasks, x: PartitionId) {
    exists t :: t in kvs && t.jobId == x.jobId && StoredFirst(x, t)
  }

  /** What an orderly scan has not seen it has passed, or is still to come to. */
  ghost predicate Seen(tasks: Tasks, lock: Lock) {
    && (lock.Scanning? ==> forall x | x in tasks && x !in lock.kvs && !Above(lock.kvs, x) :: IsPassed(lock.kvs, x))
    && (lock.Scanned? ==> forall x | x in tasks && x !in lock.kvs && HasLater(lock.kvs, x) :: IsPassed(lock.kvs, x))
  }

  /** ... among the tasks stored so far, after one more is seen. */
  lemma PassedAfterScan(kvs: Tasks, x: PartitionId, pid: PartitionId, status: Status)
    requires IsPassed(kvs, x) && Above(kvs, pid)
    ensures IsPassed(kvs[pid := status], x)
  {
    hide Precedes;
    var c :| Passed(kvs, x, c);
    assert Passed(kvs[pid := status], x, c);
  }

  lemma ScanTaskSees(s: State, pid: PartitionId)
    requires s.lock.Scanning? && pid in s.tasks && ComesTo(s.lock.present, s.lock.kvs, pid)
    requires InOrder(s, ScanTask(pid)) && Seen(s.tasks, s.lock)
    ensures Seen(s.tasks, ScanTaskLock(s, pid))
  {
    hide Precedes, IsPassed;
    var kvs' := ScanTaskLock(s, pid).kvs;
    forall x | x in s.tasks && x !in kvs' && !Above(kvs', x) ensures IsPassed(kvs', x) {
      assert !Above(s.lock.kvs, x);
      PassedAfterScan(s.lock.kvs, x, pid, s.tasks[pid]);
    }
  }

  lemma EndScanSees(s: State)
    requires s.lock.Scanning? && InOrder(s, EndScan) && Seen(s.tasks, s.lock)
    ensures Seen(s.tasks, EndScanLock(s))
  {
    hide Above, IsPassed, HasLater;
  }

  lemma SaveSees(cfg: Config, s: State, j: string)
    requires Inv(cfg, s) && CanSave(s, j) && Seen(s.tasks, s.lock)
    ensures Seen(DoSave(s, j).tasks, s.lock)
  {
    hide Inv, DoSave, IsPassed, Above, Precedes;
    var s' := DoSave(s, j);
    forall x | x in s'.tasks && x !in s.tasks && (s.lock.Scanning? || s.lock.Scanned?)
      ensures !HasLater(s.lock.kvs, x)
      ensures s.lock.Scanning? && !Above(s.lock.kvs, x) ==> IsPassed(s.lock.kvs, x)
    {
      NewIsPassed(cfg, s, j, x);
    }
  }

  lemma SaveFacts(cfg: Config, s: State, j: string)
    requires Inv(cfg, s) && CanSave(s, j)
    ensures GoodCursor(s.submissions[j]) && Storage(s.tasks.Keys, s.plans, s.submissions)
    ensures s.lock.Scanning? || s.lock.Scanned? ==> PartOf(s.lock.kvs, s.tasks)
  {
    hide GoodJobs, Ownership, Crew, Registered, Dependencies, AllRightPlans, StoredRows, OutputsThere, ReportsThere;
    hide Verdict, ReadOf;
  }

  lemma NewIsPassed(cfg: Config, s: State, j: string, x: PartitionId)
    requires Inv(cfg, s) && CanSave(s, j) && x in DoSave(s, j).tasks && x !in s.tasks
    requires s.lock.Scanning? || s.lock.Scanned?
    ensures !HasLater(s.lock.kvs, x)
    ensures !Above(s.lock.kvs, x) ==> IsPassed(s.lock.kvs, x)
  {
    hide Inv, DoSave, Precedes, GoodCursor, Storage;
    SaveFacts(cfg, s, j);
    forall c | c in s.lock.kvs && c.jobId == x.jobId ensures StoredFirst(c, x) {
      StoredLast(s, j, c, x);
    }
    if !Above(s.lock.kvs, x) {
      var c :| c in s.lock.kvs && !Precedes(c, x);
      SaveKeepsInv(cfg, s, j);
      StoredIsSlashFree(cfg, s, c);
      StoredIsSlashFree(cfg, DoSave(s, j), x);
      PrecedesTotal(c, x);
      assert Passed(s.lock.kvs, x, c);
    }
  }

  lemma LockStepSees(cfg: Config, s: State, step: Step)
    requires Enabled(cfg, s, step) && Locks(step) && InOrder(s, step) && Seen(s.tasks, s.lock)
    ensures Seen(Apply(cfg, s, step).tasks, Apply(cfg, s, step).lock)
  {
    hide Assignable, SearchOk, Verdict, Query, Output, ReadOf, ComesTo, IsPassed, HasLater, InOrder;
    hide DoSubmit, DoReject, DoStart, DoCut, DoSave, DoFinish, SetWorker, SaveReports;
    if step.ScanTask? {
      ScanTaskSees(s, step.id);
    } else if step.EndScan? {
      EndScanSees(s);
    }
  }

  lemma StepSees(cfg: Config, s: State, step: Step)
    requires Inv(cfg, s) && Enabled(cfg, s, step) && InOrder(s, step) && Seen(s.tasks, s.lock)
    ensures Seen(Apply(cfg, s, step).tasks, Apply(cfg, s, step).lock)
  {
    hide Inv, Enabled, Apply, Seen, InOrder;
    StepFrame(cfg, s, step);
    if step.SaveNext? {
      SavesNext(cfg, s, step.jobId);
      SaveSees(cfg, s, step.jobId);
    } else if Locks(step) {
      LockStepSees(cfg, s, step);
    }
  }

  lemma SavesNext(cfg: Config, s: State, j: string)
    requires Enabled(cfg, s, SaveNext(j))
    ensures CanSave(s, j) && Apply(cfg, s, SaveNext(j)) == DoSave(s, j)
  {
    hide Assignable, SearchOk, Verdict, Query, Output, ReadOf, ComesTo, DoSave;
  }

  lemma {:induction false} RunSees(cfg: Config, trace: seq<State>, steps: seq<Step>, i: nat)
    requires IsRun(cfg, trace, steps) && Orderly(trace, steps) && i < |trace|
    ensures Seen(trace[i].tasks, trace[i].lock)
  {
    hide IsRun, Inv, Enabled, Apply, Seen, InOrder;
    if i == 0 {
      NothingToSee(cfg, trace, steps);
    } else {
      RunLength(cfg, trace, steps);
      RunSees(cfg, trace, steps, i - 1);
      RunStep(cfg, trace, steps, i - 1);
      StepSees(cfg, trace[i - 1], steps[i - 1]);
    }
  }

  lemma NothingToSee(cfg: Config, trace: seq<State>, steps: seq<Step>)
    requires IsRun(cfg, trace, steps)
    ensures Seen(trace[0].tasks, trace[0].lock)
  {
  }

  // ---- Which tasks can miss an input ----

  /** A key between two keys of a job is of that job. */
  lemma BetweenIsSameJob(x: PartitionId, c: PartitionId, t: PartitionId)
    requires SlashFree(x.jobId) && SlashFree(c.jobId) && x.jobId == t.jobId && Precedes(x, c) && Precedes(c, t)
    ensures c.jobId == x.jobId
  {
    hide Before, IsPrefix, Decimal;
    var prefix := x.jobId + "/";
    PathBegins(x);
    PathBegins(t);
    PathBegins(c);
    BetweenHasPrefix(prefix, TaskPath(x), TaskPath(c), TaskPath(t));
    assert prefix == x.jobId + ['/'] + "";
    SamePrefix(x.jobId, "", c.jobId, TaskPath(c)[|c.jobId| + 1..]);
  }

  lemma PathBegins(pid: PartitionId)
    ensures
      var rest := TaskPath(pid)[|pid.jobId| + 1..];
      TaskPath(pid) == pid.jobId + ['/'] + rest && IsPrefix(pid.jobId + "/", TaskPath(pid))
  {
    hide Decimal;
  }

  lemma {:induction false} BetweenHasPrefix(prefix: string, a: string, b: string, c: string)
    requires IsPrefix(prefix, a) && IsPrefix(prefix, c) && Before(a, b) && Before(b, c)
    ensures IsPrefix(prefix, b)
    decreases prefix
  {
    if prefix != [] {
      assert a[0] == prefix[0] == c[0];
      assert forall i | 0 <= i < |prefix| - 1 :: prefix[1..][i] == prefix[i + 1];
      BetweenHasPrefix(prefix[1..], a[1..], b[1..], c[1..]);
      forall i | 0 <= i < |prefix| ensures i < |b| && prefix[i] == b[i] {
        if i > 0 {
          assert prefix[1..][i - 1] == b[1..][i - 1];
        }
      }
    }
  }

  /** A task that could be stored before another one, an input, and sorts between that input and its reader. */
  ghost predicate Detour(kvs: Tasks, plans: StagePlans, pid: PartitionId, x: PartitionId, c: PartitionId) {
    && KeyOf(pid) in plans && x in InputsOf(plans, pid) && c in kvs && c.jobId == x.jobId == pid.jobId
    && StoredFirst(c, x) && Precedes(x, c) && Precedes(c, pid)
  }

  /** Over every run whose scans are orderly: a search fails on a task only if the scan has seen a task of the same job
      that is stored before one of its inputs, but sorts between that input and the task itself. */
  lemma OrderlyMiss(cfg: Config, trace: seq<State>, steps: seq<Step>, i: nat, pid: PartitionId)
    requires IsRun(cfg, trace, steps) && Orderly(trace, steps) && i < |trace| && trace[i].lock.Scanned?
    requires Misses(trace[i].lock.kvs, trace[i].plans, pid)
    ensures exists x, c :: Detour(trace[i].lock.kvs, trace[i].plans, pid, x, c)
  {
    hide IsRun, Inv, Misses, Precedes, Closed, Verdict, ReadOf;
    var s := trace[i];
    RunInv(cfg, trace, steps, i);
    RunSees(cfg, trace, steps, i);
    SnapshotOf(cfg, s);
    AllStoredIsClosed(cfg, s);
    MissesIsScanned(s.lock.kvs, s.plans, pid);
    var x := MissedTask(cfg, s, pid);
    assert HasLater(s.lock.kvs, x);
    var c :| Passed(s.lock.kvs, x, c);
    StoredIsSlashFree(cfg, s, x);
    StoredIsSlashFree(cfg, s, c);
    BetweenIsSameJob(x, c, pid);
    assert Detour(s.lock.kvs, s.plans, pid, x, c);
  }

  lemma MissedTask(cfg: Config, s: State, pid: PartitionId) returns (x: PartitionId)
    requires Inv(cfg, s) && s.lock.Scanned? && Closed(s.tasks.Keys, s.plans) && Closed(s.lock.present, s.plans)
    requires PartOf(s.lock.kvs, s.tasks) && s.lock.present <= s.lock.kvs.Keys && Misses(s.lock.kvs, s.plans, pid)
    ensures KeyOf(pid) in s.plans && x in InputsOf(s.plans, pid) && x in s.tasks && x !in s.lock.kvs
    ensures x.jobId == pid.jobId && x.stageId < pid.stageId
  {
    hide Inv, Inputs;
    MissingInputIsNew(s, pid);
    x :| x in InputsOf(s.plans, pid) && x in s.tasks && x !in s.lock.kvs;
    PlansAreDownward(cfg, s);
    InputIsEarlier(s.plans, pid, x);
  }

  lemma InputIsEarlier(plans: StagePlans, pid: PartitionId, x: PartitionId)
    requires Downward(plans) && KeyOf(pid) in plans && x in InputsOf(plans, pid)
    ensures x.jobId == pid.jobId && x.stageId < pid.stageId
  {
    var us := FindUnresolvedShuffles(plans[KeyOf(pid)]);
    InputsAre(pid.jobId, us, x);
    var n :| 0 <= n < |us| && AnnouncedBy(us[n], x);
    assert ReadsDown(plans[KeyOf(pid)], pid.stageId);
    var k :| 0 <= k < |us[n].stageIds| && us[n].stageIds[k] == x.stageId;
  }

  // ---- Queries that are safe ----

  /** Ids of one digit: fewer than ten stages, of at most ten partitions. */
  predicate OneDigit(pid: PartitionId) {
    pid.stageId < 10 && pid.partitionId < 10
  }

  lemma OneDigitOrder(a: PartitionId, b: PartitionId)
    requires OneDigit(a) && OneDigit(b) && a.jobId == b.jobId
    ensures Precedes(a, b) <==> StoredFirst(a, b)
  {
    hide Before;
    var prefix := a.jobId + "/";
    var x, y := Tail(a), Tail(b);
    assert TaskPath(a) == prefix + x && TaskPath(b) == prefix + y;
    BeforeBehind(prefix, x, y);
    TailOrder(a, b);
  }

  function Tail(pid: PartitionId): string {
    Decimal(pid.stageId) + "/" + Decimal(pid.partitionId)
  }

  lemma TailOrder(a: PartitionId, b: PartitionId)
    requires OneDigit(a) && OneDigit(b)
    ensures Before(Tail(a), Tail(b)) <==> StoredFirst(a, b)
  {
    var x, y := Tail(a), Tail(b);
    assert |x| == 3 && |y| == 3 && x[1] == '/' && y[1] == '/';
    assert x[0] == (48 + a.stageId) as char && y[0] == (48 + b.stageId) as char;
    assert x[2] == (48 + a.partitionId) as char && y[2] == (48 + b.partitionId) as char;
    assert x[1..][1..] == [x[2]] && y[1..][1..] == [y[2]];
    assert Before(x[1..][1..], y[1..][1..]) <==> x[2] < y[2];
  }

  ghost predicate SmallJob(sub: Submission) {
    sub.Saving? ==> |sub.stages| < 10 && forall i | 0 <= i < |sub.counts| :: sub.counts[i] <= 10
  }

  /** Over every run whose scans are orderly: as long as no query has ten stages, or a stage of more than ten
      partitions, no search fails. */
  lemma SmallJobsNeverFail(cfg: Config, trace: seq<State>, steps: seq<Step>, i: nat)
    requires IsRun(cfg, trace, steps) && Orderly(trace, steps) && i < |trace| && trace[i].lock.Scanned?
    requires forall j | j in trace[i].submissions :: SmallJob(trace[i].submissions[j])
    ensures !Enabled(cfg, trace[i], FailPoll)
  {
    hide IsRun, Inv, Misses, Precedes, Closed, Verdict, ReadOf, Enabled, Detour;
    var s := trace[i];
    RunInv(cfg, trace, steps, i);
    SnapshotOf(cfg, s);
    SearchFailsExactly(cfg, trace, steps, i);
    if Enabled(cfg, s, FailPoll) {
      var pid :| Misses(s.lock.kvs, s.plans, pid);
      OrderlyMiss(cfg, trace, steps, i, pid);
      MissesIsScanned(s.lock.kvs, s.plans, pid);
      var x, c :| Detour(s.lock.kvs, s.plans, pid, x, c);
      NoDetour(cfg, s, pid, x, c);
      assert false;
    }
  }

  lemma NoDetour(cfg: Config, s: State, pid: PartitionId, x: PartitionId, c: PartitionId)
    requires Inv(cfg, s) && s.lock.Scanned? && PartOf(s.lock.kvs, s.tasks) && pid in s.lock.kvs
    requires forall j | j in s.submissions :: SmallJob(s.submissions[j])
    ensures !Detour(s.lock.kvs, s.plans, pid, x, c)
  {
    hide Inv, Precedes, Closed, Inputs;
    if Detour(s.lock.kvs, s.plans, pid, x, c) {
      AllStoredIsClosed(cfg, s);
      var n :| 0 <= n < |InputsOf(s.plans, pid)| && InputsOf(s.plans, pid)[n] == x;
      InputKnown(s.tasks.Keys, s.plans, pid, n);
      SmallTask(cfg, s, x);
      SmallTask(cfg, s, c);
      OneDigitOrder(x, c);
      assert false;
    }
  }

  lemma SmallTask(cfg: Config, s: State, pid: PartitionId)
    requires Inv(cfg, s) && pid in s.tasks && forall j | j in s.submissions :: SmallJob(s.submissions[j])
    ensures OneDigit(pid)
  {
    hide GoodJobs, Ownership, Crew, Registered, Dependencies, AllRightPlans, Snapshot, StoredRows, OutputsThere;
    hide ReportsThere, Storage;
    StoredTask(s.tasks.Keys, s.plans, s.submissions, pid);
    assert SmallJob(s.submissions[pid.jobId]);
  }
}
