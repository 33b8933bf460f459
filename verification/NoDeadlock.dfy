/** When the search for a task fails, and that it never comes back empty-handed while a job only waits for it. */
module NoDeadlock {
  import opened Plans
  import opened StagePlanner
  import opened ShuffleResolution
  import opened StageMeaning
  import opened Scheduling
  import opened Protocol
  import opened StorageInvariant
  import opened OwnershipInvariant
  import opened TaskInvariants
  import opened DataInvariant
  import opened ProtocolInvariants

  // ---- Looking for the least pending stage ----

  /** Stages only read stages with smaller ids. */
  ghost predicate Downward(plans: StagePlans) {
    forall key | key in plans :: ReadsDown(plans[key], key.stageId)
  }

  predicate ReadsDown(plan: Plan, id: nat) {
    var us := FindUnresolvedShuffles(plan);
    forall n | 0 <= n < |us| :: forall k | 0 <= k < |us[n].stageIds| :: us[n].stageIds[k] < id
  }

  lemma StorageIsDownward(eng: Engine, keys: set<PartitionId>, plans: StagePlans, subs: Submissions)
    requires Storage(keys, plans, subs) && GoodJobs(eng, subs)
    ensures Downward(plans)
  {
    hide Storage, GoodJobs, ReadsDown;
    forall key | key in plans ensures ReadsDown(plans[key], key.stageId) {
      StoredPlan(keys, plans, subs, key);
      StageReadsDown(eng, subs, key.jobId, key.stageId);
    }
  }

  lemma StoredPlan(keys: set<PartitionId>, plans: StagePlans, subs: Submissions, key: StageKey)
    requires Storage(keys, plans, subs) && key in plans
    ensures key.jobId in subs && subs[key.jobId].Saving? && 1 <= key.stageId <= |subs[key.jobId].stages|
    ensures plans[key] == subs[key.jobId].stages[key.stageId - 1].child
  {
    assert StageWritten(subs, key);
  }

  lemma StageReadsDown(eng: Engine, subs: Submissions, jobId: string, id: nat)
    requires GoodJobs(eng, subs) && jobId in subs && subs[jobId].Saving? && 1 <= id <= |subs[jobId].stages|
    ensures ReadsDown(subs[jobId].stages[id - 1].child, id)
  {
    hide GoodJobs, StagesById, Dag, WellStaged;
    StageFacts(eng, subs, jobId, id);
  }

  predicate OnlyWaiting(tasks: Tasks, jobId: string) {
    forall pid | pid in tasks && pid.jobId == jobId :: tasks[pid].Pending? || tasks[pid].Completed?
  }

  /** An input of the task that is still missing. */
  lemma UnreadyInput(tasks: Tasks, present: set<PartitionId>, plans: StagePlans,
                     pid: PartitionId) returns (input: PartitionId)
    requires present <= tasks.Keys && Closed(present, plans) && Downward(plans) && OnlyWaiting(tasks, pid.jobId)
    requires pid in present && tasks[pid].Pending? && !Ready(tasks, plans, pid)
    ensures input in present && tasks[input].Pending? && input.jobId == pid.jobId && input.stageId < pid.stageId
  {
    var plan := plans[KeyOf(pid)];
    var us := FindUnresolvedShuffles(plan);
    var u :| u in us && !ShuffleReady(tasks, pid.jobId, u);
    var n :| 0 <= n < |us| && us[n] == u;
    assert ReadsDown(plan, pid.stageId);
    assert ShuffleKnown(present, pid.jobId, u);
    var k, p: nat :|
      && 0 <= k < |u.stageIds| && p < u.partitionCount
      && !IsCompletedTask(tasks, PartitionId(pid.jobId, u.stageIds[k], p));
    input := PartitionId(pid.jobId, u.stageIds[k], p);
    assert input in present && !IsCompletedTask(tasks, input);
  }

  /** Among tasks that come with their inputs, following missing inputs down ends at a ready task. */
  lemma {:induction false} SomethingIsReady(tasks: Tasks, present: set<PartitionId>, plans: StagePlans,
                                            pid: PartitionId)
    requires present <= tasks.Keys && Closed(present, plans) && Downward(plans) && OnlyWaiting(tasks, pid.jobId)
    requires pid in present && tasks[pid].Pending?
    ensures exists r :: Ready(tasks, plans, r) && r.jobId == pid.jobId
    decreases pid.stageId
  {
    hide Ready, Closed, Downward;
    if Ready(tasks, plans, pid) {
    } else {
      var input := UnreadyInput(tasks, present, plans, pid);
      SomethingIsReady(tasks, present, plans, input);
    }
  }

  // ---- Resolution never fails ----

  lemma {:induction false} WellStagedReaderFree(eng: Engine, m: StageMap, limit: nat, q: Plan)
    requires WellStaged(eng, m, limit, q)
    ensures ReaderFree(q)
    decreases q
  {
    if q.Operator? {
      forall i | 0 <= i < |q.children| ensures ReaderFree(q.children[i]) {
        WellStagedReaderFree(eng, m, limit, q.children[i]);
      }
    }
  }

  lemma StageResolves(eng: Engine, subs: Submissions, jobId: string, id: nat, tasks: Tasks, executors: Executors)
    requires GoodJobs(eng, subs) && jobId in subs && subs[jobId].Saving? && 1 <= id <= |subs[jobId].stages|
    ensures
      var q := subs[jobId].stages[id - 1].child;
      Resolve(Collect(tasks, executors, jobId, FindUnresolvedShuffles(q)), q).Some?
  {
    hide GoodJobs, StagesById, Dag, WellStaged, Collect, Resolve, ReaderFree;
    var q := subs[jobId].stages[id - 1].child;
    var us := FindUnresolvedShuffles(q);
    var locs := Collect(tasks, executors, jobId, us);
    StageFacts(eng, subs, jobId, id);
    WellStagedReaderFree(eng, StagesById(subs[jobId].stages), id, q);
    forall u | u in us ensures LocatedIn(locs, u) {
      var k :| 0 <= k < |us| && us[k] == u;
      CollectSimple(tasks, executors, jobId, us, k);
    }
    ResolveSucceeds(locs, q);
  }

  // ---- What ends a search ----

  /** The scan has the task but not all the tasks it waits for: of these, the first that is not completed is missing. */
  predicate Misses(kvs: Tasks, plans: StagePlans, pid: PartitionId) {
    && pid in kvs && kvs[pid].Pending? && KeyOf(pid) in plans
    && var inputs := InputsOf(plans, pid);
       exists n | 0 <= n < |inputs| :: inputs[n] !in kvs && CompletedBefore(kvs, inputs, n)
  }

  predicate CompletedBefore(kvs: Tasks, inputs: seq<PartitionId>, n: nat)
    requires n <= |inputs|
  {
    forall k | 0 <= k < n :: IsCompletedTask(kvs, inputs[k])
  }

  ghost predicate KnownExecutors(kvs: Tasks, executors: Executors) {
    forall pid | pid in kvs && kvs[pid].Completed? :: kvs[pid].executorId in executors
  }

  lemma BreaksAtGap(kvs: Tasks, executors: Executors, inputs: seq<PartitionId>)
    requires KnownExecutors(kvs, executors)
    ensures Breaks(kvs, executors, inputs) <==>
      exists n | 0 <= n < |inputs| :: inputs[n] !in kvs && CompletedBefore(kvs, inputs, n)
  {
    forall n | 0 <= n <= |inputs| ensures DoneBefore(kvs, executors, inputs, n) <==> CompletedBefore(kvs, inputs, n) {
    }
  }

  lemma StoredPlanResolves(cfg: Config, s: State, kvs: Tasks, pid: PartitionId)
    requires Inv(cfg, s) && pid in s.tasks
    ensures KeyOf(pid) in s.plans && ResolvedPlan(kvs, s.plans, s.executors, pid).Some?
  {
    hide Storage, GoodJobs, Ownership, Crew, Registered, Dependencies, AllRightPlans, Snapshot, StoredRows;
    hide OutputsThere, ReportsThere;
    hide Collect, Resolve;
    StoredTask(s.tasks.Keys, s.plans, s.submissions, pid);
    StageResolves(cfg.eng, s.submissions, pid.jobId, pid.stageId, kvs, s.executors);
  }

  lemma ScannedExecutorsKnown(cfg: Config, s: State, kvs: Tasks)
    requires Inv(cfg, s) && PartOf(kvs, s.tasks)
    ensures KnownExecutors(kvs, s.executors)
  {
    hide Storage, GoodJobs, Ownership, Crew, Dependencies, AllRightPlans, Snapshot, StoredRows;
    hide OutputsThere, ReportsThere;
  }

  /** In every state of every run, a scanned task ends the search in one way only: with a panic, if it misses an
      input. */
  lemma ProbeFailsExactly(cfg: Config, s: State, kvs: Tasks, pid: PartitionId)
    requires Inv(cfg, s) && PartOf(kvs, s.tasks) && pid in kvs
    ensures
      var r := Probe(kvs, s.plans, s.executors, pid);
      !r.Err? && (r.Panic? <==> Misses(kvs, s.plans, pid))
  {
    hide Inv, ResolvedPlan, Breaks, AllDone, InputsOf;
    ScannedExecutorsKnown(cfg, s, kvs);
    StoredPlanResolves(cfg, s, kvs, pid);
    BreaksAtGap(kvs, s.executors, InputsOf(s.plans, pid));
  }

  /** Over every run: for whatever part of the stored tasks a scan returns, the search can fail if and only if some
      task in it misses an input, and then by a panic. */
  lemma TornScan(cfg: Config, trace: seq<State>, steps: seq<Step>, i: nat, kvs: Tasks)
    requires IsRun(cfg, trace, steps) && i < |trace| && PartOf(kvs, trace[i].tasks)
    ensures CanEnd(kvs, trace[i].plans, trace[i].executors, Panic) <==> exists pid :: Misses(kvs, trace[i].plans, pid)
    ensures !CanEnd(kvs, trace[i].plans, trace[i].executors, Err)
    ensures !SearchOk(kvs, trace[i].plans, trace[i].executors) <==> exists pid :: Misses(kvs, trace[i].plans, pid)
  {
    hide IsRun, Inv, Probe, Misses, PartOf, SearchIn, IsOrder;
    var s := trace[i];
    RunInv(cfg, trace, steps, i);
    forall pid | pid in kvs
      ensures !Probe(kvs, s.plans, s.executors, pid).Err?
      ensures Probe(kvs, s.plans, s.executors, pid).Panic? <==> Misses(kvs, s.plans, pid)
    {
      ProbeFailsExactly(cfg, s, kvs, pid);
    }
    forall pid | Misses(kvs, s.plans, pid) ensures pid in kvs {
      MissesIsScanned(kvs, s.plans, pid);
    }
    SearchFails(kvs, s.plans, s.executors);
    NoErr(kvs, s.plans, s.executors);
  }

  lemma MissesIsScanned(kvs: Tasks, plans: StagePlans, pid: PartitionId)
    requires Misses(kvs, plans, pid)
    ensures pid in kvs
  {
  }

  lemma NoErr(kvs: Tasks, plans: StagePlans, executors: Executors)
    requires forall pid | pid in kvs :: !Probe(kvs, plans, executors, pid).Err?
    ensures !CanEnd(kvs, plans, executors, Err)
  {
    hide Probe, SearchIn;
    if CanEnd(kvs, plans, executors, Err) {
      var order :| IsOrder(kvs, order) && SearchIn(kvs, plans, executors, order) == Err;
      SearchEnds(kvs, plans, executors, order);
      assert false;
    }
  }

  // ---- Every search of every run ----

  lemma ReadyIsAssignable(cfg: Config, s: State, pid: PartitionId)
    requires Inv(cfg, s) && s.lock.Scanned? && Ready(s.lock.kvs, s.plans, pid)
    ensures exists t: Task :: t.id == pid && Assignable(s.lock.kvs, s.plans, s.lock.executors, Some(t))
  {
    hide Inv, ResolvedPlan, Closed, InputsReady, Probe, Verdict;
    SnapshotOf(cfg, s);
    StoredPlanResolves(cfg, s, s.lock.kvs, pid);
    ScannedExecutorsKnown(cfg, s, s.lock.kvs);
    ReadyIsFound(s.lock.kvs, s.plans, s.lock.executors, pid);
    var t := Task(pid, ResolvedPlan(s.lock.kvs, s.plans, s.lock.executors, pid).value);
    assert Assignable(s.lock.kvs, s.plans, s.lock.executors, Some(t));
  }

  /** A search comes to an end: it fails, or returns something. */
  lemma SearchGoesOn(kvs: Tasks, plans: StagePlans, executors: Executors)
    ensures !SearchOk(kvs, plans, executors) || exists task :: Assignable(kvs, plans, executors, task)
  {
    hide Probe;
    if SearchOk(kvs, plans, executors) {
      if pid :| pid in kvs && Probe(kvs, plans, executors, pid) != Ok(None) {
        ProbeIsOwn(kvs, plans, executors, pid);
        assert Assignable(kvs, plans, executors, Probe(kvs, plans, executors, pid).value);
      } else {
        assert Assignable(kvs, plans, executors, None);
      }
    }
  }

  /** A task that misses an input was stored after the scan began, and so was the input. */
  lemma MissingInputIsNew(s: State, pid: PartitionId)
    requires s.lock.Scanned? && Closed(s.lock.present, s.plans) && Closed(s.tasks.Keys, s.plans)
    requires PartOf(s.lock.kvs, s.tasks) && s.lock.present <= s.lock.kvs.Keys && Misses(s.lock.kvs, s.plans, pid)
    ensures pid !in s.lock.present
    ensures exists input :: input in InputsOf(s.plans, pid) && input in s.tasks && input !in s.lock.kvs
  {
    hide Inputs;
    var inputs := InputsOf(s.plans, pid);
    var n :| 0 <= n < |inputs| && inputs[n] !in s.lock.kvs && CompletedBefore(s.lock.kvs, inputs, n);
    InputKnown(s.tasks.Keys, s.plans, pid, n);
    if pid in s.lock.present {
      InputKnown(s.lock.present, s.plans, pid, n);
      assert false;
    }
    assert inputs[n] in inputs;
  }

  lemma InputKnown(keys: set<PartitionId>, plans: StagePlans, pid: PartitionId, n: nat)
    requires Closed(keys, plans) && pid in keys && KeyOf(pid) in plans && n < |InputsOf(plans, pid)|
    ensures InputsOf(plans, pid)[n] in keys
  {
    var us := FindUnresolvedShuffles(plans[KeyOf(pid)]);
    var input := InputsOf(plans, pid)[n];
    InputsAre(pid.jobId, us, input);
    var m :| 0 <= m < |us| && AnnouncedBy(us[m], input);
    assert us[m] in us && ShuffleKnown(keys, pid.jobId, us[m]);
    var k :| 0 <= k < |us[m].stageIds| && us[m].stageIds[k] == input.stageId;
    assert PartitionId(pid.jobId, us[m].stageIds[k], input.partitionId) == input;
  }

  /** Over every run, while submissions store tasks behind and ahead of the scan: a search can fail if and only if its
      scan has a task that misses an input. Such a task was stored after the scan began, and so was the input, which the
      scan has not seen. A search that finds nothing to do says so only if it cannot fail. */
  lemma SearchFailsExactly(cfg: Config, trace: seq<State>, steps: seq<Step>, i: nat)
    requires IsRun(cfg, trace, steps) && i < |trace| && trace[i].lock.Scanned?
    ensures Enabled(cfg, trace[i], FailPoll) <==> exists pid :: Misses(trace[i].lock.kvs, trace[i].plans, pid)
    ensures Enabled(cfg, trace[i], FailPoll) ==> !Enabled(cfg, trace[i], Assign(None))
    ensures forall pid | Misses(trace[i].lock.kvs, trace[i].plans, pid) :: pid !in trace[i].lock.present
    ensures forall pid | Misses(trace[i].lock.kvs, trace[i].plans, pid) :: MissedInput(trace[i], pid)
    ensures trace[i].lock.kvs.Keys == trace[i].lock.present ==> !Enabled(cfg, trace[i], FailPoll)
  {
    hide IsRun, Inv, PartOf, Closed, Misses, Probe, MissedInput, Verdict;
    var s := trace[i];
    RunInv(cfg, trace, steps, i);
    SnapshotOf(cfg, s);
    AllStoredIsClosed(cfg, s);
    LockHolderOf(cfg, s);
    TornScan(cfg, trace, steps, i, s.lock.kvs);
    forall pid | Misses(s.lock.kvs, s.plans, pid)
      ensures pid in s.lock.kvs && pid !in s.lock.present && MissedInput(s, pid)
    {
      MissesIsScanned(s.lock.kvs, s.plans, pid);
      MissingInputIsNew(s, pid);
      MissedOf(s, pid);
    }
  }

  /** An input of the task is stored, but the scan has not seen it. */
  ghost predicate MissedInput(s: State, pid: PartitionId) {
    && s.lock.Scanned? && KeyOf(pid) in s.plans
    && exists input :: input in InputsOf(s.plans, pid) && input in s.tasks && input !in s.lock.kvs
  }

  lemma MissedOf(s: State, pid: PartitionId)
    requires s.lock.Scanned? && Misses(s.lock.kvs, s.plans, pid)
    requires exists input :: input in InputsOf(s.plans, pid) && input in s.tasks && input !in s.lock.kvs
    ensures MissedInput(s, pid)
  {
  }

  lemma LockHolderOf(cfg: Config, s: State)
    requires Inv(cfg, s) && !s.lock.Unlocked?
    ensures s.lock.executorId in s.workers
  {
    hide Storage, GoodJobs, Ownership, Crew, Registered, Dependencies, AllRightPlans, Snapshot, StoredRows;
    hide OutputsThere, ReportsThere;
    LockHolderIsWorker(cfg, s.workers, s.lock);
  }

  /** No deadlock, over every run and for every scan: when a job had a pending task as the scan began, and nothing of it
      was seen running or failed, then the search does not come back empty-handed, and that job has a task to return. */
  lemma SearchFindsWork(cfg: Config, trace: seq<State>, steps: seq<Step>, i: nat, pid: PartitionId)
    requires IsRun(cfg, trace, steps) && i < |trace| && trace[i].lock.Scanned?
    requires pid in trace[i].lock.present && pid in trace[i].lock.kvs && trace[i].lock.kvs[pid].Pending?
    requires OnlyWaiting(trace[i].lock.kvs, pid.jobId)
    ensures !Assignable(trace[i].lock.kvs, trace[i].plans, trace[i].lock.executors, None)
    ensures exists t: Task ::
      t.id.jobId == pid.jobId && Assignable(trace[i].lock.kvs, trace[i].plans, trace[i].lock.executors, Some(t))
  {
    hide IsRun, Inv, Ready, Closed, Downward;
    var s := trace[i];
    RunInv(cfg, trace, steps, i);
    SnapshotOf(cfg, s);
    PlansAreDownward(cfg, s);
    SomethingIsReady(s.lock.kvs, s.lock.present, s.plans, pid);
    var r :| Ready(s.lock.kvs, s.plans, r) && r.jobId == pid.jobId;
    ReadyIsKnown(s.lock.kvs, s.plans, r);
    ReadyIsAssignable(cfg, s, r);
  }

  lemma PlansAreDownward(cfg: Config, s: State)
    requires Inv(cfg, s)
    ensures Downward(s.plans)
  {
    hide Storage, GoodJobs, Ownership, Crew, Registered, Dependencies, AllRightPlans, Snapshot, StoredRows;
    hide OutputsThere, ReportsThere;
    hide Downward;
    StorageIsDownward(cfg.eng, s.tasks.Keys, s.plans, s.submissions);
  }

  lemma ReadyIsKnown(tasks: Tasks, plans: StagePlans, pid: PartitionId)
    requires Ready(tasks, plans, pid)
    ensures pid in tasks
  {
  }
}
