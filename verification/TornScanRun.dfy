/** A run in which the search for a task fails: a scan in the order of keys misses a task's input.

    The first stage of the query has eleven partitions. Ten of its tasks are stored and completed; then a scan goes up
    to `1/9`, which sorts behind `1/10`; then `1/10` and `2/0` are stored, and the scan comes to `2/0`.
  */
module TornScanRun {
  import opened Plans
  import opened StagePlanner
  import opened ShuffleResolution
  import opened Scheduling
  import opened Keys
  import opened TaskOrder
  import opened Protocol
  import opened TaskInvariants
  import opened ProtocolInvariants
  import opened NoDeadlock
  import opened OrderedScans
  import opened Termination
  import opened RunSteps
  import opened ExampleRuns

  // ---- States up to the job's status and what has been written ----

  predicate Shape(s: State, tasks: Tasks, plans: StagePlans, sub: Submission, lock: Lock, w: Worker) {
    && s.tasks == tasks && s.plans == plans && s.executors == map["e" := META] && s.submissions == map["j" := sub]
    && s.lock == lock && s.workers == map["e" := w] && s.jobs.Keys == {"j"}
  }

  ghost predicate Reaches(cfg: Config, tasks: Tasks, plans: StagePlans, sub: Submission, lock: Lock, w: Worker) {
    exists s :: Reachable(cfg, s) && Shape(s, tasks, plans, sub, lock, w)
  }

  function Cfg(schema: Schema): Config {
    ConfigOf(schema, 11)
  }

  lemma ThenSaves(schema: Schema, tasks: Tasks, plans: StagePlans, sub: Submission, lock: Lock, w: Worker)
    requires Reaches(Cfg(schema), tasks, plans, sub, lock, w)
    requires sub.Saving? && sub.stage < |sub.stages| == |sub.counts| && sub.stages[sub.stage].stageId < 10
    requires sub.next < 20
    ensures
      var id := sub.stages[sub.stage].stageId;
      if sub.next == 0 then
        Reaches(Cfg(schema), tasks, plans[StageKey("j", id) := sub.stages[sub.stage].child], Advance(sub), lock, w)
      else Reaches(Cfg(schema), tasks[PartitionId("j", id, sub.next - 1) := Pending], plans, Advance(sub), lock, w)
  {
    hide Reachable, Cfg, Advance;
    var s :| Reachable(Cfg(schema), s) && Shape(s, tasks, plans, sub, lock, w);
    Saves(Cfg(schema), s, "j");
    Overwritten("j", sub, Advance(sub));
    var s' := DoSave(s, "j");
    if sub.next == 0 {
      assert Shape(s', s'.tasks, s'.plans, Advance(sub), lock, w);
    } else {
      assert Shape(s', s'.tasks, s'.plans, Advance(sub), lock, w);
    }
  }

  lemma ThenPolls(schema: Schema, tasks: Tasks, plans: StagePlans, sub: Submission, w: Worker)
    requires Reaches(Cfg(schema), tasks, plans, sub, Unlocked, w) && w.rpc.Idle?
    ensures Reaches(Cfg(schema), SaveReports(tasks, w.channel), plans, sub, Saved("e", w.channel != [], w.free > 0),
                    w.(channel := [], rpc := Serving))
  {
    hide Reachable, EngineOf, SaveReports;
    var cfg := Cfg(schema);
    var s :| Reachable(cfg, s) && Shape(s, tasks, plans, sub, Unlocked, w);
    PollSent(cfg, s, "e");
    var w1 := SendPoll(SampleStatuses(w));
    Overwritten("e", w, w1);
    var s1 := SetWorker(s, "e", w1);
    PollBegins(cfg, s1, "e");
    Overwritten("e", w1, w1.(rpc := Serving));
    Overwritten("e", META, META);
    var s2 := DoBeginPoll(META, s1, "e");
    assert Shape(s2, SaveReports(tasks, w.channel), plans, sub, Saved("e", w.channel != [], w.free > 0),
                 w.(channel := [], rpc := Serving));
  }

  /** The scan goes up to the last task. */
  lemma ThenScans(schema: Schema, tasks: Tasks, plans: StagePlans, sub: Submission, reported: bool, w: Worker)
    requires Reaches(Cfg(schema), tasks, plans, sub, Saved("e", reported, true), w)
    ensures Reaches(Cfg(schema), tasks, plans, sub, Scanning("e", reported, tasks.Keys, tasks), w)
    ensures Reaches(Cfg(schema), tasks, plans, sub, Scanned("e", reported, tasks.Keys, tasks, map["e" := META]), w)
  {
    hide Reachable, Cfg;
    var s :| Reachable(Cfg(schema), s) && Shape(s, tasks, plans, sub, Saved("e", reported, true), w);
    ScansUp(Cfg(schema), s);
    ScansAll(Cfg(schema), s);
    var up := Scanning("e", reported, tasks.Keys, tasks);
    assert Shape(s.(lock := up), tasks, plans, sub, up, w);
    var all := Scanned("e", reported, tasks.Keys, tasks, map["e" := META]);
    assert Shape(s.(lock := all), tasks, plans, sub, all, w);
  }

  lemma ThenAssigns(schema: Schema, tasks: Tasks, plans: StagePlans, sub: Submission, reported: bool, t: Task,
                    w: Worker)
    requires Reaches(Cfg(schema), tasks, plans, sub, Scanned("e", reported, tasks.Keys, tasks, map["e" := META]), w)
    requires Assignable(tasks, plans, map["e" := META], Some(t))
    ensures Reaches(Cfg(schema), tasks[t.id := Running("e")], plans, sub,
                    Syncing("e", Some(t), if reported then {"j"} else {}), w)
  {
    hide Reachable, Cfg, Assignable;
    var lock := Scanned("e", reported, tasks.Keys, tasks, map["e" := META]);
    var s :| Reachable(Cfg(schema), s) && Shape(s, tasks, plans, sub, lock, w);
    TaskAssigned(Cfg(schema), s, Some(t));
    var s1 := DoAssign(s, Some(t));
    assert Shape(s1.(lock := SyncLock(s1)), tasks[t.id := Running("e")], plans, sub,
                 Syncing("e", Some(t), if reported then {"j"} else {}), w);
  }

  lemma ThenSyncs(schema: Schema, tasks: Tasks, plans: StagePlans, sub: Submission, task: Option<Task>,
                  todo: set<string>, w: Worker)
    requires Reaches(Cfg(schema), tasks, plans, sub, Syncing("e", task, todo), w) && todo <= {"j"}
    ensures Reaches(Cfg(schema), tasks, plans, sub, Syncing("e", task, {}), w)
  {
    hide Reachable, Cfg, Verdict;
    var s :| Reachable(Cfg(schema), s) && Shape(s, tasks, plans, sub, Syncing("e", task, todo), w);
    if "j" in todo {
      assert todo == {"j"};
      VerdictExists(s.tasks, s.executors, "j");
      var v :| Verdict(s.tasks, s.executors, "j", v);
      JobRead(Cfg(schema), s, "j", v);
      var s1 := s.(lock := Judged("e", task, todo, "j", s.tasks.Keys, s.tasks, v));
      JobRecorded(Cfg(schema), s1);
      assert todo - {"j"} == {};
      var s2 := DoSyncJob(s1, "j", v);
      assert s2.jobs.Keys == {"j"};
      assert Shape(s2, tasks, plans, sub, Syncing("e", task, {}), w);
    } else {
      assert todo == {};
    }
  }

  lemma ThenAnswers(schema: Schema, tasks: Tasks, plans: StagePlans, sub: Submission, task: Option<Task>, w: Worker)
    requires Reaches(Cfg(schema), tasks, plans, sub, Syncing("e", task, {}), w)
    ensures Reaches(Cfg(schema), tasks, plans, sub, Unlocked, w.(rpc := Answered(task)))
  {
    hide Reachable, Cfg;
    var s :| Reachable(Cfg(schema), s) && Shape(s, tasks, plans, sub, Syncing("e", task, {}), w);
    PollAnswered(Cfg(schema), s);
    Overwritten("e", w, w.(rpc := Answered(task)));
    assert Shape(DoEndPoll(s), tasks, plans, sub, Unlocked, w.(rpc := Answered(task)));
  }

  lemma LeafHasRows(schema: Schema, spec: Spec, stores: Stores)
    ensures
      var t := EngineOf(schema, 11).Execute(stores, Leaf(spec));
      t.Some? && |t.value| == 11
  {
    var eng := EngineOf(schema, 11);
    assert eng.Count(Leaf(spec)) == 11;
  }

  function Busy(pid: PartitionId, spec: Spec): Worker {
    Worker(0, map[pid := Leaf(spec)], map[], [], Idle)
  }

  function Reporting(pid: PartitionId): Worker {
    Worker(1, map[], map[], [Report(pid, Completed("e"))], Idle)
  }

  lemma ThenReceives(schema: Schema, tasks: Tasks, plans: StagePlans, sub: Submission, pid: PartitionId, spec: Spec)
    requires Reaches(Cfg(schema), tasks, plans, sub, Unlocked, Resting(Answered(Some(Task(pid, Leaf(spec))))))
    ensures Reaches(Cfg(schema), tasks, plans, sub, Unlocked, Busy(pid, spec))
  {
    hide Reachable, Cfg;
    var w := Resting(Answered(Some(Task(pid, Leaf(spec)))));
    var s :| Reachable(Cfg(schema), s) && Shape(s, tasks, plans, sub, Unlocked, w);
    TaskReceived(Cfg(schema), s, "e");
    assert map[][pid := Leaf(spec)] == map[pid := Leaf(spec)];
    Overwritten("e", w, Busy(pid, spec));
    assert Shape(SetWorker(s, "e", ReceiveTask(w)), tasks, plans, sub, Unlocked, Busy(pid, spec));
  }

  /** The task is run and its status in the channel. */
  lemma ThenRuns(schema: Schema, tasks: Tasks, plans: StagePlans, sub: Submission, pid: PartitionId, spec: Spec)
    requires Reaches(Cfg(schema), tasks, plans, sub, Unlocked, Busy(pid, spec)) && pid.partitionId < 11
    ensures Reaches(Cfg(schema), tasks, plans, sub, Unlocked, Reporting(pid))
  {
    hide Reachable, EngineOf, Store;
    var cfg, w := Cfg(schema), Busy(pid, spec);
    var s :| Reachable(cfg, s) && Shape(s, tasks, plans, sub, Unlocked, w);
    LeafHasRows(schema, spec, s.stores);
    TaskFinished(cfg, s, "e", pid);
    var w1 := Worker(1, map[], map[pid := Completed("e")], [], Idle);
    assert FinishTask(w, "e", pid, None) == w1;
    Overwritten("e", w, w1);
    var s1 := DoFinish(cfg, s, "e", pid, None);
    TaskAnnounced(cfg, s1, "e", pid);
    assert AnnounceTask(w1, pid) == Reporting(pid);
    Overwritten("e", w1, Reporting(pid));
    assert Shape(SetWorker(s1, "e", AnnounceTask(w1, pid)), tasks, plans, sub, Unlocked, Reporting(pid));
  }

  /** From the start of a poll that takes a task to the end of that task. */
  lemma Round(schema: Schema, spec: Spec, tasks: Tasks, plans: StagePlans, sub: Submission, reported: bool,
              pid: PartitionId)
    requires Reaches(Cfg(schema), tasks, plans, sub, Saved("e", reported, true), Resting(Serving))
    requires pid in tasks && tasks[pid].Pending? && KeyOf(pid) in plans && plans[KeyOf(pid)] == Leaf(spec)
    requires pid.partitionId < 11
    ensures Reaches(Cfg(schema), tasks[pid := Running("e")], plans, sub, Unlocked, Reporting(pid))
  {
    hide Reaches, Assignable, Cfg;
    var t := Task(pid, Leaf(spec));
    var tasks' := tasks[pid := Running("e")];
    ThenScans(schema, tasks, plans, sub, reported, Resting(Serving));
    LeafIsFound(tasks, plans, pid, spec);
    ThenAssigns(schema, tasks, plans, sub, reported, t, Resting(Serving));
    ThenSyncs(schema, tasks', plans, sub, Some(t), if reported then {"j"} else {}, Resting(Serving));
    ThenAnswers(schema, tasks', plans, sub, Some(t), Resting(Serving));
    ThenReceives(schema, tasks', plans, sub, pid, spec);
    ThenRuns(schema, tasks', plans, sub, pid, spec);
  }

  // ---- A merge over eleven partitions ----

  function Top(schema: Schema): Plan {
    Operator(Merge, [UnresolvedShuffle([1], schema, 11)])
  }

  function MergeSub(schema: Schema, spec: Spec, stage: nat, next: nat): Submission {
    Saving(Operator(Merge, [Leaf(spec)]), [QueryStage("j", 1, Leaf(spec)), QueryStage("j", 2, Top(schema))],
           [11, 11], stage, next)
  }

  function MergePlans(schema: Schema, spec: Spec): StagePlans {
    map[StageKey("j", 1) := Leaf(spec), StageKey("j", 2) := Top(schema)]
  }

  function Of(p: nat): PartitionId {
    PartitionId("j", 1, p)
  }

  const TOP := PartitionId("j", 2, 0)

  lemma MergeChildren(schema: Schema, spec: Spec)
    ensures PlanChildren(EngineOf(schema, 11), "j", [Leaf(spec)], 0) == StagedAll([Leaf(spec)], [], 0)
  {
    var eng, cs := EngineOf(schema, 11), [Leaf(spec)];
    assert cs[..0] == [];
    assert PlanChildren(eng, "j", cs[..0], 0) == StagedAll([], [], 0);
    assert PlanStages(eng, "j", cs[0], 0) == Staged(Leaf(spec), [], 0);
  }

  lemma MergeIsTwoStages(schema: Schema, spec: Spec)
    ensures
      var eng := EngineOf(schema, 11);
      var plan := Operator(Merge, [Leaf(spec)]);
      var stages := QueryStages(eng, "j", plan, 0);
      && stages == [QueryStage("j", 1, Leaf(spec)), QueryStage("j", 2, Top(schema))]
      && CountsOf(eng, stages) == [11, 11] && Query(eng, "j", plan)
  {
    var eng := EngineOf(schema, 11);
    var plan := Operator(Merge, [Leaf(spec)]);
    MergeChildren(schema, spec);
    var first := QueryStage("j", 1, Leaf(spec));
    assert eng.Count(Leaf(spec)) == 11 && eng.SchemaOf(Leaf(spec)) == schema && eng.Count(Top(schema)) == 11;
    assert PlanStages(eng, "j", plan, 0) == Staged(Top(schema), [first], 1);
    var stages := [first, QueryStage("j", 2, Top(schema))];
    assert QueryStages(eng, "j", plan, 0) == stages;
    assert CountsOf(eng, stages) == [11, 11];
    assert forall s <- stages :: eng.Count(s.child) > 0;
    assert InputPlan(Leaf(spec));
  }

  /** The first `stored` tasks of the first stage: of these, the first `done` are completed. */
  function First(stored: nat, done: nat): Tasks {
    map pid | pid in (set p | 0 <= p < stored :: Of(p)) ::
      if pid.partitionId < done then Completed("e") else Pending
  }

  lemma FirstKeys(stored: nat, done: nat, pid: PartitionId)
    ensures pid in First(stored, done) <==> pid == Of(pid.partitionId) && pid.partitionId < stored
    ensures pid in First(stored, done) ==>
      First(stored, done)[pid] == if pid.partitionId < done then Completed("e") else Pending
  {
    if pid == Of(pid.partitionId) && pid.partitionId < stored {
      assert Of(pid.partitionId) in (set p | 0 <= p < stored :: Of(p));
    }
  }

  predicate SameAt(a: Tasks, b: Tasks, pid: PartitionId) {
    (pid in a <==> pid in b) && (pid in a ==> a[pid] == b[pid])
  }

  lemma SameTasks(a: Tasks, b: Tasks)
    requires forall pid :: SameAt(a, b, pid)
    ensures a == b
  {
    forall pid ensures (pid in a <==> pid in b) && (pid in a && pid in b ==> a[pid] == b[pid]) {
      assert SameAt(a, b, pid);
    }
  }

  lemma OneMoreStored(n: nat)
    ensures First(n, 0)[Of(n) := Pending] == First(n + 1, 0)
  {
    hide First;
    var a, b := First(n, 0)[Of(n) := Pending], First(n + 1, 0);
    forall pid ensures SameAt(a, b, pid) {
      FirstKeys(n, 0, pid);
      FirstKeys(n + 1, 0, pid);
    }
    SameTasks(a, b);
  }

  lemma OneMoreDone(n: nat, m: nat)
    requires m < n
    ensures SaveReports(First(n, m)[Of(m) := Running("e")], [Report(Of(m), Completed("e"))]) == First(n, m + 1)
  {
    hide First;
    var before := First(n, m)[Of(m) := Running("e")];
    var reports := [Report(Of(m), Completed("e"))];
    assert reports[..0] == [];
    assert SaveReports(before, reports) == before[Of(m) := Completed("e")];
    var a, b := before[Of(m) := Completed("e")], First(n, m + 1);
    forall pid ensures SameAt(a, b, pid) {
      FirstKeys(n, m, pid);
      FirstKeys(n, m + 1, pid);
    }
    SameTasks(a, b);
  }

  // ---- The run ----

  lemma PlanStored(schema: Schema, spec: Spec)
    ensures Reaches(Cfg(schema), map[], LeafPlans(spec), MergeSub(schema, spec, 0, 1), Unlocked, Resting(Idle))
  {
    hide Reachable, EngineOf, Query, QueryStages, CountsOf;
    MergeIsTwoStages(schema, spec);
    JobBegins(schema, 11, Operator(Merge, [Leaf(spec)]));
    var sub := MergeSub(schema, spec, 0, 0);
    var s := Snap(map[], map[], RunningJob, sub, Unlocked, Resting(Idle), map[]);
    assert Shape(s, map[], map[], sub, Unlocked, Resting(Idle));
    ThenSaves(schema, map[], map[], sub, Unlocked, Resting(Idle));
    assert map[][StageKey("j", 1) := Leaf(spec)] == LeafPlans(spec);
  }

  /** The first tasks are stored. */
  lemma {:induction false} TasksStored(schema: Schema, spec: Spec, n: nat)
    requires n <= 10
    ensures Reaches(Cfg(schema), First(n, 0), LeafPlans(spec), MergeSub(schema, spec, 0, n + 1), Unlocked,
                    Resting(Idle))
  {
    hide Reaches, Cfg;
    if n == 0 {
      assert First(0, 0) == map[];
      PlanStored(schema, spec);
    } else {
      TasksStored(schema, spec, n - 1);
      ThenSaves(schema, First(n - 1, 0), LeafPlans(spec), MergeSub(schema, spec, 0, n), Unlocked, Resting(Idle));
      OneMoreStored(n - 1);
    }
  }

  /** All tasks up to number `m` have been run; number `m` is about to be reported. */
  lemma {:induction false} TasksRun(schema: Schema, spec: Spec, m: nat)
    requires m < 10
    ensures Reaches(Cfg(schema), First(10, m)[Of(m) := Running("e")], LeafPlans(spec), MergeSub(schema, spec, 0, 11),
                    Unlocked, Reporting(Of(m)))
  {
    hide Reaches, Cfg, First;
    var plans, sub := LeafPlans(spec), MergeSub(schema, spec, 0, 11);
    FirstKeys(10, m, Of(m));
    if m == 0 {
      TasksStored(schema, spec, 10);
      ThenPolls(schema, First(10, 0), plans, sub, Resting(Idle));
      Round(schema, spec, First(10, 0), plans, sub, false, Of(0));
    } else {
      TasksRun(schema, spec, m - 1);
      ThenPolls(schema, First(10, m - 1)[Of(m - 1) := Running("e")], plans, sub, Reporting(Of(m - 1)));
      OneMoreDone(10, m - 1);
      Round(schema, spec, First(10, m), plans, sub, true, Of(m));
    }
  }

  function Up(): Lock {
    Scanning("e", true, First(10, 10).Keys, First(10, 10))
  }

  /** Ten tasks are completed, and the scan has seen them all. */
  lemma ScannedUp(schema: Schema, spec: Spec)
    ensures Reaches(Cfg(schema), First(10, 10), LeafPlans(spec), MergeSub(schema, spec, 0, 11), Up(), Resting(Serving))
  {
    hide Reaches, Cfg, First;
    var plans, sub := LeafPlans(spec), MergeSub(schema, spec, 0, 11);
    TasksRun(schema, spec, 9);
    ThenPolls(schema, First(10, 9)[Of(9) := Running("e")], plans, sub, Reporting(Of(9)));
    OneMoreDone(10, 9);
    ThenScans(schema, First(10, 10), plans, sub, true, Resting(Serving));
  }

  function TornTasks(): Tasks {
    First(10, 10)[Of(10) := Pending][TOP := Pending]
  }

  /** Behind and ahead of it, the last task of the first stage and the first of the second are stored. */
  lemma StoredMeanwhile(schema: Schema, spec: Spec)
    ensures Reaches(Cfg(schema), TornTasks(), MergePlans(schema, spec), MergeSub(schema, spec, 1, 2), Up(),
                    Resting(Serving))
  {
    hide Reaches, Cfg, First, Up;
    ScannedUp(schema, spec);
    var w, tasks := Resting(Serving), First(10, 10);
    ThenSaves(schema, tasks, LeafPlans(spec), MergeSub(schema, spec, 0, 11), Up(), w);
    ThenSaves(schema, tasks[Of(10) := Pending], LeafPlans(spec), MergeSub(schema, spec, 1, 0), Up(), w);
    assert LeafPlans(spec)[StageKey("j", 2) := Top(schema)] == MergePlans(schema, spec);
    ThenSaves(schema, tasks[Of(10) := Pending], MergePlans(schema, spec), MergeSub(schema, spec, 1, 1), Up(), w);
  }

  // ---- The order of the keys ----

  lemma TenBeforeNine()
    ensures !Precedes(Of(9), Of(10))
  {
    hide Before;
    var prefix, x, y := "j" + "/", Tail(Of(9)), Tail(Of(10));
    assert TaskPath(Of(9)) == prefix + x && TaskPath(Of(10)) == prefix + y;
    BeforeBehind(prefix, x, y);
    NineTail();
  }

  lemma NineTail()
    ensures !Before(Tail(Of(9)), Tail(Of(10)))
  {
    var x, y := Tail(Of(9)), Tail(Of(10));
    assert Decimal(10) == "10";
    assert x == "1/9" && y == "1/10";
    assert x[1..][1..] == "9" && y[1..][1..] == "10";
    assert !Before("9", "10");
    assert !Before(x[1..], y[1..]);
  }

  lemma TopIsNext(q: PartitionId)
    requires q in First(10, 10)
    ensures Precedes(q, TOP) && !Above(First(10, 10), q)
  {
    hide Precedes, First;
    FirstKeys(10, 10, q);
    OneDigitOrder(q, TOP);
    NotPrecedesItself(q);
  }

  lemma TenIsPassed()
    ensures !Above(First(10, 10), Of(10)) && !Above(First(10, 10)[TOP := Pending], Of(10))
  {
    hide Precedes, First;
    FirstKeys(10, 10, Of(9));
    TenBeforeNine();
  }

  // ---- The scan misses an input ----

  function TornLock(): Lock {
    Scanned("e", true, First(10, 10).Keys, First(10, 10)[TOP := Pending], map["e" := META])
  }

  lemma TopIsScanned(schema: Schema, spec: Spec, s: State)
    requires Reachable(Cfg(schema), s)
    requires Shape(s, TornTasks(), MergePlans(schema, spec), MergeSub(schema, spec, 1, 2), Up(), Resting(Serving))
    ensures Reachable(Cfg(schema), s.(lock := TornLock()))
  {
    hide Reachable, Cfg, First, Precedes, Above;
    var kvs := First(10, 10);
    FirstKeys(10, 10, TOP);
    forall q | q in kvs ensures Precedes(q, TOP) && !Above(kvs, q) {
      TopIsNext(q);
    }
    TenIsPassed();
    assert InOrder(s, ScanTask(TOP));
    assert ComesTo(s.lock.present, kvs, TOP);
    TaskScanned(Cfg(schema), s, TOP);
    var s1 := s.(lock := ScanTaskLock(s, TOP));
    assert s1.lock.kvs == kvs[TOP := Pending];
    assert InOrder(s1, EndScan);
    ScanEnds(Cfg(schema), s1);
  }

  lemma TopInputs(schema: Schema, spec: Spec)
    ensures InputsOf(MergePlans(schema, spec), TOP) == StageInputs("j", 1, 11)
  {
    var u := UnresolvedShuffle([1], schema, 11);
    var inputs := StageInputs("j", 1, 11);
    FindOne(Merge, u);
    hide StageInputs, FindUnresolvedShuffles;
    assert [u][..0] == [] && [1][..0] == [];
    assert IdInputs("j", [1], 11) == IdInputs("j", [], 11) + inputs == inputs;
    assert Inputs("j", [u]) == Inputs("j", []) + IdInputs("j", [1], 11) == inputs;
  }

  lemma TopMisses(schema: Schema, spec: Spec)
    ensures Misses(First(10, 10)[TOP := Pending], MergePlans(schema, spec), TOP)
  {
    hide First, InputsOf;
    var kvs, plans := First(10, 10)[TOP := Pending], MergePlans(schema, spec);
    var inputs := StageInputs("j", 1, 11);
    TopInputs(schema, spec);
    forall k | 0 <= k < 10 ensures IsCompletedTask(kvs, inputs[k]) {
      FirstKeys(10, 10, Of(k));
    }
    FirstKeys(10, 10, Of(10));
    assert inputs[10] == Of(10) && CompletedBefore(kvs, inputs, 10);
  }

  /** The search fails on a task whose input an orderly scan has missed: it cannot but end the poll. */
  lemma TornScanFails(schema: Schema, spec: Spec)
    ensures exists s :: Reachable(Cfg(schema), s) && s.lock.Scanned? && Misses(s.lock.kvs, s.plans, TOP)
                     && Enabled(Cfg(schema), s, FailPoll) && forall task :: !Enabled(Cfg(schema), s, Assign(task))
  {
    hide Reachable, Cfg, First, Misses, Enabled, Up;
    StoredMeanwhile(schema, spec);
    var s :| Reachable(Cfg(schema), s)
             && Shape(s, TornTasks(), MergePlans(schema, spec), MergeSub(schema, spec, 1, 2), Up(), Resting(Serving));
    TopIsScanned(schema, spec, s);
    TopMisses(schema, spec);
    var s' := s.(lock := TornLock());
    OnlyFails(schema, spec, s');
  }

  lemma OnlyFails(schema: Schema, spec: Spec, s: State)
    requires Reachable(Cfg(schema), s) && s.lock == TornLock() && s.plans == MergePlans(schema, spec)
    requires Misses(s.lock.kvs, s.plans, TOP)
    ensures Enabled(Cfg(schema), s, FailPoll) && forall task :: !Enabled(Cfg(schema), s, Assign(task))
  {
    hide Reachable, Cfg, First, Misses, Inv, Probe, Verdict, Query, ReadOf, ComesTo, Closed;
    var kvs := s.lock.kvs;
    ReachableInv(Cfg(schema), s);
    SnapshotOf(Cfg(schema), s);
    LockHolderOf(Cfg(schema), s);
    MissesIsScanned(kvs, s.plans, TOP);
    ProbeFailsExactly(Cfg(schema), s, kvs, TOP);
    forall pid | pid in kvs && pid != TOP ensures Probe(kvs, s.plans, s.lock.executors, pid) == Ok(None) {
      FirstKeys(10, 10, pid);
      NotPending(kvs, s.plans, s.lock.executors, pid);
    }
  }
}
