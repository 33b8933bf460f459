/** Concrete runs: what can go wrong does. */
module ExampleRuns {
  import opened Plans
  import opened StagePlanner
  import opened ShuffleResolution
  import opened Scheduling
  import opened Protocol
  import opened Conservation
  import opened RunSteps

  // ---- One executor with one slot, and job "j" ----

  const META := ExecutorMeta("e", "", 0)

  /** Every operator has `count` partitions, all empty. */
  function EngineOf(schema: Schema, count: nat): Engine {
    Engine((op, ss) => schema, (op, cs) => count, (op, ts, i) => [])
  }

  function ConfigOf(schema: Schema, count: nat): Config {
    Config(EngineOf(schema, count), map["e" := ExecutorSpec(META, 1)])
  }

  /** The executor has nothing to do. */
  function Resting(rpc: Rpc): Worker {
    Worker(1, map[], map[], [], rpc)
  }

  /** Nothing is stored yet. */
  function Quiet(executors: Executors, lock: Lock, rpc: Rpc): State {
    State(map[], map[], map[], executors, map[], lock, map["e" := Resting(rpc)], map[])
  }

  /** The executor is registered and the job under way. */
  function Snap(tasks: Tasks, plans: StagePlans, job: JobStatus, sub: Submission, lock: Lock, w: Worker,
                stores: Stores): State
  {
    State(tasks, plans, map["j" := job], map["e" := META], map["j" := sub], lock, map["e" := w], stores)
  }

  lemma Overwritten<V>(k: string, a: V, b: V)
    ensures map[k := a][k := b] == map[k := b]
  {
  }

  lemma FirstWritten<V>(k: string, b: V)
    ensures map[][k := b] == map[k := b]
  {
  }

  lemma FirstPoll(schema: Schema, count: nat)
    ensures Reachable(ConfigOf(schema, count), Quiet(map["e" := META], Saved("e", false, true), Serving))
  {
    hide Reachable, EngineOf;
    var cfg := ConfigOf(schema, count);
    Started0(cfg);
    var s := Quiet(map[], Unlocked, Idle);
    assert Init(cfg) == s;
    PollSent(cfg, s, "e");
    Overwritten("e", Resting(Idle), Resting(Sent(true, [])));
    var s1 := Quiet(map[], Unlocked, Sent(true, []));
    assert SetWorker(s, "e", SendPoll(SampleStatuses(s.workers["e"]))) == s1;
    PollBegins(cfg, s1, "e");
    Overwritten("e", Resting(Sent(true, [])), Resting(Serving));
    FirstWritten("e", META);
    assert DoBeginPoll(META, s1, "e") == Quiet(map["e" := META], Saved("e", false, true), Serving);
  }

  lemma FirstScan(schema: Schema, count: nat)
    ensures Reachable(ConfigOf(schema, count),
                      Quiet(map["e" := META], Scanned("e", false, {}, map[], map["e" := META]), Serving))
  {
    hide Reachable;
    var cfg := ConfigOf(schema, count);
    FirstPoll(schema, count);
    var s := Quiet(map["e" := META], Saved("e", false, true), Serving);
    assert s.tasks.Keys == {};
    ScansAll(cfg, s);
  }

  /** After a first poll the executor is known to the scheduler. */
  lemma ExecutorRegisters(schema: Schema, count: nat)
    ensures Reachable(ConfigOf(schema, count), Quiet(map["e" := META], Unlocked, Idle))
  {
    hide Reachable;
    var cfg := ConfigOf(schema, count);
    FirstScan(schema, count);
    var s := Quiet(map["e" := META], Scanned("e", false, {}, map[], map["e" := META]), Serving);
    TaskAssigned(cfg, s, None);
    var s1 := Quiet(map["e" := META], Syncing("e", None, {}), Serving);
    assert DoAssign(s, None).(lock := SyncLock(DoAssign(s, None))) == s1;
    PollAnswered(cfg, s1);
    var s2 := Quiet(map["e" := META], Unlocked, Answered(None));
    Overwritten("e", Resting(Serving), Resting(Answered(None)));
    assert DoEndPoll(s1) == s2;
    TaskReceived(cfg, s2, "e");
    Overwritten("e", Resting(Answered(None)), Resting(Idle));
    assert SetWorker(s2, "e", ReceiveTask(s2.workers["e"])) == Quiet(map["e" := META], Unlocked, Idle);
  }

  lemma SubmittedIsStarted(plan: Plan)
    ensures DoStart(DoSubmit(Quiet(map["e" := META], Unlocked, Idle), "j", plan), "j")
         == Snap(map[], map[], RunningJob, Started(plan, true), Unlocked, Resting(Idle), map[])
  {
    var s := Quiet(map["e" := META], Unlocked, Idle);
    assert "e" in s.executors;
    FirstWritten("j", Queued);
    FirstWritten("j", Accepted(plan, true));
    Overwritten("j", Queued, RunningJob);
    Overwritten("j", Accepted(plan, true), Started(plan, true));
  }

  /** A query can be submitted, started and cut into stages. */
  lemma JobBegins(schema: Schema, count: nat, plan: Plan)
    requires Query(EngineOf(schema, count), "j", plan)
    ensures
      var stages := QueryStages(EngineOf(schema, count), "j", plan, 0);
      var sub := Saving(plan, stages, CountsOf(EngineOf(schema, count), stages), 0, 0);
      Reachable(ConfigOf(schema, count), Snap(map[], map[], RunningJob, sub, Unlocked, Resting(Idle), map[]))
  {
    hide Reachable, Query, QueryStages, CountsOf, EngineOf, DoSubmit, DoStart;
    var cfg := ConfigOf(schema, count);
    ExecutorRegisters(schema, count);
    Submitted(cfg, Quiet(map["e" := META], Unlocked, Idle), "j", plan);
    SubmittedIsStarted(plan);
    var s := Snap(map[], map[], RunningJob, Started(plan, true), Unlocked, Resting(Idle), map[]);
    IsCut(cfg, s, "j");
    var stages := QueryStages(cfg.eng, "j", plan, 0);
    Overwritten("j", Started(plan, true), Saving(plan, stages, CountsOf(cfg.eng, stages), 0, 0));
  }

  // ---- Steps of a job under way ----

  lemma JobPolls(schema: Schema, count: nat, tasks: Tasks, plans: StagePlans, sub: Submission, w: Worker,
                 stores: Stores)
    requires w.rpc.Idle? && Reachable(ConfigOf(schema, count), Snap(tasks, plans, RunningJob, sub, Unlocked, w, stores))
    ensures Reachable(ConfigOf(schema, count),
                      Snap(SaveReports(tasks, w.channel), plans, RunningJob, sub,
                           Saved("e", w.channel != [], w.free > 0), w.(channel := [], rpc := Serving), stores))
  {
    hide Reachable, EngineOf, SaveReports;
    var cfg := ConfigOf(schema, count);
    var s := Snap(tasks, plans, RunningJob, sub, Unlocked, w, stores);
    PollSent(cfg, s, "e");
    var w1 := SendPoll(SampleStatuses(w));
    Overwritten("e", w, w1);
    var s1 := Snap(tasks, plans, RunningJob, sub, Unlocked, w1, stores);
    assert SetWorker(s, "e", w1) == s1;
    PollBegins(cfg, s1, "e");
    Overwritten("e", w1, w1.(rpc := Serving));
    Overwritten("e", META, META);
  }

  lemma JobAnswers(schema: Schema, count: nat, tasks: Tasks, plans: StagePlans, job: JobStatus, sub: Submission,
                   task: Option<Task>, w: Worker, stores: Stores)
    requires Reachable(ConfigOf(schema, count), Snap(tasks, plans, job, sub, Syncing("e", task, {}), w, stores))
    ensures Reachable(ConfigOf(schema, count),
                      Snap(tasks, plans, job, sub, Unlocked, w.(rpc := Answered(task)), stores))
  {
    hide Reachable, EngineOf;
    PollAnswered(ConfigOf(schema, count), Snap(tasks, plans, job, sub, Syncing("e", task, {}), w, stores));
    Overwritten("e", w, w.(rpc := Answered(task)));
  }

  // ---- A query of one operator ----

  function Leaf(spec: Spec): Plan {
    Operator(Other(spec), [])
  }

  function LeafPlans(spec: Spec): StagePlans {
    map[StageKey("j", 1) := Leaf(spec)]
  }

  function LeafSub(spec: Spec, count: nat, stage: nat, next: nat): Submission {
    Saving(Leaf(spec), [QueryStage("j", 1, Leaf(spec))], [count], stage, next)
  }

  const FIRST := PartitionId("j", 1, 0)
  const SECOND := PartitionId("j", 1, 1)

  lemma LeafIsOneStage(schema: Schema, count: nat, spec: Spec)
    requires 0 < count <= 2
    ensures
      var eng := EngineOf(schema, count);
      var stages := QueryStages(eng, "j", Leaf(spec), 0);
      && stages == [QueryStage("j", 1, Leaf(spec))] && CountsOf(eng, stages) == [count]
      && Query(eng, "j", Leaf(spec))
  {
    var eng := EngineOf(schema, count);
    assert eng.Count(Leaf(spec)) == count;
    assert QueryStages(eng, "j", Leaf(spec), 0) == [QueryStage("j", 1, Leaf(spec))];
    assert CountsOf(eng, [QueryStage("j", 1, Leaf(spec))]) == [count];
  }

  lemma LeafResolves(spec: Spec)
    ensures Resolve(map[], Leaf(spec)) == Some(Leaf(spec))
  {
    var r := Resolve(map[], Leaf(spec));
    assert r.Some? && r.value.Operator? && r.value.op == Other(spec);
    assert r.value.children == [];
  }

  lemma LeafHasNoInputs(jobId: string, spec: Spec)
    ensures FindUnresolvedShuffles(Leaf(spec)) == [] && Inputs(jobId, FindUnresolvedShuffles(Leaf(spec))) == []
  {
    assert Leaf(spec).children == [] && FindAll([]) == [];
  }

  /** A pending task without inputs is found. */
  lemma LeafIsFound(tasks: Tasks, plans: StagePlans, pid: PartitionId, spec: Spec)
    requires pid in tasks && tasks[pid].Pending? && KeyOf(pid) in plans && plans[KeyOf(pid)] == Leaf(spec)
    ensures Assignable(tasks, plans, map["e" := META], Some(Task(pid, Leaf(spec))))
  {
    hide Resolve;
    hide FindUnresolvedShuffles;
    LeafHasNoInputs(pid.jobId, spec);
    assert InputsOf(plans, pid) == [];
    LeafResolves(spec);
    assert AllDone(tasks, map["e" := META], []) && !Breaks(tasks, map["e" := META], []);
  }

  /** The first task is stored; if there are two, the save loop is not over. */
  lemma FirstTaskSaved(schema: Schema, count: nat, spec: Spec)
    requires 0 < count <= 2
    ensures
      var sub := if count == 1 then LeafSub(spec, 1, 1, 0) else LeafSub(spec, 2, 0, 2);
      Reachable(ConfigOf(schema, count),
                Snap(map[FIRST := Pending], LeafPlans(spec), RunningJob, sub, Unlocked, Resting(Idle), map[]))
  {
    hide Reachable, EngineOf, Query, QueryStages, CountsOf;
    var cfg := ConfigOf(schema, count);
    LeafIsOneStage(schema, count, spec);
    JobBegins(schema, count, Leaf(spec));
    var sub, sub1 := LeafSub(spec, count, 0, 0), LeafSub(spec, count, 0, 1);
    Saves(cfg, Snap(map[], map[], RunningJob, sub, Unlocked, Resting(Idle), map[]), "j");
    Overwritten("j", sub, sub1);
    var s := Snap(map[], LeafPlans(spec), RunningJob, sub1, Unlocked, Resting(Idle), map[]);
    assert DoSave(Snap(map[], map[], RunningJob, sub, Unlocked, Resting(Idle), map[]), "j") == s;
    Saves(cfg, s, "j");
    Overwritten("j", sub1, Advance(sub1));
    assert map[][FIRST := Pending] == map[FIRST := Pending];
  }

  /** ... and the executor gets it. */
  lemma FirstTaskDispatched(schema: Schema, count: nat, spec: Spec, sub: Submission)
    requires Reachable(ConfigOf(schema, count),
                       Snap(map[FIRST := Pending], LeafPlans(spec), RunningJob, sub, Unlocked, Resting(Idle), map[]))
    ensures Reachable(ConfigOf(schema, count),
                      Snap(map[FIRST := Running("e")], LeafPlans(spec), RunningJob, sub, Unlocked,
                           Resting(Answered(Some(Task(FIRST, Leaf(spec))))), map[]))
  {
    hide Reachable, EngineOf, Assignable;
    var cfg := ConfigOf(schema, count);
    var tasks, plans := map[FIRST := Pending], LeafPlans(spec);
    JobPolls(schema, count, tasks, plans, sub, Resting(Idle), map[]);
    assert tasks.Keys == {FIRST};
    ScansAll(cfg, Snap(tasks, plans, RunningJob, sub, Saved("e", false, true), Resting(Serving), map[]));
    LeafIsFound(tasks, plans, FIRST, spec);
    var task := Some(Task(FIRST, Leaf(spec)));
    var lock := Scanned("e", false, {FIRST}, tasks, map["e" := META]);
    var s := Snap(tasks, plans, RunningJob, sub, lock, Resting(Serving), map[]);
    TaskAssigned(cfg, s, task);
    assert tasks[FIRST := Running("e")] == map[FIRST := Running("e")];
    JobAnswers(schema, count, map[FIRST := Running("e")], plans, RunningJob, sub, task, Resting(Serving), map[]);
  }

  // ---- A lost reply ----

  function AfterLoss(spec: Spec): State {
    Snap(map[FIRST := Running("e")], LeafPlans(spec), RunningJob, LeafSub(spec, 1, 1, 0),
         Unlocked, Resting(Idle), map[])
  }

  /** The reply that hands a task out can get lost, and then the task is stranded. */
  lemma LostReplyStrands(schema: Schema, spec: Spec)
    ensures Reachable(ConfigOf(schema, 1), AfterLoss(spec)) && Stranded(AfterLoss(spec), "e", FIRST)
  {
    hide Reachable, EngineOf;
    FirstTaskSaved(schema, 1, spec);
    FirstTaskDispatched(schema, 1, spec, LeafSub(spec, 1, 1, 0));
    var w := Resting(Answered(Some(Task(FIRST, Leaf(spec)))));
    ReplyIsLost(ConfigOf(schema, 1), AfterLoss(spec).(workers := map["e" := w]), "e");
    Overwritten("e", w, Resting(Idle));
  }

  // ---- A job that counts as completed too soon ----

  /** The work directory once the first task has been run. */
  function FirstStored(): Stores {
    Store(map[], AddressOf(META), FIRST, [])
  }

  lemma FirstTaskRuns(schema: Schema, spec: Spec)
    ensures Reachable(ConfigOf(schema, 2),
                      Snap(map[FIRST := Running("e")], LeafPlans(spec), RunningJob, LeafSub(spec, 2, 0, 2), Unlocked,
                           Worker(0, map[FIRST := Leaf(spec)], map[], [], Idle), map[]))
  {
    hide Reachable, EngineOf;
    var sub := LeafSub(spec, 2, 0, 2);
    FirstTaskSaved(schema, 2, spec);
    FirstTaskDispatched(schema, 2, spec, sub);
    var w := Resting(Answered(Some(Task(FIRST, Leaf(spec)))));
    var s := Snap(map[FIRST := Running("e")], LeafPlans(spec), RunningJob, sub, Unlocked, w, map[]);
    TaskReceived(ConfigOf(schema, 2), s, "e");
    assert map[][FIRST := Leaf(spec)] == map[FIRST := Leaf(spec)];
    Overwritten("e", w, Worker(0, map[FIRST := Leaf(spec)], map[], [], Idle));
  }

  lemma LeafRuns(schema: Schema, spec: Spec)
    ensures EngineOf(schema, 2).Execute(map[], Leaf(spec)) == Some([[], []])
  {
    var eng := EngineOf(schema, 2);
    assert eng.Count(Leaf(spec)) == 2;
    assert eng.Execute(map[], Leaf(spec)).Some? && eng.Execute(map[], Leaf(spec)).value == [[], []];
  }

  lemma FirstTaskCompletes(schema: Schema, spec: Spec)
    ensures Reachable(ConfigOf(schema, 2),
                      Snap(map[FIRST := Running("e")], LeafPlans(spec), RunningJob, LeafSub(spec, 2, 0, 2), Unlocked,
                           Worker(1, map[], map[], [Report(FIRST, Completed("e"))], Idle), FirstStored()))
  {
    hide Reachable, EngineOf, Store, Engine.Execute;
    var cfg, sub := ConfigOf(schema, 2), LeafSub(spec, 2, 0, 2);
    FirstTaskRuns(schema, spec);
    var w := Worker(0, map[FIRST := Leaf(spec)], map[], [], Idle);
    var s := Snap(map[FIRST := Running("e")], LeafPlans(spec), RunningJob, sub, Unlocked, w, map[]);
    LeafRuns(schema, spec);
    TaskFinished(cfg, s, "e", FIRST);
    var w1 := Worker(1, map[], map[FIRST := Completed("e")], [], Idle);
    assert FinishTask(w, "e", FIRST, None) == w1;
    Overwritten("e", w, w1);
    var s1 := Snap(map[FIRST := Running("e")], LeafPlans(spec), RunningJob, sub, Unlocked, w1, FirstStored());
    TaskAnnounced(cfg, s1, "e", FIRST);
    var w2 := Worker(1, map[], map[], [Report(FIRST, Completed("e"))], Idle);
    assert AnnounceTask(w1, FIRST) == w2;
    Overwritten("e", w1, w2);
  }

  function DoneJob(): JobStatus {
    CompletedJob([JobLocation(FIRST, Some(META))])
  }

  lemma FirstTaskIsVerdict()
    ensures Verdict(map[FIRST := Completed("e")], map["e" := META], "j", Some(DoneJob()))
  {
    var tasks := map[FIRST := Completed("e")];
    assert FIRST in tasks && FIRST.jobId == "j";
    assert DoneJob().locations[0].partitionId == FIRST;
  }

  lemma FirstTaskReported(schema: Schema, spec: Spec)
    ensures Reachable(ConfigOf(schema, 2),
                      Snap(map[FIRST := Completed("e")], LeafPlans(spec), RunningJob, LeafSub(spec, 2, 0, 2),
                           Syncing("e", None, {"j"}), Resting(Serving), FirstStored()))
  {
    hide Reachable, EngineOf, FirstStored;
    var cfg, sub, plans := ConfigOf(schema, 2), LeafSub(spec, 2, 0, 2), LeafPlans(spec);
    var tasks := map[FIRST := Completed("e")];
    FirstTaskCompletes(schema, spec);
    var channel := [Report(FIRST, Completed("e"))];
    JobPolls(schema, 2, map[FIRST := Running("e")], plans, sub, Worker(1, map[], map[], channel, Idle), FirstStored());
    assert SaveReports(map[FIRST := Running("e")], channel) == tasks by {
      assert channel[..0] == [];
    }
    assert tasks.Keys == {FIRST};
    ScansAll(cfg, Snap(tasks, plans, RunningJob, sub, Saved("e", true, true), Resting(Serving), FirstStored()));
    var lock := Scanned("e", true, {FIRST}, tasks, map["e" := META]);
    var s := Snap(tasks, plans, RunningJob, sub, lock, Resting(Serving), FirstStored());
    assert s.jobs.Keys == {"j"};
    TaskAssigned(cfg, s, None);
  }

  lemma JobCompletes(schema: Schema, spec: Spec)
    ensures Reachable(ConfigOf(schema, 2),
                      Snap(map[FIRST := Completed("e")], LeafPlans(spec), DoneJob(), LeafSub(spec, 2, 0, 2),
                           Unlocked, Resting(Answered(None)), FirstStored()))
  {
    hide Reachable, EngineOf, FirstStored, DoneJob, Verdict;
    var cfg, sub, plans := ConfigOf(schema, 2), LeafSub(spec, 2, 0, 2), LeafPlans(spec);
    var tasks := map[FIRST := Completed("e")];
    FirstTaskReported(schema, spec);
    FirstTaskIsVerdict();
    var s := Snap(tasks, plans, RunningJob, sub, Syncing("e", None, {"j"}), Resting(Serving), FirstStored());
    JobRead(cfg, s, "j", Some(DoneJob()));
    JobRecorded(cfg, s.(lock := Judged("e", None, {"j"}, "j", tasks.Keys, tasks, Some(DoneJob()))));
    Overwritten("j", RunningJob, DoneJob());
    assert {"j"} - {"j"} == {};
    JobAnswers(schema, 2, tasks, plans, DoneJob(), sub, None, Resting(Serving), FirstStored());
  }

  function DoneTooSoon(spec: Spec): State {
    Snap(map[FIRST := Completed("e"), SECOND := Pending], LeafPlans(spec), DoneJob(), LeafSub(spec, 2, 1, 0),
         Unlocked, Resting(Answered(None)), FirstStored())
  }

  /** A job synchronised while its tasks are still being saved can be recorded as completed; then everything is saved
      and a task of the completed job is still pending. */
  lemma CompletedTooSoon(schema: Schema, spec: Spec)
    ensures
      var s := DoneTooSoon(spec);
      && Reachable(ConfigOf(schema, 2), s) && SaveEnded(s, "j")
      && s.jobs["j"].CompletedJob? && s.tasks[SECOND].Pending?
  {
    hide Reachable, EngineOf, FirstStored;
    var sub, plans := LeafSub(spec, 2, 0, 2), LeafPlans(spec);
    var tasks := map[FIRST := Completed("e")];
    JobCompletes(schema, spec);
    var s := Snap(tasks, plans, DoneJob(), sub, Unlocked, Resting(Answered(None)), FirstStored());
    Saves(ConfigOf(schema, 2), s, "j");
    Overwritten("j", sub, Advance(sub));
    assert tasks[SECOND := Pending] == map[FIRST := Completed("e"), SECOND := Pending];
  }

  // ---- A job whose save loop ends between reading and recording ----

  function InTheGap(spec: Spec): State {
    Snap(map[FIRST := Completed("e"), SECOND := Pending], LeafPlans(spec), RunningJob, LeafSub(spec, 2, 1, 0),
         Judged("e", None, {"j"}, "j", {FIRST}, map[FIRST := Completed("e")], Some(DoneJob())),
         Resting(Serving), FirstStored())
  }

  /** A job can be read while its tasks are still being saved, and recorded as completed after everything is saved. */
  lemma CompletedInTheGap(schema: Schema, spec: Spec)
    ensures
      var cfg, s, step := ConfigOf(schema, 2), InTheGap(spec), SyncJob("j", Some(DoneJob()));
      && Reachable(cfg, s) && SaveEnded(s, "j") && Enabled(cfg, s, step)
      && var s' := Apply(cfg, s, step);
         "j" in s'.jobs && s'.jobs["j"].CompletedJob? && SECOND in s'.tasks && s'.tasks[SECOND].Pending?
  {
    hide Reachable, EngineOf, FirstStored, Verdict, Assignable, SearchOk, Query, ComesTo, ReadOf;
    hide DoSubmit, DoReject, DoStart, DoCut, DoBeginPoll, DoFailPoll, DoFinish;
    var cfg, sub, plans := ConfigOf(schema, 2), LeafSub(spec, 2, 0, 2), LeafPlans(spec);
    var tasks := map[FIRST := Completed("e")];
    assert tasks.Keys == {FIRST};
    FirstTaskReported(schema, spec);
    FirstTaskIsVerdict();
    var s := Snap(tasks, plans, RunningJob, sub, Syncing("e", None, {"j"}), Resting(Serving), FirstStored());
    JobRead(cfg, s, "j", Some(DoneJob()));
    var lock := Judged("e", None, {"j"}, "j", {FIRST}, tasks, Some(DoneJob()));
    Saves(cfg, Snap(tasks, plans, RunningJob, sub, lock, Resting(Serving), FirstStored()), "j");
    Overwritten("j", sub, Advance(sub));
    assert tasks[SECOND := Pending] == map[FIRST := Completed("e"), SECOND := Pending];
  }
}
