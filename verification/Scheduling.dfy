/** What the scheduler decides from the stored task statuses: which task is ready, where its inputs are,
    and how a job is doing. */
module Scheduling {
  import opened Plans
  import opened ShuffleResolution

  datatype Status =
    | Pending
    | Running(executorId: string)
    | Completed(executorId: string)
    | Failed(error: string)

  type Tasks = map<PartitionId, Status>

  datatype StageKey = StageKey(jobId: string, stageId: nat)

  type StagePlans = map<StageKey, Plan>

  type Executors = map<string, ExecutorMeta>

  /** A `TaskStatus` message: which task, and its status. */
  datatype Report = Report(partitionId: PartitionId, status: Status)

  function KeyOf(pid: PartitionId): StageKey {
    StageKey(pid.jobId, pid.stageId)
  }

  // ---- Readiness ----

  /** Every partition the shuffle announces is a stored, completed task. */
  predicate ShuffleReady(tasks: Tasks, jobId: string, u: Plan)
    requires u.UnresolvedShuffle?
  {
    forall k, p: nat | 0 <= k < |u.stageIds| && p < u.partitionCount ::
      var pid := PartitionId(jobId, u.stageIds[k], p);
      pid in tasks && tasks[pid].Completed?
  }

  predicate InputsReady(tasks: Tasks, jobId: string, plan: Plan) {
    forall u <- FindUnresolvedShuffles(plan) :: ShuffleReady(tasks, jobId, u)
  }

  predicate Ready(tasks: Tasks, plans: StagePlans, pid: PartitionId) {
    && pid in tasks && tasks[pid].Pending?
    && KeyOf(pid) in plans && InputsReady(tasks, pid.jobId, plans[KeyOf(pid)])
  }

  // ---- Collecting the locations of a task's inputs ----

  predicate Done(tasks: Tasks, executors: Executors, pid: PartitionId) {
    pid in tasks && tasks[pid].Completed? && tasks[pid].executorId in executors
  }

  /** Where a finished task left its output; the scheduler never asks about any other task. */
  function LocationOf(tasks: Tasks, executors: Executors, pid: PartitionId): (l: PartitionLocation)
    ensures l.partitionId == pid
    ensures Done(tasks, executors, pid) ==> l.executorMeta == executors[tasks[pid].executorId]
  {
    PartitionLocation(pid,
      if Done(tasks, executors, pid) then executors[tasks[pid].executorId] else ExecutorMeta("", "", 0))
  }

  function StageLocations(tasks: Tasks, executors: Executors, jobId: string, id: nat,
                          count: nat): seq<PartitionLocation>
  {
    seq(count, p requires p >= 0 => LocationOf(tasks, executors, PartitionId(jobId, id, p)))
  }

  /** `entry(id).or_insert(vec![])` followed by pushes; without a push there is no entry. */
  function Push(locs: Locations, id: nat, more: seq<PartitionLocation>): Locations {
    if more == [] then locs else locs[id := (if id in locs then locs[id] else []) + more]
  }

  function CollectIds(tasks: Tasks, executors: Executors, jobId: string, ids: seq<nat>, count: nat,
                      locs: Locations): Locations
  {
    if ids == [] then locs
    else
      var id := ids[|ids| - 1];
      Push(CollectIds(tasks, executors, jobId, ids[..|ids| - 1], count, locs), id,
           StageLocations(tasks, executors, jobId, id, count))
  }

  function Collect(tasks: Tasks, executors: Executors, jobId: string, shuffles: seq<Plan>): Locations
    requires forall u <- shuffles :: u.UnresolvedShuffle?
  {
    if shuffles == [] then map[]
    else
      var u := shuffles[|shuffles| - 1];
      CollectIds(tasks, executors, jobId, u.stageIds, u.partitionCount,
                 Collect(tasks, executors, jobId, shuffles[..|shuffles| - 1]))
  }

  lemma {:induction false} CollectIdsKeys(tasks: Tasks, executors: Executors, jobId: string, ids: seq<nat>, count: nat,
                                          locs: Locations, id: nat)
    ensures id in CollectIds(tasks, executors, jobId, ids, count, locs) <==> id in locs || (id in ids && count > 0)
  {
    if ids != [] {
      CollectIdsKeys(tasks, executors, jobId, ids[..|ids| - 1], count, locs, id);
      assert ids == ids[..|ids| - 1] + [ids[|ids| - 1]];
    }
  }

  /** Some shuffle that announces a partition names stage `id`. */
  predicate Announced(us: seq<Plan>, id: nat)
    requires forall u <- us :: u.UnresolvedShuffle?
  {
    exists k | 0 <= k < |us| :: id in us[k].stageIds && us[k].partitionCount > 0
  }

  /** Exactly the announced stages get locations. */
  lemma {:induction false} CollectKeys(tasks: Tasks, executors: Executors, jobId: string, shuffles: seq<Plan>, id: nat)
    requires forall u <- shuffles :: u.UnresolvedShuffle?
    ensures id in Collect(tasks, executors, jobId, shuffles) <==> Announced(shuffles, id)
  {
    if shuffles != [] {
      var init := shuffles[..|shuffles| - 1];
      var u := shuffles[|shuffles| - 1];
      CollectKeys(tasks, executors, jobId, init, id);
      CollectIdsKeys(tasks, executors, jobId, u.stageIds, u.partitionCount, Collect(tasks, executors, jobId, init), id);
      assert forall k | 0 <= k < |init| :: init[k] == shuffles[k];
    }
  }

  /** When can the scheduler resolve a task whose inputs are ready? Exactly when every stage the plan reads
      is announced with at least one partition: a shuffle of no partitions gets no locations at all. */
  lemma ResolvableWhenPopulated(tasks: Tasks, executors: Executors, jobId: string, p: Plan)
    requires p.Operator? && ReaderFree(p)
    ensures
      var us := FindUnresolvedShuffles(p);
      (Resolve(Collect(tasks, executors, jobId, us), p).Some? <==>
       forall u <- us :: forall k | 0 <= k < |u.stageIds| :: Announced(us, u.stageIds[k]))
  {
    var us := FindUnresolvedShuffles(p);
    var locs := Collect(tasks, executors, jobId, us);
    ResolveSucceeds(locs, p);
    forall n: nat ensures n in locs <==> Announced(us, n) {
      CollectKeys(tasks, executors, jobId, us, n);
    }
    assert forall u <- us :: LocatedIn(locs, u) <==> forall k | 0 <= k < |u.stageIds| :: Announced(us, u.stageIds[k]);
  }

  /** For an operator over a single shuffle: the scheduler can resolve it if and only if the shuffle
      announces a partition. */
  lemma OneShuffleResolvable(tasks: Tasks, executors: Executors, jobId: string, op: Op, u: Plan)
    requires u.UnresolvedShuffle? && |u.stageIds| == 1
    ensures
      var p := Operator(op, [u]);
      Resolve(Collect(tasks, executors, jobId, FindUnresolvedShuffles(p)), p).Some? <==> u.partitionCount > 0
  {
    hide Resolve, Collect;
    var p := Operator(op, [u]);
    FindOne(op, u);
    ResolvableWhenPopulated(tasks, executors, jobId, p);
    assert [u][0] == u && u.stageIds[0] in u.stageIds;
    assert Announced([u], u.stageIds[0]) <==> u.partitionCount > 0;
  }

  lemma FindOne(op: Op, u: Plan)
    requires u.UnresolvedShuffle?
    ensures FindUnresolvedShuffles(Operator(op, [u])) == [u]
  {
    assert [u][..0] == [];
    assert FindAll([u]) == FindAll([u][..0]) + FindUnresolvedShuffles(u);
  }

  /** The counterexample: a ready task over a stage of no partitions that the scheduler cannot resolve. */
  lemma EmptyShuffleUnresolvable(spec: Spec, schema: Schema)
    ensures
      var p := Operator(Other(spec), [UnresolvedShuffle([1], schema, 0)]);
      && InputsReady(map[], "job", p)
      && Resolve(Collect(map[], map[], "job", FindUnresolvedShuffles(p)), p).None?
  {
    var u := UnresolvedShuffle([1], schema, 0);
    FindOne(Other(spec), u);
    OneShuffleResolvable(map[], map[], "job", Other(spec), u);
  }

  /** Shuffles as the planner makes them: one stage each, no stage twice, no empty stage. */
  predicate SimpleShuffles(us: seq<Plan>) {
    && (forall i | 0 <= i < |us| :: us[i].UnresolvedShuffle? && |us[i].stageIds| == 1 && us[i].partitionCount > 0)
    && (forall i, j | 0 <= i < j < |us| :: us[i].stageIds[0] != us[j].stageIds[0])
  }

  /** On such shuffles the collected locations are the stages' own, in partition order. */
  lemma {:induction false} CollectSimple(tasks: Tasks, executors: Executors, jobId: string, us: seq<Plan>, k: nat)
    requires SimpleShuffles(us) && k < |us|
    ensures
      var id := us[k].stageIds[0];
      var locs := Collect(tasks, executors, jobId, us);
      id in locs && locs[id] == StageLocations(tasks, executors, jobId, id, us[k].partitionCount)
  {
    var init := us[..|us| - 1];
    var u := us[|us| - 1];
    var id := u.stageIds[0];
    var before := Collect(tasks, executors, jobId, init);
    assert u.stageIds == [id];
    assert CollectIds(tasks, executors, jobId, [id], u.partitionCount, before)
        == Push(CollectIds(tasks, executors, jobId, [], u.partitionCount, before), id,
                StageLocations(tasks, executors, jobId, id, u.partitionCount));
    if k < |us| - 1 {
      CollectSimple(tasks, executors, jobId, init, k);
    } else {
      CollectKeys(tasks, executors, jobId, init, id);
      assert forall i | 0 <= i < |init| :: init[i].stageIds == [us[i].stageIds[0]];
      assert id !in before;
    }
  }

  /** Resolution only looks at the stages the plan names. */
  lemma {:induction false} ResolveAgrees(a: Locations, b: Locations, p: Plan)
    requires forall u <- FindUnresolvedShuffles(p) :: Locate(a, u.stageIds) == Locate(b, u.stageIds)
    ensures ResolveChild(a, p) == ResolveChild(b, p)
    decreases p
  {
    match p
    case UnresolvedShuffle(_, _, _) =>
      assert p in FindUnresolvedShuffles(p);
    case Operator(op, cs) =>
      forall i | 0 <= i < |cs| ensures ResolveChild(a, cs[i]) == ResolveChild(b, cs[i]) {
        forall u | u in FindUnresolvedShuffles(cs[i]) ensures Locate(a, u.stageIds) == Locate(b, u.stageIds) {
          FoundInChild(cs, u);
        }
        ResolveAgrees(a, b, cs[i]);
      }
      if forall i | 0 <= i < |cs| :: ResolveChild(a, cs[i]).Some? {
        assert seq(|cs|, i requires 0 <= i < |cs| => ResolveChild(a, cs[i]).value)
            == seq(|cs|, i requires 0 <= i < |cs| => ResolveChild(b, cs[i]).value);
      }
    case ShuffleReader(_, _) =>
  }

  lemma LocateOne(locs: Locations, ids: seq<nat>)
    requires |ids| == 1
    ensures Locate(locs, ids) == if ids[0] in locs then Some(locs[ids[0]]) else None
  {
    assert ids[..0] == [];
    if ids[0] in locs {
      assert [] + locs[ids[0]] == locs[ids[0]];
    }
  }

  // ---- What a search looks up ----

  function StageInputs(jobId: string, id: nat, count: nat): seq<PartitionId> {
    seq(count, p requires p >= 0 => PartitionId(jobId, id, p))
  }

  function IdInputs(jobId: string, ids: seq<nat>, count: nat): seq<PartitionId> {
    if ids == [] then []
    else IdInputs(jobId, ids[..|ids| - 1], count) + StageInputs(jobId, ids[|ids| - 1], count)
  }

  /** The tasks a search looks up for the shuffles of a plan, in this order. */
  function Inputs(jobId: string, shuffles: seq<Plan>): seq<PartitionId>
    requires forall u <- shuffles :: u.UnresolvedShuffle?
  {
    if shuffles == [] then []
    else
      var u := shuffles[|shuffles| - 1];
      Inputs(jobId, shuffles[..|shuffles| - 1]) + IdInputs(jobId, u.stageIds, u.partitionCount)
  }

  predicate IsCompletedTask(tasks: Tasks, pid: PartitionId) {
    pid in tasks && tasks[pid].Completed?
  }

  /** The task can be looked up, and so can the executor that completed it. */
  predicate LookupOk(tasks: Tasks, executors: Executors, pid: PartitionId) {
    pid in tasks && (tasks[pid].Completed? ==> tasks[pid].executorId in executors)
  }

  /** The look-ups up to here find completed tasks. */
  predicate DoneBefore(tasks: Tasks, executors: Executors, inputs: seq<PartitionId>, n: nat)
    requires n <= |inputs|
  {
    forall k | 0 <= k < n :: Done(tasks, executors, inputs[k])
  }

  predicate AllDone(tasks: Tasks, executors: Executors, inputs: seq<PartitionId>) {
    DoneBefore(tasks, executors, inputs, |inputs|)
  }

  /** The first look-up that does not find a completed task finds nothing, or not the executor. */
  predicate Breaks(tasks: Tasks, executors: Executors, inputs: seq<PartitionId>) {
    exists n | 0 <= n < |inputs| :: !LookupOk(tasks, executors, inputs[n]) && DoneBefore(tasks, executors, inputs, n)
  }

  /** ... or finds a task that is not completed: whatever comes after it is not looked up. */
  predicate Waits(tasks: Tasks, executors: Executors, inputs: seq<PartitionId>) {
    exists n | 0 <= n < |inputs| ::
      && inputs[n] in tasks && !tasks[inputs[n]].Completed?
      && DoneBefore(tasks, executors, inputs, n)
  }

  lemma DoneKinds(tasks: Tasks, executors: Executors, pid: PartitionId)
    ensures Done(tasks, executors, pid) <==> LookupOk(tasks, executors, pid) && IsCompletedTask(tasks, pid)
  {
  }

  /** The first look-up that does not find a completed task decides. */
  lemma FirstDecides(tasks: Tasks, executors: Executors, inputs: seq<PartitionId>, n: nat)
    requires n < |inputs| && DoneBefore(tasks, executors, inputs, n)
    ensures !Done(tasks, executors, inputs[n]) ==>
      && !AllDone(tasks, executors, inputs)
      && (Breaks(tasks, executors, inputs) <==> !LookupOk(tasks, executors, inputs[n]))
      && (Waits(tasks, executors, inputs) <==> inputs[n] in tasks && !tasks[inputs[n]].Completed?)
    ensures Done(tasks, executors, inputs[n]) ==> DoneBefore(tasks, executors, inputs, n + 1)
  {
    if !Done(tasks, executors, inputs[n]) {
      forall m | 0 <= m < |inputs| && DoneBefore(tasks, executors, inputs, m) ensures m <= n {
      }
    }
  }

  lemma AllDoneDecides(tasks: Tasks, executors: Executors, inputs: seq<PartitionId>)
    requires AllDone(tasks, executors, inputs)
    ensures !Breaks(tasks, executors, inputs) && !Waits(tasks, executors, inputs)
  {
  }

  /** Every series of look-ups ends in one of three ways. */
  lemma {:induction false} LookupsEnd(tasks: Tasks, executors: Executors, inputs: seq<PartitionId>, n: nat)
    requires n <= |inputs| && DoneBefore(tasks, executors, inputs, n)
    ensures AllDone(tasks, executors, inputs) || Breaks(tasks, executors, inputs) || Waits(tasks, executors, inputs)
    ensures !(Breaks(tasks, executors, inputs) && Waits(tasks, executors, inputs))
    decreases |inputs| - n
  {
    if n < |inputs| {
      FirstDecides(tasks, executors, inputs, n);
      if Done(tasks, executors, inputs[n]) {
        LookupsEnd(tasks, executors, inputs, n + 1);
      }
    } else {
      AllDoneDecides(tasks, executors, inputs);
    }
  }

  /** Looking up one list after another. */
  lemma LookupsInTurn(tasks: Tasks, executors: Executors, a: seq<PartitionId>, b: seq<PartitionId>)
    ensures AllDone(tasks, executors, a + b) <==> AllDone(tasks, executors, a) && AllDone(tasks, executors, b)
    ensures Breaks(tasks, executors, a + b) <==>
      Breaks(tasks, executors, a) || (AllDone(tasks, executors, a) && Breaks(tasks, executors, b))
    ensures Waits(tasks, executors, a + b) <==>
      Waits(tasks, executors, a) || (AllDone(tasks, executors, a) && Waits(tasks, executors, b))
  {
    hide Done, LookupOk;
    forall n | 0 <= n <= |a| ensures DoneBefore(tasks, executors, a + b, n) <==> DoneBefore(tasks, executors, a, n) {
      assert forall k | 0 <= k < n :: (a + b)[k] == a[k];
    }
    forall n | 0 <= n <= |b|
      ensures DoneBefore(tasks, executors, a + b, |a| + n)
         <==> AllDone(tasks, executors, a) && DoneBefore(tasks, executors, b, n)
    {
      assert forall k | 0 <= k < |a| :: (a + b)[k] == a[k];
      assert forall k | 0 <= k < n :: (a + b)[|a| + k] == b[k];
    }
  }

  /** A task is looked up if and only if one of the shuffles announces it. */
  predicate IsInput(jobId: string, shuffles: seq<Plan>, pid: PartitionId)
    requires forall u <- shuffles :: u.UnresolvedShuffle?
  {
    && pid.jobId == jobId
    && exists n | 0 <= n < |shuffles| :: AnnouncedBy(shuffles[n], pid)
  }

  predicate AnnouncedBy(u: Plan, pid: PartitionId)
    requires u.UnresolvedShuffle?
  {
    pid.stageId in u.stageIds && pid.partitionId < u.partitionCount
  }

  lemma {:induction false} IdInputsAre(jobId: string, ids: seq<nat>, count: nat, pid: PartitionId)
    ensures pid in IdInputs(jobId, ids, count) <==>
      pid.jobId == jobId && pid.stageId in ids && pid.partitionId < count
  {
    if ids != [] {
      var id := ids[|ids| - 1];
      IdInputsAre(jobId, ids[..|ids| - 1], count, pid);
      assert ids == ids[..|ids| - 1] + [id];
      if pid.jobId == jobId && pid.stageId == id && pid.partitionId < count {
        assert StageInputs(jobId, id, count)[pid.partitionId] == pid;
      }
    }
  }

  lemma {:induction false} InputsAre(jobId: string, shuffles: seq<Plan>, pid: PartitionId)
    requires forall u <- shuffles :: u.UnresolvedShuffle?
    ensures pid in Inputs(jobId, shuffles) <==> IsInput(jobId, shuffles, pid)
  {
    if shuffles != [] {
      var init, u := shuffles[..|shuffles| - 1], shuffles[|shuffles| - 1];
      InputsAre(jobId, init, pid);
      IdInputsAre(jobId, u.stageIds, u.partitionCount, pid);
      assert forall n | 0 <= n < |init| :: init[n] == shuffles[n];
    }
  }

  predicate CompletedInputs(tasks: Tasks, inputs: seq<PartitionId>) {
    forall k | 0 <= k < |inputs| :: IsCompletedTask(tasks, inputs[k])
  }

  /** The inputs are ready if and only if all look-ups find completed tasks. */
  lemma ReadyInputs(tasks: Tasks, jobId: string, plan: Plan)
    ensures InputsReady(tasks, jobId, plan) <==>
      CompletedInputs(tasks, Inputs(jobId, FindUnresolvedShuffles(plan)))
  {
    hide FindUnresolvedShuffles;
    var us := FindUnresolvedShuffles(plan);
    var inputs := Inputs(jobId, us);
    if InputsReady(tasks, jobId, plan) {
      forall k | 0 <= k < |inputs| ensures IsCompletedTask(tasks, inputs[k]) {
        InputsAre(jobId, us, inputs[k]);
        var n :| 0 <= n < |us| && AnnouncedBy(us[n], inputs[k]);
        assert ShuffleReady(tasks, jobId, us[n]);
        var i :| 0 <= i < |us[n].stageIds| && us[n].stageIds[i] == inputs[k].stageId;
        assert PartitionId(jobId, us[n].stageIds[i], inputs[k].partitionId) == inputs[k];
      }
    }
    if CompletedInputs(tasks, inputs) {
      forall u | u in us ensures ShuffleReady(tasks, jobId, u) {
        forall i, p: nat | 0 <= i < |u.stageIds| && p < u.partitionCount
          ensures IsCompletedTask(tasks, PartitionId(jobId, u.stageIds[i], p))
        {
          var pid := PartitionId(jobId, u.stageIds[i], p);
          var n :| 0 <= n < |us| && us[n] == u;
          assert AnnouncedBy(us[n], pid);
          InputsAre(jobId, us, pid);
          assert IsInput(jobId, us, pid);
          var k :| 0 <= k < |inputs| && inputs[k] == pid;
          assert IsCompletedTask(tasks, inputs[k]);
        }
        ReadyShuffle(tasks, jobId, u);
      }
    }
  }

  lemma ReadyShuffle(tasks: Tasks, jobId: string, u: Plan)
    requires u.UnresolvedShuffle?
    requires forall i, p: nat | 0 <= i < |u.stageIds| && p < u.partitionCount ::
      IsCompletedTask(tasks, PartitionId(jobId, u.stageIds[i], p))
    ensures ShuffleReady(tasks, jobId, u)
  {
    forall i, p: nat | 0 <= i < |u.stageIds| && p < u.partitionCount
      ensures PartitionId(jobId, u.stageIds[i], p) in tasks && tasks[PartitionId(jobId, u.stageIds[i], p)].Completed?
    {
      assert IsCompletedTask(tasks, PartitionId(jobId, u.stageIds[i], p));
    }
  }

  // ---- The outcome of a search for work ----

  /** A `TaskDefinition`: a task and the resolved plan to run for it. */
  datatype Task = Task(id: PartitionId, plan: Plan)

  function InputsOf(plans: StagePlans, pid: PartitionId): seq<PartitionId>
    requires KeyOf(pid) in plans
  {
    Inputs(pid.jobId, FindUnresolvedShuffles(plans[KeyOf(pid)]))
  }

  function ResolvedPlan(tasks: Tasks, plans: StagePlans, executors: Executors, pid: PartitionId): Option<Plan>
    requires KeyOf(pid) in plans
  {
    var plan := plans[KeyOf(pid)];
    Resolve(Collect(tasks, executors, pid.jobId, FindUnresolvedShuffles(plan)), plan)
  }

  /** What comes of looking at one task: nothing, the task to hand out, or the end of the search. */
  function Probe(tasks: Tasks, plans: StagePlans, executors: Executors, pid: PartitionId): Outcome<Option<Task>>
    requires pid in tasks
  {
    if !tasks[pid].Pending? then Ok(None)
    else if KeyOf(pid) !in plans then Err
    else if Breaks(tasks, executors, InputsOf(plans, pid)) then Panic
    else if !AllDone(tasks, executors, InputsOf(plans, pid)) then Ok(None)
    else
      match ResolvedPlan(tasks, plans, executors, pid)
      case None => Err
      case Some(plan) => Ok(Some(Task(pid, plan)))
  }

  /** `assign_next_schedulable_task`, up to the status it saves: the first task in the given order that there is
      something to say about decides. */
  function SearchIn(tasks: Tasks, plans: StagePlans, executors: Executors, order: seq<PartitionId>)
    : Outcome<Option<Task>>
    requires forall i | 0 <= i < |order| :: order[i] in tasks
  {
    if order == [] then Ok(None)
    else
      var first := Probe(tasks, plans, executors, order[0]);
      if first == Ok(None) then SearchIn(tasks, plans, executors, order[1..]) else first
  }

  /** The order of a hash map can be any: each task once. */
  ghost predicate IsOrder(tasks: Tasks, order: seq<PartitionId>) {
    && (forall i | 0 <= i < |order| :: order[i] in tasks)
    && (forall i, j | 0 <= i < j < |order| :: order[i] != order[j])
    && forall pid | pid in tasks :: pid in order
  }

  /** The search ends like this for some order of the tasks. */
  ghost predicate CanEnd(tasks: Tasks, plans: StagePlans, executors: Executors, r: Outcome<Option<Task>>) {
    exists order :: IsOrder(tasks, order) && SearchIn(tasks, plans, executors, order) == r
  }

  /** What a search may return: a task that is found, or nothing if there is nothing to say about any task. */
  predicate Assignable(tasks: Tasks, plans: StagePlans, executors: Executors, r: Option<Task>) {
    match r
    case None => forall pid | pid in tasks :: Probe(tasks, plans, executors, pid) == Ok(None)
    case Some(t) => t.id in tasks && Probe(tasks, plans, executors, t.id) == Ok(Some(t))
  }

  /** No task ends the search. */
  predicate SearchOk(tasks: Tasks, plans: StagePlans, executors: Executors) {
    forall pid | pid in tasks :: Probe(tasks, plans, executors, pid).Ok?
  }

  lemma {:induction false} SearchEnds(tasks: Tasks, plans: StagePlans, executors: Executors, order: seq<PartitionId>)
    requires forall i | 0 <= i < |order| :: order[i] in tasks
    ensures
      var r := SearchIn(tasks, plans, executors, order);
      if r == Ok(None) then forall i | 0 <= i < |order| :: Probe(tasks, plans, executors, order[i]) == Ok(None)
      else exists i | 0 <= i < |order| :: Probe(tasks, plans, executors, order[i]) == r
  {
    hide Probe;
    if order != [] {
      var rest := order[1..];
      assert forall i | 0 <= i < |rest| :: rest[i] == order[i + 1];
      SearchEnds(tasks, plans, executors, rest);
      assert forall i | 1 <= i < |order| :: order[i] == rest[i - 1];
    }
  }

  lemma {:induction false} AnyOrder(tasks: Tasks, keys: set<PartitionId>) returns (order: seq<PartitionId>)
    requires keys <= tasks.Keys
    ensures forall i | 0 <= i < |order| :: order[i] in keys
    ensures forall i, j | 0 <= i < j < |order| :: order[i] != order[j]
    ensures forall pid | pid in keys :: pid in order
    decreases keys
  {
    order := [];
    if keys != {} {
      var pid :| pid in keys;
      order := AnyOrder(tasks, keys - {pid});
      order := order + [pid];
    }
  }

  /** An order that begins with a given task. */
  lemma OrderFrom(tasks: Tasks, pid: PartitionId) returns (order: seq<PartitionId>)
    requires pid in tasks
    ensures IsOrder(tasks, order) && order != [] && order[0] == pid
  {
    var rest := AnyOrder(tasks, tasks.Keys - {pid});
    order := [pid] + rest;
  }

  lemma ProbeDecides(tasks: Tasks, plans: StagePlans, executors: Executors, pid: PartitionId)
    requires pid in tasks && Probe(tasks, plans, executors, pid) != Ok(None)
    ensures CanEnd(tasks, plans, executors, Probe(tasks, plans, executors, pid))
  {
    hide Probe;
    var order := OrderFrom(tasks, pid);
    assert SearchIn(tasks, plans, executors, order) == Probe(tasks, plans, executors, pid);
  }

  lemma ProbeIsOwn(tasks: Tasks, plans: StagePlans, executors: Executors, pid: PartitionId)
    requires pid in tasks && Probe(tasks, plans, executors, pid).Ok?
    requires Probe(tasks, plans, executors, pid).value.Some?
    ensures Probe(tasks, plans, executors, pid).value.value.id == pid
  {
  }

  lemma NotPending(tasks: Tasks, plans: StagePlans, executors: Executors, pid: PartitionId)
    requires pid in tasks && !tasks[pid].Pending?
    ensures Probe(tasks, plans, executors, pid) == Ok(None)
  {
  }

  /** A search can return exactly what is assignable... */
  lemma SearchReturns(tasks: Tasks, plans: StagePlans, executors: Executors, task: Option<Task>)
    ensures CanEnd(tasks, plans, executors, Ok(task)) <==> Assignable(tasks, plans, executors, task)
  {
    hide Probe, SearchIn;
    if CanEnd(tasks, plans, executors, Ok(task)) {
      var order :| IsOrder(tasks, order) && SearchIn(tasks, plans, executors, order) == Ok(task);
      SearchEnds(tasks, plans, executors, order);
      if task.Some? {
        var i :| 0 <= i < |order| && Probe(tasks, plans, executors, order[i]) == Ok(task);
        ProbeIsOwn(tasks, plans, executors, order[i]);
      }
    }
    if Assignable(tasks, plans, executors, task) {
      if task.Some? {
        ProbeDecides(tasks, plans, executors, task.value.id);
      } else {
        var order := AnyOrder(tasks, tasks.Keys);
        SearchEnds(tasks, plans, executors, order);
        assert IsOrder(tasks, order);
      }
    }
  }

  /** ... and can fail exactly if some task ends it. */
  lemma SearchFails(tasks: Tasks, plans: StagePlans, executors: Executors)
    ensures CanEnd(tasks, plans, executors, Err) || CanEnd(tasks, plans, executors, Panic) <==>
      !SearchOk(tasks, plans, executors)
  {
    hide Probe, SearchIn;
    forall r: Outcome<Option<Task>> | !r.Ok? && CanEnd(tasks, plans, executors, r)
      ensures !SearchOk(tasks, plans, executors)
    {
      var order :| IsOrder(tasks, order) && SearchIn(tasks, plans, executors, order) == r;
      SearchEnds(tasks, plans, executors, order);
    }
    if !SearchOk(tasks, plans, executors) {
      var pid :| pid in tasks && !Probe(tasks, plans, executors, pid).Ok?;
      ProbeDecides(tasks, plans, executors, pid);
    }
  }

  /** However a search ends, it ends as it may. */
  lemma SearchEndsWell(tasks: Tasks, plans: StagePlans, executors: Executors, order: seq<PartitionId>)
    requires IsOrder(tasks, order)
    ensures
      var r := SearchIn(tasks, plans, executors, order);
      && (r.Ok? ==> Assignable(tasks, plans, executors, r.value))
      && (!r.Ok? ==> !SearchOk(tasks, plans, executors))
  {
    hide Assignable, SearchOk, SearchIn;
    var r := SearchIn(tasks, plans, executors, order);
    assert CanEnd(tasks, plans, executors, r);
    SearchFails(tasks, plans, executors);
    if r.Ok? {
      SearchReturns(tasks, plans, executors, r.value);
    }
  }

  /** A pending task is passed over if and only if the first of its inputs that is not completed is there. */
  lemma PassedOver(tasks: Tasks, plans: StagePlans, executors: Executors, pid: PartitionId)
    requires pid in tasks && tasks[pid].Pending? && KeyOf(pid) in plans
    ensures Probe(tasks, plans, executors, pid) == Ok(None) <==> Waits(tasks, executors, InputsOf(plans, pid))
  {
    hide InputsOf, ResolvedPlan, Breaks, Waits;
    var inputs := InputsOf(plans, pid);
    LookupsEnd(tasks, executors, inputs, 0);
    if AllDone(tasks, executors, inputs) {
      AllDoneDecides(tasks, executors, inputs);
    }
  }

  /** A task that is found is ready, and comes with its resolved plan. */
  lemma FoundIsReady(tasks: Tasks, plans: StagePlans, executors: Executors, t: Task)
    requires Assignable(tasks, plans, executors, Some(t))
    ensures Ready(tasks, plans, t.id) && ResolvedPlan(tasks, plans, executors, t.id) == Some(t.plan)
  {
    hide ResolvedPlan, InputsReady;
    ReadyInputs(tasks, t.id.jobId, plans[KeyOf(t.id)]);
  }

  /** A ready task whose inputs' executors are known, and whose plan resolves, is found. */
  lemma ReadyIsFound(tasks: Tasks, plans: StagePlans, executors: Executors, pid: PartitionId)
    requires Ready(tasks, plans, pid) && ResolvedPlan(tasks, plans, executors, pid).Some?
    requires forall q | q in tasks && tasks[q].Completed? :: tasks[q].executorId in executors
    ensures Probe(tasks, plans, executors, pid)
         == Ok(Some(Task(pid, ResolvedPlan(tasks, plans, executors, pid).value)))
  {
    hide ResolvedPlan, InputsReady;
    var inputs := Inputs(pid.jobId, FindUnresolvedShuffles(plans[KeyOf(pid)]));
    assert inputs == InputsOf(plans, pid);
    ReadyInputs(tasks, pid.jobId, plans[KeyOf(pid)]);
    forall k | 0 <= k < |inputs| ensures Done(tasks, executors, inputs[k]) {
      assert IsCompletedTask(tasks, inputs[k]);
    }
  }

  /** Some of the tasks, with their statuses. */
  ghost predicate PartOf(kvs: Tasks, tasks: Tasks) {
    forall pid | pid in kvs :: pid in tasks && tasks[pid] == kvs[pid]
  }

  // ---- The status of a job ----

  datatype JobLocation = JobLocation(partitionId: PartitionId, executorMeta: Option<ExecutorMeta>)

  datatype JobStatus =
    | Queued
    | RunningJob
    | CompletedJob(locations: seq<JobLocation>)
    | FailedJob(error: string)

  predicate OfJob(tasks: Tasks, jobId: string, pid: PartitionId) {
    pid in tasks && pid.jobId == jobId
  }

  predicate AllCompleted(tasks: Tasks, jobId: string) {
    forall pid | pid in tasks :: pid.jobId == jobId ==> tasks[pid].Completed?
  }

  /** One location for each task of the job - of *every* stage, not just the last. */
  predicate ListsJob(tasks: Tasks, executors: Executors, jobId: string, ls: seq<JobLocation>) {
    && (forall pid | pid in tasks && pid.jobId == jobId :: exists i | 0 <= i < |ls| :: ls[i].partitionId == pid)
    && (forall i, j | 0 <= i < j < |ls| :: ls[i].partitionId != ls[j].partitionId)
    && (forall i | 0 <= i < |ls| ::
         && OfJob(tasks, jobId, ls[i].partitionId) && tasks[ls[i].partitionId].Completed?
         && var e := tasks[ls[i].partitionId].executorId;
            ls[i].executorMeta == if e in executors then Some(executors[e]) else None)
  }

  /** What the stored tasks say about a job; `None` leaves the job's status as it is. */
  predicate Verdict(tasks: Tasks, executors: Executors, jobId: string, v: Option<JobStatus>) {
    if forall pid | pid in tasks :: pid.jobId != jobId then v == None
    else if AllCompleted(tasks, jobId) then
      v.Some? && v.value.CompletedJob? && ListsJob(tasks, executors, jobId, v.value.locations)
    else if exists pid | pid in tasks :: pid.jobId == jobId && tasks[pid].Failed? then
      && v.Some? && v.value.FailedJob?
      && exists pid | pid in tasks :: pid.jobId == jobId && tasks[pid] == Failed(v.value.error)
    else if exists pid | pid in tasks :: pid.jobId == jobId && tasks[pid].Running? then
      v == Some(RunningJob)
    else v == None
  }
}
