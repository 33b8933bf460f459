/** `SchedulerState`: the scheduler's operations on the key-value store, proved against the typed state it stands
    for. */
module StateOperations {
  import opened Plans
  import opened ShuffleResolution
  import opened Scheduling
  import opened Keys
  import opened KeyValueStore
  import opened JobStatuses

  /** Executors are stored under their own ids. */
  predicate GoodView(view: View) {
    forall id | id in view.executors :: view.executors[id].id == id
  }

  // ---- Looking for a task ----

  /** All tasks of the namespace as the scan has left them in a hash map. */
  ghost predicate Fetched(ns: string, view: View, kvs: map<string, Value>) {
    && (forall key | key in kvs :: TaskEntry(ns, view, (key, kvs[key])))
    && (forall pid | pid in view.tasks :: SlashFree(pid.jobId) && Render(TaskKey(ns, pid)) in kvs)
  }

  /** A look-up by string key finds the task, if there is one. */
  lemma LookUp(ns: string, view: View, kvs: map<string, Value>, pid: PartitionId)
    requires Fetched(ns, view, kvs) && SlashFree(ns) && SlashFree(pid.jobId)
    ensures Render(TaskKey(ns, pid)) in kvs <==> pid in view.tasks
    ensures pid in view.tasks ==> kvs[Render(TaskKey(ns, pid))] == TaskValue(Report(pid, view.tasks[pid]))
  {
    hide Render;
    var key := Render(TaskKey(ns, pid));
    if key in kvs {
      assert TaskEntry(ns, view, (key, kvs[key]));
      KeysInjective(TaskKey(ns, pid), TaskKey(ns, kvs[key].report.partitionId));
    }
  }

  /** The metadata of all executors. */
  ghost predicate Metas(executors: Executors, metas: seq<ExecutorMeta>) {
    && (forall i | 0 <= i < |metas| :: metas[i].id in executors && executors[metas[i].id] == metas[i])
    && (forall id | id in executors :: exists i | 0 <= i < |metas| :: metas[i].id == id)
  }

  /** `executors.iter().find(...)`. */
  method FindExecutor(metas: seq<ExecutorMeta>, id: string) returns (r: Option<ExecutorMeta>)
    ensures r.Some? ==> r.value.id == id && r.value in metas
    ensures r.None? ==> forall i | 0 <= i < |metas| :: metas[i].id != id
  {
    for i := 0 to |metas|
      invariant forall k | 0 <= k < i :: metas[k].id != id
    {
      if metas[i].id == id {
        return Some(metas[i]);
      }
    }
    r := None;
  }

  /** The locations of one stage. The first task that is not completed decides: `Ok(None)` if it is there, a panic if it
      is not, or if the executor that completed it is not known. */
  method CollectPartitions(ns: string, jobId: string, id: nat, count: nat, kvs: map<string, Value>,
                           metas: seq<ExecutorMeta>, locs: Locations, ghost view: View)
    returns (r: Outcome<Option<Locations>>)
    requires SlashFree(ns) && SlashFree(jobId) && Fetched(ns, view, kvs) && Metas(view.executors, metas)
    ensures
      var inputs := StageInputs(jobId, id, count);
      && !r.Err?
      && (r.Panic? <==> Breaks(view.tasks, view.executors, inputs))
      && (r == Ok(None) <==> Waits(view.tasks, view.executors, inputs))
      && (r.Ok? && r.value.Some? <==> AllDone(view.tasks, view.executors, inputs))
      && (r.Ok? && r.value.Some? ==>
          r.value.value == Push(locs, id, StageLocations(view.tasks, view.executors, jobId, id, count)))
  {
    hide Render, Fetched;
    ghost var inputs := StageInputs(jobId, id, count);
    var partitionLocations := locs;
    for p := 0 to count
      invariant DoneBefore(view.tasks, view.executors, inputs, p)
      invariant partitionLocations == Push(locs, id, StageLocations(view.tasks, view.executors, jobId, id, p))
    {
      var pid := PartitionId(jobId, id, p);
      assert inputs[p] == pid;
      LookUp(ns, view, kvs, pid);
      FirstDecides(view.tasks, view.executors, inputs, p);
      var key := Render(TaskKey(ns, pid));
      if key !in kvs {
        return Panic;
      }
      var referenced := kvs[key].report;
      if !referenced.status.Completed? {
        return Ok(None);
      }
      var meta := FindExecutor(metas, referenced.status.executorId);
      if meta.None? {
        return Panic;
      }
      assert PartitionLocation(pid, meta.value) == LocationOf(view.tasks, view.executors, pid);
      StageLocationsStep(view.tasks, view.executors, jobId, id, p);
      PushTwice(locs, id, StageLocations(view.tasks, view.executors, jobId, id, p), PartitionLocation(pid, meta.value));
      partitionLocations := Push(partitionLocations, id, [PartitionLocation(pid, meta.value)]);
    }
    AllDoneDecides(view.tasks, view.executors, inputs);
    r := Ok(Some(partitionLocations));
  }

  lemma PushTwice(locs: Locations, id: nat, more: seq<PartitionLocation>, l: PartitionLocation)
    ensures Push(Push(locs, id, more), id, [l]) == Push(locs, id, more + [l])
  {
    var had := if id in locs then locs[id] else [];
    if more == [] {
      assert more + [l] == [l];
    } else {
      assert had + (more + [l]) == (had + more) + [l];
      assert locs[id := had + more][id := had + more + [l]] == locs[id := had + more + [l]];
    }
  }

  lemma StageLocationsStep(tasks: Tasks, executors: Executors, jobId: string, id: nat, p: nat)
    ensures StageLocations(tasks, executors, jobId, id, p + 1)
         == StageLocations(tasks, executors, jobId, id, p) + [LocationOf(tasks, executors, PartitionId(jobId, id, p))]
  {
  }

  /** The locations of all the stages a plan's shuffles read: the same, over all look-ups in order. */
  method CollectLocations(ns: string, jobId: string, shuffles: seq<Plan>, kvs: map<string, Value>,
                          metas: seq<ExecutorMeta>, ghost view: View)
    returns (r: Outcome<Option<Locations>>)
    requires SlashFree(ns) && SlashFree(jobId) && Fetched(ns, view, kvs) && Metas(view.executors, metas)
    requires forall u <- shuffles :: u.UnresolvedShuffle?
    ensures
      var inputs := Inputs(jobId, shuffles);
      && !r.Err?
      && (r.Panic? <==> Breaks(view.tasks, view.executors, inputs))
      && (r == Ok(None) <==> Waits(view.tasks, view.executors, inputs))
      && (r.Ok? && r.value.Some? <==> AllDone(view.tasks, view.executors, inputs))
      && (r.Ok? && r.value.Some? ==> r.value.value == Collect(view.tasks, view.executors, jobId, shuffles))
  {
    hide Fetched, Metas, Push, Breaks, Waits, AllDone, StageInputs, StageLocations;
    var partitionLocations: Locations := map[];
    ghost var looked: seq<PartitionId> := [];
    NothingLookedUp(view.tasks, view.executors);
    for i := 0 to |shuffles|
      invariant looked == Inputs(jobId, shuffles[..i]) && AllDone(view.tasks, view.executors, looked)
      invariant partitionLocations == Collect(view.tasks, view.executors, jobId, shuffles[..i])
    {
      var u := shuffles[i];
      ghost var before := partitionLocations;
      ghost var lookedBefore := looked;
      assert lookedBefore + [] == lookedBefore;
      for k := 0 to |u.stageIds|
        invariant looked == lookedBefore + IdInputs(jobId, u.stageIds[..k], u.partitionCount)
        invariant AllDone(view.tasks, view.executors, looked)
        invariant partitionLocations ==
          CollectIds(view.tasks, view.executors, jobId, u.stageIds[..k], u.partitionCount, before)
      {
        ghost var more := StageInputs(jobId, u.stageIds[k], u.partitionCount);
        AllDoneDecides(view.tasks, view.executors, looked);
        LookupsInTurn(view.tasks, view.executors, looked, more);
        r := CollectPartitions(ns, jobId, u.stageIds[k], u.partitionCount, kvs, metas, partitionLocations, view);
        assert u.stageIds[..k + 1][..k] == u.stageIds[..k];
        looked := looked + more;
        assert looked == lookedBefore + IdInputs(jobId, u.stageIds[..k + 1], u.partitionCount);
        if r == Ok(None) || !r.Ok? {
          DecidedEarly(view.tasks, view.executors, jobId, shuffles, i, k, looked);
          return;
        }
        partitionLocations := r.value.value;
      }
      assert u.stageIds[..|u.stageIds|] == u.stageIds;
      assert shuffles[..i + 1][..i] == shuffles[..i];
    }
    assert shuffles[..|shuffles|] == shuffles;
    AllDoneDecides(view.tasks, view.executors, looked);
    r := Ok(Some(partitionLocations));
  }

  lemma NothingLookedUp(tasks: Tasks, executors: Executors)
    ensures AllDone(tasks, executors, [])
  {
  }

  /** What is looked up later does not matter once a look-up has decided. */
  lemma DecidedEarly(tasks: Tasks, executors: Executors, jobId: string, shuffles: seq<Plan>, i: nat, k: nat,
                     looked: seq<PartitionId>)
    requires forall u <- shuffles :: u.UnresolvedShuffle?
    requires i < |shuffles| && k < |shuffles[i].stageIds|
    requires looked == Inputs(jobId, shuffles[..i])
                     + IdInputs(jobId, shuffles[i].stageIds[..k + 1], shuffles[i].partitionCount)
    requires !AllDone(tasks, executors, looked)
    ensures
      var inputs := Inputs(jobId, shuffles);
      && !AllDone(tasks, executors, inputs)
      && (Breaks(tasks, executors, inputs) <==> Breaks(tasks, executors, looked))
      && (Waits(tasks, executors, inputs) <==> Waits(tasks, executors, looked))
  {
    hide Breaks, Waits, AllDone;
    var rest := InputsBegin(jobId, shuffles, i, k);
    LookupsInTurn(tasks, executors, looked, rest);
  }

  lemma {:induction false} InputsBegin(jobId: string, shuffles: seq<Plan>, i: nat, k: nat)
    returns (rest: seq<PartitionId>)
    requires forall u <- shuffles :: u.UnresolvedShuffle?
    requires i < |shuffles| && k < |shuffles[i].stageIds|
    ensures Inputs(jobId, shuffles)
         == Inputs(jobId, shuffles[..i])
          + IdInputs(jobId, shuffles[i].stageIds[..k + 1], shuffles[i].partitionCount) + rest
  {
    var n := |shuffles| - 1;
    var u := shuffles[n];
    if i == n {
      rest := IdInputsBegin(jobId, u.stageIds, u.partitionCount, k + 1);
    } else {
      rest := InputsBegin(jobId, shuffles[..n], i, k);
      rest := rest + IdInputs(jobId, u.stageIds, u.partitionCount);
      assert shuffles[..n][..i] == shuffles[..i];
    }
  }

  lemma {:induction false} IdInputsBegin(jobId: string, ids: seq<nat>, count: nat, k: nat)
    returns (rest: seq<PartitionId>)
    requires k <= |ids|
    ensures IdInputs(jobId, ids, count) == IdInputs(jobId, ids[..k], count) + rest
  {
    if k == |ids| {
      assert ids[..k] == ids;
      rest := [];
    } else {
      var n := |ids| - 1;
      rest := IdInputsBegin(jobId, ids[..n], count, k);
      rest := rest + StageInputs(jobId, ids[n], count);
      assert ids[..n][..k] == ids[..k];
    }
  }

  /** The typed state once a task, if there is one, is running at the executor. */
  function Taken(view: View, executorId: string, task: Option<Task>): View {
    if task.Some? then view.(tasks := view.tasks[task.value.id := Running(executorId)]) else view
  }

  ghost predicate IsHashOrder(keys: set<string>, order: seq<string>) {
    && (forall i | 0 <= i < |order| :: order[i] in keys)
    && (forall i, j | 0 <= i < j < |order| :: order[i] != order[j])
    && forall key | key in keys :: key in order
  }

  /** The iteration order of a hash map: any. */
  method HashOrder(keys: set<string>) returns (order: seq<string>)
    ensures IsHashOrder(keys, order)
  {
    order := [];
    var todo := keys;
    while todo != {}
      invariant todo <= keys && IsHashOrder(keys - todo, order)
      decreases todo
    {
      var key :| key in todo;
      order := order + [key];
      todo := todo - {key};
    }
    assert keys - todo == keys;
  }

  class SchedulerState {
    const client: StandaloneClient

    constructor (client: StandaloneClient)
      ensures this.client == client
    {
      this.client := client;
    }

    /** The namespace holds the typed state `view`. */
    ghost predicate Valid(ns: string, view: View)
      reads client
    {
      SlashFree(ns) && GoodView(view) && Holds(client.db, ns, view)
    }

    method SaveExecutorMetadata(ns: string, meta: ExecutorMeta, ghost view: View)
      requires Valid(ns, view) && SlashFree(meta.id)
      modifies client
      ensures Valid(ns, view.(executors := view.executors[meta.id := meta]))
    {
      hide Holds;
      PutRefines(client.db, view, ExecutorKey(ns, meta.id), ExecutorValue(meta));
      client.Put(GetExecutorKey(ns, meta.id), ExecutorValue(meta));
    }

    method SaveJobMetadata(ns: string, jobId: string, status: JobStatus, ghost view: View)
      requires Valid(ns, view) && SlashFree(jobId)
      modifies client
      ensures Valid(ns, view.(jobs := view.jobs[jobId := status]))
    {
      hide Holds;
      PutRefines(client.db, view, JobKey(ns, jobId), JobValue(status));
      client.Put(GetJobKey(ns, jobId), JobValue(status));
    }

    method SaveTaskStatus(ns: string, status: Report, ghost view: View)
      requires Valid(ns, view) && SlashFree(status.partitionId.jobId)
      modifies client
      ensures Valid(ns, view.(tasks := view.tasks[status.partitionId := status.status]))
    {
      hide Holds;
      var pid := status.partitionId;
      PutRefines(client.db, view, TaskKey(ns, pid), TaskValue(status));
      client.Put(GetTaskStatusKey(ns, pid.jobId, pid.stageId, pid.partitionId), TaskValue(status));
    }

    method SaveStagePlan(ns: string, jobId: string, stageId: nat, plan: Plan, ghost view: View)
      requires Valid(ns, view) && SlashFree(jobId)
      modifies client
      ensures Valid(ns, view.(plans := view.plans[StageKey(jobId, stageId) := plan]))
    {
      hide Holds;
      PutRefines(client.db, view, PlanKey(ns, StageKey(jobId, stageId)), PlanValue(plan));
      client.Put(GetStagePlanKey(ns, jobId, stageId), PlanValue(plan));
    }

    method GetStagePlan(ns: string, jobId: string, stageId: nat, ghost view: View) returns (r: Outcome<Plan>)
      requires Valid(ns, view) && SlashFree(jobId)
      ensures r == if StageKey(jobId, stageId) in view.plans then Ok(view.plans[StageKey(jobId, stageId)]) else Err
    {
      hide Holds;
      GetRefines(client.db, view, PlanKey(ns, StageKey(jobId, stageId)));
      var value := client.Get(GetStagePlanKey(ns, jobId, stageId));
      if value.None? {
        return Err;
      }
      r := Ok(value.value.plan);
    }

    method GetJobMetadata(ns: string, jobId: string, ghost view: View) returns (r: Outcome<JobStatus>)
      requires Valid(ns, view) && SlashFree(jobId)
      ensures r == if jobId in view.jobs then Ok(view.jobs[jobId]) else Err
    {
      hide Holds;
      GetRefines(client.db, view, JobKey(ns, jobId));
      var value := client.Get(GetJobKey(ns, jobId));
      if value.None? {
        return Err;
      }
      r := Ok(value.value.job);
    }

    method GetExecutorsMetadata(ns: string, ghost view: View) returns (metas: seq<ExecutorMeta>)
      requires Valid(ns, view)
      ensures Metas(view.executors, metas)
    {
      hide Holds, GetExecutorsPrefix, ScanOf, ListsExecutors, IsPrefix;
      var entries := client.GetFromPrefix(GetExecutorsPrefix(ns));
      ExecutorScan(client.db, ns, view, entries);
      metas := [];
      for i := 0 to |entries|
        invariant |metas| == i
        invariant forall k | 0 <= k < i :: entries[k].1 == ExecutorValue(metas[k])
      {
        ListedIsExecutor(view, entries, i);
        metas := metas + [entries[i].1.meta];
      }
      ExecutorsListed(view, entries, metas);
    }

    /** The tasks of the namespace, collected into a hash map. */
    method FetchTasks(ns: string, ghost view: View) returns (kvs: map<string, Value>)
      requires Valid(ns, view)
      ensures Fetched(ns, view, kvs)
    {
      hide Holds, GetTaskPrefix, TaskEntry, Render;
      var entries := client.GetFromPrefix(GetTaskPrefix(ns));
      TaskScan(client.db, ns, view, entries);
      kvs := map[];
      for i := 0 to |entries|
        invariant forall k | 0 <= k < i :: entries[k].0 in kvs
        invariant forall key | key in kvs :: TaskEntry(ns, view, (key, kvs[key]))
      {
        assert TaskEntry(ns, view, entries[i]);
        assert entries[i] == (entries[i].0, entries[i].1);
        kvs := kvs[entries[i].0 := entries[i].1];
      }
    }

    /** What comes of looking at one task. */
    method TryTask(ns: string, pid: PartitionId, kvs: map<string, Value>, metas: seq<ExecutorMeta>,
                   ghost seen: View, ghost view: View)
      returns (r: Outcome<Option<Task>>)
      requires Valid(ns, view) && seen.plans == view.plans && Metas(seen.executors, metas)
      requires Fetched(ns, seen, kvs) && pid in seen.tasks && seen.tasks[pid].Pending? && SlashFree(pid.jobId)
      ensures r == Probe(seen.tasks, seen.plans, seen.executors, pid)
    {
      hide Holds, Fetched, Metas, Collect, Resolve, Render, Breaks, Waits, AllDone, Inputs;
      var plan := GetStagePlan(ns, pid.jobId, pid.stageId, view);
      if !plan.Ok? {
        return Err;
      }
      var shuffles := FindUnresolvedShuffles(plan.value);
      assert Inputs(pid.jobId, shuffles) == InputsOf(seen.plans, pid);
      var locations := CollectLocations(ns, pid.jobId, shuffles, kvs, metas, seen);
      if locations.Panic? {
        return Panic;
      }
      if locations.value.None? {
        return Ok(None);
      }
      var resolved := RemoveUnresolvedShuffles(plan.value, locations.value.value);
      if resolved.None? {
        return Err;
      }
      r := Ok(Some(Task(pid, resolved.value)));
    }

    /** The search through what a scan has read, which may be any part of what is stored: it ends as some order of the
        scanned tasks says, and a task that is found is now running at the executor. */
    method SearchTasks(ns: string, executorId: string, kvs: map<string, Value>, metas: seq<ExecutorMeta>,
                       ghost seen: View, ghost view: View)
      returns (r: Outcome<Option<Task>>, ghost order: seq<PartitionId>)
      requires Valid(ns, view) && seen == view.(tasks := seen.tasks) && Metas(seen.executors, metas)
      requires Fetched(ns, seen, kvs)
      modifies client
      ensures IsOrder(seen.tasks, order) && r == SearchIn(seen.tasks, seen.plans, seen.executors, order)
      ensures Valid(ns, if r.Ok? then Taken(view, executorId, r.value) else view)
    {
      hide Holds, Fetched, Metas, Probe, Render;
      var keys := HashOrder(kvs.Keys);
      order := TypedOrder(ns, seen, kvs, keys);
      for i := 0 to |keys|
        invariant Valid(ns, view)
        invariant SearchIn(seen.tasks, seen.plans, seen.executors, order)
               == SearchIn(seen.tasks, seen.plans, seen.executors, order[i..])
      {
        EntryOf(ns, seen, kvs, keys[i]);
        var report := kvs[keys[i]].report;
        assert order[i..][0] == report.partitionId && order[i..][1..] == order[i + 1..];
        if report.status.Pending? {
          r := TryTask(ns, report.partitionId, kvs, metas, seen, view);
          if r != Ok(None) {
            if r.Ok? {
              ProbeIsOwn(seen.tasks, seen.plans, seen.executors, report.partitionId);
              SaveTaskStatus(ns, Report(report.partitionId, Running(executorId)), view);
            }
            return;
          }
        } else {
          NotPending(seen.tasks, seen.plans, seen.executors, report.partitionId);
        }
      }
      r := Ok(None);
    }

    /** Read at one instant, the scan is of all stored tasks. */
    method AssignNextSchedulableTask(ns: string, executorId: string, ghost view: View)
      returns (r: Outcome<Option<Task>>, ghost order: seq<PartitionId>)
      requires Valid(ns, view)
      modifies client
      ensures IsOrder(view.tasks, order) && r == SearchIn(view.tasks, view.plans, view.executors, order)
      ensures r.Ok? ==> Assignable(view.tasks, view.plans, view.executors, r.value)
      ensures !r.Ok? ==> !SearchOk(view.tasks, view.plans, view.executors)
      ensures Valid(ns, if r.Ok? then Taken(view, executorId, r.value) else view)
    {
      hide Holds, Fetched, Metas, Assignable, SearchOk, IsOrder, SearchIn;
      var kvs := FetchTasks(ns, view);
      var metas := GetExecutorsMetadata(ns, view);
      r, order := SearchTasks(ns, executorId, kvs, metas, view, view);
      SearchEndsWell(view.tasks, view.plans, view.executors, order);
    }

    method GetJobStatusFromTasks(ns: string, jobId: string, executors: Executors,
                                 ghost view: View) returns (v: Option<JobStatus>)
      requires Valid(ns, view) && SlashFree(jobId)
      ensures CreditedVerdict(view.tasks, executors, jobId, v)
      ensures NoExtension(view.tasks, jobId) ==> Verdict(view.tasks, executors, jobId, v)
    {
      hide Holds, GetTaskPrefixForJob, NoExtension, Verdict, SaysOfJob, ListsTasks, ListsAll, Credited, ScanOf;
      hide IsPrefix;
      var entries := client.GetFromPrefix(GetTaskPrefixForJob(ns, jobId));
      JobTaskScan(client.db, ns, view, jobId, entries);
      var statuses: seq<Report> := [];
      for i := 0 to |entries|
        invariant |statuses| == i && forall k | 0 <= k < i :: entries[k].1 == TaskValue(statuses[k])
      {
        ListedIsTask(ns, view, jobId, entries, i);
        statuses := statuses + [entries[i].1.report];
      }
      v := StatusFrom(statuses, executors);
      ScannedStatuses(ns, view, jobId, entries, statuses);
      assert CreditedVerdict(view.tasks, executors, jobId, v);
      if NoExtension(view.tasks, jobId) {
        CreditedIsVerdict(view.tasks, executors, jobId, v);
      }
    }

    /** `executors` as a hash map. */
    method ExecutorMap(ns: string, ghost view: View) returns (executors: Executors)
      requires Valid(ns, view)
      ensures executors == view.executors
    {
      hide Holds;
      var metas := GetExecutorsMetadata(ns, view);
      executors := map[];
      for i := 0 to |metas|
        invariant forall id | id in executors :: id in view.executors && executors[id] == view.executors[id]
        invariant forall k | 0 <= k < i :: metas[k].id in executors
      {
        executors := executors[metas[i].id := metas[i]];
      }
      forall id | id in view.executors ensures id in executors {
        var i :| 0 <= i < |metas| && metas[i].id == id;
      }
    }

    /** One round of the loop of `synchronize_job_status`. */
    method SynchronizeJob(ns: string, jobId: string, status: JobStatus, executors: Executors,
                          ghost view: View) returns (ghost status': JobStatus)
      requires Valid(ns, view) && SlashFree(jobId) && jobId in view.jobs && view.jobs[jobId] == status
      requires executors == view.executors
      modifies client
      ensures Valid(ns, view.(jobs := view.jobs[jobId := status']))
      ensures CurrentJob(view.tasks, view.executors, jobId, status, status')
    {
      hide Holds, NoExtension, Verdict, CreditedVerdict;
      var newStatus := GetJobStatusFromTasks(ns, jobId, executors, view);
      status' := status;
      assert view.jobs[jobId := status] == view.jobs;
      if newStatus.Some? && status != newStatus.value {
        SaveJobMetadata(ns, jobId, newStatus.value, view);
        status' := newStatus.value;
      }
    }

    method SynchronizeJobStatus(ns: string, ghost view: View) returns (ghost jobs: map<string, JobStatus>)
      requires Valid(ns, view)
      modifies client
      ensures Valid(ns, view.(jobs := jobs)) && Current(view.tasks, view.executors, view.jobs, jobs)
      ensures (forall j | j in view.jobs :: NoExtension(view.tasks, j)) ==>
        Synchronized(view.tasks, view.executors, view.jobs, jobs)
    {
      hide Holds, GetJobPrefix, GetJobKey, NoExtension, CurrentJob, Synchronized, ExtractJobIdFromKey, ScanOf;
      hide ListsJobs, SomeEntry;
      var kvs := client.GetFromPrefix(GetJobPrefix(ns));
      JobScan(client.db, ns, view, kvs);
      var executors := ExecutorMap(ns, view);
      jobs := view.jobs;
      NoEntryYet(ns, kvs);
      for i := 0 to |kvs|
        invariant jobs.Keys == view.jobs.Keys && Valid(ns, view.(jobs := jobs))
        invariant forall j | j in view.jobs && !SomeEntry(ns, kvs[..i], j) :: jobs[j] == view.jobs[j]
        invariant forall j | j in view.jobs && SomeEntry(ns, kvs[..i], j) ::
          CurrentJob(view.tasks, view.executors, j, view.jobs[j], jobs[j])
      {
        ghost var j := ListedIsJob(ns, view, kvs, i);
        JobIdReadBack(ns, j);
        var jobId := ExtractJobIdFromKey(kvs[i].0).value;
        ghost var status' := SynchronizeJob(ns, jobId, kvs[i].1.job, executors, view.(jobs := jobs));
        jobs := jobs[jobId := status'];
        forall other ensures SomeEntry(ns, kvs[..i + 1], other) <==> SomeEntry(ns, kvs[..i], other) || other == j {
          OneMoreEntry(ns, kvs, i, j, other);
        }
      }
      assert kvs[..|kvs|] == kvs;
      forall j | j in view.jobs ensures SomeEntry(ns, kvs, j) {
        JobIsListed(ns, view, kvs, j);
      }
      if forall j | j in view.jobs :: NoExtension(view.tasks, j) {
        CurrentIsSynchronized(view.tasks, view.executors, view.jobs, jobs);
      }
    }
  }

  lemma ListedIsTask(ns: string, view: View, jobId: string, entries: seq<(string, Value)>, i: nat)
    requires ListsTasks(ns, view, jobId, entries) && i < |entries|
    ensures entries[i].1.TaskValue?
  {
    assert TaskEntry(ns, view, entries[i]);
  }

  /** One of the entries is the job's. */
  ghost predicate SomeEntry(ns: string, kvs: seq<(string, Value)>, j: string) {
    exists i | 0 <= i < |kvs| :: kvs[i].0 == GetJobKey(ns, j)
  }

  lemma NoEntryYet(ns: string, kvs: seq<(string, Value)>)
    ensures forall j :: !SomeEntry(ns, kvs[..0], j)
  {
  }

  lemma JobKeyInjective(ns: string, a: string, b: string)
    requires GetJobKey(ns, a) == GetJobKey(ns, b)
    ensures a == b
  {
    hide GetJobPrefix;
    var n := |GetJobPrefix(ns)| + 1;
    assert GetJobKey(ns, a)[n..] == a && GetJobKey(ns, b)[n..] == b;
  }

  /** A job that is listed here has not been listed before. */
  lemma ListedIsJob(ns: string, view: View, kvs: seq<(string, Value)>, i: nat) returns (j: string)
    requires ListsJobs(ns, view, kvs) && i < |kvs|
    ensures JobEntry(ns, view, kvs[i], j) && !SomeEntry(ns, kvs[..i], j)
  {
    hide GetJobKey;
    assert IsJobEntry(ns, view, kvs[i]);
    j :| JobEntry(ns, view, kvs[i], j);
  }

  lemma OneMoreEntry(ns: string, kvs: seq<(string, Value)>, i: nat, j: string, other: string)
    requires i < |kvs| && kvs[i].0 == GetJobKey(ns, j)
    ensures SomeEntry(ns, kvs[..i + 1], other) <==> SomeEntry(ns, kvs[..i], other) || other == j
  {
    hide GetJobKey;
    if SomeEntry(ns, kvs[..i + 1], other) {
      var k :| 0 <= k < i + 1 && kvs[..i + 1][k].0 == GetJobKey(ns, other);
      if k < i {
        assert kvs[..i][k].0 == GetJobKey(ns, other);
      } else {
        JobKeyInjective(ns, j, other);
      }
    }
    if SomeEntry(ns, kvs[..i], other) {
      var k :| 0 <= k < i && kvs[..i][k].0 == GetJobKey(ns, other);
      assert kvs[..i + 1][k].0 == GetJobKey(ns, other);
    }
    if other == j {
      assert kvs[..i + 1][i].0 == GetJobKey(ns, other);
    }
  }

  lemma JobIsListed(ns: string, view: View, kvs: seq<(string, Value)>, j: string)
    requires ListsJobs(ns, view, kvs) && j in view.jobs
    ensures SomeEntry(ns, kvs, j)
  {
    hide GetJobKey;
    var i :| 0 <= i < |kvs| && JobEntry(ns, view, kvs[i], j);
  }

  lemma EntryOf(ns: string, view: View, kvs: map<string, Value>, key: string)
    requires Fetched(ns, view, kvs) && key in kvs
    ensures kvs[key].TaskValue?
    ensures
      var r := kvs[key].report;
      r.partitionId in view.tasks && r.status == view.tasks[r.partitionId] && SlashFree(r.partitionId.jobId)
  {
    assert TaskEntry(ns, view, (key, kvs[key]));
  }

  /** The tasks of the entries, in the same order. */
  lemma TypedOrder(ns: string, view: View, kvs: map<string, Value>, keys: seq<string>)
    returns (order: seq<PartitionId>)
    requires Fetched(ns, view, kvs) && SlashFree(ns) && IsHashOrder(kvs.Keys, keys)
    ensures IsOrder(view.tasks, order) && |order| == |keys|
    ensures forall i | 0 <= i < |keys| :: kvs[keys[i]].TaskValue? && order[i] == kvs[keys[i]].report.partitionId
  {
    hide Render;
    forall i | 0 <= i < |keys|
      ensures kvs[keys[i]].TaskValue? && kvs[keys[i]].report.partitionId in view.tasks
      ensures keys[i] == Render(TaskKey(ns, kvs[keys[i]].report.partitionId))
    {
      assert TaskEntry(ns, view, (keys[i], kvs[keys[i]]));
    }
    order := seq(|keys|, i requires 0 <= i < |keys| && kvs[keys[i]].TaskValue? => kvs[keys[i]].report.partitionId);
    forall pid | pid in view.tasks ensures pid in order {
      var key := Render(TaskKey(ns, pid));
      var i :| 0 <= i < |keys| && keys[i] == key;
      LookUp(ns, view, kvs, pid);
      assert order[i] == pid;
    }
  }

  lemma ListedIsExecutor(view: View, entries: seq<(string, Value)>, i: nat)
    requires ListsExecutors(view, entries) && i < |entries|
    ensures entries[i].1.ExecutorValue?
  {
    assert IsExecutorEntry(view, entries[i]);
  }

  lemma ExecutorsListed(view: View, entries: seq<(string, Value)>, metas: seq<ExecutorMeta>)
    requires GoodView(view) && ListsExecutors(view, entries) && |metas| == |entries|
    requires forall k | 0 <= k < |metas| :: entries[k].1 == ExecutorValue(metas[k])
    ensures Metas(view.executors, metas)
  {
    forall i | 0 <= i < |metas| ensures metas[i].id in view.executors && view.executors[metas[i].id] == metas[i] {
      assert IsExecutorEntry(view, entries[i]);
    }
    forall id | id in view.executors ensures exists i | 0 <= i < |metas| :: metas[i].id == id {
      var i :| 0 <= i < |entries| && ExecutorEntry(view, entries[i], id);
      assert metas[i].id == id;
    }
  }
}
