/** `SchedulerServer`: a poll and a submission as the scheduler runs them, and how they fit the protocol's steps. */
module SchedulerServices {
  import opened Plans
  import opened StagePlanner
  import opened Planner
  import opened Scheduling
  import opened Keys
  import opened KeyValueStore
  import opened JobStatuses
  import opened StateOperations
  import opened Protocol

  // ---- What the save loop writes ----

  function SaveTasks(tasks: Tasks, jobId: string, stageId: nat, n: nat): Tasks {
    if n == 0 then tasks
    else SaveTasks(tasks, jobId, stageId, n - 1)[PartitionId(jobId, U32(stageId), U32(n - 1)) := Pending]
  }

  function SaveStage(eng: Engine, view: View, jobId: string, stage: QueryStage): View {
    view.(plans := view.plans[StageKey(jobId, stage.stageId) := stage.child],
          tasks := SaveTasks(view.tasks, jobId, stage.stageId, eng.Count(stage.child)))
  }

  function SaveStages(eng: Engine, view: View, jobId: string, stages: seq<QueryStage>): View {
    if stages == [] then view
    else SaveStage(eng, SaveStages(eng, view, jobId, stages[..|stages| - 1]), jobId, stages[|stages| - 1])
  }

  /** What comes of optimising and physical planning, which DataFusion does. */
  datatype Physical = Planned(plan: Plan) | NoPlan(error: string)

  /** What a submission leaves behind. */
  function Executed(eng: Engine, view: View, jobId: string, physical: Physical): View {
    match physical
    case NoPlan(error) => view.(jobs := view.jobs[jobId := FailedJob(error)])
    case Planned(plan) =>
      if view.executors == map[] then view.(jobs := view.jobs[jobId := FailedJob(NoExecutors())])
      else SaveStages(eng, view.(jobs := view.jobs[jobId := RunningJob]), jobId, QueryStages(eng, jobId, plan, 0))
  }

  // ---- What a poll does ----

  function Reported(view: View, meta: ExecutorMeta, reports: seq<Report>): View {
    view.(executors := view.executors[meta.id := meta], tasks := SaveReports(view.tasks, reports))
  }

  predicate SafeReports(reports: seq<Report>) {
    forall i | 0 <= i < |reports| :: SlashFree(reports[i].partitionId.jobId)
  }

  class SchedulerServer {
    const state: SchedulerState
    const namespace: string
    const eng: Engine

    constructor (state: SchedulerState, namespace: string, eng: Engine)
      ensures this.state == state && this.namespace == namespace && this.eng == eng
    {
      this.state, this.namespace, this.eng := state, namespace, eng;
    }

    ghost predicate Valid(view: View)
      reads state.client
    {
      state.Valid(namespace, view)
    }

    /** The reports are saved first; then, if asked for, a task is looked for; then, if anything was reported, every job
        is brought up to date. Without metadata a poll fails; otherwise it ends as the search for a task does, which
        goes through the tasks in the order `order`. */
    method PollWork(metadata: Option<ExecutorMeta>, canAcceptTask: bool, taskStatus: seq<Report>, ghost view: View)
      returns (r: Outcome<Option<Task>>, ghost view': View, ghost order: seq<PartitionId>)
      requires Valid(view) && (metadata.Some? ==> SlashFree(metadata.value.id)) && SafeReports(taskStatus)
      modifies state.client
      ensures Valid(view')
      ensures metadata.None? ==> r.Err? && view' == view
      ensures metadata.Some? && !canAcceptTask ==> r == Ok(None)
      ensures metadata.Some? && canAcceptTask ==>
        var saved := Reported(view, metadata.value, taskStatus);
        IsOrder(saved.tasks, order) && r == SearchIn(saved.tasks, saved.plans, saved.executors, order)
      ensures metadata.Some? && r.Ok? ==>
        var saved := Reported(view, metadata.value, taskStatus);
        && (canAcceptTask ==> Assignable(saved.tasks, saved.plans, saved.executors, r.value))
        && view' == Taken(saved, metadata.value.id, r.value).(jobs := view'.jobs)
        && (taskStatus == [] ==> view'.jobs == view.jobs)
        && (taskStatus != [] ==> Current(view'.tasks, view'.executors, view.jobs, view'.jobs))
        && (taskStatus != [] && (forall j | j in view.jobs :: NoExtension(view'.tasks, j)) ==>
            Synchronized(view'.tasks, view'.executors, view.jobs, view'.jobs))
      ensures metadata.Some? && !r.Ok? ==>
        var saved := Reported(view, metadata.value, taskStatus);
        canAcceptTask && view' == saved && !SearchOk(saved.tasks, saved.plans, saved.executors)
    {
      hide Holds, Assignable, SearchOk, SearchIn, IsOrder, NoExtension, Synchronized, Current;
      order := [];
      if metadata.None? {
        return Err, view, [];
      }
      var meta := metadata.value;
      state.SaveExecutorMetadata(namespace, meta, view);
      view' := view.(executors := view.executors[meta.id := meta]);
      for i := 0 to |taskStatus|
        invariant Valid(view') && view' == Reported(view, meta, taskStatus[..i])
      {
        state.SaveTaskStatus(namespace, taskStatus[i], view');
        view' := view'.(tasks := view'.tasks[taskStatus[i].partitionId := taskStatus[i].status]);
        assert taskStatus[..i + 1][..i] == taskStatus[..i];
      }
      assert taskStatus[..|taskStatus|] == taskStatus;
      r := Ok(None);
      if canAcceptTask {
        r, order := state.AssignNextSchedulableTask(namespace, meta.id, view');
        if !r.Ok? {
          return;
        }
        view' := Taken(view', meta.id, r.value);
      }
      if taskStatus != [] {
        ghost var jobs := state.SynchronizeJobStatus(namespace, view');
        view' := view'.(jobs := jobs);
      }
    }

    /** The save loop of a submission. */
    method SaveAll(jobId: string, stages: seq<QueryStage>, ghost view: View) returns (ghost view': View)
      requires Valid(view) && SlashFree(jobId)
      modifies state.client
      ensures Valid(view') && view' == SaveStages(eng, view, jobId, stages)
    {
      hide Holds;
      view' := view;
      for i := 0 to |stages|
        invariant Valid(view') && view' == SaveStages(eng, view, jobId, stages[..i])
      {
        var stage := stages[i];
        state.SaveStagePlan(namespace, jobId, stage.stageId, stage.child, view');
        ghost var before := view';
        view' := view'.(plans := view'.plans[StageKey(jobId, stage.stageId) := stage.child]);
        var n := eng.Count(stage.child);
        for p := 0 to n
          invariant Valid(view') && view'.tasks == SaveTasks(before.tasks, jobId, stage.stageId, p)
          invariant view' ==
            before.(plans := before.plans[StageKey(jobId, stage.stageId) := stage.child], tasks := view'.tasks)
        {
          var pending := Report(PartitionId(jobId, U32(stage.stageId), U32(p)), Pending);
          state.SaveTaskStatus(namespace, pending, view');
          view' := view'.(tasks := view'.tasks[pending.partitionId := Pending]);
        }
        assert stages[..i + 1][..i] == stages[..i];
      }
      assert stages[..|stages|] == stages;
    }

    /** A submission on its own: queued, running, planned and saved; or failed, if the query cannot be planned or no
        executor is registered. */
    method ExecuteQuery(jobId: string, physical: Physical, ghost view: View) returns (ghost view': View)
      requires Valid(view) && SlashFree(jobId)
      modifies state.client
      ensures Valid(view') && view' == Executed(eng, view, jobId, physical)
    {
      hide Holds, NoExecutors, QueryStages;
      var executors := state.GetExecutorsMetadata(namespace, view);
      NoMetas(view.executors, executors);
      state.SaveJobMetadata(namespace, jobId, Queued, view);
      view' := view.(jobs := view.jobs[jobId := Queued]);
      if physical.NoPlan? {
        state.SaveJobMetadata(namespace, jobId, FailedJob(physical.error), view');
        assert view'.jobs[jobId := FailedJob(physical.error)] == view.jobs[jobId := FailedJob(physical.error)];
        view' := view.(jobs := view.jobs[jobId := FailedJob(physical.error)]);
        return;
      }
      state.SaveJobMetadata(namespace, jobId, RunningJob, view');
      assert view'.jobs[jobId := RunningJob] == view.jobs[jobId := RunningJob];
      view' := view.(jobs := view.jobs[jobId := RunningJob]);
      var planner := DistributedPlanner.TryNew(eng, executors);
      if planner.None? {
        state.SaveJobMetadata(namespace, jobId, FailedJob(NoExecutors()), view');
        assert view'.jobs[jobId := FailedJob(NoExecutors())] == view.jobs[jobId := FailedJob(NoExecutors())];
        view' := view.(jobs := view.jobs[jobId := FailedJob(NoExecutors())]);
        return;
      }
      var stages := planner.value.PlanQueryStages(jobId, physical.plan);
      view' := SaveAll(jobId, stages, view');
    }
  }

  lemma NoMetas(executors: Executors, metas: seq<ExecutorMeta>)
    requires Metas(executors, metas)
    ensures metas == [] <==> executors == map[]
  {
    if metas != [] {
      assert metas[0].id in executors;
    }
  }
}
