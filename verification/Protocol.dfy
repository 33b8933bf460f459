/** The task protocol between the scheduler and its executors, as a state machine.

    Executors poll. A poll is served under the scheduler's global lock, in phases; submissions save stages
    and tasks one write at a time without the lock, and so interleave with every phase. Requests and replies
    can get lost.
  */
module Protocol {
  import opened Plans
  import opened StagePlanner
  import opened Scheduling
  import opened JobStages
  import opened Keys
  import opened TaskOrder

  datatype ExecutorSpec = ExecutorSpec(meta: ExecutorMeta, concurrentTasks: nat)

  datatype Config = Config(eng: Engine, executors: map<string, ExecutorSpec>)

  /** An executor announces itself under its own id. */
  predicate ValidConfig(cfg: Config) {
    forall e | e in cfg.executors :: cfg.executors[e].meta.id == e
  }

  // ---- Executors ----

  /** The state of an executor's current `poll_work` call. */
  datatype Rpc =
    | Idle
    | Sampled(reports: seq<Report>)
    | Sent(canAccept: bool, reports: seq<Report>)
    | Serving
    | Answered(task: Option<Task>)

  /** `free` is the atomic slot counter. A task that is over first frees its slot, and is then in `finished` until its
      status is in the `channel`, from which polls sample. */
  datatype Worker = Worker(free: int, inFlight: map<PartitionId, Plan>, finished: map<PartitionId, Status>,
                           channel: seq<Report>, rpc: Rpc)

  /** Start of a round: the channel is drained... */
  function SampleStatuses(w: Worker): Worker {
    w.(channel := [], rpc := Sampled(w.channel))
  }

  /** ... and then the slot counter is read, and the request sent. */
  function SendPoll(w: Worker): Worker
    requires w.rpc.Sampled?
  {
    w.(rpc := Sent(w.free > 0, w.rpc.reports))
  }

  /** `run_received_tasks`. */
  function ReceiveTask(w: Worker): Worker
    requires w.rpc.Answered?
  {
    match w.rpc.task
    case None => w.(rpc := Idle)
    case Some(t) => w.(rpc := Idle, free := w.free - 1, inFlight := w.inFlight[t.id := t.plan])
  }

  function TaskFailure(msg: string): string {
    "Task failed due to Tokio error: " + msg
  }

  /** `as_task_status`. */
  function OutcomeOf(e: string, error: Option<string>): Status {
    match error
    case None => Completed(e)
    case Some(msg) => Failed(TaskFailure(msg))
  }

  /** The end of a spawned task: its slot is free... */
  function FinishTask(w: Worker, e: string, pid: PartitionId, error: Option<string>): Worker {
    w.(free := w.free + 1, inFlight := w.inFlight - {pid}, finished := w.finished[pid := OutcomeOf(e, error)])
  }

  /** ... and its status goes into the channel. */
  function AnnounceTask(w: Worker, pid: PartitionId): Worker
    requires pid in w.finished
  {
    w.(finished := w.finished - {pid}, channel := w.channel + [Report(pid, w.finished[pid])])
  }

  // ---- Scheduler ----

  /** The holder of the global lock and how far its poll has come. A scan collects tasks one by one into `kvs`, while
      submissions go on storing more; `present` are those that were stored when it began. Jobs are brought up to date
      one by one: the tasks are read, and then what they say of the job is recorded. */
  datatype Lock =
    | Unlocked
    | Saved(executorId: string, reported: bool, canAccept: bool)
    | Scanning(executorId: string, reported: bool, present: set<PartitionId>, kvs: Tasks)
    | Scanned(executorId: string, reported: bool, present: set<PartitionId>, kvs: Tasks, executors: Executors)
    | Assigned(executorId: string, reported: bool, task: Option<Task>)
    | Syncing(executorId: string, task: Option<Task>, todo: set<string>)
    | Reading(executorId: string, task: Option<Task>, todo: set<string>, jobId: string, present: set<PartitionId>)
    | Judged(executorId: string, task: Option<Task>, todo: set<string>, jobId: string, present: set<PartitionId>,
             kvs: Tasks, verdict: Option<JobStatus>)

  /** The background task of `execute_query`. `counts` are the partition counts of the stages.
      While saving, stages before `stage` are saved entirely; of stage number `stage`, nothing is saved
      if `next == 0`, else the plan and the first `next - 1` tasks. */
  datatype Submission =
    | Accepted(plan: Plan, hasExecutors: bool)
    | Started(plan: Plan, hasExecutors: bool)
    | Saving(plan: Plan, stages: seq<QueryStage>, counts: seq<nat>, stage: nat, next: nat)
    | Aborted(message: string)

  datatype State = State(
    tasks: Tasks,
    plans: StagePlans,
    jobs: map<string, JobStatus>,
    executors: Executors,
    submissions: map<string, Submission>,
    lock: Lock,
    workers: map<string, Worker>,
    stores: Stores)

  function Init(cfg: Config): State {
    State(map[], map[], map[], map[], map[], Unlocked,
          map e | e in cfg.executors :: Worker(cfg.executors[e].concurrentTasks, map[], map[], [], Idle), map[])
  }

  /** `as u32`. */
  function U32(n: nat): nat {
    n % 0x1_0000_0000
  }

  function CountsOf(eng: Engine, stages: seq<QueryStage>): (counts: seq<nat>)
    ensures |counts| == |stages|
  {
    seq(|stages|, i requires 0 <= i < |stages| => eng.Count(stages[i].child))
  }

  /** Stage and partition ids survive the cast to 32 bits. */
  predicate Small(counts: seq<nat>) {
    |counts| < 0x1_0000_0000 && forall i | 0 <= i < |counts| :: counts[i] <= 0x1_0000_0000
  }

  /** A query the scheduler is asked to run. */
  ghost predicate Query(eng: Engine, jobId: string, plan: Plan) {
    && SlashFree(jobId) && InputPlan(plan) && NoEmptyStage(eng, jobId, plan)
    && Small(CountsOf(eng, QueryStages(eng, jobId, plan, 0)))
  }

  function SaveReports(tasks: Tasks, reports: seq<Report>): Tasks {
    if reports == [] then tasks
    else
      var last := reports[|reports| - 1];
      SaveReports(tasks, reports[..|reports| - 1])[last.partitionId := last.status]
  }

  /** Moves a save cursor past one write. */
  function Advance(sub: Submission): Submission
    requires sub.Saving? && sub.stage < |sub.counts|
  {
    if sub.next >= sub.counts[sub.stage] && sub.next > 0 then sub.(stage := sub.stage + 1, next := 0)
    else sub.(next := sub.next + 1)
  }

  // ---- Steps ----

  datatype Step =
    | Submit(jobId: string, plan: Plan)
    | Reject(jobId: string, message: string)
    | Start(jobId: string)
    | Cut(jobId: string)
    | SaveNext(jobId: string)
    | Sample(executorId: string)
    | Send(executorId: string)
    | LoseRequest(executorId: string)
    | BeginPoll(executorId: string)
    | BeginScan
    | ScanTask(id: PartitionId)
    | EndScan
    | Assign(task: Option<Task>)
    | FailPoll
    | BeginSync
    | ReadJob(jobId: string)
    | Judge(kvs: Tasks, verdict: Option<JobStatus>)
    | SyncJob(jobId: string, verdict: Option<JobStatus>)
    | EndPoll
    | LoseReply(executorId: string)
    | Receive(executorId: string)
    | Finish(executorId: string, id: PartitionId, error: Option<string>)
    | Announce(executorId: string, id: PartitionId)

  /** The rows a task in flight at `e` would write, if it can run. */
  function Output(eng: Engine, s: State, e: string, pid: PartitionId): Option<Rows>
    requires e in s.workers && pid in s.workers[e].inFlight
  {
    var t := eng.Execute(s.stores, s.workers[e].inFlight[pid]);
    if t.Some? && pid.partitionId < |t.value| then Some(t.value[pid.partitionId]) else None
  }

  predicate CanSave(s: State, j: string) {
    && j in s.submissions && s.submissions[j].Saving?
    && s.submissions[j].stage < |s.submissions[j].stages| == |s.submissions[j].counts|
  }

  /** The job's background task has ended: all is saved, or planning failed. */
  predicate SaveEnded(s: State, j: string) {
    && j in s.submissions
    && var sub := s.submissions[j];
       sub.Aborted? || (sub.Saving? && sub.stage == |sub.stages|)
  }

  /** A scan goes up the keys: it comes to a task above all it has seen, and leaves out none of those that were there
      when it began. */
  predicate ComesTo(present: set<PartitionId>, kvs: Tasks, pid: PartitionId) {
    && pid !in kvs && (forall q | q in kvs :: Precedes(q, pid))
    && (forall q | q in present && q !in kvs && q != pid :: Precedes(pid, q))
  }

  /** What a scan of a job's tasks may have seen by its end: those that were there when it began, and perhaps more. */
  ghost predicate ReadOf(present: set<PartitionId>, kvs: Tasks, tasks: Tasks, j: string) {
    PartOf(kvs, tasks) && forall pid | pid in present && pid.jobId == j :: pid in kvs
  }

  ghost predicate Enabled(cfg: Config, s: State, step: Step) {
    match step
    case Submit(j, plan) => j !in s.jobs && j !in s.submissions && Query(cfg.eng, j, plan)
    case Reject(j, _) => j in s.submissions && s.submissions[j].Accepted?
    case Start(j) => j in s.submissions && s.submissions[j].Accepted?
    case Cut(j) => j in s.submissions && s.submissions[j].Started?
    case SaveNext(j) => CanSave(s, j)
    case Sample(e) => e in s.workers && s.workers[e].rpc.Idle?
    case Send(e) => e in s.workers && s.workers[e].rpc.Sampled?
    case LoseRequest(e) => e in s.workers && s.workers[e].rpc.Sent?
    case BeginPoll(e) => e in s.workers && e in cfg.executors && s.workers[e].rpc.Sent? && s.lock.Unlocked?
    case BeginScan => s.lock.Saved?
    case ScanTask(pid) => s.lock.Scanning? && pid in s.tasks && ComesTo(s.lock.present, s.lock.kvs, pid)
    case EndScan => s.lock.Scanning? && s.lock.present <= s.lock.kvs.Keys
    case Assign(task) => s.lock.Scanned? && Assignable(s.lock.kvs, s.plans, s.lock.executors, task)
    case FailPoll =>
      s.lock.Scanned? && !SearchOk(s.lock.kvs, s.plans, s.lock.executors) && s.lock.executorId in s.workers
    case BeginSync => s.lock.Assigned?
    case ReadJob(j) => s.lock.Syncing? && j in s.lock.todo
    case Judge(kvs, v) =>
      && s.lock.Reading? && ReadOf(s.lock.present, kvs, s.tasks, s.lock.jobId)
      && Verdict(kvs, s.executors, s.lock.jobId, v)
    case SyncJob(j, v) => s.lock.Judged? && s.lock.jobId == j && s.lock.verdict == v
    case EndPoll => s.lock.Syncing? && s.lock.todo == {} && s.lock.executorId in s.workers
    case LoseReply(e) => e in s.workers && s.workers[e].rpc.Answered?
    case Receive(e) => e in s.workers && s.workers[e].rpc.Answered?
    case Finish(e, pid, error) =>
      && e in s.workers && e in cfg.executors && pid in s.workers[e].inFlight
      && (error.None? ==> Output(cfg.eng, s, e, pid).Some?)
    case Announce(e, pid) => e in s.workers && pid in s.workers[e].finished
  }

  function DoSubmit(s: State, j: string, plan: Plan): State {
    s.(jobs := s.jobs[j := Queued], submissions := s.submissions[j := Accepted(plan, s.executors != map[])])
  }

  /** Optimising or physical planning has failed. */
  function DoReject(s: State, j: string, message: string): State {
    s.(jobs := s.jobs[j := FailedJob(message)], submissions := s.submissions[j := Aborted(message)])
  }

  function DoStart(s: State, j: string): State
    requires j in s.submissions && s.submissions[j].Accepted?
  {
    var sub := s.submissions[j];
    s.(jobs := s.jobs[j := RunningJob], submissions := s.submissions[j := Started(sub.plan, sub.hasExecutors)])
  }

  function NoExecutors(): string {
    "DistributedPlanner requires at least one executor"
  }

  /** Planning: without a registered executor the job fails. */
  function DoCut(eng: Engine, s: State, j: string): State
    requires j in s.submissions && s.submissions[j].Started?
  {
    var sub := s.submissions[j];
    if sub.hasExecutors then
      var stages := QueryStages(eng, j, sub.plan, 0);
      s.(submissions := s.submissions[j := Saving(sub.plan, stages, CountsOf(eng, stages), 0, 0)])
    else
      s.(jobs := s.jobs[j := FailedJob(NoExecutors())],
         submissions := s.submissions[j := Aborted(NoExecutors())])
  }

  /** One write of a save loop. */
  function DoSave(s: State, j: string): State
    requires CanSave(s, j)
  {
    var sub := s.submissions[j];
    var stage := sub.stages[sub.stage];
    var subs := s.submissions[j := Advance(sub)];
    if sub.next == 0 then s.(plans := s.plans[StageKey(j, stage.stageId) := stage.child], submissions := subs)
    else s.(tasks := s.tasks[PartitionId(j, U32(stage.stageId), U32(sub.next - 1)) := Pending], submissions := subs)
  }

  /** The executor's side of a step. */
  function SetWorker(s: State, e: string, w: Worker): State {
    s.(workers := s.workers[e := w])
  }

  /** The lock is taken, the executor registered and its reports saved. */
  function DoBeginPoll(meta: ExecutorMeta, s: State, e: string): State
    requires e in s.workers && s.workers[e].rpc.Sent?
  {
    var req := s.workers[e].rpc;
    s.(executors := s.executors[e := meta],
       tasks := SaveReports(s.tasks, req.reports),
       lock := Saved(e, req.reports != [], req.canAccept),
       workers := s.workers[e := s.workers[e].(rpc := Serving)])
  }

  function BeginScanLock(s: State): Lock
    requires s.lock.Saved?
  {
    if s.lock.canAccept then Scanning(s.lock.executorId, s.lock.reported, s.tasks.Keys, map[])
    else Assigned(s.lock.executorId, s.lock.reported, None)
  }

  function ScanTaskLock(s: State, pid: PartitionId): Lock
    requires s.lock.Scanning? && pid in s.tasks
  {
    Scanning(s.lock.executorId, s.lock.reported, s.lock.present, s.lock.kvs[pid := s.tasks[pid]])
  }

  function EndScanLock(s: State): Lock
    requires s.lock.Scanning?
  {
    Scanned(s.lock.executorId, s.lock.reported, s.lock.present, s.lock.kvs, s.executors)
  }

  function DoAssign(s: State, task: Option<Task>): State
    requires s.lock.Scanned?
  {
    s.(tasks := if task.Some? then s.tasks[task.value.id := Running(s.lock.executorId)] else s.tasks,
       lock := Assigned(s.lock.executorId, s.lock.reported, task))
  }

  /** The search has failed: the lock is dropped, and the executor's call ends with an error. */
  function DoFailPoll(s: State): State
    requires s.lock.Scanned? && s.lock.executorId in s.workers
  {
    var e := s.lock.executorId;
    s.(lock := Unlocked, workers := s.workers[e := s.workers[e].(rpc := Idle)])
  }

  function SyncLock(s: State): Lock
    requires s.lock.Assigned?
  {
    Syncing(s.lock.executorId, s.lock.task, if s.lock.reported then s.jobs.Keys else {})
  }

  function ReadLock(s: State, j: string): Lock
    requires s.lock.Syncing?
  {
    Reading(s.lock.executorId, s.lock.task, s.lock.todo, j, s.tasks.Keys)
  }

  function JudgeLock(s: State, kvs: Tasks, v: Option<JobStatus>): Lock
    requires s.lock.Reading?
  {
    Judged(s.lock.executorId, s.lock.task, s.lock.todo, s.lock.jobId, s.lock.present, kvs, v)
  }

  function DoSyncJob(s: State, j: string, v: Option<JobStatus>): State
    requires s.lock.Judged?
  {
    s.(jobs := if v.Some? then s.jobs[j := v.value] else s.jobs,
       lock := Syncing(s.lock.executorId, s.lock.task, s.lock.todo - {j}))
  }

  function DoEndPoll(s: State): State
    requires s.lock.Syncing? && s.lock.executorId in s.workers
  {
    var e := s.lock.executorId;
    s.(lock := Unlocked, workers := s.workers[e := s.workers[e].(rpc := Answered(s.lock.task))])
  }

  function DoFinish(cfg: Config, s: State, e: string, pid: PartitionId, error: Option<string>): State
    requires e in s.workers && e in cfg.executors && pid in s.workers[e].inFlight
    requires error.None? ==> Output(cfg.eng, s, e, pid).Some?
  {
    var s' := SetWorker(s, e, FinishTask(s.workers[e], e, pid, error));
    if error.None? then
      s'.(stores := Store(s.stores, AddressOf(cfg.executors[e].meta), pid, Output(cfg.eng, s, e, pid).value))
    else s'
  }

  function Apply(cfg: Config, s: State, step: Step): State
    requires Enabled(cfg, s, step)
  {
    hide Assignable, SearchOk, Verdict, Query, Output, ComesTo, ReadOf;
    hide DoSubmit, DoStart, DoCut, DoSave, DoBeginPoll, DoFinish;
    match step
    case Submit(j, plan) => DoSubmit(s, j, plan)
    case Reject(j, message) => DoReject(s, j, message)
    case Start(j) => DoStart(s, j)
    case Cut(j) => DoCut(cfg.eng, s, j)
    case SaveNext(j) => DoSave(s, j)
    case Sample(e) => SetWorker(s, e, SampleStatuses(s.workers[e]))
    case Send(e) => SetWorker(s, e, SendPoll(s.workers[e]))
    case LoseRequest(e) => SetWorker(s, e, s.workers[e].(rpc := Idle))
    case BeginPoll(e) => DoBeginPoll(cfg.executors[e].meta, s, e)
    case BeginScan => s.(lock := BeginScanLock(s))
    case ScanTask(pid) => s.(lock := ScanTaskLock(s, pid))
    case EndScan => s.(lock := EndScanLock(s))
    case Assign(task) => DoAssign(s, task)
    case FailPoll => DoFailPoll(s)
    case BeginSync => s.(lock := SyncLock(s))
    case ReadJob(j) => s.(lock := ReadLock(s, j))
    case Judge(kvs, v) => s.(lock := JudgeLock(s, kvs, v))
    case SyncJob(j, v) => DoSyncJob(s, j, v)
    case EndPoll => DoEndPoll(s)
    case LoseReply(e) => SetWorker(s, e, s.workers[e].(rpc := Idle))
    case Receive(e) => SetWorker(s, e, ReceiveTask(s.workers[e]))
    case Finish(e, pid, error) => DoFinish(cfg, s, e, pid, error)
    case Announce(e, pid) => SetWorker(s, e, AnnounceTask(s.workers[e], pid))
  }

  /** A run: every state follows from the one before by an enabled step. */
  ghost predicate IsRun(cfg: Config, trace: seq<State>, steps: seq<Step>) {
    && ValidConfig(cfg) && |trace| == |steps| + 1 && trace[0] == Init(cfg)
    && forall i | 0 <= i < |steps| :: Enabled(cfg, trace[i], steps[i]) && trace[i + 1] == Apply(cfg, trace[i], steps[i])
  }
}
