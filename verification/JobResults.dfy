/** What a client gets: the locations in the status of a completed job, and the rows that are there. */
module JobResults {
  import opened Plans
  import opened Scheduling
  import opened Protocol
  import opened StorageInvariant
  import opened OwnershipInvariant
  import opened TaskInvariants
  import opened DataInvariant
  import opened ProtocolInvariants
  import opened TaskHistory
  import opened JobVerdicts
  import opened JobSubmissions

  /** Each location names a completed task of the job, a different one, and the executor that completed it. */
  ghost predicate Listed(tasks: Tasks, executors: Executors, j: string, ls: seq<JobLocation>) {
    && (forall i, k | 0 <= i < k < |ls| :: ls[i].partitionId != ls[k].partitionId)
    && forall i | 0 <= i < |ls| ::
         var pid := ls[i].partitionId;
         && pid.jobId == j && Done(tasks, executors, pid)
         && ls[i].executorMeta == Some(executors[tasks[pid].executorId])
  }

  /** Some location names this partition. */
  predicate Names(ls: seq<JobLocation>, pid: PartitionId) {
    exists i | 0 <= i < |ls| :: ls[i].partitionId == pid
  }

  /** So it is when the status is about to be recorded. */
  lemma ListedNow(cfg: Config, s: State, j: string, ls: seq<JobLocation>)
    requires Inv(cfg, s) && s.lock.Judged? && s.lock.jobId == j && s.lock.verdict == Some(CompletedJob(ls))
    ensures Listed(s.tasks, s.executors, j, ls)
    ensures forall pid | pid in s.lock.present && pid.jobId == j :: Names(ls, pid)
  {
    hide Inv;
    SnapshotOf(cfg, s);
    RegisteredOf(cfg, s);
    assert ListsJob(s.lock.kvs, s.executors, j, ls);
  }

  lemma RegisteredOf(cfg: Config, s: State)
    requires Inv(cfg, s)
    ensures Registered(cfg, s.tasks, s.executors, s.lock)
    ensures StoredRows(cfg.eng, s.submissions, s.stores) && OutputsThere(cfg, s.tasks, s.stores)
  {
    hide Storage, GoodJobs, Ownership, Crew, Registered, Dependencies, AllRightPlans, Snapshot, StoredRows;
    hide OutputsThere, ReportsThere;
  }

  lemma ListedLater(s: State, s': State, j: string, ls: seq<JobLocation>)
    requires Listed(s.tasks, s.executors, j, ls) && Later(s, s')
    ensures Listed(s'.tasks, s'.executors, j, ls)
  {
    hide PlansKept, JobsKept;
  }

  lemma RecordedIsListed(cfg: Config, trace: seq<State>, steps: seq<Step>, i: nat, k: nat, j: string,
                         ls: seq<JobLocation>)
    requires IsRun(cfg, trace, steps) && i < |steps| && i < k < |trace|
    requires steps[i] == SyncJob(j, Some(CompletedJob(ls)))
    ensures Listed(trace[k].tasks, trace[k].executors, j, ls)
  {
    hide IsRun, Inv, Enabled, Apply, Listed, Later;
    RunStep(cfg, trace, steps, i);
    SyncVerdict(cfg, trace[i], j, Some(CompletedJob(ls)));
    ListedNow(cfg, trace[i], j, ls);
    RunIsLater(cfg, trace, steps, i, k);
    ListedLater(trace[i], trace[k], j, ls);
  }

  /** What an executor serves for a location. */
  function Served(stores: Stores, l: JobLocation): Option<Rows> {
    if l.executorMeta.Some? then Fetch(stores, AddressOf(l.executorMeta.value), l.partitionId) else None
  }

  lemma ListedIsServed(cfg: Config, s: State, j: string, ls: seq<JobLocation>, i: nat)
    requires Inv(cfg, s) && Listed(s.tasks, s.executors, j, ls) && i < |ls|
    ensures Served(s.stores, ls[i]).Some?
    ensures RightRows(cfg.eng, s.submissions, ls[i].partitionId, Served(s.stores, ls[i]).value)
  {
    hide Inv, RightRows, Registered, StoredRows, OutputsThere;
    RegisteredOf(cfg, s);
    PartitionInPlace(cfg, s.tasks, s.executors, s.lock, s.submissions, s.stores, ls[i].partitionId);
  }

  /** Over every run, from the moment a job is recorded as completed, whenever that is: each location of its status
      belongs to another partition of the job, and is served with the rows of that partition. */
  lemma LocationsAreServed(cfg: Config, trace: seq<State>, steps: seq<Step>, i: nat, k: nat, j: string,
                           ls: seq<JobLocation>, n: nat)
    requires IsRun(cfg, trace, steps) && i < |steps| && i < k < |trace|
    requires steps[i] == SyncJob(j, Some(CompletedJob(ls)))
    requires n < |ls|
    ensures ls[n].partitionId.jobId == j && forall m | 0 <= m < n :: ls[m].partitionId != ls[n].partitionId
    ensures Served(trace[k].stores, ls[n]).Some?
    ensures RightRows(cfg.eng, trace[k].submissions, ls[n].partitionId, Served(trace[k].stores, ls[n]).value)
  {
    hide IsRun, Inv, RightRows, Served;
    RecordedIsListed(cfg, trace, steps, i, k, j, ls);
    RunInv(cfg, trace, steps, k);
    ListedIsServed(cfg, trace[k], j, ls, n);
  }

  // ---- The result of the query ----

  /** The status names all partitions of all stages, if the job was saved when its read began. */
  lemma AllAreNamed(cfg: Config, trace: seq<State>, steps: seq<Step>, b: nat, i: nat, j: string, ls: seq<JobLocation>)
    requires IsRun(cfg, trace, steps) && ReadBegan(steps, b, i, j) && i < |trace|
    requires steps[i] == SyncJob(j, Some(CompletedJob(ls))) && SaveEnded(trace[b], j)
    ensures AllPlannedCompleted(trace[i], j)
    ensures forall pid | pid in trace[i].tasks && pid.jobId == j :: Names(ls, pid)
  {
    hide IsRun, Inv, Enabled, Apply, SaveEnded, Names, Listed;
    var v := Some(CompletedJob(ls));
    RunStep(cfg, trace, steps, i);
    SyncVerdict(cfg, trace[i], j, v);
    ListedNow(cfg, trace[i], j, ls);
    ReadAfterSave(cfg, trace, steps, b, i, j, v);
    CompletedIsRightExactly(cfg, trace, steps, b, i, j, v);
  }

  /** One of the locations names the partition, and is served with these rows. */
  ghost predicate ServedAs(stores: Stores, ls: seq<JobLocation>, pid: PartitionId, rows: Option<Rows>) {
    exists n | 0 <= n < |ls| :: ls[n].partitionId == pid && Served(stores, ls[n]) == rows
  }

  /** The rows of the query, partition for partition, are served from locations of the status. */
  ghost predicate ServesQuery(eng: Engine, stores: Stores, j: string, last: nat, plan: Plan, ls: seq<JobLocation>) {
    var t := eng.Execute(map[], plan);
    t.Some? && forall p | 0 <= p < |t.value| :: ServedAs(stores, ls, PartitionId(j, last, p), Some(t.value[p]))
  }

  lemma PartitionIsServed(cfg: Config, s: State, j: string, ls: seq<JobLocation>, id: nat, count: nat, p: nat)
    requires Inv(cfg, s) && Listed(s.tasks, s.executors, j, ls) && p < count && Names(ls, PartitionId(j, id, p))
    ensures
      var rows := ReadPartition(s.stores, StageLocations(s.tasks, s.executors, j, id, count), p);
      rows.Some? && ServedAs(s.stores, ls, PartitionId(j, id, p), rows)
  {
    hide Inv, Listed, RightRows;
    var n :| 0 <= n < |ls| && ls[n].partitionId == PartitionId(j, id, p);
    ListedIsServed(cfg, s, j, ls, n);
    ListedLocation(s, j, ls, n);
  }

  lemma ReaderServes(cfg: Config, s: State, j: string, ls: seq<JobLocation>, id: nat, count: nat, plan: Plan,
                     schema: Schema)
    requires Inv(cfg, s) && Listed(s.tasks, s.executors, j, ls)
    requires forall p: nat | p < count :: Names(ls, PartitionId(j, id, p))
    requires
      var reader := ShuffleReader(StageLocations(s.tasks, s.executors, j, id, count), schema);
      cfg.eng.Execute(s.stores, reader) == cfg.eng.Execute(map[], plan)
    ensures ServesQuery(cfg.eng, s.stores, j, id, plan, ls)
  {
    hide Inv, Listed, Names, ServedAs, ReadPartition, LocationOf;
    var locations := StageLocations(s.tasks, s.executors, j, id, count);
    forall p | 0 <= p < count
      ensures
        var rows := ReadPartition(s.stores, locations, p);
        rows.Some? && ServedAs(s.stores, ls, PartitionId(j, id, p), rows)
    {
      PartitionIsServed(cfg, s, j, ls, id, count, p);
    }
    ReaderRows(cfg.eng, s.stores, locations, schema);
  }

  lemma ReaderRows(eng: Engine, stores: Stores, locations: seq<PartitionLocation>, schema: Schema)
    requires forall p | 0 <= p < |locations| :: ReadPartition(stores, locations, p).Some?
    ensures
      var t := eng.Execute(stores, ShuffleReader(locations, schema));
      && t.Some? && |t.value| == |locations|
      && forall p | 0 <= p < |t.value| :: ReadPartition(stores, locations, p) == Some(t.value[p])
  {
  }

  lemma ListedLocation(s: State, j: string, ls: seq<JobLocation>, n: nat)
    requires Listed(s.tasks, s.executors, j, ls) && n < |ls|
    ensures ls[n].executorMeta == Some(LocationOf(s.tasks, s.executors, ls[n].partitionId).executorMeta)
  {
  }

  lemma PlannedIsNamed(s: State, s': State, j: string, ls: seq<JobLocation>)
    requires AllPlannedCompleted(s, j) && JobsKept(s.submissions, s'.submissions)
    requires forall pid | pid in s.tasks && pid.jobId == j :: Names(ls, pid)
    requires j in s'.submissions && s'.submissions[j].Saving?
    requires |s'.submissions[j].counts| == |s'.submissions[j].stages| > 0
    ensures
      var sub := s'.submissions[j];
      forall p: nat | p < sub.counts[|sub.stages| - 1] :: Names(ls, PartitionId(j, |sub.stages|, p))
  {
    hide Names;
  }

  /** Over every run: a query is submitted, and at some point recorded as completed, by a synchronisation that began to
      read its tasks after the end of its save loop. From then on, the locations of that status serve the rows of the
      query that was submitted, partition for partition. */
  lemma CompletedStatusServesQuery(cfg: Config, trace: seq<State>, steps: seq<Step>, a: nat, b: nat, i: nat, k: nat,
                                   j: string, plan: Plan, ls: seq<JobLocation>)
    requires IsRun(cfg, trace, steps) && ReadBegan(steps, b, i, j) && i < k < |trace| && SaveEnded(trace[b], j)
    requires a < |steps| && steps[a] == Submit(j, plan) && steps[i] == SyncJob(j, Some(CompletedJob(ls)))
    ensures j in trace[k].submissions && trace[k].submissions[j].Saving?
    ensures ServesQuery(cfg.eng, trace[k].stores, j, |trace[k].submissions[j].stages|, plan, ls)
  {
    hide IsRun, Inv, Enabled, Apply, SaveEnded, Listed, Names, AllPlannedCompleted, ServesQuery, Remembers, PlansKept;
    hide ExecutorsKept, JobsKept;
    var schema := cfg.eng.SchemaOf(plan);
    CompletedJobHasResult(cfg, trace, steps, b, i, k, j, Some(CompletedJob(ls)), schema);
    RecordedIsListed(cfg, trace, steps, i, k, j, ls);
    AllAreNamed(cfg, trace, steps, b, i, j, ls);
    RunIsLater(cfg, trace, steps, i, k);
    RunInv(cfg, trace, steps, k);
    PlannedIsNamed(trace[i], trace[k], j, ls);
    var sub := trace[k].submissions[j];
    ReaderServes(cfg, trace[k], j, ls, |sub.stages|, sub.counts[|sub.stages| - 1], sub.plan, schema);
    SubmittedEarlier(cfg, trace, steps, a, k, j);
    RunRemembers(cfg, trace, steps, a, k, j, plan);
    RememberedPlan(trace[k], j, plan, trace[a].executors != map[]);
  }

  lemma SubmittedEarlier(cfg: Config, trace: seq<State>, steps: seq<Step>, a: nat, k: nat, j: string)
    requires IsRun(cfg, trace, steps) && k < |trace| && j in trace[k].submissions
    requires a < |steps| && steps[a].Submit? && steps[a].jobId == j
    ensures a < k
  {
    hide IsRun;
    var b := WasSubmitted(cfg, trace, steps, k, j);
    SubmittedOnce(cfg, trace, steps, a, b);
  }

  lemma RememberedPlan(s: State, j: string, plan: Plan, registered: bool)
    requires Remembers(s, j, plan, registered) && s.submissions[j].Saving?
    ensures s.submissions[j].plan == plan
  {
  }
}
