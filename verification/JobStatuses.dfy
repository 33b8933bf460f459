/** What the stored tasks of a job say about it, as `get_job_status_from_tasks` reads them. */
module JobStatuses {
  import opened Plans
  import opened Scheduling
  import opened Keys
  import opened KeyValueStore

  function LocationIn(executors: Executors, r: Report): JobLocation {
    JobLocation(r.partitionId,
      if r.status.Completed? && r.status.executorId in executors then Some(executors[r.status.executorId]) else None)
  }

  /** What a list of statuses says about their job: the first failure decides, a running task only counts if none
      failed. */
  ghost predicate SaysOfJob(statuses: seq<Report>, executors: Executors, v: Option<JobStatus>) {
    if statuses == [] then v == None
    else if forall i | 0 <= i < |statuses| :: statuses[i].status.Completed? then
      && v.Some? && v.value.CompletedJob? && |v.value.locations| == |statuses|
      && forall i | 0 <= i < |statuses| :: v.value.locations[i] == LocationIn(executors, statuses[i])
    else if exists i | 0 <= i < |statuses| :: statuses[i].status.Failed? then
      exists f | 0 <= f < |statuses| ::
        && statuses[f].status.Failed? && v == Some(FailedJob(statuses[f].status.error))
        && forall i | 0 <= i < f :: !statuses[i].status.Failed?
    else if exists i | 0 <= i < |statuses| :: statuses[i].status.Running? then v == Some(RunningJob)
    else v == None
  }

  /** The loops of `get_job_status_from_tasks`. */
  method StatusFrom(statuses: seq<Report>, executors: Executors) returns (v: Option<JobStatus>)
    ensures SaysOfJob(statuses, executors, v)
  {
    if statuses == [] {
      return None;
    }
    var locations: seq<JobLocation> := [];
    var completed := true;
    for i := 0 to |statuses|
      invariant completed <==> forall k | 0 <= k < i :: statuses[k].status.Completed?
      invariant completed ==> |locations| == i
      invariant completed ==> forall k | 0 <= k < i :: locations[k] == LocationIn(executors, statuses[k])
    {
      if !statuses[i].status.Completed? {
        completed := false;
        break;
      }
      locations := locations + [LocationIn(executors, statuses[i])];
    }
    if completed {
      return Some(CompletedJob(locations));
    }
    v := None;
    for i := 0 to |statuses|
      invariant forall k | 0 <= k < i :: !statuses[k].status.Failed?
      invariant v == if exists k | 0 <= k < i :: statuses[k].status.Running? then Some(RunningJob) else None
    {
      match statuses[i].status
      case Failed(error) =>
        return Some(FailedJob(error));
      case Running(_) =>
        if v == None {
          v := Some(RunningJob);
        }
      case _ =>
    }
  }

  // ---- The tasks a job is judged by ----

  /** The tasks a scan for the job's tasks finds: those of every job whose id starts with this one. */
  function Credited(tasks: Tasks, jobId: string): Tasks {
    map pid | pid in tasks && IsPrefix(jobId, pid.jobId) :: tasks[pid]
  }

  /** No other job's id extends this one. */
  predicate NoExtension(tasks: Tasks, jobId: string) {
    forall pid | pid in tasks :: IsPrefix(jobId, pid.jobId) ==> pid.jobId == jobId
  }

  /** Each of the tasks once, with its status. */
  ghost predicate ListsAll(tasks: Tasks, statuses: seq<Report>) {
    && (forall i | 0 <= i < |statuses| ::
         statuses[i].partitionId in tasks && statuses[i].status == tasks[statuses[i].partitionId])
    && (forall pid | pid in tasks :: exists i | 0 <= i < |statuses| :: statuses[i].partitionId == pid)
    && (forall i, j | 0 <= i < j < |statuses| :: statuses[i].partitionId != statuses[j].partitionId)
  }

  /** What the tasks credited to a job say about it, read in some order. */
  ghost predicate CreditedVerdict(tasks: Tasks, executors: Executors, jobId: string, v: Option<JobStatus>) {
    exists statuses :: ListsAll(Credited(tasks, jobId), statuses) && SaysOfJob(statuses, executors, v)
  }

  lemma PrefixRefl(s: string)
    ensures IsPrefix(s, s)
  {
  }

  ghost predicate ReportsOf(kvs: seq<(string, Value)>, statuses: seq<Report>) {
    |statuses| == |kvs| && forall i | 0 <= i < |kvs| :: kvs[i].1 == TaskValue(statuses[i])
  }

  lemma ScannedStatus(ns: string, view: View, jobId: string, kvs: seq<(string, Value)>, statuses: seq<Report>, i: nat)
    requires ListsTasks(ns, view, jobId, kvs) && ReportsOf(kvs, statuses) && i < |kvs|
    ensures
      var pid := statuses[i].partitionId;
      && pid in Credited(view.tasks, jobId) && statuses[i].status == view.tasks[pid]
      && SlashFree(pid.jobId) && kvs[i].0 == Render(TaskKey(ns, pid))
  {
    hide Render, IsPrefix;
    assert TaskEntry(ns, view, kvs[i]);
  }

  lemma StatusScanned(ns: string, view: View, jobId: string, kvs: seq<(string, Value)>, statuses: seq<Report>,
                      pid: PartitionId)
    requires SlashFree(ns) && ListsTasks(ns, view, jobId, kvs) && ReportsOf(kvs, statuses)
    requires pid in Credited(view.tasks, jobId)
    ensures exists i | 0 <= i < |statuses| :: statuses[i].partitionId == pid
  {
    hide Render, IsPrefix, TaskEntry;
    var i :| 0 <= i < |kvs| && kvs[i].0 == Render(TaskKey(ns, pid));
    ScannedStatus(ns, view, jobId, kvs, statuses, i);
    KeysInjective(TaskKey(ns, pid), TaskKey(ns, statuses[i].partitionId));
    assert statuses[i].partitionId == pid;
  }

  lemma ScannedStatuses(ns: string, view: View, jobId: string, kvs: seq<(string, Value)>, statuses: seq<Report>)
    requires SlashFree(ns) && ListsTasks(ns, view, jobId, kvs) && ReportsOf(kvs, statuses)
    ensures ListsAll(Credited(view.tasks, jobId), statuses)
  {
    hide Render, ListsTasks, ReportsOf, IsPrefix;
    var tasks := Credited(view.tasks, jobId);
    assert |statuses| == |kvs| by { SameLength(kvs, statuses); }
    forall i | 0 <= i < |statuses|
      ensures statuses[i].partitionId in tasks && statuses[i].status == tasks[statuses[i].partitionId]
    {
      ScannedStatus(ns, view, jobId, kvs, statuses, i);
    }
    forall pid | pid in tasks ensures exists i | 0 <= i < |statuses| :: statuses[i].partitionId == pid {
      StatusScanned(ns, view, jobId, kvs, statuses, pid);
    }
    forall i, j | 0 <= i < j < |statuses| ensures statuses[i].partitionId != statuses[j].partitionId {
      ScannedStatus(ns, view, jobId, kvs, statuses, i);
      ScannedStatus(ns, view, jobId, kvs, statuses, j);
      KeysDiffer(ns, view, jobId, kvs, i, j);
    }
  }

  lemma SameLength(kvs: seq<(string, Value)>, statuses: seq<Report>)
    requires ReportsOf(kvs, statuses)
    ensures |statuses| == |kvs|
  {
  }

  lemma KeysDiffer(ns: string, view: View, jobId: string, kvs: seq<(string, Value)>, i: nat, j: nat)
    requires ListsTasks(ns, view, jobId, kvs) && i < j < |kvs|
    ensures kvs[i].0 != kvs[j].0
  {
  }

  // ---- Without extensions, the job's own tasks ----

  /** Each task of the job once, with its status. */
  ghost predicate ListsStatuses(tasks: Tasks, jobId: string, statuses: seq<Report>) {
    && (forall i | 0 <= i < |statuses| ::
         OfJob(tasks, jobId, statuses[i].partitionId) && statuses[i].status == tasks[statuses[i].partitionId])
    && (forall pid | pid in tasks && pid.jobId == jobId ::
         exists i | 0 <= i < |statuses| :: statuses[i].partitionId == pid)
    && (forall i, j | 0 <= i < j < |statuses| :: statuses[i].partitionId != statuses[j].partitionId)
  }

  lemma CreditedAreOwn(tasks: Tasks, jobId: string, statuses: seq<Report>)
    requires NoExtension(tasks, jobId) && ListsAll(Credited(tasks, jobId), statuses)
    ensures ListsStatuses(tasks, jobId, statuses)
  {
    hide IsPrefix;
    PrefixRefl(jobId);
    forall pid | pid in tasks && pid.jobId == jobId
      ensures exists i | 0 <= i < |statuses| :: statuses[i].partitionId == pid
    {
      assert pid in Credited(tasks, jobId);
    }
  }

  /** If no job's id extends this one, what is said of the job is its verdict. */
  lemma CreditedIsVerdict(tasks: Tasks, executors: Executors, jobId: string, v: Option<JobStatus>)
    requires NoExtension(tasks, jobId) && CreditedVerdict(tasks, executors, jobId, v)
    ensures Verdict(tasks, executors, jobId, v)
  {
    hide NoExtension, ListsAll, SaysOfJob, Verdict, ListsStatuses, Credited;
    var statuses :| ListsAll(Credited(tasks, jobId), statuses) && SaysOfJob(statuses, executors, v);
    CreditedAreOwn(tasks, jobId, statuses);
    StatusesGiveVerdict(tasks, executors, jobId, statuses, v);
  }

  /** Statuses that list a job's tasks, in whatever order, say what the verdict is. */
  lemma StatusesGiveVerdict(tasks: Tasks, executors: Executors, jobId: string, statuses: seq<Report>,
                            v: Option<JobStatus>)
    requires ListsStatuses(tasks, jobId, statuses) && SaysOfJob(statuses, executors, v)
    ensures Verdict(tasks, executors, jobId, v)
  {
    if statuses == [] {
      assert forall pid | pid in tasks :: pid.jobId != jobId;
    } else {
      assert OfJob(tasks, jobId, statuses[0].partitionId);
      AllOrSome(tasks, jobId, statuses);
      if AllCompleted(tasks, jobId) {
        LocationsListJob(tasks, executors, jobId, statuses, v.value.locations);
      }
    }
  }

  lemma AllOrSome(tasks: Tasks, jobId: string, statuses: seq<Report>)
    requires ListsStatuses(tasks, jobId, statuses)
    ensures AllCompleted(tasks, jobId) <==> forall i | 0 <= i < |statuses| :: statuses[i].status.Completed?
    ensures (exists pid | pid in tasks :: pid.jobId == jobId && tasks[pid].Failed?) <==>
      exists i | 0 <= i < |statuses| :: statuses[i].status.Failed?
    ensures (exists pid | pid in tasks :: pid.jobId == jobId && tasks[pid].Running?) <==>
      exists i | 0 <= i < |statuses| :: statuses[i].status.Running?
  {
  }

  lemma LocationsListJob(tasks: Tasks, executors: Executors, jobId: string, statuses: seq<Report>,
                         locations: seq<JobLocation>)
    requires ListsStatuses(tasks, jobId, statuses) && AllCompleted(tasks, jobId) && |locations| == |statuses|
    requires forall i | 0 <= i < |statuses| :: locations[i] == LocationIn(executors, statuses[i])
    ensures ListsJob(tasks, executors, jobId, locations)
  {
    forall pid | pid in tasks && pid.jobId == jobId
      ensures exists i | 0 <= i < |locations| :: locations[i].partitionId == pid
    {
      var i :| 0 <= i < |statuses| && statuses[i].partitionId == pid;
      assert locations[i].partitionId == pid;
    }
  }

  // ---- All jobs ----

  /** Every job has the status the tasks credited to it call for. */
  ghost predicate Current(tasks: Tasks, executors: Executors, jobs: map<string, JobStatus>,
                          jobs': map<string, JobStatus>)
  {
    jobs'.Keys == jobs.Keys && forall j | j in jobs :: CurrentJob(tasks, executors, j, jobs[j], jobs'[j])
  }

  ghost predicate CurrentJob(tasks: Tasks, executors: Executors, j: string, status: JobStatus, status': JobStatus) {
    exists v :: CreditedVerdict(tasks, executors, j, v) && status' == if v.Some? then v.value else status
  }

  /** Every job has the status its own tasks call for. */
  ghost predicate Synchronized(tasks: Tasks, executors: Executors, jobs: map<string, JobStatus>,
                               jobs': map<string, JobStatus>)
  {
    jobs'.Keys == jobs.Keys && forall j | j in jobs :: SyncedJob(tasks, executors, j, jobs[j], jobs'[j])
  }

  ghost predicate SyncedJob(tasks: Tasks, executors: Executors, j: string, status: JobStatus, status': JobStatus) {
    exists v :: Verdict(tasks, executors, j, v) && status' == if v.Some? then v.value else status
  }

  /** As with job ids of one length, so that none extends another. */
  lemma CurrentIsSynchronized(tasks: Tasks, executors: Executors, jobs: map<string, JobStatus>,
                              jobs': map<string, JobStatus>)
    requires Current(tasks, executors, jobs, jobs') && forall j | j in jobs :: NoExtension(tasks, j)
    ensures Synchronized(tasks, executors, jobs, jobs')
  {
    hide NoExtension, Verdict, CreditedVerdict;
    forall j | j in jobs ensures SyncedJob(tasks, executors, j, jobs[j], jobs'[j]) {
      assert CurrentJob(tasks, executors, j, jobs[j], jobs'[j]);
      var v :| CreditedVerdict(tasks, executors, j, v) && jobs'[j] == if v.Some? then v.value else jobs[j];
      CreditedIsVerdict(tasks, executors, j, v);
    }
  }
}
