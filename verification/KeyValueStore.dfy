/** The key-value store of the standalone scheduler, and the typed map it stands for. */
module KeyValueStore {
  import opened Plans
  import opened Scheduling
  import opened Keys

  /** What the scheduler stores, each encoded as a protobuf message. */
  datatype Value =
    | ExecutorValue(meta: ExecutorMeta)
    | JobValue(job: JobStatus)
    | TaskValue(report: Report)
    | PlanValue(plan: Plan)

  /** The entries under a prefix, each once. */
  ghost predicate ScanOf(db: map<string, Value>, prefix: string, kvs: seq<(string, Value)>) {
    && (forall i | 0 <= i < |kvs| :: kvs[i].0 in db && IsPrefix(prefix, kvs[i].0) && kvs[i].1 == db[kvs[i].0])
    && (forall i, j | 0 <= i < j < |kvs| :: kvs[i].0 != kvs[j].0)
    && (forall key | key in db && IsPrefix(prefix, key) :: exists i | 0 <= i < |kvs| :: kvs[i].0 == key)
  }

  // ---- A scan in the order of keys ----

  ghost predicate Ascending(kvs: seq<(string, Value)>) {
    forall i, j | 0 <= i < j < |kvs| :: Before(kvs[i].0, kvs[j].0)
  }

  /** The next key the iteration comes to. */
  method FirstKey(keys: set<string>) returns (first: string)
    requires keys != {}
    ensures first in keys && forall key | key in keys && key != first :: Before(first, key)
  {
    hide Before;
    first :| first in keys;
    var todo := keys - {first};
    while todo != {}
      invariant todo <= keys && first in keys && first !in todo
      invariant forall key | key in keys && key !in todo && key != first :: Before(first, key)
      decreases todo
    {
      var key :| key in todo;
      BeforeTotal(first, key);
      ghost var was := first;
      if Before(key, first) {
        first := key;
      }
      todo := todo - {key};
      forall k | k in keys && k !in todo && k != first ensures Before(first, k) {
        if first != was && k != was {
          BeforeTransitive(first, was, k);
        }
      }
    }
  }

  /** What has been scanned are entries under the prefix, in order, and before all keys still to come. */
  ghost predicate ScannedBefore(db: map<string, Value>, prefix: string, kvs: seq<(string, Value)>, todo: set<string>) {
    && (forall i | 0 <= i < |kvs| :: kvs[i].0 in db && IsPrefix(prefix, kvs[i].0) && kvs[i].1 == db[kvs[i].0])
    && Ascending(kvs) && (forall i, key | 0 <= i < |kvs| && key in todo :: Before(kvs[i].0, key))
  }

  /** Every key under the prefix has been scanned or is still to come. */
  ghost predicate ScannedRest(db: map<string, Value>, prefix: string, kvs: seq<(string, Value)>, todo: set<string>) {
    forall key | key in db && IsPrefix(prefix, key) && key !in todo :: IsScanned(kvs, key)
  }

  ghost predicate IsScanned(kvs: seq<(string, Value)>, key: string) {
    exists i | 0 <= i < |kvs| :: kvs[i].0 == key
  }

  lemma ScannedMore(kvs: seq<(string, Value)>, kv: (string, Value), key: string)
    requires IsScanned(kvs, key) || key == kv.0
    ensures IsScanned(kvs + [kv], key)
  {
    var kvs' := kvs + [kv];
    if IsScanned(kvs, key) {
      var i :| 0 <= i < |kvs| && kvs[i].0 == key;
      assert kvs'[i].0 == key;
    } else {
      assert kvs'[|kvs|].0 == key;
    }
  }

  lemma KeyTaken(db: map<string, Value>, prefix: string, kvs: seq<(string, Value)>, todo: set<string>, key: string)
    requires ScannedBefore(db, prefix, kvs, todo) && key in todo && key in db && IsPrefix(prefix, key)
    requires forall other | other in todo && other != key :: Before(key, other)
    ensures ScannedBefore(db, prefix, kvs + [(key, db[key])], todo - {key})
  {
    hide Before, IsPrefix;
    var kvs' := kvs + [(key, db[key])];
    assert forall i | 0 <= i < |kvs| :: kvs'[i] == kvs[i];
    assert kvs'[|kvs|].0 == key;
  }

  lemma RestTaken(db: map<string, Value>, prefix: string, kvs: seq<(string, Value)>, todo: set<string>, key: string)
    requires ScannedRest(db, prefix, kvs, todo) && key in db
    ensures ScannedRest(db, prefix, kvs + [(key, db[key])], todo - {key})
  {
    hide IsPrefix, IsScanned;
    forall other | other in db && IsPrefix(prefix, other) && other !in todo - {key}
      ensures IsScanned(kvs + [(key, db[key])], other)
    {
      ScannedMore(kvs, (key, db[key]), other);
    }
  }

  lemma AllScanned(db: map<string, Value>, prefix: string, kvs: seq<(string, Value)>)
    requires ScannedBefore(db, prefix, kvs, {}) && ScannedRest(db, prefix, kvs, {})
    ensures ScanOf(db, prefix, kvs)
  {
    hide Before, IsPrefix, IsScanned;
    forall i, j | 0 <= i < j < |kvs| ensures kvs[i].0 != kvs[j].0 {
      NotBeforeItself(kvs[i].0);
    }
    forall key | key in db && IsPrefix(prefix, key) ensures exists i | 0 <= i < |kvs| :: kvs[i].0 == key {
      ScannedIsThere(kvs, key);
    }
  }

  lemma ScannedIsThere(kvs: seq<(string, Value)>, key: string)
    requires IsScanned(kvs, key)
    ensures exists i | 0 <= i < |kvs| :: kvs[i].0 == key
  {
  }

  class StandaloneClient {
    var db: map<string, Value>

    constructor ()
      ensures db == map[]
    {
      db := map[];
    }

    /** `None` stands for the empty vector the source returns for a missing key. */
    method Get(key: string) returns (value: Option<Value>)
      ensures value == if key in db then Some(db[key]) else None
    {
      value := if key in db then Some(db[key]) else None;
    }

    method GetFromPrefix(prefix: string) returns (kvs: seq<(string, Value)>)
      ensures ScanOf(db, prefix, kvs) && Ascending(kvs)
    {
      hide Before, IsPrefix, IsScanned;
      kvs := [];
      var todo := db.Keys;
      while todo != {}
        invariant todo <= db.Keys && ScannedBefore(db, prefix, kvs, todo) && ScannedRest(db, prefix, kvs, todo)
        decreases todo
      {
        var key := FirstKey(todo);
        if IsPrefix(prefix, key) {
          KeyTaken(db, prefix, kvs, todo, key);
          RestTaken(db, prefix, kvs, todo, key);
          kvs := kvs + [(key, db[key])];
        }
        todo := todo - {key};
      }
      AllScanned(db, prefix, kvs);
    }

    method Put(key: string, value: Value)
      modifies this
      ensures db == old(db)[key := value]
    {
      db := db[key := value];
    }
  }

  // ---- The typed state of a namespace ----

  datatype View = View(tasks: Tasks, plans: StagePlans, jobs: map<string, JobStatus>, executors: Executors)

  predicate InView(view: View, k: Key) {
    match k
    case ExecutorKey(_, id) => id in view.executors
    case JobKey(_, id) => id in view.jobs
    case TaskKey(_, pid) => pid in view.tasks
    case PlanKey(_, stage) => stage in view.plans
  }

  function ValueIn(view: View, k: Key): Value
    requires InView(view, k)
  {
    match k
    case ExecutorKey(_, id) => ExecutorValue(view.executors[id])
    case JobKey(_, id) => JobValue(view.jobs[id])
    case TaskKey(_, pid) => TaskValue(Report(pid, view.tasks[pid]))
    case PlanKey(_, stage) => PlanValue(view.plans[stage])
  }

  predicate RightValue(k: Key, v: Value) {
    match k
    case ExecutorKey(_, _) => v.ExecutorValue?
    case JobKey(_, _) => v.JobValue?
    case TaskKey(_, pid) => v.TaskValue? && v.report.partitionId == pid
    case PlanKey(_, _) => v.PlanValue?
  }

  function Updated(view: View, k: Key, v: Value): View
    requires RightValue(k, v)
  {
    match k
    case ExecutorKey(_, id) => view.(executors := view.executors[id := v.meta])
    case JobKey(_, id) => view.(jobs := view.jobs[id := v.job])
    case TaskKey(_, pid) => view.(tasks := view.tasks[pid := v.report.status])
    case PlanKey(_, stage) => view.(plans := view.plans[stage := v.plan])
  }

  /** The strings of the database that belong to the namespace are exactly the keys of the view, with its values. */
  ghost predicate Holds(db: map<string, Value>, ns: string, view: View) {
    && (forall k: Key | k.ns == ns && InView(view, k) ::
         ValidKey(k) && Render(k) in db && db[Render(k)] == ValueIn(view, k))
    && (forall s | s in db :: exists k: Key :: ValidKey(k) && Render(k) == s && (k.ns == ns ==> InView(view, k)))
  }

  lemma UpdatedView(view: View, k: Key, v: Value, k': Key)
    requires RightValue(k, v) && k'.ns == k.ns
    ensures InView(Updated(view, k, v), k') <==> k' == k || InView(view, k')
    ensures InView(Updated(view, k, v), k') ==>
      ValueIn(Updated(view, k, v), k') == if k' == k then v else ValueIn(view, k')
  {
  }

  /** Writing under a key writes that key of the typed state, and no other. */
  lemma PutRefines(db: map<string, Value>, view: View, k: Key, v: Value)
    requires Holds(db, k.ns, view) && ValidKey(k) && RightValue(k, v)
    ensures Holds(db[Render(k) := v], k.ns, Updated(view, k, v))
  {
    hide Render, ValidKey, RightValue, Updated, InView, ValueIn;
    var db', view' := db[Render(k) := v], Updated(view, k, v);
    forall k': Key | k'.ns == k.ns && InView(view', k')
      ensures ValidKey(k') && Render(k') in db' && db'[Render(k')] == ValueIn(view', k')
    {
      UpdatedView(view, k, v, k');
      if k' != k {
        if Render(k') == Render(k) {
          KeysInjective(k, k');
        }
      }
    }
    forall s | s in db'
      ensures exists k': Key :: ValidKey(k') && Render(k') == s && (k'.ns == k.ns ==> InView(view', k'))
    {
      if s == Render(k) {
        UpdatedView(view, k, v, k);
      } else {
        var k': Key :| ValidKey(k') && Render(k') == s && (k'.ns == k.ns ==> InView(view, k'));
        if k'.ns == k.ns {
          UpdatedView(view, k, v, k');
        }
      }
    }
  }

  /** Other namespaces do not notice. */
  lemma PutElsewhere(db: map<string, Value>, ns: string, view: View, k: Key, v: Value)
    requires Holds(db, ns, view) && ValidKey(k) && k.ns != ns
    ensures Holds(db[Render(k) := v], ns, view)
  {
    hide Render, ValidKey, InView, ValueIn;
    var db' := db[Render(k) := v];
    forall k': Key | k'.ns == ns && InView(view, k')
      ensures ValidKey(k') && Render(k') in db' && db'[Render(k')] == ValueIn(view, k')
    {
      if Render(k') == Render(k) {
        KeysInjective(k, k');
      }
    }
  }

  /** Reading a key reads the typed state. */
  lemma GetRefines(db: map<string, Value>, view: View, k: Key)
    requires Holds(db, k.ns, view) && ValidKey(k)
    ensures Render(k) in db <==> InView(view, k)
    ensures InView(view, k) ==> db[Render(k)] == ValueIn(view, k)
  {
    hide Render, ValidKey, InView, ValueIn;
    if Render(k) in db {
      var k': Key :| ValidKey(k') && Render(k') == Render(k) && (k'.ns == k.ns ==> InView(view, k'));
      KeysInjective(k, k');
    }
  }

  /** The entry of the database that stands for key `k`. */
  ghost predicate Stands(view: View, kv: (string, Value), k: Key) {
    ValidKey(k) && InView(view, k) && kv == (Render(k), ValueIn(view, k))
  }

  /** A scan finds every entry of the typed state whose key starts with the prefix... */
  lemma ScanFinds(db: map<string, Value>, view: View, prefix: string, kvs: seq<(string, Value)>, k: Key)
    requires Holds(db, k.ns, view) && ScanOf(db, prefix, kvs) && InView(view, k) && IsPrefix(prefix, Render(k))
    ensures exists i | 0 <= i < |kvs| :: Stands(view, kvs[i], k)
  {
    hide Render, ValidKey, IsPrefix, InView, ValueIn;
    var i :| 0 <= i < |kvs| && kvs[i].0 == Render(k);
    assert Stands(view, kvs[i], k);
  }

  /** ... and nothing else of that namespace. */
  lemma ScanFindsOnly(db: map<string, Value>, ns: string, view: View, prefix: string, kvs: seq<(string, Value)>, i: nat)
    requires Holds(db, ns, view) && ScanOf(db, prefix, kvs) && i < |kvs|
    ensures exists k: Key :: ValidKey(k) && IsPrefix(prefix, Render(k)) && (k.ns == ns ==> Stands(view, kvs[i], k))
  {
    hide Render, ValidKey, IsPrefix, InView, ValueIn;
    assert kvs[i].0 in db;
    var k: Key :| ValidKey(k) && Render(k) == kvs[i].0 && (k.ns == ns ==> InView(view, k));
    assert k.ns == ns ==> Stands(view, kvs[i], k);
  }

  lemma HeldIsValid(db: map<string, Value>, view: View, k: Key)
    requires Holds(db, k.ns, view) && InView(view, k)
    ensures ValidKey(k)
  {
  }

  // ---- The scans of the scheduler ----

  /** The entry of a stored task. */
  ghost predicate TaskEntry(ns: string, view: View, kv: (string, Value)) {
    && kv.1.TaskValue?
    && var r := kv.1.report;
       && r.partitionId in view.tasks && r.status == view.tasks[r.partitionId]
       && SlashFree(r.partitionId.jobId) && kv.0 == Render(TaskKey(ns, r.partitionId))
  }

  /** All tasks of the namespace whose job id starts with `jobPrefix`, each once. */
  ghost predicate ListsTasks(ns: string, view: View, jobPrefix: string, kvs: seq<(string, Value)>) {
    && (forall i | 0 <= i < |kvs| ::
         TaskEntry(ns, view, kvs[i]) && IsPrefix(jobPrefix, kvs[i].1.report.partitionId.jobId))
    && (forall pid | pid in view.tasks && IsPrefix(jobPrefix, pid.jobId) ::
         SlashFree(pid.jobId) && exists i | 0 <= i < |kvs| :: kvs[i].0 == Render(TaskKey(ns, pid)))
    && (forall i, j | 0 <= i < j < |kvs| :: kvs[i].0 != kvs[j].0)
  }

  lemma PrefixedTasks(db: map<string, Value>, ns: string, view: View, prefix: string, jobPrefix: string,
                      kvs: seq<(string, Value)>)
    requires Holds(db, ns, view) && ScanOf(db, prefix, kvs)
    requires forall k | ValidKey(k) ::
      IsPrefix(prefix, Render(k)) <==> k.TaskKey? && k.ns == ns && IsPrefix(jobPrefix, k.pid.jobId)
    ensures ListsTasks(ns, view, jobPrefix, kvs)
  {
    hide Render, IsPrefix, Holds;
    forall i | 0 <= i < |kvs|
      ensures TaskEntry(ns, view, kvs[i]) && IsPrefix(jobPrefix, kvs[i].1.report.partitionId.jobId)
    {
      ScanFindsOnly(db, ns, view, prefix, kvs, i);
      var k: Key :| ValidKey(k) && IsPrefix(prefix, Render(k)) && (k.ns == ns ==> Stands(view, kvs[i], k));
    }
    forall pid | pid in view.tasks && IsPrefix(jobPrefix, pid.jobId)
      ensures SlashFree(pid.jobId) && exists i | 0 <= i < |kvs| :: kvs[i].0 == Render(TaskKey(ns, pid))
    {
      var k := TaskKey(ns, pid);
      HeldIsValid(db, view, k);
      ScanFinds(db, view, prefix, kvs, k);
      var i :| 0 <= i < |kvs| && Stands(view, kvs[i], k);
      assert kvs[i].0 == Render(TaskKey(ns, pid));
    }
  }

  /** The scan of all tasks. */
  lemma TaskScan(db: map<string, Value>, ns: string, view: View, kvs: seq<(string, Value)>)
    requires Holds(db, ns, view) && SlashFree(ns) && ScanOf(db, GetTaskPrefix(ns), kvs)
    ensures ListsTasks(ns, view, [], kvs)
  {
    hide Render, GetTaskPrefix, Holds, ListsTasks;
    forall k | ValidKey(k) ensures IsPrefix(GetTaskPrefix(ns), Render(k)) <==> k.TaskKey? && k.ns == ns {
      ScansAreExact(ns, k);
    }
    PrefixedTasks(db, ns, view, GetTaskPrefix(ns), [], kvs);
  }

  /** The scan of a job's tasks. */
  lemma JobTaskScan(db: map<string, Value>, ns: string, view: View, jobId: string, kvs: seq<(string, Value)>)
    requires Holds(db, ns, view) && SlashFree(ns) && SlashFree(jobId) && ScanOf(db, GetTaskPrefixForJob(ns, jobId), kvs)
    ensures ListsTasks(ns, view, jobId, kvs)
  {
    hide Render, GetTaskPrefixForJob, Holds, ListsTasks;
    forall k | ValidKey(k)
      ensures IsPrefix(GetTaskPrefixForJob(ns, jobId), Render(k)) <==>
        k.TaskKey? && k.ns == ns && IsPrefix(jobId, k.pid.jobId)
    {
      JobScanFinds(ns, jobId, k);
    }
    PrefixedTasks(db, ns, view, GetTaskPrefixForJob(ns, jobId), jobId, kvs);
  }

  ghost predicate JobEntry(ns: string, view: View, kv: (string, Value), j: string) {
    j in view.jobs && SlashFree(j) && kv == (GetJobKey(ns, j), JobValue(view.jobs[j]))
  }

  ghost predicate IsJobEntry(ns: string, view: View, kv: (string, Value)) {
    exists j :: JobEntry(ns, view, kv, j)
  }

  ghost predicate ListsJobs(ns: string, view: View, kvs: seq<(string, Value)>) {
    && (forall i | 0 <= i < |kvs| :: IsJobEntry(ns, view, kvs[i]))
    && (forall j | j in view.jobs :: exists i | 0 <= i < |kvs| :: JobEntry(ns, view, kvs[i], j))
    && (forall i, j | 0 <= i < j < |kvs| :: kvs[i].0 != kvs[j].0)
  }

  lemma JobScan(db: map<string, Value>, ns: string, view: View, kvs: seq<(string, Value)>)
    requires Holds(db, ns, view) && SlashFree(ns) && ScanOf(db, GetJobPrefix(ns), kvs)
    ensures ListsJobs(ns, view, kvs)
  {
    hide GetJobPrefix, GetJobKey, Holds, IsPrefix, GetExecutorKey, GetTaskStatusKey, GetStagePlanKey;
    forall i | 0 <= i < |kvs| ensures IsJobEntry(ns, view, kvs[i]) {
      ScanFindsOnly(db, ns, view, GetJobPrefix(ns), kvs, i);
      var k: Key :| ValidKey(k) && IsPrefix(GetJobPrefix(ns), Render(k)) && (k.ns == ns ==> Stands(view, kvs[i], k));
      ScansAreExact(ns, k);
      assert JobEntry(ns, view, kvs[i], k.id);
    }
    forall j | j in view.jobs ensures exists i | 0 <= i < |kvs| :: JobEntry(ns, view, kvs[i], j) {
      var k := JobKey(ns, j);
      HeldIsValid(db, view, k);
      ScansAreExact(ns, k);
      ScanFinds(db, view, GetJobPrefix(ns), kvs, k);
      var i :| 0 <= i < |kvs| && Stands(view, kvs[i], k);
      assert JobEntry(ns, view, kvs[i], j);
    }
  }

  ghost predicate ExecutorEntry(view: View, kv: (string, Value), id: string) {
    id in view.executors && kv.1 == ExecutorValue(view.executors[id])
  }

  ghost predicate IsExecutorEntry(view: View, kv: (string, Value)) {
    exists id :: ExecutorEntry(view, kv, id)
  }

  ghost predicate ListsExecutors(view: View, kvs: seq<(string, Value)>) {
    && (forall i | 0 <= i < |kvs| :: IsExecutorEntry(view, kvs[i]))
    && (forall id | id in view.executors :: exists i | 0 <= i < |kvs| :: ExecutorEntry(view, kvs[i], id))
  }

  lemma ExecutorScan(db: map<string, Value>, ns: string, view: View, kvs: seq<(string, Value)>)
    requires Holds(db, ns, view) && SlashFree(ns) && ScanOf(db, GetExecutorsPrefix(ns), kvs)
    ensures ListsExecutors(view, kvs)
  {
    hide GetExecutorsPrefix, Holds, IsPrefix, Render;
    forall i | 0 <= i < |kvs| ensures IsExecutorEntry(view, kvs[i]) {
      ScanFindsOnly(db, ns, view, GetExecutorsPrefix(ns), kvs, i);
      var k: Key :| ValidKey(k) && IsPrefix(GetExecutorsPrefix(ns), Render(k))
        && (k.ns == ns ==> Stands(view, kvs[i], k));
      ScansAreExact(ns, k);
      assert ExecutorEntry(view, kvs[i], k.id);
    }
    forall id | id in view.executors ensures exists i | 0 <= i < |kvs| :: ExecutorEntry(view, kvs[i], id) {
      var k := ExecutorKey(ns, id);
      HeldIsValid(db, view, k);
      ScansAreExact(ns, k);
      ScanFinds(db, view, GetExecutorsPrefix(ns), kvs, k);
      var i :| 0 <= i < |kvs| && Stands(view, kvs[i], k);
      assert ExecutorEntry(view, kvs[i], id);
    }
  }
}
