/** The string keys of the scheduler's state, and what a scan by prefix finds among them. */
module Keys {
  import opened Plans
  import opened Scheduling

  // ---- Numbers as `{}` prints them ----

  function Decimal(n: nat): string {
    if n < 10 then [(48 + n) as char] else Decimal(n / 10) + [(48 + n % 10) as char]
  }

  function Parsed(s: string): int {
    if s == [] then 0 else 10 * Parsed(s[..|s| - 1]) + (s[|s| - 1] as int - 48)
  }

  lemma {:induction false} DecimalParses(n: nat)
    ensures Parsed(Decimal(n)) == n
    ensures SlashFree(Decimal(n))
  {
    if n < 10 {
      assert [(48 + n) as char][..0] == [];
    } else {
      DecimalParses(n / 10);
      assert Decimal(n)[..|Decimal(n)| - 1] == Decimal(n / 10);
    }
  }

  // ---- Strings joined by slashes ----

  predicate SlashFree(s: string) {
    '/' !in s
  }

  predicate AllSlashFree(parts: seq<string>) {
    forall i | 0 <= i < |parts| :: SlashFree(parts[i])
  }

  function Join(parts: seq<string>): string
    requires parts != []
  {
    if |parts| == 1 then parts[0] else parts[0] + ['/'] + Join(parts[1..])
  }

  /** `split('/')`. */
  function Split(s: string): (parts: seq<string>)
    ensures parts != []
  {
    if s == [] then [[]]
    else
      var rest := Split(s[1..]);
      if s[0] == '/' then [[]] + rest else [[s[0]] + rest[0]] + rest[1..]
  }

  lemma {:induction false} SplitOne(a: string)
    requires SlashFree(a)
    ensures Split(a) == [a]
  {
    if a != [] {
      SplitOne(a[1..]);
      assert [a[0]] + a[1..] == a;
    }
  }

  lemma {:induction false} SplitFirst(a: string, rest: string)
    requires SlashFree(a)
    ensures Split(a + ['/'] + rest) == [a] + Split(rest)
  {
    var s := a + ['/'] + rest;
    if a == [] {
      assert s[1..] == rest;
    } else {
      SplitFirst(a[1..], rest);
      assert s[1..] == a[1..] + ['/'] + rest;
      assert [a[0]] + a[1..] == a;
    }
  }

  lemma {:induction false} SplitJoin(parts: seq<string>)
    requires parts != [] && AllSlashFree(parts)
    ensures Split(Join(parts)) == parts
  {
    if |parts| == 1 {
      SplitOne(parts[0]);
    } else {
      SplitJoin(parts[1..]);
      SplitFirst(parts[0], Join(parts[1..]));
    }
  }

  predicate IsPrefix(p: string, s: string) {
    |p| <= |s| && forall i | 0 <= i < |p| :: p[i] == s[i]
  }

  lemma PrefixOfFirst(a: string, b: string, rest: string)
    requires SlashFree(a)
    ensures IsPrefix(a, b + ['/'] + rest) <==> IsPrefix(a, b)
  {
    assert (b + ['/'] + rest)[|b|] == '/';
  }

  lemma SamePrefix(a: string, rest: string, b: string, rest': string)
    requires SlashFree(a) && SlashFree(b)
    ensures IsPrefix(a + ['/'] + rest, b + ['/'] + rest') <==> a == b && IsPrefix(rest, rest')
  {
    var s, t := a + ['/'] + rest, b + ['/'] + rest';
    assert s[|a|] == '/' && t[|b|] == '/';
    assert forall i | 0 <= i < |rest| :: s[|a| + 1 + i] == rest[i];
    assert forall i | 0 <= i < |rest'| :: t[|b| + 1 + i] == rest'[i];
    if IsPrefix(s, t) {
      assert |a| == |b|;
      assert forall i | 0 <= i < |a| :: s[i] == a[i] && t[i] == b[i];
      assert a == b;
    }
  }

  lemma NoSlashInside(s: string, a: string, rest: string)
    requires SlashFree(s)
    ensures !IsPrefix(a + ['/'] + rest, s)
  {
    assert (a + ['/'] + rest)[|a|] == '/';
  }

  /** The parts of `a` are the first parts of `b`, the last one possibly cut short. */
  predicate FirstParts(a: seq<string>, b: seq<string>)
    requires a != []
  {
    |a| <= |b| && (forall i | 0 <= i < |a| - 1 :: a[i] == b[i]) && IsPrefix(a[|a| - 1], b[|a| - 1])
  }

  lemma FirstPartsStep(a: seq<string>, b: seq<string>)
    requires |a| > 1 && |b| > 1
    ensures FirstParts(a, b) <==> a[0] == b[0] && FirstParts(a[1..], b[1..])
  {
    hide IsPrefix;
    if a[0] == b[0] && FirstParts(a[1..], b[1..]) {
      assert forall i | 1 <= i < |a| - 1 :: a[1..][i - 1] == a[i] && b[1..][i - 1] == b[i];
    }
  }

  /** For slash-free parts, prefixes of joined strings are prefixes of parts. */
  lemma {:induction false} PrefixOfJoin(a: seq<string>, b: seq<string>)
    requires a != [] && b != [] && AllSlashFree(a) && AllSlashFree(b)
    ensures IsPrefix(Join(a), Join(b)) <==> FirstParts(a, b)
  {
    hide IsPrefix;
    if |a| == 1 {
      if |b| > 1 {
        PrefixOfFirst(a[0], b[0], Join(b[1..]));
      }
    } else if |b| == 1 {
      NoSlashInside(b[0], a[0], Join(a[1..]));
    } else {
      SamePrefix(a[0], Join(a[1..]), b[0], Join(b[1..]));
      PrefixOfJoin(a[1..], b[1..]);
      FirstPartsStep(a, b);
    }
  }

  // ---- The keys ----

  function GetExecutorsPrefix(ns: string): string {
    "/ballista/" + ns + "/executors"
  }

  function GetExecutorKey(ns: string, id: string): string {
    GetExecutorsPrefix(ns) + "/" + id
  }

  function GetJobPrefix(ns: string): string {
    "/ballista/" + ns + "/jobs"
  }

  function GetJobKey(ns: string, id: string): string {
    GetJobPrefix(ns) + "/" + id
  }

  function GetTaskPrefix(ns: string): string {
    "/ballista/" + ns + "/tasks"
  }

  function GetTaskPrefixForJob(ns: string, jobId: string): string {
    GetTaskPrefix(ns) + "/" + jobId
  }

  function GetTaskStatusKey(ns: string, jobId: string, stageId: nat, partitionId: nat): string {
    GetTaskPrefixForJob(ns, jobId) + "/" + Decimal(stageId) + "/" + Decimal(partitionId)
  }

  function GetStagePlanKey(ns: string, jobId: string, stageId: nat): string {
    "/ballista/" + ns + "/stages/" + jobId + "/" + Decimal(stageId)
  }

  /** What a key stands for. */
  datatype Key =
    | ExecutorKey(ns: string, id: string)
    | JobKey(ns: string, id: string)
    | TaskKey(ns: string, pid: PartitionId)
    | PlanKey(ns: string, stage: StageKey)

  function Render(k: Key): string {
    match k
    case ExecutorKey(ns, id) => GetExecutorKey(ns, id)
    case JobKey(ns, id) => GetJobKey(ns, id)
    case TaskKey(ns, pid) => GetTaskStatusKey(ns, pid.jobId, pid.stageId, pid.partitionId)
    case PlanKey(ns, stage) => GetStagePlanKey(ns, stage.jobId, stage.stageId)
  }

  function Base(ns: string, kind: string): seq<string> {
    ["", "ballista", ns, kind]
  }

  function Kind(k: Key): string {
    match k
    case ExecutorKey(_, _) => "executors"
    case JobKey(_, _) => "jobs"
    case TaskKey(_, _) => "tasks"
    case PlanKey(_, _) => "stages"
  }

  function Rest(k: Key): seq<string> {
    match k
    case ExecutorKey(_, id) => [id]
    case JobKey(_, id) => [id]
    case TaskKey(_, pid) => [pid.jobId, Decimal(pid.stageId), Decimal(pid.partitionId)]
    case PlanKey(_, stage) => [stage.jobId, Decimal(stage.stageId)]
  }

  /** A key is these parts, joined by slashes. */
  function Parts(k: Key): seq<string> {
    Base(k.ns, Kind(k)) + Rest(k)
  }

  predicate ValidKey(k: Key) {
    && SlashFree(k.ns)
    && match k
       case ExecutorKey(_, id) => SlashFree(id)
       case JobKey(_, id) => SlashFree(id)
       case TaskKey(_, pid) => SlashFree(pid.jobId)
       case PlanKey(_, stage) => SlashFree(stage.jobId)
  }

  lemma {:induction false} JoinAppend(parts: seq<string>, x: string)
    requires parts != []
    ensures Join(parts + [x]) == Join(parts) + ['/'] + x
  {
    if |parts| == 1 {
      assert (parts + [x])[1..] == [x];
    } else {
      JoinAppend(parts[1..], x);
      assert (parts + [x])[1..] == parts[1..] + [x];
    }
  }

  lemma JoinBase(ns: string, kind: string)
    ensures Join(Base(ns, kind)) == "/ballista/" + ns + (['/'] + kind)
  {
    var root := ["", "ballista"];
    assert root == [""] + ["ballista"];
    JoinAppend([""], "ballista");
    assert Join(root) == "/ballista";
    JoinAppend(root, ns);
    JoinAppend(root + [ns], kind);
    assert root + [ns] + [kind] == Base(ns, kind);
  }

  lemma PrefixesJoin(ns: string)
    ensures GetExecutorsPrefix(ns) == Join(Base(ns, "executors"))
    ensures GetJobPrefix(ns) == Join(Base(ns, "jobs"))
    ensures GetTaskPrefix(ns) == Join(Base(ns, "tasks"))
  {
    JoinBase(ns, "executors");
    JoinBase(ns, "jobs");
    JoinBase(ns, "tasks");
  }

  lemma StagesPrefixJoins(ns: string)
    ensures "/ballista/" + ns + "/stages/" == Join(Base(ns, "stages")) + ['/']
  {
    JoinBase(ns, "stages");
  }

  lemma RenderJoins(k: Key)
    ensures Render(k) == Join(Parts(k))
  {
    hide Join, GetExecutorsPrefix, GetJobPrefix, GetTaskPrefix, Base, Kind;
    var base := Base(k.ns, Kind(k));
    BaseNotEmpty(k.ns, Kind(k));
    KindOf(k);
    PrefixesJoin(k.ns);
    match k
    case ExecutorKey(_, id) => JoinAppend(base, id);
    case JobKey(_, id) => JoinAppend(base, id);
    case TaskKey(_, pid) =>
      JoinAppend(base, pid.jobId);
      JoinAppend(base + [pid.jobId], Decimal(pid.stageId));
      JoinAppend(base + [pid.jobId] + [Decimal(pid.stageId)], Decimal(pid.partitionId));
      assert base + [pid.jobId] + [Decimal(pid.stageId)] + [Decimal(pid.partitionId)] == Parts(k);
    case PlanKey(ns, stage) =>
      StagesPrefixJoins(ns);
      JoinAppend(base, stage.jobId);
      JoinAppend(base + [stage.jobId], Decimal(stage.stageId));
      assert base + [stage.jobId] + [Decimal(stage.stageId)] == Parts(k);
  }

  lemma BaseNotEmpty(ns: string, kind: string)
    ensures |Base(ns, kind)| == 4 && Base(ns, kind)[2] == ns && Base(ns, kind)[3] == kind
    ensures forall ns', kind' :: Base(ns', kind')[0] == Base(ns, kind)[0] && Base(ns', kind')[1] == Base(ns, kind)[1]
    ensures SlashFree(ns) && SlashFree(kind) ==> AllSlashFree(Base(ns, kind))
  {
  }

  /** The kinds differ, and none is a prefix of another. */
  lemma KindOf(k: Key)
    ensures k.ExecutorKey? <==> Kind(k) == "executors"
    ensures k.JobKey? <==> Kind(k) == "jobs"
    ensures k.TaskKey? <==> Kind(k) == "tasks"
    ensures k.PlanKey? <==> Kind(k) == "stages"
    ensures IsPrefix("executors", Kind(k)) <==> k.ExecutorKey?
    ensures IsPrefix("jobs", Kind(k)) <==> k.JobKey?
    ensures IsPrefix("tasks", Kind(k)) <==> k.TaskKey?
    ensures SlashFree(Kind(k))
  {
    assert "executors"[0] == 'e' && "jobs"[0] == 'j' && "tasks"[0] == 't' && "stages"[0] == 's';
    assert Kind(k)[0] == match k
      case ExecutorKey(_, _) => 'e' case JobKey(_, _) => 'j' case TaskKey(_, _) => 't' case PlanKey(_, _) => 's';
  }

  lemma PartsSlashFree(k: Key)
    requires ValidKey(k)
    ensures Parts(k) != [] && AllSlashFree(Parts(k))
  {
    hide Base, Kind;
    BaseNotEmpty(k.ns, Kind(k));
    KindOf(k);
    match k
    case TaskKey(_, pid) =>
      DecimalParses(pid.stageId);
      DecimalParses(pid.partitionId);
    case PlanKey(_, stage) =>
      DecimalParses(stage.stageId);
    case _ =>
  }

  /** Different keys are different strings: the four kinds do not meet, within or across namespaces. */
  lemma KeysInjective(a: Key, b: Key)
    requires ValidKey(a) && ValidKey(b) && Render(a) == Render(b)
    ensures a == b
  {
    hide Render, Join, Split, Parts, ValidKey;
    RenderJoins(a);
    RenderJoins(b);
    PartsSlashFree(a);
    PartsSlashFree(b);
    SplitJoin(Parts(a));
    SplitJoin(Parts(b));
    PartsInjective(a, b);
  }

  lemma PartsInjective(a: Key, b: Key)
    requires Parts(a) == Parts(b)
    ensures a == b
  {
    hide Base, Kind, Decimal;
    BaseNotEmpty(a.ns, Kind(a));
    BaseNotEmpty(b.ns, Kind(b));
    assert Parts(a)[2] == a.ns && Parts(b)[2] == b.ns;
    assert Parts(a)[3] == Kind(a) && Parts(b)[3] == Kind(b);
    assert Parts(a)[4..] == Rest(a) && Parts(b)[4..] == Rest(b);
    KindOf(a);
    KindOf(b);
    RestInjective(a, b);
  }

  lemma RestInjective(a: Key, b: Key)
    requires a.ns == b.ns && Rest(a) == Rest(b)
    requires (a.ExecutorKey? <==> b.ExecutorKey?) && (a.JobKey? <==> b.JobKey?) && (a.TaskKey? <==> b.TaskKey?)
    ensures a == b
  {
    hide Decimal;
    match a
    case TaskKey(_, pid) =>
      DecimalParses(pid.stageId);
      DecimalParses(pid.partitionId);
      DecimalParses(b.pid.stageId);
      DecimalParses(b.pid.partitionId);
      assert Rest(a)[0] == Rest(b)[0] && Rest(a)[1] == Rest(b)[1] && Rest(a)[2] == Rest(b)[2];
    case PlanKey(_, stage) =>
      DecimalParses(stage.stageId);
      DecimalParses(b.stage.stageId);
      assert Rest(a)[0] == Rest(b)[0] && Rest(a)[1] == Rest(b)[1];
    case _ =>
      assert Rest(a)[0] == Rest(b)[0];
  }

  // ---- Scans ----

  /** A key starts with a base exactly if it has its namespace and kind. */
  lemma StartsWithBase(ns: string, kind: string, k: Key)
    requires ValidKey(k) && SlashFree(ns) && SlashFree(kind)
    ensures IsPrefix(Join(Base(ns, kind)), Render(k)) <==> k.ns == ns && IsPrefix(kind, Kind(k))
  {
    hide Render, Join, Base, Kind, ValidKey, IsPrefix;
    RenderJoins(k);
    PartsSlashFree(k);
    BaseNotEmpty(ns, kind);
    BaseNotEmpty(k.ns, Kind(k));
    PrefixOfJoin(Base(ns, kind), Parts(k));
    assert Parts(k)[2] == k.ns && Parts(k)[3] == Kind(k);
  }

  /** Each scan of a kind finds the keys of that kind and namespace, and nothing else. */
  lemma ScansAreExact(ns: string, k: Key)
    requires ValidKey(k) && SlashFree(ns)
    ensures IsPrefix(GetExecutorsPrefix(ns), Render(k)) <==> k.ExecutorKey? && k.ns == ns
    ensures IsPrefix(GetJobPrefix(ns), Render(k)) <==> k.JobKey? && k.ns == ns
    ensures IsPrefix(GetTaskPrefix(ns), Render(k)) <==> k.TaskKey? && k.ns == ns
  {
    hide Render, Join, Base, Kind, ValidKey, IsPrefix, GetExecutorsPrefix, GetJobPrefix, GetTaskPrefix;
    PrefixesJoin(ns);
    KindOf(k);
    StartsWithBase(ns, "executors", k);
    StartsWithBase(ns, "jobs", k);
    StartsWithBase(ns, "tasks", k);
  }

  /** The scan of a job's tasks has no slash after the job id: it also finds the tasks of every job whose id extends
      this one. */
  lemma JobScanFinds(ns: string, jobId: string, k: Key)
    requires ValidKey(k) && SlashFree(ns) && SlashFree(jobId)
    ensures IsPrefix(GetTaskPrefixForJob(ns, jobId), Render(k)) <==>
      k.TaskKey? && k.ns == ns && IsPrefix(jobId, k.pid.jobId)
  {
    hide Render, Join, Base, Kind, ValidKey, IsPrefix, GetTaskPrefix, Decimal;
    PrefixesJoin(ns);
    KindOf(k);
    BaseNotEmpty(ns, "tasks");
    BaseNotEmpty(k.ns, Kind(k));
    RenderJoins(k);
    PartsSlashFree(k);
    var prefix := Base(ns, "tasks") + [jobId];
    JoinAppend(Base(ns, "tasks"), jobId);
    PrefixOfJoin(prefix, Parts(k));
    assert Parts(k)[2] == k.ns && Parts(k)[3] == Kind(k) && Parts(k)[4] == Rest(k)[0];
    assert forall i | 0 <= i < 4 :: prefix[i] == Base(ns, "tasks")[i] && Parts(k)[i] == Base(k.ns, Kind(k))[i];
    assert prefix[4] == jobId;
  }

  /** So a job's scan is exact, among given tasks, if and only if no other task's job id extends this one... */
  lemma JobScanExact(ns: string, jobId: string, tasks: set<PartitionId>)
    requires SlashFree(ns) && SlashFree(jobId) && forall pid | pid in tasks :: SlashFree(pid.jobId)
    ensures
      (forall pid | pid in tasks ::
        IsPrefix(GetTaskPrefixForJob(ns, jobId), Render(TaskKey(ns, pid))) <==> pid.jobId == jobId)
      <==> forall pid | pid in tasks :: IsPrefix(jobId, pid.jobId) ==> pid.jobId == jobId
  {
    hide Render, GetTaskPrefixForJob;
    forall pid | pid in tasks
      ensures IsPrefix(GetTaskPrefixForJob(ns, jobId), Render(TaskKey(ns, pid))) <==> IsPrefix(jobId, pid.jobId)
    {
      JobScanFinds(ns, jobId, TaskKey(ns, pid));
    }
  }

  /** ... as is the case for ids of the same length. */
  lemma SameLengthIsExact(a: string, b: string)
    requires |a| == |b| && IsPrefix(a, b)
    ensures a == b
  {
  }

  /** The counterexample: job `a` is credited with the task of job `ab`. */
  lemma JobScanTooWide(ns: string)
    requires SlashFree(ns)
    ensures
      var pid := PartitionId("ab", 1, 0);
      IsPrefix(GetTaskPrefixForJob(ns, "a"), Render(TaskKey(ns, pid))) && pid.jobId != "a"
  {
    hide Render, GetTaskPrefixForJob;
    JobScanFinds(ns, "a", TaskKey(ns, PartitionId("ab", 1, 0)));
  }

  // ---- Reading a key back ----

  /** `extract_job_id_from_key`. */
  function ExtractJobIdFromKey(key: string): Option<string> {
    var parts := Split(key);
    if |parts| > 4 then Some(parts[4]) else None
  }

  /** The job id is read back from its key, if and only if it has no slash. */
  lemma JobIdReadBack(ns: string, id: string)
    requires SlashFree(ns)
    ensures ExtractJobIdFromKey(GetJobKey(ns, id)) == Some(id) <==> SlashFree(id)
  {
    hide Split, Join, Render, Base, Kind, GetJobKey;
    var k := JobKey(ns, id);
    if SlashFree(id) {
      RenderIsKey(ns, id);
      RenderJoins(k);
      PartsSlashFree(k);
      SplitJoin(Parts(k));
      BaseNotEmpty(ns, Kind(k));
    }
    SplitSlashFree(GetJobKey(ns, id));
  }

  function Slashes(s: string): nat {
    if s == [] then 0 else (if s[0] == '/' then 1 else 0) + Slashes(s[1..])
  }

  lemma {:induction false} SplitCount(s: string)
    ensures |Split(s)| == Slashes(s) + 1
  {
    if s != [] {
      SplitCount(s[1..]);
    }
  }

  /** A job id is read from a key exactly if it has four slashes. */
  lemma JobIdRead(key: string)
    ensures ExtractJobIdFromKey(key).Some? <==> Slashes(key) >= 4
  {
    SplitCount(key);
  }

  lemma RenderIsKey(ns: string, id: string)
    ensures Render(JobKey(ns, id)) == GetJobKey(ns, id)
  {
  }

  lemma {:induction false} SplitSlashFree(s: string)
    ensures AllSlashFree(Split(s))
  {
    if s != [] {
      SplitSlashFree(s[1..]);
    }
  }

  // ---- The order of keys ----

  /** The order of the keys' bytes, which for UTF-8 is that of their characters. */
  predicate Before(a: string, b: string) {
    b != [] && (a == [] || a[0] < b[0] || (a[0] == b[0] && Before(a[1..], b[1..])))
  }

  lemma {:induction false} BeforeTotal(a: string, b: string)
    requires a != b
    ensures Before(a, b) || Before(b, a)
  {
    if a != [] && b != [] && a[0] == b[0] {
      assert a == [a[0]] + a[1..] && b == [b[0]] + b[1..];
      BeforeTotal(a[1..], b[1..]);
    }
  }

  lemma {:induction false} BeforeTransitive(a: string, b: string, c: string)
    requires Before(a, b) && Before(b, c)
    ensures Before(a, c)
  {
    if a != [] && a[0] == b[0] == c[0] {
      BeforeTransitive(a[1..], b[1..], c[1..]);
    }
  }

  lemma {:induction false} NotBeforeItself(a: string)
    ensures !Before(a, a)
  {
    if a != [] {
      NotBeforeItself(a[1..]);
    }
  }
}
