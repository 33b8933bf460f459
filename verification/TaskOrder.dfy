/** The order in which a scan comes to the tasks: that of their keys. */
module TaskOrder {
  import opened Plans
  import opened Keys

  /** What the keys of tasks differ in. */
  function TaskPath(pid: PartitionId): string {
    pid.jobId + "/" + Decimal(pid.stageId) + "/" + Decimal(pid.partitionId)
  }

  predicate Precedes(a: PartitionId, b: PartitionId) {
    Before(TaskPath(a), TaskPath(b))
  }

  lemma {:induction false} BeforeBehind(prefix: string, a: string, b: string)
    ensures Before(prefix + a, prefix + b) <==> Before(a, b)
  {
    if prefix == [] {
      assert prefix + a == a && prefix + b == b;
    } else {
      BeforeBehind(prefix[1..], a, b);
      assert (prefix + a)[1..] == prefix[1..] + a && (prefix + b)[1..] == prefix[1..] + b;
    }
  }

  lemma KeyIsPath(ns: string, pid: PartitionId)
    ensures Render(TaskKey(ns, pid)) == GetTaskPrefix(ns) + "/" + TaskPath(pid)
  {
    hide GetTaskPrefix, Decimal;
  }

  /** In every namespace the keys of tasks are in this order. */
  lemma KeysInOrder(ns: string, a: PartitionId, b: PartitionId)
    ensures Before(Render(TaskKey(ns, a)), Render(TaskKey(ns, b))) <==> Precedes(a, b)
  {
    hide Render, GetTaskPrefix, TaskPath, Before;
    KeyIsPath(ns, a);
    KeyIsPath(ns, b);
    BeforeBehind(GetTaskPrefix(ns) + "/", TaskPath(a), TaskPath(b));
  }

  lemma PathsInjective(a: PartitionId, b: PartitionId)
    requires SlashFree(a.jobId) && SlashFree(b.jobId) && TaskPath(a) == TaskPath(b)
    ensures a == b
  {
    hide Render, GetTaskPrefix, TaskPath;
    KeyIsPath("", a);
    KeyIsPath("", b);
    KeysInjective(TaskKey("", a), TaskKey("", b));
  }

  lemma PrecedesTotal(a: PartitionId, b: PartitionId)
    requires SlashFree(a.jobId) && SlashFree(b.jobId) && a != b
    ensures Precedes(a, b) || Precedes(b, a)
  {
    hide TaskPath, Before;
    if TaskPath(a) == TaskPath(b) {
      PathsInjective(a, b);
    } else {
      BeforeTotal(TaskPath(a), TaskPath(b));
    }
  }

  lemma PrecedesTransitive(a: PartitionId, b: PartitionId, c: PartitionId)
    requires Precedes(a, b) && Precedes(b, c)
    ensures Precedes(a, c)
  {
    hide TaskPath, Before;
    BeforeTransitive(TaskPath(a), TaskPath(b), TaskPath(c));
  }

  lemma NotPrecedesItself(a: PartitionId)
    ensures !Precedes(a, a)
  {
    hide TaskPath, Before;
    NotBeforeItself(TaskPath(a));
  }

  predicate Least(pids: set<PartitionId>, first: PartitionId) {
    first in pids && forall pid | pid in pids && pid != first :: Precedes(first, pid)
  }

  /** There is a first task. */
  lemma {:induction false} LeastTask(pids: set<PartitionId>) returns (first: PartitionId)
    requires pids != {} && forall pid | pid in pids :: SlashFree(pid.jobId)
    ensures Least(pids, first)
    decreases pids
  {
    hide Precedes;
    first :| first in pids;
    var rest := pids - {first};
    if rest != {} {
      var other := LeastTask(rest);
      PrecedesTotal(first, other);
      var least := if Precedes(first, other) then first else other;
      forall pid | pid in pids && pid != least ensures Precedes(least, pid) {
        if least == first && pid != other {
          PrecedesTransitive(first, other, pid);
        }
      }
      first := least;
    } else {
      assert pids == {first};
    }
  }
}
