/** Over every run, what a poll brings up to date: if it reported anything, every job there is, once; else none. */
module Synchronization {
  import opened Scheduling
  import opened Protocol
  import opened ProtocolInvariants
  import opened ProtocolFrame
  import opened TaskHistory

  predicate Synchronizing(lock: Lock) {
    lock.Syncing? || lock.Reading? || lock.Judged?
  }

  /** How often the steps record something of the job. */
  function Syncs(steps: seq<Step>, j: string): nat {
    if steps == [] then 0
    else
      var last := steps[|steps| - 1];
      Syncs(steps[..|steps| - 1], j) + (if last.SyncJob? && last.jobId == j then 1 else 0)
  }

  /** How often it is still to be recorded. */
  function Todo(lock: Lock, j: string): nat {
    if Synchronizing(lock) && j in lock.todo then 1 else 0
  }

  /** The job that is being read is still to be done. */
  predicate ReadsTodo(lock: Lock) {
    lock.Reading? || lock.Judged? ==> lock.jobId in lock.todo
  }

  lemma SyncBegins(cfg: Config, s: State, j: string)
    requires Enabled(cfg, s, BeginSync)
    ensures s.lock.Assigned?
    ensures
      var lock' := Apply(cfg, s, BeginSync).lock;
      && lock'.Syncing? && lock'.executorId == s.lock.executorId
      && Todo(lock', j) == if s.lock.reported && j in s.jobs then 1 else 0
  {
    hide Assignable, SearchOk, Verdict, Query, Output, ComesTo, ReadOf;
  }

  lemma SyncGoesOn(cfg: Config, s: State, step: Step, j: string)
    requires Enabled(cfg, s, step) && Synchronizing(s.lock) && ReadsTodo(s.lock) && step != EndPoll && Locks(step)
    ensures
      var lock' := Apply(cfg, s, step).lock;
      && Synchronizing(lock') && ReadsTodo(lock') && lock'.executorId == s.lock.executorId
      && Todo(lock', j) + Syncs([step], j) == Todo(s.lock, j)
  {
    hide Assignable, SearchOk, Verdict, Query, Output, ComesTo, ReadOf, DoSubmit, DoReject, DoStart, DoCut, DoSave;
    hide DoBeginPoll, DoFinish, SetWorker, DoAssign, DoFailPoll, DoEndPoll;
    OneStep(step, j);
  }

  lemma OneStep(step: Step, j: string)
    ensures Syncs([step], j) == if step.SyncJob? && step.jobId == j then 1 else 0
  {
    assert [step][..0] == [];
  }

  lemma StepKeepsCount(cfg: Config, s: State, step: Step, j: string)
    requires Enabled(cfg, s, step) && Synchronizing(s.lock) && ReadsTodo(s.lock) && step != EndPoll
    ensures
      var lock' := Apply(cfg, s, step).lock;
      && Synchronizing(lock') && ReadsTodo(lock') && lock'.executorId == s.lock.executorId
      && Todo(lock', j) + Syncs([step], j) == Todo(s.lock, j)
  {
    hide Enabled, Apply, Todo, ReadsTodo, Syncs;
    if Locks(step) {
      SyncGoesOn(cfg, s, step, j);
    } else {
      StepFrame(cfg, s, step);
      OneStep(step, j);
    }
  }

  lemma OneMoreStep(steps: seq<Step>, step: Step, j: string)
    ensures Syncs(steps + [step], j) == Syncs(steps, j) + Syncs([step], j)
  {
    OneStep(step, j);
    assert (steps + [step])[..|steps|] == steps;
  }

  lemma {:induction false} CountKept(cfg: Config, trace: seq<State>, steps: seq<Step>, b: nat, k: nat, j: string)
    requires IsRun(cfg, trace, steps) && b < k < |trace| && b < |steps| && steps[b] == BeginSync
    requires forall i | b < i < k && i < |steps| :: steps[i] != EndPoll
    ensures trace[b].lock.Assigned? && k <= |steps|
    ensures Synchronizing(trace[k].lock) && ReadsTodo(trace[k].lock)
    ensures trace[k].lock.executorId == trace[b].lock.executorId
    ensures Syncs(steps[b + 1..k], j) + Todo(trace[k].lock, j)
         == if trace[b].lock.reported && j in trace[b].jobs then 1 else 0
    decreases k
  {
    hide IsRun, Inv, Enabled, Apply, Todo, Syncs;
    RunLength(cfg, trace, steps);
    RunStep(cfg, trace, steps, k - 1);
    if k == b + 1 {
      SyncBegins(cfg, trace[b], j);
      NoSyncs(j);
      assert steps[b + 1..k] == [];
    } else {
      CountKept(cfg, trace, steps, b, k - 1, j);
      StepKeepsCount(cfg, trace[k - 1], steps[k - 1], j);
      OneMoreStep(steps[b + 1..k - 1], steps[k - 1], j);
      assert steps[b + 1..k - 1] + [steps[k - 1]] == steps[b + 1..k];
    }
  }

  lemma NoSyncs(j: string)
    ensures Syncs([], j) == 0
  {
  }

  lemma SyncEnds(cfg: Config, s: State)
    requires Enabled(cfg, s, EndPoll)
    ensures s.lock.Syncing? && s.lock.todo == {}
    ensures
      var e := s.lock.executorId;
      e in s.workers && Apply(cfg, s, EndPoll).workers == s.workers[e := s.workers[e].(rpc := Answered(s.lock.task))]
  {
    hide Assignable, SearchOk, Verdict, Query, Output, ComesTo, ReadOf;
  }

  /** Over every run: between the moment a poll turns to the jobs and its end, the status of a job is recorded once if
      the poll brought a report and the job was there at that moment, and not at all otherwise. */
  lemma PollSyncsEachJobOnce(cfg: Config, trace: seq<State>, steps: seq<Step>, b: nat, e: nat, j: string)
    requires IsRun(cfg, trace, steps) && b < e < |steps| && e < |trace| && steps[b] == BeginSync && steps[e] == EndPoll
    requires forall i | b < i < e :: steps[i] != EndPoll
    ensures trace[b].lock.Assigned?
    ensures Syncs(steps[b + 1..e], j) == if trace[b].lock.reported && j in trace[b].jobs then 1 else 0
  {
    hide IsRun, Inv, Enabled, Apply, Syncs;
    CountKept(cfg, trace, steps, b, e, j);
    RunStep(cfg, trace, steps, e);
    SyncEnds(cfg, trace[e]);
  }
}
