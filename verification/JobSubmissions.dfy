/** From the submission of a job to the end of its background work: what decides whether it is planned, and that an
    undisturbed submission is what `ExecuteQuery` does. */
module JobSubmissions {
  import opened Plans
  import opened StagePlanner
  import opened Scheduling
  import opened JobStages
  import opened KeyValueStore
  import opened SchedulerServices
  import opened Protocol
  import opened ProtocolInvariants
  import opened ProtocolFrame
  import opened TaskHistory
  import opened JobVerdicts
  import opened Refinement

  // ---- What a submission remembers ----

  /** The submission is for this plan, and remembers whether an executor was registered. */
  ghost predicate Remembers(s: State, j: string, plan: Plan, registered: bool) {
    && j in s.submissions
    && match s.submissions[j]
       case Accepted(p, hasExecutors) => p == plan && hasExecutors == registered
       case Started(p, hasExecutors) => p == plan && hasExecutors == registered
       case Saving(p, _, _, _, _) => p == plan && registered
       case Aborted(_) => true
  }

  lemma SubmitRemembers(cfg: Config, s: State, j: string, plan: Plan)
    requires Enabled(cfg, s, Submit(j, plan))
    ensures j !in s.submissions && Remembers(Apply(cfg, s, Submit(j, plan)), j, plan, s.executors != map[])
  {
    hide Assignable, SearchOk, Verdict, Query, Output, ComesTo, ReadOf;
  }

  lemma OwnStepRemembers(cfg: Config, s: State, step: Step, plan: Plan, registered: bool)
    requires Enabled(cfg, s, step) && Submits(step) && Remembers(s, step.jobId, plan, registered)
    ensures Remembers(Apply(cfg, s, step), step.jobId, plan, registered)
  {
    hide Assignable, SearchOk, Verdict, Query, Output, ComesTo, ReadOf, NoExecutors, QueryStages, CountsOf, DoSave;
    if step.SaveNext? {
      SaveFrame(s, step.jobId);
    }
  }

  lemma StepRemembers(cfg: Config, s: State, step: Step, j: string, plan: Plan, registered: bool)
    requires Enabled(cfg, s, step) && Remembers(s, j, plan, registered)
    ensures Remembers(Apply(cfg, s, step), j, plan, registered)
  {
    hide Enabled, Apply;
    StepFrame(cfg, s, step);
    if Submits(step) && step.jobId == j {
      OwnStepRemembers(cfg, s, step, plan, registered);
    }
  }

  lemma {:induction false} RunRemembers(cfg: Config, trace: seq<State>, steps: seq<Step>, a: nat, k: nat, j: string,
                                        plan: Plan)
    requires IsRun(cfg, trace, steps) && a < k < |trace| && a < |steps| && steps[a] == Submit(j, plan)
    ensures Remembers(trace[k], j, plan, trace[a].executors != map[])
    decreases k
  {
    hide IsRun, Remembers, Inv, Enabled, Apply;
    RunLength(cfg, trace, steps);
    RunStep(cfg, trace, steps, k - 1);
    if k == a + 1 {
      SubmitRemembers(cfg, trace[a], j, plan);
    } else {
      RunRemembers(cfg, trace, steps, a, k - 1, j, plan);
      StepRemembers(cfg, trace[k - 1], steps[k - 1], j, plan, trace[a].executors != map[]);
    }
  }

  // ---- Every submission was submitted ----

  lemma OnlySubmitAdds(cfg: Config, s: State, step: Step, j: string)
    requires Enabled(cfg, s, step)
    ensures j in s.submissions ==> j in Apply(cfg, s, step).submissions
    ensures j in Apply(cfg, s, step).submissions && j !in s.submissions ==> step.Submit? && step.jobId == j
  {
    hide Enabled, Apply;
    StepFrame(cfg, s, step);
    if Submits(step) && step.jobId == j {
      OwnSubmission(cfg, s, step);
    }
  }

  lemma OwnSubmission(cfg: Config, s: State, step: Step)
    requires Enabled(cfg, s, step) && Submits(step)
    ensures step.Submit? || step.jobId in s.submissions
    ensures step.jobId in Apply(cfg, s, step).submissions
  {
    hide Assignable, SearchOk, Verdict, Query, Output, ComesTo, ReadOf, NoExecutors, QueryStages, CountsOf, DoSave;
    if step.SaveNext? {
      SaveFrame(s, step.jobId);
    }
  }

  lemma {:induction false} WasSubmitted(cfg: Config, trace: seq<State>, steps: seq<Step>, k: nat, j: string)
    returns (a: nat)
    requires IsRun(cfg, trace, steps) && k < |trace| && j in trace[k].submissions
    ensures a < k <= |steps| && steps[a].Submit? && steps[a].jobId == j
    decreases k
  {
    hide IsRun, Inv, Enabled, Apply;
    RunLength(cfg, trace, steps);
    NothingSubmittedYet(cfg, trace, steps);
    RunStep(cfg, trace, steps, k - 1);
    OnlySubmitAdds(cfg, trace[k - 1], steps[k - 1], j);
    if j in trace[k - 1].submissions {
      a := WasSubmitted(cfg, trace, steps, k - 1, j);
    } else {
      a := k - 1;
    }
  }

  lemma NothingSubmittedYet(cfg: Config, trace: seq<State>, steps: seq<Step>)
    requires IsRun(cfg, trace, steps)
    ensures trace[0].submissions == map[]
  {
  }

  /** Over every run: a job is submitted once. */
  lemma SubmittedOnce(cfg: Config, trace: seq<State>, steps: seq<Step>, a: nat, b: nat)
    requires IsRun(cfg, trace, steps) && a < |steps| && b < |steps| && steps[a].Submit? && steps[b].Submit?
    requires steps[a].jobId == steps[b].jobId
    ensures a == b
  {
    hide IsRun, Inv, Enabled, Apply, Remembers;
    if a < b {
      NotSubmittedAgain(cfg, trace, steps, a, b);
    } else if b < a {
      NotSubmittedAgain(cfg, trace, steps, b, a);
    }
  }

  lemma NotSubmittedAgain(cfg: Config, trace: seq<State>, steps: seq<Step>, a: nat, b: nat)
    requires IsRun(cfg, trace, steps) && a < b < |steps| && steps[a].Submit?
    ensures steps[b].Submit? ==> steps[b].jobId != steps[a].jobId
  {
    hide IsRun, Inv, Enabled, Apply;
    RunLength(cfg, trace, steps);
    RunRemembers(cfg, trace, steps, a, b, steps[a].jobId, steps[a].plan);
    RunStep(cfg, trace, steps, b);
    if steps[b].Submit? && steps[b].jobId == steps[a].jobId {
      SubmitRemembers(cfg, trace[b], steps[b].jobId, steps[b].plan);
      assert false;
    }
  }

  // ---- What decides whether a job is planned ----

  /** The planner's error, recorded as the status of the job. */
  predicate PlannerFailed(s: State, j: string) {
    && j in s.jobs && s.jobs[j] == FailedJob("DistributedPlanner requires at least one executor")
    && j in s.submissions && s.submissions[j].Aborted?
  }

  /** The job is running, and its stages are about to be saved. */
  ghost predicate PlannedNow(eng: Engine, s: State, j: string, plan: Plan) {
    var stages := QueryStages(eng, j, plan, 0);
    && j in s.jobs && s.jobs[j] == RunningJob
    && j in s.submissions && s.submissions[j] == Saving(plan, stages, CountsOf(eng, stages), 0, 0)
  }

  lemma CutDecides(cfg: Config, s: State, j: string, plan: Plan, registered: bool)
    requires Enabled(cfg, s, Cut(j)) && Remembers(s, j, plan, registered) && InPhase(s, j)
    ensures
      var s' := Apply(cfg, s, Cut(j));
      if registered then PlannedNow(cfg.eng, s', j, plan) else PlannerFailed(s', j)
  {
    hide Assignable, SearchOk, Verdict, Query, Output, ComesTo, ReadOf, QueryStages, CountsOf;
  }

  lemma CutIsLater(cfg: Config, trace: seq<State>, steps: seq<Step>, a: nat, c: nat, j: string)
    requires IsRun(cfg, trace, steps) && a < |steps| && c < |steps| && steps[a].Submit? && steps[a].jobId == j
    requires steps[c] == Cut(j)
    ensures a < c
  {
    hide IsRun, Inv, Enabled, Apply;
    RunLength(cfg, trace, steps);
    RunStep(cfg, trace, steps, c);
    CutIsSubmitted(cfg, trace[c], j);
    var b := WasSubmitted(cfg, trace, steps, c, j);
    SubmittedOnce(cfg, trace, steps, a, b);
  }

  lemma CutIsSubmitted(cfg: Config, s: State, j: string)
    requires Enabled(cfg, s, Cut(j))
    ensures j in s.submissions
  {
    hide Assignable, SearchOk, Verdict, Query, Output, ComesTo, ReadOf;
  }

  /** Over every run: a job that comes to be planned fails with the planner's error if and only if no executor was
      registered when it was submitted, whoever has registered since; otherwise the stages of the submitted plan are
      saved next. */
  lemma PlanningFailsExactly(cfg: Config, trace: seq<State>, steps: seq<Step>, a: nat, c: nat, j: string, plan: Plan)
    requires IsRun(cfg, trace, steps) && a < |steps| && c < |steps|
    requires steps[a] == Submit(j, plan) && steps[c] == Cut(j)
    ensures a < c < |trace| - 1
    ensures PlannerFailed(trace[c + 1], j) <==> trace[a].executors == map[]
    ensures PlannedNow(cfg.eng, trace[c + 1], j, plan) <==> trace[a].executors != map[]
  {
    hide IsRun, Inv, Enabled, Apply, Remembers, InPhase;
    RunLength(cfg, trace, steps);
    CutIsLater(cfg, trace, steps, a, c, j);
    RunRemembers(cfg, trace, steps, a, c, j, plan);
    RunInPhase(cfg, trace, steps, c, j);
    RunStep(cfg, trace, steps, c);
    CutDecides(cfg, trace[c], j, plan, trace[a].executors != map[]);
  }

  lemma StaysAborted(cfg: Config, s: State, step: Step, j: string)
    requires Enabled(cfg, s, step) && j in s.submissions && s.submissions[j].Aborted?
    ensures
      var s' := Apply(cfg, s, step);
      j in s'.submissions && s'.submissions[j] == s.submissions[j]
  {
    hide Enabled, Apply;
    StepFrame(cfg, s, step);
    if Submits(step) {
      EndedIsOther(cfg, s, step, j);
    }
  }

  /** Over every run: a job the planner has failed stays failed with its error. */
  lemma {:induction false} PlannerErrorIsFinal(cfg: Config, trace: seq<State>, steps: seq<Step>, i: nat, k: nat,
                                               j: string)
    requires IsRun(cfg, trace, steps) && i <= k < |trace| && PlannerFailed(trace[i], j)
    ensures PlannerFailed(trace[k], j) && trace[k].submissions[j] == trace[i].submissions[j]
    decreases k
  {
    hide IsRun, Inv, Enabled, Apply;
    if i < k {
      RunLength(cfg, trace, steps);
      PlannerErrorIsFinal(cfg, trace, steps, i, k - 1, j);
      RunStep(cfg, trace, steps, k - 1);
      StaysAborted(cfg, trace[k - 1], steps[k - 1], j);
      RunInPhase(cfg, trace, steps, i, j);
      RunInPhase(cfg, trace, steps, k, j);
    }
  }

  // ---- A submission on its own ----

  ghost predicate Follows(cfg: Config, trace: seq<State>, steps: seq<Step>) {
    && |trace| == |steps| + 1
    && forall i | 0 <= i < |steps| :: Enabled(cfg, trace[i], steps[i]) && trace[i + 1] == Apply(cfg, trace[i], steps[i])
  }

  /** A submission during which nothing else happens: rejected, or planned and saved to the end. */
  ghost predicate SubmitRun(cfg: Config, trace: seq<State>, steps: seq<Step>, j: string, physical: Physical) {
    && Follows(cfg, trace, steps) && |steps| >= 2 && steps[0].Submit? && steps[0].jobId == j
    && match physical
       case NoPlan(error) => |steps| == 2 && steps[1] == Reject(j, error)
       case Planned(plan) =>
         && |steps| >= 3 && steps[0].plan == plan && steps[1] == Start(j) && steps[2] == Cut(j)
         && (forall i | 3 <= i < |steps| :: steps[i] == SaveNext(j)) && SaveEnded(trace[|steps|], j)
  }

  /** What the save loop has written when it has come to the cursor. */
  function PartlySaved(eng: Engine, view: View, j: string, sub: Submission): View
    requires sub.Saving? && sub.stage <= |sub.stages| && (sub.stage == |sub.stages| ==> sub.next == 0)
  {
    var saved := SaveStages(eng, view, j, sub.stages[..sub.stage]);
    if sub.next == 0 then saved
    else
      var stage := sub.stages[sub.stage];
      saved.(plans := saved.plans[StageKey(j, stage.stageId) := stage.child],
             tasks := SaveTasks(saved.tasks, j, stage.stageId, sub.next - 1))
  }

  /** The save loop of a job with these stages, on its way. */
  ghost predicate SavingFrom(eng: Engine, view: View, s: State, j: string, stages: seq<QueryStage>) {
    && j in s.submissions && s.submissions[j].Saving?
    && var sub := s.submissions[j];
       && sub.stages == stages && sub.counts == CountsOf(eng, stages) && sub.stage <= |stages|
       && (forall i | 0 <= i < |stages| :: sub.counts[i] > 0)
       && (if sub.stage == |stages| then sub.next == 0 else sub.next <= sub.counts[sub.stage])
       && ViewOf(s) == PartlySaved(eng, view, j, sub)
  }

  lemma PlanSaved(eng: Engine, view: View, s: State, j: string, stages: seq<QueryStage>)
    requires SavingFrom(eng, view, s, j, stages) && CanSave(s, j) && s.submissions[j].next == 0
    ensures SavingFrom(eng, view, DoSave(s, j), j, stages)
  {
    hide SaveStages, CountsOf;
  }

  lemma TaskSaved(eng: Engine, view: View, s: State, j: string, stages: seq<QueryStage>)
    requires SavingFrom(eng, view, s, j, stages) && CanSave(s, j)
    requires 0 < s.submissions[j].next < s.submissions[j].counts[s.submissions[j].stage]
    ensures SavingFrom(eng, view, DoSave(s, j), j, stages)
  {
    hide SaveStages, CountsOf, U32;
    var sub := s.submissions[j];
    var saved := SaveStages(eng, view, j, sub.stages[..sub.stage]);
    assert SaveTasks(saved.tasks, j, sub.stages[sub.stage].stageId, sub.next) == DoSave(s, j).tasks;
  }

  lemma LastTaskSaved(eng: Engine, view: View, s: State, j: string, stages: seq<QueryStage>)
    requires SavingFrom(eng, view, s, j, stages) && CanSave(s, j)
    requires s.submissions[j].next == s.submissions[j].counts[s.submissions[j].stage]
    ensures SavingFrom(eng, view, DoSave(s, j), j, stages)
  {
    hide U32;
    var sub := s.submissions[j];
    var done := sub.stages[..sub.stage + 1];
    assert done[..|done| - 1] == sub.stages[..sub.stage] && done[|done| - 1] == sub.stages[sub.stage];
    var saved := SaveStages(eng, view, j, sub.stages[..sub.stage]);
    assert SaveStages(eng, view, j, done) == SaveStage(eng, saved, j, sub.stages[sub.stage]);
    assert SaveTasks(saved.tasks, j, sub.stages[sub.stage].stageId, sub.next) == DoSave(s, j).tasks;
  }

  lemma SaveGoesOn(cfg: Config, view: View, s: State, j: string, stages: seq<QueryStage>)
    requires SavingFrom(cfg.eng, view, s, j, stages) && Enabled(cfg, s, SaveNext(j))
    ensures CanSave(s, j) && Apply(cfg, s, SaveNext(j)) == DoSave(s, j)
    ensures SavingFrom(cfg.eng, view, Apply(cfg, s, SaveNext(j)), j, stages)
  {
    hide Assignable, SearchOk, Verdict, Query, Output, ComesTo, ReadOf, DoSave, PartlySaved;
    var sub := s.submissions[j];
    if sub.next == 0 {
      PlanSaved(cfg.eng, view, s, j, stages);
    } else if sub.next < sub.counts[sub.stage] {
      TaskSaved(cfg.eng, view, s, j, stages);
    } else {
      LastTaskSaved(cfg.eng, view, s, j, stages);
    }
  }

  /** The first three steps. */
  lemma CutOnItsOwn(cfg: Config, s: State, j: string, plan: Plan)
    requires Enabled(cfg, s, Submit(j, plan))
    ensures
      var s1 := Apply(cfg, s, Submit(j, plan));
      && Enabled(cfg, s1, Start(j))
      && var s2 := Apply(cfg, s1, Start(j));
         && Enabled(cfg, s2, Cut(j))
         && var s3 := Apply(cfg, s2, Cut(j));
            if s.executors == map[] then
              && s3.submissions[j].Aborted?
              && ViewOf(s3) == ViewOf(s).(jobs := s.jobs[j := FailedJob(NoExecutors())])
            else
              SavingFrom(cfg.eng, ViewOf(s).(jobs := s.jobs[j := RunningJob]), s3, j, QueryStages(cfg.eng, j, plan, 0))
  {
    hide Assignable, SearchOk, Verdict, Output, ComesTo, ReadOf, NoExecutors, QueryStages;
    var s1 := Apply(cfg, s, Submit(j, plan));
    assert s1 == DoSubmit(s, j, plan);
    var s2 := Apply(cfg, s1, Start(j));
    assert s2 == DoStart(s1, j);
    var s3 := Apply(cfg, s2, Cut(j));
    assert s3 == DoCut(cfg.eng, s2, j);
    if s.executors != map[] {
      NothingSaved(cfg.eng, ViewOf(s3), s3, j, plan);
    }
  }

  lemma NothingSaved(eng: Engine, view: View, s: State, j: string, plan: Plan)
    requires NoEmptyStage(eng, j, plan) && view == ViewOf(s) && j in s.submissions
    requires
      var stages := QueryStages(eng, j, plan, 0);
      s.submissions[j] == Saving(plan, stages, CountsOf(eng, stages), 0, 0)
    ensures SavingFrom(eng, view, s, j, QueryStages(eng, j, plan, 0))
  {
    hide QueryStages;
  }

  lemma {:induction false} SavesOnItsOwn(cfg: Config, trace: seq<State>, steps: seq<Step>, n: nat, j: string,
                                         plan: Plan)
    requires SubmitRun(cfg, trace, steps, j, Planned(plan)) && 3 <= n <= |steps| && trace[0].executors != map[]
    ensures
      var view := ViewOf(trace[0]).(jobs := trace[0].jobs[j := RunningJob]);
      SavingFrom(cfg.eng, view, trace[n], j, QueryStages(cfg.eng, j, plan, 0))
  {
    hide Enabled, Apply, SavingFrom, QueryStages, SaveEnded, NoExecutors;
    if n == 3 {
      FirstSteps(cfg, trace, steps, j, plan);
    } else {
      SavesOnItsOwn(cfg, trace, steps, n - 1, j, plan);
      var view := ViewOf(trace[0]).(jobs := trace[0].jobs[j := RunningJob]);
      assert trace[n - 1 + 1] == Apply(cfg, trace[n - 1], steps[n - 1]);
      SaveGoesOn(cfg, view, trace[n - 1], j, QueryStages(cfg.eng, j, plan, 0));
    }
  }

  lemma FirstSteps(cfg: Config, trace: seq<State>, steps: seq<Step>, j: string, plan: Plan)
    requires SubmitRun(cfg, trace, steps, j, Planned(plan))
    ensures
      var s, s3 := trace[0], trace[3];
      if s.executors == map[] then
        && j in s3.submissions && s3.submissions[j].Aborted?
        && ViewOf(s3) == ViewOf(s).(jobs := s.jobs[j := FailedJob(NoExecutors())])
      else
        SavingFrom(cfg.eng, ViewOf(s).(jobs := s.jobs[j := RunningJob]), s3, j, QueryStages(cfg.eng, j, plan, 0))
  {
    hide Enabled, Apply, SavingFrom, QueryStages, SaveEnded, NoExecutors;
    assert trace[0 + 1] == Apply(cfg, trace[0], steps[0]);
    assert trace[1 + 1] == Apply(cfg, trace[1], steps[1]);
    assert trace[2 + 1] == Apply(cfg, trace[2], steps[2]);
    CutOnItsOwn(cfg, trace[0], j, plan);
    SubmissionStaysThere(cfg, trace[2], j);
  }

  lemma SubmissionStaysThere(cfg: Config, s: State, j: string)
    requires Enabled(cfg, s, Cut(j))
    ensures j in Apply(cfg, s, Cut(j)).submissions
  {
    hide Enabled, Apply;
    CutIsSubmitted(cfg, s, j);
    OnlySubmitAdds(cfg, s, Cut(j), j);
  }

  /** A submission that nothing interrupts leaves behind exactly what `ExecuteQuery` does. */
  lemma SubmissionMatchesProtocol(cfg: Config, trace: seq<State>, steps: seq<Step>, j: string, physical: Physical)
    requires SubmitRun(cfg, trace, steps, j, physical)
    ensures ViewOf(trace[|steps|]) == Executed(cfg.eng, ViewOf(trace[0]), j, physical)
  {
    hide Enabled, Apply, SavingFrom, QueryStages, NoExecutors;
    match physical
    case NoPlan(error) =>
      assert trace[0 + 1] == Apply(cfg, trace[0], steps[0]) && trace[1 + 1] == Apply(cfg, trace[1], steps[1]);
      RejectOnItsOwn(cfg, trace[0], j, steps[0].plan, error);
    case Planned(plan) =>
      FirstSteps(cfg, trace, steps, j, plan);
      if trace[0].executors == map[] {
        if |steps| > 3 {
          assert Enabled(cfg, trace[3], steps[3]);
          NothingToSave(cfg, trace[3], j);
          assert false;
        }
      } else {
        SavesOnItsOwn(cfg, trace, steps, |steps|, j, plan);
        AllSaved(cfg.eng, ViewOf(trace[0]).(jobs := trace[0].jobs[j := RunningJob]), trace[|steps|], j,
                 QueryStages(cfg.eng, j, plan, 0));
      }
  }

  lemma NothingToSave(cfg: Config, s: State, j: string)
    requires j in s.submissions && s.submissions[j].Aborted?
    ensures !Enabled(cfg, s, SaveNext(j))
  {
    hide Assignable, SearchOk, Verdict, Query, Output, ComesTo, ReadOf;
  }

  lemma RejectOnItsOwn(cfg: Config, s: State, j: string, plan: Plan, error: string)
    requires Enabled(cfg, s, Submit(j, plan)) && Enabled(cfg, Apply(cfg, s, Submit(j, plan)), Reject(j, error))
    ensures ViewOf(Apply(cfg, Apply(cfg, s, Submit(j, plan)), Reject(j, error)))
         == ViewOf(s).(jobs := s.jobs[j := FailedJob(error)])
  {
    hide Assignable, SearchOk, Verdict, Query, Output, ComesTo, ReadOf;
    var s1 := DoSubmit(s, j, plan);
    assert Apply(cfg, s1, Reject(j, error)) == DoReject(s1, j, error);
  }

  lemma AllSaved(eng: Engine, view: View, s: State, j: string, stages: seq<QueryStage>)
    requires SavingFrom(eng, view, s, j, stages) && SaveEnded(s, j)
    ensures ViewOf(s) == SaveStages(eng, view, j, stages)
  {
    assert stages[..|stages|] == stages;
  }

  // ---- There is such a run ----

  function Left(s: State, j: string): nat
    requires j in s.submissions && s.submissions[j].Saving?
  {
    var sub := s.submissions[j];
    if sub.stage <= |sub.stages| then |sub.stages| - sub.stage else 0
  }

  function LeftOfStage(s: State, j: string): nat
    requires j in s.submissions && s.submissions[j].Saving?
  {
    var sub := s.submissions[j];
    if sub.stage < |sub.counts| && sub.next <= sub.counts[sub.stage] then sub.counts[sub.stage] + 1 - sub.next else 0
  }

  /** A step before a run. */
  lemma StepBefore(cfg: Config, s: State, step: Step, trace: seq<State>, steps: seq<Step>)
    requires Follows(cfg, trace, steps) && Enabled(cfg, s, step) && trace[0] == Apply(cfg, s, step)
    ensures Follows(cfg, [s] + trace, [step] + steps)
  {
    hide Enabled, Apply;
    var trace', steps' := [s] + trace, [step] + steps;
    forall i | 0 <= i < |steps'|
      ensures Enabled(cfg, trace'[i], steps'[i]) && trace'[i + 1] == Apply(cfg, trace'[i], steps'[i])
    {
      if i > 0 {
        assert trace'[i] == trace[i - 1] && steps'[i] == steps[i - 1] && trace'[i + 1] == trace[i - 1 + 1];
      }
    }
  }

  /** A save loop that runs to its end. */
  ghost predicate SaveRun(cfg: Config, trace: seq<State>, steps: seq<Step>, j: string) {
    && Follows(cfg, trace, steps) && (forall i | 0 <= i < |steps| :: steps[i] == SaveNext(j))
    && SaveEnded(trace[|steps|], j)
  }

  lemma {:induction false} SavesToTheEnd(cfg: Config, s: State, j: string, view: View, stages: seq<QueryStage>)
    returns (trace: seq<State>, steps: seq<Step>)
    requires SavingFrom(cfg.eng, view, s, j, stages)
    ensures SaveRun(cfg, trace, steps, j) && trace[0] == s
    decreases Left(s, j), LeftOfStage(s, j)
  {
    hide Enabled, Apply, PartlySaved, DoSave;
    if SaveEnded(s, j) {
      trace, steps := [s], [];
    } else {
      CanGoOn(cfg, s, j);
      SaveGoesOn(cfg, view, s, j, stages);
      SaveFrame(s, j);
      trace, steps := SavesToTheEnd(cfg, DoSave(s, j), j, view, stages);
      hide Follows;
      StepBefore(cfg, s, SaveNext(j), trace, steps);
      trace, steps := [s] + trace, [SaveNext(j)] + steps;
    }
  }

  lemma CanGoOn(cfg: Config, s: State, j: string)
    requires CanSave(s, j)
    ensures Enabled(cfg, s, SaveNext(j))
  {
    hide Assignable, SearchOk, Verdict, Query, Output, ComesTo, ReadOf;
  }

  /** Wherever a query can be submitted, it can be submitted without interruption: so `ExecuteQuery` is one way the
      protocol can go. */
  lemma SubmissionCanRun(cfg: Config, s: State, j: string, plan: Plan)
    returns (trace: seq<State>, steps: seq<Step>)
    requires Enabled(cfg, s, Submit(j, plan))
    ensures SubmitRun(cfg, trace, steps, j, Planned(plan)) && trace[0] == s
  {
    hide Enabled, Apply, SavingFrom, QueryStages, NoExecutors;
    CutOnItsOwn(cfg, s, j, plan);
    var s1 := Apply(cfg, s, Submit(j, plan));
    var s2 := Apply(cfg, s1, Start(j));
    var s3 := Apply(cfg, s2, Cut(j));
    SubmissionStaysThere(cfg, s2, j);
    trace, steps := [s3], [];
    if s.executors != map[] {
      var view := ViewOf(s).(jobs := s.jobs[j := RunningJob]);
      trace, steps := SavesToTheEnd(cfg, s3, j, view, QueryStages(cfg.eng, j, plan, 0));
    }
    assert SaveRun(cfg, trace, steps, j);
    StartsBefore(cfg, s, s1, s2, trace, steps, j, plan);
    trace, steps := [s, s1, s2] + trace, [Submit(j, plan), Start(j), Cut(j)] + steps;
  }

  lemma StartsBefore(cfg: Config, s: State, s1: State, s2: State, trace: seq<State>, steps: seq<Step>, j: string,
                     plan: Plan)
    requires SaveRun(cfg, trace, steps, j)
    requires Enabled(cfg, s, Submit(j, plan)) && s1 == Apply(cfg, s, Submit(j, plan))
    requires Enabled(cfg, s1, Start(j)) && s2 == Apply(cfg, s1, Start(j))
    requires Enabled(cfg, s2, Cut(j)) && trace[0] == Apply(cfg, s2, Cut(j))
    ensures SubmitRun(cfg, [s, s1, s2] + trace, [Submit(j, plan), Start(j), Cut(j)] + steps, j, Planned(plan))
  {
    hide Enabled, Apply, SaveEnded;
    StepBefore(cfg, s2, Cut(j), trace, steps);
    StepBefore(cfg, s1, Start(j), [s2] + trace, [Cut(j)] + steps);
    StepBefore(cfg, s, Submit(j, plan), [s1] + ([s2] + trace), [Start(j)] + ([Cut(j)] + steps));
    assert [s] + ([s1] + ([s2] + trace)) == [s, s1, s2] + trace;
    assert [Submit(j, plan)] + ([Start(j)] + ([Cut(j)] + steps)) == [Submit(j, plan), Start(j), Cut(j)] + steps;
  }
}
