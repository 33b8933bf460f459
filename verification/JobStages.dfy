/** What the scheduler may rely on in the stages the planner produces for a job. */
module JobStages {
  import opened Plans
  import opened StagePlanner
  import opened ShuffleResolution
  import opened StageMeaning
  import opened Scheduling

  /** Every operator of the plan has at least one partition. */
  predicate Populated(eng: Engine, p: Plan)
    decreases p
  {
    eng.Count(p) > 0 && (p.Operator? ==> forall i | 0 <= i < |p.children| :: Populated(eng, p.children[i]))
  }

  /** A stage is an operator over shuffles of strictly earlier, non-empty stages, each named once. */
  ghost predicate GoodStage(eng: Engine, stages: seq<QueryStage>, i: nat)
    requires i < |stages|
  {
    var us := FindUnresolvedShuffles(stages[i].child);
    && stages[i].child.Operator? && eng.Count(stages[i].child) > 0
    && SimpleShuffles(us)
    && forall k | 0 <= k < |us| ::
         var id := us[k].stageIds[0];
         1 <= id <= i && us[k].partitionCount == eng.Count(stages[id - 1].child)
  }

  /** The stages of a job whose query is `plan`: well formed, and inlining them gives the query back. */
  ghost predicate GoodStages(eng: Engine, jobId: string, plan: Plan, stages: seq<QueryStage>) {
    && |stages| > 0 && Numbered(jobId, 0, stages)
    && (forall i | 0 <= i < |stages| :: GoodStage(eng, stages, i))
    && var m := StagesById(stages);
       && Lists(m, stages) && (forall id: nat :: id in m <==> 1 <= id <= |stages|)
       && Dag(eng, m) && Inline(m, |stages|, stages[|stages| - 1].child) == plan
  }

  lemma {:induction false} StagesPopulated(eng: Engine, jobId: string, p: Plan, lastId: nat)
    requires InputPlan(p) && Populated(eng, p)
    ensures forall s <- PlanStages(eng, jobId, p, lastId).stages :: eng.Count(s.child) > 0
    decreases p, 1
  {
    if p.children != [] {
      ChildStagesPopulated(eng, jobId, p.children, lastId);
    }
  }

  lemma {:induction false} ChildStagesPopulated(eng: Engine, jobId: string, cs: seq<Plan>, lastId: nat)
    requires forall i | 0 <= i < |cs| :: InputPlan(cs[i]) && Populated(eng, cs[i])
    ensures
      var r := PlanChildren(eng, jobId, cs, lastId);
      && (forall q <- r.plans :: eng.Count(q) > 0)
      && (forall s <- r.stages :: eng.Count(s.child) > 0)
    decreases cs, 0
  {
    if cs != [] {
      var init := PlanChildren(eng, jobId, cs[..|cs| - 1], lastId);
      ChildStagesPopulated(eng, jobId, cs[..|cs| - 1], lastId);
      StagesPopulated(eng, jobId, cs[|cs| - 1], init.lastId);
      PlanKeepsShape(eng, jobId, cs[|cs| - 1], init.lastId);
    }
  }

  /** A shuffle that is found is counted. */
  lemma {:induction false} FoundIsNamed(q: Plan, k: nat)
    requires k < |FindUnresolvedShuffles(q)| && |FindUnresolvedShuffles(q)[k].stageIds| == 1
    ensures Named(q, FindUnresolvedShuffles(q)[k].stageIds[0]) > 0
    decreases q, 1
  {
    if q.Operator? {
      FoundIsNamedAll(q.children, k);
    }
  }

  lemma {:induction false} FoundIsNamedAll(cs: seq<Plan>, k: nat)
    requires k < |FindAll(cs)| && |FindAll(cs)[k].stageIds| == 1
    ensures NamedAll(cs, FindAll(cs)[k].stageIds[0]) > 0
    decreases cs, 0
  {
    var init := cs[..|cs| - 1];
    if k < |FindAll(init)| {
      FoundIsNamedAll(init, k);
    } else {
      FoundIsNamed(cs[|cs| - 1], k - |FindAll(init)|);
    }
  }

  /** Two shuffles that name the same stage count twice. */
  lemma {:induction false} SameStageNamedTwice(q: Plan, i: nat, j: nat)
    requires i < j < |FindUnresolvedShuffles(q)|
    requires
      var us := FindUnresolvedShuffles(q);
      |us[i].stageIds| == 1 && us[j].stageIds == us[i].stageIds
    ensures Named(q, FindUnresolvedShuffles(q)[i].stageIds[0]) > 1
    decreases q, 1
  {
    if q.Operator? {
      SameStageNamedTwiceAll(q.children, i, j);
    }
  }

  lemma {:induction false} SameStageNamedTwiceAll(cs: seq<Plan>, i: nat, j: nat)
    requires i < j < |FindAll(cs)| && |FindAll(cs)[i].stageIds| == 1
    requires FindAll(cs)[j].stageIds == FindAll(cs)[i].stageIds
    ensures NamedAll(cs, FindAll(cs)[i].stageIds[0]) > 1
    decreases cs, 0
  {
    var init := cs[..|cs| - 1];
    var last := cs[|cs| - 1];
    var n := |FindAll(init)|;
    if j < n {
      SameStageNamedTwiceAll(init, i, j);
    } else if i >= n {
      SameStageNamedTwice(last, i - n, j - n);
    } else {
      FoundIsNamedAll(init, i);
      FoundIsNamed(last, j - n);
    }
  }

  lemma {:induction false} NamedWithin(qs: seq<Plan>, i: nat, id: nat)
    requires i < |qs|
    ensures Named(qs[i], id) <= NamedAll(qs, id)
  {
    if i < |qs| - 1 {
      NamedWithin(qs[..|qs| - 1], i, id);
    }
  }

  /** Stages that only depend on earlier ones, each named once, none empty and none a bare shuffle. */
  lemma StageIsGood(eng: Engine, jobId: string, stages: seq<QueryStage>, m: StageMap, i: nat)
    requires i < |stages| && Numbered(jobId, 0, stages) && Lists(m, stages)
    requires forall id: nat :: id in m <==> 1 <= id <= |stages|
    requires WellStaged(eng, m, stages[i].stageId, stages[i].child)
    requires forall id: nat :: Named(stages[i].child, id) <= 1
    requires forall k | 0 <= k < |stages| :: stages[k].child.Operator? && eng.Count(stages[k].child) > 0
    ensures GoodStage(eng, stages, i)
  {
    var q := stages[i].child;
    var us := FindUnresolvedShuffles(q);
    forall k | 0 <= k < |us|
      ensures |us[k].stageIds| == 1 && us[k].partitionCount > 0
      ensures var id := us[k].stageIds[0]; 1 <= id <= i && us[k].partitionCount == eng.Count(stages[id - 1].child)
    {
      WellStagedShuffle(eng, m, stages[i].stageId, q, us[k]);
      var id := us[k].stageIds[0];
      assert stages[id - 1].stageId == id;
    }
    forall a, b | 0 <= a < b < |us| ensures us[a].stageIds[0] != us[b].stageIds[0] {
      if us[a].stageIds[0] == us[b].stageIds[0] {
        assert us[a].stageIds == us[b].stageIds;
        SameStageNamedTwice(q, a, b);
        assert false;
      }
    }
  }

  /** None of the query's stages is empty. */
  predicate NoEmptyStage(eng: Engine, jobId: string, plan: Plan) {
    forall s <- QueryStages(eng, jobId, plan, 0) :: eng.Count(s.child) > 0
  }

  /** So it is if no operator of the plan is. */
  lemma PopulatedHasNoEmptyStage(eng: Engine, jobId: string, plan: Plan)
    requires InputPlan(plan) && Populated(eng, plan)
    ensures NoEmptyStage(eng, jobId, plan)
  {
    StagesPopulated(eng, jobId, plan, 0);
    LastStageShape(eng, jobId, plan, 0);
  }

  lemma PlannedNames(eng: Engine, jobId: string, plan: Plan, i: nat)
    requires InputPlan(plan) && i < |QueryStages(eng, jobId, plan, 0)|
    ensures forall id: nat :: Named(QueryStages(eng, jobId, plan, 0)[i].child, id) <= 1
  {
    hide QueryStages, Named;
    forall id: nat ensures Named(QueryStages(eng, jobId, plan, 0)[i].child, id) <= 1 {
      QueryStagesNamedOnce(eng, jobId, plan, 0, id);
      NamedWithin(ChildrenOf(QueryStages(eng, jobId, plan, 0)), i, id);
    }
  }

  lemma PlannedStageIsGood(eng: Engine, jobId: string, plan: Plan, i: nat)
    requires InputPlan(plan) && NoEmptyStage(eng, jobId, plan) && i < |QueryStages(eng, jobId, plan, 0)|
    ensures GoodStage(eng, QueryStages(eng, jobId, plan, 0), i)
  {
    hide QueryStages, WellStaged, Named, StagesById, Inline, GoodStage;
    var stages := QueryStages(eng, jobId, plan, 0);
    QueryStagesInline(eng, jobId, plan, 0);
    StagesByIdLists(jobId, 0, stages);
    NoBareShuffle(eng, jobId, plan, 0);
    PlannedNames(eng, jobId, plan, i);
    StageIsGood(eng, jobId, stages, StagesById(stages), i);
  }

  lemma PlannedStagesAreDag(eng: Engine, jobId: string, plan: Plan)
    requires InputPlan(plan)
    ensures
      var stages := QueryStages(eng, jobId, plan, 0);
      var m := StagesById(stages);
      && Lists(m, stages) && (forall id: nat :: id in m <==> 1 <= id <= |stages|)
      && Dag(eng, m) && Inline(m, |stages|, stages[|stages| - 1].child) == plan
  {
    hide QueryStages, WellStaged, StagesById, Inline;
    var stages := QueryStages(eng, jobId, plan, 0);
    var m := StagesById(stages);
    QueryStagesInline(eng, jobId, plan, 0);
    StagesByIdLists(jobId, 0, stages);
    assert stages[|stages| - 1].stageId == |stages|;
    forall id | id in m ensures WellStaged(eng, m, id, m[id]) {
      assert stages[id - 1].stageId == id;
    }
  }

  /** The planner's stages are good if and only if none is empty. */
  lemma PlannedStagesAreGood(eng: Engine, jobId: string, plan: Plan)
    requires InputPlan(plan)
    ensures GoodStages(eng, jobId, plan, QueryStages(eng, jobId, plan, 0)) <==> NoEmptyStage(eng, jobId, plan)
  {
    hide QueryStages, StagesById, Inline, Dag, Lists;
    var stages := QueryStages(eng, jobId, plan, 0);
    PlannedStagesAreDag(eng, jobId, plan);
    if NoEmptyStage(eng, jobId, plan) {
      forall i | 0 <= i < |stages| ensures GoodStage(eng, stages, i) {
        PlannedStageIsGood(eng, jobId, plan, i);
      }
    }
    if GoodStages(eng, jobId, plan, stages) {
      forall s | s in stages ensures eng.Count(s.child) > 0 {
        var i :| 0 <= i < |stages| && stages[i] == s;
        assert GoodStage(eng, stages, i);
      }
    }
  }
}
