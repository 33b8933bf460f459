/** `DistributedPlanner`: the loops that cut a plan into stages, with the counter that numbers them. */
module Planner {
  import opened Plans
  import opened StagePlanner
  import opened StageCuts

  class DistributedPlanner {
    const eng: Engine
    const executors: seq<ExecutorMeta>
    var nextStageId: nat

    constructor (eng: Engine, executors: seq<ExecutorMeta>)
      ensures this.eng == eng && this.executors == executors && nextStageId == 0
    {
      this.eng := eng;
      this.executors := executors;
      nextStageId := 0;
    }

    /** A planner without executors is refused. */
    static method TryNew(eng: Engine, executors: seq<ExecutorMeta>) returns (r: Option<DistributedPlanner>)
      ensures r.None? <==> executors == []
      ensures r.Some? ==>
        fresh(r.value) && r.value.executors == executors && r.value.eng == eng && r.value.nextStageId == 0
    {
      if executors == [] {
        return None;
      }
      var planner := new DistributedPlanner(eng, executors);
      r := Some(planner);
    }

    method NextStageId() returns (id: nat)
      modifies this`nextStageId
      ensures nextStageId == old(nextStageId) + 1 == id
    {
      nextStageId := nextStageId + 1;
      id := nextStageId;
    }

    method PlanQueryStages(jobId: string, plan: Plan) returns (stages: seq<QueryStage>)
      modifies this`nextStageId
      ensures stages == QueryStages(eng, jobId, plan, old(nextStageId))
      ensures nextStageId == old(nextStageId) + |stages|
      ensures InputPlan(plan) ==>
        && |stages| == 1 + Edges(eng, plan)
        && CutOrSubmitted(eng, stages) && CutRight(eng, stages[|stages| - 1].child)
        && (AllCutRight(eng, stages) <==> PlainMerges(eng, plan))
    {
      hide PlanStages, CutOrSubmitted, CutRight, AllCutRight, PlainMerges, Edges;
      if InputPlan(plan) {
        StageCount(eng, jobId, plan, nextStageId);
        StagesCutRight(eng, jobId, plan, nextStageId);
      }
      var newPlan;
      newPlan, stages := PlanQueryStagesInternal(jobId, plan);
      var id := NextStageId();
      stages := stages + [QueryStage(jobId, id, newPlan)];
    }

    method PlanQueryStagesInternal(jobId: string, plan: Plan) returns (newPlan: Plan, stages: seq<QueryStage>)
      modifies this`nextStageId
      ensures Staged(newPlan, stages, nextStageId) == PlanStages(eng, jobId, plan, old(nextStageId))
      ensures InputPlan(plan) ==> |stages| == Edges(eng, plan) && CutRight(eng, newPlan) && CutOrSubmitted(eng, stages)
      decreases plan
    {
      hide CutOrSubmitted, CutRight, Edges;
      if InputPlan(plan) {
        PlanStageCount(eng, jobId, plan, nextStageId);
        PlanCuts(eng, jobId, plan, nextStageId);
      }
      if !plan.Operator? || plan.children == [] {
        return plan, [];
      }
      stages := [];
      var cs := plan.children;
      var children: seq<Plan> := [];
      for i := 0 to |cs|
        invariant StagedAll(children, stages, nextStageId) == PlanChildren(eng, jobId, cs[..i], old(nextStageId))
      {
        var newChild, childStages := PlanQueryStagesInternal(jobId, cs[i]);
        children := children + [newChild];
        stages := stages + childStages;
        assert cs[..i + 1][..i] == cs[..i];
      }
      assert cs[..|cs|] == cs;
      if plan.op.Merge? {
        var id := NextStageId();
        var stage := QueryStage(jobId, id, cs[0]);
        stages := stages + [stage];
        newPlan := Operator(Merge, [ShuffleOf(eng, stage)]);
      } else if CutsBelow(eng, plan.op, cs, children) {
        var newChildren;
        newChildren, stages := StageChildren(jobId, children, stages);
        newPlan := Operator(plan.op, newChildren);
      } else {
        newPlan := Operator(plan.op, children);
      }
    }

    /** The loop both cutting branches share: every child becomes a stage of its own. */
    method StageChildren(jobId: string, children: seq<Plan>, before: seq<QueryStage>)
      returns (newChildren: seq<Plan>, stages: seq<QueryStage>)
      modifies this`nextStageId
      ensures stages == before + StageEach(jobId, children, old(nextStageId))
      ensures newChildren == ShuffleEach(eng, StageEach(jobId, children, old(nextStageId)))
      ensures nextStageId == old(nextStageId) + |children|
    {
      newChildren, stages := [], before;
      for i := 0 to |children|
        invariant nextStageId == old(nextStageId) + i
        invariant stages == before + StageEach(jobId, children, old(nextStageId))[..i]
        invariant newChildren == ShuffleEach(eng, StageEach(jobId, children, old(nextStageId)))[..i]
      {
        var id := NextStageId();
        var stage := QueryStage(jobId, id, children[i]);
        newChildren := newChildren + [ShuffleOf(eng, stage)];
        stages := stages + [stage];
      }
    }
  }
}
