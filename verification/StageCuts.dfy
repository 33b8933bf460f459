/** Where the planner cuts: which edges of a query become stage boundaries, and how many stages that makes. */
module StageCuts {
  import opened Plans
  import opened StagePlanner
  import opened ShuffleResolution

  // ---- What a cut query looks like ----

  /** An operator that reads its inputs across a stage boundary: a merge, a final aggregate, or an operator other than a
      partial aggregate or a join that does not keep the partition count of its first input. */
  predicate Boundary(eng: Engine, q: Plan) {
    && q.Operator? && q.children != []
    && match q.op
       case Merge => true
       case HashAggregate(mode, _) => mode == Final
       case HashJoin(_) => false
       case Other(_) => eng.Count(q) != eng.Count(q.children[0])
  }

  /** Everywhere in the plan, the inputs of a boundary are shuffles, and those of other operators are not. */
  predicate CutRight(eng: Engine, q: Plan)
    decreases q
  {
    q.Operator? ==>
      if Boundary(eng, q) then forall i | 0 <= i < |q.children| :: q.children[i].UnresolvedShuffle?
      else forall i | 0 <= i < |q.children| :: !q.children[i].UnresolvedShuffle? && CutRight(eng, q.children[i])
  }

  /** The number of edges of a query that cross a boundary. */
  function Edges(eng: Engine, p: Plan): nat
    decreases p, 1
  {
    if !p.Operator? then 0
    else EdgesBelow(eng, p.children) + (if Boundary(eng, p) then |p.children| else 0)
  }

  function EdgesBelow(eng: Engine, cs: seq<Plan>): nat
    decreases cs, 0
  {
    if cs == [] then 0 else EdgesBelow(eng, cs[..|cs| - 1]) + Edges(eng, cs[|cs| - 1])
  }

  /** Below a merge, the query has no boundary. */
  predicate PlainMerges(eng: Engine, p: Plan)
    decreases p
  {
    p.Operator? ==>
      && (p.op.Merge? ==> EdgesBelow(eng, p.children) == 0)
      && forall i | 0 <= i < |p.children| :: PlainMerges(eng, p.children[i])
  }

  // ---- How many stages ----

  /** A query has one stage more than it has such edges. */
  lemma StageCount(eng: Engine, jobId: string, p: Plan, lastId: nat)
    requires InputPlan(p)
    ensures |QueryStages(eng, jobId, p, lastId)| == 1 + Edges(eng, p)
  {
    PlanStageCount(eng, jobId, p, lastId);
  }

  /** The planner cuts below a plan exactly if it is a boundary. */
  lemma CutsAtBoundaries(eng: Engine, jobId: string, p: Plan, lastId: nat)
    requires InputPlan(p) && p.children != [] && !p.op.Merge?
    ensures CutsBelow(eng, p.op, p.children, PlanChildren(eng, jobId, p.children, lastId).plans) <==> Boundary(eng, p)
  {
    hide PlanChildren;
    ChildrenKeepShape(eng, jobId, p.children, lastId);
  }

  lemma {:induction false} PlanStageCount(eng: Engine, jobId: string, p: Plan, lastId: nat)
    requires InputPlan(p)
    ensures |PlanStages(eng, jobId, p, lastId).stages| == Edges(eng, p)
    decreases p, 1
  {
    hide PlanChildren, CutsBelow, EdgesBelow;
    if p.children != [] {
      ChildStageCount(eng, jobId, p.children, lastId);
      if !p.op.Merge? {
        CutsAtBoundaries(eng, jobId, p, lastId);
      }
    } else {
      NoEdgesBelow(eng);
    }
  }

  lemma NoEdgesBelow(eng: Engine)
    ensures EdgesBelow(eng, []) == 0
  {
  }

  lemma {:induction false} ChildStageCount(eng: Engine, jobId: string, cs: seq<Plan>, lastId: nat)
    requires forall i | 0 <= i < |cs| :: InputPlan(cs[i])
    ensures |PlanChildren(eng, jobId, cs, lastId).stages| == EdgesBelow(eng, cs)
    decreases cs, 0
  {
    hide PlanStages, Edges;
    if cs != [] {
      var init := cs[..|cs| - 1];
      ChildStageCount(eng, jobId, init, lastId);
      PlanStageCount(eng, jobId, cs[|cs| - 1], PlanChildren(eng, jobId, init, lastId).lastId);
    }
  }

  // ---- Where the cuts fall ----

  /** A query as submitted has no shuffle, so it is cut right only if there is nothing to cut. */
  lemma {:induction false} UncutIsRight(eng: Engine, p: Plan)
    requires InputPlan(p)
    ensures CutRight(eng, p) <==> Edges(eng, p) == 0
    decreases p, 1
  {
    UncutBelow(eng, p.children);
    if Boundary(eng, p) {
      assert p.children[0].Operator?;
    }
  }

  lemma {:induction false} UncutBelow(eng: Engine, cs: seq<Plan>)
    requires forall i | 0 <= i < |cs| :: InputPlan(cs[i])
    ensures (forall i | 0 <= i < |cs| :: CutRight(eng, cs[i])) <==> EdgesBelow(eng, cs) == 0
    decreases cs, 0
  {
    hide CutRight, Edges;
    if cs != [] {
      var init, last := cs[..|cs| - 1], cs[|cs| - 1];
      UncutBelow(eng, init);
      UncutIsRight(eng, last);
      assert forall i | 0 <= i < |init| :: init[i] == cs[i];
    }
  }

  ghost predicate AllCutRight(eng: Engine, stages: seq<QueryStage>) {
    forall i | 0 <= i < |stages| :: CutRight(eng, stages[i].child)
  }

  /** A stage is cut right, or it is part of the query as it was submitted. */
  ghost predicate CutOrSubmitted(eng: Engine, stages: seq<QueryStage>) {
    forall i | 0 <= i < |stages| :: CutRight(eng, stages[i].child) || InputPlan(stages[i].child)
  }

  predicate PlainMergesIn(eng: Engine, cs: seq<Plan>) {
    forall i | 0 <= i < |cs| :: PlainMerges(eng, cs[i])
  }

  lemma CutShape(eng: Engine, op: Op, cs: seq<Plan>, qs: seq<Plan>)
    requires cs != [] && |qs| == |cs|
    requires forall i | 0 <= i < |cs| :: eng.Count(qs[i]) == eng.Count(cs[i])
    ensures Boundary(eng, Operator(op, qs)) <==> Boundary(eng, Operator(op, cs))
  {
    assert seq(|cs|, i requires 0 <= i < |cs| => eng.Count(cs[i]))
        == seq(|qs|, i requires 0 <= i < |qs| => eng.Count(qs[i]));
  }

  lemma JoinCuts(eng: Engine, a: seq<QueryStage>, b: seq<QueryStage>)
    ensures AllCutRight(eng, a + b) <==> AllCutRight(eng, a) && AllCutRight(eng, b)
    ensures CutOrSubmitted(eng, a) && CutOrSubmitted(eng, b) ==> CutOrSubmitted(eng, a + b)
  {
    hide CutRight;
    assert forall i | 0 <= i < |a| :: (a + b)[i] == a[i];
    assert forall i | 0 <= i < |b| :: (a + b)[|a| + i] == b[i];
  }

  lemma {:induction false} PlanCuts(eng: Engine, jobId: string, p: Plan, lastId: nat)
    requires InputPlan(p)
    ensures
      var r := PlanStages(eng, jobId, p, lastId);
      && CutRight(eng, r.plan) && CutOrSubmitted(eng, r.stages)
      && (AllCutRight(eng, r.stages) <==> PlainMerges(eng, p))
    decreases p, 1
  {
    hide AllCutRight, CutOrSubmitted;
    var cs := p.children;
    if cs == [] {
      NoStagesCut(eng);
      NoEdgesBelow(eng);
    } else {
      ChildCuts(eng, jobId, cs, lastId);
      if p.op.Merge? {
        MergeCuts(eng, jobId, p, lastId);
      } else {
        OtherCuts(eng, jobId, p, lastId);
      }
    }
  }

  lemma NoStagesCut(eng: Engine)
    ensures AllCutRight(eng, []) && CutOrSubmitted(eng, [])
  {
  }

  lemma OneStageCut(eng: Engine, s: QueryStage)
    ensures AllCutRight(eng, [s]) <==> CutRight(eng, s.child)
    ensures InputPlan(s.child) ==> CutOrSubmitted(eng, [s])
  {
    hide CutRight;
    assert [s][0] == s;
  }

  lemma MergeCuts(eng: Engine, jobId: string, p: Plan, lastId: nat)
    requires InputPlan(p) && p.op.Merge?
    requires
      var below := PlanChildren(eng, jobId, p.children, lastId);
      && CutOrSubmitted(eng, below.stages)
      && (AllCutRight(eng, below.stages) <==> PlainMergesIn(eng, p.children))
    ensures
      var r := PlanStages(eng, jobId, p, lastId);
      && CutRight(eng, r.plan) && CutOrSubmitted(eng, r.stages)
      && (AllCutRight(eng, r.stages) <==> PlainMerges(eng, p))
  {
    hide AllCutRight, CutOrSubmitted, PlanChildren;
    var below := PlanChildren(eng, jobId, p.children, lastId);
    var s := QueryStage(jobId, below.lastId + 1, p.children[0]);
    JoinCuts(eng, below.stages, [s]);
    OneStageCut(eng, s);
    UncutIsRight(eng, p.children[0]);
    OneChild(eng, p.children);
  }

  lemma OneChild(eng: Engine, cs: seq<Plan>)
    requires |cs| == 1
    ensures EdgesBelow(eng, cs) == Edges(eng, cs[0])
  {
    assert cs[..0] == [];
    assert EdgesBelow(eng, cs[..0]) == 0;
  }

  lemma OtherCuts(eng: Engine, jobId: string, p: Plan, lastId: nat)
    requires InputPlan(p) && p.children != [] && !p.op.Merge?
    requires
      var below := PlanChildren(eng, jobId, p.children, lastId);
      && (forall i | 0 <= i < |below.plans| :: below.plans[i].Operator? && CutRight(eng, below.plans[i]))
      && CutOrSubmitted(eng, below.stages)
      && (AllCutRight(eng, below.stages) <==> PlainMergesIn(eng, p.children))
    ensures
      var r := PlanStages(eng, jobId, p, lastId);
      && CutRight(eng, r.plan) && CutOrSubmitted(eng, r.stages)
      && (AllCutRight(eng, r.stages) <==> PlainMerges(eng, p))
  {
    hide AllCutRight, CutOrSubmitted, PlanChildren, CutsBelow;
    var cs := p.children;
    var below := PlanChildren(eng, jobId, cs, lastId);
    CutsAtBoundaries(eng, jobId, p, lastId);
    ChildrenKeepShape(eng, jobId, cs, lastId);
    if Boundary(eng, p) {
      var cut := StageEach(jobId, below.plans, below.lastId);
      CutShape(eng, p.op, cs, ShuffleEach(eng, cut));
      JoinCuts(eng, below.stages, cut);
      FreshCuts(eng, jobId, below.plans, below.lastId);
    } else {
      CutShape(eng, p.op, cs, below.plans);
    }
  }

  lemma FreshCuts(eng: Engine, jobId: string, plans: seq<Plan>, lastId: nat)
    requires forall i | 0 <= i < |plans| :: CutRight(eng, plans[i])
    ensures AllCutRight(eng, StageEach(jobId, plans, lastId)) && CutOrSubmitted(eng, StageEach(jobId, plans, lastId))
  {
    hide CutRight;
  }

  lemma {:induction false} ChildCuts(eng: Engine, jobId: string, cs: seq<Plan>, lastId: nat)
    requires forall i | 0 <= i < |cs| :: InputPlan(cs[i])
    ensures
      var r := PlanChildren(eng, jobId, cs, lastId);
      && (forall i | 0 <= i < |r.plans| :: r.plans[i].Operator? && CutRight(eng, r.plans[i]))
      && CutOrSubmitted(eng, r.stages)
      && (AllCutRight(eng, r.stages) <==> PlainMergesIn(eng, cs))
    decreases cs, 0
  {
    hide AllCutRight, CutOrSubmitted, PlanStages, CutRight, PlainMerges;
    if cs == [] {
      NoStagesCut(eng);
    } else {
      var cs', c := cs[..|cs| - 1], cs[|cs| - 1];
      var init := PlanChildren(eng, jobId, cs', lastId);
      ChildCuts(eng, jobId, cs', lastId);
      PlanCuts(eng, jobId, c, init.lastId);
      JoinCuts(eng, init.stages, PlanStages(eng, jobId, c, init.lastId).stages);
      assert forall i | 0 <= i < |cs'| :: cs'[i] == cs[i];
    }
  }

  /** Every stage of a query is cut exactly at its boundaries, or is the unchanged input of a merge. The latter makes a
      difference if and only if there is a boundary below a merge. */
  lemma StagesCutRight(eng: Engine, jobId: string, p: Plan, lastId: nat)
    requires InputPlan(p)
    ensures
      var stages := QueryStages(eng, jobId, p, lastId);
      && CutOrSubmitted(eng, stages) && CutRight(eng, stages[|stages| - 1].child)
      && (AllCutRight(eng, stages) <==> PlainMerges(eng, p))
  {
    hide AllCutRight, CutOrSubmitted, PlanStages, CutRight, PlainMerges;
    var r := PlanStages(eng, jobId, p, lastId);
    var last := QueryStage(jobId, r.lastId + 1, r.plan);
    PlanCuts(eng, jobId, p, lastId);
    JoinCuts(eng, r.stages, [last]);
    OneStageCut(eng, last);
    LastCut(eng, last);
  }

  lemma LastCut(eng: Engine, s: QueryStage)
    requires CutRight(eng, s.child)
    ensures CutOrSubmitted(eng, [s])
  {
  }

  /** The counterexample: the stage below the outer of two merges is the inner one, uncut. */
  lemma NestedMergeIsUncut(eng: Engine, jobId: string, leaf: Plan)
    requires InputPlan(leaf) && leaf.children == []
    ensures
      var inner := Operator(Merge, [leaf]);
      var stages := QueryStages(eng, jobId, Operator(Merge, [inner]), 0);
      |stages| == 3 && stages[1].child == inner && !CutRight(eng, inner)
  {
    hide Edges, EdgesBelow;
    var inner := Operator(Merge, [leaf]);
    OneLeaf(eng, jobId, leaf);
    var below := PlanStages(eng, jobId, inner, 0);
    assert below.stages == [QueryStage(jobId, 1, leaf)] && below.lastId == 1;
    assert [inner][..0] == [];
    assert PlanChildren(eng, jobId, [inner][..0], 0) == StagedAll([], [], 0);
    assert PlanChildren(eng, jobId, [inner], 0) == StagedAll([below.plan], below.stages, 1);
    assert inner.children[0].Operator?;
  }

  lemma OneLeaf(eng: Engine, jobId: string, leaf: Plan)
    requires InputPlan(leaf) && leaf.children == []
    ensures PlanChildren(eng, jobId, [leaf], 0) == StagedAll([leaf], [], 0)
  {
    assert [leaf][..0] == [];
    assert PlanChildren(eng, jobId, [leaf][..0], 0) == StagedAll([], [], 0);
    assert PlanStages(eng, jobId, leaf, 0) == Staged(leaf, [], 0);
  }

  // ---- The order of the stages ----

  /** Each shuffle names one stage, between `lo` and `hi`, and stages come in the order of the shuffles. */
  predicate Ascends(us: seq<Plan>, lo: nat, hi: nat) {
    && (forall k | 0 <= k < |us| :: us[k].UnresolvedShuffle? && |us[k].stageIds| == 1 && lo < us[k].stageIds[0] <= hi)
    && (forall k, n | 0 <= k < n < |us| :: us[k].stageIds[0] < us[n].stageIds[0])
  }

  lemma JoinAscends(a: seq<Plan>, b: seq<Plan>, lo: nat, mid: nat, hi: nat)
    requires Ascends(a, lo, mid) && Ascends(b, mid, hi) && lo <= mid <= hi
    ensures Ascends(a + b, lo, hi)
  {
  }

  lemma {:induction false} NothingToFind(p: Plan)
    requires InputPlan(p)
    ensures FindUnresolvedShuffles(p) == []
    decreases p, 1
  {
    NothingToFindIn(p.children);
  }

  lemma {:induction false} NothingToFindIn(cs: seq<Plan>)
    requires forall i | 0 <= i < |cs| :: InputPlan(cs[i])
    ensures FindAll(cs) == []
    decreases cs, 0
  {
    if cs != [] {
      NothingToFindIn(cs[..|cs| - 1]);
      NothingToFind(cs[|cs| - 1]);
    }
  }

  lemma FreshAscend(eng: Engine, jobId: string, lastId: nat, stages: seq<QueryStage>)
    requires Numbered(jobId, lastId, stages)
    ensures FindAll(ShuffleEach(eng, stages)) == ShuffleEach(eng, stages)
    ensures Ascends(ShuffleEach(eng, stages), lastId, lastId + |stages|)
  {
    hide FindAll;
    FreshFound(eng, stages);
    var us := ShuffleEach(eng, stages);
    assert forall k | 0 <= k < |us| :: us[k] == ShuffleOf(eng, stages[k]);
  }

  lemma {:induction false} FreshFound(eng: Engine, stages: seq<QueryStage>)
    ensures FindAll(ShuffleEach(eng, stages)) == ShuffleEach(eng, stages)
  {
    var us := ShuffleEach(eng, stages);
    if stages != [] {
      var init, last := stages[..|stages| - 1], stages[|stages| - 1];
      FreshFound(eng, init);
      assert us[..|us| - 1] == ShuffleEach(eng, init) && us[|us| - 1] == ShuffleOf(eng, last);
    }
  }

  /** ... of stages after `lo` and before the stage itself. */
  predicate StagesAscend(stages: seq<QueryStage>, lo: nat) {
    forall i | 0 <= i < |stages| ::
      lo < stages[i].stageId && Ascends(FindUnresolvedShuffles(stages[i].child), lo, stages[i].stageId - 1)
  }

  lemma WiderAscends(us: seq<Plan>, lo: nat, hi: nat, lo': nat, hi': nat)
    requires Ascends(us, lo, hi) && lo' <= lo && hi <= hi'
    ensures Ascends(us, lo', hi')
  {
  }

  lemma JoinStagesAscend(a: seq<QueryStage>, b: seq<QueryStage>, lo: nat, lo': nat)
    requires StagesAscend(a, lo) && StagesAscend(b, lo') && lo <= lo'
    ensures StagesAscend(a + b, lo)
  {
    hide Ascends, FindUnresolvedShuffles;
    forall i | 0 <= i < |b| ensures Ascends(FindUnresolvedShuffles(b[i].child), lo, b[i].stageId - 1) {
      WiderAscends(FindUnresolvedShuffles(b[i].child), lo', b[i].stageId - 1, lo, b[i].stageId - 1);
    }
  }

  lemma {:induction false} PlanAscends(eng: Engine, jobId: string, p: Plan, lastId: nat)
    requires InputPlan(p)
    ensures
      var r := PlanStages(eng, jobId, p, lastId);
      Ascends(FindUnresolvedShuffles(r.plan), lastId, r.lastId) && StagesAscend(r.stages, lastId)
    decreases p, 1
  {
    hide PlanChildren, CutsBelow, Ascends, FindAll, StagesAscend;
    var cs := p.children;
    if cs == [] {
      NothingAscends(lastId);
      NothingToFind(p);
    } else {
      var below := PlanChildren(eng, jobId, cs, lastId);
      ChildrenAscend(eng, jobId, cs, lastId);
      if p.op.Merge? {
        var s := QueryStage(jobId, below.lastId + 1, cs[0]);
        MergedAscends(eng, s, lastId);
        assert ShuffleEach(eng, [s]) == [ShuffleOf(eng, s)];
        FreshAscend(eng, jobId, below.lastId, [s]);
        WiderAscends(ShuffleEach(eng, [s]), below.lastId, below.lastId + 1, lastId, below.lastId + 1);
        JoinStagesAscend(below.stages, [s], lastId, lastId);
      } else if CutsBelow(eng, p.op, cs, below.plans) {
        var cut := StageEach(jobId, below.plans, below.lastId);
        FreshAscend(eng, jobId, below.lastId, cut);
        WiderAscends(ShuffleEach(eng, cut), below.lastId, below.lastId + |cut|, lastId, below.lastId + |cut|);
        CutAscends(jobId, below.plans, lastId, below.lastId);
        JoinStagesAscend(below.stages, cut, lastId, lastId);
      }
    }
  }

  lemma NothingAscends(lo: nat)
    ensures Ascends([], lo, lo) && StagesAscend([], lo)
  {
  }

  lemma MergedAscends(eng: Engine, s: QueryStage, lo: nat)
    requires InputPlan(s.child) && lo < s.stageId
    ensures StagesAscend([s], lo)
  {
    NothingToFind(s.child);
  }

  lemma CutAscends(jobId: string, plans: seq<Plan>, lo: nat, lastId: nat)
    requires Ascends(FindAll(plans), lo, lastId) && lo <= lastId
    ensures StagesAscend(StageEach(jobId, plans, lastId), lo)
  {
    hide Ascends, FindUnresolvedShuffles, FindAll;
    var cut := StageEach(jobId, plans, lastId);
    forall i | 0 <= i < |cut| ensures Ascends(FindUnresolvedShuffles(cut[i].child), lo, cut[i].stageId - 1) {
      PartAscends(plans, i, lo, lastId);
      WiderAscends(FindUnresolvedShuffles(plans[i]), lo, lastId, lo, lastId + i);
    }
  }

  lemma {:induction false} PartAscends(plans: seq<Plan>, i: nat, lo: nat, hi: nat)
    requires i < |plans| && Ascends(FindAll(plans), lo, hi)
    ensures Ascends(FindUnresolvedShuffles(plans[i]), lo, hi)
  {
    hide FindUnresolvedShuffles, Ascends;
    var init, last := plans[..|plans| - 1], plans[|plans| - 1];
    SplitAscends(FindAll(init), FindUnresolvedShuffles(last), lo, hi);
    if i < |init| {
      PartAscends(init, i, lo, hi);
    }
  }

  lemma SplitAscends(a: seq<Plan>, b: seq<Plan>, lo: nat, hi: nat)
    requires Ascends(a + b, lo, hi)
    ensures Ascends(a, lo, hi) && Ascends(b, lo, hi)
  {
    assert forall k | 0 <= k < |a| :: (a + b)[k] == a[k];
    assert forall k | 0 <= k < |b| :: (a + b)[|a| + k] == b[k];
  }

  lemma {:induction false} ChildrenAscend(eng: Engine, jobId: string, cs: seq<Plan>, lastId: nat)
    requires forall i | 0 <= i < |cs| :: InputPlan(cs[i])
    ensures
      var r := PlanChildren(eng, jobId, cs, lastId);
      Ascends(FindAll(r.plans), lastId, r.lastId) && StagesAscend(r.stages, lastId)
    decreases cs, 0
  {
    hide PlanStages, Ascends, FindUnresolvedShuffles, StagesAscend;
    if cs == [] {
      NothingAscends(lastId);
    } else {
      var init := PlanChildren(eng, jobId, cs[..|cs| - 1], lastId);
      var c := PlanStages(eng, jobId, cs[|cs| - 1], init.lastId);
      ChildrenAscend(eng, jobId, cs[..|cs| - 1], lastId);
      PlanAscends(eng, jobId, cs[|cs| - 1], init.lastId);
      assert (init.plans + [c.plan])[..|init.plans|] == init.plans;
      JoinAscends(FindAll(init.plans), FindUnresolvedShuffles(c.plan), lastId, init.lastId, c.lastId);
      JoinStagesAscend(init.stages, c.stages, lastId, init.lastId);
    }
  }

  /** In every stage the shuffles, from left to right, name later and later stages, all before the stage itself. */
  lemma ShufflesAscend(eng: Engine, jobId: string, p: Plan, lastId: nat)
    requires InputPlan(p)
    ensures StagesAscend(QueryStages(eng, jobId, p, lastId), lastId)
  {
    hide PlanStages, Ascends, FindUnresolvedShuffles, StagesAscend;
    var r := PlanStages(eng, jobId, p, lastId);
    var last := QueryStage(jobId, r.lastId + 1, r.plan);
    PlanAscends(eng, jobId, p, lastId);
    LastAscends(last, lastId);
    JoinStagesAscend(r.stages, [last], lastId, lastId);
  }

  lemma LastAscends(s: QueryStage, lo: nat)
    requires lo < s.stageId && Ascends(FindUnresolvedShuffles(s.child), lo, s.stageId - 1)
    ensures StagesAscend([s], lo)
  {
  }
}
