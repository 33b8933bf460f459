/** Cutting a physical plan into query stages: the recursive form of `DistributedPlanner::plan_query_stages`. */
module StagePlanner {
  import opened Plans

  /** A rewritten plan, the stages cut out of it in order, and the last stage id handed out. */
  datatype Staged = Staged(plan: Plan, stages: seq<QueryStage>, lastId: nat)

  /** The same for a list of siblings. */
  datatype StagedAll = StagedAll(plans: seq<Plan>, stages: seq<QueryStage>, lastId: nat)

  /** The stages of one job, numbered consecutively after `lastId`. */
  predicate Numbered(jobId: string, lastId: nat, stages: seq<QueryStage>) {
    forall i | 0 <= i < |stages| :: stages[i].jobId == jobId && stages[i].stageId == lastId + 1 + i
  }

  /** The placeholder for the output of a stage. */
  function ShuffleOf(eng: Engine, s: QueryStage): Plan {
    UnresolvedShuffle([s.stageId], eng.SchemaOf(s.child), eng.Count(s.child))
  }

  /** One new stage for each plan. */
  function StageEach(jobId: string, plans: seq<Plan>, lastId: nat): (stages: seq<QueryStage>) {
    seq(|plans|, i requires 0 <= i < |plans| => QueryStage(jobId, lastId + 1 + i, plans[i]))
  }

  function ShuffleEach(eng: Engine, stages: seq<QueryStage>): seq<Plan> {
    seq(|stages|, i requires 0 <= i < |stages| => ShuffleOf(eng, stages[i]))
  }

  /** Does the planner put a stage boundary between this operator and its (rewritten) inputs? */
  predicate CutsBelow(eng: Engine, op: Op, children: seq<Plan>, rewritten: seq<Plan>)
    requires |rewritten| > 0
  {
    match op
    case HashAggregate(mode, _) => mode.Final?
    case HashJoin(_) => false
    case _ => eng.Count(Operator(op, children)) != eng.Count(rewritten[0])
  }

  /** The stages of a plan, with `lastId` the last stage id already taken.
      The inputs come first, left to right. A merge stages its *original* input
      and drops the rewritten one, but keeps the stages found below it. */
  function PlanStages(eng: Engine, jobId: string, p: Plan, lastId: nat): (r: Staged)
    ensures Numbered(jobId, lastId, r.stages) && r.lastId == lastId + |r.stages|
    ensures r.plan.Operator? == p.Operator?
    decreases p, 1
  {
    match p
    case Operator(op, cs) =>
      if cs == [] then Staged(p, [], lastId)
      else
        var r := PlanChildren(eng, jobId, cs, lastId);
        if op.Merge? then
          var s := QueryStage(jobId, r.lastId + 1, cs[0]);
          Staged(Operator(Merge, [ShuffleOf(eng, s)]), r.stages + [s], r.lastId + 1)
        else if CutsBelow(eng, op, cs, r.plans) then
          var cut := StageEach(jobId, r.plans, r.lastId);
          Staged(Operator(op, ShuffleEach(eng, cut)), r.stages + cut, r.lastId + |cut|)
        else
          Staged(Operator(op, r.plans), r.stages, r.lastId)
    case _ => Staged(p, [], lastId)
  }

  function PlanChildren(eng: Engine, jobId: string, cs: seq<Plan>, lastId: nat): (r: StagedAll)
    ensures |r.plans| == |cs|
    ensures Numbered(jobId, lastId, r.stages) && r.lastId == lastId + |r.stages|
    decreases cs, 0
  {
    if cs == [] then StagedAll([], [], lastId)
    else
      var r := PlanChildren(eng, jobId, cs[..|cs| - 1], lastId);
      var c := PlanStages(eng, jobId, cs[|cs| - 1], r.lastId);
      StagedAll(r.plans + [c.plan], r.stages + c.stages, c.lastId)
  }

  /** All stages of a query: those cut out of the plan, and one for what is left of it. */
  function QueryStages(eng: Engine, jobId: string, p: Plan, lastId: nat): (stages: seq<QueryStage>)
    ensures |stages| > 0 && Numbered(jobId, lastId, stages)
  {
    var r := PlanStages(eng, jobId, p, lastId);
    r.stages + [QueryStage(jobId, r.lastId + 1, r.plan)]
  }

  // ---- Planning keeps schema and partition count ----

  lemma {:induction false} PlanKeepsShape(eng: Engine, jobId: string, p: Plan, lastId: nat)
    requires InputPlan(p)
    ensures
      var q := PlanStages(eng, jobId, p, lastId).plan;
      eng.Count(q) == eng.Count(p) && eng.SchemaOf(q) == eng.SchemaOf(p)
    decreases p, 1
  {
    var cs := p.children;
    if cs != [] {
      ChildrenKeepShape(eng, jobId, cs, lastId);
      SameShape(eng, p.op, PlanStages(eng, jobId, p, lastId).plan.children, cs);
    }
  }

  lemma {:induction false} ChildrenKeepShape(eng: Engine, jobId: string, cs: seq<Plan>, lastId: nat)
    requires forall i | 0 <= i < |cs| :: InputPlan(cs[i])
    ensures
      var qs := PlanChildren(eng, jobId, cs, lastId).plans;
      forall i | 0 <= i < |cs| :: eng.Count(qs[i]) == eng.Count(cs[i]) && eng.SchemaOf(qs[i]) == eng.SchemaOf(cs[i])
    decreases cs, 0
  {
    if cs != [] {
      var init := cs[..|cs| - 1];
      ChildrenKeepShape(eng, jobId, init, lastId);
      PlanKeepsShape(eng, jobId, cs[|cs| - 1], PlanChildren(eng, jobId, init, lastId).lastId);
    }
  }

  // ---- Inlining ----

  /** The stages by id: stage id to the plan under the stage. */
  type StageMap = map<nat, Plan>

  ghost predicate Lists(m: StageMap, stages: seq<QueryStage>) {
    forall i | 0 <= i < |stages| :: stages[i].stageId in m && m[stages[i].stageId] == stages[i].child
  }

  function StagesById(stages: seq<QueryStage>): StageMap {
    if stages == [] then map[]
    else StagesById(stages[..|stages| - 1])[stages[|stages| - 1].stageId := stages[|stages| - 1].child]
  }

  lemma {:induction false} StagesByIdLists(jobId: string, lastId: nat, stages: seq<QueryStage>)
    requires Numbered(jobId, lastId, stages)
    ensures Lists(StagesById(stages), stages)
    ensures forall id: nat :: id in StagesById(stages) <==> lastId < id <= lastId + |stages|
  {
    if stages != [] {
      StagesByIdLists(jobId, lastId, stages[..|stages| - 1]);
    }
  }

  /** Every shuffle in `q` names exactly one stage, with an id below `limit`, and announces
      that stage's schema and partition count. There is no reader, and a merge has one input. */
  ghost predicate WellStaged(eng: Engine, m: StageMap, limit: nat, q: Plan)
    decreases q
  {
    match q
    case Operator(op, cs) =>
      (op.Merge? ==> |cs| == 1) && forall i | 0 <= i < |cs| :: WellStaged(eng, m, limit, cs[i])
    case UnresolvedShuffle(ids, schema, n) =>
      && |ids| == 1 && ids[0] in m && ids[0] < limit
      && schema == eng.SchemaOf(m[ids[0]]) && n == eng.Count(m[ids[0]])
    case ShuffleReader(_, _) => false
  }

  /** Replaces every shuffle by the plan of the stage it names, all the way down. */
  ghost function Inline(m: StageMap, limit: nat, q: Plan): Plan
    decreases limit, q
  {
    match q
    case Operator(op, cs) => Operator(op, seq(|cs|, i requires 0 <= i < |cs| => Inline(m, limit, cs[i])))
    case UnresolvedShuffle(ids, _, _) =>
      if |ids| == 1 && ids[0] in m && ids[0] < limit then Inline(m, ids[0], m[ids[0]]) else q
    case ShuffleReader(_, _) => q
  }

  /** Every listed stage only depends on strictly earlier ones. */
  ghost predicate StagesWellStaged(eng: Engine, m: StageMap, stages: seq<QueryStage>) {
    forall i | 0 <= i < |stages| :: WellStaged(eng, m, stages[i].stageId, stages[i].child)
  }

  lemma ListsSplit(m: StageMap, a: seq<QueryStage>, b: seq<QueryStage>)
    requires Lists(m, a + b)
    ensures Lists(m, a) && Lists(m, b)
  {
    assert forall i | 0 <= i < |a| :: a[i] == (a + b)[i];
    assert forall i | 0 <= i < |b| :: b[i] == (a + b)[|a| + i];
  }

  lemma WellStagedJoin(eng: Engine, m: StageMap, a: seq<QueryStage>, b: seq<QueryStage>)
    requires StagesWellStaged(eng, m, a) && StagesWellStaged(eng, m, b)
    ensures StagesWellStaged(eng, m, a + b)
  {
  }

  /** If the inputs inline to `cs`, the operator inlines to the operator over `cs`. */
  lemma OperatorInlines(eng: Engine, m: StageMap, limit: nat, op: Op, qs: seq<Plan>, cs: seq<Plan>)
    requires |qs| == |cs| && (op.Merge? ==> |cs| == 1)
    requires forall i | 0 <= i < |cs| :: WellStaged(eng, m, limit, qs[i]) && Inline(m, limit, qs[i]) == cs[i]
    ensures WellStaged(eng, m, limit, Operator(op, qs)) && Inline(m, limit, Operator(op, qs)) == Operator(op, cs)
  {
    assert seq(|qs|, i requires 0 <= i < |qs| => Inline(m, limit, qs[i])) == cs;
  }

  /** A shuffle inlines to what its stage inlines to. */
  lemma ShuffleInlines(eng: Engine, m: StageMap, limit: nat, s: QueryStage)
    requires s.stageId in m && m[s.stageId] == s.child && s.stageId < limit
    ensures WellStaged(eng, m, limit, ShuffleOf(eng, s))
    ensures Inline(m, limit, ShuffleOf(eng, s)) == Inline(m, s.stageId, s.child)
  {
  }

  lemma {:induction false} InputIsInlined(eng: Engine, m: StageMap, limit: nat, p: Plan)
    requires InputPlan(p)
    ensures WellStaged(eng, m, limit, p) && Inline(m, limit, p) == p
    decreases p
  {
    var cs := p.children;
    forall i | 0 <= i < |cs| ensures WellStaged(eng, m, limit, cs[i]) && Inline(m, limit, cs[i]) == cs[i] {
      InputIsInlined(eng, m, limit, cs[i]);
    }
    assert seq(|cs|, i requires 0 <= i < |cs| => Inline(m, limit, cs[i])) == cs;
  }

  lemma {:induction false} PlanInlines(eng: Engine, jobId: string, p: Plan, lastId: nat, m: StageMap, limit: nat)
    requires InputPlan(p)
    requires Lists(m, PlanStages(eng, jobId, p, lastId).stages)
    requires PlanStages(eng, jobId, p, lastId).lastId < limit
    ensures
      var r := PlanStages(eng, jobId, p, lastId);
      && WellStaged(eng, m, limit, r.plan) && Inline(m, limit, r.plan) == p
      && StagesWellStaged(eng, m, r.stages)
    decreases p, 1
  {
    var r := PlanStages(eng, jobId, p, lastId);
    var cs := p.children;
    if cs == [] {
      InputIsInlined(eng, m, limit, p);
    } else {
      var below := PlanChildren(eng, jobId, cs, lastId);
      if p.op.Merge? {
        var s := QueryStage(jobId, below.lastId + 1, cs[0]);
        ListsSplit(m, below.stages, [s]);
        ChildrenInline(eng, jobId, cs, lastId, m, limit);
        assert [s][0] == s;
        InputIsInlined(eng, m, s.stageId, cs[0]);
        ShuffleInlines(eng, m, limit, s);
        OperatorInlines(eng, m, limit, p.op, [ShuffleOf(eng, s)], cs);
        WellStagedJoin(eng, m, below.stages, [s]);
      } else if CutsBelow(eng, p.op, cs, below.plans) {
        CutInlines(eng, jobId, p.op, cs, lastId, m, limit);
      } else {
        ChildrenInline(eng, jobId, cs, lastId, m, limit);
        OperatorInlines(eng, m, limit, p.op, below.plans, cs);
      }
    }
  }

  lemma {:induction false} CutInlines(eng: Engine, jobId: string, op: Op, cs: seq<Plan>, lastId: nat, m: StageMap,
                                      limit: nat)
    requires !op.Merge?
    requires forall i | 0 <= i < |cs| :: InputPlan(cs[i])
    requires
      var r := PlanChildren(eng, jobId, cs, lastId);
      Lists(m, r.stages + StageEach(jobId, r.plans, r.lastId)) && r.lastId + |cs| < limit
    ensures
      var r := PlanChildren(eng, jobId, cs, lastId);
      var cut := StageEach(jobId, r.plans, r.lastId);
      var q := Operator(op, ShuffleEach(eng, cut));
      && WellStaged(eng, m, limit, q) && Inline(m, limit, q) == Operator(op, cs)
      && StagesWellStaged(eng, m, r.stages + cut)
    decreases cs, 1
  {
    var r := PlanChildren(eng, jobId, cs, lastId);
    var cut := StageEach(jobId, r.plans, r.lastId);
    var qs := ShuffleEach(eng, cut);
    ListsSplit(m, r.stages, cut);
    ChildrenInline(eng, jobId, cs, lastId, m, limit);
    forall i | 0 <= i < |cut|
      ensures WellStaged(eng, m, cut[i].stageId, cut[i].child)
      ensures WellStaged(eng, m, limit, qs[i]) && Inline(m, limit, qs[i]) == cs[i]
    {
      ChildrenInline(eng, jobId, cs, lastId, m, cut[i].stageId);
      ShuffleInlines(eng, m, limit, cut[i]);
    }
    OperatorInlines(eng, m, limit, op, qs, cs);
    WellStagedJoin(eng, m, r.stages, cut);
  }

  lemma {:induction false} ChildrenInline(eng: Engine, jobId: string, cs: seq<Plan>, lastId: nat, m: StageMap,
                                          limit: nat)
    requires forall i | 0 <= i < |cs| :: InputPlan(cs[i])
    requires Lists(m, PlanChildren(eng, jobId, cs, lastId).stages)
    requires PlanChildren(eng, jobId, cs, lastId).lastId < limit
    ensures
      var r := PlanChildren(eng, jobId, cs, lastId);
      && (forall i | 0 <= i < |cs| :: WellStaged(eng, m, limit, r.plans[i]) && Inline(m, limit, r.plans[i]) == cs[i])
      && StagesWellStaged(eng, m, r.stages)
    decreases cs, 0
  {
    if cs != [] {
      var init := PlanChildren(eng, jobId, cs[..|cs| - 1], lastId);
      var c := PlanStages(eng, jobId, cs[|cs| - 1], init.lastId);
      ListsSplit(m, init.stages, c.stages);
      ChildrenInline(eng, jobId, cs[..|cs| - 1], lastId, m, limit);
      PlanInlines(eng, jobId, cs[|cs| - 1], init.lastId, m, limit);
      WellStagedJoin(eng, m, init.stages, c.stages);
    }
  }

  /** Cutting a query into stages and putting the stages back together gives the query itself;
      every stage depends on strictly earlier stages only. */
  lemma QueryStagesInline(eng: Engine, jobId: string, p: Plan, lastId: nat)
    requires InputPlan(p)
    ensures
      var stages := QueryStages(eng, jobId, p, lastId);
      var m := StagesById(stages);
      var last := stages[|stages| - 1];
      && Lists(m, stages) && StagesWellStaged(eng, m, stages)
      && Inline(m, last.stageId, last.child) == p
  {
    var stages := QueryStages(eng, jobId, p, lastId);
    var r := PlanStages(eng, jobId, p, lastId);
    var m := StagesById(stages);
    var last := QueryStage(jobId, r.lastId + 1, r.plan);
    StagesByIdLists(jobId, lastId, stages);
    ListsSplit(m, r.stages, [last]);
    PlanInlines(eng, jobId, p, lastId, m, last.stageId);
    WellStagedJoin(eng, m, r.stages, [last]);
  }

  /** The result of the query is the result of its last stage: same schema, same partition count. */
  lemma LastStageShape(eng: Engine, jobId: string, p: Plan, lastId: nat)
    requires InputPlan(p)
    ensures
      var stages := QueryStages(eng, jobId, p, lastId);
      var last := stages[|stages| - 1].child;
      eng.Count(last) == eng.Count(p) && eng.SchemaOf(last) == eng.SchemaOf(p)
  {
    PlanKeepsShape(eng, jobId, p, lastId);
  }

  /** No stage is a bare shuffle: what `remove_unresolved_shuffles` cannot rewrite never is a stage. */
  lemma NoBareShuffle(eng: Engine, jobId: string, p: Plan, lastId: nat)
    requires InputPlan(p)
    ensures forall s <- QueryStages(eng, jobId, p, lastId) :: s.child.Operator?
  {
    StagesAreOperators(eng, jobId, p, lastId);
  }

  lemma {:induction false} StagesAreOperators(eng: Engine, jobId: string, p: Plan, lastId: nat)
    requires InputPlan(p)
    ensures forall s <- PlanStages(eng, jobId, p, lastId).stages :: s.child.Operator?
    decreases p, 1
  {
    if p.children != [] {
      ChildStagesAreOperators(eng, jobId, p.children, lastId);
    }
  }

  lemma {:induction false} ChildStagesAreOperators(eng: Engine, jobId: string, cs: seq<Plan>, lastId: nat)
    requires forall i | 0 <= i < |cs| :: InputPlan(cs[i])
    ensures
      var r := PlanChildren(eng, jobId, cs, lastId);
      && (forall q <- r.plans :: q.Operator?)
      && (forall s <- r.stages :: s.child.Operator?)
    decreases cs, 0
  {
    if cs != [] {
      var init := PlanChildren(eng, jobId, cs[..|cs| - 1], lastId);
      ChildStagesAreOperators(eng, jobId, cs[..|cs| - 1], lastId);
      StagesAreOperators(eng, jobId, cs[|cs| - 1], init.lastId);
    }
  }

  // ---- Each stage is read by at most one shuffle ----

  function Occurrences(ids: seq<nat>, id: nat): nat {
    multiset(ids)[id]
  }

  /** How often the shuffles of a plan name stage `id`. */
  ghost function Named(q: Plan, id: nat): nat
    decreases q, 1
  {
    match q
    case Operator(_, cs) => NamedAll(cs, id)
    case UnresolvedShuffle(ids, _, _) => Occurrences(ids, id)
    case ShuffleReader(_, _) => 0
  }

  ghost function NamedAll(qs: seq<Plan>, id: nat): nat
    decreases qs, 0
  {
    if qs == [] then 0 else NamedAll(qs[..|qs| - 1], id) + Named(qs[|qs| - 1], id)
  }

  ghost function ChildrenOf(stages: seq<QueryStage>): seq<Plan> {
    seq(|stages|, i requires 0 <= i < |stages| => stages[i].child)
  }

  lemma NamedOne(q: Plan, id: nat)
    ensures NamedAll([q], id) == Named(q, id)
    ensures q.Operator? ==> Named(q, id) == NamedAll(q.children, id)
  {
    assert [q][..0] == [];
  }

  lemma {:induction false} NamedAllConcat(a: seq<Plan>, b: seq<Plan>, id: nat)
    ensures NamedAll(a + b, id) == NamedAll(a, id) + NamedAll(b, id)
  {
    if b == [] {
      assert a + b == a;
    } else {
      assert (a + b)[..|a + b| - 1] == a + b[..|b| - 1];
      NamedAllConcat(a, b[..|b| - 1], id);
    }
  }

  lemma {:induction false} InputNamesNothing(p: Plan, id: nat)
    requires InputPlan(p)
    ensures Named(p, id) == 0
    decreases p, 1
  {
    InputsNameNothing(p.children, id);
  }

  lemma {:induction false} InputsNameNothing(cs: seq<Plan>, id: nat)
    requires forall i | 0 <= i < |cs| :: InputPlan(cs[i])
    ensures NamedAll(cs, id) == 0
    decreases cs, 0
  {
    if cs != [] {
      InputsNameNothing(cs[..|cs| - 1], id);
      InputNamesNothing(cs[|cs| - 1], id);
    }
  }

  /** Named at most once, and only if `lo < id <= hi`. */
  predicate OnceWithin(n: nat, id: nat, lo: nat, hi: nat) {
    n <= 1 && (n == 1 ==> lo < id <= hi)
  }

  /** Fresh shuffles name the fresh stages, each once. */
  lemma {:induction false} ShufflesNameOnce(eng: Engine, jobId: string, lastId: nat, stages: seq<QueryStage>, id: nat)
    requires Numbered(jobId, lastId, stages)
    ensures OnceWithin(NamedAll(ShuffleEach(eng, stages), id), id, lastId, lastId + |stages|)
  {
    if stages != [] {
      var init := stages[..|stages| - 1];
      ShufflesNameOnce(eng, jobId, lastId, init, id);
      assert ShuffleEach(eng, stages)[..|init|] == ShuffleEach(eng, init);
      assert Named(ShuffleOf(eng, stages[|init|]), id) == if id == stages[|init|].stageId then 1 else 0;
    }
  }

  /** How often stage `id` is named in a rewritten plan and the stages cut out of it. */
  ghost function NamedIn(plans: seq<Plan>, stages: seq<QueryStage>, id: nat): nat {
    NamedAll(plans, id) + NamedAll(ChildrenOf(stages), id)
  }

  lemma {:induction false} PlanNamesOnce(eng: Engine, jobId: string, p: Plan, lastId: nat, id: nat)
    requires InputPlan(p)
    ensures
      var r := PlanStages(eng, jobId, p, lastId);
      OnceWithin(NamedIn([r.plan], r.stages, id), id, lastId, r.lastId)
    decreases p, 1
  {
    hide Named, NamedAll, PlanChildren;
    var r := PlanStages(eng, jobId, p, lastId);
    var cs := p.children;
    NamedOne(r.plan, id);
    if cs == [] {
      InputNamesNothing(p, id);
      NamedNone(id);
    } else {
      var below := PlanChildren(eng, jobId, cs, lastId);
      ChildrenNameOnce(eng, jobId, cs, lastId, id);
      if p.op.Merge? {
        var s := QueryStage(jobId, below.lastId + 1, cs[0]);
        assert ChildrenOf(r.stages) == ChildrenOf(below.stages) + [cs[0]];
        NamedAllConcat(ChildrenOf(below.stages), [cs[0]], id);
        InputsNameNothing([cs[0]], id);
        ShufflesNameOnce(eng, jobId, below.lastId, [s], id);
        assert ShuffleEach(eng, [s]) == r.plan.children;
      } else if CutsBelow(eng, p.op, cs, below.plans) {
        var cut := StageEach(jobId, below.plans, below.lastId);
        assert ChildrenOf(r.stages) == ChildrenOf(below.stages) + below.plans;
        NamedAllConcat(ChildrenOf(below.stages), below.plans, id);
        ShufflesNameOnce(eng, jobId, below.lastId, cut, id);
      }
    }
  }

  lemma NamedNone(id: nat)
    ensures NamedAll(ChildrenOf([]), id) == 0
  {
  }

  lemma {:induction false} ChildrenNameOnce(eng: Engine, jobId: string, cs: seq<Plan>, lastId: nat, id: nat)
    requires forall i | 0 <= i < |cs| :: InputPlan(cs[i])
    ensures
      var r := PlanChildren(eng, jobId, cs, lastId);
      OnceWithin(NamedIn(r.plans, r.stages, id), id, lastId, r.lastId)
    decreases cs, 0
  {
    hide Named, NamedAll, PlanStages;
    var r := PlanChildren(eng, jobId, cs, lastId);
    if cs != [] {
      var init := PlanChildren(eng, jobId, cs[..|cs| - 1], lastId);
      var c := PlanStages(eng, jobId, cs[|cs| - 1], init.lastId);
      ChildrenNameOnce(eng, jobId, cs[..|cs| - 1], lastId, id);
      PlanNamesOnce(eng, jobId, cs[|cs| - 1], init.lastId, id);
      assert ChildrenOf(r.stages) == ChildrenOf(init.stages) + ChildrenOf(c.stages);
      NamedAllConcat(ChildrenOf(init.stages), ChildrenOf(c.stages), id);
      NamedAllConcat(init.plans, [c.plan], id);
    } else {
      NamedNone(id);
      assert ChildrenOf([]) == [];
    }
  }

  /** Over all stages of a query, each stage is named by at most one shuffle, and the last by none. */
  lemma QueryStagesNamedOnce(eng: Engine, jobId: string, p: Plan, lastId: nat, id: nat)
    requires InputPlan(p)
    ensures
      var stages := QueryStages(eng, jobId, p, lastId);
      OnceWithin(NamedAll(ChildrenOf(stages), id), id, lastId, lastId + |stages| - 1)
  {
    var r := PlanStages(eng, jobId, p, lastId);
    PlanNamesOnce(eng, jobId, p, lastId, id);
    assert ChildrenOf(QueryStages(eng, jobId, p, lastId)) == ChildrenOf(r.stages) + [r.plan];
    NamedAllConcat(ChildrenOf(r.stages), [r.plan], id);
  }
}
