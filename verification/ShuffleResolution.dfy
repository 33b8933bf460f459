/** Turning unresolved shuffles into shuffle readers once the locations of their partitions are known
    (`remove_unresolved_shuffles`, `find_unresolved_shuffles`). */
module ShuffleResolution {
  import opened Plans

  /** Stage id to the locations of the partitions of that stage. */
  type Locations = map<nat, seq<PartitionLocation>>

  /** Only operators have inputs to replace, and not their number. */
  function WithNewChildren(p: Plan, cs: seq<Plan>): (r: Option<Plan>)
    ensures r.Some? <==> p.Operator? && |p.children| == |cs|
  {
    match p
    case Operator(op, ds) => if |cs| == |ds| then Some(Operator(op, cs)) else None
    case UnresolvedShuffle(_, _, _) => None
    case ShuffleReader(_, _) => None
  }

  /** The locations of several stages, one stage after the other. */
  function Locate(locs: Locations, ids: seq<nat>): Option<seq<PartitionLocation>> {
    if ids == [] then Some([])
    else
      var init := Locate(locs, ids[..|ids| - 1]);
      var id := ids[|ids| - 1];
      if init.Some? && id in locs then Some(init.value + locs[id]) else None
  }

  function ResolveChild(locs: Locations, c: Plan): Option<Plan>
    decreases c, 1
  {
    if c.UnresolvedShuffle? then
      var found := Locate(locs, c.stageIds);
      if found.Some? then Some(ShuffleReader(found.value, c.schema)) else None
    else Resolve(locs, c)
  }

  function Resolve(locs: Locations, p: Plan): Option<Plan>
    decreases p, 0
  {
    match p
    case Operator(op, cs) =>
      if forall i | 0 <= i < |cs| :: ResolveChild(locs, cs[i]).Some? then
        Some(Operator(op, seq(|cs|, i requires 0 <= i < |cs| => ResolveChild(locs, cs[i]).value)))
      else None
    case _ => None
  }

  /** The stage itself is a node with one child, which may be a shuffle. */
  function ResolveStage(locs: Locations, s: QueryStage): Option<QueryStage> {
    var child := ResolveChild(locs, s.child);
    if child.Some? then Some(s.(child := child.value)) else None
  }

  method RemoveUnresolvedShuffles(p: Plan, locs: Locations) returns (r: Option<Plan>)
    ensures r == Resolve(locs, p)
    decreases p
  {
    var cs := if p.Operator? then p.children else [];
    var newChildren: seq<Plan> := [];
    for i := 0 to |cs|
      invariant |newChildren| == i
      invariant forall k | 0 <= k < i :: ResolveChild(locs, cs[k]) == Some(newChildren[k])
    {
      var c := cs[i];
      if c.UnresolvedShuffle? {
        var relevant: seq<PartitionLocation> := [];
        for k := 0 to |c.stageIds|
          invariant Locate(locs, c.stageIds[..k]) == Some(relevant)
        {
          assert c.stageIds[..k + 1][..k] == c.stageIds[..k];
          if c.stageIds[k] !in locs {
            MissingLocation(locs, c.stageIds, k);
            return None;
          }
          relevant := relevant + locs[c.stageIds[k]];
        }
        assert c.stageIds[..|c.stageIds|] == c.stageIds;
        newChildren := newChildren + [ShuffleReader(relevant, c.schema)];
      } else {
        var child := RemoveUnresolvedShuffles(c, locs);
        if child.None? {
          return None;
        }
        newChildren := newChildren + [child.value];
      }
    }
    r := WithNewChildren(p, newChildren);
    assert p.Operator? ==> newChildren == seq(|cs|, i requires 0 <= i < |cs| => ResolveChild(locs, cs[i]).value);
  }

  lemma {:induction false} MissingLocation(locs: Locations, ids: seq<nat>, k: nat)
    requires k < |ids| && ids[k] !in locs
    ensures Locate(locs, ids).None?
  {
    if k < |ids| - 1 {
      MissingLocation(locs, ids[..|ids| - 1], k);
    }
  }

  lemma {:induction false} AllLocated(locs: Locations, ids: seq<nat>)
    ensures Locate(locs, ids).Some? <==> forall k | 0 <= k < |ids| :: ids[k] in locs
  {
    if ids != [] {
      var init := ids[..|ids| - 1];
      AllLocated(locs, init);
      assert forall k | 0 <= k < |init| :: init[k] == ids[k];
    }
  }

  /** The unresolved shuffles of a plan, left to right. */
  function FindUnresolvedShuffles(p: Plan): (r: seq<Plan>)
    ensures forall u <- r :: u.UnresolvedShuffle?
    decreases p, 1
  {
    match p
    case UnresolvedShuffle(_, _, _) => [p]
    case Operator(_, cs) => FindAll(cs)
    case ShuffleReader(_, _) => []
  }

  function FindAll(cs: seq<Plan>): (r: seq<Plan>)
    ensures forall u <- r :: u.UnresolvedShuffle?
    decreases cs, 0
  {
    if cs == [] then [] else FindAll(cs[..|cs| - 1]) + FindUnresolvedShuffles(cs[|cs| - 1])
  }

  /** A shuffle is found among siblings exactly when it is found in one of them. */
  lemma {:induction false} FoundInChild(cs: seq<Plan>, u: Plan)
    ensures u in FindAll(cs) <==> exists i | 0 <= i < |cs| :: u in FindUnresolvedShuffles(cs[i])
  {
    if cs != [] {
      FoundInChild(cs[..|cs| - 1], u);
      assert forall i | 0 <= i < |cs| - 1 :: cs[..|cs| - 1][i] == cs[i];
    }
  }

  predicate ReaderFree(p: Plan)
    decreases p
  {
    match p
    case Operator(_, cs) => forall i | 0 <= i < |cs| :: ReaderFree(cs[i])
    case UnresolvedShuffle(_, _, _) => true
    case ShuffleReader(_, _) => false
  }

  /** All the stages a shuffle reads have locations. */
  predicate LocatedIn(locs: Locations, u: Plan)
    requires u.UnresolvedShuffle?
  {
    forall k | 0 <= k < |u.stageIds| :: u.stageIds[k] in locs
  }

  predicate AllShufflesLocated(locs: Locations, p: Plan) {
    forall u <- FindUnresolvedShuffles(p) :: LocatedIn(locs, u)
  }

  lemma ShufflesLocatedBelow(locs: Locations, op: Op, cs: seq<Plan>)
    ensures AllShufflesLocated(locs, Operator(op, cs)) <==> forall i | 0 <= i < |cs| :: AllShufflesLocated(locs, cs[i])
  {
    if AllShufflesLocated(locs, Operator(op, cs)) {
      forall i, u | 0 <= i < |cs| && u in FindUnresolvedShuffles(cs[i]) ensures LocatedIn(locs, u) {
        FoundInChild(cs, u);
      }
    }
    if forall i | 0 <= i < |cs| :: AllShufflesLocated(locs, cs[i]) {
      forall u | u in FindAll(cs) ensures LocatedIn(locs, u) {
        FoundInChild(cs, u);
      }
    }
  }

  /** Resolution succeeds exactly on operators without readers all of whose shuffles are located. */
  lemma {:induction false} ResolveSucceeds(locs: Locations, p: Plan)
    ensures Resolve(locs, p).Some? <==> p.Operator? && ReaderFree(p) && AllShufflesLocated(locs, p)
    decreases p, 0
  {
    if p.Operator? {
      var cs := p.children;
      ShufflesLocatedBelow(locs, p.op, cs);
      forall i | 0 <= i < |cs|
        ensures ResolveChild(locs, cs[i]).Some? <==> ReaderFree(cs[i]) && AllShufflesLocated(locs, cs[i])
      {
        ResolveChildSucceeds(locs, cs[i]);
      }
    }
  }

  lemma {:induction false} ResolveChildSucceeds(locs: Locations, c: Plan)
    ensures ResolveChild(locs, c).Some? <==> ReaderFree(c) && AllShufflesLocated(locs, c)
    decreases c, 1
  {
    if c.UnresolvedShuffle? {
      AllLocated(locs, c.stageIds);
      assert AllShufflesLocated(locs, c) <==> LocatedIn(locs, c);
    } else {
      ResolveSucceeds(locs, c);
    }
  }

  /** The located partitions are as many as the shuffle announced. */
  predicate CountsMatch(locs: Locations, u: Plan)
    requires u.UnresolvedShuffle?
  {
    var found := Locate(locs, u.stageIds);
    found.Some? ==> |found.value| == u.partitionCount
  }

  /** Same operators in the same places, shuffles read, and the same schema and partition count at every node. */
  ghost predicate ResolvedForm(eng: Engine, p: Plan, q: Plan)
    decreases p
  {
    && eng.SchemaOf(p) == eng.SchemaOf(q) && eng.Count(p) == eng.Count(q)
    && match p
       case Operator(op, cs) =>
         q.Operator? && q.op == op && |q.children| == |cs|
         && forall i | 0 <= i < |cs| :: ResolvedForm(eng, cs[i], q.children[i])
       case UnresolvedShuffle(_, _, _) => q.ShuffleReader?
       case ShuffleReader(_, _) => q == p
  }

  /** Resolution changes nothing but the shuffles: no shuffle is left, and every node keeps its shape. */
  lemma {:induction false} ResolveKeepsForm(eng: Engine, locs: Locations, p: Plan)
    requires Resolve(locs, p).Some?
    requires forall u <- FindUnresolvedShuffles(p) :: CountsMatch(locs, u)
    ensures ResolvedForm(eng, p, Resolve(locs, p).value)
    ensures FindUnresolvedShuffles(Resolve(locs, p).value) == []
    decreases p, 0
  {
    var cs := p.children;
    var q := Resolve(locs, p).value;
    forall i | 0 <= i < |cs|
      ensures ResolvedForm(eng, cs[i], q.children[i]) && FindUnresolvedShuffles(q.children[i]) == []
    {
      forall u | u in FindUnresolvedShuffles(cs[i]) ensures CountsMatch(locs, u) {
        FoundInChild(cs, u);
      }
      ResolveChildKeepsForm(eng, locs, cs[i]);
    }
    SameShape(eng, p.op, cs, q.children);
    if FindAll(q.children) != [] {
      FoundInChild(q.children, FindAll(q.children)[0]);
    }
  }

  lemma {:induction false} ResolveChildKeepsForm(eng: Engine, locs: Locations, c: Plan)
    requires ResolveChild(locs, c).Some?
    requires forall u <- FindUnresolvedShuffles(c) :: CountsMatch(locs, u)
    ensures ResolvedForm(eng, c, ResolveChild(locs, c).value)
    ensures FindUnresolvedShuffles(ResolveChild(locs, c).value) == []
    decreases c, 1
  {
    if c.UnresolvedShuffle? {
      assert c in FindUnresolvedShuffles(c);
    } else {
      ResolveKeepsForm(eng, locs, c);
    }
  }
}
