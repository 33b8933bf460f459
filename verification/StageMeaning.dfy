/** What running a stage computes: on stores that hold the outputs of the stages it reads, the resolved
    stage gives exactly the rows of the stage with those stages inlined. */
module StageMeaning {
  import opened Plans
  import opened StagePlanner
  import opened ShuffleResolution

  ghost predicate Dag(eng: Engine, m: StageMap) {
    forall id | id in m :: WellStaged(eng, m, id, m[id])
  }

  /** The rows stage `id` stands for: it and the stages it reads, run as one plan without any store. */
  ghost function StageTable(eng: Engine, m: StageMap, id: nat): Option<Table>
    requires id in m
  {
    eng.Execute(map[], Inline(m, id, m[id]))
  }

  lemma {:induction false} InlineKeepsShape(eng: Engine, m: StageMap, limit: nat, q: Plan)
    requires Dag(eng, m) && WellStaged(eng, m, limit, q)
    ensures eng.Count(Inline(m, limit, q)) == eng.Count(q)
    ensures eng.SchemaOf(Inline(m, limit, q)) == eng.SchemaOf(q)
    decreases limit, q
  {
    match q
    case Operator(op, cs) =>
      var ds := Inline(m, limit, q).children;
      forall i | 0 <= i < |cs|
        ensures eng.Count(cs[i]) == eng.Count(ds[i]) && eng.SchemaOf(cs[i]) == eng.SchemaOf(ds[i])
      {
        InlineKeepsShape(eng, m, limit, cs[i]);
      }
      SameShape(eng, op, cs, ds);
    case UnresolvedShuffle(ids, _, _) =>
      InlineKeepsShape(eng, m, ids[0], m[ids[0]]);
  }

  /** An inlined stage needs no store, so it runs. */
  lemma {:induction false} InlinedRuns(eng: Engine, m: StageMap, limit: nat, q: Plan, s: Stores)
    requires Dag(eng, m) && WellStaged(eng, m, limit, q)
    ensures eng.Execute(s, Inline(m, limit, q)).Some?
    decreases limit, q
  {
    match q
    case Operator(op, cs) =>
      forall i | 0 <= i < |cs| ensures eng.Execute(s, Inline(m, limit, cs[i])).Some? {
        InlinedRuns(eng, m, limit, cs[i], s);
      }
    case UnresolvedShuffle(ids, _, _) =>
      InlinedRuns(eng, m, ids[0], m[ids[0]], s);
  }

  lemma StageTableCount(eng: Engine, m: StageMap, id: nat)
    requires Dag(eng, m) && id in m
    ensures StageTable(eng, m, id).Some?
    ensures |StageTable(eng, m, id).value| == eng.Count(m[id])
  {
    InlinedRuns(eng, m, id, m[id], map[]);
    InlineKeepsShape(eng, m, id, m[id]);
    ExecuteCount(eng, map[], Inline(m, id, m[id]));
  }

  /** Partition `i` of the stage sits in the work directory location `i` points to. */
  ghost predicate Materialized(eng: Engine, m: StageMap, stores: Stores, jobId: string, id: nat,
                               locations: seq<PartitionLocation>)
    requires id in m
  {
    && StageTable(eng, m, id).Some?
    && |locations| == |StageTable(eng, m, id).value|
    && forall i | 0 <= i < |locations| ::
         && locations[i].partitionId == PartitionId(jobId, id, i)
         && ReadPartition(stores, locations, i) == Some(StageTable(eng, m, id).value[i])
  }

  /** A reader over the locations of a stage serves the rows of the stage. */
  lemma ReaderMeans(eng: Engine, m: StageMap, stores: Stores, jobId: string, id: nat, locations: seq<PartitionLocation>,
                    schema: Schema)
    requires id in m && Materialized(eng, m, stores, jobId, id, locations)
    ensures eng.Execute(stores, ShuffleReader(locations, schema)) == StageTable(eng, m, id)
  {
    var t := StageTable(eng, m, id).value;
    assert forall i | 0 <= i < |locations| :: ReadPartition(stores, locations, i).Some?;
    assert seq(|locations|, i requires 0 <= i < |locations| => ReadPartition(stores, locations, i).value) == t;
  }

  /** What a reader serves does not depend on which partitions its locations name, only on where they point and in which
      order. */
  lemma ReaderGoesByIndex(eng: Engine, stores: Stores, locations: seq<PartitionLocation>,
                          locations': seq<PartitionLocation>, schema: Schema)
    requires |locations| == |locations'|
    requires forall i | 0 <= i < |locations| ::
      var l, l' := locations[i], locations'[i];
      && AddressOf(l.executorMeta) == AddressOf(l'.executorMeta)
      && l.partitionId.jobId == l'.partitionId.jobId && l.partitionId.stageId == l'.partitionId.stageId
    ensures eng.Execute(stores, ShuffleReader(locations, schema))
         == eng.Execute(stores, ShuffleReader(locations', schema))
  {
    forall i | 0 <= i < |locations|
      ensures ReadPartition(stores, locations, i) == ReadPartition(stores, locations', i)
    {
    }
    if forall i | 0 <= i < |locations| :: ReadPartition(stores, locations, i).Some? {
      assert seq(|locations|, i requires 0 <= i < |locations| => ReadPartition(stores, locations, i).value)
          == seq(|locations|, i requires 0 <= i < |locations| => ReadPartition(stores, locations', i).value);
    }
  }

  /** The outputs of all the stages the shuffle `u` reads are in place. */
  ghost predicate Supplied(eng: Engine, m: StageMap, stores: Stores, jobId: string, locs: Locations, u: Plan)
    requires u.UnresolvedShuffle?
  {
    forall k | 0 <= k < |u.stageIds| ::
      var id := u.stageIds[k];
      id in m && id in locs && Materialized(eng, m, stores, jobId, id, locs[id])
  }

  ghost predicate AllSupplied(eng: Engine, m: StageMap, stores: Stores, jobId: string, locs: Locations, q: Plan) {
    forall u <- FindUnresolvedShuffles(q) :: Supplied(eng, m, stores, jobId, locs, u)
  }

  lemma SuppliedBelow(eng: Engine, m: StageMap, stores: Stores, jobId: string, locs: Locations, op: Op, cs: seq<Plan>,
                      i: nat)
    requires AllSupplied(eng, m, stores, jobId, locs, Operator(op, cs)) && i < |cs|
    ensures AllSupplied(eng, m, stores, jobId, locs, cs[i])
  {
    forall u | u in FindUnresolvedShuffles(cs[i]) ensures Supplied(eng, m, stores, jobId, locs, u) {
      FoundInChild(cs, u);
    }
  }

  /** Resolving a stage whose inputs are in place succeeds, and running it gives the rows of the inlined stage. */
  lemma {:induction false} ResolvedMeans(eng: Engine, m: StageMap, limit: nat, q: Plan, stores: Stores, jobId: string,
                                         locs: Locations)
    requires Dag(eng, m) && WellStaged(eng, m, limit, q) && q.Operator?
    requires AllSupplied(eng, m, stores, jobId, locs, q)
    ensures
      var r := Resolve(locs, q);
      && r.Some? && eng.Count(r.value) == eng.Count(q) && eng.SchemaOf(r.value) == eng.SchemaOf(q)
      && eng.Execute(stores, r.value).Some?
      && eng.Execute(stores, r.value) == eng.Execute(map[], Inline(m, limit, q))
    decreases q, 0
  {
    var cs := q.children;
    var ds := seq(|cs|, i requires 0 <= i < |cs| => Inline(m, limit, cs[i]));
    forall i | 0 <= i < |cs|
      ensures
        var r := ResolveChild(locs, cs[i]);
        && r.Some? && eng.Count(r.value) == eng.Count(cs[i]) && eng.SchemaOf(r.value) == eng.SchemaOf(cs[i])
        && eng.Execute(stores, r.value).Some?
        && eng.Execute(stores, r.value) == eng.Execute(map[], ds[i])
    {
      SuppliedBelow(eng, m, stores, jobId, locs, q.op, cs, i);
      ResolvedChildMeans(eng, m, limit, cs[i], stores, jobId, locs);
    }
    var es := Resolve(locs, q).value.children;
    SameShape(eng, q.op, es, cs);
    InlineKeepsShape(eng, m, limit, q);
    SameRows(eng, q.op, stores, es, map[], ds);
  }

  lemma {:induction false} ResolvedChildMeans(eng: Engine, m: StageMap, limit: nat, c: Plan, stores: Stores,
                                              jobId: string, locs: Locations)
    requires Dag(eng, m) && WellStaged(eng, m, limit, c)
    requires AllSupplied(eng, m, stores, jobId, locs, c)
    ensures
      var r := ResolveChild(locs, c);
      && r.Some? && eng.Count(r.value) == eng.Count(c) && eng.SchemaOf(r.value) == eng.SchemaOf(c)
      && eng.Execute(stores, r.value).Some?
      && eng.Execute(stores, r.value) == eng.Execute(map[], Inline(m, limit, c))
    decreases c, 1
  {
    if c.UnresolvedShuffle? {
      assert c in FindUnresolvedShuffles(c);
      var id := c.stageIds[0];
      assert c.stageIds == [id];
      assert Locate(locs, [id]) == Some(locs[id]) by {
        assert Locate(locs, []) == Some([]);
        assert [] + locs[id] == locs[id];
      }
      StageTableCount(eng, m, id);
      ReaderMeans(eng, m, stores, jobId, id, locs[id], c.schema);
    } else {
      ResolvedMeans(eng, m, limit, c, stores, jobId, locs);
    }
  }

  // ---- Framing: what a plan reads ----

  /** Every partition the plan's readers fetch belongs to a stage of the job below `limit`. */
  ghost predicate ReadsBelow(q: Plan, jobId: string, limit: nat)
    decreases q
  {
    match q
    case Operator(_, cs) => forall i | 0 <= i < |cs| :: ReadsBelow(cs[i], jobId, limit)
    case UnresolvedShuffle(_, _, _) => true
    case ShuffleReader(locations, _) =>
      forall i | 0 <= i < |locations| ::
        locations[i].partitionId.jobId == jobId && locations[i].partitionId.stageId < limit
  }

  /** Nothing a plan reading below `limit` can see has changed. */
  ghost predicate SameBelow(s: Stores, t: Stores, jobId: string, limit: nat) {
    forall a, id: nat, i: nat | id < limit ::
      Fetch(s, a, PartitionId(jobId, id, i)) == Fetch(t, a, PartitionId(jobId, id, i))
  }

  lemma {:induction false} ExecuteFrame(eng: Engine, s: Stores, t: Stores, q: Plan, jobId: string, limit: nat)
    requires ReadsBelow(q, jobId, limit) && SameBelow(s, t, jobId, limit)
    ensures eng.Execute(s, q) == eng.Execute(t, q)
    decreases q
  {
    match q
    case Operator(op, cs) =>
      forall i | 0 <= i < |cs| ensures eng.Execute(s, cs[i]) == eng.Execute(t, cs[i]) {
        ExecuteFrame(eng, s, t, cs[i], jobId, limit);
      }
      if forall i | 0 <= i < |cs| :: eng.Execute(s, cs[i]).Some? {
        SameRows(eng, op, s, cs, t, cs);
      }
    case UnresolvedShuffle(_, _, _) =>
    case ShuffleReader(locations, _) =>
      forall i | 0 <= i < |locations| ensures ReadPartition(s, locations, i) == ReadPartition(t, locations, i) {
      }
      if forall i | 0 <= i < |locations| :: ReadPartition(s, locations, i).Some? {
        assert seq(|locations|, i requires 0 <= i < |locations| => ReadPartition(s, locations, i).value)
            == seq(|locations|, i requires 0 <= i < |locations| => ReadPartition(t, locations, i).value);
      }
  }

  /** A resolved stage only reads the stages its shuffles named. */
  lemma {:induction false} ResolvedReadsBelow(eng: Engine, m: StageMap, limit: nat, q: Plan, stores: Stores,
                                              jobId: string, locs: Locations)
    requires WellStaged(eng, m, limit, q) && AllSupplied(eng, m, stores, jobId, locs, q)
    requires ResolveChild(locs, q).Some?
    ensures ReadsBelow(ResolveChild(locs, q).value, jobId, limit)
    decreases q
  {
    match q
    case Operator(op, cs) =>
      forall i | 0 <= i < |cs| ensures ReadsBelow(ResolveChild(locs, cs[i]).value, jobId, limit) {
        SuppliedBelow(eng, m, stores, jobId, locs, op, cs, i);
        ResolvedReadsBelow(eng, m, limit, cs[i], stores, jobId, locs);
      }
    case UnresolvedShuffle(ids, _, _) =>
      assert q in FindUnresolvedShuffles(q);
      assert ids == [ids[0]];
      assert Locate(locs, []) == Some([]);
      assert Locate(locs, ids) == Some([] + locs[ids[0]]);
      assert [] + locs[ids[0]] == locs[ids[0]];
    case ShuffleReader(_, _) =>
  }

  /** Each shuffle of a well-staged plan names one earlier stage, with that stage's schema and count. */
  lemma {:induction false} WellStagedShuffle(eng: Engine, m: StageMap, limit: nat, q: Plan, u: Plan)
    requires WellStaged(eng, m, limit, q) && u in FindUnresolvedShuffles(q)
    ensures WellStaged(eng, m, limit, u)
    decreases q
  {
    if q.Operator? {
      FoundInChild(q.children, u);
      var i :| 0 <= i < |q.children| && u in FindUnresolvedShuffles(q.children[i]);
      WellStagedShuffle(eng, m, limit, q.children[i], u);
    }
  }

  lemma MaterializedFrame(eng: Engine, m: StageMap, s: Stores, t: Stores, jobId: string, id: nat,
                          locations: seq<PartitionLocation>)
    requires id in m && Materialized(eng, m, s, jobId, id, locations)
    requires SameBelow(s, t, jobId, id + 1)
    ensures Materialized(eng, m, t, jobId, id, locations)
  {
    forall i | 0 <= i < |locations| ensures ReadPartition(t, locations, i) == ReadPartition(s, locations, i) {
      assert locations[i].partitionId == PartitionId(jobId, id, i);
    }
  }
}
