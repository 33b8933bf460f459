/** Physical plans, what they compute, and where shuffle partitions live.

    An operator is opaque: all that is known of it is the `Engine`, which gives the schema,
    the partition count and the rows of an operator as functions of its inputs.
  */
module Plans {

  datatype Option<+T> = None | Some(value: T)
  {
    predicate IsFailure() {
      None?
    }

    function PropagateFailure<U>(): Option<U>
      requires IsFailure()
    {
      None
    }

    function Extract(): T
      requires !IsFailure()
    {
      value
    }
  }

  /** How a call ends: a value, an error handed back, or a panic. */
  datatype Outcome<+T> = Ok(value: T) | Err | Panic
  {
    predicate IsFailure() {
      !Ok?
    }

    function PropagateFailure<U>(): Outcome<U>
      requires IsFailure()
    {
      if Err? then Err else Panic
    }

    function Extract(): T
      requires !IsFailure()
    {
      value
    }
  }

  /** DataFusion's rows, schemas and operator parameters (expressions, file names, ...). */
  type Row(!new)
  type Schema(!new)
  type Spec(!new)

  type Rows = seq<Row>

  /** The output of a plan: one sequence of rows for each partition. */
  type Table = seq<Rows>

  datatype ExecutorMeta = ExecutorMeta(id: string, host: string, port: nat)

  datatype PartitionId = PartitionId(jobId: string, stageId: nat, partitionId: nat)

  datatype PartitionLocation = PartitionLocation(partitionId: PartitionId, executorMeta: ExecutorMeta)

  datatype AggregateMode = Partial | Final

  /** The operators the distributed planner tells apart. */
  datatype Op =
    | Merge
    | HashAggregate(mode: AggregateMode, spec: Spec)
    | HashJoin(spec: Spec)
    | Other(spec: Spec)

  datatype Plan =
    | Operator(op: Op, children: seq<Plan>)
    | UnresolvedShuffle(stageIds: seq<nat>, schema: Schema, partitionCount: nat)
    | ShuffleReader(locations: seq<PartitionLocation>, schema: Schema)

  /** `QueryStageExec`: the root of a stage. It is transparent: schema, partitioning and rows are its child's. */
  datatype QueryStage = QueryStage(jobId: string, stageId: nat, child: Plan)

  /** Partitions are fetched from an executor by network address, not by executor id. */
  datatype Address = Address(host: string, port: nat)

  /** The work directories of all executors. */
  type Stores = map<Address, map<PartitionId, Rows>>

  function AddressOf(meta: ExecutorMeta): Address {
    Address(meta.host, meta.port)
  }

  function Fetch(stores: Stores, a: Address, pid: PartitionId): Option<Rows> {
    if a in stores && pid in stores[a] then Some(stores[a][pid]) else None
  }

  /** An executor writes the rows of one partition into its work directory. */
  function Store(stores: Stores, a: Address, pid: PartitionId, rows: Rows): (r: Stores)
    ensures forall b, q :: Fetch(r, b, q) == if b == a && q == pid then Some(rows) else Fetch(stores, b, q)
  {
    stores[a := (if a in stores then stores[a] else map[])[pid := rows]]
  }

  /** The rows a shuffle reader serves as partition `i`: it asks for partition `i` of the
      location's stage, whatever partition the location itself names. */
  function ReadPartition(stores: Stores, locations: seq<PartitionLocation>, i: nat): Option<Rows>
    requires i < |locations|
  {
    var id := locations[i].partitionId;
    Fetch(stores, AddressOf(locations[i].executorMeta), PartitionId(id.jobId, id.stageId, i))
  }

  /** The operators themselves: schema, partition count and the rows of one partition. */
  datatype Engine = Engine(
    schemaOf: (Op, seq<Schema>) -> Schema,
    countOf: (Op, seq<nat>) -> nat,
    run: (Op, seq<Table>, int) -> Rows)
  {
    function SchemaOf(p: Plan): Schema
      decreases p
    {
      match p
      case Operator(op, cs) => schemaOf(op, seq(|cs|, i requires 0 <= i < |cs| => SchemaOf(cs[i])))
      case UnresolvedShuffle(_, schema, _) => schema
      case ShuffleReader(_, schema) => schema
    }

    function Count(p: Plan): nat
      decreases p
    {
      match p
      case Operator(op, cs) => countOf(op, seq(|cs|, i requires 0 <= i < |cs| => Count(cs[i])))
      case UnresolvedShuffle(_, _, n) => n
      case ShuffleReader(locations, _) => |locations|
    }

    /** Runs a plan against the executors' work directories; `None` when an operator below it
        cannot run (an unresolved shuffle, or a partition that is not there). */
    function Execute(stores: Stores, p: Plan): Option<Table>
      decreases p
    {
      match p
      case Operator(op, cs) =>
        if forall i | 0 <= i < |cs| :: Execute(stores, cs[i]).Some? then
          var inputs := seq(|cs|, i requires 0 <= i < |cs| => Execute(stores, cs[i]).value);
          Some(seq(Count(p), i => run(op, inputs, i)))
        else None
      case UnresolvedShuffle(_, _, _) => None
      case ShuffleReader(locations, _) =>
        if forall i | 0 <= i < |locations| :: ReadPartition(stores, locations, i).Some? then
          Some(seq(|locations|, i requires 0 <= i < |locations| => ReadPartition(stores, locations, i).value))
        else None
    }
  }

  /** What DataFusion's planner hands over: no Ballista node anywhere, and `MergeExec` has its one input. */
  predicate InputPlan(p: Plan)
    decreases p
  {
    && p.Operator?
    && (p.op.Merge? ==> |p.children| == 1)
    && forall i | 0 <= i < |p.children| :: InputPlan(p.children[i])
  }

  /** Two operators agree on schema and partition count as soon as their inputs do. */
  lemma SameShape(eng: Engine, op: Op, cs: seq<Plan>, ds: seq<Plan>)
    requires |cs| == |ds|
    requires forall i | 0 <= i < |cs| :: eng.Count(cs[i]) == eng.Count(ds[i])
    requires forall i | 0 <= i < |cs| :: eng.SchemaOf(cs[i]) == eng.SchemaOf(ds[i])
    ensures eng.Count(Operator(op, cs)) == eng.Count(Operator(op, ds))
    ensures eng.SchemaOf(Operator(op, cs)) == eng.SchemaOf(Operator(op, ds))
  {
    assert seq(|cs|, i requires 0 <= i < |cs| => eng.Count(cs[i]))
        == seq(|ds|, i requires 0 <= i < |ds| => eng.Count(ds[i]));
    assert seq(|cs|, i requires 0 <= i < |cs| => eng.SchemaOf(cs[i]))
        == seq(|ds|, i requires 0 <= i < |ds| => eng.SchemaOf(ds[i]));
  }

  /** ... and on the rows, when the inputs give the same rows. */
  lemma SameRows(eng: Engine, op: Op, s: Stores, cs: seq<Plan>, t: Stores, ds: seq<Plan>)
    requires |cs| == |ds| && eng.Count(Operator(op, cs)) == eng.Count(Operator(op, ds))
    requires forall i | 0 <= i < |cs| :: eng.Execute(s, cs[i]).Some? && eng.Execute(s, cs[i]) == eng.Execute(t, ds[i])
    ensures eng.Execute(s, Operator(op, cs)).Some?
    ensures eng.Execute(s, Operator(op, cs)) == eng.Execute(t, Operator(op, ds))
  {
    var xs := seq(|cs|, i requires 0 <= i < |cs| => eng.Execute(s, cs[i]).value);
    var ys := seq(|ds|, i requires 0 <= i < |ds| => eng.Execute(t, ds[i]).value);
    assert xs == ys;
    var n := eng.Count(Operator(op, cs));
    assert eng.Execute(s, Operator(op, cs)) == Some(seq(n, i => eng.run(op, xs, i)));
    assert eng.Execute(t, Operator(op, ds)) == Some(seq(n, i => eng.run(op, ys, i)));
  }

  /** A table has as many partitions as the plan announces. */
  lemma ExecuteCount(eng: Engine, s: Stores, p: Plan)
    requires eng.Execute(s, p).Some?
    ensures |eng.Execute(s, p).value| == eng.Count(p)
  {
  }

  /** A plan as DataFusion hands it over reads no store: it runs, and gives the same rows, anywhere. */
  lemma {:induction false} InputRuns(eng: Engine, s: Stores, t: Stores, p: Plan)
    requires InputPlan(p)
    ensures eng.Execute(s, p).Some? && eng.Execute(s, p) == eng.Execute(t, p)
    decreases p
  {
    var cs := p.children;
    forall i | 0 <= i < |cs| ensures eng.Execute(s, cs[i]).Some? && eng.Execute(s, cs[i]) == eng.Execute(t, cs[i]) {
      InputRuns(eng, s, t, cs[i]);
    }
    SameRows(eng, p.op, s, cs, t, cs);
  }
}
