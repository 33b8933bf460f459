/** Running the stages of a query on the executors (`execute`, `execute_query_stage`). */
module DistributedExecution {
  import opened Plans
  import opened StagePlanner
  import opened Planner
  import opened ShuffleResolution
  import opened StageMeaning

  // ---- Distributing the partitions of a stage ----

  /** The partitions go out in chunks of this many. */
  function ChunkSize(count: nat, executors: nat): (size: nat)
    requires executors > 0
    ensures size > 0
  {
    if count / executors > 1 then count / executors else 1
  }

  /** `slice::chunks`: consecutive runs of `size`, the last one possibly shorter. */
  function Chunks(s: seq<nat>, size: nat): (chunks: seq<seq<nat>>)
    requires size > 0
    ensures forall c <- chunks :: 0 < |c| <= size
  {
    if s == [] then []
    else if |s| <= size then [s]
    else [s[..size]] + Chunks(s[size..], size)
  }

  function Concat(chunks: seq<seq<nat>>): seq<nat> {
    if chunks == [] then [] else chunks[0] + Concat(chunks[1..])
  }

  function Range(count: nat): seq<nat> {
    seq(count, i => i)
  }

  lemma ChunksUnfold(s: seq<nat>, size: nat)
    requires size > 0 && s != []
    ensures Chunks(s, size) == if |s| <= size then [s] else [s[..size]] + Chunks(s[size..], size)
  {
  }

  lemma ConcatUnfold(c: seq<nat>, chunks: seq<seq<nat>>)
    ensures Concat([c] + chunks) == c + Concat(chunks)
  {
    assert ([c] + chunks)[1..] == chunks;
  }

  lemma NothingToConcat()
    ensures Concat([]) == []
  {
  }

  /** The chunks cover the partitions exactly once, in order. */
  lemma {:induction false} ChunksCover(s: seq<nat>, size: nat)
    requires size > 0
    ensures Concat(Chunks(s, size)) == s
  {
    if s == [] {
      assert Chunks(s, size) == [];
    } else {
      MoreChunksCover(s, size);
    }
  }

  lemma {:induction false} MoreChunksCover(s: seq<nat>, size: nat)
    requires size > 0 && s != []
    ensures Concat(Chunks(s, size)) == s
  {
    hide Chunks, Concat;
    ChunksUnfold(s, size);
    if |s| > size {
      MoreChunksCover(s[size..], size);
      ConcatUnfold(s[..size], Chunks(s[size..], size));
      assert s[..size] + s[size..] == s;
    } else {
      ConcatUnfold(s, []);
      NothingToConcat();
      assert [s] + [] == [s] && s + [] == s;
    }
  }

  /** Chunk `c` holds the elements from `c * size` on. */
  lemma {:induction false} ChunkAt(s: seq<nat>, size: nat, c: nat, start: nat)
    requires size > 0 && s != [] && c < |Chunks(s, size)| && start == c * size
    ensures start < |s|
    ensures Chunks(s, size)[c] == s[start..if start + size < |s| then start + size else |s|]
  {
    hide Chunks;
    ChunksUnfold(s, size);
    if c > 0 {
      var rest := s[size..];
      MulStep(c - 1, size);
      ChunkAt(rest, size, c - 1, start - size);
      SliceOfRest(s, size, start, if start + size < |s| then start + size else |s|);
    }
  }

  lemma SliceOfRest(s: seq<nat>, size: nat, from: nat, to: nat)
    requires size <= from <= to <= |s|
    ensures s[size..][from - size..to - size] == s[from..to]
  {
  }

  lemma MulStep(c: nat, size: nat)
    ensures (c + 1) * size == c * size + size
  {
  }

  lemma {:induction false} ChunkCount(s: seq<nat>, size: nat)
    requires size > 0
    ensures |s| <= |Chunks(s, size)| * size
    ensures s != [] ==> (|Chunks(s, size)| - 1) * size < |s|
  {
    if |s| > size {
      ChunkCount(s[size..], size);
      var n := |Chunks(s[size..], size)|;
      assert (n + 1) * size == n * size + size;
      assert (n - 1) * size + size == n * size;
    }
  }

  /** There are as many chunks as executors at least, and fewer than twice as many, unless there are not enough
      partitions: then each is a chunk. */
  lemma FewChunks(count: nat, executors: nat)
    requires executors > 0
    ensures
      var chunks := |Chunks(Range(count), ChunkSize(count, executors))|;
      if count < executors then chunks == count else executors <= chunks < 2 * executors
  {
    var size := ChunkSize(count, executors);
    var chunks := Chunks(Range(count), size);
    ChunkCount(Range(count), size);
    if count > 0 {
      FewSteps(count, executors, size, |chunks|);
      EnoughSteps(count, executors, size, |chunks|);
    }
  }

  lemma EnoughSteps(count: nat, executors: nat, size: nat, n: nat)
    requires executors > 0 && size == ChunkSize(count, executors)
    requires count <= n * size && (n - 1) * size < count
    ensures if count < executors then n == count else executors <= n
  {
    SizeIs(count, executors);
    if executors <= count && n < executors {
      hide ChunkSize;
      MulMonotone(n, executors - 1, size);
      MulStep(executors - 1, size);
      assert false;
    }
  }

  lemma SizeIs(count: nat, executors: nat)
    requires executors > 0
    ensures
      var size := ChunkSize(count, executors);
      if count < executors then size == 1 else size == count / executors && executors * size <= count
  {
    assert count == executors * (count / executors) + count % executors;
    if executors <= count && count / executors == 0 {
      assert false;
    }
  }

  lemma FewSteps(count: nat, executors: nat, size: nat, n: nat)
    requires executors > 0 && size == ChunkSize(count, executors)
    requires (n - 1) * size < count
    ensures n < 2 * executors
  {
    var q := count / executors;
    assert count == executors * q + count % executors;
    if q > 1 && n >= 2 * executors {
      MulMonotone(2 * executors - 1, n - 1, q);
      MulMonotone(1, q, executors - 1);
      assert false;
    }
  }

  lemma MulMonotone(a: int, b: int, c: nat)
    requires a <= b
    ensures a * c <= b * c && c * a <= c * b
  {
  }

  /** Chunk `c` goes to executor `c % executors`: nobody gets more than two, and nobody gets none if there are enough
      partitions. */
  lemma AtMostTwoChunks(count: nat, executors: nat, e: nat)
    requires e < executors
    ensures
      var chunks := Chunks(Range(count), ChunkSize(count, executors));
      (if count < executors then 0 else 1) <= |set c | 0 <= c < |chunks| && c % executors == e| <= 2
  {
    FewChunks(count, executors);
    AtMostTwo(|Chunks(Range(count), ChunkSize(count, executors))|, executors, e);
  }

  lemma AtMostTwo(n: nat, executors: nat, e: nat)
    requires e < executors && n < 2 * executors
    ensures (if n < executors then 0 else 1) <= |set c | 0 <= c < n && c % executors == e| <= 2
  {
    var mine := set c | 0 <= c < n && c % executors == e;
    forall c | c in mine ensures c in {e, e + executors} {
      RemainderBelowTwice(c, executors);
    }
    SubsetSize(mine, {e, e + executors});
    if executors <= n {
      SmallRemainder(e, executors);
      SubsetSize({e}, mine);
    }
  }

  lemma SmallRemainder(c: nat, n: nat)
    requires c < n
    ensures c % n == c
  {
  }

  lemma RemainderBelowTwice(c: nat, n: nat)
    requires c < 2 * n
    ensures c == c % n || c == c % n + n
  {
    var q := c / n;
    assert c == n * q + c % n;
    if q >= 2 {
      MulMonotone(2, q, n);
      assert false;
    }
    assert q == 0 || q == 1;
  }

  lemma SubsetSize(a: set<int>, b: set<int>)
    requires a <= b
    ensures |a| <= |b|
  {
    assert b == a + (b - a);
  }

  /** The executor that partition `p` of a stage is sent to. */
  function ExecutorFor(executors: seq<ExecutorMeta>, count: nat, p: nat): ExecutorMeta
    requires executors != []
  {
    executors[(p / ChunkSize(count, |executors|)) % |executors|]
  }

  function LocationFor(jobId: string, stageId: nat, executors: seq<ExecutorMeta>, count: nat, p: nat): PartitionLocation
    requires executors != []
  {
    PartitionLocation(PartitionId(jobId, stageId, p), ExecutorFor(executors, count, p))
  }

  /** How many partitions come before chunk `c`. */
  function ChunkStart(count: nat, size: nat, c: nat): nat {
    if c * size < count then c * size else count
  }

  lemma QuotientIs(p: nat, size: nat, c: nat)
    requires size > 0 && c * size <= p < c * size + size
    ensures p / size == c
  {
    var q := p / size;
    assert p == size * q + p % size;
    if q < c {
      MulMonotone(q + 1, c, size);
      assert false;
    } else if q > c {
      MulMonotone(c + 1, q, size);
      assert false;
    }
  }

  /** What the two loops of `execute_query_stage` rely on: the chunks are consecutive runs of
      partitions, `starts[c]` of them before chunk `c`, and `p / size` is the chunk of partition `p`. */
  ghost predicate ChunkLayout(chunks: seq<seq<nat>>, size: nat, starts: seq<nat>, count: nat)
    requires size > 0
  {
    && |starts| == |chunks| + 1 && starts[0] == 0 && starts[|chunks|] == count
    && (forall c {:trigger chunks[c]} | 0 <= c < |chunks| :: starts[c] + |chunks[c]| == starts[c + 1] <= count)
    && (forall c, k | 0 <= c < |chunks| && 0 <= k < |chunks[c]| ::
          chunks[c][k] == starts[c] + k && chunks[c][k] / size == c)
  }

  lemma ChunkOfRange(count: nat, size: nat, c: nat)
    requires size > 0 && c < |Chunks(Range(count), size)|
    ensures
      var chunk := Chunks(Range(count), size)[c];
      var start := ChunkStart(count, size, c);
      && start + |chunk| == ChunkStart(count, size, c + 1)
      && forall k | 0 <= k < |chunk| :: chunk[k] == start + k && chunk[k] / size == c
  {
    var chunk := Chunks(Range(count), size)[c];
    assert Range(count) != [];
    ChunkAt(Range(count), size, c, c * size);
    MulStep(c, size);
    forall k | 0 <= k < |chunk| ensures chunk[k] == c * size + k && chunk[k] / size == c {
      QuotientIs(c * size + k, size, c);
    }
  }

  lemma ChunksLayout(count: nat, size: nat) returns (starts: seq<nat>)
    requires size > 0
    ensures ChunkLayout(Chunks(Range(count), size), size, starts, count)
  {
    hide Chunks;
    var chunks := Chunks(Range(count), size);
    starts := seq(|chunks| + 1, c requires c >= 0 => ChunkStart(count, size, c));
    ChunkCount(Range(count), size);
    forall c {:trigger chunks[c]} | 0 <= c < |chunks|
      ensures starts[c] + |chunks[c]| == starts[c + 1] <= count
      ensures forall k | 0 <= k < |chunks[c]| :: chunks[c][k] == starts[c] + k && chunks[c][k] / size == c
    {
      ChunkOfRange(count, size, c);
    }
  }

  // ---- Fair shares ----

  predicate Distinct(executors: seq<ExecutorMeta>) {
    forall i, j | 0 <= i < j < |executors| :: executors[i] != executors[j]
  }

  /** The partitions an executor is given. */
  function Share(owners: seq<ExecutorMeta>, e: ExecutorMeta): set<nat> {
    set p: nat | p < |owners| && owners[p] == e
  }

  /** An executor is given its quota of the partitions at least and twice its quota at most, the quota being the number
      of partitions divided by that of executors. With fewer partitions than executors it is given one at most. */
  ghost predicate FairTo(executors: seq<ExecutorMeta>, owners: seq<ExecutorMeta>, e: nat)
    requires e < |executors|
  {
    var mine := |Share(owners, executors[e])|;
    if |owners| < |executors| then mine <= 1
    else |owners| / |executors| <= mine <= 2 * (|owners| / |executors|)
  }

  /** The first partition goes to the first executor, and every executor is treated fairly. */
  ghost predicate Fair(executors: seq<ExecutorMeta>, owners: seq<ExecutorMeta>)
    requires executors != []
  {
    && (owners != [] ==> owners[0] == executors[0])
    && forall e | 0 <= e < |executors| :: FairTo(executors, owners, e)
  }

  /** Partition `p` is sent to executor `p / size`, round robin. */
  ghost predicate RoundRobin(executors: seq<ExecutorMeta>, owners: seq<ExecutorMeta>)
    requires executors != []
  {
    forall p | 0 <= p < |owners| :: owners[p] == ExecutorFor(executors, |owners|, p)
  }

  /** The `n` numbers from `start` on. */
  function From(start: nat, n: nat): (r: set<nat>)
    ensures |r| == n && forall p: nat :: p in r <==> start <= p < start + n
  {
    if n == 0 then {} else From(start, n - 1) + {start + n - 1}
  }

  /** The partitions of chunk `c`. */
  function ChunkSet(c: nat, size: nat): (r: set<nat>)
    ensures |r| == size
  {
    MulMonotone(0, c, size);
    From(c * size, size)
  }

  lemma NatUnion(a: set<nat>, b: set<nat>)
    ensures |a + b| <= |a| + |b|
  {
    assert a + b == a + (b - a);
    SubsetSize(b - a, b);
  }

  /** The executor of a partition is that of its chunk. */
  lemma ShareIsChunks(executors: seq<ExecutorMeta>, owners: seq<ExecutorMeta>, e: nat, p: nat)
    requires executors != [] && Distinct(executors) && RoundRobin(executors, owners) && e < |executors|
    requires p < |owners|
    ensures p in Share(owners, executors[e]) <==> (p / ChunkSize(|owners|, |executors|)) % |executors| == e
  {
    var i := (p / ChunkSize(|owners|, |executors|)) % |executors|;
    assert owners[p] == executors[i];
  }

  lemma InChunk(p: nat, size: nat, c: nat)
    requires size > 0
    ensures p in ChunkSet(c, size) <==> p / size == c
  {
    if p / size == c {
      assert p == size * c + p % size;
    } else if c * size <= p < c * size + size {
      QuotientIs(p, size, c);
    }
  }

  /** An executor is given the chunks number `e` and `e + n`, and no other. */
  lemma TwoChunks(executors: seq<ExecutorMeta>, owners: seq<ExecutorMeta>, e: nat)
    requires executors != [] && Distinct(executors) && RoundRobin(executors, owners) && e < |executors|
    ensures
      var n, size := |executors|, ChunkSize(|owners|, |executors|);
      Share(owners, executors[e]) <= ChunkSet(e, size) + ChunkSet(e + n, size)
  {
    hide RoundRobin, Distinct, Share, ChunkSet, ChunkSize;
    var n, size := |executors|, ChunkSize(|owners|, |executors|);
    forall p | p in Share(owners, executors[e]) ensures p in ChunkSet(e, size) + ChunkSet(e + n, size) {
      InShare(owners, executors[e], p);
      ShareIsChunks(executors, owners, e, p);
      ChunkNumber(|owners|, n, p);
      RemainderBelowTwice(p / size, n);
      InChunk(p, size, e);
      InChunk(p, size, e + n);
    }
  }

  lemma ShareAtMost(executors: seq<ExecutorMeta>, owners: seq<ExecutorMeta>, e: nat)
    requires executors != [] && Distinct(executors) && RoundRobin(executors, owners) && e < |executors|
    ensures |Share(owners, executors[e])| <= 2 * ChunkSize(|owners|, |executors|)
  {
    hide RoundRobin, Distinct, ChunkSize, Share, ChunkSet;
    var n, size := |executors|, ChunkSize(|owners|, |executors|);
    TwoChunks(executors, owners, e);
    var a, b := ChunkSet(e, size), ChunkSet(e + n, size);
    NatUnion(a, b);
    SubsetSize(Share(owners, executors[e]), a + b);
  }

  lemma ShareAtLeast(executors: seq<ExecutorMeta>, owners: seq<ExecutorMeta>, e: nat)
    requires executors != [] && Distinct(executors) && RoundRobin(executors, owners) && e < |executors|
    requires |owners| >= |executors|
    ensures |Share(owners, executors[e])| >= ChunkSize(|owners|, |executors|)
  {
    hide RoundRobin, Distinct, ChunkSize, Share, ChunkSet;
    var first := ChunkSet(e, ChunkSize(|owners|, |executors|));
    forall p | p in first ensures p in Share(owners, executors[e]) {
      FirstChunkIsShared(executors, owners, e, p);
    }
    SubsetSize(first, Share(owners, executors[e]));
  }

  lemma FirstChunkIsShared(executors: seq<ExecutorMeta>, owners: seq<ExecutorMeta>, e: nat, p: nat)
    requires executors != [] && Distinct(executors) && RoundRobin(executors, owners) && e < |executors|
    requires |owners| >= |executors| && p in ChunkSet(e, ChunkSize(|owners|, |executors|))
    ensures p in Share(owners, executors[e])
  {
    hide RoundRobin, Distinct, ChunkSize, Share, ChunkSet;
    InChunk(p, ChunkSize(|owners|, |executors|), e);
    BelowCount(|owners|, |executors|, e, p);
    ShareIsChunks(executors, owners, e, p);
    SmallRemainder(e, |executors|);
  }

  lemma InShare(owners: seq<ExecutorMeta>, e: ExecutorMeta, p: nat)
    ensures p in Share(owners, e) ==> p < |owners|
  {
  }

  /** The round-robin goes round at most twice. */
  lemma ChunkNumber(count: nat, n: nat, p: nat)
    requires n > 0 && p < count
    ensures p / ChunkSize(count, n) < 2 * n
  {
    var size := ChunkSize(count, n);
    assert p == size * (p / size) + p % size;
    FewSteps(count, n, size, p / size + 1);
  }

  /** The chunks of the first round are whole. */
  lemma BelowCount(count: nat, n: nat, e: nat, p: nat)
    requires 0 < n <= count && e < n && p / ChunkSize(count, n) == e
    ensures p < count
  {
    QuotaFits(count, n, e);
    var q := count / n;
    assert p == q * e + p % q;
  }

  lemma QuotaFits(count: nat, n: nat, e: nat)
    requires 0 < n <= count && e < n
    ensures ChunkSize(count, n) == count / n && e * (count / n) + count / n <= count
  {
    hide ChunkSize;
    var q := count / n;
    SizeIs(count, n);
    MulMonotone(e + 1, n, q);
    MulStep(e, q);
  }

  lemma ShareAtMostOne(executors: seq<ExecutorMeta>, owners: seq<ExecutorMeta>, e: nat)
    requires executors != [] && Distinct(executors) && RoundRobin(executors, owners) && e < |executors|
    requires |owners| < |executors|
    ensures |Share(owners, executors[e])| <= 1
  {
    hide RoundRobin, Distinct, ChunkSize, Share;
    SizeIs(|owners|, |executors|);
    forall p | p in Share(owners, executors[e]) ensures p == e {
      InShare(owners, executors[e], p);
      ShareIsChunks(executors, owners, e, p);
      SmallRemainder(p, |executors|);
    }
    SubsetSize(Share(owners, executors[e]), {e});
  }

  lemma ShareIsFair(executors: seq<ExecutorMeta>, owners: seq<ExecutorMeta>, e: nat)
    requires executors != [] && Distinct(executors) && RoundRobin(executors, owners) && e < |executors|
    ensures FairTo(executors, owners, e)
  {
    hide RoundRobin, Distinct, ChunkSize, Share, ChunkSet;
    if |owners| >= |executors| {
      SizeIs(|owners|, |executors|);
      ShareAtMost(executors, owners, e);
      ShareAtLeast(executors, owners, e);
    } else {
      ShareAtMostOne(executors, owners, e);
    }
  }

  lemma StartsFirst(executors: seq<ExecutorMeta>, count: nat)
    requires executors != []
    ensures ExecutorFor(executors, count, 0) == executors[0]
  {
  }

  /** Sending partitions out in chunks, round robin, is fair. */
  lemma RoundRobinIsFair(executors: seq<ExecutorMeta>, owners: seq<ExecutorMeta>)
    requires executors != [] && Distinct(executors) && RoundRobin(executors, owners)
    ensures Fair(executors, owners)
  {
    hide Distinct, FairTo, ChunkSize;
    forall e | 0 <= e < |executors| ensures FairTo(executors, owners, e) {
      ShareIsFair(executors, owners, e);
    }
    if owners != [] {
      assert owners[0] == ExecutorFor(executors, |owners|, 0);
      StartsFirst(executors, |owners|);
    }
  }

  function ExecutorsOf(locations: seq<PartitionLocation>): seq<ExecutorMeta> {
    seq(|locations|, p requires 0 <= p < |locations| => locations[p].executorMeta)
  }

  function TargetsOf(requests: seq<Request>): seq<ExecutorMeta> {
    seq(|requests|, p requires 0 <= p < |requests| => requests[p].executor)
  }

  /** The location list: chunk by chunk, executors round robin. */
  method BuildLocations(jobId: string, stageId: nat, count: nat, executors: seq<ExecutorMeta>,
                        chunks: seq<seq<nat>>, ghost starts: seq<nat>)
    returns (meta: seq<PartitionLocation>)
    requires executors != [] && ChunkLayout(chunks, ChunkSize(count, |executors|), starts, count)
    ensures |meta| == count
    ensures forall p | 0 <= p < count :: meta[p] == LocationFor(jobId, stageId, executors, count, p)
    ensures forall p | 0 <= p < count :: meta[p].partitionId == PartitionId(jobId, stageId, p)
    ensures Distinct(executors) ==> Fair(executors, ExecutorsOf(meta))
  {
    hide Fair;
    meta := [];
    for c := 0 to |chunks|
      invariant |meta| == starts[c]
      invariant forall p | 0 <= p < |meta| :: meta[p] == LocationFor(jobId, stageId, executors, count, p)
    {
      for k := 0 to |chunks[c]|
        invariant |meta| == starts[c] + k
        invariant forall p | 0 <= p < |meta| :: meta[p] == LocationFor(jobId, stageId, executors, count, p)
      {
        var part := chunks[c][k];
        meta := meta + [PartitionLocation(PartitionId(jobId, stageId, part), executors[c % |executors|])];
      }
    }
    if Distinct(executors) {
      RoundRobinIsFair(executors, ExecutorsOf(meta));
    }
  }

  /** An execution request: this partition, on that executor. */
  datatype Request = Request(executor: ExecutorMeta, partition: nat)

  /** The requests, built by a second pass over the chunks: each partition once, to the executor
      its location names. */
  method BuildRequests(count: nat, executors: seq<ExecutorMeta>, chunks: seq<seq<nat>>, ghost starts: seq<nat>)
    returns (requests: seq<Request>)
    requires executors != [] && ChunkLayout(chunks, ChunkSize(count, |executors|), starts, count)
    ensures |requests| == count
    ensures forall p | 0 <= p < count :: requests[p] == Request(ExecutorFor(executors, count, p), p)
    ensures Distinct(executors) ==> Fair(executors, TargetsOf(requests))
  {
    hide Fair;
    requests := [];
    for c := 0 to |chunks|
      invariant |requests| == starts[c]
      invariant forall p | 0 <= p < |requests| :: requests[p] == Request(ExecutorFor(executors, count, p), p)
    {
      var executor := executors[c % |executors|];
      for k := 0 to |chunks[c]|
        invariant |requests| == starts[c] + k
        invariant forall p | 0 <= p < |requests| :: requests[p] == Request(ExecutorFor(executors, count, p), p)
      {
        requests := requests + [Request(executor, chunks[c][k])];
      }
    }
    if Distinct(executors) {
      RoundRobinIsFair(executors, TargetsOf(requests));
    }
  }

  // ---- Executing the stages in order ----

  function LocationsFor(jobId: string, stageId: nat, executors: seq<ExecutorMeta>, count: nat): seq<PartitionLocation>
    requires executors != []
  {
    seq(count, p requires p >= 0 => LocationFor(jobId, stageId, executors, count, p))
  }

  /** One of the stage's partitions is among those that fail. */
  predicate SomeFails(failing: set<PartitionId>, jobId: string, stageId: nat, count: nat) {
    exists p | 0 <= p < count :: PartitionId(jobId, stageId, p) in failing
  }

  ghost predicate NothingFails(eng: Engine, failing: set<PartitionId>, jobId: string, stages: seq<QueryStage>) {
    forall i | 0 <= i < |stages| :: !SomeFails(failing, jobId, stages[i].stageId, eng.Count(stages[i].child))
  }

  /** After a stage has run, the work directories hold its table at its locations, except for the partitions
      that failed, and nothing else changed. */
  ghost predicate StageWritten(before: Stores, after: Stores, jobId: string, stageId: nat,
                               locations: seq<PartitionLocation>, t: Table, failing: set<PartitionId>)
    requires |locations| == |t|
  {
    forall a, pid :: Fetch(after, a, pid) ==
      if pid.jobId == jobId && pid.stageId == stageId && pid.partitionId < |t| && pid !in failing
         && a == AddressOf(locations[pid.partitionId].executorMeta)
      then Some(t[pid.partitionId]) else Fetch(before, a, pid)
  }

  /** What running a stage of the query writes at an address, if anything. */
  ghost function OutputAt(eng: Engine, m: StageMap, executors: seq<ExecutorMeta>, failing: set<PartitionId>,
                          a: Address, pid: PartitionId): Option<Rows>
    requires executors != []
  {
    if pid.stageId in m && StageTable(eng, m, pid.stageId).Some? && pid !in failing then
      var t := StageTable(eng, m, pid.stageId).value;
      if pid.partitionId < |t| && a == AddressOf(ExecutorFor(executors, |t|, pid.partitionId)) then
        Some(t[pid.partitionId])
      else None
    else None
  }

  /** After `ran` stages the work directories hold what those stages write, and everything else is as before. */
  ghost predicate QueryWritten(eng: Engine, m: StageMap, before: Stores, after: Stores, executors: seq<ExecutorMeta>,
                               failing: set<PartitionId>, jobId: string, lastId: nat, ran: nat)
    requires executors != []
  {
    forall a, pid ::
      var out := OutputAt(eng, m, executors, failing, a, pid);
      Fetch(after, a, pid) ==
        if pid.jobId == jobId && lastId < pid.stageId <= lastId + ran && out.Some? then out else Fetch(before, a, pid)
  }

  /** The stages were run up to the first of which a partition fails, or to the end. */
  ghost predicate RanUntil(eng: Engine, failing: set<PartitionId>, jobId: string, stages: seq<QueryStage>, ran: nat,
                           done: bool)
  {
    && ran <= |stages| && (done ==> ran == |stages| && NothingFails(eng, failing, jobId, stages))
    && (!done ==>
        && 0 < ran && NothingFails(eng, failing, jobId, stages[..ran - 1])
        && SomeFails(failing, jobId, stages[ran - 1].stageId, eng.Count(stages[ran - 1].child)))
  }

  lemma NoQueryWritten(eng: Engine, m: StageMap, stores: Stores, executors: seq<ExecutorMeta>,
                       failing: set<PartitionId>, jobId: string, lastId: nat)
    requires executors != []
    ensures QueryWritten(eng, m, stores, stores, executors, failing, jobId, lastId, 0)
  {
    hide OutputAt, Fetch;
  }

  lemma OneMoreStage(eng: Engine, m: StageMap, before: Stores, was: Stores, after: Stores,
                     executors: seq<ExecutorMeta>, failing: set<PartitionId>, jobId: string, lastId: nat, ran: nat,
                     t: Table)
    requires executors != [] && QueryWritten(eng, m, before, was, executors, failing, jobId, lastId, ran)
    requires var id := lastId + ran + 1;
             && id in m && StageTable(eng, m, id) == Some(t)
             && StageWritten(was, after, jobId, id, LocationsFor(jobId, id, executors, |t|), t, failing)
    ensures QueryWritten(eng, m, before, after, executors, failing, jobId, lastId, ran + 1)
  {
    hide StageTable, Fetch, ExecutorFor;
    var id := lastId + ran + 1;
    var locations := LocationsFor(jobId, id, executors, |t|);
    assert forall p | 0 <= p < |t| :: locations[p].executorMeta == ExecutorFor(executors, |t|, p);
  }

  /** The work directories have changed in this stage's partitions at most. */
  ghost predicate SameElsewhere(before: Stores, after: Stores, jobId: string, stageId: nat) {
    forall a, pid: PartitionId | pid.jobId != jobId || pid.stageId != stageId ::
      Fetch(after, a, pid) == Fetch(before, a, pid)
  }

  /** The partitions of a stage that are still to be run, and those that fail. */
  function Unwritten(jobId: string, stageId: nat, todo: set<nat>, failing: set<PartitionId>): set<PartitionId> {
    (set p <- todo :: PartitionId(jobId, stageId, p)) + failing
  }

  lemma NothingWritten(stores: Stores, jobId: string, stageId: nat, locations: seq<PartitionLocation>, t: Table,
                       todo: set<nat>, failing: set<PartitionId>)
    requires |locations| == |t| && forall p | 0 <= p < |t| :: p in todo
    ensures StageWritten(stores, stores, jobId, stageId, locations, t, Unwritten(jobId, stageId, todo, failing))
  {
  }

  lemma OneMoreWritten(before: Stores, was: Stores, now: Stores, jobId: string, stageId: nat,
                       locations: seq<PartitionLocation>, t: Table, todo: set<nat>, failing: set<PartitionId>, p: nat)
    requires |locations| == |t| && p < |t| && p in todo && PartitionId(jobId, stageId, p) !in failing
    requires StageWritten(before, was, jobId, stageId, locations, t, Unwritten(jobId, stageId, todo, failing))
    requires now == Store(was, AddressOf(locations[p].executorMeta), PartitionId(jobId, stageId, p), t[p])
    ensures StageWritten(before, now, jobId, stageId, locations, t, Unwritten(jobId, stageId, todo - {p}, failing))
  {
    assert Unwritten(jobId, stageId, todo - {p}, failing)
        == Unwritten(jobId, stageId, todo, failing) - {PartitionId(jobId, stageId, p)};
  }

  lemma WrittenIsAbove(before: Stores, after: Stores, jobId: string, stageId: nat,
                       locations: seq<PartitionLocation>, t: Table, failing: set<PartitionId>)
    requires |locations| == |t| && StageWritten(before, after, jobId, stageId, locations, t, failing)
    ensures SameBelow(before, after, jobId, stageId)
  {
  }

  lemma StillFailing(jobId: string, stageId: nat, todo: set<nat>, failing: set<PartitionId>, p: nat)
    ensures PartitionId(jobId, stageId, p) in failing ==>
      Unwritten(jobId, stageId, todo - {p}, failing) == Unwritten(jobId, stageId, todo, failing)
  {
  }

  lemma AllRun(jobId: string, stageId: nat, failing: set<PartitionId>)
    ensures Unwritten(jobId, stageId, {}, failing) == failing
  {
  }

  class Cluster {
    const eng: Engine
    var stores: Stores

    constructor (eng: Engine)
      ensures this.eng == eng && stores == map[]
    {
      this.eng := eng;
      stores := map[];
    }

    /** Sends every partition of a stage to its executor. The executions run concurrently: they are
        carried out in an arbitrary order. The stage must not read its own output. The partitions in `failing`
        fail on their own; all others are written, and the stage fails if any of its partitions does. */
    method ExecuteQueryStage(jobId: string, stageId: nat, plan: Plan, executors: seq<ExecutorMeta>,
                             failing: set<PartitionId>)
      returns (r: Option<seq<PartitionLocation>>)
      requires executors != []
      requires ReadsBelow(plan, jobId, stageId)
      modifies this`stores
      ensures
        var t := eng.Execute(old(stores), plan);
        var count := eng.Count(plan);
        var locations := LocationsFor(jobId, stageId, executors, count);
        && (t.None? ==> (r.Some? <==> count == 0) && SameElsewhere(old(stores), stores, jobId, stageId))
        && (t.Some? ==>
            && |t.value| == count && (r.Some? <==> !SomeFails(failing, jobId, stageId, count))
            && StageWritten(old(stores), stores, jobId, stageId, locations, t.value, failing))
        && (r.Some? ==> r.value == locations)
        && (r.Some? && Distinct(executors) ==> Fair(executors, ExecutorsOf(r.value)))
    {
      hide Fair;
      var count := eng.Count(plan);
      var chunks := Chunks(Range(count), ChunkSize(count, |executors|));
      ghost var starts := ChunksLayout(count, ChunkSize(count, |executors|));
      var meta := BuildLocations(jobId, stageId, count, executors, chunks, starts);
      var requests := BuildRequests(count, executors, chunks, starts);
      assert meta == LocationsFor(jobId, stageId, executors, count);
      if eng.Execute(stores, plan).Some? {
        ExecuteCount(eng, stores, plan);
      }
      var done := RunAll(jobId, stageId, plan, meta, requests, failing);
      r := if done then Some(meta) else None;
    }

    /** The executors run the requests, in any order; a failure does not keep the others from being run. */
    method RunAll(jobId: string, stageId: nat, plan: Plan, meta: seq<PartitionLocation>, requests: seq<Request>,
                  failing: set<PartitionId>)
      returns (done: bool)
      requires |meta| == |requests| == eng.Count(plan)
      requires forall p | 0 <= p < |requests| :: requests[p] == Request(meta[p].executorMeta, p)
      requires ReadsBelow(plan, jobId, stageId)
      modifies this`stores
      ensures
        var t := eng.Execute(old(stores), plan);
        && (t.None? ==> (done <==> requests == []) && SameElsewhere(old(stores), stores, jobId, stageId))
        && (t.Some? ==>
            && |t.value| == |meta| && (done <==> !SomeFails(failing, jobId, stageId, |meta|))
            && StageWritten(old(stores), stores, jobId, stageId, meta, t.value, failing))
    {
      hide StageWritten, Unwritten, Store;
      ghost var t := eng.Execute(stores, plan);
      var todo: set<nat> := set r <- requests :: r.partition;
      forall p | 0 <= p < |requests| ensures p in todo {
        assert requests[p].partition == p;
      }
      if t.Some? {
        ExecuteCount(eng, stores, plan);
        NothingWritten(stores, jobId, stageId, meta, t.value, todo, failing);
      }
      ghost var all := todo;
      assert requests != [] ==> 0 in all;
      done := true;
      while todo != {}
        invariant forall p | p in todo :: p < |requests|
        invariant !done ==> requests != []
        invariant t.None? ==> stores == old(stores) && (done ==> todo == all)
        invariant t.Some? ==>
          StageWritten(old(stores), stores, jobId, stageId, meta, t.value, Unwritten(jobId, stageId, todo, failing))
        invariant t.Some? ==>
          (done <==> forall p | 0 <= p < |meta| && p !in todo :: PartitionId(jobId, stageId, p) !in failing)
        decreases |todo|
      {
        var p :| p in todo;
        var pid := PartitionId(jobId, stageId, p);
        if t.Some? {
          WrittenIsAbove(old(stores), stores, jobId, stageId, meta, t.value, Unwritten(jobId, stageId, todo, failing));
        }
        ExecuteFrame(eng, old(stores), stores, plan, jobId, stageId);
        var table := eng.Execute(stores, plan);
        if table.None? || pid in failing {
          done := false;
          StillFailing(jobId, stageId, todo, failing, p);
        } else {
          ghost var was := stores;
          stores := Store(stores, AddressOf(requests[p].executor), pid, table.value[p]);
          OneMoreWritten(old(stores), was, stores, jobId, stageId, meta, t.value, todo, failing, p);
        }
        todo := todo - {p};
      }
      AllRun(jobId, stageId, failing);
    }

    /** Runs the stages one after the other, each reading the locations of the earlier ones,
        and returns a reader over the last, unless a partition fails. */
    method Execute(stages: seq<QueryStage>, executors: seq<ExecutorMeta>, failing: set<PartitionId>,
                   ghost jobId: string, ghost lastId: nat, ghost m: StageMap)
      returns (r: Option<Plan>, ghost ran: nat)
      requires executors != [] && stages != []
      requires Numbered(jobId, lastId, stages) && Lists(m, stages)
      requires forall id: nat :: id in m <==> lastId < id <= lastId + |stages|
      requires StagesWellStaged(eng, m, stages)
      modifies this`stores
      ensures r.Some? <==> NothingFails(eng, failing, jobId, stages)
      ensures RanUntil(eng, failing, jobId, stages, ran, r.Some?)
      ensures QueryWritten(eng, m, old(stores), stores, executors, failing, jobId, lastId, ran)
      ensures r.Some? ==>
        var last := stages[|stages| - 1];
        && r.value.ShuffleReader? && eng.SchemaOf(r.value) == eng.SchemaOf(last.child)
        && eng.Execute(stores, r.value) == StageTable(eng, m, last.stageId)
    {
      hide WellStaged, Inline, Materialized, Dag, AllSupplied, ReadsBelow, ResolveChild, StageWritten, SomeFails;
      hide LocationsFor, QueryWritten;
      NoQueryWritten(eng, m, stores, executors, failing, jobId, lastId);
      ran := 0;
      var locs: Locations := map[];
      var result: seq<PartitionLocation> := [];
      ListedStagesAreDag(eng, m, jobId, lastId, stages);
      for i := 0 to |stages|
        invariant forall id | lastId < id <= lastId + i ::
                    id in locs && Materialized(eng, m, stores, jobId, id, locs[id])
        invariant forall k | 0 <= k < i :: !SomeFails(failing, jobId, stages[k].stageId, eng.Count(stages[k].child))
        invariant i > 0 ==> result == locs[lastId + i]
        invariant ran == i && QueryWritten(eng, m, old(stores), stores, executors, failing, jobId, lastId, ran)
      {
        var s := stages[i];
        StageSupplied(eng, m, s.stageId, s.child, stores, jobId, locs, lastId);
        ResolvedChildMeans(eng, m, s.stageId, s.child, stores, jobId, locs);
        ResolvedReadsBelow(eng, m, s.stageId, s.child, stores, jobId, locs);
        var resolved := ResolveStage(locs, s);
        if resolved.None? {
          return None, ran;
        }
        label before:
        var QueryStage(job, stageId, child) := resolved.value;
        var found := ExecuteQueryStage(job, stageId, child, executors, failing);
        OneMoreStage(eng, m, old(stores), old@before(stores), stores, executors, failing, jobId, lastId, ran,
                     eng.Execute(old@before(stores), child).value);
        ran := ran + 1;
        if found.None? {
          return None, ran;
        }
        result := found.value;
        AfterStage(eng, m, jobId, s.stageId, old@before(stores), stores, executors,
                   eng.Execute(old@before(stores), resolved.value.child).value, failing);
        forall id | lastId < id < s.stageId ensures Materialized(eng, m, stores, jobId, id, locs[id]) {
          MaterializedFrame(eng, m, old@before(stores), stores, jobId, id, locs[id]);
        }
        locs := locs[s.stageId := result];
      }
      r := Some(ShuffleReader(result, eng.SchemaOf(stages[|stages| - 1].child)));
      ReaderMeans(eng, m, stores, jobId, lastId + |stages|, result, r.value.schema);
    }

    /** Distributed execution of a query computes what running the plan in one place computes,
        partition for partition, for every plan and every non-empty list of executors, as long as no partition fails;
        and if one does, so does the query, and no later stage is run. Either way the work directories then hold what
        the stages that were run have written, and nothing else has changed. */
    method ExecuteDistributedQuery(planner: DistributedPlanner, jobId: string, plan: Plan, failing: set<PartitionId>)
      returns (r: Option<Plan>, ghost ran: nat)
      requires planner.executors != [] && planner.eng == eng
      requires InputPlan(plan)
      modifies this`stores, planner`nextStageId
      ensures r.Some? <==> NothingFails(eng, failing, jobId, QueryStages(eng, jobId, plan, old(planner.nextStageId)))
      ensures
        var lastId := old(planner.nextStageId);
        var stages := QueryStages(eng, jobId, plan, lastId);
        && RanUntil(eng, failing, jobId, stages, ran, r.Some?)
        && QueryWritten(eng, StagesById(stages), old(stores), stores, planner.executors, failing, jobId, lastId, ran)
      ensures r.Some? ==>
        && r.value.ShuffleReader? && eng.Execute(stores, r.value) == eng.Execute(map[], plan)
        && eng.SchemaOf(r.value) == eng.SchemaOf(plan) && eng.Count(r.value) == eng.Count(plan)
    {
      ghost var lastId := planner.nextStageId;
      var stages := planner.PlanQueryStages(jobId, plan);
      ghost var m := StagesById(stages);
      QueryStagesInline(eng, jobId, plan, lastId);
      StagesByIdLists(jobId, lastId, stages);
      LastStageShape(eng, jobId, plan, lastId);
      hide QueryWritten, RanUntil, NothingFails, StagesById;
      r, ran := Execute(stages, planner.executors, failing, jobId, lastId, m);
      if r.Some? {
        InputRuns(eng, map[], map[], plan);
        ExecuteCount(eng, stores, r.value);
        ExecuteCount(eng, map[], plan);
      }
    }
  }

  lemma ListedStagesAreDag(eng: Engine, m: StageMap, jobId: string, lastId: nat, stages: seq<QueryStage>)
    requires Numbered(jobId, lastId, stages) && Lists(m, stages) && StagesWellStaged(eng, m, stages)
    requires forall id: nat :: id in m <==> lastId < id <= lastId + |stages|
    ensures Dag(eng, m)
  {
    forall id | id in m ensures WellStaged(eng, m, id, m[id]) {
      assert stages[id - lastId - 1].stageId == id;
    }
  }

  lemma StageSupplied(eng: Engine, m: StageMap, limit: nat, q: Plan, stores: Stores, jobId: string, locs: Locations,
                      lastId: nat)
    requires WellStaged(eng, m, limit, q)
    requires forall id | id in m :: lastId < id
    requires forall id | id in m && lastId < id < limit ::
               id in locs && Materialized(eng, m, stores, jobId, id, locs[id])
    ensures AllSupplied(eng, m, stores, jobId, locs, q)
  {
    forall u | u in FindUnresolvedShuffles(q) ensures Supplied(eng, m, stores, jobId, locs, u) {
      WellStagedShuffle(eng, m, limit, q, u);
    }
  }

  lemma AfterStage(eng: Engine, m: StageMap, jobId: string, id: nat, before: Stores, after: Stores,
                   executors: seq<ExecutorMeta>, t: Table, failing: set<PartitionId>)
    requires id in m && StageTable(eng, m, id) == Some(t) && executors != [] && !SomeFails(failing, jobId, id, |t|)
    requires StageWritten(before, after, jobId, id, LocationsFor(jobId, id, executors, |t|), t, failing)
    ensures Materialized(eng, m, after, jobId, id, LocationsFor(jobId, id, executors, |t|))
    ensures SameBelow(before, after, jobId, id)
  {
    var locations := LocationsFor(jobId, id, executors, |t|);
    forall p | 0 <= p < |t| ensures ReadPartition(after, locations, p) == Some(t[p]) {
      assert locations[p].partitionId == PartitionId(jobId, id, p);
      assert PartitionId(jobId, id, p) !in failing;
    }
  }
}
