/** `DataParallelIterableDataset` of lightning_ir/data/dataset.py: every
    data-loader worker of every process is one replica; a replica reads the
    positions `rank, rank + num_replicas, ...` of the query or document
    stream, below the configured limit. */
module ParallelData {
  import opened Common
  import opened MvrData

  /** What the data-loader worker knows about itself (`get_worker_info()`). */
  datatype WorkerInfo = WorkerInfo(numWorkers: nat, id: nat)

  /** The process group (`get_world_size()`, `get_rank()`); absent when the
      distributed calls raise because no group is initialised. */
  datatype ProcessGroup = ProcessGroup(worldSize: nat, rank: nat)

  datatype StreamConfig =
    | QueryDatasetConfig(numQueries: Option<int>)
    | DocDatasetConfig(numDocs: Option<int>)
    | OtherConfig

  datatype Field = Queries | Docs

  datatype ParallelDataset = ParallelDataset(config: StreamConfig, field: Field, numReplicas: nat, rank: nat)

  datatype Layout = Layout(numReplicas: nat, rank: nat)

  /** Replica count and rank: workers of one process get consecutive ranks. */
  function ReplicaLayout(worker: Option<WorkerInfo>, group: Option<ProcessGroup>): Layout
  {
    var numWorkers := if worker.Some? then worker.value.numWorkers else 1;
    var workerId := if worker.Some? then worker.value.id else 0;
    var worldSize := if group.Some? then group.value.worldSize else 1;
    var processRank := if group.Some? then group.value.rank else 0;
    Layout(numWorkers * worldSize, processRank * numWorkers + workerId)
  }

  predicate ValidWorker(worker: Option<WorkerInfo>)
  {
    worker.Some? ==> worker.value.id < worker.value.numWorkers
  }

  predicate ValidGroup(group: Option<ProcessGroup>)
  {
    group.Some? ==> group.value.rank < group.value.worldSize
  }

  /** With a worker id below the worker count and a process rank below the
      world size, the rank is below the replica count, and the rank determines
      the worker id and the process rank, so no two replicas share a rank. */
  lemma {:induction false} LayoutRankInRange(worker: Option<WorkerInfo>, group: Option<ProcessGroup>)
    requires ValidWorker(worker) && ValidGroup(group)
    ensures var l := ReplicaLayout(worker, group);
      && l.rank < l.numReplicas
      && l.rank % (if worker.Some? then worker.value.numWorkers else 1) == (if worker.Some? then worker.value.id else 0)
      && l.rank / (if worker.Some? then worker.value.numWorkers else 1) == (if group.Some? then group.value.rank else 0)
  {
    var n := if worker.Some? then worker.value.numWorkers else 1;
    var w := if worker.Some? then worker.value.id else 0;
    var ws := if group.Some? then group.value.worldSize else 1;
    var p := if group.Some? then group.value.rank else 0;
    assert p <= ws - 1;
    MulMonotone(p, ws - 1, n);
    assert (ws - 1) * n == n * ws - n;
    DivModUnique(p * n + w, n, p, w);
  }

  lemma MulMonotone(a: nat, b: nat, n: nat)
    requires a <= b
    ensures a * n <= b * n
  {
  }

  /** Euclidean division is unique: a quotient and a remainder below the
      divisor are the ones `/` and `%` give. */
  lemma DivModUnique(x: nat, n: nat, q: nat, r: nat)
    requires 0 <= r < n && x == q * n + r
    ensures x % n == r && x / n == q
  {
    var q', r' := x / n, x % n;
    assert x == q' * n + r';
    if q > q' {
      MulMonotone(1, q - q', n);
    } else if q < q' {
      MulMonotone(1, q' - q, n);
    }
  }

  /** `__init__`: the stream field follows the configuration class; any other
      configuration is refused. */
  function NewParallelDataset(config: StreamConfig, worker: Option<WorkerInfo>, group: Option<ProcessGroup>): (r: Result<ParallelDataset>)
    ensures r.Err? <==> config.OtherConfig?
    ensures r.Err? ==> r.error.ValueError?
    ensures r.Ok? ==> (r.value.config == config
      && (r.value.field == Queries <==> config.QueryDatasetConfig?)
      && r.value.numReplicas == ReplicaLayout(worker, group).numReplicas
      && r.value.rank == ReplicaLayout(worker, group).rank)
  {
    var layout := ReplicaLayout(worker, group);
    match config
    case QueryDatasetConfig(_) => Ok(ParallelDataset(config, Queries, layout.numReplicas, layout.rank))
    case DocDatasetConfig(_) => Ok(ParallelDataset(config, Docs, layout.numReplicas, layout.rank))
    case OtherConfig => Err(ValueError("Invalid dataset configuration."))
  }

  /** `getattr(self.config, f"num_{self._field}")`. */
  function ConfiguredCount(ds: ParallelDataset): Option<int>
  {
    match ds.config
    case QueryDatasetConfig(n) => n
    case DocDatasetConfig(n) => n
    case OtherConfig => None
  }

  /** `__len__`: the configured count unless it is None or 0 (Python `or`),
      otherwise the size the benchmark library reports for the field. */
  function Len(ds: ParallelDataset, queriesCount: nat, docsCount: nat): (n: int)
    ensures ConfiguredCount(ds).Some? && ConfiguredCount(ds).value != 0 ==> n == ConfiguredCount(ds).value
    ensures (ConfiguredCount(ds).None? || ConfiguredCount(ds).value == 0) ==>
      n == (if ds.field == Queries then queriesCount else docsCount)
  {
    match ConfiguredCount(ds)
    case Some(k) => if k != 0 then k else if ds.field == Queries then queriesCount else docsCount
    case None => if ds.field == Queries then queriesCount else docsCount
  }

  /** The stop argument `num or None` handed to `islice`, checked as `islice`
      checks its arguments: a negative stop or a step below one raises. */
  function IsliceStop(ds: ParallelDataset): (r: Result<Option<nat>>)
    ensures r.Err? <==> ds.numReplicas < 1 || (ConfiguredCount(ds).Some? && ConfiguredCount(ds).value < 0)
    ensures r.Ok? ==> (r.value.None? <==> ConfiguredCount(ds).None? || ConfiguredCount(ds).value == 0)
    ensures r.Ok? && r.value.Some? ==> r.value.value == ConfiguredCount(ds).value
  {
    var stop := ConfiguredCount(ds);
    if stop.Some? && stop.value < 0 then
      Err(ValueError("Stop argument for islice() must be None or an integer: 0 <= x <= sys.maxsize."))
    else if ds.numReplicas < 1 then
      Err(ValueError("Step for islice() must be a positive integer or None."))
    else if stop.None? || stop.value == 0 then Ok(None)
    else Ok(Some(stop.value as nat))
  }

  /** How far into a stream of `n` items the slice reaches. */
  function Bound(n: nat, stop: Option<nat>): nat
  {
    match stop
    case None => n
    case Some(k) => if k < n then k else n
  }

  /** The positions `start, start + step, ...` below `bound`. */
  function Positions(start: nat, bound: nat, step: nat): (ps: seq<nat>)
    requires step >= 1
    ensures forall k :: 0 <= k < |ps| ==> start <= ps[k] < bound
    decreases bound - start
  {
    if start >= bound then [] else [start] + Positions(start + step, bound, step)
  }

  /** A position is read by the replica starting at `start` exactly when it is
      below the bound, not before `start`, and a whole number of steps after it. */
  lemma {:induction false} PositionsMembership(start: nat, bound: nat, step: nat, p: nat)
    requires step >= 1
    ensures p in Positions(start, bound, step) <==> start <= p < bound && (p - start) % step == 0
    decreases bound - start
  {
    if start < bound {
      var rest := Positions(start + step, bound, step);
      assert Positions(start, bound, step) == [start] + rest;
      PositionsMembership(start + step, bound, step, p);
      if p == start {
        DivModUnique(0, step, 0, 0);
      } else if start < p < start + step {
        DivModUnique(p - start, step, 0, p - start);
      } else if p >= start + step {
        ModStep(p - start - step, step);
      }
    }
  }

  lemma ModStep(x: nat, step: nat)
    requires step >= 1
    ensures (x + step) % step == x % step
  {
    DivModUnique(x + step, step, x / step + 1, x % step);
  }

  /** The replicas split every prefix of the stream: a position below the
      bound is read by exactly one rank, the one equal to it modulo the
      replica count. */
  lemma ReplicasPartition(bound: nat, numReplicas: nat, p: nat, r: nat)
    requires numReplicas >= 1 && p < bound && r < numReplicas
    ensures p in Positions(r, bound, numReplicas) <==> r == p % numReplicas
  {
    PositionsMembership(r, bound, numReplicas, p);
    StrideResidue(p, r, numReplicas);
  }

  /** `p` is a whole number of strides of length `n` after `r < n` exactly
      when `r` is the remainder of `p`. */
  lemma StrideResidue(p: nat, r: nat, n: nat)
    requires r < n
    ensures r <= p && (p - r) % n == 0 <==> r == p % n
  {
    if r <= p && (p - r) % n == 0 {
      var k := (p - r) / n;
      DivModUnique(p, n, k, r);
    }
    if r == p % n {
      DivModUnique(p - r, n, p / n, 0);
    }
  }

  /** The samples for the records at `positions` of `stream`, converted by the
      field's sample class, up to the first record that fails to convert. */
  function Convert(field: Field, stream: seq<IrRecord>, positions: seq<nat>): Yielded<Sample>
    requires forall k :: 0 <= k < |positions| ==> positions[k] < |stream|
  {
    if |positions| == 0 then Yielded([], None)
    else
      var record := stream[positions[0]];
      match (if field == Queries then QuerySampleFrom(record) else DocSampleFrom(record))
      case Err(e) => Yielded([], Some(e))
      case Ok(s) => Convert(field, stream, positions[1..]).After([s])
  }

  /** What `__iter__` yields for the records of the field's stream. */
  function IterSpec(ds: ParallelDataset, queries: seq<IrRecord>, docs: seq<IrRecord>): Yielded<Sample>
  {
    var stream := if ds.field == Queries then queries else docs;
    match IsliceStop(ds)
    case Err(e) => Yielded([], Some(e))
    case Ok(stop) =>
      Convert(ds.field, stream, Positions(ds.rank, Bound(|stream|, stop), ds.numReplicas))
  }

  /** `__iter__`: walks the strided slice of the stream and converts each record. */
  method Iter(ds: ParallelDataset, queries: seq<IrRecord>, docs: seq<IrRecord>) returns (y: Yielded<Sample>)
    ensures y == IterSpec(ds, queries, docs)
  {
    var stream := if ds.field == Queries then queries else docs;
    var stop;
    match IsliceStop(ds) {
      case Err(e) =>
        return Yielded([], Some(e));
      case Ok(s) =>
        stop := s;
    }
    var bound := Bound(|stream|, stop);
    y := ConvertSlice(ds.field, stream, ds.rank, bound, ds.numReplicas);
  }

  /** The `for sample in islice(...)` loop of `__iter__`: converts the record
      at `start`, `start + step`, ... below `bound`, stopping at the first
      record that fails to convert. */
  method ConvertSlice(field: Field, stream: seq<IrRecord>, start: nat, bound: nat, step: nat) returns (y: Yielded<Sample>)
    requires step >= 1 && bound <= |stream|
    ensures y == Convert(field, stream, Positions(start, bound, step))
  {
    ghost var spec := Convert(field, stream, Positions(start, bound, step));
    var items: seq<Sample> := [];
    var p := start;
    while p < bound
      invariant start <= p
      invariant spec == Convert(field, stream, Positions(p, bound, step)).After(items)
      decreases if p <= bound then bound - p else 0
    {
      ghost var rest := Positions(p, bound, step);
      assert rest[0] == p && rest[1..] == Positions(p + step, bound, step);
      var converted := if field == Queries then QuerySampleFrom(stream[p]) else DocSampleFrom(stream[p]);
      match converted {
        case Err(e) =>
          return Yielded(items, Some(e));
        case Ok(s) =>
          assert Convert(field, stream, rest) == Convert(field, stream, rest[1..]).After([s]);
          AfterAfter(Convert(field, stream, rest[1..]), items, s);
          items := items + [s];
      }
      p := p + step;
    }
    y := Yielded(items, None);
  }
}
