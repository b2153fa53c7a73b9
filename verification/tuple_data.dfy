/** `TupleDataset` of lightning_ir/data/dataset.py: training tuples (a query
    with two or more documents and optional targets) read from a dataset's
    doc-pairs stream. */
module TupleData {
  import opened Common
  import opened Tables
  import opened MvrData
  import opened IrData

  datatype TupleTargets = ByOrder | ByScore

  datatype TupleDatasetConfig = TupleDatasetConfig(targets: Option<TupleTargets>, numDocs: Option<int>)

  datatype TupleStage = TrainStage | ValidateStage | OtherStage(name: string)

  /** An element of the doc-pairs stream: a plain pair, a scored tuple, or
      a record of some other type. */
  datatype DocPairSample =
    | GenericDocPair(queryId: string, docIdA: string, docIdB: string)
    | Scored(tuple: ScoredDocTuple)
    | OtherSample(queryId: string)

  function QueryIdOf(s: DocPairSample): string
  {
    match s
    case GenericDocPair(q, _, _) => q
    case Scored(t) => t.queryId
    case OtherSample(q) => q
  }

  datatype Parsed = Parsed(docIds: seq<string>, targets: Option<seq<Score>>)

  datatype TupleSample = TupleSample(queryId: string, query: string, docIds: seq<string>, docs: seq<string>, targets: Option<seq<Score>>)

  /** `xs[:n]` with `n` possibly None (everything). */
  function SliceOpt<T>(xs: seq<T>, n: Option<int>): (r: seq<T>)
    ensures |r| <= |xs| && r == xs[..|r|]
    ensures n.None? ==> r == xs
  {
    if n.None? then xs else SliceTo(xs, n.value)
  }

  /** Two sequences of the same length stay of the same length when cut at
      the same place. */
  lemma SliceOptSameLength<S, T>(a: seq<S>, b: seq<T>, n: Option<int>)
    requires |a| == |b|
    ensures |SliceOpt(a, n)| == |SliceOpt(b, n)|
  {
  }

  /** `[0.0] * n`: empty for a negative `n`. */
  function Zeros(n: int): (r: seq<Score>)
    ensures |r| == if n > 0 then n else 0
    ensures forall k :: 0 <= k < |r| ==> r[k] == Float(0.0)
  {
    if n <= 0 then [] else Zeros(n - 1) + [Float(0.0)]
  }

  /** The default targets of a scored tuple as written:
      `[1.0] + [0.0] * num_docs`, one entry more than there are documents. */
  function DefaultTargetsAsWritten(numDocs: int): (r: seq<Score>)
    ensures |r| == 1 + (if numDocs > 0 then numDocs else 0)
    ensures r[0] == Float(1.0) && forall k :: 1 <= k < |r| ==> r[k] == Float(0.0)
  {
    [Float(1.0)] + Zeros(numDocs)
  }

  /** The default targets of a scored tuple as evidently intended: the first
      document is the positive one, the other `num_docs - 1` are negatives. */
  function DefaultTargets(numDocs: int): (r: seq<Score>)
    ensures numDocs >= 1 ==> |r| == numDocs
    ensures |r| >= 1 && r[0] == Float(1.0) && forall k :: 1 <= k < |r| ==> r[k] == Float(0.0)
  {
    [Float(1.0)] + Zeros(numDocs - 1)
  }

  /** The doc ids and targets `parse_sample` takes from one stream element,
      before the document texts are looked up; default targets as written. */
  function ParseIdsTargets(config: TupleDatasetConfig, sample: DocPairSample): Result<Parsed>
  {
    match sample
    case GenericDocPair(_, a, b) =>
      if config.targets == Some(ByScore) then Err(ValueError("ScoredDocTuple required for score targets."))
      else Ok(Parsed([a, b], if config.targets == Some(ByOrder) then Some([Float(1.0), Float(0.0)]) else None))
    case Scored(t) =>
      var docIds := SliceOpt(t.docIds, config.numDocs);
      if config.targets.None? then Ok(Parsed(docIds, None))
      else
        var full := if t.scores.Some? && config.targets == Some(ByScore) then t.scores.value else DefaultTargetsAsWritten(t.numDocs);
        Ok(Parsed(docIds, Some(SliceOpt(full, config.numDocs))))
    case OtherSample(_) => Err(ValueError("Invalid sample type."))
  }

  /** The same step with the intended default targets. */
  function ParseIdsTargetsCorrected(config: TupleDatasetConfig, sample: DocPairSample): Result<Parsed>
  {
    match sample
    case Scored(t) =>
      var docIds := SliceOpt(t.docIds, config.numDocs);
      if config.targets.None? then Ok(Parsed(docIds, None))
      else
        var full := if t.scores.Some? && config.targets == Some(ByScore) then t.scores.value else DefaultTargets(t.numDocs);
        Ok(Parsed(docIds, Some(SliceOpt(full, config.numDocs))))
    case _ => ParseIdsTargets(config, sample)
  }

  /** A plain pair: "score" targets are refused, "order" targets are
      `(1.0, 0.0)`, and the doc ids are the pair in order. */
  lemma ParseDocPair(config: TupleDatasetConfig, q: string, a: string, b: string)
    ensures var r := ParseIdsTargets(config, GenericDocPair(q, a, b));
      && (config.targets == Some(ByScore) <==> r.Err?)
      && (r.Err? ==> r.error.ValueError?)
      && (r.Ok? ==> r.value.docIds == [a, b])
      && (config.targets == Some(ByOrder) ==> r == Ok(Parsed([a, b], Some([Float(1.0), Float(0.0)]))))
      && (config.targets.None? ==> r == Ok(Parsed([a, b], None)))
  {
  }

  /** A scored tuple keeps the first `num_docs` doc ids (all without a
      limit); with "score" targets and scores present its targets are its
      scores, cut the same way; an element of another type is refused. */
  lemma ParseScored(config: TupleDatasetConfig, t: ScoredDocTuple)
    ensures var r := ParseIdsTargets(config, Scored(t));
      && r.Ok?
      && r.value.docIds == SliceOpt(t.docIds, config.numDocs)
      && (r.value.targets.Some? <==> config.targets.Some?)
      && (config.targets == Some(ByScore) && t.scores.Some? ==> r.value.targets == Some(SliceOpt(t.scores.value, config.numDocs)))
    ensures forall q :: ParseIdsTargets(config, OtherSample(q)).Err?
  {
  }

  /** With the intended default targets, a tuple as the doc-pairs reader
      yields it (`num_docs` equal to the number of doc ids, at least one)
      gets targets that line up with its doc ids whatever the `num_docs`
      limit: one target per document, the first positive. */
  lemma TargetsAlignWithDocIds(config: TupleDatasetConfig, t: ScoredDocTuple)
    requires WellShaped(t) && t.numDocs >= 1 && config.targets.Some?
    ensures var r := ParseIdsTargetsCorrected(config, Scored(t));
      r.Ok? && r.value.targets.Some? && |r.value.targets.value| == |r.value.docIds|
  {
    var full := if t.scores.Some? && config.targets == Some(ByScore) then t.scores.value else DefaultTargets(t.numDocs);
    SliceOptSameLength(full, t.docIds, config.numDocs);
  }

  /** As written, whenever a well-shaped tuple gets the default targets and
      there is no `num_docs` limit, it has one target more than doc ids. */
  lemma AsWrittenTargetsOneMore(config: TupleDatasetConfig, t: ScoredDocTuple)
    requires WellShaped(t) && config.targets.Some? && config.numDocs.None?
    requires !(t.scores.Some? && config.targets == Some(ByScore))
    ensures var r := ParseIdsTargets(config, Scored(t));
      r.Ok? && r.value.targets.Some? && |r.value.targets.value| == |r.value.docIds| + 1
  {
  }

  /** As written, a tuple of two documents from a TSV doc-pairs line gets
      three targets under "order" targets and no `num_docs` limit. */
  lemma AsWrittenTargetsTooLong(q: string, a: string, b: string, pos: real, neg: real)
    ensures var t := ScoredDocTuple(q, [a, b], Some([Float(pos), Float(neg)]), 2);
      var r := ParseIdsTargets(TupleDatasetConfig(Some(ByOrder), None), Scored(t));
      && WellShaped(t)
      && r.Ok? && |r.value.docIds| == 2 && r.value.targets.Some? && |r.value.targets.value| == 3
  {
    assert |Zeros(2)| == 2;
  }

  /** `parse_sample`: doc ids and targets, then the documents' texts. */
  function ParseSample(config: TupleDatasetConfig, sample: DocPairSample, docs: Result<map<string, string>>): Result<(Parsed, seq<string>)>
  {
    var p := ParseIdsTargets(config, sample);
    if p.Err? then Err(p.error)
    else
      var texts := LookupTexts(docs, p.value.docIds);
      if texts.Err? then Err(texts.error) else Ok((p.value, texts.value))
  }

  /** The sample `__iter__` makes of one stream element, given what the
      `queries` and `docs` properties give. */
  function SampleOf(config: TupleDatasetConfig, pair: DocPairSample, queries: Result<map<string, string>>, docs: Result<map<string, string>>): Result<TupleSample>
  {
    var qid := QueryIdOf(pair);
    if queries.Err? then Err(queries.error)
    else if qid !in queries.value then Err(KeyError(qid))
    else
      var p := ParseSample(config, pair, docs);
      if p.Err? then Err(p.error)
      else Ok(TupleSample(qid, queries.value[qid], p.value.0.docIds, p.value.1, p.value.0.targets))
  }

  /** What `__iter__` yields for the stream `pairs`: one sample per element,
      until the first error. */
  function IterSpec(config: TupleDatasetConfig, pairs: seq<DocPairSample>, queries: Result<map<string, string>>, docs: Result<map<string, string>>): Yielded<TupleSample>
  {
    if |pairs| == 0 then Yielded([], None)
    else match SampleOf(config, pairs[0], queries, docs)
      case Err(e) => Yielded([], Some(e))
      case Ok(x) => IterSpec(config, pairs[1..], queries, docs).After([x])
  }

  /** Every sample `__iter__` yields carries the text of its query and one
      text per document. */
  lemma {:induction false} IterSamplesComplete(config: TupleDatasetConfig, pairs: seq<DocPairSample>, queries: Result<map<string, string>>, docs: Result<map<string, string>>)
    ensures var y := IterSpec(config, pairs, queries, docs);
      && |y.items| <= |pairs|
      && forall k :: 0 <= k < |y.items| ==>
        && queries.Ok?
        && y.items[k].queryId == QueryIdOf(pairs[k])
        && y.items[k].queryId in queries.value && y.items[k].query == queries.value[y.items[k].queryId]
        && |y.items[k].docs| == |y.items[k].docIds|
    decreases |pairs|
  {
    if |pairs| > 0 {
      IterSamplesComplete(config, pairs[1..], queries, docs);
    }
  }

  class TupleDataset {
    const base: IRDataset
    const config: TupleDatasetConfig
    const stage: TupleStage

    constructor (base: IRDataset, config: TupleDatasetConfig, stage: TupleStage)
      ensures this.base == base && this.config == config && this.stage == stage
    {
      this.base := base;
      this.config := config;
      this.stage := stage;
    }

    /** One step of `__iter__`: look the query up, parse the element, fetch
        the document texts. */
    method NextSample(pair: DocPairSample) returns (r: Result<TupleSample>)
      modifies base
      ensures r == SampleOf(config, pair, old(base.QueriesValue()), old(base.DocsValue()))
      ensures base.QueriesValue() == old(base.QueriesValue()) && base.DocsValue() == old(base.DocsValue())
    {
      var qid := QueryIdOf(pair);
      var queries := base.Queries();
      if queries.Err? {
        return Err(queries.error);
      }
      if qid !in queries.value {
        return Err(KeyError(qid));
      }
      var p := ParseIdsTargets(config, pair);
      if p.Err? {
        return Err(p.error);
      }
      var docs := Ok(map[]);
      if |p.value.docIds| > 0 {
        docs := base.Docs();
      }
      var texts := LookupTexts(docs, p.value.docIds);
      if texts.Err? {
        return Err(texts.error);
      }
      r := Ok(TupleSample(qid, queries.value[qid], p.value.docIds, texts.value, p.value.targets));
    }

    /** `__iter__` over the dataset's doc-pairs stream `pairs`. */
    method Iter(pairs: seq<DocPairSample>) returns (y: Yielded<TupleSample>)
      modifies base
      ensures y == IterSpec(config, pairs, old(base.QueriesValue()), old(base.DocsValue()))
      ensures base.QueriesValue() == old(base.QueriesValue()) && base.DocsValue() == old(base.DocsValue())
    {
      ghost var queries0 := base.QueriesValue();
      ghost var docs0 := base.DocsValue();
      var items: seq<TupleSample> := [];
      var i := 0;
      while i < |pairs|
        invariant 0 <= i <= |pairs|
        invariant base.QueriesValue() == queries0 && base.DocsValue() == docs0
        invariant IterSpec(config, pairs, queries0, docs0) == IterSpec(config, pairs[i..], queries0, docs0).After(items)
      {
        assert pairs[i..][1..] == pairs[i + 1..];
        var next := NextSample(pairs[i]);
        if next.Err? {
          return Yielded(items, Some(next.error));
        }
        AfterAfter(IterSpec(config, pairs[i + 1..], queries0, docs0), items, next.value);
        items := items + [next.value];
        i := i + 1;
      }
      y := Yielded(items, None);
    }
  }

  /** `TupleDataset(tuples_dataset, config, stage)`: the dataset must have
      queries, and the stage must be "train" or "validate". */
  method Open(name: string, config: TupleDatasetConfig, stage: TupleStage, registry: seq<string>, loadable: map<string, IrSource>)
    returns (r: Result<TupleDataset>)
    ensures var resolved := ResolveName(name, registry);
      && (resolved !in loadable ==> r.Err? && r.error.ValueError?)
      && (resolved in loadable && stage.OtherStage? ==> r.Err? && r.error.ValueError?)
      && (r.Ok? <==> resolved in loadable && !stage.OtherStage?)
    ensures r.Ok? ==> (
      && fresh(r.value) && r.value.config == config && r.value.stage == stage
      && r.value.base.dataset == ResolveName(name, registry)
      && r.value.base.queriesCache == Some(QueryTexts(loadable[ResolveName(name, registry)].queries)))
  {
    var base := new IRDataset(name, registry, loadable);
    var queries := base.Queries();
    if queries.Err? {
      return Err(queries.error);
    }
    if stage.OtherStage? {
      return Err(ValueError("Invalid stage. Expected 'train' or 'validate'. Got " + stage.name + "."));
    }
    var ds := new TupleDataset(base, config, stage);
    r := Ok(ds);
  }
}
