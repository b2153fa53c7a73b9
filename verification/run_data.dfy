/** `RunDataset` of lightning_ir/data/dataset.py: a run file read into rows,
    joined with the dataset's relevance judgements, filtered and sorted, then
    served one query at a time. */
module RunData {
  import opened Common
  import opened Strings
  import opened Paths
  import opened Tables
  import opened IrData
  import opened RunRows

  datatype Stage = Train | Validate | Predict | UnknownStage(name: string)

  /** How the run file is read: a whitespace-separated table, or JSON
      records (one per line for `.jsonl`). */
  datatype RunFormat = WhitespaceTable | JsonRecords(lines: bool)

  /** One row as the reader gives it, with the optional `query` and `text`
      columns of a JSON run. */
  datatype ParsedRow = ParsedRow(row: RunRow, query: string, text: string)

  datatype ParsedRun = ParsedRun(rows: seq<ParsedRow>, hasQuery: bool, hasText: bool)

  /** One judgement of the query, as `get_group(...).stack()` lists it. */
  datatype Qrel = Qrel(queryId: string, docId: string, iteration: string, relevance: int)

  datatype RunSample = RunSample(
    queryId: string, query: string, docIds: seq<string>, docs: seq<string>,
    targets: Option<seq<seq<real>>>, qrels: Option<seq<Qrel>>)

  // ---------------------------------------------------------------------
  // The dataset a run file belongs to

  /** The file name without all of its suffixes; a name without suffixes
      gives the empty string (the slice `[:-0]`). */
  function StrippedName(name: string): (stem: string)
    ensures |Concat(Suffixes(name))| > 0 ==> stem + Concat(Suffixes(name)) == name
    ensures |Concat(Suffixes(name))| == 0 ==> stem == ""
  {
    SuffixesTail(name);
    var l := |Concat(Suffixes(name))|;
    if l > 0 then name[..|name| - l] else ""
  }

  /** The dataset name: the last `"__"`-separated segment of the stripped
      file name. */
  function RunDatasetName(name: string): (r: string)
    ensures !Contains(r, "__")
    ensures exists k :: 0 <= k <= |StrippedName(name)| && StrippedName(name)[k..] == r
    ensures Contains(StrippedName(name), "__") ==>
      exists k :: 2 <= k <= |StrippedName(name)| && StrippedName(name)[k - 2..k] == "__" && StrippedName(name)[k..] == r
  {
    SplitOnLast(StrippedName(name), "__");
    SplitOnLastAfterSep(StrippedName(name), "__");
    Last(SplitOn(StrippedName(name), "__"))
  }

  /** A stripped name without `"__"` is the dataset name as it is. */
  lemma RunDatasetNamePlain(name: string)
    requires !Contains(StrippedName(name), "__")
    ensures RunDatasetName(name) == StrippedName(name)
  {
  }

  /** The reader `load_run` picks from the file's suffixes. */
  function RunFormatOf(name: string): Result<RunFormat>
  {
    var sfx := Suffixes(name);
    if ".tsv" in sfx || ".run" in sfx || ".csv" in sfx then Ok(WhitespaceTable)
    else if ".json" in sfx || ".jsonl" in sfx then Ok(JsonRecords(".jsonl" in sfx))
    else Err(ValueError("Invalid run file format."))
  }

  /** For a file name with one extension: `.tsv`, `.run` and `.csv` are
      tables, `.json` is JSON, `.jsonl` is JSON lines, anything else is
      refused with `ValueError`. */
  lemma RunFormatByExtension(stem: string, ext: string)
    requires |stem| > 0 && stem[0] != '.' && |ext| > 0
    requires '.' !in stem && '.' !in ext
    ensures var f := RunFormatOf(stem + "." + ext);
      && (ext in {"tsv", "run", "csv"} ==> f == Ok(WhitespaceTable))
      && (ext == "json" ==> f == Ok(JsonRecords(false)))
      && (ext == "jsonl" ==> f == Ok(JsonRecords(true)))
      && (ext !in {"tsv", "run", "csv", "json", "jsonl"} ==> f.Err? && f.error.ValueError?)
  {
    SingleSuffix(stem, ext);
    DotExtension(ext, "tsv");
    DotExtension(ext, "run");
    DotExtension(ext, "csv");
    DotExtension(ext, "json");
    DotExtension(ext, "jsonl");
    assert "." + "tsv" == ".tsv" && "." + "run" == ".run" && "." + "csv" == ".csv";
    assert "." + "json" == ".json" && "." + "jsonl" == ".jsonl";
  }

  lemma DotExtension(ext: string, x: string)
    ensures ("." + x in ["." + ext]) <==> ext == x
  {
    if "." + x == "." + ext {
      assert ("." + x)[1..] == x && ("." + ext)[1..] == ext;
    }
  }

  function DocIdsOf(rows: seq<RunRow>): (ids: seq<string>)
    ensures |ids| == |rows| && forall i :: 0 <= i < |rows| ==> ids[i] == rows[i].docId
  {
    seq(|rows|, i requires 0 <= i < |rows| => rows[i].docId)
  }

  function Rows(parsed: seq<ParsedRow>): (r: seq<RunRow>)
    ensures |r| == |parsed| && forall k :: 0 <= k < |parsed| ==> r[k] == parsed[k].row
  {
    seq(|parsed|, k requires 0 <= k < |parsed| => parsed[k].row)
  }

  /** The `query` column keyed by query id, first row of each query
      (`drop_duplicates("query_id")`). */
  function RunQueries(parsed: seq<ParsedRow>): map<string, string>
  {
    FirstWins(seq(|parsed|, k requires 0 <= k < |parsed| => (parsed[k].row.queryId, parsed[k].query)))
  }

  /** The `text` column keyed by doc id, last row of each document
      (`to_dict()` of a duplicated index). */
  function RunDocs(parsed: seq<ParsedRow>): map<string, string>
  {
    LastWins(seq(|parsed|, k requires 0 <= k < |parsed| => (parsed[k].row.docId, parsed[k].text)))
  }

  /** A JSON run that carries the document texts itself. */
  predicate SuppliesDocs(name: string, reader: RunFormat -> ParsedRun)
  {
    var f := RunFormatOf(name);
    f.Ok? && f.value.JsonRecords? && reader(f.value).hasText
  }

  /** `load_run`: read the file with the reader its suffixes select, take
      over the query and document texts a JSON run carries, and cut at the
      depth. */
  method LoadRun(base: IRDataset, name: string, depth: int, reader: RunFormat -> ParsedRun)
    returns (r: Result<seq<RunRow>>)
    modifies base
    ensures RunFormatOf(name).Err? ==> r == Err(RunFormatOf(name).error) && unchanged(base)
    ensures RunFormatOf(name).Ok? ==> r == Ok(DepthFilter(Rows(reader(RunFormatOf(name).value).rows), depth))
    ensures RunFormatOf(name) == Ok(WhitespaceTable) ==> unchanged(base)
    ensures RunFormatOf(name).Ok? && RunFormatOf(name).value.JsonRecords? ==>
      var parsed := reader(RunFormatOf(name).value);
      && base.queriesCache == (if parsed.hasQuery then Some(RunQueries(parsed.rows)) else old(base.queriesCache))
      && base.docsCache == (if parsed.hasText then Some(RunDocs(parsed.rows)) else old(base.docsCache))
  {
    var format := RunFormatOf(name);
    if format.Err? {
      return Err(format.error);
    }
    var parsed := reader(format.value);
    if format.value.JsonRecords? {
      if parsed.hasQuery {
        base.queriesCache := Some(RunQueries(parsed.rows));
      }
      if parsed.hasText {
        base.docsCache := Some(RunDocs(parsed.rows));
      }
    }
    r := Ok(DepthFilter(Rows(parsed.rows), depth));
  }

  /** The run after loading: joined with the qrels when there are any, cut
      to the queries with enough rows in training, then sorted. */
  function PrepareRun(loaded: seq<RunRow>, stage: Stage, sampleSize: int, merged: Option<seq<RunRow>>): seq<RunRow>
  {
    var joined := if merged.Some? then merged.value else loaded;
    var kept := if stage == Train then TrainFilter(joined, sampleSize) else joined;
    SortRun(kept)
  }

  /** The prepared run is sorted by `(query_id, rank)`, holds the joined
      rows that survive the training filter, and in training every query it
      holds has at least `sample_size` rows. */
  lemma PrepareRunSpec(loaded: seq<RunRow>, stage: Stage, sampleSize: int, merged: Option<seq<RunRow>>)
    ensures var joined := if merged.Some? then merged.value else loaded;
      var run := PrepareRun(loaded, stage, sampleSize, merged);
      && Sorted(run)
      && (forall x :: x in run <==> x in joined && (stage == Train ==> QueryCount(joined, x.queryId) >= sampleSize))
      && (stage == Train ==> forall x :: x in run ==> QueryCount(run, x.queryId) >= sampleSize)
      && (stage != Train ==> multiset(run) == multiset(joined))
  {
    var joined := if merged.Some? then merged.value else loaded;
    var kept := if stage == Train then TrainFilter(joined, sampleSize) else joined;
    var run := SortRun(kept);
    SortRunSpec(kept);
    forall x ensures x in run <==> x in kept {
      assert x in run <==> x in multiset(run);
      assert x in kept <==> x in multiset(kept);
    }
    if stage == Train {
      forall x | x in run ensures QueryCount(run, x.queryId) >= sampleSize {
        SortRunCount(kept, x.queryId);
        TrainFilterCounts(joined, sampleSize, x.queryId);
      }
    }
  }

  /** `id` is the document of a row of `g` with a positive relevance. */
  predicate RelevantIn(g: seq<RunRow>, id: string)
  {
    exists x :: x in g && IsRelevant(x) && x.docId == id
  }

  /** `id` is the document of a ranked row of `g` that is not relevant. */
  predicate NonRelevantIn(g: seq<RunRow>, id: string)
  {
    exists x :: x in g && IsNonRelevant(x) && x.docId == id
  }

  /** The document ids of a "single_relevant" sample: a relevant one of the
      group first, then non-relevant ranked ones. */
  lemma SampledDocIds(g: seq<RunRow>, sampleSize: int, rp: seq<nat>, np: seq<nat>, ids: seq<string>)
    requires SampleSingleRelevant(g, sampleSize, rp, np).Ok?
    requires ids == DocIdsOf(SampleSingleRelevant(g, sampleSize, rp, np).value)
    ensures var nonRelevant := Filter(g, IsNonRelevant);
      && |ids| == 1 + (if sampleSize - 1 < |nonRelevant| then sampleSize - 1 else |nonRelevant|)
      && RelevantIn(g, ids[0])
      && forall i :: 1 <= i < |ids| ==> NonRelevantIn(g, ids[i])
  {
    SingleRelevantShape(g, sampleSize, rp, np);
    SampledRowsDocIds(g, SampleSingleRelevant(g, sampleSize, rp, np).value, ids);
  }

  lemma SampledRowsDocIds(g: seq<RunRow>, rows: seq<RunRow>, ids: seq<string>)
    requires |rows| > 0 && rows[0] in g && IsRelevant(rows[0])
    requires forall k :: 1 <= k < |rows| ==> rows[k] in g && IsNonRelevant(rows[k])
    requires ids == DocIdsOf(rows)
    ensures |ids| == |rows|
    ensures RelevantIn(g, ids[0])
    ensures forall i :: 1 <= i < |ids| ==> NonRelevantIn(g, ids[i])
  {
    assert rows[0].docId == ids[0];
    forall i | 1 <= i < |ids| ensures NonRelevantIn(g, ids[i]) {
      assert rows[i].docId == ids[i];
    }
  }

  class RunDataset {
    const base: IRDataset
    const config: RunDatasetConfig
    const stage: Stage
    const run: seq<RunRow>
    const queryIds: seq<string>
    /** The qrels of each query of the run; None when there are none. */
    const qrelGroups: Option<map<string, seq<Qrel>>>

    constructor (base: IRDataset, config: RunDatasetConfig, stage: Stage, run: seq<RunRow>, qrelGroups: Option<map<string, seq<Qrel>>>)
      ensures this.base == base && this.config == config && this.stage == stage
      ensures this.run == run && this.qrelGroups == qrelGroups
      ensures queryIds == QueryIds(run)
    {
      this.base := base;
      this.config := config;
      this.stage := stage;
      this.run := run;
      this.qrelGroups := qrelGroups;
      this.queryIds := QueryIds(run);
    }

    /** `__len__`. */
    function Len(): nat
    {
      |queryIds|
    }

    /** The sample `__getitem__` builds, given what the `queries` and `docs`
        properties give and the random numbers the two draws use. */
    function Item(queries: Result<map<string, string>>, docs: Result<map<string, string>>, idx: int, relevantPicks: seq<nat>, nonRelevantPicks: seq<nat>): Result<RunSample>
    {
      match PyIndex(idx, |queryIds|)
      case None => Err(IndexError)
      case Some(k) =>
        var qid := queryIds[k];
        if queries.Err? then Err(queries.error)
        else if qid !in queries.value then Err(KeyError(qid))
        else match SampleGroup(Group(run, qid), config, relevantPicks, nonRelevantPicks)
          case Err(e) => Err(e)
          case Ok(rows) =>
            var docIds := DocIdsOf(rows);
            match LookupTexts(docs, docIds)
              case Err(e) => Err(e)
              case Ok(texts) =>
                var targets := if config.targets.None? then None
                  else Some(seq(|rows|, i requires 0 <= i < |rows| => TargetRow(rows[i], config.targets.value)));
                if qrelGroups.Some? && qid !in qrelGroups.value then Err(KeyError(qid))
                else Ok(RunSample(qid, queries.value[qid], docIds, texts, targets,
                  if qrelGroups.Some? then Some(qrelGroups.value[qid]) else None))
    }

    /** `__getitem__`: the query at position `idx`, its sampled documents,
        their targets and the query's qrels. Reading the two properties may
        fill their caches but never changes what they give. */
    method GetItem(idx: int, relevantPicks: seq<nat>, nonRelevantPicks: seq<nat>) returns (r: Result<RunSample>)
      modifies base
      ensures r == Item(old(base.QueriesValue()), old(base.DocsValue()), idx, relevantPicks, nonRelevantPicks)
      ensures base.QueriesValue() == old(base.QueriesValue()) && base.DocsValue() == old(base.DocsValue())
    {
      var k := PyIndex(idx, |queryIds|);
      if k.None? {
        return Err(IndexError);
      }
      var qid := queryIds[k.value];
      var queries := base.Queries();
      if queries.Err? {
        return Err(queries.error);
      }
      if qid !in queries.value {
        return Err(KeyError(qid));
      }
      var sampled := SampleGroup(Group(run, qid), config, relevantPicks, nonRelevantPicks);
      if sampled.Err? {
        return Err(sampled.error);
      }
      var rows := sampled.value;
      var docIds := DocIdsOf(rows);
      var docs := Ok(map[]);
      if |docIds| > 0 {
        docs := base.Docs();
      }
      var texts := LookupTexts(docs, docIds);
      if texts.Err? {
        return Err(texts.error);
      }
      var targets := if config.targets.None? then None
        else Some(seq(|rows|, i requires 0 <= i < |rows| => TargetRow(rows[i], config.targets.value)));
      if qrelGroups.Some? && qid !in qrelGroups.value {
        return Err(KeyError(qid));
      }
      r := Ok(RunSample(qid, queries.value[qid], docIds, texts.value, targets,
        if qrelGroups.Some? then Some(qrelGroups.value[qid]) else None));
    }

    /** An index outside `[-len, len)` raises `IndexError`, and nothing else
        does; a sample always belongs to one of the run's queries, with one
        text and one target row per document. */
    lemma ItemShape(queries: Result<map<string, string>>, docs: Result<map<string, string>>, idx: int, rp: seq<nat>, np: seq<nat>)
      requires queries.Err? ==> queries.error.ValueError?
      requires docs.Err? ==> docs.error.ValueError?
      ensures var r := Item(queries, docs, idx, rp, np);
        && ((r.Err? && r.error == IndexError) <==> !(-(Len() as int) <= idx < Len()))
        && (r.Ok? ==>
              && r.value.queryId in queryIds && r.value.queryId in queries.value
              && r.value.query == queries.value[r.value.queryId]
              && |r.value.docs| == |r.value.docIds|
              && (|r.value.docIds| > 0 ==> docs.Ok? && forall k :: 0 <= k < |r.value.docIds| ==>
                    r.value.docIds[k] in docs.value && r.value.docs[k] == docs.value[r.value.docIds[k]])
              && (r.value.targets.Some? ==> |r.value.targets.value| == |r.value.docIds|)
              && (r.value.targets.Some? <==> config.targets.Some?))
    {
      var k := PyIndex(idx, |queryIds|);
      if k.Some? {
        var qid := queryIds[k.value];
        if queries.Ok? && qid in queries.value {
          var sampled := SampleGroup(Group(run, qid), config, rp, np);
          if sampled.Err? {
            match config.samplingStrategy {
              case SingleRelevant => SingleRelevantFails(Group(run, qid), config.sampleSize, rp, np);
              case Top =>
              case UnknownStrategy(_) =>
            }
          }
        }
      }
    }

    /** A sample's documents are the rows sampled from its query's group. */
    lemma ItemSampled(queries: Result<map<string, string>>, docs: Result<map<string, string>>, idx: int, rp: seq<nat>, np: seq<nat>)
      requires Item(queries, docs, idx, rp, np).Ok?
      ensures var r := Item(queries, docs, idx, rp, np).value;
        var sampled := SampleGroup(Group(run, r.queryId), config, rp, np);
        && -(Len() as int) <= idx < Len()
        && r.queryId == queryIds[PyIndex(idx, |queryIds|).value]
        && sampled.Ok? && r.docIds == DocIdsOf(sampled.value)
    {
    }

    /** With "top" sampling, a sample holds the first `sample_size` rows of
        the query's group, which a sorted run keeps in rank order. */
    lemma ItemTop(queries: Result<map<string, string>>, docs: Result<map<string, string>>, idx: int, rp: seq<nat>, np: seq<nat>)
      requires config.samplingStrategy == Top && config.sampleSize >= 0
      requires Item(queries, docs, idx, rp, np).Ok?
      ensures var r := Item(queries, docs, idx, rp, np).value;
        var g := Group(run, r.queryId);
        && |r.docIds| == (if config.sampleSize < |g| then config.sampleSize else |g|)
        && forall i :: 0 <= i < |r.docIds| ==> r.docIds[i] == g[i].docId
    {
      ItemSampled(queries, docs, idx, rp, np);
      var r := Item(queries, docs, idx, rp, np).value;
      TopSample(Group(run, r.queryId), config, rp, np);
    }

    /** With "single_relevant" sampling, the first document of a sample is a
        relevant one of the query and the others are non-relevant ranked ones,
        `min(sample_size - 1, #non-relevant ranked rows)` of them. */
    lemma ItemSingleRelevant(queries: Result<map<string, string>>, docs: Result<map<string, string>>, idx: int, rp: seq<nat>, np: seq<nat>)
      requires config.samplingStrategy == SingleRelevant
      requires Item(queries, docs, idx, rp, np).Ok?
      ensures var r := Item(queries, docs, idx, rp, np).value;
        var g := Group(run, r.queryId);
        var nonRelevant := Filter(g, IsNonRelevant);
        && |r.docIds| == 1 + (if config.sampleSize - 1 < |nonRelevant| then config.sampleSize - 1 else |nonRelevant|)
        && RelevantIn(g, r.docIds[0])
        && forall i :: 1 <= i < |r.docIds| ==> NonRelevantIn(g, r.docIds[i])
    {
      ItemSampled(queries, docs, idx, rp, np);
      var r := Item(queries, docs, idx, rp, np).value;
      SampledDocIds(Group(run, r.queryId), config.sampleSize, rp, np, r.docIds);
    }

    /** A sampling strategy other than the two known ones raises
        `ValueError` for every valid index once the query is found. */
    lemma ItemUnknownStrategy(queries: Result<map<string, string>>, docs: Result<map<string, string>>, idx: int, rp: seq<nat>, np: seq<nat>)
      requires config.samplingStrategy.UnknownStrategy?
      requires -(Len() as int) <= idx < Len() && queries.Ok?
      requires queryIds[PyIndex(idx, |queryIds|).value] in queries.value
      ensures Item(queries, docs, idx, rp, np) == Err(ValueError("Invalid sampling strategy."))
    {
    }
  }

  /** `RunDataset(run_path, config, stage)`. `loadable` stands for the
      datasets the benchmark library can load, `reader` for the file
      readers, `qrelTable` for the dataset's judgements grouped by query and
      `merge` for the join of the run with them (outer when the documents
      come from the dataset, left when the run supplies them). */
  method Open(
    name: string, config: RunDatasetConfig, stage: Stage, registry: seq<string>,
    loadable: map<string, IrSource>, reader: RunFormat -> ParsedRun,
    qrelTable: map<string, seq<Qrel>>, merge: (seq<RunRow>, bool) -> seq<RunRow>)
    returns (r: Result<RunDataset>)
    ensures stage == Train && config.targets.None? ==> r.Err? && r.error.ValueError?
    ensures r.Err? ==> (stage == Train && config.targets.None?) || RunFormatOf(name).Err?
    ensures !(stage == Train && config.targets.None?) && RunFormatOf(name).Err? ==> r == Err(RunFormatOf(name).error)
    ensures r.Ok? ==>
      var ds := r.value;
      var loaded := DepthFilter(Rows(reader(RunFormatOf(name).value).rows), config.depth);
      var hasQrels := stage != Predict && ds.base.source.Some?;
      && fresh(ds) && fresh(ds.base)
      && ds.base.dataset == ResolveName(RunDatasetName(name), registry)
      && ds.config == config && ds.stage == stage
      && ds.qrelGroups == (if hasQrels then Some(qrelTable) else None)
      && ds.run == PrepareRun(loaded, stage, config.sampleSize,
           if hasQrels then Some(merge(loaded, !SuppliesDocs(name, reader))) else None)
      && ds.queryIds == QueryIds(ds.run)
  {
    var base := new IRDataset(RunDatasetName(name), registry, loadable);
    if stage == Train && config.targets.None? {
      return Err(ValueError("Targets are required for training."));
    }
    var loaded := LoadRun(base, name, config.depth, reader);
    if loaded.Err? {
      return Err(loaded.error);
    }
    var hasQrels := stage != Predict && base.source.Some?;
    var merged := if hasQrels then Some(merge(loaded.value, base.docsCache.None?)) else None;
    var run := PrepareRun(loaded.value, stage, config.sampleSize, merged);
    var ds := new RunDataset(base, config, stage, run, if hasQrels then Some(qrelTable) else None);
    r := Ok(ds);
  }
}
