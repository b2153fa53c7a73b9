/** `IRDataset` of lightning_ir/data/dataset.py: a dataset of the benchmark
    library named by a (possibly dashed) name, with its queries and documents
    read on first access and kept. */
module IrData {
  import opened Common
  import opened Strings
  import opened Tables

  /** A query record: its id and its `default_text()`. */
  datatype QueryRecord = QueryRecord(queryId: string, text: string)

  /** What the benchmark library holds for one dataset it can load: its id,
      the records `queries_iter()` yields and the document store (doc id to
      the document's default text). */
  datatype IrSource = IrSource(datasetId: string, queries: seq<QueryRecord>, docs: map<string, string>)

  /** A registered dataset name with its slashes turned into dashes. */
  function Dashed(name: string): string
  {
    ReplaceAll(name, "/", "-")
  }

  /** `DASHED_DATASET_MAP`: dashed name to registered name, for every
      registered dataset in registration order (a later name wins a clash). */
  function DashedDatasetMap(registry: seq<string>): map<string, string>
  {
    LastWins(seq(|registry|, k requires 0 <= k < |registry| => (Dashed(registry[k]), registry[k])))
  }

  /** Every registered name can be looked up by its dashed form, and every
      entry of the map leads back to a registered name with that dashed form. */
  lemma DashedDatasetMapEntries(registry: seq<string>)
    ensures forall k :: 0 <= k < |registry| ==> Dashed(registry[k]) in DashedDatasetMap(registry)
    ensures forall d :: d in DashedDatasetMap(registry) ==>
      DashedDatasetMap(registry)[d] in registry && Dashed(DashedDatasetMap(registry)[d]) == d
  {
    var pairs := seq(|registry|, k requires 0 <= k < |registry| => (Dashed(registry[k]), registry[k]));
    var m := DashedDatasetMap(registry);
    forall k | 0 <= k < |registry| ensures Dashed(registry[k]) in m {
      assert pairs[k].0 == Dashed(registry[k]);
    }
    forall d | d in m ensures m[d] in registry && Dashed(m[d]) == d {
      var i :| 0 <= i < |pairs| && pairs[i].0 == d;
      var j := LastWithKey(pairs, i);
      LastWinsAt(pairs, j);
    }
  }

  /** The name the dataset is loaded under: a dashed name is replaced by the
      registered name it stands for. */
  function ResolveName(name: string, registry: seq<string>): (r: string)
    ensures r == name || (r in registry && Dashed(r) == name)
    ensures name in DashedDatasetMap(registry) ==> r != name || Dashed(name) == name
  {
    DashedDatasetMapEntries(registry);
    var m := DashedDatasetMap(registry);
    if name in m then m[name] else name
  }

  /** The query texts keyed by id, as the dict comprehension over
      `queries_iter()` builds them (a later record wins). */
  function QueryTexts(queries: seq<QueryRecord>): map<string, string>
  {
    LastWins(seq(|queries|, k requires 0 <= k < |queries| => (queries[k].queryId, queries[k].text)))
  }

  lemma QueryTextsLookup(queries: seq<QueryRecord>, i: nat)
    requires i < |queries|
    requires forall j :: i < j < |queries| ==> queries[j].queryId != queries[i].queryId
    ensures queries[i].queryId in QueryTexts(queries)
    ensures QueryTexts(queries)[queries[i].queryId] == queries[i].text
  {
    var pairs := seq(|queries|, k requires 0 <= k < |queries| => (queries[k].queryId, queries[k].text));
    LastWinsAt(pairs, i);
  }

  class IRDataset {
    /** The resolved dataset name. */
    const dataset: string
    /** The loaded dataset; None when loading raised `KeyError`. */
    const source: Option<IrSource>
    var queriesCache: Option<map<string, string>>
    var docsCache: Option<map<string, string>>

    /** `loadable` stands for the library's `load`: the datasets it knows. */
    constructor (name: string, registry: seq<string>, loadable: map<string, IrSource>)
      ensures dataset == ResolveName(name, registry)
      ensures source == if dataset in loadable then Some(loadable[dataset]) else None
      ensures queriesCache == None && docsCache == None
    {
      var resolved := ResolveName(name, registry);
      dataset := resolved;
      source := if resolved in loadable then Some(loadable[resolved]) else None;
      queriesCache := None;
      docsCache := None;
    }

    /** What reading the `queries` property gives in the current state. */
    function QueriesValue(): Result<map<string, string>>
      reads this
    {
      if queriesCache.Some? then Ok(queriesCache.value)
      else if source.None? then Err(ValueError("Unable to find dataset " + dataset + " in ir-datasets"))
      else Ok(QueryTexts(source.value.queries))
    }

    /** What reading the `docs` property gives in the current state. */
    function DocsValue(): Result<map<string, string>>
      reads this
    {
      if docsCache.Some? then Ok(docsCache.value)
      else if source.None? then Err(ValueError("Unable to find dataset " + dataset + " in ir-datasets"))
      else Ok(source.value.docs)
    }

    /** The `queries` property: read once from the loaded dataset, then kept. */
    method Queries() returns (r: Result<map<string, string>>)
      modifies this`queriesCache
      ensures old(queriesCache).Some? ==> r == Ok(old(queriesCache).value) && queriesCache == old(queriesCache)
      ensures old(queriesCache).None? && source.None? ==> r.Err? && r.error.ValueError? && queriesCache == None
      ensures old(queriesCache).None? && source.Some? ==>
        r == Ok(QueryTexts(source.value.queries)) && queriesCache == Some(r.value)
      ensures r == old(QueriesValue()) && QueriesValue() == old(QueriesValue())
    {
      if queriesCache.None? {
        if source.None? {
          return Err(ValueError("Unable to find dataset " + dataset + " in ir-datasets"));
        }
        queriesCache := Some(QueryTexts(source.value.queries));
      }
      r := Ok(queriesCache.value);
    }

    /** The `docs` property: the document store, fetched once, then kept. */
    method Docs() returns (r: Result<map<string, string>>)
      modifies this`docsCache
      ensures old(docsCache).Some? ==> r == Ok(old(docsCache).value) && docsCache == old(docsCache)
      ensures old(docsCache).None? && source.None? ==> r.Err? && r.error.ValueError? && docsCache == None
      ensures old(docsCache).None? && source.Some? ==> r == Ok(source.value.docs) && docsCache == Some(r.value)
      ensures r == old(DocsValue()) && DocsValue() == old(DocsValue())
    {
      if docsCache.None? {
        if source.None? {
          return Err(ValueError("Unable to find dataset " + dataset + " in ir-datasets"));
        }
        docsCache := Some(source.value.docs);
      }
      r := Ok(docsCache.value);
    }

    /** The `dataset_id` property. */
    function DatasetId(): (id: string)
      ensures source.None? ==> id == dataset
      ensures source.Some? ==> id == source.value.datasetId
    {
      if source.None? then dataset else source.value.datasetId
    }
  }

  /** The default texts of the given documents, in order; the first id the
      store lacks raises `KeyError`. */
  function DocTexts(docs: map<string, string>, ids: seq<string>): (r: Result<seq<string>>)
    ensures r.Ok? <==> forall k :: 0 <= k < |ids| ==> ids[k] in docs
    ensures r.Ok? ==> |r.value| == |ids| && forall k :: 0 <= k < |ids| ==> r.value[k] == docs[ids[k]]
    ensures r.Err? ==> r.error.KeyError? && r.error.key in ids && r.error.key !in docs
  {
    if |ids| == 0 then Ok([])
    else if ids[0] !in docs then Err(KeyError(ids[0]))
    else
      var rest := DocTexts(docs, ids[1..]);
      assert forall k :: 1 <= k < |ids| ==> ids[k] == ids[1..][k - 1];
      if rest.Err? then rest else Ok([docs[ids[0]]] + rest.value)
  }

  /** The texts a generator over the doc ids gives: the `docs` property is
      only read once there is a first id, so no ids never fail. */
  function LookupTexts(docs: Result<map<string, string>>, ids: seq<string>): (r: Result<seq<string>>)
    ensures |ids| == 0 ==> r == Ok([])
    ensures |ids| > 0 && docs.Err? ==> r == Err(docs.error)
    ensures r.Ok? ==> |r.value| == |ids|
    ensures r.Ok? && |ids| > 0 ==> docs.Ok? && forall k :: 0 <= k < |ids| ==> ids[k] in docs.value && r.value[k] == docs.value[ids[k]]
  {
    if |ids| == 0 then Ok([])
    else if docs.Err? then Err(docs.error)
    else DocTexts(docs.value, ids)
  }
}
