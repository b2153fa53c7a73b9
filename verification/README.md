# lightning-ir: a Dafny model of the data, configuration and training utilities

This project models the core of lightning-ir, a library for training and using neural
retrieval models. It covers six components:

- **Dataset plumbing** (`lightning_ir/data/dataset.py`):
  - `DataParallelIterableDataset` splits a query or document stream among data-loader
    workers and processes.
  - `IRDataset` resolves a dashed dataset name and reads queries and documents lazily,
    caching them.
  - `RunDataset` turns a run file into sorted, filtered and sampled per-query training
    samples.
  - `TupleDataset` turns the doc-pairs of a dataset into training samples.
- **The doc-pairs reader** of `mvr/data.py`: `ScoredDocTuples.docpairs_iter` reads JSON
  or whitespace-separated lines. The module also has the `from_ir_dataset_sample`
  constructors.
- **The model configuration** (`lightning_ir/base/config.py`): default lengths, the
  dictionaries made from a configuration, and the `from_dict` rule choosing mixin and
  backbone types.
- **The warm-up schedulers** (`lightning_ir/lightning_utils/schedulers.py`): linear and
  constant learning-rate multipliers, with a delay and a warm-up, applied to named
  attributes of the module.
- **SPLADE checkpoint loading** (`lightning_ir/models/splade/model.py`): the choice of
  load route, and the renaming of state-dict keys from a naver checkpoint.
- **Index bookkeeping** (`lightning_ir/retrieve/indexer.py`): an `IndexConfig` saved as
  a tagged JSON object and loaded back, and the state an `Indexer` starts from and
  saves.

How the Python behaviour is represented:

- **Data frames** are sequences of row records.
- **Dictionaries** are maps. Where the order of a dictionary matters (SPLADE key
  renaming), the insertion order is an explicit sequence.
- **Outside services** are parameters: the benchmark library's datasets, file readers,
  JSON decoding, `float()` and the random draws of `pandas.sample`.
- **Objects whose attributes the source updates** are Dafny classes: `IRDataset` with
  its caches, `RunDataset`, `TupleDataset`, the scheduler and the indexer.
- **Loops** in the source are methods with loop invariants, each proved equal to a
  specification function.
- **Python exceptions** are the `Err` case of a `Result`, carrying the exception class.
- **Floats** are reals. Scores read from a JSON line keep their decoded value, unconverted.

Shared modules:

- `Common`: `Option`, `Result`, the error kinds, and `Yielded`, which is what a
  generator produced before it stopped or raised.
- `Strings`: `str` operations such as find, replace, split, join and whitespace split.
- `Paths`: `PurePath.suffix` and `.suffixes`.
- `Tables`: dictionary comprehensions, Python indexing and slicing, and filtering.

## Model

| member | source | states |
|---|---|---|
| ParallelData.LayoutRankInRange | lightning_ir/data/dataset.py:52-64 | The rank `process_rank * num_workers + worker_id` lies below `num_replicas`. Its remainder by `num_workers` is the worker id and its quotient is the process rank, so no two replicas share a rank. |
| ParallelData.NewParallelDataset | lightning_ir/data/dataset.py:63-74 | A query configuration reads the queries and a document configuration reads the documents. Any other configuration raises `ValueError`. Replica count and rank are the computed layout. |
| ParallelData.Len | lightning_ir/data/dataset.py:84-88 | `__len__` is the configured `num_queries`/`num_docs` when that is set and non-zero; otherwise it is the dataset's count. |
| ParallelData.IsliceStop | lightning_ir/data/dataset.py:91-94 | The `islice` stop is `None` for an unset or zero limit and the limit otherwise. `islice` raises `ValueError` for a negative stop or a step below 1. |
| ParallelData.PositionsMembership | lightning_ir/data/dataset.py:91-94 | `islice(it, start, stop, step)` visits exactly the positions `p` with `start <= p < stop` and `p - start` divisible by `step`. |
| ParallelData.ReplicasPartition | lightning_ir/data/dataset.py:91-94 | Every position below the bound is read by exactly one replica: the one whose rank is the position modulo `num_replicas`. |
| ParallelData.Positions | lightning_ir/data/dataset.py:91-94 | Every position a replica reads lies between its rank and the bound. |
| ParallelData.ConvertSlice | lightning_ir/data/dataset.py:93-94 | The loop over the strided slice converts exactly the records at the replica's positions, in order, and stops at the first that fails. |
| ParallelData.Iter | lightning_ir/data/dataset.py:90-95 | The generator yields the converted record at each of the replica's positions, in order, and stops at the first record that cannot be converted. |
| MvrData.QuerySampleFrom | mvr/data.py:121-123 | `QuerySample.from_ir_dataset_sample` takes fields 0 and 1. It fails on a record with fewer than two fields. |
| MvrData.DocSampleFrom | mvr/data.py:130-132 | `DocSample.from_ir_dataset_sample` takes field 0 and the record's default text. |
| MvrData.DocpairsFileType | mvr/data.py:28-34 | Suffix `.json` selects JSON lines and `.tsv`/`.run` select whitespace lines. Any other suffix raises `ValueError`. |
| MvrData.ParseTsvLine | mvr/data.py:44-48 | A line parses exactly when it splits into five words whose first two are numbers. The tuple is then `(qid, (pid1, pid2), (pos, neg), 2)`. |
| MvrData.TsvLineRoundTrip | mvr/data.py:44-48 | Writing five words separated by spaces and ending in a newline, then parsing the line, gives back the query id, the two doc ids and the two scores. |
| MvrData.ShortestLengthIsMin | mvr/data.py:41 | `zip(*doc_data)` is as long as the shortest entry: the length is at most every entry's length and equal to one of them. |
| MvrData.IterateAll | mvr/data.py:41 | `zip(*doc_data)` succeeds exactly when every entry is iterable, and it keeps each entry's elements. |
| MvrData.JsonLineShape | mvr/data.py:39-48 | A JSON line `[qid, [pid, score], ...]` gives the stringified pids in order and `num_docs` equal to the number of pids. Each score is passed on as decoded, whatever its type (a string, a boolean or null included). |
| MvrData.ParseLineWellShaped | mvr/data.py:38-48 | Every tuple the reader yields has as many doc ids as `num_docs`, and as many scores. |
| MvrData.ParseLinesPerLine | mvr/data.py:37-48 | The generator yields one tuple per line, in order, up to the first line that fails. That line's error ends the stream. |
| MvrData.ParseStream | mvr/data.py:37-48 | The `for line in f` loop yields exactly what the per-line parser makes of the lines, stopping at the first error. |
| MvrData.DocpairsIter | mvr/data.py:27-48 | An unknown file type raises before anything is yielded. Otherwise the loop yields exactly the parsed lines, and each is well shaped. JSON scores are yielded as decoded, TSV scores as floats. |
| IrData.DashedDatasetMapEntries | lightning_ir/data/dataset.py:16-18 | Every registered name has its dashed form as a key, and every key maps to a registered name whose dashed form is that key. |
| IrData.ResolveName | lightning_ir/data/dataset.py:117-120 | A name is replaced only by a registered dataset whose dashed form is that name. A dashed name is always replaced unless dashing leaves it unchanged. |
| IrData.QueryTextsLookup | lightning_ir/data/dataset.py:136-139 | In the query dictionary, the text of a query id is the text of its last record. |
| IrData.IRDataset.constructor | lightning_ir/data/dataset.py:117-126 | The resolved name is stored and the dataset is loaded when the library knows it (`None` otherwise). Both caches start empty. |
| IrData.IRDataset.Queries | lightning_ir/data/dataset.py:128-141 | The cached queries are returned when present. Without a dataset it raises `ValueError`. Otherwise the queries are read, cached and returned. Repeated calls give the same value. |
| IrData.IRDataset.Docs | lightning_ir/data/dataset.py:143-151 | The same caching rule applies to the document store. |
| IrData.IRDataset.DatasetId | lightning_ir/data/dataset.py:153-157 | The id is the stored name without a loaded dataset and the library's id with one. |
| IrData.DocTexts | lightning_ir/data/dataset.py:306 | The texts are one per doc id, in order, when every id is in the store. Otherwise the result is an error naming a missing id. |
| IrData.LookupTexts | lightning_ir/data/dataset.py:306 | No doc ids give no texts without touching the store. Otherwise the store's error is passed on, or there is one text per doc id. |
| RunData.StrippedName | lightning_ir/data/dataset.py:172 | `name[:-len(''.join(suffixes))]` is the name without its suffixes. When there are no suffixes it is the empty string, because of the `[:-0]` slice. |
| RunData.RunDatasetName | lightning_ir/data/dataset.py:172 | The dataset name is a tail of the stripped name that contains no `__`. When the stripped name contains `__`, that tail starts right after an occurrence of `__`, so it is the last `__`-separated segment. |
| RunData.RunDatasetNamePlain | lightning_ir/data/dataset.py:172 | A stripped name without `__` is the dataset name itself. |
| RunData.RunFormatByExtension | lightning_ir/data/dataset.py:213-260 | For `stem.ext`: `tsv`/`run`/`csv` read a whitespace table and `json` reads a JSON document. `jsonl` reads JSON records line by line. Any other extension raises `ValueError`. |
| RunData.DocIdsOf | lightning_ir/data/dataset.py:305 | The sample's doc ids are those of the sampled rows, in order. |
| RunData.Rows | lightning_ir/data/dataset.py:245-258 | The parsed rows lose their query and text columns and keep everything else, in order. |
| RunData.LoadRun | lightning_ir/data/dataset.py:212-263 | An unreadable format raises and changes nothing. A JSON run that carries query or document texts fills the dataset's caches with them. The rows returned are the file's rows cut at the depth. |
| RunRows.DepthFilter | lightning_ir/data/dataset.py:261-262 | Depth `-1` keeps every row. Any other depth keeps exactly the rows whose rank is at most the depth. |
| RunRows.TrainFilter | lightning_ir/data/dataset.py:195-197 | Exactly the rows whose query has at least `sample_size` rows are kept. |
| RunRows.TrainFilterCounts | lightning_ir/data/dataset.py:195-197 | After the filter a query keeps all its rows or none of them. |
| RunRows.RowLeTotal | lightning_ir/data/dataset.py:199 | The `(query_id, rank)` order, with a missing rank last, is total. |
| RunRows.RowLeTrans | lightning_ir/data/dataset.py:199 | The same order is transitive. |
| RunRows.InsertSorted | lightning_ir/data/dataset.py:199 | Inserting a row into a sorted run keeps it sorted and adds exactly that row. |
| RunRows.SortRunSpec | lightning_ir/data/dataset.py:199 | `sort_values(["query_id", "rank"])` gives a sorted permutation of the rows. |
| RunRows.SortRunCount | lightning_ir/data/dataset.py:199 | Sorting keeps each query's number of rows. |
| RunRows.QueryIdsMembers | lightning_ir/data/dataset.py:200-201 | The query ids are exactly the queries of the run, and the first one is the first row's. |
| RunRows.QueryIdsIncreasing | lightning_ir/data/dataset.py:200-201 | For a sorted run the query ids strictly increase, so each appears once. |
| RunRows.QueryIdsCount | lightning_ir/data/dataset.py:281-282 | `__len__` is the number of distinct queries in the run. |
| RunRows.Group | lightning_ir/data/dataset.py:286 | A query's group holds exactly the run's rows of that query. |
| RunRows.GroupByRank | lightning_ir/data/dataset.py:199-200 | In a sorted run, a query's group is in rank order. |
| RunRows.MaxRelevanceIsMax | lightning_ir/data/dataset.py:290-293 | The row-wise maximum over the relevance columns skips NaN. It is NaN only when every column is NaN, and otherwise it is a column's value that is at least every other value. |
| RunRows.DrawRows | lightning_ir/data/dataset.py:289-291 | A draw takes `n` distinct rows of the frame. |
| RunRows.PandasSample | lightning_ir/data/dataset.py:296-298 | `sample(n)` gives `n` distinct rows when `0 <= n <= len`. Otherwise it raises `ValueError`. |
| RunRows.TopSample | lightning_ir/data/dataset.py:300-301 | "top" takes the first `sample_size` rows of the group, or all of them when there are fewer. |
| RunRows.SingleRelevantFails | lightning_ir/data/dataset.py:288-299 | "single_relevant" raises `ValueError` exactly when the group has no relevant row or `sample_size` is below 1. |
| RunRows.SingleRelevantShape | lightning_ir/data/dataset.py:288-299 | The sample is one relevant row, then `min(sample_size - 1, #non-relevant ranked)` distinct non-relevant ranked rows of the group. |
| RunRows.TargetRow | lightning_ir/data/dataset.py:308-316 | "relevance" gives the relevance columns. "subtopic_relevance" gives no column. "rank" and "score" give that value. NaN becomes 0. |
| RunData.PrepareRunSpec | lightning_ir/data/dataset.py:185-201 | The prepared run is sorted and holds the joined rows that survive the training filter. In training every query has at least `sample_size` rows, and outside training the rows are a permutation of the joined ones. |
| RunData.SampledDocIds | lightning_ir/data/dataset.py:288-299 | The doc ids of a "single_relevant" sample start with a relevant document, followed by the right number of non-relevant ranked ones. |
| RunData.RunDataset.constructor | lightning_ir/data/dataset.py:176-201 | The query ids are those of the stored run. |
| RunData.RunDataset.GetItem | lightning_ir/data/dataset.py:284-327 | `__getitem__` gives the sample the item specification defines, reading the queries and documents through the caches. |
| RunData.RunDataset.ItemShape | lightning_ir/data/dataset.py:284-327 | An index outside `[-len, len)` raises `IndexError`, and nothing else does. A sample has its query's text, one text per doc id, and one target row per document exactly when targets are configured. |
| RunData.RunDataset.ItemSampled | lightning_ir/data/dataset.py:285-305 | A sample's query is the one at the Python index, and its doc ids are the sampled rows of that query's group. |
| RunData.RunDataset.ItemTop | lightning_ir/data/dataset.py:300-305 | With "top", the doc ids are the first `sample_size` documents of the query in rank order. |
| RunData.RunDataset.ItemSingleRelevant | lightning_ir/data/dataset.py:288-305 | With "single_relevant", the first document is relevant and the rest are non-relevant ranked documents of the query. |
| RunData.RunDataset.ItemUnknownStrategy | lightning_ir/data/dataset.py:302-303 | Any other strategy raises `ValueError("Invalid sampling strategy.")`. |
| RunData.Open | lightning_ir/data/dataset.py:165-201 | Training without targets raises `ValueError`, and an unreadable run raises its error. Nothing else fails. A dataset that opens holds the resolved name, the prepared run and the qrels when the stage and dataset have them. |
| TupleData.SliceOpt | lightning_ir/data/dataset.py:359 | `xs[:n]` is a prefix of `xs`, and the whole of it for `None`. |
| TupleData.SliceOptSameLength | lightning_ir/data/dataset.py:359-366 | Cutting two sequences of equal length with the same `n` gives equal lengths. |
| TupleData.ParseDocPair | lightning_ir/data/dataset.py:352-357 | For a plain pair, "score" targets raise `ValueError`, "order" targets give `(1.0, 0.0)` and no targets give none. The doc ids are the pair. |
| TupleData.ParseScored | lightning_ir/data/dataset.py:358-368 | A scored tuple keeps its first `num_docs` doc ids, and its scores become the targets under "score". Any other sample type raises. |
| TupleData.DefaultTargetsAsWritten | lightning_ir/data/dataset.py:364 | As written, the default targets are one 1.0 followed by `num_docs` 0.0s, one more entry than there are documents. |
| TupleData.DefaultTargets | lightning_ir/data/dataset.py:364 | The intended default targets, the corrected half of the Findings row: one 1.0, then 0.0s, one target per document. The model's `__iter__` uses the as-written ones. |
| TupleData.TargetsAlignWithDocIds | lightning_ir/data/dataset.py:358-366 | With the intended default targets, a well-shaped tuple gets one target per kept doc id, whatever the `num_docs` limit. |
| TupleData.AsWrittenTargetsOneMore | lightning_ir/data/dataset.py:358-366 | As written, a well-shaped tuple that gets the default targets without a `num_docs` limit has one target more than doc ids. |
| TupleData.AsWrittenTargetsTooLong | lightning_ir/data/dataset.py:364-366 | As written, a two-document tuple gets three "order" targets (see Findings). |
| TupleData.IterSamplesComplete | lightning_ir/data/dataset.py:372-379 | Each yielded sample belongs to its pair's query, carries that query's text and has one text per doc id. |
| TupleData.TupleDataset.constructor | lightning_ir/data/dataset.py:340-342 | The dataset, configuration and stage are stored. |
| TupleData.TupleDataset.NextSample | lightning_ir/data/dataset.py:373-379 | One turn of `__iter__` gives the specified sample for the pair, with the default targets as written. |
| TupleData.TupleDataset.Iter | lightning_ir/data/dataset.py:372-379 | The generator yields exactly the specified samples, with the default targets as written, stopping at the first error. |
| TupleData.Open | lightning_ir/data/dataset.py:330-346 | An unknown dataset (no queries) or a stage other than train/validate raises `ValueError`, and nothing else fails. A dataset that opens has its queries cached. |
| Config.NewConfig | lightning_ir/base/config.py:25-35 | The lengths default to 32 and 512, and the parent's other attributes are kept. |
| Config.ToAddedArgsDict | lightning_ir/base/config.py:37-43 | The result holds exactly the added arguments the instance has, with their values. |
| Config.ToTokenizerDict | lightning_ir/base/config.py:45-51 | The result holds both tokenizer arguments. A missing one raises `AttributeError` naming it. |
| Config.ToDict | lightning_ir/base/config.py:53-65 | The result is the parent's `to_dict` when there is one. Otherwise it is exactly the added arguments the instance has, each with its attribute value. |
| Config.NewConfigDicts | lightning_ir/base/config.py:25-65 | A new configuration gives its two lengths to the tokenizer. Without a parent `to_dict`, `to_dict` gives the same dictionary. |
| Config.AddedArgsAreTokenizerArgs | lightning_ir/base/config.py:20-22 | The added-arguments dictionary equals the tokenizer dictionary. |
| Config.ConfigFor | lightning_ir/base/config.py:91-92 | `CONFIG_MAPPING[t]` gives the configuration of a known type and `KeyError` otherwise. |
| Config.FromDictMismatch | lightning_ir/base/config.py:81-87 | With a backbone entry, a model type other than the class's raises `ValueError`, except on the base class. |
| Config.FromDictWithoutBackbone | lightning_ir/base/config.py:88-94 | Without a backbone entry, the stored model type is the backbone and the class's type is the mixin. |
| Config.FromDictWithBackbone | lightning_ir/base/config.py:81-94 | With a backbone entry, the stored types are the mixin and the backbone. |
| Config.FromDictDelegates | lightning_ir/base/config.py:80-95 | A class outside the gate hands the dictionary to its parent. |
| Config.FromDictUnknownType | lightning_ir/base/config.py:81-92 | A missing `model_type` raises `KeyError`. So does an unknown mixin or backbone type, with or without a backbone entry. |
| Schedulers.LrLambda | lightning_ir/lightning_utils/schedulers.py:62-83 | The corrected multiplier, the corrected half of the Findings row, is 0 through the delay and always lies in `[0, 1]`. The scheduler class uses the as-written one. |
| Schedulers.AsWrittenNegativeAtDelay | lightning_ir/lightning_utils/schedulers.py:63-67 | As written, the multiplier at step `num_delay_steps` is `-1/max(1, W)`, which is negative (see Findings). |
| Schedulers.CorrectedAgrees | lightning_ir/lightning_utils/schedulers.py:62-83 | The corrected multiplier equals the written one at every step except `num_delay_steps`. |
| Schedulers.ZeroDuringDelay | lightning_ir/lightning_utils/schedulers.py:63-64 | Before the delay ends the multiplier is 0. |
| Schedulers.WarmupRamp | lightning_ir/lightning_utils/schedulers.py:65-67 | During the warm-up the multiplier is `(step - delay - 1) / max(1, W)`. |
| Schedulers.ConstantAfterWarmup | lightning_ir/lightning_utils/schedulers.py:83 | After the warm-up the constant schedule gives 1. |
| Schedulers.LinearAfterWarmup | lightning_ir/lightning_utils/schedulers.py:68-72 | After the warm-up the linear schedule gives `max(0, (T - s) / max(1, T - W))`. |
| Schedulers.RecordBasesAll | lightning_ir/lightning_utils/schedulers.py:47-49 | Recording succeeds exactly when every key names an attribute, and it records each key's value. A failure names a missing key, and values not among the keys are kept. |
| Schedulers.WarmupScheduler.constructor | lightning_ir/lightning_utils/schedulers.py:11-23 | The configured steps are stored and no values are recorded. |
| Schedulers.WarmupScheduler.Lr | lightning_ir/lightning_utils/schedulers.py:62-83 | The scheduler's multiplier, as written, lies in `[0, 1]` at every step except `num_delay_steps`. At that step it is `-1/max(1, W)`, which is negative. |
| Schedulers.WarmupScheduler.Step | lightning_ir/lightning_utils/schedulers.py:28-30 | `step` succeeds exactly for a recorded key, and raises `KeyError` for any other key. Away from `num_delay_steps`, the scheduled value of a non-negative base is never negative and never exceeds the base. At `num_delay_steps`, a positive base is scheduled below zero. |
| Schedulers.WarmupScheduler.OnTrainStart | lightning_ir/lightning_utils/schedulers.py:44-49 | `-1` training steps become the estimate and any other number is kept. The base value of every key is recorded, stopping at the first missing attribute. |
| Schedulers.WarmupScheduler.ScheduledSets | lightning_ir/lightning_utils/schedulers.py:55-58 | Setting succeeds exactly when every key was recorded. Each key's attribute then holds its scheduled value, and the other attributes are unchanged. |
| Schedulers.WarmupScheduler.OnTrainBatchStart | lightning_ir/lightning_utils/schedulers.py:51-58 | At `global_step + 1`, each key's attribute is set to its scheduled value. |
| Schedulers.WarmupScheduler.NegativeAtDelayBatch | lightning_ir/lightning_utils/schedulers.py:54-58 | The batch with `global_step + 1 == num_delay_steps` sets every key with a positive base value to a negative value. |
| Splade.FromPretrainedRoute | lightning_ir/models/splade/model.py:50-52 | A name containing "naver" takes the naver-checkpoint route, and any other name the ordinary one. |
| Splade.ProjectionFor | lightning_ir/models/splade/model.py:43-44 | The MLM head is used exactly when the configured projection is "mlm". |
| Splade.RewriteBertKey | lightning_ir/models/splade/model.py:72-73 | `bert.<rest>` becomes `<rest>`. |
| Splade.RewritePlainKey | lightning_ir/models/splade/model.py:74-78 | A key with neither the prefix nor the replaced patterns keeps its name. |
| Splade.Unpopped | lightning_ir/models/splade/model.py:69-71 | The snapshot of keys is the insertion order without the two popped keys, and it holds no duplicates. |
| Splade.RewriteStep | lightning_ir/models/splade/model.py:71-78 | One turn of the loop pops the key and stores its value under the new name. |
| Splade.RewriteCheckpoint | lightning_ir/models/splade/model.py:68-78 | The two pops, the key snapshot and the in-place rename loop give the specified state dict. |
| Splade.RewriteFromKeys | lightning_ir/models/splade/model.py:71-78 | After the loop, every key is one the loop did not visit or the new name of one it did. |
| Splade.RewrittenKeys | lightning_ir/models/splade/model.py:69-78 | Every key of the result is the new name of a key of the checkpoint. The popped keys are gone unless a renamed key lands on them. |
| Splade.NoCollisionsTail | lightning_ir/models/splade/model.py:71-78 | The no-collision condition holds for every suffix of the snapshot. |
| Splade.RewriteFromExact | lightning_ir/models/splade/model.py:71-78 | Without collisions each visited key's value ends up under its new name, and nothing else is left. |
| Splade.RewriteWithoutCollisions | lightning_ir/models/splade/model.py:69-78 | Without collisions the result's keys are exactly the new names, and each holds the value of the key it was renamed from. |
| Splade.SnapshotRenamesOnce | lightning_ir/models/splade/model.py:71-73 | Because the loop walks a snapshot, any key `bert.bert.` + rest is renamed once to `bert.` + rest and not again. |
| Indexing.Construct | lightning_ir/retrieve/indexer.py:45-48 | `cls(**kwargs)` accepts exactly the declared parameters, with defaults for the rest, and raises `TypeError` otherwise. |
| Indexing.SavedConfig | lightning_ir/retrieve/indexer.py:65-67 | The saved object is the attributes plus `index_dir` and `index_type`. |
| Indexing.SaveConfig | lightning_ir/retrieve/indexer.py:62-68 | `save` writes exactly the saved object, taken from a copy. |
| Indexing.Loaded | lightning_ir/retrieve/indexer.py:50-60 | A missing `index_type` raises `KeyError` and another class's `index_type` raises `ValueError`. Otherwise the instance is built from the rest. |
| Indexing.FromPretrained | lightning_ir/retrieve/indexer.py:50-60 | The check, the two pops and the construction give the loaded result. |
| Indexing.SaveLoadRoundTrip | lightning_ir/retrieve/indexer.py:50-68 | Loading what was saved, with the saving class, gives the instance back. |
| Indexing.BaseRoundTrip | lightning_ir/retrieve/indexer.py:45-68 | Every `IndexConfig` instance survives a save and a load. |
| Indexing.LoadOtherClass | lightning_ir/retrieve/indexer.py:54-57 | Loading with a different class raises `ValueError`. |
| Indexing.Indexer.constructor | lightning_ir/retrieve/indexer.py:16-30 | A new indexer holds no documents, embeddings or lengths. |
| Indexing.Indexer.Add | lightning_ir/retrieve/indexer.py:32-33 | `add` always raises `NotImplementedError`. |
| Indexing.Indexer.Save | lightning_ir/retrieve/indexer.py:35-39 | `save` writes the tagged configuration, the doc ids joined by newlines, and the lengths. |
| Indexing.DocIdsFileRoundTrip | lightning_ir/retrieve/indexer.py:37 | Splitting the text of `doc_ids.txt` with `split("\n")` gives back the doc ids, when there is at least one and none holds a newline. |

## Left out

- Pandas mechanics (column dtypes, `groupby` objects, index alignment) are not
  modelled. A frame is a sequence of row records and a group is the run filtered by
  query id.
- The qrels reshaping of `load_qrels` (dataset.py:265-279) and the merge of the run
  with the qrels (185-192) are parameters of `RunData.Open`. The model keeps only the
  join's `how` choice, which depends on whether the run supplied documents.
- Loading datasets from the benchmark library is a map of loadable datasets. The
  registry of names is a sequence parameter.
- `docs_dataset_id` is not modelled: it calls into the benchmark library.
- File I/O, JSON encoding and decoding, `float()` parsing, `torch.tensor`,
  `torch.save` and `hf_hub_download` are not modelled. Files are values, and parsers
  are function parameters.
- Floats are reals, so rounding and NaN arithmetic are not modelled. A missing value is
  `None`.
- The depth and sample-size warnings (dataset.py:203-210) are left out, because they
  only print.
- Missing query or text values inside a JSON run are not modelled. Every parsed row
  carries its columns or none of them.
- The `.loc[list(doc_ids)]` lookup with duplicate doc ids in one group is not
  modelled. The model gives one target row per sampled row.
- IrData.DocTexts: a missing document gives `KeyError`. For a docs dictionary
  supplied by the run, the source calls `.default_text()` on `None` and raises
  `AttributeError` instead.
- The randomness of `pandas.sample` is a sequence of picks supplied by the caller.
- `get_value`/`set_value` (schedulers.py:32-42) walk attributes and indices by dotted
  path. The module's attributes are a map keyed by the full key instead.
- `trainer.estimated_stepping_batches` and `trainer.global_step` are inputs.
- Schedulers.WarmupScheduler.OnTrainBatchStart: setting an attribute never fails in
  the model, while `setattr` on a missing intermediate object raises in the source.
- Indexing.Loaded: the `ValueError` message keeps only its first part. The
  `got <index_type>` tail is dropped.
- The class factories (`LightningIRConfigClassFactory`, `CONFIG_MAPPING`,
  `MODEL_MAPPING`) and the recursive `from_dict` on the derived class are not
  modelled. `Config.FromDict` returns which mixin and backbone it would combine.
- Model building is not modelled: `MLMHead`, `AutoConfig`, `load_state_dict` and the
  final `model.load_state_dict`. The SPLADE state dict maps key names to opaque
  tensor values.
- `bi_encoder_config` of the indexer and the batch arguments of `add` are left out,
  because no modelled behaviour depends on them.
- The `register_*` functions of mvr/data.py (54-105) are left out: they register
  datasets with the benchmark library's global registry.
- Splade.RewrittenKeys: the popped keys are stated to be absent only when no renamed
  key lands on them, since a renamed key can recreate them.
- MvrData.PyRepr: `str()` of a list or dict always quotes strings with single quotes and escapes nothing. Python switches to double quotes for a string holding `'` and escapes backslashes and control characters, so a non-string qid or pid holding such characters is rendered differently.
- Path semantics follow CPython before 3.13. Later versions treat a trailing-dot name
  differently.

## Findings

| source | as written | input that shows it | evidently intended | confidence | as-written member | corrected member |
|---|---|---|---|---|---|---|
| lightning_ir/lightning_utils/schedulers.py:63-67 | Steps below `num_delay_steps` give 0, then the step is shifted by `num_delay_steps + 1`, so at step `num_delay_steps` the multiplier is `-1 / max(1, num_warmup_steps)` | `num_delay_steps = 5`, `num_warmup_steps = 10`, step 5: multiplier `-0.1` | The multiplier stays 0 through step `num_delay_steps` and never goes negative | not executed | Schedulers.AsWrittenNegativeAtDelay | Schedulers.LrLambda |
| lightning_ir/data/dataset.py:364-366 | Default targets of a scored tuple are `[1.0] + [0.0] * num_docs`, one more than its documents | A TSV doc-pairs line (two documents), "order" targets, `num_docs = None`: two doc ids, three targets | One target per document: `[1.0] + [0.0] * (num_docs - 1)` | not executed | TupleData.AsWrittenTargetsTooLong | TupleData.TargetsAlignWithDocIds |
