/** The index bookkeeping of lightning_ir/retrieve/indexer.py: an
    `IndexConfig` stored as a JSON object tagged with its class name and
    directory and loaded back from it, and the state a fresh `Indexer`
    starts from and saves. A JSON object is a map from key to value; the
    files an indexer writes are returned as values. */
module Indexing {
  import opened Common
  import opened Strings

  const IndexTypeKey := "index_type"
  const IndexDirKey := "index_dir"

  /** An `IndexConfig` class: its name and the keyword parameters of its
      `__init__` with their defaults. Each parameter is stored as the
      attribute of the same name, as `IndexConfig.__init__` does. */
  datatype IndexConfigClass = IndexConfigClass(name: string, params: map<string, Value>)

  /** `IndexConfig` itself: one parameter, `similarity_function`, which
      defaults to `None`. */
  const BaseIndexConfig := IndexConfigClass("IndexConfig", map["similarity_function" := VNone])

  /** An `IndexConfig` instance: the name of its class and its `__dict__`. */
  datatype IndexConfig = IndexConfig(className: string, fields: map<string, Value>)

  /** `cls(**kwargs)`: an unknown keyword raises `TypeError`; each
      parameter takes its keyword's value or its default. */
  function Construct(cls: IndexConfigClass, kwargs: map<string, Value>): (r: Result<IndexConfig>)
    ensures r.Ok? <==> kwargs.Keys <= cls.params.Keys
    ensures r.Err? ==> r.error.TypeError?
    ensures r.Ok? ==>
      && r.value.className == cls.name
      && r.value.fields.Keys == cls.params.Keys
      && (forall k :: k in kwargs ==> r.value.fields[k] == kwargs[k])
      && (forall k :: k in cls.params && k !in kwargs ==> r.value.fields[k] == cls.params[k])
  {
    if kwargs.Keys <= cls.params.Keys then Ok(IndexConfig(cls.name, cls.params + kwargs))
    else Err(TypeError(cls.name + ".__init__() got an unexpected keyword argument"))
  }

  /** The JSON object `save` writes: the instance's attributes with the
      directory and the class name added, overriding attributes of those
      names. */
  function SavedConfig(config: IndexConfig, indexDir: string): (data: map<string, Value>)
    ensures data.Keys == config.fields.Keys + {IndexDirKey, IndexTypeKey}
    ensures data[IndexDirKey] == VStr(indexDir) && data[IndexTypeKey] == VStr(config.className)
    ensures forall k :: k in config.fields && k != IndexDirKey && k != IndexTypeKey ==> data[k] == config.fields[k]
  {
    config.fields[IndexDirKey := VStr(indexDir)][IndexTypeKey := VStr(config.className)]
  }

  /** `IndexConfig.save`: the attributes are copied before the two entries
      are added, so the instance itself is not touched. */
  method SaveConfig(config: IndexConfig, indexDir: string) returns (data: map<string, Value>)
    ensures data == SavedConfig(config, indexDir)
  {
    data := config.fields;
    data := data[IndexDirKey := VStr(indexDir)];
    data := data[IndexTypeKey := VStr(config.className)];
  }

  /** What `from_pretrained` on `cls` makes of a stored JSON object. */
  function Loaded(cls: IndexConfigClass, stored: map<string, Value>): (r: Result<IndexConfig>)
    ensures IndexTypeKey !in stored ==> r == Err(KeyError(IndexTypeKey))
    ensures IndexTypeKey in stored && stored[IndexTypeKey] != VStr(cls.name) ==> r.Err? && r.error.ValueError?
    ensures IndexTypeKey in stored && stored[IndexTypeKey] == VStr(cls.name) ==>
      r == Construct(cls, stored - {IndexTypeKey, IndexDirKey})
  {
    if IndexTypeKey !in stored then Err(KeyError(IndexTypeKey))
    else if stored[IndexTypeKey] != VStr(cls.name) then Err(ValueError("Expected index_type " + cls.name))
    else Construct(cls, stored - {IndexTypeKey, IndexDirKey})
  }

  /** `IndexConfig.from_pretrained`: check the stored class name, pop the
      two added entries and build the instance from the rest. */
  method FromPretrained(cls: IndexConfigClass, stored: map<string, Value>) returns (r: Result<IndexConfig>)
    ensures r == Loaded(cls, stored)
  {
    var data := stored;
    if IndexTypeKey !in data {
      return Err(KeyError(IndexTypeKey));
    }
    if data[IndexTypeKey] != VStr(cls.name) {
      return Err(ValueError("Expected index_type " + cls.name));
    }
    data := data - {IndexTypeKey};
    data := data - {IndexDirKey};
    assert data == stored - {IndexTypeKey, IndexDirKey};
    r := Construct(cls, data);
  }

  /** Loading what `save` wrote, with the class that made the instance,
      gives the instance back, wherever it was saved. */
  lemma SaveLoadRoundTrip(cls: IndexConfigClass, config: IndexConfig, indexDir: string)
    requires IndexDirKey !in cls.params && IndexTypeKey !in cls.params
    requires config.className == cls.name && config.fields.Keys == cls.params.Keys
    ensures Loaded(cls, SavedConfig(config, indexDir)) == Ok(config)
  {
    var rest := SavedConfig(config, indexDir) - {IndexTypeKey, IndexDirKey};
    assert rest.Keys == config.fields.Keys;
    assert rest == config.fields;
    assert cls.params + config.fields == config.fields;
  }

  /** Every instance `IndexConfig` can make survives a save and a load. */
  lemma BaseRoundTrip(kwargs: map<string, Value>, indexDir: string)
    requires Construct(BaseIndexConfig, kwargs).Ok?
    ensures Loaded(BaseIndexConfig, SavedConfig(Construct(BaseIndexConfig, kwargs).value, indexDir)) == Construct(BaseIndexConfig, kwargs)
  {
    SaveLoadRoundTrip(BaseIndexConfig, Construct(BaseIndexConfig, kwargs).value, indexDir);
  }

  /** Loading with a class other than the saving one fails with
      `ValueError`. */
  lemma LoadOtherClass(cls: IndexConfigClass, config: IndexConfig, indexDir: string)
    requires config.className != cls.name
    ensures Loaded(cls, SavedConfig(config, indexDir)).Err?
    ensures Loaded(cls, SavedConfig(config, indexDir)).error.ValueError?
  {
  }

  /** The files `Indexer.save` writes: the configuration object, the
      newline-joined doc ids and the doc lengths. */
  datatype IndexFiles = IndexFiles(config: map<string, Value>, docIdsText: string, docLengths: seq<nat>)

  /** The state shared by every indexer; the bi-encoder configuration it
      also keeps is not part of this model. */
  class Indexer {
    const indexDir: string
    const indexConfig: IndexConfig
    const verbose: bool
    var docIds: seq<string>
    var docLengths: seq<nat>
    var numEmbeddings: int
    var numDocs: int

    /** A new indexer holds no documents. */
    constructor (indexDir: string, indexConfig: IndexConfig, verbose: bool)
      ensures this.indexDir == indexDir && this.indexConfig == indexConfig && this.verbose == verbose
      ensures docIds == [] && docLengths == [] && numEmbeddings == 0 && numDocs == 0
    {
      this.indexDir := indexDir;
      this.indexConfig := indexConfig;
      this.verbose := verbose;
      docIds := [];
      docLengths := [];
      numEmbeddings := 0;
      numDocs := 0;
    }

    /** `add` is left to subclasses: here it always raises. */
    method Add() returns (r: Result<()>)
      ensures r == Err(NotImplementedError("add method must be implemented"))
    {
      r := Err(NotImplementedError("add method must be implemented"));
    }

    /** `save`: the configuration tagged with this index directory, the doc
        ids one per line and the doc lengths. */
    method Save() returns (files: IndexFiles)
      ensures files.config == SavedConfig(indexConfig, indexDir)
      ensures files.docIdsText == Join(docIds, "\n") && files.docLengths == docLengths
    {
      var data := SaveConfig(indexConfig, indexDir);
      files := IndexFiles(data, Join(docIds, "\n"), docLengths);
    }
  }

  /** Splitting the doc ids file with `split("\n")` gives back the doc
      ids, as long as there is at least one and none holds a newline; no
      doc ids give an empty file. */
  lemma DocIdsFileRoundTrip(docIds: seq<string>)
    ensures docIds == [] ==> Join(docIds, "\n") == ""
    ensures |docIds| >= 1 && (forall k :: 0 <= k < |docIds| ==> '\n' !in docIds[k]) ==>
      SplitOn(Join(docIds, "\n"), "\n") == docIds
  {
    if |docIds| >= 1 && (forall k :: 0 <= k < |docIds| ==> '\n' !in docIds[k]) {
      SplitJoin(docIds, '\n');
    }
  }
}
