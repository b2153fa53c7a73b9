/** `LightningIRConfig` of lightning_ir/base/config.py: the two sequence
    lengths every model configuration carries, the dictionaries made from
    them, and the `from_dict` rule that picks the mixin and backbone model
    types of a stored configuration. */
module Config {
  import opened Common

  const TokenizerArgs: set<string> := {"query_length", "doc_length"}
  const AddedArgs: set<string> := TokenizerArgs
  const DefaultQueryLength := 32
  const DefaultDocLength := 512
  const LightningIrModelType := "lightning-ir"

  /** A configuration instance: its attributes by name, and the dictionary
      the parent configuration class's `to_dict` gives when there is one. */
  datatype ConfigObject = ConfigObject(attrs: map<string, Value>, parentToDict: Option<map<string, Value>>)

  /** `__init__`: the parent sets up `parentAttrs`, then the two lengths are
      stored, 32 and 512 unless given. */
  function NewConfig(parentAttrs: map<string, Value>, parentToDict: Option<map<string, Value>>, queryLength: Option<int>, docLength: Option<int>): (c: ConfigObject)
    ensures c.attrs.Keys == parentAttrs.Keys + TokenizerArgs
    ensures "query_length" in c.attrs && c.attrs["query_length"] == VInt(queryLength.GetOr(DefaultQueryLength))
    ensures "doc_length" in c.attrs && c.attrs["doc_length"] == VInt(docLength.GetOr(DefaultDocLength))
    ensures forall a :: a in parentAttrs && a !in TokenizerArgs ==> c.attrs[a] == parentAttrs[a]
  {
    ConfigObject(parentAttrs["query_length" := VInt(queryLength.GetOr(DefaultQueryLength))]
      ["doc_length" := VInt(docLength.GetOr(DefaultDocLength))], parentToDict)
  }

  /** `to_added_args_dict`: the added arguments the instance has. */
  function ToAddedArgsDict(c: ConfigObject): (d: map<string, Value>)
    ensures d.Keys == AddedArgs * c.attrs.Keys
    ensures forall a :: a in d ==> d[a] == c.attrs[a]
  {
    map a | a in AddedArgs && a in c.attrs :: c.attrs[a]
  }

  /** `to_tokenizer_dict`: every tokenizer argument with its value; a
      missing attribute raises `AttributeError`. */
  function ToTokenizerDict(c: ConfigObject): (r: Result<map<string, Value>>)
    ensures r.Ok? <==> TokenizerArgs <= c.attrs.Keys
    ensures r.Ok? ==> r.value.Keys == TokenizerArgs && forall a :: a in r.value ==> r.value[a] == c.attrs[a]
    ensures r.Err? ==> r.error.AttributeError? && r.error.name in TokenizerArgs && r.error.name !in c.attrs
  {
    if "query_length" !in c.attrs then Err(AttributeError("query_length"))
    else if "doc_length" !in c.attrs then Err(AttributeError("doc_length"))
    else Ok(map a | a in TokenizerArgs :: c.attrs[a])
  }

  /** `to_dict`: the parent's dictionary when the parent class has
      `to_dict`, otherwise the added arguments. */
  function ToDict(c: ConfigObject): (d: map<string, Value>)
    ensures c.parentToDict.Some? ==> d == c.parentToDict.value
    ensures c.parentToDict.None? ==> d.Keys == AddedArgs * c.attrs.Keys && forall a :: a in d ==> a in c.attrs && d[a] == c.attrs[a]
  {
    if c.parentToDict.Some? then c.parentToDict.value else ToAddedArgsDict(c)
  }

  /** A freshly made configuration gives the two lengths to the tokenizer,
      and, without a parent `to_dict`, the same dictionary from `to_dict`. */
  lemma NewConfigDicts(parentAttrs: map<string, Value>, queryLength: Option<int>, docLength: Option<int>)
    ensures var c := NewConfig(parentAttrs, None, queryLength, docLength);
      && ToTokenizerDict(c) == Ok(map["query_length" := VInt(queryLength.GetOr(32)), "doc_length" := VInt(docLength.GetOr(512))])
      && ToDict(c) == ToTokenizerDict(c).value
  {
    var c := NewConfig(parentAttrs, None, queryLength, docLength);
    var expected := map["query_length" := VInt(queryLength.GetOr(32)), "doc_length" := VInt(docLength.GetOr(512))];
    assert TokenizerArgs <= c.attrs.Keys;
    assert ToTokenizerDict(c).Ok?;
    assert ToTokenizerDict(c).value.Keys == expected.Keys;
    assert ToTokenizerDict(c).value["query_length"] == expected["query_length"];
    assert ToTokenizerDict(c).value["doc_length"] == expected["doc_length"];
    assert forall a :: a in expected ==> ToTokenizerDict(c).value[a] == expected[a];
    assert ToTokenizerDict(c).value == expected;
    assert ToTokenizerDict(c) == Ok(expected);
    assert ToDict(c).Keys == expected.Keys;
  }

  /** The added arguments are the tokenizer arguments, so whenever the
      tokenizer dictionary can be made the added-arguments dictionary is the
      same. */
  lemma AddedArgsAreTokenizerArgs(c: ConfigObject)
    requires ToTokenizerDict(c).Ok?
    ensures ToAddedArgsDict(c) == ToTokenizerDict(c).value
  {
  }

  // ---------------------------------------------------------------------
  // from_dict

  /** The class `from_dict` is called on: its `model_type`, whether it is
      `LightningIRConfig` itself, and whether all its direct bases are
      LightningIR configuration classes. */
  datatype ConfigClass = ConfigClass(modelType: string, isBase: bool, allBasesLightningIr: bool)

  /** What `from_dict` does: build the class that mixes the configuration of
      `mixinType` into that of `backboneType` (the configuration classes
      being `mixinClass` and `backboneClass`) and load the dictionary with
      it, or hand the dictionary to the parent class's `from_dict`. */
  datatype FromDictOutcome =
    | Derived(mixinType: string, backboneType: string, mixinClass: string, backboneClass: string)
    | ParentFromDict

  /** `CONFIG_MAPPING[key]`: `KeyError` for an unknown model type. */
  function ConfigFor(mapping: map<string, string>, key: Value): (r: Result<(string, string)>)
    ensures r.Ok? <==> key.VStr? && key.s in mapping
    ensures r.Ok? ==> r.value == (key.s, mapping[key.s])
    ensures r.Err? ==> r.error.KeyError?
  {
    if key.VStr? && key.s in mapping then Ok((key.s, mapping[key.s])) else Err(KeyError(if key.VStr? then key.s else "model_type"))
  }

  function FromDict(cls: ConfigClass, d: map<string, Value>, mapping: map<string, string>): Result<FromDictOutcome>
  {
    if !(cls.allBasesLightningIr || cls.isBase) then Ok(ParentFromDict)
    else
      var types :=
        if "backbone_model_type" in d then
          if "model_type" !in d then Err(KeyError("model_type"))
          else if !cls.isBase && d["model_type"] != VStr(cls.modelType) then
            Err(ValueError("Model type does not match configuration model type " + cls.modelType))
          else Ok((d["model_type"], d["backbone_model_type"]))
        else if "model_type" !in d then Err(KeyError("model_type"))
        else Ok((VStr(cls.modelType), d["model_type"]));
      if types.Err? then Err(types.error)
      else
        var mixin := ConfigFor(mapping, types.value.0);
        var backbone := ConfigFor(mapping, types.value.1);
        if mixin.Err? then Err(mixin.error)
        else if backbone.Err? then Err(backbone.error)
        else Ok(Derived(mixin.value.0, backbone.value.0, mixin.value.1, backbone.value.1))
  }

  /** A dictionary that names a backbone and a model type other than the
      class's is refused with `ValueError` by every class but
      `LightningIRConfig`. */
  lemma FromDictMismatch(cls: ConfigClass, d: map<string, Value>, mapping: map<string, string>)
    requires cls.allBasesLightningIr && !cls.isBase
    requires "backbone_model_type" in d && "model_type" in d && d["model_type"] != VStr(cls.modelType)
    ensures FromDict(cls, d, mapping).Err? && FromDict(cls, d, mapping).error.ValueError?
  {
  }

  /** Without a backbone entry the dictionary's `model_type` is the backbone
      and the class's own model type is the mixin. */
  lemma FromDictWithoutBackbone(cls: ConfigClass, d: map<string, Value>, mapping: map<string, string>, m: string)
    requires cls.allBasesLightningIr || cls.isBase
    requires "backbone_model_type" !in d && "model_type" in d && d["model_type"] == VStr(m)
    requires cls.modelType in mapping && m in mapping
    ensures FromDict(cls, d, mapping) == Ok(Derived(cls.modelType, m, mapping[cls.modelType], mapping[m]))
  {
  }

  /** With a backbone entry whose model type passes the check, the mixin is
      the dictionary's model type and the backbone the stored one; for any
      class but the base one that mixin is the class's own model type. */
  lemma FromDictWithBackbone(cls: ConfigClass, d: map<string, Value>, mapping: map<string, string>, m: string, b: string)
    requires cls.allBasesLightningIr || cls.isBase
    requires "backbone_model_type" in d && d["backbone_model_type"] == VStr(b)
    requires "model_type" in d && d["model_type"] == VStr(m)
    requires cls.isBase || m == cls.modelType
    requires m in mapping && b in mapping
    ensures FromDict(cls, d, mapping) == Ok(Derived(m, b, mapping[m], mapping[b]))
    ensures !cls.isBase ==> FromDict(cls, d, mapping).value.mixinType == cls.modelType
  {
  }

  /** A class that is neither the base class nor made only of LightningIR
      configuration bases (such as the derived class `from_dict` builds)
      leaves the dictionary to its parent. */
  lemma FromDictDelegates(cls: ConfigClass, d: map<string, Value>, mapping: map<string, string>)
    requires !cls.allBasesLightningIr && !cls.isBase
    ensures FromDict(cls, d, mapping) == Ok(ParentFromDict)
  {
  }

  /** A model type `CONFIG_MAPPING` knows. */
  predicate Known(mapping: map<string, string>, v: Value)
  {
    v.VStr? && v.s in mapping
  }

  /** A missing `model_type`, or an unknown mixin or backbone type in
      either branch (once the model-type check has passed), raises
      `KeyError`. */
  lemma FromDictUnknownType(cls: ConfigClass, d: map<string, Value>, mapping: map<string, string>)
    requires cls.allBasesLightningIr || cls.isBase
    ensures "model_type" !in d ==> FromDict(cls, d, mapping) == Err(KeyError("model_type"))
    ensures ("model_type" in d && "backbone_model_type" !in d
      && !(Known(mapping, VStr(cls.modelType)) && Known(mapping, d["model_type"]))) ==>
      FromDict(cls, d, mapping).Err? && FromDict(cls, d, mapping).error.KeyError?
    ensures ("model_type" in d && "backbone_model_type" in d
      && (cls.isBase || d["model_type"] == VStr(cls.modelType))
      && !(Known(mapping, d["model_type"]) && Known(mapping, d["backbone_model_type"]))) ==>
      FromDict(cls, d, mapping).Err? && FromDict(cls, d, mapping).error.KeyError?
  {
  }
}
