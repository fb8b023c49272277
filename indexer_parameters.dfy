/** Execution parameters of an indexer: failure tolerances and the blob-parsing
    configuration. */
module IndexerParams {
  import opened Wire
  import opened SearchObject

  datatype IndexerParameters = IndexerParameters(
    maxFailedItems: Json, maxFailedItemsPerBatch: Json, configuration: Json, params: Dict<Json>)

  /** The keys of the default configuration before camel-casing, and after. */
  const ConfigKeys: seq<string> := ["parsing_mode", "excluded_file_name_extensions", "data_to_extract", "image_action"]
  const ConfigWireKeys: seq<string> := ["parsingMode", "excludedFileNameExtensions", "dataToExtract", "imageAction"]

  function ConfigFixed(): (d: Dict<Json>)
    ensures |d| == |ConfigKeys| && forall i :: 0 <= i < |d| ==> d[i].0 == ConfigKeys[i]
  {
    [("parsing_mode", JStr("default")), ("excluded_file_name_extensions", JArr([])),
     ("data_to_extract", JStr("contentAndMetadata")), ("image_action", JStr("generateNormalizedImages"))]
  }

  /** `default_indexer_configuration`: the four entries of `ConfigFixed`, camel-cased and
      stripped of the empty list, written out (`DefaultConfigurationValue` proves that
      this is what the conversion produces). */
  function DefaultConfiguration(): Dict<Json>
  {
    [("parsingMode", JStr("default")), ("dataToExtract", JStr("contentAndMetadata")),
     ("imageAction", JStr("generateNormalizedImages"))]
  }

  const ParametersNames: set<string> := {"max_failed_items", "max_failed_items_per_batch", "configuration"}

  /** `IndexerParameters(max_failed_items=-1, max_failed_items_per_batch=-1,
      configuration=None, **kwargs)`, called with keyword arguments: a falsy configuration
      is replaced by the default one. */
  function NewIndexerParameters(kw: Dict<Json>): (p: IndexerParameters)
    ensures p.maxFailedItems == GetOr(kw, "max_failed_items", JInt(-1))
    ensures p.maxFailedItemsPerBatch == GetOr(kw, "max_failed_items_per_batch", JInt(-1))
    ensures Truthy(GetOr(kw, "configuration", JNull)) ==> p.configuration == Get(kw, "configuration").value
    ensures !Truthy(GetOr(kw, "configuration", JNull)) ==> p.configuration == JObj(DefaultConfiguration())
    ensures p.params == WithoutKeys(kw, ParametersNames)
  {
    var configuration := GetOr(kw, "configuration", JNull);
    IndexerParameters(GetOr(kw, "max_failed_items", JInt(-1)), GetOr(kw, "max_failed_items_per_batch", JInt(-1)),
      if Truthy(configuration) then configuration else JObj(DefaultConfiguration()),
      WithoutKeys(kw, ParametersNames))
  }

  /** The keys `to_dict` builds before camel-casing, and after. */
  const ParametersKeys: seq<string> := ["max_failed_items", "max_failed_items_per_batch", "configuration"]
  const ParametersWireKeys: seq<string> := ["maxFailedItems", "maxFailedItemsPerBatch", "configuration"]

  function ParametersFixed(p: IndexerParameters): (d: Dict<Json>)
    ensures |d| == |ParametersKeys| && forall i :: 0 <= i < |d| ==> d[i].0 == ParametersKeys[i]
  {
    [("max_failed_items", p.maxFailedItems), ("max_failed_items_per_batch", p.maxFailedItemsPerBatch),
     ("configuration", p.configuration)]
  }

  /** `IndexerParameters.to_dict`: the params bag is not merged in. */
  function ParametersToDict(p: IndexerParameters): Dict<Json>
  {
    RemoveEmptyValues(ToCamelCaseDict(ParametersFixed(p)))
  }

  /** `IndexerParameters.load`, the generic load. */
  function LoadIndexerParameters(data: Json): (r: Result<IndexerParameters>)
    ensures r.Err? <==> !data.JObj?
  {
    var kw :- LoadKwargs(data);
    Ok(NewIndexerParameters(kw))
  }

  // ----- lemmas -----

  lemma ConfigCamelAt(i: nat)
    requires i < |ConfigKeys|
    ensures ToCamelCase(ConfigKeys[i]) == ConfigWireKeys[i]
  {
    if i == 0 {
      ParsingModeKey();
    } else if i == 1 {
      ExcludedExtensionsKey();
    } else if i == 2 {
      DataToExtractKey();
    } else {
      ImageActionKey();
    }
  }

  lemma ParsingModeKey()
    ensures ToCamelCase("parsing_mode") == "parsingMode"
  {
    KeyFormsAt(["parsing", "mode"], "parsing_mode", "parsingMode");
  }

  const ExcludedParts: seq<string> := ["excluded", "file", "name", "extensions"]

  lemma ExcludedSegments()
    ensures RoundTripSegments(ExcludedParts)
  {
  }

  lemma ExcludedJoin()
    ensures Join(ExcludedParts) == "excluded_file_name_extensions"
  {
  }

  lemma ExcludedCamel()
    ensures CamelJoin(ExcludedParts) == "excludedFileNameExtensions"
  {
  }

  lemma ExcludedExtensionsKey()
    ensures ToCamelCase("excluded_file_name_extensions") == "excludedFileNameExtensions"
  {
    ExcludedSegments();
    ExcludedJoin();
    ExcludedCamel();
    KeyFormsAt(ExcludedParts, "excluded_file_name_extensions", "excludedFileNameExtensions");
  }

  lemma DataToExtractKey()
    ensures ToCamelCase("data_to_extract") == "dataToExtract"
  {
    KeyFormsAt(["data", "to", "extract"], "data_to_extract", "dataToExtract");
  }

  lemma ImageActionKey()
    ensures ToCamelCase("image_action") == "imageAction"
  {
    KeyFormsAt(["image", "action"], "image_action", "imageAction");
  }

  lemma ConfigWireKeysDistinct()
    ensures forall i, j :: 0 <= i < j < |ConfigWireKeys| ==> ConfigWireKeys[i] != ConfigWireKeys[j]
  {
  }

  /** The camel-cased default configuration, before stripping. */
  lemma ConfigCamel()
    ensures |ToCamelCaseDict(ConfigFixed())| == |ConfigWireKeys|
    ensures forall i :: 0 <= i < |ConfigWireKeys| ==> ToCamelCaseDict(ConfigFixed())[i] == (ConfigWireKeys[i], ConfigFixed()[i].1)
  {
    forall j | 0 <= j < |ConfigKeys| ensures ToCamelCase(ConfigFixed()[j].0) == ConfigWireKeys[j] {
      ConfigCamelAt(j);
    }
    ConfigWireKeysDistinct();
    RekeyTo(ConfigFixed(), ToCamelCase, ConfigWireKeys);
  }

  /** Stripping a four-entry dict whose second value alone is empty. */
  lemma StripSecond(c: Dict<Json>)
    requires |c| == 4 && IsEmptyValue(c[1].1)
    requires !IsEmptyValue(c[0].1) && !IsEmptyValue(c[2].1) && !IsEmptyValue(c[3].1)
    ensures RemoveEmptyValues(c) == [c[0], c[2], c[3]]
  {
    assert c[3..][1..] == [];
    assert RemoveEmptyValues(c[3..]) == [c[3]];
    assert c[2..][1..] == c[3..];
    assert RemoveEmptyValues(c[2..]) == [c[2], c[3]];
    assert c[1..][1..] == c[2..];
    assert RemoveEmptyValues(c[1..]) == [c[2], c[3]];
  }

  /** Stripping a four-entry configuration whose excluded-extension list alone is empty. */
  lemma ConfigSent(f: Dict<Json>)
    requires |f| == |ConfigKeys| && forall i :: 0 <= i < |f| ==> f[i].0 == ConfigKeys[i]
    requires IsEmptyValue(f[1].1) && !IsEmptyValue(f[0].1) && !IsEmptyValue(f[2].1) && !IsEmptyValue(f[3].1)
    ensures RemoveEmptyValues(ToCamelCaseDict(f))
      == [(ConfigWireKeys[0], f[0].1), (ConfigWireKeys[2], f[2].1), (ConfigWireKeys[3], f[3].1)]
  {
    forall j | 0 <= j < |ConfigKeys| ensures ToCamelCase(f[j].0) == ConfigWireKeys[j] {
      ConfigCamelAt(j);
    }
    ConfigWireKeysDistinct();
    RekeyTo(f, ToCamelCase, ConfigWireKeys);
    StripSecond(ToCamelCaseDict(f));
  }

  /** Camel-casing the four default entries and stripping the empty values keeps parsing
      mode, data to extract and image action; the empty list of excluded extensions goes. */
  lemma DefaultConfigurationValue()
    ensures RemoveEmptyValues(ToCamelCaseDict(ConfigFixed())) == DefaultConfiguration()
  {
    ConfigSent(ConfigFixed());
  }

  lemma MaxFailedItemsKey()
    ensures ToCamelCase("max_failed_items") == "maxFailedItems" && ToSnakeCase("maxFailedItems") == "max_failed_items"
  {
    KeyFormsAt(["max", "failed", "items"], "max_failed_items", "maxFailedItems");
  }

  const PerBatchParts: seq<string> := ["max", "failed", "items", "per", "batch"]

  lemma PerBatchSegments()
    ensures RoundTripSegments(PerBatchParts)
  {
  }

  lemma PerBatchJoin()
    ensures Join(PerBatchParts) == "max_failed_items_per_batch"
  {
  }

  lemma PerBatchCamel()
    ensures CamelJoin(PerBatchParts) == "maxFailedItemsPerBatch"
  {
  }

  lemma MaxFailedItemsPerBatchKey()
    ensures ToCamelCase("max_failed_items_per_batch") == "maxFailedItemsPerBatch"
    ensures ToSnakeCase("maxFailedItemsPerBatch") == "max_failed_items_per_batch"
  {
    PerBatchSegments();
    PerBatchJoin();
    PerBatchCamel();
    KeyFormsAt(PerBatchParts, "max_failed_items_per_batch", "maxFailedItemsPerBatch");
  }

  lemma ConfigurationKey()
    ensures ToCamelCase("configuration") == "configuration" && ToSnakeCase("configuration") == "configuration"
  {
    FixedKey("configuration");
  }

  lemma ParametersCamelAt(i: nat)
    requires i < |ParametersKeys|
    ensures ToCamelCase(ParametersKeys[i]) == ParametersWireKeys[i]
  {
    if i == 0 {
      MaxFailedItemsKey();
    } else if i == 1 {
      MaxFailedItemsPerBatchKey();
    } else {
      ConfigurationKey();
    }
  }

  lemma ParametersSnakeAt(i: nat)
    requires i < |ParametersKeys|
    ensures ToSnakeCase(ParametersWireKeys[i]) == ParametersKeys[i]
  {
    if i == 0 {
      MaxFailedItemsKey();
    } else if i == 1 {
      MaxFailedItemsPerBatchKey();
    } else {
      ConfigurationKey();
    }
  }

  lemma ParametersKeysDistinct()
    ensures forall i, j :: 0 <= i < j < |ParametersKeys| ==> ParametersKeys[i] != ParametersKeys[j]
    ensures forall i, j :: 0 <= i < j < |ParametersWireKeys| ==> ParametersWireKeys[i] != ParametersWireKeys[j]
  {
  }

  /** The camel-cased fixed entries of `to_dict`, before stripping. */
  lemma ParametersCamel(fixed: Dict<Json>)
    requires |fixed| == |ParametersKeys| && forall i :: 0 <= i < |fixed| ==> fixed[i].0 == ParametersKeys[i]
    ensures |ToCamelCaseDict(fixed)| == |fixed|
    ensures forall i :: 0 <= i < |fixed| ==> ToCamelCaseDict(fixed)[i] == (ParametersWireKeys[i], fixed[i].1)
  {
    forall j | 0 <= j < |ParametersKeys| ensures ToCamelCase(fixed[j].0) == ParametersWireKeys[j] {
      ParametersCamelAt(j);
    }
    ParametersKeysDistinct();
    RekeyTo(fixed, ToCamelCase, ParametersWireKeys);
  }

  /** `to_dict` sends each of its three values under its camel-cased key unless it is None
      or empty; -1 and 0 are kept. */
  lemma ParametersWireGet(p: IndexerParameters, i: nat)
    requires i < |ParametersKeys|
    ensures Get(ParametersToDict(p), ParametersWireKeys[i]) == Kept(Some(ParametersFixed(p)[i].1))
  {
    ParametersCamel(ParametersFixed(p));
    var c := ToCamelCaseDict(ParametersFixed(p));
    ParametersKeysDistinct();
    assert DistinctKeys(c);
    StrippedGet(c, i, ParametersWireKeys[i]);
  }

  /** Whatever the params bag holds, `to_dict` sends no key but its three own. */
  lemma ParametersSendOnlyOwnKeys(p: IndexerParameters)
    ensures forall x :: HasKey(ParametersToDict(p), x) ==> x in ParametersWireKeys
  {
    SentKeys(ParametersFixed(p));
  }

  lemma SentKeys(fixed: Dict<Json>)
    requires |fixed| == |ParametersKeys| && forall i :: 0 <= i < |fixed| ==> fixed[i].0 == ParametersKeys[i]
    ensures forall x :: HasKey(RemoveEmptyValues(ToCamelCaseDict(fixed)), x) ==> x in ParametersWireKeys
  {
    ParametersCamel(fixed);
    var c := ToCamelCaseDict(fixed);
    forall x | HasKey(RemoveEmptyValues(c), x) ensures x in ParametersWireKeys {
      RemoveEmptyValuesSubset(c, x);
      var j := IndexOf(c, x);
      assert c[j].0 == ParametersWireKeys[j];
    }
  }

  /** Parameters built without any of their three arguments hold -1, -1 and the default
      configuration. */
  lemma DefaultParameters(kw: Dict<Json>)
    requires !HasKey(kw, "max_failed_items") && !HasKey(kw, "max_failed_items_per_batch") && !HasKey(kw, "configuration")
    ensures var p := NewIndexerParameters(kw);
      p.maxFailedItems == JInt(-1) && p.maxFailedItemsPerBatch == JInt(-1)
      && p.configuration == JObj(DefaultConfiguration())
  {
  }

  /** `to_dict` sends each of the three values under its wire key unless it is empty. */
  lemma ParametersSentValues(p: IndexerParameters)
    ensures var d := ParametersToDict(p);
      && Get(d, "maxFailedItems") == Kept(Some(p.maxFailedItems))
      && Get(d, "maxFailedItemsPerBatch") == Kept(Some(p.maxFailedItemsPerBatch))
      && Get(d, "configuration") == Kept(Some(p.configuration))
  {
    ParametersWireGet(p, 0);
    ParametersWireGet(p, 1);
    ParametersWireGet(p, 2);
  }

  /** Parameters built without any of their three arguments send -1, -1 and the default
      configuration. */
  lemma DefaultParametersSent(kw: Dict<Json>)
    requires !HasKey(kw, "max_failed_items") && !HasKey(kw, "max_failed_items_per_batch") && !HasKey(kw, "configuration")
    ensures NewIndexerParameters(kw).configuration == JObj(DefaultConfiguration())
    ensures var d := ParametersToDict(NewIndexerParameters(kw));
      && Get(d, "maxFailedItems") == Some(JInt(-1))
      && Get(d, "maxFailedItemsPerBatch") == Some(JInt(-1))
      && Get(d, "configuration") == Some(JObj(DefaultConfiguration()))
  {
    DefaultParameters(kw);
    ParametersSentValues(NewIndexerParameters(kw));
    DefaultsKept();
  }

  lemma DefaultsKept()
    ensures Kept(Some(JInt(-1))) == Some(JInt(-1))
    ensures Kept(Some(JObj(DefaultConfiguration()))) == Some(JObj(DefaultConfiguration()))
  {
    assert Len(JObj(DefaultConfiguration())) == 3;
  }

  /** Without empty values, `to_dict` sends the three entries in order under their wire
      keys. */
  lemma AllSent(fixed: Dict<Json>)
    requires |fixed| == |ParametersKeys| && forall i :: 0 <= i < |fixed| ==> fixed[i].0 == ParametersKeys[i]
    requires forall i :: 0 <= i < |fixed| ==> !IsEmptyValue(fixed[i].1)
    ensures var r := RemoveEmptyValues(ToCamelCaseDict(fixed));
      |r| == |fixed| && forall i :: 0 <= i < |r| ==> r[i] == (ParametersWireKeys[i], fixed[i].1)
  {
    forall j | 0 <= j < |fixed| ensures ToCamelCase(fixed[j].0) == ParametersWireKeys[j] {
      ParametersCamelAt(j);
    }
    ParametersKeysDistinct();
    CamelWireForm(fixed, ParametersWireKeys);
    WireDictNoParams(fixed);
  }

  /** Keyword arguments naming exactly the three parameters, configuration truthy, build
      parameters holding those values and an empty bag. */
  lemma NewFromLoaded(kw: Dict<Json>)
    requires |kw| == |ParametersKeys| && forall i :: 0 <= i < |kw| ==> kw[i].0 == ParametersKeys[i]
    requires Truthy(kw[2].1)
    ensures NewIndexerParameters(kw) == IndexerParameters(kw[0].1, kw[1].1, kw[2].1, [])
  {
    ParametersKeysDistinct();
    PositionGet(kw, 0, "max_failed_items");
    PositionGet(kw, 1, "max_failed_items_per_batch");
    PositionGet(kw, 2, "configuration");
    WithoutEveryKey(kw, ParametersNames);
  }

  /** `IndexerParameters.load(p.to_dict())` gives back parameters whose limits are set and
      whose configuration is truthy. */
  lemma ParametersRoundTrip(p: IndexerParameters)
    requires p.params == [] && !IsEmptyValue(p.maxFailedItems) && !IsEmptyValue(p.maxFailedItemsPerBatch)
    requires Truthy(p.configuration)
    ensures LoadIndexerParameters(JObj(ParametersToDict(p))) == Ok(p)
  {
    LoadSent(ParametersFixed(p));
  }

  lemma LoadSent(fixed: Dict<Json>)
    requires |fixed| == |ParametersKeys| && forall i :: 0 <= i < |fixed| ==> fixed[i].0 == ParametersKeys[i]
    requires forall i :: 0 <= i < |fixed| ==> !IsEmptyValue(fixed[i].1)
    requires Truthy(fixed[2].1)
    ensures LoadIndexerParameters(JObj(RemoveEmptyValues(ToCamelCaseDict(fixed))))
      == Ok(IndexerParameters(fixed[0].1, fixed[1].1, fixed[2].1, []))
  {
    SentAndLoadedKw(fixed);
    NewFromLoaded(fixed);
  }

  /** The keyword arguments `load` builds from what `to_dict` sends are the fixed
      entries, when none of them is empty. */
  lemma SentAndLoadedKw(fixed: Dict<Json>)
    requires |fixed| == |ParametersKeys| && forall i :: 0 <= i < |fixed| ==> fixed[i].0 == ParametersKeys[i]
    requires forall i :: 0 <= i < |fixed| ==> !IsEmptyValue(fixed[i].1)
    ensures ToSnakeCaseDict(RemoveEmptyValues(ToCamelCaseDict(fixed))) == fixed
  {
    ParametersForms(fixed);
    ParametersKeysDistinct();
    CamelSentSnakeLoaded(fixed, ParametersWireKeys);
  }

  lemma ParametersForms(fixed: Dict<Json>)
    requires |fixed| == |ParametersKeys| && forall i :: 0 <= i < |fixed| ==> fixed[i].0 == ParametersKeys[i]
    ensures forall j :: 0 <= j < |fixed| ==>
      ToCamelCase(fixed[j].0) == ParametersWireKeys[j] && ToSnakeCase(ParametersWireKeys[j]) == fixed[j].0
  {
    forall j | 0 <= j < |fixed|
      ensures ToCamelCase(fixed[j].0) == ParametersWireKeys[j] && ToSnakeCase(ParametersWireKeys[j]) == fixed[j].0
    {
      ParametersCamelAt(j);
      ParametersSnakeAt(j);
    }
  }
}
