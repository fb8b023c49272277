/** Indexers: a job that pulls documents from a data source, runs a skillset over them
    and writes them into a target index. */
module Indexers {
  import opened Wire
  import opened SearchObject
  import opened FieldMappings
  import opened IndexerParams

  /** An indexer schedule: a run interval and an optional start time. */
  datatype IndexerSchedule = IndexerSchedule(interval: Json, startTime: Json)

  /** `IndexerSchedule.to_dict`: both keys, neither converted nor stripped. */
  function ScheduleToDict(s: IndexerSchedule): Dict<Json>
  {
    [("interval", s.interval), ("startTime", s.startTime)]
  }

  /** A keyword argument of the indexer constructor: a plain value, or one of the objects
      the constructor stores and `to_dict` calls into. */
  datatype IndexerArg =
    | Value(j: Json)
    | Parameters(p: IndexerParameters)
    | Schedule(s: IndexerSchedule)
    | Mappings(fms: seq<FieldMapping>)

  /** The arguments that may hold objects; every other keyword argument is a plain value. */
  const ObjectArgs: set<string> := {"output_field_mappings", "schedule", "parameters"}

  predicate ExtrasPlain(kw: Dict<IndexerArg>)
  {
    forall i :: 0 <= i < |kw| && kw[i].0 !in ObjectArgs ==> kw[i].1.Value?
  }

  /** An indexer. The four names, disabled and the params bag are plain values; the
      output mappings, the schedule and the parameters hold what the constructor got. */
  datatype Indexer = Indexer(
    name: Json, dataSourceName: Json, targetIndexName: Json, skillsetName: Json,
    fieldMappings: seq<FieldMapping>, outputFieldMappings: IndexerArg, schedule: IndexerArg,
    disabled: Json, parameters: IndexerArg, params: Dict<Json>)

  /** The two mappings every indexer installs, whatever it was given: the blob path,
      base64-encoded, becomes the key, and the content is copied under its own name. */
  const DefaultFieldMappings: seq<FieldMapping> := [
    FieldMapping(JStr("metadata_storage_path"), JStr("id"), JObj([("name", JStr("base64Encode"))])),
    FieldMapping(JStr("content"), JStr("content"), JNull)]

  /** The parameters the constructor declares. */
  const IndexerNames: set<string> := {"name", "data_source_name", "target_index_name", "skillset_name",
    "field_mappings", "output_field_mappings", "schedule", "disabled", "parameters"}

  function PlainValue(a: IndexerArg): Json
  {
    if a.Value? then a.j else JNull
  }

  function PlainArgs(kw: Dict<IndexerArg>): (d: Dict<Json>)
    ensures |d| == |kw|
    ensures forall i :: 0 <= i < |kw| ==> d[i] == (kw[i].0, PlainValue(kw[i].1))
  {
    seq(|kw|, i requires 0 <= i < |kw| => (kw[i].0, PlainValue(kw[i].1)))
  }

  /** `Indexer(name, data_source_name, target_index_name, skillset_name,
      field_mappings=None, output_field_mappings=None, schedule=None, disabled=False,
      parameters=IndexerParameters(), **params)`, called with keyword arguments. The four
      names are required (the first one missing is reported); the field mappings given are
      discarded; the rest goes to the API-call base class. */
  function NewIndexer(kw: Dict<IndexerArg>): (r: Result<Indexer>)
    requires ExtrasPlain(kw)
    ensures r.Ok? <==> HasKey(kw, "name") && HasKey(kw, "data_source_name") && HasKey(kw, "target_index_name")
                       && HasKey(kw, "skillset_name") && !HasKey(kw, "service_name")
    ensures !HasKey(kw, "name") ==> r == Err(MissingArgument("name"))
    ensures r.Ok? ==> (Get(kw, "name") == Some(Value(r.value.name))
      && Get(kw, "data_source_name") == Some(Value(r.value.dataSourceName))
      && Get(kw, "target_index_name") == Some(Value(r.value.targetIndexName))
      && Get(kw, "skillset_name") == Some(Value(r.value.skillsetName)))
    ensures r.Ok? ==> r.value.fieldMappings == DefaultFieldMappings
    ensures r.Ok? ==> (r.value.outputFieldMappings == GetOr(kw, "output_field_mappings", Value(JNull))
      && r.value.schedule == GetOr(kw, "schedule", Value(JNull))
      && Value(r.value.disabled) == GetOr(kw, "disabled", Value(JBool(false)))
      && r.value.parameters == GetOr(kw, "parameters", Parameters(NewIndexerParameters([]))))
    ensures r.Ok? ==> r.value.params == WithoutKeys(PlainArgs(WithoutKeys(kw, IndexerNames)), {"endpoint"})
  {
    PlainArgNames();
    if !HasKey(kw, "name") then Err(MissingArgument("name"))
    else if !HasKey(kw, "data_source_name") then Err(MissingArgument("data_source_name"))
    else if !HasKey(kw, "target_index_name") then Err(MissingArgument("target_index_name"))
    else if !HasKey(kw, "skillset_name") then Err(MissingArgument("skillset_name"))
    else
      var params :- IndexerApiParams(kw);
      Ok(Indexer(PlainAt(kw, "name"), PlainAt(kw, "data_source_name"),
                 PlainAt(kw, "target_index_name"), PlainAt(kw, "skillset_name"),
                 DefaultFieldMappings, GetOr(kw, "output_field_mappings", Value(JNull)),
                 GetOr(kw, "schedule", Value(JNull)), PlainOr(kw, "disabled", JBool(false)),
                 GetOr(kw, "parameters", Parameters(NewIndexerParameters([]))), params))
  }

  /** The names and `disabled` are not object arguments. */
  lemma PlainArgNames()
    ensures "name" !in ObjectArgs && "data_source_name" !in ObjectArgs && "target_index_name" !in ObjectArgs
    ensures "skillset_name" !in ObjectArgs && "disabled" !in ObjectArgs
  {
  }

  /** The plain value of a required argument. */
  function PlainAt(kw: Dict<IndexerArg>, k: string): (v: Json)
    requires ExtrasPlain(kw) && k !in ObjectArgs && HasKey(kw, k)
    ensures Get(kw, k) == Some(Value(v))
  {
    var i := IndexOf(kw, k);
    assert kw[i].1.Value?;
    kw[i].1.j
  }

  /** The plain value of an optional argument, or its default. */
  function PlainOr(kw: Dict<IndexerArg>, k: string, default: Json): (v: Json)
    requires ExtrasPlain(kw) && k !in ObjectArgs
    ensures Value(v) == GetOr(kw, k, Value(default))
  {
    if HasKey(kw, k) then PlainAt(kw, k) else default
  }

  /** What the API-call base class keeps of the arguments the constructor does not
      declare: `service_name` among them is given twice; `endpoint` is taken out. */
  function IndexerApiParams(kw: Dict<IndexerArg>): (r: Result<Dict<Json>>)
    ensures r.Ok? <==> !HasKey(kw, "service_name")
    ensures r.Ok? ==> r.value == WithoutKeys(PlainArgs(WithoutKeys(kw, IndexerNames)), {"endpoint"})
  {
    var rest := WithoutKeys(kw, IndexerNames);
    assert "service_name" !in IndexerNames;
    WithoutKeysGet(kw, IndexerNames, "service_name");
    PlainArgsKeys(rest, "service_name");
    ApiParams(PlainArgs(rest))
  }

  /** `x.to_dict()` on a stored argument: only the parameter and schedule objects have one. */
  function ArgToDict(a: IndexerArg): (r: Result<Json>)
    ensures r.Ok? <==> a.Parameters? || a.Schedule?
    ensures a.Parameters? ==> r == Ok(JObj(ParametersToDict(a.p)))
    ensures a.Schedule? ==> r == Ok(JObj(ScheduleToDict(a.s)))
  {
    match a
    case Parameters(p) => Ok(JObj(ParametersToDict(p)))
    case Schedule(s) => Ok(JObj(ScheduleToDict(s)))
    case _ => Err(AttributeError("to_dict"))
  }

  /** Python truthiness of a stored argument: objects without a length are always true. */
  predicate ArgTruthy(a: IndexerArg)
  {
    match a
    case Value(j) => Truthy(j)
    case Mappings(fms) => fms != []
    case _ => true
  }

  function MappingDicts(fms: seq<FieldMapping>): (r: seq<Json>)
    ensures |r| == |fms|
    ensures forall i :: 0 <= i < |fms| ==> r[i] == JObj(ToDict(fms[i]))
  {
    seq(|fms|, i requires 0 <= i < |fms| => JObj(ToDict(fms[i])))
  }

  /** `[fm.to_dict() for fm in xs] if xs else None`: a falsy value gives None; a truthy
      plain value or object has no elements with `to_dict`, or no elements at all. */
  function MappingsDict(a: IndexerArg): (r: Result<Json>)
    ensures !ArgTruthy(a) ==> r == Ok(JNull)
    ensures ArgTruthy(a) ==> (r.Ok? <==> a.Mappings?)
    ensures a.Mappings? && a.fms != [] ==> r == Ok(JArr(MappingDicts(a.fms)))
  {
    if !ArgTruthy(a) then Ok(JNull)
    else
      match a
      case Mappings(fms) => Ok(JArr(MappingDicts(fms)))
      case Value(j) => if HasLen(j) then Err(AttributeError("to_dict")) else Err(TypeError("object is not iterable"))
      case _ => Err(TypeError("object is not iterable"))
  }

  /** `self.schedule.to_dict() if self.schedule else None`. */
  function ScheduleDict(a: IndexerArg): (r: Result<Json>)
    ensures !ArgTruthy(a) ==> r == Ok(JNull)
    ensures ArgTruthy(a) ==> r == ArgToDict(a)
  {
    if ArgTruthy(a) then ArgToDict(a) else Ok(JNull)
  }

  function IndexerFixed(x: Indexer, mappings: Json, outputs: Json, schedule: Json, parameters: Json): (d: Dict<Json>)
    ensures |d| == |IndexerKeys| && forall i :: 0 <= i < |d| ==> d[i].0 == IndexerKeys[i]
  {
    [("name", x.name), ("dataSourceName", x.dataSourceName), ("targetIndexName", x.targetIndexName),
     ("skillsetName", x.skillsetName), ("fieldMappings", mappings), ("outputFieldMappings", outputs),
     ("schedule", schedule), ("disabled", x.disabled), ("parameters", parameters)]
  }

  /** `Indexer.to_dict`: the entries are computed in order, so the first failing one
      decides the error; params override before camel-casing and stripping. */
  function IndexerToDict(x: Indexer): (r: Result<Dict<Json>>)
    ensures r.Ok? <==> MappingsDict(x.outputFieldMappings).Ok? && ScheduleDict(x.schedule).Ok?
                       && ArgToDict(x.parameters).Ok?
    ensures !(x.parameters.Parameters? || x.parameters.Schedule?) ==> r.Err?
  {
    var mappings := if x.fieldMappings != [] then JArr(MappingDicts(x.fieldMappings)) else JNull;
    var outputs :- MappingsDict(x.outputFieldMappings);
    var schedule :- ScheduleDict(x.schedule);
    var parameters :- ArgToDict(x.parameters);
    Ok(WireDict(IndexerFixed(x, mappings, outputs, schedule, parameters), x.params))
  }

  function PlainIndexerArgs(m: Dict<Json>): (kw: Dict<IndexerArg>)
    ensures |kw| == |m|
    ensures forall i :: 0 <= i < |m| ==> kw[i] == (m[i].0, Value(m[i].1))
  {
    seq(|m|, i requires 0 <= i < |m| => (m[i].0, Value(m[i].1)))
  }

  /** Every entry but the one under `parameters` is a plain value. */
  predicate OnlyParametersObject(kw: Dict<IndexerArg>)
  {
    forall i :: 0 <= i < |kw| && kw[i].0 != "parameters" ==> kw[i].1.Value?
  }

  /** The `parameters` entry of a loaded indexer is replaced by the loaded parameters. */
  function WithLoadedParameters(m: Dict<Json>, kw: Dict<IndexerArg>): (r: Result<Dict<IndexerArg>>)
    requires OnlyParametersObject(kw)
    ensures r.Ok? ==> OnlyParametersObject(r.value)
    ensures HasKey(m, "parameters") && !Get(m, "parameters").value.JObj? ==> r == Err(Exception("Failed to parse input as Dict"))
  {
    if HasKey(m, "parameters") then
      var p :- LoadIndexerParameters(Get(m, "parameters").value);
      Ok(Put(kw, "parameters", Parameters(p)))
    else Ok(kw)
  }

  /** `Indexer.load`: a non-dict raises; the parameters are loaded into an object; a
      schedule cannot be loaded, because the schedule class has no `load`. */
  function LoadIndexer(data: Json): (r: Result<Indexer>)
    ensures !data.JObj? ==> r == Err(Exception("Failed to parse input as Dict"))
    ensures data.JObj? && HasKey(data.members, "schedule") ==> r.Err?
    ensures data.JObj? && HasKey(data.members, "parameters") && !Get(data.members, "parameters").value.JObj?
      ==> r == Err(Exception("Failed to parse input as Dict"))
  {
    if !data.JObj? then Err(Exception("Failed to parse input as Dict"))
    else
      var kw :- WithLoadedParameters(data.members, PlainIndexerArgs(data.members));
      if HasKey(data.members, "schedule") then Err(AttributeError("load"))
      else NewLoaded(kw)
  }

  /** `cls(**data)` on the snake-cased arguments of `load`. */
  function NewLoaded(kw: Dict<IndexerArg>): Result<Indexer>
    requires OnlyParametersObject(kw)
  {
    LoadedArgsPlain(kw);
    NewIndexer(ToSnakeCaseDict(kw))
  }

  // ----- lemmas: construction -----

  lemma PlainArgsKeys(kw: Dict<IndexerArg>, k: string)
    ensures HasKey(PlainArgs(kw), k) <==> HasKey(kw, k)
  {
    var d := PlainArgs(kw);
    assert forall i :: 0 <= i < |kw| ==> d[i].0 == kw[i].0;
    assert Get(d, k).None? <==> Get(kw, k).None?;
  }

  /** Snake-casing keeps the loaded object under `parameters`, so the constructor gets
      plain values everywhere else. */
  lemma LoadedArgsPlain(kw: Dict<IndexerArg>)
    requires OnlyParametersObject(kw)
    ensures ExtrasPlain(ToSnakeCaseDict(kw))
  {
    var r := ToSnakeCaseDict(kw);
    RekeyValues(kw, ToSnakeCase);
    ParametersKey();
    forall i | 0 <= i < |r| && r[i].0 !in ObjectArgs ensures r[i].1.Value? {
      var j :| 0 <= j < |kw| && r[i] == (ToSnakeCase(kw[j].0), kw[j].1);
      assert kw[j].0 != "parameters";
    }
  }

  lemma ParametersKey()
    ensures ToSnakeCase("parameters") == "parameters" && ToCamelCase("parameters") == "parameters"
  {
    FixedKey("parameters");
  }

  /** However the mappings argument is given, a constructed indexer holds the two default
      mappings and its parameters default to `IndexerParameters()`. */
  lemma ConstructedDefaults(kw: Dict<IndexerArg>)
    requires ExtrasPlain(kw) && NewIndexer(kw).Ok? && !HasKey(kw, "parameters")
    ensures NewIndexer(kw).value.fieldMappings == DefaultFieldMappings
    ensures NewIndexer(kw).value.parameters == Parameters(NewIndexerParameters([]))
  {
  }

  // ----- lemmas: to_dict -----

  /** The keys `to_dict` builds; none has an underscore, so camel-casing keeps them. */
  const IndexerKeys: seq<string> := ["name", "dataSourceName", "targetIndexName", "skillsetName",
    "fieldMappings", "outputFieldMappings", "schedule", "disabled", "parameters"]

  lemma IndexerKeysNoUnderscore(i: nat)
    requires i < |IndexerKeys|
    ensures '_' !in IndexerKeys[i]
  {
  }

  lemma IndexerKeyNames()
    ensures IndexerKeys[0] == "name" && IndexerKeys[1] == "dataSourceName" && IndexerKeys[2] == "targetIndexName"
    ensures IndexerKeys[3] == "skillsetName" && IndexerKeys[4] == "fieldMappings"
    ensures IndexerKeys[5] == "outputFieldMappings" && IndexerKeys[6] == "schedule"
    ensures IndexerKeys[7] == "disabled" && IndexerKeys[8] == "parameters"
  {
  }

  lemma IndexerKeysDistinct()
    ensures forall i, j :: 0 <= i < j < |IndexerKeys| ==> IndexerKeys[i] != IndexerKeys[j]
  {
  }

  lemma IndexerKeysCamel(fixed: Dict<Json>)
    requires |fixed| == |IndexerKeys| && forall i :: 0 <= i < |fixed| ==> fixed[i].0 == IndexerKeys[i]
    ensures forall i :: 0 <= i < |fixed| ==> ToCamelCase(fixed[i].0) == IndexerKeys[i]
  {
    forall i | 0 <= i < |IndexerKeys| ensures ToCamelCase(IndexerKeys[i]) == IndexerKeys[i] {
      IndexerKeysNoUnderscore(i);
      CamelIdentity(IndexerKeys[i]);
    }
  }

  /** Without params, each fixed entry is sent under its key unless it is None or empty. */
  lemma FixedWireGet(fixed: Dict<Json>, i: nat)
    requires |fixed| == |IndexerKeys| && forall i :: 0 <= i < |fixed| ==> fixed[i].0 == IndexerKeys[i]
    requires i < |fixed|
    ensures Get(WireDict(fixed, []), IndexerKeys[i]) == Kept(Some(fixed[i].1))
  {
    IndexerKeysCamel(fixed);
    IndexerKeysDistinct();
    CamelWireGet(fixed, IndexerKeys, i);
  }

  /** None of the entries `to_dict` computes fails. */
  predicate Sendable(x: Indexer)
  {
    MappingsDict(x.outputFieldMappings).Ok? && ScheduleDict(x.schedule).Ok? && ArgToDict(x.parameters).Ok?
  }

  /** The fixed dict `to_dict` builds, when none of its entries fails. */
  function SentFixed(x: Indexer): (d: Dict<Json>)
    requires Sendable(x)
    ensures |d| == |IndexerKeys| && forall i :: 0 <= i < |d| ==> d[i].0 == IndexerKeys[i]
    ensures d[0].1 == x.name && d[1].1 == x.dataSourceName && d[2].1 == x.targetIndexName
    ensures d[3].1 == x.skillsetName && d[7].1 == x.disabled
    ensures d[4].1 == if x.fieldMappings != [] then JArr(MappingDicts(x.fieldMappings)) else JNull
    ensures d[5].1 == MappingsDict(x.outputFieldMappings).value && d[6].1 == ScheduleDict(x.schedule).value
    ensures d[8].1 == ArgToDict(x.parameters).value
  {
    var mappings := if x.fieldMappings != [] then JArr(MappingDicts(x.fieldMappings)) else JNull;
    var outputs := MappingsDict(x.outputFieldMappings).value;
    var schedule := ScheduleDict(x.schedule).value;
    var parameters := ArgToDict(x.parameters).value;
    IndexerFixedValues(x, mappings, outputs, schedule, parameters);
    IndexerFixed(x, mappings, outputs, schedule, parameters)
  }

  /** The fixed dict holds each attribute under its own position. */
  lemma IndexerFixedValues(x: Indexer, mappings: Json, outputs: Json, schedule: Json, parameters: Json)
    ensures var d := IndexerFixed(x, mappings, outputs, schedule, parameters);
      && d[0].1 == x.name && d[1].1 == x.dataSourceName && d[2].1 == x.targetIndexName
      && d[3].1 == x.skillsetName && d[4].1 == mappings && d[5].1 == outputs
      && d[6].1 == schedule && d[7].1 == x.disabled && d[8].1 == parameters
  {
  }

  /** `to_dict` sends the fixed dict, merged with the params and stripped. */
  lemma SentWireDict(x: Indexer)
    requires Sendable(x)
    ensures IndexerToDict(x) == Ok(WireDict(SentFixed(x), x.params))
  {
  }

  /** Without params, the entry under each fixed key is the fixed value unless that is
      None or empty. */
  lemma IndexerWireAt(x: Indexer, i: nat)
    requires x.params == [] && IndexerToDict(x).Ok? && i < |IndexerKeys|
    ensures Get(IndexerToDict(x).value, IndexerKeys[i]) == Kept(Some(SentFixed(x)[i].1))
  {
    SentWireDict(x);
    FixedWireGet(SentFixed(x), i);
  }

  /** Without params, `to_dict` sends the four names unless they are None or empty, and
      `disabled` even when it is false. */
  lemma IndexerWireNames(x: Indexer)
    requires x.params == [] && IndexerToDict(x).Ok?
    ensures var d := IndexerToDict(x).value;
      && Get(d, "name") == Kept(Some(x.name))
      && Get(d, "dataSourceName") == Kept(Some(x.dataSourceName))
      && Get(d, "targetIndexName") == Kept(Some(x.targetIndexName))
      && Get(d, "skillsetName") == Kept(Some(x.skillsetName))
      && Get(d, "disabled") == Kept(Some(x.disabled))
  {
    IndexerWireAt(x, 0);
    IndexerWireAt(x, 1);
    IndexerWireAt(x, 2);
    IndexerWireAt(x, 3);
    IndexerWireAt(x, 7);
  }

  /** Without params, `to_dict` sends the field mappings in order and the parameters' own
      dict; a falsy schedule and falsy output mappings are not sent. */
  lemma IndexerWireObjects(x: Indexer)
    requires x.params == [] && IndexerToDict(x).Ok?
    ensures var d := IndexerToDict(x).value;
      && (x.fieldMappings != [] ==> Get(d, "fieldMappings") == Some(JArr(MappingDicts(x.fieldMappings))))
      && Get(d, "parameters") == Kept(Some(ArgToDict(x.parameters).value))
      && (!ArgTruthy(x.schedule) ==> !HasKey(d, "schedule"))
      && (!ArgTruthy(x.outputFieldMappings) ==> !HasKey(d, "outputFieldMappings"))
  {
    FieldMappingsSent(x);
    OutputMappingsUnsent(x);
    ScheduleUnsent(x);
    ParametersSent(x);
  }

  lemma FieldMappingsSent(x: Indexer)
    requires x.params == [] && IndexerToDict(x).Ok?
    ensures x.fieldMappings != [] ==>
      Get(IndexerToDict(x).value, "fieldMappings") == Some(JArr(MappingDicts(x.fieldMappings)))
  {
    if x.fieldMappings != [] {
      IndexerWireAt(x, 4);
      IndexerKeyNames();
      assert Len(JArr(MappingDicts(x.fieldMappings))) > 0;
      ValueSent(IndexerToDict(x).value, "fieldMappings", SentFixed(x)[4].1);
    }
  }

  /** An entry whose value is neither None nor empty is sent as it is. */
  lemma ValueSent(d: Dict<Json>, k: string, v: Json)
    requires Get(d, k) == Kept(Some(v)) && !IsEmptyValue(v)
    ensures Get(d, k) == Some(v)
  {
  }

  lemma OutputMappingsUnsent(x: Indexer)
    requires x.params == [] && IndexerToDict(x).Ok?
    ensures !ArgTruthy(x.outputFieldMappings) ==> !HasKey(IndexerToDict(x).value, "outputFieldMappings")
  {
    if !ArgTruthy(x.outputFieldMappings) {
      IndexerWireAt(x, 5);
      IndexerKeyNames();
      NullUnsent(IndexerToDict(x).value, "outputFieldMappings", SentFixed(x)[5].1);
    }
  }

  /** An entry whose value is None is not sent. */
  lemma NullUnsent(d: Dict<Json>, k: string, v: Json)
    requires Get(d, k) == Kept(Some(v)) && v == JNull
    ensures !HasKey(d, k)
  {
  }

  lemma ScheduleUnsent(x: Indexer)
    requires x.params == [] && IndexerToDict(x).Ok?
    ensures !ArgTruthy(x.schedule) ==> !HasKey(IndexerToDict(x).value, "schedule")
  {
    if !ArgTruthy(x.schedule) {
      IndexerWireAt(x, 6);
      IndexerKeyNames();
      NullUnsent(IndexerToDict(x).value, "schedule", SentFixed(x)[6].1);
    }
  }

  lemma ParametersSent(x: Indexer)
    requires x.params == [] && IndexerToDict(x).Ok?
    ensures Get(IndexerToDict(x).value, "parameters") == Kept(Some(ArgToDict(x.parameters).value))
  {
    IndexerWireAt(x, 8);
    IndexerKeyNames();
  }

  /** `disabled=False` is sent: stripping keeps false values. */
  lemma DisabledFalseSent(x: Indexer)
    requires x.params == [] && IndexerToDict(x).Ok? && x.disabled == JBool(false)
    ensures Get(IndexerToDict(x).value, "disabled") == Some(JBool(false))
  {
    IndexerWireAt(x, 7);
    IndexerKeyNames();
    FalseNotEmpty();
    assert SentFixed(x)[7].1 == JBool(false);
    ValueSent(IndexerToDict(x).value, "disabled", SentFixed(x)[7].1);
  }

  lemma FalseNotEmpty()
    ensures !IsEmptyValue(JBool(false))
  {
  }

  /** The two default mappings as `to_dict` sends them: the blob path under `id` with
      its base64 encoding, and the content under its own name with no mapping function. */
  lemma DefaultMappingDicts()
    ensures var first := ToDict(DefaultFieldMappings[0]);
      && Get(first, "sourceFieldName") == Some(JStr("metadata_storage_path"))
      && Get(first, "targetFieldName") == Some(JStr("id"))
      && Get(first, "mappingFunction") == Some(JObj([("name", JStr("base64Encode"))]))
    ensures var second := ToDict(DefaultFieldMappings[1]);
      && Get(second, "sourceFieldName") == Some(JStr("content"))
      && Get(second, "targetFieldName") == Some(JStr("content"))
      && !HasKey(second, "mappingFunction")
  {
    var fm := DefaultFieldMappings[0];
    assert fm.mappingFunction == JObj([("name", JStr("base64Encode"))]);
    assert !IsEmptyValue(fm.sourceFieldName) && !IsEmptyValue(fm.targetFieldName) && !IsEmptyValue(fm.mappingFunction);
    var fm2 := DefaultFieldMappings[1];
    assert !IsEmptyValue(fm2.sourceFieldName) && !IsEmptyValue(fm2.targetFieldName) && IsEmptyValue(fm2.mappingFunction);
  }

  /** Every constructed indexer without params sends the two default mappings, whatever
      mappings it was given. */
  lemma ConstructedMappingsSent(kw: Dict<IndexerArg>)
    requires ExtrasPlain(kw) && NewIndexer(kw).Ok?
    requires NewIndexer(kw).value.params == [] && IndexerToDict(NewIndexer(kw).value).Ok?
    ensures Get(IndexerToDict(NewIndexer(kw).value).value, "fieldMappings") == Some(JArr(MappingDicts(DefaultFieldMappings)))
  {
    IndexerWireObjects(NewIndexer(kw).value);
  }

  /** The constructor as evidently intended: the field mappings given are kept, and the
      two defaults are installed only when none are given. Everything else is as built
      by `NewIndexer`. */
  function NewIndexerKeepingMappings(kw: Dict<IndexerArg>, given: seq<FieldMapping>): (r: Result<Indexer>)
    requires ExtrasPlain(kw)
    ensures r.Ok? <==> NewIndexer(kw).Ok?
    ensures r.Ok? && given != [] ==> r.value.fieldMappings == given
    ensures r.Ok? && given == [] ==> r.value.fieldMappings == DefaultFieldMappings
    ensures r.Ok? ==> r.value.(fieldMappings := DefaultFieldMappings) == NewIndexer(kw).value
  {
    var x :- NewIndexer(kw);
    Ok(x.(fieldMappings := if given != [] then given else DefaultFieldMappings))
  }

  /** With the intended constructor, a mapping given alone is what `to_dict` sends under
      `fieldMappings`: its own dict, first and only. */
  lemma GivenMappingSentFirst(kw: Dict<IndexerArg>, fm: FieldMapping)
    requires ExtrasPlain(kw) && NewIndexer(kw).Ok?
    requires NewIndexer(kw).value.params == [] && IndexerToDict(NewIndexer(kw).value).Ok?
    ensures var x := NewIndexerKeepingMappings(kw, [fm]).value;
      IndexerToDict(x).Ok? && Get(IndexerToDict(x).value, "fieldMappings") == Some(JArr(MappingDicts([fm])))
  {
    var x0 := NewIndexer(kw).value;
    var x := NewIndexerKeepingMappings(kw, [fm]).value;
    assert x == x0.(fieldMappings := [fm]);
    MappingsSentAsGiven(x0, [fm]);
  }

  /** Replacing the field mappings of an indexer by a non-empty list sends that list. */
  lemma MappingsSentAsGiven(x: Indexer, fms: seq<FieldMapping>)
    requires x.params == [] && IndexerToDict(x).Ok? && fms != []
    ensures IndexerToDict(x.(fieldMappings := fms)).Ok?
    ensures Get(IndexerToDict(x.(fieldMappings := fms)).value, "fieldMappings") == Some(JArr(MappingDicts(fms)))
  {
    IndexerWireObjects(x.(fieldMappings := fms));
  }

  /** An indexer built without parameters sends the default ones, whose failure limits
      are -1. */
  lemma DefaultParametersOnWire(kw: Dict<IndexerArg>)
    requires ExtrasPlain(kw) && NewIndexer(kw).Ok? && !HasKey(kw, "parameters")
    requires NewIndexer(kw).value.params == [] && IndexerToDict(NewIndexer(kw).value).Ok?
    ensures Get(IndexerToDict(NewIndexer(kw).value).value, "parameters") == Some(JObj(ParametersToDict(NewIndexerParameters([]))))
    ensures Get(ParametersToDict(NewIndexerParameters([])), "maxFailedItems") == Some(JInt(-1))
  {
    DefaultParametersSent([]);
    ParametersSentWhole(NewIndexer(kw).value, NewIndexerParameters([]));
  }

  /** Parameters that send something are sent whole, as their own dict. */
  lemma ParametersSentWhole(x: Indexer, p: IndexerParameters)
    requires x.params == [] && IndexerToDict(x).Ok? && x.parameters == Parameters(p)
    requires ParametersToDict(p) != []
    ensures Get(IndexerToDict(x).value, "parameters") == Some(JObj(ParametersToDict(p)))
  {
    ParametersWireAt(x);
    KeptObj(ParametersToDict(p));
  }

  lemma ParametersWireAt(x: Indexer)
    requires x.params == [] && IndexerToDict(x).Ok?
    ensures Get(IndexerToDict(x).value, "parameters") == Kept(Some(ArgToDict(x.parameters).value))
  {
    IndexerWireAt(x, 8);
  }

  lemma ScheduleWireAt(x: Indexer)
    requires x.params == [] && IndexerToDict(x).Ok?
    ensures Get(IndexerToDict(x).value, "schedule") == Kept(Some(ScheduleDict(x.schedule).value))
  {
    IndexerWireAt(x, 6);
  }

  lemma KeptObj(d: Dict<Json>)
    requires d != []
    ensures Kept(Some(JObj(d))) == Some(JObj(d))
  {
  }

  /** A schedule is sent as its own dict, where a None start time is kept: stripping does
      not reach into nested dicts. */
  lemma ScheduleSentUnstripped(x: Indexer)
    requires x.params == [] && x.schedule.Schedule? && IndexerToDict(x).Ok?
    ensures Get(IndexerToDict(x).value, "schedule")
      == Some(JObj([("interval", x.schedule.s.interval), ("startTime", x.schedule.s.startTime)]))
  {
    ScheduleWireAt(x);
    KeptObj(ScheduleToDict(x.schedule.s));
  }

  /** A param whose key camel-cases onto a wire key replaces the fixed entry, when no other
      param lands on the same key. */
  lemma IndexerParamWins(x: Indexer, k: string)
    requires IndexerToDict(x).Ok? && DistinctKeys(x.params) && HasKey(x.params, k)
    requires forall y :: HasKey(x.params, y) && y != k ==> ToCamelCase(y) != ToCamelCase(k)
    ensures Get(IndexerToDict(x).value, ToCamelCase(k)) == Kept(Get(x.params, k))
  {
    SentWireDict(x);
    FixedParamWins(SentFixed(x), x.params, k);
  }

  lemma FixedParamWins(fixed: Dict<Json>, params: Dict<Json>, k: string)
    requires |fixed| == |IndexerKeys| && forall i :: 0 <= i < |fixed| ==> fixed[i].0 == IndexerKeys[i]
    requires DistinctKeys(params) && HasKey(params, k)
    requires forall y :: HasKey(params, y) && y != k ==> ToCamelCase(y) != ToCamelCase(k)
    ensures Get(WireDict(fixed, params), ToCamelCase(k)) == Kept(Get(params, k))
  {
    IndexerKeysCamel(fixed);
    IndexerKeysDistinct();
    assert DistinctKeys(fixed);
    forall y, z | HasKey(fixed, y) && HasKey(fixed, z) && y != z ensures ToCamelCase(y) != ToCamelCase(z) {
      var i := IndexOf(fixed, y);
      var j := IndexOf(fixed, z);
      assert ToCamelCase(y) == IndexerKeys[i] && ToCamelCase(z) == IndexerKeys[j];
    }
    ParamWins(fixed, params, k);
  }

  // ----- lemmas: load after to_dict -----

  /** An indexer whose payload `load` accepts and rebuilds: no params, some field mappings,
      no schedule and no output mappings, parameters that reload, and non-empty names and
      flag. */
  predicate Resendable(x: Indexer)
  {
    && x.params == [] && x.fieldMappings != []
    && x.outputFieldMappings == Value(JNull) && x.schedule == Value(JNull)
    && x.parameters.Parameters? && x.parameters.p.params == []
    && !IsEmptyValue(x.parameters.p.maxFailedItems) && !IsEmptyValue(x.parameters.p.maxFailedItemsPerBatch)
    && Truthy(x.parameters.p.configuration)
    && !IsEmptyValue(x.name) && !IsEmptyValue(x.dataSourceName) && !IsEmptyValue(x.targetIndexName)
    && !IsEmptyValue(x.skillsetName) && !IsEmptyValue(x.disabled)
  }

  /** A resendable indexer holding the default mappings: `load` gives it back unchanged. */
  predicate Reloadable(x: Indexer)
  {
    Resendable(x) && x.fieldMappings == DefaultFieldMappings
  }

  /** The keys of a reloadable indexer's payload, and after snake-casing. */
  const SentKeys: seq<string> := ["name", "dataSourceName", "targetIndexName", "skillsetName",
    "fieldMappings", "disabled", "parameters"]
  const SentSnakeKeys: seq<string> := ["name", "data_source_name", "target_index_name", "skillset_name",
    "field_mappings", "disabled", "parameters"]

  lemma SentKeysDistinct()
    ensures forall i, j :: 0 <= i < j < |SentKeys| ==> SentKeys[i] != SentKeys[j]
    ensures forall i, j :: 0 <= i < j < |SentSnakeKeys| ==> SentSnakeKeys[i] != SentSnakeKeys[j]
  {
  }

  lemma DataSourceNameKey()
    ensures ToSnakeCase("dataSourceName") == "data_source_name"
  {
    KeyFormsAt(["data", "source", "name"], "data_source_name", "dataSourceName");
  }

  lemma TargetIndexNameKey()
    ensures ToSnakeCase("targetIndexName") == "target_index_name"
  {
    KeyFormsAt(["target", "index", "name"], "target_index_name", "targetIndexName");
  }

  lemma SkillsetNameKey()
    ensures ToSnakeCase("skillsetName") == "skillset_name"
  {
    KeyFormsAt(["skillset", "name"], "skillset_name", "skillsetName");
  }

  lemma FieldMappingsKey()
    ensures ToSnakeCase("fieldMappings") == "field_mappings"
  {
    KeyFormsAt(["field", "mappings"], "field_mappings", "fieldMappings");
  }

  lemma NameKey()
    ensures ToSnakeCase("name") == "name"
  {
    FixedKey("name");
  }

  lemma DisabledKey()
    ensures ToSnakeCase("disabled") == "disabled"
  {
    FixedKey("disabled");
  }

  lemma SentSnakeAt(i: nat)
    requires i < |SentKeys|
    ensures ToSnakeCase(SentKeys[i]) == SentSnakeKeys[i]
  {
    if i == 0 {
      NameKey();
    } else if i == 1 {
      SentSnake1();
    } else if i == 2 {
      SentSnake2();
    } else if i == 3 {
      SentSnake3();
    } else if i == 4 {
      SentSnake4();
    } else if i == 5 {
      DisabledKey();
    } else {
      ParametersKey();
    }
  }

  lemma SentSnake1()
    ensures ToSnakeCase(SentKeys[1]) == SentSnakeKeys[1]
  {
    DataSourceNameKey();
  }

  lemma SentSnake2()
    ensures ToSnakeCase(SentKeys[2]) == SentSnakeKeys[2]
  {
    TargetIndexNameKey();
  }

  lemma SentSnake3()
    ensures ToSnakeCase(SentKeys[3]) == SentSnakeKeys[3]
  {
    SkillsetNameKey();
  }

  lemma SentSnake4()
    ensures ToSnakeCase(SentKeys[4]) == SentSnakeKeys[4]
  {
    FieldMappingsKey();
  }

  /** Stripping drops the two None entries, the output mappings and the schedule. */
  lemma StripScheduleAndOutputs(fixed: Dict<Json>)
    requires |fixed| == |IndexerKeys|
    requires fixed[5].1 == JNull && fixed[6].1 == JNull
    requires forall i :: 0 <= i < |fixed| && i != 5 && i != 6 ==> !IsEmptyValue(fixed[i].1)
    ensures RemoveEmptyValues(fixed) == fixed[..5] + fixed[7..]
  {
    assert fixed == fixed[..5] + fixed[5..7] + fixed[7..];
    StripMiddle(fixed[..5], fixed[5..7], fixed[7..]);
  }

  /** Stripping a dict whose middle is empty and whose ends are not drops the middle. */
  lemma StripMiddle(a: Dict<Json>, m: Dict<Json>, b: Dict<Json>)
    requires forall i :: 0 <= i < |a| ==> !IsEmptyValue(a[i].1)
    requires forall i :: 0 <= i < |m| ==> IsEmptyValue(m[i].1)
    requires forall i :: 0 <= i < |b| ==> !IsEmptyValue(b[i].1)
    ensures RemoveEmptyValues(a + m + b) == a + b
  {
    calc {
      RemoveEmptyValues(a + m + b);
      { RemoveEmptyValuesAppend(a + m, b); }
      RemoveEmptyValues(a + m) + RemoveEmptyValues(b);
      { RemoveEmptyValuesAppend(a, m); }
      RemoveEmptyValues(a) + RemoveEmptyValues(m) + RemoveEmptyValues(b);
      { RemoveEmptyValuesAllEmpty(m); RemoveEmptyValuesNone(a); RemoveEmptyValuesNone(b); }
      a + [] + b;
      { assert a + [] == a; }
      a + b;
    }
  }

  /** A reloadable indexer's payload is its fixed dict without those two entries. */
  lemma SentWire(fixed: Dict<Json>)
    requires |fixed| == |IndexerKeys| && forall i :: 0 <= i < |fixed| ==> fixed[i].0 == IndexerKeys[i]
    requires fixed[5].1 == JNull && fixed[6].1 == JNull
    requires forall i :: 0 <= i < |fixed| && i != 5 && i != 6 ==> !IsEmptyValue(fixed[i].1)
    ensures WireDict(fixed, []) == fixed[..5] + fixed[7..]
  {
    WireDictNoParams(fixed);
    FixedCamel(fixed);
    StripScheduleAndOutputs(fixed);
  }

  /** Camel-casing keeps the fixed keys. */
  lemma FixedCamel(fixed: Dict<Json>)
    requires |fixed| == |IndexerKeys| && forall i :: 0 <= i < |fixed| ==> fixed[i].0 == IndexerKeys[i]
    ensures ToCamelCaseDict(fixed) == fixed
  {
    IndexerKeysCamel(fixed);
    IndexerKeysDistinct();
    assert DistinctKeys(fixed);
    RekeyIdentity(fixed, ToCamelCase);
  }

  lemma SentKeysOf(fixed: Dict<Json>)
    requires |fixed| == |IndexerKeys| && forall i :: 0 <= i < |fixed| ==> fixed[i].0 == IndexerKeys[i]
    ensures var w := fixed[..5] + fixed[7..];
      && |w| == |SentKeys| && (forall i :: 0 <= i < |w| ==> w[i].0 == SentKeys[i])
      && w[0] == fixed[0] && w[1] == fixed[1] && w[2] == fixed[2] && w[3] == fixed[3]
      && w[5] == fixed[7] && w[6] == fixed[8]
  {
  }

  /** Keys that snake-case to the loaded keys: the keys of a reloadable indexer's payload. */
  predicate SnakeShape(keys: seq<string>)
  {
    |keys| == |SentKeys| && forall i :: 0 <= i < |keys| ==> ToSnakeCase(keys[i]) == SentSnakeKeys[i]
  }

  /** Keys with `parameters` last and no schedule. */
  predicate ParamShape(keys: seq<string>)
  {
    && |keys| == |SentKeys|
    && (forall i :: 0 <= i < |keys| ==> keys[i] != "schedule")
    && (forall i :: 0 <= i < 6 ==> keys[i] != "parameters")
    && keys[6] == "parameters"
  }

  predicate SentShape(keys: seq<string>)
  {
    SnakeShape(keys) && ParamShape(keys)
  }

  lemma SentKeysShape()
    ensures SentShape(SentKeys)
  {
    forall i | 0 <= i < |SentKeys| ensures ToSnakeCase(SentKeys[i]) == SentSnakeKeys[i] {
      SentSnakeAt(i);
    }
  }

  /** `load` puts the loaded parameters in place of their payload. */
  lemma LoadedParametersEntry(w: Dict<Json>, p: IndexerParameters, keys: seq<string>)
    requires ParamShape(keys) && |w| == |keys| && forall i :: 0 <= i < |w| ==> w[i].0 == keys[i]
    requires LoadIndexerParameters(w[6].1) == Ok(p)
    ensures WithLoadedParameters(w, PlainIndexerArgs(w)) == Ok(PlainIndexerArgs(w)[6 := ("parameters", Parameters(p))])
  {
    PositionGet(w, 6, "parameters");
    var kw := PlainIndexerArgs(w);
    PutAt(kw, 6, "parameters", Parameters(p));
  }

  lemma NoScheduleSent(w: Dict<Json>, keys: seq<string>)
    requires ParamShape(keys) && |w| == |keys| && forall i :: 0 <= i < |w| ==> w[i].0 == keys[i]
    ensures !HasKey(w, "schedule")
  {
  }

  /** The snake-cased arguments `load` passes to the constructor. */
  lemma LoadedSnake(kw: Dict<IndexerArg>, keys: seq<string>)
    requires SnakeShape(keys) && |kw| == |keys| && forall i :: 0 <= i < |kw| ==> kw[i].0 == keys[i]
    ensures |ToSnakeCaseDict(kw)| == |kw|
    ensures forall i :: 0 <= i < |kw| ==> ToSnakeCaseDict(kw)[i] == (SentSnakeKeys[i], kw[i].1)
  {
    SentKeysDistinct();
    RekeyTo(kw, ToSnakeCase, SentSnakeKeys);
  }

  /** The constructor on the seven loaded arguments. */
  lemma NewFromLoaded(kw: Dict<IndexerArg>)
    requires |kw| == |SentSnakeKeys| && forall i :: 0 <= i < |kw| ==> kw[i].0 == SentSnakeKeys[i]
    requires forall i :: 0 <= i < |kw| && i != 6 ==> kw[i].1.Value?
    ensures ExtrasPlain(kw)
    ensures NewIndexer(kw) == Ok(Indexer(kw[0].1.j, kw[1].1.j, kw[2].1.j, kw[3].1.j, DefaultFieldMappings,
      Value(JNull), Value(JNull), kw[5].1.j, kw[6].1, []))
  {
    SentKeysDistinct();
    PositionGet(kw, 0, "name");
    PositionGet(kw, 1, "data_source_name");
    PositionGet(kw, 2, "target_index_name");
    PositionGet(kw, 3, "skillset_name");
    PositionGet(kw, 5, "disabled");
    PositionGet(kw, 6, "parameters");
    assert !HasKey(kw, "output_field_mappings") && !HasKey(kw, "schedule") && !HasKey(kw, "service_name");
    WithoutEveryKey(kw, IndexerNames);
  }

  /** The fixed dict of a reloadable indexer: None under the output mappings and the
      schedule, nothing empty elsewhere. */
  lemma ReloadableFixed(x: Indexer)
    requires Resendable(x)
    ensures Sendable(x)
    ensures SentFixed(x)[5].1 == JNull && SentFixed(x)[6].1 == JNull
    ensures SentFixed(x)[8].1 == JObj(ParametersToDict(x.parameters.p))
    ensures forall i :: 0 <= i < |SentFixed(x)| && i != 5 && i != 6 ==> !IsEmptyValue(SentFixed(x)[i].1)
  {
    var p := x.parameters.p;
    var d := SentFixed(x);
    ParametersSentNonEmpty(p);
    MappingsNonEmpty(x.fieldMappings);
    assert d[4].1 == JArr(MappingDicts(x.fieldMappings));
    assert d[8].1 == JObj(ParametersToDict(p));
    assert d[0].1 == x.name && d[1].1 == x.dataSourceName && d[2].1 == x.targetIndexName;
    assert d[3].1 == x.skillsetName && d[7].1 == x.disabled;
    NonEmptyOutside(d);
  }

  lemma NonEmptyOutside(d: Dict<Json>)
    requires |d| == 9
    requires !IsEmptyValue(d[0].1) && !IsEmptyValue(d[1].1) && !IsEmptyValue(d[2].1) && !IsEmptyValue(d[3].1)
    requires !IsEmptyValue(d[4].1) && !IsEmptyValue(d[7].1) && !IsEmptyValue(d[8].1)
    ensures forall i :: 0 <= i < |d| && i != 5 && i != 6 ==> !IsEmptyValue(d[i].1)
  {
    forall i | 0 <= i < |d| && i != 5 && i != 6 ensures !IsEmptyValue(d[i].1) {
      assert i in {0, 1, 2, 3, 4, 7, 8};
    }
  }

  lemma MappingsNonEmpty(fms: seq<FieldMapping>)
    requires fms != []
    ensures !IsEmptyValue(JArr(MappingDicts(fms)))
  {
    assert |MappingDicts(fms)| > 0;
  }

  lemma ParametersSentNonEmpty(p: IndexerParameters)
    requires p.params == [] && !IsEmptyValue(p.maxFailedItems)
    ensures !IsEmptyValue(JObj(ParametersToDict(p)))
  {
    ParametersWireGet(p, 0);
    GetNonEmpty(ParametersToDict(p), ParametersWireKeys[0]);
  }

  lemma GetNonEmpty(d: Dict<Json>, k: string)
    requires Get(d, k).Some?
    ensures !IsEmptyValue(JObj(d))
  {
    assert IndexOf(d, k) < |d|;
  }

  /** `load` on a payload with the seven sent keys whose parameters reload: the mappings
      sent are replaced by the defaults, and nothing else is lost. */
  lemma LoadSentIndexer(w: Dict<Json>, p: IndexerParameters, keys: seq<string>)
    requires SentShape(keys) && |w| == |keys| && forall i :: 0 <= i < |w| ==> w[i].0 == keys[i]
    requires LoadIndexerParameters(w[6].1) == Ok(p)
    ensures LoadIndexer(JObj(w)) == Ok(Indexer(w[0].1, w[1].1, w[2].1, w[3].1, DefaultFieldMappings,
      Value(JNull), Value(JNull), w[5].1, Parameters(p), []))
  {
    var kw := PlainIndexerArgs(w)[6 := ("parameters", Parameters(p))];
    LoadedArgsShape(w, p, keys);
    LoadSentArgs(w, p, keys);
    ConstructSent(w, kw, keys);
  }

  lemma LoadedArgsShape(w: Dict<Json>, p: IndexerParameters, keys: seq<string>)
    requires ParamShape(keys) && |w| == |keys| && forall i :: 0 <= i < |w| ==> w[i].0 == keys[i]
    ensures var kw := PlainIndexerArgs(w)[6 := ("parameters", Parameters(p))];
      && |kw| == |keys| && (forall i :: 0 <= i < |kw| ==> kw[i].0 == keys[i])
      && (forall i :: 0 <= i < |w| && i != 6 ==> kw[i].1 == Value(w[i].1))
      && kw[6].1 == Parameters(p)
      && OnlyParametersObject(kw)
  {
  }

  /** What `load` passes to the constructor: the payload with its parameters loaded. */
  lemma LoadSentArgs(w: Dict<Json>, p: IndexerParameters, keys: seq<string>)
    requires ParamShape(keys) && |w| == |keys| && forall i :: 0 <= i < |w| ==> w[i].0 == keys[i]
    requires LoadIndexerParameters(w[6].1) == Ok(p)
    ensures var kw := PlainIndexerArgs(w)[6 := ("parameters", Parameters(p))];
      OnlyParametersObject(kw) && LoadIndexer(JObj(w)) == NewLoaded(kw)
  {
    NoScheduleSent(w, keys);
    LoadedParametersEntry(w, p, keys);
  }

  lemma ConstructSent(w: Dict<Json>, kw: Dict<IndexerArg>, keys: seq<string>)
    requires SnakeShape(keys) && |w| == |keys| && |kw| == |keys| && forall i :: 0 <= i < |kw| ==> kw[i].0 == keys[i]
    requires forall i :: 0 <= i < |w| && i != 6 ==> kw[i].1 == Value(w[i].1)
    requires OnlyParametersObject(kw)
    ensures NewLoaded(kw) == Ok(Indexer(w[0].1, w[1].1, w[2].1, w[3].1, DefaultFieldMappings,
      Value(JNull), Value(JNull), w[5].1, kw[6].1, []))
  {
    LoadedSnake(kw, keys);
    NewFromSnake(ToSnakeCaseDict(kw), w, kw[6].1);
  }

  lemma NewFromSnake(sk: Dict<IndexerArg>, w: Dict<Json>, q: IndexerArg)
    requires |w| == |SentKeys| && |sk| == |SentSnakeKeys| && forall i :: 0 <= i < |sk| ==> sk[i].0 == SentSnakeKeys[i]
    requires forall i :: 0 <= i < |sk| && i != 6 ==> sk[i].1 == Value(w[i].1)
    requires sk[6].1 == q
    ensures ExtrasPlain(sk)
    ensures NewIndexer(sk) == Ok(Indexer(w[0].1, w[1].1, w[2].1, w[3].1, DefaultFieldMappings,
      Value(JNull), Value(JNull), w[5].1, q, []))
  {
    NewFromLoaded(sk);
  }

  /** `Indexer.load(x.to_dict())` rebuilds a resendable indexer, except that its field
      mappings are replaced by the default ones, as the constructor always does. */
  lemma IndexerResend(x: Indexer)
    requires Resendable(x)
    ensures IndexerToDict(x).Ok?
    ensures LoadIndexer(JObj(IndexerToDict(x).value)) == Ok(x.(fieldMappings := DefaultFieldMappings))
  {
    var p := x.parameters.p;
    ResendPayload(x);
    var w := IndexerToDict(x).value;
    ParametersRoundTrip(p);
    SentKeysShape();
    LoadSentIndexer(w, p, SentKeys);
  }

  /** The payload of a resendable indexer: its names, mappings, flag and parameters under
      the seven sent keys. */
  lemma ResendPayload(x: Indexer)
    requires Resendable(x)
    ensures IndexerToDict(x).Ok?
    ensures var w := IndexerToDict(x).value;
      && |w| == |SentKeys| && (forall i :: 0 <= i < |w| ==> w[i].0 == SentKeys[i])
      && w[0].1 == x.name && w[1].1 == x.dataSourceName && w[2].1 == x.targetIndexName
      && w[3].1 == x.skillsetName && w[5].1 == x.disabled
      && w[6].1 == JObj(ParametersToDict(x.parameters.p))
  {
    ReloadableFixed(x);
    var fixed := SentFixed(x);
    SentWireDict(x);
    SentWire(fixed);
    SentKeysOf(fixed);
  }

  /** `Indexer.load(x.to_dict())` gives x back when x is reloadable. */
  lemma IndexerRoundTrip(x: Indexer)
    requires Reloadable(x)
    ensures IndexerToDict(x).Ok? && LoadIndexer(JObj(IndexerToDict(x).value)) == Ok(x)
  {
    IndexerResend(x);
  }
}
