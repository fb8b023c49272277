/** Index fields: the field classes, their construction-time validation, their wire form
    and `Field.load`, which picks the class from the `type` entry of the payload. */
module Fields {
  import opened Wire
  import opened SearchObject

  /** The field classes: the base class and its eight subclasses. */
  datatype FieldKind =
    | PlainField | StringField | CollectionField | Int32Field | Int64Field
    | DoubleField | BooleanField | DateTimeOffsetField | GeographyPointField

  /** The Python type a document value of the field must have (`python_type`), as a tag;
      NoPyType is the classes whose `python_type` is None. */
  datatype PyType = NoPyType | PyStr | PyInt | PyFloat | PyBool

  function PythonType(kind: FieldKind): PyType
  {
    match kind
    case StringField => PyStr
    case Int32Field => PyInt
    case Int64Field => PyInt
    case DoubleField => PyFloat
    case BooleanField => PyBool
    case _ => NoPyType
  }

  /** A field. explicitType is the `_field_type` attribute, JNull when it is not set;
      params is the bag of extra keyword arguments. */
  datatype Field = Field(
    kind: FieldKind, name: Json, explicitType: Json, indexName: Json,
    searchable: Json, filterable: Json, retrievable: Json, sortable: Json, facetable: Json, key: Json,
    indexAnalyzer: Json, searchAnalyzer: Json, analyzer: Json, synonymMaps: Json,
    params: Dict<Json>)

  const CollectionType := "Collection(Edm.String)"

  /** The keys of `TYPES`, in order. */
  const TypeNames: seq<string> := ["Edm.String", CollectionType, "Edm.Int32", "Edm.Int64",
    "Edm.Double", "Edm.Boolean", "Edm.DateTimeOffset", "Edm.GeographyPoint"]

  /** `TYPES[name]`: the class registered under a type name. */
  function KindOf(name: string): (r: Option<FieldKind>)
    ensures r.Some? <==> name in TypeNames
    ensures r.Some? ==> r.value != PlainField
  {
    if name == "Edm.String" then Some(StringField)
    else if name == CollectionType then Some(CollectionField)
    else if name == "Edm.Int32" then Some(Int32Field)
    else if name == "Edm.Int64" then Some(Int64Field)
    else if name == "Edm.Double" then Some(DoubleField)
    else if name == "Edm.Boolean" then Some(BooleanField)
    else if name == "Edm.DateTimeOffset" then Some(DateTimeOffsetField)
    else if name == "Edm.GeographyPoint" then Some(GeographyPointField)
    else None
  }

  /** The class name with "Field" removed. */
  function Stem(kind: FieldKind): string
  {
    match kind
    case PlainField => ""
    case StringField => "String"
    case CollectionField => "Collection"
    case Int32Field => "Int32"
    case Int64Field => "Int64"
    case DoubleField => "Double"
    case BooleanField => "Boolean"
    case DateTimeOffsetField => "DateTimeOffset"
    case GeographyPointField => "GeographyPoint"
  }

  /** The `field_type` property: the instance's `_field_type` when it is set, then the
      class attribute (only CollectionField has one), then "Edm." and the class name
      without "Field". */
  function ReportedType(kind: FieldKind, explicitType: Json): Json
  {
    if explicitType != JNull then explicitType
    else if kind == CollectionField then JStr(CollectionType)
    else JStr("Edm." + Stem(kind))
  }

  function FieldType(f: Field): Json
  {
    ReportedType(f.kind, f.explicitType)
  }

  /** One of the eight wire types. */
  predicate ValidType(t: Json)
  {
    t.JStr? && t.s in TypeNames
  }

  const TypesMessage := "Azure Search only supports these types: dict_keys(['Edm.String', "
    + "'Collection(Edm.String)', 'Edm.Int32', 'Edm.Int64', 'Edm.Double', 'Edm.Boolean', "
    + "'Edm.DateTimeOffset', 'Edm.GeographyPoint'])"

  const NameMessage := "Field must have a name"

  /** `_validate_type`: membership in the keys of `TYPES`; a list or dict cannot even be
      looked up. */
  function ValidateType(t: Json): (r: Result<()>)
    ensures r.Ok? <==> ValidType(t)
    ensures r.Err? ==> r.exc == (if Hashable(t) then ValueError(TypesMessage) else TypeError("unhashable type"))
  {
    if !Hashable(t) then Err(TypeError("unhashable type"))
    else if t.JStr? && t.s in TypeNames then Ok(())
    else Err(ValueError(TypesMessage))
  }

  /** A name that `_validate_name` accepts: neither None nor "". */
  predicate ValidName(name: Json)
  {
    name != JNull && name != JStr("")
  }

  /** `_validate_name`. */
  function ValidateName(name: Json): (r: Result<()>)
    ensures r.Ok? <==> ValidName(name)
    ensures r.Err? ==> r.exc == ValueError(NameMessage)
  {
    if name == JNull || name == JStr("") then Err(ValueError(NameMessage)) else Ok(())
  }

  /** The parameters `Field.__init__` declares; every other keyword argument goes to the
      params bag. */
  const FieldParameters: set<string> := {"name", "field_type", "index_name", "searchable",
    "filterable", "retrievable", "sortable", "facetable", "key", "index_analyzer",
    "search_analyzer", "analyzer", "synonym_maps"}

  /** `Field.__init__` run on an instance of class kind with the keyword arguments kw: the
      attributes take the arguments or their defaults, then the type is validated and
      then the name. */
  function InitField(kind: FieldKind, kw: Dict<Json>): (r: Result<Field>)
    ensures !HasKey(kw, "name") ==> r == Err(MissingArgument("name"))
    ensures r.Ok? ==> r.value == Attributes(kind, kw) && ValidType(FieldType(r.value)) && ValidName(r.value.name)
  {
    if !HasKey(kw, "name") then Err(MissingArgument("name"))
    else
      var f := Attributes(kind, kw);
      var _ :- ValidateType(FieldType(f));
      var _ :- ValidateName(f.name);
      Ok(f)
  }

  /** The attributes `Field.__init__` assigns: each argument or its default, and the
      unbound keyword arguments as params. */
  function Attributes(kind: FieldKind, kw: Dict<Json>): Field
    requires HasKey(kw, "name")
  {
    Field(kind, Get(kw, "name").value, GetOr(kw, "field_type", JNull),
      GetOr(kw, "index_name", JNull),
      GetOr(kw, "searchable", JBool(false)), GetOr(kw, "filterable", JBool(true)),
      GetOr(kw, "retrievable", JBool(true)), GetOr(kw, "sortable", JBool(false)),
      GetOr(kw, "facetable", JBool(false)), GetOr(kw, "key", JBool(false)),
      GetOr(kw, "index_analyzer", JNull), GetOr(kw, "search_analyzer", JNull),
      GetOr(kw, "analyzer", JNull), GetOr(kw, "synonym_maps", JNull),
      WithoutKeys(kw, FieldParameters))
  }

  /** The keyword arguments a subclass constructor hands on to `Field.__init__`. */
  function BaseKwargs(kind: FieldKind, kw: Dict<Json>): Dict<Json>
  {
    match kind
    case StringField => WithoutKeys(kw, {"searchable", "key"})
    case CollectionField => Put(CollectionRest(kw), "field_type", JStr(CollectionType))
    case GeographyPointField => Put(WithoutKeys(kw, {"facetable"}), "facetable", JBool(false))
    case _ => kw
  }

  /** CollectionField's `**kwargs` after it forces `sortable=False`. */
  function CollectionRest(kw: Dict<Json>): Dict<Json>
  {
    Put(WithoutKeys(kw, {"searchable", "key"}), "sortable", JBool(false))
  }

  /** The constructor of each class, called with keyword arguments. StringField overwrites
      `searchable` and `key` after the base constructor; CollectionField forces
      `sortable=False`, passes its own type positionally (so a `field_type` argument is
      given twice) and drops `key`; GeographyPointField forces `facetable=False`. */
  function NewField(kind: FieldKind, kw: Dict<Json>): (r: Result<Field>)
    ensures r.Ok? ==> r.value.kind == kind && ValidType(FieldType(r.value)) && ValidName(r.value.name)
  {
    match kind
    case StringField =>
      var f :- InitField(kind, BaseKwargs(kind, kw));
      Ok(f.(key := GetOr(kw, "key", JBool(false)), searchable := GetOr(kw, "searchable", JBool(true))))
    case CollectionField =>
      if !HasKey(kw, "name") then Err(MissingArgument("name"))
      else if HasKey(CollectionRest(kw), "field_type") then Err(DuplicateArgument("field_type"))
      else
        var f :- InitField(kind, BaseKwargs(kind, kw));
        Ok(f.(searchable := GetOr(kw, "searchable", JBool(true))))
    case _ =>
      InitField(kind, BaseKwargs(kind, kw))
  }

  /** What the base constructor finds under parameter p when class kind is called with
      kw: the subclass's own parameters are gone, and the values it forces are there. */
  function BoundLookup(kind: FieldKind, kw: Dict<Json>, p: string): Option<Json>
  {
    match kind
    case StringField => if p in {"searchable", "key"} then None else Get(kw, p)
    case CollectionField =>
      if p == "field_type" then Some(JStr(CollectionType))
      else if p == "sortable" then Some(JBool(false))
      else if p in {"searchable", "key"} then None
      else Get(kw, p)
    case GeographyPointField => if p == "facetable" then Some(JBool(false)) else Get(kw, p)
    case _ => Get(kw, p)
  }

  /** The call binds: a name is given, and CollectionField is not given a second type. */
  predicate Binds(kind: FieldKind, kw: Dict<Json>)
  {
    HasKey(kw, "name") && !(kind == CollectionField && HasKey(kw, "field_type"))
  }

  /** The type the new field reports. */
  function BoundType(kind: FieldKind, kw: Dict<Json>): Json
  {
    ReportedType(kind, if kind == CollectionField then JStr(CollectionType) else GetOr(kw, "field_type", JNull))
  }

  // ----- to_dict -----

  /** The keys of the wire form, in order. */
  const WireKeys: seq<string> := ["name", "type", "searchable", "filterable", "sortable",
    "facetable", "key", "retrievable", "analyzer", "searchAnalyzer", "indexAnalyzer", "synonymMaps"]

  function FieldFixed(f: Field): (d: Dict<Json>)
    ensures |d| == |WireKeys| && forall i :: 0 <= i < |d| ==> d[i].0 == WireKeys[i]
  {
    [("name", f.name), ("type", FieldType(f)), ("searchable", f.searchable),
     ("filterable", f.filterable), ("sortable", f.sortable), ("facetable", f.facetable),
     ("key", f.key), ("retrievable", f.retrievable), ("analyzer", f.analyzer),
     ("searchAnalyzer", f.searchAnalyzer), ("indexAnalyzer", f.indexAnalyzer),
     ("synonymMaps", f.synonymMaps)]
  }

  /** `Field.to_dict`. */
  function FieldToDict(f: Field): Dict<Json>
  {
    WireDict(FieldFixed(f), f.params)
  }

  // ----- load -----

  const LoadFailedMessage := "Failed to load JSON file with field data"

  /** `Field.load(data, **kwargs)`: falsy data and a non-dict raise; the class is
      `TYPES[data.pop('type')]`, so a missing or unknown type is a KeyError; the rest of
      the data overrides kwargs, the keys are snake-cased and the class is constructed. */
  function LoadField(data: Json, kwargs: Dict<Json>): (r: Result<Field>)
    ensures !Truthy(data) ==> r == Err(Exception("data is None"))
    ensures Truthy(data) && !data.JObj? ==> r == Err(Exception(LoadFailedMessage))
    ensures Truthy(data) && data.JObj? && !HasKey(data.members, "type") ==> r == Err(KeyError)
    ensures (Truthy(data) && data.JObj? && HasKey(data.members, "type") && Hashable(Get(data.members, "type").value)
             && !ValidType(Get(data.members, "type").value)) ==> r == Err(KeyError)
    ensures r.Ok? ==> (data.JObj? && HasKey(data.members, "type") && ValidType(Get(data.members, "type").value)
                       && Some(r.value.kind) == KindOf(Get(data.members, "type").value.s))
  {
    if !Truthy(data) then Err(Exception("data is None"))
    else if !data.JObj? then Err(Exception(LoadFailedMessage))
    else
      var m := data.members;
      match Get(m, "type")
      case None => Err(KeyError)
      case Some(t) =>
        if !Hashable(t) then Err(TypeError("unhashable type"))
        else if !t.JStr? || KindOf(t.s).None? then Err(KeyError)
        else NewField(KindOf(t.s).value, ToSnakeCaseDict(PutAll(kwargs, WithoutKeys(m, {"type"}))))
  }

  /** The caller's data after `load`: a dict that reaches the lookup has lost its `type`
      entry, whether or not the type is known; anything else is left as it was. */
  function DataAfterLoad(data: Json): (after: Json)
    ensures !(Truthy(data) && data.JObj?) ==> after == data
    ensures Truthy(data) && data.JObj? ==> after.JObj? && !HasKey(after.members, "type")
  {
    if Truthy(data) && data.JObj? && HasKey(data.members, "type") then JObj(WithoutKeys(data.members, {"type"}))
    else data
  }

  // ----- lemmas: construction -----

  /** The subclass constructors hand on exactly what BoundLookup describes. */
  lemma BaseKwargsGet(kind: FieldKind, kw: Dict<Json>, p: string)
    requires kind == CollectionField ==> !HasKey(kw, "field_type")
    ensures Get(BaseKwargs(kind, kw), p) == BoundLookup(kind, kw, p)
  {
    match kind
    case StringField => WithoutKeysGet(kw, {"searchable", "key"}, p);
    case CollectionField => CollectionKwargsGet(kw, p);
    case GeographyPointField => WithoutKeysGet(kw, {"facetable"}, p);
    case _ =>
  }

  lemma CollectionKwargsGet(kw: Dict<Json>, p: string)
    ensures Get(BaseKwargs(CollectionField, kw), p) == BoundLookup(CollectionField, kw, p)
  {
    if p != "field_type" {
      CollectionRestGet(kw, p);
    }
  }

  /** CollectionField's `**kwargs`: `searchable` and `key` gone, `sortable` forced. */
  lemma CollectionRestGet(kw: Dict<Json>, p: string)
    ensures Get(CollectionRest(kw), p) ==
      if p == "sortable" then Some(JBool(false)) else if p in {"searchable", "key"} then None else Get(kw, p)
  {
    if p != "sortable" {
      WithoutKeysGet(kw, {"searchable", "key"}, p);
    }
  }

  /** Without a name the call fails to bind; CollectionField given a `field_type` fails
      as a duplicate argument. */
  lemma NewFieldBinding(kind: FieldKind, kw: Dict<Json>)
    ensures !HasKey(kw, "name") ==> NewField(kind, kw) == Err(MissingArgument("name"))
    ensures kind == CollectionField && HasKey(kw, "name") && HasKey(kw, "field_type") ==>
      NewField(kind, kw) == Err(DuplicateArgument("field_type"))
  {
    if !HasKey(kw, "name") {
      NoNameFails(kind, kw);
    } else if kind == CollectionField && HasKey(kw, "field_type") {
      CollectionTypeTwice(kw);
    }
  }

  lemma NoNameFails(kind: FieldKind, kw: Dict<Json>)
    requires !HasKey(kw, "name")
    ensures NewField(kind, kw) == Err(MissingArgument("name"))
  {
    if kind != CollectionField {
      BaseKwargsGet(kind, kw, "name");
    }
  }

  lemma CollectionTypeTwice(kw: Dict<Json>)
    requires HasKey(kw, "name") && HasKey(kw, "field_type")
    ensures NewField(CollectionField, kw) == Err(DuplicateArgument("field_type"))
  {
    CollectionRestGet(kw, "field_type");
    assert HasKey(CollectionRest(kw), "field_type");
  }

  /** The base constructor's checks, in order: binding, type, name. */
  lemma InitFieldOutcome(kind: FieldKind, kw: Dict<Json>)
    requires HasKey(kw, "name")
    ensures var t := ReportedType(kind, GetOr(kw, "field_type", JNull));
      && (InitField(kind, kw).Ok? <==> ValidType(t) && ValidName(Get(kw, "name").value))
      && (!ValidType(t) ==> InitField(kind, kw) == Err(ValidateType(t).exc))
      && (ValidType(t) && !ValidName(Get(kw, "name").value) ==> InitField(kind, kw) == Err(ValueError(NameMessage)))
  {
  }

  /** The outcome of construction: it succeeds exactly when the call binds, the reported
      type is one of the eight and the name is neither None nor ""; the type is checked
      first, so a bad type is reported whatever the name. */
  lemma NewFieldOutcome(kind: FieldKind, kw: Dict<Json>)
    ensures NewField(kind, kw).Ok? <==>
      Binds(kind, kw) && ValidType(BoundType(kind, kw)) && ValidName(GetOr(kw, "name", JNull))
    ensures Binds(kind, kw) && !ValidType(BoundType(kind, kw)) ==>
      NewField(kind, kw) == Err(ValidateType(BoundType(kind, kw)).exc)
    ensures Binds(kind, kw) && ValidType(BoundType(kind, kw)) && !ValidName(GetOr(kw, "name", JNull)) ==>
      NewField(kind, kw) == Err(ValueError(NameMessage))
  {
    NewFieldBinding(kind, kw);
    if Binds(kind, kw) {
      BoundOutcome(kind, kw);
    }
  }

  /** NewFieldOutcome for a call that binds: the base constructor decides. */
  lemma BoundOutcome(kind: FieldKind, kw: Dict<Json>)
    requires Binds(kind, kw)
    ensures NewField(kind, kw).Ok? <==> ValidType(BoundType(kind, kw)) && ValidName(GetOr(kw, "name", JNull))
    ensures !ValidType(BoundType(kind, kw)) ==> NewField(kind, kw) == Err(ValidateType(BoundType(kind, kw)).exc)
    ensures ValidType(BoundType(kind, kw)) && !ValidName(GetOr(kw, "name", JNull)) ==>
      NewField(kind, kw) == Err(ValueError(NameMessage))
  {
    BaseNameAndType(kind, kw);
    InitFieldOutcome(kind, BaseKwargs(kind, kw));
    if kind == CollectionField {
      CollectionRestType(kw);
    }
  }

  /** The base constructor of a call that binds gets the name, and reports the type the
      call binds. */
  lemma BaseNameAndType(kind: FieldKind, kw: Dict<Json>)
    requires Binds(kind, kw)
    ensures var b := BaseKwargs(kind, kw);
      HasKey(b, "name") && Get(b, "name").value == GetOr(kw, "name", JNull)
      && ReportedType(kind, GetOr(b, "field_type", JNull)) == BoundType(kind, kw)
  {
    BaseKwargsGet(kind, kw, "name");
    BaseKwargsGet(kind, kw, "field_type");
    BoundName(kind, kw);
    TypeFromBase(kind, kw, BaseKwargs(kind, kw));
  }

  /** No class binds `name` itself. */
  lemma BoundName(kind: FieldKind, kw: Dict<Json>)
    ensures BoundLookup(kind, kw, "name") == Get(kw, "name")
  {
    assert "name" !in {"searchable", "key"};
  }

  /** The type reported from what the base constructor finds under `field_type`. */
  lemma TypeFromBase(kind: FieldKind, kw: Dict<Json>, b: Dict<Json>)
    requires Get(b, "field_type") == BoundLookup(kind, kw, "field_type")
    ensures ReportedType(kind, GetOr(b, "field_type", JNull)) == BoundType(kind, kw)
  {
    assert "field_type" !in {"searchable", "key"};
  }

  /** CollectionField hands a `field_type` argument on to the base constructor. */
  lemma CollectionRestType(kw: Dict<Json>)
    ensures Get(CollectionRest(kw), "field_type") == Get(kw, "field_type")
  {
    CollectionRestGet(kw, "field_type");
  }

  /** The base class has no type of its own: without an explicit `field_type` it reports
      "Edm.", which is not a wire type. */
  lemma BaseFieldNeedsType(kw: Dict<Json>)
    requires HasKey(kw, "name") && GetOr(kw, "field_type", JNull) == JNull
    ensures NewField(PlainField, kw) == Err(ValueError(TypesMessage))
  {
    NewFieldOutcome(PlainField, kw);
    BaseTypeInvalid();
  }

  lemma BaseTypeInvalid()
    ensures ReportedType(PlainField, JNull) == JStr("Edm.")
    ensures !ValidType(JStr("Edm."))
  {
    assert "Edm." + "" == "Edm.";
  }

  /** Every subclass's derived type is the name `TYPES` registers it under, so the class
      table and the `field_type` property agree. */
  lemma DerivedTypes(kind: FieldKind)
    requires kind != PlainField
    ensures ValidType(ReportedType(kind, JNull))
    ensures KindOf(ReportedType(kind, JNull).s) == Some(kind)
  {
    if kind in {StringField, CollectionField, Int32Field, Int64Field} {
      DerivedTypesFirst(kind);
    } else {
      DerivedTypesLast(kind);
    }
  }

  lemma DerivedTypesFirst(kind: FieldKind)
    requires kind == StringField || kind == CollectionField || kind == Int32Field || kind == Int64Field
    ensures ValidType(ReportedType(kind, JNull))
    ensures KindOf(ReportedType(kind, JNull).s) == Some(kind)
  {
    match kind
    case StringField => assert "Edm." + "String" == "Edm.String";
    case CollectionField =>
    case Int32Field => assert "Edm." + "Int32" == "Edm.Int32";
    case Int64Field => assert "Edm." + "Int64" == "Edm.Int64";
  }

  lemma DerivedTypesLast(kind: FieldKind)
    requires kind == DoubleField || kind == BooleanField || kind == DateTimeOffsetField || kind == GeographyPointField
    ensures ValidType(ReportedType(kind, JNull))
    ensures KindOf(ReportedType(kind, JNull).s) == Some(kind)
  {
    match kind
    case DoubleField => assert "Edm." + "Double" == "Edm.Double";
    case BooleanField => assert "Edm." + "Boolean" == "Edm.Boolean";
    case DateTimeOffsetField => assert "Edm." + "DateTimeOffset" == "Edm.DateTimeOffset";
    case GeographyPointField => assert "Edm." + "GeographyPoint" == "Edm.GeographyPoint";
  }

  /** A CollectionField is never sortable and never a key, and its type is
      `Collection(Edm.String)`, whatever the arguments; `searchable` defaults to True. */
  lemma CollectionPinned(kw: Dict<Json>)
    requires NewField(CollectionField, kw).Ok?
    ensures var f := NewField(CollectionField, kw).value;
      && f.sortable == JBool(false) && f.key == JBool(false)
      && FieldType(f) == JStr(CollectionType)
      && f.searchable == GetOr(kw, "searchable", JBool(true))
  {
    NewFieldBinding(CollectionField, kw);
    BaseKwargsGet(CollectionField, kw, "sortable");
    BaseKwargsGet(CollectionField, kw, "key");
    BaseKwargsGet(CollectionField, kw, "field_type");
  }

  /** A GeographyPointField is never facetable, whatever the arguments. */
  lemma GeographyNeverFacetable(kw: Dict<Json>)
    requires NewField(GeographyPointField, kw).Ok?
    ensures NewField(GeographyPointField, kw).value.facetable == JBool(false)
  {
    BaseKwargsGet(GeographyPointField, kw, "facetable");
  }

  /** A StringField is searchable and not a key unless told otherwise, and it reports
      `Edm.String` unless given another type. */
  lemma StringFieldDefaults(kw: Dict<Json>)
    requires NewField(StringField, kw).Ok?
    ensures var f := NewField(StringField, kw).value;
      && f.searchable == GetOr(kw, "searchable", JBool(true))
      && f.key == GetOr(kw, "key", JBool(false))
      && (!HasKey(kw, "field_type") ==> FieldType(f) == JStr("Edm.String"))
  {
    StringFieldInit(kw);
    if !HasKey(kw, "field_type") {
      StringFieldUntyped(kw);
      StringReportedType();
    }
  }

  /** Without a `field_type` argument the base constructor leaves the type unset. */
  lemma StringFieldUntyped(kw: Dict<Json>)
    requires !HasKey(kw, "field_type")
    requires InitField(StringField, WithoutKeys(kw, {"searchable", "key"})).Ok?
    ensures InitField(StringField, WithoutKeys(kw, {"searchable", "key"})).value.explicitType == JNull
  {
    WithoutKeysGet(kw, {"searchable", "key"}, "field_type");
  }

  lemma StringReportedType()
    ensures ReportedType(StringField, JNull) == JStr("Edm.String")
  {
    assert "Edm." + "String" == "Edm.String";
  }

  /** StringField's constructor is the base constructor on the arguments without
      `searchable` and `key`, with those two set afterwards. */
  lemma StringFieldInit(kw: Dict<Json>)
    requires NewField(StringField, kw).Ok?
    ensures var r := InitField(StringField, WithoutKeys(kw, {"searchable", "key"}));
      && r.Ok?
      && NewField(StringField, kw).value.explicitType == r.value.explicitType
      && NewField(StringField, kw).value.key == GetOr(kw, "key", JBool(false))
      && NewField(StringField, kw).value.searchable == GetOr(kw, "searchable", JBool(true))
  {
  }

  /** The params bag holds exactly the keyword arguments that no parameter of
      `Field.__init__` binds. */
  lemma NewFieldParams(kind: FieldKind, kw: Dict<Json>)
    requires NewField(kind, kw).Ok?
    ensures forall k :: Get(NewField(kind, kw).value.params, k) == if k in FieldParameters then None else Get(kw, k)
  {
    var b := BaseKwargs(kind, kw);
    ParamsBag(kind, kw);
    NewFieldBinding(kind, kw);
    forall k ensures Get(WithoutKeys(b, FieldParameters), k) == if k in FieldParameters then None else Get(kw, k) {
      WithoutKeysGet(b, FieldParameters, k);
      if k !in FieldParameters {
        BaseKwargsGet(kind, kw, k);
        UnboundLookup(kind, kw, k);
      }
    }
  }

  /** A key no parameter binds reaches the base constructor unchanged. */
  lemma UnboundLookup(kind: FieldKind, kw: Dict<Json>, k: string)
    requires k !in FieldParameters
    ensures BoundLookup(kind, kw, k) == Get(kw, k)
  {
    assert k != "field_type" && k != "sortable" && k != "facetable" && k !in {"searchable", "key"};
  }

  /** The subclasses only reassign flags, so the params bag is the base constructor's. */
  lemma ParamsBag(kind: FieldKind, kw: Dict<Json>)
    requires NewField(kind, kw).Ok?
    ensures NewField(kind, kw).value.params == WithoutKeys(BaseKwargs(kind, kw), FieldParameters)
  {
    match kind
    case StringField => InitParams(kind, BaseKwargs(kind, kw));
    case CollectionField =>
      NewFieldBinding(kind, kw);
      InitParams(kind, BaseKwargs(kind, kw));
    case _ => InitParams(kind, BaseKwargs(kind, kw));
  }

  /** The base constructor's params bag is the keyword arguments it has no parameter for. */
  lemma InitParams(kind: FieldKind, b: Dict<Json>)
    requires InitField(kind, b).Ok?
    ensures InitField(kind, b).value.params == WithoutKeys(b, FieldParameters)
  {
  }

  // ----- lemmas: to_dict -----

  /** The wire keys are written camel-cased already, so camel-casing leaves them alone. */
  lemma WireKeysCamel()
    ensures forall i :: 0 <= i < |WireKeys| ==> ToCamelCase(WireKeys[i]) == WireKeys[i]
  {
    forall i | 0 <= i < |WireKeys| ensures ToCamelCase(WireKeys[i]) == WireKeys[i] {
      WireKeysNoUnderscore(i);
      CamelIdentity(WireKeys[i]);
    }
  }

  lemma WireKeysNoUnderscore(i: nat)
    requires i < |WireKeys|
    ensures '_' !in WireKeys[i]
  {
  }

  lemma FieldFixedDistinct(f: Field)
    ensures DistinctKeys(FieldFixed(f))
  {
  }

  /** What `to_dict` sends under each wire key: the params value when a param has that
      key, otherwise the attribute; either is left out when it is None or empty, so the
      boolean flags are always sent, False included. It holds when no other param key
      camel-cases onto the same key. */
  lemma FieldWireGet(f: Field, i: nat)
    requires i < |WireKeys| && DistinctKeys(f.params)
    requires forall x :: HasKey(f.params, x) && ToCamelCase(x) == WireKeys[i] ==> x == WireKeys[i]
    ensures Get(FieldToDict(f), WireKeys[i]) ==
      Kept(if HasKey(f.params, WireKeys[i]) then Get(f.params, WireKeys[i]) else Some(FieldFixed(f)[i].1))
  {
    var k := WireKeys[i];
    var fixed := FieldFixed(f);
    WireKeysCamel();
    FieldFixedDistinct(f);
    forall x | HasKey(PutAll(fixed, f.params), x) && ToCamelCase(x) == ToCamelCase(k) ensures x == k {
      if HasKey(fixed, x) {
        var j := IndexOf(fixed, x);
        assert fixed[j].0 == WireKeys[j];
      }
    }
    WireDictGet(fixed, f.params, k);
    PositionGet(fixed, i, k);
  }

  /** An attribute that is neither None nor empty is always sent, so every boolean flag
      is, False included, unless a param lands on its key. */
  lemma AttributeSent(f: Field, i: nat)
    requires i < |WireKeys| && !IsEmptyValue(FieldFixed(f)[i].1) && DistinctKeys(f.params)
    requires forall x :: HasKey(f.params, x) ==> ToCamelCase(x) != WireKeys[i]
    ensures Get(FieldToDict(f), WireKeys[i]) == Some(FieldFixed(f)[i].1)
  {
    WireKeysCamel();
    FieldWireGet(f, i);
    KeptValue(Get(FieldToDict(f), WireKeys[i]), FieldFixed(f)[i].1);
  }

  lemma KeptValue(g: Option<Json>, v: Json)
    requires g == Kept(Some(v)) && !IsEmptyValue(v)
    ensures g == Some(v)
  {
  }

  /** An analyzer or synonym-map entry that is None or empty is left out. */
  lemma EmptyAnalyzersLeftOut(f: Field, i: nat)
    requires 8 <= i < |WireKeys| && IsEmptyValue(FieldFixed(f)[i].1) && DistinctKeys(f.params)
    requires forall x :: HasKey(f.params, x) ==> ToCamelCase(x) != WireKeys[i]
    ensures !HasKey(FieldToDict(f), WireKeys[i])
  {
    WireKeysCamel();
    FieldWireGet(f, i);
  }

  /** The keyword arguments a subclass hands on are a dict when its own are. */
  lemma BaseKwargsDistinct(kind: FieldKind, kw: Dict<Json>)
    requires DistinctKeys(kw)
    ensures DistinctKeys(BaseKwargs(kind, kw))
  {
  }

  /** A constructed field's params bag has distinct keys, and a key it has is an unbound
      keyword argument. */
  lemma NewFieldParamKeys(kind: FieldKind, kw: Dict<Json>)
    requires NewField(kind, kw).Ok? && DistinctKeys(kw)
    ensures DistinctKeys(NewField(kind, kw).value.params)
    ensures forall x :: HasKey(NewField(kind, kw).value.params, x) ==> HasKey(kw, x) && x !in FieldParameters
  {
    ParamsBag(kind, kw);
    BaseKwargsDistinct(kind, kw);
    NewFieldParams(kind, kw);
    BagKeys(NewField(kind, kw).value.params, BaseKwargs(kind, kw), kw);
  }

  /** The bag left after removing the parameters has distinct keys, all unbound. */
  lemma BagKeys(p: Dict<Json>, b: Dict<Json>, kw: Dict<Json>)
    requires p == WithoutKeys(b, FieldParameters) && DistinctKeys(b)
    requires forall k :: Get(p, k) == if k in FieldParameters then None else Get(kw, k)
    ensures DistinctKeys(p)
    ensures forall x :: HasKey(p, x) ==> HasKey(kw, x) && x !in FieldParameters
  {
    forall x | HasKey(p, x) ensures HasKey(kw, x) && x !in FieldParameters {
      assert Get(p, x).Some?;
    }
  }

  /** No param of a constructed field camel-cases onto key when no unbound keyword
      argument does. */
  lemma ParamsAvoid(kind: FieldKind, kw: Dict<Json>, key: string)
    requires NewField(kind, kw).Ok? && DistinctKeys(kw)
    requires forall x :: HasKey(kw, x) && x !in FieldParameters ==> ToCamelCase(x) != key
    ensures DistinctKeys(NewField(kind, kw).value.params)
    ensures forall x :: HasKey(NewField(kind, kw).value.params, x) ==> ToCamelCase(x) != key
  {
    NewFieldParamKeys(kind, kw);
  }

  /** On the wire a CollectionField is never sortable and never a key, and has type
      `Collection(Edm.String)`, unless an extra keyword argument camel-cases onto one of
      those keys. */
  lemma CollectionWire(kw: Dict<Json>)
    requires NewField(CollectionField, kw).Ok? && DistinctKeys(kw)
    requires forall x :: HasKey(kw, x) && x !in FieldParameters ==>
      ToCamelCase(x) != "sortable" && ToCamelCase(x) != "key" && ToCamelCase(x) != "type"
    ensures var d := FieldToDict(NewField(CollectionField, kw).value);
      && Get(d, "sortable") == Some(JBool(false)) && Get(d, "key") == Some(JBool(false))
      && Get(d, "type") == Some(JStr(CollectionType))
  {
    CollectionPinned(kw);
    CollectionTypeWire(kw);
    CollectionFlagWire(kw, "sortable");
    CollectionFlagWire(kw, "key");
  }

  lemma CollectionTypeWire(kw: Dict<Json>)
    requires NewField(CollectionField, kw).Ok? && DistinctKeys(kw)
    requires forall x :: HasKey(kw, x) && x !in FieldParameters ==> ToCamelCase(x) != "type"
    ensures Get(FieldToDict(NewField(CollectionField, kw).value), "type") == Some(JStr(CollectionType))
  {
    CollectionPinned(kw);
    ParamsAvoid(CollectionField, kw, "type");
    TypeSent(NewField(CollectionField, kw).value);
  }

  lemma CollectionFlagWire(kw: Dict<Json>, key: string)
    requires key == "sortable" || key == "key"
    requires NewField(CollectionField, kw).Ok? && DistinctKeys(kw)
    requires forall x :: HasKey(kw, x) && x !in FieldParameters ==> ToCamelCase(x) != key
    ensures Get(FieldToDict(NewField(CollectionField, kw).value), key) == Some(JBool(false))
  {
    var f := NewField(CollectionField, kw).value;
    CollectionPinned(kw);
    ParamsAvoid(CollectionField, kw, key);
    if key == "sortable" {
      SortableSent(f);
    } else {
      KeySent(f);
    }
  }

  /** On the wire a GeographyPointField is never facetable, unless an extra keyword
      argument camel-cases onto `facetable`. */
  lemma GeographyWire(kw: Dict<Json>)
    requires NewField(GeographyPointField, kw).Ok? && DistinctKeys(kw)
    requires forall x :: HasKey(kw, x) && x !in FieldParameters ==> ToCamelCase(x) != "facetable"
    ensures Get(FieldToDict(NewField(GeographyPointField, kw).value), "facetable") == Some(JBool(false))
  {
    var f := NewField(GeographyPointField, kw).value;
    GeographyNeverFacetable(kw);
    ParamsAvoid(GeographyPointField, kw, "facetable");
    FacetableSent(f);
  }

  lemma TypeSent(f: Field)
    requires !IsEmptyValue(FieldType(f)) && DistinctKeys(f.params)
    requires forall x :: HasKey(f.params, x) ==> ToCamelCase(x) != "type"
    ensures Get(FieldToDict(f), "type") == Some(FieldType(f))
  {
    AttributeSent(f, 1);
  }

  lemma SortableSent(f: Field)
    requires !IsEmptyValue(f.sortable) && DistinctKeys(f.params)
    requires forall x :: HasKey(f.params, x) ==> ToCamelCase(x) != "sortable"
    ensures Get(FieldToDict(f), "sortable") == Some(f.sortable)
  {
    AttributeSent(f, 4);
  }

  lemma FacetableSent(f: Field)
    requires !IsEmptyValue(f.facetable) && DistinctKeys(f.params)
    requires forall x :: HasKey(f.params, x) ==> ToCamelCase(x) != "facetable"
    ensures Get(FieldToDict(f), "facetable") == Some(f.facetable)
  {
    AttributeSent(f, 5);
  }

  lemma KeySent(f: Field)
    requires !IsEmptyValue(f.key) && DistinctKeys(f.params)
    requires forall x :: HasKey(f.params, x) ==> ToCamelCase(x) != "key"
    ensures Get(FieldToDict(f), "key") == Some(f.key)
  {
    AttributeSent(f, 6);
  }

  /** An extra keyword argument `sortable_` camel-cases onto `sortable` and, being merged
      after the fixed keys, overrides CollectionField's forced False. */
  lemma CollectionSortableThroughParams()
    ensures var kw := [("name", JStr("tags")), ("sortable_", JBool(true))];
      && NewField(CollectionField, kw).Ok?
      && Get(FieldToDict(NewField(CollectionField, kw).value), "sortable") == Some(JBool(true))
  {
    var kw := [("name", JStr("tags")), ("sortable_", JBool(true))];
    SortableExampleBuilds(kw);
    SortableExampleParams(kw);
    SortableUnderscoreCamel();
    SortableOverride(NewField(CollectionField, kw).value);
  }

  lemma SortableExampleBuilds(kw: Dict<Json>)
    requires kw == [("name", JStr("tags")), ("sortable_", JBool(true))]
    ensures NewField(CollectionField, kw).Ok?
  {
    NewFieldOutcome(CollectionField, kw);
    assert BoundType(CollectionField, kw) == JStr(CollectionType);
    assert GetOr(kw, "name", JNull) == JStr("tags");
  }

  lemma SortableExampleParams(kw: Dict<Json>)
    requires kw == [("name", JStr("tags")), ("sortable_", JBool(true))]
    requires NewField(CollectionField, kw).Ok?
    ensures NewField(CollectionField, kw).value.params == [("sortable_", JBool(true))]
  {
    ParamsBag(CollectionField, kw);
    SortableExampleRest(kw);
    var b := [("name", JStr("tags")), ("sortable_", JBool(true)), ("sortable", JBool(false)),
              ("field_type", JStr(CollectionType))];
    SortableExampleBase(kw, b);
    SortableExampleUnbound(b);
  }

  lemma SortableExampleRest(kw: Dict<Json>)
    requires kw == [("name", JStr("tags")), ("sortable_", JBool(true))]
    ensures CollectionRest(kw) == kw + [("sortable", JBool(false))]
  {
    assert WithoutKeys(kw[2..], {"searchable", "key"}) == [];
    assert WithoutKeys(kw[1..], {"searchable", "key"}) == kw[1..];
    assert WithoutKeys(kw, {"searchable", "key"}) == [kw[0]] + kw[1..] == kw;
    assert !HasKey(kw, "sortable");
  }

  lemma SortableExampleBase(kw: Dict<Json>, b: Dict<Json>)
    requires kw == [("name", JStr("tags")), ("sortable_", JBool(true))]
    requires CollectionRest(kw) == kw + [("sortable", JBool(false))]
    requires b == [("name", JStr("tags")), ("sortable_", JBool(true)), ("sortable", JBool(false)),
                   ("field_type", JStr(CollectionType))]
    ensures BaseKwargs(CollectionField, kw) == b
  {
    assert !HasKey(CollectionRest(kw), "field_type");
  }

  lemma SortableExampleUnbound(b: Dict<Json>)
    requires b == [("name", JStr("tags")), ("sortable_", JBool(true)), ("sortable", JBool(false)),
                   ("field_type", JStr(CollectionType))]
    ensures WithoutKeys(b, FieldParameters) == [("sortable_", JBool(true))]
  {
    assert WithoutKeys(b[3..], FieldParameters) == [];
    assert WithoutKeys(b[2..], FieldParameters) == [];
    assert WithoutKeys(b[1..], FieldParameters) == [b[1]];
  }

  lemma SortableUnderscoreCamel()
    ensures ToCamelCase("sortable_") == "sortable"
  {
    CamelTrailingUnderscore("sortable");
    assert "sortable" + "_" == "sortable_";
  }

  /** A params bag holding only `sortable_`: True wins over the fixed entry. */
  lemma SortableOverride(f: Field)
    requires f.params == [("sortable_", JBool(true))]
    requires ToCamelCase("sortable_") == "sortable"
    ensures Get(FieldToDict(f), "sortable") == Some(JBool(true))
  {
    var fixed := FieldFixed(f);
    assert !HasKey(fixed, "sortable_") by {
      forall i | 0 <= i < |fixed| ensures fixed[i].0 != "sortable_" {
        assert '_' in "sortable_";
        WireKeysNoUnderscore(i);
      }
    }
    ParamOverrides(fixed, "sortable_", JBool(true));
  }

  /** `load` removes `type` from the caller's dict and leaves every other entry. */
  lemma DataAfterLoadKeeps(data: Json, k: string)
    requires Truthy(data) && data.JObj? && k != "type"
    ensures Get(DataAfterLoad(data).members, k) == Get(data.members, k)
  {
    WithoutKeysGet(data.members, {"type"}, k);
  }

  // ----- lemmas: load after to_dict -----

  /** A field that `load` rebuilds from its own `to_dict` payload: it is of one of the
      eight registered classes and carries the type its constructor gives it, it has no
      params, every attribute `to_dict` always sends is non-empty (so it is sent), every
      optional one is None or non-empty (so stripping it loses nothing), and it holds the
      values its class forces. */
  predicate Reloadable(f: Field)
  {
    && f.kind != PlainField
    && f.explicitType == (if f.kind == CollectionField then JStr(CollectionType) else JNull)
    && f.params == []
    && !IsEmptyValue(f.name)
    && !IsEmptyValue(f.searchable) && !IsEmptyValue(f.filterable) && !IsEmptyValue(f.retrievable)
    && !IsEmptyValue(f.sortable) && !IsEmptyValue(f.facetable) && !IsEmptyValue(f.key)
    && (f.analyzer == JNull || !IsEmptyValue(f.analyzer))
    && (f.searchAnalyzer == JNull || !IsEmptyValue(f.searchAnalyzer))
    && (f.indexAnalyzer == JNull || !IsEmptyValue(f.indexAnalyzer))
    && (f.synonymMaps == JNull || !IsEmptyValue(f.synonymMaps))
    && (f.kind == CollectionField ==> f.sortable == JBool(false) && f.key == JBool(false))
    && (f.kind == GeographyPointField ==> f.facetable == JBool(false))
  }

  /** The wire keys snake-cased, as `load` passes them to the constructor. */
  const WireSnakeKeys: seq<string> := ["name", "type", "searchable", "filterable", "sortable",
    "facetable", "key", "retrievable", "analyzer", "search_analyzer", "index_analyzer", "synonym_maps"]

  /** The keyword arguments `load` hands the constructor when given f's payload. */
  function LoadedKwargs(f: Field): Dict<Json>
  {
    ToSnakeCaseDict(PutAll([], WithoutKeys(FieldToDict(f), {"type"})))
  }

  /** `load(to_dict())` gives back the field, except the index name, which is not sent. */
  lemma FieldRoundTrip(f: Field)
    requires Reloadable(f)
    ensures LoadField(JObj(FieldToDict(f)), []) == Ok(f.(indexName := JNull))
  {
    TypeStillSent(f);
    LoadFieldOf(FieldToDict(f), f.kind);
    LoadedFacts(f);
    RebuiltField(f, LoadedKwargs(f));
  }

  /** `load` of a dict whose `type` names a registered class calls that class with the
      other entries, snake-cased. */
  lemma LoadFieldOf(m: Dict<Json>, kind: FieldKind)
    requires Get(m, "type").Some? && Get(m, "type").value.JStr? && KindOf(Get(m, "type").value.s) == Some(kind)
    ensures LoadField(JObj(m), []) == NewField(kind, ToSnakeCaseDict(PutAll([], WithoutKeys(m, {"type"}))))
  {
    assert Truthy(JObj(m)) by { assert HasKey(m, "type"); }
  }

  /** With no params, the payload sends the type under `type`. */
  lemma TypeStillSent(f: Field)
    requires Reloadable(f)
    ensures Get(FieldToDict(f), "type") == Some(FieldType(f))
    ensures ValidType(FieldType(f)) && KindOf(FieldType(f).s) == Some(f.kind)
  {
    AttributeSent(f, 1);
    if f.kind != CollectionField {
      DerivedTypes(f.kind);
    }
  }

  /** Without params the payload is the fixed wire dict with its None and empty values
      stripped: the wire keys are camel-cased already. */
  lemma PayloadShape(f: Field)
    requires f.params == []
    ensures FieldToDict(f) == RemoveEmptyValues(FieldFixed(f))
    ensures DistinctKeys(FieldToDict(f))
  {
    WireDictNoParams(FieldFixed(f));
    WireKeysCamel();
    FieldFixedDistinct(f);
    RekeyIdentity(FieldFixed(f), ToCamelCase);
  }

  /** Each wire key snake-cases to the parameter that binds it. */
  lemma WireSnakeForms()
    ensures forall i :: 0 <= i < |WireKeys| ==> ToSnakeCase(WireKeys[i]) == WireSnakeKeys[i]
  {
    forall i | 0 <= i < |WireKeys| ensures ToSnakeCase(WireKeys[i]) == WireSnakeKeys[i] {
      if i < 9 {
        OneWordKey(i);
      } else if i == 9 {
        SearchAnalyzerKey();
      } else if i == 10 {
        IndexAnalyzerKey();
      } else {
        SynonymMapsKey();
      }
    }
  }

  lemma OneWordKey(i: nat)
    requires i < 9
    ensures ToSnakeCase(WireKeys[i]) == WireSnakeKeys[i]
  {
    SnakeIdentity(WireKeys[i]);
  }

  lemma SearchAnalyzerKey()
    ensures ToSnakeCase("searchAnalyzer") == "search_analyzer"
  {
    KeyFormsAt(["search", "analyzer"], "search_analyzer", "searchAnalyzer");
  }

  lemma IndexAnalyzerKey()
    ensures ToSnakeCase("indexAnalyzer") == "index_analyzer"
  {
    KeyFormsAt(["index", "analyzer"], "index_analyzer", "indexAnalyzer");
  }

  lemma SynonymMapsKey()
    ensures ToSnakeCase("synonymMaps") == "synonym_maps"
  {
    KeyFormsAt(["synonym", "maps"], "synonym_maps", "synonymMaps");
  }

  lemma WireSnakeKeysDistinct()
    ensures forall i, j :: 0 <= i < j < |WireSnakeKeys| ==> WireSnakeKeys[i] != WireSnakeKeys[j]
  {
  }

  /** The keyword arguments `load` builds: the stripped fixed dict without its `type`
      entry, snake-cased. */
  lemma LoadedKwargsForm(f: Field)
    requires f.params == []
    ensures LoadedKwargs(f) == ToSnakeCaseDict(WithoutKeys(RemoveEmptyValues(FieldFixed(f)), {FieldFixed(f)[1].0}))
  {
    PayloadShape(f);
    var w := WithoutKeys(FieldToDict(f), {"type"});
    assert DistinctKeys(w);
    PutAllFresh(w);
  }

  /** `load` finds each attribute under its snake-cased key, unless `to_dict` stripped it. */
  lemma LoadedGet(f: Field, i: nat)
    requires f.params == [] && i < |WireKeys| && i != 1
    ensures Get(LoadedKwargs(f), WireSnakeKeys[i]) == Kept(Some(FieldFixed(f)[i].1))
  {
    LoadedKwargsForm(f);
    WireStrippedGet(FieldFixed(f), i);
  }

  /** LoadedGet for any dict with the wire keys in order. */
  lemma WireStrippedGet(fixed: Dict<Json>, i: nat)
    requires |fixed| == |WireKeys| && forall j :: 0 <= j < |fixed| ==> fixed[j].0 == WireKeys[j]
    requires i < |WireKeys| && i != 1
    ensures Get(ToSnakeCaseDict(WithoutKeys(RemoveEmptyValues(fixed), {fixed[1].0})), WireSnakeKeys[i]) ==
      Kept(Some(fixed[i].1))
  {
    WireKeysDistinct();
    WireSnakeForms();
    WireSnakeKeysDistinct();
    StrippedSnakeGetWithout(fixed, WireSnakeKeys, 1, i);
  }

  /** The wire keys are distinct. */
  lemma WireKeysDistinct()
    ensures forall i, j :: 0 <= i < j < |WireKeys| ==> WireKeys[i] != WireKeys[j]
  {
  }

  /** Every key `load` passes on is a snake-cased wire key other than `type`. */
  lemma LoadedKeys(f: Field)
    requires f.params == []
    ensures forall x :: HasKey(LoadedKwargs(f), x) ==> exists j :: 0 <= j < |WireSnakeKeys| && j != 1 && x == WireSnakeKeys[j]
  {
    LoadedKwargsForm(f);
    WireStrippedKeys(FieldFixed(f));
  }

  /** LoadedKeys for any dict with the wire keys in order. */
  lemma WireStrippedKeys(fixed: Dict<Json>)
    requires |fixed| == |WireKeys| && forall j :: 0 <= j < |fixed| ==> fixed[j].0 == WireKeys[j]
    ensures forall x :: HasKey(ToSnakeCaseDict(WithoutKeys(RemoveEmptyValues(fixed), {fixed[1].0})), x) ==>
      exists j :: 0 <= j < |WireSnakeKeys| && j != 1 && x == WireSnakeKeys[j]
  {
    WireKeysDistinct();
    WireSnakeForms();
    StrippedSnakeKeysWithout(fixed, WireSnakeKeys, 1);
  }

  /** Every snake-cased wire key other than `type` is a parameter `Field.__init__` binds,
      and none is `field_type` or `index_name`. */
  lemma WireSnakeBound(j: nat)
    requires j < |WireSnakeKeys| && j != 1
    ensures WireSnakeKeys[j] in FieldParameters && WireSnakeKeys[j] != "field_type" && WireSnakeKeys[j] != "index_name"
  {
  }

  /** What `load` passes to the constructor of a reloadable field under parameter p: the
      name and the six flags, and each optional attribute unless it is None. */
  function LoadedValue(f: Field, p: string): Option<Json>
  {
    if p == "name" then Some(f.name)
    else if p == "searchable" then Some(f.searchable)
    else if p == "filterable" then Some(f.filterable)
    else if p == "sortable" then Some(f.sortable)
    else if p == "facetable" then Some(f.facetable)
    else if p == "key" then Some(f.key)
    else if p == "retrievable" then Some(f.retrievable)
    else if p == "analyzer" then Kept(Some(f.analyzer))
    else if p == "search_analyzer" then Kept(Some(f.searchAnalyzer))
    else if p == "index_analyzer" then Kept(Some(f.indexAnalyzer))
    else if p == "synonym_maps" then Kept(Some(f.synonymMaps))
    else None
  }

  /** The keyword arguments `load` builds hold exactly LoadedValue. */
  lemma LoadedFacts(f: Field)
    requires Reloadable(f)
    ensures forall p :: Get(LoadedKwargs(f), p) == LoadedValue(f, p)
  {
    LoadedKeys(f);
    forall p ensures Get(LoadedKwargs(f), p) == LoadedValue(f, p) {
      if j :| 0 <= j < |WireSnakeKeys| && j != 1 && p == WireSnakeKeys[j] {
        LoadedGet(f, j);
        LoadedValueAt(f, j);
      } else {
        NotWireSnake(f, p);
      }
    }
  }

  /** The value `to_dict` sends at position i is what LoadedValue expects under the
      position's snake-cased key. */
  lemma LoadedValueAt(f: Field, i: nat)
    requires Reloadable(f) && i < |WireKeys| && i != 1
    ensures Kept(Some(FieldFixed(f)[i].1)) == LoadedValue(f, WireSnakeKeys[i])
  {
  }

  /** LoadedValue expects nothing under a key that is not a snake-cased wire key. */
  lemma NotWireSnake(f: Field, p: string)
    requires forall j :: 0 <= j < |WireSnakeKeys| && j != 1 ==> p != WireSnakeKeys[j]
    ensures LoadedValue(f, p) == None
  {
    assert p != WireSnakeKeys[0] && p != WireSnakeKeys[2] && p != WireSnakeKeys[3];
    assert p != WireSnakeKeys[4] && p != WireSnakeKeys[5] && p != WireSnakeKeys[6];
    assert p != WireSnakeKeys[7] && p != WireSnakeKeys[8] && p != WireSnakeKeys[9];
    assert p != WireSnakeKeys[10] && p != WireSnakeKeys[11];
  }

  /** The constructor of f's class, given keyword arguments that hold exactly
      LoadedValue, rebuilds f without its index name. */
  lemma RebuiltField(f: Field, kw: Dict<Json>)
    requires Reloadable(f)
    requires forall p :: Get(kw, p) == LoadedValue(f, p)
    ensures NewField(f.kind, kw) == Ok(f.(indexName := JNull))
  {
    var kind := f.kind;
    RebuiltOk(f, kw);
    var g := NewField(kind, kw).value;
    NewFieldParams(kind, kw);
    FirstKeyFound(g.params);
    RebuiltAttributes(f, kw);
  }

  /** The constructor succeeds: the name binds and is valid, and the type is the class's. */
  lemma RebuiltOk(f: Field, kw: Dict<Json>)
    requires Reloadable(f)
    requires forall p :: Get(kw, p) == LoadedValue(f, p)
    ensures NewField(f.kind, kw).Ok?
  {
    assert Get(kw, "name") == LoadedValue(f, "name") && Get(kw, "field_type") == LoadedValue(f, "field_type");
    NamedBinds(f.kind, kw, f.name);
  }

  /** A derived class given a name that is not empty and no `field_type` builds a field. */
  lemma NamedBinds(kind: FieldKind, kw: Dict<Json>, name: Json)
    requires kind != PlainField && !IsEmptyValue(name)
    requires Get(kw, "name") == Some(name) && Get(kw, "field_type") == None
    ensures NewField(kind, kw).Ok?
  {
    NewFieldOutcome(kind, kw);
    if kind != CollectionField {
      DerivedTypes(kind);
    }
  }

  /** The attributes the constructor assigns from such keyword arguments are f's. */
  lemma RebuiltAttributes(f: Field, kw: Dict<Json>)
    requires Reloadable(f) && NewField(f.kind, kw).Ok?
    requires forall p :: Get(kw, p) == LoadedValue(f, p)
    ensures var g := NewField(f.kind, kw).value; g == f.(indexName := JNull, params := g.params)
  {
    match f.kind
    case StringField => RebuiltString(f, kw);
    case CollectionField => RebuiltCollection(f, kw);
    case GeographyPointField => RebuiltGeography(f, kw);
    case _ => RebuiltPlain(f, kw);
  }

  lemma RebuiltPlain(f: Field, kw: Dict<Json>)
    requires Reloadable(f) && f.kind !in {StringField, CollectionField, GeographyPointField}
    requires NewField(f.kind, kw).Ok?
    requires forall p :: Get(kw, p) == LoadedValue(f, p)
    ensures var g := NewField(f.kind, kw).value; g == f.(indexName := JNull, params := g.params)
  {
    var kind := f.kind;
    assert NewField(kind, kw) == InitField(kind, kw);
    var a := Attributes(kind, kw);
    assert NewField(kind, kw).value == a;
    AttributesFrom(f, kw);
  }

  /** Attributes on arguments that hold exactly LoadedValue gives f's attributes, except
      the type, which the arguments do not carry. */
  lemma AttributesFrom(f: Field, kw: Dict<Json>)
    requires Reloadable(f)
    requires forall p :: Get(kw, p) == LoadedValue(f, p)
    ensures HasKey(kw, "name")
    ensures var a := Attributes(f.kind, kw); a == f.(explicitType := JNull, indexName := JNull, params := a.params)
  {
    LoadedGetsA(f, kw);
    LoadedGetsB(f, kw);
    LoadedGetsC(f, kw);
    LoadedGetsD(f, kw);
  }

  lemma LoadedGetsA(f: Field, kw: Dict<Json>)
    requires forall p :: Get(kw, p) == LoadedValue(f, p)
    ensures Get(kw, "name") == Some(f.name) && Get(kw, "field_type") == None
    ensures Get(kw, "index_name") == None && Get(kw, "searchable") == Some(f.searchable)
  {
  }

  lemma LoadedGetsB(f: Field, kw: Dict<Json>)
    requires forall p :: Get(kw, p) == LoadedValue(f, p)
    ensures Get(kw, "filterable") == Some(f.filterable) && Get(kw, "retrievable") == Some(f.retrievable)
    ensures Get(kw, "sortable") == Some(f.sortable) && Get(kw, "facetable") == Some(f.facetable)
  {
  }

  lemma LoadedGetsC(f: Field, kw: Dict<Json>)
    requires Reloadable(f)
    requires forall p :: Get(kw, p) == LoadedValue(f, p)
    ensures Get(kw, "key") == Some(f.key)
    ensures GetOr(kw, "index_analyzer", JNull) == f.indexAnalyzer
    ensures GetOr(kw, "search_analyzer", JNull) == f.searchAnalyzer
  {
  }

  lemma LoadedGetsD(f: Field, kw: Dict<Json>)
    requires Reloadable(f)
    requires forall p :: Get(kw, p) == LoadedValue(f, p)
    ensures GetOr(kw, "analyzer", JNull) == f.analyzer
    ensures GetOr(kw, "synonym_maps", JNull) == f.synonymMaps
  {
  }

  lemma RebuiltString(f: Field, kw: Dict<Json>)
    requires Reloadable(f) && f.kind == StringField && NewField(f.kind, kw).Ok?
    requires forall p :: Get(kw, p) == LoadedValue(f, p)
    ensures var g := NewField(f.kind, kw).value; g == f.(indexName := JNull, params := g.params)
  {
    AttributesFrom(f, kw);
    LoadedGetsA(f, kw);
    LoadedGetsC(f, kw);
    StringBaseGets(kw);
    AttributesWithoutFlags(StringField, kw, BaseKwargs(StringField, kw));
  }

  lemma RebuiltCollection(f: Field, kw: Dict<Json>)
    requires Reloadable(f) && f.kind == CollectionField && NewField(f.kind, kw).Ok?
    requires forall p :: Get(kw, p) == LoadedValue(f, p)
    ensures var g := NewField(f.kind, kw).value; g == f.(indexName := JNull, params := g.params)
  {
    var b := BaseKwargs(CollectionField, kw);
    LoadedGetsA(f, kw);
    CollectionRestType(kw);
    assert InitField(CollectionField, b).Ok?;
    assert NewField(CollectionField, kw).value ==
      Attributes(CollectionField, b).(searchable := GetOr(kw, "searchable", JBool(true)));
    AttributesFrom(f, kw);
    CollectionBaseGets(kw);
    AttributesCollection(kw, b);
  }

  lemma RebuiltGeography(f: Field, kw: Dict<Json>)
    requires Reloadable(f) && f.kind == GeographyPointField && NewField(f.kind, kw).Ok?
    requires forall p :: Get(kw, p) == LoadedValue(f, p)
    ensures var g := NewField(f.kind, kw).value; g == f.(indexName := JNull, params := g.params)
  {
    var b := BaseKwargs(GeographyPointField, kw);
    assert NewField(GeographyPointField, kw) == InitField(GeographyPointField, b);
    AttributesFrom(f, kw);
    GeographyBaseGets(kw);
    AttributesGeography(kw, b);
  }

  /** StringField hands four of its arguments on unchanged, none of them `searchable` or
      `key`. */
  lemma StringKeep(kw: Dict<Json>, k1: string, k2: string, k3: string, k4: string)
    requires k1 != "searchable" && k2 != "searchable" && k3 != "searchable" && k4 != "searchable"
    requires k1 != "key" && k2 != "key" && k3 != "key" && k4 != "key"
    ensures var b := BaseKwargs(StringField, kw);
      Get(b, k1) == Get(kw, k1) && Get(b, k2) == Get(kw, k2) && Get(b, k3) == Get(kw, k3) && Get(b, k4) == Get(kw, k4)
  {
    BaseKwargsGet(StringField, kw, k1);
    BaseKwargsGet(StringField, kw, k2);
    BaseKwargsGet(StringField, kw, k3);
    BaseKwargsGet(StringField, kw, k4);
  }

  /** GeographyPointField hands four of its arguments on unchanged, none of them
      `facetable`. */
  lemma GeographyKeep(kw: Dict<Json>, k1: string, k2: string, k3: string, k4: string)
    requires k1 != "facetable" && k2 != "facetable" && k3 != "facetable" && k4 != "facetable"
    ensures var b := BaseKwargs(GeographyPointField, kw);
      Get(b, k1) == Get(kw, k1) && Get(b, k2) == Get(kw, k2) && Get(b, k3) == Get(kw, k3) && Get(b, k4) == Get(kw, k4)
  {
    BaseKwargsGet(GeographyPointField, kw, k1);
    BaseKwargsGet(GeographyPointField, kw, k2);
    BaseKwargsGet(GeographyPointField, kw, k3);
    BaseKwargsGet(GeographyPointField, kw, k4);
  }

  /** StringField hands on every argument except `searchable` and `key`. */
  lemma StringBaseGets(kw: Dict<Json>)
    ensures var b := BaseKwargs(StringField, kw);
      && Get(b, "name") == Get(kw, "name") && Get(b, "field_type") == Get(kw, "field_type")
      && Get(b, "index_name") == Get(kw, "index_name") && Get(b, "filterable") == Get(kw, "filterable")
      && Get(b, "retrievable") == Get(kw, "retrievable") && Get(b, "sortable") == Get(kw, "sortable")
      && Get(b, "facetable") == Get(kw, "facetable") && Get(b, "index_analyzer") == Get(kw, "index_analyzer")
      && Get(b, "search_analyzer") == Get(kw, "search_analyzer") && Get(b, "analyzer") == Get(kw, "analyzer")
      && Get(b, "synonym_maps") == Get(kw, "synonym_maps")
      && Get(b, "searchable") == None && Get(b, "key") == None
  {
    StringKeep(kw, "name", "field_type", "index_name", "filterable");
    StringKeep(kw, "retrievable", "sortable", "facetable", "index_analyzer");
    StringKeep(kw, "search_analyzer", "analyzer", "synonym_maps", "synonym_maps");
    BaseKwargsGet(StringField, kw, "searchable");
    BaseKwargsGet(StringField, kw, "key");
  }

  /** Arguments without `searchable` and `key` give the same attributes, except those two
      at their defaults. */
  lemma AttributesWithoutFlags(kind: FieldKind, kw: Dict<Json>, b: Dict<Json>)
    requires HasKey(kw, "name")
    requires Get(b, "name") == Get(kw, "name") && Get(b, "field_type") == Get(kw, "field_type")
    requires Get(b, "index_name") == Get(kw, "index_name") && Get(b, "filterable") == Get(kw, "filterable")
    requires Get(b, "retrievable") == Get(kw, "retrievable") && Get(b, "sortable") == Get(kw, "sortable")
    requires Get(b, "facetable") == Get(kw, "facetable") && Get(b, "index_analyzer") == Get(kw, "index_analyzer")
    requires Get(b, "search_analyzer") == Get(kw, "search_analyzer") && Get(b, "analyzer") == Get(kw, "analyzer")
    requires Get(b, "synonym_maps") == Get(kw, "synonym_maps")
    requires Get(b, "searchable") == None && Get(b, "key") == None
    ensures HasKey(b, "name")
    ensures Attributes(kind, b) ==
      Attributes(kind, kw).(searchable := JBool(false), key := JBool(false), params := Attributes(kind, b).params)
  {
  }

  /** GeographyPointField hands on every argument, with `facetable` forced to False. */
  lemma GeographyBaseGets(kw: Dict<Json>)
    ensures var b := BaseKwargs(GeographyPointField, kw);
      && Get(b, "name") == Get(kw, "name") && Get(b, "field_type") == Get(kw, "field_type")
      && Get(b, "index_name") == Get(kw, "index_name") && Get(b, "filterable") == Get(kw, "filterable")
      && Get(b, "retrievable") == Get(kw, "retrievable") && Get(b, "sortable") == Get(kw, "sortable")
      && Get(b, "searchable") == Get(kw, "searchable") && Get(b, "index_analyzer") == Get(kw, "index_analyzer")
      && Get(b, "search_analyzer") == Get(kw, "search_analyzer") && Get(b, "analyzer") == Get(kw, "analyzer")
      && Get(b, "synonym_maps") == Get(kw, "synonym_maps") && Get(b, "key") == Get(kw, "key")
      && Get(b, "facetable") == Some(JBool(false))
  {
    GeographyKeep(kw, "name", "field_type", "index_name", "filterable");
    GeographyKeep(kw, "retrievable", "sortable", "searchable", "index_analyzer");
    GeographyLaterGets(kw);
  }

  lemma GeographyLaterGets(kw: Dict<Json>)
    ensures var b := BaseKwargs(GeographyPointField, kw);
      && Get(b, "search_analyzer") == Get(kw, "search_analyzer") && Get(b, "analyzer") == Get(kw, "analyzer")
      && Get(b, "synonym_maps") == Get(kw, "synonym_maps") && Get(b, "key") == Get(kw, "key")
      && Get(b, "facetable") == Some(JBool(false))
  {
    GeographyKeep(kw, "search_analyzer", "analyzer", "synonym_maps", "key");
    BaseKwargsGet(GeographyPointField, kw, "facetable");
  }

  lemma AttributesGeography(kw: Dict<Json>, b: Dict<Json>)
    requires HasKey(kw, "name")
    requires Get(b, "name") == Get(kw, "name") && Get(b, "field_type") == Get(kw, "field_type")
    requires Get(b, "index_name") == Get(kw, "index_name") && Get(b, "filterable") == Get(kw, "filterable")
    requires Get(b, "retrievable") == Get(kw, "retrievable") && Get(b, "sortable") == Get(kw, "sortable")
    requires Get(b, "searchable") == Get(kw, "searchable") && Get(b, "index_analyzer") == Get(kw, "index_analyzer")
    requires Get(b, "search_analyzer") == Get(kw, "search_analyzer") && Get(b, "analyzer") == Get(kw, "analyzer")
    requires Get(b, "synonym_maps") == Get(kw, "synonym_maps") && Get(b, "key") == Get(kw, "key")
    requires Get(b, "facetable") == Some(JBool(false))
    ensures HasKey(b, "name")
    ensures Attributes(GeographyPointField, b) ==
      Attributes(GeographyPointField, kw).(facetable := JBool(false), params := Attributes(GeographyPointField, b).params)
  {
  }

  /** CollectionField hands on every argument except `searchable` and `key`, with its own
      type and `sortable` forced to False. */
  lemma CollectionBaseGets(kw: Dict<Json>)
    requires !HasKey(kw, "field_type")
    ensures var b := BaseKwargs(CollectionField, kw);
      && Get(b, "name") == Get(kw, "name") && Get(b, "index_name") == Get(kw, "index_name")
      && Get(b, "filterable") == Get(kw, "filterable") && Get(b, "retrievable") == Get(kw, "retrievable")
      && Get(b, "facetable") == Get(kw, "facetable") && Get(b, "index_analyzer") == Get(kw, "index_analyzer")
      && Get(b, "search_analyzer") == Get(kw, "search_analyzer") && Get(b, "analyzer") == Get(kw, "analyzer")
      && Get(b, "synonym_maps") == Get(kw, "synonym_maps")
      && Get(b, "field_type") == Some(JStr(CollectionType)) && Get(b, "sortable") == Some(JBool(false))
      && Get(b, "searchable") == None && Get(b, "key") == None
  {
    CollectionKeep(kw, "name", "index_name", "filterable", "retrievable");
    CollectionKeep(kw, "facetable", "index_analyzer", "search_analyzer", "analyzer");
    CollectionKeep(kw, "synonym_maps", "synonym_maps", "synonym_maps", "synonym_maps");
    CollectionForced(kw);
  }

  lemma CollectionKeep(kw: Dict<Json>, k1: string, k2: string, k3: string, k4: string)
    requires k1 !in {"field_type", "sortable", "searchable", "key"} && k2 !in {"field_type", "sortable", "searchable", "key"}
    requires k3 !in {"field_type", "sortable", "searchable", "key"} && k4 !in {"field_type", "sortable", "searchable", "key"}
    ensures var b := BaseKwargs(CollectionField, kw);
      Get(b, k1) == Get(kw, k1) && Get(b, k2) == Get(kw, k2) && Get(b, k3) == Get(kw, k3) && Get(b, k4) == Get(kw, k4)
  {
    CollectionKwargsGet(kw, k1);
    CollectionKwargsGet(kw, k2);
    CollectionKwargsGet(kw, k3);
    CollectionKwargsGet(kw, k4);
  }

  lemma CollectionForced(kw: Dict<Json>)
    ensures var b := BaseKwargs(CollectionField, kw);
      && Get(b, "field_type") == Some(JStr(CollectionType)) && Get(b, "sortable") == Some(JBool(false))
      && Get(b, "searchable") == None && Get(b, "key") == None
  {
    CollectionKwargsGet(kw, "field_type");
    CollectionKwargsGet(kw, "sortable");
    CollectionKwargsGet(kw, "searchable");
    CollectionKwargsGet(kw, "key");
  }

  lemma AttributesCollection(kw: Dict<Json>, b: Dict<Json>)
    requires HasKey(kw, "name") && !HasKey(kw, "field_type")
    requires Get(b, "name") == Get(kw, "name") && Get(b, "index_name") == Get(kw, "index_name")
    requires Get(b, "filterable") == Get(kw, "filterable") && Get(b, "retrievable") == Get(kw, "retrievable")
    requires Get(b, "facetable") == Get(kw, "facetable") && Get(b, "index_analyzer") == Get(kw, "index_analyzer")
    requires Get(b, "search_analyzer") == Get(kw, "search_analyzer") && Get(b, "analyzer") == Get(kw, "analyzer")
    requires Get(b, "synonym_maps") == Get(kw, "synonym_maps")
    requires Get(b, "field_type") == Some(JStr(CollectionType)) && Get(b, "sortable") == Some(JBool(false))
    requires Get(b, "searchable") == None && Get(b, "key") == None
    ensures HasKey(b, "name")
    ensures Attributes(CollectionField, b) ==
      Attributes(CollectionField, kw).(explicitType := JStr(CollectionType), sortable := JBool(false),
        searchable := JBool(false), key := JBool(false), params := Attributes(CollectionField, b).params)
  {
  }

  /** A dict that is not empty has a value under its first key. */
  lemma FirstKeyFound(d: Dict<Json>)
    ensures d == [] || Get(d, d[0].0).Some?
  {
  }
}
