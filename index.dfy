/** Indexes: the schema of a searchable collection. An index holds its fields, and
    optionally suggesters, custom analyzers, scoring profiles, tokenizers, token and
    character filters and CORS options. */
module Indexes {
  import opened Wire
  import opened SearchObject
  import opened Fields
  import opened Suggesters
  import opened Analyzers
  import opened ScoringProfiles

  /** A keyword argument of the index constructor: a plain value, or a list of the objects
      whose `to_dict` the index calls. */
  datatype IndexArg =
    | Value(j: Json)
    | FieldList(fs: seq<Field>)
    | SuggesterList(ss: seq<Suggester>)
    | AnalyzerList(ans: seq<CustomAnalyzer>)
    | ProfileList(ps: seq<ScoringProfile>)

  /** The list arguments; the constructor stores them and `to_dict` iterates them. */
  const ListArgs: set<string> := {"fields", "suggesters", "analyzers", "char_filters", "tokenizers",
    "token_filters", "scoring_profiles"}

  /** Objects are given only under the list arguments, and the fields argument is a list
      of fields or a plain value. */
  predicate ArgsShaped(kw: Dict<IndexArg>)
  {
    forall i :: 0 <= i < |kw| ==>
      (kw[i].1.Value? || kw[i].0 in ListArgs) && (kw[i].0 == "fields" ==> kw[i].1.Value? || kw[i].1.FieldList?)
  }

  /** An index. fields holds the fields after the constructor stamped them; the other list
      arguments are held as given. */
  datatype Index = Index(
    name: Json, fields: seq<Field>, suggesters: IndexArg, analyzers: IndexArg,
    charFilters: IndexArg, tokenizers: IndexArg, tokenFilters: IndexArg, scoringProfiles: IndexArg,
    defaultScoringProfile: Json, corsOptions: Json, params: Dict<Json>)

  /** The parameters the constructor declares. */
  const IndexParameters: set<string> := {"name", "fields", "suggesters", "analyzers", "char_filters",
    "tokenizers", "token_filters", "scoring_profiles", "default_scoring_profile", "cors_options"}

  // ----- construction -----

  /** The fields after `field.index_name = name` ran on each of them. */
  function Stamped(fs: seq<Field>, name: Json): (r: seq<Field>)
    ensures |r| == |fs|
    ensures forall i :: 0 <= i < |fs| ==> r[i].indexName == name && r[i].(indexName := fs[i].indexName) == fs[i]
  {
    seq(|fs|, i requires 0 <= i < |fs| => fs[i].(indexName := name))
  }

  /** `for field in self.fields: field.index_name = self.name`, on the caller's list: each
      field gets the index's name, in place, and nothing else changes. */
  method StampFields(fields: array<Field>, name: Json)
    modifies fields
    ensures fields[..] == Stamped(old(fields[..]), name)
  {
    var i := 0;
    while i < fields.Length
      invariant 0 <= i <= fields.Length
      invariant forall j :: 0 <= j < i ==> fields[j] == old(fields[j]).(indexName := name)
      invariant forall j :: i <= j < fields.Length ==> fields[j] == old(fields[j])
    {
      fields[i] := fields[i].(indexName := name);
      i := i + 1;
    }
  }

  /** What the stamping loop makes of the fields argument: a list of fields is stamped; a
      plain value with no elements leaves no fields; a plain value with elements has no
      `index_name` to set, and one that is not iterable cannot be looped over. */
  function FieldsOf(a: IndexArg, name: Json): (r: Result<seq<Field>>)
    requires a.Value? || a.FieldList?
    ensures a.FieldList? ==> r == Ok(Stamped(a.fs, name))
    ensures a.Value? ==> (r.Ok? <==> HasLen(a.j) && Len(a.j) == 0)
    ensures r.Ok? ==> |r.value| == if a.FieldList? then |a.fs| else 0
  {
    match a
    case FieldList(fs) => Ok(Stamped(fs, name))
    case Value(j) =>
      if !HasLen(j) then Err(TypeError("object is not iterable"))
      else if Len(j) == 0 then Ok([])
      else Err(AttributeError("index_name"))
  }

  function PlainValue(a: IndexArg): Json
  {
    if a.Value? then a.j else JNull
  }

  function PlainArgs(kw: Dict<IndexArg>): (d: Dict<Json>)
    ensures |d| == |kw|
    ensures forall i :: 0 <= i < |kw| ==> d[i] == (kw[i].0, PlainValue(kw[i].1))
  {
    seq(|kw|, i requires 0 <= i < |kw| => (kw[i].0, PlainValue(kw[i].1)))
  }

  /** The plain value of an argument that is not a list argument, or its default. */
  function PlainOr(kw: Dict<IndexArg>, k: string, default: Json): (v: Json)
    requires ArgsShaped(kw) && k !in ListArgs
    ensures Value(v) == GetOr(kw, k, Value(default))
  {
    if HasKey(kw, k) then
      var i := IndexOf(kw, k);
      assert kw[i].1.Value?;
      kw[i].1.j
    else default
  }

  /** `Index(name, fields, suggesters=None, analyzers=None, char_filters=None,
      tokenizers=None, token_filters=None, scoring_profiles=None,
      default_scoring_profile=None, cors_options=None, **kwargs)`, called with keyword
      arguments. Binding reports a missing name or fields first; the API-call base class
      then rejects a second `service_name` and takes `endpoint`; last, the fields are
      stamped with the index's name. */
  function NewIndex(kw: Dict<IndexArg>): (r: Result<Index>)
    requires ArgsShaped(kw)
    ensures r.Ok? <==> HasKey(kw, "name") && HasKey(kw, "fields") && !HasKey(kw, "service_name")
                       && FieldsOf(Get(kw, "fields").value, PlainOr(kw, "name", JNull)).Ok?
    ensures !HasKey(kw, "name") ==> r == Err(MissingArgument("name"))
    ensures HasKey(kw, "name") && !HasKey(kw, "fields") ==> r == Err(MissingArgument("fields"))
    ensures r.Ok? ==> Get(kw, "name") == Some(Value(r.value.name))
    ensures r.Ok? ==> r.value.fields == FieldsOf(Get(kw, "fields").value, r.value.name).value
    ensures r.Ok? ==> (r.value.suggesters == GetOr(kw, "suggesters", Value(JNull))
      && r.value.analyzers == GetOr(kw, "analyzers", Value(JNull))
      && r.value.charFilters == GetOr(kw, "char_filters", Value(JNull))
      && r.value.tokenizers == GetOr(kw, "tokenizers", Value(JNull))
      && r.value.tokenFilters == GetOr(kw, "token_filters", Value(JNull))
      && r.value.scoringProfiles == GetOr(kw, "scoring_profiles", Value(JNull)))
    ensures r.Ok? ==> (Value(r.value.defaultScoringProfile) == GetOr(kw, "default_scoring_profile", Value(JNull))
      && Value(r.value.corsOptions) == GetOr(kw, "cors_options", Value(JNull)))
    ensures r.Ok? ==> r.value.params == WithoutKeys(PlainArgs(WithoutKeys(kw, IndexParameters)), {"endpoint"})
  {
    PlainArgNames();
    if !HasKey(kw, "name") then Err(MissingArgument("name"))
    else if !HasKey(kw, "fields") then Err(MissingArgument("fields"))
    else
      var params :- IndexApiParams(kw);
      var name := PlainOr(kw, "name", JNull);
      var fieldsArg := Get(kw, "fields").value;
      FieldsArgShaped(kw);
      var fields :- FieldsOf(fieldsArg, name);
      Ok(Index(name, fields, GetOr(kw, "suggesters", Value(JNull)), GetOr(kw, "analyzers", Value(JNull)),
        GetOr(kw, "char_filters", Value(JNull)), GetOr(kw, "tokenizers", Value(JNull)),
        GetOr(kw, "token_filters", Value(JNull)), GetOr(kw, "scoring_profiles", Value(JNull)),
        PlainOr(kw, "default_scoring_profile", JNull), PlainOr(kw, "cors_options", JNull), params))
  }

  /** The plain arguments the constructor reads are not list arguments. */
  lemma PlainArgNames()
    ensures "name" !in ListArgs && "default_scoring_profile" !in ListArgs && "cors_options" !in ListArgs
  {
  }

  /** The fields argument, when given, is a list of fields or a plain value. */
  lemma FieldsArgShaped(kw: Dict<IndexArg>)
    requires ArgsShaped(kw) && HasKey(kw, "fields")
    ensures Get(kw, "fields").value.Value? || Get(kw, "fields").value.FieldList?
  {
    var i := IndexOf(kw, "fields");
    assert kw[i].1 == Get(kw, "fields").value;
  }

  /** What the API-call base class keeps of the arguments the constructor does not
      declare: `service_name` among them is given twice; `endpoint` is taken out. */
  function IndexApiParams(kw: Dict<IndexArg>): (r: Result<Dict<Json>>)
    ensures r.Ok? <==> !HasKey(kw, "service_name")
    ensures r.Ok? ==> r.value == WithoutKeys(PlainArgs(WithoutKeys(kw, IndexParameters)), {"endpoint"})
  {
    var rest := WithoutKeys(kw, IndexParameters);
    assert "service_name" !in IndexParameters;
    WithoutKeysGet(kw, IndexParameters, "service_name");
    PlainArgsKeys(rest, "service_name");
    ApiParams(PlainArgs(rest))
  }

  lemma PlainArgsKeys(kw: Dict<IndexArg>, k: string)
    ensures HasKey(PlainArgs(kw), k) <==> HasKey(kw, k)
  {
    var d := PlainArgs(kw);
    assert forall i :: 0 <= i < |kw| ==> d[i].0 == kw[i].0;
    assert Get(d, k).None? <==> Get(kw, k).None?;
  }

  // ----- to_dict -----

  function FieldDicts(fs: seq<Field>): (r: seq<Json>)
    ensures |r| == |fs|
    ensures forall i :: 0 <= i < |fs| ==> r[i] == JObj(FieldToDict(fs[i]))
  {
    seq(|fs|, i requires 0 <= i < |fs| => JObj(FieldToDict(fs[i])))
  }

  function AnalyzerDicts(ans: seq<CustomAnalyzer>): (r: seq<Json>)
    ensures |r| == |ans|
    ensures forall i :: 0 <= i < |ans| ==> r[i] == JObj(AnalyzerToDict(ans[i]))
  {
    seq(|ans|, i requires 0 <= i < |ans| => JObj(AnalyzerToDict(ans[i])))
  }

  /** `[x.to_dict() for x in xs]` for a class whose `to_dict` can fail: the first failure
      is raised. */
  function EachToDict<T>(xs: seq<T>, toDict: T -> Result<Dict<Json>>): (r: Result<seq<Json>>)
    ensures r.Ok? <==> forall i :: 0 <= i < |xs| ==> toDict(xs[i]).Ok?
    ensures r.Ok? ==> |r.value| == |xs| && forall i :: 0 <= i < |xs| ==> r.value[i] == JObj(toDict(xs[i]).value)
    ensures r.Err? ==> exists i :: 0 <= i < |xs| && toDict(xs[i]) == Err(r.exc)
  {
    if xs == [] then Ok([])
    else
      var first :- toDict(xs[0]);
      var rest :- EachToDict(xs[1..], toDict);
      assert forall i :: 1 <= i < |xs| ==> xs[i] == xs[1..][i - 1];
      Ok([JObj(first)] + rest)
  }

  /** `[x.to_dict() for x in xs]` over a stored list argument. A plain value's elements,
      if it has any, are strings or dicts, which have no `to_dict`. */
  function ListDicts(a: IndexArg): (r: Result<seq<Json>>)
    ensures a.Value? ==> (r.Ok? <==> HasLen(a.j) && Len(a.j) == 0)
    ensures a.FieldList? ==> r == Ok(FieldDicts(a.fs))
    ensures a.AnalyzerList? ==> r == Ok(AnalyzerDicts(a.ans))
    ensures a.SuggesterList? ==> r == EachToDict(a.ss, SuggesterToDict)
    ensures a.ProfileList? ==> r == EachToDict(a.ps, ProfileToDict)
    ensures r.Ok? && !a.Value? ==> |r.value| == ArgCount(a)
  {
    match a
    case Value(j) =>
      if !HasLen(j) then Err(TypeError("object is not iterable"))
      else if Len(j) == 0 then Ok([])
      else Err(AttributeError("to_dict"))
    case FieldList(fs) => Ok(FieldDicts(fs))
    case SuggesterList(ss) => EachToDict(ss, SuggesterToDict)
    case AnalyzerList(ans) => Ok(AnalyzerDicts(ans))
    case ProfileList(ps) => EachToDict(ps, ProfileToDict)
  }

  /** The number of objects in a list argument. */
  function ArgCount(a: IndexArg): nat
  {
    match a
    case Value(_) => 0
    case FieldList(fs) => |fs|
    case SuggesterList(ss) => |ss|
    case AnalyzerList(ans) => |ans|
    case ProfileList(ps) => |ps|
  }

  /** Python truthiness of a stored argument. */
  predicate ArgTruthy(a: IndexArg)
  {
    if a.Value? then Truthy(a.j) else ArgCount(a) > 0
  }

  /** `[x.to_dict() for x in xs] if xs else None`. */
  function OptionalList(a: IndexArg): (r: Result<Json>)
    ensures !ArgTruthy(a) ==> r == Ok(JNull)
    ensures ArgTruthy(a) ==> (r.Ok? <==> ListDicts(a).Ok?)
    ensures ArgTruthy(a) && r.Ok? ==> r.value == JArr(ListDicts(a).value) && !IsEmptyValue(r.value)
  {
    if !ArgTruthy(a) then Ok(JNull)
    else
      var ds :- ListDicts(a);
      Ok(JArr(ds))
  }

  /** The keys `to_dict` builds, in order; none has an underscore. */
  const IndexKeys: seq<string> := ["name", "fields", "scoringProfiles", "suggesters", "analyzers",
    "tokenizers", "tokenFilters", "charFilters", "corsOptions", "defaultScoringProfile"]

  function IndexFixed(x: Index, profiles: Json, suggesters: Json, analyzers: Json, tokenizers: Json,
                      tokenFilters: Json, charFilters: Json): (d: Dict<Json>)
    ensures |d| == |IndexKeys| && forall i :: 0 <= i < |d| ==> d[i].0 == IndexKeys[i]
  {
    [("name", x.name), ("fields", JArr(FieldDicts(x.fields))), ("scoringProfiles", profiles),
     ("suggesters", suggesters), ("analyzers", analyzers), ("tokenizers", tokenizers),
     ("tokenFilters", tokenFilters), ("charFilters", charFilters), ("corsOptions", x.corsOptions),
     ("defaultScoringProfile", x.defaultScoringProfile)]
  }

  /** None of the lists `to_dict` converts fails. */
  predicate Sendable(x: Index)
  {
    OptionalList(x.scoringProfiles).Ok? && OptionalList(x.suggesters).Ok? && OptionalList(x.analyzers).Ok?
    && OptionalList(x.tokenizers).Ok? && OptionalList(x.tokenFilters).Ok? && OptionalList(x.charFilters).Ok?
  }

  /** `Index.to_dict`: the entries are computed in order, so the first list that fails
      decides the error; the fields are always a list; params override before
      camel-casing and stripping. */
  function IndexToDict(x: Index): (r: Result<Dict<Json>>)
    ensures r.Ok? <==> Sendable(x)
  {
    var profiles :- OptionalList(x.scoringProfiles);
    var suggesters :- OptionalList(x.suggesters);
    var analyzers :- OptionalList(x.analyzers);
    var tokenizers :- OptionalList(x.tokenizers);
    var tokenFilters :- OptionalList(x.tokenFilters);
    var charFilters :- OptionalList(x.charFilters);
    Ok(WireDict(IndexFixed(x, profiles, suggesters, analyzers, tokenizers, tokenFilters, charFilters), x.params))
  }

  // ----- load -----

  /** The keys under which `load` puts objects. */
  const LoadedListKeys: set<string> := {"fields", "suggesters", "analyzers", "scoring_profiles"}

  /** The data dict while `load` rewrites it: objects only under the keys `load` writes,
      and under `fields` only fields. */
  predicate LoadShaped(kw: Dict<IndexArg>)
  {
    forall i :: 0 <= i < |kw| ==>
      (kw[i].1.Value? || kw[i].0 in LoadedListKeys) && (kw[i].0 == "fields" ==> kw[i].1.Value? || kw[i].1.FieldList?)
  }

  function PlainIndexArgs(m: Dict<Json>): (kw: Dict<IndexArg>)
    ensures |kw| == |m|
    ensures forall i :: 0 <= i < |m| ==> kw[i] == (m[i].0, Value(m[i].1))
  {
    seq(|m|, i requires 0 <= i < |m| => (m[i].0, Value(m[i].1)))
  }

  function LoadFieldPlain(data: Json): Result<Field>
  {
    LoadField(data, [])
  }

  function SuggesterObjects(m: Dict<Json>): Result<seq<Suggester>>
    requires HasKey(m, "suggesters")
  {
    LoadEach(Get(m, "suggesters").value, LoadSuggester)
  }

  function AnalyzerObjects(m: Dict<Json>): Result<seq<CustomAnalyzer>>
    requires HasKey(m, "analyzers")
  {
    LoadEach(Get(m, "analyzers").value, AnalyzerLoader(GetOr(m, "name", JNull)))
  }

  function AnalyzerLoader(indexName: Json): Json -> Result<CustomAnalyzer>
  {
    (an: Json) => LoadCustomAnalyzer(an, [("index_name", indexName)])
  }

  function ProfileObjects(m: Dict<Json>): Result<seq<ScoringProfile>>
    requires HasKey(m, "scoringProfiles")
  {
    LoadEach(Get(m, "scoringProfiles").value, LoadScoringProfile)
  }

  function FieldObjects(m: Dict<Json>): Result<seq<Field>>
    requires HasKey(m, "fields")
  {
    LoadEach(Get(m, "fields").value, LoadFieldPlain)
  }

  /** `data['suggesters'] = [Suggester.load(sg) for sg in data.get('suggesters')]`. */
  function WithSuggesters(m: Dict<Json>, kw: Dict<IndexArg>): (r: Result<Dict<IndexArg>>)
    requires LoadShaped(kw)
    ensures r.Ok? ==> LoadShaped(r.value)
    ensures r.Ok? && DistinctKeys(kw) ==> DistinctKeys(r.value)
    ensures r.Ok? ==> forall x :: HasKey(r.value, x) ==> HasKey(kw, x) || (x == "suggesters" && HasKey(m, "suggesters"))
    ensures !HasKey(m, "suggesters") ==> r == Ok(kw)
    ensures HasKey(m, "suggesters") ==> (r.Ok? <==> SuggesterObjects(m).Ok?)
    ensures r.Ok? && HasKey(m, "suggesters") ==> r.value == Put(kw, "suggesters", SuggesterList(SuggesterObjects(m).value))
  {
    if HasKey(m, "suggesters") then
      var ss :- SuggesterObjects(m);
      Ok(Put(kw, "suggesters", SuggesterList(ss)))
    else Ok(kw)
  }

  /** `data['analyzers'] = [CustomAnalyzer.load(an, index_name=data.get('name')) ...]`. */
  function WithAnalyzers(m: Dict<Json>, kw: Dict<IndexArg>): (r: Result<Dict<IndexArg>>)
    requires LoadShaped(kw)
    ensures r.Ok? ==> LoadShaped(r.value)
    ensures r.Ok? && DistinctKeys(kw) ==> DistinctKeys(r.value)
    ensures r.Ok? ==> forall x :: HasKey(r.value, x) ==> HasKey(kw, x) || (x == "analyzers" && HasKey(m, "analyzers"))
    ensures !HasKey(m, "analyzers") ==> r == Ok(kw)
    ensures HasKey(m, "analyzers") ==> (r.Ok? <==> AnalyzerObjects(m).Ok?)
    ensures r.Ok? && HasKey(m, "analyzers") ==> r.value == Put(kw, "analyzers", AnalyzerList(AnalyzerObjects(m).value))
  {
    if HasKey(m, "analyzers") then
      var ans :- AnalyzerObjects(m);
      Ok(Put(kw, "analyzers", AnalyzerList(ans)))
    else Ok(kw)
  }

  /** `data['scoring_profiles'] = [ScoringProfile.load(sp) for sp in data['scoringProfiles']]`:
      written under the snake-cased key, not over the raw one. */
  function WithProfiles(m: Dict<Json>, kw: Dict<IndexArg>): (r: Result<Dict<IndexArg>>)
    requires LoadShaped(kw)
    ensures r.Ok? ==> LoadShaped(r.value)
    ensures r.Ok? && DistinctKeys(kw) ==> DistinctKeys(r.value)
    ensures r.Ok? ==> forall x :: HasKey(r.value, x) ==> HasKey(kw, x) || (x == "scoring_profiles" && HasKey(m, "scoringProfiles"))
    ensures !HasKey(m, "scoringProfiles") ==> r == Ok(kw)
    ensures HasKey(m, "scoringProfiles") ==> (r.Ok? <==> ProfileObjects(m).Ok?)
    ensures r.Ok? && HasKey(m, "scoringProfiles") ==>
      r.value == Put(kw, "scoring_profiles", ProfileList(ProfileObjects(m).value))
  {
    if HasKey(m, "scoringProfiles") then
      var ps :- ProfileObjects(m);
      Ok(Put(kw, "scoring_profiles", ProfileList(ps)))
    else Ok(kw)
  }

  /** `data['fields'] = [Field.load(fi) for fi in data['fields']]`. */
  function WithFields(m: Dict<Json>, kw: Dict<IndexArg>): (r: Result<Dict<IndexArg>>)
    requires LoadShaped(kw)
    ensures r.Ok? ==> LoadShaped(r.value)
    ensures r.Ok? && DistinctKeys(kw) ==> DistinctKeys(r.value)
    ensures r.Ok? ==> forall x :: HasKey(r.value, x) ==> HasKey(kw, x) || (x == "fields" && HasKey(m, "fields"))
    ensures !HasKey(m, "fields") ==> r == Ok(kw)
    ensures HasKey(m, "fields") ==> (r.Ok? <==> FieldObjects(m).Ok?)
    ensures r.Ok? && HasKey(m, "fields") ==> r.value == Put(kw, "fields", FieldList(FieldObjects(m).value))
  {
    if HasKey(m, "fields") then
      var fs :- FieldObjects(m);
      Ok(Put(kw, "fields", FieldList(fs)))
    else Ok(kw)
  }

  /** The data dict after `load` replaced the lists it converts, in source order. */
  function LoadedArgs(m: Dict<Json>): (r: Result<Dict<IndexArg>>)
    ensures r.Ok? ==> LoadShaped(r.value)
  {
    var kw := PlainIndexArgs(m);
    var withSuggesters :- WithSuggesters(m, kw);
    var withAnalyzers :- WithAnalyzers(m, withSuggesters);
    var withProfiles :- WithProfiles(m, withAnalyzers);
    WithFields(m, withProfiles)
  }

  /** `Index.load`: a non-dict raises; suggesters, analyzers, scoring profiles and fields
      are loaded into objects; the keys are snake-cased and the constructor runs. */
  function LoadIndex(data: Json): (r: Result<Index>)
    ensures !data.JObj? ==> r == Err(Exception("Failed to parse input as Dict"))
    ensures data.JObj? ==> (r.Ok? ==> LoadedArgs(data.members).Ok?)
  {
    if !data.JObj? then Err(Exception("Failed to parse input as Dict"))
    else
      var kw :- LoadedArgs(data.members);
      LoadedArgsShaped(kw);
      NewIndex(ToSnakeCaseDict(kw))
  }

  /** The keys `load` writes objects under are list arguments, and snake-casing keeps them. */
  lemma LoadedKeySnake(k: string)
    requires k in LoadedListKeys
    ensures ToSnakeCase(k) == k && k in ListArgs
  {
    assert k in ListArgs;
    assert NoUpper(k) by {
      if k == "fields" {
      } else if k == "suggesters" {
      } else if k == "analyzers" {
      } else {
        assert k == "scoring_profiles";
        forall i | 0 <= i < |k| ensures !IsUpper(k[i]) { }
      }
    }
    SnakeIdentity(k);
  }

  /** Snake-casing keeps the loaded objects under the keys `load` wrote them to, so the
      constructor gets plain values everywhere else. */
  lemma LoadedArgsShaped(kw: Dict<IndexArg>)
    requires LoadShaped(kw)
    ensures ArgsShaped(ToSnakeCaseDict(kw))
  {
    var r := ToSnakeCaseDict(kw);
    RekeyValues(kw, ToSnakeCase);
    forall i | 0 <= i < |r|
      ensures (r[i].1.Value? || r[i].0 in ListArgs) && (r[i].0 == "fields" ==> r[i].1.Value? || r[i].1.FieldList?)
    {
      var j :| 0 <= j < |kw| && r[i] == (ToSnakeCase(kw[j].0), kw[j].1);
      if !kw[j].1.Value? {
        LoadedKeySnake(kw[j].0);
      }
    }
  }

  // ----- lemmas: construction -----

  /** Stamping twice with the same name is stamping once. */
  lemma StampedIdempotent(fs: seq<Field>, name: Json)
    ensures Stamped(Stamped(fs, name), name) == Stamped(fs, name)
  {
  }

  /** The index name is not part of a field's wire form: the stamped fields send what the
      caller's fields sent. */
  lemma StampedWire(fs: seq<Field>, name: Json)
    ensures FieldDicts(Stamped(fs, name)) == FieldDicts(fs)
  {
  }

  // ----- lemmas: to_dict -----

  lemma IndexKeysNoUnderscore(i: nat)
    requires i < |IndexKeys|
    ensures '_' !in IndexKeys[i]
  {
  }

  lemma IndexKeysDistinct()
    ensures forall i, j :: 0 <= i < j < |IndexKeys| ==> IndexKeys[i] != IndexKeys[j]
  {
  }

  lemma IndexKeysCamel(fixed: Dict<Json>)
    requires |fixed| == |IndexKeys| && forall i :: 0 <= i < |fixed| ==> fixed[i].0 == IndexKeys[i]
    ensures forall i :: 0 <= i < |fixed| ==> ToCamelCase(fixed[i].0) == IndexKeys[i]
  {
    forall i | 0 <= i < |IndexKeys| ensures ToCamelCase(IndexKeys[i]) == IndexKeys[i] {
      IndexKeysNoUnderscore(i);
      CamelIdentity(IndexKeys[i]);
    }
  }

  /** The fixed dict `to_dict` builds, when none of its lists fails. */
  function SentFixed(x: Index): (d: Dict<Json>)
    requires Sendable(x)
    ensures |d| == |IndexKeys| && forall i :: 0 <= i < |d| ==> d[i].0 == IndexKeys[i]
    ensures d[0].1 == x.name && d[1].1 == JArr(FieldDicts(x.fields))
    ensures d[2].1 == OptionalList(x.scoringProfiles).value && d[3].1 == OptionalList(x.suggesters).value
    ensures d[4].1 == OptionalList(x.analyzers).value && d[5].1 == OptionalList(x.tokenizers).value
    ensures d[6].1 == OptionalList(x.tokenFilters).value && d[7].1 == OptionalList(x.charFilters).value
    ensures d[8].1 == x.corsOptions && d[9].1 == x.defaultScoringProfile
  {
    IndexFixed(x, OptionalList(x.scoringProfiles).value, OptionalList(x.suggesters).value,
      OptionalList(x.analyzers).value, OptionalList(x.tokenizers).value,
      OptionalList(x.tokenFilters).value, OptionalList(x.charFilters).value)
  }

  /** `to_dict` sends the fixed dict, merged with the params and stripped. */
  lemma SentWireDict(x: Index)
    requires Sendable(x)
    ensures IndexToDict(x) == Ok(WireDict(SentFixed(x), x.params))
  {
  }

  /** Without params, the entry under each fixed key is the fixed value unless that is
      None or empty. */
  lemma IndexWireAt(x: Index, i: nat)
    requires x.params == [] && Sendable(x) && i < |IndexKeys|
    ensures Get(IndexToDict(x).value, IndexKeys[i]) == Kept(Some(SentFixed(x)[i].1))
  {
    SentWireDict(x);
    var fixed := SentFixed(x);
    IndexKeysCamel(fixed);
    IndexKeysDistinct();
    CamelWireGet(fixed, IndexKeys, i);
  }

  /** A list argument is sent as the list of its objects' dicts when it is truthy, and
      left out otherwise. */
  lemma OptionalListSent(a: IndexArg)
    requires OptionalList(a).Ok?
    ensures Kept(Some(OptionalList(a).value)) == if ArgTruthy(a) then Some(JArr(ListDicts(a).value)) else None
  {
  }

  /** Without params, `to_dict` sends the name unless it is None or empty, and the fields'
      own dicts in order, leaving the fields out when there are none. */
  lemma IndexWireFields(x: Index)
    requires x.params == [] && Sendable(x)
    ensures var d := IndexToDict(x).value;
      && Get(d, "name") == Kept(Some(x.name))
      && Get(d, "fields") == if x.fields == [] then None else Some(JArr(FieldDicts(x.fields)))
  {
    IndexWireAt(x, 0);
    IndexWireAt(x, 1);
    assert IndexKeys[0] == "name" && IndexKeys[1] == "fields";
  }

  /** Without params, each optional list is sent exactly when it is truthy, as the list of
      its objects' dicts; the CORS options and default profile are left out when None or
      empty. */
  lemma IndexWireOptional(x: Index)
    requires x.params == [] && Sendable(x)
    ensures var d := IndexToDict(x).value;
      && Get(d, "scoringProfiles") == (if ArgTruthy(x.scoringProfiles) then Some(JArr(ListDicts(x.scoringProfiles).value)) else None)
      && Get(d, "suggesters") == (if ArgTruthy(x.suggesters) then Some(JArr(ListDicts(x.suggesters).value)) else None)
      && Get(d, "analyzers") == (if ArgTruthy(x.analyzers) then Some(JArr(ListDicts(x.analyzers).value)) else None)
      && Get(d, "tokenizers") == (if ArgTruthy(x.tokenizers) then Some(JArr(ListDicts(x.tokenizers).value)) else None)
      && Get(d, "tokenFilters") == (if ArgTruthy(x.tokenFilters) then Some(JArr(ListDicts(x.tokenFilters).value)) else None)
      && Get(d, "charFilters") == (if ArgTruthy(x.charFilters) then Some(JArr(ListDicts(x.charFilters).value)) else None)
      && Get(d, "corsOptions") == Kept(Some(x.corsOptions))
      && Get(d, "defaultScoringProfile") == Kept(Some(x.defaultScoringProfile))
  {
    IndexWireAt(x, 2);
    IndexWireAt(x, 3);
    IndexWireAt(x, 4);
    IndexWireAt(x, 5);
    IndexWireAt(x, 6);
    IndexWireAt(x, 7);
    IndexWireAt(x, 8);
    IndexWireAt(x, 9);
    OptionalListSent(x.scoringProfiles);
    OptionalListSent(x.suggesters);
    OptionalListSent(x.analyzers);
    OptionalListSent(x.tokenizers);
    OptionalListSent(x.tokenFilters);
    OptionalListSent(x.charFilters);
  }

  /** A param overrides the fixed entry its key camel-cases onto. */
  lemma IndexParamWins(x: Index, k: string)
    requires Sendable(x) && DistinctKeys(x.params) && HasKey(x.params, k)
    requires forall y :: HasKey(x.params, y) && y != k ==> ToCamelCase(y) != ToCamelCase(k)
    ensures Get(IndexToDict(x).value, ToCamelCase(k)) == Kept(Get(x.params, k))
  {
    SentWireDict(x);
    var fixed := SentFixed(x);
    IndexKeysApart(fixed, k);
    ParamWins(fixed, x.params, k);
  }

  /** The fixed keys are distinct and camel-case to themselves, so no other fixed key
      camel-cases onto a fixed key. */
  lemma IndexKeysApart(fixed: Dict<Json>, k: string)
    requires |fixed| == |IndexKeys| && forall i :: 0 <= i < |fixed| ==> fixed[i].0 == IndexKeys[i]
    ensures DistinctKeys(fixed)
    ensures HasKey(fixed, k) ==> forall x :: HasKey(fixed, x) && x != k ==> ToCamelCase(x) != ToCamelCase(k)
  {
    IndexKeysCamel(fixed);
    IndexKeysDistinct();
    if HasKey(fixed, k) {
      var i := IndexOf(fixed, k);
      forall x | HasKey(fixed, x) && x != k ensures ToCamelCase(x) != ToCamelCase(k) {
        var j := IndexOf(fixed, x);
        assert ToCamelCase(x) == IndexKeys[j] && ToCamelCase(k) == IndexKeys[i];
      }
    }
  }

  /** The arguments of `Index(name, fields)`. */
  function NameAndFields(n: Json, fs: seq<Field>): (kw: Dict<IndexArg>)
    ensures ArgsShaped(kw)
  {
    [("name", Value(n)), ("fields", FieldList(fs))]
  }

  /** `Index(name, fields)` builds, stamps the fields and has no params. */
  lemma NameAndFieldsBuild(n: Json, fs: seq<Field>)
    ensures NewIndex(NameAndFields(n, fs)).Ok?
    ensures NewIndex(NameAndFields(n, fs)).value ==
      Index(n, Stamped(fs, n), Value(JNull), Value(JNull), Value(JNull), Value(JNull), Value(JNull), Value(JNull),
            JNull, JNull, [])
  {
    var kw := NameAndFields(n, fs);
    PositionGet(kw, 0, "name");
    PositionGet(kw, 1, "fields");
    assert IndexOf(kw, "service_name") == 2;
    WithoutEveryKey(kw, IndexParameters);
  }

  /** `Index(name, fields).to_dict()` sends the name unless it is None or empty, the
      fields' own dicts in order, which the stamped index name does not change, and no
      optional list, CORS options or default profile. */
  lemma NameAndFieldsSent(n: Json, fs: seq<Field>)
    ensures NewIndex(NameAndFields(n, fs)).Ok? && IndexToDict(NewIndex(NameAndFields(n, fs)).value).Ok?
    ensures var d := IndexToDict(NewIndex(NameAndFields(n, fs)).value).value;
      && Get(d, "name") == Kept(Some(n))
      && Get(d, "fields") == (if fs == [] then None else Some(JArr(FieldDicts(fs))))
      && !HasKey(d, "scoringProfiles") && !HasKey(d, "suggesters") && !HasKey(d, "analyzers")
      && !HasKey(d, "tokenizers") && !HasKey(d, "tokenFilters") && !HasKey(d, "charFilters")
      && !HasKey(d, "corsOptions") && !HasKey(d, "defaultScoringProfile")
  {
    NameAndFieldsBuild(n, fs);
    var x := NewIndex(NameAndFields(n, fs)).value;
    BareIndexSent(x);
    StampedWire(fs, n);
  }

  /** An index with no optional list, CORS options or default profile sends only its
      name and fields. */
  lemma BareIndexSent(x: Index)
    requires x.params == [] && x.corsOptions == JNull && x.defaultScoringProfile == JNull
    requires x.scoringProfiles == Value(JNull) && x.suggesters == Value(JNull) && x.analyzers == Value(JNull)
    requires x.tokenizers == Value(JNull) && x.tokenFilters == Value(JNull) && x.charFilters == Value(JNull)
    ensures Sendable(x)
    ensures var d := IndexToDict(x).value;
      && Get(d, "name") == Kept(Some(x.name))
      && Get(d, "fields") == (if x.fields == [] then None else Some(JArr(FieldDicts(x.fields))))
      && !HasKey(d, "scoringProfiles") && !HasKey(d, "suggesters") && !HasKey(d, "analyzers")
      && !HasKey(d, "tokenizers") && !HasKey(d, "tokenFilters") && !HasKey(d, "charFilters")
      && !HasKey(d, "corsOptions") && !HasKey(d, "defaultScoringProfile")
  {
    assert !ArgTruthy(Value(JNull));
    assert Sendable(x);
    IndexWireFields(x);
    IndexWireOptional(x);
  }

  // ----- lemmas: load -----

  lemma PlainIndexArgsKeys(m: Dict<Json>, k: string)
    ensures HasKey(PlainIndexArgs(m), k) <==> HasKey(m, k)
    ensures DistinctKeys(m) ==> DistinctKeys(PlainIndexArgs(m))
  {
    var kw := PlainIndexArgs(m);
    assert forall i :: 0 <= i < |m| ==> kw[i].0 == m[i].0;
    assert IndexOf(kw, k) == IndexOf(m, k);
  }

  /** The rewritten data has the keys of the data, and the snake-cased key the loaded
      scoring profiles go under; a dict's distinct keys stay distinct. */
  lemma LoadedArgsKeys(m: Dict<Json>)
    requires LoadedArgs(m).Ok?
    ensures DistinctKeys(m) ==> DistinctKeys(LoadedArgs(m).value)
    ensures forall x :: HasKey(LoadedArgs(m).value, x) ==>
      HasKey(m, x) || (x == "scoring_profiles" && HasKey(m, "scoringProfiles"))
  {
    LoadedArgsDistinct(m);
    LoadedArgsKeySet(m);
  }

  /** LoadedArgsKeys for distinctness. */
  lemma LoadedArgsDistinct(m: Dict<Json>)
    requires LoadedArgs(m).Ok?
    ensures DistinctKeys(m) ==> DistinctKeys(LoadedArgs(m).value)
  {
    var kw, k1, k2, k3, k4 := LoadedSteps(m);
    PlainIndexArgsKeys(m, "");
    StepsKeys(kw, k1, k2, k3, k4, HasKey(m, "suggesters"), HasKey(m, "analyzers"),
              HasKey(m, "scoringProfiles"), HasKey(m, "fields"));
  }

  /** LoadedArgsKeys for the keys. */
  lemma LoadedArgsKeySet(m: Dict<Json>)
    requires LoadedArgs(m).Ok?
    ensures forall x :: HasKey(LoadedArgs(m).value, x) ==>
      HasKey(m, x) || (x == "scoring_profiles" && HasKey(m, "scoringProfiles"))
  {
    var kw, k1, k2, k3, k4 := LoadedSteps(m);
    StepsKeysFrom(m, kw, k1, k2, k3, k4);
  }

  /** The keys after the four steps are the data's keys and, at most, `scoring_profiles`. */
  lemma StepsKeysFrom(m: Dict<Json>, kw: Dict<IndexArg>, k1: Dict<IndexArg>, k2: Dict<IndexArg>,
                      k3: Dict<IndexArg>, k4: Dict<IndexArg>)
    requires kw == PlainIndexArgs(m)
    requires k1 == kw || (HasKey(m, "suggesters") && exists v :: k1 == Put(kw, "suggesters", v))
    requires k2 == k1 || (HasKey(m, "analyzers") && exists v :: k2 == Put(k1, "analyzers", v))
    requires k3 == k2 || (HasKey(m, "scoringProfiles") && exists v :: k3 == Put(k2, "scoring_profiles", v))
    requires k4 == k3 || (HasKey(m, "fields") && exists v :: k4 == Put(k3, "fields", v))
    ensures forall x :: HasKey(k4, x) ==> HasKey(m, x) || (x == "scoring_profiles" && HasKey(m, "scoringProfiles"))
  {
    PlainIndexArgsAllKeys(m);
    StepsKeySet(kw, k1, k2, k3, k4, HasKey(m, "suggesters"), HasKey(m, "analyzers"),
                HasKey(m, "scoringProfiles"), HasKey(m, "fields"));
  }

  lemma PlainIndexArgsAllKeys(m: Dict<Json>)
    ensures forall x :: HasKey(PlainIndexArgs(m), x) ==> HasKey(m, x)
  {
    forall x | HasKey(PlainIndexArgs(m), x) ensures HasKey(m, x) {
      PlainIndexArgsKeys(m, x);
    }
  }

  /** The four steps write only their own keys, and only when they run. */
  lemma StepsKeys(kw: Dict<IndexArg>, k1: Dict<IndexArg>, k2: Dict<IndexArg>, k3: Dict<IndexArg>,
                  k4: Dict<IndexArg>, s: bool, a: bool, p: bool, f: bool)
    requires k1 == kw || (s && exists v :: k1 == Put(kw, "suggesters", v))
    requires k2 == k1 || (a && exists v :: k2 == Put(k1, "analyzers", v))
    requires k3 == k2 || (p && exists v :: k3 == Put(k2, "scoring_profiles", v))
    requires k4 == k3 || (f && exists v :: k4 == Put(k3, "fields", v))
    ensures DistinctKeys(kw) ==> DistinctKeys(k4)
  {
    StepKeys(kw, k1, "suggesters");
    StepKeys(k1, k2, "analyzers");
    StepKeys(k2, k3, "scoring_profiles");
    StepKeys(k3, k4, "fields");
  }

  /** The four steps write only their own keys, and only when they run. */
  lemma StepsKeySet(kw: Dict<IndexArg>, k1: Dict<IndexArg>, k2: Dict<IndexArg>, k3: Dict<IndexArg>,
                    k4: Dict<IndexArg>, s: bool, a: bool, p: bool, f: bool)
    requires k1 == kw || (s && exists v :: k1 == Put(kw, "suggesters", v))
    requires k2 == k1 || (a && exists v :: k2 == Put(k1, "analyzers", v))
    requires k3 == k2 || (p && exists v :: k3 == Put(k2, "scoring_profiles", v))
    requires k4 == k3 || (f && exists v :: k4 == Put(k3, "fields", v))
    ensures forall x :: HasKey(k4, x) ==>
      HasKey(kw, x) || (x == "suggesters" && s) || (x == "analyzers" && a)
      || (x == "scoring_profiles" && p) || (x == "fields" && f)
  {
    StepKeySet(kw, k1, "suggesters");
    StepKeySet(k1, k2, "analyzers");
    StepKeySet(k2, k3, "scoring_profiles");
    StepKeySet(k3, k4, "fields");
  }

  /** One rewriting step writes at most one key. */
  lemma StepKeys(d: Dict<IndexArg>, r: Dict<IndexArg>, k: string)
    requires r == d || exists v :: r == Put(d, k, v)
    ensures DistinctKeys(d) ==> DistinctKeys(r)
    ensures forall x :: HasKey(r, x) ==> HasKey(d, x) || (x == k && HasKey(r, k))
  {
    if r != d {
      var v :| r == Put(d, k, v);
      forall x | HasKey(r, x) && x != k ensures HasKey(d, x) {
        assert Get(r, x) == Get(d, x);
      }
    }
  }

  /** The rewritten data holds the loaded fields, analyzers and suggesters under their own
      keys when the data has them. */
  lemma LoadedArgsLists(m: Dict<Json>)
    requires LoadedArgs(m).Ok?
    ensures HasKey(m, "fields") ==>
      FieldObjects(m).Ok? && Get(LoadedArgs(m).value, "fields") == Some(FieldList(FieldObjects(m).value))
    ensures HasKey(m, "analyzers") ==>
      AnalyzerObjects(m).Ok? && Get(LoadedArgs(m).value, "analyzers") == Some(AnalyzerList(AnalyzerObjects(m).value))
    ensures HasKey(m, "suggesters") ==>
      SuggesterObjects(m).Ok? && Get(LoadedArgs(m).value, "suggesters") == Some(SuggesterList(SuggesterObjects(m).value))
  {
    if HasKey(m, "suggesters") {
      LoadedSuggestersArg(m);
    }
    if HasKey(m, "analyzers") {
      LoadedAnalyzersArg(m);
    }
    if HasKey(m, "fields") {
      LoadedFieldsArg(m);
    }
  }

  /** LoadedArgsLists for the fields, which are written last. */
  lemma LoadedFieldsArg(m: Dict<Json>)
    requires LoadedArgs(m).Ok? && HasKey(m, "fields")
    ensures FieldObjects(m).Ok? && Get(LoadedArgs(m).value, "fields") == Some(FieldList(FieldObjects(m).value))
  {
    var kw, k1, k2, k3, k4 := LoadedSteps(m);
  }

  /** LoadedArgsLists for the suggesters: the analyzers and profiles are written under
      other keys. */
  lemma LoadedSuggestersArg(m: Dict<Json>)
    requires LoadedArgs(m).Ok? && HasKey(m, "suggesters")
    ensures SuggesterObjects(m).Ok? && Get(LoadedArgs(m).value, "suggesters") == Some(SuggesterList(SuggesterObjects(m).value))
  {
    var kw, k1, k2, k3, k4 := LoadedSteps(m);
    GetPastStep(k1, k2, "analyzers", "suggesters");
    GetPastStep(k2, k3, "scoring_profiles", "suggesters");
    GetPastStep(k3, k4, "fields", "suggesters");
  }

  /** One rewriting step writes at most its own key. */
  lemma StepKeySet(d: Dict<IndexArg>, r: Dict<IndexArg>, k: string)
    requires r == d || exists v :: r == Put(d, k, v)
    ensures forall x :: HasKey(r, x) ==> HasKey(d, x) || (x == k && HasKey(r, k))
  {
    StepKeys(d, r, k);
  }

  /** Writing one key leaves every other key's entry alone. */
  lemma GetPastStep(d: Dict<IndexArg>, r: Dict<IndexArg>, k: string, key: string)
    requires r == d || exists v :: r == Put(d, k, v)
    requires key != k
    ensures Get(r, key) == Get(d, key)
  {
    if r != d {
      var v :| r == Put(d, k, v);
    }
  }

  /** The four rewriting steps of `load`, one dict after each. */
  lemma LoadedSteps(m: Dict<Json>) returns (kw: Dict<IndexArg>, k1: Dict<IndexArg>, k2: Dict<IndexArg>,
                                            k3: Dict<IndexArg>, k4: Dict<IndexArg>)
    requires LoadedArgs(m).Ok?
    ensures kw == PlainIndexArgs(m) && LoadedArgs(m) == Ok(k4)
    ensures !HasKey(m, "suggesters") ==> k1 == kw
    ensures HasKey(m, "suggesters") ==>
      SuggesterObjects(m).Ok? && k1 == Put(kw, "suggesters", SuggesterList(SuggesterObjects(m).value))
    ensures !HasKey(m, "analyzers") ==> k2 == k1
    ensures HasKey(m, "analyzers") ==>
      AnalyzerObjects(m).Ok? && k2 == Put(k1, "analyzers", AnalyzerList(AnalyzerObjects(m).value))
    ensures !HasKey(m, "scoringProfiles") ==> k3 == k2
    ensures HasKey(m, "scoringProfiles") ==>
      ProfileObjects(m).Ok? && k3 == Put(k2, "scoring_profiles", ProfileList(ProfileObjects(m).value))
    ensures !HasKey(m, "fields") ==> k4 == k3
    ensures HasKey(m, "fields") ==>
      FieldObjects(m).Ok? && k4 == Put(k3, "fields", FieldList(FieldObjects(m).value))
  {
    kw := PlainIndexArgs(m);
    k1 := WithSuggesters(m, kw).value;
    k2 := WithAnalyzers(m, k1).value;
    k3 := WithProfiles(m, k2).value;
    k4 := WithFields(m, k3).value;
  }

  /** LoadedArgsLists for the analyzers: the profiles and fields are written under other
      keys. */
  lemma LoadedAnalyzersArg(m: Dict<Json>)
    requires LoadedArgs(m).Ok? && HasKey(m, "analyzers")
    ensures AnalyzerObjects(m).Ok? && Get(LoadedArgs(m).value, "analyzers") == Some(AnalyzerList(AnalyzerObjects(m).value))
  {
    var kw, k1, k2, k3, k4 := LoadedSteps(m);
    GetPastStep(k2, k3, "scoring_profiles", "analyzers");
    GetPastStep(k3, k4, "fields", "analyzers");
  }

  /** When the data has no snake-cased `scoring_profiles` key of its own, the loaded
      profiles are the last entry of the rewritten data. */
  lemma LoadedProfilesLast(m: Dict<Json>)
    requires LoadedArgs(m).Ok? && HasKey(m, "scoringProfiles") && !HasKey(m, "scoring_profiles")
    ensures ProfileObjects(m).Ok?
    ensures var r := LoadedArgs(m).value;
      |r| > 0 && r[|r| - 1] == ("scoring_profiles", ProfileList(ProfileObjects(m).value))
  {
    var kw, k1, k2, k3, k4 := LoadedSteps(m);
    PlainIndexArgsKeys(m, "scoring_profiles");
    if HasKey(m, "fields") {
      PlainIndexArgsKeys(m, "fields");
    }
    ProfilesStayLast(kw, k1, k2, k3, k4, ProfileList(ProfileObjects(m).value));
  }

  /** Appending the profiles after the suggesters and analyzers leaves them last, and
      rewriting a `fields` entry that was already there keeps them last. */
  lemma ProfilesStayLast(kw: Dict<IndexArg>, k1: Dict<IndexArg>, k2: Dict<IndexArg>,
                         k3: Dict<IndexArg>, k4: Dict<IndexArg>, v: IndexArg)
    requires !HasKey(kw, "scoring_profiles")
    requires k1 == kw || exists a :: k1 == Put(kw, "suggesters", a)
    requires k2 == k1 || exists a :: k2 == Put(k1, "analyzers", a)
    requires k3 == Put(k2, "scoring_profiles", v)
    requires k4 == k3 || (HasKey(kw, "fields") && exists a :: k4 == Put(k3, "fields", a))
    ensures |k4| > 0 && k4[|k4| - 1] == ("scoring_profiles", v)
  {
    ListKeysApart();
    StepKeys(kw, k1, "suggesters");
    StepKeys(k1, k2, "analyzers");
    assert !HasKey(k2, "scoring_profiles");
    assert k3 == k2 + [("scoring_profiles", v)];
    if k4 != k3 {
      var a :| k4 == Put(k3, "fields", a);
      StepFieldsKept(kw, k1, k2, k3);
      LastKept(k3, "fields", a);
    }
  }

  /** Writing the other lists keeps the `fields` key. */
  lemma StepFieldsKept(kw: Dict<IndexArg>, k1: Dict<IndexArg>, k2: Dict<IndexArg>, k3: Dict<IndexArg>)
    requires k1 == kw || exists v :: k1 == Put(kw, "suggesters", v)
    requires k2 == k1 || exists v :: k2 == Put(k1, "analyzers", v)
    requires k3 == k2 || exists v :: k3 == Put(k2, "scoring_profiles", v)
    requires HasKey(kw, "fields")
    ensures HasKey(k3, "fields")
  {
    StepKeys(kw, k1, "suggesters");
    StepKeys(k1, k2, "analyzers");
    StepKeys(k2, k3, "scoring_profiles");
    if k1 != kw {
      var v :| k1 == Put(kw, "suggesters", v);
      assert Get(k1, "fields") == Get(kw, "fields");
    }
    if k2 != k1 {
      var v :| k2 == Put(k1, "analyzers", v);
      assert Get(k2, "fields") == Get(k1, "fields");
    }
    if k3 != k2 {
      var v :| k3 == Put(k2, "scoring_profiles", v);
      assert Get(k3, "fields") == Get(k2, "fields");
    }
  }

  /** Overwriting a key that is present keeps the last entry when that is another key's. */
  lemma LastKept(d: Dict<IndexArg>, k: string, v: IndexArg)
    requires HasKey(d, k) && d[|d| - 1].0 != k
    ensures |Put(d, k, v)| == |d| && Put(d, k, v)[|d| - 1] == d[|d| - 1]
  {
  }

  /** The field, analyzer and suggester keys keep their entries through snake-casing when
      no other key of a dict snake-cases onto them. */
  lemma LoadedListSnaked(m: Dict<Json>, k: string)
    requires LoadedArgs(m).Ok? && DistinctKeys(m)
    requires k == "fields" || k == "analyzers" || k == "suggesters"
    requires forall x :: HasKey(m, x) && ToSnakeCase(x) == k ==> x == k
    ensures Get(ToSnakeCaseDict(LoadedArgs(m).value), k) == Get(LoadedArgs(m).value, k)
  {
    var kw := LoadedArgs(m).value;
    LoadedArgsKeys(m);
    LoadedKeySnake(k);
    LoadedKeySnake("scoring_profiles");
    RekeyGet(kw, ToSnakeCase, k);
  }

  /** `load` builds the fields with `Field.load`, in order, and the constructor stamps
      them with the index's name. */
  lemma LoadedFields(data: Json)
    requires data.JObj? && DistinctKeys(data.members) && LoadIndex(data).Ok?
    requires HasKey(data.members, "fields")
    requires forall x :: HasKey(data.members, x) && ToSnakeCase(x) == "fields" ==> x == "fields"
    ensures FieldObjects(data.members).Ok?
    ensures LoadIndex(data).value.fields == Stamped(FieldObjects(data.members).value, LoadIndex(data).value.name)
    ensures var items := Get(data.members, "fields").value.items;
      |items| == |LoadIndex(data).value.fields|
      && forall i :: 0 <= i < |items| ==> LoadField(items[i], []) == Ok(FieldObjects(data.members).value[i])
  {
    var m := data.members;
    LoadedArgsLists(m);
    LoadedListSnaked(m, "fields");
  }

  /** `load` builds each analyzer with `CustomAnalyzer.load`, passing the index's name
      from the data as `index_name`. */
  lemma LoadedAnalyzers(data: Json)
    requires data.JObj? && DistinctKeys(data.members) && LoadIndex(data).Ok?
    requires HasKey(data.members, "analyzers")
    requires forall x :: HasKey(data.members, x) && ToSnakeCase(x) == "analyzers" ==> x == "analyzers"
    ensures AnalyzerObjects(data.members).Ok?
    ensures LoadIndex(data).value.analyzers == AnalyzerList(AnalyzerObjects(data.members).value)
    ensures var items := Get(data.members, "analyzers").value.items;
      var ans := AnalyzerObjects(data.members).value;
      |items| == |ans| && forall i :: 0 <= i < |items| ==>
        LoadCustomAnalyzer(items[i], [("index_name", GetOr(data.members, "name", JNull))]) == Ok(ans[i])
  {
    var m := data.members;
    LoadedArgsLists(m);
    LoadedListSnaked(m, "analyzers");
  }

  /** `load` builds each suggester with `Suggester.load`. */
  lemma LoadedSuggesters(data: Json)
    requires data.JObj? && DistinctKeys(data.members) && LoadIndex(data).Ok?
    requires HasKey(data.members, "suggesters")
    requires forall x :: HasKey(data.members, x) && ToSnakeCase(x) == "suggesters" ==> x == "suggesters"
    ensures SuggesterObjects(data.members).Ok?
    ensures LoadIndex(data).value.suggesters == SuggesterList(SuggesterObjects(data.members).value)
  {
    var m := data.members;
    LoadedArgsLists(m);
    LoadedListSnaked(m, "suggesters");
  }

  /** The loaded scoring profiles win over the raw `scoringProfiles` entry, which
      snake-cases onto the same key: they were written later. */
  lemma LoadedProfilesWin(data: Json)
    requires data.JObj? && LoadIndex(data).Ok?
    requires HasKey(data.members, "scoringProfiles") && !HasKey(data.members, "scoring_profiles")
    ensures ProfileObjects(data.members).Ok?
    ensures LoadIndex(data).value.scoringProfiles == ProfileList(ProfileObjects(data.members).value)
  {
    var m := data.members;
    var kw := LoadedArgs(m).value;
    LoadedProfilesLast(m);
    LoadedKeySnake("scoring_profiles");
    RekeyLaterWins(kw, ToSnakeCase, |kw| - 1);
  }

  // ----- lemmas: load after to_dict -----

  /** A suggester that `Suggester.load` gives back from its own dict. */
  predicate SuggesterReloadable(s: Suggester)
  {
    && s.params == [] && s.sourceFields.JArr?
    && !IsEmptyValue(s.name) && !IsEmptyValue(s.sourceFields) && !IsEmptyValue(s.searchMode)
  }

  /** An index that comes back from its own dict: no params; a name that is sent; fields
      that each reload and carry the index's name; suggesters and scoring profiles either
      left at None or a non-empty list of objects that reload; no analyzers, tokenizers or
      filters; CORS options and default profile None or sent. */
  predicate IndexReloadable(x: Index)
  {
    && x.params == [] && !IsEmptyValue(x.name) && x.fields != []
    && (forall i :: 0 <= i < |x.fields| ==> Fields.Reloadable(x.fields[i]) && x.fields[i].indexName == x.name)
    && (x.suggesters == Value(JNull) || (x.suggesters.SuggesterList? && x.suggesters.ss != []
          && forall i :: 0 <= i < |x.suggesters.ss| ==> SuggesterReloadable(x.suggesters.ss[i])))
    && (x.scoringProfiles == Value(JNull) || (x.scoringProfiles.ProfileList? && x.scoringProfiles.ps != []
          && forall i :: 0 <= i < |x.scoringProfiles.ps| ==> ProfileReloadable(x.scoringProfiles.ps[i])))
    && x.analyzers == Value(JNull) && x.tokenizers == Value(JNull)
    && x.tokenFilters == Value(JNull) && x.charFilters == Value(JNull)
    && (x.corsOptions == JNull || !IsEmptyValue(x.corsOptions))
    && (x.defaultScoringProfile == JNull || !IsEmptyValue(x.defaultScoringProfile))
  }

  /** `Index.load(x.to_dict())` gives back x for every index whose parts reload: the
      fields come back without their index name, and the constructor stamps it again. */
  lemma IndexRoundTrip(x: Index)
    requires IndexReloadable(x)
    ensures IndexToDict(x).Ok? && LoadIndex(JObj(IndexToDict(x).value)) == Ok(x)
  {
    ReloadedArgs(x);
    var l := LoadedArgs(IndexToDict(x).value).value;
    LoadedArgsShaped(l);
    IndexRebuilt(x, ToSnakeCaseDict(l));
  }

  /** The dicts of reloadable fields load back to the fields without their index name. */
  lemma FieldsReload(fs: seq<Field>)
    requires forall i :: 0 <= i < |fs| ==> Fields.Reloadable(fs[i])
    ensures LoadEach(JArr(FieldDicts(fs)), LoadFieldPlain) == Ok(Stamped(fs, JNull))
  {
    forall i | 0 <= i < |fs| ensures LoadFieldPlain(FieldDicts(fs)[i]) == Ok(Stamped(fs, JNull)[i]) {
      FieldRoundTrip(fs[i]);
    }
    LoadItemsOk(FieldDicts(fs), LoadFieldPlain, Stamped(fs, JNull));
  }

  /** The dicts of reloadable suggesters load back to the suggesters. */
  lemma SuggestersReload(ss: seq<Suggester>)
    requires forall i :: 0 <= i < |ss| ==> SuggesterReloadable(ss[i])
    ensures ListDicts(SuggesterList(ss)).Ok?
    ensures LoadEach(JArr(ListDicts(SuggesterList(ss)).value), LoadSuggester) == Ok(ss)
  {
    forall i | 0 <= i < |ss| ensures SuggesterToDict(ss[i]).Ok? && LoadSuggester(JObj(SuggesterToDict(ss[i]).value)) == Ok(ss[i]) {
      SuggesterRoundTrip(ss[i]);
    }
    LoadItemsOk(ListDicts(SuggesterList(ss)).value, LoadSuggester, ss);
  }

  /** The dicts of reloadable scoring profiles load back to the profiles. */
  lemma ProfilesReload(ps: seq<ScoringProfile>)
    requires forall i :: 0 <= i < |ps| ==> ProfileReloadable(ps[i])
    ensures ListDicts(ProfileList(ps)).Ok?
    ensures LoadEach(JArr(ListDicts(ProfileList(ps)).value), LoadScoringProfile) == Ok(ps)
  {
    forall i | 0 <= i < |ps| ensures ProfileToDict(ps[i]).Ok? && LoadScoringProfile(JObj(ProfileToDict(ps[i]).value)) == Ok(ps[i]) {
      ProfileRoundTrip(ps[i]);
    }
    LoadItemsOk(ListDicts(ProfileList(ps)).value, LoadScoringProfile, ps);
  }

  /** The dict m is what `to_dict` sends for the reloadable index x: each fixed key once;
      the name; the fields' dicts, which load back to the fields without their index
      name; the suggesters' and profiles' dicts when there are any, which load back to
      them; no analyzers, tokenizers or filters; and the CORS options and default profile
      unless None. */
  ghost predicate SentForm(x: Index, m: Dict<Json>)
  {
    && DistinctKeys(m) && (forall i :: 0 <= i < |m| ==> m[i].0 in IndexKeys)
    && Get(m, "name") == Kept(Some(x.name))
    && HasKey(m, "fields") && FieldObjects(m) == Ok(Stamped(x.fields, JNull))
    && (if x.suggesters.SuggesterList? then HasKey(m, "suggesters") && SuggesterObjects(m) == Ok(x.suggesters.ss)
        else !HasKey(m, "suggesters"))
    && (if x.scoringProfiles.ProfileList? then HasKey(m, "scoringProfiles") && ProfileObjects(m) == Ok(x.scoringProfiles.ps)
        else !HasKey(m, "scoringProfiles"))
    && !HasKey(m, "analyzers") && !HasKey(m, "tokenizers") && !HasKey(m, "tokenFilters") && !HasKey(m, "charFilters")
    && Get(m, "corsOptions") == Kept(Some(x.corsOptions))
    && Get(m, "defaultScoringProfile") == Kept(Some(x.defaultScoringProfile))
  }

  /** What `to_dict` sends for a reloadable index. */
  lemma ReloadableSent(x: Index)
    requires IndexReloadable(x)
    ensures Sendable(x) && SentForm(x, IndexToDict(x).value)
  {
    ReloadableSendable(x);
    SentKeys(x);
    SentPlain(x);
    SentFields(x);
    SentSuggesters(x);
    SentProfiles(x);
  }

  /** None of a reloadable index's lists fails to convert. */
  lemma ReloadableSendable(x: Index)
    requires IndexReloadable(x)
    ensures Sendable(x)
  {
    if x.suggesters.SuggesterList? {
      SuggestersReload(x.suggesters.ss);
    }
    if x.scoringProfiles.ProfileList? {
      ProfilesReload(x.scoringProfiles.ps);
    }
  }

  lemma SentPlain(x: Index)
    requires IndexReloadable(x) && Sendable(x)
    ensures var m := IndexToDict(x).value;
      && Get(m, "name") == Kept(Some(x.name))
      && !HasKey(m, "analyzers") && !HasKey(m, "tokenizers") && !HasKey(m, "tokenFilters") && !HasKey(m, "charFilters")
      && Get(m, "corsOptions") == Kept(Some(x.corsOptions))
      && Get(m, "defaultScoringProfile") == Kept(Some(x.defaultScoringProfile))
  {
    IndexWireFields(x);
    IndexWireOptional(x);
  }

  lemma SentFields(x: Index)
    requires IndexReloadable(x) && Sendable(x)
    ensures var m := IndexToDict(x).value;
      HasKey(m, "fields") && FieldObjects(m) == Ok(Stamped(x.fields, JNull))
  {
    IndexWireFields(x);
    FieldsReload(x.fields);
  }

  lemma SentSuggesters(x: Index)
    requires IndexReloadable(x) && Sendable(x)
    ensures var m := IndexToDict(x).value;
      if x.suggesters.SuggesterList? then HasKey(m, "suggesters") && SuggesterObjects(m) == Ok(x.suggesters.ss)
      else !HasKey(m, "suggesters")
  {
    IndexWireOptional(x);
    if x.suggesters.SuggesterList? {
      SuggestersReload(x.suggesters.ss);
    }
  }

  lemma SentProfiles(x: Index)
    requires IndexReloadable(x) && Sendable(x)
    ensures var m := IndexToDict(x).value;
      if x.scoringProfiles.ProfileList? then HasKey(m, "scoringProfiles") && ProfileObjects(m) == Ok(x.scoringProfiles.ps)
      else !HasKey(m, "scoringProfiles")
  {
    IndexWireOptional(x);
    if x.scoringProfiles.ProfileList? {
      ProfilesReload(x.scoringProfiles.ps);
    }
  }

  /** Without params, `to_dict` sends only fixed keys, each once. */
  lemma SentKeys(x: Index)
    requires x.params == [] && Sendable(x)
    ensures DistinctKeys(IndexToDict(x).value)
    ensures forall i :: 0 <= i < |IndexToDict(x).value| ==> IndexToDict(x).value[i].0 in IndexKeys
  {
    SentWireDict(x);
    WireDictNoParams(SentFixed(x));
    var fixed := SentFixed(x);
    var c := ToCamelCaseDict(fixed);
    IndexKeysCamel(fixed);
    RekeyValues(fixed, ToCamelCase);
    RekeyKeys(fixed, ToCamelCase);
    forall j | 0 <= j < |IndexToDict(x).value| ensures IndexToDict(x).value[j].0 in IndexKeys {
      var k := IndexToDict(x).value[j].0;
      assert HasKey(IndexToDict(x).value, k) by { assert IndexOf(IndexToDict(x).value, k) <= j; }
      RemoveEmptyValuesSubset(c, k);
      var i :| 0 <= i < |fixed| && ToCamelCase(fixed[i].0) == k;
      assert k == IndexKeys[i];
    }
  }

  /** `Index.load` converts no list of a payload that lacks the key it is under. */
  lemma PlainIndexArgsGet(m: Dict<Json>, k: string)
    ensures Get(PlainIndexArgs(m), k) == if HasKey(m, k) then Some(Value(Get(m, k).value)) else None
  {
    var kw := PlainIndexArgs(m);
    assert forall i :: 0 <= i < |m| ==> kw[i].0 == m[i].0;
    assert IndexOf(kw, k) == IndexOf(m, k);
  }

  /** The rewritten data holds an entry the load leaves alone as a plain value. */
  lemma LoadedArgsPlain(m: Dict<Json>, k: string)
    requires LoadedArgs(m).Ok? && k !in LoadedListKeys
    ensures Get(LoadedArgs(m).value, k) == Get(PlainIndexArgs(m), k)
  {
    var kw, k1, k2, k3, k4 := LoadedSteps(m);
    GetPastStep(kw, k1, "suggesters", k);
    GetPastStep(k1, k2, "analyzers", k);
    GetPastStep(k2, k3, "scoring_profiles", k);
    GetPastStep(k3, k4, "fields", k);
  }

  /** The snake-cased form of each key `to_dict` writes. */
  const IndexSnakeKeys: seq<string> := ["name", "fields", "scoring_profiles", "suggesters", "analyzers",
    "tokenizers", "token_filters", "char_filters", "cors_options", "default_scoring_profile"]

  /** The keys of the rewritten data: the payload's keys, and the key the loaded scoring
      profiles are written under. */
  const ReloadKeys: seq<string> := IndexKeys + ["scoring_profiles"]

  const ReloadSnakeKeys: seq<string> := IndexSnakeKeys + ["scoring_profiles"]

  lemma ReloadSnakeForms()
    ensures |ReloadKeys| == |ReloadSnakeKeys|
    ensures forall i :: 0 <= i < |ReloadKeys| ==> ToSnakeCase(ReloadKeys[i]) == ReloadSnakeKeys[i]
  {
    forall i | 0 <= i < |ReloadKeys| ensures ToSnakeCase(ReloadKeys[i]) == ReloadSnakeKeys[i] {
      if i == 2 {
        ScoringProfilesKey();
      } else if i == 6 {
        TokenFiltersKey();
      } else if i == 7 {
        CharFiltersKey();
      } else if i == 8 {
        CorsOptionsKey();
      } else if i == 9 {
        DefaultScoringProfileKey();
      } else if i == 10 {
        LoadedKeySnake("scoring_profiles");
      } else {
        OneWordIndexKey(i);
      }
    }
  }

  /** Only the raw and the loaded scoring profiles share a snake-cased key. */
  lemma ReloadSnakeKeysApart()
    ensures forall i, j :: 0 <= i < j < |ReloadSnakeKeys| && ReloadSnakeKeys[i] == ReloadSnakeKeys[j] ==> i == 2 && j == 10
  {
  }

  lemma OneWordIndexKey(i: nat)
    requires i < 6 && i != 2
    ensures ToSnakeCase(ReloadKeys[i]) == ReloadSnakeKeys[i]
  {
    SnakeIdentity(ReloadKeys[i]);
  }

  lemma ScoringProfilesKey()
    ensures ToSnakeCase("scoringProfiles") == "scoring_profiles"
  {
    KeyFormsAt(["scoring", "profiles"], "scoring_profiles", "scoringProfiles");
  }

  lemma TokenFiltersKey()
    ensures ToSnakeCase("tokenFilters") == "token_filters"
  {
    KeyFormsAt(["token", "filters"], "token_filters", "tokenFilters");
  }

  lemma CharFiltersKey()
    ensures ToSnakeCase("charFilters") == "char_filters"
  {
    KeyFormsAt(["char", "filters"], "char_filters", "charFilters");
  }

  lemma CorsOptionsKey()
    ensures ToSnakeCase("corsOptions") == "cors_options"
  {
    KeyFormsAt(["cors", "options"], "cors_options", "corsOptions");
  }

  lemma DefaultScoringProfileKey()
    ensures ToSnakeCase("defaultScoringProfile") == "default_scoring_profile"
  {
    DefaultProfileSegments();
    DefaultProfileJoins();
    KeyFormsAt(["default", "scoring", "profile"], "default_scoring_profile", "defaultScoringProfile");
  }

  lemma DefaultProfileSegments()
    ensures RoundTripSegments(["default", "scoring", "profile"])
  {
    var parts := ["default", "scoring", "profile"];
    assert AllLower(parts[0]) && AllLower(parts[1]) && AllLower(parts[2]);
  }

  lemma DefaultProfileJoins()
    ensures Join(["default", "scoring", "profile"]) == "default_scoring_profile"
    ensures CamelJoin(["default", "scoring", "profile"]) == "defaultScoringProfile"
  {
  }

  /** Snake-casing the rewritten data keeps the entry under each of its keys, except where
      the raw and the loaded scoring profiles collide. */
  lemma ReloadedSnakeGet(l: Dict<IndexArg>, i: nat)
    requires DistinctKeys(l) && i < |IndexKeys|
    requires forall j :: 0 <= j < |l| ==> l[j].0 in ReloadKeys
    requires i != 2 || !HasKey(l, "scoring_profiles")
    ensures Get(ToSnakeCaseDict(l), IndexSnakeKeys[i]) == Get(l, IndexKeys[i])
  {
    ReloadSnakeForms();
    ReloadSnakeKeysApart();
    assert ReloadKeys[10] == "scoring_profiles";
    RekeyGetAmong(l, ToSnakeCase, ReloadKeys, ReloadSnakeKeys, i);
  }

  /** Snake-casing the rewritten data gives only snake-cased fixed keys. */
  lemma ReloadedSnakeKeys(l: Dict<IndexArg>)
    requires forall j :: 0 <= j < |l| ==> l[j].0 in ReloadKeys
    ensures forall p :: HasKey(ToSnakeCaseDict(l), p) ==> p in IndexSnakeKeys
  {
    ReloadSnakeForms();
    RekeyKeysAmong(l, ToSnakeCase, ReloadKeys, ReloadSnakeKeys);
    assert forall p :: p in ReloadSnakeKeys ==> p in IndexSnakeKeys;
  }

  /** The data a payload with fixed keys only is rewritten to has keys among ReloadKeys,
      each once, and the loaded scoring profiles only when the payload has profiles. */
  lemma ReloadedKeys(m: Dict<Json>)
    requires LoadedArgs(m).Ok? && DistinctKeys(m) && forall i :: 0 <= i < |m| ==> m[i].0 in IndexKeys
    ensures DistinctKeys(LoadedArgs(m).value)
    ensures forall i :: 0 <= i < |LoadedArgs(m).value| ==> LoadedArgs(m).value[i].0 in ReloadKeys
    ensures HasKey(LoadedArgs(m).value, "scoring_profiles") ==> HasKey(m, "scoringProfiles")
  {
    LoadedArgsKeys(m);
    UnloadedKeys();
    ReloadedKeysAmong(m);
  }

  /** Every key of the rewritten data is one the payload has, or the snake-cased
      profiles key. */
  lemma ReloadedKeysAmong(m: Dict<Json>)
    requires LoadedArgs(m).Ok? && forall i :: 0 <= i < |m| ==> m[i].0 in IndexKeys
    ensures forall i :: 0 <= i < |LoadedArgs(m).value| ==> LoadedArgs(m).value[i].0 in ReloadKeys
  {
    LoadedArgsKeys(m);
    var l := LoadedArgs(m).value;
    forall i | 0 <= i < |l| ensures l[i].0 in ReloadKeys {
      var y := l[i].0;
      assert HasKey(l, y) by { assert IndexOf(l, y) <= i; }
      KeyReloadable(m, y);
    }
  }

  /** A key of a payload with fixed keys only, or the snake-cased profiles key, is
      among ReloadKeys. */
  lemma KeyReloadable(m: Dict<Json>, y: string)
    requires forall i :: 0 <= i < |m| ==> m[i].0 in IndexKeys
    requires HasKey(m, y) || y == "scoring_profiles"
    ensures y in ReloadKeys
  {
    if HasKey(m, y) {
      assert m[IndexOf(m, y)].0 == y;
    }
  }

  /** Converting the keys of a dict whose keys all lie in keys keeps the entry under
      keys[i], now under its image, when no other key of the dict has the same image. */
  lemma RekeyGetAmong<V>(l: Dict<V>, f: string -> string, keys: seq<string>, images: seq<string>, i: nat)
    requires DistinctKeys(l) && |keys| == |images| && i < |keys|
    requires forall j :: 0 <= j < |keys| ==> f(keys[j]) == images[j]
    requires forall j :: 0 <= j < |keys| && j != i && HasKey(l, keys[j]) ==> images[j] != images[i]
    requires forall j :: 0 <= j < |l| ==> l[j].0 in keys
    ensures Get(Rekey(l, f), images[i]) == Get(l, keys[i])
  {
    forall y | HasKey(l, y) && f(y) == f(keys[i]) ensures y == keys[i] {
      assert l[IndexOf(l, y)].0 == y;
      var j :| 0 <= j < |keys| && keys[j] == y;
    }
    RekeyGet(l, f, keys[i]);
  }

  /** Converting the keys of a dict whose keys all lie in keys gives only their images. */
  lemma RekeyKeysAmong<V>(l: Dict<V>, f: string -> string, keys: seq<string>, images: seq<string>)
    requires |keys| == |images|
    requires forall j :: 0 <= j < |keys| ==> f(keys[j]) == images[j]
    requires forall j :: 0 <= j < |l| ==> l[j].0 in keys
    ensures forall p :: HasKey(Rekey(l, f), p) ==> p in images
  {
    RekeyKeys(l, f);
    forall p | HasKey(Rekey(l, f), p) ensures p in images {
      var i :| 0 <= i < |l| && f(l[i].0) == p;
      assert HasKey(l, l[i].0) by { assert IndexOf(l, l[i].0) <= i; }
      var j :| 0 <= j < |keys| && keys[j] == l[i].0;
      assert p == images[j];
    }
  }

  /** What `load` passes to the constructor of a reloadable index under parameter p. */
  function ReloadedValue(x: Index, p: string): Option<IndexArg>
  {
    if p == "name" then Some(Value(x.name))
    else if p == "fields" then Some(FieldList(Stamped(x.fields, JNull)))
    else if p == "suggesters" then (if x.suggesters.SuggesterList? then Some(x.suggesters) else None)
    else if p == "scoring_profiles" then (if x.scoringProfiles.ProfileList? then Some(x.scoringProfiles) else None)
    else if p == "cors_options" then (if x.corsOptions.JNull? then None else Some(Value(x.corsOptions)))
    else if p == "default_scoring_profile" then
      (if x.defaultScoringProfile.JNull? then None else Some(Value(x.defaultScoringProfile)))
    else None
  }

  /** Every argument `load` passes for a reloadable index is one the constructor declares. */
  lemma ReloadedParameter(x: Index, p: string)
    ensures ReloadedValue(x, p).Some? ==> p in IndexParameters
  {
  }

  /** `load` turns the payload of a reloadable index into the index's own arguments,
      with the fields unstamped. */
  lemma ReloadedArgs(x: Index)
    requires IndexReloadable(x)
    ensures IndexToDict(x).Ok? && LoadedArgs(IndexToDict(x).value).Ok?
    ensures forall p :: Get(ToSnakeCaseDict(LoadedArgs(IndexToDict(x).value).value), p) == ReloadedValue(x, p)
  {
    ReloadableSent(x);
    RewrittenForm(x, IndexToDict(x).value);
    ReloadedFrom(x, LoadedArgs(IndexToDict(x).value).value);
  }

  /** Snake-casing the rewritten data of a reloadable index gives the index's own
      arguments. */
  lemma ReloadedFrom(x: Index, l: Dict<IndexArg>)
    requires RewrittenFrom(x, l)
    ensures forall p :: Get(ToSnakeCaseDict(l), p) == ReloadedValue(x, p)
  {
    forall p ensures Get(ToSnakeCaseDict(l), p) == ReloadedValue(x, p) {
      ReloadedUnder(x, l, p);
    }
  }

  /** ReloadedFrom for one key. */
  lemma ReloadedUnder(x: Index, l: Dict<IndexArg>, p: string)
    requires RewrittenFrom(x, l)
    ensures Get(ToSnakeCaseDict(l), p) == ReloadedValue(x, p)
  {
    if p in IndexSnakeKeys {
      var i :| 0 <= i < |IndexSnakeKeys| && IndexSnakeKeys[i] == p;
      ReloadedAt(x, l, i);
    } else {
      ReloadedSnakeKeys(l);
      ReloadedValueKeys(x, p);
    }
  }

  /** The constructor's argument under each snake-cased fixed key. */
  lemma ReloadedValueAt(x: Index)
    ensures ReloadedValue(x, "name") == Some(Value(x.name))
    ensures ReloadedValue(x, "fields") == Some(FieldList(Stamped(x.fields, JNull)))
    ensures ReloadedValue(x, "scoring_profiles") == if x.scoringProfiles.ProfileList? then Some(x.scoringProfiles) else None
    ensures ReloadedValue(x, "suggesters") == if x.suggesters.SuggesterList? then Some(x.suggesters) else None
    ensures ReloadedValue(x, "analyzers") == None && ReloadedValue(x, "tokenizers") == None
    ensures ReloadedValue(x, "token_filters") == None && ReloadedValue(x, "char_filters") == None
    ensures ReloadedValue(x, "cors_options") == if x.corsOptions.JNull? then None else Some(Value(x.corsOptions))
    ensures ReloadedValue(x, "default_scoring_profile") ==
      if x.defaultScoringProfile.JNull? then None else Some(Value(x.defaultScoringProfile))
  {
  }

  /** Only the snake-cased fixed keys carry an argument. */
  lemma ReloadedValueKeys(x: Index, p: string)
    ensures ReloadedValue(x, p).Some? ==> p in IndexSnakeKeys
  {
  }

  /** The data `load` rewrites the payload of a reloadable index to: keys among
      ReloadKeys, each once; the name; the loaded fields without their index name; the
      loaded suggesters when there are any; the loaded profiles as the last entry when
      there are any; no analyzers, tokenizers or filters; the CORS options and default
      profile unless None. */
  ghost predicate RewrittenFrom(x: Index, l: Dict<IndexArg>)
  {
    && DistinctKeys(l) && (forall j :: 0 <= j < |l| ==> l[j].0 in ReloadKeys)
    && Get(l, "name") == Some(Value(x.name))
    && Get(l, "fields") == Some(FieldList(Stamped(x.fields, JNull)))
    && Get(l, "suggesters") == (if x.suggesters.SuggesterList? then Some(x.suggesters) else None)
    && (if x.scoringProfiles.ProfileList? then |l| > 0 && l[|l| - 1] == ("scoring_profiles", x.scoringProfiles)
        else !HasKey(l, "scoring_profiles") && !HasKey(l, "scoringProfiles"))
    && !HasKey(l, "analyzers") && !HasKey(l, "tokenizers") && !HasKey(l, "tokenFilters") && !HasKey(l, "charFilters")
    && Get(l, "corsOptions") == (if x.corsOptions.JNull? then None else Some(Value(x.corsOptions)))
    && Get(l, "defaultScoringProfile") ==
         (if x.defaultScoringProfile.JNull? then None else Some(Value(x.defaultScoringProfile)))
  }

  /** `load` rewrites the payload of a reloadable index without failing, to the data
      RewrittenFrom describes. */
  lemma RewrittenForm(x: Index, m: Dict<Json>)
    requires IndexReloadable(x) && SentForm(x, m)
    ensures LoadedArgs(m).Ok? && RewrittenFrom(x, LoadedArgs(m).value)
  {
    ReloadedKeys(m);
    RewrittenLists(x, m);
    RewrittenPlain(x, m);
  }

  lemma RewrittenLists(x: Index, m: Dict<Json>)
    requires IndexReloadable(x) && SentForm(x, m)
    ensures LoadedArgs(m).Ok?
    ensures Get(LoadedArgs(m).value, "fields") == Some(FieldList(Stamped(x.fields, JNull)))
    ensures Get(LoadedArgs(m).value, "suggesters") == (if x.suggesters.SuggesterList? then Some(x.suggesters) else None)
    ensures if x.scoringProfiles.ProfileList? then
        |LoadedArgs(m).value| > 0 && LoadedArgs(m).value[|LoadedArgs(m).value| - 1] == ("scoring_profiles", x.scoringProfiles)
      else !HasKey(LoadedArgs(m).value, "scoring_profiles") && !HasKey(LoadedArgs(m).value, "scoringProfiles")
    ensures !HasKey(LoadedArgs(m).value, "analyzers")
  {
    LoadedArgsLists(m);
    UnloadedKeys();
    if x.scoringProfiles.ProfileList? {
      LoadedProfilesLast(m);
    } else {
      RewrittenAbsentAt(m, "scoringProfiles");
      RewrittenNoProfiles(m);
    }
    if !x.suggesters.SuggesterList? {
      RewrittenNoList(m, "suggesters");
    }
    RewrittenNoList(m, "analyzers");
  }

  /** The fixed keys `load` does not convert, told apart from those it does; stated
      once here so that no larger proof has to compare the literals itself. */
  lemma UnloadedKeys()
    ensures "name" !in LoadedListKeys && "tokenizers" !in LoadedListKeys && "tokenFilters" !in LoadedListKeys
    ensures "charFilters" !in LoadedListKeys && "corsOptions" !in LoadedListKeys
    ensures "defaultScoringProfile" !in LoadedListKeys && "scoringProfiles" !in LoadedListKeys
    ensures "scoring_profiles" !in IndexKeys
  {
    ListKeysApart();
  }

  /** The keys `load` converts are distinct from each other and from the raw profiles
      key; stated once so that larger proofs need not compare the literals. */
  lemma ListKeysApart()
    ensures "suggesters" != "scoring_profiles" && "analyzers" != "scoring_profiles" && "fields" != "scoring_profiles"
    ensures "suggesters" != "analyzers" && "suggesters" != "fields" && "analyzers" != "fields"
    ensures "scoringProfiles" != "scoring_profiles" && "scoringProfiles" != "suggesters"
    ensures "scoringProfiles" != "analyzers" && "scoringProfiles" != "fields"
  {
  }

  /** Without raw profiles, `load` writes no loaded ones. */
  lemma RewrittenNoProfiles(m: Dict<Json>)
    requires LoadedArgs(m).Ok? && !HasKey(m, "scoringProfiles") && !HasKey(m, "scoring_profiles")
    ensures !HasKey(LoadedArgs(m).value, "scoring_profiles")
  {
    LoadedArgsKeys(m);
  }

  /** `load` writes a list only under a key the payload has. */
  lemma RewrittenNoList(m: Dict<Json>, k: string)
    requires LoadedArgs(m).Ok? && k != "scoring_profiles" && !HasKey(m, k)
    ensures !HasKey(LoadedArgs(m).value, k)
  {
    LoadedArgsKeys(m);
  }

  lemma RewrittenPlain(x: Index, m: Dict<Json>)
    requires SentForm(x, m) && LoadedArgs(m).Ok? && !IsEmptyValue(x.name)
    requires x.corsOptions.JNull? || !IsEmptyValue(x.corsOptions)
    requires x.defaultScoringProfile.JNull? || !IsEmptyValue(x.defaultScoringProfile)
    ensures Get(LoadedArgs(m).value, "name") == Some(Value(x.name))
    ensures !HasKey(LoadedArgs(m).value, "tokenizers") && !HasKey(LoadedArgs(m).value, "tokenFilters")
    ensures !HasKey(LoadedArgs(m).value, "charFilters")
    ensures Get(LoadedArgs(m).value, "corsOptions") == (if x.corsOptions.JNull? then None else Some(Value(x.corsOptions)))
    ensures Get(LoadedArgs(m).value, "defaultScoringProfile") ==
      (if x.defaultScoringProfile.JNull? then None else Some(Value(x.defaultScoringProfile)))
  {
    UnloadedKeys();
    RewrittenOptional(m, "name", x.name);
    RewrittenAbsentAt(m, "tokenizers");
    RewrittenAbsentAt(m, "tokenFilters");
    RewrittenAbsentAt(m, "charFilters");
    RewrittenOptional(m, "corsOptions", x.corsOptions);
    RewrittenOptional(m, "defaultScoringProfile", x.defaultScoringProfile);
  }

  /** `load` passes a plain entry that `to_dict` kept unless it was None. */
  lemma RewrittenOptional(m: Dict<Json>, k: string, v: Json)
    requires LoadedArgs(m).Ok? && k !in LoadedListKeys && Get(m, k) == Kept(Some(v))
    requires v.JNull? || !IsEmptyValue(v)
    ensures Get(LoadedArgs(m).value, k) == if v.JNull? then None else Some(Value(v))
  {
    LoadedArgsPlain(m, k);
    PlainIndexArgsGet(m, k);
  }

  /** `load` passes an entry it does not convert on as a plain value. */
  lemma RewrittenPlainAt(m: Dict<Json>, k: string, v: Json)
    requires LoadedArgs(m).Ok? && k !in LoadedListKeys && Get(m, k) == Some(v)
    ensures Get(LoadedArgs(m).value, k) == Some(Value(v))
  {
    LoadedArgsPlain(m, k);
    PlainIndexArgsGet(m, k);
  }

  /** `load` adds no entry it does not convert. */
  lemma RewrittenAbsentAt(m: Dict<Json>, k: string)
    requires LoadedArgs(m).Ok? && k !in LoadedListKeys && !HasKey(m, k)
    ensures !HasKey(LoadedArgs(m).value, k)
  {
    LoadedArgsPlain(m, k);
    PlainIndexArgsGet(m, k);
  }

  /** The snake-cased profiles key is its own snake case. */
  lemma ProfilesKeySnake()
    ensures ToSnakeCase("scoring_profiles") == "scoring_profiles"
  {
    LoadedKeySnake("scoring_profiles");
  }

  /** Loaded profiles written last survive snake-casing the keys. */
  lemma ReloadedProfiles(l: Dict<IndexArg>, a: IndexArg)
    requires |l| > 0 && l[|l| - 1] == ("scoring_profiles", a)
    ensures Get(ToSnakeCaseDict(l), "scoring_profiles") == Some(a)
  {
    ProfilesKeySnake();
    RekeyLaterWins(l, ToSnakeCase, |l| - 1);
  }

  /** The constructor's argument under the i-th snake-cased fixed key. */
  lemma ReloadedAt(x: Index, l: Dict<IndexArg>, i: nat)
    requires RewrittenFrom(x, l) && i < |IndexSnakeKeys|
    ensures Get(ToSnakeCaseDict(l), IndexSnakeKeys[i]) == ReloadedValue(x, IndexSnakeKeys[i])
  {
    if i == 2 && x.scoringProfiles.ProfileList? {
      ReloadedAtProfiles(x, l);
    } else {
      ReloadedAtOther(x, l, i);
    }
  }

  /** ReloadedAt for the profiles, which the rewritten data holds last. */
  lemma ReloadedAtProfiles(x: Index, l: Dict<IndexArg>)
    requires x.scoringProfiles.ProfileList?
    requires |l| > 0 && l[|l| - 1] == ("scoring_profiles", x.scoringProfiles)
    ensures Get(ToSnakeCaseDict(l), IndexSnakeKeys[2]) == ReloadedValue(x, IndexSnakeKeys[2])
  {
    assert IndexSnakeKeys[2] == "scoring_profiles";
    ReloadedValueAt(x);
    ReloadedProfiles(l, x.scoringProfiles);
  }

  /** ReloadedAt for every other key, whose entry snake-casing leaves in place. */
  lemma ReloadedAtOther(x: Index, l: Dict<IndexArg>, i: nat)
    requires RewrittenFrom(x, l) && i < |IndexSnakeKeys|
    requires i == 2 ==> !x.scoringProfiles.ProfileList?
    ensures Get(ToSnakeCaseDict(l), IndexSnakeKeys[i]) == ReloadedValue(x, IndexSnakeKeys[i])
  {
    ReloadedSnakeGet(l, i);
    ReloadedAtKey(x, l, i);
  }

  /** The rewritten data's entry under the i-th fixed key is the constructor's argument
      under its snake-cased form. */
  lemma ReloadedAtKey(x: Index, l: Dict<IndexArg>, i: nat)
    requires RewrittenFrom(x, l) && i < |IndexSnakeKeys|
    requires i == 2 ==> !x.scoringProfiles.ProfileList?
    ensures Get(l, IndexKeys[i]) == ReloadedValue(x, IndexSnakeKeys[i])
  {
    ReloadedValueAt(x);
    if i < 5 {
      ReloadedAtListKey(x, l, i);
    } else {
      ReloadedAtPlainKey(x, l, i);
    }
  }

  /** ReloadedAtKey for the first five keys: the name and the lists. */
  lemma ReloadedAtListKey(x: Index, l: Dict<IndexArg>, i: nat)
    requires i < 5
    requires Get(l, "name") == Some(Value(x.name))
    requires Get(l, "fields") == Some(FieldList(Stamped(x.fields, JNull)))
    requires Get(l, "suggesters") == (if x.suggesters.SuggesterList? then Some(x.suggesters) else None)
    requires i == 2 ==> !x.scoringProfiles.ProfileList? && !HasKey(l, "scoringProfiles")
    requires !HasKey(l, "analyzers")
    ensures Get(l, IndexKeys[i]) == ReloadedValue(x, IndexSnakeKeys[i])
  {
    ReloadedValueAt(x);
    if i == 0 {
      assert IndexKeys[0] == "name" && IndexSnakeKeys[0] == "name";
    } else if i == 1 {
      assert IndexKeys[1] == "fields" && IndexSnakeKeys[1] == "fields";
    } else if i == 2 {
      assert IndexKeys[2] == "scoringProfiles" && IndexSnakeKeys[2] == "scoring_profiles";
    } else if i == 3 {
      assert IndexKeys[3] == "suggesters" && IndexSnakeKeys[3] == "suggesters";
    } else {
      assert IndexKeys[4] == "analyzers" && IndexSnakeKeys[4] == "analyzers";
    }
  }

  /** ReloadedAtKey for the last five keys: the filters and the plain options. */
  lemma ReloadedAtPlainKey(x: Index, l: Dict<IndexArg>, i: nat)
    requires 5 <= i < |IndexSnakeKeys|
    requires !HasKey(l, "tokenizers") && !HasKey(l, "tokenFilters") && !HasKey(l, "charFilters")
    requires Get(l, "corsOptions") == (if x.corsOptions.JNull? then None else Some(Value(x.corsOptions)))
    requires Get(l, "defaultScoringProfile") ==
      (if x.defaultScoringProfile.JNull? then None else Some(Value(x.defaultScoringProfile)))
    ensures Get(l, IndexKeys[i]) == ReloadedValue(x, IndexSnakeKeys[i])
  {
    ReloadedValueAt(x);
    if i == 5 {
      assert IndexKeys[5] == "tokenizers" && IndexSnakeKeys[5] == "tokenizers";
    } else if i == 6 {
      assert IndexKeys[6] == "tokenFilters" && IndexSnakeKeys[6] == "token_filters";
    } else if i == 7 {
      assert IndexKeys[7] == "charFilters" && IndexSnakeKeys[7] == "char_filters";
    } else if i == 8 {
      assert IndexKeys[8] == "corsOptions" && IndexSnakeKeys[8] == "cors_options";
    } else {
      assert IndexKeys[9] == "defaultScoringProfile" && IndexSnakeKeys[9] == "default_scoring_profile";
    }
  }

  /** The constructor, given the arguments `load` passes for a reloadable index, builds
      that index again: it stamps the fields with the name, and nothing is left over for
      the params. */
  lemma IndexRebuilt(x: Index, kw: Dict<IndexArg>)
    requires IndexReloadable(x) && ArgsShaped(kw)
    requires forall p :: Get(kw, p) == ReloadedValue(x, p)
    ensures NewIndex(kw) == Ok(x)
  {
    RebuiltHead(x, kw);
    RebuiltNoParams(x, kw);
    RestampedFields(x.fields, x.name);
    RebuiltLists(x, kw);
    RebuiltPlain(x, kw);
  }

  /** The name and the unstamped fields are passed, and no `service_name`. */
  lemma RebuiltHead(x: Index, kw: Dict<IndexArg>)
    requires forall p :: Get(kw, p) == ReloadedValue(x, p)
    ensures Get(kw, "name") == Some(Value(x.name))
    ensures Get(kw, "fields") == Some(FieldList(Stamped(x.fields, JNull)))
    ensures Get(kw, "service_name") == None
  {
    ReloadedValueAt(x);
    assert Get(kw, "name") == ReloadedValue(x, "name");
    assert Get(kw, "fields") == ReloadedValue(x, "fields");
    assert Get(kw, "service_name") == ReloadedValue(x, "service_name");
  }

  /** Every argument passed is a declared parameter, so nothing is left for the bag. */
  lemma RebuiltNoParams(x: Index, kw: Dict<IndexArg>)
    requires forall p :: Get(kw, p) == ReloadedValue(x, p)
    ensures WithoutKeys(kw, IndexParameters) == []
  {
    forall i | 0 <= i < |kw| ensures kw[i].0 in IndexParameters {
      assert HasKey(kw, kw[i].0) by { assert IndexOf(kw, kw[i].0) <= i; }
      ReloadedParameter(x, kw[i].0);
    }
    WithoutEveryKey(kw, IndexParameters);
  }

  /** Fields that carry the index name get it back after being cleared. */
  lemma RestampedFields(fs: seq<Field>, name: Json)
    requires forall i :: 0 <= i < |fs| ==> fs[i].indexName == name
    ensures Stamped(Stamped(fs, JNull), name) == fs
  {
  }

  /** The list arguments come back as they were. */
  lemma RebuiltLists(x: Index, kw: Dict<IndexArg>)
    requires IndexReloadable(x)
    requires forall p :: Get(kw, p) == ReloadedValue(x, p)
    ensures GetOr(kw, "suggesters", Value(JNull)) == x.suggesters
    ensures GetOr(kw, "scoring_profiles", Value(JNull)) == x.scoringProfiles
    ensures GetOr(kw, "analyzers", Value(JNull)) == x.analyzers
    ensures GetOr(kw, "tokenizers", Value(JNull)) == x.tokenizers
    ensures GetOr(kw, "token_filters", Value(JNull)) == x.tokenFilters
    ensures GetOr(kw, "char_filters", Value(JNull)) == x.charFilters
  {
    RebuiltObjectLists(x, kw);
    RebuiltUnsentLists(x, kw);
  }

  /** The suggesters and scoring profiles come back as they were. */
  lemma RebuiltObjectLists(x: Index, kw: Dict<IndexArg>)
    requires x.suggesters == Value(JNull) || x.suggesters.SuggesterList?
    requires x.scoringProfiles == Value(JNull) || x.scoringProfiles.ProfileList?
    requires forall p :: Get(kw, p) == ReloadedValue(x, p)
    ensures GetOr(kw, "suggesters", Value(JNull)) == x.suggesters
    ensures GetOr(kw, "scoring_profiles", Value(JNull)) == x.scoringProfiles
  {
    ReloadedValueAt(x);
    assert Get(kw, "suggesters") == ReloadedValue(x, "suggesters");
    assert Get(kw, "scoring_profiles") == ReloadedValue(x, "scoring_profiles");
  }

  /** The analyzers, tokenizers and filters, left at None, come back as None. */
  lemma RebuiltUnsentLists(x: Index, kw: Dict<IndexArg>)
    requires x.analyzers == Value(JNull) && x.tokenizers == Value(JNull)
    requires x.tokenFilters == Value(JNull) && x.charFilters == Value(JNull)
    requires forall p :: Get(kw, p) == ReloadedValue(x, p)
    ensures GetOr(kw, "analyzers", Value(JNull)) == x.analyzers
    ensures GetOr(kw, "tokenizers", Value(JNull)) == x.tokenizers
    ensures GetOr(kw, "token_filters", Value(JNull)) == x.tokenFilters
    ensures GetOr(kw, "char_filters", Value(JNull)) == x.charFilters
  {
    ReloadedValueAt(x);
    assert Get(kw, "analyzers") == ReloadedValue(x, "analyzers");
    assert Get(kw, "tokenizers") == ReloadedValue(x, "tokenizers");
    assert Get(kw, "token_filters") == ReloadedValue(x, "token_filters");
    assert Get(kw, "char_filters") == ReloadedValue(x, "char_filters");
  }

  /** The CORS options and default profile come back as they were. */
  lemma RebuiltPlain(x: Index, kw: Dict<IndexArg>)
    requires forall p :: Get(kw, p) == ReloadedValue(x, p)
    ensures GetOr(kw, "cors_options", Value(JNull)) == Value(x.corsOptions)
    ensures GetOr(kw, "default_scoring_profile", Value(JNull)) == Value(x.defaultScoringProfile)
  {
    ReloadedValueAt(x);
    assert Get(kw, "cors_options") == ReloadedValue(x, "cors_options");
    assert Get(kw, "default_scoring_profile") == ReloadedValue(x, "default_scoring_profile");
  }
}
