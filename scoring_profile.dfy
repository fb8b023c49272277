/** Scoring profiles of an index: text weights and scoring functions that boost the
    relevance score of matching documents. */
module ScoringProfiles {
  import opened Wire
  import opened SearchObject

  // ----- ScoringProfileText -----

  /** The text part of a profile: per-field weights. */
  datatype ScoringProfileText = ScoringProfileText(weights: Json, params: Dict<Json>)

  /** `ScoringProfileText(weights, **kwargs)`, called with keyword arguments. */
  function NewProfileText(kw: Dict<Json>): (r: Result<ScoringProfileText>)
    ensures r.Ok? <==> HasKey(kw, "weights")
    ensures r.Ok? ==> r.value.weights == Get(kw, "weights").value
    ensures r.Ok? ==> r.value.params == WithoutKeys(kw, {"weights"})
  {
    if !HasKey(kw, "weights") then Err(MissingArgument("weights"))
    else Ok(ScoringProfileText(Get(kw, "weights").value, WithoutKeys(kw, {"weights"})))
  }

  /** `ScoringProfileText.to_dict`. */
  function ProfileTextToDict(t: ScoringProfileText): Dict<Json>
  {
    WireDict([("weights", t.weights)], t.params)
  }

  /** `ScoringProfileText.load`. */
  function LoadProfileText(data: Json): (r: Result<ScoringProfileText>)
    ensures !data.JObj? ==> r == Err(Exception("Failed to parse input as Dict"))
  {
    var kw :- LoadKwargs(data);
    NewProfileText(kw)
  }

  // ----- ScoringProfileFunction -----

  /** A scoring function. fnType is the `type` argument. */
  datatype ScoringFunction = ScoringFunction(
    fnType: Json, fieldName: Json, boost: Json, interpolation: Json,
    magnitude: Json, freshness: Json, distance: Json, tag: Json, params: Dict<Json>)

  const Interpolations: set<string> := {"constant", "linear", "quadratic", "logarithmic"}

  /** `_validate_interpolation`: a set value outside the supported interpolations only
      raises a warning (the result is whether one is raised); a list or dict cannot be
      looked up in the set. */
  function InterpolationWarning(j: Json): (r: Result<bool>)
    ensures r.Err? <==> Truthy(j) && !Hashable(j)
    ensures r.Ok? ==> (r.value <==> Truthy(j) && !(j.JStr? && j.s in Interpolations))
  {
    if !Truthy(j) then Ok(false)
    else if !Hashable(j) then Err(TypeError("unhashable type"))
    else Ok(!(j.JStr? && j.s in Interpolations))
  }

  const FunctionParameters: set<string> := {"type", "field_name", "boost", "interpolation",
    "magnitude", "freshness", "distance", "tag"}

  /** `ScoringProfileFunction(type, field_name=None, boost=None, interpolation=None,
      magnitude=None, freshness=None, distance=None, tag=None, **kwargs)`, called with
      keyword arguments. The result pairs the function with whether the interpolation
      check warned. */
  function NewScoringFunction(kw: Dict<Json>): (r: Result<(ScoringFunction, bool)>)
    ensures r.Ok? <==> HasKey(kw, "type") && InterpolationWarning(GetOr(kw, "interpolation", JNull)).Ok?
    ensures !HasKey(kw, "type") ==> r == Err(MissingArgument("type"))
    ensures r.Ok? ==> r.value.0.fnType == Get(kw, "type").value
    ensures r.Ok? ==> r.value.1 == InterpolationWarning(GetOr(kw, "interpolation", JNull)).value
    ensures r.Ok? ==> r.value.0.params == WithoutKeys(kw, FunctionParameters)
  {
    if !HasKey(kw, "type") then Err(MissingArgument("type"))
    else
      var f := ScoringFunction(Get(kw, "type").value, GetOr(kw, "field_name", JNull), GetOr(kw, "boost", JNull),
        GetOr(kw, "interpolation", JNull), GetOr(kw, "magnitude", JNull), GetOr(kw, "freshness", JNull),
        GetOr(kw, "distance", JNull), GetOr(kw, "tag", JNull), WithoutKeys(kw, FunctionParameters));
      var warns :- InterpolationWarning(f.interpolation);
      Ok((f, warns))
  }

  /** The wire keys of a scoring function, in order. */
  const FunctionKeys: seq<string> := ["type", "boost", "fieldName", "interpolation", "magnitude",
    "freshness", "distance", "tag"]

  /** The same keys snake-cased: the constructor's parameter names. */
  const FunctionSnakeKeys: seq<string> := ["type", "boost", "field_name", "interpolation", "magnitude",
    "freshness", "distance", "tag"]

  function FunctionFixed(fn: ScoringFunction): (d: Dict<Json>)
    ensures |d| == |FunctionKeys| && forall i :: 0 <= i < |d| ==> d[i].0 == FunctionKeys[i]
  {
    [("type", fn.fnType), ("boost", fn.boost), ("fieldName", fn.fieldName),
     ("interpolation", fn.interpolation), ("magnitude", fn.magnitude), ("freshness", fn.freshness),
     ("distance", fn.distance), ("tag", fn.tag)]
  }

  /** `ScoringProfileFunction.to_dict`. */
  function ScoringFunctionToDict(fn: ScoringFunction): Dict<Json>
  {
    WireDict(FunctionFixed(fn), fn.params)
  }

  /** `ScoringProfileFunction.load`, the generic load; the warning is dropped. */
  function LoadScoringFunction(data: Json): (r: Result<ScoringFunction>)
    ensures !data.JObj? ==> r == Err(Exception("Failed to parse input as Dict"))
  {
    var kw :- LoadKwargs(data);
    var built :- NewScoringFunction(kw);
    Ok(built.0)
  }

  // ----- ScoringProfile -----

  /** A keyword argument of the profile constructor: a plain value, a text object, or a
      list of function objects. */
  datatype ProfileKw = ProfileValue(j: Json) | ProfileText(t: ScoringProfileText)
                     | ProfileFunctions(fns: seq<ScoringFunction>)

  /** A scoring profile. text and functions hold what the constructor was given. */
  datatype ScoringProfile = ScoringProfile(name: Json, text: ProfileKw, functions: ProfileKw, params: Dict<Json>)

  /** Every keyword argument other than text and functions is a plain value. */
  predicate ProfileExtrasPlain(kw: Dict<ProfileKw>)
  {
    forall i :: 0 <= i < |kw| && kw[i].0 != "text" && kw[i].0 != "functions" ==> kw[i].1.ProfileValue?
  }

  function PlainProfileDict(kw: Dict<ProfileKw>): (d: Dict<Json>)
    ensures |d| == |kw|
    ensures forall i :: 0 <= i < |kw| ==> d[i].0 == kw[i].0
  {
    seq(|kw|, i requires 0 <= i < |kw| => (kw[i].0, if kw[i].1.ProfileValue? then kw[i].1.j else JNull))
  }

  /** `ScoringProfile(name, text=None, functions=None, **kwargs)`: a missing functions
      list becomes `[]`. */
  function NewScoringProfile(kw: Dict<ProfileKw>): (r: Result<ScoringProfile>)
    requires ProfileExtrasPlain(kw)
    ensures r.Ok? <==> HasKey(kw, "name")
    ensures r.Ok? ==> Get(kw, "name") == Some(ProfileValue(r.value.name))
    ensures r.Ok? ==> r.value.text == GetOr(kw, "text", ProfileValue(JNull))
    ensures r.Ok? && GetOr(kw, "functions", ProfileValue(JNull)) == ProfileValue(JNull) ==>
      r.value.functions == ProfileValue(JArr([]))
    ensures r.Ok? && GetOr(kw, "functions", ProfileValue(JNull)) != ProfileValue(JNull) ==>
      r.value.functions == Get(kw, "functions").value
  {
    if !HasKey(kw, "name") then Err(MissingArgument("name"))
    else
      var name := Get(kw, "name").value;
      assert name.ProfileValue? by {
        var i := IndexOf(kw, "name");
        assert kw[i].1 == name;
      }
      var functions := GetOr(kw, "functions", ProfileValue(JNull));
      Ok(ScoringProfile(name.j, GetOr(kw, "text", ProfileValue(JNull)),
        if functions == ProfileValue(JNull) then ProfileValue(JArr([])) else functions,
        PlainProfileDict(WithoutKeys(kw, {"name", "text", "functions"}))))
  }

  /** `self.text.to_dict()`: only a text object has one. */
  function TextDict(v: ProfileKw): (r: Result<Json>)
    ensures r.Ok? <==> v.ProfileText?
    ensures r.Ok? ==> r.value == JObj(ProfileTextToDict(v.t))
  {
    match v
    case ProfileText(t) => Ok(JObj(ProfileTextToDict(t)))
    case _ => Err(AttributeError("to_dict"))
  }

  function FunctionDicts(fns: seq<ScoringFunction>): (r: seq<Json>)
    ensures |r| == |fns|
    ensures forall i :: 0 <= i < |fns| ==> r[i] == JObj(ScoringFunctionToDict(fns[i]))
  {
    seq(|fns|, i requires 0 <= i < |fns| => JObj(ScoringFunctionToDict(fns[i])))
  }

  /** `[func.to_dict() for func in self.functions] if self.functions else None`: an empty
      or falsy value gives None; a non-empty plain value has no elements with `to_dict`. */
  function FunctionsDict(v: ProfileKw): (r: Result<Json>)
    ensures v.ProfileFunctions? ==> r == Ok(if v.fns == [] then JNull else JArr(FunctionDicts(v.fns)))
    ensures v.ProfileValue? ==> (r.Ok? <==> !Truthy(v.j))
    ensures r.Ok? && r.value != JNull ==> v.ProfileFunctions? && v.fns != []
  {
    match v
    case ProfileFunctions(fns) => if fns == [] then Ok(JNull) else Ok(JArr(FunctionDicts(fns)))
    case ProfileValue(j) =>
      if !Truthy(j) then Ok(JNull)
      else if HasLen(j) then Err(AttributeError("to_dict"))
      else Err(TypeError("object is not iterable"))
    case ProfileText(_) => Err(TypeError("object is not iterable"))
  }

  function ProfileFixed(p: ScoringProfile, text: Json, functions: Json): Dict<Json>
  {
    [("name", p.name), ("text", text), ("functions", functions)]
  }

  /** `ScoringProfile.to_dict`. */
  function ProfileToDict(p: ScoringProfile): (r: Result<Dict<Json>>)
    ensures r.Ok? <==> TextDict(p.text).Ok? && FunctionsDict(p.functions).Ok?
    ensures !p.text.ProfileText? ==> r == Err(AttributeError("to_dict"))
  {
    var text :- TextDict(p.text);
    var functions :- FunctionsDict(p.functions);
    Ok(WireDict(ProfileFixed(p, text, functions), p.params))
  }

  function PlainProfileKw(m: Dict<Json>): (kw: Dict<ProfileKw>)
    ensures |kw| == |m|
    ensures forall i :: 0 <= i < |m| ==> kw[i] == (m[i].0, ProfileValue(m[i].1))
  {
    seq(|m|, i requires 0 <= i < |m| => (m[i].0, ProfileValue(m[i].1)))
  }

  /** The `text` entry of a loaded profile is replaced by the loaded text object. */
  function WithLoadedText(m: Dict<Json>, kw: Dict<ProfileKw>): (r: Result<Dict<ProfileKw>>)
    requires ProfileExtrasPlain(kw)
    ensures r.Ok? ==> ProfileExtrasPlain(r.value)
  {
    if HasKey(m, "text") then
      var t :- LoadProfileText(Get(m, "text").value);
      PutObjectPlain(kw, "text", ProfileText(t));
      Ok(Put(kw, "text", ProfileText(t)))
    else Ok(kw)
  }

  /** The `functions` entry of a loaded profile is replaced by the loaded function objects. */
  function WithLoadedFunctions(m: Dict<Json>, kw: Dict<ProfileKw>): (r: Result<Dict<ProfileKw>>)
    requires ProfileExtrasPlain(kw)
    ensures r.Ok? ==> ProfileExtrasPlain(r.value)
  {
    if HasKey(m, "functions") then
      var fns :- LoadEach(Get(m, "functions").value, LoadScoringFunction);
      PutObjectPlain(kw, "functions", ProfileFunctions(fns));
      Ok(Put(kw, "functions", ProfileFunctions(fns)))
    else Ok(kw)
  }

  /** `ScoringProfile.load`: a non-dict raises; the text and each function are loaded into
      objects; the keys are snake-cased and the constructor runs. */
  function LoadScoringProfile(data: Json): (r: Result<ScoringProfile>)
    ensures !data.JObj? ==> r == Err(Exception("Failed to parse input as Dict"))
  {
    if !data.JObj? then Err(Exception("Failed to parse input as Dict"))
    else
      var kw := PlainProfileKw(data.members);
      var withText :- WithLoadedText(data.members, kw);
      var withFunctions :- WithLoadedFunctions(data.members, withText);
      LoadedProfileKwPlain(withFunctions);
      NewScoringProfile(ToSnakeCaseDict(withFunctions))
  }

  lemma PutObjectPlain(kw: Dict<ProfileKw>, k: string, v: ProfileKw)
    requires ProfileExtrasPlain(kw) && (k == "text" || k == "functions")
    ensures ProfileExtrasPlain(Put(kw, k, v))
  {
  }

  /** Snake-casing keeps the loaded objects under `text` and `functions`. */
  lemma LoadedProfileKwPlain(kw: Dict<ProfileKw>)
    requires ProfileExtrasPlain(kw)
    ensures ProfileExtrasPlain(ToSnakeCaseDict(kw))
  {
    var r := ToSnakeCaseDict(kw);
    RekeyValues(kw, ToSnakeCase);
    TextKey();
    FunctionsKey();
    forall i | 0 <= i < |r| && r[i].0 != "text" && r[i].0 != "functions" ensures r[i].1.ProfileValue? {
      var j :| 0 <= j < |kw| && r[i] == (ToSnakeCase(kw[j].0), kw[j].1);
      assert kw[j].0 != "text" && kw[j].0 != "functions";
    }
  }

  lemma TextKey()
    ensures ToSnakeCase("text") == "text" && ToCamelCase("text") == "text"
  {
    FixedKey("text");
  }

  lemma FunctionsKey()
    ensures ToSnakeCase("functions") == "functions" && ToCamelCase("functions") == "functions"
  {
    FixedKey("functions");
  }

  // ----- round trips and wire form -----

  /** A value `load` gives back as it was: None, or one `to_dict` does not strip. */
  predicate Reloadable(v: Json)
  {
    v == JNull || !IsEmptyValue(v)
  }

  lemma WeightsKey()
    ensures ToSnakeCase("weights") == "weights" && ToCamelCase("weights") == "weights"
  {
    FixedKey("weights");
  }

  /** Non-empty weights are sent under `weights`. */
  lemma ProfileTextWire(t: ScoringProfileText)
    requires t.params == [] && !IsEmptyValue(t.weights)
    ensures ProfileTextToDict(t) == [("weights", t.weights)]
  {
    WeightsKey();
    WireDictPlain([("weights", t.weights)]);
  }

  /** Without params, the text sends its weights unless they are None or empty. */
  lemma ProfileTextWeights(t: ScoringProfileText)
    requires t.params == []
    ensures Get(ProfileTextToDict(t), "weights") == Kept(Some(t.weights))
  {
    var fixed := [("weights", t.weights)];
    WeightsKey();
    WireDictNoParams(fixed);
    RekeyIdentity(fixed, ToCamelCase);
    StrippedGet(fixed, 0, "weights");
  }

  lemma LoadWeights(w: Json)
    ensures LoadProfileText(JObj([("weights", w)])) == Ok(ScoringProfileText(w, []))
  {
    var kw := [("weights", w)];
    WeightsKey();
    RekeyIdentity(kw, ToSnakeCase);
    assert LoadKwargs(JObj(kw)) == Ok(kw);
    assert WithoutKeys(kw[1..], {"weights"}) == [];
    assert WithoutKeys(kw, {"weights"}) == [];
  }

  /** `ScoringProfileText.load(t.to_dict())` gives back a text with non-empty weights. */
  lemma ProfileTextRoundTrip(t: ScoringProfileText)
    requires t.params == [] && !IsEmptyValue(t.weights)
    ensures LoadProfileText(JObj(ProfileTextToDict(t))) == Ok(t)
  {
    ProfileTextWire(t);
    LoadWeights(t.weights);
  }

  lemma FunctionKeysNoUnderscore(i: nat)
    requires i < |FunctionKeys|
    ensures '_' !in FunctionKeys[i]
  {
  }

  lemma FunctionKeysDistinct()
    ensures forall i, j :: 0 <= i < j < |FunctionKeys| ==> FunctionKeys[i] != FunctionKeys[j]
  {
  }

  lemma FunctionSnakeDistinct()
    ensures forall i, j :: 0 <= i < j < |FunctionSnakeKeys| ==> FunctionSnakeKeys[i] != FunctionSnakeKeys[j]
  {
  }

  lemma FieldNameKey()
    ensures ToCamelCase("field_name") == "fieldName" && ToSnakeCase("fieldName") == "field_name"
  {
    KeyFormsAt(["field", "name"], "field_name", "fieldName");
  }

  /** Each wire key snake-cases to the matching constructor parameter. */
  lemma FunctionSnakeAt(i: nat)
    requires i < |FunctionKeys|
    ensures ToSnakeCase(FunctionKeys[i]) == FunctionSnakeKeys[i]
  {
    if i == 2 {
      FieldNameKey();
    } else {
      SnakeIdentity(FunctionKeys[i]);
    }
  }

  /** Without params, a function is sent as its fixed entries, empty ones left out. */
  lemma FunctionWireForm(fn: ScoringFunction)
    requires fn.params == []
    ensures DistinctKeys(FunctionFixed(fn))
    ensures ScoringFunctionToDict(fn) == RemoveEmptyValues(FunctionFixed(fn))
  {
    var fixed := FunctionFixed(fn);
    forall i | 0 <= i < |FunctionKeys| ensures '_' !in FunctionKeys[i] {
      FunctionKeysNoUnderscore(i);
    }
    CamelKeys(fixed, FunctionKeys);
    FunctionKeysDistinct();
    assert DistinctKeys(fixed);
    WireDictNoParams(fixed);
    RekeyIdentity(fixed, ToCamelCase);
  }

  /** Without params, `to_dict` sends each attribute under its camel-cased name unless it
      is None or empty. */
  lemma FunctionWireGet(fn: ScoringFunction, i: nat)
    requires fn.params == [] && i < |FunctionKeys|
    ensures Get(ScoringFunctionToDict(fn), FunctionKeys[i]) == Kept(Some(FunctionFixed(fn)[i].1))
  {
    FunctionWireForm(fn);
    StrippedGet(FunctionFixed(fn), i, FunctionKeys[i]);
  }

  /** The loaded keyword arguments hold each attribute under its parameter name. */
  lemma FunctionSnakeGet(fn: ScoringFunction, i: nat)
    requires i < |FunctionKeys|
    requires DistinctKeys(FunctionFixed(fn))
    ensures Get(ToSnakeCaseDict(RemoveEmptyValues(FunctionFixed(fn))), FunctionSnakeKeys[i])
      == Kept(Some(FunctionFixed(fn)[i].1))
  {
    forall j | 0 <= j < |FunctionKeys| ensures ToSnakeCase(FunctionFixed(fn)[j].0) == FunctionSnakeKeys[j] {
      FunctionSnakeAt(j);
    }
    FunctionSnakeDistinct();
    StrippedSnakeGet(FunctionFixed(fn), FunctionSnakeKeys, i);
  }

  /** The loaded keyword arguments hold nothing but constructor parameters. */
  lemma FunctionKwOnlyParameters(fn: ScoringFunction)
    ensures WithoutKeys(ToSnakeCaseDict(RemoveEmptyValues(FunctionFixed(fn))), FunctionParameters) == []
  {
    var kw := ToSnakeCaseDict(RemoveEmptyValues(FunctionFixed(fn)));
    forall j | 0 <= j < |FunctionKeys| ensures ToSnakeCase(FunctionFixed(fn)[j].0) == FunctionSnakeKeys[j] {
      FunctionSnakeAt(j);
    }
    StrippedSnakeKeys(FunctionFixed(fn), FunctionSnakeKeys);
    forall i | 0 <= i < |kw| ensures kw[i].0 in FunctionParameters {
      assert HasKey(kw, kw[i].0);
    }
    WithoutEveryKey(kw, FunctionParameters);
  }

  lemma GetOrKept(kw: Dict<Json>, k: string, v: Json)
    requires Get(kw, k) == Kept(Some(v)) && Reloadable(v)
    ensures GetOr(kw, k, JNull) == v
  {
  }

  /** The constructor rebuilds a function from keyword arguments that hold its
      attributes under their parameter names and nothing else. */
  lemma NewFromAttributes(kw: Dict<Json>, fn: ScoringFunction)
    requires fn.params == [] && !IsEmptyValue(fn.fnType) && InterpolationWarning(fn.interpolation).Ok?
    requires forall i :: 0 <= i < |FunctionSnakeKeys| ==> GetOr(kw, FunctionSnakeKeys[i], JNull) == FunctionFixed(fn)[i].1
    requires Get(kw, "type") == Some(fn.fnType)
    requires WithoutKeys(kw, FunctionParameters) == []
    ensures NewScoringFunction(kw) == Ok((fn, InterpolationWarning(fn.interpolation).value))
  {
    assert GetOr(kw, FunctionSnakeKeys[1], JNull) == fn.boost;
    assert GetOr(kw, FunctionSnakeKeys[2], JNull) == fn.fieldName;
    assert GetOr(kw, FunctionSnakeKeys[3], JNull) == fn.interpolation;
    assert GetOr(kw, FunctionSnakeKeys[4], JNull) == fn.magnitude;
    assert GetOr(kw, FunctionSnakeKeys[5], JNull) == fn.freshness;
    assert GetOr(kw, FunctionSnakeKeys[6], JNull) == fn.distance;
    assert GetOr(kw, FunctionSnakeKeys[7], JNull) == fn.tag;
  }

  /** `ScoringProfileFunction.load(fn.to_dict())` gives back a function whose type is set,
      whose other attributes are None or non-empty, and whose interpolation can be
      checked. */
  lemma FunctionRoundTrip(fn: ScoringFunction)
    requires fn.params == [] && !IsEmptyValue(fn.fnType) && InterpolationWarning(fn.interpolation).Ok?
    requires forall i :: 0 <= i < |FunctionKeys| ==> Reloadable(FunctionFixed(fn)[i].1)
    ensures LoadScoringFunction(JObj(ScoringFunctionToDict(fn))) == Ok(fn)
  {
    FunctionWireForm(fn);
    var kw := ToSnakeCaseDict(RemoveEmptyValues(FunctionFixed(fn)));
    forall i | 0 <= i < |FunctionSnakeKeys| ensures GetOr(kw, FunctionSnakeKeys[i], JNull) == FunctionFixed(fn)[i].1 {
      FunctionSnakeGet(fn, i);
      GetOrKept(kw, FunctionSnakeKeys[i], FunctionFixed(fn)[i].1);
    }
    FunctionSnakeGet(fn, 0);
    FunctionKwOnlyParameters(fn);
    NewFromAttributes(kw, fn);
  }

  lemma ProfileKeysFixed()
    ensures ToCamelCase("name") == "name" && ToSnakeCase("name") == "name"
    ensures ToCamelCase("text") == "text" && ToCamelCase("functions") == "functions"
    ensures ToSnakeCase("text") == "text" && ToSnakeCase("functions") == "functions"
  {
    FixedKey("name");
    TextKey();
    FunctionsKey();
  }

  /** Without params, a profile sends its name and text unless empty, and its functions
      only when there are some. */
  lemma ProfileWire(p: ScoringProfile)
    requires p.params == [] && ProfileToDict(p).Ok?
    ensures var d := ProfileToDict(p).value;
      && Get(d, "name") == Kept(Some(p.name))
      && Get(d, "text") == Kept(Some(JObj(ProfileTextToDict(p.text.t))))
      && Get(d, "functions") == (if p.functions.ProfileFunctions? && p.functions.fns != []
                                 then Some(JArr(FunctionDicts(p.functions.fns))) else None)
  {
    var text := TextDict(p.text).value;
    var functions := FunctionsDict(p.functions).value;
    assert ProfileToDict(p).value == WireDict(ProfileFixed(p, text, functions), []);
    ProfileFixedStripped(p, text, functions);
    FunctionsKept(p.functions);
  }

  /** The functions entry survives stripping exactly when there are some. */
  lemma FunctionsKept(v: ProfileKw)
    requires FunctionsDict(v).Ok?
    ensures Kept(Some(FunctionsDict(v).value))
      == if v.ProfileFunctions? && v.fns != [] then Some(JArr(FunctionDicts(v.fns))) else None
  {
    if v.ProfileFunctions? && v.fns != [] {
      assert Len(JArr(FunctionDicts(v.fns))) == |v.fns|;
    }
  }

  /** The fixed dict of three keys is sent stripped of its empty entries. */
  lemma ProfileFixedStripped(p: ScoringProfile, text: Json, functions: Json)
    ensures var d := WireDict(ProfileFixed(p, text, functions), []);
      Get(d, "name") == Kept(Some(p.name)) && Get(d, "text") == Kept(Some(text))
      && Get(d, "functions") == Kept(Some(functions))
  {
    var fixed := ProfileFixed(p, text, functions);
    ProfileKeysFixed();
    Rekey3Identity("name", p.name, "text", text, "functions", functions, ToCamelCase);
    WireDictNoParams(fixed);
    StrippedGet(fixed, 0, "name");
    StrippedGet(fixed, 1, "text");
    StrippedGet(fixed, 2, "functions");
  }

  /** A profile built from a text object and either no functions (the constructor's `[]`)
      or function objects that each reload. */
  predicate ProfileReloadable(p: ScoringProfile)
  {
    && p.params == [] && !IsEmptyValue(p.name)
    && p.text.ProfileText? && p.text.t.params == [] && !IsEmptyValue(p.text.t.weights)
    && FunctionsReloadable(p.functions)
  }

  /** No functions (the constructor's `[]`), or function objects that each reload. */
  predicate FunctionsReloadable(v: ProfileKw)
  {
    || v == ProfileValue(JArr([]))
    || (v.ProfileFunctions? && v.fns != [] && forall k :: 0 <= k < |v.fns| ==> FunctionReloadable(v.fns[k]))
  }

  predicate FunctionReloadable(fn: ScoringFunction)
  {
    && fn.params == [] && !IsEmptyValue(fn.fnType) && InterpolationWarning(fn.interpolation).Ok?
    && forall i :: 0 <= i < |FunctionKeys| ==> Reloadable(FunctionFixed(fn)[i].1)
  }

  const ProfileKeys: seq<string> := ["name", "text", "functions"]

  lemma ProfileKeysNoUnderscore(i: nat)
    requires i < |ProfileKeys|
    ensures '_' !in ProfileKeys[i]
  {
  }

  lemma ProfileKeysDistinct()
    ensures forall i, j :: 0 <= i < j < |ProfileKeys| ==> ProfileKeys[i] != ProfileKeys[j]
  {
  }

  lemma ProfileFixedSent(fixed: Dict<Json>)
    requires |fixed| == |ProfileKeys| && forall i :: 0 <= i < |fixed| ==> fixed[i].0 == ProfileKeys[i]
    requires forall i :: 0 <= i < |fixed| ==> !IsEmptyValue(fixed[i].1)
    ensures WireDict(fixed, []) == fixed
  {
    forall i | 0 <= i < |ProfileKeys| ensures '_' !in ProfileKeys[i] {
      ProfileKeysNoUnderscore(i);
    }
    ProfileKeysDistinct();
    KeyedDictSent(fixed, ProfileKeys);
  }

  lemma ProfileToDictWith(p: ScoringProfile)
    requires p.text.ProfileText? && p.functions.ProfileFunctions? && p.functions.fns != []
    ensures ProfileToDict(p) == Ok(WireDict(ProfileFixed(p, JObj(ProfileTextToDict(p.text.t)),
                                                        JArr(FunctionDicts(p.functions.fns))), p.params))
  {
  }

  lemma ProfileFixedWire(p: ScoringProfile, text: Json, functions: Json)
    requires !IsEmptyValue(p.name) && !IsEmptyValue(text) && !IsEmptyValue(functions)
    ensures WireDict(ProfileFixed(p, text, functions), []) == ProfileFixed(p, text, functions)
  {
    ProfileFixedSent(ProfileFixed(p, text, functions));
  }

  lemma ProfileDictFixed(p: ScoringProfile)
    requires p.params == [] && !IsEmptyValue(p.name)
    requires p.text.ProfileText? && p.text.t.params == [] && !IsEmptyValue(p.text.t.weights)
    requires p.functions.ProfileFunctions? && p.functions.fns != []
    ensures ProfileToDict(p) == Ok(ProfileFixed(p, JObj(ProfileTextToDict(p.text.t)), JArr(FunctionDicts(p.functions.fns))))
  {
    var text := JObj(ProfileTextToDict(p.text.t));
    var functions := JArr(FunctionDicts(p.functions.fns));
    ProfileToDictWith(p);
    ProfileTextWire(p.text.t);
    assert Len(text) == 1 && Len(functions) == |p.functions.fns|;
    ProfileFixedWire(p, text, functions);
  }

  lemma LoadFunctionsBack(fns: seq<ScoringFunction>)
    requires forall k :: 0 <= k < |fns| ==> FunctionReloadable(fns[k])
    ensures LoadEach(JArr(FunctionDicts(fns)), LoadScoringFunction) == Ok(fns)
  {
    forall k | 0 <= k < |fns| ensures LoadScoringFunction(FunctionDicts(fns)[k]) == Ok(fns[k]) {
      FunctionRoundTrip(fns[k]);
    }
    LoadItemsOk(FunctionDicts(fns), LoadScoringFunction, fns);
  }

  /** Loading the sent text puts the text object in place of the plain entry. */
  lemma LoadTextEntry(m: Dict<Json>, sent: Json, t: ScoringProfileText)
    requires |m| >= 2 && m[0].0 == "name" && m[1] == ("text", sent) && LoadProfileText(sent) == Ok(t)
    ensures WithLoadedText(m, PlainProfileKw(m)) == Ok(PlainProfileKw(m)[1 := ("text", ProfileText(t))])
  {
    SecondEntry(m, "text");
    SecondEntry(PlainProfileKw(m), "text");
    PutAt(PlainProfileKw(m), 1, "text", ProfileText(t));
  }

  lemma SecondEntry<V>(d: Dict<V>, k: string)
    requires |d| >= 2 && d[0].0 == "name" && d[1].0 == k && k != "name"
    ensures HasKey(d, k) && Get(d, k) == Some(d[1].1) && forall j :: 0 <= j < 1 ==> d[j].0 != k
  {
    PositionGet(d, 1, k);
  }

  /** Loading the sent functions puts the function objects in place of the plain entry. */
  lemma LoadFunctionsEntry(m: Dict<Json>, kw: Dict<ProfileKw>, sent: Json, fns: seq<ScoringFunction>)
    requires |m| == 3 && m[0].0 == "name" && m[1].0 == "text" && m[2] == ("functions", sent)
    requires |kw| == 3 && kw[0].0 == "name" && kw[1].0 == "text" && kw[2].0 == "functions" && ProfileExtrasPlain(kw)
    requires LoadEach(sent, LoadScoringFunction) == Ok(fns)
    ensures WithLoadedFunctions(m, kw) == Ok(kw[2 := ("functions", ProfileFunctions(fns))])
  {
    FunctionsThird(m, sent);
    FunctionsThird(kw, ProfileFunctions(fns));
    LoadedFunctionsPut(m, kw, fns);
  }

  /** In a dict keyed name, text, functions, the functions entry is the third. */
  lemma FunctionsThird<V>(d: Dict<V>, v: V)
    requires |d| == 3 && d[0].0 == "name" && d[1].0 == "text" && d[2].0 == "functions"
    ensures HasKey(d, "functions") && Get(d, "functions") == Some(d[2].1)
    ensures Put(d, "functions", v) == d[2 := ("functions", v)]
  {
    PositionGet(d, 2, "functions");
    PutAt(d, 2, "functions", v);
  }

  lemma LoadedFunctionsPut(m: Dict<Json>, kw: Dict<ProfileKw>, fns: seq<ScoringFunction>)
    requires HasKey(m, "functions") && ProfileExtrasPlain(kw)
    requires LoadEach(Get(m, "functions").value, LoadScoringFunction) == Ok(fns)
    ensures WithLoadedFunctions(m, kw) == Ok(Put(kw, "functions", ProfileFunctions(fns)))
  {
  }

  lemma LoadedKwShape(p: ScoringProfile, m: Dict<Json>)
    requires |m| == 3 && m[0] == ("name", p.name)
    ensures PlainProfileKw(m)[1 := ("text", p.text)][2 := ("functions", p.functions)]
      == [("name", ProfileValue(p.name)), ("text", p.text), ("functions", p.functions)]
  {
  }

  lemma SnakeLoaded(n: Json, text: ProfileKw, functions: ProfileKw)
    ensures ToSnakeCaseDict([("name", ProfileValue(n)), ("text", text), ("functions", functions)])
      == [("name", ProfileValue(n)), ("text", text), ("functions", functions)]
  {
    ProfileKeysFixed();
    Rekey3Identity("name", ProfileValue(n), "text", text, "functions", functions, ToSnakeCase);
  }

  lemma NewFromLoaded(n: Json, text: ProfileKw, functions: ProfileKw)
    requires text.ProfileText? && functions.ProfileFunctions?
    ensures NewScoringProfile([("name", ProfileValue(n)), ("text", text), ("functions", functions)])
      == Ok(ScoringProfile(n, text, functions, []))
  {
    var kw := [("name", ProfileValue(n)), ("text", text), ("functions", functions)];
    var names := {"name", "text", "functions"};
    assert WithoutKeys(kw[2..], names) == [];
    assert WithoutKeys(kw[1..], names) == [];
    assert WithoutKeys(kw, names) == [];
  }

  /** `ScoringProfile.load(p.to_dict())` gives back a profile built from a text object and
      either no functions or a non-empty list of function objects that each reload. */
  lemma ProfileRoundTrip(p: ScoringProfile)
    requires ProfileReloadable(p)
    ensures ProfileToDict(p).Ok? && LoadScoringProfile(JObj(ProfileToDict(p).value)) == Ok(p)
  {
    if p.functions.ProfileFunctions? {
      FunctionsProfileRoundTrip(p);
    } else {
      BareProfileRoundTrip(p);
    }
  }

  /** The round trip of a profile with function objects. */
  lemma FunctionsProfileRoundTrip(p: ScoringProfile)
    requires ProfileReloadable(p) && p.functions.ProfileFunctions?
    ensures ProfileToDict(p).Ok? && LoadScoringProfile(JObj(ProfileToDict(p).value)) == Ok(p)
  {
    ProfileDictFixed(p);
    ProfileTextWire(p.text.t);
    var m := ProfileToDict(p).value;
    LoadWeights(p.text.t.weights);
    LoadTextEntry(m, JObj([("weights", p.text.t.weights)]), p.text.t);
    var kw := PlainProfileKw(m)[1 := ("text", p.text)];
    LoadFunctionsBack(p.functions.fns);
    LoadFunctionsEntry(m, kw, JArr(FunctionDicts(p.functions.fns)), p.functions.fns);
    LoadedKwShape(p, m);
    LoadProfileSteps(m, kw, [("name", ProfileValue(p.name)), ("text", p.text), ("functions", p.functions)]);
    SnakeLoaded(p.name, p.text, p.functions);
    NewFromLoaded(p.name, p.text, p.functions);
  }

  /** `load` is the constructor on the snake-cased keywords, once the text and the
      functions are loaded. */
  lemma LoadProfileSteps(m: Dict<Json>, withText: Dict<ProfileKw>, withFunctions: Dict<ProfileKw>)
    requires ProfileExtrasPlain(PlainProfileKw(m))
    requires ProfileExtrasPlain(withText) && ProfileExtrasPlain(withFunctions)
    requires WithLoadedText(m, PlainProfileKw(m)) == Ok(withText)
    requires WithLoadedFunctions(m, withText) == Ok(withFunctions)
    ensures ProfileExtrasPlain(ToSnakeCaseDict(withFunctions))
    ensures LoadScoringProfile(JObj(m)) == NewScoringProfile(ToSnakeCaseDict(withFunctions))
  {
    LoadedProfileKwPlain(withFunctions);
  }

  /** The round trip of a profile built without functions: `to_dict` sends None for the
      falsy `[]`, which is stripped, and the constructor puts `[]` back. */
  lemma BareProfileRoundTrip(p: ScoringProfile)
    requires ProfileReloadable(p) && p.functions == ProfileValue(JArr([]))
    ensures ProfileToDict(p).Ok? && LoadScoringProfile(JObj(ProfileToDict(p).value)) == Ok(p)
  {
    var text := JObj(ProfileTextToDict(p.text.t));
    ProfileTextWire(p.text.t);
    BareProfileDict(p);
    LoadBareProfile(p.name, p.text.t);
  }

  /** Without functions, a profile is sent as its name and text. */
  lemma BareProfileDict(p: ScoringProfile)
    requires p.params == [] && !IsEmptyValue(p.name) && p.functions == ProfileValue(JArr([]))
    requires p.text.ProfileText? && p.text.t.params == [] && !IsEmptyValue(p.text.t.weights)
    ensures ProfileToDict(p) == Ok([("name", p.name), ("text", JObj(ProfileTextToDict(p.text.t)))])
  {
    var text := JObj(ProfileTextToDict(p.text.t));
    ProfileToDictBare(p);
    ProfileTextWire(p.text.t);
    assert Len(text) == 1;
    BareProfileSent(p, text);
  }

  lemma ProfileToDictBare(p: ScoringProfile)
    requires p.text.ProfileText? && p.functions == ProfileValue(JArr([]))
    ensures ProfileToDict(p) == Ok(WireDict(ProfileFixed(p, JObj(ProfileTextToDict(p.text.t)), JNull), p.params))
  {
    NoFunctionsDict();
    assert TextDict(p.text) == Ok(JObj(ProfileTextToDict(p.text.t)));
  }

  /** The constructor's `[]` is falsy, so `to_dict` gives None for it. */
  lemma NoFunctionsDict()
    ensures FunctionsDict(ProfileValue(JArr([]))) == Ok(JNull)
  {
    assert !Truthy(JArr([]));
  }

  /** Loading a name and a text with non-empty weights builds the profile without functions. */
  lemma LoadBareProfile(n: Json, t: ScoringProfileText)
    requires t.params == [] && !IsEmptyValue(t.weights)
    ensures LoadScoringProfile(JObj([("name", n), ("text", JObj([("weights", t.weights)]))]))
      == Ok(ScoringProfile(n, ProfileText(t), ProfileValue(JArr([])), []))
  {
    var text := JObj([("weights", t.weights)]);
    var m := [("name", n), ("text", text)];
    LoadWeights(t.weights);
    LoadTextEntry(m, text, t);
    var kw := [("name", ProfileValue(n)), ("text", ProfileText(t))];
    assert PlainProfileKw(m)[1 := ("text", ProfileText(t))] == kw;
    NoFunctionsEntry(m, kw);
    LoadProfileSteps(m, kw, kw);
    SnakeLoadedBare(n, ProfileText(t));
    NewFromLoadedBare(n, ProfileText(t));
  }

  /** Without functions, the fixed dict is sent as its name and text. */
  lemma BareProfileSent(p: ScoringProfile, text: Json)
    requires !IsEmptyValue(p.name) && !IsEmptyValue(text)
    ensures WireDict(ProfileFixed(p, text, JNull), []) == [("name", p.name), ("text", text)]
  {
    NullEntryStripped(p.name, text);
  }

  /** A None functions entry is dropped from the payload; name and text are sent. */
  lemma NullEntryStripped(n: Json, text: Json)
    requires !IsEmptyValue(n) && !IsEmptyValue(text)
    ensures WireDict([("name", n), ("text", text), ("functions", JNull)], []) == [("name", n), ("text", text)]
  {
    var fixed := [("name", n), ("text", text), ("functions", JNull)];
    ProfileKeysFixed();
    Rekey3Identity("name", n, "text", text, "functions", JNull, ToCamelCase);
    WireDictNoParams(fixed);
    NullLastStripped([("name", n), ("text", text)], "functions");
    assert [("name", n), ("text", text)] + [("functions", JNull)] == fixed;
  }

  /** A None entry at the end of a dict with nothing else empty is all that is dropped. */
  lemma NullLastStripped(kept: Dict<Json>, k: string)
    requires forall i :: 0 <= i < |kept| ==> !IsEmptyValue(kept[i].1)
    ensures RemoveEmptyValues(kept + [(k, JNull)]) == kept
  {
    RemoveEmptyValuesAppend(kept, [(k, JNull)]);
    RemoveEmptyValuesNone(kept);
  }

  /** A sent dict without `functions` leaves the loaded keywords as they are. */
  lemma NoFunctionsEntry(m: Dict<Json>, kw: Dict<ProfileKw>)
    requires |m| == 2 && m[0].0 == "name" && m[1].0 == "text" && ProfileExtrasPlain(kw)
    ensures WithLoadedFunctions(m, kw) == Ok(kw)
  {
    assert !HasKey(m, "functions") by {
      assert IndexOf(m, "functions") == |m|;
    }
  }

  lemma SnakeLoadedBare(n: Json, text: ProfileKw)
    ensures ToSnakeCaseDict([("name", ProfileValue(n)), ("text", text)])
      == [("name", ProfileValue(n)), ("text", text)]
  {
    ProfileKeysFixed();
    RekeyIdentity([("name", ProfileValue(n)), ("text", text)], ToSnakeCase);
  }

  /** The constructor without a functions keyword holds `[]`. */
  lemma NewFromLoadedBare(n: Json, text: ProfileKw)
    requires text.ProfileText?
    ensures NewScoringProfile([("name", ProfileValue(n)), ("text", text)])
      == Ok(ScoringProfile(n, text, ProfileValue(JArr([])), []))
  {
    var kw := [("name", ProfileValue(n)), ("text", text)];
    var names := {"name", "text", "functions"};
    assert WithoutKeys(kw[1..], names) == [];
    assert WithoutKeys(kw, names) == [];
    assert !HasKey(kw, "functions") by {
      assert IndexOf(kw, "functions") == |kw|;
    }
  }
}
