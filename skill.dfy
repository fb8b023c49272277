/** Skills of an enrichment pipeline: their inputs and outputs, the validating
    constructor, the wire form and `load`. */
module Skills {
  import opened Wire
  import opened SearchObject
  import opened FieldMappings

  /** An input of a skill: its name, the document path it reads, and extra params. */
  datatype SkillInput = SkillInput(name: Json, source: Json, params: Dict<Json>)

  /** An output of a skill: its name, the document field it writes, whether it yields
      one value per element of a collection, and extra params. */
  datatype SkillOutput = SkillOutput(name: Json, targetName: Json, returnsMultipleResults: Json,
                                     params: Dict<Json>)

  /** The state of a skill. outputFieldMapping is present only on the predefined
      skills, which set it in their constructors. */
  datatype SkillSpec = SkillSpec(skillType: Json, inputs: seq<SkillInput>, outputs: seq<SkillOutput>,
                                 context: Json, params: Dict<Json>,
                                 outputFieldMapping: Option<seq<FieldMapping>>)

  /** A keyword argument of the skill constructor: a plain value, or a list of input or
      output objects. */
  datatype SkillKw = Plain(j: Json) | Inputs(ins: seq<SkillInput>) | Outputs(outs: seq<SkillOutput>)

  // ----- SkillInput and SkillOutput -----

  /** `SkillInput(**kw)`: name and source are required; the rest is the params bag. */
  function NewSkillInput(kw: Dict<Json>): (r: Result<SkillInput>)
    ensures r.Err? <==> !HasKey(kw, "name") || !HasKey(kw, "source")
    ensures !HasKey(kw, "name") ==> r == Err(MissingArgument("name"))
    ensures r.Ok? ==> Get(kw, "name") == Some(r.value.name) && Get(kw, "source") == Some(r.value.source)
    ensures r.Ok? ==> r.value.params == WithoutKeys(kw, {"name", "source"})
    ensures r.Ok? ==> forall p :: p in r.value.params ==> p in kw && p.0 != "name" && p.0 != "source"
    ensures r.Ok? ==> forall p :: p in kw && p.0 != "name" && p.0 != "source" ==> p in r.value.params
  {
    if !HasKey(kw, "name") then Err(MissingArgument("name"))
    else if !HasKey(kw, "source") then Err(MissingArgument("source"))
    else Ok(SkillInput(Get(kw, "name").value, Get(kw, "source").value, WithoutKeys(kw, {"name", "source"})))
  }

  /** `SkillOutput(**kw)`: name and target_name are required; returns_multiple_results
      defaults to False; the rest is the params bag. */
  function NewSkillOutput(kw: Dict<Json>): (r: Result<SkillOutput>)
    ensures r.Err? <==> !HasKey(kw, "name") || !HasKey(kw, "target_name")
    ensures r.Ok? ==> Get(kw, "name") == Some(r.value.name) && Get(kw, "target_name") == Some(r.value.targetName)
    ensures r.Ok? && HasKey(kw, "returns_multiple_results") ==>
      Get(kw, "returns_multiple_results") == Some(r.value.returnsMultipleResults)
    ensures r.Ok? && !HasKey(kw, "returns_multiple_results") ==> r.value.returnsMultipleResults == JBool(false)
    ensures r.Ok? ==> r.value.params == WithoutKeys(kw, {"name", "target_name", "returns_multiple_results"})
    ensures r.Ok? ==> forall p :: p in r.value.params ==>
      (p in kw && p.0 != "name" && p.0 != "target_name" && p.0 != "returns_multiple_results")
    ensures r.Ok? ==> forall p :: p in kw ==>
      (p.0 != "name" && p.0 != "target_name" && p.0 != "returns_multiple_results" ==> p in r.value.params)
  {
    if !HasKey(kw, "name") then Err(MissingArgument("name"))
    else if !HasKey(kw, "target_name") then Err(MissingArgument("target_name"))
    else Ok(SkillOutput(Get(kw, "name").value, Get(kw, "target_name").value,
                        GetOr(kw, "returns_multiple_results", JBool(false)),
                        WithoutKeys(kw, {"name", "target_name", "returns_multiple_results"})))
  }

  /** `SkillInput.to_dict`. */
  function SkillInputToDict(i: SkillInput): Dict<Json>
  {
    WireDict([("name", i.name), ("source", i.source)], i.params)
  }

  /** `SkillOutput.to_dict`: only name and targetName; the multiple-results flag is not
      written. */
  function SkillOutputToDict(o: SkillOutput): Dict<Json>
  {
    WireDict([("name", o.name), ("targetName", o.targetName)], o.params)
  }

  /** `SkillInput.load`, the generic load. */
  function LoadSkillInput(data: Json): Result<SkillInput>
  {
    var kw :- LoadKwargs(data);
    NewSkillInput(kw)
  }

  /** `SkillOutput.load`, the generic load. */
  function LoadSkillOutput(data: Json): Result<SkillOutput>
  {
    var kw :- LoadKwargs(data);
    NewSkillOutput(kw)
  }

  // ----- Skill -----

  const Reserved: set<string> := {"skill_type", "@odata.type", "inputs", "outputs", "context"}

  /** Every keyword argument other than the input and output lists is a plain value. */
  predicate ExtrasPlain(kw: Dict<SkillKw>)
  {
    forall i :: 0 <= i < |kw| && kw[i].0 != "inputs" && kw[i].0 != "outputs" ==> kw[i].1.Plain?
  }

  /** `value[0]` on a plain value: a list or string yields its first element, an empty one
      raises IndexError, a dict (whose keys are strings) raises KeyError, anything else is
      not subscriptable. */
  function IndexZero(j: Json): (r: Result<Json>)
    ensures r.Err? <==> !(j.JArr? || j.JStr?) || Len(j) == 0
  {
    match j
    case JArr(items) => if items == [] then Err(IndexError) else Ok(items[0])
    case JStr(s) => if s == [] then Err(IndexError) else Ok(JStr([s[0]]))
    case JObj(_) => Err(KeyError)
    case _ => Err(TypeError("object is not subscriptable"))
  }

  /** The `inputs` argument, checked the way the constructor checks it: only its first
      element is tested for being a SkillInput. */
  function TakeInputs(v: SkillKw): (r: Result<seq<SkillInput>>)
    ensures r.Ok? <==> v.Inputs? && v.ins != []
    ensures r.Ok? ==> r.value == v.ins
  {
    match v
    case Inputs(xs) => if xs == [] then Err(IndexError) else Ok(xs)
    case Outputs(xs) => if xs == [] then Err(IndexError) else Err(TypeError("Inputs should be of type SkillInput"))
    case Plain(j) =>
      var _ :- IndexZero(j);
      Err(TypeError("Inputs should be of type SkillInput"))
  }

  /** The `outputs` argument, checked the same way against SkillOutput. */
  function TakeOutputs(v: SkillKw): (r: Result<seq<SkillOutput>>)
    ensures r.Ok? <==> v.Outputs? && v.outs != []
    ensures r.Ok? ==> r.value == v.outs
  {
    match v
    case Outputs(xs) => if xs == [] then Err(IndexError) else Ok(xs)
    case Inputs(xs) => if xs == [] then Err(IndexError) else Err(TypeError("Outputs should be of type SkillOutput"))
    case Plain(j) =>
      var _ :- IndexZero(j);
      Err(TypeError("Outputs should be of type SkillOutput"))
  }

  function PlainValue(v: Option<SkillKw>, default: Json): Json
  {
    if v.Some? && v.value.Plain? then v.value.j else default
  }

  /** The plain values of a keyword dict. */
  function PlainDict(kw: Dict<SkillKw>): (d: Dict<Json>)
    ensures |d| == |kw|
    ensures forall i :: 0 <= i < |kw| ==> d[i].0 == kw[i].0
    ensures forall i :: 0 <= i < |kw| && kw[i].1.Plain? ==> d[i] == (kw[i].0, kw[i].1.j)
  {
    seq(|kw|, i requires 0 <= i < |kw| => (kw[i].0, PlainValue(Some(kw[i].1), JNull)))
  }

  /** `Skill(**kw)`: inputs default to `[]`; outputs are required; `@odata.type` wins over
      skill_type; the params bag is every other keyword argument. */
  function InitSkill(kw: Dict<SkillKw>): (r: Result<SkillSpec>)
    requires ExtrasPlain(kw)
    ensures !HasKey(kw, "inputs") && r.Ok? ==> r.value.inputs == []
    ensures HasKey(kw, "inputs") && !(Get(kw, "inputs").value.Inputs? && Get(kw, "inputs").value.ins != []) ==> r.Err?
    ensures (!HasKey(kw, "inputs") || TakeInputs(Get(kw, "inputs").value).Ok?) && !HasKey(kw, "outputs")
      ==> r == Err(Exception("outputs must be provided"))
    ensures r.Ok? ==>
      (HasKey(kw, "outputs") && Get(kw, "outputs") == Some(Outputs(r.value.outputs)) && r.value.outputs != [])
    ensures r.Ok? && HasKey(kw, "@odata.type") ==> Get(kw, "@odata.type") == Some(Plain(r.value.skillType))
    ensures r.Ok? && !HasKey(kw, "@odata.type") ==> r.value.skillType == PlainValue(Get(kw, "skill_type"), JNull)
    ensures r.Ok? && HasKey(kw, "inputs") ==> Get(kw, "inputs") == Some(Inputs(r.value.inputs))
    ensures r.Ok? ==> r.value.context == PlainValue(Get(kw, "context"), JNull)
    ensures r.Ok? ==> r.value.params == PlainDict(WithoutKeys(kw, Reserved))
    ensures r.Ok? ==> forall i :: 0 <= i < |r.value.params| ==> r.value.params[i].0 !in Reserved
  {
    var inputs :- if HasKey(kw, "inputs") then TakeInputs(Get(kw, "inputs").value) else Ok([]);
    if !HasKey(kw, "outputs") then Err(Exception("outputs must be provided"))
    else
      var outputs :- TakeOutputs(Get(kw, "outputs").value);
      var skillType := if HasKey(kw, "@odata.type") then PlainValue(Get(kw, "@odata.type"), JNull)
                       else PlainValue(Get(kw, "skill_type"), JNull);
      var extra := WithoutKeys(kw, Reserved);
      Ok(SkillSpec(skillType, inputs, outputs, PlainValue(Get(kw, "context"), JNull),
                   PlainDict(extra), None))
  }

  /** The params bag of a skill holds every keyword argument other than the reserved
      ones, with its value, and nothing else. */
  lemma InitSkillParams(kw: Dict<SkillKw>)
    requires ExtrasPlain(kw) && InitSkill(kw).Ok?
    ensures var ps := InitSkill(kw).value.params;
      forall i :: 0 <= i < |kw| && kw[i].0 !in Reserved ==> (kw[i].0, kw[i].1.j) in ps
    ensures var ps := InitSkill(kw).value.params;
      forall m :: 0 <= m < |ps| ==> ExtraKeyword(kw, ps[m])
  {
    var extra := WithoutKeys(kw, Reserved);
    var ps := InitSkill(kw).value.params;
    assert ps == PlainDict(extra);
    forall i | 0 <= i < |kw| && kw[i].0 !in Reserved ensures (kw[i].0, kw[i].1.j) in ps {
      var m :| 0 <= m < |extra| && extra[m] == kw[i];
      assert ps[m] == (kw[i].0, kw[i].1.j);
    }
    forall m | 0 <= m < |ps| ensures ExtraKeyword(kw, ps[m]) {
      assert extra[m] in kw;
      var i :| 0 <= i < |kw| && kw[i] == extra[m];
      assert ps[m] == (kw[i].0, kw[i].1.j);
    }
  }

  /** e is a keyword argument other than the reserved ones, with its plain value. */
  predicate ExtraKeyword(kw: Dict<SkillKw>, e: (string, Json))
  {
    exists i :: 0 <= i < |kw| && kw[i].0 !in Reserved && kw[i].1 == Plain(e.1) && kw[i].0 == e.0
  }

  function InputDicts(ins: seq<SkillInput>): (r: seq<Json>)
    ensures |r| == |ins|
    ensures forall i :: 0 <= i < |ins| ==> r[i] == JObj(SkillInputToDict(ins[i]))
  {
    seq(|ins|, i requires 0 <= i < |ins| => JObj(SkillInputToDict(ins[i])))
  }

  function OutputDicts(outs: seq<SkillOutput>): (r: seq<Json>)
    ensures |r| == |outs|
    ensures forall i :: 0 <= i < |outs| ==> r[i] == JObj(SkillOutputToDict(outs[i]))
  {
    seq(|outs|, i requires 0 <= i < |outs| => JObj(SkillOutputToDict(outs[i])))
  }

  function SkillFixed(s: SkillSpec): Dict<Json>
  {
    [("@odata.type", s.skillType), ("inputs", JArr(InputDicts(s.inputs))),
     ("outputs", JArr(OutputDicts(s.outputs))), ("context", s.context)]
  }

  /** `Skill.to_dict`. */
  function SkillToDict(s: SkillSpec): Dict<Json>
  {
    WireDict(SkillFixed(s), s.params)
  }

  function PlainKw(d: Dict<Json>): (kw: Dict<SkillKw>)
    ensures |kw| == |d|
    ensures forall i :: 0 <= i < |d| ==> kw[i] == (d[i].0, Plain(d[i].1))
  {
    seq(|d|, i requires 0 <= i < |d| => (d[i].0, Plain(d[i].1)))
  }

  /** `Skill.load`: falsy data, a non-dict, and a missing `@odata.type`, `inputs` or
      `outputs` key each raise; outputs then inputs are loaded into objects, the keys are
      snake-cased, and the constructor runs. */
  function LoadSkill(data: Json): (r: Result<SkillSpec>)
    ensures !Truthy(data) ==> r == Err(Exception("data is null"))
    ensures Truthy(data) && !data.JObj? ==> r == Err(Exception("Failed to load JSON file with skill data"))
    ensures data.JObj? && !HasKey(data.members, "@odata.type") ==>
      r == Err(Exception("Please provide the skill type (@odata.type)")) || !Truthy(data)
    ensures data.JObj? && HasKey(data.members, "@odata.type") && !HasKey(data.members, "inputs") ==>
      r == Err(Exception("Please provide the skill inputs"))
    ensures (data.JObj? && HasKey(data.members, "@odata.type") && HasKey(data.members, "inputs")
             && !HasKey(data.members, "outputs")) ==> r == Err(Exception("Please provide the skill outputs"))
  {
    if !Truthy(data) then Err(Exception("data is null"))
    else if !data.JObj? then Err(Exception("Failed to load JSON file with skill data"))
    else
      var m := data.members;
      if !HasKey(m, "@odata.type") then Err(Exception("Please provide the skill type (@odata.type)"))
      else if !HasKey(m, "inputs") then Err(Exception("Please provide the skill inputs"))
      else if !HasKey(m, "outputs") then Err(Exception("Please provide the skill outputs"))
      else
        var outs :- LoadEach(Get(m, "outputs").value, LoadSkillOutput);
        var ins :- LoadEach(Get(m, "inputs").value, LoadSkillInput);
        BuildSkill(m, outs, ins)
  }

  /** The last step of `load`: the loaded lists replace the raw ones, the keys are
      snake-cased and the constructor runs. */
  function BuildSkill(m: Dict<Json>, outs: seq<SkillOutput>, ins: seq<SkillInput>): Result<SkillSpec>
  {
    var kw := Put(Put(PlainKw(m), "outputs", Outputs(outs)), "inputs", Inputs(ins));
    ListsPutPlain(m, outs, ins);
    LoadedKwargsPlain(kw);
    InitSkill(ToSnakeCaseDict(kw))
  }

  /** Putting the loaded lists into the plain keywords keeps everything else plain. */
  lemma ListsPutPlain(m: Dict<Json>, outs: seq<SkillOutput>, ins: seq<SkillInput>)
    ensures ExtrasPlain(Put(Put(PlainKw(m), "outputs", Outputs(outs)), "inputs", Inputs(ins)))
  {
  }

  /** Snake-casing keeps the object lists under `inputs` and `outputs`, so the constructor
      sees plain values everywhere else. */
  lemma LoadedKwargsPlain(kw: Dict<SkillKw>)
    requires ExtrasPlain(kw)
    ensures ExtrasPlain(ToSnakeCaseDict(kw))
  {
    var r := ToSnakeCaseDict(kw);
    RekeyValues(kw, ToSnakeCase);
    InputsKeyFixed();
    OutputsKeyFixed();
    forall i | 0 <= i < |r| && r[i].0 != "inputs" && r[i].0 != "outputs" ensures r[i].1.Plain? {
      var j :| 0 <= j < |kw| && r[i] == (ToSnakeCase(kw[j].0), kw[j].1);
      assert kw[j].0 != "inputs" && kw[j].0 != "outputs";
    }
  }

  /** The fixed keys of the skill payload pass through both converters unchanged. */
  lemma InputsKeyFixed()
    ensures ToSnakeCase("inputs") == "inputs" && ToCamelCase("inputs") == "inputs"
  {
    FixedKey("inputs");
  }

  lemma OutputsKeyFixed()
    ensures ToSnakeCase("outputs") == "outputs" && ToCamelCase("outputs") == "outputs"
  {
    FixedKey("outputs");
  }

  lemma ContextKeyFixed()
    ensures ToSnakeCase("context") == "context" && ToCamelCase("context") == "context"
  {
    FixedKey("context");
  }

  lemma NameKeyFixed()
    ensures ToSnakeCase("name") == "name" && ToCamelCase("name") == "name"
  {
    FixedKey("name");
  }

  lemma SourceKeyFixed()
    ensures ToSnakeCase("source") == "source" && ToCamelCase("source") == "source"
  {
    FixedKey("source");
  }

  /** `targetName` is written camel-cased and read back as `target_name`. */
  lemma TargetNameKey()
    ensures ToCamelCase("targetName") == "targetName"
    ensures ToSnakeCase("targetName") == "target_name"
  {
    TargetNameCamel();
    TargetNameSnake();
  }

  lemma TargetNameCamel()
    ensures ToCamelCase("targetName") == "targetName"
  {
    CamelIdentity("targetName");
  }

  lemma TargetNameSnake()
    ensures ToSnakeCase("targetName") == "target_name"
  {
    assert "targetName" == "target" + "Name";
    SnakeAppend(None, "target", "Name");
    SnakeTarget();
    SnakeName();
  }

  lemma SnakeTarget()
    ensures Snake(None, "target") == "target"
  {
    SnakeIdentity("target");
  }

  lemma SnakeName()
    ensures Snake(Some('t'), "Name") == "_name"
  {
    SnakeIdentity("ame");
    assert "Name"[1..] == "ame";
  }

  // ----- round trips -----

  lemma InputDictForm(i: SkillInput)
    requires i.params == [] && !IsEmptyValue(i.name) && !IsEmptyValue(i.source)
    ensures SkillInputToDict(i) == [("name", i.name), ("source", i.source)]
  {
    var fixed := [("name", i.name), ("source", i.source)];
    NameKeyFixed();
    SourceKeyFixed();
    RekeyIdentity(fixed, ToCamelCase);
    RemoveEmptyValuesNone(fixed);
  }

  lemma LoadInputForm(name: Json, source: Json)
    ensures LoadSkillInput(JObj([("name", name), ("source", source)])) == Ok(SkillInput(name, source, []))
  {
    InputKwargs(name, source);
    NewInputFromKwargs(name, source);
  }

  lemma InputKwargs(name: Json, source: Json)
    ensures LoadKwargs(JObj([("name", name), ("source", source)])) == Ok([("name", name), ("source", source)])
  {
    NameKeyFixed();
    SourceKeyFixed();
    Rekey2("name", name, "source", source, ToSnakeCase);
  }

  lemma NewInputFromKwargs(name: Json, source: Json)
    ensures NewSkillInput([("name", name), ("source", source)]) == Ok(SkillInput(name, source, []))
  {
    var kw := [("name", name), ("source", source)];
    WithoutEveryKey(kw, {"name", "source"});
    DistinctGet(kw, "source", source);
  }

  /** `SkillInput.load(input.to_dict())` gives the input back when its name and source are
      set and it has no params. */
  lemma SkillInputRoundTrip(i: SkillInput)
    requires i.params == [] && !IsEmptyValue(i.name) && !IsEmptyValue(i.source)
    ensures LoadSkillInput(JObj(SkillInputToDict(i))) == Ok(i)
  {
    InputDictForm(i);
    LoadInputForm(i.name, i.source);
  }

  lemma OutputDictForm(o: SkillOutput)
    requires o.params == [] && !IsEmptyValue(o.name) && !IsEmptyValue(o.targetName)
    ensures SkillOutputToDict(o) == [("name", o.name), ("targetName", o.targetName)]
  {
    var fixed := [("name", o.name), ("targetName", o.targetName)];
    NameKeyFixed();
    TargetNameCamel();
    Rekey2("name", o.name, "targetName", o.targetName, ToCamelCase);
    RemoveEmptyValuesNone(fixed);
  }

  lemma LoadOutputForm(name: Json, target: Json)
    ensures LoadSkillOutput(JObj([("name", name), ("targetName", target)]))
      == Ok(SkillOutput(name, target, JBool(false), []))
  {
    OutputKwargs(name, target);
    NewOutputFromKwargs(name, target);
  }

  lemma OutputKwargs(name: Json, target: Json)
    ensures LoadKwargs(JObj([("name", name), ("targetName", target)])) == Ok([("name", name), ("target_name", target)])
  {
    NameKeyFixed();
    TargetNameSnake();
    Rekey2("name", name, "targetName", target, ToSnakeCase);
  }

  lemma NewOutputFromKwargs(name: Json, target: Json)
    ensures NewSkillOutput([("name", name), ("target_name", target)]) == Ok(SkillOutput(name, target, JBool(false), []))
  {
    var kw := [("name", name), ("target_name", target)];
    WithoutEveryKey(kw, {"name", "target_name", "returns_multiple_results"});
    DistinctGet(kw, "target_name", target);
  }

  /** `SkillOutput.load(output.to_dict())` gives the output back with its name and target,
      but with the multiple-results flag reset to False: the flag is never written. */
  lemma SkillOutputRoundTrip(o: SkillOutput)
    requires o.params == [] && !IsEmptyValue(o.name) && !IsEmptyValue(o.targetName)
    ensures LoadSkillOutput(JObj(SkillOutputToDict(o))) == Ok(o.(returnsMultipleResults := JBool(false)))
  {
    OutputDictForm(o);
    LoadOutputForm(o.name, o.targetName);
  }

  /** A skill whose multiple-results flags are set comes back from a round trip without
      them. */
  lemma FlagLostOnRoundTrip()
    ensures LoadSkillOutput(JObj(SkillOutputToDict(SkillOutput(JStr("pages"), JStr("pages"), JBool(true), []))))
      == Ok(SkillOutput(JStr("pages"), JStr("pages"), JBool(false), []))
  {
    SkillOutputRoundTrip(SkillOutput(JStr("pages"), JStr("pages"), JBool(true), []));
  }

  // ----- the skill round trip -----

  /** An input that survives `to_dict` then `load`: name and source set, no params. */
  predicate InputRoundTrips(i: SkillInput)
  {
    i.params == [] && !IsEmptyValue(i.name) && !IsEmptyValue(i.source)
  }

  /** An output that survives `to_dict` then `load`, up to its multiple-results flag. */
  predicate OutputRoundTrips(o: SkillOutput)
  {
    o.params == [] && !IsEmptyValue(o.name) && !IsEmptyValue(o.targetName)
  }

  /** A skill that survives `to_dict` then `load`: a type, at least one input and one
      output (an empty list is stripped from the payload and `load` then refuses it), a
      context that is None or non-empty, and no params. */
  predicate SkillRoundTrips(s: SkillSpec)
  {
    s.params == [] && s.outputFieldMapping.None? && !IsEmptyValue(s.skillType)
    && s.inputs != [] && s.outputs != [] && Serialisable(s.context)
    && (forall i :: 0 <= i < |s.inputs| ==> InputRoundTrips(s.inputs[i]))
    && (forall i :: 0 <= i < |s.outputs| ==> OutputRoundTrips(s.outputs[i]))
  }

  /** The outputs as `load` returns them: the multiple-results flag is not serialised. */
  function ResetFlags(outs: seq<SkillOutput>): (r: seq<SkillOutput>)
    ensures |r| == |outs|
    ensures forall i :: 0 <= i < |outs| ==> r[i] == outs[i].(returnsMultipleResults := JBool(false))
  {
    seq(|outs|, i requires 0 <= i < |outs| => outs[i].(returnsMultipleResults := JBool(false)))
  }

  /** The payload of a round-trippable skill, entry by entry; the context entry is absent
      when the context is None. */
  function SkillWire(s: SkillSpec): Dict<Json>
  {
    if s.context.JNull? then
      [("@odata.type", s.skillType), ("inputs", JArr(InputDicts(s.inputs))),
       ("outputs", JArr(OutputDicts(s.outputs)))]
    else
      [("@odata.type", s.skillType), ("inputs", JArr(InputDicts(s.inputs))),
       ("outputs", JArr(OutputDicts(s.outputs))), ("context", s.context)]
  }

  lemma SkillDictForm(s: SkillSpec)
    requires SkillRoundTrips(s)
    ensures SkillToDict(s) == SkillWire(s)
  {
    SkillDictNoParams(s);
    SkillStrip(s);
  }

  lemma SkillDictNoParams(s: SkillSpec)
    requires s.params == []
    ensures SkillToDict(s) == RemoveEmptyValues(SkillFixed(s))
  {
    WireDictNoParams(SkillFixed(s));
    SkillFixedCamel(s);
  }

  lemma SkillStrip(s: SkillSpec)
    requires SkillRoundTrips(s)
    ensures RemoveEmptyValues(SkillFixed(s)) == SkillWire(s)
  {
    StripFour("@odata.type", s.skillType, "inputs", JArr(InputDicts(s.inputs)),
              "outputs", JArr(OutputDicts(s.outputs)), "context", s.context);
  }

  lemma SkillFixedCamel(s: SkillSpec)
    ensures ToCamelCaseDict(SkillFixed(s)) == SkillFixed(s)
  {
    ODataTypeKeyIsFixed();
    InputsKeyFixed();
    OutputsKeyFixed();
    ContextKeyFixed();
    Rekey4Identity("@odata.type", s.skillType, "inputs", JArr(InputDicts(s.inputs)),
                   "outputs", JArr(OutputDicts(s.outputs)), "context", s.context, ToCamelCase);
  }

  /** Stripping a four-entry dict whose first three values are non-empty drops at most
      the fourth entry, and drops it exactly when it is None. */
  lemma StripFour(k1: string, v1: Json, k2: string, v2: Json, k3: string, v3: Json, k4: string, v4: Json)
    requires !IsEmptyValue(v1) && !IsEmptyValue(v2) && !IsEmptyValue(v3) && Serialisable(v4)
    ensures RemoveEmptyValues([(k1, v1), (k2, v2), (k3, v3), (k4, v4)])
      == if v4.JNull? then [(k1, v1), (k2, v2), (k3, v3)] else [(k1, v1), (k2, v2), (k3, v3), (k4, v4)]
  {
    var head := [(k1, v1), (k2, v2), (k3, v3)];
    assert [(k1, v1), (k2, v2), (k3, v3), (k4, v4)] == head + [(k4, v4)];
    RemoveEmptyValuesAppend(head, [(k4, v4)]);
    RemoveEmptyValuesNone(head);
  }

  lemma LoadInputsBack(ins: seq<SkillInput>)
    requires forall i :: 0 <= i < |ins| ==> InputRoundTrips(ins[i])
    ensures LoadEach(JArr(InputDicts(ins)), LoadSkillInput) == Ok(ins)
  {
    forall i | 0 <= i < |ins| ensures LoadSkillInput(InputDicts(ins)[i]) == Ok(ins[i]) {
      SkillInputRoundTrip(ins[i]);
    }
    LoadItemsOk(InputDicts(ins), LoadSkillInput, ins);
  }

  lemma LoadOutputsBack(outs: seq<SkillOutput>)
    requires forall i :: 0 <= i < |outs| ==> OutputRoundTrips(outs[i])
    ensures LoadEach(JArr(OutputDicts(outs)), LoadSkillOutput) == Ok(ResetFlags(outs))
  {
    forall i | 0 <= i < |outs| ensures LoadSkillOutput(OutputDicts(outs)[i]) == Ok(ResetFlags(outs)[i]) {
      SkillOutputRoundTrip(outs[i]);
    }
    LoadItemsOk(OutputDicts(outs), LoadSkillOutput, ResetFlags(outs));
  }

  /** The keyword arguments `load` passes to the constructor for a serialised skill. */
  function LoadedKwargs(t: Json, ins: seq<SkillInput>, outs: seq<SkillOutput>, c: Json): Dict<SkillKw>
  {
    if c.JNull? then [("@odata.type", Plain(t)), ("inputs", Inputs(ins)), ("outputs", Outputs(outs))]
    else [("@odata.type", Plain(t)), ("inputs", Inputs(ins)), ("outputs", Outputs(outs)), ("context", Plain(c))]
  }

  /** `load` on a dict with the three required keys whose lists load: the loaded
      lists replace the raw ones, and the result goes through the constructor. */
  lemma LoadSkillOn(m: Dict<Json>, ins: seq<SkillInput>, outs: seq<SkillOutput>)
    requires HasKey(m, "@odata.type") && HasKey(m, "inputs") && HasKey(m, "outputs")
    requires LoadEach(Get(m, "outputs").value, LoadSkillOutput) == Ok(outs)
    requires LoadEach(Get(m, "inputs").value, LoadSkillInput) == Ok(ins)
    ensures LoadSkill(JObj(m)) == BuildSkill(m, outs, ins)
  {
    assert Truthy(JObj(m));
    var o := LoadEach(Get(m, "outputs").value, LoadSkillOutput);
    assert !o.IsFailure() && o.Extract() == outs;
  }

  /** The lists of a serialised skill load back. */
  lemma SkillWireLists(s: SkillSpec)
    requires SkillRoundTrips(s)
    ensures HasKey(SkillWire(s), "@odata.type") && HasKey(SkillWire(s), "inputs") && HasKey(SkillWire(s), "outputs")
    ensures LoadEach(Get(SkillWire(s), "outputs").value, LoadSkillOutput) == Ok(ResetFlags(s.outputs))
    ensures LoadEach(Get(SkillWire(s), "inputs").value, LoadSkillInput) == Ok(s.inputs)
  {
    var m := SkillWire(s);
    assert m[0].0 == "@odata.type" && m[1] == ("inputs", JArr(InputDicts(s.inputs)))
      && m[2] == ("outputs", JArr(OutputDicts(s.outputs)));
    PositionGet(m, 2, "outputs");
    PositionGet(m, 1, "inputs");
    LoadOutputsBack(s.outputs);
    LoadInputsBack(s.inputs);
  }

  /** The keyword dict of a serialised skill once the loaded lists are put in. */
  lemma SkillWireKwargs(s: SkillSpec, outs: seq<SkillOutput>)
    ensures Put(Put(PlainKw(SkillWire(s)), "outputs", Outputs(outs)), "inputs", Inputs(s.inputs))
      == LoadedKwargs(s.skillType, s.inputs, outs, s.context)
  {
    var w := SkillWire(s);
    var p := PlainKw(w);
    assert p[0] == ("@odata.type", Plain(s.skillType)) && p[1].0 == "inputs" && p[2].0 == "outputs";
    SwapLists(p, Outputs(outs), Inputs(s.inputs));
    assert |p| == if s.context.JNull? then 3 else 4;
    assert !s.context.JNull? ==> p[3] == ("context", Plain(s.context));
    SwappedForm(p, s.skillType, s.inputs, outs, s.context);
  }

  /** With the lists in place, the dict is the loaded keyword arguments. */
  lemma SwappedForm(p: Dict<SkillKw>, t: Json, ins: seq<SkillInput>, outs: seq<SkillOutput>, c: Json)
    requires |p| == (if c.JNull? then 3 else 4)
    requires p[0] == ("@odata.type", Plain(t)) && p[1].0 == "inputs" && p[2].0 == "outputs"
    requires !c.JNull? ==> p[3] == ("context", Plain(c))
    ensures p[2 := ("outputs", Outputs(outs))][1 := ("inputs", Inputs(ins))] == LoadedKwargs(t, ins, outs, c)
  {
  }

  /** Putting the lists into a dict that starts with the type, inputs and outputs
      overwrites them in place. */
  lemma SwapLists(p: Dict<SkillKw>, outputs: SkillKw, inputs: SkillKw)
    requires |p| >= 3 && p[0].0 == "@odata.type" && p[1].0 == "inputs" && p[2].0 == "outputs"
    ensures Put(Put(p, "outputs", outputs), "inputs", inputs) == p[2 := ("outputs", outputs)][1 := ("inputs", inputs)]
  {
    PutAt(p, 2, "outputs", outputs);
    PutAt(p[2 := ("outputs", outputs)], 1, "inputs", inputs);
  }

  lemma BuildSkillWire(s: SkillSpec, outs: seq<SkillOutput>)
    ensures BuildSkill(SkillWire(s), outs, s.inputs) == InitSkill(LoadedKwargs(s.skillType, s.inputs, outs, s.context))
  {
    SkillWireKwargs(s, outs);
    LoadedKwargsSnake(s.skillType, s.inputs, outs, s.context);
  }

  /** The loaded keyword arguments are already snake-cased. */
  lemma LoadedKwargsSnake(t: Json, ins: seq<SkillInput>, outs: seq<SkillOutput>, c: Json)
    ensures ToSnakeCaseDict(LoadedKwargs(t, ins, outs, c)) == LoadedKwargs(t, ins, outs, c)
  {
    ODataTypeKeyIsFixed();
    InputsKeyFixed();
    OutputsKeyFixed();
    ContextKeyFixed();
    if c.JNull? {
      Rekey3Identity("@odata.type", Plain(t), "inputs", Inputs(ins), "outputs", Outputs(outs), ToSnakeCase);
    } else {
      Rekey4Identity("@odata.type", Plain(t), "inputs", Inputs(ins), "outputs", Outputs(outs),
                     "context", Plain(c), ToSnakeCase);
    }
  }

  /** The constructor rebuilds the skill from the loaded keyword arguments. */
  lemma InitFromLoadedKwargs(t: Json, ins: seq<SkillInput>, outs: seq<SkillOutput>, c: Json)
    requires ins != [] && outs != []
    ensures InitSkill(LoadedKwargs(t, ins, outs, c)) == Ok(SkillSpec(t, ins, outs, c, [], None))
  {
    var kw := LoadedKwargs(t, ins, outs, c);
    assert kw[1] == ("inputs", Inputs(ins)) && kw[2] == ("outputs", Outputs(outs));
    assert Get(kw, "inputs") == Some(Inputs(ins));
    assert Get(kw, "outputs") == Some(Outputs(outs));
    assert HasKey(kw, "@odata.type") && Get(kw, "@odata.type") == Some(Plain(t));
    if c.JNull? {
      assert !HasKey(kw, "context");
    } else {
      assert kw[3] == ("context", Plain(c));
      assert Get(kw, "context") == Some(Plain(c));
    }
    WithoutEveryKey(kw, Reserved);
  }

  /** `Skill.load(skill.to_dict())` rebuilds the skill, with every output's
      multiple-results flag reset to False. */
  lemma SkillRoundTrip(s: SkillSpec)
    requires SkillRoundTrips(s)
    ensures LoadSkill(JObj(SkillToDict(s))) == Ok(s.(outputs := ResetFlags(s.outputs)))
  {
    SkillDictForm(s);
    SkillWireLists(s);
    LoadSkillOn(SkillWire(s), s.inputs, ResetFlags(s.outputs));
    BuildSkillWire(s, ResetFlags(s.outputs));
    InitFromLoadedKwargs(s.skillType, s.inputs, ResetFlags(s.outputs), s.context);
  }

  /** A skill without inputs serialises without an `inputs` key (the empty list is
      stripped), so `load` refuses its own output. */
  lemma NoInputsDoesNotRoundTrip(s: SkillSpec)
    requires s.params == [] && !IsEmptyValue(s.skillType) && s.inputs == []
    ensures LoadSkill(JObj(SkillToDict(s))) == Err(Exception("Please provide the skill inputs"))
  {
    SkillDictNoParams(s);
    NoInputsStripped(s);
  }

  lemma NoInputsStripped(s: SkillSpec)
    requires !IsEmptyValue(s.skillType) && s.inputs == []
    ensures HasKey(RemoveEmptyValues(SkillFixed(s)), "@odata.type")
    ensures !HasKey(RemoveEmptyValues(SkillFixed(s)), "inputs")
  {
    var fixed := SkillFixed(s);
    assert DistinctKeys(fixed);
    RemoveEmptyValuesKeeps(fixed, "@odata.type");
    RemoveEmptyValuesKeeps(fixed, "inputs");
    PositionGet(fixed, 1, "inputs");
  }
}
