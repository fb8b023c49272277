/** Skillsets: a named, ordered list of skills sent to the service with the key of the
    Cognitive Services account that bills them. */
module Skillsets {
  import opened Wire
  import opened SearchObject
  import opened FieldMappings
  import opened Skills

  /** A skillset. The skills are held by value. */
  datatype Skillset = Skillset(name: Json, skills: seq<SkillSpec>, description: Json,
                               cognitiveServicesKey: Json, params: Dict<Json>)

  /** The `skills` argument: None, a list of skill objects, or some other value. */
  datatype SkillsArg = NoSkills | SkillObjects(objs: seq<SkillSpec>) | PlainSkills(j: Json)

  /** `Skillset(skills, name, description, cognitive_services_key, **kwargs)`: None or an
      empty list of skills raises, and so does a first element that is not a skill. */
  function NewSkillset(skills: SkillsArg, name: Json, description: Json, key: Json, kwargs: Dict<Json>)
    : (r: Result<Skillset>)
    ensures r.Ok? <==> skills.SkillObjects? && skills.objs != [] && !HasKey(kwargs, "service_name")
    ensures (skills.NoSkills? || (skills.PlainSkills? && skills.j.JNull?)) && !HasKey(kwargs, "service_name") ==>
      r == Err(Exception("A skillset must have at least one skill"))
    ensures r.Ok? ==> r.value == Skillset(name, skills.objs, description, key, WithoutKeys(kwargs, {"endpoint"}))
  {
    var params :- ApiParams(kwargs);
    match skills
    case NoSkills => Err(Exception("A skillset must have at least one skill"))
    case SkillObjects(objs) =>
      if objs == [] then Err(Exception("A skillset must have at least one skill"))
      else Ok(Skillset(name, objs, description, key, params))
    case PlainSkills(j) =>
      if j.JNull? then Err(Exception("A skillset must have at least one skill"))
      else if !HasLen(j) then Err(TypeError("object has no len()"))
      else if Len(j) == 0 then Err(Exception("A skillset must have at least one skill"))
      else
        var _ :- IndexZero(j);
        Err(Exception("Skills must be of type 'Skill'"))
  }

  /** The block that names the billing account: its type and description are fixed. */
  function CognitiveServices(key: Json): Json
  {
    JObj([("@odata.type", JStr("#Microsoft.Azure.Search.CognitiveServicesByKey")),
          ("description", JStr("mycogsvcs")), ("key", key)])
  }

  function SkillDicts(skills: seq<SkillSpec>): (r: seq<Json>)
    ensures |r| == |skills|
    ensures forall i :: 0 <= i < |skills| ==> r[i] == JObj(SkillToDict(skills[i]))
  {
    seq(|skills|, i requires 0 <= i < |skills| => JObj(SkillToDict(skills[i])))
  }

  function SkillsetFixed(ss: Skillset): Dict<Json>
  {
    [("name", ss.name), ("description", ss.description), ("skills", JArr(SkillDicts(ss.skills))),
     ("cognitive_services", CognitiveServices(ss.cognitiveServicesKey))]
  }

  /** `Skillset.to_dict`. */
  function SkillsetToDict(ss: Skillset): Dict<Json>
  {
    WireDict(SkillsetFixed(ss), ss.params)
  }

  /** `data[k]` on a decoded value with a string key: dicts look the key up, and every
      other value raises. */
  function Subscript(j: Json, k: string): (r: Result<Json>)
    ensures j.JObj? && HasKey(j.members, k) ==> r == Ok(Get(j.members, k).value)
    ensures j.JObj? && !HasKey(j.members, k) ==> r == Err(KeyError)
    ensures !j.JObj? ==> r.Err? && r.exc.TypeError?
  {
    match j
    case JObj(m) => if HasKey(m, k) then Ok(Get(m, k).value) else Err(KeyError)
    case JArr(_) => Err(TypeError("list indices must be integers or slices, not str"))
    case JStr(_) => Err(TypeError("string indices must be integers"))
    case _ => Err(TypeError("object is not subscriptable"))
  }

  /** `Skillset.load`: a non-dict and a missing `skills` key raise; the skills are loaded
      one by one; a missing name becomes None and a missing description `''`; the key is
      read from the `cognitiveServices` block; every other key is dropped. */
  function LoadSkillset(data: Json): (r: Result<Skillset>)
    ensures !data.JObj? ==> r == Err(Exception("Failed to parse input as Dict"))
    ensures data.JObj? && !HasKey(data.members, "skills") ==> r == Err(Exception("Skills not found"))
    ensures r.Ok? ==> r.value.params == [] && r.value.skills != []
    ensures r.Ok? ==> (r.value.name == GetOr(data.members, "name", JNull)
                       && r.value.description == GetOr(data.members, "description", JStr("")))
    ensures r.Ok? && !HasKey(data.members, "cognitiveServices") ==> r.value.cognitiveServicesKey == JNull
  {
    if !data.JObj? then Err(Exception("Failed to parse input as Dict"))
    else
      var m := data.members;
      if !HasKey(m, "skills") then Err(Exception("Skills not found"))
      else
        var skills :- LoadEach(Get(m, "skills").value, LoadSkill);
        var key :- if HasKey(m, "cognitiveServices") then Subscript(Get(m, "cognitiveServices").value, "key")
                   else Ok(JNull);
        NewSkillset(SkillObjects(skills), GetOr(m, "name", JNull), GetOr(m, "description", JStr("")), key, [])
  }

  // ----- get_output_field_mappings -----

  /** The output field mappings of the skills, concatenated in skill order. A skill that
      has none (only the predefined skills set them) raises AttributeError. */
  function SkillsetOutputFieldMappings(skills: seq<SkillSpec>): (r: Result<seq<FieldMapping>>)
    ensures r.Ok? <==> forall i :: 0 <= i < |skills| ==> skills[i].outputFieldMapping.Some?
    ensures r.Err? ==> r == Err(AttributeError("output_field_mapping"))
    decreases |skills|
  {
    if skills == [] then Ok([])
    else
      var init :- SkillsetOutputFieldMappings(skills[..|skills| - 1]);
      var last := skills[|skills| - 1].outputFieldMapping;
      if last.None? then Err(AttributeError("output_field_mapping")) else Ok(init + last.value)
  }

  /** `get_output_field_mappings`. */
  method GetOutputFieldMappings(ss: Skillset) returns (r: Result<seq<FieldMapping>>)
    ensures r == SkillsetOutputFieldMappings(ss.skills)
  {
    var ofm: seq<FieldMapping> := [];
    var k := 0;
    while k < |ss.skills|
      invariant 0 <= k <= |ss.skills|
      invariant SkillsetOutputFieldMappings(ss.skills[..k]) == Ok(ofm)
    {
      assert ss.skills[..k + 1][..k] == ss.skills[..k];
      var own := ss.skills[k].outputFieldMapping;
      if own.None? {
        assert ss.skills[..k + 1][k] == ss.skills[k];
        return Err(AttributeError("output_field_mapping"));
      }
      ofm := ofm + own.value;
      k := k + 1;
    }
    assert ss.skills[..k] == ss.skills;
    return Ok(ofm);
  }

  /** Every mapping of every skill is in the result, and the result holds nothing else;
      the result is as long as all the skills' mappings together. */
  lemma {:induction false} OutputFieldMappingsCollect(skills: seq<SkillSpec>)
    requires SkillsetOutputFieldMappings(skills).Ok?
    ensures var r := SkillsetOutputFieldMappings(skills).value;
      && |r| == TotalMappings(skills)
      && (forall i, j :: 0 <= i < |skills| && 0 <= j < |skills[i].outputFieldMapping.value| ==>
            skills[i].outputFieldMapping.value[j] in r)
      && (forall x :: x in r ==> exists i :: 0 <= i < |skills| && x in skills[i].outputFieldMapping.value)
    decreases |skills|
  {
    if skills != [] {
      var init := skills[..|skills| - 1];
      OutputFieldMappingsCollect(init);
      var r := SkillsetOutputFieldMappings(skills).value;
      var last := skills[|skills| - 1].outputFieldMapping.value;
      assert r == SkillsetOutputFieldMappings(init).value + last;
      forall i, j | 0 <= i < |skills| && 0 <= j < |skills[i].outputFieldMapping.value|
        ensures skills[i].outputFieldMapping.value[j] in r
      {
        if i < |skills| - 1 {
          assert skills[i] == init[i];
        }
      }
      forall x | x in r ensures exists i :: 0 <= i < |skills| && x in skills[i].outputFieldMapping.value {
        if x !in last {
          var i :| 0 <= i < |init| && x in init[i].outputFieldMapping.value;
          assert init[i] == skills[i];
        }
      }
    }
  }

  /** How many output field mappings the skills have together. */
  function TotalMappings(skills: seq<SkillSpec>): nat
    requires forall i :: 0 <= i < |skills| ==> skills[i].outputFieldMapping.Some?
    decreases |skills|
  {
    if skills == [] then 0
    else TotalMappings(skills[..|skills| - 1]) + |skills[|skills| - 1].outputFieldMapping.value|
  }

  // ----- the skillset round trip -----

  lemma SkillsKeyFixed()
    ensures ToCamelCase("skills") == "skills" && ToSnakeCase("skills") == "skills"
  {
    FixedKey("skills");
  }

  lemma DescriptionKeyFixed()
    ensures ToCamelCase("description") == "description" && ToSnakeCase("description") == "description"
  {
    FixedKey("description");
  }

  lemma CognitiveServicesSegments()
    ensures RoundTripSegments(["cognitive", "services"])
    ensures Join(["cognitive", "services"]) == "cognitive_services"
    ensures CamelJoin(["cognitive", "services"]) == "cognitiveServices"
  {
  }

  /** `cognitive_services` is sent as `cognitiveServices`. */
  lemma CognitiveServicesKey()
    ensures ToCamelCase("cognitive_services") == "cognitiveServices"
    ensures ToSnakeCase("cognitiveServices") == "cognitive_services"
  {
    CognitiveServicesSegments();
    KeyFormsAt(["cognitive", "services"], "cognitive_services", "cognitiveServices");
  }

  /** The camel-cased fixed dict of a skillset. */
  function SkillsetCamel(ss: Skillset): Dict<Json>
  {
    [("name", ss.name), ("description", ss.description), ("skills", JArr(SkillDicts(ss.skills))),
     ("cognitiveServices", CognitiveServices(ss.cognitiveServicesKey))]
  }

  lemma SkillsetDictCamel(ss: Skillset)
    requires ss.params == []
    ensures SkillsetToDict(ss) == RemoveEmptyValues(SkillsetCamel(ss))
  {
    WireDictNoParams(SkillsetFixed(ss));
    SkillsetFixedCamel(ss);
  }

  lemma SkillsetFixedCamel(ss: Skillset)
    ensures ToCamelCaseDict(SkillsetFixed(ss)) == SkillsetCamel(ss)
  {
    NameKeyFixed();
    DescriptionKeyFixed();
    SkillsKeyFixed();
    CognitiveServicesKey();
    Rekey4("name", ss.name, "description", ss.description, "skills", JArr(SkillDicts(ss.skills)),
           "cognitive_services", CognitiveServices(ss.cognitiveServicesKey), ToCamelCase);
  }

  lemma SkillsetCamelDistinct(ss: Skillset)
    ensures DistinctKeys(SkillsetCamel(ss))
  {
  }

  /** The entries `load` reads from a serialised skillset: the name and description when
      they are not empty, the skills when there are any, and the account block always. */
  lemma SkillsetWireGets(ss: Skillset)
    requires ss.params == []
    ensures var m := SkillsetToDict(ss);
      && Get(m, "name") == Kept(Some(ss.name))
      && Get(m, "description") == Kept(Some(ss.description))
      && Get(m, "skills") == Kept(Some(JArr(SkillDicts(ss.skills))))
      && Get(m, "cognitiveServices") == Some(CognitiveServices(ss.cognitiveServicesKey))
  {
    SkillsetDictCamel(ss);
    NameEntry(ss);
    DescriptionEntry(ss);
    SkillsEntry(ss);
    CognitiveServicesEntry(ss);
  }

  lemma NameEntry(ss: Skillset)
    ensures Get(RemoveEmptyValues(SkillsetCamel(ss)), "name") == Kept(Some(ss.name))
  {
    SkillsetCamelDistinct(ss);
    StrippedGet(SkillsetCamel(ss), 0, "name");
  }

  lemma DescriptionEntry(ss: Skillset)
    ensures Get(RemoveEmptyValues(SkillsetCamel(ss)), "description") == Kept(Some(ss.description))
  {
    SkillsetCamelDistinct(ss);
    StrippedGet(SkillsetCamel(ss), 1, "description");
  }

  lemma SkillsEntry(ss: Skillset)
    ensures Get(RemoveEmptyValues(SkillsetCamel(ss)), "skills") == Kept(Some(JArr(SkillDicts(ss.skills))))
  {
    SkillsetCamelDistinct(ss);
    StrippedGet(SkillsetCamel(ss), 2, "skills");
  }

  lemma CognitiveServicesEntry(ss: Skillset)
    ensures Get(RemoveEmptyValues(SkillsetCamel(ss)), "cognitiveServices")
      == Some(CognitiveServices(ss.cognitiveServicesKey))
  {
    SkillsetCamelDistinct(ss);
    StrippedGet(SkillsetCamel(ss), 3, "cognitiveServices");
  }

  /** A skill as `load` returns it: the multiple-results flags of its outputs reset. */
  function Reloaded(s: SkillSpec): SkillSpec
  {
    s.(outputs := ResetFlags(s.outputs))
  }

  function ReloadedAll(skills: seq<SkillSpec>): (r: seq<SkillSpec>)
    ensures |r| == |skills|
    ensures forall i :: 0 <= i < |skills| ==> r[i] == Reloaded(skills[i])
  {
    seq(|skills|, i requires 0 <= i < |skills| => Reloaded(skills[i]))
  }

  lemma LoadSkillsBack(skills: seq<SkillSpec>)
    requires forall i :: 0 <= i < |skills| ==> SkillRoundTrips(skills[i])
    ensures LoadEach(JArr(SkillDicts(skills)), LoadSkill) == Ok(ReloadedAll(skills))
  {
    forall i | 0 <= i < |skills| ensures LoadSkill(SkillDicts(skills)[i]) == Ok(ReloadedAll(skills)[i]) {
      SkillRoundTrip(skills[i]);
    }
    LoadItemsOk(SkillDicts(skills), LoadSkill, ReloadedAll(skills));
  }

  lemma CognitiveServicesKeyBack(key: Json)
    ensures Subscript(CognitiveServices(key), "key") == Ok(key)
  {
    PositionGet(CognitiveServices(key).members, 2, "key");
  }

  /** `load` on a dict whose skills and account block load. */
  lemma LoadSkillsetOn(m: Dict<Json>, skills: seq<SkillSpec>, key: Json)
    requires skills != []
    requires Get(m, "skills").Some? && LoadEach(Get(m, "skills").value, LoadSkill) == Ok(skills)
    requires Get(m, "cognitiveServices").Some? && Subscript(Get(m, "cognitiveServices").value, "key") == Ok(key)
    ensures LoadSkillset(JObj(m))
      == Ok(Skillset(GetOr(m, "name", JNull), skills, GetOr(m, "description", JStr("")), key, []))
  {
  }

  /** What `load` reads from the payload of a round-trippable skillset. */
  lemma SkillsetWireReads(ss: Skillset)
    requires ss.params == [] && ss.skills != []
    requires forall i :: 0 <= i < |ss.skills| ==> SkillRoundTrips(ss.skills[i])
    ensures var m := SkillsetToDict(ss);
      && Get(m, "skills").Some? && LoadEach(Get(m, "skills").value, LoadSkill) == Ok(ReloadedAll(ss.skills))
      && Get(m, "cognitiveServices").Some?
      && Subscript(Get(m, "cognitiveServices").value, "key") == Ok(ss.cognitiveServicesKey)
  {
    SkillsetWireGets(ss);
    var m := SkillsetToDict(ss);
    SkillsEntryLoads(m, ss.skills);
    KeyEntryReads(m, ss.cognitiveServicesKey);
  }

  lemma SkillsEntryLoads(m: Dict<Json>, skills: seq<SkillSpec>)
    requires skills != [] && Get(m, "skills") == Kept(Some(JArr(SkillDicts(skills))))
    requires forall i :: 0 <= i < |skills| ==> SkillRoundTrips(skills[i])
    ensures Get(m, "skills").Some? && LoadEach(Get(m, "skills").value, LoadSkill) == Ok(ReloadedAll(skills))
  {
    LoadSkillsBack(skills);
  }

  lemma KeyEntryReads(m: Dict<Json>, key: Json)
    requires Get(m, "cognitiveServices") == Some(CognitiveServices(key))
    ensures Subscript(Get(m, "cognitiveServices").value, "key") == Ok(key)
  {
    CognitiveServicesKeyBack(key);
  }

  /** The name and description `load` falls back to for a serialised skillset. */
  lemma SkillsetWireDefaults(ss: Skillset)
    requires ss.params == []
    ensures var m := SkillsetToDict(ss);
      && GetOr(m, "name", JNull) == (if IsEmptyValue(ss.name) then JNull else ss.name)
      && GetOr(m, "description", JStr("")) == (if IsEmptyValue(ss.description) then JStr("") else ss.description)
  {
    SkillsetWireGets(ss);
  }

  /** `Skillset.load(skillset.to_dict())` rebuilds the skillset: an empty name comes back
      as None, an empty description as `''`, the skills as their own round trips give
      them, and the key from the account block, which is always sent. */
  lemma SkillsetRoundTrip(ss: Skillset)
    requires ss.params == [] && ss.skills != []
    requires forall i :: 0 <= i < |ss.skills| ==> SkillRoundTrips(ss.skills[i])
    ensures LoadSkillset(JObj(SkillsetToDict(ss))) == Ok(Skillset(
      if IsEmptyValue(ss.name) then JNull else ss.name,
      ReloadedAll(ss.skills),
      if IsEmptyValue(ss.description) then JStr("") else ss.description,
      ss.cognitiveServicesKey, []))
  {
    SkillsetWireReads(ss);
    SkillsetWireDefaults(ss);
    LoadSkillsetOn(SkillsetToDict(ss), ReloadedAll(ss.skills), ss.cognitiveServicesKey);
  }

  lemma NoSkillsStripped(ss: Skillset)
    requires ss.params == [] && ss.skills == []
    ensures !HasKey(SkillsetToDict(ss), "skills")
  {
    SkillsetWireGets(ss);
    EmptySkillsDropped();
  }

  lemma EmptySkillsDropped()
    ensures Kept(Some(JArr(SkillDicts([])))) == None
  {
    assert SkillDicts([]) == [];
  }

  /** An empty skill list is stripped from the payload, so `load` reports it missing. */
  lemma NoSkillsNotFound(ss: Skillset)
    requires ss.params == [] && ss.skills == []
    ensures LoadSkillset(JObj(SkillsetToDict(ss))) == Err(Exception("Skills not found"))
  {
    NoSkillsStripped(ss);
  }
}
