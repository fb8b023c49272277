/** Suggesters of an index: a named set of source fields that type-ahead queries
    complete from. */
module Suggesters {
  import opened Wire
  import opened SearchObject

  const DefaultSearchMode := "analyzingInfixMatching"

  /** A suggester. sourceFields is the value given to the constructor, which `to_dict`
      iterates. */
  datatype Suggester = Suggester(name: Json, sourceFields: Json, searchMode: Json, params: Dict<Json>)

  /** `Suggester(name, source_fields, search_mode="analyzingInfixMatching", **kwargs)`,
      called with keyword arguments: name and source_fields are required, and the rest
      goes to the API-call base class. */
  function NewSuggester(kw: Dict<Json>): (r: Result<Suggester>)
    ensures r.Ok? <==> HasKey(kw, "name") && HasKey(kw, "source_fields") && !HasKey(kw, "service_name")
    ensures !HasKey(kw, "name") ==> r == Err(MissingArgument("name"))
    ensures r.Ok? ==> r.value.name == Get(kw, "name").value && r.value.sourceFields == Get(kw, "source_fields").value
    ensures r.Ok? ==> r.value.searchMode == GetOr(kw, "search_mode", JStr(DefaultSearchMode))
    ensures r.Ok? ==> r.value.params == WithoutKeys(kw, {"name", "source_fields", "search_mode", "endpoint"})
  {
    if !HasKey(kw, "name") then Err(MissingArgument("name"))
    else if !HasKey(kw, "source_fields") then Err(MissingArgument("source_fields"))
    else
      var rest := WithoutKeys(kw, {"name", "source_fields", "search_mode"});
      WithoutKeysGet(kw, {"name", "source_fields", "search_mode"}, "service_name");
      WithoutKeysTwice(kw, {"name", "source_fields", "search_mode"}, {"endpoint"});
      assert {"name", "source_fields", "search_mode"} + {"endpoint"} == {"name", "source_fields", "search_mode", "endpoint"};
      var params :- ApiParams(rest);
      Ok(Suggester(Get(kw, "name").value, Get(kw, "source_fields").value,
                   GetOr(kw, "search_mode", JStr(DefaultSearchMode)), params))
  }

  /** `[field for field in source_fields]`: a list is copied element by element, a string
      gives its characters and a dict its keys; anything else cannot be iterated. */
  function ListCopy(j: Json): (r: Result<Json>)
    ensures r.Ok? <==> HasLen(j)
    ensures r.Ok? ==> r.value.JArr? && |r.value.items| == Len(j)
    ensures j.JArr? ==> r == Ok(j)
    ensures j.JStr? ==> r.Ok? && forall i :: 0 <= i < |j.s| ==> r.value.items[i] == JStr([j.s[i]])
    ensures j.JObj? ==> r.Ok? && forall i :: 0 <= i < |j.members| ==> r.value.items[i] == JStr(j.members[i].0)
  {
    match j
    case JArr(items) => Ok(JArr(items))
    case JStr(s) => Ok(JArr(seq(|s|, i requires 0 <= i < |s| => JStr([s[i]]))))
    case JObj(m) => Ok(JArr(seq(|m|, i requires 0 <= i < |m| => JStr(m[i].0))))
    case _ => Err(TypeError("object is not iterable"))
  }

  function SuggesterFixed(s: Suggester, fields: Json): Dict<Json>
  {
    [("name", s.name), ("sourceFields", fields), ("searchMode", s.searchMode)]
  }

  /** `Suggester.to_dict`. */
  function SuggesterToDict(s: Suggester): (r: Result<Dict<Json>>)
    ensures r.Ok? <==> HasLen(s.sourceFields)
  {
    var fields :- ListCopy(s.sourceFields);
    Ok(WireDict(SuggesterFixed(s, fields), s.params))
  }

  /** `Suggester.load`, the generic load. */
  function LoadSuggester(data: Json): (r: Result<Suggester>)
    ensures !data.JObj? ==> r == Err(Exception("Failed to parse input as Dict"))
  {
    var kw :- LoadKwargs(data);
    NewSuggester(kw)
  }

  // ----- lemmas -----

  lemma SourceFieldsKey()
    ensures ToCamelCase("source_fields") == "sourceFields" && ToSnakeCase("sourceFields") == "source_fields"
  {
    KeyFormsAt(["source", "fields"], "source_fields", "sourceFields");
  }

  lemma SearchModeKey()
    ensures ToCamelCase("search_mode") == "searchMode" && ToSnakeCase("searchMode") == "search_mode"
  {
    KeyFormsAt(["search", "mode"], "search_mode", "searchMode");
  }

  lemma NameKey()
    ensures ToCamelCase("name") == "name" && ToSnakeCase("name") == "name"
  {
    FixedKey("name");
  }

  /** The wire keys are already camel-cased. */
  lemma SuggesterFixedCamel(s: Suggester, fields: Json)
    ensures ToCamelCaseDict(SuggesterFixed(s, fields)) == SuggesterFixed(s, fields)
  {
    NameKey();
    CamelIdentity("sourceFields");
    CamelIdentity("searchMode");
    Rekey3Identity("name", s.name, "sourceFields", fields, "searchMode", s.searchMode, ToCamelCase);
  }

  /** Without params, `to_dict` sends the name, the copied source fields and the search
      mode, each unless it is None or empty. */
  lemma SuggesterWire(s: Suggester)
    requires s.params == [] && HasLen(s.sourceFields)
    ensures var d := SuggesterToDict(s).value; var fields := ListCopy(s.sourceFields).value;
      && Get(d, "name") == Kept(Some(s.name))
      && Get(d, "sourceFields") == Kept(Some(fields))
      && Get(d, "searchMode") == Kept(Some(s.searchMode))
  {
    var fields := ListCopy(s.sourceFields).value;
    var fixed := SuggesterFixed(s, fields);
    WireDictNoParams(fixed);
    SuggesterFixedCamel(s, fields);
    StrippedGet(fixed, 0, "name");
    StrippedGet(fixed, 1, "sourceFields");
    StrippedGet(fixed, 2, "searchMode");
  }

  /** A suggester built without a search mode uses analyzing infix matching. */
  lemma DefaultMode(kw: Dict<Json>)
    requires NewSuggester(kw).Ok? && !HasKey(kw, "search_mode")
    ensures NewSuggester(kw).value.searchMode == JStr("analyzingInfixMatching")
  {
  }

  const SuggesterKeys: seq<string> := ["name", "sourceFields", "searchMode"]

  lemma SuggesterKeysNoUnderscore(i: nat)
    requires i < |SuggesterKeys|
    ensures '_' !in SuggesterKeys[i]
  {
  }

  /** A param whose key camel-cases onto a wire key replaces the fixed entry, when no
      other param lands on the same key. */
  lemma SuggesterParamWins(s: Suggester, k: string)
    requires HasLen(s.sourceFields) && DistinctKeys(s.params) && HasKey(s.params, k)
    requires forall x :: HasKey(s.params, x) && x != k ==> ToCamelCase(x) != ToCamelCase(k)
    ensures Get(SuggesterToDict(s).value, ToCamelCase(k)) == Kept(Get(s.params, k))
  {
    var fixed := SuggesterFixed(s, ListCopy(s.sourceFields).value);
    SuggesterKeysCamel(fixed);
    ParamWins(fixed, s.params, k);
  }

  /** The entries of a suggester's keyword arguments after `to_dict` and `load`. */
  lemma SnakeWire(n: Json, fields: Json, mode: Json)
    ensures ToSnakeCaseDict([("name", n), ("sourceFields", fields), ("searchMode", mode)])
      == [("name", n), ("source_fields", fields), ("search_mode", mode)]
  {
    NameKey();
    SourceFieldsKey();
    SearchModeKey();
    Rekey3("name", n, "sourceFields", fields, "searchMode", mode, ToSnakeCase);
  }

  lemma NewFromWire(n: Json, fields: Json, mode: Json)
    ensures NewSuggester([("name", n), ("source_fields", fields), ("search_mode", mode)])
      == Ok(Suggester(n, fields, mode, []))
  {
    var kw := [("name", n), ("source_fields", fields), ("search_mode", mode)];
    var names := {"name", "source_fields", "search_mode"};
    assert WithoutKeys(kw[2..], names) == [];
    assert WithoutKeys(kw[1..], names) == [];
    assert WithoutKeys(kw, names) == [];
  }

  /** A suggester whose entries are all non-empty is sent as its fixed dict. */
  lemma SuggesterDictFixed(s: Suggester)
    requires s.params == [] && s.sourceFields.JArr?
    requires !IsEmptyValue(s.name) && !IsEmptyValue(s.sourceFields) && !IsEmptyValue(s.searchMode)
    ensures SuggesterToDict(s) == Ok(SuggesterFixed(s, s.sourceFields))
  {
    assert SuggesterToDict(s) == Ok(WireDict(SuggesterFixed(s, s.sourceFields), []));
    FixedSent(s, s.sourceFields);
  }

  lemma FixedSent(s: Suggester, fields: Json)
    requires !IsEmptyValue(s.name) && !IsEmptyValue(fields) && !IsEmptyValue(s.searchMode)
    ensures WireDict(SuggesterFixed(s, fields), []) == SuggesterFixed(s, fields)
  {
    FixedDictSent(SuggesterFixed(s, fields));
  }

  lemma FixedDictSent(fixed: Dict<Json>)
    requires |fixed| == |SuggesterKeys| && forall i :: 0 <= i < |fixed| ==> fixed[i].0 == SuggesterKeys[i]
    requires forall i :: 0 <= i < |fixed| ==> !IsEmptyValue(fixed[i].1)
    ensures WireDict(fixed, []) == fixed
  {
    SuggesterKeysCamel(fixed);
    SuggesterKeysDistinct();
    assert DistinctKeys(fixed);
    WireDictPlain(fixed);
  }

  lemma SuggesterKeysDistinct()
    ensures forall i, j :: 0 <= i < j < |SuggesterKeys| ==> SuggesterKeys[i] != SuggesterKeys[j]
  {
  }

  /** The fixed keys are camel-cased already. */
  lemma SuggesterKeysCamel(fixed: Dict<Json>)
    requires |fixed| == |SuggesterKeys| && forall i :: 0 <= i < |fixed| ==> fixed[i].0 == SuggesterKeys[i]
    ensures forall i :: 0 <= i < |fixed| ==> ToCamelCase(fixed[i].0) == fixed[i].0
  {
    forall i | 0 <= i < |SuggesterKeys| ensures ToCamelCase(SuggesterKeys[i]) == SuggesterKeys[i] {
      SuggesterKeysNoUnderscore(i);
      CamelIdentity(SuggesterKeys[i]);
    }
  }

  lemma LoadWire(n: Json, fields: Json, mode: Json)
    ensures LoadSuggester(JObj([("name", n), ("sourceFields", fields), ("searchMode", mode)]))
      == Ok(Suggester(n, fields, mode, []))
  {
    SnakeWire(n, fields, mode);
    NewFromWire(n, fields, mode);
  }

  /** `Suggester.load(s.to_dict())` gives back a suggester whose name, source field list
      and search mode are not empty. */
  lemma SuggesterRoundTrip(s: Suggester)
    requires s.params == [] && s.sourceFields.JArr?
    requires !IsEmptyValue(s.name) && !IsEmptyValue(s.sourceFields) && !IsEmptyValue(s.searchMode)
    ensures SuggesterToDict(s).Ok? && LoadSuggester(JObj(SuggesterToDict(s).value)) == Ok(s)
  {
    SuggesterDictFixed(s);
    LoadWire(s.name, s.sourceFields, s.searchMode);
  }
}
