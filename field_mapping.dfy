/** Field mappings: which field of the data source (or of an enriched document) feeds
    which field of the index, with an optional mapping function. */
module FieldMappings {
  import opened Wire
  import opened SearchObject

  /** A field mapping. The constructor binds exactly these three attributes and never
      calls the base constructor, so a mapping has no params bag. */
  datatype FieldMapping = FieldMapping(sourceFieldName: Json, targetFieldName: Json, mappingFunction: Json)

  /** `to_dict`: the three attributes under their wire names, without camel-casing, with
      the None and empty ones stripped. */
  function ToDict(fm: FieldMapping): (r: Dict<Json>)
    ensures DistinctKeys(r)
    ensures Get(r, "sourceFieldName") == Kept(Some(fm.sourceFieldName))
    ensures Get(r, "targetFieldName") == Kept(Some(fm.targetFieldName))
    ensures Get(r, "mappingFunction") == Kept(Some(fm.mappingFunction))
    ensures forall i :: 0 <= i < |r| ==>
      r[i].0 == "sourceFieldName" || r[i].0 == "targetFieldName" || r[i].0 == "mappingFunction"
  {
    var d := [("sourceFieldName", fm.sourceFieldName), ("targetFieldName", fm.targetFieldName),
              ("mappingFunction", fm.mappingFunction)];
    assert DistinctKeys(d);
    DistinctGet(d, "targetFieldName", fm.targetFieldName);
    DistinctGet(d, "mappingFunction", fm.mappingFunction);
    RemoveEmptyValuesKeeps(d, "sourceFieldName");
    RemoveEmptyValuesKeeps(d, "targetFieldName");
    RemoveEmptyValuesKeeps(d, "mappingFunction");
    var r := RemoveEmptyValues(d);
    assert forall i :: 0 <= i < |r| ==> r[i] in d;
    r
  }

  /** `load`: falsy data (None, an empty dict) and anything but a dict fail; any other
      dict loads, each present key giving its value and each missing key None. */
  function Load(data: Json): (r: Result<FieldMapping>)
    ensures !Truthy(data) ==> r == Err(Exception("data is Null"))
    ensures Truthy(data) && !data.JObj? ==> r == Err(Exception("Failed to load class"))
    ensures r.Ok? ==> data.JObj? && forall k :: HasKey(data.members, k) ==>
      (k == "sourceFieldName" ==> Get(data.members, k) == Some(r.value.sourceFieldName))
      && (k == "targetFieldName" ==> Get(data.members, k) == Some(r.value.targetFieldName))
      && (k == "mappingFunction" ==> Get(data.members, k) == Some(r.value.mappingFunction))
    ensures Truthy(data) && data.JObj? ==> r.Ok?
    ensures r.Ok? && !HasKey(data.members, "sourceFieldName") ==> r.value.sourceFieldName == JNull
    ensures r.Ok? && !HasKey(data.members, "targetFieldName") ==> r.value.targetFieldName == JNull
    ensures r.Ok? && !HasKey(data.members, "mappingFunction") ==> r.value.mappingFunction == JNull
  {
    if !Truthy(data) then Err(Exception("data is Null"))
    else if !data.JObj? then Err(Exception("Failed to load class"))
    else
      var m := data.members;
      Ok(FieldMapping(GetOr(m, "sourceFieldName", JNull), GetOr(m, "targetFieldName", JNull),
                      GetOr(m, "mappingFunction", JNull)))
  }

  /** An attribute that survives serialisation: None (absent, and restored as None by
      `load`) or a non-empty value. */
  predicate Serialisable(v: Json)
  {
    v.JNull? || !IsEmptyValue(v)
  }

  /** `load(to_dict(fm))` gives fm back when no attribute is an empty string or container
      and at least one attribute is set. */
  lemma RoundTrip(fm: FieldMapping)
    requires Serialisable(fm.sourceFieldName) && Serialisable(fm.targetFieldName)
      && Serialisable(fm.mappingFunction)
    requires !(fm.sourceFieldName.JNull? && fm.targetFieldName.JNull? && fm.mappingFunction.JNull?)
    ensures Load(JObj(ToDict(fm))) == Ok(fm)
  {
    var d := ToDict(fm);
    if !fm.sourceFieldName.JNull? {
      assert HasKey(d, "sourceFieldName");
    } else if !fm.targetFieldName.JNull? {
      assert HasKey(d, "targetFieldName");
    } else {
      assert HasKey(d, "mappingFunction");
    }
    assert d != [];
  }

  /** A mapping with every attribute None serialises to `{}`, which `load` rejects. */
  lemma AllNoneDoesNotRoundTrip()
    ensures ToDict(FieldMapping(JNull, JNull, JNull)) == []
    ensures Load(JObj(ToDict(FieldMapping(JNull, JNull, JNull)))) == Err(Exception("data is Null"))
  {
  }

  /** An empty-string target is dropped by `to_dict` and comes back from `load` as None. */
  lemma EmptyTargetComesBackAsNone()
    ensures Load(JObj(ToDict(FieldMapping(JStr("content"), JStr(""), JNull))))
      == Ok(FieldMapping(JStr("content"), JNull, JNull))
  {
    var d := ToDict(FieldMapping(JStr("content"), JStr(""), JNull));
    assert HasKey(d, "sourceFieldName");
  }
}
