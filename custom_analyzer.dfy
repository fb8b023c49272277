/** Custom analyzers of an index: a tokenizer with character and token filters, sent with
    its OData type. */
module Analyzers {
  import opened Wire
  import opened SearchObject

  const DefaultAnalyzerType := "#Microsoft.Azure.Search.CustomAnalyzer"

  /** A custom analyzer. indexName, name and analyzerType are what the abstract analyzer
      base stores. */
  datatype CustomAnalyzer = CustomAnalyzer(
    indexName: Json, name: Json, analyzerType: Json,
    charFilters: Json, tokenizer: Json, tokenFilters: Json, params: Dict<Json>)

  const AnalyzerParameters: set<string> := {"name", "index_name", "analyzer_type", "char_filters",
    "tokenizer", "token_filters"}

  /** `CustomAnalyzer(name, index_name=None, analyzer_type=..., char_filters=None,
      tokenizer=None, token_filters=None, **kwargs)`, called with keyword arguments: the
      remaining arguments are the params bag. */
  function NewCustomAnalyzer(kw: Dict<Json>): (r: Result<CustomAnalyzer>)
    ensures r.Ok? <==> HasKey(kw, "name")
    ensures !HasKey(kw, "name") ==> r == Err(MissingArgument("name"))
    ensures r.Ok? ==> r.value.name == Get(kw, "name").value
    ensures r.Ok? ==> r.value.indexName == GetOr(kw, "index_name", JNull)
    ensures r.Ok? ==> r.value.analyzerType == GetOr(kw, "analyzer_type", JStr(DefaultAnalyzerType))
    ensures r.Ok? ==> r.value.params == WithoutKeys(kw, AnalyzerParameters)
  {
    if !HasKey(kw, "name") then Err(MissingArgument("name"))
    else Ok(CustomAnalyzer(GetOr(kw, "index_name", JNull), Get(kw, "name").value,
      GetOr(kw, "analyzer_type", JStr(DefaultAnalyzerType)), GetOr(kw, "char_filters", JNull),
      GetOr(kw, "tokenizer", JNull), GetOr(kw, "token_filters", JNull), WithoutKeys(kw, AnalyzerParameters)))
  }

  /** The fixed keys `to_dict` builds, before camel-casing. */
  const AnalyzerKeys: seq<string> := ["name", "@odata.type", "charFilters", "tokenizer", "token_filters"]

  /** The same keys after camel-casing: the keys on the wire. */
  const AnalyzerWireKeys: seq<string> := ["name", "@odata.type", "charFilters", "tokenizer", "tokenFilters"]

  function AnalyzerFixed(a: CustomAnalyzer): (d: Dict<Json>)
    ensures |d| == |AnalyzerKeys| && forall i :: 0 <= i < |d| ==> d[i].0 == AnalyzerKeys[i]
  {
    [("name", a.name), ("@odata.type", a.analyzerType), ("charFilters", a.charFilters),
     ("tokenizer", a.tokenizer), ("token_filters", a.tokenFilters)]
  }

  /** `CustomAnalyzer.to_dict`. */
  function AnalyzerToDict(a: CustomAnalyzer): Dict<Json>
  {
    WireDict(AnalyzerFixed(a), a.params)
  }

  /** `CustomAnalyzer.load(data, **extra)`: a non-dict raises; the extra keyword arguments
      overwrite entries of the data before the keys are snake-cased. */
  function LoadCustomAnalyzer(data: Json, extra: Dict<Json>): (r: Result<CustomAnalyzer>)
    ensures !data.JObj? ==> r == Err(Exception("Failed to parse input as Dict"))
    ensures data.JObj? ==> r == NewCustomAnalyzer(ToSnakeCaseDict(PutAll(data.members, extra)))
  {
    if !data.JObj? then Err(Exception("Failed to parse input as Dict"))
    else NewCustomAnalyzer(ToSnakeCaseDict(PutAll(data.members, extra)))
  }

  // ----- lemmas -----

  lemma TokenFiltersKey()
    ensures ToCamelCase("token_filters") == "tokenFilters" && ToSnakeCase("tokenFilters") == "token_filters"
  {
    KeyFormsAt(["token", "filters"], "token_filters", "tokenFilters");
  }

  lemma CharFiltersKey()
    ensures ToCamelCase("char_filters") == "charFilters" && ToSnakeCase("charFilters") == "char_filters"
  {
    KeyFormsAt(["char", "filters"], "char_filters", "charFilters");
  }

  /** Each fixed key camel-cases to its wire key. */
  lemma AnalyzerCamelAt(i: nat)
    requires i < |AnalyzerKeys|
    ensures ToCamelCase(AnalyzerKeys[i]) == AnalyzerWireKeys[i]
  {
    if i == 4 {
      TokenFiltersKey();
    } else {
      CamelIdentity(AnalyzerKeys[i]);
    }
  }

  lemma AnalyzerWireKeysDistinct()
    ensures forall i, j :: 0 <= i < j < |AnalyzerWireKeys| ==> AnalyzerWireKeys[i] != AnalyzerWireKeys[j]
  {
  }

  lemma AnalyzerKeysDistinct()
    ensures forall i, j :: 0 <= i < j < |AnalyzerKeys| ==> AnalyzerKeys[i] != AnalyzerKeys[j]
  {
  }

  /** Without params, `to_dict` sends the type under `@odata.type` and the token filters
      under `tokenFilters`, and every fixed value under its wire key unless it is None or
      empty. */
  lemma AnalyzerWireGet(a: CustomAnalyzer, i: nat)
    requires a.params == [] && i < |AnalyzerKeys|
    ensures Get(AnalyzerToDict(a), AnalyzerWireKeys[i]) == Kept(Some(AnalyzerFixed(a)[i].1))
  {
    forall j | 0 <= j < |AnalyzerKeys| ensures ToCamelCase(AnalyzerFixed(a)[j].0) == AnalyzerWireKeys[j] {
      AnalyzerCamelAt(j);
    }
    AnalyzerWireKeysDistinct();
    CamelWireGet(AnalyzerFixed(a), AnalyzerWireKeys, i);
  }

  /** An analyzer built without an analyzer_type is sent as a custom analyzer. */
  lemma DefaultTypeSent(kw: Dict<Json>)
    requires NewCustomAnalyzer(kw).Ok? && !HasKey(kw, "analyzer_type")
    requires WithoutKeys(kw, AnalyzerParameters) == []
    ensures Get(AnalyzerToDict(NewCustomAnalyzer(kw).value), "@odata.type") == Some(JStr(DefaultAnalyzerType))
  {
    var a := NewCustomAnalyzer(kw).value;
    assert a.analyzerType == JStr(DefaultAnalyzerType);
    AnalyzerWireGet(a, 1);
    DefaultTypeKept();
  }

  lemma DefaultTypeKept()
    ensures Kept(Some(JStr(DefaultAnalyzerType))) == Some(JStr(DefaultAnalyzerType))
  {
    assert |DefaultAnalyzerType| > 0;
  }

  /** A param whose key camel-cases onto a wire key replaces the fixed entry, when no other
      key lands on the same wire key. */
  lemma AnalyzerParamWins(a: CustomAnalyzer, k: string)
    requires DistinctKeys(a.params) && HasKey(a.params, k)
    requires forall x :: HasKey(a.params, x) && x != k ==> ToCamelCase(x) != ToCamelCase(k)
    ensures Get(AnalyzerToDict(a), ToCamelCase(k)) == Kept(Get(a.params, k))
  {
    var fixed := AnalyzerFixed(a);
    forall j | 0 <= j < |AnalyzerKeys| ensures ToCamelCase(fixed[j].0) == AnalyzerWireKeys[j] {
      AnalyzerCamelAt(j);
    }
    AnalyzerWireKeysDistinct();
    AnalyzerKeysDistinct();
    assert DistinctKeys(fixed);
    forall x, y | HasKey(fixed, x) && HasKey(fixed, y) && x != y ensures ToCamelCase(x) != ToCamelCase(y) {
      var i := IndexOf(fixed, x);
      var j := IndexOf(fixed, y);
      assert ToCamelCase(x) == AnalyzerWireKeys[i] && ToCamelCase(y) == AnalyzerWireKeys[j];
    }
    ParamWins(fixed, a.params, k);
  }

  /** The keys of a loaded analyzer's payload after snake-casing, with the index name the
      caller passes last. */
  const LoadedKeys: seq<string> := ["name", "@odata.type", "char_filters", "tokenizer", "token_filters", "index_name"]

  lemma LoadedKeyNames()
    ensures LoadedKeys[0] == "name" && LoadedKeys[1] == "@odata.type" && LoadedKeys[2] == "char_filters"
    ensures LoadedKeys[3] == "tokenizer" && LoadedKeys[4] == "token_filters"
  {
  }

  lemma LoadedKeysDistinct()
    ensures forall i, j :: 0 <= i < j < |LoadedKeys| ==> LoadedKeys[i] != LoadedKeys[j]
  {
  }

  lemma IndexNameKey()
    ensures ToSnakeCase("index_name") == "index_name"
  {
    SnakeIdentity("index_name");
  }

  /** Each wire key and `index_name` snake-case to the loaded keys. */
  lemma LoadedSnakeAt(i: nat)
    requires i < |LoadedKeys|
    ensures ToSnakeCase((AnalyzerWireKeys + ["index_name"])[i]) == LoadedKeys[i]
  {
    if i == 2 {
      CharFiltersKey();
    } else if i == 4 {
      TokenFiltersKey();
    } else if i == 5 {
      IndexNameKey();
    } else {
      SnakeIdentity(AnalyzerWireKeys[i]);
    }
  }

  /** An analyzer whose fixed values are all set is sent as its fixed values under the
      wire keys. */
  lemma AnalyzerWireForm(a: CustomAnalyzer)
    requires a.params == [] && forall i :: 0 <= i < |AnalyzerKeys| ==> !IsEmptyValue(AnalyzerFixed(a)[i].1)
    ensures |AnalyzerToDict(a)| == |AnalyzerWireKeys|
    ensures forall i :: 0 <= i < |AnalyzerWireKeys| ==> AnalyzerToDict(a)[i] == (AnalyzerWireKeys[i], AnalyzerFixed(a)[i].1)
  {
    AnalyzerFixedForm(AnalyzerFixed(a));
  }

  lemma AnalyzerFixedForm(fixed: Dict<Json>)
    requires |fixed| == |AnalyzerKeys| && forall i :: 0 <= i < |fixed| ==> fixed[i].0 == AnalyzerKeys[i]
    requires forall i :: 0 <= i < |fixed| ==> !IsEmptyValue(fixed[i].1)
    ensures |WireDict(fixed, [])| == |AnalyzerWireKeys|
    ensures forall i :: 0 <= i < |AnalyzerWireKeys| ==> WireDict(fixed, [])[i] == (AnalyzerWireKeys[i], fixed[i].1)
  {
    forall j | 0 <= j < |AnalyzerKeys| ensures ToCamelCase(fixed[j].0) == AnalyzerWireKeys[j] {
      AnalyzerCamelAt(j);
    }
    AnalyzerWireKeysDistinct();
    CamelWireForm(fixed, AnalyzerWireKeys);
  }

  /** No wire key is `index_name`. */
  lemma WireKeysNotIndexName(i: nat)
    requires i < |AnalyzerWireKeys|
    ensures AnalyzerWireKeys[i] != "index_name"
  {
  }

  /** The keyword arguments `load` builds from a payload with the wire keys and an index
      name: each entry under its snake-cased key, the index name last. */
  lemma LoadedFromWire(w: Dict<Json>, x: Json)
    requires |w| == |AnalyzerWireKeys| && forall i :: 0 <= i < |w| ==> w[i].0 == AnalyzerWireKeys[i]
    ensures var kw := ToSnakeCaseDict(PutAll(w, [("index_name", x)]));
      && |kw| == |LoadedKeys|
      && (forall j :: 0 <= j < |w| ==> kw[j] == (LoadedKeys[j], w[j].1))
      && kw[5] == ("index_name", x)
  {
    assert !HasKey(w, "index_name") by {
      forall i | 0 <= i < |w| ensures w[i].0 != "index_name" {
        WireKeysNotIndexName(i);
      }
    }
    var e := [("index_name", x)];
    assert e[..|e| - 1] == [];
    assert PutAll(w, e[..|e| - 1]) == w;
    var d := PutAll(w, e);
    assert d == w + e;
    forall j | 0 <= j < |d| ensures ToSnakeCase(d[j].0) == LoadedKeys[j] {
      LoadedSnakeAt(j);
      assert d[j].0 == (AnalyzerWireKeys + ["index_name"])[j];
    }
    LoadedKeysDistinct();
    RekeyTo(d, ToSnakeCase, LoadedKeys);
  }

  lemma LoadedEntries(w: Dict<Json>, x: Json)
    requires |w| == |AnalyzerWireKeys| && forall i :: 0 <= i < |w| ==> w[i].0 == AnalyzerWireKeys[i]
    ensures ToSnakeCaseDict(PutAll(w, [("index_name", x)]))
      == [("name", w[0].1), ("@odata.type", w[1].1), ("char_filters", w[2].1),
          ("tokenizer", w[3].1), ("token_filters", w[4].1), ("index_name", x)]
  {
    LoadedFromWire(w, x);
    LoadedSix(ToSnakeCaseDict(PutAll(w, [("index_name", x)])), w, x);
  }

  lemma LoadedSix(kw: Dict<Json>, w: Dict<Json>, x: Json)
    requires |w| == 5 && |kw| == |LoadedKeys|
    requires forall j :: 0 <= j < |w| ==> kw[j] == (LoadedKeys[j], w[j].1)
    requires kw[5] == ("index_name", x)
    ensures kw == [("name", w[0].1), ("@odata.type", w[1].1), ("char_filters", w[2].1),
                   ("tokenizer", w[3].1), ("token_filters", w[4].1), ("index_name", x)]
  {
    assert kw[0] == (LoadedKeys[0], w[0].1) && kw[1] == (LoadedKeys[1], w[1].1);
    assert kw[2] == (LoadedKeys[2], w[2].1) && kw[3] == (LoadedKeys[3], w[3].1);
    assert kw[4] == (LoadedKeys[4], w[4].1);
    LoadedKeyNames();
    SixEntries(kw, [("name", w[0].1), ("@odata.type", w[1].1), ("char_filters", w[2].1),
          ("tokenizer", w[3].1), ("token_filters", w[4].1), ("index_name", x)]);
  }

  lemma SixEntries(kw: Dict<Json>, expected: Dict<Json>)
    requires |kw| == 6 && |expected| == 6
    requires kw[0] == expected[0] && kw[1] == expected[1] && kw[2] == expected[2]
    requires kw[3] == expected[3] && kw[4] == expected[4] && kw[5] == expected[5]
    ensures kw == expected
  {
  }

  /** The keyword arguments `load` builds from a sent analyzer and an index name. */
  lemma LoadedAnalyzerKw(a: CustomAnalyzer, indexName: Json)
    requires a.params == [] && forall i :: 0 <= i < |AnalyzerKeys| ==> !IsEmptyValue(AnalyzerFixed(a)[i].1)
    ensures ToSnakeCaseDict(PutAll(AnalyzerToDict(a), [("index_name", indexName)]))
      == [("name", a.name), ("@odata.type", a.analyzerType), ("char_filters", a.charFilters),
          ("tokenizer", a.tokenizer), ("token_filters", a.tokenFilters), ("index_name", indexName)]
  {
    AnalyzerWireForm(a);
    LoadedEntries(AnalyzerToDict(a), indexName);
  }

  lemma NewFromLoaded(n: Json, t: Json, cf: Json, tok: Json, tf: Json, x: Json)
    ensures NewCustomAnalyzer([("name", n), ("@odata.type", t), ("char_filters", cf),
                               ("tokenizer", tok), ("token_filters", tf), ("index_name", x)])
      == Ok(CustomAnalyzer(x, n, JStr(DefaultAnalyzerType), cf, tok, tf, [("@odata.type", t)]))
  {
    var kw := [("name", n), ("@odata.type", t), ("char_filters", cf), ("tokenizer", tok),
               ("token_filters", tf), ("index_name", x)];
    PositionGet(kw, 0, "name");
    PositionGet(kw, 2, "char_filters");
    PositionGet(kw, 3, "tokenizer");
    PositionGet(kw, 4, "token_filters");
    PositionGet(kw, 5, "index_name");
    assert !HasKey(kw, "analyzer_type");
    LoadedParams(kw);
  }

  /** Of those keyword arguments only `@odata.type` is not a constructor parameter. */
  lemma LoadedParams(kw: Dict<Json>)
    requires |kw| == 6 && kw[1].0 == "@odata.type"
    requires kw[0].0 == "name" && kw[2].0 == "char_filters" && kw[3].0 == "tokenizer"
    requires kw[4].0 == "token_filters" && kw[5].0 == "index_name"
    ensures WithoutKeys(kw, AnalyzerParameters) == [kw[1]]
  {
    assert WithoutKeys(kw[5..], AnalyzerParameters) == [];
    assert WithoutKeys(kw[4..], AnalyzerParameters) == [];
    assert WithoutKeys(kw[3..], AnalyzerParameters) == [];
    assert WithoutKeys(kw[2..], AnalyzerParameters) == [];
    assert WithoutKeys(kw[1..], AnalyzerParameters) == [kw[1]];
    assert kw[0..] == kw;
  }

  /** Sending the reloaded analyzer again: its `@odata.type` param overrides the default
      type in place, so the payload is what was sent before. */
  lemma ResentPayload(a: CustomAnalyzer, x: Json)
    requires a.params == []
    ensures AnalyzerToDict(CustomAnalyzer(x, a.name, JStr(DefaultAnalyzerType), a.charFilters, a.tokenizer,
                                          a.tokenFilters, [("@odata.type", a.analyzerType)]))
      == AnalyzerToDict(a)
  {
    var b := CustomAnalyzer(x, a.name, JStr(DefaultAnalyzerType), a.charFilters, a.tokenizer,
                            a.tokenFilters, [("@odata.type", a.analyzerType)]);
    assert PutAll(AnalyzerFixed(b), b.params) == AnalyzerFixed(a) by {
      PutAt(AnalyzerFixed(b), 1, "@odata.type", a.analyzerType);
    }
    assert PutAll(AnalyzerFixed(a), []) == AnalyzerFixed(a);
  }

  /** `CustomAnalyzer.load(a.to_dict(), index_name=x)`, as an index loads its analyzers,
      stores the index name and keeps the sent type only in the params bag, with the
      default analyzer type; sending the result again gives the same payload. */
  lemma AnalyzerReload(a: CustomAnalyzer, x: Json)
    requires a.params == [] && forall i :: 0 <= i < |AnalyzerKeys| ==> !IsEmptyValue(AnalyzerFixed(a)[i].1)
    ensures var b := LoadCustomAnalyzer(JObj(AnalyzerToDict(a)), [("index_name", x)]);
      && b == Ok(CustomAnalyzer(x, a.name, JStr(DefaultAnalyzerType), a.charFilters, a.tokenizer,
                                a.tokenFilters, [("@odata.type", a.analyzerType)]))
      && AnalyzerToDict(b.value) == AnalyzerToDict(a)
  {
    LoadedAnalyzerKw(a, x);
    NewFromLoaded(a.name, a.analyzerType, a.charFilters, a.tokenizer, a.tokenFilters, x);
    ResentPayload(a, x);
  }
}
