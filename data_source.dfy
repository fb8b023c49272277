/** Data sources: where an indexer reads documents from, a blob-storage container
    reached through a connection string. */
module DataSources {
  import opened Wire
  import opened SearchObject

  const DefaultType := "azureblob"

  /** A data source. `dsType` is the attribute the constructor stores from its
      `datasource_type` parameter. */
  datatype DataSource = DataSource(name: Json, connectionString: Json, containerName: Json,
                                   dsType: Json, description: Json, params: Dict<Json>)

  /** The parameters `DataSource.__init__` declares by name. */
  const DataSourceParameters: set<string> :=
    {"name", "connection_string", "container_name", "datasource_type", "description"}

  /** `DataSource(name, connection_string, container_name, datasource_type='azureblob',
      description=None, **kwargs)`, called with keyword arguments: the first three are
      required, and the rest goes to the API-call base class. */
  function NewDataSource(kw: Dict<Json>): (r: Result<DataSource>)
    ensures r.Ok? <==> HasKey(kw, "name") && HasKey(kw, "connection_string")
                       && HasKey(kw, "container_name") && !HasKey(kw, "service_name")
    ensures !HasKey(kw, "name") ==> r == Err(MissingArgument("name"))
    ensures r.Ok? ==> r.value.name == Get(kw, "name").value
    ensures r.Ok? ==> r.value.connectionString == Get(kw, "connection_string").value
    ensures r.Ok? ==> r.value.containerName == Get(kw, "container_name").value
    ensures r.Ok? ==> r.value.dsType == GetOr(kw, "datasource_type", JStr(DefaultType))
    ensures r.Ok? ==> r.value.description == GetOr(kw, "description", JNull)
    ensures r.Ok? ==> r.value.params == WithoutKeys(kw, DataSourceParameters + {"endpoint"})
  {
    if !HasKey(kw, "name") then Err(MissingArgument("name"))
    else if !HasKey(kw, "connection_string") then Err(MissingArgument("connection_string"))
    else if !HasKey(kw, "container_name") then Err(MissingArgument("container_name"))
    else
      var rest := WithoutKeys(kw, DataSourceParameters);
      ServiceNameUndeclared();
      WithoutKeysGet(kw, DataSourceParameters, "service_name");
      WithoutKeysTwice(kw, DataSourceParameters, {"endpoint"});
      var params :- ApiParams(rest);
      Ok(DataSource(Get(kw, "name").value, Get(kw, "connection_string").value,
                    Get(kw, "container_name").value,
                    GetOr(kw, "datasource_type", JStr(DefaultType)),
                    GetOr(kw, "description", JNull), params))
  }

  /** `service_name` is not among the declared parameters. */
  lemma ServiceNameUndeclared()
    ensures "service_name" !in DataSourceParameters
  {
  }

  /** The dict `to_dict` starts from: the connection string and the container name are
      nested in blocks of their own. */
  function DataSourceFixed(ds: DataSource): Dict<Json>
  {
    [("name", ds.name), ("description", ds.description), ("type", ds.dsType),
     ("credentials", Block("connectionString", ds.connectionString)),
     ("container", Block("name", ds.containerName))]
  }

  /** A nested block of one entry, as `{"connectionString": ...}`; it is never empty,
      so `to_dict` never strips it. */
  function Block(key: string, v: Json): (b: Json)
    ensures b.JObj? && !IsEmptyValue(b) && Get(b.members, key) == Some(v)
  {
    JObj([(key, v)])
  }

  /** `DataSource.to_dict`. */
  function DataSourceToDict(ds: DataSource): Dict<Json>
  {
    WireDict(DataSourceFixed(ds), ds.params)
  }

  /** `x.get(k)` on a value read from the payload: only a dict has `get`; None and every
      other value raise AttributeError. */
  function NestedGet(x: Option<Json>, k: string): (r: Result<Json>)
    ensures r.Ok? <==> x.Some? && x.value.JObj?
    ensures r.Ok? ==> r.value == GetOr(x.value.members, k, JNull)
  {
    if x.Some? && x.value.JObj? then Ok(GetOr(x.value.members, k, JNull))
    else Err(AttributeError("get"))
  }

  /** `DataSource.load`: a dict has `connection_string` and `container_name` written into
      it from its nested blocks, then its keys are snake-cased and it becomes the keyword
      arguments of the constructor. */
  function LoadDataSource(data: Json): (r: Result<DataSource>)
    ensures !data.JObj? ==> r == Err(Exception("Failed to parse input as Dict"))
    ensures data.JObj? && NestedGet(Get(data.members, "credentials"), "connectionString").Err? ==>
      r == Err(AttributeError("get"))
    ensures data.JObj? && NestedGet(Get(data.members, "container"), "name").Err? ==>
      r == Err(AttributeError("get"))
  {
    if !data.JObj? then Err(Exception("Failed to parse input as Dict"))
    else
      var m := data.members;
      var cs :- NestedGet(Get(m, "credentials"), "connectionString");
      var cn :- NestedGet(Get(m, "container"), "name");
      NewDataSource(ToSnakeCaseDict(WithNested(m, cs, cn)))
  }

  /** The two assignments `load` makes before snake-casing. */
  function WithNested(m: Dict<Json>, cs: Json, cn: Json): Dict<Json>
  {
    Put(Put(m, "connection_string", cs), "container_name", cn)
  }

  // ----- lemmas: construction and load -----

  /** A data source built without a type reads from blob storage, and one built without
      a description has none. */
  lemma DefaultTypeAndDescription(kw: Dict<Json>)
    requires NewDataSource(kw).Ok?
    requires !HasKey(kw, "datasource_type") && !HasKey(kw, "description")
    ensures NewDataSource(kw).value.dsType == JStr("azureblob")
    ensures NewDataSource(kw).value.description == JNull
  {
  }

  /** A loaded data source takes its connection string from `credentials.connectionString`
      and its container name from `container.name`, None when the inner key is missing,
      unless some other top-level key snake-cases onto `connection_string` or
      `container_name`. */
  lemma LoadPullsNested(m: Dict<Json>)
    requires DistinctKeys(m) && LoadDataSource(JObj(m)).Ok?
    requires forall x :: HasKey(m, x) && x != "connection_string" ==> ToSnakeCase(x) != "connection_string"
    requires forall x :: HasKey(m, x) && x != "container_name" ==> ToSnakeCase(x) != "container_name"
    ensures var ds := LoadDataSource(JObj(m)).value;
      && ds.connectionString == GetOr(Get(m, "credentials").value.members, "connectionString", JNull)
      && ds.containerName == GetOr(Get(m, "container").value.members, "name", JNull)
  {
    var cs := NestedGet(Get(m, "credentials"), "connectionString").value;
    var cn := NestedGet(Get(m, "container"), "name").value;
    var w := WithNested(m, cs, cn);
    var w1 := Put(m, "connection_string", cs);
    assert Get(w, "connection_string") == Some(cs) && Get(w, "container_name") == Some(cn);
    SnakeNames();
    forall x | HasKey(w, x) && x != "connection_string" && x != "container_name"
      ensures HasKey(m, x)
    {
      assert Get(w, x) == Get(w1, x) == Get(m, x);
    }
    SnakeSelf(w, "connection_string");
    SnakeSelf(w, "container_name");
  }

  lemma SnakeNames()
    ensures ToSnakeCase("connection_string") == "connection_string"
    ensures ToSnakeCase("container_name") == "container_name"
  {
    var a := "connection_string";
    assert NoUpper(a) by { forall i | 0 <= i < |a| ensures !IsUpper(a[i]) { } }
    SnakeIdentity(a);
    var b := "container_name";
    assert NoUpper(b) by { forall i | 0 <= i < |b| ensures !IsUpper(b[i]) { } }
    SnakeIdentity(b);
  }

  /** A key that snake-cases to itself, and that no other key of the dict snake-cases
      onto, keeps its value through `to_snake_case_dict`. */
  lemma SnakeSelf(w: Dict<Json>, k: string)
    requires DistinctKeys(w) && ToSnakeCase(k) == k
    requires forall x :: HasKey(w, x) && ToSnakeCase(x) == k ==> x == k
    ensures Get(ToSnakeCaseDict(w), k) == Get(w, k)
  {
    RekeyGet(w, ToSnakeCase, k);
  }

  // ----- lemmas: to_dict -----

  const WireKeys: seq<string> := ["name", "description", "type", "credentials", "container"]

  lemma WireKeysNoUnderscore(i: nat)
    requires i < |WireKeys|
    ensures '_' !in WireKeys[i]
  {
  }

  /** The fixed keys are camel-cased already. */
  lemma FixedKeysCamel(fixed: Dict<Json>)
    requires |fixed| == |WireKeys| && forall i :: 0 <= i < |fixed| ==> fixed[i].0 == WireKeys[i]
    ensures forall i :: 0 <= i < |fixed| ==> ToCamelCase(fixed[i].0) == WireKeys[i]
  {
    forall i | 0 <= i < |WireKeys| ensures ToCamelCase(WireKeys[i]) == WireKeys[i] {
      WireKeysNoUnderscore(i);
      CamelIdentity(WireKeys[i]);
    }
  }

  /** Without params, `to_dict` always sends the `credentials` block holding the
      connection string and the `container` block holding the container name, and sends
      the name, the description and the type unless they are None or empty. */
  lemma DataSourceWire(ds: DataSource)
    requires ds.params == []
    ensures var d := DataSourceToDict(ds);
      && Get(d, "name") == Kept(Some(ds.name))
      && Get(d, "description") == Kept(Some(ds.description))
      && Get(d, "type") == Kept(Some(ds.dsType))
      && Get(d, "credentials") == Some(Block("connectionString", ds.connectionString))
      && Get(d, "container") == Some(Block("name", ds.containerName))
  {
    var fixed := DataSourceFixed(ds);
    FixedSentStripped(fixed);
    StrippedGet(fixed, 0, "name");
    StrippedGet(fixed, 1, "description");
    StrippedGet(fixed, 2, "type");
    StrippedGet(fixed, 3, "credentials");
    StrippedGet(fixed, 4, "container");
  }

  /** Without params, `to_dict` only strips the fixed dict: its keys are camel-cased
      already. */
  lemma FixedSentStripped(fixed: Dict<Json>)
    requires |fixed| == |WireKeys| && forall i :: 0 <= i < |fixed| ==> fixed[i].0 == WireKeys[i]
    ensures DistinctKeys(fixed) && WireDict(fixed, []) == RemoveEmptyValues(fixed)
  {
    WireDictNoParams(fixed);
    FixedKeysCamel(fixed);
    WireKeysDistinct(fixed);
    RekeyIdentity(fixed, ToCamelCase);
  }

  /** A description of None is not sent. */
  lemma NoDescriptionOmitted(ds: DataSource)
    requires ds.params == [] && ds.description == JNull
    ensures !HasKey(DataSourceToDict(ds), "description")
  {
    DataSourceWire(ds);
  }

  /** Params override the fixed keys: a param whose key camel-cases onto a wire key is
      what `to_dict` sends there, when no other param lands on the same key. */
  lemma DataSourceParamWins(ds: DataSource, k: string)
    requires DistinctKeys(ds.params) && HasKey(ds.params, k)
    requires forall x :: HasKey(ds.params, x) && x != k ==> ToCamelCase(x) != ToCamelCase(k)
    ensures Get(DataSourceToDict(ds), ToCamelCase(k)) == Kept(Get(ds.params, k))
  {
    var fixed := DataSourceFixed(ds);
    FixedKeysCamel(fixed);
    WireKeysDistinct(fixed);
    ParamWins(fixed, ds.params, k);
  }

  // ----- lemmas: load then to_dict -----

  /** A payload in the shape the service returns for a data source. */
  function Payload(n: Json, desc: Json, t: Json, c: Dict<Json>, k: Dict<Json>): Dict<Json>
  {
    [("name", n), ("description", desc), ("type", t), ("credentials", JObj(c)), ("container", JObj(k))]
  }

  const LoadedKeys: seq<string> := WireKeys + ["connection_string", "container_name"]

  lemma LoadedKeysNoUpper(i: nat)
    requires i < |LoadedKeys|
    ensures NoUpper(LoadedKeys[i])
  {
    var key := LoadedKeys[i];
    forall j | 0 <= j < |key| ensures !IsUpper(key[j]) { }
  }

  /** What `load` writes into a payload before snake-casing: the two derived keys are new
      and go at the end. */
  lemma NestedAppended(d: Dict<Json>, cs: Json, cn: Json)
    requires |d| == |WireKeys| && forall i :: 0 <= i < |d| ==> d[i].0 == WireKeys[i]
    ensures WithNested(d, cs, cn) == d + [("connection_string", cs), ("container_name", cn)]
  {
    assert !HasKey(d, "connection_string");
    var d1 := d + [("connection_string", cs)];
    assert !HasKey(d1, "container_name");
  }

  /** Every key of the extended payload snake-cases to itself. */
  lemma LoadedSnake(w: Dict<Json>)
    requires |w| == |LoadedKeys| && forall i :: 0 <= i < |w| ==> w[i].0 == LoadedKeys[i]
    ensures ToSnakeCaseDict(w) == w
  {
    forall i | 0 <= i < |w| ensures ToSnakeCase(w[i].0) == w[i].0 {
      LoadedSnakeAt(i);
    }
    LoadedKeysDistinct(w);
    RekeyIdentity(w, ToSnakeCase);
  }

  lemma LoadedKeysDistinct(w: Dict<Json>)
    requires |w| == |LoadedKeys| && forall i :: 0 <= i < |w| ==> w[i].0 == LoadedKeys[i]
    ensures DistinctKeys(w)
  {
  }

  lemma LoadedSnakeAt(i: nat)
    requires i < |LoadedKeys|
    ensures ToSnakeCase(LoadedKeys[i]) == LoadedKeys[i]
  {
    LoadedKeyLiterals();
    if i < 3 {
      FirstKeysSnake();
    } else if i < 5 {
      BlockKeysSnake();
    } else {
      SnakeNames();
    }
  }

  lemma FirstKeysSnake()
    ensures ToSnakeCase("name") == "name" && ToSnakeCase("description") == "description"
    ensures ToSnakeCase("type") == "type"
  {
    FixedKey("name");
    FixedKey("description");
    FixedKey("type");
  }

  lemma BlockKeysSnake()
    ensures ToSnakeCase("credentials") == "credentials" && ToSnakeCase("container") == "container"
  {
    FixedKey("credentials");
    FixedKey("container");
  }

  /** Of the extended payload's keys, `type`, `credentials` and `container` name no
      constructor parameter. */
  lemma LoadedParams(w: Dict<Json>)
    requires |w| == |LoadedKeys| && forall i :: 0 <= i < |w| ==> w[i].0 == LoadedKeys[i]
    ensures WithoutKeys(w, DataSourceParameters + {"endpoint"}) == w[2..5]
  {
    var names := DataSourceParameters + {"endpoint"};
    LoadedKeysNamed();
    assert w == w[..2] + w[2..5] + w[5..];
    KeepMiddle(w[..2], w[2..5], w[5..], names);
  }

  /** Which of the extended payload's keys a parameter or `endpoint` names. */
  lemma LoadedKeyLiterals()
    ensures |LoadedKeys| == 7
    ensures LoadedKeys[0] == "name" && LoadedKeys[1] == "description" && LoadedKeys[2] == "type"
    ensures LoadedKeys[3] == "credentials" && LoadedKeys[4] == "container"
    ensures LoadedKeys[5] == "connection_string" && LoadedKeys[6] == "container_name"
  {
  }

  lemma LoadedKeysNamed()
    ensures var names := DataSourceParameters + {"endpoint"};
      && LoadedKeys[0] in names && LoadedKeys[1] in names
      && LoadedKeys[2] !in names && LoadedKeys[3] !in names && LoadedKeys[4] !in names
      && LoadedKeys[5] in names && LoadedKeys[6] in names
  {
  }

  /** Dropping the named keys leaves the unnamed middle part. */
  lemma KeepMiddle(a: Dict<Json>, b: Dict<Json>, c: Dict<Json>, names: set<string>)
    requires forall i :: 0 <= i < |a| ==> a[i].0 in names
    requires forall i :: 0 <= i < |b| ==> b[i].0 !in names
    requires forall i :: 0 <= i < |c| ==> c[i].0 in names
    ensures WithoutKeys(a + b + c, names) == b
  {
    WithoutEveryKey(a, names);
    WithoutNoKey(b, names);
    WithoutEveryKey(c, names);
    WithoutKeysAppend(a + b, c, names);
    WithoutKeysAppend(a, b, names);
  }

  /** The constructor call `load` ends with: the three payload entries that no parameter
      names become the params bag. */
  lemma NewFromPayload(w: Dict<Json>)
    requires |w| == |LoadedKeys| && forall i :: 0 <= i < |w| ==> w[i].0 == LoadedKeys[i]
    ensures NewDataSource(w) == Ok(DataSource(w[0].1, w[5].1, w[6].1, JStr(DefaultType), w[1].1, w[2..5]))
  {
    PositionGet(w, 0, "name");
    PositionGet(w, 1, "description");
    PositionGet(w, 5, "connection_string");
    PositionGet(w, 6, "container_name");
    assert !HasKey(w, "service_name") && !HasKey(w, "datasource_type");
    LoadedParams(w);
  }

  lemma WireKeysDistinct(d: Dict<Json>)
    requires |d| == |WireKeys| && forall i :: 0 <= i < |d| ==> d[i].0 == WireKeys[i]
    ensures DistinctKeys(d)
  {
  }

  /** The data source `load` builds from such a payload: the nested values become the
      connection string and the container name, and the payload's `type`, `credentials`
      and `container` entries, which name no parameter, become the params bag. */
  function Loaded(n: Json, desc: Json, t: Json, c: Dict<Json>, k: Dict<Json>): DataSource
  {
    DataSource(n, GetOr(c, "connectionString", JNull), GetOr(k, "name", JNull), JStr(DefaultType), desc,
               Payload(n, desc, t, c, k)[2..])
  }

  lemma LoadPayload(n: Json, desc: Json, t: Json, c: Dict<Json>, k: Dict<Json>)
    ensures LoadDataSource(JObj(Payload(n, desc, t, c, k))) == Ok(Loaded(n, desc, t, c, k))
  {
    var d := Payload(n, desc, t, c, k);
    var cs := GetOr(c, "connectionString", JNull);
    var cn := GetOr(k, "name", JNull);
    PayloadBlocks(n, desc, t, c, k);
    PayloadKeys(n, desc, t, c, k);
    LoadKeyed(d, cs, cn);
  }

  /** Loading a dict with the wire keys in order, whose blocks hold cs and cn. */
  lemma LoadKeyed(d: Dict<Json>, cs: Json, cn: Json)
    requires |d| == |WireKeys| && forall i :: 0 <= i < |d| ==> d[i].0 == WireKeys[i]
    requires NestedGet(Get(d, "credentials"), "connectionString") == Ok(cs)
    requires NestedGet(Get(d, "container"), "name") == Ok(cn)
    ensures LoadDataSource(JObj(d)) == Ok(DataSource(d[0].1, cs, cn, JStr(DefaultType), d[1].1, d[2..]))
  {
    LoadSteps(d, cs, cn);
    NestedAppended(d, cs, cn);
    var w := d + [("connection_string", cs), ("container_name", cn)];
    ExtendedKeys(d, cs, cn);
    LoadedSnake(w);
    NewFromPayload(w);
    assert w[2..5] == d[2..];
  }

  lemma PayloadKeys(n: Json, desc: Json, t: Json, c: Dict<Json>, k: Dict<Json>)
    ensures var d := Payload(n, desc, t, c, k);
      |d| == |WireKeys| && forall i :: 0 <= i < |d| ==> d[i].0 == WireKeys[i]
  {
    var d := Payload(n, desc, t, c, k);
    forall i | 0 <= i < |d| ensures d[i].0 == WireKeys[i] {
      if i == 0 {
      } else if i == 1 {
      } else if i == 2 {
      } else if i == 3 {
      } else {
      }
    }
  }

  lemma ExtendedKeys(d: Dict<Json>, cs: Json, cn: Json)
    requires |d| == |WireKeys| && forall i :: 0 <= i < |d| ==> d[i].0 == WireKeys[i]
    ensures var w := d + [("connection_string", cs), ("container_name", cn)];
      |w| == |LoadedKeys| && forall i :: 0 <= i < |w| ==> w[i].0 == LoadedKeys[i]
  {
    var w := d + [("connection_string", cs), ("container_name", cn)];
    forall i | 0 <= i < |w| ensures w[i].0 == LoadedKeys[i] {
      if i < 5 {
        assert w[i] == d[i] && LoadedKeys[i] == WireKeys[i];
      } else if i == 5 {
      } else {
      }
    }
  }

  lemma PayloadBlocks(n: Json, desc: Json, t: Json, c: Dict<Json>, k: Dict<Json>)
    ensures var d := Payload(n, desc, t, c, k);
      && NestedGet(Get(d, "credentials"), "connectionString") == Ok(GetOr(c, "connectionString", JNull))
      && NestedGet(Get(d, "container"), "name") == Ok(GetOr(k, "name", JNull))
  {
    var d := Payload(n, desc, t, c, k);
    PositionGet(d, 3, "credentials");
    PositionGet(d, 4, "container");
  }

  /** `load` on a dict whose nested blocks are readable. */
  lemma LoadSteps(m: Dict<Json>, cs: Json, cn: Json)
    requires NestedGet(Get(m, "credentials"), "connectionString") == Ok(cs)
    requires NestedGet(Get(m, "container"), "name") == Ok(cn)
    ensures LoadDataSource(JObj(m)) == NewDataSource(ToSnakeCaseDict(WithNested(m, cs, cn)))
  {
  }

  /** Sending the loaded data source again gives the payload back. */
  lemma SendLoaded(n: Json, desc: Json, t: Json, c: Dict<Json>, k: Dict<Json>)
    requires !IsEmptyValue(n) && !IsEmptyValue(desc) && !IsEmptyValue(t) && c != [] && k != []
    ensures DataSourceToDict(Loaded(n, desc, t, c, k)) == Payload(n, desc, t, c, k)
  {
    var ds := Loaded(n, desc, t, c, k);
    var d := Payload(n, desc, t, c, k);
    PayloadKeys(n, desc, t, c, k);
    WireKeysDistinct(d);
    // the params bag overwrites the fixed entries from position 2 on, in place
    PutAllTail(DataSourceFixed(ds), d, 2);
    PayloadSent(n, desc, t, c, k);
  }

  /** `DataSource.load(d).to_dict() == d` for a payload whose name, description and type
      are not empty and whose nested blocks are not empty: the loaded params bag carries
      `type`, `credentials` and `container`, which override the fixed keys in place. */
  lemma LoadThenToDict(n: Json, desc: Json, t: Json, c: Dict<Json>, k: Dict<Json>)
    requires !IsEmptyValue(n) && !IsEmptyValue(desc) && !IsEmptyValue(t) && c != [] && k != []
    ensures var d := Payload(n, desc, t, c, k);
      LoadDataSource(JObj(d)).Ok? && DataSourceToDict(LoadDataSource(JObj(d)).value) == d
  {
    LoadPayload(n, desc, t, c, k);
    SendLoaded(n, desc, t, c, k);
  }

  /** A payload with no empty value is sent as it is. */
  lemma PayloadSent(n: Json, desc: Json, t: Json, c: Dict<Json>, k: Dict<Json>)
    requires !IsEmptyValue(n) && !IsEmptyValue(desc) && !IsEmptyValue(t) && c != [] && k != []
    ensures RemoveEmptyValues(ToCamelCaseDict(Payload(n, desc, t, c, k))) == Payload(n, desc, t, c, k)
  {
    var d := Payload(n, desc, t, c, k);
    KeyedDictSent(d, WireKeys);
    WireDictNoParams(d);
  }

  // ----- lemmas: load then to_dict, in any order -----

  /** The keys the constructor or the API-call base class binds, apart from `name` and
      `description`, which the data source sends back under their own names. */
  const Reserved: set<string> := {"connection_string", "container_name", "datasource_type", "endpoint", "service_name"}

  /** A payload that `to_dict` sends back as it was loaded, up to order: a dict with a
      name, a type and readable `credentials` and `container` blocks, no None or empty
      value, and keys that come back from the snake/camel round trip and snake-case onto
      none of the reserved names. */
  predicate Resendable(d: Dict<Json>)
  {
    && DistinctKeys(d)
    && HasKey(d, "name") && HasKey(d, "type")
    && Get(d, "credentials").Some? && Get(d, "credentials").value.JObj?
    && Get(d, "container").Some? && Get(d, "container").value.JObj?
    && (forall i :: 0 <= i < |d| ==> !IsEmptyValue(d[i].1))
    && (forall i :: 0 <= i < |d| ==> ToCamelCase(ToSnakeCase(d[i].0)) == d[i].0)
    && (forall i :: 0 <= i < |d| ==> ToSnakeCase(d[i].0) !in Reserved)
  }

  /** Such a payload has no key with an underscore: camel-casing never leaves one. */
  lemma ResendableNoUnderscore(d: Dict<Json>, i: nat)
    requires Resendable(d) && i < |d|
    ensures '_' !in d[i].0
  {
    CamelNoUnderscore(ToSnakeCase(d[i].0));
  }

  /** Snake-casing a payload extended with entries whose reserved keys snake-case to
      themselves keeps every entry, the payload's under their snake-cased keys. */
  lemma SnakeExtended(d: Dict<Json>, extra: Dict<Json>)
    requires Resendable(d) && DistinctKeys(extra)
    requires forall j :: 0 <= j < |extra| ==> ToSnakeCase(extra[j].0) == extra[j].0 && extra[j].0 in Reserved
    ensures ToSnakeCaseDict(d + extra) == MapKeys(d, ToSnakeCase) + extra
    ensures DistinctKeys(MapKeys(d, ToSnakeCase) + extra)
  {
    var w := d + extra;
    var e := MapKeys(w, ToSnakeCase);
    assert e == MapKeys(d, ToSnakeCase) + extra;
    forall i, j | 0 <= i < j < |e| ensures e[i].0 != e[j].0 {
      if j < |d| {
        assert ToCamelCase(e[i].0) == d[i].0 && ToCamelCase(e[j].0) == d[j].0;
      } else if i < |d| {
        assert e[i].0 !in Reserved;
      } else {
        assert e[i] == extra[i - |d|] && e[j] == extra[j - |d|];
      }
    }
    RekeyInjective(w, ToSnakeCase);
  }

  /** The two entries `load` writes, as a dict of their own. */
  function NestedEntries(cs: Json, cn: Json): Dict<Json>
  {
    [("connection_string", cs), ("container_name", cn)]
  }

  lemma NestedEntriesReserved(cs: Json, cn: Json)
    ensures DistinctKeys(NestedEntries(cs, cn))
    ensures var extra := NestedEntries(cs, cn);
      forall j :: 0 <= j < |extra| ==> ToSnakeCase(extra[j].0) == extra[j].0 && extra[j].0 in Reserved
  {
    SnakeNames();
  }

  /** `load` writes the two nested values as new keys at the end of such a payload. */
  lemma NestedWritten(d: Dict<Json>, cs: Json, cn: Json)
    requires forall i :: 0 <= i < |d| ==> '_' !in d[i].0
    ensures WithNested(d, cs, cn) == d + NestedEntries(cs, cn)
  {
    var k1 := "connection_string";
    var k2 := "container_name";
    assert k1[10] == '_' && k2[9] == '_';
    AbsentKey(d, k1, 10);
    var d1 := d + [(k1, cs)];
    assert forall i :: 0 <= i < |d1| ==> '_' !in d1[i].0 || d1[i].0 == k1;
    AbsentKey(d1, k2, 9);
  }

  /** A key containing `_` is absent when every key of the dict that contains `_` differs from it. */
  lemma AbsentKey(d: Dict<Json>, k: string, at: nat)
    requires at < |k| && k[at] == '_'
    requires forall i :: 0 <= i < |d| ==> '_' !in d[i].0 || d[i].0 != k
    ensures !HasKey(d, k)
  {
  }

  /** What `load` hands the constructor for such a payload: its entries under their
      snake-cased keys, then the two nested values. */
  lemma ResendKwShape(d: Dict<Json>, cs: Json, cn: Json)
    requires Resendable(d)
    ensures ToSnakeCaseDict(WithNested(d, cs, cn)) == MapKeys(d, ToSnakeCase) + NestedEntries(cs, cn)
    ensures DistinctKeys(MapKeys(d, ToSnakeCase) + NestedEntries(cs, cn))
  {
    forall i | 0 <= i < |d| ensures '_' !in d[i].0 {
      ResendableNoUnderscore(d, i);
    }
    NestedWritten(d, cs, cn);
    NestedEntriesReserved(cs, cn);
    SnakeExtended(d, NestedEntries(cs, cn));
  }

  // The steps after snake-casing are stated for any key converter `f` with the
  // properties snake-casing has on such a payload; `ResendFacts` instantiates them.

  /** `f` sends every payload key to one that camel-cases back to it and is no reserved
      name, and leaves the wire keys alone. */
  predicate ResendConverter(d: Dict<Json>, f: string -> string)
  {
    && (forall i :: 0 <= i < |d| ==> ToCamelCase(f(d[i].0)) == d[i].0)
    && (forall i :: 0 <= i < |d| ==> f(d[i].0) !in Reserved)
    && (forall i :: 0 <= i < |WireKeys| ==> f(WireKeys[i]) == WireKeys[i])
  }

  /** The constructor call on the converted keywords succeeds, with the payload's name
      and description (None when there is none). */
  lemma ResendNew(d: Dict<Json>, f: string -> string, cs: Json, cn: Json)
    requires DistinctKeys(MapKeys(d, f) + NestedEntries(cs, cn))
    requires HasKey(d, "name") && ResendConverter(d, f)
    ensures NewDataSource(MapKeys(d, f) + NestedEntries(cs, cn)).Ok?
    ensures NewDataSource(MapKeys(d, f) + NestedEntries(cs, cn)).value.name == Get(d, "name").value
    ensures NewDataSource(MapKeys(d, f) + NestedEntries(cs, cn)).value.description ==
      GetOr(d, "description", JNull)
  {
    var kw := MapKeys(d, f) + NestedEntries(cs, cn);
    assert f(WireKeys[0]) == "name" && f(WireKeys[1]) == "description";
    var i := IndexOf(d, "name");
    assert kw[i] == ("name", d[i].1);
    DistinctGet(kw, "name", d[i].1);
    PositionGet(d, i, "name");
    assert kw[|d|].0 == "connection_string" && kw[|d| + 1].0 == "container_name";
    assert !HasKey(kw, "service_name") by {
      forall j | 0 <= j < |kw| ensures kw[j].0 != "service_name" {
        if j < |d| {
          assert f(d[j].0) !in Reserved;
        }
      }
    }
    if HasKey(d, "description") {
      var j := IndexOf(d, "description");
      assert kw[j] == ("description", d[j].1);
      DistinctGet(kw, "description", d[j].1);
      PositionGet(d, j, "description");
    } else {
      CamelIdentity("description");
      forall j | 0 <= j < |kw| ensures kw[j].0 != "description" {
        if j < |d| {
          assert ToCamelCase(f(d[j].0)) == d[j].0;
        }
      }
    }
  }

  /** Its params bag holds every converted payload key that names no parameter, with
      the payload's value, and nothing else. */
  lemma ResendParams(d: Dict<Json>, f: string -> string, cs: Json, cn: Json, params: Dict<Json>)
    requires DistinctKeys(MapKeys(d, f) + NestedEntries(cs, cn)) && ResendConverter(d, f)
    requires params == WithoutKeys(MapKeys(d, f) + NestedEntries(cs, cn), DataSourceParameters + {"endpoint"})
    ensures DistinctKeys(params)
    ensures forall i :: 0 <= i < |d| && f(d[i].0) != "name" && f(d[i].0) != "description" ==>
      Get(params, f(d[i].0)) == Some(d[i].1)
    ensures forall x :: HasKey(params, x) ==>
      (x != "name" && x != "description" && exists i :: 0 <= i < |d| && x == f(d[i].0))
  {
    var names := DataSourceParameters + {"endpoint"};
    var kw := MapKeys(d, f) + NestedEntries(cs, cn);
    assert kw[..|d|] == MapKeys(d, f);
    forall i | 0 <= i < |d| && f(d[i].0) != "name" && f(d[i].0) != "description"
      ensures Get(params, f(d[i].0)) == Some(d[i].1)
    {
      assert f(d[i].0) !in Reserved;
      ParamsGetAt(d, f, kw, names, i);
    }
    forall x | HasKey(params, x)
      ensures x != "name" && x != "description" && exists i :: 0 <= i < |d| && x == f(d[i].0)
    {
      ParamsKeyFrom(d, f, kw, names, x);
    }
  }

  lemma ParamsGetAt(d: Dict<Json>, f: string -> string, kw: Dict<Json>, names: set<string>, i: nat)
    requires |kw| >= |d| && kw[..|d|] == MapKeys(d, f) && DistinctKeys(kw)
    requires i < |d| && f(d[i].0) !in names
    ensures Get(WithoutKeys(kw, names), f(d[i].0)) == Some(d[i].1)
  {
    WithoutKeysGet(kw, names, f(d[i].0));
    assert kw[i] == kw[..|d|][i] == (f(d[i].0), d[i].1);
    DistinctGet(kw, f(d[i].0), d[i].1);
  }

  lemma ParamsKeyFrom(d: Dict<Json>, f: string -> string, kw: Dict<Json>, names: set<string>, x: string)
    requires |kw| >= |d| && kw[..|d|] == MapKeys(d, f) && forall j :: |d| <= j < |kw| ==> kw[j].0 in names
    requires HasKey(WithoutKeys(kw, names), x)
    ensures x !in names && exists i :: 0 <= i < |d| && x == f(d[i].0)
  {
    var p := WithoutKeys(kw, names);
    var e := p[IndexOf(p, x)];
    assert e in kw && e.0 == x;
    var j :| 0 <= j < |kw| && kw[j] == e;
    assert kw[..|d|][j] == kw[j];
  }

  /** What `ResendParams` establishes about a params bag. */
  ghost predicate ResentParams(d: Dict<Json>, f: string -> string, params: Dict<Json>)
  {
    && DistinctKeys(params)
    && (forall i :: 0 <= i < |d| && f(d[i].0) != "name" && f(d[i].0) != "description" ==>
          Get(params, f(d[i].0)) == Some(d[i].1))
    && (forall x :: HasKey(params, x) ==>
          (x != "name" && x != "description" && exists i :: 0 <= i < |d| && x == f(d[i].0)))
  }

  /** Only the converted key of entry `i` camel-cases back onto that entry's key among
      the keys `to_dict` merges. */
  lemma MergedKeyBack(d: Dict<Json>, f: string -> string, ds: DataSource, i: nat)
    requires DistinctKeys(d) && ResendConverter(d, f) && ResentParams(d, f, ds.params) && i < |d|
    ensures forall x :: HasKey(PutAll(DataSourceFixed(ds), ds.params), x) && ToCamelCase(x) == d[i].0 ==>
      x == f(d[i].0)
  {
    var fixed := DataSourceFixed(ds);
    FixedKeysCamel(fixed);
    forall x | HasKey(PutAll(fixed, ds.params), x) && ToCamelCase(x) == d[i].0
      ensures x == f(d[i].0)
    {
      if HasKey(ds.params, x) {
        var j :| 0 <= j < |d| && x == f(d[j].0);
        assert d[j].0 == d[i].0;
      } else {
        var m := IndexOf(fixed, x);
        assert fixed[m].0 == WireKeys[m];
      }
    }
  }

  /** Every entry of such a payload is sent again under its own key with its own value. */
  lemma ResendWireAt(d: Dict<Json>, f: string -> string, ds: DataSource, i: nat)
    requires DistinctKeys(d) && ResendConverter(d, f) && ResentParams(d, f, ds.params)
    requires Get(d, "name") == Some(ds.name) && ds.description == GetOr(d, "description", JNull)
    requires i < |d| && !IsEmptyValue(d[i].1)
    ensures Get(DataSourceToDict(ds), d[i].0) == Some(d[i].1)
  {
    var fixed := DataSourceFixed(ds);
    var fk := f(d[i].0);
    WireKeysDistinct(fixed);
    MergedKeyBack(d, f, ds, i);
    WireDictGet(fixed, ds.params, fk);
    MergedValue(d, f, ds, i);
  }

  /** The value `to_dict` merges under the converted key of entry `i` is that entry's:
      the params bag's, or the fixed name or description. */
  lemma MergedValue(d: Dict<Json>, f: string -> string, ds: DataSource, i: nat)
    requires DistinctKeys(d) && ResendConverter(d, f) && ResentParams(d, f, ds.params)
    requires Get(d, "name") == Some(ds.name) && ds.description == GetOr(d, "description", JNull)
    requires i < |d|
    ensures (if HasKey(ds.params, f(d[i].0)) then Get(ds.params, f(d[i].0))
             else Get(DataSourceFixed(ds), f(d[i].0))) == Some(d[i].1)
  {
    var k := d[i].0;
    var fk := f(k);
    PositionGet(d, i, k);
    FixedNameDescription(ds);
    if fk == "name" || fk == "description" {
      NameDescriptionCamel();
      assert ToCamelCase(fk) == k;
      assert !HasKey(ds.params, fk);
    } else {
      assert Get(ds.params, fk) == Some(d[i].1);
    }
  }

  lemma NameDescriptionCamel()
    ensures ToCamelCase("name") == "name" && ToCamelCase("description") == "description"
  {
    FixedKey("name");
    FixedKey("description");
  }

  /** The fixed dict holds the name and description under their own keys. */
  lemma FixedNameDescription(ds: DataSource)
    ensures Get(DataSourceFixed(ds), "name") == Some(ds.name)
    ensures Get(DataSourceFixed(ds), "description") == Some(ds.description)
  {
    var fixed := DataSourceFixed(ds);
    PositionGet(fixed, 0, "name");
    PositionGet(fixed, 1, "description");
  }

  /** `to_dict` sends no key the payload lacks. */
  lemma ResendKeysBack(d: Dict<Json>, f: string -> string, ds: DataSource)
    requires DistinctKeys(d) && ResendConverter(d, f) && ResentParams(d, f, ds.params)
    requires HasKey(d, "name") && HasKey(d, "type") && HasKey(d, "credentials") && HasKey(d, "container")
    requires ds.description == GetOr(d, "description", JNull)
    ensures forall k :: HasKey(DataSourceToDict(ds), k) ==> HasKey(d, k)
  {
    forall k | HasKey(DataSourceToDict(ds), k) ensures HasKey(d, k) {
      var x := WireKeyFrom(DataSourceFixed(ds), ds.params, k);
      MergedKeyFrom(d, f, ds, x);
      if !HasKey(d, k) {
        DescriptionNotSent(d, f, ds);
      }
    }
  }

  /** A merged key camel-cases onto a payload key, or it is the fixed description of a
      payload that has none. */
  lemma MergedKeyFrom(d: Dict<Json>, f: string -> string, ds: DataSource, x: string)
    requires DistinctKeys(d) && ResendConverter(d, f) && ResentParams(d, f, ds.params)
    requires HasKey(d, "name") && HasKey(d, "type") && HasKey(d, "credentials") && HasKey(d, "container")
    requires HasKey(PutAll(DataSourceFixed(ds), ds.params), x)
    ensures HasKey(d, ToCamelCase(x)) || (ToCamelCase(x) == "description" && !HasKey(d, "description"))
  {
    if HasKey(ds.params, x) {
      var j :| 0 <= j < |d| && x == f(d[j].0);
      assert IndexOf(d, d[j].0) <= j;
    } else {
      FixedKeyBack(d, ds, x);
    }
  }

  lemma FixedKeyBack(d: Dict<Json>, ds: DataSource, x: string)
    requires HasKey(d, "name") && HasKey(d, "type") && HasKey(d, "credentials") && HasKey(d, "container")
    requires HasKey(DataSourceFixed(ds), x)
    ensures HasKey(d, ToCamelCase(x)) || (ToCamelCase(x) == "description" && !HasKey(d, "description"))
  {
    var fixed := DataSourceFixed(ds);
    FixedKeysCamel(fixed);
    var n := IndexOf(fixed, x);
    assert ToCamelCase(x) == WireKeys[n];
  }

  /** A payload without a description gets none back: the loaded description is None,
      which `to_dict` strips. */
  lemma DescriptionNotSent(d: Dict<Json>, f: string -> string, ds: DataSource)
    requires DistinctKeys(d) && ResendConverter(d, f) && ResentParams(d, f, ds.params)
    requires !HasKey(d, "description") && ds.description == JNull
    ensures !HasKey(DataSourceToDict(ds), "description")
  {
    var fixed := DataSourceFixed(ds);
    FixedKeysCamel(fixed);
    WireKeysDistinct(fixed);
    assert ToCamelCase(fixed[1].0) == "description";
    forall x | HasKey(PutAll(fixed, ds.params), x) && ToCamelCase(x) == ToCamelCase("description")
      ensures x == "description"
    {
      if HasKey(ds.params, x) {
        NoParamCamelsTo(d, f, ds.params, x);
      } else {
        FixedCamelsToDescription(fixed, x);
      }
    }
    WireDictGet(fixed, ds.params, "description");
    PositionGet(fixed, 1, "description");
  }

  /** A param key camel-cases to the payload key it came from. */
  lemma NoParamCamelsTo(d: Dict<Json>, f: string -> string, params: Dict<Json>, x: string)
    requires ResendConverter(d, f) && ResentParams(d, f, params) && HasKey(params, x)
    ensures HasKey(d, ToCamelCase(x))
  {
    var j :| 0 <= j < |d| && x == f(d[j].0);
    assert IndexOf(d, d[j].0) <= j;
  }

  /** Of the fixed keys, only `description` camel-cases to `description`. */
  lemma FixedCamelsToDescription(fixed: Dict<Json>, x: string)
    requires |fixed| == |WireKeys| && forall i :: 0 <= i < |fixed| ==> fixed[i].0 == WireKeys[i]
    requires HasKey(fixed, x) && ToCamelCase(x) == "description"
    ensures x == "description"
  {
    FixedKeysCamel(fixed);
    var n := IndexOf(fixed, x);
    assert ToCamelCase(x) == WireKeys[n];
  }

  /** `to_dict` on the data source loaded from such a payload sends exactly the
      payload's keys, each with the payload's value. */
  lemma ResendWire(d: Dict<Json>, f: string -> string, ds: DataSource)
    requires DistinctKeys(d) && ResendConverter(d, f) && ResentParams(d, f, ds.params)
    requires HasKey(d, "name") && HasKey(d, "type") && HasKey(d, "credentials") && HasKey(d, "container")
    requires Get(d, "name") == Some(ds.name) && ds.description == GetOr(d, "description", JNull)
    requires forall i :: 0 <= i < |d| ==> !IsEmptyValue(d[i].1)
    ensures DistinctKeys(DataSourceToDict(ds))
    ensures forall k :: HasKey(DataSourceToDict(ds), k) <==> HasKey(d, k)
    ensures forall k :: HasKey(d, k) ==> Get(DataSourceToDict(ds), k) == Get(d, k)
  {
    var fixed := DataSourceFixed(ds);
    RekeyValues(PutAll(fixed, ds.params), ToCamelCase);
    ResendKeysBack(d, f, ds);
    forall k | HasKey(d, k) ensures Get(DataSourceToDict(ds), k) == Get(d, k) {
      var i := IndexOf(d, k);
      ResendWireAt(d, f, ds, i);
      PositionGet(d, i, k);
    }
  }

  lemma WireKeysSnake()
    ensures forall i :: 0 <= i < |WireKeys| ==> ToSnakeCase(WireKeys[i]) == WireKeys[i]
  {
    forall i | 0 <= i < |WireKeys| ensures ToSnakeCase(WireKeys[i]) == WireKeys[i] {
      LoadedSnakeAt(i);
    }
  }

  /** Snake-casing has on a resendable payload the properties the steps above ask of
      their key converter. */
  lemma ResendFacts(d: Dict<Json>)
    requires Resendable(d)
    ensures ResendConverter(d, ToSnakeCase)
  {
    WireKeysSnake();
  }

  /** `DataSource.load` accepts a resendable payload: the data source has the payload's
      name and description, and its params bag holds the payload's other entries under
      their snake-cased keys. */
  lemma LoadResendable(d: Dict<Json>) returns (ds: DataSource)
    requires Resendable(d)
    ensures LoadDataSource(JObj(d)) == Ok(ds)
    ensures Get(d, "name") == Some(ds.name) && ds.description == GetOr(d, "description", JNull)
    ensures ResentParams(d, ToSnakeCase, ds.params)
  {
    var cs := GetOr(Get(d, "credentials").value.members, "connectionString", JNull);
    var cn := GetOr(Get(d, "container").value.members, "name", JNull);
    LoadSteps(d, cs, cn);
    ResendKwShape(d, cs, cn);
    ResendFacts(d);
    var kw := MapKeys(d, ToSnakeCase) + NestedEntries(cs, cn);
    ResendNew(d, ToSnakeCase, cs, cn);
    ds := NewDataSource(kw).value;
    ResendParams(d, ToSnakeCase, cs, cn, ds.params);
  }

  /** `DataSource.load(d).to_dict()` gives `d` back up to the order of its keys, for any
      resendable payload: the same keys, each with the same value. */
  lemma LoadThenToDictAnyOrder(d: Dict<Json>)
    requires Resendable(d)
    ensures LoadDataSource(JObj(d)).Ok?
    ensures DistinctKeys(DataSourceToDict(LoadDataSource(JObj(d)).value))
    ensures forall k :: HasKey(DataSourceToDict(LoadDataSource(JObj(d)).value), k) <==> HasKey(d, k)
    ensures forall k :: HasKey(d, k) ==> Get(DataSourceToDict(LoadDataSource(JObj(d)).value), k) == Get(d, k)
  {
    var ds := LoadResendable(d);
    ResendFacts(d);
    ResendWire(d, ToSnakeCase, ds);
  }
}
