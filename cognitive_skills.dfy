/** The predefined cognitive skills: how they wire their inputs to other skills'
    outputs, which outputs they produce by default, and how they translate a
    `fields_mapping` request into output field mappings. */
module CognitiveSkills {
  import opened Wire
  import opened SearchObject
  import opened FieldMappings
  import opened Skills
  import opened SkillWiring

  /** A named output of a skill that other skills can read from: the output's name, the
      document field it is written to (its name unless given), and whether it yields one
      value per element of a collection. */
  datatype SkillParameter = SkillParameter(name: string, target: string, returnMultiple: bool)

  /** The output a parameter stands for. */
  function ToSkillOutput(p: SkillParameter): SkillOutput
  {
    SkillOutput(JStr(p.name), JStr(p.target), JBool(p.returnMultiple), [])
  }

  /** A `SkillInput(name, source)`. */
  function NewInput(name: string, source: string): SkillInput
  {
    SkillInput(JStr(name), JStr(source), [])
  }

  /** A `SkillOutput(name, target_name)`: one value per document. */
  function NewOutput(name: string, target: string): SkillOutput
  {
    SkillOutput(JStr(name), JStr(target), JBool(false), [])
  }

  // ----- set_inputs -----

  /** An argument of `set_inputs`: None, a string naming the source, a parameter of
      another skill, or a value of any other type. */
  datatype InputArg = NoArg | StrArg(s: string) | ParamArg(p: SkillParameter) | OtherArg

  const TextArgMessage := "text should be either a string representing the input name or a SkillParameter"
  const LanguageArgMessage := "language_code should be either a string representing the input name or a SkillParameter"

  /** The source an argument wires in: a string is the source itself, a parameter is
      turned into one by the skill's own rule. */
  function ArgSource(arg: InputArg, path: SkillParameter -> string): string
    requires arg.StrArg? || arg.ParamArg?
  {
    if arg.StrArg? then arg.s else path(arg.p)
  }

  /** One argument of `set_inputs`: None leaves the inputs alone; a string or a parameter
      drops every input of that name and appends one new input; anything else raises. */
  function SetInput(ins: seq<SkillInput>, name: string, arg: InputArg, path: SkillParameter -> string,
                    msg: string): (r: Result<seq<SkillInput>>)
    ensures r.Err? <==> arg.OtherArg?
    ensures r.Err? ==> r == Err(Exception(msg))
    ensures arg.NoArg? ==> r == Ok(ins)
  {
    match arg
    case NoArg => Ok(ins)
    case OtherArg => Err(Exception(msg))
    case _ => Ok(WithoutName(ins, JStr(name)) + [NewInput(name, ArgSource(arg, path))])
  }

  /** `set_inputs(text, language_code)` of the skills that take both: the text argument
      is applied first and stays applied when the language argument then raises. */
  function SetTextAndLanguage(ins: seq<SkillInput>, text: InputArg, languageCode: InputArg,
                              textPath: SkillParameter -> string, languagePath: SkillParameter -> string)
    : (seq<SkillInput>, Option<Exc>)
  {
    match SetInput(ins, "text", text, textPath, TextArgMessage)
    case Err(e) => (ins, Some(e))
    case Ok(afterText) =>
      match SetInput(afterText, "languageCode", languageCode, languagePath, LanguageArgMessage)
      case Err(e) => (afterText, Some(e))
      case Ok(after) => (after, None)
  }

  /** KeyPhraseExtractionSkill reads the text element-wise from the parameter's field. */
  function KeyPhraseTextPath(p: SkillParameter): string
  {
    "/document/" + p.target + "/*"
  }

  /** KeyPhraseExtractionSkill reads the language code from the parameter's field. */
  function KeyPhraseLanguagePath(p: SkillParameter): string
  {
    "/document/" + p.target
  }

  /** SplitSkill uses the parameter's name itself as the source. */
  function SplitPath(p: SkillParameter): string
  {
    p.name
  }

  /** One argument of `set_inputs`, in place. */
  method SetInputArg(s: Skill, name: string, arg: InputArg, path: SkillParameter -> string, msg: string)
    returns (err: Option<Exc>)
    modifies s
    ensures match SetInput(old(s.inputs), name, arg, path, msg)
            case Ok(after) => s.inputs == after && err.None?
            case Err(e) => s.inputs == old(s.inputs) && err == Some(e)
    ensures s.skillType == old(s.skillType) && s.outputs == old(s.outputs) && s.context == old(s.context)
    ensures s.params == old(s.params) && s.outputFieldMapping == old(s.outputFieldMapping)
  {
    if arg.NoArg? {
      return None;
    }
    if arg.OtherArg? {
      return Some(Exception(msg));
    }
    s.RemoveInputByName(JStr(name));
    s.inputs := s.inputs + [NewInput(name, ArgSource(arg, path))];
    return None;
  }

  /** `KeyPhraseExtractionSkill.set_inputs`. */
  method SetKeyPhraseInputs(s: Skill, text: InputArg, languageCode: InputArg) returns (err: Option<Exc>)
    modifies s
    ensures (s.inputs, err) == SetTextAndLanguage(old(s.inputs), text, languageCode,
                                                  KeyPhraseTextPath, KeyPhraseLanguagePath)
    ensures s.skillType == old(s.skillType) && s.outputs == old(s.outputs) && s.context == old(s.context)
    ensures s.params == old(s.params) && s.outputFieldMapping == old(s.outputFieldMapping)
  {
    err := SetInputArg(s, "text", text, KeyPhraseTextPath, TextArgMessage);
    if err.None? {
      err := SetInputArg(s, "languageCode", languageCode, KeyPhraseLanguagePath, LanguageArgMessage);
    }
  }

  /** `SplitSkill.set_inputs`. */
  method SetSplitInputs(s: Skill, text: InputArg, languageCode: InputArg) returns (err: Option<Exc>)
    modifies s
    ensures (s.inputs, err) == SetTextAndLanguage(old(s.inputs), text, languageCode, SplitPath, SplitPath)
    ensures s.skillType == old(s.skillType) && s.outputs == old(s.outputs) && s.context == old(s.context)
    ensures s.params == old(s.params) && s.outputFieldMapping == old(s.outputFieldMapping)
  {
    err := SetInputArg(s, "text", text, SplitPath, TextArgMessage);
    if err.None? {
      err := SetInputArg(s, "languageCode", languageCode, SplitPath, LanguageArgMessage);
    }
  }

  /** After a string or parameter argument, the inputs hold exactly one input of that
      name, last, reading the argument's source; every other input is kept, in order. */
  lemma SetInputReplaces(ins: seq<SkillInput>, name: string, arg: InputArg, path: SkillParameter -> string,
                         msg: string)
    requires arg.StrArg? || arg.ParamArg?
    ensures SetInput(ins, name, arg, path, msg).Ok?
    ensures var r := SetInput(ins, name, arg, path, msg).value;
      && |r| >= 1 && r[|r| - 1] == NewInput(name, ArgSource(arg, path))
      && (forall i :: 0 <= i < |r| - 1 ==> r[i].name != JStr(name) && r[i] in ins)
      && (forall i :: 0 <= i < |ins| && ins[i].name != JStr(name) ==> ins[i] in r)
  {
    var r := SetInput(ins, name, arg, path, msg).value;
    var kept := WithoutName(ins, JStr(name));
    WithoutNameKeeps(ins, JStr(name));
    assert r == kept + [NewInput(name, ArgSource(arg, path))];
    forall i | 0 <= i < |r| - 1 ensures r[i].name != JStr(name) && r[i] in ins {
      assert r[i] == kept[i];
    }
    forall i | 0 <= i < |ins| && ins[i].name != JStr(name) ensures ins[i] in r {
      assert ins[i] in kept;
    }
  }

  /** A parameter of a skill whose output yields one value per element wires in, as the
      text of KeyPhraseExtractionSkill, exactly the path that output's field mapping
      writes; the language code reads the path of a single-valued output. */
  lemma KeyPhrasePathsMatchOutputs(p: SkillParameter)
    ensures p.returnMultiple ==> DocPath(ToSkillOutput(p)) == Ok(KeyPhraseTextPath(p))
    ensures !p.returnMultiple ==> DocPath(ToSkillOutput(p)) == Ok(KeyPhraseLanguagePath(p))
  {
    assert ("/document/" + p.target) + "" == "/document/" + p.target;
  }

  /** SplitSkill wires in a parameter by its bare name; unless that name is itself a
      document path, the input does not read the path the parameter's output writes. */
  lemma SplitSourceIsBareName(p: SkillParameter)
    ensures ArgSource(ParamArg(p), SplitPath) == p.name
    ensures DocPath(ToSkillOutput(p)).Ok?
    ensures !(|p.name| >= 10 && p.name[..10] == "/document/") ==>
      ArgSource(ParamArg(p), SplitPath) != DocPath(ToSkillOutput(p)).value
  {
    KeyPhrasePathsMatchOutputs(p);
    var d := DocPath(ToSkillOutput(p)).value;
    assert d[..10] == "/document/";
  }

  /** The text skill's default input, then the split skill's pages and the language
      detector's code as parameters: the text comes from every page and the language
      code from the detector's field. */
  lemma KeyPhraseSetInputsExample()
    ensures var pages := SkillParameter("textItems", "pages", false);
      var code := SkillParameter("languageCode", "languageCode", false);
      SetTextAndLanguage(KeyPhraseDefaultInputs, ParamArg(pages), ParamArg(code),
                         KeyPhraseTextPath, KeyPhraseLanguagePath)
      == ([NewInput("text", "/document/pages/*"), NewInput("languageCode", "/document/languageCode")], None)
  {
    var pages := SkillParameter("textItems", "pages", false);
    var code := SkillParameter("languageCode", "languageCode", false);
    assert WithoutName(KeyPhraseDefaultInputs, JStr("text")) == [];
    assert "/document/" + "pages" + "/*" == "/document/pages/*";
    assert "/document/" + "languageCode" == "/document/languageCode";
    assert ArgSource(ParamArg(pages), KeyPhraseTextPath) == KeyPhraseTextPath(pages) == "/document/pages/*";
    assert ArgSource(ParamArg(code), KeyPhraseLanguagePath) == KeyPhraseLanguagePath(code) == "/document/languageCode";
    var afterText := [NewInput("text", "/document/pages/*")];
    assert [] + afterText == afterText;
    assert SetInput(KeyPhraseDefaultInputs, "text", ParamArg(pages), KeyPhraseTextPath, TextArgMessage)
      == Ok(afterText);
    assert WithoutName(afterText, JStr("languageCode")) == afterText;
    assert SetInput(afterText, "languageCode", ParamArg(code), KeyPhraseLanguagePath, LanguageArgMessage)
      == Ok(afterText + [NewInput("languageCode", "/document/languageCode")]);
    assert afterText + [NewInput("languageCode", "/document/languageCode")]
      == [NewInput("text", "/document/pages/*"), NewInput("languageCode", "/document/languageCode")];
  }

  // ----- EntityRecognitionSkill -----

  /** The categories the entity recogniser supports, each with the name of the output
      it produces, in the order its default outputs list them. */
  const EntityCategories: seq<(string, string)> := [
    ("Person", "persons"), ("Location", "locations"), ("Organization", "organizations"),
    ("Quantity", "quantities"), ("Datetime", "dateTimes"), ("URL", "urls"), ("Email", "emails")]

  /** The parameter a category row creates: named after its output, single-valued. */
  function CategoryParameter(row: (string, string)): SkillParameter
  {
    SkillParameter(row.1, row.1, false)
  }

  /** a can be obtained from b by deleting elements. */
  predicate SubsequenceOf<T(==)>(a: seq<T>, b: seq<T>)
    decreases |b|
  {
    if a == [] then true
    else if b == [] then false
    else (a[0] == b[0] && SubsequenceOf(a[1..], b[1..])) || SubsequenceOf(a, b[1..])
  }

  /** The parameters of the rows whose category occurs in `categories` (`'Person' in
      categories`), in table order. The first membership test that raises stops it. */
  function SelectCategories(table: seq<(string, string)>, categories: Json): (r: Result<seq<SkillParameter>>)
    ensures table != [] ==> (r.Ok? <==> categories.JArr? || categories.JStr? || categories.JObj?)
    ensures r.Ok? ==> forall i :: 0 <= i < |table| && Contains(categories, JStr(table[i].0)) == Ok(true) ==>
      CategoryParameter(table[i]) in r.value
    ensures r.Ok? ==> forall x :: x in r.value ==>
      (exists i :: 0 <= i < |table| && Contains(categories, JStr(table[i].0)) == Ok(true)
                   && x == CategoryParameter(table[i]))
    ensures r.Ok? ==> SubsequenceOf(r.value, CategoryParameters(table))
  {
    if table == [] then Ok([])
    else
      match Contains(categories, JStr(table[0].0))
      case Err(e) => Err(e)
      case Ok(here) =>
        match SelectCategories(table[1..], categories)
        case Err(e) => Err(e)
        case Ok(rest) =>
          assert forall i :: 1 <= i < |table| ==> table[i] == table[1..][i - 1];
          assert CategoryParameters(table)[1..] == CategoryParameters(table[1..]);
          if here then Ok([CategoryParameter(table[0])] + rest) else Ok(rest)
  }

  function CategoryParameters(table: seq<(string, string)>): (r: seq<SkillParameter>)
    ensures |r| == |table|
    ensures forall i :: 0 <= i < |table| ==> r[i] == CategoryParameter(table[i])
  {
    seq(|table|, i requires 0 <= i < |table| => CategoryParameter(table[i]))
  }

  /** `list(categories)`: the elements of a list, the characters of a string, the keys
      of a dict. */
  function ListOf(j: Json): (r: Json)
    requires j.JArr? || j.JStr? || j.JObj?
    ensures r.JArr? && |r.items| == Len(j)
    ensures j.JArr? ==> r == j
    ensures j.JStr? ==> forall i :: 0 <= i < |j.s| ==> r.items[i] == JStr([j.s[i]])
    ensures j.JObj? ==> forall i :: 0 <= i < |j.members| ==> r.items[i] == JStr(j.members[i].0)
  {
    if j.JArr? then j
    else if j.JStr? then JArr(seq(|j.s|, i requires 0 <= i < |j.s| => JStr([j.s[i]])))
    else JArr(seq(|j.members|, i requires 0 <= i < |j.members| => JStr(j.members[i].0)))
  }

  /** What the EntityRecognitionSkill constructor prepares before the base constructor
      runs: the parameters of the chosen categories and the skill's params. None as the
      categories raises ValueError. */
  function EntityRecognitionSetup(categories: Json, defaultLanguageCode: Json, minimumPrecision: Json,
                                  includeTypelessEntities: Json, kwargs: Dict<Json>)
    : (r: Result<(seq<SkillParameter>, Dict<Json>)>)
    requires !HasKey(kwargs, "categories")
    ensures categories.JNull? ==> r == Err(ValueError("No categories suppplied to the EntityRecognitionSkill"))
    ensures r.Ok? <==> categories.JArr? || categories.JStr? || categories.JObj?
    ensures r.Ok? ==> SubsequenceOf(r.value.0, CategoryParameters(EntityCategories))
    ensures r.Ok? ==> SelectCategories(EntityCategories, categories) == Ok(r.value.0)
    ensures r.Ok? ==> Get(r.value.1, "categories") == Some(ListOf(categories))
  {
    if categories.JNull? then Err(ValueError("No categories suppplied to the EntityRecognitionSkill"))
    else
      var selected :- SelectCategories(EntityCategories, categories);
      var list := ListOf(categories);
      var params := [("defaultLanguageCode", defaultLanguageCode), ("minimumPrecision", minimumPrecision),
                     ("includeTypelessEntities", includeTypelessEntities), ("categories", list)];
      assert Get(params, "categories") == Some(list) by { PositionGet(params, 3, "categories"); }
      Ok((selected, PutAll(params, kwargs)))
  }

  /** The default outputs of the entity recogniser: one per chosen category, in order. */
  function EntityDefaultOutputs(selected: seq<SkillParameter>): (r: seq<SkillOutput>)
    ensures |r| == |selected|
    ensures forall i :: 0 <= i < |selected| ==> r[i] == ToSkillOutput(selected[i])
  {
    seq(|selected|, i requires 0 <= i < |selected| => ToSkillOutput(selected[i]))
  }

  /** `EntityRecognitionSkill.set_default_outputs`: the outputs are emptied, then one
      output per chosen category is appended. */
  method SetEntityDefaultOutputs(s: Skill, selected: seq<SkillParameter>)
    modifies s
    ensures s.outputs == EntityDefaultOutputs(selected)
    ensures s.skillType == old(s.skillType) && s.inputs == old(s.inputs) && s.context == old(s.context)
    ensures s.params == old(s.params) && s.outputFieldMapping == old(s.outputFieldMapping)
  {
    s.outputs := [];
    var k := 0;
    while k < |selected|
      invariant 0 <= k <= |selected|
      invariant s.outputs == EntityDefaultOutputs(selected[..k])
      invariant s.skillType == old(s.skillType) && s.inputs == old(s.inputs) && s.context == old(s.context)
      invariant s.params == old(s.params) && s.outputFieldMapping == old(s.outputFieldMapping)
    {
      s.outputs := s.outputs + [ToSkillOutput(selected[k])];
      k := k + 1;
    }
    assert selected[..k] == selected;
  }

  /** `EntityRecognitionSkill.set_inputs`: one `text` input reading the parameter's bare
      name is appended; inputs already named `text` stay. */
  method SetEntityInputs(s: Skill, p: SkillParameter)
    modifies s
    ensures s.inputs == old(s.inputs) + [NewInput("text", p.name)]
    ensures s.skillType == old(s.skillType) && s.outputs == old(s.outputs) && s.context == old(s.context)
    ensures s.params == old(s.params) && s.outputFieldMapping == old(s.outputFieldMapping)
  {
    s.inputs := s.inputs + [SkillInput(JStr("text"), JStr(p.name), [])];
  }

  /** Only the organisation category chosen: one output, `organizations`. */
  lemma OrganizationOnly()
    ensures EntityRecognitionSetup(JArr([JStr("Organization")]), JStr("en"), JNull, JBool(false), []).Ok?
    ensures var r := EntityRecognitionSetup(JArr([JStr("Organization")]), JStr("en"), JNull, JBool(false), []);
      EntityDefaultOutputs(r.value.0) == [NewOutput("organizations", "organizations")]
  {
    var p := CategoryParameter(("Organization", "organizations"));
    OrganizationSelected();
    SetupSelects(JArr([JStr("Organization")]), JStr("en"), JNull, JBool(false), [], [p]);
    assert EntityDefaultOutputs([p])[0] == ToSkillOutput(p);
  }

  /** Whenever the categories select, the setup succeeds with that selection. */
  lemma SetupSelects(categories: Json, defaultLanguageCode: Json, minimumPrecision: Json,
                     includeTypelessEntities: Json, kwargs: seq<(string, Json)>, sel: seq<SkillParameter>)
    requires !HasKey(kwargs, "categories")
    requires SelectCategories(EntityCategories, categories) == Ok(sel)
    ensures var r := EntityRecognitionSetup(categories, defaultLanguageCode, minimumPrecision,
                                            includeTypelessEntities, kwargs);
      r.Ok? && r.value.0 == sel
  {
  }

  lemma OrganizationSelected()
    ensures SelectCategories(EntityCategories, JArr([JStr("Organization")]))
      == Ok([CategoryParameter(("Organization", "organizations"))])
  {
    SelectOnly(EntityCategories, [JStr("Organization")], 2);
  }

  /** When exactly one row's category is in the list, exactly its parameter is chosen. */
  lemma {:induction false} SelectOnly(table: seq<(string, string)>, items: seq<Json>, i: nat)
    requires i < |table| && JStr(table[i].0) in items
    requires forall j :: 0 <= j < |table| && j != i ==> JStr(table[j].0) !in items
    ensures SelectCategories(table, JArr(items)) == Ok([CategoryParameter(table[i])])
    decreases |table|
  {
    assert forall j :: 1 <= j < |table| ==> table[1..][j - 1] == table[j];
    if i == 0 {
      SelectNone(table[1..], items);
      assert Contains(JArr(items), JStr(table[0].0)) == Ok(true);
      assert [CategoryParameter(table[0])] + [] == [CategoryParameter(table[0])];
    } else {
      SelectOnly(table[1..], items, i - 1);
    }
  }

  /** When no row's category is in the list, nothing is chosen. */
  lemma {:induction false} SelectNone(table: seq<(string, string)>, items: seq<Json>)
    requires forall j :: 0 <= j < |table| ==> JStr(table[j].0) !in items
    ensures SelectCategories(table, JArr(items)) == Ok([])
    decreases |table|
  {
    if table != [] {
      assert forall j :: 1 <= j < |table| ==> table[1..][j - 1] == table[j];
      SelectNone(table[1..], items);
    }
  }

  /** The default outputs of every choice of categories the setup can make have
      distinct names and each maps to a document path. */
  lemma EntityDefaultOutputsWellFormed(selected: seq<SkillParameter>)
    requires SubsequenceOf(selected, CategoryParameters(EntityCategories))
    ensures WellFormedOutputs(EntityDefaultOutputs(selected))
  {
    var table := CategoryParameters(EntityCategories);
    EntityParametersDistinct();
    SubsequenceDistinct(selected, table);
    SubsequenceIn(selected, table);
    var outs := EntityDefaultOutputs(selected);
    forall i | 0 <= i < |outs| ensures OutputRoundTrips(outs[i]) && DocPath(outs[i]).Ok? {
      assert selected[i] in table;
    }
    forall i, j | 0 <= i < j < |outs| ensures outs[i].name != outs[j].name {
      assert selected[i] in table && selected[j] in table;
    }
  }

  /** A subsequence of a sequence without repeats has no repeats. */
  lemma {:induction false} SubsequenceDistinct<T>(a: seq<T>, b: seq<T>)
    requires SubsequenceOf(a, b)
    requires forall i, j :: 0 <= i < j < |b| ==> b[i] != b[j]
    ensures forall i, j :: 0 <= i < j < |a| ==> a[i] != a[j]
    decreases |b|
  {
    if a != [] && b != [] {
      assert forall i, j :: 0 <= i < j < |b[1..]| ==> b[1..][i] != b[1..][j] by {
        forall i, j | 0 <= i < j < |b[1..]| ensures b[1..][i] != b[1..][j] {
          assert b[1..][i] == b[i + 1] && b[1..][j] == b[j + 1];
        }
      }
      if a[0] == b[0] && SubsequenceOf(a[1..], b[1..]) {
        SubsequenceDistinct(a[1..], b[1..]);
        SubsequenceIn(a[1..], b[1..]);
        forall j | 0 < j < |a| ensures a[0] != a[j] {
          assert a[j] == a[1..][j - 1];
          assert a[j] in a[1..];
          var k :| 0 <= k < |b[1..]| && b[1..][k] == a[j];
          assert b[k + 1] == a[j];
        }
        forall i, j | 0 < i < j < |a| ensures a[i] != a[j] {
          assert a[i] == a[1..][i - 1] && a[j] == a[1..][j - 1];
        }
      } else {
        SubsequenceDistinct(a, b[1..]);
      }
    }
  }

  /** Every element of a subsequence is an element of the sequence. */
  lemma {:induction false} SubsequenceIn<T>(a: seq<T>, b: seq<T>)
    requires SubsequenceOf(a, b)
    ensures forall x :: x in a ==> x in b
    decreases |b|
  {
    if a != [] && b != [] {
      if a[0] == b[0] && SubsequenceOf(a[1..], b[1..]) {
        SubsequenceIn(a[1..], b[1..]);
        forall x | x in a ensures x in b {
          if x != a[0] {
            assert x in a[1..];
            assert x in b[1..];
          }
        }
      } else {
        SubsequenceIn(a, b[1..]);
        forall x | x in a ensures x in b {
          assert x in b[1..];
        }
      }
    }
  }

  lemma EntityParametersDistinct()
    ensures forall i, j :: 0 <= i < j < |CategoryParameters(EntityCategories)| ==>
      CategoryParameters(EntityCategories)[i] != CategoryParameters(EntityCategories)[j]
  {
  }

  // ----- ImageAnalysisSkill -----

  /** `s.lower()` on ASCII text. */
  function LowerString(s: string): (r: string)
    ensures |r| == |s| && forall i :: 0 <= i < |s| ==> r[i] == Lower(s[i])
  {
    seq(|s|, i requires 0 <= i < |s| => Lower(s[i]))
  }

  /** Lower-casing leaves no uppercase letter, and changes nothing that has none. */
  lemma LowerStringProperties(s: string)
    ensures NoUpper(LowerString(s))
    ensures NoUpper(s) ==> LowerString(s) == s
    ensures LowerString(LowerString(s)) == LowerString(s)
  {
  }

  /** The output of one visual feature: named and targeted by the lower-cased feature. */
  function FeatureOutput(feature: string): SkillOutput
  {
    NewOutput(LowerString(feature), LowerString(feature))
  }

  /** `ImageAnalysisSkill.get_default_outputs`. */
  method ImageAnalysisDefaultOutputs(features: seq<string>) returns (outputs: seq<SkillOutput>)
    ensures |outputs| == |features|
    ensures forall i :: 0 <= i < |features| ==> outputs[i] == FeatureOutput(features[i])
  {
    outputs := [];
    var k := 0;
    while k < |features|
      invariant 0 <= k <= |features|
      invariant |outputs| == k
      invariant forall i :: 0 <= i < k ==> outputs[i] == FeatureOutput(features[i])
    {
      outputs := outputs + [FeatureOutput(features[k])];
      k := k + 1;
    }
  }

  /** Each feature output is named and targeted alike, in lower case, and single-valued,
      so its field mapping reads `/document/<feature>`. */
  lemma FeatureOutputShape(feature: string)
    ensures var o := FeatureOutput(feature);
      && o.name == o.targetName && o.name.JStr? && NoUpper(o.name.s) && !Truthy(o.returnsMultipleResults)
      && DocPath(o) == Ok("/document/" + LowerString(feature))
      && OutputRoundTrips(o) == (feature != [])
  {
    LowerStringProperties(feature);
    assert ("/document/" + LowerString(feature)) + "" == "/document/" + LowerString(feature);
  }

  // ----- fields_mapping of OCRSkill and SentimentSkill -----

  /** An entry of the `fields_mapping` argument: `mtf["name"]` and `mtf["field"].name`. */
  datatype FieldsMappingEntry = FieldsMappingEntry(name: Json, field: Json)

  /** The outputs OCRSkill can map, each with the document path it is read from. */
  const OcrSources: seq<(string, string)> := [("text", "/document/myOcrText"), ("layoutText", "/document/myLayoutText")]

  /** The output SentimentSkill can map. */
  const SentimentSources: seq<(string, string)> := [("score", "/document/mysentiment")]

  /** The mappings one entry yields: one per table row with its name, in table order. */
  function EntryMappings(e: FieldsMappingEntry, table: seq<(string, string)>): (r: seq<FieldMapping>)
    ensures forall x :: x in r ==>
      (exists i :: 0 <= i < |table| && e.name == JStr(table[i].0) && x == FieldMapping(JStr(table[i].1), e.field, JNull))
    ensures forall i :: 0 <= i < |table| && e.name == JStr(table[i].0) ==>
      FieldMapping(JStr(table[i].1), e.field, JNull) in r
    decreases |table|
  {
    if table == [] then []
    else
      var init := EntryMappings(e, table[..|table| - 1]);
      var row := table[|table| - 1];
      assert forall i :: 0 <= i < |table| - 1 ==> table[..|table| - 1][i] == table[i];
      if e.name == JStr(row.0) then init + [FieldMapping(JStr(row.1), e.field, JNull)] else init
  }

  /** The output field mappings built from a `fields_mapping` list, entry by entry. */
  function TranslateFieldsMapping(fm: seq<FieldsMappingEntry>, table: seq<(string, string)>): (r: seq<FieldMapping>)
    ensures forall x :: x in r ==>
      (exists k, i :: 0 <= k < |fm| && 0 <= i < |table| && fm[k].name == JStr(table[i].0)
                      && x == FieldMapping(JStr(table[i].1), fm[k].field, JNull))
    ensures forall k, i :: 0 <= k < |fm| && 0 <= i < |table| && fm[k].name == JStr(table[i].0) ==>
      FieldMapping(JStr(table[i].1), fm[k].field, JNull) in r
    decreases |fm|
  {
    if fm == [] then []
    else
      var init := TranslateFieldsMapping(fm[..|fm| - 1], table);
      assert forall k :: 0 <= k < |fm| - 1 ==> fm[..|fm| - 1][k] == fm[k];
      init + EntryMappings(fm[|fm| - 1], table)
  }

  /** The loop of the OCRSkill and SentimentSkill constructors: for each entry, each
      supported name it carries appends a mapping from that output's path to the field.
      No `fields_mapping` gives no mappings. */
  method OutputFieldMappingFor(fieldsMapping: Option<seq<FieldsMappingEntry>>, table: seq<(string, string)>)
    returns (ofm: seq<FieldMapping>)
    ensures ofm == if fieldsMapping.None? then [] else TranslateFieldsMapping(fieldsMapping.value, table)
  {
    ofm := [];
    if fieldsMapping.None? {
      return;
    }
    var fm := fieldsMapping.value;
    var k := 0;
    while k < |fm|
      invariant 0 <= k <= |fm|
      invariant ofm == TranslateFieldsMapping(fm[..k], table)
    {
      var j := 0;
      while j < |table|
        invariant 0 <= j <= |table|
        invariant ofm == TranslateFieldsMapping(fm[..k], table) + EntryMappings(fm[k], table[..j])
      {
        EntryStep(fm[k], table, j);
        if fm[k].name == JStr(table[j].0) {
          ofm := ofm + [FieldMapping(JStr(table[j].1), fm[k].field, JNull)];
        }
        j := j + 1;
      }
      assert table[..j] == table;
      TranslateStep(fm, table, k);
      k := k + 1;
    }
    assert fm[..k] == fm;
  }

  /** One more table row for an entry. */
  lemma EntryStep(e: FieldsMappingEntry, table: seq<(string, string)>, j: nat)
    requires j < |table|
    ensures EntryMappings(e, table[..j + 1]) == EntryMappings(e, table[..j])
      + (if e.name == JStr(table[j].0) then [FieldMapping(JStr(table[j].1), e.field, JNull)] else [])
  {
    assert table[..j + 1][..j] == table[..j];
  }

  /** One more entry of the list. */
  lemma TranslateStep(fm: seq<FieldsMappingEntry>, table: seq<(string, string)>, k: nat)
    requires k < |fm|
    ensures TranslateFieldsMapping(fm[..k + 1], table) == TranslateFieldsMapping(fm[..k], table) + EntryMappings(fm[k], table)
  {
    assert fm[..k + 1][..k] == fm[..k];
  }

  /** Each entry yields at most one mapping when the table's names are distinct, which
      the OCR and sentiment tables are; so the result has one mapping per supported
      entry. */
  lemma {:induction false} EntryMappingsAtMostOne(e: FieldsMappingEntry, table: seq<(string, string)>)
    requires forall i, j :: 0 <= i < j < |table| ==> table[i].0 != table[j].0
    ensures |EntryMappings(e, table)| == if exists i :: 0 <= i < |table| && e.name == JStr(table[i].0) then 1 else 0
    decreases |table|
  {
    if table != [] {
      var init := table[..|table| - 1];
      EntryMappingsAtMostOne(e, init);
      if exists i :: 0 <= i < |init| && e.name == JStr(init[i].0) {
        var i :| 0 <= i < |init| && e.name == JStr(init[i].0);
        assert init[i] == table[i];
      }
      if exists i :: 0 <= i < |table| && e.name == JStr(table[i].0) {
        var i :| 0 <= i < |table| && e.name == JStr(table[i].0);
        if i < |table| - 1 {
          assert init[i] == table[i];
        }
      }
    }
  }

  /** An entry whose name is one of the table's supported outputs. */
  predicate SupportedEntry(e: FieldsMappingEntry, table: seq<(string, string)>)
  {
    exists i :: 0 <= i < |table| && e.name == JStr(table[i].0)
  }

  /** The entries of a `fields_mapping` list that name a supported output, in order. */
  function SupportedEntries(fm: seq<FieldsMappingEntry>, table: seq<(string, string)>): (r: seq<FieldsMappingEntry>)
    ensures |r| <= |fm|
    ensures forall j :: 0 <= j < |r| ==> r[j] in fm && SupportedEntry(r[j], table)
    decreases |fm|
  {
    if fm == [] then []
    else
      var last := fm[|fm| - 1];
      SupportedEntries(fm[..|fm| - 1], table) + if SupportedEntry(last, table) then [last] else []
  }

  /** The mapping a supported entry translates to: from the path its name is read from
      to its field. */
  predicate MapsEntry(m: FieldMapping, e: FieldsMappingEntry, table: seq<(string, string)>)
  {
    exists i :: 0 <= i < |table| && e.name == JStr(table[i].0) && m == FieldMapping(JStr(table[i].1), e.field, JNull)
  }

  /** With distinct names in the table, the translation keeps order and drops the rest:
      one mapping per supported entry, the j-th mapping being that of the j-th supported
      entry. */
  lemma {:induction false} TranslateInOrder(fm: seq<FieldsMappingEntry>, table: seq<(string, string)>)
    requires forall i, j :: 0 <= i < j < |table| ==> table[i].0 != table[j].0
    ensures |TranslateFieldsMapping(fm, table)| == |SupportedEntries(fm, table)|
    ensures forall j :: 0 <= j < |SupportedEntries(fm, table)| ==>
      MapsEntry(TranslateFieldsMapping(fm, table)[j], SupportedEntries(fm, table)[j], table)
    decreases |fm|
  {
    if fm != [] {
      var init := fm[..|fm| - 1];
      var last := fm[|fm| - 1];
      TranslateInOrder(init, table);
      EntryMappingsAtMostOne(last, table);
      var r0 := TranslateFieldsMapping(init, table);
      var sel0 := SupportedEntries(init, table);
      var em := EntryMappings(last, table);
      var r := TranslateFieldsMapping(fm, table);
      var sel := SupportedEntries(fm, table);
      assert r == r0 + em;
      if SupportedEntry(last, table) {
        assert sel == sel0 + [last];
        assert em[0] in em;
        assert MapsEntry(em[0], last, table);
      } else {
        assert sel == sel0;
        assert em == [];
      }
      forall j | 0 <= j < |sel| ensures MapsEntry(r[j], sel[j], table) {
        if j < |sel0| {
          assert sel[j] == sel0[j] && r[j] == r0[j];
        } else {
          assert sel[j] == last && r[j] == em[0];
        }
      }
    }
  }

  lemma OcrSourcesDistinct()
    ensures forall i, j :: 0 <= i < j < |OcrSources| ==> OcrSources[i].0 != OcrSources[j].0
  {
  }

  /** A `text` entry, an unknown entry and a `layoutText` entry: the unknown one is
      ignored and the order is kept. */
  lemma OcrFieldsMappingExample(f1: Json, f2: Json, f3: Json)
    ensures TranslateFieldsMapping([FieldsMappingEntry(JStr("text"), f1), FieldsMappingEntry(JStr("score"), f2),
                                    FieldsMappingEntry(JStr("layoutText"), f3)], OcrSources)
      == [FieldMapping(JStr("/document/myOcrText"), f1, JNull), FieldMapping(JStr("/document/myLayoutText"), f3, JNull)]
  {
    var fm := [FieldsMappingEntry(JStr("text"), f1), FieldsMappingEntry(JStr("score"), f2),
               FieldsMappingEntry(JStr("layoutText"), f3)];
    var m1 := FieldMapping(JStr("/document/myOcrText"), f1, JNull);
    var m3 := FieldMapping(JStr("/document/myLayoutText"), f3, JNull);
    OcrEntry(fm[0], [m1]);
    OcrEntry(fm[1], []);
    OcrEntry(fm[2], [m3]);
    TranslateThree(fm[0], fm[1], fm[2], OcrSources);
    assert [m1] + [] + [m3] == [m1, m3];
  }

  /** Three entries yield what each yields, in order. */
  lemma TranslateThree(a: FieldsMappingEntry, b: FieldsMappingEntry, c: FieldsMappingEntry,
                       table: seq<(string, string)>)
    ensures TranslateFieldsMapping([a, b, c], table)
      == EntryMappings(a, table) + EntryMappings(b, table) + EntryMappings(c, table)
  {
    var fm := [a, b, c];
    assert fm[..1][..0] == [] && fm[..2][..1] == fm[..1] && fm[..3] == fm;
    assert TranslateFieldsMapping(fm[..1], table) == EntryMappings(a, table);
    assert TranslateFieldsMapping(fm[..2], table) == EntryMappings(a, table) + EntryMappings(b, table);
  }

  /** What one entry yields against the OCR table. */
  lemma OcrEntry(e: FieldsMappingEntry, expected: seq<FieldMapping>)
    requires expected == if e.name == JStr("text") then [FieldMapping(JStr("/document/myOcrText"), e.field, JNull)]
                         else if e.name == JStr("layoutText") then [FieldMapping(JStr("/document/myLayoutText"), e.field, JNull)]
                         else []
    ensures EntryMappings(e, OcrSources) == expected
  {
    assert OcrSources[..1] == [OcrSources[0]] && OcrSources[..1][..0] == [];
    assert OcrSources[..2] == OcrSources;
  }

  // ----- default inputs and outputs -----

  const KeyPhraseDefaultInputs: seq<SkillInput> := [NewInput("text", "/document/pages/*")]
  const LanguageDetectionDefaultInputs: seq<SkillInput> := [NewInput("text", "/document/content")]
  const EntityRecognitionDefaultInputs: seq<SkillInput> := [NewInput("text", "/document/content")]
  const MergeDefaultInputs: seq<SkillInput> := [
    NewInput("text", "/document/content"), NewInput("itemsToInsert", "/document/normalized_images/*/text"),
    NewInput("offsets", "/document/normalized_images/*/contentOffset")]
  const SplitDefaultInputs: seq<SkillInput> := [NewInput("text", "/document/content")]
  const SentimentDefaultInputs: seq<SkillInput> := [
    NewInput("text", "/document/text"), NewInput("languageCode", "/document/languageCode")]
  const ImageAnalysisDefaultInputs: seq<SkillInput> := [NewInput("image", "/document/normalized_images/*")]
  const OcrDefaultInputs: seq<SkillInput> := [NewInput("image", "/document/normalized_images/*")]

  /** The parameters the skills declare for their outputs. */
  const KeyPhrases := SkillParameter("keyPhrases", "keyPhrases", true)
  const TextItems := SkillParameter("textItems", "pages", false)

  const KeyPhraseDefaultOutputs: seq<SkillOutput> := [ToSkillOutput(KeyPhrases)]
  const LanguageDetectionDefaultOutputs: seq<SkillOutput> := [
    NewOutput("languageCode", "languageCode"), NewOutput("languageName", "languageName"), NewOutput("score", "score")]
  const MergeSetDefaultOutputs: seq<SkillOutput> := [NewOutput("mergedText", "mergedText")]
  const MergeGetDefaultOutputs: seq<SkillOutput> := [NewOutput("mergedText", "merged_text")]
  const SplitDefaultOutputs: seq<SkillOutput> := [ToSkillOutput(TextItems)]
  const SentimentDefaultOutputs: seq<SkillOutput> := [NewOutput("score", "mysentiment")]
  const OcrDefaultOutputs: seq<SkillOutput> := [NewOutput("text", "myOcrText"), NewOutput("layoutText", "myLayoutText")]

  /** A default input list: distinct names (so remove_source removes exactly the named
      ones), every input a non-empty document path that survives the round trip. */
  predicate WellFormedInputs(ins: seq<SkillInput>)
  {
    DistinctInputNames(ins)
    && forall i :: 0 <= i < |ins| ==>
      (InputRoundTrips(ins[i]) && ins[i].source.JStr? && |ins[i].source.s| >= 10
       && ins[i].source.s[..10] == "/document/")
  }

  /** A default output list: distinct names, every output surviving the round trip and
      mapped to a document path. */
  predicate WellFormedOutputs(outs: seq<SkillOutput>)
  {
    (forall i, j :: 0 <= i < j < |outs| ==> outs[i].name != outs[j].name)
    && forall i :: 0 <= i < |outs| ==> OutputRoundTrips(outs[i]) && DocPath(outs[i]).Ok?
  }

  lemma DefaultInputsWellFormed()
    ensures WellFormedInputs(KeyPhraseDefaultInputs) && WellFormedInputs(LanguageDetectionDefaultInputs)
    ensures WellFormedInputs(EntityRecognitionDefaultInputs) && WellFormedInputs(MergeDefaultInputs)
    ensures WellFormedInputs(SplitDefaultInputs) && WellFormedInputs(SentimentDefaultInputs)
    ensures WellFormedInputs(ImageAnalysisDefaultInputs) && WellFormedInputs(OcrDefaultInputs)
  {
    DocumentInput("text", "pages/*");
    DocumentInput("text", "content");
    DocumentInput("image", "normalized_images/*");
    MergeInputsWellFormed();
    SentimentInputsWellFormed();
  }

  /** One input reading a document path is well formed. */
  lemma DocumentInput(name: string, rest: string)
    requires name != []
    ensures WellFormedInputs([NewInput(name, "/document/" + rest)])
  {
    assert ("/document/" + rest)[..10] == "/document/";
  }

  lemma MergeInputsWellFormed()
    ensures WellFormedInputs(MergeDefaultInputs)
  {
    assert "/document/content"[..10] == "/document/";
    assert "/document/normalized_images/*/text"[..10] == "/document/";
    assert "/document/normalized_images/*/contentOffset"[..10] == "/document/";
  }

  lemma SentimentInputsWellFormed()
    ensures WellFormedInputs(SentimentDefaultInputs)
  {
    assert "/document/text"[..10] == "/document/";
    assert "/document/languageCode"[..10] == "/document/";
  }

  lemma DefaultOutputsWellFormed()
    ensures WellFormedOutputs(KeyPhraseDefaultOutputs) && WellFormedOutputs(LanguageDetectionDefaultOutputs)
    ensures WellFormedOutputs(MergeSetDefaultOutputs) && WellFormedOutputs(MergeGetDefaultOutputs)
    ensures WellFormedOutputs(SplitDefaultOutputs) && WellFormedOutputs(SentimentDefaultOutputs)
    ensures WellFormedOutputs(OcrDefaultOutputs)
  {
    TextOutputsWellFormed();
    MergeOutputsWellFormed();
    SplitOutputsWellFormed();
  }

  lemma TextOutputsWellFormed()
    ensures WellFormedOutputs(KeyPhraseDefaultOutputs) && WellFormedOutputs(LanguageDetectionDefaultOutputs)
  {
  }

  lemma MergeOutputsWellFormed()
    ensures WellFormedOutputs(MergeSetDefaultOutputs) && WellFormedOutputs(MergeGetDefaultOutputs)
  {
  }

  lemma SplitOutputsWellFormed()
    ensures WellFormedOutputs(SplitDefaultOutputs) && WellFormedOutputs(SentimentDefaultOutputs)
    ensures WellFormedOutputs(OcrDefaultOutputs)
  {
  }

  /** The key phrases are mapped element-wise and the split pages as one field. */
  lemma DefaultOutputPaths()
    ensures OutputFieldMappings(KeyPhraseDefaultOutputs)
      == Ok([FieldMapping(JStr("/document/keyPhrases/*"), JStr("keyPhrases"), JNull)])
    ensures OutputFieldMappings(SplitDefaultOutputs)
      == Ok([FieldMapping(JStr("/document/pages"), JStr("textItems"), JNull)])
  {
    var r := OutputFieldMappings(KeyPhraseDefaultOutputs);
    OutputPathLiterals();
    assert DocPath(KeyPhraseDefaultOutputs[0]) == Ok("/document/" + "keyPhrases" + "/*");
    assert r.value == [r.value[0]];
    var t := OutputFieldMappings(SplitDefaultOutputs);
    assert DocPath(SplitDefaultOutputs[0]) == Ok("/document/" + "pages" + "");
    assert t.value == [t.value[0]];
  }

  lemma OutputPathLiterals()
    ensures "/document/" + "keyPhrases" + "/*" == "/document/keyPhrases/*"
    ensures "/document/" + "pages" + "" == "/document/pages"
  {
  }
}
