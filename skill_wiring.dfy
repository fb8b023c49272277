/** The in-place part of a skill: the output field mappings it derives, and the rewiring
    of its inputs from another skill's outputs (`add_source`) or their removal
    (`remove_source`). A skill is an object whose `inputs` list these operations update. */
module SkillWiring {
  import opened Wire
  import opened FieldMappings
  import opened Skills

  // ----- source paths -----

  /** The suffix that marks an output with several results. */
  function MultipleSuffix(o: SkillOutput): string
  {
    if Truthy(o.returnsMultipleResults) then "/*" else ""
  }

  /** `"/document/" + output.target_name + suffix`: the enriched-document path of an
      output. Concatenating anything but a string to a string raises TypeError. */
  function DocPath(o: SkillOutput): (r: Result<string>)
    ensures r.Err? <==> !o.targetName.JStr?
    ensures r.Ok? ==> r.value == "/document/" + o.targetName.s + MultipleSuffix(o)
  {
    if o.targetName.JStr? then Ok("/document/" + o.targetName.s + MultipleSuffix(o))
    else Err(TypeError("can only concatenate str to str"))
  }

  /** A path built by DocPath starts with `/document/`, ends with the wildcard suffix exactly when the
      output has several results, and holds the target in between. */
  lemma DocPathShape(o: SkillOutput)
    requires DocPath(o).Ok?
    ensures var p := DocPath(o).value;
      && |p| >= 10 && p[..10] == "/document/"
      && (Truthy(o.returnsMultipleResults) <==> (|p| >= 12 && p[|p| - 2..] == "/*"
                                                  && p[10..|p| - 2] == o.targetName.s))
      && (!Truthy(o.returnsMultipleResults) ==> p[10..] == o.targetName.s)
  {
    var p := DocPath(o).value;
    assert p[..10] == "/document/";
    if Truthy(o.returnsMultipleResults) {
      assert p[|p| - 2..] == "/*";
    } else {
      assert p[10..] == o.targetName.s;
      if |p| >= 12 && p[|p| - 2..] == "/*" {
        assert p[|p| - 1] == '*';
        assert o.targetName.s[|o.targetName.s| - 1] == '*';
      }
    }
  }

  // ----- get_output_field_mappings -----

  /** The mapping of one output: from its document path to its name. */
  function OutputMapping(o: SkillOutput): Result<FieldMapping>
  {
    var p :- DocPath(o);
    Ok(FieldMapping(JStr(p), o.name, JNull))
  }

  /** One mapping per output, in order; the first output whose target is not a string
      stops the loop with its TypeError. */
  function OutputFieldMappings(outs: seq<SkillOutput>): (r: Result<seq<FieldMapping>>)
    ensures r.Ok? <==> forall i :: 0 <= i < |outs| ==> outs[i].targetName.JStr?
    ensures r.Err? ==> r == Err(TypeError("can only concatenate str to str"))
    ensures r.Ok? ==> |r.value| == |outs| && forall i :: 0 <= i < |outs| ==>
      r.value[i] == FieldMapping(JStr(DocPath(outs[i]).value), outs[i].name, JNull)
    decreases |outs|
  {
    if outs == [] then Ok([])
    else
      var init :- OutputFieldMappings(outs[..|outs| - 1]);
      var last :- OutputMapping(outs[|outs| - 1]);
      Ok(init + [last])
  }

  /** A skill: its type, inputs, outputs, context and params, as fields. Inputs and outputs
      are held by value. */
  class Skill {
    var skillType: Json
    var inputs: seq<SkillInput>
    var outputs: seq<SkillOutput>
    var context: Json
    var params: Dict<Json>
    var outputFieldMapping: Option<seq<FieldMapping>>

    /** The skill's current state as a value. */
    function Spec(): SkillSpec
      reads this
    {
      SkillSpec(skillType, inputs, outputs, context, params, outputFieldMapping)
    }

    constructor(s: SkillSpec)
      ensures Spec() == s
    {
      skillType := s.skillType;
      inputs := s.inputs;
      outputs := s.outputs;
      context := s.context;
      params := s.params;
      outputFieldMapping := s.outputFieldMapping;
    }

    /** `get_output_field_mappings`. */
    method GetOutputFieldMappings() returns (r: Result<seq<FieldMapping>>)
      ensures r == OutputFieldMappings(outputs)
    {
      var ofm: seq<FieldMapping> := [];
      var k := 0;
      while k < |outputs|
        invariant 0 <= k <= |outputs|
        invariant OutputFieldMappings(outputs[..k]) == Ok(ofm)
      {
        var o := outputs[k];
        if !o.targetName.JStr? {
          assert outputs[..k + 1][k] == o;
          return Err(TypeError("can only concatenate str to str"));
        }
        var p := "/document/" + o.targetName.s + MultipleSuffix(o);
        ofm := ofm + [FieldMapping(JStr(p), o.name, JNull)];
        assert outputs[..k + 1][..k] == outputs[..k];
        k := k + 1;
      }
      assert outputs[..k] == outputs;
      return Ok(ofm);
    }

    /** `add_source`: each selected output of `other` sets the source of every input with
        its name, or is appended as a new input when none has it. An exception stops the
        loop and leaves the outputs already handled in place. */
    method AddSource(other: Skill, includeList: Json) returns (err: Option<Exc>)
      modifies this
      ensures (inputs, err) == AddAll(old(inputs), old(other.outputs), includeList)
      ensures skillType == old(skillType) && outputs == old(outputs) && context == old(context)
      ensures params == old(params) && outputFieldMapping == old(outputFieldMapping)
    {
      var outs := other.outputs;
      var k := 0;
      while k < |outs|
        invariant 0 <= k <= |outs|
        invariant AddAll(inputs, outs[k..], includeList) == AddAll(old(inputs), outs, includeList)
        invariant skillType == old(skillType) && outputs == old(outputs) && context == old(context)
        invariant params == old(params) && outputFieldMapping == old(outputFieldMapping)
      {
        var o := outs[k];
        assert outs[k..][0] == o && outs[k..][1..] == outs[k + 1..];
        var selected := Selected(o, includeList);
        if selected.Err? {
          return Some(selected.exc);
        }
        if selected.value {
          if !o.targetName.JStr? {
            return Some(TypeError("can only concatenate str to str"));
          }
          var src := JStr("/document/" + o.targetName.s + MultipleSuffix(o));
          ghost var before := inputs;
          WireInput(o.name, src);
          assert AddOne(before, o, includeList) == Ok(inputs);
        }
        k := k + 1;
      }
      return None;
    }

    /** The body of `add_source` for one selected output: every input named n takes the
        source src; when none is named n, a new input is appended. */
    method WireInput(n: Json, src: Json)
      modifies this
      ensures inputs == Wired(old(inputs), n, src)
      ensures skillType == old(skillType) && outputs == old(outputs) && context == old(context)
      ensures params == old(params) && outputFieldMapping == old(outputFieldMapping)
    {
      var found := false;
      var j := 0;
      ghost var before := inputs;
      while j < |inputs|
        invariant 0 <= j <= |inputs|
        invariant |inputs| == |before|
        invariant forall i :: 0 <= i < j ==>
          inputs[i] == if before[i].name == n then before[i].(source := src) else before[i]
        invariant forall i :: j <= i < |inputs| ==> inputs[i] == before[i]
        invariant found <==> exists i :: 0 <= i < j && before[i].name == n
        invariant skillType == old(skillType) && outputs == old(outputs) && context == old(context)
        invariant params == old(params) && outputFieldMapping == old(outputFieldMapping)
      {
        if inputs[j].name == n {
          found := true;
          inputs := inputs[j := inputs[j].(source := src)];
        }
        j := j + 1;
      }
      if !found {
        assert inputs == before;
        inputs := inputs + [SkillInput(n, src, [])];
      } else {
        assert inputs == SetSources(before, n, src);
      }
    }

    /** `remove_source`: neither a skill nor a name, or both, raise. With a skill, each of
        its outputs' names is scanned for and removed; with a name, that name is. Both
        scans remove from the list they iterate over, as the source does. */
    method RemoveSource(skill: Skill?, sourceName: Json) returns (err: Option<Exc>)
      modifies this
      ensures skill == null && sourceName.JNull? ==>
        err == Some(Exception("please provide either a skill or a source name"))
      ensures skill != null && Truthy(sourceName) ==>
        err == Some(Exception("please provide only a skill or a source name"))
      ensures err.Some? ==> inputs == old(inputs)
      ensures err.None? <==> !(skill == null && sourceName.JNull?) && !(skill != null && Truthy(sourceName))
      ensures err.None? && skill != null ==> inputs == RemoveScanAll(old(inputs), old(skill.outputs))
      ensures err.None? && skill == null ==>
        inputs == if Truthy(sourceName) then RemoveScan(old(inputs), sourceName, 0) else old(inputs)
      ensures skillType == old(skillType) && outputs == old(outputs) && context == old(context)
      ensures params == old(params) && outputFieldMapping == old(outputFieldMapping)
    {
      if skill == null && sourceName.JNull? {
        return Some(Exception("please provide either a skill or a source name"));
      }
      if skill != null && Truthy(sourceName) {
        return Some(Exception("please provide only a skill or a source name"));
      }
      if skill != null {
        var outs := skill.outputs;
        var k := 0;
        while k < |outs|
          invariant 0 <= k <= |outs|
          invariant RemoveScanAll(inputs, outs[k..]) == RemoveScanAll(old(inputs), outs)
          invariant skillType == old(skillType) && outputs == old(outputs) && context == old(context)
          invariant params == old(params) && outputFieldMapping == old(outputFieldMapping)
        {
          assert outs[k..][0] == outs[k] && outs[k..][1..] == outs[k + 1..];
          ScanRemove(outs[k].name);
          k := k + 1;
        }
      }
      if Truthy(sourceName) {
        ScanRemove(sourceName);
      }
      return None;
    }

    /** `for input in self.inputs: if name == input.name: self.inputs.remove(input)`. */
    method ScanRemove(n: Json)
      modifies this
      ensures inputs == RemoveScan(old(inputs), n, 0)
      ensures skillType == old(skillType) && outputs == old(outputs) && context == old(context)
      ensures params == old(params) && outputFieldMapping == old(outputFieldMapping)
    {
      var i := 0;
      while i < |inputs|
        invariant 0 <= i <= |inputs| + 1
        invariant RemoveScan(inputs, n, i) == RemoveScan(old(inputs), n, 0)
        invariant skillType == old(skillType) && outputs == old(outputs) && context == old(context)
        invariant params == old(params) && outputFieldMapping == old(outputFieldMapping)
        decreases |inputs| + 1 - i
      {
        if inputs[i].name == n {
          inputs := inputs[..i] + inputs[i + 1..];
        }
        i := i + 1;
      }
    }

    /** `remove_input_by_name`: every input named n is removed, the rest keep their order. */
    method RemoveInputByName(n: Json)
      modifies this
      ensures inputs == WithoutName(old(inputs), n)
      ensures skillType == old(skillType) && outputs == old(outputs) && context == old(context)
      ensures params == old(params) && outputFieldMapping == old(outputFieldMapping)
    {
      var kept: seq<SkillInput> := [];
      var xs := inputs;
      var i := 0;
      assert xs[0..] == xs;
      while i < |xs|
        invariant 0 <= i <= |xs|
        invariant WithoutName(xs, n) == kept + WithoutName(xs[i..], n)
        invariant unchanged(this)
      {
        WithoutNameStep(xs, n, i);
        KeptStep(kept, xs[i], n, WithoutName(xs[i + 1..], n));
        if xs[i].name != n {
          kept := kept + [xs[i]];
        }
        i := i + 1;
      }
      assert xs[i..] == [];
      inputs := kept;
    }
  }

  // ----- add_source, as functions -----

  /** `output.name in include_list` for the container kinds Python allows: membership in a
      list, a substring of a string, a key of a dict. Anything else raises TypeError. */
  function Contains(container: Json, x: Json): (r: Result<bool>)
    ensures container.JArr? ==> r == Ok(x in container.items)
    ensures container.JStr? ==> (r.Ok? <==> x.JStr?)
    ensures container.JStr? && x.JStr? ==> r == Ok(IsSubstring(x.s, container.s))
    ensures container.JObj? && Hashable(x) ==> r == Ok(x.JStr? && HasKey(container.members, x.s))
    ensures container.JObj? && !Hashable(x) ==> r.Err?
    ensures !(container.JArr? || container.JStr? || container.JObj?) ==> r.Err?
  {
    match container
    case JArr(items) => Ok(x in items)
    case JStr(s) =>
      if x.JStr? then Ok(IsSubstring(x.s, s))
      else Err(TypeError("'in <string>' requires string as left operand"))
    case JObj(m) =>
      if !Hashable(x) then Err(TypeError("unhashable type"))
      else Ok(x.JStr? && HasKey(m, x.s))
    case _ => Err(TypeError("argument is not iterable"))
  }

  /** `a in s` on strings: a occurs somewhere in s. */
  predicate IsSubstring(a: string, s: string)
  {
    a <= s || (s != [] && IsSubstring(a, s[1..]))
  }

  /** a occurs in s starting at position i. */
  predicate OccursAt(a: string, s: string, i: int)
  {
    0 <= i && i + |a| <= |s| && s[i..i + |a|] == a
  }

  /** a is a substring of s exactly when it occurs in s at some position. */
  lemma {:induction false} IsSubstringAt(a: string, s: string)
    ensures IsSubstring(a, s) <==> exists i :: OccursAt(a, s, i)
  {
    if a <= s {
      assert OccursAt(a, s, 0);
    } else if s != [] {
      IsSubstringAt(a, s[1..]);
      if exists i :: OccursAt(a, s, i) {
        var i :| OccursAt(a, s, i);
        if i == 0 {
          assert false;
        }
        assert s[1..][i - 1..i - 1 + |a|] == s[i..i + |a|];
        assert OccursAt(a, s[1..], i - 1);
      }
      if IsSubstring(a, s[1..]) {
        var i :| OccursAt(a, s[1..], i);
        assert s[1..][i..i + |a|] == s[i + 1..i + 1 + |a|];
        assert OccursAt(a, s, i + 1);
      }
    } else {
      assert |a| > 0;
    }
  }

  /** Whether an output is taken: all are when the include list is falsy (None or empty). */
  function Selected(o: SkillOutput, includeList: Json): (r: Result<bool>)
    ensures !Truthy(includeList) ==> r == Ok(true)
    ensures Truthy(includeList) && includeList.JArr? ==> r == Ok(o.name in includeList.items)
  {
    if !Truthy(includeList) then Ok(true) else Contains(includeList, o.name)
  }

  /** Every input named n gets the source src; the others are kept. */
  function SetSources(ins: seq<SkillInput>, n: Json, src: Json): (r: seq<SkillInput>)
    ensures |r| == |ins|
    ensures forall i :: 0 <= i < |ins| ==> r[i] == if ins[i].name == n then ins[i].(source := src) else ins[i]
  {
    seq(|ins|, i requires 0 <= i < |ins| => if ins[i].name == n then ins[i].(source := src) else ins[i])
  }

  /** The effect of one output on the inputs. */
  function AddOne(ins: seq<SkillInput>, o: SkillOutput, includeList: Json): Result<seq<SkillInput>>
  {
    var selected :- Selected(o, includeList);
    if !selected then Ok(ins)
    else
      var p :- DocPath(o);
      Ok(Wired(ins, o.name, JStr(p)))
  }

  /** Inputs named n take the source src, or a new input (n, src) is appended when none
      is named n. */
  function Wired(ins: seq<SkillInput>, n: Json, src: Json): seq<SkillInput>
  {
    if exists i :: 0 <= i < |ins| && ins[i].name == n then SetSources(ins, n, src)
    else ins + [SkillInput(n, src, [])]
  }

  /** The outputs applied one after another; an exception stops the loop and is returned
      with the inputs as they were when it was raised. */
  function AddAll(ins: seq<SkillInput>, outs: seq<SkillOutput>, includeList: Json): (seq<SkillInput>, Option<Exc>)
    decreases |outs|
  {
    if outs == [] then (ins, None)
    else match AddOne(ins, outs[0], includeList)
      case Err(e) => (ins, Some(e))
      case Ok(next) => AddAll(next, outs[1..], includeList)
  }

  /** One output keeps the names and positions of the existing inputs, and touches only
      those that carry its name. */
  lemma AddOneFrame(ins: seq<SkillInput>, o: SkillOutput, includeList: Json)
    requires AddOne(ins, o, includeList).Ok?
    ensures var r := AddOne(ins, o, includeList).value;
      && |r| >= |ins|
      && (forall i :: 0 <= i < |ins| ==> r[i].name == ins[i].name && r[i].params == ins[i].params)
      && (forall i :: 0 <= i < |ins| && ins[i].name != o.name ==> r[i] == ins[i])
      && (forall i :: |ins| <= i < |r| ==> r[i].name == o.name && r[i].params == [])
  {
  }

  /** No output named n is selected by the include list. */
  predicate NoneSelected(outs: seq<SkillOutput>, n: Json, includeList: Json)
  {
    forall j :: 0 <= j < |outs| && outs[j].name == n ==> Selected(outs[j], includeList) == Ok(false)
  }

  /** `add_source` keeps every existing input in place with its name; an input whose name
      no selected output of the other skill carries is left as it was; every input it
      appends is named after one of those outputs. */
  lemma {:induction false} AddAllFrame(ins: seq<SkillInput>, outs: seq<SkillOutput>, includeList: Json)
    ensures var r := AddAll(ins, outs, includeList).0;
      && |r| >= |ins|
      && (forall i :: 0 <= i < |ins| ==> r[i].name == ins[i].name)
      && (forall i :: 0 <= i < |ins| && NoneSelected(outs, ins[i].name, includeList) ==> r[i] == ins[i])
      && (forall i :: |ins| <= i < |r| ==> exists j :: 0 <= j < |outs| && r[i].name == outs[j].name)
    decreases |outs|
  {
    if outs != [] && AddOne(ins, outs[0], includeList).Ok? {
      var next := AddOne(ins, outs[0], includeList).value;
      AddOneFrame(ins, outs[0], includeList);
      AddAllFrame(next, outs[1..], includeList);
      var r := AddAll(ins, outs, includeList).0;
      forall i | 0 <= i < |ins| && NoneSelected(outs, ins[i].name, includeList) ensures r[i] == ins[i] {
        NoneSelectedStep(outs, ins[i].name, includeList);
        if outs[0].name == ins[i].name {
          assert next == ins;
        }
      }
      forall i | |ins| <= i < |r| ensures exists j :: 0 <= j < |outs| && r[i].name == outs[j].name {
        if i < |next| {
          assert r[i].name == outs[0].name;
        } else {
          var j :| 0 <= j < |outs[1..]| && r[i].name == outs[1..][j].name;
          assert outs[1..][j] == outs[j + 1];
        }
      }
    }
  }

  /** The names of a list of outputs are pairwise distinct. */
  predicate DistinctOutputNames(outs: seq<SkillOutput>)
  {
    forall i, j :: 0 <= i < j < |outs| ==> outs[i].name != outs[j].name
  }

  /** When the other skill's output names are distinct and no exception is raised, every
      selected output is wired: some input carries its name, and every input with its name
      reads from its document path. */
  lemma {:induction false} AddAllWires(ins: seq<SkillInput>, outs: seq<SkillOutput>, includeList: Json, k: nat)
    requires DistinctOutputNames(outs)
    requires AddAll(ins, outs, includeList).1.None?
    requires k < |outs| && Selected(outs[k], includeList) == Ok(true)
    ensures DocPath(outs[k]).Ok?
    ensures var r := AddAll(ins, outs, includeList).0;
      && (exists i :: 0 <= i < |r| && r[i].name == outs[k].name)
      && (forall i :: 0 <= i < |r| && r[i].name == outs[k].name ==> r[i].source == JStr(DocPath(outs[k]).value))
    decreases |outs|
  {
    var next := AddOne(ins, outs[0], includeList).value;
    if k == 0 {
      AddAllKeepsSources(next, outs[1..], includeList, outs[0].name);
      var r := AddAll(ins, outs, includeList).0;
      AddAllFrame(next, outs[1..], includeList);
      if exists i :: 0 <= i < |ins| && ins[i].name == outs[0].name {
        var i :| 0 <= i < |ins| && ins[i].name == outs[0].name;
        assert r[i].name == outs[0].name;
      } else {
        assert next[|ins|].name == outs[0].name;
        assert r[|ins|].name == outs[0].name;
      }
    } else {
      assert DistinctOutputNames(outs[1..]) by {
        forall a, b | 0 <= a < b < |outs[1..]| ensures outs[1..][a].name != outs[1..][b].name {
          assert outs[1..][a] == outs[a + 1] && outs[1..][b] == outs[b + 1];
        }
      }
      assert outs[1..][k - 1] == outs[k];
      AddAllWires(next, outs[1..], includeList, k - 1);
    }
  }

  /** Outputs that are not selected, or do not carry the name n, leave the inputs named n
      as they are, and do not append any. */
  lemma {:induction false} AddAllKeepsSources(ins: seq<SkillInput>, outs: seq<SkillOutput>, includeList: Json, n: Json)
    requires forall j :: 0 <= j < |outs| && outs[j].name == n ==> Selected(outs[j], includeList) == Ok(false)
    ensures var r := AddAll(ins, outs, includeList).0;
      (forall i :: 0 <= i < |r| && r[i].name == n ==> i < |ins| && r[i] == ins[i])
    decreases |outs|
  {
    if outs != [] && AddOne(ins, outs[0], includeList).Ok? {
      var next := AddOne(ins, outs[0], includeList).value;
      if outs[0].name == n {
        assert next == ins;
      } else {
        AddOneFrame(ins, outs[0], includeList);
      }
      NoneSelectedStep(outs, n, includeList);
      AddAllKeepsSources(next, outs[1..], includeList, n);
      assert AddAll(ins, outs, includeList) == AddAll(next, outs[1..], includeList);
    }
  }

  lemma NoneSelectedStep(outs: seq<SkillOutput>, n: Json, includeList: Json)
    requires outs != [] && NoneSelected(outs, n, includeList)
    ensures NoneSelected(outs[1..], n, includeList)
    ensures outs[0].name == n ==> Selected(outs[0], includeList) == Ok(false)
  {
    assert forall j :: 0 <= j < |outs[1..]| ==> outs[1..][j] == outs[j + 1];
  }

  // ----- remove_source, as functions -----

  /** The scan of `remove_source` from position i: removing the input at i moves the next
      one into position i, and the scan goes on at i + 1, so that input is never looked
      at. */
  function RemoveScan(xs: seq<SkillInput>, n: Json, i: nat): seq<SkillInput>
    decreases |xs| + 1 - i
  {
    if i >= |xs| then xs
    else if xs[i].name == n then RemoveScan(xs[..i] + xs[i + 1..], n, i + 1)
    else RemoveScan(xs, n, i + 1)
  }

  /** The scans for each output's name, one after another. */
  function RemoveScanAll(xs: seq<SkillInput>, outs: seq<SkillOutput>): seq<SkillInput>
    decreases |outs|
  {
    if outs == [] then xs else RemoveScanAll(RemoveScan(xs, outs[0].name, 0), outs[1..])
  }

  /** The inputs not named n, in order. */
  function WithoutName(xs: seq<SkillInput>, n: Json): (r: seq<SkillInput>)
  {
    if xs == [] then []
    else (if xs[0].name == n then [] else [xs[0]]) + WithoutName(xs[1..], n)
  }

  /** The filter keeps exactly the inputs not named n. */
  lemma {:induction false} WithoutNameKeeps(xs: seq<SkillInput>, n: Json)
    ensures var r := WithoutName(xs, n);
      && |r| <= |xs|
      && (forall i :: 0 <= i < |r| ==> r[i] in xs && r[i].name != n)
      && (forall i :: 0 <= i < |xs| && xs[i].name != n ==> xs[i] in r)
  {
    if xs != [] {
      WithoutNameKeeps(xs[1..], n);
      var r := WithoutName(xs, n);
      var rest := WithoutName(xs[1..], n);
      forall i | 0 <= i < |xs| && xs[i].name != n ensures xs[i] in r {
        if i > 0 {
          assert xs[1..][i - 1] == xs[i];
        }
      }
    }
  }

  /** The inputs named after none of the outputs, in order. */
  function WithoutNames(xs: seq<SkillInput>, outs: seq<SkillOutput>): (r: seq<SkillInput>)
    ensures forall i :: 0 <= i < |r| ==> r[i] in xs && forall j :: 0 <= j < |outs| ==> r[i].name != outs[j].name
    ensures forall i :: 0 <= i < |xs| && (forall j :: 0 <= j < |outs| ==> xs[i].name != outs[j].name) ==> xs[i] in r
    decreases |outs|
  {
    if outs == [] then xs
    else
      WithoutNameKeeps(xs, outs[0].name);
      var r := WithoutNames(WithoutName(xs, outs[0].name), outs[1..]);
      assert forall j :: 1 <= j < |outs| ==> outs[j] == outs[1..][j - 1];
      r
  }

  /** No input named n directly follows another input named n. */
  predicate NoAdjacentNamed(xs: seq<SkillInput>, n: Json)
  {
    forall i :: 0 <= i < |xs| - 1 && xs[i].name == n ==> xs[i + 1].name != n
  }

  /** Input names are pairwise distinct. */
  predicate DistinctInputNames(xs: seq<SkillInput>)
  {
    forall i, j :: 0 <= i < j < |xs| ==> xs[i].name != xs[j].name
  }

  /** No input named n at position i or later directly follows another input named n. */
  predicate NoAdjacentNamedFrom(xs: seq<SkillInput>, n: Json, i: nat)
  {
    forall j :: i <= j < |xs| - 1 && xs[j].name == n ==> xs[j + 1].name != n
  }

  /** Moving the next input of the scan onto the kept ones. */
  lemma KeptStep(kept: seq<SkillInput>, x: SkillInput, n: Json, rest: seq<SkillInput>)
    ensures kept + ((if x.name == n then [] else [x]) + rest)
         == (if x.name == n then kept else kept + [x]) + rest
  {
    if x.name == n {
      assert [] + rest == rest;
    }
  }

  /** One step of the filter on a suffix. */
  lemma WithoutNameStep(xs: seq<SkillInput>, n: Json, i: nat)
    requires i < |xs|
    ensures WithoutName(xs[i..], n) == (if xs[i].name == n then [] else [xs[i]]) + WithoutName(xs[i + 1..], n)
  {
    assert xs[i..][0] == xs[i] && xs[i..][1..] == xs[i + 1..];
  }

  /** The scan from position i removes exactly the inputs named n from position i on when
      no two of them are adjacent there. */
  lemma {:induction false} RemoveScanFrom(xs: seq<SkillInput>, n: Json, i: nat)
    requires i <= |xs|
    requires NoAdjacentNamedFrom(xs, n, i)
    ensures RemoveScan(xs, n, i) == xs[..i] + WithoutName(xs[i..], n)
    decreases |xs| + 1 - i, 2
  {
    if i == |xs| {
      assert xs[..i] == xs && xs[i..] == [];
    } else if xs[i].name == n {
      if i + 1 == |xs| {
        RemoveScanLast(xs, n, i);
      } else {
        RemoveScanSkip(xs, n, i);
      }
    } else {
      RemoveScanKeep(xs, n, i);
    }
  }

  lemma {:induction false} RemoveScanKeep(xs: seq<SkillInput>, n: Json, i: nat)
    requires i < |xs| && xs[i].name != n
    requires NoAdjacentNamedFrom(xs, n, i)
    ensures RemoveScan(xs, n, i) == xs[..i] + WithoutName(xs[i..], n)
    decreases |xs| + 1 - i, 1
  {
    assert RemoveScan(xs, n, i) == RemoveScan(xs, n, i + 1);
    RemoveScanFrom(xs, n, i + 1);
    WithoutNameStep(xs, n, i);
    assert xs[..i + 1] == xs[..i] + [xs[i]];
    AppendAssoc(xs[..i], [xs[i]], WithoutName(xs[i + 1..], n));
  }

  lemma RemoveScanLast(xs: seq<SkillInput>, n: Json, i: nat)
    requires i + 1 == |xs| && xs[i].name == n
    ensures RemoveScan(xs, n, i) == xs[..i] + WithoutName(xs[i..], n)
  {
    var ys := xs[..i] + xs[i + 1..];
    assert ys == xs[..i];
    assert RemoveScan(xs, n, i) == RemoveScan(ys, n, i + 1) == ys;
    WithoutNameStep(xs, n, i);
    assert xs[i + 1..] == [];
  }

  /** The removal case of the scan, when an input follows the removed one. */
  lemma {:induction false} RemoveScanSkip(xs: seq<SkillInput>, n: Json, i: nat)
    requires i + 1 < |xs| && xs[i].name == n
    requires NoAdjacentNamedFrom(xs, n, i)
    ensures RemoveScan(xs, n, i) == xs[..i] + WithoutName(xs[i..], n)
    decreases |xs| + 1 - i, 1
  {
    var ys := xs[..i] + xs[i + 1..];
    assert RemoveScan(xs, n, i) == RemoveScan(ys, n, i + 1);
    SkipTail(xs, n, i);
    RemoveScanFrom(ys, n, i + 1);
    RemovedSlices(xs, i);
    WithoutNameStep(xs, n, i);
    WithoutNameStep(xs, n, i + 1);
    assert WithoutName(xs[i..], n) == [xs[i + 1]] + WithoutName(xs[i + 2..], n);
    AppendAssoc(xs[..i], [xs[i + 1]], WithoutName(xs[i + 2..], n));
  }

  lemma AppendAssoc(a: seq<SkillInput>, b: seq<SkillInput>, c: seq<SkillInput>)
    ensures (a + b) + c == a + (b + c)
  {
  }

  /** The parts of the inputs after a removal at i. */
  lemma RemovedSlices(xs: seq<SkillInput>, i: nat)
    requires i + 1 < |xs|
    ensures var ys := xs[..i] + xs[i + 1..];
      ys[i + 1..] == xs[i + 2..] && ys[..i + 1] == xs[..i] + [xs[i + 1]]
  {
  }

  /** After a removal at i, no two inputs named n are adjacent from i + 1 on. */
  lemma SkipTail(xs: seq<SkillInput>, n: Json, i: nat)
    requires i + 1 < |xs| && xs[i].name == n
    requires NoAdjacentNamedFrom(xs, n, i)
    ensures xs[i + 1].name != n
    ensures NoAdjacentNamedFrom(xs[..i] + xs[i + 1..], n, i + 1)
  {
    var ys := xs[..i] + xs[i + 1..];
    forall j | i + 1 <= j < |ys| - 1 && ys[j].name == n ensures ys[j + 1].name != n {
      assert ys[j] == xs[j + 1] && ys[j + 1] == xs[j + 2];
    }
  }

  /** `remove_source` with a name removes exactly the inputs with that name, keeping the
      rest in order, when no two inputs with that name are adjacent. */
  lemma RemoveScanRemovesNamed(xs: seq<SkillInput>, n: Json)
    requires NoAdjacentNamed(xs, n)
    ensures RemoveScan(xs, n, 0) == WithoutName(xs, n)
  {
    assert xs[0..] == xs;
    RemoveScanFrom(xs, n, 0);
  }

  /** Two adjacent inputs with the name: the scan removes the first and skips the second. */
  lemma AdjacentNamedInputSurvives()
    ensures var a := SkillInput(JStr("text"), JStr("/document/content"), []);
      RemoveScan([a, a], JStr("text"), 0) == [a] && WithoutName([a, a], JStr("text")) == []
  {
    var a := SkillInput(JStr("text"), JStr("/document/content"), []);
    assert [a, a][..0] + [a, a][1..] == [a];
    assert RemoveScan([a], JStr("text"), 1) == [a];
    assert [a, a][1..] == [a] && [a][1..] == [];
    assert WithoutName([a], JStr("text")) == [];
  }

  lemma {:induction false} DistinctWithoutName(xs: seq<SkillInput>, n: Json)
    requires DistinctInputNames(xs)
    ensures DistinctInputNames(WithoutName(xs, n))
  {
    if xs != [] {
      assert DistinctInputNames(xs[1..]) by {
        forall a, b | 0 <= a < b < |xs[1..]| ensures xs[1..][a].name != xs[1..][b].name {
          assert xs[1..][a] == xs[a + 1] && xs[1..][b] == xs[b + 1];
        }
      }
      DistinctWithoutName(xs[1..], n);
      WithoutNameKeeps(xs[1..], n);
      var rest := WithoutName(xs[1..], n);
      forall j | 0 <= j < |rest| ensures rest[j].name != xs[0].name {
        var k :| 0 <= k < |xs[1..]| && xs[1..][k] == rest[j];
        assert xs[1..][k] == xs[k + 1];
      }
    }
  }

  /** `remove_source` with a skill removes exactly the inputs named after its outputs when
      the input names are distinct. */
  lemma {:induction false} RemoveScanAllRemovesNamed(xs: seq<SkillInput>, outs: seq<SkillOutput>)
    requires DistinctInputNames(xs)
    ensures RemoveScanAll(xs, outs) == WithoutNames(xs, outs)
    decreases |outs|
  {
    if outs != [] {
      RemoveScanRemovesNamed(xs, outs[0].name);
      DistinctWithoutName(xs, outs[0].name);
      RemoveScanAllRemovesNamed(WithoutName(xs, outs[0].name), outs[1..]);
    }
  }
}
