/** Documents of an index: the type check a document passes before it is sent, and the
    `@search.action` tag that tells the service to upload or delete it. */
module Documents {
  import opened Wire
  import opened Fields
  import opened Indexes

  /** `isinstance(v, t)` for the Python types a field can require. A Python bool is an
      int, so `isinstance(True, int)` holds. */
  predicate IsInstance(v: Json, t: PyType)
  {
    match t
    case NoPyType => true
    case PyStr => v.JStr?
    case PyInt => v.JInt? || v.JBool?
    case PyFloat => v.JReal?
    case PyBool => v.JBool?
  }

  /** One turn of the loop in `check_document`: a field without a Python type is skipped;
      otherwise looking its name up raises for a list or dict name, a name the document
      lacks is skipped, and a value of the wrong type raises a bare `Exception`. */
  function FieldCheck(f: Field, doc: Dict<Json>): (r: Result<()>)
    ensures PythonType(f.kind) == NoPyType ==> r.Ok?
    ensures Hashable(f.name) && !(f.name.JStr? && HasKey(doc, f.name.s)) ==> r.Ok?
    ensures r.Err? <==> PythonType(f.kind) != NoPyType && (!Hashable(f.name) || Rejects(f, doc))
  {
    if PythonType(f.kind) == NoPyType then Ok(())
    else if !Hashable(f.name) then Err(TypeError("unhashable type"))
    else if Rejects(f, doc) then Err(Exception(""))
    else Ok(())
  }

  /** The document has a value under the field's name, and it is not of the field's
      Python type. */
  predicate Rejects(f: Field, doc: Dict<Json>)
  {
    f.name.JStr? && HasKey(doc, f.name.s) && !IsInstance(Get(doc, f.name.s).value, PythonType(f.kind))
  }

  /** `check_document` over the index's fields in order: the first field that raises
      decides the error; otherwise the result is True. */
  function DocumentCheck(fields: seq<Field>, doc: Dict<Json>): (r: Result<bool>)
  {
    if fields == [] then Ok(true)
    else
      var _ :- FieldCheck(fields[0], doc);
      DocumentCheck(fields[1..], doc)
  }

  /** The key the service reads the action from. */
  const ActionKey := "@search.action"

  /** `doc["@search.action"] = action`: an existing tag is overwritten where it stands,
      a new one is appended, and every other entry is kept. */
  function Tagged(doc: Dict<Json>, action: string): (r: Dict<Json>)
    ensures Get(r, ActionKey) == Some(JStr(action))
    ensures forall k :: k != ActionKey ==> Get(r, k) == Get(doc, k)
    ensures HasKey(doc, ActionKey) ==> |r| == |doc| && forall i :: 0 <= i < |doc| ==> r[i].0 == doc[i].0
    ensures !HasKey(doc, ActionKey) ==> r == doc + [(ActionKey, JStr(action))]
  {
    Put(doc, ActionKey, JStr(action))
  }

  /** The documents after the first k of them were tagged. */
  function TaggedUpTo(docs: seq<Dict<Json>>, k: nat, action: string): (r: seq<Dict<Json>>)
    requires k <= |docs|
  {
    seq(|docs|, i requires 0 <= i < |docs| => if i < k then Tagged(docs[i], action) else docs[i])
  }

  /** The position of the first document that fails the check, or the number of
      documents when none does. */
  function FirstFailure(fields: seq<Field>, docs: seq<Dict<Json>>): (k: nat)
    ensures k <= |docs|
    ensures forall i :: 0 <= i < k ==> DocumentCheck(fields, docs[i]).Ok?
    ensures k < |docs| ==> DocumentCheck(fields, docs[k]).Err?
  {
    if docs == [] then 0
    else if DocumentCheck(fields, docs[0]).Err? then 0
    else 1 + FirstFailure(fields, docs[1..])
  }

  /** `{'value': docs}`, the body of the indexing request. */
  function Payload(docs: seq<Dict<Json>>): Json
  {
    JObj([("value", JArr(seq(|docs|, i requires 0 <= i < |docs| => JObj(docs[i]))))])
  }

  /** What `add` or `delete` gives back: the request body when every document passed,
      the first failing document's error otherwise. */
  function TagOutcome(fields: seq<Field>, before: seq<Dict<Json>>, after: seq<Dict<Json>>): Result<Json>
  {
    var k := FirstFailure(fields, before);
    if k == |before| then Ok(Payload(after)) else Err(DocumentCheck(fields, before[k]).exc)
  }

  /** The document helper of an index (`index.documents`). */
  class DocumentSet {
    const index: Index

    constructor (index: Index)
      ensures this.index == index
    {
      this.index := index;
    }

    /** `check_document`: True when every field with a Python type that the document has
        holds a value of that type; the first field that does not raises. */
    method CheckDocument(doc: Dict<Json>) returns (r: Result<bool>)
      ensures r == DocumentCheck(index.fields, doc)
    {
      var fields := index.fields;
      var i := 0;
      while i < |fields|
        invariant 0 <= i <= |fields|
        invariant DocumentCheck(fields, doc) == DocumentCheck(fields[i..], doc)
      {
        var c := FieldCheck(fields[i], doc);
        assert fields[i..][1..] == fields[i + 1..];
        if c.Err? {
          return Err(c.exc);
        }
        i := i + 1;
      }
      return Ok(true);
    }

    /** `add`: each document in turn is checked and tagged `mergeOrUpload` in place; the
        first one that fails the check raises, leaving the ones before it tagged. */
    method Add(docs: array<Dict<Json>>) returns (r: Result<Json>)
      modifies docs
      ensures docs[..] == TaggedUpTo(old(docs[..]), FirstFailure(index.fields, old(docs[..])), "mergeOrUpload")
      ensures r == TagOutcome(index.fields, old(docs[..]), docs[..])
    {
      r := TagEach(docs, "mergeOrUpload");
    }

    /** `delete`: the same loop, with the tag `delete`. */
    method Delete(docs: array<Dict<Json>>) returns (r: Result<Json>)
      modifies docs
      ensures docs[..] == TaggedUpTo(old(docs[..]), FirstFailure(index.fields, old(docs[..])), "delete")
      ensures r == TagOutcome(index.fields, old(docs[..]), docs[..])
    {
      r := TagEach(docs, "delete");
    }

    /** The loop `add` and `delete` share; `docs` collects the same dicts in the same
        order, so the request body lists the caller's documents. */
    method TagEach(docs: array<Dict<Json>>, action: string) returns (r: Result<Json>)
      modifies docs
      ensures docs[..] == TaggedUpTo(old(docs[..]), FirstFailure(index.fields, old(docs[..])), action)
      ensures r == TagOutcome(index.fields, old(docs[..]), docs[..])
    {
      ghost var before := docs[..];
      var i := 0;
      while i < docs.Length
        invariant 0 <= i <= docs.Length
        invariant i <= FirstFailure(index.fields, before)
        invariant docs[..] == TaggedUpTo(before, i, action)
      {
        var ok := CheckDocument(docs[i]);
        assert docs[i] == before[i];
        FirstFailureAt(index.fields, before, i);
        if ok.Err? {
          return Err(ok.exc);
        }
        docs[i] := Tagged(docs[i], action);
        assert docs[..] == TaggedUpTo(before, i + 1, action);
        i := i + 1;
      }
      return Ok(Payload(docs[..]));
    }
  }

  /** The first failure is at i exactly when the document at i fails and every one before
      it passes. */
  lemma {:induction false} FirstFailureAt(fields: seq<Field>, docs: seq<Dict<Json>>, i: nat)
    requires i < |docs| && forall j :: 0 <= j < i ==> DocumentCheck(fields, docs[j]).Ok?
    ensures DocumentCheck(fields, docs[i]).Err? <==> FirstFailure(fields, docs) == i
    ensures DocumentCheck(fields, docs[i]).Ok? ==> FirstFailure(fields, docs) > i
    decreases i
  {
    if i > 0 {
      FirstFailureAt(fields, docs[1..], i - 1);
    }
  }

  // ----- lemmas: check_document -----

  /** `check_document` returns True exactly when no field raises, and otherwise raises
      what the first field that raises raises. */
  lemma {:induction false} DocumentCheckFirst(fields: seq<Field>, doc: Dict<Json>)
    ensures DocumentCheck(fields, doc).Ok? <==> forall i :: 0 <= i < |fields| ==> FieldCheck(fields[i], doc).Ok?
    ensures DocumentCheck(fields, doc).Ok? ==> DocumentCheck(fields, doc).value
    ensures DocumentCheck(fields, doc).Err? ==>
      (exists i :: 0 <= i < |fields|
        && (forall j :: 0 <= j < i ==> FieldCheck(fields[j], doc).Ok?)
        && FieldCheck(fields[i], doc) == Err(DocumentCheck(fields, doc).exc))
  {
    if fields != [] {
      DocumentCheckFirst(fields[1..], doc);
      assert forall i :: 1 <= i < |fields| ==> fields[i] == fields[1..][i - 1];
      if FieldCheck(fields[0], doc).Ok? && DocumentCheck(fields, doc).Err? {
        var i :| 0 <= i < |fields[1..]| && (forall j :: 0 <= j < i ==> FieldCheck(fields[1..][j], doc).Ok?)
          && FieldCheck(fields[1..][i], doc) == Err(DocumentCheck(fields, doc).exc);
        assert FieldCheck(fields[i + 1], doc) == Err(DocumentCheck(fields, doc).exc);
      }
    }
  }

  /** A field that is never checked (no Python type, or a name the document lacks) makes
      no difference wherever it stands among the index's fields. */
  lemma {:induction false} UncheckedFieldIgnored(pre: seq<Field>, f: Field, post: seq<Field>, doc: Dict<Json>)
    requires PythonType(f.kind) == NoPyType || (Hashable(f.name) && !(f.name.JStr? && HasKey(doc, f.name.s)))
    ensures DocumentCheck(pre + [f] + post, doc) == DocumentCheck(pre + post, doc)
  {
    if pre == [] {
      assert pre + [f] + post == [f] + post && pre + post == post;
      assert ([f] + post)[1..] == post;
    } else {
      UncheckedFieldIgnored(pre[1..], f, post, doc);
      assert (pre + [f] + post)[1..] == pre[1..] + [f] + post;
      assert (pre + post)[1..] == pre[1..] + post;
    }
  }

  // ----- lemmas: tagging -----

  /** Tagging a document again replaces the earlier tag: deleting documents that were
      added sends them as if they had only been deleted. */
  lemma RetagReplaces(doc: Dict<Json>, a: string, b: string)
    ensures Tagged(Tagged(doc, a), b) == Tagged(doc, b)
  {
    if HasKey(doc, ActionKey) {
      var i := IndexOf(doc, ActionKey);
      PutAt(doc, i, ActionKey, JStr(a));
      PutAt(doc, i, ActionKey, JStr(b));
      PutAt(Tagged(doc, a), i, ActionKey, JStr(b));
    } else {
      var t := Tagged(doc, a);
      PutAt(t, |doc|, ActionKey, JStr(b));
    }
  }

  /** The tag does not make a passing document fail, as long as no typed field is named
      `@search.action` with a type other than str. */
  lemma TaggedStillPasses(fields: seq<Field>, doc: Dict<Json>, action: string)
    requires forall i :: 0 <= i < |fields| && fields[i].name == JStr(ActionKey) ==>
      PythonType(fields[i].kind) == NoPyType || PythonType(fields[i].kind) == PyStr
    requires DocumentCheck(fields, doc).Ok?
    ensures DocumentCheck(fields, Tagged(doc, action)) == Ok(true)
  {
    var t := Tagged(doc, action);
    DocumentCheckFirst(fields, doc);
    DocumentCheckFirst(fields, t);
    forall i | 0 <= i < |fields| ensures FieldCheck(fields[i], t).Ok? {
      assert FieldCheck(fields[i], doc).Ok?;
    }
  }

  /** After every document passed `add`, `delete` on the same documents passes too, and
      leaves them tagged as if only `delete` had run. */
  lemma DeleteAfterAdd(fields: seq<Field>, docs: seq<Dict<Json>>)
    requires forall i :: 0 <= i < |fields| && fields[i].name == JStr(ActionKey) ==>
      PythonType(fields[i].kind) == NoPyType || PythonType(fields[i].kind) == PyStr
    requires FirstFailure(fields, docs) == |docs|
    ensures var added := TaggedUpTo(docs, |docs|, "mergeOrUpload");
      && FirstFailure(fields, added) == |added|
      && TaggedUpTo(added, |added|, "delete") == TaggedUpTo(docs, |docs|, "delete")
  {
    var added := TaggedUpTo(docs, |docs|, "mergeOrUpload");
    forall i | 0 <= i < |docs| ensures DocumentCheck(fields, added[i]).Ok? {
      assert added[i] == Tagged(docs[i], "mergeOrUpload");
      TaggedStillPasses(fields, docs[i], "mergeOrUpload");
    }
    var k := FirstFailure(fields, added);
    if k < |added| {
      assert false;
    }
    var deleted := TaggedUpTo(added, |added|, "delete");
    forall i | 0 <= i < |docs| ensures deleted[i] == Tagged(docs[i], "delete") {
      assert added[i] == Tagged(docs[i], "mergeOrUpload");
      RetagReplaces(docs[i], "mergeOrUpload", "delete");
    }
  }
}
