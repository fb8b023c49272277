/** Wire values of the search service's REST payloads, ordered dictionaries with the
    semantics of a Python `dict`, and the Python exceptions the client library raises.

    A dictionary is an ordered sequence of (key, value) pairs. Writing a key that is
    already present replaces its value in place (the key keeps its position); writing a
    new key appends it. This is how Python's `dict` behaves, and it is what makes
    "the later key wins" and "params override the fixed keys" explicit. */
module Wire {

  datatype Option<+T> = None | Some(value: T)

  /** The exceptions the library raises, explicitly (`raise Exception("...")`) or through
      the Python runtime (a missing attribute, a missing argument, an index out of range). */
  datatype Exc =
    | Exception(msg: string)
    | TypeError(msg: string)
    | ValueError(msg: string)
    | KeyError
    | IndexError
    | AttributeError(attr: string)
    | MissingArgument(param: string)     // the TypeError of a call without a required argument
    | DuplicateArgument(param: string)   // the TypeError of a call given one argument twice

  datatype Result<+T> = Ok(value: T) | Err(exc: Exc) {
    predicate IsFailure() { Err? }
    function PropagateFailure<U>(): Result<U> requires Err? { Err(exc) }
    function Extract(): T requires Ok? { value }
  }

  /** An ordered dictionary with string keys. */
  type Dict<V> = seq<(string, V)>

  /** A decoded JSON value, as the service sends and receives it. */
  datatype Json =
    | JNull
    | JBool(b: bool)
    | JInt(i: int)
    | JReal(r: real)
    | JStr(s: string)
    | JArr(items: seq<Json>)
    | JObj(members: Dict<Json>)

  /** Python truthiness (`if value:`). */
  predicate Truthy(j: Json)
  {
    match j
    case JNull => false
    case JBool(b) => b
    case JInt(i) => i != 0
    case JReal(r) => r != 0.0
    case JStr(s) => s != []
    case JArr(items) => items != []
    case JObj(members) => members != []
  }

  /** True of the values that support `len()`: strings, lists and dicts. */
  predicate HasLen(j: Json)
  {
    j.JStr? || j.JArr? || j.JObj?
  }

  /** `len(j)` for the values that have one. */
  function Len(j: Json): nat
    requires HasLen(j)
  {
    match j
    case JStr(s) => |s|
    case JArr(items) => |items|
    case JObj(members) => |members|
  }

  /** Lists and dicts cannot be hashed: `x in some_dict` raises TypeError for them. */
  predicate Hashable(j: Json)
  {
    !(j.JArr? || j.JObj?)
  }

  // ----- dictionaries -----

  function KeySeq<V>(d: Dict<V>): (ks: seq<string>)
    ensures |ks| == |d|
    ensures forall i :: 0 <= i < |d| ==> ks[i] == d[i].0
  {
    if d == [] then [] else [d[0].0] + KeySeq(d[1..])
  }

  /** The position of the first entry with key k, or |d| when there is none. */
  function IndexOf<V>(d: Dict<V>, k: string): (i: nat)
    ensures i <= |d|
    ensures i < |d| ==> d[i].0 == k
    ensures forall j :: 0 <= j < i ==> d[j].0 != k
  {
    if d == [] then 0
    else if d[0].0 == k then 0
    else 1 + IndexOf(d[1..], k)
  }

  predicate HasKey<V>(d: Dict<V>, k: string)
  {
    IndexOf(d, k) < |d|
  }

  /** Every key occurs once, as in every Python dict. */
  predicate DistinctKeys<V>(d: Dict<V>)
  {
    forall i, j :: 0 <= i < j < |d| ==> d[i].0 != d[j].0
  }

  /** `d.get(k)`: the value of the first entry with key k. */
  function Get<V>(d: Dict<V>, k: string): (r: Option<V>)
    ensures r.None? <==> !HasKey(d, k)
    ensures r.Some? ==> (k, r.value) in d
  {
    var i := IndexOf(d, k);
    if i < |d| then Some(d[i].1) else None
  }

  /** `d[k] = v`. */
  function Put<V>(d: Dict<V>, k: string, v: V): (r: Dict<V>)
    ensures |r| == if HasKey(d, k) then |d| else |d| + 1
    ensures forall i :: 0 <= i < |d| ==> r[i].0 == d[i].0
    ensures forall i :: 0 <= i < |d| && d[i].0 != k ==> r[i] == d[i]
    ensures !HasKey(d, k) ==> r == d + [(k, v)]
    ensures forall i :: 0 <= i < |r| ==> r[i] == (k, v) || r[i] in d
    ensures Get(r, k) == Some(v)
    ensures forall k' :: k' != k ==> Get(r, k') == Get(d, k')
    ensures DistinctKeys(d) ==> DistinctKeys(r)
  {
    var i := IndexOf(d, k);
    if i < |d| then d[i := (k, v)] else d + [(k, v)]
  }

  /** The value of the LAST entry of e with key k: the one a dict built from e keeps. */
  function Last<V>(e: Dict<V>, k: string): (r: Option<V>)
    ensures r.None? <==> !HasKey(e, k)
    ensures r.Some? ==> (k, r.value) in e
  {
    if e == [] then None
    else if e[|e| - 1].0 == k then Some(e[|e| - 1].1)
    else Last(e[..|e| - 1], k)
  }

  /** Writing the entries of e into d one after another: `d.update(e)`, and the body of a
      dict comprehension when d is empty. */
  function PutAll<V>(d: Dict<V>, e: Dict<V>): (r: Dict<V>)
    ensures forall k :: Get(r, k) == if HasKey(e, k) then Last(e, k) else Get(d, k)
    ensures forall k :: HasKey(r, k) <==> HasKey(d, k) || HasKey(e, k)
    ensures DistinctKeys(d) ==> DistinctKeys(r)
    ensures |r| >= |d|
    ensures forall i :: 0 <= i < |d| ==> r[i].0 == d[i].0
    decreases |e|
  {
    if e == [] then d
    else Put(PutAll(d, e[..|e| - 1]), e[|e| - 1].0, e[|e| - 1].1)
  }

  /** The entries of d that satisfy keep, in their original order. */
  function FilterEntries<V>(d: Dict<V>, keep: ((string, V)) -> bool): (r: Dict<V>)
    ensures |r| <= |d|
    ensures forall i :: 0 <= i < |r| ==> r[i] in d && keep(r[i])
    ensures forall i :: 0 <= i < |d| && keep(d[i]) ==> d[i] in r
    ensures DistinctKeys(d) ==> DistinctKeys(r)
  {
    if d == [] then []
    else if keep(d[0]) then [d[0]] + FilterEntries(d[1..], keep)
    else FilterEntries(d[1..], keep)
  }

  /** `kwargs.get(name, default)`. */
  function GetOr<V>(kw: Dict<V>, name: string, default: V): V
  {
    match Get(kw, name)
    case Some(v) => v
    case None => default
  }

  /** The keyword arguments that no declared parameter binds: what `**kwargs` receives.
      Order is kept. */
  function WithoutKeys<V>(kw: Dict<V>, names: set<string>): (r: Dict<V>)
    ensures forall i :: 0 <= i < |r| ==> r[i] in kw && r[i].0 !in names
    ensures forall i :: 0 <= i < |kw| && kw[i].0 !in names ==> kw[i] in r
  {
    FilterEntries(kw, (p: (string, V)) => p.0 !in names)
  }

  // ----- lemmas -----

  /** Writing a key that first occurs at position i replaces that entry. */
  lemma PutAt<V>(d: Dict<V>, i: nat, k: string, v: V)
    requires i < |d| && d[i].0 == k
    requires forall j :: 0 <= j < i ==> d[j].0 != k
    ensures Put(d, k, v) == d[i := (k, v)]
  {
    assert IndexOf(d, k) == i;
  }

  /** The value at the first position of a key is the value `get` returns. */
  lemma PositionGet<V>(d: Dict<V>, i: nat, k: string)
    requires i < |d| && d[i].0 == k
    requires forall j :: 0 <= j < i ==> d[j].0 != k
    ensures HasKey(d, k) && Get(d, k) == Some(d[i].1)
  {
    assert IndexOf(d, k) == i;
  }

  /** Filtering distributes over concatenation. */
  lemma {:induction false} FilterEntriesAppend<V>(a: Dict<V>, b: Dict<V>, keep: ((string, V)) -> bool)
    ensures FilterEntries(a + b, keep) == FilterEntries(a, keep) + FilterEntries(b, keep)
  {
    if a == [] {
      assert a + b == b;
    } else {
      assert (a + b)[0] == a[0] && (a + b)[1..] == a[1..] + b;
      FilterEntriesAppend(a[1..], b, keep);
    }
  }

  /** Removing every key a dict has leaves nothing. */
  lemma {:induction false} WithoutEveryKey<V>(kw: Dict<V>, names: set<string>)
    requires forall i :: 0 <= i < |kw| ==> kw[i].0 in names
    ensures WithoutKeys(kw, names) == []
  {
    if kw != [] {
      WithoutEveryKey(kw[1..], names);
    }
  }

  /** Removing keys a dict does not have leaves it as it is. */
  lemma {:induction false} WithoutNoKey<V>(kw: Dict<V>, names: set<string>)
    requires forall i :: 0 <= i < |kw| ==> kw[i].0 !in names
    ensures WithoutKeys(kw, names) == kw
  {
    if kw != [] {
      WithoutNoKey(kw[1..], names);
    }
  }

  /** Removing keys distributes over concatenation. */
  lemma WithoutKeysAppend<V>(a: Dict<V>, b: Dict<V>, names: set<string>)
    ensures WithoutKeys(a + b, names) == WithoutKeys(a, names) + WithoutKeys(b, names)
  {
    FilterEntriesAppend(a, b, (p: (string, V)) => p.0 !in names);
  }

  lemma {:induction false} DistinctGet<V>(d: Dict<V>, k: string, v: V)
    requires DistinctKeys(d)
    ensures Get(d, k) == Some(v) <==> (k, v) in d
  {
    if d != [] && d[0].0 != k {
      assert DistinctKeys(d[1..]) by {
        forall i, j | 0 <= i < j < |d[1..]| ensures d[1..][i].0 != d[1..][j].0 {
          assert d[1..][i] == d[i + 1] && d[1..][j] == d[j + 1];
        }
      }
      DistinctGet(d[1..], k, v);
      assert (k, v) in d <==> (k, v) in d[1..] by {
        if (k, v) in d { var i :| 0 <= i < |d| && d[i] == (k, v); assert i != 0; assert d[1..][i - 1] == (k, v); }
      }
    } else if d != [] {
      if (k, v) in d {
        var i :| 0 <= i < |d| && d[i] == (k, v);
        assert i == 0;
      }
    }
  }

  /** In a dict (distinct keys) the last entry with a key is the only one. */
  lemma {:induction false} DistinctLast<V>(e: Dict<V>, k: string)
    requires DistinctKeys(e)
    ensures Last(e, k) == Get(e, k)
  {
    if Get(e, k).Some? {
      var v := Get(e, k).value;
      var i :| 0 <= i < |e| && e[i] == (k, v);
      LastAt(e, k, i);
    } else {
      assert Last(e, k).None?;
    }
  }

  lemma {:induction false} LastAt<V>(e: Dict<V>, k: string, i: nat)
    requires DistinctKeys(e)
    requires i < |e| && e[i].0 == k
    ensures Last(e, k) == Some(e[i].1)
  {
    if i != |e| - 1 {
      assert e[|e| - 1].0 != k;
      var p := e[..|e| - 1];
      assert p[i] == e[i];
      assert DistinctKeys(p) by {
        forall a, b | 0 <= a < b < |p| ensures p[a].0 != p[b].0 {
          assert p[a] == e[a] && p[b] == e[b];
        }
      }
      LastAt(p, k, i);
    }
  }

  /** Dropping the keys in names leaves every other key's lookup unchanged. */
  lemma {:induction false} WithoutKeysGet<V>(kw: Dict<V>, names: set<string>, k: string)
    ensures Get(WithoutKeys(kw, names), k) == if k in names then None else Get(kw, k)
  {
    if kw != [] {
      WithoutKeysGet(kw[1..], names, k);
      var rest := WithoutKeys(kw[1..], names);
      if kw[0].0 !in names {
        assert WithoutKeys(kw, names) == [kw[0]] + rest;
        assert ([kw[0]] + rest)[1..] == rest;
      } else {
        assert WithoutKeys(kw, names) == rest;
      }
    }
  }

  /** Dropping two sets of keys one after the other drops their union. */
  lemma {:induction false} WithoutKeysTwice<V>(kw: Dict<V>, a: set<string>, b: set<string>)
    ensures WithoutKeys(WithoutKeys(kw, a), b) == WithoutKeys(kw, a + b)
  {
    if kw != [] {
      WithoutKeysTwice(kw[1..], a, b);
      var inner := WithoutKeys(kw, a);
      if kw[0].0 !in a {
        assert inner == [kw[0]] + WithoutKeys(kw[1..], a);
        assert inner[1..] == WithoutKeys(kw[1..], a);
      }
    }
  }

  /** r is d up to position k and fixed from there on. */
  ghost predicate OverwrittenUpTo<V>(r: Dict<V>, d: Dict<V>, fixed: Dict<V>, k: nat)
  {
    |r| == |d| == |fixed| && forall i :: 0 <= i < |d| ==> r[i] == if i < k then d[i] else fixed[i]
  }

  /** Merging entries that sit at the positions of the same keys in fixed overwrites
      those positions in place, one after the other. */
  lemma {:induction false} PutAllInPlace<V>(fixed: Dict<V>, d: Dict<V>, p: Dict<V>, m: nat)
    requires |fixed| == |d| && m + |p| <= |d| && DistinctKeys(d)
    requires forall i :: 0 <= i < |d| ==> fixed[i].0 == d[i].0
    requires forall i :: 0 <= i < m ==> fixed[i] == d[i]
    requires forall j :: 0 <= j < |p| ==> p[j] == d[m + j]
    ensures OverwrittenUpTo(PutAll(fixed, p), d, fixed, m + |p|)
    decreases |p|
  {
    if p != [] {
      var q := p[..|p| - 1];
      assert forall j :: 0 <= j < |q| ==> q[j] == p[j];
      PutAllInPlace(fixed, d, q, m);
      assert p[|p| - 1] == d[m + |q|];
      assert PutAll(fixed, p) == Put(PutAll(fixed, q), d[m + |q|].0, d[m + |q|].1);
      PutInPlace(PutAll(fixed, q), d, fixed, m + |q|);
    }
  }

  /** Merging the tail of d, from position m, over a dict with the same keys at the same
      positions and the same entries before m gives d. */
  lemma PutAllTail<V>(fixed: Dict<V>, d: Dict<V>, m: nat)
    requires |fixed| == |d| && m <= |d| && DistinctKeys(d)
    requires forall i :: 0 <= i < |d| ==> fixed[i].0 == d[i].0
    requires forall i :: 0 <= i < m ==> fixed[i] == d[i]
    ensures PutAll(fixed, d[m..]) == d
  {
    PutAllInPlace(fixed, d, d[m..], m);
    OverwrittenAll(PutAll(fixed, d[m..]), d, fixed);
  }

  lemma OverwrittenAll<V>(r: Dict<V>, d: Dict<V>, fixed: Dict<V>)
    requires OverwrittenUpTo(r, d, fixed, |d|)
    ensures r == d
  {
  }

  lemma PutInPlace<V>(g: Dict<V>, d: Dict<V>, fixed: Dict<V>, k: nat)
    requires k < |d| && DistinctKeys(d) && OverwrittenUpTo(g, d, fixed, k)
    requires forall i :: 0 <= i < |d| ==> fixed[i].0 == d[i].0
    ensures OverwrittenUpTo(Put(g, d[k].0, d[k].1), d, fixed, k + 1)
  {
    PutAt(g, k, d[k].0, d[k].1);
  }
}
