/** The helpers every resource of the client serialises through: key-case conversion
    between the snake_case attribute names of the library and the camelCase names of the
    REST API, key mapping over whole dictionaries, and the stripping of empty values.
    Characters are ASCII; keys are written with letters, digits, `_`, `@` and `.`. */
module SearchObject {
  import opened Wire

  predicate IsUpper(c: char) { 'A' <= c <= 'Z' }
  predicate IsLower(c: char) { 'a' <= c <= 'z' }
  predicate IsDigit(c: char) { '0' <= c <= '9' }
  predicate IsLetter(c: char) { IsUpper(c) || IsLower(c) }

  function Lower(c: char): (r: char)
    ensures !IsUpper(r)
    ensures IsUpper(c) ==> IsLower(r)
    ensures !IsUpper(c) ==> r == c
  {
    if IsUpper(c) then (c as int + 32) as char else c
  }

  function Upper(c: char): (r: char)
    ensures !IsLower(r)
    ensures IsLower(c) ==> IsUpper(r) && Lower(r) == c
    ensures !IsLower(c) ==> r == c
  {
    if IsLower(c) then (c as int - 32) as char else c
  }

  predicate NoUpper(s: string) { forall i :: 0 <= i < |s| ==> !IsUpper(s[i]) }
  predicate AllLower(s: string) { forall i :: 0 <= i < |s| ==> IsLower(s[i]) }

  // ----- to_snake_case -----

  /** One step of the substitution: the character c, preceded by prev and followed by
      next in the ORIGINAL string. An uppercase letter not at the start of the string
      gets a `_` in front when the character before it is a lowercase letter or a digit
      (the look-behind alternative), or when the character after it is a lowercase
      letter (the look-ahead alternative). Every character is then lower-cased. */
  function Piece(prev: Option<char>, c: char, next: Option<char>): string
  {
    var boundary := IsUpper(c) && prev.Some?
      && ((IsLower(prev.value) || IsDigit(prev.value)) || (next.Some? && IsLower(next.value)));
    (if boundary then "_" else "") + [Lower(c)]
  }

  /** The scan over s, where prev is the character just before s (None at the start). */
  function Snake(prev: Option<char>, s: string): string
    decreases |s|, prev
  {
    if s == [] then []
    else
      var next := if |s| > 1 then Some(s[1]) else None;
      Piece(prev, s[0], next) + Snake(Some(s[0]), s[1..])
  }

  /** `to_snake_case`: insert `_` at every match of the pattern, then lower-case. */
  function ToSnakeCase(s: string): (r: string)
  {
    Snake(None, s)
  }

  // ----- to_camel_case -----

  /** The scan behind `s.split('_')`: seg is the segment read so far, s what is left. */
  function SplitFrom(seg: string, s: string): (parts: seq<string>)
    requires '_' !in seg
    ensures |parts| >= 1
    ensures forall i :: 0 <= i < |parts| ==> '_' !in parts[i]
    ensures '_' !in s ==> parts == [seg + s]
    decreases |s|, seg
  {
    if s == [] then
      assert seg + s == seg;
      [seg]
    else if s[0] == '_' then
      assert '_' in s;
      var rest := SplitFrom([], s[1..]);
      assert forall i :: 1 <= i < |rest| + 1 ==> ([seg] + rest)[i] == rest[i - 1];
      [seg] + rest
    else
      assert seg + s == (seg + [s[0]]) + s[1..];
      SplitFrom(seg + [s[0]], s[1..])
  }

  /** `s.split('_')`: the segments between underscores; always at least one. */
  function Split(s: string): (parts: seq<string>)
    ensures |parts| >= 1
    ensures forall i :: 0 <= i < |parts| ==> '_' !in parts[i]
    ensures '_' !in s ==> parts == [s]
  {
    assert [] + s == s;
    SplitFrom([], s)
  }

  /** The segment read so far goes in front of the first segment of the rest. */
  lemma {:induction false} SplitFromSeg(seg: string, s: string)
    requires '_' !in seg
    ensures SplitFrom(seg, s) == [seg + Split(s)[0]] + Split(s)[1..]
    decreases |s|
  {
    if s == [] {
      assert seg + [] == seg;
    } else if s[0] == '_' {
      assert seg + [] == seg;
      assert Split(s) == [[]] + SplitFrom([], s[1..]);
      assert Split(s)[1..] == SplitFrom([], s[1..]);
    } else {
      var rest := Split(s[1..]);
      SplitFromSeg(seg + [s[0]], s[1..]);
      SplitFromSeg([s[0]], s[1..]);
      assert [] + [s[0]] == [s[0]];
      assert Split(s) == [[s[0]] + rest[0]] + rest[1..];
      assert (seg + [s[0]]) + rest[0] == seg + ([s[0]] + rest[0]);
    }
  }

  /** One step of the split: an underscore closes the first segment, any other character
      joins it. */
  lemma SplitStep(s: string)
    requires s != []
    ensures s[0] == '_' ==> Split(s) == [[]] + Split(s[1..])
    ensures s[0] != '_' ==> Split(s) == [[s[0]] + Split(s[1..])[0]] + Split(s[1..])[1..]
  {
    if s[0] == '_' {
      assert Split(s) == [[]] + SplitFrom([], s[1..]);
    } else {
      SplitFromSeg([s[0]], s[1..]);
      assert [] + [s[0]] == [s[0]];
    }
  }

  /** `'_'.join(parts)`. */
  function Join(parts: seq<string>): string
    requires |parts| >= 1
  {
    if |parts| == 1 then parts[0] else parts[0] + "_" + Join(parts[1..])
  }

  /** `str.title` on ASCII: a letter is upper-cased when the character before it is not a
      letter (or it is the first), and lower-cased otherwise. prevCased says whether the
      character before s was a letter. */
  function TitleFrom(s: string, prevCased: bool): (r: string)
    ensures |r| == |s|
    ensures forall i :: 0 <= i < |s| ==> (r[i] == '_' <==> s[i] == '_')
  {
    if s == [] then []
    else if IsLetter(s[0]) then [if prevCased then Lower(s[0]) else Upper(s[0])] + TitleFrom(s[1..], true)
    else [s[0]] + TitleFrom(s[1..], false)
  }

  function Title(s: string): (r: string)
  {
    TitleFrom(s, false)
  }

  /** The titled segments after the first, concatenated. */
  function TitleAll(parts: seq<string>): (r: string)
    ensures (forall i :: 0 <= i < |parts| ==> '_' !in parts[i]) ==> '_' !in r
  {
    if parts == [] then [] else Title(parts[0]) + TitleAll(parts[1..])
  }

  /** `to_camel_case`: the first segment verbatim, then every further segment titled. */
  function ToCamelCase(s: string): (r: string)
  {
    if '_' !in s then s
    else
      var parts := Split(s);
      parts[0] + TitleAll(parts[1..])
  }

  // ----- dictionaries -----

  /** Every key converted by f; values and order unchanged. */
  function MapKeys<V>(d: Dict<V>, f: string -> string): (r: Dict<V>)
    ensures |r| == |d|
    ensures forall i :: 0 <= i < |d| ==> r[i] == (f(d[i].0), d[i].1)
  {
    seq(|d|, i requires 0 <= i < |d| => (f(d[i].0), d[i].1))
  }

  /** `{f(k): v for k, v in d.items()}` under `if d:`. */
  function Rekey<V>(d: Dict<V>, f: string -> string): (r: Dict<V>)
  {
    if d == [] then d else PutAll([], MapKeys(d, f))
  }

  /** `to_snake_case_dict`. */
  function ToSnakeCaseDict<V>(d: Dict<V>): Dict<V>
  {
    Rekey(d, ToSnakeCase)
  }

  /** `to_camel_case_dict`. */
  function ToCamelCaseDict<V>(d: Dict<V>): Dict<V>
  {
    Rekey(d, ToCamelCase)
  }

  /** A value that `remove_empty_values` drops: None, or anything with `len() == 0`. */
  predicate IsEmptyValue(v: Json)
  {
    v.JNull? || (HasLen(v) && Len(v) == 0)
  }

  /** What `remove_empty_values` leaves of an optional entry. */
  function Kept(o: Option<Json>): Option<Json>
  {
    if o.Some? && !IsEmptyValue(o.value) then o else None
  }

  /** `remove_empty_values`. */
  function RemoveEmptyValues(d: Dict<Json>): (r: Dict<Json>)
  {
    FilterEntries(d, (p: (string, Json)) => !IsEmptyValue(p.1))
  }

  /** The tail every `to_dict` shares: merge the params bag over the fixed keys, camel-case
      the keys, strip the empty values. */
  function WireDict(fixed: Dict<Json>, params: Dict<Json>): Dict<Json>
  {
    RemoveEmptyValues(ToCamelCaseDict(PutAll(fixed, params)))
  }

  /** The keyword arguments the base constructors take: `service_name` is passed
      explicitly, so a second one is an error, and `endpoint` is bound by the API-call
      base class. Everything else becomes the params bag. */
  function ApiParams(kwargs: Dict<Json>): (r: Result<Dict<Json>>)
    ensures HasKey(kwargs, "service_name") <==> r == Err(DuplicateArgument("service_name"))
    ensures r.Ok? ==> r.value == WithoutKeys(kwargs, {"endpoint"})
  {
    if HasKey(kwargs, "service_name") then Err(DuplicateArgument("service_name"))
    else Ok(WithoutKeys(kwargs, {"endpoint"}))
  }

  /** The generic `load`: anything but a dict fails; a dict has its keys snake-cased and
      becomes the keyword arguments of the constructor. */
  function LoadKwargs(data: Json): (r: Result<Dict<Json>>)
    ensures !data.JObj? <==> r == Err(Exception("Failed to parse input as Dict"))
  {
    if !data.JObj? then Err(Exception("Failed to parse input as Dict"))
    else Ok(ToSnakeCaseDict(data.members))
  }

  /** The keyword arguments `load` passes on are the snake-cased keys of the data, each
      once, with the values of the data. */
  lemma LoadKwargsKeys(data: Json)
    requires data.JObj?
    ensures LoadKwargs(data).Ok? && DistinctKeys(LoadKwargs(data).value)
    ensures forall k :: HasKey(LoadKwargs(data).value, k) <==>
      exists i :: 0 <= i < |data.members| && ToSnakeCase(data.members[i].0) == k
  {
    RekeyKeys(data.members, ToSnakeCase);
    RekeyValues(data.members, ToSnakeCase);
  }

  // ----- lemmas: to_dict -----

  /** Every key `to_dict` sends is the camel-cased form of a merged key. */
  lemma WireKeyFrom(fixed: Dict<Json>, params: Dict<Json>, k: string) returns (x: string)
    requires HasKey(WireDict(fixed, params), k)
    ensures HasKey(PutAll(fixed, params), x) && ToCamelCase(x) == k
  {
    var merged := PutAll(fixed, params);
    RemoveEmptyValuesSubset(ToCamelCaseDict(merged), k);
    RekeyKeys(merged, ToCamelCase);
    var m :| 0 <= m < |merged| && ToCamelCase(merged[m].0) == k;
    x := merged[m].0;
    assert IndexOf(merged, x) <= m;
  }

  /** What a `to_dict` emits under the camel-cased form of key k: the params value when the
      params bag has k (params override the fixed keys), the fixed value otherwise, and
      nothing when that value is None or empty. It holds when no other key camel-cases to
      the same string. */
  lemma WireDictGet(fixed: Dict<Json>, params: Dict<Json>, k: string)
    requires DistinctKeys(fixed) && DistinctKeys(params)
    requires forall x :: HasKey(PutAll(fixed, params), x) && ToCamelCase(x) == ToCamelCase(k) ==> x == k
    ensures Get(WireDict(fixed, params), ToCamelCase(k)) ==
      Kept(if HasKey(params, k) then Get(params, k) else Get(fixed, k))
  {
    var m := PutAll(fixed, params);
    DistinctLast(params, k);
    assert Get(m, k) == if HasKey(params, k) then Get(params, k) else Get(fixed, k);
    var r := Rekey(m, ToCamelCase);
    if HasKey(m, k) {
      var i := IndexOf(m, k);
      forall j | i < j < |m| ensures ToCamelCase(m[j].0) != ToCamelCase(m[i].0) {
        assert HasKey(m, m[j].0) by { assert IndexOf(m, m[j].0) <= j; }
      }
      RekeyLaterWins(m, ToCamelCase, i);
    } else {
      forall i | 0 <= i < |m| ensures ToCamelCase(m[i].0) != ToCamelCase(k) {
        assert HasKey(m, m[i].0) by { assert IndexOf(m, m[i].0) <= i; }
      }
      RekeyKeys(m, ToCamelCase);
    }
    RekeyValues(m, ToCamelCase);
    RemoveEmptyValuesKeeps(r, ToCamelCase(k));
  }

  /** When no two keys convert to the same string, converting keys keeps every entry,
      in order. */
  lemma RekeyInjective<V>(d: Dict<V>, f: string -> string)
    requires DistinctKeys(MapKeys(d, f))
    ensures Rekey(d, f) == MapKeys(d, f)
  {
    if d != [] {
      PutAllFresh(MapKeys(d, f));
    }
  }

  /** Key conversion on a two-entry dict whose keys stay apart. */
  lemma Rekey2<V>(k1: string, v1: V, k2: string, v2: V, f: string -> string)
    requires f(k1) != f(k2)
    ensures Rekey([(k1, v1), (k2, v2)], f) == [(f(k1), v1), (f(k2), v2)]
  {
    var d := [(k1, v1), (k2, v2)];
    assert MapKeys(d, f) == [(f(k1), v1), (f(k2), v2)];
    RekeyInjective(d, f);
  }

  /** Key conversion on dicts of three and four entries whose keys the converter leaves
      alone. */
  lemma Rekey3<V>(k1: string, v1: V, k2: string, v2: V, k3: string, v3: V, f: string -> string)
    requires f(k1) != f(k2) && f(k1) != f(k3) && f(k2) != f(k3)
    ensures Rekey([(k1, v1), (k2, v2), (k3, v3)], f) == [(f(k1), v1), (f(k2), v2), (f(k3), v3)]
  {
    var d := [(k1, v1), (k2, v2), (k3, v3)];
    assert MapKeys(d, f) == [(f(k1), v1), (f(k2), v2), (f(k3), v3)];
    RekeyInjective(d, f);
  }

  lemma Rekey4<V>(k1: string, v1: V, k2: string, v2: V, k3: string, v3: V, k4: string, v4: V, f: string -> string)
    requires f(k1) != f(k2) && f(k1) != f(k3) && f(k1) != f(k4)
    requires f(k2) != f(k3) && f(k2) != f(k4) && f(k3) != f(k4)
    ensures Rekey([(k1, v1), (k2, v2), (k3, v3), (k4, v4)], f) == [(f(k1), v1), (f(k2), v2), (f(k3), v3), (f(k4), v4)]
  {
    var d := [(k1, v1), (k2, v2), (k3, v3), (k4, v4)];
    assert MapKeys(d, f) == [(f(k1), v1), (f(k2), v2), (f(k3), v3), (f(k4), v4)];
    RekeyInjective(d, f);
  }

  lemma Rekey3Identity<V>(k1: string, v1: V, k2: string, v2: V, k3: string, v3: V, f: string -> string)
    requires f(k1) == k1 && f(k2) == k2 && f(k3) == k3
    requires k1 != k2 && k1 != k3 && k2 != k3
    ensures Rekey([(k1, v1), (k2, v2), (k3, v3)], f) == [(k1, v1), (k2, v2), (k3, v3)]
  {
    RekeyIdentity([(k1, v1), (k2, v2), (k3, v3)], f);
  }

  lemma Rekey4Identity<V>(k1: string, v1: V, k2: string, v2: V, k3: string, v3: V, k4: string, v4: V,
                          f: string -> string)
    requires f(k1) == k1 && f(k2) == k2 && f(k3) == k3 && f(k4) == k4
    requires k1 != k2 && k1 != k3 && k1 != k4 && k2 != k3 && k2 != k4 && k3 != k4
    ensures Rekey([(k1, v1), (k2, v2), (k3, v3), (k4, v4)], f) == [(k1, v1), (k2, v2), (k3, v3), (k4, v4)]
  {
    RekeyIdentity([(k1, v1), (k2, v2), (k3, v3), (k4, v4)], f);
  }

  /** Converting keys that the converter leaves alone changes nothing. */
  lemma RekeyIdentity<V>(d: Dict<V>, f: string -> string)
    requires DistinctKeys(d)
    requires forall i :: 0 <= i < |d| ==> f(d[i].0) == d[i].0
    ensures Rekey(d, f) == d
  {
    assert MapKeys(d, f) == d;
    RekeyInjective(d, f);
  }

  lemma {:induction false} PutAllFresh<V>(d: Dict<V>)
    requires DistinctKeys(d)
    ensures PutAll([], d) == d
    decreases |d|
  {
    if d != [] {
      var p := d[..|d| - 1];
      var last := d[|d| - 1];
      PrefixFresh(d);
      PutAllFresh(p);
      calc {
        PutAll([], d);
        Put(PutAll([], p), last.0, last.1);
        Put(p, last.0, last.1);
        p + [last];
        d;
      }
    }
  }

  /** Without its last entry, a dict with distinct keys still has distinct keys, and
      lacks the last key. */
  lemma PrefixFresh<V>(d: Dict<V>)
    requires DistinctKeys(d) && d != []
    ensures DistinctKeys(d[..|d| - 1])
    ensures IndexOf(d[..|d| - 1], d[|d| - 1].0) == |d| - 1
  {
    var p := d[..|d| - 1];
    forall a, b | 0 <= a < b < |p| ensures p[a].0 != p[b].0 {
      assert p[a] == d[a] && p[b] == d[b];
    }
    forall j | 0 <= j < |p| ensures p[j].0 != d[|d| - 1].0 {
      assert p[j] == d[j];
    }
  }

  /** Stripping a dict without None or empty values changes nothing. */
  lemma {:induction false} RemoveEmptyValuesNone(d: Dict<Json>)
    requires forall i :: 0 <= i < |d| ==> !IsEmptyValue(d[i].1)
    ensures RemoveEmptyValues(d) == d
  {
    if d != [] {
      RemoveEmptyValuesNone(d[1..]);
      assert [d[0]] + d[1..] == d;
    }
  }

  // ----- lemmas: to_snake_case -----

  /** The scan over a + b is the scan over a followed by the scan over b, unless the last
      character of a is an uppercase letter whose look-ahead would see a lowercase b[0]. */
  lemma {:induction false} SnakeAppend(prev: Option<char>, a: string, b: string)
    requires a != []
    requires b == [] || !IsLower(b[0]) || !IsUpper(a[|a| - 1])
    ensures Snake(prev, a + b) == Snake(prev, a) + Snake(Some(a[|a| - 1]), b)
    decreases |a|
  {
    if |a| == 1 {
      assert a == [a[0]];
      SnakeAppendOne(prev, a[0], b);
    } else {
      SnakeAppend(Some(a[0]), a[1..], b);
      SnakeAppendStep(prev, a, b);
    }
  }

  /** The step case of SnakeAppend: one scan step in front of the split over the tail. */
  lemma SnakeAppendStep(prev: Option<char>, a: string, b: string)
    requires |a| >= 2
    requires Snake(Some(a[0]), a[1..] + b) == Snake(Some(a[0]), a[1..]) + Snake(Some(a[|a| - 1]), b)
    ensures Snake(prev, a + b) == Snake(prev, a) + Snake(Some(a[|a| - 1]), b)
  {
    var ab := a + b;
    assert ab[0] == a[0] && ab[1] == a[1] && ab[1..] == a[1..] + b;
    SnakeStep(prev, ab);
    SnakeStep(prev, a);
    var p, x, y := Piece(prev, a[0], Some(a[1])), Snake(Some(a[0]), a[1..]), Snake(Some(a[|a| - 1]), b);
    ConcatAssoc(p, x, y);
  }

  lemma ConcatAssoc<T>(x: seq<T>, y: seq<T>, z: seq<T>)
    ensures x + (y + z) == (x + y) + z
  {
  }

  /** One scan step over a string of two or more characters. */
  lemma SnakeStep(prev: Option<char>, s: string)
    requires |s| >= 2
    ensures Snake(prev, s) == Piece(prev, s[0], Some(s[1])) + Snake(Some(s[0]), s[1..])
  {
  }

  /** The scan over a single character is its piece with no look-ahead. */
  lemma SnakeSingle(prev: Option<char>, c: char)
    ensures Snake(prev, [c]) == Piece(prev, c, None)
  {
  }

  /** The look-ahead matters only for an uppercase letter followed by a lowercase one. */
  lemma PieceLookahead(prev: Option<char>, c: char, next: char)
    requires !IsLower(next) || !IsUpper(c)
    ensures Piece(prev, c, Some(next)) == Piece(prev, c, None)
  {
  }

  /** The case of SnakeAppend where the prefix is one character. */
  lemma SnakeAppendOne(prev: Option<char>, c: char, b: string)
    requires b == [] || !IsLower(b[0]) || !IsUpper(c)
    ensures Snake(prev, [c] + b) == Snake(prev, [c]) + Snake(Some(c), b)
  {
    SnakeSingle(prev, c);
    if b == [] {
      assert [c] + b == [c];
    } else {
      var cb := [c] + b;
      assert cb[0] == c && cb[1] == b[0] && cb[1..] == b;
      SnakeStep(prev, cb);
      PieceLookahead(prev, c, b[0]);
    }
  }

  /** A piece has no uppercase letter, and a character that is not an uppercase letter
      is its own piece. */
  lemma PieceFacts(prev: Option<char>, c: char, next: Option<char>)
    ensures NoUpper(Piece(prev, c, next))
    ensures !IsUpper(c) ==> Piece(prev, c, next) == [c]
  {
  }

  /** The scan leaves no uppercase letter, and leaves a string without uppercase letters
      as it is. */
  lemma {:induction false} SnakeFacts(prev: Option<char>, s: string)
    ensures NoUpper(Snake(prev, s))
    ensures NoUpper(s) ==> Snake(prev, s) == s
    decreases |s|
  {
    if s != [] {
      var next := if |s| > 1 then Some(s[1]) else None;
      var p := Piece(prev, s[0], next);
      var rest := Snake(Some(s[0]), s[1..]);
      PieceFacts(prev, s[0], next);
      SnakeFacts(Some(s[0]), s[1..]);
      forall i | 0 <= i < |p + rest| ensures !IsUpper((p + rest)[i]) {
        if i >= |p| {
          assert (p + rest)[i] == rest[i - |p|];
        }
      }
      if NoUpper(s) {
        assert NoUpper(s[1..]) by {
          forall i | 0 <= i < |s[1..]| ensures !IsUpper(s[1..][i]) {
            assert s[1..][i] == s[i + 1];
          }
        }
        assert s == [s[0]] + s[1..];
      }
    }
  }

  /** `to_snake_case` never leaves an uppercase letter. */
  lemma SnakeNoUpper(s: string)
    ensures NoUpper(ToSnakeCase(s))
  {
    SnakeFacts(None, s);
  }

  /** `to_snake_case` is the identity on strings without uppercase letters. */
  lemma SnakeIdentity(s: string)
    requires NoUpper(s)
    ensures ToSnakeCase(s) == s
  {
    SnakeFacts(None, s);
  }

  // ----- lemmas: to_camel_case -----

  lemma {:induction false} SplitJoin(parts: seq<string>)
    requires |parts| >= 1
    requires forall i :: 0 <= i < |parts| ==> '_' !in parts[i]
    ensures Split(Join(parts)) == parts
  {
    if |parts| == 1 {
    } else {
      SplitJoin(parts[1..]);
      SplitPrefix(parts[0], Join(parts[1..]));
    }
  }

  lemma {:induction false} SplitPrefix(p: string, rest: string)
    requires '_' !in p
    ensures Split(p + "_" + rest) == [p] + Split(rest)
    decreases |p|
  {
    SplitStep(p + "_" + rest);
    if p == [] {
      assert p + "_" + rest == "_" + rest;
      assert ("_" + rest)[1..] == rest;
    } else {
      assert (p + "_" + rest)[1..] == p[1..] + "_" + rest;
      SplitPrefix(p[1..], rest);
      assert [p[0]] + p[1..] == p;
    }
  }

  lemma {:induction false} JoinSplit(s: string)
    ensures Join(Split(s)) == s
  {
    if s != [] {
      SplitStep(s);
      JoinSplit(s[1..]);
      var rest := Split(s[1..]);
      if s[0] == '_' {
        assert Split(s)[1..] == rest;
      } else {
        var parts := Split(s);
        assert parts[0] == [s[0]] + rest[0];
        if |rest| == 1 {
        } else {
          assert parts[1..] == rest[1..];
          assert Join(rest) == rest[0] + "_" + Join(rest[1..]);
        }
      }
    }
  }

  /** `to_camel_case` never leaves an underscore. */
  lemma CamelNoUnderscore(s: string)
    ensures '_' !in ToCamelCase(s)
  {
  }

  /** `to_camel_case` keeps the text before the first underscore verbatim. */
  lemma CamelKeepsFirstSegment(s: string)
    ensures Split(s)[0] <= ToCamelCase(s)
  {
  }

  /** `to_camel_case` is the identity on strings without an underscore. */
  lemma CamelIdentity(s: string)
    requires '_' !in s
    ensures ToCamelCase(s) == s
  {
  }

  /** A key without uppercase letters and underscores passes through both converters
      unchanged. */
  lemma FixedKey(key: string)
    requires forall i :: 0 <= i < |key| ==> key[i] != '_' && !IsUpper(key[i])
    ensures ToCamelCase(key) == key && ToSnakeCase(key) == key
  {
    CamelIdentity(key);
    SnakeIdentity(key);
  }

  /** The `@odata.type` key passes through both converters unchanged. */
  lemma ODataTypeKeyIsFixed()
    ensures ToCamelCase("@odata.type") == "@odata.type"
    ensures ToSnakeCase("@odata.type") == "@odata.type"
  {
    ODataTypeCamel();
    ODataTypeSnake();
  }

  lemma ODataTypeCamel()
    ensures ToCamelCase("@odata.type") == "@odata.type"
  {
    CamelIdentity("@odata.type");
  }

  lemma ODataTypeSnake()
    ensures ToSnakeCase("@odata.type") == "@odata.type"
  {
    var key := "@odata.type";
    assert NoUpper(key) by {
      forall i | 0 <= i < |key| ensures !IsUpper(key[i]) { }
    }
    SnakeIdentity(key);
  }

  // ----- lemmas: round trip -----

  lemma {:induction false} TitleLower(seg: string)
    requires seg != [] && AllLower(seg)
    ensures Title(seg) == [Upper(seg[0])] + seg[1..]
  {
    TitleRest(seg[1..]);
  }

  lemma {:induction false} TitleRest(s: string)
    requires AllLower(s)
    ensures TitleFrom(s, true) == s
  {
    if s != [] {
      TitleRest(s[1..]);
    }
  }

  /** Segments joined back with underscores in front of each: `_s1_s2...`. */
  function UnderscoreAll(parts: seq<string>): string
  {
    if parts == [] then [] else "_" + parts[0] + UnderscoreAll(parts[1..])
  }

  /** The segment shape for which camel-casing can be undone: non-empty lowercase
      segments, no two adjacent one-letter segments after the first. A one-letter
      segment titles to a lone capital, which stays a word boundary only when the letter
      before it is lowercase or the letter after it is. */
  predicate RoundTripSegments(parts: seq<string>)
  {
    (forall i :: 0 <= i < |parts| ==> parts[i] != [] && AllLower(parts[i]))
    && forall i :: 1 <= i < |parts| - 1 ==> |parts[i]| >= 2 || |parts[i + 1]| >= 2
  }

  /** The segments after the first, as camel-casing titles them: non-empty lowercase,
      no two adjacent of one letter. */
  predicate TitledTail(parts: seq<string>)
  {
    (forall i :: 0 <= i < |parts| ==> parts[i] != [] && AllLower(parts[i]))
    && forall i :: 0 <= i < |parts| - 1 ==> |parts[i]| >= 2 || |parts[i + 1]| >= 2
  }

  lemma {:induction false} SnakeTitleAll(prev: char, parts: seq<string>)
    requires IsLower(prev) || parts == [] || |parts[0]| >= 2
    requires TitledTail(parts)
    ensures Snake(Some(prev), TitleAll(parts)) == UnderscoreAll(parts)
    decreases |parts|
  {
    if parts != [] {
      var seg := parts[0];
      TitleLower(seg);
      var t := Title(seg);
      var rest := parts[1..];
      assert TitledTail(rest) by {
        forall i | 0 <= i < |rest| ensures rest[i] != [] && AllLower(rest[i]) {
          assert rest[i] == parts[i + 1];
        }
        forall i | 0 <= i < |rest| - 1 ensures |rest[i]| >= 2 || |rest[i + 1]| >= 2 {
          assert rest[i] == parts[i + 1] && rest[i + 1] == parts[i + 2];
        }
      }
      if rest == [] {
        assert TitleAll(parts) == t;
        SnakeTitled(prev, seg);
      } else {
        var r := TitleAll(rest);
        TitleLower(rest[0]);
        assert r[0] == Upper(rest[0][0]);
        var last := t[|t| - 1];
        assert IsLower(last) || |rest[0]| >= 2 by {
          if |seg| >= 2 {
            assert last == seg[|seg| - 1];
          } else {
            assert |parts[0]| >= 2 || |parts[1]| >= 2;
          }
        }
        SnakeAppend(Some(prev), t, r);
        SnakeTitled(prev, seg);
        SnakeTitleAll(last, rest);
      }
    }
  }

  /** A titled lowercase segment snake-cases to `_` + segment after a lowercase letter,
      and after any character when it is at least two letters long. */
  lemma {:induction false} SnakeTitled(prev: char, seg: string)
    requires IsLower(prev) || |seg| >= 2
    requires seg != [] && AllLower(seg)
    ensures Snake(Some(prev), Title(seg)) == "_" + seg
  {
    TitleLower(seg);
    var u := Upper(seg[0]);
    var rest := seg[1..];
    var next := if rest == [] then None else Some(rest[0]);
    SnakeCons(Some(prev), u, rest);
    TitledHead(prev, seg);
    LowerTail(seg);
    SnakeFacts(Some(u), rest);
    assert "_" + [seg[0]] + rest == "_" + seg;
  }

  /** The capital that starts a titled segment gets its underscore back. */
  lemma TitledHead(prev: char, seg: string)
    requires IsLower(prev) || |seg| >= 2
    requires seg != [] && AllLower(seg)
    ensures Piece(Some(prev), Upper(seg[0]), if seg[1..] == [] then None else Some(seg[1..][0])) == "_" + [seg[0]]
  {
  }

  lemma LowerTail(seg: string)
    requires seg != [] && AllLower(seg)
    ensures NoUpper(seg[1..])
  {
    var rest := seg[1..];
    forall i | 0 <= i < |rest| ensures !IsUpper(rest[i]) {
      assert rest[i] == seg[i + 1];
    }
  }

  /** The scan over a string split into its first character and the rest. */
  lemma SnakeCons(prev: Option<char>, c: char, rest: string)
    ensures Snake(prev, [c] + rest) == Piece(prev, c, if rest == [] then None else Some(rest[0])) + Snake(Some(c), rest)
  {
    var s := [c] + rest;
    assert s[0] == c && s[1..] == rest;
  }

  /** Camel-casing a key made of lowercase segments, no two adjacent one-letter segments
      after the first, is undone by snake-casing. */
  lemma {:induction false} CamelSnakeRoundTrip(parts: seq<string>)
    requires |parts| >= 1
    requires RoundTripSegments(parts)
    ensures ToSnakeCase(ToCamelCase(Join(parts))) == Join(parts)
  {
    SplitJoin(parts);
    var first := parts[0];
    var rest := parts[1..];
    assert TitledTail(rest) by {
      forall i | 0 <= i < |rest| ensures rest[i] != [] && AllLower(rest[i]) {
        assert rest[i] == parts[i + 1];
      }
      forall i | 0 <= i < |rest| - 1 ensures |rest[i]| >= 2 || |rest[i + 1]| >= 2 {
        assert rest[i] == parts[i + 1] && rest[i + 1] == parts[i + 2];
      }
    }
    JoinUnderscore(parts);
    assert NoUpper(first);
    SnakeFacts(None, first);
    if rest == [] {
      assert ToCamelCase(Join(parts)) == first;
    } else {
      TitleLower(rest[0]);
      var r := TitleAll(rest);
      assert r[0] == Upper(rest[0][0]);
      SnakeAppend(None, first, r);
      SnakeTitleAll(first[|first| - 1], rest);
    }
  }

  lemma {:induction false} JoinUnderscore(parts: seq<string>)
    requires |parts| >= 1
    ensures Join(parts) == parts[0] + UnderscoreAll(parts[1..])
  {
    if |parts| > 1 {
      JoinUnderscore(parts[1..]);
      assert parts[1..][1..] == parts[2..];
    }
  }

  /** The camel-cased form of lowercase segments: every segment after the first gets an
      upper-case initial. */
  function CamelJoin(parts: seq<string>): string
    requires |parts| >= 1
    requires forall i :: 1 <= i < |parts| ==> parts[i] != []
  {
    parts[0] + Caps(parts[1..])
  }

  function Caps(parts: seq<string>): string
    requires forall i :: 0 <= i < |parts| ==> parts[i] != []
  {
    if parts == [] then [] else [Upper(parts[0][0])] + parts[0][1..] + Caps(parts[1..])
  }

  lemma {:induction false} TitleAllCaps(parts: seq<string>)
    requires forall i :: 0 <= i < |parts| ==> parts[i] != [] && AllLower(parts[i])
    ensures TitleAll(parts) == Caps(parts)
  {
    if parts != [] {
      TitleLower(parts[0]);
      TitleAllCaps(parts[1..]);
    }
  }

  /** A key made of lowercase segments (no two adjacent one-letter segments after the
      first) camel-cases to CamelJoin of its segments, and that snake-cases back to the key. */
  lemma KeyForms(parts: seq<string>)
    requires |parts| >= 1
    requires RoundTripSegments(parts)
    ensures ToCamelCase(Join(parts)) == CamelJoin(parts)
    ensures ToSnakeCase(CamelJoin(parts)) == Join(parts)
  {
    SplitJoin(parts);
    TitleAllCaps(parts[1..]);
    CamelSnakeRoundTrip(parts);
  }

  /** KeyForms for a key and its camel-cased form given as literals. */
  lemma KeyFormsAt(parts: seq<string>, key: string, camel: string)
    requires |parts| >= 1 && RoundTripSegments(parts)
    requires Join(parts) == key && CamelJoin(parts) == camel
    ensures ToCamelCase(key) == camel && ToSnakeCase(camel) == key
  {
    KeyForms(parts);
  }

  /** A one-letter segment next to longer ones is recovered: `x_id` camel-cases to `xId`
      and back, and so does `a_b_cd` through `aBCd`. */
  lemma ShortSegmentsRoundTrip()
    ensures ToCamelCase("x_id") == "xId" && ToSnakeCase("xId") == "x_id"
    ensures ToCamelCase("a_b_cd") == "aBCd" && ToSnakeCase("aBCd") == "a_b_cd"
  {
    ShortFirstSegment();
    ShortMiddleSegment();
  }

  lemma ShortFirstSegment()
    ensures ToCamelCase("x_id") == "xId" && ToSnakeCase("xId") == "x_id"
  {
    KeyFormsAt(["x", "id"], "x_id", "xId");
  }

  lemma ShortMiddleSegment()
    ensures ToCamelCase("a_b_cd") == "aBCd" && ToSnakeCase("aBCd") == "a_b_cd"
  {
    KeyFormsAt(["a", "b", "cd"], "a_b_cd", "aBCd");
  }

  /** Two one-letter segments in a row cannot be recovered: `a_b_c` becomes `aBC`, which
      snake-cases to `a_bc`. */
  lemma OneLetterSegmentsDoNotRoundTrip()
    ensures ToCamelCase("a_b_c") == "aBC"
    ensures ToSnakeCase("aBC") == "a_bc"
  {
    OneLetterCamel();
    OneLetterSnake();
  }

  lemma OneLetterCamel()
    ensures ToCamelCase("a_b_c") == "aBC"
  {
    var parts := ["a", "b", "c"];
    assert Join(parts) == "a_b_c";
    SplitJoin(parts);
    assert Title("b") == "B" && Title("c") == "C";
    assert TitleAll(parts[1..]) == "BC";
  }

  lemma OneLetterSnake()
    ensures ToSnakeCase("aBC") == "a_bc"
  {
    var s := "aBC";
    SnakeStep(None, s);
    assert s[1..] == "BC";
    SnakeStep(Some('a'), "BC");
    assert "BC"[1..] == "C";
    SnakeSingle(Some('B'), 'C');
  }

  // ----- lemmas: dictionaries -----

  lemma {:induction false} RekeyKeys<V>(d: Dict<V>, f: string -> string)
    ensures forall k :: HasKey(Rekey(d, f), k) <==> exists i :: 0 <= i < |d| && f(d[i].0) == k
  {
    if d != [] {
      var e := MapKeys(d, f);
      forall k ensures HasKey(e, k) <==> exists i :: 0 <= i < |d| && f(d[i].0) == k {
        if HasKey(e, k) {
          var i := IndexOf(e, k);
          assert f(d[i].0) == k;
        }
        if exists i :: 0 <= i < |d| && f(d[i].0) == k {
          var i :| 0 <= i < |d| && f(d[i].0) == k;
          assert e[i].0 == k;
        }
      }
    }
  }

  /** On a key collision the later entry wins: the value kept under the converted key of
      entry i is entry i's own when no later key converts to the same string. */
  lemma {:induction false} RekeyLaterWins<V>(d: Dict<V>, f: string -> string, i: nat)
    requires i < |d|
    requires forall j :: i < j < |d| ==> f(d[j].0) != f(d[i].0)
    ensures Get(Rekey(d, f), f(d[i].0)) == Some(d[i].1)
  {
    var e := MapKeys(d, f);
    assert e[i].0 == f(d[i].0);
    LastAtSuffix(e, f(d[i].0), i);
  }

  lemma {:induction false} LastAtSuffix<V>(e: Dict<V>, k: string, i: nat)
    requires i < |e| && e[i].0 == k
    requires forall j :: i < j < |e| ==> e[j].0 != k
    ensures Last(e, k) == Some(e[i].1)
  {
    if i != |e| - 1 {
      var p := e[..|e| - 1];
      assert p[i] == e[i];
      LastAtSuffix(p, k, i);
    }
  }

  /** Converting keys never changes a value: every entry of the result is some entry of
      the input with its key converted, and no key occurs twice. */
  lemma {:induction false} RekeyValues<V>(d: Dict<V>, f: string -> string)
    ensures DistinctKeys(Rekey(d, f))
    ensures forall i :: 0 <= i < |Rekey(d, f)| ==>
      exists j :: 0 <= j < |d| && Rekey(d, f)[i] == (f(d[j].0), d[j].1)
  {
    var r := Rekey(d, f);
    if d != [] {
      var e := MapKeys(d, f);
      assert DistinctKeys<V>([]);
      forall i | 0 <= i < |r| ensures exists j :: 0 <= j < |d| && r[i] == (f(d[j].0), d[j].1) {
        DistinctGet(r, r[i].0, r[i].1);
        assert r[i] in r;
        var v := Last(e, r[i].0);
        assert (r[i].0, v.value) in e;
        var j :| 0 <= j < |e| && e[j] == (r[i].0, v.value);
        assert r[i] == (f(d[j].0), d[j].1);
      }
    }
  }

  /** Two spellings of one attribute collapse onto one key, and the later one wins. */
  lemma SnakeCollisionLaterWins()
    ensures ToSnakeCaseDict([("aB", JInt(1)), ("a_b", JInt(2))]) == [("a_b", JInt(2))]
  {
    var d := [("aB", JInt(1)), ("a_b", JInt(2))];
    assert Piece(None, 'a', Some('B')) == "a";
    assert Piece(Some('a'), 'B', None) == "_b";
    assert ToSnakeCase("aB") == "a" + Snake(Some('a'), "B") == "a_b";
    assert NoUpper("a_b");
    SnakeIdentity("a_b");
    var e := MapKeys(d, ToSnakeCase);
    assert e == [("a_b", JInt(1)), ("a_b", JInt(2))];
    assert e[..1] == [("a_b", JInt(1))];
    assert PutAll([], e[..1]) == [("a_b", JInt(1))];
  }

  // ----- lemmas: remove_empty_values -----

  /** A key is kept exactly when its value is neither None nor of length zero, and a kept
      value is unchanged. */
  lemma RemoveEmptyValuesKeeps(d: Dict<Json>, k: string)
    requires DistinctKeys(d)
    ensures Get(RemoveEmptyValues(d), k) ==
      if Get(d, k).Some? && !IsEmptyValue(Get(d, k).value) then Get(d, k) else None
  {
    var r := RemoveEmptyValues(d);
    match Get(d, k)
    case Some(v) =>
      DistinctGet(d, k, v);
      if !IsEmptyValue(v) {
        DistinctGet(r, k, v);
      } else if Get(r, k).Some? {
        DistinctGet(r, k, Get(r, k).value);
        DistinctGet(d, k, Get(r, k).value);
      }
    case None =>
  }

  /** In a dict with distinct keys, the value at a key's position survives stripping
      exactly when it is not empty. */
  lemma StrippedGet(d: Dict<Json>, i: nat, k: string)
    requires DistinctKeys(d) && i < |d| && d[i].0 == k
    ensures Get(RemoveEmptyValues(d), k) == Kept(Some(d[i].1))
  {
    PositionGet(d, i, k);
    RemoveEmptyValuesKeeps(d, k);
  }

  /** The result has only keys of the input. */
  lemma RemoveEmptyValuesSubset(d: Dict<Json>, k: string)
    requires HasKey(RemoveEmptyValues(d), k)
    ensures HasKey(d, k)
  {
    var r := RemoveEmptyValues(d);
    var i := IndexOf(r, k);
    assert r[i] in d;
  }

  /** Without params the payload is the fixed dict, camel-cased and stripped. */
  lemma WireDictNoParams(fixed: Dict<Json>)
    ensures WireDict(fixed, []) == RemoveEmptyValues(ToCamelCaseDict(fixed))
  {
    assert PutAll(fixed, []) == fixed;
  }

  /** Stripping distributes over concatenation. */
  lemma RemoveEmptyValuesAppend(a: Dict<Json>, b: Dict<Json>)
    ensures RemoveEmptyValues(a + b) == RemoveEmptyValues(a) + RemoveEmptyValues(b)
  {
    FilterEntriesAppend(a, b, (p: (string, Json)) => !IsEmptyValue(p.1));
  }

  /** Stripping twice is stripping once. */
  lemma {:induction false} RemoveEmptyValuesIdempotent(d: Dict<Json>)
    ensures RemoveEmptyValues(RemoveEmptyValues(d)) == RemoveEmptyValues(d)
  {
    if d != [] {
      RemoveEmptyValuesIdempotent(d[1..]);
    }
  }

  /** False and 0 are kept; "", [], {} and None are dropped. */
  lemma RemoveEmptyValuesExample(ka: string, kb: string, kc: string, kd: string, ke: string, kf: string)
    ensures RemoveEmptyValues([(ka, JBool(false)), (kb, JInt(0)), (kc, JStr("")),
      (kd, JArr([])), (ke, JObj([])), (kf, JNull)]) == [(ka, JBool(false)), (kb, JInt(0))]
  {
    var head := [(ka, JBool(false)), (kb, JInt(0))];
    var tail := [(kc, JStr("")), (kd, JArr([])), (ke, JObj([])), (kf, JNull)];
    assert head + tail == [(ka, JBool(false)), (kb, JInt(0)), (kc, JStr("")),
      (kd, JArr([])), (ke, JObj([])), (kf, JNull)];
    RemoveEmptyValuesAppend(head, tail);
    RemoveEmptyValuesNone(head);
    RemoveEmptyValuesAllEmpty(tail);
  }

  /** Stripping a dict whose values are all None or empty leaves nothing. */
  lemma {:induction false} RemoveEmptyValuesAllEmpty(d: Dict<Json>)
    requires forall i :: 0 <= i < |d| ==> IsEmptyValue(d[i].1)
    ensures RemoveEmptyValues(d) == []
  {
    if d != [] {
      RemoveEmptyValuesAllEmpty(d[1..]);
    }
  }

  /** Converting the keys of a dict leaves the value of key k under f(k) when no other key
      converts to the same string. */
  lemma RekeyGet<V>(d: Dict<V>, f: string -> string, k: string)
    requires DistinctKeys(d)
    requires forall x :: HasKey(d, x) && f(x) == f(k) ==> x == k
    ensures Get(Rekey(d, f), f(k)) == Get(d, k)
  {
    if HasKey(d, k) {
      var i := IndexOf(d, k);
      forall j | i < j < |d| ensures f(d[j].0) != f(d[i].0) {
        assert HasKey(d, d[j].0) by { assert IndexOf(d, d[j].0) <= j; }
      }
      RekeyLaterWins(d, f, i);
    } else {
      forall i | 0 <= i < |d| ensures f(d[i].0) != f(k) {
        assert HasKey(d, d[i].0) by { assert IndexOf(d, d[i].0) <= i; }
      }
      RekeyKeys(d, f);
    }
  }

  /** A trailing underscore adds an empty last segment, which titles to nothing. */
  lemma CamelTrailingUnderscore(s: string)
    requires '_' !in s
    ensures ToCamelCase(s + "_") == s
  {
    SplitTrailing(s);
    assert TitleAll([""]) == "";
  }

  lemma {:induction false} SplitTrailing(s: string)
    requires '_' !in s
    ensures Split(s + "_") == [s, ""]
  {
    SplitStep(s + "_");
    if s != [] {
      SplitTrailing(s[1..]);
      assert (s + "_")[0] == s[0] && (s + "_")[1..] == s[1..] + "_";
      assert [s[0]] + s[1..] == s;
    } else {
      assert s + "_" == "_" && "_"[1..] == "";
    }
  }

  /** A single param that is not a fixed key but camel-cases onto one overrides it: it is
      merged after the fixed keys, and on a collision the later key wins. */
  lemma ParamOverrides(fixed: Dict<Json>, k: string, v: Json)
    requires !HasKey(fixed, k) && !IsEmptyValue(v)
    ensures Get(WireDict(fixed, [(k, v)]), ToCamelCase(k)) == Some(v)
  {
    var m := PutAll(fixed, [(k, v)]);
    assert PutAll(fixed, [(k, v)][..0]) == fixed;
    assert m == fixed + [(k, v)];
    RekeyLaterWins(m, ToCamelCase, |fixed|);
    var r := Rekey(m, ToCamelCase);
    assert DistinctKeys<Json>([]);
    RemoveEmptyValuesKeeps(r, ToCamelCase(k));
  }

  /** Params override the fixed keys: what `to_dict` sends under the camel-cased form of a
      param key is the param's value, when no other param camel-cases onto the same key
      and, if the key is a fixed one, no other fixed key does either. */
  lemma ParamWins(fixed: Dict<Json>, params: Dict<Json>, k: string)
    requires DistinctKeys(fixed) && DistinctKeys(params) && HasKey(params, k)
    requires forall x :: HasKey(params, x) && x != k ==> ToCamelCase(x) != ToCamelCase(k)
    requires HasKey(fixed, k) ==> forall x :: HasKey(fixed, x) && x != k ==> ToCamelCase(x) != ToCamelCase(k)
    ensures Get(WireDict(fixed, params), ToCamelCase(k)) == Kept(Get(params, k))
  {
    var m := PutAll(fixed, params);
    var i := IndexOf(m, k);
    forall j | i < j < |m| ensures ToCamelCase(m[j].0) != ToCamelCase(m[i].0) {
      var x := m[j].0;
      assert HasKey(m, x) by { assert IndexOf(m, x) <= j; }
      if !HasKey(params, x) {
        var p := IndexOf(fixed, x);
        assert m[p].0 == x;
      }
    }
    RekeyLaterWins(m, ToCamelCase, i);
    PositionGet(m, i, k);
    DistinctLast(params, k);
    RekeyValues(m, ToCamelCase);
    RemoveEmptyValuesKeeps(Rekey(m, ToCamelCase), ToCamelCase(k));
  }

  /** A fixed dict whose keys are camel-cased already and whose values are all non-empty
      is sent as it is. */
  lemma WireDictPlain(fixed: Dict<Json>)
    requires DistinctKeys(fixed)
    requires forall i :: 0 <= i < |fixed| ==> ToCamelCase(fixed[i].0) == fixed[i].0
    requires forall i :: 0 <= i < |fixed| ==> !IsEmptyValue(fixed[i].1)
    ensures WireDict(fixed, []) == fixed
  {
    WireDictNoParams(fixed);
    RekeyIdentity(fixed, ToCamelCase);
    RemoveEmptyValuesNone(fixed);
  }

  // ----- lemmas: reading a payload back -----

  /** `load` on a payload that `to_dict` built from a fixed dict (no params) finds each
      fixed value under the snake-cased key, unless `to_dict` stripped it. */
  lemma StrippedSnakeGet(fixed: Dict<Json>, snake: seq<string>, i: nat)
    requires DistinctKeys(fixed) && |snake| == |fixed| && i < |fixed|
    requires forall j :: 0 <= j < |fixed| ==> ToSnakeCase(fixed[j].0) == snake[j]
    requires forall j, l :: 0 <= j < l < |snake| ==> snake[j] != snake[l]
    ensures Get(ToSnakeCaseDict(RemoveEmptyValues(fixed)), snake[i]) == Kept(Some(fixed[i].1))
  {
    var r := RemoveEmptyValues(fixed);
    var k := fixed[i].0;
    StrippedGet(fixed, i, k);
    forall x | HasKey(r, x) && ToSnakeCase(x) == ToSnakeCase(k) ensures x == k {
      RemoveEmptyValuesSubset(fixed, x);
      var j := IndexOf(fixed, x);
      assert snake[j] == snake[i];
    }
    RekeyGet(r, ToSnakeCase, k);
  }

  /** Every key `load` passes on from such a payload is one of the snake-cased keys. */
  lemma StrippedSnakeKeys(fixed: Dict<Json>, snake: seq<string>)
    requires |snake| == |fixed|
    requires forall j :: 0 <= j < |fixed| ==> ToSnakeCase(fixed[j].0) == snake[j]
    ensures forall x :: HasKey(ToSnakeCaseDict(RemoveEmptyValues(fixed)), x) ==> x in snake
  {
    var r := RemoveEmptyValues(fixed);
    RekeyKeys(r, ToSnakeCase);
    forall x | HasKey(ToSnakeCaseDict(r), x) ensures x in snake {
      var i :| 0 <= i < |r| && ToSnakeCase(r[i].0) == x;
      assert r[i] in fixed;
      var j :| 0 <= j < |fixed| && fixed[j] == r[i];
      assert snake[j] == x;
    }
  }

  /** StrippedSnakeGet when `load` first removes the entry at position t (`data.pop`):
      every other fixed value is still found under its snake-cased key. */
  lemma StrippedSnakeGetWithout(fixed: Dict<Json>, snake: seq<string>, t: nat, i: nat)
    requires DistinctKeys(fixed) && |snake| == |fixed| && t < |fixed| && i < |fixed| && i != t
    requires forall j :: 0 <= j < |fixed| ==> ToSnakeCase(fixed[j].0) == snake[j]
    requires forall j, l :: 0 <= j < l < |snake| ==> snake[j] != snake[l]
    ensures Get(ToSnakeCaseDict(WithoutKeys(RemoveEmptyValues(fixed), {fixed[t].0})), snake[i]) == Kept(Some(fixed[i].1))
  {
    var r := RemoveEmptyValues(fixed);
    var w := WithoutKeys(r, {fixed[t].0});
    var k := fixed[i].0;
    StrippedGet(fixed, i, k);
    WithoutKeysGet(r, {fixed[t].0}, k);
    forall x | HasKey(w, x) && ToSnakeCase(x) == ToSnakeCase(k) ensures x == k {
      WithoutKeysGet(r, {fixed[t].0}, x);
      RemoveEmptyValuesSubset(fixed, x);
      var j := IndexOf(fixed, x);
      assert snake[j] == snake[i];
    }
    RekeyGet(w, ToSnakeCase, k);
  }

  /** Every key `load` passes on from such a payload, after removing the entry at
      position t, is the snake-cased key of another position. */
  lemma StrippedSnakeKeysWithout(fixed: Dict<Json>, snake: seq<string>, t: nat)
    requires DistinctKeys(fixed) && |snake| == |fixed| && t < |fixed|
    requires forall j :: 0 <= j < |fixed| ==> ToSnakeCase(fixed[j].0) == snake[j]
    ensures forall x :: HasKey(ToSnakeCaseDict(WithoutKeys(RemoveEmptyValues(fixed), {fixed[t].0})), x) ==>
      exists j :: 0 <= j < |fixed| && j != t && x == snake[j]
  {
    var w := WithoutKeys(RemoveEmptyValues(fixed), {fixed[t].0});
    RekeyKeys(w, ToSnakeCase);
    forall x | HasKey(ToSnakeCaseDict(w), x) ensures exists j :: 0 <= j < |fixed| && j != t && x == snake[j] {
      var i :| 0 <= i < |w| && ToSnakeCase(w[i].0) == x;
      var j := StrippedWithoutEntry(fixed, t, w[i]);
      assert snake[j] == x;
    }
  }

  /** An entry left after stripping and removing the key at position t is the entry of
      another position. */
  lemma StrippedWithoutEntry(fixed: Dict<Json>, t: nat, e: (string, Json)) returns (j: nat)
    requires t < |fixed| && e in WithoutKeys(RemoveEmptyValues(fixed), {fixed[t].0})
    ensures j < |fixed| && j != t && fixed[j] == e
  {
    var r := RemoveEmptyValues(fixed);
    assert e in r && e.0 != fixed[t].0;
    assert e in fixed;
    j :| 0 <= j < |fixed| && fixed[j] == e;
  }

  /** The keys of a fixed dict listed in keys are camel-cased already when none of them
      has an underscore. */
  lemma CamelKeys(fixed: Dict<Json>, keys: seq<string>)
    requires |fixed| == |keys| && forall i :: 0 <= i < |fixed| ==> fixed[i].0 == keys[i]
    requires forall i :: 0 <= i < |keys| ==> '_' !in keys[i]
    ensures forall i :: 0 <= i < |fixed| ==> ToCamelCase(fixed[i].0) == fixed[i].0
  {
    forall i | 0 <= i < |keys| ensures ToCamelCase(keys[i]) == keys[i] {
      CamelIdentity(keys[i]);
    }
  }

  /** A dict with distinct camel-case keys and no empty value is sent as it is. */
  lemma KeyedDictSent(fixed: Dict<Json>, keys: seq<string>)
    requires |fixed| == |keys| && forall i :: 0 <= i < |fixed| ==> fixed[i].0 == keys[i]
    requires forall i :: 0 <= i < |keys| ==> '_' !in keys[i]
    requires forall i, j :: 0 <= i < j < |keys| ==> keys[i] != keys[j]
    requires forall i :: 0 <= i < |fixed| ==> !IsEmptyValue(fixed[i].1)
    ensures WireDict(fixed, []) == fixed
  {
    CamelKeys(fixed, keys);
    assert DistinctKeys(fixed);
    WireDictPlain(fixed);
  }

  /** Converting keys that land on distinct strings keeps every entry in place. */
  lemma RekeyTo<V>(d: Dict<V>, f: string -> string, keys: seq<string>)
    requires |keys| == |d| && forall j :: 0 <= j < |d| ==> f(d[j].0) == keys[j]
    requires forall j, l :: 0 <= j < l < |keys| ==> keys[j] != keys[l]
    ensures |Rekey(d, f)| == |d| && forall j :: 0 <= j < |d| ==> Rekey(d, f)[j] == (keys[j], d[j].1)
  {
    assert DistinctKeys(MapKeys(d, f));
    RekeyInjective(d, f);
  }

  /** Without params, `to_dict` sends each fixed value under its camel-cased key, unless
      the value is None or empty, when the camel-cased keys are distinct. */
  lemma CamelWireGet(fixed: Dict<Json>, camel: seq<string>, i: nat)
    requires |camel| == |fixed| && i < |fixed|
    requires forall j :: 0 <= j < |fixed| ==> ToCamelCase(fixed[j].0) == camel[j]
    requires forall j, l :: 0 <= j < l < |camel| ==> camel[j] != camel[l]
    ensures Get(WireDict(fixed, []), camel[i]) == Kept(Some(fixed[i].1))
  {
    WireDictNoParams(fixed);
    RekeyTo(fixed, ToCamelCase, camel);
    var c := ToCamelCaseDict(fixed);
    assert DistinctKeys(c);
    StrippedGet(c, i, camel[i]);
  }

  /** Without params, a fixed dict with no empty value whose keys camel-case to distinct
      strings is sent entry by entry under the camel-cased keys. */
  lemma CamelWireForm(fixed: Dict<Json>, camel: seq<string>)
    requires |camel| == |fixed|
    requires forall j :: 0 <= j < |fixed| ==> ToCamelCase(fixed[j].0) == camel[j]
    requires forall j, l :: 0 <= j < l < |camel| ==> camel[j] != camel[l]
    requires forall j :: 0 <= j < |fixed| ==> !IsEmptyValue(fixed[j].1)
    ensures |WireDict(fixed, [])| == |fixed|
    ensures forall j :: 0 <= j < |fixed| ==> WireDict(fixed, [])[j] == (camel[j], fixed[j].1)
  {
    WireDictNoParams(fixed);
    RekeyTo(fixed, ToCamelCase, camel);
    RemoveEmptyValuesNone(ToCamelCaseDict(fixed));
  }

  /** Snake-casing what `to_dict` sends gives back the fixed entries, when none is empty
      and every key survives the round trip through its distinct camel-cased form. */
  lemma CamelSentSnakeLoaded(fixed: Dict<Json>, camel: seq<string>)
    requires |camel| == |fixed|
    requires forall j :: 0 <= j < |fixed| ==> ToCamelCase(fixed[j].0) == camel[j] && ToSnakeCase(camel[j]) == fixed[j].0
    requires forall j, l :: 0 <= j < l < |camel| ==> camel[j] != camel[l]
    requires forall j :: 0 <= j < |fixed| ==> !IsEmptyValue(fixed[j].1)
    ensures ToSnakeCaseDict(RemoveEmptyValues(ToCamelCaseDict(fixed))) == fixed
  {
    CamelWireForm(fixed, camel);
    WireDictNoParams(fixed);
    SnakeBack(RemoveEmptyValues(ToCamelCaseDict(fixed)), fixed, camel);
  }

  /** Snake-casing entries under the camel-cased keys gives back the fixed entries. */
  lemma SnakeBack(w: Dict<Json>, fixed: Dict<Json>, camel: seq<string>)
    requires |camel| == |fixed| && |w| == |fixed|
    requires forall j :: 0 <= j < |fixed| ==> w[j] == (camel[j], fixed[j].1)
    requires forall j :: 0 <= j < |fixed| ==> ToCamelCase(fixed[j].0) == camel[j] && ToSnakeCase(camel[j]) == fixed[j].0
    requires forall j, l :: 0 <= j < l < |camel| ==> camel[j] != camel[l]
    ensures ToSnakeCaseDict(w) == fixed
  {
    var keys := seq(|fixed|, j requires 0 <= j < |fixed| => fixed[j].0);
    forall j, l | 0 <= j < l < |keys| ensures keys[j] != keys[l] {
      assert ToCamelCase(keys[j]) == camel[j] && ToCamelCase(keys[l]) == camel[l];
    }
    forall j | 0 <= j < |w| ensures ToSnakeCase(w[j].0) == keys[j] {
      assert w[j].0 == camel[j];
    }
    RekeyTo(w, ToSnakeCase, keys);
    assert ToSnakeCaseDict(w) == fixed;
  }

  /** `[load(x) for x in value]`: the value must be a list; the first failing element
      stops the comprehension. */
  function LoadEach<T>(v: Json, load: Json -> Result<T>): (r: Result<seq<T>>)
    ensures !v.JArr? ==> r.Err?
    ensures r.Ok? ==> |r.value| == |v.items| && forall i :: 0 <= i < |v.items| ==> load(v.items[i]) == Ok(r.value[i])
    ensures v.JArr? && r.Err? ==> exists i :: (0 <= i < |v.items| && load(v.items[i]) == Err(r.exc)
      && forall j :: 0 <= j < i ==> load(v.items[j]).Ok?)
  {
    if !v.JArr? then Err(TypeError("object is not iterable"))
    else LoadItems(v.items, load)
  }

  function LoadItems<T>(xs: seq<Json>, load: Json -> Result<T>): (r: Result<seq<T>>)
    ensures r.Ok? ==> |r.value| == |xs| && forall i :: 0 <= i < |xs| ==> load(xs[i]) == Ok(r.value[i])
    ensures r.Err? ==> exists i :: (0 <= i < |xs| && load(xs[i]) == Err(r.exc)
      && forall j :: 0 <= j < i ==> load(xs[j]).Ok?)
  {
    if xs == [] then Ok([])
    else
      var first :- load(xs[0]);
      var rest := LoadItems(xs[1..], load);
      assert forall i :: 1 <= i < |xs| ==> xs[i] == xs[1..][i - 1];
      if rest.Err? then
        var k :| (0 <= k < |xs[1..]| && load(xs[1..][k]) == Err(rest.exc)
          && forall j :: 0 <= j < k ==> load(xs[1..][j]).Ok?);
        assert load(xs[k + 1]) == Err(rest.exc);
        assert forall j :: 0 <= j < k + 1 ==> load(xs[j]).Ok?;
        Err(rest.exc)
      else
        Ok([first] + rest.value)
  }


  /** Loading a list of items that each load to the matching value loads to the list of
      those values. */
  lemma {:induction false} LoadItemsOk<T>(xs: seq<Json>, load: Json -> Result<T>, ys: seq<T>)
    requires |xs| == |ys|
    requires forall i :: 0 <= i < |xs| ==> load(xs[i]) == Ok(ys[i])
    ensures LoadItems(xs, load) == Ok(ys)
  {
    if xs != [] {
      LoadItemsOk(xs[1..], load, ys[1..]);
      assert ys == [ys[0]] + ys[1..];
    }
  }

}
