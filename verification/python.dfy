/** The fragment of Python's value model that the pipeline relies on: JSON-shaped values (what
    `json.loads` produces), exceptions as error results, truthiness, the `in` operator, `dict.get`,
    subscripting, iteration, and the string builtins `strip`, `replace`, `find`, `rfind` and slicing.
    Python dicts keep insertion order, so a dict is an association list of (key, value) pairs. */
module Python {

  datatype Option<+T> = None | Some(value: T) {
    function GetOr(default: T): T {
      match this
      case Some(v) => v
      case None => default
    }
  }

  /** The exception classes that the pipeline raises or distinguishes. */
  datatype ErrorKind =
    | ValueError
    | JSONDecodeError      // subclass of ValueError
    | TypeError
    | AttributeError
    | KeyError
    | UnboundLocalError
    | RequestException     // anything the HTTP client raises
    | ProviderError        // anything the LLM client raises

  datatype PyError = PyError(kind: ErrorKind, message: string)

  /** isinstance(e, ValueError) */
  predicate IsValueError(k: ErrorKind) {
    k == ValueError || k == JSONDecodeError
  }

  /** A value, or the exception raised while computing it. */
  datatype Result<+T> = Ok(value: T) | Err(error: PyError) {
    predicate IsFailure() { Err? }
    function PropagateFailure<U>(): Result<U>
      requires Err?
    {
      Err(error)
    }
    function Extract(): T
      requires Ok?
    {
      value
    }
  }

  /** A JSON value as Python holds it: None, bool, int, str, list, dict. */
  datatype Json =
    | JNull
    | JBool(b: bool)
    | JInt(i: int)
    | JStr(s: string)
    | JArray(items: seq<Json>)
    | JObject(fields: seq<(string, Json)>)

  type Fields = seq<(string, Json)>

  /** `type(v).__name__` */
  function TypeName(v: Json): string {
    match v
    case JNull => "NoneType"
    case JBool(_) => "bool"
    case JInt(_) => "int"
    case JStr(_) => "str"
    case JArray(_) => "list"
    case JObject(_) => "dict"
  }

  /** `bool(v)`: None, False, 0 and empty containers are falsy. */
  predicate Truthy(v: Json) {
    match v
    case JNull => false
    case JBool(b) => b
    case JInt(i) => i != 0
    case JStr(s) => s != []
    case JArray(a) => a != []
    case JObject(f) => f != []
  }

  /** The falsy values are exactly None, False, 0, `""`, `[]` and `{}`. */
  lemma {:induction false} TruthyMeaning(v: Json)
    ensures !Truthy(v) <==> v in {JNull, JBool(false), JInt(0), JStr(""), JArray([]), JObject([])}
  {
  }

  // ---------- dicts ----------

  /** The keys of a dict in insertion order. */
  function KeysOf(f: Fields): (ks: seq<string>)
    ensures |ks| == |f| && forall i :: 0 <= i < |f| ==> ks[i] == f[i].0
  {
    if f == [] then [] else [f[0].0] + KeysOf(f[1..])
  }

  /** `d[k]` when present: the value bound to k. */
  function Lookup(f: Fields, k: string): (r: Option<Json>)
    ensures r.None? <==> k !in KeysOf(f)
    ensures r.Some? ==> exists i :: 0 <= i < |f| && f[i] == (k, r.value)
  {
    if f == [] then None
    else if f[0].0 == k then Some(f[0].1)
    else Lookup(f[1..], k)
  }

  /** `d[k] = v`: an existing key keeps its position, a new key goes last. */
  function Update(f: Fields, k: string, v: Json): (r: Fields)
    ensures Lookup(r, k) == Some(v)
    ensures forall k' :: k' != k ==> Lookup(r, k') == Lookup(f, k')
    ensures k in KeysOf(f) ==> KeysOf(r) == KeysOf(f)
    ensures k !in KeysOf(f) ==> KeysOf(r) == KeysOf(f) + [k]
  {
    if f == [] then [(k, v)]
    else if f[0].0 == k then
      assert f == [f[0]] + f[1..];
      UpdateHead(f[0].1, f[1..], k, v);
      [(k, v)] + f[1..]
    else
      var u := Update(f[1..], k, v);
      assert f == [f[0]] + f[1..];
      UpdateCons(f[0], f[1..], u, k, v);
      [f[0]] + u
  }

  /** Rebinding the first key replaces its value in place. */
  lemma {:induction false} UpdateHead(w: Json, g: Fields, k: string, v: Json)
    ensures var f, r := [(k, w)] + g, [(k, v)] + g;
      Lookup(r, k) == Some(v) &&
      (forall k' :: k' != k ==> Lookup(r, k') == Lookup(f, k')) &&
      KeysOf(r) == KeysOf(f) && k in KeysOf(f)
  {
    var f, r := [(k, w)] + g, [(k, v)] + g;
    assert f[1..] == g && r[1..] == g;
    assert KeysOf(f) == [k] + KeysOf(g) == KeysOf(r);
  }

  /** Updating behind a first entry with another key keeps that entry in front. */
  lemma {:induction false} UpdateCons(p: (string, Json), g: Fields, u: Fields, k: string, v: Json)
    requires p.0 != k
    requires Lookup(u, k) == Some(v)
    requires forall k' :: k' != k ==> Lookup(u, k') == Lookup(g, k')
    requires k in KeysOf(g) ==> KeysOf(u) == KeysOf(g)
    requires k !in KeysOf(g) ==> KeysOf(u) == KeysOf(g) + [k]
    ensures var f, r := [p] + g, [p] + u;
      Lookup(r, k) == Some(v) &&
      (forall k' :: k' != k ==> Lookup(r, k') == Lookup(f, k')) &&
      (k in KeysOf(f) ==> KeysOf(r) == KeysOf(f)) &&
      (k !in KeysOf(f) ==> KeysOf(r) == KeysOf(f) + [k])
  {
    ConsLookups(p, g, u, k, v);
    ConsKeysKept(p, g, u, k);
  }

  lemma {:induction false} ConsLookups(p: (string, Json), g: Fields, u: Fields, k: string, v: Json)
    requires p.0 != k
    requires Lookup(u, k) == Some(v)
    requires forall k' :: k' != k ==> Lookup(u, k') == Lookup(g, k')
    ensures Lookup([p] + u, k) == Some(v)
    ensures forall k' :: k' != k ==> Lookup([p] + u, k') == Lookup([p] + g, k')
  {
    ConsLookup(p, u, k);
    forall k' | k' != k ensures Lookup([p] + u, k') == Lookup([p] + g, k') {
      ConsLookup(p, u, k');
      ConsLookup(p, g, k');
    }
  }

  lemma {:induction false} ConsKeysKept(p: (string, Json), g: Fields, u: Fields, k: string)
    requires p.0 != k
    requires k in KeysOf(g) ==> KeysOf(u) == KeysOf(g)
    requires k !in KeysOf(g) ==> KeysOf(u) == KeysOf(g) + [k]
    ensures k in KeysOf([p] + g) ==> KeysOf([p] + u) == KeysOf([p] + g)
    ensures k !in KeysOf([p] + g) ==> KeysOf([p] + u) == KeysOf([p] + g) + [k]
  {
    ConsKeys(p, g);
    ConsKeys(p, u);
    assert k in KeysOf([p] + g) <==> k in KeysOf(g);
    if k !in KeysOf(g) {
      assert [p.0] + (KeysOf(g) + [k]) == ([p.0] + KeysOf(g)) + [k];
    }
  }

  lemma {:induction false} ConsKeys(p: (string, Json), g: Fields)
    ensures KeysOf([p] + g) == [p.0] + KeysOf(g)
  {
    assert ([p] + g)[1..] == g;
  }

  lemma {:induction false} ConsLookup(p: (string, Json), g: Fields, k: string)
    ensures Lookup([p] + g, k) == if p.0 == k then Some(p.1) else Lookup(g, k)
  {
    assert ([p] + g)[1..] == g;
  }

  /** Assigning a key the dict does not have appends the pair. */
  lemma {:induction false} UpdateAppends(f: Fields, k: string, v: Json)
    requires k !in KeysOf(f)
    ensures Update(f, k, v) == f + [(k, v)]
  {
    if f != [] {
      assert KeysOf(f) == [f[0].0] + KeysOf(f[1..]);
      assert f[0].0 != k;
      assert Update(f, k, v) == [f[0]] + Update(f[1..], k, v);
      UpdateAppends(f[1..], k, v);
      assert [f[0]] + (f[1..] + [(k, v)]) == f + [(k, v)];
    }
  }

  predicate DistinctKeys(f: Fields) {
    forall a, b :: 0 <= a < b < |f| ==> f[a].0 != f[b].0
  }

  /** In a dict whose keys are distinct, each key reads back its own entry. */
  lemma {:induction false} LookupDistinct(f: Fields, i: nat)
    requires DistinctKeys(f) && i < |f|
    ensures Lookup(f, f[i].0) == Some(f[i].1)
  {
    if i > 0 {
      assert f[1..][i - 1] == f[i];
      assert f[0].0 != f[i].0;
      LookupDistinct(f[1..], i - 1);
    }
  }

  /** `d.get(k, default)` on a dict. */
  function GetDefault(f: Fields, k: string, default: Json): Json {
    Lookup(f, k).GetOr(default)
  }

  function AttributeErrorOf(v: Json, attribute: string): PyError {
    PyError(AttributeError, "'" + TypeName(v) + "' object has no attribute '" + attribute + "'")
  }

  /** `v.get(k, default)`: only a dict has `get`. */
  function Get(v: Json, k: string, default: Json): (r: Result<Json>)
    ensures r.Ok? <==> v.JObject?
    ensures r.Ok? ==> r.value == GetDefault(v.fields, k, default)
  {
    match v
    case JObject(f) => Ok(GetDefault(f, k, default))
    case _ => Err(AttributeErrorOf(v, "get"))
  }

  /** `v[k]` with a str key. */
  function Subscript(v: Json, k: string): (r: Result<Json>)
    ensures r.Ok? <==> v.JObject? && k in KeysOf(v.fields)
    ensures r.Ok? ==> Lookup(v.fields, k) == Some(r.value)
    ensures r.Err? ==> r.error.kind == if v.JObject? then KeyError else TypeError
  {
    match v
    case JObject(f) =>
      (match Lookup(f, k)
       case Some(x) => Ok(x)
       case None => Err(PyError(KeyError, "'" + k + "'")))
    case JStr(_) => Err(PyError(TypeError, "string indices must be integers, not 'str'"))
    case JArray(_) => Err(PyError(TypeError, "list indices must be integers or slices, not str"))
    case _ => Err(PyError(TypeError, "'" + TypeName(v) + "' object is not subscriptable"))
  }

  /** `needle in v` for a str needle: key of a dict, element of a list, substring of a str. */
  function In(needle: string, v: Json): (r: Result<bool>)
    ensures r.Ok? <==> (v.JObject? || v.JArray? || v.JStr?)
    ensures v.JObject? ==> r == Ok(needle in KeysOf(v.fields))
    ensures v.JArray? ==> r == Ok(JStr(needle) in v.items)
    ensures v.JStr? ==> r == Ok(Contains(v.s, needle))
    ensures r.Err? ==> r.error.kind == TypeError
  {
    match v
    case JObject(f) => Ok(Lookup(f, needle).Some?)
    case JArray(a) => Ok(JStr(needle) in a)
    case JStr(s) => Ok(Contains(s, needle))
    case _ => Err(PyError(TypeError, "argument of type '" + TypeName(v) + "' is not iterable"))
  }

  /** `for x in v`: a list yields its elements, a dict its keys, a str its characters. */
  function Iter(v: Json): (r: Result<seq<Json>>)
    ensures r.Ok? <==> (v.JObject? || v.JArray? || v.JStr?)
    ensures v.JArray? ==> r == Ok(v.items)
    ensures v.JObject? ==> (r.Ok? && |r.value| == |v.fields| &&
      forall i :: 0 <= i < |v.fields| ==> r.value[i] == JStr(v.fields[i].0))
    ensures v.JStr? ==> (r.Ok? && |r.value| == |v.s| &&
      forall i :: 0 <= i < |v.s| ==> r.value[i] == JStr([v.s[i]]))
    ensures r.Err? ==> r.error.kind == TypeError
  {
    match v
    case JArray(a) => Ok(a)
    case JObject(f) => Ok(seq(|f|, i requires 0 <= i < |f| => JStr(f[i].0)))
    case JStr(s) => Ok(seq(|s|, i requires 0 <= i < |s| => JStr([s[i]])))
    case _ => Err(PyError(TypeError, "'" + TypeName(v) + "' object is not iterable"))
  }

  // ---------- strings ----------

  /** `str.isspace()` for one character: the Unicode whitespace that `str.strip()` removes. */
  predicate IsSpace(c: char) {
    ('\t' <= c <= '\r') || ('\U{1C}' <= c <= '\U{1F}') || c == ' ' || c == '\U{85}' ||
    c == '\U{A0}' || c == '\U{1680}' || ('\U{2000}' <= c <= '\U{200A}') || c == '\U{2028}' ||
    c == '\U{2029}' || c == '\U{202F}' || c == '\U{205F}' || c == '\U{3000}'
  }

  predicate AllSpace(s: string) {
    forall i :: 0 <= i < |s| ==> IsSpace(s[i])
  }

  function LStrip(s: string): (r: string)
    ensures |r| <= |s| && r == s[|s| - |r|..]
    ensures AllSpace(s[..|s| - |r|])
    ensures r != [] ==> !IsSpace(r[0])
  {
    if s != [] && IsSpace(s[0]) then
      var r := LStrip(s[1..]);
      assert s[..|s| - |r|] == [s[0]] + s[1..][..|s| - 1 - |r|];
      r
    else s
  }

  function RStrip(s: string): (r: string)
    ensures |r| <= |s| && r == s[..|r|]
    ensures AllSpace(s[|r|..])
    ensures r != [] ==> !IsSpace(r[|r| - 1])
  {
    if s != [] && IsSpace(s[|s| - 1]) then
      var r := RStrip(s[..|s| - 1]);
      assert s[|r|..] == s[..|s| - 1][|r|..] + [s[|s| - 1]];
      r
    else s
  }

  /** `s.strip()`: the longest infix of s that neither starts nor ends with whitespace. */
  function Strip(s: string): (r: string)
    ensures forall i :: 0 <= i < |r| ==> r[i] in s
    ensures r == [] <==> AllSpace(s)
    ensures r != [] ==> !IsSpace(r[0]) && !IsSpace(r[|r| - 1])
    ensures TrimOf(s, r)
  {
    StripParts(s);
    StripInfix(s);
    RStrip(LStrip(s))
  }

  /** r is s with some whitespace removed from its start and some from its end. */
  predicate TrimOf(s: string, r: string) {
    exists a :: 0 <= a && a + |r| <= |s| && r == s[a..a + |r|] &&
      AllSpace(s[..a]) && AllSpace(s[a + |r|..])
  }

  /** What `strip` removes is whitespace on both sides of what it keeps. */
  lemma {:induction false} StripInfix(s: string)
    ensures TrimOf(s, RStrip(LStrip(s)))
  {
    var l := LStrip(s);
    TrimmedInfix(s, l, RStrip(l));
  }

  lemma {:induction false} TrimmedInfix(s: string, l: string, r: string)
    requires |l| <= |s| && l == s[|s| - |l|..] && AllSpace(s[..|s| - |l|])
    requires |r| <= |l| && r == l[..|r|] && AllSpace(l[|r|..])
    ensures TrimOf(s, r)
  {
    var d := |s| - |l|;
    assert r == s[d..d + |r|];
    assert s[d + |r|..] == l[|r|..];
  }

  lemma {:induction false} StripParts(s: string)
    ensures forall i :: 0 <= i < |RStrip(LStrip(s))| ==> RStrip(LStrip(s))[i] in s
    ensures RStrip(LStrip(s)) == [] <==> AllSpace(s)
    ensures RStrip(LStrip(s)) != [] ==> !IsSpace(RStrip(LStrip(s))[0])
  {
    var l := LStrip(s);
    var r := RStrip(l);
    var d := |s| - |l|;
    forall i | 0 <= i < |r| ensures r[i] in s {
      assert r[i] == l[i] == s[d + i];
    }
    if r == [] {
      assert l[|r|..] == l;
      assert l == [];
      assert s[..d] == s;
    } else {
      assert r[0] == l[0] == s[d];
      assert !AllSpace(s);
    }
  }

  /** `s.replace(a, b)` for one-character arguments. */
  function Replace(s: string, a: char, b: char): (r: string)
    ensures |r| == |s|
    ensures forall i :: 0 <= i < |s| ==> r[i] == if s[i] == a then b else s[i]
  {
    if s == [] then [] else [if s[0] == a then b else s[0]] + Replace(s[1..], a, b)
  }

  /** sub occurs in s starting at index i. */
  predicate OccursAt(s: string, sub: string, i: nat) {
    i + |sub| <= |s| && s[i..i + |sub|] == sub
  }

  /** `sub in s` for strings: sub occurs at some position of s. */
  predicate Contains(s: string, sub: string) {
    exists i: nat :: i <= |s| && OccursAt(s, sub, i)
  }

  /** A string holding no occurrence of a substring's first character does not contain it. */
  lemma {:induction false} FirstCharAbsent(s: string, sub: string)
    requires sub != [] && sub[0] !in s
    ensures !Contains(s, sub)
  {
    forall i: nat | i + |sub| <= |s| ensures !OccursAt(s, sub, i) {
      assert s[i..i + |sub|][0] == s[i];
    }
  }

  /** `s.find(c)`: the first index of c, or -1. */
  function Find(s: string, c: char): (r: int)
    ensures -1 <= r < |s|
    ensures r == -1 <==> c !in s
    ensures r >= 0 ==> s[r] == c && forall k :: 0 <= k < r ==> s[k] != c
  {
    if s == [] then -1
    else if s[0] == c then 0
    else
      var k := Find(s[1..], c);
      assert forall j :: 0 <= j < |s| - 1 ==> s[1..][j] == s[j + 1];
      if k == -1 then -1 else k + 1
  }

  /** `s.rfind(c)`: the last index of c, or -1. */
  function RFind(s: string, c: char): (r: int)
    ensures -1 <= r < |s|
    ensures r == -1 <==> c !in s
    ensures r >= 0 ==> s[r] == c && forall k :: r < k < |s| ==> s[k] != c
  {
    if s == [] then -1
    else if s[|s| - 1] == c then |s| - 1
    else
      assert forall j :: 0 <= j < |s| - 1 ==> s[..|s| - 1][j] == s[j];
      RFind(s[..|s| - 1], c)
  }

  /** A slice bound as Python resolves it: negative counts from the end, then clamped to [0, n]. */
  function SliceIndex(i: int, n: nat): (r: nat)
    ensures r <= n
    ensures 0 <= i <= n ==> r == i
    ensures i < 0 && i + n >= 0 ==> r == i + n
    ensures i > n ==> r == n
    ensures i + n < 0 ==> r == 0
  {
    if i < 0 then (if i + n < 0 then 0 else i + n)
    else if i > n then n
    else i
  }

  /** `s[start:stop]`. */
  function Slice(s: string, start: int, stop: int): (r: string)
    ensures 0 <= start <= stop <= |s| ==> r == s[start..stop]
    ensures 0 <= start <= |s| < stop ==> r == s[start..]
    ensures 0 <= stop <= start ==> r == []
    ensures |s| <= start ==> r == []
    ensures SliceIndex(start, |s|) < SliceIndex(stop, |s|) ==>
      r == s[SliceIndex(start, |s|)..SliceIndex(stop, |s|)]
    ensures SliceIndex(stop, |s|) <= SliceIndex(start, |s|) ==> r == []
  {
    var a := SliceIndex(start, |s|);
    var b := SliceIndex(stop, |s|);
    if a < b then s[a..b] else []
  }

  // ---------- process environment ----------

  type Environment = map<string, string>

  /** `os.getenv(k)` */
  function GetEnv(env: Environment, k: string): Option<string> {
    if k in env then Some(env[k]) else None
  }

  /** `os.getenv(k, default)` */
  function GetEnvOr(env: Environment, k: string, default: string): (r: string)
    ensures GetEnv(env, k).Some? ==> r == GetEnv(env, k).value
    ensures GetEnv(env, k).None? ==> r == default
  {
    if k in env then env[k] else default
  }

  /** `not os.getenv(k)`: unset or empty. */
  predicate Unset(v: Option<string>) {
    v.None? || v.value == []
  }

  /** A Python dict object, for the code that updates a dict in place and hands it on. */
  class PyDict {
    var entries: Fields

    constructor (f: Fields)
      ensures entries == f
    {
      entries := f;
    }
  }
}
