/**
 * JSON values as the supplier configuration holds them after `json.load`, the
 * dictionary accessors the extractors call on them, and `_get_nested_value`.
 */
module Json {
  import opened Wrappers
  import opened Values
  import opened Strings

  /** A loaded JSON value. Numbers are integers only: the model has no JSON number with
      a fraction or an exponent. */
  datatype Json =
    | JNull
    | JBool(b: bool)
    | JInt(n: int)
    | JStr(s: string)
    | JArr(items: seq<Json>)
    | JObj(fields: Dict<Json>)

  /** A list or a dict: Python cannot hash it, so using it as a dict key, in a store
      or in an `in` test on a dict, raises TypeError. */
  predicate Unhashable(j: Json) {
    j.JArr? || j.JObj?
  }

  /** Python truthiness. */
  predicate JTruthy(j: Json) {
    match j
    case JNull => false
    case JBool(b) => b
    case JInt(n) => n != 0
    case JStr(s) => s != ""
    case JArr(items) => items != []
    case JObj(fields) => fields != []
  }

  const EmptyObj: Json := JObj([])

  /** `j.get(key, default)`: only a `dict` has `get`. */
  function GetOr(j: Json, key: string, default: Json): (r: Result<Json>)
    ensures r.Err? <==> !j.JObj?
    ensures j.JObj? && key !in Keys(j.fields) ==> r == Ok(default)
    ensures j.JObj? && key in Keys(j.fields) ==> r == Ok(Lookup(j.fields, key).value)
  {
    if !j.JObj? then Err(AttributeError)
    else
      match Lookup(j.fields, key)
      case None => Ok(default)
      case Some(v) => Ok(v)
  }

  /** `j.get(key) or default`: a missing key and every falsy value give the default. */
  function GetOrElse(j: Json, key: string, default: Json): (r: Result<Json>)
    ensures r.Err? <==> !j.JObj?
    ensures r.Ok? && r.value != default ==> JTruthy(r.value) && Lookup(j.fields, key) == Some(r.value)
  {
    match GetOr(j, key, JNull)
    case Err(e) => Err(e)
    case Ok(v) => Ok(if JTruthy(v) then v else default)
  }

  /** `j[key]`. */
  function Index(j: Json, key: string): (r: Result<Json>)
    ensures r.Ok? <==> j.JObj? && key in Keys(j.fields)
  {
    if !j.JObj? then Err(TypeError)
    else
      match Lookup(j.fields, key)
      case None => Err(KeyError)
      case Some(v) => Ok(v)
  }

  /** `for x in j`: the elements of a list, the one-character strings of a string, the keys
      of a dict; anything else cannot be iterated. */
  function Iter(j: Json): (r: Result<seq<Json>>)
    ensures r.Err? <==> !(j.JArr? || j.JStr? || j.JObj?)
    ensures j.JArr? ==> r == Ok(j.items)
  {
    match j
    case JArr(items) => Ok(items)
    case JStr(s) => Ok(seq(|s|, i requires 0 <= i < |s| => JStr([s[i]])))
    case JObj(fields) => Ok(seq(|fields|, i requires 0 <= i < |fields| => JStr(fields[i].0)))
    case _ => Err(TypeError)
  }

  /** The source of `re.compile(j) if j else None` for a configuration value `j`: a falsy
      value compiles to nothing, a string to a pattern, anything else raises TypeError. */
  function PatternSource(j: Json): Result<Option<string>> {
    if !JTruthy(j) then Ok(None)
    else if j.JStr? then Ok(Some(j.s))
    else Err(TypeError)
  }

  // ---------------------------------------------------------------------------
  // _get_nested_value
  // ---------------------------------------------------------------------------

  /** The value reached by following `keys` from `v`; `None` as soon as a step is not a dict. */
  function Walk(v: Json, keys: seq<string>): Json
    decreases |keys|
  {
    if keys == [] then v
    else if v.JObj? then
      Walk(match Lookup(v.fields, keys[0]) case None => JNull case Some(w) => w, keys[1..])
    else JNull
  }

  /** `_get_nested_value(data, path)`. */
  method GetNestedValue(data: Json, path: string) returns (r: Json)
    ensures path == [] ==> r == JNull
    ensures path != [] ==> r == Walk(data, Split(path, '.'))
  {
    if path == [] {
      return JNull;
    }
    var keys := Split(path, '.');
    var value := data;
    var k := 0;
    while k < |keys|
      invariant 0 <= k <= |keys|
      invariant Walk(data, keys) == Walk(value, keys[k..])
    {
      WalkStep(value, keys, k);
      if value.JObj? {
        value := match Lookup(value.fields, keys[k]) case None => JNull case Some(w) => w;
      } else {
        return JNull;
      }
      k := k + 1;
    }
    assert keys[k..] == [];
    return value;
  }

  /** One step of the walk: a dict reads the next key, anything else ends in `None`. */
  lemma WalkStep(v: Json, keys: seq<string>, k: nat)
    requires k < |keys|
    ensures v.JObj? ==>
      Walk(v, keys[k..]) == Walk(match Lookup(v.fields, keys[k]) case None => JNull case Some(w) => w, keys[k + 1..])
    ensures !v.JObj? ==> Walk(v, keys[k..]) == JNull
  {
    assert keys[k..][0] == keys[k] && keys[k..][1..] == keys[k + 1..];
  }

  /** Walking a path in two pieces is walking it in one: `"a.b.c"` reads `c` of what `"a.b"`
      reads, including when some step is missing or not a dict. */
  lemma {:induction false} WalkConcat(v: Json, ks1: seq<string>, ks2: seq<string>)
    ensures Walk(v, ks1 + ks2) == Walk(Walk(v, ks1), ks2)
    decreases |ks1|
  {
    if ks1 == [] {
      assert ks1 + ks2 == ks2;
    } else {
      assert (ks1 + ks2)[0] == ks1[0] && (ks1 + ks2)[1..] == ks1[1..] + ks2;
      if v.JObj? {
        var w := match Lookup(v.fields, ks1[0]) case None => JNull case Some(w) => w;
        WalkConcat(w, ks1[1..], ks2);
      } else {
        WalkNull(ks2);
      }
    }
  }

  /** `None` and every other non-dict value lead nowhere. */
  lemma WalkNull(ks: seq<string>)
    ensures Walk(JNull, ks) == JNull
  {
  }

  /** One key: the value stored under it, `None` when it is absent. */
  lemma WalkOne(v: Json, key: string)
    requires v.JObj?
    ensures Walk(v, [key]) == match Lookup(v.fields, key) case None => JNull case Some(w) => w
  {
    var w := match Lookup(v.fields, key) case None => JNull case Some(w) => w;
    assert [key][1..] == [];
  }

  /** A list of texts as JSON strings, element by element. */
  function StrList(ts: seq<string>): (js: seq<Json>)
    ensures |js| == |ts| && forall i :: 0 <= i < |ts| ==> js[i] == JStr(ts[i])
  {
    seq(|ts|, i requires 0 <= i < |ts| => JStr(ts[i]))
  }
}
