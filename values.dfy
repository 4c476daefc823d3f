/**
 * The values the extractors put into item records, and Python `dict`s as
 * insertion-ordered sequences of key/value pairs.
 */
module Values {
  import opened Wrappers
  import opened Strings
  import Regex

  /** A record field: Python `None`, a `str`, or an `int` after `_to_int_safe`. */
  datatype Value = VNone | VStr(s: string) | VInt(n: int)

  function FromOpt(o: Option<string>): (v: Value)
    ensures v.VNone? <==> o.None?
    ensures o.Some? ==> v == VStr(o.value)
  {
    match o
    case None => VNone
    case Some(s) => VStr(s)
  }

  /** Python truthiness of a field value. */
  predicate TruthyValue(v: Value) {
    match v
    case VNone => false
    case VStr(s) => s != ""
    case VInt(n) => n != 0
  }

  /** `str(n)` for an integer. */
  function IntString(n: int): (s: string)
    ensures s != []
  {
    if n < 0 then "-" + NatString(-n) else NatString(n)
  }

  /** `str(v)`. */
  function PyStr(v: Value): string {
    match v
    case VNone => "None"
    case VStr(s) => s
    case VInt(n) => IntString(n)
  }

  /** A Python `dict`: its entries in insertion order. */
  type Dict<V> = seq<(string, V)>

  function Keys<V>(d: Dict<V>): (ks: seq<string>)
    ensures |ks| == |d|
    ensures forall i :: 0 <= i < |d| ==> ks[i] == d[i].0
  {
    if d == [] then [] else [d[0].0] + Keys(d[1..])
  }

  /** Every key occurs once, as in any Python `dict`. */
  predicate DistinctKeys<V>(d: Dict<V>) {
    forall i, j :: 0 <= i < |d| && 0 <= j < |d| && i != j ==> d[i].0 != d[j].0
  }

  /** `d.get(k)`. */
  function Lookup<V>(d: Dict<V>, k: string): (r: Option<V>)
    ensures r.None? <==> k !in Keys(d)
    ensures r.Some? ==> exists i :: 0 <= i < |d| && d[i] == (k, r.value)
  {
    if d == [] then None
    else if d[0].0 == k then Some(d[0].1)
    else
      var r := Lookup(d[1..], k);
      assert Keys(d) == [d[0].0] + Keys(d[1..]);
      assert forall i :: 1 <= i < |d| ==> d[i] == d[1..][i - 1];
      r
  }

  /** An entry in front of a dict: its key comes first and shadows the rest. */
  lemma ConsEntry<V>(x: (string, V), rest: Dict<V>)
    ensures Keys([x] + rest) == [x.0] + Keys(rest)
    ensures forall k :: Lookup([x] + rest, k) == if x.0 == k then Some(x.1) else Lookup(rest, k)
  {
    assert ([x] + rest)[0] == x && ([x] + rest)[1..] == rest;
  }

  /** `d[k] = v`: an existing key keeps its place, a new one goes last. */
  function Put<V>(d: Dict<V>, k: string, v: V): (r: Dict<V>)
    ensures Keys(r) == if k in Keys(d) then Keys(d) else Keys(d) + [k]
    ensures Lookup(r, k) == Some(v)
    ensures forall k' :: k' != k ==> Lookup(r, k') == Lookup(d, k')
  {
    if d == [] then
      ConsEntry((k, v), []);
      [(k, v)]
    else
      assert d == [d[0]] + d[1..];
      ConsEntry(d[0], d[1..]);
      if d[0].0 == k then
        ConsEntry((k, v), d[1..]);
        [(k, v)] + d[1..]
      else
        var rest := Put(d[1..], k, v);
        ConsEntry(d[0], rest);
        ConcatAssoc([d[0].0], Keys(d[1..]), [k]);
        [d[0]] + rest
  }

  /** `m.groupdict()` as a record: the named groups in order, absent groups as None. */
  function OfGroupDict(g: Regex.GroupDict): (d: Dict<Value>)
    ensures |d| == |g|
    ensures forall i :: 0 <= i < |g| ==> d[i] == (g[i].0, FromOpt(g[i].1))
  {
    seq(|g|, i requires 0 <= i < |g| => (g[i].0, FromOpt(g[i].1)))
  }
}
