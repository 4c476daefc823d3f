/**
 * What the `main` functions do with a detected profile: the mode dispatch of
 * plumber_step3_generic.py (multi-blocks, then multiline, then single block),
 * the single-block loop of plumber_step2_generic.py and the multiline-only
 * dispatch of plumber_step2_generic_test.py. Reading the PDF, printing and the
 * float post-processing are not part of this model; the lines are a parameter.
 */
module Dispatch {
  import opened Wrappers
  import opened Values
  import opened Regex
  import opened Json
  import opened Numeric
  import TextNorm
  import Blocks
  import Multiline

  // ---------------------------------------------------------------------------
  // int_fields
  // ---------------------------------------------------------------------------

  /** The keys of `post.int_fields`. Step 3 reads `profile.get("post", {})`, which fails on
      an explicit null; step 2 (`lenient`) reads `profile.get("post") or {}`. */
  function IntFields(profile: Json, lenient: bool): Result<seq<Json>> {
    var post := if lenient then GetOrElse(profile, "post", EmptyObj) else GetOr(profile, "post", EmptyObj);
    match post
    case Err(e) => Err(e)
    case Ok(p) =>
      match GetOr(p, "int_fields", JArr([]))
      case Err(e) => Err(e)
      case Ok(fs) => Iter(fs)
  }

  /** `if k in it: it[k] = conv(it[k])` for one key. */
  function ConvertOne(conv: Value -> int, it: Dict<Value>, key: Json): (r: Dict<Value>)
    ensures Keys(r) == Keys(it)
    ensures forall k :: k in Keys(it) && JStr(k) == key ==> Lookup(r, k) == Some(VInt(conv(Lookup(it, k).value)))
    ensures forall k :: JStr(k) != key ==> Lookup(r, k) == Lookup(it, k)
  {
    if key.JStr? && key.s in Keys(it) then Put(it, key.s, VInt(conv(Lookup(it, key.s).value))) else it
  }

  /** `for k in keys: if k in it: it[k] = conv(it[k])`. */
  function ConvertKeys(conv: Value -> int, it: Dict<Value>, keys: seq<Json>): (r: Result<Dict<Value>>)
    ensures r.Err? <==> exists i :: 0 <= i < |keys| && Unhashable(keys[i])
    decreases |keys|
  {
    if keys == [] then Ok(it)
    else if Unhashable(keys[0]) then Err(TypeError)
    else
      var r := ConvertKeys(conv, ConvertOne(conv, it, keys[0]), keys[1..]);
      assert forall i :: 1 <= i < |keys| ==> keys[i] == keys[1..][i - 1];
      assert r.Err? ==> exists i :: 0 <= i < |keys[1..]| && Unhashable(keys[1..][i]);
      r
  }

  /** The items of one group of groupdicts, each converted; `int_fields` is read afresh for
      every item, so an unreadable `post` fails only when there is an item. */
  function ConvertAll(conv: Value -> int, keys: Result<seq<Json>>, gds: seq<GroupDict>): Result<seq<Dict<Value>>>
    decreases |gds|
  {
    if gds == [] then Ok([])
    else
      match keys
      case Err(e) => Err(e)
      case Ok(ks) =>
        match ConvertKeys(conv, OfGroupDict(gds[0]), ks)
        case Err(e) => Err(e)
        case Ok(it) => Prepend([it], ConvertAll(conv, keys, gds[1..]))
  }

  /** The listed keys present in the item hold their converted value (converting twice is
      converting once); every other key keeps its value. */
  lemma ConvertKeysMeaning(conv: Value -> int, it: Dict<Value>, keys: seq<Json>)
    requires forall v :: conv(VInt(conv(v))) == conv(v)
    requires forall i :: 0 <= i < |keys| ==> !Unhashable(keys[i])
    ensures ConvertKeys(conv, it, keys).Ok?
    ensures Keys(ConvertKeys(conv, it, keys).value) == Keys(it)
    ensures forall k :: k in Keys(it) && JStr(k) in keys ==>
      Lookup(ConvertKeys(conv, it, keys).value, k) == Some(VInt(conv(Lookup(it, k).value)))
    ensures forall k :: JStr(k) !in keys ==> Lookup(ConvertKeys(conv, it, keys).value, k) == Lookup(it, k)
  {
    ConvertedMeaning(conv, it, keys, ConvertKeys(conv, it, keys).value);
  }

  /** `ConvertKeysMeaning` about a conversion that succeeded with `r`. */
  lemma {:induction false} ConvertedMeaning(conv: Value -> int, it: Dict<Value>, keys: seq<Json>, r: Dict<Value>)
    requires forall v :: conv(VInt(conv(v))) == conv(v)
    requires ConvertKeys(conv, it, keys) == Ok(r)
    ensures Keys(r) == Keys(it)
    ensures forall k :: k in Keys(it) && JStr(k) in keys ==> Lookup(r, k) == Some(VInt(conv(Lookup(it, k).value)))
    ensures forall k :: JStr(k) !in keys ==> Lookup(r, k) == Lookup(it, k)
    decreases |keys|
  {
    if keys != [] {
      var tail := keys[1..];
      var next := ConvertOne(conv, it, keys[0]);
      assert ConvertKeys(conv, next, tail) == Ok(r);
      ConvertedMeaning(conv, next, tail, r);
      HeadTail(keys);
      ConvertMeaningStep(conv, it, keys[0], tail, next, r);
    }
  }

  /** The step of `ConvertKeysMeaning`: the first key converted, then the others. */
  lemma ConvertMeaningStep(conv: Value -> int, it: Dict<Value>, key: Json, tail: seq<Json>, next: Dict<Value>, r: Dict<Value>)
    requires forall v :: conv(VInt(conv(v))) == conv(v)
    requires Keys(next) == Keys(it)
    requires forall k :: k in Keys(it) && JStr(k) == key ==> Lookup(next, k) == Some(VInt(conv(Lookup(it, k).value)))
    requires forall k :: JStr(k) != key ==> Lookup(next, k) == Lookup(it, k)
    requires Keys(r) == Keys(next)
    requires forall k :: k in Keys(next) && JStr(k) in tail ==> Lookup(r, k) == Some(VInt(conv(Lookup(next, k).value)))
    requires forall k :: JStr(k) !in tail ==> Lookup(r, k) == Lookup(next, k)
    ensures Keys(r) == Keys(it)
    ensures forall k :: k in Keys(it) && JStr(k) in [key] + tail ==> Lookup(r, k) == Some(VInt(conv(Lookup(it, k).value)))
    ensures forall k :: JStr(k) !in [key] + tail ==> Lookup(r, k) == Lookup(it, k)
  {
    forall k: string
      ensures k in Keys(it) && JStr(k) in [key] + tail ==> Lookup(r, k) == Some(VInt(conv(Lookup(it, k).value)))
      ensures JStr(k) !in [key] + tail ==> Lookup(r, k) == Lookup(it, k)
    {
      ConvertMeaningAt(conv, it, key, tail, next, r, k);
    }
  }

  /** `ConvertMeaningStep` at one key. */
  lemma ConvertMeaningAt(conv: Value -> int, it: Dict<Value>, key: Json, tail: seq<Json>, next: Dict<Value>, r: Dict<Value>, k: string)
    requires Keys(next) == Keys(it)
    requires k in Keys(it) && JStr(k) == key ==> Lookup(next, k) == Some(VInt(conv(Lookup(it, k).value)))
    requires JStr(k) != key ==> Lookup(next, k) == Lookup(it, k)
    requires k in Keys(next) && JStr(k) in tail ==> Lookup(r, k) == Some(VInt(conv(Lookup(next, k).value)))
    requires JStr(k) !in tail ==> Lookup(r, k) == Lookup(next, k)
    requires k in Keys(it) ==> conv(VInt(conv(Lookup(it, k).value))) == conv(Lookup(it, k).value)
    ensures k in Keys(it) && JStr(k) in [key] + tail ==> Lookup(r, k) == Some(VInt(conv(Lookup(it, k).value)))
    ensures JStr(k) !in [key] + tail ==> Lookup(r, k) == Lookup(it, k)
  {
    assert JStr(k) in [key] + tail <==> JStr(k) == key || JStr(k) in tail;
  }

  /** `_to_int_safe` as the conversion: every listed key present ends up an int. */
  lemma IntFieldsConverted(it: Dict<Value>, keys: seq<Json>)
    requires forall i :: 0 <= i < |keys| ==> !Unhashable(keys[i])
    ensures ConvertKeys(ToIntSafe, it, keys).Ok?
    ensures Keys(ConvertKeys(ToIntSafe, it, keys).value) == Keys(it)
    ensures forall k :: k in Keys(it) && JStr(k) in keys ==>
      Lookup(ConvertKeys(ToIntSafe, it, keys).value, k) == Some(VInt(ToIntSafe(Lookup(it, k).value)))
    ensures forall k :: JStr(k) !in keys ==> Lookup(ConvertKeys(ToIntSafe, it, keys).value, k) == Lookup(it, k)
  {
    forall v | true
      ensures ToIntSafe(VInt(ToIntSafe(v))) == ToIntSafe(v)
    {
      ToIntSafeIdempotent(v);
    }
    ConvertKeysMeaning(ToIntSafe, it, keys);
  }

  /** One converted item per groupdict, in order, once `int_fields` can be read. */
  lemma {:induction false} ConvertAllMeaning(conv: Value -> int, ks: seq<Json>, gds: seq<GroupDict>)
    requires forall i :: 0 <= i < |ks| ==> !Unhashable(ks[i])
    ensures ConvertAll(conv, Ok(ks), gds).Ok?
    ensures |ConvertAll(conv, Ok(ks), gds).value| == |gds|
    ensures forall i :: 0 <= i < |gds| ==>
      Ok(ConvertAll(conv, Ok(ks), gds).value[i]) == ConvertKeys(conv, OfGroupDict(gds[i]), ks)
    decreases |gds|
  {
    if gds != [] {
      ConvertAllMeaning(conv, ks, gds[1..]);
      assert forall i :: 1 <= i < |gds| ==> gds[i] == gds[1..][i - 1];
    }
  }

  /** Without any item, `int_fields` is never read and nothing can fail. */
  lemma ConvertNothing(conv: Value -> int, keys: Result<seq<Json>>)
    ensures ConvertAll(conv, keys, []) == Ok([])
  {
  }

  /** A `post` set to null: step 3 raises AttributeError at the first item, step 2 reads no
      `int_fields`. */
  lemma NullPost(profile: Json)
    requires profile.JObj? && Lookup(profile.fields, "post") == Some(JNull)
    ensures IntFields(profile, false) == Err(AttributeError)
    ensures IntFields(profile, true) == Ok([])
  {
  }

  // ---------------------------------------------------------------------------
  // The single-block loop: `m = pat.match(line)`, `it = m.groupdict()`
  // ---------------------------------------------------------------------------

  /** The lines the pattern matches, in order. */
  function Matched(eng: Engine, p: Pattern, texts: seq<string>): (r: seq<string>)
    ensures |r| <= |texts|
    ensures forall t :: t in r <==> t in texts && eng.reMatch(p, t).Some?
    decreases |texts|
  {
    if texts == [] then []
    else
      var rest := Matched(eng, p, texts[1..]);
      assert texts == [texts[0]] + texts[1..];
      (if eng.reMatch(p, texts[0]).Some? then [texts[0]] else []) + rest
  }

  /** The groupdict of one line, when the pattern matches it. */
  function LineOf(eng: Engine, p: Pattern, text: string): seq<GroupDict> {
    match eng.reMatch(p, text) case None => [] case Some(m) => [GroupDictOf(m)]
  }

  /** The groupdicts of the matching lines, in order. */
  function LineDicts(eng: Engine, p: Pattern, texts: seq<string>): seq<GroupDict>
    decreases |texts|
  {
    if texts == [] then []
    else
      LineOf(eng, p, texts[0]) + LineDicts(eng, p, texts[1..])
  }

  /** Reading one more line. */
  lemma LineDictsStep(eng: Engine, p: Pattern, texts: seq<string>, i: nat)
    requires i < |texts|
    ensures LineDicts(eng, p, texts[i..]) == LineOf(eng, p, texts[i]) + LineDicts(eng, p, texts[i + 1..])
  {
    assert texts[i..][0] == texts[i] && texts[i..][1..] == texts[i + 1..];
  }

  /** One groupdict per matching line: that of its match. */
  lemma {:induction false} LineDictsMatched(eng: Engine, p: Pattern, texts: seq<string>)
    ensures |LineDicts(eng, p, texts)| == |Matched(eng, p, texts)|
    ensures forall i :: 0 <= i < |Matched(eng, p, texts)| ==>
      eng.reMatch(p, Matched(eng, p, texts)[i]).Some? &&
      LineDicts(eng, p, texts)[i] == GroupDictOf(eng.reMatch(p, Matched(eng, p, texts)[i]).value)
    decreases |texts|
  {
    if texts != [] {
      LineDictsMatched(eng, p, texts[1..]);
      var ms := Matched(eng, p, texts);
      var ld := LineDicts(eng, p, texts);
      var msr := Matched(eng, p, texts[1..]);
      var ldr := LineDicts(eng, p, texts[1..]);
      match eng.reMatch(p, texts[0])
      case None =>
        assert ms == msr && ld == ldr;
      case Some(m) =>
        assert ms == [texts[0]] + msr && ld == [GroupDictOf(m)] + ldr;
        forall i | 0 <= i < |ms|
          ensures eng.reMatch(p, ms[i]).Some? && ld[i] == GroupDictOf(eng.reMatch(p, ms[i]).value)
        {
          if i > 0 {
            assert ms[i] == msr[i - 1] && ld[i] == ldr[i - 1];
          }
        }
    }
  }

  /** Matching lines are kept without regard to what surrounds them. */
  lemma {:induction false} MatchedConcat(eng: Engine, p: Pattern, a: seq<string>, b: seq<string>)
    ensures Matched(eng, p, a + b) == Matched(eng, p, a) + Matched(eng, p, b)
    decreases |a|
  {
    if a == [] {
      assert a + b == b;
    } else {
      assert (a + b)[0] == a[0] && (a + b)[1..] == a[1..] + b;
      MatchedConcat(eng, p, a[1..], b);
      var h := if eng.reMatch(p, a[0]).Some? then [a[0]] else [];
      assert Matched(eng, p, a + b) == h + Matched(eng, p, a[1..] + b);
      assert Matched(eng, p, a) == h + Matched(eng, p, a[1..]);
      assert h + (Matched(eng, p, a[1..]) + Matched(eng, p, b)) == (h + Matched(eng, p, a[1..])) + Matched(eng, p, b);
    }
  }

  /** The loop over the block lines: each match becomes an item, converted before it is
      appended. */
  method MatchedItems(eng: Engine, p: Pattern, conv: Value -> int, keys: Result<seq<Json>>, texts: seq<string>)
    returns (r: Result<seq<Dict<Value>>>)
    ensures r == ConvertAll(conv, keys, LineDicts(eng, p, texts))
  {
    var items: seq<Dict<Value>> := [];
    var i := 0;
    ghost var whole := ConvertAll(conv, keys, LineDicts(eng, p, texts));
    PrependNothing(whole);
    assert texts[0..] == texts;
    while i < |texts|
      invariant 0 <= i <= |texts|
      invariant whole == Prepend(items, ConvertAll(conv, keys, LineDicts(eng, p, texts[i..])))
    {
      var next := LineItem(eng, p, conv, keys, items, texts, i);
      if next.Err? {
        return Err(next.error);
      }
      items := next.value;
      i := i + 1;
    }
    assert texts[i..] == [];
    assert LineDicts(eng, p, []) == [] && ConvertAll(conv, keys, []) == Ok([]);
    EmptyRight(items);
    r := Ok(items);
  }

  /** One block line of `MatchedItems`: a matching line's item is converted and appended. */
  method LineItem(eng: Engine, p: Pattern, conv: Value -> int, keys: Result<seq<Json>>,
                  items: seq<Dict<Value>>, texts: seq<string>, i: nat)
    returns (r: Result<seq<Dict<Value>>>)
    requires i < |texts|
    ensures var whole := Prepend(items, ConvertAll(conv, keys, LineDicts(eng, p, texts[i..])));
      && (r.Err? ==> whole == Err(r.error))
      && (r.Ok? ==> whole == Prepend(r.value, ConvertAll(conv, keys, LineDicts(eng, p, texts[i + 1..]))))
  {
    LineDictsStep(eng, p, texts, i);
    ghost var rest := LineDicts(eng, p, texts[i + 1..]);
    var m := eng.reMatch(p, texts[i]);
    if m.None? {
      assert [] + rest == rest;
      return Ok(items);
    }
    var gd := GroupDictOf(m.value);
    var it := if keys.Err? then Err(keys.error) else ConvertKeys(conv, OfGroupDict(gd), keys.value);
    if it.Err? {
      ConvertFails(conv, keys, items, gd, rest, it.error);
      return Err(it.error);
    }
    ConvertStep(conv, keys, items, gd, it.value, rest);
    r := Ok(items + [it.value]);
  }

  /** The invariant step of the item loops: one more item converted. */
  lemma ConvertStep(conv: Value -> int, keys: Result<seq<Json>>, done: seq<Dict<Value>>,
                    gd: GroupDict, it: Dict<Value>, rest: seq<GroupDict>)
    requires keys.Ok? && ConvertKeys(conv, OfGroupDict(gd), keys.value) == Ok(it)
    ensures Prepend(done, ConvertAll(conv, keys, [gd] + rest)) == Prepend(done + [it], ConvertAll(conv, keys, rest))
  {
    assert ([gd] + rest)[0] == gd && ([gd] + rest)[1..] == rest;
    match ConvertAll(conv, keys, rest)
    case Err(e) =>
    case Ok(xs) => assert done + ([it] + xs) == (done + [it]) + xs;
  }

  /** The item loops stop at the first failure, which is then the outcome. */
  lemma ConvertFails(conv: Value -> int, keys: Result<seq<Json>>, done: seq<Dict<Value>>,
                     gd: GroupDict, rest: seq<GroupDict>, e: Error)
    requires keys == Err(e) || (keys.Ok? && ConvertKeys(conv, OfGroupDict(gd), keys.value) == Err(e))
    ensures Prepend(done, ConvertAll(conv, keys, [gd] + rest)) == Err(e)
  {
    assert ([gd] + rest)[0] == gd;
  }

  /** The loop over one block's items (`for it in b["items"]`), converting each. */
  method ConvertItems(conv: Value -> int, keys: Result<seq<Json>>, gds: seq<GroupDict>)
    returns (r: Result<seq<Dict<Value>>>)
    ensures r == ConvertAll(conv, keys, gds)
  {
    var items: seq<Dict<Value>> := [];
    var i := 0;
    PrependNothing(ConvertAll(conv, keys, gds));
    assert gds[0..] == gds;
    while i < |gds|
      invariant 0 <= i <= |gds|
      invariant ConvertAll(conv, keys, gds) == Prepend(items, ConvertAll(conv, keys, gds[i..]))
    {
      assert gds[i..] == [gds[i]] + gds[i + 1..];
      if keys.Err? {
        ConvertFails(conv, keys, items, gds[i], gds[i + 1..], keys.error);
        return Err(keys.error);
      }
      var it := ConvertKeys(conv, OfGroupDict(gds[i]), keys.value);
      if it.Err? {
        ConvertFails(conv, keys, items, gds[i], gds[i + 1..], it.error);
        return Err(it.error);
      }
      ConvertStep(conv, keys, items, gds[i], it.value, gds[i + 1..]);
      items := items + [it.value];
      i := i + 1;
    }
    assert gds[i..] == [] && items + [] == items;
    r := Ok(items);
  }

  // ---------------------------------------------------------------------------
  // Multi-blocks mode: `orders.append({"header": ..., "items": ...})`
  // ---------------------------------------------------------------------------

  /** One entry of the `orders` output: a block's header and its converted items. */
  datatype Order = Order(header: Dict<Value>, items: seq<Dict<Value>>)

  /** The orders of the blocks, in block order, or the first conversion failure. */
  function Orders(conv: Value -> int, keys: Result<seq<Json>>, bs: seq<Blocks.Block>): Result<seq<Order>>
    decreases |bs|
  {
    if bs == [] then Ok([])
    else
      match ConvertAll(conv, keys, bs[0].items)
      case Err(e) => Err(e)
      case Ok(its) => Prepend([Order(OfGroupDict(bs[0].header), its)], Orders(conv, keys, bs[1..]))
  }

  /** `items.extend(b["items"])` over all blocks. */
  function Flatten(os: seq<Order>): seq<Dict<Value>>
    decreases |os|
  {
    if os == [] then [] else os[0].items + Flatten(os[1..])
  }

  /** The loop over the blocks. */
  method BlockOrders(conv: Value -> int, keys: Result<seq<Json>>, bs: seq<Blocks.Block>)
    returns (r: Result<seq<Order>>)
    ensures r == Orders(conv, keys, bs)
  {
    var orders: seq<Order> := [];
    var i := 0;
    PrependNothing(Orders(conv, keys, bs));
    assert bs[0..] == bs;
    while i < |bs|
      invariant 0 <= i <= |bs|
      invariant Orders(conv, keys, bs) == Prepend(orders, Orders(conv, keys, bs[i..]))
    {
      var its := ConvertItems(conv, keys, bs[i].items);
      OrdersStep(conv, keys, orders, bs, i);
      if its.Err? {
        return Err(its.error);
      }
      orders := orders + [Order(OfGroupDict(bs[i].header), its.value)];
      i := i + 1;
    }
    assert bs[i..] == [] && orders + [] == orders;
    r := Ok(orders);
  }

  /** The invariant step of `BlockOrders`. */
  lemma OrdersStep(conv: Value -> int, keys: Result<seq<Json>>, done: seq<Order>, bs: seq<Blocks.Block>, i: nat)
    requires i < |bs|
    ensures ConvertAll(conv, keys, bs[i].items).Err? ==>
      Prepend(done, Orders(conv, keys, bs[i..])) == Err(ConvertAll(conv, keys, bs[i].items).error)
    ensures ConvertAll(conv, keys, bs[i].items).Ok? ==>
      Prepend(done, Orders(conv, keys, bs[i..])) ==
      Prepend(done + [Order(OfGroupDict(bs[i].header), ConvertAll(conv, keys, bs[i].items).value)], Orders(conv, keys, bs[i + 1..]))
  {
    assert bs[i..][0] == bs[i] && bs[i..][1..] == bs[i + 1..];
    if ConvertAll(conv, keys, bs[i].items).Ok? {
      var o := Order(OfGroupDict(bs[i].header), ConvertAll(conv, keys, bs[i].items).value);
      match Orders(conv, keys, bs[i + 1..])
      case Err(e) =>
      case Ok(xs) => assert done + ([o] + xs) == (done + [o]) + xs;
    }
  }

  /** One order per block, in block order, each with the block's header and its items
      converted. */
  lemma {:induction false} OrdersMeaning(conv: Value -> int, ks: seq<Json>, bs: seq<Blocks.Block>)
    requires forall i :: 0 <= i < |ks| ==> !Unhashable(ks[i])
    ensures Orders(conv, Ok(ks), bs).Ok?
    ensures |Orders(conv, Ok(ks), bs).value| == |bs|
    ensures forall i :: 0 <= i < |bs| ==>
      Orders(conv, Ok(ks), bs).value[i].header == OfGroupDict(bs[i].header) &&
      Ok(Orders(conv, Ok(ks), bs).value[i].items) == ConvertAll(conv, Ok(ks), bs[i].items)
    decreases |bs|
  {
    if bs != [] {
      ConvertAllMeaning(conv, ks, bs[0].items);
      OrdersMeaning(conv, ks, bs[1..]);
      var first := Order(OfGroupDict(bs[0].header), ConvertAll(conv, Ok(ks), bs[0].items).value);
      var rest := Orders(conv, Ok(ks), bs[1..]).value;
      assert Orders(conv, Ok(ks), bs) == Ok([first] + rest);
      OrdersCons(conv, ks, bs, first, rest);
    }
  }

  /** `o` is the order of block `b`: its header and its converted items. */
  predicate OrderOf(conv: Value -> int, ks: seq<Json>, o: Order, b: Blocks.Block) {
    o.header == OfGroupDict(b.header) && Ok(o.items) == ConvertAll(conv, Ok(ks), b.items)
  }

  /** The step of `OrdersMeaning`: the first block's order before the others'. */
  lemma OrdersCons(conv: Value -> int, ks: seq<Json>, bs: seq<Blocks.Block>, first: Order, rest: seq<Order>)
    requires bs != [] && |rest| == |bs| - 1
    requires OrderOf(conv, ks, first, bs[0])
    requires forall i :: 0 <= i < |rest| ==> OrderOf(conv, ks, rest[i], bs[1..][i])
    ensures forall i :: 0 <= i < |bs| ==> OrderOf(conv, ks, ([first] + rest)[i], bs[i])
  {
    forall i | 1 <= i < |bs|
      ensures OrderOf(conv, ks, ([first] + rest)[i], bs[i])
    {
      assert ([first] + rest)[i] == rest[i - 1] && bs[i] == bs[1..][i - 1];
    }
  }

  // ---------------------------------------------------------------------------
  // plumber_step3_generic.py, `main`: the three modes
  // ---------------------------------------------------------------------------

  /** `j.get(key)`; only read once `j` is known to be a dict. */
  function Field(j: Json, key: string): Json {
    match GetOr(j, key, JNull)
    case Ok(v) => v
    case Err(_) => JNull
  }

  /** What is printed: `{"supplier": "unknown", "items": []}` for an empty profile,
      otherwise the supplier, the items and the orders (`null` when there are none). */
  datatype Output = Unknown | Extracted(supplier: string, items: seq<Dict<Value>>, orders: Option<seq<Order>>)

  /** A multiline item as the dict the parser appends. */
  function MItemDict(m: Multiline.MItem): Dict<Value> {
    [("item_code", FromOpt(m.itemCode)), ("qty", FromOpt(m.qty)),
     ("description", FromOpt(m.description)), ("your_order", FromOpt(m.yourOrder))]
  }

  function MItemDicts(ms: seq<Multiline.MItem>): (r: seq<Dict<Value>>)
    ensures |r| == |ms| && forall i :: 0 <= i < |ms| ==> r[i] == MItemDict(ms[i])
  {
    seq(|ms|, i requires 0 <= i < |ms| => MItemDict(ms[i]))
  }

  /** The first mode's condition: `multi and header_re and line_re`. */
  predicate MultiBlockMode(profile: Json) {
    JTruthy(Field(profile, "multi_blocks")) && JTruthy(Field(profile, "header_regex"))
    && JTruthy(Field(profile, "item_regex"))
  }

  /** `_extract_block_lines(lines, start_re, stop_re)` for configured values: compiling a
      value that is not a string raises TypeError; a falsy stop means no stop pattern. */
  function BlockLinesOf(eng: Engine, lines: seq<string>, start: Json, stop: Json): Result<seq<string>> {
    if !start.JStr? then Err(TypeError)
    else
      match PatternSource(stop)
      case Err(e) => Err(e)
      case Ok(sp) => Ok(Blocks.ExtractBlock(eng, lines, start.s, sp))
  }

  /** Mode 1: the header-keyed blocks over all lines, `int_fields` converted. */
  function MultiBlockOutput(eng: Engine, supplier: string, profile: Json, lines: seq<string>): (r: Result<Output>)
    ensures r.Ok? ==> r.value.Extracted?
    ensures r.Ok? && r.value.orders.Some? ==> r.value.orders.value != [] && r.value.items == Flatten(r.value.orders.value)
  {
    var header := Field(profile, "header_regex");
    var line := Field(profile, "item_regex");
    if !header.JStr? || !line.JStr? then Err(TypeError)
    else
      var bs := Blocks.Grouped(eng, Pattern(header.s, false), Pattern(line.s, false), TextNorm.NormLines(lines));
      match Orders(ToIntSafe, IntFields(profile, false), bs)
      case Err(e) => Err(e)
      case Ok(os) => Ok(Extracted(supplier, Flatten(os), if os == [] then None else Some(os)))
  }

  /** The lines mode 2 parses: all of them with `multi_blocks`, else the isolated block
      when there is a start pattern, else none. */
  function MultilineLines(eng: Engine, lines: seq<string>, multi: bool, start: Json, stop: Json): Result<seq<string>> {
    if multi then Ok(lines)
    else if JTruthy(start) then BlockLinesOf(eng, lines, start, stop)
    else Ok([])
  }

  /** Mode 2: the multiline parser, without `int_fields`. */
  function MultilineOutput(eng: Engine, supplier: string, profile: Json, block: Json, lines: seq<string>): (r: Result<Output>)
    ensures r.Ok? ==> r.value.Extracted? && r.value.orders.None?
  {
    var multi := JTruthy(Field(profile, "multi_blocks"));
    match MultilineLines(eng, lines, multi, Field(block, "start_line_regex"), Field(block, "stop_line_regex"))
    case Err(e) => Err(e)
    case Ok(ls) =>
      if ls == [] then Ok(Extracted(supplier, [], None))
      else
        match Multiline.ParseMultiline(eng, ls, Field(profile, "multiline_item"), Field(profile, "header_regex"), Multiline.Step3)
        case Err(e) => Err(e)
        case Ok(res) => Ok(Extracted(supplier, MItemDicts(res.0), None))
  }

  /** Mode 3: one item per normalised block line the item pattern matches. */
  function SingleBlockOutput(eng: Engine, supplier: string, profile: Json, block: Json, lines: seq<string>): (r: Result<Output>)
    ensures r.Ok? ==> r.value.Extracted? && r.value.orders.None?
  {
    var start := Field(block, "start_line_regex");
    var line := Field(profile, "item_regex");
    if !(JTruthy(start) && JTruthy(line)) then Ok(Extracted(supplier, [], None))
    else
      match BlockLinesOf(eng, lines, start, Field(block, "stop_line_regex"))
      case Err(e) => Err(e)
      case Ok(bl) =>
        if !line.JStr? then Err(TypeError)
        else
          match ConvertAll(ToIntSafe, IntFields(profile, false), LineDicts(eng, Pattern(line.s, false), TextNorm.NormLines(bl)))
          case Err(e) => Err(e)
          case Ok(items) => Ok(Extracted(supplier, items, None))
  }

  /** The dispatch of `main` once the supplier and its profile are known. */
  function Step3Dispatch(eng: Engine, supplier: string, profile: Json, lines: seq<string>): (r: Result<Output>)
    ensures r == Ok(Unknown) <==> !JTruthy(profile)
    ensures r.Ok? && r.value.Extracted? ==> profile.JObj? && GetOr(profile, "block", EmptyObj).value.JObj?
    ensures r.Ok? && r.value.Extracted? && r.value.orders.Some? ==>
      && MultiBlockMode(profile)
      && r.value.orders.value != []
      && r.value.items == Flatten(r.value.orders.value)
  {
    if !JTruthy(profile) then Ok(Unknown)
    else
      match GetOr(profile, "block", EmptyObj)
      case Err(e) => Err(e)
      case Ok(block) =>
        if !block.JObj? then Err(AttributeError)
        else if MultiBlockMode(profile) then MultiBlockOutput(eng, supplier, profile, lines)
        else if JTruthy(Field(profile, "multiline_item")) then MultilineOutput(eng, supplier, profile, block, lines)
        else SingleBlockOutput(eng, supplier, profile, block, lines)
  }

  /** Mode 1 wins whenever its three settings are present: one order per header line, in
      line order, carrying that line's header groups, and the items of all orders in turn. */
  lemma Step3MultiBlocksFirst(eng: Engine, supplier: string, profile: Json, lines: seq<string>, ks: seq<Json>)
    requires profile.JObj? && JTruthy(profile) && GetOr(profile, "block", EmptyObj).value.JObj?
    requires MultiBlockMode(profile)
    requires Field(profile, "header_regex").JStr? && Field(profile, "item_regex").JStr?
    requires IntFields(profile, false) == Ok(ks) && forall i :: 0 <= i < |ks| ==> !Unhashable(ks[i])
    ensures var r := Step3Dispatch(eng, supplier, profile, lines);
      var hs := Blocks.Headers(eng, Pattern(Field(profile, "header_regex").s, false), TextNorm.NormLines(lines));
      && r.Ok? && r.value.Extracted? && r.value.supplier == supplier
      && (r.value.orders.Some? <==> hs != [])
      && (r.value.orders.Some? ==>
            && |r.value.orders.value| == |hs|
            && r.value.items == Flatten(r.value.orders.value)
            && forall i :: 0 <= i < |hs| ==> r.value.orders.value[i].header == OfGroupDict(hs[i]))
      && (r.value.orders.None? ==> r.value.items == [])
  {
    var hp := Pattern(Field(profile, "header_regex").s, false);
    var ip := Pattern(Field(profile, "item_regex").s, false);
    var bs := Blocks.Grouped(eng, hp, ip, TextNorm.NormLines(lines));
    OrdersMeaning(ToIntSafe, ks, bs);
    Blocks.OneBlockPerHeader(eng, hp, ip, TextNorm.NormLines(lines));
    var hs := Blocks.Headers(eng, hp, TextNorm.NormLines(lines));
    assert |hs| == |bs| && forall i :: 0 <= i < |bs| ==> hs[i] == bs[i].header by {
      assert Blocks.HeaderOfBlocks(bs) == hs;
    }
  }

  /** Mode 2 hands back the parser's items untouched (`int_fields` is not applied), never
      any orders, and parses nothing without `multi_blocks` or a start pattern. */
  lemma Step3MultilineUnconverted(eng: Engine, supplier: string, profile: Json, lines: seq<string>)
    requires profile.JObj? && JTruthy(profile) && GetOr(profile, "block", EmptyObj).value.JObj?
    requires !MultiBlockMode(profile) && JTruthy(Field(profile, "multiline_item"))
    requires Step3Dispatch(eng, supplier, profile, lines).Ok?
    ensures var block := GetOr(profile, "block", EmptyObj).value;
      var r := Step3Dispatch(eng, supplier, profile, lines).value;
      var ls := MultilineLines(eng, lines, JTruthy(Field(profile, "multi_blocks")),
                               Field(block, "start_line_regex"), Field(block, "stop_line_regex"));
      && r.Extracted? && r.orders.None? && ls.Ok?
      && (ls.value == [] ==> r.items == [])
      && (ls.value != [] ==>
            var res := Multiline.ParseMultiline(eng, ls.value, Field(profile, "multiline_item"), Field(profile, "header_regex"), Multiline.Step3);
            res.Ok? && r.items == MItemDicts(res.value.0))
      && (!JTruthy(Field(profile, "multi_blocks")) && !JTruthy(Field(block, "start_line_regex")) ==> r.items == [])
  {
  }

  /** Mode 3 needs both a start pattern and an item pattern; with them it emits one item per
      normalised block line the item pattern matches, in order, `int_fields` converted. */
  lemma Step3SingleBlockItems(eng: Engine, supplier: string, profile: Json, lines: seq<string>, sp: Option<string>, ks: seq<Json>)
    requires profile.JObj? && JTruthy(profile) && GetOr(profile, "block", EmptyObj).value.JObj?
    requires !MultiBlockMode(profile) && !JTruthy(Field(profile, "multiline_item"))
    requires var block := GetOr(profile, "block", EmptyObj).value;
      Field(block, "start_line_regex").JStr? && Field(block, "start_line_regex").s != []
      && Field(profile, "item_regex").JStr? && Field(profile, "item_regex").s != []
      && PatternSource(Field(block, "stop_line_regex")) == Ok(sp)
    requires IntFields(profile, false) == Ok(ks) && forall i :: 0 <= i < |ks| ==> !Unhashable(ks[i])
    ensures var block := GetOr(profile, "block", EmptyObj).value;
      var r := Step3Dispatch(eng, supplier, profile, lines);
      var norm := TextNorm.NormLines(Blocks.ExtractBlock(eng, lines, Field(block, "start_line_regex").s, sp));
      var p := Pattern(Field(profile, "item_regex").s, false);
      && r.Ok? && r.value.Extracted? && r.value.orders.None?
      && |r.value.items| == |LineDicts(eng, p, norm)| == |Matched(eng, p, norm)|
      && forall i :: 0 <= i < |r.value.items| ==>
           Ok(r.value.items[i]) == ConvertKeys(ToIntSafe, OfGroupDict(LineDicts(eng, p, norm)[i]), ks)
  {
    var block := GetOr(profile, "block", EmptyObj).value;
    var bl := Blocks.ExtractBlock(eng, lines, Field(block, "start_line_regex").s, sp);
    var norm := TextNorm.NormLines(bl);
    var p := Pattern(Field(profile, "item_regex").s, false);
    assert BlockLinesOf(eng, lines, Field(block, "start_line_regex"), Field(block, "stop_line_regex")) == Ok(bl);
    assert Step3Dispatch(eng, supplier, profile, lines) == SingleBlockOutput(eng, supplier, profile, block, lines);
    ConvertAllMeaning(ToIntSafe, ks, LineDicts(eng, p, norm));
    var items := ConvertAll(ToIntSafe, Ok(ks), LineDicts(eng, p, norm)).value;
    SingleBlockOutputOk(eng, supplier, profile, block, lines, bl, items);
    LineDictsMatched(eng, p, norm);
  }

  lemma SingleBlockOutputOk(eng: Engine, supplier: string, profile: Json, block: Json, lines: seq<string>,
                            bl: seq<string>, items: seq<Dict<Value>>)
    requires JTruthy(Field(block, "start_line_regex")) && JTruthy(Field(profile, "item_regex"))
    requires Field(profile, "item_regex").JStr?
    requires BlockLinesOf(eng, lines, Field(block, "start_line_regex"), Field(block, "stop_line_regex")) == Ok(bl)
    requires ConvertAll(ToIntSafe, IntFields(profile, false),
                        LineDicts(eng, Pattern(Field(profile, "item_regex").s, false), TextNorm.NormLines(bl))) == Ok(items)
    ensures SingleBlockOutput(eng, supplier, profile, block, lines) == Ok(Extracted(supplier, items, None))
  {
  }

  /** Without a start pattern or an item pattern, mode 3 extracts nothing. */
  lemma Step3SingleBlockNeedsBoth(eng: Engine, supplier: string, profile: Json, lines: seq<string>)
    requires profile.JObj? && JTruthy(profile) && GetOr(profile, "block", EmptyObj).value.JObj?
    requires !MultiBlockMode(profile) && !JTruthy(Field(profile, "multiline_item"))
    requires !JTruthy(Field(GetOr(profile, "block", EmptyObj).value, "start_line_regex")) || !JTruthy(Field(profile, "item_regex"))
    ensures Step3Dispatch(eng, supplier, profile, lines) == Ok(Extracted(supplier, [], None))
  {
  }

  // ---------------------------------------------------------------------------
  // plumber_step2_generic.py, `main`: the single-block loop
  // ---------------------------------------------------------------------------

  /** `line_re = profile.get("item_regex") or profile.get("line_regex")`. */
  function Step2LineRegex(profile: Json): Json {
    if JTruthy(Field(profile, "item_regex")) then Field(profile, "item_regex") else Field(profile, "line_regex")
  }

  /** The items of the single-block mode: the RAW block lines are matched (no
      normalisation, unlike step 3) and `post` may be null. */
  function Step2SingleBlock(eng: Engine, profile: Json, blockLines: seq<string>): Result<seq<Dict<Value>>> {
    var line := Step2LineRegex(profile);
    if !JTruthy(line) then Ok([])
    else if !line.JStr? then Err(TypeError)
    else ConvertAll(ToIntSafe, IntFields(profile, true), LineDicts(eng, Pattern(line.s, false), blockLines))
  }

  method Step2SingleBlockItems(eng: Engine, profile: Json, blockLines: seq<string>) returns (r: Result<seq<Dict<Value>>>)
    ensures r == Step2SingleBlock(eng, profile, blockLines)
  {
    var line := Step2LineRegex(profile);
    if !JTruthy(line) {
      return Ok([]);
    }
    if !line.JStr? {
      return Err(TypeError);
    }
    r := MatchedItems(eng, Pattern(line.s, false), ToIntSafe, IntFields(profile, true), blockLines);
  }

  /** One item per block line the pattern matches, in order, the rest skipped; the listed
      `int_fields` present in an item read as `_to_int_safe` of the captured text, every
      other key is the captured group. */
  lemma Step2OneItemPerMatch(eng: Engine, profile: Json, blockLines: seq<string>, ks: seq<Json>)
    requires Step2LineRegex(profile).JStr? && Step2LineRegex(profile).s != []
    requires IntFields(profile, true) == Ok(ks) && forall i :: 0 <= i < |ks| ==> !Unhashable(ks[i])
    ensures var p := Pattern(Step2LineRegex(profile).s, false);
      var r := Step2SingleBlock(eng, profile, blockLines);
      var ms := Matched(eng, p, blockLines);
      && r.Ok? && |r.value| == |ms|
      && forall i :: 0 <= i < |ms| ==>
           && eng.reMatch(p, ms[i]).Some?
           && var gd := OfGroupDict(GroupDictOf(eng.reMatch(p, ms[i]).value));
              && Keys(r.value[i]) == Keys(gd)
              && (forall k :: k in Keys(gd) && JStr(k) in ks ==> Lookup(r.value[i], k) == Some(VInt(ToIntSafe(Lookup(gd, k).value))))
              && (forall k :: JStr(k) !in ks ==> Lookup(r.value[i], k) == Lookup(gd, k))
  {
    var p := Pattern(Step2LineRegex(profile).s, false);
    var gds := LineDicts(eng, p, blockLines);
    var ms := Matched(eng, p, blockLines);
    var r := Step2SingleBlock(eng, profile, blockLines);
    assert r == ConvertAll(ToIntSafe, Ok(ks), gds);
    ConvertAllMeaning(ToIntSafe, ks, gds);
    LineDictsMatched(eng, p, blockLines);
    forall i | 0 <= i < |ms|
      ensures eng.reMatch(p, ms[i]).Some?
      ensures var gd := OfGroupDict(GroupDictOf(eng.reMatch(p, ms[i]).value));
        && Keys(r.value[i]) == Keys(gd)
        && (forall k :: k in Keys(gd) && JStr(k) in ks ==> Lookup(r.value[i], k) == Some(VInt(ToIntSafe(Lookup(gd, k).value))))
        && (forall k :: JStr(k) !in ks ==> Lookup(r.value[i], k) == Lookup(gd, k))
    {
      var gd := OfGroupDict(gds[i]);
      assert Ok(r.value[i]) == ConvertKeys(ToIntSafe, gd, ks);
      IntFieldsConverted(gd, ks);
    }
  }

  // ---------------------------------------------------------------------------
  // plumber_step2_generic_test.py, `main`: multiline only
  // ---------------------------------------------------------------------------

  /** The test script parses only with both `multiline_item` and `multi_blocks`, over all
      lines; a parser exception is caught and leaves the items empty. Its output has no
      `orders` key at all (step 3 prints `null` there); `orders` is None here for both. */
  function TestDispatch(eng: Engine, supplier: string, profile: Json, lines: seq<string>): (r: Result<Output>)
    ensures r == Ok(Unknown) <==> !JTruthy(profile)
    ensures r.Ok? && r.value.Extracted? ==> r.value.orders.None? && profile.JObj?
    ensures r.Ok? && r.value.Extracted? && r.value.items != [] ==>
      && JTruthy(Field(profile, "multiline_item")) && JTruthy(Field(profile, "multi_blocks"))
      && Multiline.ParseMultiline(eng, lines, Field(profile, "multiline_item"), Field(profile, "header_regex"), Multiline.Step3).Ok?
      && r.value.items == MItemDicts(Multiline.ParseMultiline(eng, lines, Field(profile, "multiline_item"), Field(profile, "header_regex"), Multiline.Step3).value.0)
  {
    if !JTruthy(profile) then Ok(Unknown)
    else if !profile.JObj? then Err(AttributeError)
    else
      var cfg := Field(profile, "multiline_item");
      if JTruthy(cfg) && JTruthy(Field(profile, "multi_blocks")) then
        match Multiline.ParseMultiline(eng, lines, cfg, Field(profile, "header_regex"), Multiline.Step3)
        case Err(_) => Ok(Extracted(supplier, [], None))
        case Ok(res) => Ok(Extracted(supplier, MItemDicts(res.0), None))
      else Ok(Extracted(supplier, [], None))
  }

  /** A parser exception does not escape: the items are empty. */
  lemma TestParseErrorCaught(eng: Engine, supplier: string, profile: Json, lines: seq<string>)
    requires profile.JObj? && JTruthy(profile)
    requires Multiline.ParseMultiline(eng, lines, Field(profile, "multiline_item"), Field(profile, "header_regex"), Multiline.Step3).Err?
    ensures TestDispatch(eng, supplier, profile, lines) == Ok(Extracted(supplier, [], None))
  {
  }
}
