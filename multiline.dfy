/**
 * `_parse_multiline_items`: items whose fields spread over several lines. A line
 * that the start pattern matches opens an item; the nearest order header gives it
 * its order number; its description is either a group of the start line or the
 * first following line that the description pattern matches. Step 3 and the step 2
 * test script share one version; step 2 differs only in how it finds the
 * description (`Dialect`).
 */
module Multiline {
  import opened Wrappers
  import opened Strings
  import opened Regex
  import opened Json
  import opened TextNorm

  /** Step 3 (and the step 2 test script), or step 2. */
  datatype Dialect = Step3 | Step2

  /** The compiled configuration: `start_regex`, `desc_regex`, the header pattern, and the
      raw values of `max_follow_lines`, `code_group`, `qty_group` and `desc_group`. */
  datatype Setup = Setup(
    start: Pattern, desc: Option<Pattern>, header: Option<Pattern>,
    maxFollow: Json, codeKey: Json, qtyKey: Json, descKey: Json)

  /** One parsed item: the dict with keys `item_code`, `qty`, `description`, `your_order`. */
  datatype MItem = MItem(itemCode: Option<string>, qty: Option<string>,
                         description: Option<string>, yourOrder: Option<string>)

  function Compiled(src: Option<string>): Option<Pattern> {
    match src
    case None => None
    case Some(s) => Some(Pattern(s, false))
  }

  /** Reading and compiling the configuration. `None` when `start_regex` is falsy (the
      parser then returns two empty lists). */
  function ReadSetup(cfg: Json, header: Json): (r: Result<Option<Setup>>)
    ensures r.Err? && r.error == AttributeError <==> !cfg.JObj?
    ensures r == Ok(None) <==> cfg.JObj? && !JTruthy(GetOr(cfg, "start_regex", JNull).value)
  {
    if !cfg.JObj? then Err(AttributeError)
    else
      var startRx := GetOr(cfg, "start_regex", JNull).value;
      var descRx := GetOr(cfg, "desc_regex", JNull).value;
      var maxFollow := GetOr(cfg, "max_follow_lines", JInt(5)).value;
      var codeKey := GetOr(cfg, "code_group", JStr("item")).value;
      var qtyKey := GetOr(cfg, "qty_group", JStr("qty")).value;
      var descKey := GetOr(cfg, "desc_group", JStr("desc")).value;
      if !JTruthy(startRx) then Ok(None)
      else if !startRx.JStr? then Err(TypeError)
      else
        match PatternSource(descRx)
        case Err(e) => Err(e)
        case Ok(d) =>
          match PatternSource(header)
          case Err(e) => Err(e)
          case Ok(h) =>
            Ok(Some(Setup(Pattern(startRx.s, false), Compiled(d), Compiled(h),
                          maxFollow, codeKey, qtyKey, descKey)))
  }

  // ---------------------------------------------------------------------------
  // Group lookups with a configured key
  // ---------------------------------------------------------------------------

  /** `gd.get(key)` for a key read from the configuration: only a string can name a group;
      a list or a dict is unhashable and raises TypeError. */
  function GroupGet(gd: GroupDict, key: Json): (r: Result<Option<string>>)
    ensures r.Err? <==> key.JArr? || key.JObj?
    ensures key.JStr? ==> r == Ok(Get(gd, key.s))
  {
    match key
    case JStr(k) => Ok(Get(gd, k))
    case JArr(_) => Err(TypeError)
    case JObj(_) => Err(TypeError)
    case _ => Ok(None)
  }

  /** `gd.get(key, "").strip()`: a group that did not take part gives None, whose `strip`
      raises AttributeError. */
  function DescText(gd: GroupDict, key: Json): (r: Result<string>)
    ensures key.JStr? && Find(gd, key.s) == Some(None) ==> r == Err(AttributeError)
    ensures key.JStr? && Find(gd, key.s) == None ==> r == Ok("")
    ensures key.JStr? && Find(gd, key.s).Some? && Find(gd, key.s).value.Some? ==>
      r == Ok(Strip(Find(gd, key.s).value.value))
  {
    match key
    case JStr(k) =>
      (match Find(gd, k)
       case None => Ok("")
       case Some(None) => Err(AttributeError)
       case Some(Some(v)) => Ok(Strip(v)))
    case JArr(_) => Err(TypeError)
    case JObj(_) => Err(TypeError)
    case _ => Ok("")
  }

  /** `max_follow_lines` used as a number (`> 0`, `+ 1`): an int, or a bool counting as 0 or 1. */
  function AsInt(j: Json): Result<int> {
    match j
    case JInt(n) => Ok(n)
    case JBool(b) => Ok(if b then 1 else 0)
    case _ => Err(TypeError)
  }

  /** `max_follow == 0`. */
  predicate IsZero(j: Json) {
    j == JInt(0) || j == JBool(false)
  }

  // ---------------------------------------------------------------------------
  // Phase 1: item and header positions
  // ---------------------------------------------------------------------------

  /** `(i, v)` for each of the first `n` lines on which `hit` gives `Some(v)`, in line order. */
  function Collect<T>(hit: string -> Option<T>, norm: seq<string>, n: nat): seq<(nat, T)>
    requires n <= |norm|
  {
    if n == 0 then []
    else Collect(hit, norm, n - 1) + if hit(norm[n - 1]).Some? then [(n - 1, hit(norm[n - 1]).value)] else []
  }

  /** The start pattern on one line: the groups of its match. */
  function ItemHit(eng: Engine, p: Pattern): string -> Option<GroupDict> {
    l => if eng.reMatch(p, l).Some? then Some(GroupDictOf(eng.reMatch(p, l).value)) else None
  }

  /** The header pattern on one line: the order number of its search, when there is a pattern. */
  function HeaderHit(eng: Engine, h: Option<Pattern>): string -> Option<Option<string>> {
    l => if h.Some? && eng.reSearch(h.value, l).Some? then Some(OrderNumber(eng.reSearch(h.value, l).value)) else None
  }

  /** The order number of a header match: its first non-empty named group. */
  function OrderNumber(mm: Match): Option<string> {
    FirstNonEmpty(GroupDictOf(mm))
  }

  /** `(i, m.groupdict())` for each of the first `n` lines that the start pattern matches. */
  function ItemPositions(eng: Engine, p: Pattern, norm: seq<string>, n: nat): seq<(nat, GroupDict)>
    requires n <= |norm|
  {
    Collect(ItemHit(eng, p), norm, n)
  }

  /** `(i, order_no)` for each of the first `n` lines the header pattern finds. */
  function OrderPositions(eng: Engine, h: Option<Pattern>, norm: seq<string>, n: nat)
    : seq<(nat, Option<string>)>
    requires n <= |norm|
  {
    Collect(HeaderHit(eng, h), norm, n)
  }

  /** Both position lists, in one pass over the lines. */
  method ScanPositions(eng: Engine, s: Setup, norm: seq<string>)
    returns (items: seq<(nat, GroupDict)>, orders: seq<(nat, Option<string>)>)
    ensures items == ItemPositions(eng, s.start, norm, |norm|)
    ensures orders == OrderPositions(eng, s.header, norm, |norm|)
  {
    items, orders := [], [];
    var i := 0;
    while i < |norm|
      invariant 0 <= i <= |norm|
      invariant items == ItemPositions(eng, s.start, norm, i)
      invariant orders == OrderPositions(eng, s.header, norm, i)
    {
      var mStart := eng.reMatch(s.start, norm[i]);
      if mStart.Some? {
        items := items + [(i, GroupDictOf(mStart.value))];
      }
      if s.header.Some? {
        var mHdr := eng.reSearch(s.header.value, norm[i]);
        if mHdr.Some? {
          orders := orders + [(i, OrderNumber(mHdr.value))];
        }
      }
      i := i + 1;
    }
  }

  // ---------------------------------------------------------------------------
  // find_closest_order
  // ---------------------------------------------------------------------------

  /** A header within the ten lines after the item. */
  predicate InWindow(pos: nat, idx: nat) {
    idx < pos <= idx + 10
  }

  /** The first header, from entry `k` on, in the window after line `idx`. */
  function ForwardHit(orders: seq<(nat, Option<string>)>, idx: nat, k: nat): (r: Option<nat>)
    requires k <= |orders|
    ensures r.Some? ==>
      && k <= r.value < |orders| && InWindow(orders[r.value].0, idx)
      && forall i :: k <= i < r.value ==> !InWindow(orders[i].0, idx)
    ensures r.None? ==> forall i :: k <= i < |orders| ==> !InWindow(orders[i].0, idx)
    decreases |orders| - k
  {
    if k == |orders| then None
    else if InWindow(orders[k].0, idx) then Some(k)
    else ForwardHit(orders, idx, k + 1)
  }

  /** The last header among the first `k` entries that lies before line `idx`. */
  function BackwardHit(orders: seq<(nat, Option<string>)>, idx: nat, k: nat): (r: Option<nat>)
    requires k <= |orders|
    ensures r.Some? ==>
      && r.value < k && orders[r.value].0 < idx
      && forall i :: r.value < i < k ==> !(orders[i].0 < idx)
    ensures r.None? ==> forall i :: 0 <= i < k ==> !(orders[i].0 < idx)
  {
    if k == 0 then None
    else if orders[k - 1].0 < idx then Some(k - 1)
    else BackwardHit(orders, idx, k - 1)
  }

  /** The entry `find_closest_order(idx)` takes its order number from. */
  function ClosestHeader(orders: seq<(nat, Option<string>)>, idx: nat): Option<nat> {
    match ForwardHit(orders, idx, 0)
    case Some(j) => Some(j)
    case None => BackwardHit(orders, idx, |orders|)
  }

  function ClosestOrder(orders: seq<(nat, Option<string>)>, idx: nat): Option<string> {
    match ClosestHeader(orders, idx)
    case None => None
    case Some(j) => if j < |orders| then orders[j].1 else None
  }

  /** `find_closest_order`: the headers in order, then in reverse. */
  method FindClosestOrder(orders: seq<(nat, Option<string>)>, idx: nat) returns (r: Option<string>)
    ensures r == ClosestOrder(orders, idx)
  {
    var k := 0;
    while k < |orders|
      invariant 0 <= k <= |orders|
      invariant ForwardHit(orders, idx, 0) == ForwardHit(orders, idx, k)
    {
      if InWindow(orders[k].0, idx) {
        return orders[k].1;
      }
      k := k + 1;
    }
    k := |orders|;
    while k > 0
      invariant 0 <= k <= |orders|
      invariant BackwardHit(orders, idx, |orders|) == BackwardHit(orders, idx, k)
    {
      if orders[k - 1].0 < idx {
        return orders[k - 1].1;
      }
      k := k - 1;
    }
    return None;
  }

  // ---------------------------------------------------------------------------
  // The description
  // ---------------------------------------------------------------------------

  /** Whether the lookahead stops at a line: the next item starts, or a subtotal. */
  predicate Stops(eng: Engine, s: Setup, n: string) {
    eng.reMatch(s.start, n).Some? || StartsWith(n, "Subtotal")
  }

  /** The description the lookahead finds on a line, if the description pattern matches it. */
  function DescOn(eng: Engine, s: Setup, n: string): Option<Result<string>> {
    if s.desc.Some? && eng.reMatch(s.desc.value, n).Some? then
      Some(DescText(GroupDictOf(eng.reMatch(s.desc.value, n).value), s.descKey))
    else None
  }

  /** What the lookahead makes of one line: stop, go on, or take what it found. */
  datatype Look = Halt | Pass | Take(found: Result<string>)

  /** One line of the lookahead: a stop line halts it; a description match yields its text,
      unless that text starts with "Subtotal"; any other line is passed over. */
  function LineLook(eng: Engine, s: Setup): string -> Look {
    n =>
      if Stops(eng, s, n) then Halt
      else
        match DescOn(eng, s, n)
        case None => Pass
        case Some(Err(e)) => Take(Err(e))
        case Some(Ok(t)) => if StartsWith(t, "Subtotal") then Pass else Take(Ok(t))
  }

  /** The lookahead from offset `j` on (`for j in range(1, m + 1)`) below line `idx`. */
  function Follow(look: string -> Look, norm: seq<string>, idx: nat, m: int, j: nat): Result<Option<string>>
    decreases |norm| - (idx + j)
  {
    if j > m || idx + j >= |norm| then Ok(None)
    else
      match look(norm[idx + j])
      case Halt => Ok(None)
      case Pass => Follow(look, norm, idx, m, j + 1)
      case Take(Err(e)) => Err(e)
      case Take(Ok(t)) => Ok(Some(t))
  }

  function Lookahead(eng: Engine, s: Setup, norm: seq<string>, idx: nat, m: int): Result<Option<string>> {
    Follow(LineLook(eng, s), norm, idx, m, 1)
  }

  /** Reading the next line of the lookahead. */
  lemma FollowAt(look: string -> Look, norm: seq<string>, idx: nat, m: int, j: nat)
    requires j <= m && idx + j < |norm|
    ensures look(norm[idx + j]) == Halt ==> Follow(look, norm, idx, m, j) == Ok(None)
    ensures look(norm[idx + j]) == Pass ==> Follow(look, norm, idx, m, j) == Follow(look, norm, idx, m, j + 1)
    ensures look(norm[idx + j]).Take? ==>
      Follow(look, norm, idx, m, j) == (match look(norm[idx + j]).found case Err(e) => Err(e) case Ok(t) => Ok(Some(t)))
  {
  }

  /** The branches of one lookahead line. */
  lemma LookCases(eng: Engine, s: Setup, n: string)
    ensures Stops(eng, s, n) ==> LineLook(eng, s)(n) == Halt
    ensures !Stops(eng, s, n) && (s.desc.None? || eng.reMatch(s.desc.value, n).None?) ==> LineLook(eng, s)(n) == Pass
    ensures !Stops(eng, s, n) && s.desc.Some? && eng.reMatch(s.desc.value, n).Some? ==>
      var t := DescText(GroupDictOf(eng.reMatch(s.desc.value, n).value), s.descKey);
      LineLook(eng, s)(n) == (if t.Ok? && StartsWith(t.value, "Subtotal") then Pass else Take(t))
  {
  }

  /** The lookahead loop. */
  method FollowLines(eng: Engine, s: Setup, norm: seq<string>, idx: nat, m: int)
    returns (r: Result<Option<string>>)
    ensures r == Lookahead(eng, s, norm, idx, m)
  {
    var j := 1;
    while j <= m
      invariant 1 <= j
      invariant Lookahead(eng, s, norm, idx, m) == Follow(LineLook(eng, s), norm, idx, m, j)
      decreases m - j
    {
      if idx + j >= |norm| {
        break;
      }
      var next := norm[idx + j];
      FollowAt(LineLook(eng, s), norm, idx, m, j);
      LookCases(eng, s, next);
      if eng.reMatch(s.start, next).Some? {
        break;
      }
      if StartsWith(next, "Subtotal") {
        break;
      }
      if s.desc.Some? {
        var mDesc := eng.reMatch(s.desc.value, next);
        if mDesc.Some? {
          var descText := DescText(GroupDictOf(mDesc.value), s.descKey);
          if descText.Err? {
            return Err(descText.error);
          }
          if !StartsWith(descText.value, "Subtotal") {
            return Ok(Some(descText.value));
          }
        }
      }
      j := j + 1;
    }
    return Ok(None);
  }

  /** The description of the item on line `idx` with start groups `gd`. */
  function Describe(eng: Engine, s: Setup, dialect: Dialect, norm: seq<string>, idx: nat, gd: GroupDict)
    : Result<Option<string>>
  {
    match dialect
    case Step3 =>
      var inline := Get(gd, "description_inline");
      if Truthy(inline) then Ok(inline)
      else
        (match AsInt(s.maxFollow)
         case Err(e) => Err(e)
         case Ok(m) => if m > 0 then Lookahead(eng, s, norm, idx, m) else Ok(None))
    case Step2 =>
      if IsZero(s.maxFollow) then GroupGet(gd, s.descKey)
      else
        (match AsInt(s.maxFollow)
         case Err(e) => Err(e)
         case Ok(m) => Lookahead(eng, s, norm, idx, m))
  }

  // ---------------------------------------------------------------------------
  // Phase 2: the items
  // ---------------------------------------------------------------------------

  /** The item built from the start line `idx`; the first exception raised on the way wins. */
  function BuildItem(eng: Engine, s: Setup, dialect: Dialect, norm: seq<string>,
                     orders: seq<(nat, Option<string>)>, idx: nat, gd: GroupDict): Result<MItem>
  {
    match GroupGet(gd, s.codeKey)
    case Err(e) => Err(e)
    case Ok(code) =>
      match GroupGet(gd, s.qtyKey)
      case Err(e) => Err(e)
      case Ok(qty) =>
        match Describe(eng, s, dialect, norm, idx, gd)
        case Err(e) => Err(e)
        case Ok(desc) => Ok(MItem(code, qty, desc, ClosestOrder(orders, idx)))
  }

  /** The items of the positions `ps`, in order; the first item that raises stops the parse. */
  function Items(eng: Engine, s: Setup, dialect: Dialect, norm: seq<string>,
                 orders: seq<(nat, Option<string>)>, ps: seq<(nat, GroupDict)>): Result<seq<MItem>>
  {
    if ps == [] then Ok([])
    else
      match BuildItem(eng, s, dialect, norm, orders, ps[0].0, ps[0].1)
      case Err(e) => Err(e)
      case Ok(it) => Prepend([it], Items(eng, s, dialect, norm, orders, ps[1..]))
  }

  /** One iteration of the item loop, on the invariant `Items(ps) == Prepend(done, Items(ps[k..]))`. */
  lemma ItemsStep(eng: Engine, s: Setup, dialect: Dialect, norm: seq<string>,
                  orders: seq<(nat, Option<string>)>, ps: seq<(nat, GroupDict)>, k: nat, done: seq<MItem>)
    requires k < |ps|
    requires Items(eng, s, dialect, norm, orders, ps) == Prepend(done, Items(eng, s, dialect, norm, orders, ps[k..]))
    ensures var it := BuildItem(eng, s, dialect, norm, orders, ps[k].0, ps[k].1);
      && (it.Err? ==> Items(eng, s, dialect, norm, orders, ps) == Err(it.error))
      && (it.Ok? ==> Items(eng, s, dialect, norm, orders, ps) ==
                     Prepend(done + [it.value], Items(eng, s, dialect, norm, orders, ps[k + 1..])))
  {
    assert ps[k..][0] == ps[k] && ps[k..][1..] == ps[k + 1..];
    var it := BuildItem(eng, s, dialect, norm, orders, ps[k].0, ps[k].1);
    if it.Ok? {
      var rest := Items(eng, s, dialect, norm, orders, ps[k + 1..]);
      if rest.Ok? {
        assert done + ([it.value] + rest.value) == (done + [it.value]) + rest.value;
      }
    }
  }

  /** What the parser returns for normalised lines `norm`: the items and an always empty
      list of orders. */
  function ParseOn(eng: Engine, norm: seq<string>, cfg: Json, header: Json, dialect: Dialect)
    : Result<(seq<MItem>, seq<MItem>)>
  {
    match ReadSetup(cfg, header)
    case Err(e) => Err(e)
    case Ok(None) => Ok(([], []))
    case Ok(Some(s)) =>
      var ps := ItemPositions(eng, s.start, norm, |norm|);
      var os := OrderPositions(eng, s.header, norm, |norm|);
      match Items(eng, s, dialect, norm, os, ps)
      case Err(e) => Err(e)
      case Ok(its) => Ok((its, []))
  }

  function ParseMultiline(eng: Engine, lines: seq<string>, cfg: Json, header: Json, dialect: Dialect)
    : Result<(seq<MItem>, seq<MItem>)>
  {
    ParseOn(eng, NormLines(lines), cfg, header, dialect)
  }

  /** `_parse_multiline_items(lines, multiline_cfg, header_regex)`. */
  method ParseMultilineItems(eng: Engine, lines: seq<string>, cfg: Json, header: Json, dialect: Dialect)
    returns (r: Result<(seq<MItem>, seq<MItem>)>)
    ensures r == ParseMultiline(eng, lines, cfg, header, dialect)
  {
    var norm := NormLines(lines);
    r := ParseLines(eng, norm, cfg, header, dialect);
  }

  method ParseLines(eng: Engine, norm: seq<string>, cfg: Json, header: Json, dialect: Dialect)
    returns (r: Result<(seq<MItem>, seq<MItem>)>)
    ensures r == ParseOn(eng, norm, cfg, header, dialect)
  {
    var setup := ReadSetup(cfg, header);
    if setup.Err? {
      return Err(setup.error);
    }
    if setup.value.None? {
      return Ok(([], []));
    }
    var s := setup.value.value;
    var ps, os := ScanPositions(eng, s, norm);
    var items := BuildItems(eng, s, dialect, norm, os, ps);
    if items.Err? {
      return Err(items.error);
    }
    return Ok((items.value, []));
  }

  /** The item loop of `ParseLines` (`for idx, gd in item_positions`). */
  method BuildItems(eng: Engine, s: Setup, dialect: Dialect, norm: seq<string>,
                    os: seq<(nat, Option<string>)>, ps: seq<(nat, GroupDict)>)
    returns (r: Result<seq<MItem>>)
    ensures r == Items(eng, s, dialect, norm, os, ps)
  {
    var items: seq<MItem> := [];
    var k := 0;
    assert ps[k..] == ps;
    PrependNothing(Items(eng, s, dialect, norm, os, ps));
    while k < |ps|
      invariant 0 <= k <= |ps|
      invariant Items(eng, s, dialect, norm, os, ps) == Prepend(items, Items(eng, s, dialect, norm, os, ps[k..]))
    {
      ItemsStep(eng, s, dialect, norm, os, ps, k, items);
      var it := ParseItem(eng, s, dialect, norm, os, ps[k].0, ps[k].1);
      if it.Err? {
        return Err(it.error);
      }
      items := items + [it.value];
      k := k + 1;
    }
    assert ps[k..] == [] && items + [] == items;
    return Ok(items);
  }

  /** One iteration of the item loop. */
  method ParseItem(eng: Engine, s: Setup, dialect: Dialect, norm: seq<string>,
                   orders: seq<(nat, Option<string>)>, idx: nat, gd: GroupDict)
    returns (r: Result<MItem>)
    ensures r == BuildItem(eng, s, dialect, norm, orders, idx, gd)
  {
    var code := GroupGet(gd, s.codeKey);
    if code.Err? {
      return Err(code.error);
    }
    var qty := GroupGet(gd, s.qtyKey);
    if qty.Err? {
      return Err(qty.error);
    }
    var orderNo := FindClosestOrder(orders, idx);
    var description: Result<Option<string>>;
    match dialect {
      case Step3 =>
        var inline := Get(gd, "description_inline");
        if Truthy(inline) {
          description := Ok(inline);
        } else {
          var m := AsInt(s.maxFollow);
          if m.Err? {
            return Err(m.error);
          }
          if m.value > 0 {
            description := FollowLines(eng, s, norm, idx, m.value);
          } else {
            description := Ok(None);
          }
        }
      case Step2 =>
        if IsZero(s.maxFollow) {
          description := GroupGet(gd, s.descKey);
        } else {
          var m := AsInt(s.maxFollow);
          if m.Err? {
            return Err(m.error);
          }
          description := FollowLines(eng, s, norm, idx, m.value);
        }
    }
    if description.Err? {
      return Err(description.error);
    }
    return Ok(MItem(code.value, qty.value, description.value, orderNo));
  }

  // ---------------------------------------------------------------------------
  // Properties
  // ---------------------------------------------------------------------------

  /** Line numbers strictly increase along a position list. */
  predicate Ascending<T>(ps: seq<(nat, T)>) {
    forall a, b :: 0 <= a < b < |ps| ==> ps[a].0 < ps[b].0
  }

  /** Every collected entry is a line, among the first `n`, on which `hit` gives its value. */
  lemma {:induction false} CollectSound<T>(hit: string -> Option<T>, norm: seq<string>, n: nat)
    requires n <= |norm|
    ensures forall k :: 0 <= k < |Collect(hit, norm, n)| ==>
      Collect(hit, norm, n)[k].0 < n && hit(norm[Collect(hit, norm, n)[k].0]) == Some(Collect(hit, norm, n)[k].1)
  {
    if n > 0 {
      CollectSound(hit, norm, n - 1);
      var ps := Collect(hit, norm, n);
      var pre := Collect(hit, norm, n - 1);
      assert ps == pre + if hit(norm[n - 1]).Some? then [(n - 1, hit(norm[n - 1]).value)] else [];
      forall k | 0 <= k < |ps|
        ensures ps[k].0 < n && hit(norm[ps[k].0]) == Some(ps[k].1)
      {
        if k < |pre| {
          assert ps[k] == pre[k];
        } else {
          assert ps[k] == (n - 1, hit(norm[n - 1]).value);
        }
      }
    }
  }

  /** Every line, among the first `n`, on which `hit` gives something is collected. */
  lemma {:induction false} CollectComplete<T>(hit: string -> Option<T>, norm: seq<string>, n: nat, i: nat)
    returns (k: nat)
    requires i < n <= |norm| && hit(norm[i]).Some?
    ensures k < |Collect(hit, norm, n)| && Collect(hit, norm, n)[k] == (i, hit(norm[i]).value)
  {
    var ps := Collect(hit, norm, n);
    if i == n - 1 {
      k := |ps| - 1;
    } else {
      k := CollectComplete(hit, norm, n - 1, i);
      assert ps[k] == Collect(hit, norm, n - 1)[k];
    }
  }

  /** Nothing is collected where `hit` never gives anything. */
  lemma {:induction false} CollectNothing<T>(hit: string -> Option<T>, norm: seq<string>, n: nat)
    requires n <= |norm|
    requires forall l :: hit(l).None?
    ensures Collect(hit, norm, n) == []
  {
    if n > 0 {
      CollectNothing(hit, norm, n - 1);
      assert hit(norm[n - 1]).None?;
    }
  }

  /** Collected entries come in line order, one per line. */
  lemma {:induction false} CollectAscending<T>(hit: string -> Option<T>, norm: seq<string>, n: nat)
    requires n <= |norm|
    ensures Ascending(Collect(hit, norm, n))
  {
    if n > 0 {
      CollectAscending(hit, norm, n - 1);
      CollectSound(hit, norm, n - 1);
      var ps := Collect(hit, norm, n);
      var pre := Collect(hit, norm, n - 1);
      assert ps == pre + if hit(norm[n - 1]).Some? then [(n - 1, hit(norm[n - 1]).value)] else [];
      forall a, b | 0 <= a < b < |ps|
        ensures ps[a].0 < ps[b].0
      {
        assert ps[a] == pre[a];
        if b < |pre| {
          assert ps[b] == pre[b];
        }
      }
    }
  }

  /** Phase 1 finds exactly the lines the start pattern matches, in line order, each with
      the groups of its match. */
  lemma ItemPositionsExact(eng: Engine, p: Pattern, norm: seq<string>)
    ensures var ps := ItemPositions(eng, p, norm, |norm|);
      && Ascending(ps)
      && (forall k :: 0 <= k < |ps| ==>
            ps[k].0 < |norm| && eng.reMatch(p, norm[ps[k].0]).Some? && ps[k].1 == GroupDictOf(eng.reMatch(p, norm[ps[k].0]).value))
      && (forall i :: 0 <= i < |norm| && eng.reMatch(p, norm[i]).Some? ==>
            exists k :: 0 <= k < |ps| && ps[k].0 == i)
  {
    var hit := ItemHit(eng, p);
    CollectAscending(hit, norm, |norm|);
    CollectSound(hit, norm, |norm|);
    forall i | 0 <= i < |norm| && eng.reMatch(p, norm[i]).Some?
      ensures exists k :: 0 <= k < |Collect(hit, norm, |norm|)| && Collect(hit, norm, |norm|)[k].0 == i
    {
      var k := CollectComplete(hit, norm, |norm|, i);
    }
  }

  /** Phase 1 finds exactly the lines the header pattern finds (none without a header pattern),
      in line order, each with the order number of its match. */
  lemma OrderPositionsExact(eng: Engine, h: Option<Pattern>, norm: seq<string>)
    ensures var os := OrderPositions(eng, h, norm, |norm|);
      && Ascending(os)
      && (h.None? ==> os == [])
      && (forall k :: 0 <= k < |os| ==>
            h.Some? && os[k].0 < |norm| && eng.reSearch(h.value, norm[os[k].0]).Some? &&
            os[k].1 == OrderNumber(eng.reSearch(h.value, norm[os[k].0]).value))
      && (forall i :: 0 <= i < |norm| && h.Some? && eng.reSearch(h.value, norm[i]).Some? ==>
            exists k :: 0 <= k < |os| && os[k].0 == i)
  {
    var hit := HeaderHit(eng, h);
    CollectAscending(hit, norm, |norm|);
    CollectSound(hit, norm, |norm|);
    if h.None? {
      CollectNothing(hit, norm, |norm|);
    }
    forall i | 0 <= i < |norm| && h.Some? && eng.reSearch(h.value, norm[i]).Some?
      ensures exists k :: 0 <= k < |Collect(hit, norm, |norm|)| && Collect(hit, norm, |norm|)[k].0 == i
    {
      var k := CollectComplete(hit, norm, |norm|, i);
    }
  }

  /** The chosen header is never on the item's own line: it is either in the ten lines
      after it, or, when no header is there, before it; no header at all is chosen only
      when every header is on the item line or more than ten lines after it. */
  lemma ClosestHeaderChoice(orders: seq<(nat, Option<string>)>, idx: nat)
    ensures match ClosestHeader(orders, idx)
      case Some(j) =>
        && j < |orders| && orders[j].0 != idx
        && (InWindow(orders[j].0, idx) ||
            (orders[j].0 < idx && forall i :: 0 <= i < |orders| ==> !InWindow(orders[i].0, idx)))
      case None =>
        forall i :: 0 <= i < |orders| ==> orders[i].0 == idx || orders[i].0 > idx + 10
  {
  }

  /** With headers in line order (as the scan produces them), the choice is the nearest
      header after the item within ten lines, and otherwise the nearest one before it. */
  lemma ClosestHeaderNearest(orders: seq<(nat, Option<string>)>, idx: nat)
    requires Ascending(orders)
    ensures match ClosestHeader(orders, idx)
      case Some(j) =>
        j < |orders| &&
        (if InWindow(orders[j].0, idx)
         then forall i :: 0 <= i < |orders| ==> !(idx < orders[i].0 < orders[j].0)
         else forall i :: 0 <= i < |orders| ==> !(orders[j].0 < orders[i].0 < idx))
      case None => true
  {
    match ForwardHit(orders, idx, 0)
    case Some(j) =>
      forall i | 0 <= i < |orders| && idx < orders[i].0 < orders[j].0
        ensures false
      {
      }
    case None =>
      match BackwardHit(orders, idx, |orders|)
      case Some(j) =>
        forall i | 0 <= i < |orders| && orders[j].0 < orders[i].0 < idx
          ensures false
        {
        }
      case None =>
  }

  /** The successful parse of positions `ps` builds item `k` from entry `k`; a failed one
      fails with the exception of the first entry that raises. */
  lemma {:induction false} ItemsSpec(eng: Engine, s: Setup, dialect: Dialect, norm: seq<string>,
                                     orders: seq<(nat, Option<string>)>, ps: seq<(nat, GroupDict)>)
    ensures var r := Items(eng, s, dialect, norm, orders, ps);
      && (r.Ok? ==> (|r.value| == |ps| &&
            forall k :: 0 <= k < |ps| ==> BuildItem(eng, s, dialect, norm, orders, ps[k].0, ps[k].1) == Ok(r.value[k])))
      && (r.Err? ==> FirstFailure(eng, s, dialect, norm, orders, ps, r.error))
  {
    if ps != [] {
      ItemsSpec(eng, s, dialect, norm, orders, ps[1..]);
      var r := Items(eng, s, dialect, norm, orders, ps);
      var it := BuildItem(eng, s, dialect, norm, orders, ps[0].0, ps[0].1);
      if it.Ok? {
        var rest := Items(eng, s, dialect, norm, orders, ps[1..]);
        if rest.Ok? {
          assert r == Ok([it.value] + rest.value);
          forall k | 0 <= k < |ps|
            ensures BuildItem(eng, s, dialect, norm, orders, ps[k].0, ps[k].1) == Ok(r.value[k])
          {
            if k > 0 {
              assert ps[k] == ps[1..][k - 1] && r.value[k] == rest.value[k - 1];
            }
          }
        } else {
          assert r == Err(rest.error);
          var k := FirstFailureAt(eng, s, dialect, norm, orders, ps[1..], rest.error);
          assert ps[1..][k] == ps[k + 1];
          forall i | 0 <= i < k + 1
            ensures BuildItem(eng, s, dialect, norm, orders, ps[i].0, ps[i].1).Ok?
          {
            if i > 0 { assert ps[i] == ps[1..][i - 1]; }
          }
          assert FailsFirstAt(eng, s, dialect, norm, orders, ps, r.error, k + 1);
        }
      } else {
        assert FailsFirstAt(eng, s, dialect, norm, orders, ps, r.error, 0);
      }
    }
  }

  /** Entry `k` raises `e` and no entry before it raises. */
  predicate FailsFirstAt(eng: Engine, s: Setup, dialect: Dialect, norm: seq<string>,
                         orders: seq<(nat, Option<string>)>, ps: seq<(nat, GroupDict)>, e: Error, k: int) {
    && 0 <= k < |ps|
    && BuildItem(eng, s, dialect, norm, orders, ps[k].0, ps[k].1) == Err(e)
    && forall i :: 0 <= i < k ==> BuildItem(eng, s, dialect, norm, orders, ps[i].0, ps[i].1).Ok?
  }

  predicate FirstFailure(eng: Engine, s: Setup, dialect: Dialect, norm: seq<string>,
                         orders: seq<(nat, Option<string>)>, ps: seq<(nat, GroupDict)>, e: Error) {
    exists k :: 0 <= k < |ps| && FailsFirstAt(eng, s, dialect, norm, orders, ps, e, k)
  }

  lemma FirstFailureAt(eng: Engine, s: Setup, dialect: Dialect, norm: seq<string>,
                       orders: seq<(nat, Option<string>)>, ps: seq<(nat, GroupDict)>, e: Error)
    returns (k: nat)
    requires FirstFailure(eng, s, dialect, norm, orders, ps, e)
    ensures FailsFirstAt(eng, s, dialect, norm, orders, ps, e, k)
  {
    var j :| 0 <= j < |ps| && FailsFirstAt(eng, s, dialect, norm, orders, ps, e, j);
    k := j;
  }

  /** A successful parse gives one item per line the start pattern matches, in line order,
      each built from that line; the second list is always empty. */
  lemma ParseOneItemPerStartLine(eng: Engine, norm: seq<string>, cfg: Json, header: Json, dialect: Dialect)
    requires ParseOn(eng, norm, cfg, header, dialect).Ok?
    requires ReadSetup(cfg, header).value.Some?
    ensures var s := ReadSetup(cfg, header).value.value;
      var ps := ItemPositions(eng, s.start, norm, |norm|);
      var os := OrderPositions(eng, s.header, norm, |norm|);
      var r := ParseOn(eng, norm, cfg, header, dialect).value;
      && r.1 == []
      && |r.0| == |ps|
      && forall k :: 0 <= k < |ps| ==> BuildItem(eng, s, dialect, norm, os, ps[k].0, ps[k].1) == Ok(r.0[k])
  {
    var s := ReadSetup(cfg, header).value.value;
    ItemsSpec(eng, s, dialect, norm, OrderPositions(eng, s.header, norm, |norm|),
              ItemPositions(eng, s.start, norm, |norm|));
  }

  /** A missing or empty `start_regex` yields no items and no orders. */
  lemma NoStartRegexNoItems(eng: Engine, norm: seq<string>, cfg: Json, header: Json, dialect: Dialect)
    requires cfg.JObj? && !JTruthy(GetOr(cfg, "start_regex", JNull).value)
    ensures ParseOn(eng, norm, cfg, header, dialect) == Ok(([], []))
  {
  }

  /** What a built item holds: the configured code and quantity groups of its start line,
      the order number of the closest header, and the description. */
  lemma BuildItemFields(eng: Engine, s: Setup, dialect: Dialect, norm: seq<string>,
                        orders: seq<(nat, Option<string>)>, idx: nat, gd: GroupDict)
    requires BuildItem(eng, s, dialect, norm, orders, idx, gd).Ok?
    ensures var it := BuildItem(eng, s, dialect, norm, orders, idx, gd).value;
      && GroupGet(gd, s.codeKey) == Ok(it.itemCode)
      && GroupGet(gd, s.qtyKey) == Ok(it.qty)
      && it.yourOrder == ClosestOrder(orders, idx)
      && Describe(eng, s, dialect, norm, idx, gd) == Ok(it.description)
  {
  }

  /** The lines `idx + a` up to, not including, `idx + b` exist and `look` passes over them. */
  predicate Passed(look: string -> Look, norm: seq<string>, idx: nat, a: nat, b: nat) {
    forall i :: idx + a <= i < idx + b ==> i < |norm| && look(norm[i]) == Pass
  }

  /** A result of the lookahead comes from the first line, within `m` lines below the item,
      that the lookahead does not pass over; every line before it is passed over. */
  lemma {:induction false} FollowFound(look: string -> Look, norm: seq<string>, idx: nat, m: int, j: nat)
    returns (at: nat)
    requires Follow(look, norm, idx, m, j) != Ok(None)
    ensures j <= at <= m && idx + at < |norm|
    ensures look(norm[idx + at]).Take?
    ensures Follow(look, norm, idx, m, j) ==
      match look(norm[idx + at]).found case Err(e) => Err(e) case Ok(t) => Ok(Some(t))
    ensures Passed(look, norm, idx, j, at)
    decreases |norm| - (idx + j)
  {
    if look(norm[idx + j]) == Pass {
      at := FollowFound(look, norm, idx, m, j + 1);
      forall i | idx + j <= i < idx + at
        ensures i < |norm| && look(norm[i]) == Pass
      {
        if i > idx + j {
          assert idx + (j + 1) <= i;
        }
      }
    } else {
      at := j;
    }
  }

  /** The description the lookahead finds is the text of a description match, on a line
      within `m` lines below the item, that does not start with "Subtotal"; no line before it
      starts the next item or a subtotal. */
  lemma LookaheadFound(eng: Engine, s: Setup, norm: seq<string>, idx: nat, m: int, t: string)
    returns (at: nat)
    requires Lookahead(eng, s, norm, idx, m) == Ok(Some(t))
    ensures 1 <= at <= m && idx + at < |norm|
    ensures !Stops(eng, s, norm[idx + at]) && DescOn(eng, s, norm[idx + at]) == Some(Ok(t))
    ensures !StartsWith(t, "Subtotal")
    ensures forall i :: idx + 1 <= i < idx + at ==> i < |norm| && !Stops(eng, s, norm[i])
  {
    var look := LineLook(eng, s);
    at := FollowFound(look, norm, idx, m, 1);
    forall i | idx + 1 <= i < idx + at
      ensures i < |norm| && !Stops(eng, s, norm[i])
    {
      assert look(norm[i]) == Pass;
    }
  }

  /** A description match is taken even when its text strips to nothing: the line right
      below the item, matching the description pattern with an empty text, gives "". */
  lemma EmptyDescriptionTaken(eng: Engine, s: Setup, norm: seq<string>, idx: nat, m: int)
    requires 1 <= m && idx + 1 < |norm|
    requires !Stops(eng, s, norm[idx + 1])
    requires s.desc.Some? && eng.reMatch(s.desc.value, norm[idx + 1]).Some?
    requires DescText(GroupDictOf(eng.reMatch(s.desc.value, norm[idx + 1]).value), s.descKey) == Ok("")
    ensures Lookahead(eng, s, norm, idx, m) == Ok(Some(""))
  {
    LookCases(eng, s, norm[idx + 1]);
    assert !StartsWith("", "Subtotal");
    FollowAt(LineLook(eng, s), norm, idx, m, 1);
  }

  /** The lookahead reads no line beyond the `m`-th below the item. */
  lemma {:induction false} FollowWindow(look: string -> Look, norm: seq<string>, idx: nat, m: int, j: nat, cut: nat)
    requires idx + m < cut <= |norm|
    ensures Follow(look, norm[..cut], idx, m, j) == Follow(look, norm, idx, m, j)
    decreases |norm| - (idx + j)
  {
    if j <= m && idx + j < |norm| {
      assert norm[..cut][idx + j] == norm[idx + j];
      FollowWindow(look, norm, idx, m, j + 1, cut);
    }
  }

  lemma LookaheadWindow(eng: Engine, s: Setup, norm: seq<string>, idx: nat, m: int, cut: nat)
    requires idx + m < cut <= |norm|
    ensures Lookahead(eng, s, norm[..cut], idx, m) == Lookahead(eng, s, norm, idx, m)
  {
    FollowWindow(LineLook(eng, s), norm, idx, m, 1, cut);
  }

  /** A lookahead that never takes anything finds nothing. */
  lemma {:induction false} FollowNothing(look: string -> Look, norm: seq<string>, idx: nat, m: int, j: nat)
    requires forall n :: !look(n).Take?
    ensures Follow(look, norm, idx, m, j) == Ok(None)
    decreases |norm| - (idx + j)
  {
    if j <= m && idx + j < |norm| && look(norm[idx + j]) == Pass {
      FollowNothing(look, norm, idx, m, j + 1);
    }
  }

  /** Without `desc_regex` the lookahead never finds a description. */
  lemma LookaheadNeedsDescPattern(eng: Engine, s: Setup, norm: seq<string>, idx: nat, m: int)
    requires s.desc.None?
    ensures Lookahead(eng, s, norm, idx, m) == Ok(None)
  {
    FollowNothing(LineLook(eng, s), norm, idx, m, 1);
  }

  /** Step 3: a non-empty `description_inline` group is the description, whatever follows. */
  lemma InlineDescriptionWins(eng: Engine, s: Setup, norm: seq<string>, idx: nat, gd: GroupDict)
    requires Truthy(Get(gd, "description_inline"))
    ensures Describe(eng, s, Step3, norm, idx, gd) == Ok(Get(gd, "description_inline"))
  {
  }

  /** Step 2: with `max_follow_lines` 0 the description is the configured group of the
      start line. */
  lemma ZeroFollowUsesGroup(eng: Engine, s: Setup, norm: seq<string>, idx: nat, gd: GroupDict)
    requires IsZero(s.maxFollow)
    ensures Describe(eng, s, Step2, norm, idx, gd) == GroupGet(gd, s.descKey)
  {
  }

  /** The two versions look for the description the same way when the start line has no
      inline description and a positive number of lines is followed. */
  lemma DialectsAgree(eng: Engine, s: Setup, norm: seq<string>, idx: nat, gd: GroupDict)
    requires !Truthy(Get(gd, "description_inline"))
    requires AsInt(s.maxFollow).Ok? && AsInt(s.maxFollow).value > 0
    ensures Describe(eng, s, Step3, norm, idx, gd) == Describe(eng, s, Step2, norm, idx, gd)
  {
  }
}
