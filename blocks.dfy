/**
 * Segmenting the document's lines: `_extract_block_lines`, which keeps the lines
 * between a start line and a stop line, and the two `_extract_multi_blocks`
 * groupers, which cut the lines into one block per header line and collect the
 * item lines under the header before them. Every test is made on the normalised
 * line; the block isolator's patterns ignore case, the grouper's do not.
 */
module Blocks {
  import opened Wrappers
  import opened Strings
  import opened Regex
  import opened TextNorm

  /** `p.search(n)` succeeds, `n` being a normalised line. */
  predicate Hit(eng: Engine, p: Pattern, n: string) {
    eng.reSearch(p, n).Some?
  }

  /** The first line, from `from` on, whose normalised form `p` is found in. */
  function FirstHit(eng: Engine, p: Pattern, norm: seq<string>, from: nat): (r: Option<nat>)
    requires from <= |norm|
    ensures r.Some? ==> (from <= r.value < |norm| && Hit(eng, p, norm[r.value])
      && forall j :: from <= j < r.value ==> !Hit(eng, p, norm[j]))
    ensures r.None? ==> forall j :: from <= j < |norm| ==> !Hit(eng, p, norm[j])
    decreases |norm| - from
  {
    if from == |norm| then None
    else if Hit(eng, p, norm[from]) then Some(from)
    else FirstHit(eng, p, norm, from + 1)
  }

  /** `re.compile(stop_re, flags=re.IGNORECASE) if stop_re else None`. */
  function StopPattern(stop: Option<string>): Option<Pattern> {
    if Truthy(stop) then Some(Pattern(stop.value, true)) else None
  }

  /** `[ln for ln in block if not stop_p.search(_norm_line(ln))]`, given the block's
      normalised lines beside it. */
  function DropStops(eng: Engine, sp: Pattern, block: seq<string>, norm: seq<string>): (r: seq<string>)
    requires |norm| == |block|
    ensures |r| <= |block|
    ensures (exists k :: 0 <= k < |norm| && Hit(eng, sp, norm[k])) ==> |r| < |block|
  {
    if block == [] then []
    else (if Hit(eng, sp, norm[0]) then [] else [block[0]]) + DropStops(eng, sp, block[1..], norm[1..])
  }

  /** Where the block ends: the first stop line from `s` on, or the end of the input. */
  function BlockEnd(eng: Engine, norm: seq<string>, s: nat, stop: Option<string>): (e: nat)
    requires s <= |norm|
    ensures s <= e <= |norm|
    ensures e == |norm| || (Truthy(stop) && Hit(eng, Pattern(stop.value, true), norm[e]))
    ensures Truthy(stop) ==> forall j :: s <= j < e ==> !Hit(eng, Pattern(stop.value, true), norm[j])
  {
    match StopPattern(stop)
    case None => |norm|
    case Some(sp) =>
      match FirstHit(eng, sp, norm, s)
      case None => |norm|
      case Some(j) => j
  }

  /** What `_extract_block_lines(lines, start_re, stop_re)` returns, `norm` being the
      normalised lines beside `lines`. */
  function ExtractBlockOn(eng: Engine, lines: seq<string>, norm: seq<string>, start: string, stop: Option<string>): seq<string>
    requires |norm| == |lines|
  {
    match FirstHit(eng, Pattern(start, true), norm, 0)
    case None => []
    case Some(i) =>
      var e := BlockEnd(eng, norm, i + 1, stop);
      match StopPattern(stop)
      case None => lines[i + 1..e]
      case Some(sp) => DropStops(eng, sp, lines[i + 1..e], norm[i + 1..e])
  }

  function ExtractBlock(eng: Engine, lines: seq<string>, start: string, stop: Option<string>): seq<string> {
    ExtractBlockOn(eng, lines, NormLines(lines), start, stop)
  }

  /** `_extract_block_lines` (identical in step 2 and step 3). */
  method ExtractBlockLines(eng: Engine, lines: seq<string>, start: string, stop: Option<string>)
    returns (r: seq<string>)
    ensures r == ExtractBlock(eng, lines, start, stop)
  {
    var norm := NormLines(lines);
    r := ScanBlock(eng, lines, norm, start, stop);
  }

  /** The scans of `_extract_block_lines` over the lines and their normalised forms. */
  method ScanBlock(eng: Engine, lines: seq<string>, norm: seq<string>, start: string, stop: Option<string>)
    returns (r: seq<string>)
    requires |norm| == |lines|
    ensures r == ExtractBlockOn(eng, lines, norm, start, stop)
  {
    var startP := Pattern(start, true);
    var stopP := StopPattern(stop);
    var startIdx: Option<nat> := None;
    var i := 0;
    while i < |lines|
      invariant 0 <= i <= |lines|
      invariant FirstHit(eng, startP, norm, 0) == FirstHit(eng, startP, norm, i)
    {
      if eng.reSearch(startP, norm[i]).Some? {
        startIdx := Some(i + 1);
        break;
      }
      i := i + 1;
    }
    if startIdx.None? {
      return [];
    }
    var s := startIdx.value;
    var endIdx := |lines|;
    if stopP.Some? {
      var j := s;
      while j < |lines|
        invariant s <= j <= |lines|
        invariant FirstHit(eng, stopP.value, norm, s) == FirstHit(eng, stopP.value, norm, j)
      {
        if eng.reSearch(stopP.value, norm[j]).Some? {
          endIdx := j;
          break;
        }
        j := j + 1;
      }
    }
    r := lines[s..endIdx];
    if stopP.Some? {
      r := DropStops(eng, stopP.value, r, norm[s..endIdx]);
    }
  }

  // ---------------------------------------------------------------------------
  // Properties of the block isolator
  // ---------------------------------------------------------------------------

  /** The final filter removes nothing when no line of the block is a stop line. */
  lemma {:induction false} DropStopsNoOp(eng: Engine, sp: Pattern, block: seq<string>, norm: seq<string>)
    requires |norm| == |block|
    requires forall k :: 0 <= k < |norm| ==> !Hit(eng, sp, norm[k])
    ensures DropStops(eng, sp, block, norm) == block
    decreases |block|
  {
    if block != [] {
      assert forall k :: 0 <= k < |norm| - 1 ==> norm[1..][k] == norm[k + 1];
      DropStopsNoOp(eng, sp, block[1..], norm[1..]);
      assert [block[0]] + block[1..] == block;
    }
  }

  /** Without a start line the result is empty. Otherwise it is the slice of lines strictly
      after the first start line up to where the block ends (see `BlockEnd`: the first stop
      line after it, excluded, or the end of the input when there is none or no stop
      pattern); the final stop filter of the source removes nothing. */
  lemma ExtractBlockIsSlice(eng: Engine, lines: seq<string>, norm: seq<string>, start: string, stop: Option<string>)
    requires |norm| == |lines|
    ensures FirstHit(eng, Pattern(start, true), norm, 0).None? ==> ExtractBlockOn(eng, lines, norm, start, stop) == []
    ensures FirstHit(eng, Pattern(start, true), norm, 0).Some? ==>
      var s := FirstHit(eng, Pattern(start, true), norm, 0).value + 1;
      ExtractBlockOn(eng, lines, norm, start, stop) == lines[s..BlockEnd(eng, norm, s, stop)]
  {
    var f := FirstHit(eng, Pattern(start, true), norm, 0);
    if f.Some? && Truthy(stop) {
      var s := f.value + 1;
      var e := BlockEnd(eng, norm, s, stop);
      var sp := Pattern(stop.value, true);
      var nb := norm[s..e];
      assert forall k :: 0 <= k < |nb| ==> !Hit(eng, sp, nb[k]) by {
        forall k | 0 <= k < |nb| ensures !Hit(eng, sp, nb[k]) {
          assert nb[k] == norm[s + k];
        }
      }
      DropStopsNoOp(eng, sp, lines[s..e], nb);
    }
  }

  /** Without a stop pattern the block is the whole rest of the input after the start line. */
  lemma ExtractBlockNoStop(eng: Engine, lines: seq<string>, norm: seq<string>, start: string, stop: Option<string>)
    requires |norm| == |lines|
    requires !Truthy(stop)
    requires FirstHit(eng, Pattern(start, true), norm, 0).Some?
    ensures ExtractBlockOn(eng, lines, norm, start, stop) == lines[FirstHit(eng, Pattern(start, true), norm, 0).value + 1..]
  {
  }

  // ---------------------------------------------------------------------------
  // The multi-block groupers
  // ---------------------------------------------------------------------------

  /** `{"header": m_hdr.groupdict(), "items": [...]}`. */
  datatype Block = Block(header: GroupDict, items: seq<GroupDict>)

  /** `header_re.search(n)` as a groupdict when it succeeds, `n` being a normalised line. */
  function HeaderOf(eng: Engine, hp: Pattern, n: string): Option<GroupDict> {
    match eng.reSearch(hp, n)
    case None => None
    case Some(m) => Some(GroupDictOf(m))
  }

  /** `item_re.match(n)` as a groupdict when it succeeds, `n` being a normalised line. */
  function ItemOf(eng: Engine, ip: Pattern, n: string): seq<GroupDict> {
    match eng.reMatch(ip, n)
    case None => []
    case Some(m) => [GroupDictOf(m)]
  }

  /** The items of the (normalised) lines before the next header line. */
  function ItemsUntilHeader(eng: Engine, hp: Pattern, ip: Pattern, xs: seq<string>): seq<GroupDict> {
    if xs == [] || HeaderOf(eng, hp, xs[0]).Some? then []
    else ItemOf(eng, ip, xs[0]) + ItemsUntilHeader(eng, hp, ip, xs[1..])
  }

  /** The reference grouping of the normalised lines: one block per header line, in order,
      holding the items of the lines after it up to the next header line; lines before the
      first header are dropped. */
  function Grouped(eng: Engine, hp: Pattern, ip: Pattern, xs: seq<string>): seq<Block> {
    if xs == [] then []
    else
      match HeaderOf(eng, hp, xs[0])
      case Some(h) => [Block(h, ItemsUntilHeader(eng, hp, ip, xs[1..]))] + Grouped(eng, hp, ip, xs[1..])
      case None => Grouped(eng, hp, ip, xs[1..])
  }

  /** What is still to come once the lines before `xs` are read: the open block (if any)
      completed with the items of `xs` before its next header, then the blocks of `xs`. */
  function Pending(eng: Engine, hp: Pattern, ip: Pattern, open: Option<Block>, xs: seq<string>): seq<Block> {
    match open
    case None => Grouped(eng, hp, ip, xs)
    case Some(b) => [Block(b.header, b.items + ItemsUntilHeader(eng, hp, ip, xs))] + Grouped(eng, hp, ip, xs)
  }

  /** Reading one line `x` with block `open` in progress: a header line closes the open block
      and opens its own; another line adds its item, if any, to the open block. */
  lemma PendingStep(eng: Engine, hp: Pattern, ip: Pattern, open: Option<Block>, x: string, xs: seq<string>)
    ensures HeaderOf(eng, hp, x).Some? ==>
      Pending(eng, hp, ip, open, [x] + xs) ==
        (if open.Some? then [open.value] else []) + Pending(eng, hp, ip, Some(Block(HeaderOf(eng, hp, x).value, [])), xs)
    ensures HeaderOf(eng, hp, x).None? && open.Some? ==>
      Pending(eng, hp, ip, open, [x] + xs) ==
        Pending(eng, hp, ip, Some(Block(open.value.header, open.value.items + ItemOf(eng, ip, x))), xs)
    ensures HeaderOf(eng, hp, x).None? && open.None? ==>
      Pending(eng, hp, ip, open, [x] + xs) == Pending(eng, hp, ip, None, xs)
  {
    var ys := [x] + xs;
    assert ys[0] == x && ys[1..] == xs;
    var h := HeaderOf(eng, hp, x);
    if h.Some? {
      var nb := Block(h.value, ItemsUntilHeader(eng, hp, ip, xs));
      assert Grouped(eng, hp, ip, ys) == [nb] + Grouped(eng, hp, ip, xs);
      assert Pending(eng, hp, ip, Some(Block(h.value, [])), xs) == [nb] + Grouped(eng, hp, ip, xs) by {
        assert [] + ItemsUntilHeader(eng, hp, ip, xs) == ItemsUntilHeader(eng, hp, ip, xs);
      }
      if open.Some? {
        var b := open.value;
        assert b.items + ItemsUntilHeader(eng, hp, ip, ys) == b.items;
        assert Block(b.header, b.items) == b;
      }
    } else if open.Some? {
      var b := open.value;
      assert b.items + ItemsUntilHeader(eng, hp, ip, ys) == (b.items + ItemOf(eng, ip, x)) + ItemsUntilHeader(eng, hp, ip, xs);
    }
  }

  /** One line read by the grouper that keeps empty blocks: `w`, all the blocks, is the
      blocks emitted so far followed by what is pending, before and after the line. */
  lemma GroupStep(eng: Engine, hp: Pattern, ip: Pattern, w: seq<Block>, blocks: seq<Block>,
                  current: Option<Block>, n: string, rest: seq<string>)
    requires w == blocks + Pending(eng, hp, ip, current, [n] + rest)
    ensures HeaderOf(eng, hp, n).Some? ==>
      w == (if current.Some? then blocks + [current.value] else blocks)
        + Pending(eng, hp, ip, Some(Block(HeaderOf(eng, hp, n).value, [])), rest)
    ensures HeaderOf(eng, hp, n).None? && current.Some? ==>
      w == blocks + Pending(eng, hp, ip, Some(Block(current.value.header, current.value.items + ItemOf(eng, ip, n))), rest)
    ensures HeaderOf(eng, hp, n).None? && current.None? ==> w == blocks + Pending(eng, hp, ip, None, rest)
  {
    PendingStep(eng, hp, ip, current, n, rest);
    if HeaderOf(eng, hp, n).Some? && current.Some? {
      var p := Pending(eng, hp, ip, Some(Block(HeaderOf(eng, hp, n).value, [])), rest);
      assert blocks + ([current.value] + p) == (blocks + [current.value]) + p;
    }
  }

  /** `_extract_multi_blocks` of step 3, and the second definition in step 2 (the one the
      name is bound to when step 2 runs): every header opens a block, even one left empty. */
  method ExtractMultiBlocks(eng: Engine, lines: seq<string>, headerRegex: string, itemRegex: string)
    returns (blocks: seq<Block>)
    ensures blocks == Grouped(eng, Pattern(headerRegex, false), Pattern(itemRegex, false), NormLines(lines))
  {
    var norm := NormLines(lines);
    blocks := GroupBlocks(eng, norm, Pattern(headerRegex, false), Pattern(itemRegex, false));
  }

  /** The loop of `_extract_multi_blocks`, over the normalised lines. */
  method GroupBlocks(eng: Engine, norm: seq<string>, hp: Pattern, ip: Pattern) returns (blocks: seq<Block>)
    ensures blocks == Grouped(eng, hp, ip, norm)
  {
    ghost var w := Grouped(eng, hp, ip, norm);
    blocks := [];
    var current: Option<Block> := None;
    var k := 0;
    while k < |norm|
      invariant 0 <= k <= |norm|
      invariant w == blocks + Pending(eng, hp, ip, current, norm[k..])
    {
      var n := norm[k];
      assert norm[k..] == [n] + norm[k + 1..];
      GroupStep(eng, hp, ip, w, blocks, current, n, norm[k + 1..]);
      var h := HeaderOf(eng, hp, n);
      if h.Some? {
        if current.Some? {
          blocks := blocks + [current.value];
        }
        current := Some(Block(h.value, []));
      } else if current.Some? {
        current := Some(Block(current.value.header, current.value.items + ItemOf(eng, ip, n)));
      }
      k := k + 1;
    }
    assert norm[k..] == [];
    if current.Some? {
      assert current.value.items + [] == current.value.items;
      blocks := blocks + [current.value];
    }
  }

  /** The blocks that hold at least one item. */
  function WithItems(bs: seq<Block>): seq<Block> {
    if bs == [] then []
    else (if bs[0].items == [] then [] else [bs[0]]) + WithItems(bs[1..])
  }

  lemma {:induction false} WithItemsConcat(a: seq<Block>, b: seq<Block>)
    ensures WithItems(a + b) == WithItems(a) + WithItems(b)
    decreases |a|
  {
    if a != [] {
      WithItemsConcat(a[1..], b);
      assert (a + b)[1..] == a[1..] + b;
    } else {
      assert a + b == b;
    }
  }

  lemma WithItemsOne(b: Block)
    ensures WithItems([b]) == if b.items == [] then [] else [b]
  {
    assert [b][1..] == [];
  }

  /** The flushing grouper's state as an open block. */
  function OpenBlock(curHeader: Option<GroupDict>, curItems: seq<GroupDict>): Option<Block> {
    if curHeader.Some? then Some(Block(curHeader.value, curItems)) else None
  }

  /** One line read by the flushing grouper. A header line flushes the open block, which is
      emitted only when it holds items; another line adds its item, if any, to the open block. */
  lemma FlushStep(eng: Engine, hp: Pattern, ip: Pattern, w: seq<Block>, blocks: seq<Block>,
                  curHeader: Option<GroupDict>, curItems: seq<GroupDict>, n: string, rest: seq<string>)
    requires w == blocks + WithItems(Pending(eng, hp, ip, OpenBlock(curHeader, curItems), [n] + rest))
    ensures HeaderOf(eng, hp, n).Some? ==>
      w == (if curHeader.Some? && curItems != [] then blocks + [Block(curHeader.value, curItems)] else blocks)
        + WithItems(Pending(eng, hp, ip, OpenBlock(HeaderOf(eng, hp, n), []), rest))
    ensures HeaderOf(eng, hp, n).None? && curHeader.Some? ==>
      w == blocks + WithItems(Pending(eng, hp, ip, OpenBlock(curHeader, curItems + ItemOf(eng, ip, n)), rest))
    ensures HeaderOf(eng, hp, n).None? && curHeader.None? ==>
      w == blocks + WithItems(Pending(eng, hp, ip, OpenBlock(curHeader, curItems), rest))
  {
    var open := OpenBlock(curHeader, curItems);
    PendingStep(eng, hp, ip, open, n, rest);
    var h := HeaderOf(eng, hp, n);
    if h.Some? {
      var later := Pending(eng, hp, ip, OpenBlock(h, []), rest);
      var closed := if open.Some? then [open.value] else [];
      WithItemsConcat(closed, later);
      if open.Some? {
        WithItemsOne(open.value);
      }
      var emitted := WithItems(closed);
      assert blocks + (emitted + WithItems(later)) == (blocks + emitted) + WithItems(later);
    }
  }

  /** The first `_extract_multi_blocks` of step 2, whose `flush` emits a block only when it
      holds items: the reference grouping without its empty blocks. */
  method ExtractMultiBlocksFlush(eng: Engine, lines: seq<string>, headerRegex: string, itemRegex: string)
    returns (blocks: seq<Block>)
    ensures blocks == WithItems(Grouped(eng, Pattern(headerRegex, false), Pattern(itemRegex, false), NormLines(lines)))
  {
    var norm := NormLines(lines);
    blocks := GroupNonEmptyBlocks(eng, norm, Pattern(headerRegex, false), Pattern(itemRegex, false));
  }

  /** The loop of the flushing `_extract_multi_blocks`, over the normalised lines. */
  method GroupNonEmptyBlocks(eng: Engine, norm: seq<string>, hp: Pattern, ip: Pattern) returns (blocks: seq<Block>)
    ensures blocks == WithItems(Grouped(eng, hp, ip, norm))
  {
    ghost var w := WithItems(Grouped(eng, hp, ip, norm));
    blocks := [];
    var curHeader: Option<GroupDict> := None;
    var curItems: seq<GroupDict> := [];
    var k := 0;
    while k < |norm|
      invariant 0 <= k <= |norm|
      invariant curHeader.None? ==> curItems == []
      invariant w == blocks + WithItems(Pending(eng, hp, ip, OpenBlock(curHeader, curItems), norm[k..]))
    {
      var n := norm[k];
      assert norm[k..] == [n] + norm[k + 1..];
      FlushStep(eng, hp, ip, w, blocks, curHeader, curItems, n, norm[k + 1..]);
      var h := HeaderOf(eng, hp, n);
      if h.Some? {
        // flush()
        if curHeader.Some? && curItems != [] {
          blocks := blocks + [Block(curHeader.value, curItems)];
        }
        curHeader, curItems := h, [];
      } else if curHeader.Some? {
        curItems := curItems + ItemOf(eng, ip, n);
      }
      k := k + 1;
    }
    assert norm[k..] == [];
    if curHeader.Some? {
      assert curItems + [] == curItems;
      WithItemsConcat([Block(curHeader.value, curItems)], []);
      WithItemsOne(Block(curHeader.value, curItems));
    }
    // the last flush()
    if curHeader.Some? && curItems != [] {
      blocks := blocks + [Block(curHeader.value, curItems)];
    }
  }

  // ---------------------------------------------------------------------------
  // Properties of the grouping
  // ---------------------------------------------------------------------------

  /** The header groupdicts of the header lines, in order. */
  function Headers(eng: Engine, hp: Pattern, xs: seq<string>): seq<GroupDict> {
    if xs == [] then []
    else
      match HeaderOf(eng, hp, xs[0])
      case Some(h) => [h] + Headers(eng, hp, xs[1..])
      case None => Headers(eng, hp, xs[1..])
  }

  function HeaderOfBlocks(bs: seq<Block>): (hs: seq<GroupDict>)
    ensures |hs| == |bs| && forall k :: 0 <= k < |bs| ==> hs[k] == bs[k].header
  {
    seq(|bs|, k requires 0 <= k < |bs| => bs[k].header)
  }

  /** Exactly one block per header line, in the order of the lines. */
  lemma {:induction false} OneBlockPerHeader(eng: Engine, hp: Pattern, ip: Pattern, xs: seq<string>)
    ensures HeaderOfBlocks(Grouped(eng, hp, ip, xs)) == Headers(eng, hp, xs)
    decreases |xs|
  {
    if xs != [] {
      OneBlockPerHeader(eng, hp, ip, xs[1..]);
      var rest := Grouped(eng, hp, ip, xs[1..]);
      var h := HeaderOf(eng, hp, xs[0]);
      if h.Some? {
        var b := Block(h.value, ItemsUntilHeader(eng, hp, ip, xs[1..]));
        assert HeaderOfBlocks([b] + rest) == [h.value] + HeaderOfBlocks(rest);
      }
    }
  }

  /** Lines before the first header contribute nothing. */
  lemma {:induction false} LeadingLinesIgnored(eng: Engine, hp: Pattern, ip: Pattern, pre: seq<string>, xs: seq<string>)
    requires forall k :: 0 <= k < |pre| ==> HeaderOf(eng, hp, pre[k]).None?
    ensures Grouped(eng, hp, ip, pre + xs) == Grouped(eng, hp, ip, xs)
    decreases |pre|
  {
    if pre != [] {
      assert (pre + xs)[1..] == pre[1..] + xs;
      assert (pre + xs)[0] == pre[0];
      LeadingLinesIgnored(eng, hp, ip, pre[1..], xs);
    } else {
      assert pre + xs == xs;
    }
  }

  /** A header line followed at once by another header line gives a block with no items,
      and the grouper keeps it. */
  lemma EmptyBlockKept(eng: Engine, hp: Pattern, ip: Pattern, xs: seq<string>)
    requires |xs| >= 2 && HeaderOf(eng, hp, xs[0]).Some? && HeaderOf(eng, hp, xs[1]).Some?
    ensures Grouped(eng, hp, ip, xs) != [] && Grouped(eng, hp, ip, xs)[0] == Block(HeaderOf(eng, hp, xs[0]).value, [])
  {
    assert xs[1..][0] == xs[1];
  }

  /** A line that is a header is never read as an item, even when the item pattern also
      matches it: it only opens its block. */
  lemma HeaderNotItem(eng: Engine, hp: Pattern, ip: Pattern, ln: string, xs: seq<string>)
    requires HeaderOf(eng, hp, ln).Some?
    ensures ItemsUntilHeader(eng, hp, ip, [ln] + xs) == []
    ensures Grouped(eng, hp, ip, [ln] + xs) ==
      [Block(HeaderOf(eng, hp, ln).value, ItemsUntilHeader(eng, hp, ip, xs))] + Grouped(eng, hp, ip, xs)
  {
    assert ([ln] + xs)[0] == ln && ([ln] + xs)[1..] == xs;
  }

  /** The items of lines read one after the other, whatever their headers. */
  function ItemsOfLines(eng: Engine, ip: Pattern, xs: seq<string>): seq<GroupDict> {
    if xs == [] then [] else ItemOf(eng, ip, xs[0]) + ItemsOfLines(eng, ip, xs[1..])
  }

  /** Collecting items stops exactly at the next header line. */
  lemma {:induction false} ItemsUntilNextHeader(eng: Engine, hp: Pattern, ip: Pattern, mid: seq<string>, rest: seq<string>)
    requires forall k :: 0 <= k < |mid| ==> HeaderOf(eng, hp, mid[k]).None?
    requires rest == [] || HeaderOf(eng, hp, rest[0]).Some?
    ensures ItemsUntilHeader(eng, hp, ip, mid + rest) == ItemsOfLines(eng, ip, mid)
    decreases |mid|
  {
    if mid == [] {
      assert mid + rest == rest;
    } else {
      assert (mid + rest)[0] == mid[0] && (mid + rest)[1..] == mid[1..] + rest;
      ItemsUntilNextHeader(eng, hp, ip, mid[1..], rest);
    }
  }

  /** Every item goes to the nearest header line above it: the block of a header line holds
      the items of the lines between it and the next header line (or the end). */
  lemma ItemsGoToNearestHeader(eng: Engine, hp: Pattern, ip: Pattern, ln: string, mid: seq<string>, rest: seq<string>)
    requires HeaderOf(eng, hp, ln).Some?
    requires forall k :: 0 <= k < |mid| ==> HeaderOf(eng, hp, mid[k]).None?
    requires rest == [] || HeaderOf(eng, hp, rest[0]).Some?
    ensures Grouped(eng, hp, ip, [ln] + mid + rest) != []
    ensures Grouped(eng, hp, ip, [ln] + mid + rest)[0] == Block(HeaderOf(eng, hp, ln).value, ItemsOfLines(eng, ip, mid))
  {
    assert [ln] + mid + rest == [ln] + (mid + rest);
    HeaderNotItem(eng, hp, ip, ln, mid + rest);
    ItemsUntilNextHeader(eng, hp, ip, mid, rest);
  }
}
