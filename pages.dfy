/**
 * `_parse_pages_spec`, which turns a page specification into the 0-based
 * indexes of the pages to read. Two versions exist: the short one (step 3 and
 * the step 2 test script) knows only "all", `None` and a page number; the full
 * one (step 1 and step 2) also reads comma-separated page numbers and ranges.
 */
module Pages {
  import opened Strings

  /** The `pages` argument: `None`, an `int`, or a `str`. */
  datatype PagesSpec = NoSpec | PageNum(p: int) | PageText(t: string)

  /** `list(range(lo, hi))`. */
  function Range(lo: int, hi: int): (r: seq<int>)
    ensures |r| == if hi <= lo then 0 else hi - lo
    ensures forall k :: 0 <= k < |r| ==> r[k] == lo + k
    decreases hi - lo
  {
    if hi <= lo then [] else [lo] + Range(lo + 1, hi)
  }

  predicate Increasing(r: seq<int>) {
    forall i, j :: 0 <= i < j < |r| ==> r[i] < r[j]
  }

  /** `max(0, min(p - 1, total - 1))`, the index an integer spec selects. */
  function Clamp(p: int, total: int): int {
    var m := if p - 1 < total - 1 then p - 1 else total - 1;
    if m < 0 then 0 else m
  }

  /** An integer spec selects the page it names, moved into the document. */
  lemma ClampInRange(p: int, total: int)
    requires total > 0
    ensures 0 <= Clamp(p, total) < total
    ensures 1 <= p <= total ==> Clamp(p, total) == p - 1
    ensures p > total ==> Clamp(p, total) == total - 1
    ensures p < 1 ==> Clamp(p, total) == 0
  {
  }

  /** For a document without pages an integer spec still selects index 0. */
  lemma ClampEmptyDocument(p: int, total: int)
    requires total == 0
    ensures Clamp(p, total) == 0
  {
  }

  // ---------------------------------------------------------------------------
  // The short parser (plumber_step3_generic.py, plumber_step2_generic_test.py)
  // ---------------------------------------------------------------------------

  /** `_parse_pages_spec` of step 3: "all" and `None` give every page, an int one page,
      and any other text every page as well. */
  function PagesSimple(spec: PagesSpec, total: nat): seq<int> {
    if spec.NoSpec? || (spec.PageText? && AsciiLower(spec.t) == "all") then Range(0, total)
    else if spec.PageNum? then [Clamp(spec.p, total)]
    else Range(0, total)
  }

  /** What the short parser gives, case by case. */
  lemma PagesSimpleCases(spec: PagesSpec, total: nat)
    ensures !spec.PageNum? ==> PagesSimple(spec, total) == Range(0, total)
    ensures spec.PageNum? ==> PagesSimple(spec, total) == [Clamp(spec.p, total)]
    ensures forall x :: x in PagesSimple(spec, total) && total > 0 ==> 0 <= x < total
  {
    if total > 0 && spec.PageNum? {
      ClampInRange(spec.p, total);
    }
  }

  // ---------------------------------------------------------------------------
  // The full grammar (plumber_step1.py, plumber_step2_generic.py)
  // ---------------------------------------------------------------------------

  /** The position of the first `c` in `s`, or |s| when there is none. */
  function IndexOf(s: string, c: char): (k: nat)
    ensures k <= |s| && c !in s[..k]
    ensures k < |s| ==> s[k] == c
  {
    if s == [] then 0
    else if s[0] == c then 0
    else
      var k := 1 + IndexOf(s[1..], c);
      assert s[..k] == [s[0]] + s[1..][..k - 1];
      k
  }

  /** The comma-separated chunks of a text spec, each stripped (`str(pages).strip().lower()`). */
  function Chunks(t: string): (cs: seq<string>)
    ensures forall k :: 0 <= k < |cs| ==> Trimmed(cs[k])
  {
    var parts := Split(AsciiLower(Strip(t)), ',');
    seq(|parts|, k requires 0 <= k < |parts| => Strip(parts[k]))
  }

  /** Whether a text spec means every page. */
  predicate IsAll(t: string) {
    AsciiLower(Strip(t)) == "all"
  }

  /** The pages one chunk appends to `out` (before the final range filter). */
  function ChunkPages(chunk: string, total: int): seq<int> {
    var k := IndexOf(chunk, '-');
    if k < |chunk| then
      var a, b := chunk[..k], chunk[k + 1..];
      if IsDigits(a) && IsDigits(b) then
        var s0, e0 := Max1(DigitsValue(a)), Max1(DigitsValue(b));
        var start, end := if e0 < s0 then e0 else s0, if e0 < s0 then s0 else e0;
        Range(start - 1, if end < total then end else total)
      else []
    else if IsDigits(chunk) then
      var p := Max1(DigitsValue(chunk));
      [if p - 1 < total - 1 then p - 1 else total - 1]
    else []
  }

  function Max1(n: int): int {
    if n < 1 then 1 else n
  }

  /** The list `out` after every chunk has been read. */
  function PagesOut(chunks: seq<string>, total: int): seq<int> {
    if chunks == [] then []
    else PagesOut(chunks[..|chunks| - 1], total) + ChunkPages(chunks[|chunks| - 1], total)
  }

  /** `sorted(set(i for i in out if 0 <= i < n))` restricted to `range(n)`. */
  function Select(n: nat, out: seq<int>): (r: seq<int>)
    ensures forall k :: 0 <= k < |r| ==> 0 <= r[k] < n
    ensures Increasing(r)
    ensures forall x :: x in r <==> 0 <= x < n && x in out
  {
    if n == 0 then []
    else
      var r := Select(n - 1, out);
      if n - 1 in out then r + [n - 1] else r
  }

  /** What the full parser returns. */
  function FullPages(spec: PagesSpec, total: nat): seq<int> {
    match spec
    case NoSpec => Range(0, total)
    case PageNum(p) => [Clamp(p, total)]
    case PageText(t) =>
      if IsAll(t) then Range(0, total) else Select(total, PagesOut(Chunks(t), total))
  }

  /** `_parse_pages_spec` of step 1 and step 2. */
  method ParsePagesFull(spec: PagesSpec, total: nat) returns (r: seq<int>)
    ensures r == FullPages(spec, total)
  {
    if spec.NoSpec? {
      return Range(0, total);
    }
    if spec.PageNum? {
      return [Clamp(spec.p, total)];
    }
    if IsAll(spec.t) {
      return Range(0, total);
    }
    var out := CollectPages(Chunks(spec.t), total);
    r := SortedInRange(out, total);
  }

  /** The loop over the chunks: `out` is extended by what each chunk asks for. */
  method CollectPages(chunks: seq<string>, total: int) returns (out: seq<int>)
    ensures out == PagesOut(chunks, total)
  {
    out := [];
    var k := 0;
    while k < |chunks|
      invariant 0 <= k <= |chunks|
      invariant out == PagesOut(chunks[..k], total)
    {
      assert chunks[..k + 1][..k] == chunks[..k];
      out := out + ChunkPages(chunks[k], total);
      k := k + 1;
    }
    assert chunks[..k] == chunks;
  }

  /** `sorted(set(i for i in out if 0 <= i < total))`, by scanning the page range. */
  method SortedInRange(out: seq<int>, total: nat) returns (r: seq<int>)
    ensures r == Select(total, out)
  {
    r := [];
    var i := 0;
    while i < total
      invariant 0 <= i <= total
      invariant r == Select(i, out)
    {
      if i in out {
        r := r + [i];
      }
      i := i + 1;
    }
  }

  // ---------------------------------------------------------------------------
  // Properties of the full parser
  // ---------------------------------------------------------------------------

  lemma RangeIncreasing(lo: int, hi: int)
    ensures Increasing(Range(lo, hi))
  {
  }

  /** The result is sorted, duplicate-free and inside the document (for a non-empty document,
      when the spec is a page number). */
  lemma FullPagesWellFormed(spec: PagesSpec, total: nat)
    ensures Increasing(FullPages(spec, total))
    ensures !spec.PageNum? || total > 0 ==> forall x :: x in FullPages(spec, total) ==> 0 <= x < total
  {
    RangeIncreasing(0, total);
    if spec.PageNum? && total > 0 {
      ClampInRange(spec.p, total);
    }
  }

  /** For a list spec, a page is selected exactly when it lies in the document and some
      chunk asks for it. */
  predicate Asked(chunks: seq<string>, total: int, x: int) {
    exists k :: 0 <= k < |chunks| && x in ChunkPages(chunks[k], total)
  }

  lemma {:induction false} OutMembers(chunks: seq<string>, total: int, x: int)
    ensures x in PagesOut(chunks, total) <==> Asked(chunks, total, x)
    decreases |chunks|
  {
    if chunks != [] {
      var init, last := chunks[..|chunks| - 1], chunks[|chunks| - 1];
      assert init + [last] == chunks;
      assert PagesOut(chunks, total) == PagesOut(init, total) + ChunkPages(last, total);
      OutMembers(init, total, x);
      InConcat(PagesOut(init, total), ChunkPages(last, total), x);
      AskedSnoc(init, last, total, x);
    }
  }

  lemma InConcat(a: seq<int>, b: seq<int>, x: int)
    ensures x in a + b <==> x in a || x in b
  {
  }

  lemma AskedSnoc(init: seq<string>, last: string, total: int, x: int)
    ensures Asked(init + [last], total, x) <==> Asked(init, total, x) || x in ChunkPages(last, total)
  {
    var cs := init + [last];
    if Asked(init, total, x) {
      var k :| 0 <= k < |init| && x in ChunkPages(init[k], total);
      assert cs[k] == init[k];
    }
    if x in ChunkPages(last, total) {
      assert cs[|init|] == last;
    }
    if Asked(cs, total, x) {
      var k :| 0 <= k < |cs| && x in ChunkPages(cs[k], total);
      if k < |init| {
        assert cs[k] == init[k];
      }
    }
  }

  lemma FullPagesOfList(t: string, total: nat, x: int)
    requires !IsAll(t)
    ensures x in FullPages(PageText(t), total) <==>
      0 <= x < total && Asked(Chunks(t), total, x)
  {
    OutMembers(Chunks(t), total, x);
  }

  /** A reversed range `"b-a"` reads as `"a-b"`. */
  lemma ChunkSwapped(a: string, b: string, total: int)
    requires IsDigits(a) && IsDigits(b)
    ensures ChunkPages(a + "-" + b, total) == ChunkPages(b + "-" + a, total)
  {
    RangeChunk(a, b, total);
    RangeChunk(b, a, total);
  }

  /** How a chunk `"a-b"` of two digit strings reads: from the smaller bound to the larger,
      both at least 1, the upper one cut at the number of pages. */
  lemma RangeChunk(a: string, b: string, total: int)
    requires IsDigits(a) && IsDigits(b)
    ensures var lo := Max1(DigitsValue(a)); var hi := Max1(DigitsValue(b));
      var start := if hi < lo then hi else lo;
      var end := if hi < lo then lo else hi;
      ChunkPages(a + "-" + b, total) == Range(start - 1, if end < total then end else total)
  {
    DashAt(a, b);
  }

  /** In `a-b` with digit strings, the first dash is the one between them. */
  lemma DashAt(a: string, b: string)
    requires IsDigits(a) && IsDigits(b)
    ensures var c := a + "-" + b;
      IndexOf(c, '-') == |a| && c[..|a|] == a && c[|a| + 1..] == b
  {
    var c := a + "-" + b;
    assert '-' !in a;
    assert c[..|a|] == a && c[|a|] == '-';
    IndexOfAt(c, '-', |a|);
    assert c[|a| + 1..] == b;
  }

  lemma IndexOfAt(s: string, c: char, k: nat)
    requires k < |s| && s[k] == c && c !in s[..k]
    ensures IndexOf(s, c) == k
  {
  }

  /** A range never reaches past the last page. */
  lemma RangeChunkTruncated(a: string, b: string, total: int)
    requires IsDigits(a) && IsDigits(b)
    ensures forall x :: x in ChunkPages(a + "-" + b, total) ==> 0 <= x < total
  {
    RangeChunk(a, b, total);
  }

  /** A single page number: page 0 is page 1, and a page past the end is the last one. */
  lemma PageChunk(d: string, total: int)
    requires IsDigits(d)
    ensures |ChunkPages(d, total)| == 1
    ensures var p := DigitsValue(d);
      total > 0 ==> ChunkPages(d, total)[0] == if p == 0 then 0 else if p <= total then p - 1 else total - 1
  {
  }

  /** A chunk that is neither digits nor `digits-digits` asks for nothing. */
  lemma ChunkIgnored(chunk: string, total: int)
    requires chunk == [] || exists i :: 0 <= i < |chunk| && !IsDigit(chunk[i]) && chunk[i] != '-'
    ensures ChunkPages(chunk, total) == []
  {
    var k := IndexOf(chunk, '-');
    if k < |chunk| && IsDigits(chunk[..k]) && IsDigits(chunk[k + 1..]) {
      DigitsAround(chunk, k);
      assert false;
    }
  }

  /** `digits-digits` holds only digits and the dash. */
  lemma DigitsAround(chunk: string, k: nat)
    requires k < |chunk| && chunk[k] == '-'
    requires IsDigits(chunk[..k]) && IsDigits(chunk[k + 1..])
    ensures chunk != [] && forall i :: 0 <= i < |chunk| ==> IsDigit(chunk[i]) || chunk[i] == '-'
  {
    forall i | 0 <= i < |chunk| ensures IsDigit(chunk[i]) || chunk[i] == '-' {
      if i < k {
        assert chunk[i] == chunk[..k][i];
      } else if i > k {
        assert chunk[i] == chunk[k + 1..][i - k - 1];
      }
    }
  }

  /** The two parsers agree on what the short one understands. */
  lemma SimpleAgreesWithFull(spec: PagesSpec, total: nat)
    requires !spec.PageText? || IsAll(spec.t)
    ensures PagesSimple(spec, total) == FullPages(spec, total)
  {
  }
}
