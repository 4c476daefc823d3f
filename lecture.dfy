/**
 * lecture.py, the older one-shot script: over the lines of every page it picks
 * the supplier (the first configuration entry one of whose patterns occurs in a
 * single line), the delivery date, and one article per matching line of the
 * table that follows the table header. Loading the configuration, reading the
 * PDF and printing the data frame are not part of this model.
 */
module Lecture {
  import opened Wrappers
  import opened Strings
  import opened Values
  import opened Regex
  import opened Json
  import J = Json

  // ---------------------------------------------------------------------------
  // Supplier (lines 35-45)
  // ---------------------------------------------------------------------------

  /** `any(pattern in line for line in lines)`: a pattern that is not a string raises
      TypeError when it is first compared with a line. */
  function OnSomeLine(pat: Json, lines: seq<string>): Result<bool> {
    if lines == [] then Ok(false)
    else if !pat.JStr? then Err(TypeError)
    else Ok(exists i :: 0 <= i < |lines| && IsSubstring(pat.s, lines[i]))
  }

  /** `any(any(pattern in line for line in lines) for pattern in pats)`, which stops at the
      first pattern found. */
  function AnyPattern(pats: seq<Json>, lines: seq<string>): Result<bool>
    decreases |pats|
  {
    if pats == [] then Ok(false)
    else
      match OnSomeLine(pats[0], lines)
      case Err(e) => Err(e)
      case Ok(found) => if found then Ok(true) else AnyPattern(pats[1..], lines)
  }

  /** Whether the entry's `fournisseur_patterns` (default `[]`) claim the document. */
  function Claims(cfg: Json, lines: seq<string>): Result<bool> {
    match GetOr(cfg, "fournisseur_patterns", JArr([]))
    case Err(e) => Err(e)
    case Ok(ps) =>
      match Iter(ps)
      case Err(e) => Err(e)
      case Ok(pats) => AnyPattern(pats, lines)
  }

  /** The first claiming entry of the configuration, in its order. */
  function FirstClaim(entries: Dict<Json>, lines: seq<string>): Result<Option<(string, Json)>>
    decreases |entries|
  {
    if entries == [] then Ok(None)
    else
      match Claims(entries[0].1, lines)
      case Err(e) => Err(e)
      case Ok(c) => if c then Ok(Some(entries[0])) else FirstClaim(entries[1..], lines)
  }

  const NoSupplier: Error := ValueError("Aucun fournisseur reconnu dans ce BL.")

  /** The selected supplier name and configuration, or the ValueError of the script. */
  function SelectSupplier(configs: Json, lines: seq<string>): Result<(string, Json)> {
    if !configs.JObj? then Err(AttributeError)
    else
      match FirstClaim(configs.fields, lines)
      case Err(e) => Err(e)
      case Ok(None) => Err(NoSupplier)
      case Ok(Some(sel)) => if !JTruthy(sel.1) then Err(NoSupplier) else Ok(sel)
  }

  // ---------------------------------------------------------------------------
  // Date (lines 47-54)
  // ---------------------------------------------------------------------------

  /** `match.group(1).strip()` for the date match: a missing group raises IndexError, a
      group that did not take part AttributeError. */
  function DateOf(m: Match): Result<Option<string>> {
    match GroupAt(m, 1)
    case Err(e) => Err(e)
    case Ok(None) => Err(AttributeError)
    case Ok(Some(g)) => Ok(Some(Strip(g)))
  }

  /** The date of the first line holding `date_pattern` on which `date_regex` is found;
      None when there is no such line. */
  function DateFrom(eng: Engine, cfg: Json, lines: seq<string>): Result<Option<string>>
    decreases |lines|
  {
    if lines == [] then Ok(None)
    else
      match J.Index(cfg, "date_pattern")
      case Err(e) => Err(e)
      case Ok(dp) =>
        if !dp.JStr? then Err(TypeError)
        else if !IsSubstring(dp.s, lines[0]) then DateFrom(eng, cfg, lines[1..])
        else
          match J.Index(cfg, "date_regex")
          case Err(e) => Err(e)
          case Ok(dr) =>
            if !dr.JStr? then Err(TypeError)
            else
              match eng.reSearch(Pattern(dr.s, false), lines[0])
              case None => DateFrom(eng, cfg, lines[1..])
              case Some(m) => DateOf(m)
  }

  // ---------------------------------------------------------------------------
  // One article (lines 76-145)
  // ---------------------------------------------------------------------------

  /** An article row. The quantity is the text handed to `float`. */
  datatype Article = Article(supplier: string, date: Option<string>, purchaseOrder: Option<string>,
                             codeArticle: Option<string>, description: Option<string>,
                             quantityText: Option<string>)

  /** `key in fields` for whatever `fields` holds. */
  function Has(fields: Json, key: string): Result<bool> {
    match fields
    case JObj(fs) => Ok(key in Keys(fs))
    case JArr(xs) => Ok(JStr(key) in xs)
    case JStr(s) => Ok(IsSubstring(key, s))
    case _ => Err(TypeError)
  }

  /** `data[k]` with Python's negative indices. */
  function PyIndex(data: seq<Option<string>>, k: int): (r: Result<Option<string>>)
    ensures r.Ok? <==> -|data| <= k < |data|
    ensures 0 <= k < |data| ==> r == Ok(data[k])
    ensures -|data| <= k < 0 ==> r == Ok(data[|data| + k])
  {
    if 0 <= k < |data| then Ok(data[k])
    else if -|data| <= k < 0 then Ok(data[|data| + k])
    else Err(IndexError)
  }

  /** `data[fields[key] - 1]`: the configured group number counts from 1; a `bool` counts
      as 0 or 1, any other non-integer raises TypeError. */
  function Cell(data: seq<Option<string>>, fields: Json, key: string): Result<Option<string>> {
    match J.Index(fields, key)
    case Err(e) => Err(e)
    case Ok(n) =>
      match n
      case JInt(k) => PyIndex(data, k - 1)
      case JBool(b) => PyIndex(data, if b then 0 else -1)
      case _ => Err(TypeError)
  }

  /** `data[fields[key] - 1] if key in fields else None`. */
  function Column(data: seq<Option<string>>, fields: Json, key: string): Result<Option<string>> {
    match Has(fields, key)
    case Err(e) => Err(e)
    case Ok(h) => if h then Cell(data, fields, key) else Ok(None)
  }

  /** The quantity text: dots removed, the comma made a dot, spaces removed. */
  function QuantityText(data: seq<Option<string>>, fields: Json): Result<Option<string>> {
    match Has(fields, "quantite")
    case Err(e) => Err(e)
    case Ok(h) =>
      if !h then Ok(None)
      else
        match Cell(data, fields, "quantite")
        case Err(e) => Err(e)
        case Ok(None) => Err(AttributeError)
        case Ok(Some(g)) => Ok(Some(RemoveChar(ReplaceChar(RemoveChar(g, '.'), ',', '.'), ' ')))
  }

  /** `cfg.get(key, default)` on the selected configuration. */
  function Get(cfg: Json, key: string, default: Json): Json {
    match GetOr(cfg, key, default)
    case Ok(v) => v
    case Err(_) => default
  }

  /** The line starts the description lookahead does not take. */
  const Prefixes: seq<string> := ["Manufacturer:", "Customs Tariff", "Your order no.", "Linden order",
                                  "Subtotal", "INVOICE", "page", "Pos."]

  /** `any(t.startswith(p) for p in ps)`. */
  predicate StartsWithAny(t: string, ps: seq<string>) {
    ps != [] && (StartsWith(t, ps[0]) || StartsWithAny(t, ps[1..]))
  }

  predicate Prefixed(t: string) {
    StartsWithAny(t, Prefixes)
  }

  /** Line `i + k` can serve as the description: it exists, is not blank once stripped and
      does not start with a listed prefix. */
  predicate Describes(lines: seq<string>, i: nat, k: nat) {
    i + k < |lines| && Strip(lines[i + k]) != "" && !Prefixed(Strip(lines[i + k]))
  }

  /** What line `i + k` offers as a description: its stripped text, when it describes. */
  function CandidateAt(lines: seq<string>, i: nat): nat -> Option<string> {
    (k: nat) => if Describes(lines, i, k) then Some(Strip(lines[i + k])) else None
  }

  lemma CandidateAtIs(lines: seq<string>, i: nat, k: nat)
    ensures CandidateAt(lines, i)(k) == if Describes(lines, i, k) then Some(Strip(lines[i + k])) else None
  {
  }

  /** The first of `f(k), ..., f(n)` that holds something. */
  function FirstSome(f: nat -> Option<string>, k: nat, n: int): Option<string>
    decreases n + 1 - k
  {
    if k > n then None
    else if f(k).Some? then f(k)
    else FirstSome(f, k + 1, n)
  }

  /** The stripped text of the first describing line among `i + k .. i + n`. */
  function FallbackFrom(lines: seq<string>, i: nat, k: nat, n: int): Option<string> {
    FirstSome(CandidateAt(lines, i), k, n)
  }

  /** The description after the lookahead: only an empty description with a positive
      `description_fallback_lines` is looked for; comparing anything else than a number
      with 0 raises TypeError. */
  function Describe(cfg: Json, lines: seq<string>, i: nat, desc: Option<string>): Result<Option<string>> {
    if !(desc.None? || desc.value == "") then Ok(desc)
    else
      var n: Result<int> :=
        match Get(cfg, "description_fallback_lines", JInt(0))
        case JInt(n) => Ok(n)
        case JBool(b) => Ok(if b then 1 else 0)
        case _ => Err(TypeError);
      match n
      case Err(e) => Err(e)
      case Ok(n) =>
        if n <= 0 then Ok(desc)
        else
          match FallbackFrom(lines, i, 1, n)
          case None => Ok(desc)
          case Some(t) => Ok(Some(t))
  }

  /** `m_po.group(1)` when the order regex is found on the line, else None. */
  function OrderOn(eng: Engine, poRegex: string, line: string): Result<Option<string>> {
    match eng.reSearch(Pattern(poRegex, false), line)
    case None => Ok(None)
    case Some(m) => GroupAt(m, 1)
  }

  /** The order lookahead from line `i + j` on, up to `i + 10`: the first line holding the
      pattern decides. */
  function OrderFrom(eng: Engine, lines: seq<string>, i: nat, j: nat, pp: Json, pr: Json): Result<Option<string>>
    decreases 11 - j
  {
    if j > 10 then Ok(None)
    else if i + j >= |lines| then OrderFrom(eng, lines, i, j + 1, pp, pr)
    else if !pp.JStr? then Err(TypeError)
    else if !IsSubstring(pp.s, lines[i + j]) then OrderFrom(eng, lines, i, j + 1, pp, pr)
    else if !pr.JStr? then Err(TypeError)
    else OrderOn(eng, pr.s, lines[i + j])
  }

  /** The purchase order: the lookahead when both the pattern and the regex are set, else
      a direct `fields` mapping to an integer group number, else None. */
  function PurchaseOrder(eng: Engine, cfg: Json, fields: Json, lines: seq<string>, i: nat,
                         data: seq<Option<string>>): Result<Option<string>> {
    var pp := Get(cfg, "purchase_order_pattern", JNull);
    var pr := Get(cfg, "purchase_order_regex", JNull);
    if JTruthy(pp) && JTruthy(pr) then OrderFrom(eng, lines, i, 1, pp, pr)
    else
      match Has(fields, "purchase_order")
      case Err(e) => Err(e)
      case Ok(h) =>
        if !h then Ok(None)
        else
          match J.Index(fields, "purchase_order")
          case Err(e) => Err(e)
          case Ok(n) => if n.JInt? || n.JBool? then Cell(data, fields, "purchase_order") else Ok(None)
  }

  /** `code_article` after the dedicated regex: replaced by group 1 of its search in a
      non-empty description. */
  function CodeOf(eng: Engine, codeRe: Json, desc: Option<string>, code: Option<string>): Result<Option<string>> {
    if JTruthy(codeRe) && desc.Some? && desc.value != "" then
      if !codeRe.JStr? then Err(TypeError)
      else
        match eng.reSearch(Pattern(codeRe.s, false), desc.value)
        case None => Ok(code)
        case Some(m) => GroupAt(m, 1)
    else Ok(code)
  }

  /** The settings read before the table loop (lines 59-62). */
  datatype TableSetup = TableSetup(header: Json, line: Json, fields: Json, codeRe: Json)

  function ReadTableSetup(cfg: Json): Result<TableSetup> {
    match J.Index(cfg, "tableau_entete")
    case Err(e) => Err(e)
    case Ok(h) =>
      match J.Index(cfg, "ligne_regex")
      case Err(e) => Err(e)
      case Ok(l) =>
        match J.Index(cfg, "fields")
        case Err(e) => Err(e)
        case Ok(f) => Ok(TableSetup(h, l, f, Get(cfg, "code_article_regex", JNull)))
  }

  /** `match.groups()`. */
  function Data(m: Match): (data: seq<Option<string>>)
    ensures |data| == |m.groups| && forall k :: 0 <= k < |data| ==> data[k] == m.groups[k].value
  {
    seq(|m.groups|, k requires 0 <= k < |m.groups| => m.groups[k].value)
  }

  /** The article of the item line `i` whose match has groups `data`. */
  function BuildArticle(eng: Engine, name: string, date: Option<string>, cfg: Json, ts: TableSetup,
                        lines: seq<string>, i: nat, data: seq<Option<string>>): Result<Article> {
    match QuantityText(data, ts.fields)
    case Err(e) => Err(e)
    case Ok(qty) =>
      match Column(data, ts.fields, "code_article")
      case Err(e) => Err(e)
      case Ok(code) =>
        match Column(data, ts.fields, "description")
        case Err(e) => Err(e)
        case Ok(desc0) =>
          match Describe(cfg, lines, i, desc0)
          case Err(e) => Err(e)
          case Ok(desc) =>
            match PurchaseOrder(eng, cfg, ts.fields, lines, i, data)
            case Err(e) => Err(e)
            case Ok(po) =>
              match CodeOf(eng, ts.codeRe, desc, code)
              case Err(e) => Err(e)
              case Ok(code2) => Ok(Article(name, date, po, code2, desc, qty))
  }

  // ---------------------------------------------------------------------------
  // The table loop (lines 64-145)
  // ---------------------------------------------------------------------------

  /** The articles of lines `i..`, `started` telling whether a header line came before. */
  function ArticlesFrom(eng: Engine, name: string, date: Option<string>, cfg: Json, ts: TableSetup,
                        lines: seq<string>, i: nat, started: bool): Result<seq<Article>>
    decreases |lines| - i
  {
    if i >= |lines| then Ok([])
    else if !ts.header.JStr? then Err(TypeError)
    else if IsSubstring(ts.header.s, lines[i]) then ArticlesFrom(eng, name, date, cfg, ts, lines, i + 1, true)
    else if !started || Strip(lines[i]) == "" then ArticlesFrom(eng, name, date, cfg, ts, lines, i + 1, started)
    else if !ts.line.JStr? then Err(TypeError)
    else
      match eng.reMatch(Pattern(ts.line.s, false), lines[i])
      case None => ArticlesFrom(eng, name, date, cfg, ts, lines, i + 1, started)
      case Some(m) =>
        match BuildArticle(eng, name, date, cfg, ts, lines, i, Data(m))
        case Err(e) => Err(e)
        case Ok(a) => Prepend([a], ArticlesFrom(eng, name, date, cfg, ts, lines, i + 1, started))
  }

  /** What the script gathers: the supplier, the date and the articles. */
  datatype Report = Report(supplier: string, date: Option<string>, articles: seq<Article>)

  function Lecture(eng: Engine, configs: Json, lines: seq<string>): Result<Report> {
    match SelectSupplier(configs, lines)
    case Err(e) => Err(e)
    case Ok(sel) =>
      match DateFrom(eng, sel.1, lines)
      case Err(e) => Err(e)
      case Ok(date) =>
        match ReadTableSetup(sel.1)
        case Err(e) => Err(e)
        case Ok(ts) =>
          match ArticlesFrom(eng, sel.0, date, sel.1, ts, lines, 0, false)
          case Err(e) => Err(e)
          case Ok(arts) => Ok(Report(sel.0, date, arts))
  }

  // ---------------------------------------------------------------------------
  // The script's loops
  // ---------------------------------------------------------------------------

  /** The inner `any`: the lines are tried in order. */
  method LineHas(pat: Json, lines: seq<string>) returns (r: Result<bool>)
    ensures r == OnSomeLine(pat, lines)
  {
    var i := 0;
    while i < |lines|
      invariant 0 <= i <= |lines|
      invariant i > 0 ==> pat.JStr?
      invariant forall j :: 0 <= j < i ==> pat.JStr? && !IsSubstring(pat.s, lines[j])
    {
      if !pat.JStr? {
        return Err(TypeError);
      }
      if IsSubstring(pat.s, lines[i]) {
        assert 0 <= i < |lines| && IsSubstring(pat.s, lines[i]);
        return Ok(true);
      }
      i := i + 1;
    }
    r := Ok(false);
  }

  /** The outer `any`: the patterns are tried in order. */
  method PatternsHit(pats: seq<Json>, lines: seq<string>) returns (r: Result<bool>)
    ensures r == AnyPattern(pats, lines)
  {
    var k := 0;
    assert pats[0..] == pats;
    while k < |pats|
      invariant 0 <= k <= |pats|
      invariant AnyPattern(pats, lines) == AnyPattern(pats[k..], lines)
    {
      assert pats[k..][0] == pats[k] && pats[k..][1..] == pats[k + 1..];
      var hit := LineHas(pats[k], lines);
      if hit.Err? {
        return Err(hit.error);
      }
      if hit.value {
        return Ok(true);
      }
      k := k + 1;
    }
    r := Ok(false);
  }

  /** The supplier loop, with its `break` at the first claiming entry. */
  method DetectConfig(configs: Json, lines: seq<string>) returns (r: Result<(string, Json)>)
    ensures r == SelectSupplier(configs, lines)
  {
    if !configs.JObj? {
      return Err(AttributeError);
    }
    var entries := configs.fields;
    var selected: Option<(string, Json)> := None;
    var k := 0;
    assert entries[0..] == entries;
    while k < |entries|
      invariant 0 <= k <= |entries|
      invariant FirstClaim(configs.fields, lines) == FirstClaim(entries[k..], lines)
    {
      assert entries[k..][0] == entries[k] && entries[k..][1..] == entries[k + 1..];
      var cfg := entries[k].1;
      var ps := GetOr(cfg, "fournisseur_patterns", JArr([]));
      if ps.Err? {
        return Err(ps.error);
      }
      var pats := Iter(ps.value);
      if pats.Err? {
        return Err(pats.error);
      }
      var hit := PatternsHit(pats.value, lines);
      if hit.Err? {
        return Err(hit.error);
      }
      if hit.value {
        selected := Some(entries[k]);
        break;
      }
      k := k + 1;
    }
    if selected.None? || !JTruthy(selected.value.1) {
      return Err(NoSupplier);
    }
    r := Ok(selected.value);
  }

  /** The date loop, with its `break` at the first date found. */
  method FindDate(eng: Engine, cfg: Json, lines: seq<string>) returns (r: Result<Option<string>>)
    ensures r == DateFrom(eng, cfg, lines)
  {
    var i := 0;
    assert lines[0..] == lines;
    while i < |lines|
      invariant 0 <= i <= |lines|
      invariant DateFrom(eng, cfg, lines) == DateFrom(eng, cfg, lines[i..])
    {
      assert lines[i..][0] == lines[i] && lines[i..][1..] == lines[i + 1..];
      var dp := J.Index(cfg, "date_pattern");
      if dp.Err? {
        return Err(dp.error);
      }
      if !dp.value.JStr? {
        return Err(TypeError);
      }
      if IsSubstring(dp.value.s, lines[i]) {
        var dr := J.Index(cfg, "date_regex");
        if dr.Err? {
          return Err(dr.error);
        }
        if !dr.value.JStr? {
          return Err(TypeError);
        }
        var m := eng.reSearch(Pattern(dr.value.s, false), lines[i]);
        if m.Some? {
          return DateOf(m.value);
        }
      }
      i := i + 1;
    }
    r := Ok(None);
  }

  /** `for k in range(1, n + 1)` of the description lookahead. */
  method FallbackLine(lines: seq<string>, i: nat, n: int) returns (r: Option<string>)
    ensures r == FallbackFrom(lines, i, 1, n)
  {
    var k := 1;
    while k <= n
      invariant 1 <= k
      invariant FallbackFrom(lines, i, 1, n) == FallbackFrom(lines, i, k, n)
      decreases n + 1 - k
    {
      FallbackStep(lines, i, k, n);
      if i + k < |lines| {
        var next := Strip(lines[i + k]);
        if next != "" && !Prefixed(next) {
          return Some(next);
        }
      }
      k := k + 1;
    }
    r := None;
  }

  /** One line of the description lookahead. */
  lemma FallbackStep(lines: seq<string>, i: nat, k: nat, n: int)
    requires k <= n
    ensures FallbackFrom(lines, i, k, n) ==
      if Describes(lines, i, k) then Some(Strip(lines[i + k])) else FallbackFrom(lines, i, k + 1, n)
  {
    CandidateAtIs(lines, i, k);
  }

  /** `for j in range(1, 11)` of the purchase-order lookahead. */
  method OrderLookahead(eng: Engine, lines: seq<string>, i: nat, pp: Json, pr: Json) returns (r: Result<Option<string>>)
    ensures r == OrderFrom(eng, lines, i, 1, pp, pr)
  {
    var j := 1;
    while j <= 10
      invariant 1 <= j <= 11
      invariant OrderFrom(eng, lines, i, 1, pp, pr) == OrderFrom(eng, lines, i, j, pp, pr)
    {
      if i + j < |lines| {
        if !pp.JStr? {
          return Err(TypeError);
        }
        if IsSubstring(pp.s, lines[i + j]) {
          if !pr.JStr? {
            return Err(TypeError);
          }
          return OrderOn(eng, pr.s, lines[i + j]);
        }
      }
      j := j + 1;
    }
    r := Ok(None);
  }

  /** The body of the table loop for an item line: quantity, code, description and its
      lookahead, purchase order and its lookahead, code regex. */
  method MakeArticle(eng: Engine, name: string, date: Option<string>, cfg: Json, ts: TableSetup,
                     lines: seq<string>, i: nat, data: seq<Option<string>>) returns (r: Result<Article>)
    ensures r == BuildArticle(eng, name, date, cfg, ts, lines, i, data)
  {
    var qty := QuantityText(data, ts.fields);
    if qty.Err? {
      return Err(qty.error);
    }
    var code := Column(data, ts.fields, "code_article");
    if code.Err? {
      return Err(code.error);
    }
    var desc0 := Column(data, ts.fields, "description");
    if desc0.Err? {
      return Err(desc0.error);
    }
    var described := DescribeLine(cfg, lines, i, desc0.value);
    if described.Err? {
      return Err(described.error);
    }
    var desc := described.value;
    var pp := Get(cfg, "purchase_order_pattern", JNull);
    var pr := Get(cfg, "purchase_order_regex", JNull);
    var po: Result<Option<string>>;
    if JTruthy(pp) && JTruthy(pr) {
      po := OrderLookahead(eng, lines, i, pp, pr);
    } else {
      po := PurchaseOrder(eng, cfg, ts.fields, lines, i, data);
    }
    assert po == PurchaseOrder(eng, cfg, ts.fields, lines, i, data);
    if po.Err? {
      return Err(po.error);
    }
    var code2 := CodeOf(eng, ts.codeRe, desc, code.value);
    if code2.Err? {
      return Err(code2.error);
    }
    r := Ok(Article(name, date, po.value, code2.value, desc, qty.value));
  }

  /** The description of an item line: an empty one is looked for on the following
      `description_fallback_lines` lines. */
  method DescribeLine(cfg: Json, lines: seq<string>, i: nat, desc0: Option<string>) returns (r: Result<Option<string>>)
    ensures r == Describe(cfg, lines, i, desc0)
  {
    var desc := desc0;
    if desc.None? || desc.value == "" {
      var fb := Get(cfg, "description_fallback_lines", JInt(0));
      var n: int;
      if fb.JInt? {
        n := fb.n;
      } else if fb.JBool? {
        n := if fb.b then 1 else 0;
      } else {
        return Err(TypeError);
      }
      if n > 0 {
        var t := FallbackLine(lines, i, n);
        if t.Some? {
          desc := t;
        }
      }
    }
    r := Ok(desc);
  }

  /** The table loop: `tableau_started` set at a header line, blank and unmatched lines
      skipped, one article appended per item line. */
  method ScanTable(eng: Engine, name: string, date: Option<string>, cfg: Json, ts: TableSetup,
                   lines: seq<string>) returns (r: Result<seq<Article>>)
    ensures r == ArticlesFrom(eng, name, date, cfg, ts, lines, 0, false)
  {
    var articles: seq<Article> := [];
    var started := false;
    var i := 0;
    PrependNothing(ArticlesFrom(eng, name, date, cfg, ts, lines, 0, false));
    while i < |lines|
      invariant 0 <= i <= |lines|
      invariant ArticlesFrom(eng, name, date, cfg, ts, lines, 0, false)
        == Prepend(articles, ArticlesFrom(eng, name, date, cfg, ts, lines, i, started))
    {
      var line := lines[i];
      if !ts.header.JStr? {
        return Err(TypeError);
      }
      if IsSubstring(ts.header.s, line) {
        started := true;
      } else if started && Strip(line) != "" {
        if !ts.line.JStr? {
          return Err(TypeError);
        }
        var m := eng.reMatch(Pattern(ts.line.s, false), line);
        if m.Some? {
          var a := MakeArticle(eng, name, date, cfg, ts, lines, i, Data(m.value));
          if a.Err? {
            return Err(a.error);
          }
          ArticleStep(articles, a.value, ArticlesFrom(eng, name, date, cfg, ts, lines, i + 1, started));
          articles := articles + [a.value];
        }
      }
      i := i + 1;
    }
    assert articles + [] == articles;
    r := Ok(articles);
  }

  lemma ArticleStep(done: seq<Article>, a: Article, rest: Result<seq<Article>>)
    ensures Prepend(done, Prepend([a], rest)) == Prepend(done + [a], rest)
  {
    if rest.Ok? {
      assert done + ([a] + rest.value) == (done + [a]) + rest.value;
    }
  }

  /** The whole script over the lines of the document. */
  method Run(eng: Engine, configs: Json, lines: seq<string>) returns (r: Result<Report>)
    ensures r == Lecture(eng, configs, lines)
  {
    var sel := DetectConfig(configs, lines);
    if sel.Err? {
      return Err(sel.error);
    }
    var date := FindDate(eng, sel.value.1, lines);
    if date.Err? {
      return Err(date.error);
    }
    var ts := ReadTableSetup(sel.value.1);
    if ts.Err? {
      return Err(ts.error);
    }
    var arts := ScanTable(eng, sel.value.0, date.value, sel.value.1, ts.value, lines);
    if arts.Err? {
      return Err(arts.error);
    }
    r := Ok(Report(sel.value.0, date.value, arts.value));
  }

  // ---------------------------------------------------------------------------
  // Properties: the supplier
  // ---------------------------------------------------------------------------

  /** A claim needs a string pattern occurring in a single line; when every pattern is a
      string, that is also enough. */
  lemma {:induction false} AnyPatternMeaning(pats: seq<Json>, lines: seq<string>)
    ensures AnyPattern(pats, lines) == Ok(true) ==>
      exists p, i :: 0 <= p < |pats| && 0 <= i < |lines| && pats[p].JStr? && IsSubstring(pats[p].s, lines[i])
    ensures (forall p :: 0 <= p < |pats| ==> pats[p].JStr?) ==>
      AnyPattern(pats, lines) == Ok(exists p, i :: 0 <= p < |pats| && 0 <= i < |lines| && IsSubstring(pats[p].s, lines[i]))
    decreases |pats|
  {
    if pats != [] {
      AnyPatternMeaning(pats[1..], lines);
      assert forall p :: 1 <= p < |pats| ==> pats[p] == pats[1..][p - 1];
      if AnyPattern(pats[1..], lines) == Ok(true) && OnSomeLine(pats[0], lines) == Ok(false) {
        var p, i :| 0 <= p < |pats[1..]| && 0 <= i < |lines| && pats[1..][p].JStr? && IsSubstring(pats[1..][p].s, lines[i]);
        assert pats[p + 1] == pats[1..][p];
      }
      if forall p :: 0 <= p < |pats| ==> pats[p].JStr? {
        if lines != [] && OnSomeLine(pats[0], lines) == Ok(false) {
          assert (exists p, i :: 0 <= p < |pats| && 0 <= i < |lines| && IsSubstring(pats[p].s, lines[i]))
            <==> (exists p, i :: 0 <= p < |pats[1..]| && 0 <= i < |lines| && IsSubstring(pats[1..][p].s, lines[i])) by {
            forall p, i | 0 <= p < |pats| && 0 <= i < |lines| && IsSubstring(pats[p].s, lines[i])
              ensures exists p, i :: 0 <= p < |pats[1..]| && 0 <= i < |lines| && IsSubstring(pats[1..][p].s, lines[i])
            {
              assert p != 0;
              assert pats[1..][p - 1] == pats[p];
            }
          }
        }
      }
    }
  }

  /** A claiming entry is a non-empty dict, so the script's `if not selected_config` never
      raises once an entry is selected. */
  lemma ClaimIsTruthy(cfg: Json, lines: seq<string>)
    requires Claims(cfg, lines) == Ok(true)
    ensures cfg.JObj? && JTruthy(cfg)
  {
    var ps := GetOr(cfg, "fournisseur_patterns", JArr([])).value;
    if "fournisseur_patterns" !in Keys(cfg.fields) {
      assert ps == JArr([]);
      assert AnyPattern([], lines) == Ok(false);
    }
  }

  /** The selected supplier is the first configuration entry, in declaration order, that
      claims the document; the entries before it do not. */
  lemma {:induction false} FirstClaimFirst(entries: Dict<Json>, lines: seq<string>) returns (k: nat)
    requires FirstClaim(entries, lines).Ok? && FirstClaim(entries, lines).value.Some?
    ensures k < |entries| && FirstClaim(entries, lines).value.value == entries[k]
    ensures Claims(entries[k].1, lines) == Ok(true)
    ensures forall j :: 0 <= j < k ==> Claims(entries[j].1, lines) == Ok(false)
    decreases |entries|
  {
    if Claims(entries[0].1, lines) == Ok(true) {
      k := 0;
    } else {
      var k1 := FirstClaimFirst(entries[1..], lines);
      k := k1 + 1;
      assert forall j :: 1 <= j < |entries| ==> entries[j] == entries[1..][j - 1];
    }
  }

  lemma SelectSupplierFirst(configs: Json, lines: seq<string>) returns (k: nat)
    requires SelectSupplier(configs, lines).Ok?
    ensures configs.JObj? && k < |configs.fields|
    ensures SelectSupplier(configs, lines).value == configs.fields[k]
    ensures Claims(configs.fields[k].1, lines) == Ok(true)
    ensures forall j :: 0 <= j < k ==> Claims(configs.fields[j].1, lines) == Ok(false)
  {
    k := FirstClaimFirst(configs.fields, lines);
  }

  /** No entry claiming the document raises the ValueError; the first claiming entry is
      always the one selected. */
  lemma {:induction false} NoClaimRaises(entries: Dict<Json>, lines: seq<string>)
    requires forall j :: 0 <= j < |entries| ==> Claims(entries[j].1, lines) == Ok(false)
    ensures FirstClaim(entries, lines) == Ok(None)
    ensures SelectSupplier(JObj(entries), lines) == Err(NoSupplier)
    decreases |entries|
  {
    if entries != [] {
      assert forall j :: 1 <= j < |entries| ==> entries[j] == entries[1..][j - 1];
      NoClaimRaises(entries[1..], lines);
    }
  }

  lemma {:induction false} FirstClaimSelected(entries: Dict<Json>, lines: seq<string>, k: nat)
    requires k < |entries| && Claims(entries[k].1, lines) == Ok(true)
    requires forall j :: 0 <= j < k ==> Claims(entries[j].1, lines) == Ok(false)
    ensures FirstClaim(entries, lines) == Ok(Some(entries[k]))
    ensures SelectSupplier(JObj(entries), lines) == Ok(entries[k])
    decreases k
  {
    ClaimIsTruthy(entries[k].1, lines);
    if k > 0 {
      assert forall j :: 1 <= j < |entries| ==> entries[j] == entries[1..][j - 1];
      FirstClaimSelected(entries[1..], lines, k - 1);
    }
  }

  // ---------------------------------------------------------------------------
  // Properties: the date
  // ---------------------------------------------------------------------------

  /** The line holds `date_pattern` and `date_regex` is found on it. */
  predicate DateHit(eng: Engine, dp: string, dr: string, line: string) {
    IsSubstring(dp, line) && eng.reSearch(Pattern(dr, false), line).Some?
  }

  /** The date comes from the first line holding the pattern on which the regex is found:
      lines holding the pattern where the regex fails are passed over. */
  lemma DateFirst(eng: Engine, cfg: Json, dp: string, dr: string, lines: seq<string>, i: nat)
    requires cfg.JObj? && Lookup(cfg.fields, "date_pattern") == Some(JStr(dp)) && Lookup(cfg.fields, "date_regex") == Some(JStr(dr))
    requires i < |lines| && DateHit(eng, dp, dr, lines[i])
    requires forall j :: 0 <= j < i ==> !DateHit(eng, dp, dr, lines[j])
    ensures DateFrom(eng, cfg, lines) == DateOf(eng.reSearch(Pattern(dr, false), lines[i]).value)
  {
    DateSkipTo(eng, cfg, dp, dr, lines, i);
    DateStep(eng, cfg, dp, dr, lines[i..]);
    assert lines[i..][0] == lines[i];
  }

  /** Lines before the first hit are passed over. */
  lemma {:induction false} DateSkipTo(eng: Engine, cfg: Json, dp: string, dr: string, lines: seq<string>, i: nat)
    requires cfg.JObj? && Lookup(cfg.fields, "date_pattern") == Some(JStr(dp)) && Lookup(cfg.fields, "date_regex") == Some(JStr(dr))
    requires i <= |lines|
    requires forall j :: 0 <= j < i ==> !DateHit(eng, dp, dr, lines[j])
    ensures DateFrom(eng, cfg, lines) == DateFrom(eng, cfg, lines[i..])
    decreases i
  {
    if i > 0 {
      DateSkipTo(eng, cfg, dp, dr, lines, i - 1);
      var tail := lines[i - 1..];
      DateStep(eng, cfg, dp, dr, tail);
      assert tail[0] == lines[i - 1] && !DateHit(eng, dp, dr, tail[0]);
      assert tail[1..] == lines[i..];
    }
  }

  /** No line holding the pattern on which the regex is found: no date. */
  lemma {:induction false} DateNone(eng: Engine, cfg: Json, dp: string, dr: string, lines: seq<string>)
    requires cfg.JObj? && Lookup(cfg.fields, "date_pattern") == Some(JStr(dp)) && Lookup(cfg.fields, "date_regex") == Some(JStr(dr))
    requires forall j :: 0 <= j < |lines| ==> !DateHit(eng, dp, dr, lines[j])
    ensures DateFrom(eng, cfg, lines) == Ok(None)
    decreases |lines|
  {
    if lines != [] {
      DateStep(eng, cfg, dp, dr, lines);
      assert !DateHit(eng, dp, dr, lines[0]);
      assert forall j :: 0 <= j < |lines| - 1 ==> lines[1..][j] == lines[j + 1];
      DateNone(eng, cfg, dp, dr, lines[1..]);
    }
  }

  /** One line of the date search, for string settings. */
  lemma DateStep(eng: Engine, cfg: Json, dp: string, dr: string, lines: seq<string>)
    requires cfg.JObj? && Lookup(cfg.fields, "date_pattern") == Some(JStr(dp)) && Lookup(cfg.fields, "date_regex") == Some(JStr(dr))
    requires lines != []
    ensures DateFrom(eng, cfg, lines) ==
      if DateHit(eng, dp, dr, lines[0]) then DateOf(eng.reSearch(Pattern(dr, false), lines[0]).value)
      else DateFrom(eng, cfg, lines[1..])
  {
    assert J.Index(cfg, "date_pattern") == Ok(JStr(dp));
    assert J.Index(cfg, "date_regex") == Ok(JStr(dr));
  }

  // ---------------------------------------------------------------------------
  // Properties: the table section
  // ---------------------------------------------------------------------------

  /** Some line before line `j` holds the header. */
  predicate AfterHeader(h: string, lines: seq<string>, j: nat) {
    exists k :: 0 <= k < j && k < |lines| && IsSubstring(h, lines[k])
  }

  /** Line `j` is an item line: it comes after a header line, is not one itself, is not
      blank and matches the line regex at its start. */
  predicate ItemLine(eng: Engine, h: string, l: string, lines: seq<string>, j: nat) {
    && j < |lines| && AfterHeader(h, lines, j) && !IsSubstring(h, lines[j])
    && Strip(lines[j]) != "" && eng.reMatch(Pattern(l, false), lines[j]).Some?
  }

  /** The item lines from `i` on, in order: the reference the table loop is compared with. */
  function ItemIndices(eng: Engine, h: string, l: string, lines: seq<string>, i: nat, started: bool): seq<nat>
    decreases |lines| - i
  {
    if i >= |lines| then []
    else if IsSubstring(h, lines[i]) then ItemIndices(eng, h, l, lines, i + 1, true)
    else if started && Strip(lines[i]) != "" && eng.reMatch(Pattern(l, false), lines[i]).Some? then
      [i] + ItemIndices(eng, h, l, lines, i + 1, started)
    else ItemIndices(eng, h, l, lines, i + 1, started)
  }

  lemma AfterHeaderStep(h: string, lines: seq<string>, i: nat)
    requires i < |lines|
    ensures AfterHeader(h, lines, i + 1) <==> AfterHeader(h, lines, i) || IsSubstring(h, lines[i])
  {
    if AfterHeader(h, lines, i + 1) && !IsSubstring(h, lines[i]) {
      var k :| 0 <= k < i + 1 && k < |lines| && IsSubstring(h, lines[k]);
      assert k < i;
    }
  }

  /** One step of the loop, when `started` tells the truth: line `i` is listed exactly when
      it is an item line, and the flag stays truthful. */
  lemma ItemIndicesStep(eng: Engine, h: string, l: string, lines: seq<string>, i: nat, started: bool)
    requires i < |lines|
    requires started <==> AfterHeader(h, lines, i)
    ensures (AfterHeader(h, lines, i) || IsSubstring(h, lines[i])) <==> AfterHeader(h, lines, i + 1)
    ensures ItemIndices(eng, h, l, lines, i, started)
      == (if ItemLine(eng, h, l, lines, i) then [i] else [])
         + ItemIndices(eng, h, l, lines, i + 1, AfterHeader(h, lines, i) || IsSubstring(h, lines[i]))
  {
    AfterHeaderStep(h, lines, i);
    if !ItemLine(eng, h, l, lines, i) {
      var rest := ItemIndices(eng, h, l, lines, i + 1, AfterHeader(h, lines, i) || IsSubstring(h, lines[i]));
      assert [] + rest == rest;
    }
  }

  /** Every listed line is an item line at or after `i`. */
  lemma {:induction false} ItemIndicesSound(eng: Engine, h: string, l: string, lines: seq<string>, i: nat, started: bool)
    requires started <==> AfterHeader(h, lines, i)
    ensures forall k :: 0 <= k < |ItemIndices(eng, h, l, lines, i, started)| ==>
      i <= ItemIndices(eng, h, l, lines, i, started)[k] && ItemLine(eng, h, l, lines, ItemIndices(eng, h, l, lines, i, started)[k])
    decreases |lines| - i
  {
    if i < |lines| {
      ItemIndicesStep(eng, h, l, lines, i, started);
      ItemIndicesSound(eng, h, l, lines, i + 1, AfterHeader(h, lines, i + 1));
    }
  }

  /** Every item line at or after `i` is listed. */
  lemma {:induction false} ItemIndicesComplete(eng: Engine, h: string, l: string, lines: seq<string>, i: nat, started: bool)
    requires started <==> AfterHeader(h, lines, i)
    ensures forall j :: i <= j < |lines| && ItemLine(eng, h, l, lines, j) ==> j in ItemIndices(eng, h, l, lines, i, started)
    decreases |lines| - i
  {
    if i < |lines| {
      ItemIndicesStep(eng, h, l, lines, i, started);
      var s1 := AfterHeader(h, lines, i + 1);
      ItemIndicesComplete(eng, h, l, lines, i + 1, s1);
      var here := ItemLine(eng, h, l, lines, i);
      var rest := ItemIndices(eng, h, l, lines, i + 1, s1);
      assert ItemIndices(eng, h, l, lines, i, started) == (if here then [i] else []) + rest;
      forall j | i <= j < |lines| && ItemLine(eng, h, l, lines, j)
        ensures j in (if here then [i] else []) + rest
      {
        InHeadOrRest(here, i, rest, j);
      }
    }
  }

  /** A line listed by the step's head or by the rest is listed by their join. */
  lemma InHeadOrRest(here: bool, i: nat, rest: seq<nat>, j: nat)
    requires (j == i && here) || j in rest
    ensures j in (if here then [i] else []) + rest
  {
    if j in rest {
      InConcatRight(if here then [i] else [], rest, j);
    } else {
      assert ([i] + rest)[0] == i;
    }
  }

  /** The listed lines come in increasing order. */
  lemma {:induction false} ItemIndicesIncreasing(eng: Engine, h: string, l: string, lines: seq<string>, i: nat, started: bool)
    ensures forall k :: 0 <= k < |ItemIndices(eng, h, l, lines, i, started)| ==> i <= ItemIndices(eng, h, l, lines, i, started)[k]
    ensures forall k1, k2 :: 0 <= k1 < k2 < |ItemIndices(eng, h, l, lines, i, started)| ==>
      ItemIndices(eng, h, l, lines, i, started)[k1] < ItemIndices(eng, h, l, lines, i, started)[k2]
    decreases |lines| - i
  {
    if i < |lines| {
      var s1 := if IsSubstring(h, lines[i]) then true else started;
      ItemIndicesIncreasing(eng, h, l, lines, i + 1, s1);
      var rest := ItemIndices(eng, h, l, lines, i + 1, s1);
      if !IsSubstring(h, lines[i]) && started && Strip(lines[i]) != "" && eng.reMatch(Pattern(l, false), lines[i]).Some? {
        assert ItemIndices(eng, h, l, lines, i, started) == [i] + rest;
        IncreasingCons([i], rest, i);
      }
    }
  }

  lemma InConcatRight(head: seq<nat>, rest: seq<nat>, j: nat)
    requires j in rest
    ensures j in head + rest
  {
    var k :| 0 <= k < |rest| && rest[k] == j;
    assert (head + rest)[|head| + k] == j;
  }

  lemma IncreasingCons(head: seq<nat>, rest: seq<nat>, i: nat)
    requires head == [] || head == [i]
    requires forall k :: 0 <= k < |rest| ==> i < rest[k]
    requires forall k1, k2 :: 0 <= k1 < k2 < |rest| ==> rest[k1] < rest[k2]
    ensures forall k1, k2 :: 0 <= k1 < k2 < |head + rest| ==> (head + rest)[k1] < (head + rest)[k2]
  {
    if head == [i] {
      forall k1, k2 | 0 <= k1 < k2 < |head + rest|
        ensures (head + rest)[k1] < (head + rest)[k2]
      {
        assert (head + rest)[k2] == rest[k2 - 1];
        if k1 > 0 {
          assert (head + rest)[k1] == rest[k1 - 1];
        }
      }
    } else {
      assert head + rest == rest;
    }
  }

  /** Article `k` is built from item line `idx[k]` and the groups of its match. */
  predicate ArticlesAt(eng: Engine, name: string, date: Option<string>, cfg: Json, ts: TableSetup, l: string,
                       lines: seq<string>, idx: seq<nat>, arts: seq<Article>) {
    && |arts| == |idx|
    && forall k :: 0 <= k < |idx| ==> ArticleAt(eng, name, date, cfg, ts, l, lines, idx[k], arts[k])
  }

  /** Line `j` matches the item pattern and its groups build `art`. */
  predicate ArticleAt(eng: Engine, name: string, date: Option<string>, cfg: Json, ts: TableSetup, l: string,
                      lines: seq<string>, j: nat, art: Article) {
    && j < |lines| && eng.reMatch(Pattern(l, false), lines[j]).Some?
    && BuildArticle(eng, name, date, cfg, ts, lines, j, Data(eng.reMatch(Pattern(l, false), lines[j]).value)) == Ok(art)
  }

  lemma ArticlesAtCons(eng: Engine, name: string, date: Option<string>, cfg: Json, ts: TableSetup, l: string,
                       lines: seq<string>, i: nat, a: Article, idx: seq<nat>, arts: seq<Article>)
    requires i < |lines| && eng.reMatch(Pattern(l, false), lines[i]).Some?
    requires BuildArticle(eng, name, date, cfg, ts, lines, i, Data(eng.reMatch(Pattern(l, false), lines[i]).value)) == Ok(a)
    requires ArticlesAt(eng, name, date, cfg, ts, l, lines, idx, arts)
    ensures ArticlesAt(eng, name, date, cfg, ts, l, lines, [i] + idx, [a] + arts)
  {
    assert ArticleAt(eng, name, date, cfg, ts, l, lines, i, a);
    forall k | 0 <= k < |idx| + 1
      ensures ArticleAt(eng, name, date, cfg, ts, l, lines, ([i] + idx)[k], ([a] + arts)[k])
    {
      if k > 0 {
        assert ([i] + idx)[k] == idx[k - 1] && ([a] + arts)[k] == arts[k - 1];
      }
    }
  }

  /** The table loop yields one article per item line, in order, each built from its own
      line's groups. */
  lemma {:induction false} ArticlesAtItems(eng: Engine, name: string, date: Option<string>, cfg: Json,
                                           ts: TableSetup, h: string, l: string, lines: seq<string>,
                                           i: nat, started: bool)
    requires ts.header == JStr(h) && ts.line == JStr(l)
    requires ArticlesFrom(eng, name, date, cfg, ts, lines, i, started).Ok?
    ensures ArticlesAt(eng, name, date, cfg, ts, l, lines, ItemIndices(eng, h, l, lines, i, started),
                       ArticlesFrom(eng, name, date, cfg, ts, lines, i, started).value)
    decreases |lines| - i
  {
    if i < |lines| {
      var s1 := if IsSubstring(h, lines[i]) then true else started;
      ArticlesAtItems(eng, name, date, cfg, ts, h, l, lines, i + 1, s1);
      var rest := ArticlesFrom(eng, name, date, cfg, ts, lines, i + 1, s1);
      var restIdx := ItemIndices(eng, h, l, lines, i + 1, s1);
      if !IsSubstring(h, lines[i]) && started && Strip(lines[i]) != "" && eng.reMatch(Pattern(l, false), lines[i]).Some? {
        var m := eng.reMatch(Pattern(l, false), lines[i]).value;
        var a := BuildArticle(eng, name, date, cfg, ts, lines, i, Data(m)).value;
        assert ArticlesFrom(eng, name, date, cfg, ts, lines, i, started).value == [a] + rest.value;
        assert ItemIndices(eng, h, l, lines, i, started) == [i] + restIdx;
        ArticlesAtCons(eng, name, date, cfg, ts, l, lines, i, a, restIdx, rest.value);
      } else {
        assert ArticlesFrom(eng, name, date, cfg, ts, lines, i, started) == rest;
        assert ItemIndices(eng, h, l, lines, i, started) == restIdx;
      }
    }
  }

  /** A built article carries the selected supplier's name and the document date. */
  lemma BuildArticleHeader(eng: Engine, name: string, date: Option<string>, cfg: Json, ts: TableSetup,
                           lines: seq<string>, i: nat, data: seq<Option<string>>)
    requires BuildArticle(eng, name, date, cfg, ts, lines, i, data).Ok?
    ensures BuildArticle(eng, name, date, cfg, ts, lines, i, data).value.supplier == name
    ensures BuildArticle(eng, name, date, cfg, ts, lines, i, data).value.date == date
  {
  }

  lemma {:induction false} ArticlesShareHeader(eng: Engine, name: string, date: Option<string>, cfg: Json,
                                               ts: TableSetup, lines: seq<string>, i: nat, started: bool)
    requires ArticlesFrom(eng, name, date, cfg, ts, lines, i, started).Ok?
    ensures forall a :: a in ArticlesFrom(eng, name, date, cfg, ts, lines, i, started).value ==>
      a.supplier == name && a.date == date
    decreases |lines| - i
  {
    if i < |lines| {
      var s1 := if ts.header.JStr? && IsSubstring(ts.header.s, lines[i]) then true else started;
      ArticlesShareHeader(eng, name, date, cfg, ts, lines, i + 1, s1);
      if ts.header.JStr? && !IsSubstring(ts.header.s, lines[i]) && started && Strip(lines[i]) != ""
         && ts.line.JStr? && eng.reMatch(Pattern(ts.line.s, false), lines[i]).Some? {
        var m := eng.reMatch(Pattern(ts.line.s, false), lines[i]).value;
        BuildArticleHeader(eng, name, date, cfg, ts, lines, i, Data(m));
      }
    }
  }

  /** Every article of the report names the selected supplier and the document date, and
      the table is read from the first line on with no header seen yet. */
  lemma ReportHeader(eng: Engine, configs: Json, lines: seq<string>)
    requires Lecture(eng, configs, lines).Ok?
    ensures SelectSupplier(configs, lines).Ok?
    ensures Lecture(eng, configs, lines).value.supplier == SelectSupplier(configs, lines).value.0
    ensures Lecture(eng, configs, lines).value.date == DateFrom(eng, SelectSupplier(configs, lines).value.1, lines).value
    ensures forall a :: a in Lecture(eng, configs, lines).value.articles ==>
      a.supplier == Lecture(eng, configs, lines).value.supplier && a.date == Lecture(eng, configs, lines).value.date
  {
    var sel := SelectSupplier(configs, lines).value;
    var date := DateFrom(eng, sel.1, lines).value;
    var ts := ReadTableSetup(sel.1).value;
    ArticlesShareHeader(eng, sel.0, date, sel.1, ts, lines, 0, false);
  }

  // ---------------------------------------------------------------------------
  // Properties: the description lookahead
  // ---------------------------------------------------------------------------

  /** The first describing line among the next `n` decides: blank and prefixed lines before
      it are passed over, they do not end the lookahead. */
  lemma FallbackFirst(lines: seq<string>, i: nat, k: nat, n: int, kk: nat)
    requires k <= kk <= n && Describes(lines, i, kk)
    requires forall k' :: k <= k' < kk ==> !Describes(lines, i, k')
    ensures FallbackFrom(lines, i, k, n) == Some(Strip(lines[i + kk]))
  {
    var f := CandidateAt(lines, i);
    forall k': nat | k <= k' < kk ensures f(k').None? {
      CandidateAtIs(lines, i, k');
    }
    FirstSomeSkipTo(f, k, n, kk);
    CandidateAtIs(lines, i, kk);
  }

  /** Offers that hold nothing are passed over. */
  lemma {:induction false} FirstSomeSkipTo(f: nat -> Option<string>, k: nat, n: int, kk: nat)
    requires k <= kk <= n + 1
    requires forall k' :: k <= k' < kk ==> f(k').None?
    ensures FirstSome(f, k, n) == FirstSome(f, kk, n)
    decreases kk - k
  {
    if k < kk {
      FirstSomeSkipTo(f, k + 1, n, kk);
    }
  }

  /** No describing line among them: nothing is found. */
  lemma FallbackNone(lines: seq<string>, i: nat, k: nat, n: int)
    requires forall k' :: k <= k' <= n ==> !Describes(lines, i, k')
    ensures FallbackFrom(lines, i, k, n) == None
  {
    var f := CandidateAt(lines, i);
    if k <= n {
      forall k': nat | k <= k' < n + 1 ensures f(k').None? {
        CandidateAtIs(lines, i, k');
      }
      FirstSomeSkipTo(f, k, n, n + 1);
    }
  }

  /** A prefixed line is skipped in favour of the next one. */
  lemma PrefixedSkipped(lines: seq<string>, i: nat, k: nat, n: int)
    requires k <= n && i + k < |lines| && Prefixed(Strip(lines[i + k]))
    ensures FallbackFrom(lines, i, k, n) == FallbackFrom(lines, i, k + 1, n)
  {
  }

  /** A non-empty description, or a lookahead of at most 0 lines, is kept as it is. */
  lemma DescribeKeeps(cfg: Json, lines: seq<string>, i: nat, desc: Option<string>)
    requires (desc.Some? && desc.value != "")
          || (Get(cfg, "description_fallback_lines", JInt(0)).JInt? && Get(cfg, "description_fallback_lines", JInt(0)).n <= 0)
    ensures Describe(cfg, lines, i, desc) == Ok(desc)
  {
  }

  /** An empty description with a positive lookahead takes the first describing line, or
      stays as it was when there is none. */
  lemma DescribeLooks(cfg: Json, lines: seq<string>, i: nat, desc: Option<string>, n: int)
    requires desc.None? || desc.value == ""
    requires Get(cfg, "description_fallback_lines", JInt(0)) == JInt(n) && n > 0
    ensures Describe(cfg, lines, i, desc) == Ok(if FallbackFrom(lines, i, 1, n).Some? then FallbackFrom(lines, i, 1, n) else desc)
  {
  }

  // ---------------------------------------------------------------------------
  // Properties: the purchase-order lookahead
  // ---------------------------------------------------------------------------

  /** Line `i + j` exists and holds the pattern. */
  predicate OrderHit(lines: seq<string>, i: nat, j: nat, p: string) {
    i + j < |lines| && IsSubstring(p, lines[i + j])
  }

  /** Within the next ten lines, the first line holding the pattern decides, whether or not
      the regex is found on it. */
  lemma {:induction false} OrderFirst(eng: Engine, lines: seq<string>, i: nat, j: nat, jj: nat, p: string, r: string)
    requires j <= jj <= 10 && OrderHit(lines, i, jj, p)
    requires forall j' :: j <= j' < jj ==> !OrderHit(lines, i, j', p)
    ensures OrderFrom(eng, lines, i, j, JStr(p), JStr(r)) == OrderOn(eng, r, lines[i + jj])
    decreases jj - j
  {
    if j < jj {
      assert !OrderHit(lines, i, j, p);
      OrderFirst(eng, lines, i, j + 1, jj, p, r);
    }
  }

  /** No such line within ten: no purchase order. */
  lemma {:induction false} OrderNone(eng: Engine, lines: seq<string>, i: nat, j: nat, p: string, r: string)
    requires forall j' :: j <= j' <= 10 ==> !OrderHit(lines, i, j', p)
    ensures OrderFrom(eng, lines, i, j, JStr(p), JStr(r)) == Ok(None)
    decreases 11 - j
  {
    if j <= 10 {
      assert !OrderHit(lines, i, j, p);
      OrderNone(eng, lines, i, j + 1, p, r);
    }
  }

  /** With both the pattern and the regex set, the `fields` mapping and the line's groups
      play no part. */
  lemma PurchaseOrderIgnoresFields(eng: Engine, cfg: Json, f1: Json, f2: Json, lines: seq<string>, i: nat,
                                   d1: seq<Option<string>>, d2: seq<Option<string>>)
    requires JTruthy(Get(cfg, "purchase_order_pattern", JNull)) && JTruthy(Get(cfg, "purchase_order_regex", JNull))
    ensures PurchaseOrder(eng, cfg, f1, lines, i, d1) == PurchaseOrder(eng, cfg, f2, lines, i, d2)
  {
  }

  /** Otherwise a `fields` entry naming group `n` takes that group. */
  lemma PurchaseOrderDirect(eng: Engine, cfg: Json, fields: Dict<Json>, lines: seq<string>, i: nat,
                            data: seq<Option<string>>, n: int)
    requires !(JTruthy(Get(cfg, "purchase_order_pattern", JNull)) && JTruthy(Get(cfg, "purchase_order_regex", JNull)))
    requires Lookup(fields, "purchase_order") == Some(JInt(n)) && 1 <= n <= |data|
    ensures PurchaseOrder(eng, cfg, JObj(fields), lines, i, data) == Ok(data[n - 1])
  {
  }

  // ---------------------------------------------------------------------------
  // Properties: the article code
  // ---------------------------------------------------------------------------

  /** When the code regex is found in a non-empty description, its group 1 replaces the
      column's code. */
  lemma CodeReplaced(eng: Engine, codeRe: string, desc: string, code: Option<string>)
    requires codeRe != "" && desc != ""
    requires eng.reSearch(Pattern(codeRe, false), desc).Some?
    requires 1 <= |eng.reSearch(Pattern(codeRe, false), desc).value.groups|
    ensures CodeOf(eng, JStr(codeRe), Some(desc), code) == Ok(eng.reSearch(Pattern(codeRe, false), desc).value.groups[0].value)
  {
  }

  /** No code regex, no description, or no hit: the column's code stays. */
  lemma CodeKept(eng: Engine, codeRe: Json, desc: Option<string>, code: Option<string>)
    requires || !JTruthy(codeRe) || desc.None? || desc.value == ""
             || (codeRe.JStr? && eng.reSearch(Pattern(codeRe.s, false), desc.value).None?)
    ensures CodeOf(eng, codeRe, desc, code) == Ok(code)
  {
  }
}
