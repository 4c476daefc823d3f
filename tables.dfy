/**
 * `extract_items_from_tables` and `normalize_numeric_fields` of parse_bl.py.
 *
 * Camelot sometimes cuts one article line into several table rows (a wrapped
 * description). The extractor therefore keeps a buffer per table: each row's
 * cleaned text is appended to the buffer and the line pattern is tried on the
 * result; a match emits one item and clears the buffer, a miss keeps the longer
 * text for the next row. Items are built from the profile's `fields` map (field
 * name to group number or name), and `code_article` can be recovered from the
 * description with `code_article_regex`.
 */
module Tables {
  import opened Wrappers
  import opened Strings
  import opened Values
  import opened Regex
  import opened Json
  import opened Numeric
  import TextNorm

  // ---------------------------------------------------------------------------
  // Row text
  // ---------------------------------------------------------------------------

  /** `clean_text`: the words joined by single spaces, the `nan` cells that `str(NaN)`
      leaves removed, every whitespace run collapsed and the ends trimmed. */
  function CleanText(s: string): string {
    var t := Join(" ", Words(s));
    var u := ReplaceAll(ReplaceAll(ReplaceAll(ReplaceAll(t, " nan ", " "), " NaN ", " "), "nan ", " "), " nan", " ");
    Strip(Collapse(u))
  }

  /** Cleaned text is single-spaced and trimmed. */
  lemma CleanTextSpacing(s: string)
    ensures var r := CleanText(s);
      Trimmed(r) && OnlyPlainSpaces(r) && NoDoubleSpace(r)
  {
    var t := Join(" ", Words(s));
    var u := ReplaceAll(ReplaceAll(ReplaceAll(ReplaceAll(t, " nan ", " "), " NaN ", " "), "nan ", " "), " nan", " ");
    TextNorm.StripKeepsSpacing(Collapse(u));
  }

  /** `str(x).strip()` for every cell of a row. */
  function CellTexts(row: seq<Value>): (r: seq<string>)
    ensures |r| == |row|
    ensures forall i :: 0 <= i < |row| ==> r[i] == Strip(PyStr(row[i]))
  {
    seq(|row|, i requires 0 <= i < |row| => Strip(PyStr(row[i])))
  }

  /** The text of one row: its stripped cells joined by spaces, then cleaned. */
  function RowLine(row: seq<Value>): string {
    CleanText(Join(" ", CellTexts(row)))
  }

  /** What the line pattern is tried on: the row alone, or the buffer followed by the row. */
  function Candidate(buffer: string, rowText: string): string {
    if buffer != "" then Strip(buffer + " " + rowText) else rowText
  }

  // ---------------------------------------------------------------------------
  // The profile
  // ---------------------------------------------------------------------------

  /** The compiled line pattern, the `fields` value and the optional code pattern. */
  datatype TableSetup = TableSetup(line: Pattern, fields: Json, code: Option<Pattern>)

  /** Steps 1 to 3: a falsy `ligne_regex` gives no setup (and no items); a pattern that is
      not a string makes `re.compile` raise TypeError. */
  function ReadTableSetup(profile: Json): (r: Result<Option<TableSetup>>)
    ensures r.Err? && r.error == AttributeError <==> !profile.JObj?
    ensures r == Ok(None) <==> profile.JObj? && !JTruthy(GetOr(profile, "ligne_regex", JNull).value)
    ensures r.Ok? && r.value.Some? ==>
      && GetOr(profile, "ligne_regex", JNull) == Ok(JStr(r.value.value.line.source))
      && !r.value.value.line.ignoreCase
      && GetOr(profile, "fields", EmptyObj) == Ok(r.value.value.fields)
  {
    match GetOr(profile, "ligne_regex", JNull)
    case Err(e) => Err(e)
    case Ok(lineRe) =>
      if !JTruthy(lineRe) then Ok(None)
      else if !lineRe.JStr? then Err(TypeError)
      else
        var fields := GetOr(profile, "fields", EmptyObj).value;
        match PatternSource(GetOr(profile, "code_article_regex", JNull).value)
        case Err(e) => Err(e)
        case Ok(code) =>
          var codePattern := if code.Some? then Some(Pattern(code.value, false)) else None;
          Ok(Some(TableSetup(Pattern(lineRe.s, false), fields, codePattern)))
  }

  // ---------------------------------------------------------------------------
  // One item
  // ---------------------------------------------------------------------------

  /** `m.group(grp_index)` inside `try ... except IndexError: ""`. A number (or a bool,
      which Python reads as 0 or 1) selects a group by position, a string by name; `None`
      is no group at all. A list or a dict cannot be hashed: looking it up in the group
      index of a pattern with named groups raises TypeError, and a pattern without named
      groups has no index to look in, so it gives the caught IndexError. */
  function GroupOf(m: Match, grp: Json): (r: Result<Value>)
    ensures r.Err? <==> Unhashable(grp) && HasNamedGroup(m)
    ensures r.Err? ==> r.error == TypeError
    ensures Unhashable(grp) && !HasNamedGroup(m) ==> r == Ok(VStr(""))
    ensures grp.JInt? && !(0 <= grp.n <= |m.groups|) ==> r == Ok(VStr(""))
    ensures grp.JInt? && 1 <= grp.n <= |m.groups| ==> r == Ok(FromOpt(m.groups[grp.n - 1].value))
    ensures grp.JStr? && (forall i :: 0 <= i < |m.groups| ==> m.groups[i].name != Some(grp.s)) ==> r == Ok(VStr(""))
    ensures grp.JNull? ==> r == Ok(VStr(""))
  {
    match grp
    case JInt(k) => CaughtGroup(GroupAt(m, k))
    case JBool(b) => CaughtGroup(GroupAt(m, if b then 1 else 0))
    case JStr(name) => CaughtGroup(GroupNamed(m, name))
    case JNull => Ok(VStr(""))
    case JArr(_) => if HasNamedGroup(m) then Err(TypeError) else Ok(VStr(""))
    case JObj(_) => if HasNamedGroup(m) then Err(TypeError) else Ok(VStr(""))
  }

  /** The IndexError of a missing group becomes the empty string. */
  function CaughtGroup(g: Result<Option<string>>): Result<Value> {
    match g
    case Err(_) => Ok(VStr(""))
    case Ok(o) => Ok(FromOpt(o))
  }

  /** `item[field_name] = m.group(grp_index)` for the entries of `fields`, in order. */
  function FillFields(m: Match, fields: Dict<Json>, item: Dict<Value>): Result<Dict<Value>>
    decreases |fields|
  {
    if fields == [] then Ok(item)
    else
      match GroupOf(m, fields[0].1)
      case Err(e) => Err(e)
      case Ok(v) => FillFields(m, fields[1..], Put(item, fields[0].0, v))
  }

  /** The `code_article` complement: only when `code_article` is missing or falsy, a code
      pattern is configured and the description is truthy; group 1 of a successful search
      in the description replaces it (a pattern without groups raises IndexError). */
  function FillCode(eng: Engine, code: Option<Pattern>, item: Dict<Value>): (r: Result<Dict<Value>>)
    ensures Lookup(item, "code_article").Some? && TruthyValue(Lookup(item, "code_article").value) ==> r == Ok(item)
    ensures code.None? ==> r == Ok(item)
    ensures r.Ok? ==> forall k :: k != "code_article" ==> Lookup(r.value, k) == Lookup(item, k)
    ensures r.Ok? && r.value != item ==>
      && code.Some? && Lookup(item, "description").Some? && Lookup(item, "description").value.VStr?
      && var d := Lookup(item, "description").value.s;
         d != "" && eng.reSearch(code.value, d).Some? &&
         var m2 := eng.reSearch(code.value, d).value;
         1 <= |m2.groups| && Lookup(r.value, "code_article") == Some(FromOpt(m2.groups[0].value))
  {
    var current := Lookup(item, "code_article");
    var desc: Option<Value> := Lookup(item, "description");
    if (current.None? || !TruthyValue(current.value)) && code.Some? then
      match desc
      case Some(VStr(d)) =>
        if d == "" then Ok(item)
        else
          (match eng.reSearch(code.value, d)
           case None => Ok(item)
           case Some(m2) =>
             (match GroupAt(m2, 1)
              case Err(e) => Err(e)
              case Ok(o) => Ok(Put(item, "code_article", FromOpt(o)))))
      case Some(VInt(n)) => if n == 0 then Ok(item) else Err(TypeError)
      case Some(VNone) => Ok(item)
      case None => Ok(item)
    else Ok(item)
  }

  /** The item of one match: `fields_map.items()` (AttributeError when `fields` is not a
      dict), then the code complement. */
  function MakeItem(eng: Engine, s: TableSetup, m: Match): Result<Dict<Value>> {
    if !s.fields.JObj? then Err(AttributeError)
    else
      match FillFields(m, s.fields.fields, [])
      case Err(e) => Err(e)
      case Ok(it) => FillCode(eng, s.code, it)
  }

  /** The item loop over `fields_map.items()`. */
  method BuildItem(eng: Engine, s: TableSetup, m: Match) returns (r: Result<Dict<Value>>)
    ensures r == MakeItem(eng, s, m)
  {
    if !s.fields.JObj? {
      return Err(AttributeError);
    }
    var fields := s.fields.fields;
    var item: Dict<Value> := [];
    var k := 0;
    while k < |fields|
      invariant 0 <= k <= |fields|
      invariant FillFields(m, fields, []) == FillFields(m, fields[k..], item)
    {
      assert fields[k..][0] == fields[k] && fields[k..][1..] == fields[k + 1..];
      var v := GroupOf(m, fields[k].1);
      if v.Err? {
        return Err(v.error);
      }
      item := Put(item, fields[k].0, v.value);
      k := k + 1;
    }
    r := FillCode(eng, s.code, item);
  }

  // ---------------------------------------------------------------------------
  // The row buffer
  // ---------------------------------------------------------------------------

  /** The texts of the rows of a table, in order. */
  function RowLines(rows: seq<seq<Value>>): (r: seq<string>)
    ensures |r| == |rows|
    ensures forall i :: 0 <= i < |rows| ==> r[i] == RowLine(rows[i])
  {
    seq(|rows|, i requires 0 <= i < |rows| => RowLine(rows[i]))
  }

  /** The item builder of a setup, as the scan below takes it. */
  function ItemMaker(eng: Engine, s: TableSetup): Match -> Result<Dict<Value>> {
    m => MakeItem(eng, s, m)
  }

  /** The safety attempt at the end of a table on a non-empty buffer. `retry` is there
      only so that `RetryIsDead` can compare the scan with and without it. */
  function Retry(eng: Engine, line: Pattern, make: Match -> Result<Dict<Value>>, buffer: string, retry: bool)
    : Result<seq<Dict<Value>>>
  {
    if retry && buffer != "" then
      match eng.reMatch(line, buffer)
      case None => Ok([])
      case Some(m) =>
        match make(m)
        case Err(e) => Err(e)
        case Ok(it) => Ok([it])
    else Ok([])
  }

  /** The items of the remaining rows of a table, given their texts and the current
      buffer; `make` builds the item of a match. */
  function RowsFrom(eng: Engine, line: Pattern, make: Match -> Result<Dict<Value>>, texts: seq<string>,
                    buffer: string, retry: bool): Result<seq<Dict<Value>>>
    decreases |texts|
  {
    if texts == [] then Retry(eng, line, make, buffer, retry)
    else
      var candidate := Candidate(buffer, texts[0]);
      match eng.reMatch(line, candidate)
      case Some(m) =>
        (match make(m)
         case Err(e) => Err(e)
         case Ok(it) => Prepend([it], RowsFrom(eng, line, make, texts[1..], "", retry)))
      case None => RowsFrom(eng, line, make, texts[1..], candidate, retry)
  }

  /** The items of one table: the buffer starts empty. */
  function TableItems(eng: Engine, s: TableSetup, rows: seq<seq<Value>>): Result<seq<Dict<Value>>> {
    RowsFrom(eng, s.line, ItemMaker(eng, s), RowLines(rows), "", true)
  }

  /** Two outcomes one after the other: the first error wins. */
  function Cat<T>(a: Result<seq<T>>, b: Result<seq<T>>): Result<seq<T>> {
    match a
    case Err(e) => Err(e)
    case Ok(x) => Prepend(x, b)
  }

  /** The items of the tables, table after table. */
  function TablesItems(eng: Engine, s: TableSetup, tables: seq<seq<seq<Value>>>): Result<seq<Dict<Value>>>
    decreases |tables|
  {
    if tables == [] then Ok([])
    else Cat(TableItems(eng, s, tables[0]), TablesItems(eng, s, tables[1..]))
  }

  /** What `extract_items_from_tables(profile, tables)` returns or raises. */
  function ExtractItems(eng: Engine, profile: Json, tables: seq<seq<seq<Value>>>): Result<seq<Dict<Value>>> {
    match ReadTableSetup(profile)
    case Err(e) => Err(e)
    case Ok(None) => Ok([])
    case Ok(Some(s)) => TablesItems(eng, s, tables)
  }

  lemma CatPrepend<T>(done: seq<T>, a: Result<seq<T>>, b: Result<seq<T>>)
    ensures Prepend(done, Cat(a, b)) == Cat(Prepend(done, a), b)
  {
    if a.Ok? && b.Ok? {
      assert done + (a.value + b.value) == (done + a.value) + b.value;
    }
  }

  /** One row of the inner loop, on the invariant
      `TableItems(rows) == Prepend(done, RowsFrom(texts[i..], buffer))`. */
  lemma RowStep(eng: Engine, line: Pattern, make: Match -> Result<Dict<Value>>, texts: seq<string>, i: nat,
                buffer: string, done: seq<Dict<Value>>)
    requires i < |texts|
    ensures var candidate := Candidate(buffer, texts[i]);
      var here := Prepend(done, RowsFrom(eng, line, make, texts[i..], buffer, true));
      match eng.reMatch(line, candidate)
      case None => here == Prepend(done, RowsFrom(eng, line, make, texts[i + 1..], candidate, true))
      case Some(m) =>
        match make(m)
        case Err(e) => here == Err(e)
        case Ok(it) => here == Prepend(done + [it], RowsFrom(eng, line, make, texts[i + 1..], "", true))
  {
    assert texts[i..][0] == texts[i] && texts[i..][1..] == texts[i + 1..];
    var candidate := Candidate(buffer, texts[i]);
    match eng.reMatch(line, candidate)
    case None =>
    case Some(m) =>
      match make(m)
      case Err(e) =>
      case Ok(it) =>
        var rest := RowsFrom(eng, line, make, texts[i + 1..], "", true);
        if rest.Ok? {
          assert done + ([it] + rest.value) == (done + [it]) + rest.value;
        }
  }

  /** The end of a table: the safety attempt on what is left in the buffer. */
  lemma TableEndStep(eng: Engine, line: Pattern, make: Match -> Result<Dict<Value>>, texts: seq<string>,
                     buffer: string, done: seq<Dict<Value>>)
    ensures var here := Prepend(done, RowsFrom(eng, line, make, texts[|texts|..], buffer, true));
      if buffer != "" && eng.reMatch(line, buffer).Some? then
        match make(eng.reMatch(line, buffer).value)
        case Err(e) => here == Err(e)
        case Ok(it) => here == Ok(done + [it])
      else here == Ok(done)
  {
    assert texts[|texts|..] == [];
    assert done + [] == done;
  }

  /** Table `t` of the outer loop, on the invariant
      `TablesItems(tables) == Prepend(done, TablesItems(tables[t..]))`. */
  lemma TableStep(eng: Engine, s: TableSetup, tables: seq<seq<seq<Value>>>, t: nat, done: seq<Dict<Value>>)
    requires t < |tables|
    ensures var here := Prepend(done, TablesItems(eng, s, tables[t..]));
      match TableItems(eng, s, tables[t])
      case Err(e) => here == Err(e)
      case Ok(x) => here == Prepend(done + x, TablesItems(eng, s, tables[t + 1..]))
  {
    assert tables[t..][0] == tables[t] && tables[t..][1..] == tables[t + 1..];
    assert TablesItems(eng, s, tables[t..]) == Cat(TableItems(eng, s, tables[t]), TablesItems(eng, s, tables[t + 1..]));
    CatStep(done, TableItems(eng, s, tables[t]), TablesItems(eng, s, tables[t + 1..]));
  }

  /** Prepending to two outcomes in a row. */
  lemma CatStep<T>(done: seq<T>, a: Result<seq<T>>, b: Result<seq<T>>)
    ensures Prepend(done, Cat(a, b)) ==
      match a
      case Err(e) => Err(e)
      case Ok(x) => Prepend(done + x, b)
  {
    if a.Ok? && b.Ok? {
      assert done + (a.value + b.value) == (done + a.value) + b.value;
    }
  }

  /** `extract_items_from_tables`: the tables in order, the items of each appended. */
  method ExtractItemsFromTables(eng: Engine, profile: Json, tables: seq<seq<seq<Value>>>)
    returns (r: Result<seq<Dict<Value>>>)
    ensures r == ExtractItems(eng, profile, tables)
  {
    var setup := ReadTableSetup(profile);
    if setup.Err? {
      return Err(setup.error);
    }
    if setup.value.None? {
      return Ok([]);
    }
    var s := setup.value.value;
    var items: seq<Dict<Value>> := [];
    PrependNothing(TablesItems(eng, s, tables));
    assert tables[0..] == tables;
    var t := 0;
    while t < |tables|
      invariant 0 <= t <= |tables|
      invariant TablesItems(eng, s, tables) == Prepend(items, TablesItems(eng, s, tables[t..]))
    {
      TableStep(eng, s, tables, t, items);
      var found := TableRows(eng, s, tables[t]);
      if found.Err? {
        return Err(found.error);
      }
      items := items + found.value;
      t := t + 1;
    }
    assert tables[|tables|..] == [];
    assert items + [] == items;
    return Ok(items);
  }

  /** The body of the loop over one table. The row texts do not depend on the buffer, so
      they are computed first; then the buffer starts empty, grows on every row that does
      not complete a line, and is cleared by every item. */
  method TableRows(eng: Engine, s: TableSetup, rows: seq<seq<Value>>) returns (r: Result<seq<Dict<Value>>>)
    ensures r == TableItems(eng, s, rows)
  {
    var texts := RowLines(rows);
    r := ScanRows(eng, s, texts);
  }

  method ScanRows(eng: Engine, s: TableSetup, texts: seq<string>) returns (r: Result<seq<Dict<Value>>>)
    ensures r == RowsFrom(eng, s.line, ItemMaker(eng, s), texts, "", true)
  {
    ghost var make := ItemMaker(eng, s);
    var items: seq<Dict<Value>> := [];
    var buffer := "";
    var i := 0;
    assert texts[0..] == texts;
    PrependNothing(RowsFrom(eng, s.line, make, texts, "", true));
    while i < |texts|
      invariant 0 <= i <= |texts|
      invariant RowsFrom(eng, s.line, make, texts, "", true) == Prepend(items, RowsFrom(eng, s.line, make, texts[i..], buffer, true))
    {
      RowStep(eng, s.line, make, texts, i, buffer, items);
      var rowText := texts[i];
      var candidate := if buffer != "" then Strip(buffer + " " + rowText) else rowText;
      var m := eng.reMatch(s.line, candidate);
      if m.Some? {
        var it := BuildItem(eng, s, m.value);
        assert it == make(m.value);
        if it.Err? {
          return Err(it.error);
        }
        items := items + [it.value];
        buffer := "";
      } else if buffer != "" {
        buffer := candidate;
      } else {
        buffer := rowText;
      }
      i := i + 1;
    }
    TableEndStep(eng, s.line, make, texts, buffer, items);
    if buffer != "" {
      var m := eng.reMatch(s.line, buffer);
      if m.Some? {
        var it := BuildItem(eng, s, m.value);
        assert it == make(m.value);
        if it.Err? {
          return Err(it.error);
        }
        items := items + [it.value];
      }
    }
    return Ok(items);
  }

  // ---------------------------------------------------------------------------
  // Properties of the extractor
  // ---------------------------------------------------------------------------

  /** No (or an empty) `ligne_regex`: no items, whatever the tables. */
  lemma NoLineRegexNoItems(eng: Engine, profile: Json, tables: seq<seq<seq<Value>>>)
    requires profile.JObj? && !JTruthy(GetOr(profile, "ligne_regex", JNull).value)
    ensures ExtractItems(eng, profile, tables) == Ok([])
  {
  }

  /** The buffer never leaves a table with a remainder the pattern matches: every
      non-empty buffer is a candidate that has just failed. So the table-end attempt
      finds nothing, and an unmatched remainder is dropped. */
  lemma {:induction false} RetryIsDead(eng: Engine, line: Pattern, make: Match -> Result<Dict<Value>>,
                                       texts: seq<string>, buffer: string)
    requires buffer == "" || eng.reMatch(line, buffer).None?
    ensures RowsFrom(eng, line, make, texts, buffer, true) == RowsFrom(eng, line, make, texts, buffer, false)
    decreases |texts|
  {
    if texts != [] {
      var candidate := Candidate(buffer, texts[0]);
      match eng.reMatch(line, candidate)
      case Some(m) =>
        RetryIsDead(eng, line, make, texts[1..], "");
      case None =>
        RetryIsDead(eng, line, make, texts[1..], candidate);
    }
  }

  /** Table by table: the final attempt of every table is dead. */
  lemma TableRetryIsDead(eng: Engine, s: TableSetup, rows: seq<seq<Value>>)
    ensures TableItems(eng, s, rows) == RowsFrom(eng, s.line, ItemMaker(eng, s), RowLines(rows), "", false)
  {
    RetryIsDead(eng, s.line, ItemMaker(eng, s), RowLines(rows), "");
  }

  /** Every item uses up at least one row of its own: a table never yields more items
      than it has rows (the bound is stated for any buffer left from earlier rows). */
  lemma {:induction false} RowsBound(eng: Engine, line: Pattern, make: Match -> Result<Dict<Value>>,
                                     texts: seq<string>, buffer: string, retry: bool)
    requires RowsFrom(eng, line, make, texts, buffer, retry).Ok?
    ensures |RowsFrom(eng, line, make, texts, buffer, retry).value| <= |texts| + (if buffer != "" then 1 else 0)
    decreases |texts|
  {
    if texts != [] {
      var candidate := Candidate(buffer, texts[0]);
      match eng.reMatch(line, candidate)
      case Some(m) =>
        RowsBound(eng, line, make, texts[1..], "", retry);
      case None =>
        RowsBound(eng, line, make, texts[1..], candidate, retry);
    }
  }

  lemma AtMostOneItemPerRow(eng: Engine, s: TableSetup, rows: seq<seq<Value>>)
    requires TableItems(eng, s, rows).Ok?
    ensures |TableItems(eng, s, rows).value| <= |rows|
  {
    RowsBound(eng, s.line, ItemMaker(eng, s), RowLines(rows), "", true);
  }

  lemma CatAssoc<T>(a: Result<seq<T>>, b: Result<seq<T>>, c: Result<seq<T>>)
    ensures Cat(Cat(a, b), c) == Cat(a, Cat(b, c))
  {
    if a.Ok? && b.Ok? && c.Ok? {
      assert (a.value + b.value) + c.value == a.value + (b.value + c.value);
    }
  }

  /** The buffer starts afresh with each table, so the tables can be processed in any
      grouping: the items of two runs of tables are those of the first run, then those of
      the second. */
  lemma {:induction false} TablesConcat(eng: Engine, s: TableSetup, ts1: seq<seq<seq<Value>>>, ts2: seq<seq<seq<Value>>>)
    ensures TablesItems(eng, s, ts1 + ts2) == Cat(TablesItems(eng, s, ts1), TablesItems(eng, s, ts2))
    decreases |ts1|
  {
    if ts1 == [] {
      assert ts1 + ts2 == ts2;
      var b := TablesItems(eng, s, ts2);
      if b.Ok? {
        assert [] + b.value == b.value;
      }
    } else {
      assert (ts1 + ts2)[0] == ts1[0] && (ts1 + ts2)[1..] == ts1[1..] + ts2;
      TablesConcat(eng, s, ts1[1..], ts2);
      CatAssoc(TableItems(eng, s, ts1[0]), TablesItems(eng, s, ts1[1..]), TablesItems(eng, s, ts2));
    }
  }

  /** A wrapped article: a first row that does not match on its own, completed by the
      next row, gives the one item of the joined text. */
  lemma WrappedRowJoined(eng: Engine, line: Pattern, make: Match -> Result<Dict<Value>>,
                         t1: string, t2: string, rest: seq<string>, m: Match, it: Dict<Value>, retry: bool)
    requires t1 != "" && eng.reMatch(line, t1).None?
    requires eng.reMatch(line, Strip(t1 + " " + t2)) == Some(m)
    requires make(m) == Ok(it)
    ensures RowsFrom(eng, line, make, [t1, t2] + rest, "", retry) == Prepend([it], RowsFrom(eng, line, make, rest, "", retry))
  {
    var texts := [t1, t2] + rest;
    assert texts[0] == t1 && texts[1..] == [t2] + rest;
    assert ([t2] + rest)[0] == t2 && ([t2] + rest)[1..] == rest;
  }

  // ---------------------------------------------------------------------------
  // Properties of one item
  // ---------------------------------------------------------------------------

  /** Whether some field refers to a list or an object. */
  predicate AnyBadGroup(fields: Dict<Json>) {
    fields != [] && (fields[0].1.JArr? || fields[0].1.JObj? || AnyBadGroup(fields[1..]))
  }

  lemma {:induction false} AnyBadGroupExists(fields: Dict<Json>)
    ensures AnyBadGroup(fields) <==> exists i :: 0 <= i < |fields| && (fields[i].1.JArr? || fields[i].1.JObj?)
    decreases |fields|
  {
    if fields != [] {
      var rest := fields[1..];
      AnyBadGroupExists(rest);
      if exists i :: 0 <= i < |fields| && (fields[i].1.JArr? || fields[i].1.JObj?) {
        var i :| 0 <= i < |fields| && (fields[i].1.JArr? || fields[i].1.JObj?);
        if i > 0 {
          assert rest[i - 1] == fields[i];
        }
      }
      if exists i :: 0 <= i < |rest| && (rest[i].1.JArr? || rest[i].1.JObj?) {
        var i :| 0 <= i < |rest| && (rest[i].1.JArr? || rest[i].1.JObj?);
        assert fields[i + 1] == rest[i];
      }
    }
  }

  lemma {:induction false} FillFieldsFailsAny(m: Match, fields: Dict<Json>, item: Dict<Value>)
    ensures FillFields(m, fields, item).Err? <==> HasNamedGroup(m) && AnyBadGroup(fields)
    decreases |fields|
  {
    if fields != [] {
      var v := GroupOf(m, fields[0].1);
      if v.Ok? {
        FillFieldsFailsAny(m, fields[1..], Put(item, fields[0].0, v.value));
      }
    }
  }

  /** Filling fails exactly when the pattern has a named group and some field refers to
      a list or an object. */
  lemma FillFieldsFails(m: Match, fields: Dict<Json>, item: Dict<Value>)
    ensures FillFields(m, fields, item).Err? <==>
      HasNamedGroup(m) && exists i :: 0 <= i < |fields| && (fields[i].1.JArr? || fields[i].1.JObj?)
  {
    FillFieldsFailsAny(m, fields, item);
    AnyBadGroupExists(fields);
  }

  /** Filling leaves the keys that are not fields alone. */
  lemma {:induction false} FilledOthers(m: Match, fields: Dict<Json>, item: Dict<Value>, k: string)
    requires FillFields(m, fields, item).Ok?
    requires k !in Keys(fields)
    ensures Lookup(FillFields(m, fields, item).value, k) == Lookup(item, k)
    decreases |fields|
  {
    if fields != [] {
      var rest := fields[1..];
      assert Keys(fields) == [fields[0].0] + Keys(rest);
      FilledOthers(m, rest, Put(item, fields[0].0, GroupOf(m, fields[0].1).value), k);
    }
  }

  /** Filling appends the new field names after the item's keys. */
  lemma {:induction false} FilledKeys(m: Match, fields: Dict<Json>, item: Dict<Value>)
    requires DistinctKeys(fields)
    requires forall k :: k in Keys(fields) ==> k !in Keys(item)
    requires FillFields(m, fields, item).Ok?
    ensures Keys(FillFields(m, fields, item).value) == Keys(item) + Keys(fields)
    decreases |fields|
  {
    if fields == [] {
      assert Keys(item) + [] == Keys(item);
    } else {
      var item' := Put(item, fields[0].0, GroupOf(m, fields[0].1).value);
      var rest := fields[1..];
      DistinctTail(fields);
      assert Keys(fields) == [fields[0].0] + Keys(rest);
      assert fields[0].0 !in Keys(item);
      assert Keys(item') == Keys(item) + [fields[0].0];
      forall k | k in Keys(rest) ensures k !in Keys(item') {
        assert k in Keys(fields);
      }
      FilledKeys(m, rest, item');
      ConcatAssoc(Keys(item), [fields[0].0], Keys(rest));
    }
  }

  /** With distinct field names, each field holds its group's value. */
  lemma {:induction false} FilledValues(m: Match, fields: Dict<Json>, item: Dict<Value>)
    requires DistinctKeys(fields)
    requires FillFields(m, fields, item).Ok?
    ensures forall i :: 0 <= i < |fields| ==>
      GroupOf(m, fields[i].1).Ok? && Lookup(FillFields(m, fields, item).value, fields[i].0) == Some(GroupOf(m, fields[i].1).value)
    decreases |fields|
  {
    if fields != [] {
      var item' := Put(item, fields[0].0, GroupOf(m, fields[0].1).value);
      var rest := fields[1..];
      DistinctTail(fields);
      FilledValues(m, rest, item');
      FilledOthers(m, rest, item', fields[0].0);
      var r := FillFields(m, fields, item).value;
      assert r == FillFields(m, rest, item').value;
      forall i | 0 <= i < |fields|
        ensures GroupOf(m, fields[i].1).Ok? && Lookup(r, fields[i].0) == Some(GroupOf(m, fields[i].1).value)
      {
        if i > 0 {
          assert fields[i] == rest[i - 1];
        }
      }
    }
  }

  /** With distinct field names (as in any JSON object), each field holds its group's text
      (or "" for a group that does not exist), and nothing else changes. */
  lemma FieldsTaken(m: Match, fields: Dict<Json>, item: Dict<Value>)
    requires DistinctKeys(fields)
    requires forall k :: k in Keys(fields) ==> k !in Keys(item)
    requires FillFields(m, fields, item).Ok?
    ensures var r := FillFields(m, fields, item).value;
      && Keys(r) == Keys(item) + Keys(fields)
      && (forall i :: 0 <= i < |fields| ==> GroupOf(m, fields[i].1).Ok? && Lookup(r, fields[i].0) == Some(GroupOf(m, fields[i].1).value))
      && (forall k :: k !in Keys(fields) ==> Lookup(r, k) == Lookup(item, k))
  {
    FilledKeys(m, fields, item);
    FilledValues(m, fields, item);
    forall k | k !in Keys(fields)
      ensures Lookup(FillFields(m, fields, item).value, k) == Lookup(item, k)
    {
      FilledOthers(m, fields, item, k);
    }
  }

  /** The item of a match, for a `fields` object with distinct names: exactly those
      fields, each from its group, except that `code_article` may be completed. */
  lemma ItemFields(eng: Engine, s: TableSetup, m: Match)
    requires s.fields.JObj? && DistinctKeys(s.fields.fields)
    requires MakeItem(eng, s, m).Ok?
    ensures var it := MakeItem(eng, s, m).value;
      forall i :: 0 <= i < |s.fields.fields| && s.fields.fields[i].0 != "code_article" ==>
        GroupOf(m, s.fields.fields[i].1).Ok? &&
        Lookup(it, s.fields.fields[i].0) == Some(GroupOf(m, s.fields.fields[i].1).value)
  {
    FieldsTaken(m, s.fields.fields, []);
    assert Keys<Value>([]) == [];
  }

  // ---------------------------------------------------------------------------
  // normalize_numeric_fields
  // ---------------------------------------------------------------------------

  /** A key that looks like a quantity. */
  predicate NumericLike(k: string) {
    StartsWith(k, "qte_") || k in {"quantite", "qty", "quantity"}
  }

  /** The copy `it2` after the updates for the entries still to visit, for a given test
      of which keys to convert and a conversion. */
  function NormalizeWith(like: string -> bool, conv: Value -> int, entries: Dict<Value>, copy: Dict<Value>): Dict<Value>
    decreases |entries|
  {
    if entries == [] then copy
    else
      var k := entries[0].0;
      NormalizeWith(like, conv, entries[1..], if like(k) then Put(copy, k, VInt(conv(entries[0].1))) else copy)
  }

  /** One normalised item: a copy of `it` with its quantity-like values converted. */
  function NormalizeItem(it: Dict<Value>): Dict<Value> {
    NormalizeWith(NumericLike, ToIntSafe, it, it)
  }

  /** The converted copy has the keys of the copy in their order, and keys that are not
      converted (or not visited) keep their values. */
  lemma {:induction false} NormalizeKeys(like: string -> bool, conv: Value -> int, entries: Dict<Value>, copy: Dict<Value>)
    requires forall k :: k in Keys(entries) ==> k in Keys(copy)
    ensures var r := NormalizeWith(like, conv, entries, copy);
      && Keys(r) == Keys(copy)
      && (forall k :: !like(k) || k !in Keys(entries) ==> Lookup(r, k) == Lookup(copy, k))
    decreases |entries|
  {
    if entries != [] {
      var k := entries[0].0;
      var rest := entries[1..];
      assert Keys(entries) == [k] + Keys(rest);
      NormalizeKeys(like, conv, rest, if like(k) then Put(copy, k, VInt(conv(entries[0].1))) else copy);
    }
  }

  /** The entries after the first of a dict with distinct keys: distinct keys, none of
      them the first key. */
  lemma DistinctTail<V>(d: Dict<V>)
    requires d != [] && DistinctKeys(d)
    ensures DistinctKeys(d[1..]) && d[0].0 !in Keys(d[1..])
  {
    assert forall i :: 0 <= i < |d[1..]| ==> d[1..][i] == d[i + 1];
  }

  /** A key that is not visited keeps the value it has in the copy. */
  lemma {:induction false} NormalizeUntouched(like: string -> bool, conv: Value -> int, entries: Dict<Value>, copy: Dict<Value>, key: string)
    requires key !in Keys(entries)
    ensures Lookup(NormalizeWith(like, conv, entries, copy), key) == Lookup(copy, key)
    decreases |entries|
  {
    if entries != [] {
      var k := entries[0].0;
      assert Keys(entries) == [k] + Keys(entries[1..]);
      NormalizeUntouched(like, conv, entries[1..], if like(k) then Put(copy, k, VInt(conv(entries[0].1))) else copy, key);
    }
  }

  /** Keys being distinct, each converted key holds the conversion of its original value. */
  lemma {:induction false} NormalizeConverts(like: string -> bool, conv: Value -> int, entries: Dict<Value>, copy: Dict<Value>)
    requires DistinctKeys(entries)
    ensures var r := NormalizeWith(like, conv, entries, copy);
      forall i :: 0 <= i < |entries| && like(entries[i].0) ==>
        Lookup(r, entries[i].0) == Some(VInt(conv(entries[i].1)))
    decreases |entries|
  {
    if entries != [] {
      var k := entries[0].0;
      var rest := entries[1..];
      var copy' := if like(k) then Put(copy, k, VInt(conv(entries[0].1))) else copy;
      DistinctTail(entries);
      NormalizeConverts(like, conv, rest, copy');
      NormalizeUntouched(like, conv, rest, copy', k);
      forall i | 0 <= i < |entries| && like(entries[i].0)
        ensures Lookup(NormalizeWith(like, conv, rest, copy'), entries[i].0) == Some(VInt(conv(entries[i].1)))
      {
        if i > 0 {
          assert entries[i] == rest[i - 1];
        }
      }
    }
  }

  /** The converted copy has the original keys in the original order; a quantity-like
      key holds `_to_int_safe` of its value and every other key keeps its value. */
  lemma NormalizeItemMeaning(it: Dict<Value>)
    requires DistinctKeys(it)
    ensures var r := NormalizeItem(it);
      && Keys(r) == Keys(it)
      && forall i :: 0 <= i < |it| ==>
           Lookup(r, it[i].0) == Some(if NumericLike(it[i].0) then VInt(ToIntSafe(it[i].1)) else it[i].1)
  {
    NormalizeKeys(NumericLike, ToIntSafe, it, it);
    NormalizeConverts(NumericLike, ToIntSafe, it, it);
    forall i | 0 <= i < |it|
      ensures Lookup(NormalizeItem(it), it[i].0) == Some(if NumericLike(it[i].0) then VInt(ToIntSafe(it[i].1)) else it[i].1)
    {
      if !NumericLike(it[i].0) {
        assert Lookup(it, it[i].0) == Some(it[i].1) by {
          var w := Lookup(it, it[i].0);
          var j :| 0 <= j < |it| && it[j] == (it[i].0, w.value);
        }
      }
    }
  }

  /** `normalize_numeric_fields`: one converted copy per item, in order; the input list is
      a value here, so it is not changed. */
  method NormalizeNumericFields(items: seq<Dict<Value>>) returns (out: seq<Dict<Value>>)
    ensures |out| == |items|
    ensures forall i :: 0 <= i < |items| ==> out[i] == NormalizeItem(items[i])
  {
    out := [];
    var i := 0;
    while i < |items|
      invariant 0 <= i <= |items| && |out| == i
      invariant forall j :: 0 <= j < i ==> out[j] == NormalizeItem(items[j])
    {
      var it := items[i];
      var it2 := it;
      var k := 0;
      assert it[0..] == it;
      while k < |it|
        invariant 0 <= k <= |it|
        invariant NormalizeWith(NumericLike, ToIntSafe, it[k..], it2) == NormalizeItem(it)
      {
        assert it[k..][0] == it[k] && it[k..][1..] == it[k + 1..];
        if NumericLike(it[k].0) {
          it2 := Put(it2, it[k].0, VInt(ToIntSafe(it[k].1)));
        }
        k := k + 1;
      }
      assert it[|it|..] == [];
      out := out + [it2];
      i := i + 1;
    }
  }
}
