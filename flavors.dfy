/**
 * `choose_best_flavor`: which Camelot flavour to read a document's tables with.
 * A flavour fixed by the profile is always chosen; otherwise the flavours are
 * tried in order and the first one that finds a table carrying the declared
 * header wins. Reading the tables and the page text is done by the caller's
 * providers, given here as parameters.
 */
module Flavors {
  import opened Wrappers
  import opened Strings
  import opened Values
  import opened Json
  import opened Fold
  import opened Headers
  import Pages

  type Table = seq<seq<Value>>

  /** What `camelot.read_pdf` gives for one flavour: the tables it found, or the text of
      the exception it raised. */
  datatype Reading = Tables(tables: seq<Table>) | Failed(message: string)

  /** The record kept for a tried flavour. */
  datatype FlavorResult = FlavorResult(tablesFound: nat, headerMatch: bool, matchedTables: seq<nat>, error: Option<string>)

  /** The flavour chosen and the record of every tried flavour, in the order the flavours
      were first tried. `chosen` is `JNull` when no flavour was chosen: Python's `None`,
      which a `null` flavour cannot be told apart from. */
  datatype Choice = Choice(chosen: Json, results: seq<(Json, FlavorResult)>)

  /** `DEFAULT_TRY_FLAVORS`. */
  const DefaultTryFlavors: Json := JArr([JStr("network"), JStr("hybrid"), JStr("stream"), JStr("lattice")])

  /** The record of a flavour, if it was tried. */
  function ResultOf(rs: seq<(Json, FlavorResult)>, f: Json): (r: Option<FlavorResult>)
    ensures r.None? <==> forall i :: 0 <= i < |rs| ==> rs[i].0 != f
  {
    if rs == [] then None
    else if rs[0].0 == f then Some(rs[0].1)
    else
      var r := ResultOf(rs[1..], f);
      assert forall i :: 1 <= i < |rs| ==> rs[i] == rs[1..][i - 1];
      r
  }

  /** Storing the record of a hashable flavour: a flavour tried again keeps its place. */
  function Store(rs: seq<(Json, FlavorResult)>, f: Json, v: FlavorResult): (r: seq<(Json, FlavorResult)>)
    ensures ResultOf(r, f) == Some(v)
    ensures forall g :: g != f ==> ResultOf(r, g) == ResultOf(rs, g)
  {
    if rs == [] then [(f, v)]
    else if rs[0].0 == f then [(f, v)] + rs[1..]
    else [rs[0]] + Store(rs[1..], f, v)
  }

  /** `flavor_results[f] = v`: a list or dict flavour cannot be a key and raises
      TypeError; any other flavour gets the record `v`. */
  function Record(rs: seq<(Json, FlavorResult)>, f: Json, v: FlavorResult): (r: Result<seq<(Json, FlavorResult)>>)
    ensures r.Err? <==> Unhashable(f)
    ensures r.Err? ==> r.error == TypeError
    ensures r.Ok? ==> ResultOf(r.value, f) == Some(v)
    ensures r.Ok? ==> forall g :: g != f ==> ResultOf(r.value, g) == ResultOf(rs, g)
  {
    if Unhashable(f) then Err(TypeError) else Ok(Store(rs, f, v))
  }

  /** The positions holding `true`, in order. */
  function IndexesWhere(flags: seq<bool>): (r: seq<nat>)
    ensures forall i :: i in r <==> 0 <= i < |flags| && flags[i]
    ensures Pages.Increasing(r)
    ensures forall k :: 0 <= k < |r| ==> r[k] < |flags|
  {
    if flags == [] then []
    else
      var init := flags[..|flags| - 1];
      var r := IndexesWhere(init);
      assert forall i :: 0 <= i < |init| ==> init[i] == flags[i];
      if flags[|flags| - 1] then r + [|flags| - 1] else r
  }

  /** One more flag: its position is listed when it is set. */
  lemma IndexesWhereSnoc(flags: seq<bool>, b: bool)
    ensures IndexesWhere(flags + [b]) == IndexesWhere(flags) + (if b then [|flags|] else [])
  {
    assert (flags + [b])[..|flags|] == flags;
  }

  /** Whether each table carries the header. */
  function Carries(db: CharDb, tables: seq<Table>, header: Json): (flags: seq<bool>)
    ensures |flags| == |tables|
    ensures forall i :: 0 <= i < |tables| ==> flags[i] == TableMatchesHeader(db, tables[i], header)
  {
    seq(|tables|, i requires 0 <= i < |tables| => TableMatchesHeader(db, tables[i], header))
  }

  /** The indexes of the tables that carry the header, in order. */
  function Matched(db: CharDb, tables: seq<Table>, header: Json): (r: seq<nat>)
    ensures forall i :: i in r <==> 0 <= i < |tables| && TableMatchesHeader(db, tables[i], header)
    ensures Pages.Increasing(r)
    ensures forall k :: 0 <= k < |r| ==> r[k] < |tables|
  {
    IndexesWhere(Carries(db, tables, header))
  }

  /** `for idx, table in enumerate(tables): if table_matches_header(...): matched.append(idx)`. */
  method MatchedIndexes(db: CharDb, tables: seq<Table>, header: Json) returns (r: seq<nat>)
    ensures r == Matched(db, tables, header)
  {
    r := [];
    var i := 0;
    assert tables[..0] == [];
    while i < |tables|
      invariant 0 <= i <= |tables|
      invariant r == Matched(db, tables[..i], header)
    {
      assert tables[..i + 1] == tables[..i] + [tables[i]];
      MatchedSnoc(db, tables[..i], tables[i], header);
      if TableMatchesHeader(db, tables[i], header) {
        r := r + [i];
      }
      i := i + 1;
    }
    assert tables[..i] == tables;
  }

  /** One more table: its index is listed when it carries the header. */
  lemma MatchedSnoc(db: CharDb, tables: seq<Table>, t: Table, header: Json)
    ensures Matched(db, tables + [t], header) ==
      Matched(db, tables, header) + (if TableMatchesHeader(db, t, header) then [|tables|] else [])
  {
    var b := TableMatchesHeader(db, t, header);
    var longer := Carries(db, tables + [t], header);
    var flags := Carries(db, tables, header);
    forall j | 0 <= j < |tables|
      ensures longer[j] == flags[j]
    {
      assert (tables + [t])[j] == tables[j];
    }
    assert longer[|tables|] == b by {
      assert (tables + [t])[|tables|] == t;
    }
    SnocOf(longer, flags, b);
    IndexesWhereSnoc(flags, b);
  }

  lemma SnocOf(longer: seq<bool>, flags: seq<bool>, b: bool)
    requires |longer| == |flags| + 1 && longer[|flags|] == b
    requires forall j :: 0 <= j < |flags| ==> longer[j] == flags[j]
    ensures longer == flags + [b]
  {
  }

  /** The record of a flavour read without a fallback to the page text. */
  function Entry(db: CharDb, reading: Reading, header: Json): FlavorResult {
    match reading
    case Failed(m) => FlavorResult(0, false, [], Some(m))
    case Tables(ts) =>
      var matched := Matched(db, ts, header);
      FlavorResult(|ts|, matched != [], matched, None)
  }

  /** The record of a fixed flavour: with no matching table, the page text decides
      `header_match` (a failed text read counts as an empty text). */
  function FixedEntry(db: CharDb, reading: Reading, header: Json, text: Option<string>): FlavorResult {
    match reading
    case Failed(m) => FlavorResult(0, false, [], Some(m))
    case Tables(ts) =>
      var matched := Matched(db, ts, header);
      var txt := if text.Some? then text.value else [];
      FlavorResult(|ts|, matched != [] || HeaderTokensInText(db, header, txt), matched, None)
  }

  /** Whether a reading found a table carrying the header. */
  predicate Finds(db: CharDb, reading: Reading, header: Json) {
    reading.Tables? && Matched(db, reading.tables, header) != []
  }

  /** The record a flavour's reading gives. */
  function EntryWith(db: CharDb, read: Json -> Reading, header: Json): Json -> FlavorResult {
    f => Entry(db, read(f), header)
  }

  /** Whether the reading of a flavour finds a table carrying the header. */
  function FindsWith(db: CharDb, read: Json -> Reading, header: Json): Json -> bool {
    f => Finds(db, read(f), header)
  }

  /** The state after the flavours `fs` have been tried in order, or the TypeError of
      the first flavour that cannot be a key. */
  function Tried(db: CharDb, fs: seq<Json>, read: Json -> Reading, header: Json): Result<Choice> {
    TriedWith(fs, EntryWith(db, read, header), FindsWith(db, read, header))
  }

  /** The loop over `fs`, for a flavour's record `entry` and its test `finds`. */
  function TriedWith(fs: seq<Json>, entry: Json -> FlavorResult, finds: Json -> bool): Result<Choice> {
    if fs == [] then Ok(Choice(JNull, []))
    else
      match TriedWith(fs[..|fs| - 1], entry, finds)
      case Err(e) => Err(e)
      case Ok(c) => StepWith(c, fs[|fs| - 1], entry(fs[|fs| - 1]), finds(fs[|fs| - 1]))
  }

  /** One more flavour `f` with record `e`: the record is written, and `f` is chosen when
      none was (`chosen is None`) and it finds the header. */
  function StepWith(c: Choice, f: Json, e: FlavorResult, finds: bool): Result<Choice> {
    match Record(c.results, f, e)
    case Err(err) => Err(err)
    case Ok(rs) => Ok(Choice(if c.chosen == JNull && finds then f else c.chosen, rs))
  }

  /** The state after one more flavour `f`, read with `read`. */
  function TryStep(db: CharDb, c: Choice, f: Json, read: Json -> Reading, header: Json): Result<Choice> {
    StepWith(c, f, Entry(db, read(f), header), Finds(db, read(f), header))
  }

  /** `profile.get("fixed_flavor") or profile.get("flavor")`. */
  function FixedFlavor(profile: Json): Result<Json> {
    match GetOr(profile, "fixed_flavor", JNull)
    case Err(e) => Err(e)
    case Ok(f) => if JTruthy(f) then Ok(f) else GetOr(profile, "flavor", JNull)
  }

  /** What `choose_best_flavor` returns for a profile, given the table reader and the
      page text reader. */
  function Choose(db: CharDb, profile: Json, read: Json -> Reading, text: Option<string>): Result<Choice> {
    match GetOr(profile, "tableau_entete", JStr([]))
    case Err(e) => Err(e)
    case Ok(header) =>
      match FixedFlavor(profile)
      case Err(e) => Err(e)
      case Ok(fixed) =>
        if JTruthy(fixed) then
          match Record([], fixed, FixedEntry(db, read(fixed), header, text))
          case Err(e) => Err(e)
          case Ok(rs) => Ok(Choice(fixed, rs))
        else
          match GetOr(profile, "preferred_flavors", DefaultTryFlavors)
          case Err(e) => Err(e)
          case Ok(tf) =>
            match Iter(tf)
            case Err(e) => Err(e)
            case Ok(fs) => Tried(db, fs, read, header)
  }

  /** `choose_best_flavor(pdf, profile, pages)`. */
  method ChooseBestFlavor(db: CharDb, profile: Json, read: Json -> Reading, text: Option<string>)
    returns (r: Result<Choice>)
    ensures r == Choose(db, profile, read, text)
  {
    var h := GetOr(profile, "tableau_entete", JStr([]));
    if h.Err? {
      return Err(h.error);
    }
    var header := h.value;
    var fx := FixedFlavor(profile);
    if fx.Err? {
      return Err(fx.error);
    }
    var fixed := fx.value;
    if JTruthy(fixed) {
      var entry := ReadFixed(db, read(fixed), header, text);
      var rec := Record([], fixed, entry);
      if rec.Err? {
        return Err(rec.error);
      }
      return Ok(Choice(fixed, rec.value));
    }
    var tf := GetOr(profile, "preferred_flavors", DefaultTryFlavors).value;
    var it := Iter(tf);
    if it.Err? {
      return Err(it.error);
    }
    r := TryFlavors(db, it.value, read, header);
  }

  /** Case 1: the fixed flavour's tables, then the page text when no table matched. */
  method ReadFixed(db: CharDb, reading: Reading, header: Json, text: Option<string>) returns (e: FlavorResult)
    ensures e == FixedEntry(db, reading, header, text)
  {
    if reading.Failed? {
      return FlavorResult(0, false, [], Some(reading.message));
    }
    var matched := MatchedIndexes(db, reading.tables, header);
    var headerMatch := matched != [];
    if !headerMatch {
      var txt := if text.Some? then text.value else [];
      headerMatch := HeaderTokensInText(db, header, txt);
    }
    return FlavorResult(|reading.tables|, headerMatch, matched, None);
  }

  /** Case 2: every flavour in order; the first that finds the header is kept, and the
      first flavour that cannot be a key stops the loop with its TypeError. */
  method TryFlavors(db: CharDb, fs: seq<Json>, read: Json -> Reading, header: Json) returns (r: Result<Choice>)
    ensures r == Tried(db, fs, read, header)
  {
    var results: seq<(Json, FlavorResult)> := [];
    var chosen: Json := JNull;
    var k := 0;
    while k < |fs|
      invariant 0 <= k <= |fs|
      invariant Tried(db, fs[..k], read, header) == Ok(Choice(chosen, results))
    {
      TriedSnoc(db, fs, k, read, header);
      var step := TryOne(db, fs[k], read, header, chosen, results);
      if step.Err? {
        TriedStaysErr(db, fs, k + 1, read, header);
        return step;
      }
      chosen, results := step.value.chosen, step.value.results;
      k := k + 1;
    }
    assert fs[..k] == fs;
    r := Ok(Choice(chosen, results));
  }

  /** Trying one flavour more. */
  lemma TriedSnoc(db: CharDb, fs: seq<Json>, k: nat, read: Json -> Reading, header: Json)
    requires k < |fs| && Tried(db, fs[..k], read, header).Ok?
    ensures Tried(db, fs[..k + 1], read, header) == TryStep(db, Tried(db, fs[..k], read, header).value, fs[k], read, header)
  {
    assert fs[..k + 1][..k] == fs[..k] && fs[..k + 1][k] == fs[k];
    assert EntryWith(db, read, header)(fs[k]) == Entry(db, read(fs[k]), header);
    assert FindsWith(db, read, header)(fs[k]) == Finds(db, read(fs[k]), header);
  }

  /** Once a flavour has raised, trying more flavours does not change the outcome. */
  lemma TriedStaysErr(db: CharDb, fs: seq<Json>, k: nat, read: Json -> Reading, header: Json)
    requires k <= |fs| && Tried(db, fs[..k], read, header).Err?
    ensures Tried(db, fs, read, header) == Tried(db, fs[..k], read, header)
  {
    StaysErr(fs, k, EntryWith(db, read, header), FindsWith(db, read, header));
  }

  lemma {:induction false} StaysErr(fs: seq<Json>, k: nat, entry: Json -> FlavorResult, finds: Json -> bool)
    requires k <= |fs| && TriedWith(fs[..k], entry, finds).Err?
    ensures TriedWith(fs, entry, finds) == TriedWith(fs[..k], entry, finds)
    decreases |fs|
  {
    if k < |fs| {
      var init := fs[..|fs| - 1];
      assert init[..k] == fs[..k];
      StaysErr(init, k, entry, finds);
    } else {
      assert fs[..k] == fs;
    }
  }

  /** One pass of the loop of `TryFlavors`. */
  method TryOne(db: CharDb, flavor: Json, read: Json -> Reading, header: Json,
                chosen: Json, results: seq<(Json, FlavorResult)>)
    returns (r: Result<Choice>)
    ensures r == TryStep(db, Choice(chosen, results), flavor, read, header)
  {
    var reading := read(flavor);
    if reading.Failed? {
      var rec := Record(results, flavor, FlavorResult(0, false, [], Some(reading.message)));
      if rec.Err? {
        return Err(rec.error);
      }
      return Ok(Choice(chosen, rec.value));
    }
    var matched := MatchedIndexes(db, reading.tables, header);
    assert Entry(db, reading, header) == FlavorResult(|reading.tables|, matched != [], matched, None);
    var rec := Record(results, flavor, FlavorResult(|reading.tables|, matched != [], matched, None));
    if rec.Err? {
      return Err(rec.error);
    }
    var chosen' := chosen;
    if matched != [] && chosen == JNull {
      chosen' := flavor;
    }
    return Ok(Choice(chosen', rec.value));
  }

  // ---------------------------------------------------------------------------
  // Properties
  // ---------------------------------------------------------------------------

  /** A fixed flavour that can be a key is chosen whatever its reading gives, even a
      failure, and it is the only flavour recorded; a list or dict fixed flavour raises
      TypeError at the store. */
  lemma FixedIsChosen(db: CharDb, profile: Json, read: Json -> Reading, text: Option<string>)
    requires FixedFlavor(profile).Ok? && JTruthy(FixedFlavor(profile).value)
    ensures var r := Choose(db, profile, read, text);
      var fixed := FixedFlavor(profile).value;
      (r.Err? <==> Unhashable(fixed))
      && (r.Err? ==> r.error == TypeError)
      && (r.Ok? ==> r.value.chosen == fixed && |r.value.results| == 1 && r.value.results[0].0 == fixed)
      && (r.Ok? && read(fixed).Failed? ==> r.value.results[0].1 == FlavorResult(0, false, [], Some(read(fixed).message)))
  {
  }

  /** Flavour `k` of `fs` is the first flavour other than `null` whose reading finds the
      header. */
  predicate FirstFinder(db: CharDb, fs: seq<Json>, read: Json -> Reading, header: Json, k: int) {
    && 0 <= k < |fs|
    && fs[k] != JNull && Finds(db, read(fs[k]), header)
    && forall j :: 0 <= j < k ==> fs[j] == JNull || !Finds(db, read(fs[j]), header)
  }

  /** Trying the flavours raises exactly when one of them is a list or a dict, and then
      with TypeError. */
  lemma TriedRaises(db: CharDb, fs: seq<Json>, read: Json -> Reading, header: Json)
    ensures Tried(db, fs, read, header).Err? <==> exists j :: 0 <= j < |fs| && Unhashable(fs[j])
    ensures Tried(db, fs, read, header).Err? ==> Tried(db, fs, read, header).error == TypeError
  {
    Raises(fs, EntryWith(db, read, header), FindsWith(db, read, header));
  }

  lemma {:induction false} Raises(fs: seq<Json>, entry: Json -> FlavorResult, finds: Json -> bool)
    ensures TriedWith(fs, entry, finds).Err? <==> exists j :: 0 <= j < |fs| && Unhashable(fs[j])
    ensures TriedWith(fs, entry, finds).Err? ==> TriedWith(fs, entry, finds).error == TypeError
  {
    if fs != [] {
      var init, last := fs[..|fs| - 1], fs[|fs| - 1];
      Raises(init, entry, finds);
      var prev := TriedWith(init, entry, finds);
      if prev.Err? {
        var j :| 0 <= j < |init| && Unhashable(init[j]);
        assert fs[j] == init[j];
      } else if !Unhashable(last) {
        forall j | 0 <= j < |fs|
          ensures !Unhashable(fs[j])
        {
          if j < |init| {
            assert fs[j] == init[j];
          }
        }
      }
    }
  }

  /** Without a fixed flavour, trying the flavours raises exactly when one of them cannot
      be a key; otherwise the choice is the first flavour other than `null`, in the order
      tried, whose reading finds a table carrying the header, and None when there is no
      such flavour (a `null` flavour that finds leaves the choice unset). */
  lemma ChosenIsFirstFinder(db: CharDb, fs: seq<Json>, read: Json -> Reading, header: Json)
    ensures var r := Tried(db, fs, read, header);
      (r.Ok? <==> forall j :: 0 <= j < |fs| ==> !Unhashable(fs[j]))
      && (r.Ok? ==> (r.value.chosen == JNull <==>
            forall j :: 0 <= j < |fs| && fs[j] != JNull ==> !Finds(db, read(fs[j]), header)))
      && (r.Ok? && r.value.chosen != JNull ==> exists k :: FirstFinder(db, fs, read, header, k) && r.value.chosen == fs[k])
  {
    var finds := FindsWith(db, read, header);
    var ok := NonNull(finds);
    assert forall f :: ok(f) == (f != JNull && Finds(db, read(f), header));
    TriedRaises(db, fs, read, header);
    TriedChosen(fs, EntryWith(db, read, header), finds);
    FirstOk(fs, ok);
    var r := Tried(db, fs, read, header);
    if r.Ok? && r.value.chosen != JNull {
      var k :| 0 <= k < |fs| && ok(fs[k]) && (forall j :: 0 <= j < k ==> !ok(fs[j])) && ChosenBy(fs, ok) == Some(fs[k]);
      assert FirstFinder(db, fs, read, header, k);
    }
  }

  /** A test that also rejects `null`. */
  function NonNull(finds: Json -> bool): Json -> bool {
    f => f != JNull && finds(f)
  }

  /** `JNull` for no choice. */
  function OrNull(o: Option<Json>): Json {
    if o.Some? then o.value else JNull
  }

  /** The first flavour that passes `ok`, in order. */
  function ChosenBy(fs: seq<Json>, ok: Json -> bool): Option<Json> {
    if fs == [] then None
    else
      var c := ChosenBy(fs[..|fs| - 1], ok);
      if c.None? && ok(fs[|fs| - 1]) then Some(fs[|fs| - 1]) else c
  }

  /** The loop chooses the first flavour other than `null` that finds: choosing a `null`
      flavour leaves the choice unset. */
  lemma {:induction false} TriedChosen(fs: seq<Json>, entry: Json -> FlavorResult, finds: Json -> bool)
    ensures TriedWith(fs, entry, finds).Ok? ==> TriedWith(fs, entry, finds).value.chosen == OrNull(ChosenBy(fs, NonNull(finds)))
  {
    if fs != [] {
      var init, last := fs[..|fs| - 1], fs[|fs| - 1];
      var ok := NonNull(finds);
      TriedChosen(init, entry, finds);
      FirstOk(init, ok);
      var c := ChosenBy(init, ok);
      if c.Some? {
        assert ok(c.value);
      }
      assert ok(last) == (last != JNull && finds(last));
    }
  }

  /** `ChosenBy` gives the first flavour that passes, and None when none does. */
  lemma {:induction false} FirstOk(fs: seq<Json>, ok: Json -> bool)
    ensures ChosenBy(fs, ok).None? <==> forall j :: 0 <= j < |fs| ==> !ok(fs[j])
    ensures ChosenBy(fs, ok).Some? ==>
      exists k :: 0 <= k < |fs| && ok(fs[k]) && (forall j :: 0 <= j < k ==> !ok(fs[j])) && ChosenBy(fs, ok) == Some(fs[k])
  {
    if fs != [] {
      var init := fs[..|fs| - 1];
      FirstOk(init, ok);
      assert forall j :: 0 <= j < |init| ==> init[j] == fs[j];
      if ChosenBy(init, ok).Some? {
        var k :| 0 <= k < |init| && ok(init[k]) && (forall j :: 0 <= j < k ==> !ok(init[j])) && ChosenBy(init, ok) == Some(init[k]);
        assert ok(fs[k]) && ChosenBy(fs, ok) == Some(fs[k]);
      } else if ok(fs[|fs| - 1]) {
        assert ChosenBy(fs, ok) == Some(fs[|fs| - 1]);
      }
    }
  }

  /** When no flavour raises, every tried flavour has a record, the one its reading
      gives, and nothing else has one; when one raises, it is with TypeError. */
  lemma {:induction false} EveryTriedRecorded(db: CharDb, fs: seq<Json>, read: Json -> Reading, header: Json)
    ensures var r := Tried(db, fs, read, header);
      (r.Err? <==> exists j :: 0 <= j < |fs| && Unhashable(fs[j]))
      && (r.Err? ==> r.error == TypeError)
      && (r.Ok? ==> forall f :: f in fs ==> ResultOf(r.value.results, f) == Some(Entry(db, read(f), header)))
      && (r.Ok? ==> forall f :: f !in fs ==> ResultOf(r.value.results, f).None?)
  {
    TriedRaises(db, fs, read, header);
    TriedRecords(db, fs, read, header);
  }

  lemma TriedRecords(db: CharDb, fs: seq<Json>, read: Json -> Reading, header: Json)
    ensures var r := Tried(db, fs, read, header);
      (r.Ok? ==> forall f :: f in fs ==> ResultOf(r.value.results, f) == Some(Entry(db, read(f), header)))
      && (r.Ok? ==> forall f :: f !in fs ==> ResultOf(r.value.results, f).None?)
  {
    var entry := EntryWith(db, read, header);
    Records(fs, entry, FindsWith(db, read, header));
    assert forall f :: entry(f) == Entry(db, read(f), header);
  }

  lemma {:induction false} Records(fs: seq<Json>, entry: Json -> FlavorResult, finds: Json -> bool)
    ensures var r := TriedWith(fs, entry, finds);
      (r.Ok? ==> forall f :: f in fs ==> ResultOf(r.value.results, f) == Some(entry(f)))
      && (r.Ok? ==> forall f :: f !in fs ==> ResultOf(r.value.results, f).None?)
  {
    var r := TriedWith(fs, entry, finds);
    if fs != [] && r.Ok? {
      var init, last := fs[..|fs| - 1], fs[|fs| - 1];
      Records(init, entry, finds);
      InitLast(fs);
      var prev := TriedWith(init, entry, finds);
      assert prev.Ok?;
      var rec := Record(prev.value.results, last, entry(last));
      assert r.value.results == rec.value;
      forall f | f in fs
        ensures ResultOf(r.value.results, f) == Some(entry(f))
      {
        if f != last {
          assert f in init;
        }
      }
      forall f | f !in fs
        ensures ResultOf(r.value.results, f).None?
      {
        assert f !in init && f != last;
      }
    }
  }

  /** A flavour whose reading fails is recorded with no tables and no header match; when
      that flavour is a list or a dict, the store in the `except` branch raises TypeError. */
  lemma FailedReadingRecorded(db: CharDb, fs: seq<Json>, read: Json -> Reading, header: Json, f: Json)
    requires f in fs && read(f).Failed?
    ensures Unhashable(f) ==> Tried(db, fs, read, header) == Err(TypeError)
    ensures Tried(db, fs, read, header).Ok? ==>
      ResultOf(Tried(db, fs, read, header).value.results, f) == Some(FlavorResult(0, false, [], Some(read(f).message)))
  {
    EveryTriedRecorded(db, fs, read, header);
  }
}
