/**
 * Unicode folding and the accent- and case-insensitive supplier scan of
 * `detect_fournisseur`. The Unicode database is a parameter: `lower` is the full
 * lowercase mapping of one character, `decompose` its full compatibility
 * decomposition (NFKD of that character alone) and `combining` whether its
 * canonical combining class is non-zero. Dropping the combining marks of the
 * per-character decompositions gives the same text as dropping them after NFKD,
 * because canonical reordering only permutes combining marks among themselves.
 */
module Fold {
  import opened Wrappers
  import opened Strings
  import opened Values
  import opened Json

  datatype CharDb = CharDb(lower: char -> string, decompose: char -> string, combining: char -> bool)

  /** Each character replaced by its image, in order. */
  function FlatMap(f: char -> string, s: string): string {
    if s == [] then [] else f(s[0]) + FlatMap(f, s[1..])
  }

  /** The characters of `s` whose combining class is zero, in order. */
  function DropMarks(db: CharDb, s: string): (r: string)
    ensures |r| <= |s|
    ensures forall i :: 0 <= i < |r| ==> !db.combining(r[i])
  {
    if s == [] then []
    else (if db.combining(s[0]) then [] else [s[0]]) + DropMarks(db, s[1..])
  }

  /** `s.lower()`. */
  function Lower(db: CharDb, s: string): string {
    FlatMap(db.lower, s)
  }

  /** `"".join(c for c in unicodedata.normalize("NFKD", s) if not unicodedata.combining(c))`. */
  function StripMarks(db: CharDb, s: string): (r: string)
    ensures forall i :: 0 <= i < |r| ==> !db.combining(r[i])
  {
    DropMarks(db, FlatMap(db.decompose, s))
  }

  /** `normalize_text` of `detect_fournisseur` on a string: NFKD, marks dropped, lowered. */
  function FoldText(db: CharDb, s: string): string {
    Lower(db, StripMarks(db, s))
  }

  /** `normalize_text(pattern)` on a configured pattern: a falsy value gives "" before any
      Unicode call, a truthy non-string makes `unicodedata.normalize` raise TypeError. */
  function FoldPattern(db: CharDb, p: Json): Result<string> {
    if !JTruthy(p) then Ok([])
    else if p.JStr? then Ok(FoldText(db, p.s))
    else Err(TypeError)
  }

  /** `for pattern in patterns: if normalize_text(pattern) in text` from pattern `j` on. */
  function AnyPattern(db: CharDb, pats: seq<Json>, j: nat, folded: string): (r: Result<bool>)
    requires j <= |pats|
    ensures r == Ok(true) ==> exists i :: j <= i < |pats| && FoldPattern(db, pats[i]).Ok? && IsSubstring(FoldPattern(db, pats[i]).value, folded)
    ensures r == Ok(false) ==> forall i :: j <= i < |pats| ==> FoldPattern(db, pats[i]).Ok? && !IsSubstring(FoldPattern(db, pats[i]).value, folded)
    decreases |pats| - j
  {
    if j == |pats| then Ok(false)
    else
      match FoldPattern(db, pats[j])
      case Err(e) => Err(e)
      case Ok(p) => if IsSubstring(p, folded) then Ok(true) else AnyPattern(db, pats, j + 1, folded)
  }

  /** Whether one configuration entry claims the folded text. */
  function Claims(db: CharDb, info: Json, folded: string): Result<bool> {
    match GetOr(info, "fournisseur_patterns", JArr([]))
    case Err(e) => Err(e)
    case Ok(patterns) =>
      match Iter(patterns)
      case Err(e) => Err(e)
      case Ok(pats) => AnyPattern(db, pats, 0, folded)
  }

  /** Whether entry `j` claims the folded text. */
  function ClaimOf(db: CharDb, entries: Dict<Json>, folded: string): nat -> Result<bool> {
    (j: nat) => if j < |entries| then Claims(db, entries[j].1, folded) else Ok(false)
  }

  /** The first entry, from `k` on, that claims the folded text. */
  function FoldScan(db: CharDb, entries: Dict<Json>, k: nat, folded: string): (r: Result<Option<nat>>)
    requires k <= |entries|
    ensures r.Ok? && r.value.Some? ==>
      && k <= r.value.value < |entries|
      && Claims(db, entries[r.value.value].1, folded) == Ok(true)
      && forall j :: k <= j < r.value.value ==> Claims(db, entries[j].1, folded) == Ok(false)
    ensures r == Ok(None) ==> forall j :: k <= j < |entries| ==> Claims(db, entries[j].1, folded) == Ok(false)
  {
    var claim := ClaimOf(db, entries, folded);
    var r := FirstTrue(claim, k, |entries|);
    assert forall j :: k <= j < |entries| ==> claim(j) == Claims(db, entries[j].1, folded);
    r
  }

  /** The dictionary `detect_fournisseur` returns. */
  datatype Detected = Detected(file: string, supplier: string, profile: Json)

  /** What `detect_fournisseur` returns for the text read from the document at `path`. */
  function Detect(db: CharDb, path: string, text: string, config: Json): (r: Result<Detected>)
    ensures r.Ok? ==> r.value.file == path
  {
    if !config.JObj? then Err(AttributeError)
    else
      match FoldScan(db, config.fields, 0, FoldText(db, text))
      case Err(e) => Err(e)
      case Ok(Some(i)) => Ok(Detected(path, config.fields[i].0, config.fields[i].1))
      case Ok(None) => Ok(Detected(path, "unknown", EmptyObj))
  }

  /** The matching loop of `detect_fournisseur`, over the text already read. */
  method DetectFournisseur(db: CharDb, path: string, text: string, config: Json) returns (r: Result<Detected>)
    ensures r == Detect(db, path, text, config)
  {
    if !config.JObj? {
      return Err(AttributeError);
    }
    var folded := FoldText(db, text);
    var entries := config.fields;
    var k := 0;
    while k < |entries|
      invariant 0 <= k <= |entries|
      invariant FoldScan(db, entries, 0, folded) == FoldScan(db, entries, k, folded)
    {
      var info := entries[k].1;
      var patterns := GetOr(info, "fournisseur_patterns", JArr([]));
      if patterns.Err? {
        return Err(patterns.error);
      }
      var pats := Iter(patterns.value);
      if pats.Err? {
        return Err(pats.error);
      }
      var ps := pats.value;
      var j := 0;
      while j < |ps|
        invariant 0 <= j <= |ps|
        invariant AnyPattern(db, ps, 0, folded) == AnyPattern(db, ps, j, folded)
      {
        var p := FoldPattern(db, ps[j]);
        if p.Err? {
          return Err(p.error);
        }
        if IsSubstring(p.value, folded) {
          return Ok(Detected(path, entries[k].0, info));
        }
        j := j + 1;
      }
      k := k + 1;
    }
    return Ok(Detected(path, "unknown", EmptyObj));
  }

  // ---------------------------------------------------------------------------
  // Properties
  // ---------------------------------------------------------------------------

  /** Entry `i` claims the text and no entry before it does. */
  predicate FirstClaim(db: CharDb, entries: Dict<Json>, folded: string, i: int) {
    && 0 <= i < |entries|
    && Claims(db, entries[i].1, folded) == Ok(true)
    && forall j :: 0 <= j < i ==> Claims(db, entries[j].1, folded) == Ok(false)
  }

  /** A successful detection is either the first claiming entry, with its name and profile,
      or, when no entry claims the text, "unknown" with an empty profile. */
  lemma DetectOutcome(db: CharDb, path: string, text: string, config: Json)
    requires Detect(db, path, text, config).Ok?
    ensures var r := Detect(db, path, text, config).value;
      var folded := FoldText(db, text);
      config.JObj? &&
      ((exists i :: FirstClaim(db, config.fields, folded, i) && r == Detected(path, config.fields[i].0, config.fields[i].1))
       || ((forall j :: 0 <= j < |config.fields| ==> Claims(db, config.fields[j].1, folded) == Ok(false))
           && r == Detected(path, "unknown", EmptyObj)))
  {
    var folded := FoldText(db, text);
    var s := FoldScan(db, config.fields, 0, folded);
    if s.value.Some? {
      assert FirstClaim(db, config.fields, folded, s.value.value);
    }
  }

  /** An entry without `fournisseur_patterns` never claims anything. */
  lemma NoPatternsNoClaim(db: CharDb, info: Json, folded: string)
    requires info.JObj? && "fournisseur_patterns" !in Keys(info.fields)
    ensures Claims(db, info, folded) == Ok(false)
  {
    assert GetOr(info, "fournisseur_patterns", JArr([])) == Ok(JArr([]));
  }

  /** A falsy pattern normalises to "", which is in every text: once the scan reaches one
      without having raised, the entry claims the text. */
  lemma {:induction false} FalsyPatternClaims(db: CharDb, pats: seq<Json>, m: nat, j: nat, folded: string)
    requires m <= j < |pats| && !JTruthy(pats[j])
    requires forall i :: m <= i < j ==> FoldPattern(db, pats[i]).Ok?
    ensures AnyPattern(db, pats, m, folded) == Ok(true)
    decreases j - m
  {
    if m == j {
      EmptyIsSubstring(folded);
      assert FoldPattern(db, pats[j]) == Ok([]);
    } else if !IsSubstring(FoldPattern(db, pats[m]).value, folded) {
      FalsyPatternClaims(db, pats, m + 1, j, folded);
    }
  }

  lemma {:induction false} EmptyIsSubstring(s: string)
    ensures IsSubstring([], s)
  {
    assert [] <= s;
  }

  /** A list of non-empty string patterns claims the text exactly when the fold of one of
      them occurs in the fold of the text. */
  lemma StringPatternsClaim(db: CharDb, ps: seq<string>, text: string)
    requires forall i :: 0 <= i < |ps| ==> ps[i] != []
    ensures AnyPattern(db, StrList(ps), 0, FoldText(db, text))
      == Ok(exists i :: 0 <= i < |ps| && IsSubstring(FoldText(db, ps[i]), FoldText(db, text)))
  {
    var folded := FoldText(db, text);
    var js := StrList(ps);
    StringPatternsOk(db, ps, 0, folded);
    var r := AnyPattern(db, js, 0, folded);
    forall i | 0 <= i < |ps|
      ensures FoldPattern(db, js[i]) == Ok(FoldText(db, ps[i]))
    {
      assert js[i] == JStr(ps[i]) && JTruthy(js[i]);
    }
    if r.value {
      var i :| 0 <= i < |js| && FoldPattern(db, js[i]).Ok? && IsSubstring(FoldPattern(db, js[i]).value, folded);
      assert IsSubstring(FoldText(db, ps[i]), folded);
    }
  }

  lemma {:induction false} StringPatternsOk(db: CharDb, ps: seq<string>, j: nat, folded: string)
    requires j <= |ps|
    requires forall i :: 0 <= i < |ps| ==> ps[i] != []
    ensures AnyPattern(db, StrList(ps), j, folded).Ok?
    decreases |ps| - j
  {
    if j < |ps| {
      var js := StrList(ps);
      assert JTruthy(js[j]);
      StringPatternsOk(db, ps, j + 1, folded);
    }
  }

  lemma {:induction false} FlatMapConcat(f: char -> string, a: string, b: string)
    ensures FlatMap(f, a + b) == FlatMap(f, a) + FlatMap(f, b)
    decreases |a|
  {
    if a != [] {
      FlatMapConcat(f, a[1..], b);
      assert (a + b)[1..] == a[1..] + b;
    } else {
      assert a + b == b;
    }
  }

  lemma {:induction false} DropMarksConcat(db: CharDb, a: string, b: string)
    ensures DropMarks(db, a + b) == DropMarks(db, a) + DropMarks(db, b)
    decreases |a|
  {
    if a != [] {
      DropMarksConcat(db, a[1..], b);
      assert (a + b)[1..] == a[1..] + b;
    } else {
      assert a + b == b;
    }
  }

  /** Folding works character by character: the fold of a concatenation is the
      concatenation of the folds. */
  lemma FoldConcat(db: CharDb, a: string, b: string)
    ensures FoldText(db, a + b) == FoldText(db, a) + FoldText(db, b)
  {
    FlatMapConcat(db.decompose, a, b);
    DropMarksConcat(db, FlatMap(db.decompose, a), FlatMap(db.decompose, b));
    FlatMapConcat(db.lower, StripMarks(db, a), StripMarks(db, b));
  }

  /** A pattern that occurs in the raw text still occurs after both sides are folded. */
  lemma FoldKeepsOccurrence(db: CharDb, p: string, t: string)
    requires IsSubstring(p, t)
    ensures IsSubstring(FoldText(db, p), FoldText(db, t))
  {
    var k := SubstringAt(p, t);
    var a, c := t[..k], t[k + |p|..];
    assert t == a + p + c;
    FoldConcat(db, a + p, c);
    FoldConcat(db, a, p);
    var fp := FoldText(db, p);
    assert fp <= fp;
    SubstringOfPrefix(fp, fp, FoldText(db, c));
    SubstringOfSuffix(fp, FoldText(db, a), fp + FoldText(db, c));
    assert FoldText(db, a) + fp + FoldText(db, c) == FoldText(db, a) + (fp + FoldText(db, c));
  }

  /** The lowercase mapping is stable: lowering a lowered character changes nothing. */
  predicate LowerStable(db: CharDb) {
    forall c :: Lower(db, db.lower(c)) == db.lower(c)
  }

  /** With a stable lowercase mapping, `normalize_text` returns lower-case text, since
      lowering is its last step. */
  lemma {:induction false} FoldIsLower(db: CharDb, s: string)
    requires LowerStable(db)
    ensures Lower(db, FoldText(db, s)) == FoldText(db, s)
  {
    LowerTwice(db, StripMarks(db, s));
  }

  lemma {:induction false} LowerTwice(db: CharDb, s: string)
    requires LowerStable(db)
    ensures Lower(db, Lower(db, s)) == Lower(db, s)
    decreases |s|
  {
    if s != [] {
      LowerTwice(db, s[1..]);
      FlatMapConcat(db.lower, db.lower(s[0]), Lower(db, s[1..]));
    }
  }

  /** A database where Unicode's data for the letters of the documented example holds:
      É and é decompose to E and e followed by U+0301, which combines; ™ decomposes to TM. */
  const ExampleDb: CharDb := CharDb(
    c => if 'A' <= c <= 'Z' then [(c as int + 32) as char] else if c == '\U{c9}' then ['\U{e9}'] else [c],
    c => if c == '\U{c9}' then ['E', '\U{301}'] else if c == '\U{e9}' then ['e', '\U{301}']
         else if c == '\U{2122}' then ['T', 'M'] else [c],
    c => c == '\U{301}')

  /** Lower-case ASCII letters fold to themselves. */
  lemma {:induction false} FoldLowerAscii(s: string)
    requires forall i :: 0 <= i < |s| ==> 'a' <= s[i] <= 'z'
    ensures FoldText(ExampleDb, s) == s
    decreases |s|
  {
    if s != [] {
      FoldLowerAscii(s[1..]);
      FoldConcat(ExampleDb, [s[0]], s[1..]);
      assert [s[0]] + s[1..] == s;
    }
  }

  /** One character folds to the lowered, mark-free decomposition of that character. */
  lemma FoldChar(db: CharDb, c: char)
    ensures FoldText(db, [c]) == Lower(db, DropMarks(db, db.decompose(c)))
  {
    var d := db.decompose(c);
    assert [c][1..] == [];
    assert FlatMap(db.decompose, [c]) == d + FlatMap(db.decompose, []);
    assert d + [] == d;
  }

  /** É and é both fold to e. */
  lemma FoldAccentedE(c: char)
    requires c == '\U{c9}' || c == '\U{e9}'
    ensures FoldText(ExampleDb, [c]) == "e"
  {
    FoldChar(ExampleDb, c);
    var e := ExampleDb.decompose(c);
    var b := if c == '\U{c9}' then 'E' else 'e';
    assert e == [b, '\U{301}'];
    assert DropMarks(ExampleDb, e) == [b] + DropMarks(ExampleDb, e[1..]);
    assert Lower(ExampleDb, [b]) == ExampleDb.lower(b) + Lower(ExampleDb, []);
  }

  /** The documented example: "Électricité" folds to "electricite". */
  lemma FoldExample(s: string)
    requires s == "\U{c9}lectricit\U{e9}"
    ensures FoldText(ExampleDb, s) == "electricite"
  {
    var cap, mid, acute := [s[0]], s[1..10], [s[10]];
    assert mid == "lectricit";
    assert "e" + mid + "e" == "electricite";
    Bracketed(s);
    FoldConcat(ExampleDb, cap + mid, acute);
    FoldConcat(ExampleDb, cap, mid);
    FoldMiddle(mid);
    FoldAccentedE(s[0]);
    FoldAccentedE(s[10]);
  }

  /** The unaccented middle of the example folds to itself. */
  lemma FoldMiddle(mid: string)
    requires mid == "lectricit"
    ensures FoldText(ExampleDb, mid) == mid
  {
    FoldLowerAscii(mid);
  }
}
