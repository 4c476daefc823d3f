/**
 * `parse_bl`'s header matching: `normalize_text` (lowered, accents dropped,
 * punctuation dropped, whitespace collapsed), the header tokens, the text of the
 * first rows of a table, and the two tests that a table or a page text carries
 * the header a supplier profile declares.
 */
module Headers {
  import opened Wrappers
  import opened Strings
  import opened Values
  import opened Json
  import opened Fold
  import TextNorm

  /** A character of `string.punctuation`. */
  predicate IsPunctuation(c: char) {
    ('!' <= c <= '/') || (':' <= c <= '@') || ('[' <= c <= '`') || ('{' <= c <= '~')
  }

  predicate NoPunctuation(s: string) {
    forall i :: 0 <= i < |s| ==> !IsPunctuation(s[i])
  }

  /** `"".join(ch for ch in s if ch not in string.punctuation)`. */
  function DropPunctuation(s: string): (r: string)
    ensures NoPunctuation(r) && |r| <= |s|
  {
    if s == [] then []
    else (if IsPunctuation(s[0]) then [] else [s[0]]) + DropPunctuation(s[1..])
  }

  /** `normalize_text` of `parse_bl` on a string: lowered, then accents dropped, then tidied. */
  function NormalizeText(db: CharDb, s: string): (r: string)
    ensures NoPunctuation(r) && OnlyPlainSpaces(r) && NoDoubleSpace(r) && Trimmed(r)
    ensures !db.combining(' ') ==> forall i :: 0 <= i < |r| ==> !db.combining(r[i])
  {
    var t := StripMarks(db, Lower(db, s));
    assert !db.combining(' ') ==> Avoids(db.combining, Tidy(t)) by {
      if !db.combining(' ') {
        assert Avoids(db.combining, t);
        AvoidsTidy(db.combining, t);
      }
    }
    Tidy(t)
  }

  /** The steps of `normalize_text` after the accents: line breaks and tabs to spaces,
      punctuation dropped, whitespace runs collapsed, the ends stripped. */
  function Tidy(t: string): (r: string)
    ensures NoPunctuation(r) && OnlyPlainSpaces(r) && NoDoubleSpace(r) && Trimmed(r)
  {
    var u := ReplaceChar(ReplaceChar(ReplaceChar(t, '\n', ' '), '\r', ' '), '\t', ' ');
    var v := DropPunctuation(u);
    var c := Collapse(v);
    CollapseNoPunctuation(v);
    TextNorm.StripKeepsSpacing(c);
    StripNoPunctuation(c);
    Strip(c)
  }

  /** The order that keeps the docstring's promise of lower-case text: decomposition and
      accents first, lowering last (as in the `normalize_text` of detect_fournisseur.py),
      then the same tidying. */
  function NormalizeLowerLast(db: CharDb, s: string): (r: string)
    ensures NoPunctuation(r) && OnlyPlainSpaces(r) && NoDoubleSpace(r) && Trimmed(r)
  {
    Tidy(FoldText(db, s))
  }

  /** Tidying brings in only spaces. */
  lemma AvoidsTidy(p: char -> bool, t: string)
    requires Avoids(p, t) && !p(' ')
    ensures Avoids(p, Tidy(t))
  {
    var u := ReplaceChar(ReplaceChar(ReplaceChar(t, '\n', ' '), '\r', ' '), '\t', ' ');
    var v := DropPunctuation(u);
    var c := Collapse(v);
    AvoidsReplace(p, t, '\n', ' ');
    AvoidsReplace(p, ReplaceChar(t, '\n', ' '), '\r', ' ');
    AvoidsReplace(p, ReplaceChar(ReplaceChar(t, '\n', ' '), '\r', ' '), '\t', ' ');
    AvoidsDropPunctuation(p, u);
    AvoidsCollapse(p, v);
    AvoidsStrip(p, c);
  }

  /** No character of `s` has the property `p`. */
  predicate Avoids(p: char -> bool, s: string) {
    forall i :: 0 <= i < |s| ==> !p(s[i])
  }

  lemma AvoidsReplace(p: char -> bool, s: string, a: char, b: char)
    requires Avoids(p, s) && !p(b)
    ensures Avoids(p, ReplaceChar(s, a, b))
  {
    var r := ReplaceChar(s, a, b);
    forall i | 0 <= i < |r| ensures !p(r[i]) {
      assert r[i] == if s[i] == a then b else s[i];
    }
  }

  lemma {:induction false} AvoidsDropPunctuation(p: char -> bool, s: string)
    requires Avoids(p, s)
    ensures Avoids(p, DropPunctuation(s))
    decreases |s|
  {
    if s != [] {
      var t := s[1..];
      assert Avoids(p, t) by {
        forall i | 0 <= i < |t| ensures !p(t[i]) { assert t[i] == s[i + 1]; }
      }
      AvoidsDropPunctuation(p, t);
      var h := if IsPunctuation(s[0]) then [] else [s[0]];
      var r := DropPunctuation(s);
      assert r == h + DropPunctuation(t);
      forall i | 0 <= i < |r| ensures !p(r[i]) {
        if i < |h| { assert r[i] == s[0]; } else { assert r[i] == DropPunctuation(t)[i - |h|]; }
      }
    }
  }

  lemma AvoidsLStrip(p: char -> bool, s: string)
    requires Avoids(p, s)
    ensures Avoids(p, LStrip(s))
  {
    var l := LStrip(s);
    forall i | 0 <= i < |l| ensures !p(l[i]) {
      assert l[i] == s[|s| - |l| + i];
    }
  }

  lemma AvoidsStrip(p: char -> bool, s: string)
    requires Avoids(p, s)
    ensures Avoids(p, Strip(s))
  {
    var l := LStrip(s);
    AvoidsLStrip(p, s);
    var r := RStrip(l);
    forall i | 0 <= i < |r| ensures !p(r[i]) {
      assert r[i] == l[i];
    }
    assert Strip(s) == r;
  }

  lemma {:induction false} AvoidsCollapse(p: char -> bool, s: string)
    requires Avoids(p, s) && !p(' ')
    ensures Avoids(p, Collapse(s))
    decreases |s|
  {
    if s != [] {
      var t := s[1..];
      assert Avoids(p, t) by {
        forall i | 0 <= i < |t| ensures !p(t[i]) { assert t[i] == s[i + 1]; }
      }
      var r := Collapse(s);
      if IsSpace(s[0]) {
        AvoidsLStrip(p, t);
        AvoidsCollapse(p, LStrip(t));
        var rest := Collapse(LStrip(t));
        assert r == [' '] + rest;
        forall i | 0 <= i < |r| ensures !p(r[i]) {
          if i > 0 { assert r[i] == rest[i - 1]; }
        }
      } else {
        AvoidsCollapse(p, t);
        var rest := Collapse(t);
        assert r == [s[0]] + rest;
        forall i | 0 <= i < |r| ensures !p(r[i]) {
          if i > 0 { assert r[i] == rest[i - 1]; }
        }
      }
    }
  }

  /** `normalize_text(s)` on a configuration value: anything but a string gives "". */
  function NormalizeValue(db: CharDb, s: Json): (r: string)
    ensures NoPunctuation(r) && OnlyPlainSpaces(r) && NoDoubleSpace(r) && Trimmed(r)
    ensures !s.JStr? ==> r == []
  {
    if s.JStr? then NormalizeText(db, s.s) else []
  }

  lemma {:induction false} LStripNoPunctuation(s: string)
    requires NoPunctuation(s)
    ensures NoPunctuation(LStrip(s))
  {
    var l := LStrip(s);
    forall i | 0 <= i < |l| ensures !IsPunctuation(l[i]) {
      assert l[i] == s[|s| - |l| + i];
    }
  }

  lemma {:induction false} StripNoPunctuation(s: string)
    requires NoPunctuation(s)
    ensures NoPunctuation(Strip(s))
  {
    var l := LStrip(s);
    LStripNoPunctuation(s);
    var r := RStrip(l);
    forall i | 0 <= i < |r| ensures !IsPunctuation(r[i]) {
      assert r[i] == l[i];
    }
    assert Strip(s) == r;
  }

  lemma {:induction false} CollapseNoPunctuation(s: string)
    requires NoPunctuation(s)
    ensures NoPunctuation(Collapse(s))
    decreases |s|
  {
    if s != [] {
      var t := s[1..];
      assert NoPunctuation(t) by {
        forall i | 0 <= i < |t| ensures !IsPunctuation(t[i]) { assert t[i] == s[i + 1]; }
      }
      if IsSpace(s[0]) {
        LStripNoPunctuation(t);
        CollapseNoPunctuation(LStrip(t));
      } else {
        CollapseNoPunctuation(t);
      }
    }
  }

  /** A character a header token may hold. */
  predicate TokenChar(c: char) {
    !IsSpace(c) && !IsPunctuation(c)
  }

  /** `[tok for tok in parts if tok]`. */
  function NonEmpty(parts: seq<string>): (r: seq<string>)
    ensures forall i :: 0 <= i < |r| ==> r[i] != [] && r[i] in parts
  {
    if parts == [] then []
    else (if parts[0] == [] then [] else [parts[0]]) + NonEmpty(parts[1..])
  }

  /** Non-empty tokens made of token characters. */
  predicate CleanTokens(toks: seq<string>) {
    forall i :: 0 <= i < |toks| ==> toks[i] != [] && forall j :: 0 <= j < |toks[i]| ==> TokenChar(toks[i][j])
  }

  /** `header_tokens`: the non-empty pieces of the normalised header split at spaces. */
  function HeaderTokens(db: CharDb, header: Json): (toks: seq<string>)
    ensures CleanTokens(toks)
  {
    var norm := NormalizeValue(db, header);
    SpacePiecesClean(norm);
    NonEmpty(Split(norm, ' '))
  }

  /** The pieces of a normalised text split at spaces are made of token characters. */
  lemma SpacePiecesClean(norm: string)
    requires OnlyPlainSpaces(norm) && NoPunctuation(norm)
    ensures CleanTokens(NonEmpty(Split(norm, ' ')))
  {
    var parts := Split(norm, ' ');
    var toks := NonEmpty(parts);
    forall i, j | 0 <= i < |toks| && 0 <= j < |toks[i]| ensures TokenChar(toks[i][j]) {
      var k :| 0 <= k < |parts| && parts[k] == toks[i];
      SplitPartChars(norm, ' ', k);
      var c := toks[i][j];
      assert c in norm && c != ' ';
    }
  }

  /** Every character of a piece of a split is a character of the split text. */
  lemma {:induction false} SplitPartChars(s: string, sep: char, k: nat)
    requires k < |Split(s, sep)|
    ensures forall c :: c in Split(s, sep)[k] ==> c in s
    decreases |s|
  {
    if s != [] {
      var rest := Split(s[1..], sep);
      assert s == [s[0]] + s[1..];
      if s[0] == sep {
        if k > 0 {
          SplitPartChars(s[1..], sep, k - 1);
        }
      } else {
        if k == 0 {
          SplitPartChars(s[1..], sep, 0);
        } else {
          SplitPartChars(s[1..], sep, k);
        }
      }
    }
  }

  /** The cells of a row other than None, as `str(cell)`. */
  function Present(row: seq<Value>): (r: seq<string>)
    ensures |r| <= |row|
  {
    if row == [] then []
    else (if row[0].VNone? then [] else [PyStr(row[0])]) + Present(row[1..])
  }

  /** `" ".join(str(cell) for cell in row if cell is not None)`. */
  function RowText(row: seq<Value>): string {
    Join(" ", Present(row))
  }

  /** How many rows `table_head_as_text` reads: `max_rows` of them, or all when fewer. */
  function HeadCount(rows: seq<seq<Value>>, maxRows: int): (n: nat)
    ensures n <= |rows| && (n < |rows| ==> n == maxRows || (n == 0 && maxRows <= 0))
  {
    if maxRows <= 0 then 0 else if maxRows < |rows| then maxRows else |rows|
  }

  /** The texts of the rows `table_head_as_text` reads. */
  function HeadLines(rows: seq<seq<Value>>, maxRows: int): (lines: seq<string>)
    ensures |lines| == HeadCount(rows, maxRows)
    ensures forall i :: 0 <= i < |lines| ==> lines[i] == RowText(rows[i])
  {
    seq(HeadCount(rows, maxRows), i requires 0 <= i < HeadCount(rows, maxRows) => RowText(rows[i]))
  }

  /** The normalised text of the first `max_rows` rows of a table. */
  function HeadText(db: CharDb, rows: seq<seq<Value>>, maxRows: int): string {
    NormalizeText(db, Join(" ", HeadLines(rows, maxRows)))
  }

  /** `table_head_as_text(df, max_rows)`: the rows in order, stopping at row `max_rows`. */
  method TableHeadAsText(db: CharDb, rows: seq<seq<Value>>, maxRows: int) returns (r: string)
    ensures r == HeadText(db, rows, maxRows)
  {
    var lines: seq<string> := [];
    var i := 0;
    ghost var n := HeadCount(rows, maxRows);
    while i < |rows|
      invariant 0 <= i <= n
      invariant |lines| == i && forall j :: 0 <= j < i ==> lines[j] == RowText(rows[j])
    {
      if i >= maxRows {
        break;
      }
      lines := lines + [RowText(rows[i])];
      i := i + 1;
    }
    assert i == n;
    assert lines == HeadLines(rows, maxRows);
    r := NormalizeText(db, Join(" ", lines));
  }

  /** `table_matches_header(df, header)`: a falsy header never matches; otherwise every
      header token must occur in the normalised text of the first six rows. */
  predicate TableMatchesHeader(db: CharDb, rows: seq<seq<Value>>, header: Json) {
    JTruthy(header) &&
    var toks := HeaderTokens(db, header);
    forall i :: 0 <= i < |toks| ==> IsSubstring(toks[i], HeadText(db, rows, 6))
  }

  /** `_header_tokens_in_text(header, text)`: the fallback test on the raw page text; a
      falsy header or an empty text never matches. */
  predicate HeaderTokensInText(db: CharDb, header: Json, text: string) {
    JTruthy(header) && text != [] &&
    var words := Words(NormalizeValue(db, header));
    forall i :: 0 <= i < |words| ==> IsSubstring(words[i], NormalizeText(db, text))
  }

  // ---------------------------------------------------------------------------
  // Properties
  // ---------------------------------------------------------------------------

  /** Only the first six rows of a table decide whether it carries the header. */
  lemma TableMatchesWindow(db: CharDb, rows: seq<seq<Value>>, more: seq<seq<Value>>, header: Json)
    requires |rows| >= 6
    ensures TableMatchesHeader(db, rows + more, header) == TableMatchesHeader(db, rows, header)
  {
    var a := HeadLines(rows + more, 6);
    var b := HeadLines(rows, 6);
    forall i | 0 <= i < 6
      ensures a[i] == b[i]
    {
      assert (rows + more)[i] == rows[i];
    }
    assert a == b;
    assert HeadText(db, rows + more, 6) == HeadText(db, rows, 6);
  }

  /** A truthy header that is not a string has no tokens, so it matches every table. */
  lemma NonStringHeaderMatches(db: CharDb, rows: seq<seq<Value>>, header: Json)
    requires JTruthy(header) && !header.JStr?
    ensures TableMatchesHeader(db, rows, header)
  {
    assert NormalizeValue(db, header) == [];
    assert Split([], ' ') == [[]];
    assert NonEmpty([[]]) == [];
    assert HeaderTokens(db, header) == [];
  }

  /** Each token of a normalised header occurs in that normalised header. */
  lemma TokensInNormalized(norm: string)
    ensures var toks := NonEmpty(Split(norm, ' '));
      forall i :: 0 <= i < |toks| ==> IsSubstring(toks[i], norm)
  {
    var parts := Split(norm, ' ');
    var toks := NonEmpty(parts);
    SplitJoin(norm, ' ');
    forall i | 0 <= i < |toks| ensures IsSubstring(toks[i], norm) {
      var k :| 0 <= k < |parts| && parts[k] == toks[i];
      assert parts[k] <= parts[k];
      SubstringOfJoin(parts[k], [' '], parts, k);
    }
  }

  /** A table whose first six rows contain the whole normalised header matches it. */
  lemma HeaderOccurrenceMatches(db: CharDb, rows: seq<seq<Value>>, header: Json)
    requires JTruthy(header)
    requires IsSubstring(NormalizeValue(db, header), HeadText(db, rows, 6))
    ensures TableMatchesHeader(db, rows, header)
  {
    var norm := NormalizeValue(db, header);
    var toks := HeaderTokens(db, header);
    var head := HeadText(db, rows, 6);
    assert toks == NonEmpty(Split(norm, ' '));
    TokensInNormalized(norm);
    forall i | 0 <= i < |toks| ensures IsSubstring(toks[i], head) {
      SubstringTrans(toks[i], norm, head);
    }
  }

  /** A normalised text is its words joined by single spaces. */
  lemma NormalizedIsWordJoin(norm: string)
    requires OnlyPlainSpaces(norm) && NoDoubleSpace(norm) && Trimmed(norm)
    ensures Join(" ", Words(norm)) == norm
  {
    assert NBSP !in norm by {
      forall i | 0 <= i < |norm| ensures norm[i] != NBSP { assert IsSpace(NBSP); }
    }
    ReplaceAbsentChar(norm, NBSP, ' ');
    CollapseFixed(norm);
    StripFixed(norm);
    TextNorm.NormLineIsWordJoin(norm);
  }

  /** A page text whose normalised form contains the whole normalised header passes the
      fallback test. */
  lemma TextOccurrenceMatches(db: CharDb, header: Json, text: string)
    requires JTruthy(header) && text != []
    requires IsSubstring(NormalizeValue(db, header), NormalizeText(db, text))
    ensures HeaderTokensInText(db, header, text)
  {
    var norm := NormalizeValue(db, header);
    var words := Words(norm);
    NormalizedIsWordJoin(norm);
    forall i | 0 <= i < |words| ensures IsSubstring(words[i], NormalizeText(db, text)) {
      assert words[i] <= words[i];
      SubstringOfJoin(words[i], " ", words, i);
      SubstringTrans(words[i], norm, NormalizeText(db, text));
    }
  }

  lemma FlatMapOne(f: char -> string, c: char)
    ensures FlatMap(f, [c]) == f(c)
  {
    assert [c][1..] == [];
    assert f(c) + [] == f(c);
  }

  /** The example database lowers stably. */
  lemma ExampleLowerStable()
    ensures LowerStable(ExampleDb)
  {
    forall c ensures Lower(ExampleDb, ExampleDb.lower(c)) == ExampleDb.lower(c) {
      var d := ExampleDb.lower(c);
      assert |d| == 1;
      FlatMapOne(ExampleDb.lower, d[0]);
      assert d == [d[0]];
    }
  }

  /** `normalize_text` lowers before it decomposes, so a compatibility decomposition can
      bring capitals back: with a database that lowers stably, "™" normalises to "TM",
      which lowering would still change. */
  lemma NotLowerExample(s: string)
    requires s == "\U{2122}"
    ensures LowerStable(ExampleDb)
    ensures NormalizeText(ExampleDb, s) == "TM"
    ensures Lower(ExampleDb, NormalizeText(ExampleDb, s)) != NormalizeText(ExampleDb, s)
  {
    ExampleLowerStable();
    NormalizesToCapitals(s);
    CapitalsNotLower(NormalizeText(ExampleDb, s));
  }

  lemma NormalizesToCapitals(s: string)
    requires s == "\U{2122}"
    ensures NormalizeText(ExampleDb, s) == "TM"
  {
    TradeMarkDecomposes(s);
    var tm := StripMarks(ExampleDb, Lower(ExampleDb, s));
    PlainTextKept(tm);
    assert NormalizeText(ExampleDb, s) == Tidy(tm);
  }

  lemma CapitalsNotLower(t: string)
    requires t == "TM"
    ensures Lower(ExampleDb, t) != t
  {
    var low := Lower(ExampleDb, t);
    assert low == ExampleDb.lower(t[0]) + Lower(ExampleDb, t[1..]);
    assert low[0] == 't';
  }

  /** "™" is left alone by lowering and decomposes to "TM", which has no marks. */
  lemma TradeMarkDecomposes(s: string)
    requires s == "\U{2122}"
    ensures StripMarks(ExampleDb, Lower(ExampleDb, s)) == "TM"
  {
    FlatMapOne(ExampleDb.lower, s[0]);
    assert Lower(ExampleDb, s) == s;
    FlatMapOne(ExampleDb.decompose, s[0]);
    var tm := FlatMap(ExampleDb.decompose, s);
    assert tm == "TM";
    assert DropMarks(ExampleDb, tm) == "TM" by {
      assert DropMarks(ExampleDb, tm) == ['T'] + DropMarks(ExampleDb, tm[1..]);
      assert DropMarks(ExampleDb, tm[1..]) == ['M'] + DropMarks(ExampleDb, tm[2..]);
    }
  }

  /** Decomposing first and lowering last, "™" normalises to "tm", which is lower case. */
  lemma LowerLastExample(s: string)
    requires s == "\U{2122}"
    ensures NormalizeLowerLast(ExampleDb, s) == "tm"
    ensures Lower(ExampleDb, NormalizeLowerLast(ExampleDb, s)) == NormalizeLowerLast(ExampleDb, s)
  {
    FoldChar(ExampleDb, s[0]);
    assert [s[0]] == s;
    var tm := ExampleDb.decompose(s[0]);
    assert tm == "TM";
    assert DropMarks(ExampleDb, tm) == "TM" by {
      assert DropMarks(ExampleDb, tm) == ['T'] + DropMarks(ExampleDb, tm[1..]);
      assert DropMarks(ExampleDb, tm[1..]) == ['M'] + DropMarks(ExampleDb, tm[2..]);
    }
    LowerPair("TM", "tm");
    LowerPair("tm", "tm");
    PlainTextKept("tm");
  }

  /** Lowering two ASCII letters. */
  lemma LowerPair(t: string, l: string)
    requires |t| == 2 && |l| == 2
    requires forall i :: 0 <= i < 2 ==> ('A' <= t[i] <= 'Z' && l[i] == (t[i] as int + 32) as char) || ('a' <= t[i] <= 'z' && l[i] == t[i])
    ensures Lower(ExampleDb, t) == l
  {
    assert Lower(ExampleDb, t) == ExampleDb.lower(t[0]) + Lower(ExampleDb, t[1..]);
    assert Lower(ExampleDb, t[1..]) == ExampleDb.lower(t[1]) + Lower(ExampleDb, t[2..]);
  }

  /** Two ASCII letters. */
  predicate TwoLetters(t: string) {
    |t| == 2 && forall i :: 0 <= i < 2 ==> ('A' <= t[i] <= 'Z' || 'a' <= t[i] <= 'z')
  }

  /** The tidying leaves two letters as they are. */
  lemma PlainTextKept(t: string)
    requires TwoLetters(t)
    ensures Tidy(t) == t
  {
    assert '\n' !in t && '\r' !in t && '\t' !in t;
    ReplaceAbsentChar(t, '\n', ' ');
    ReplaceAbsentChar(t, '\r', ' ');
    ReplaceAbsentChar(t, '\t', ' ');
    LettersKeptByDrop(t);
    LettersKeptByCollapse(t);
    StripFixed(t);
  }

  lemma LettersKeptByDrop(t: string)
    requires TwoLetters(t)
    ensures DropPunctuation(t) == t
  {
    assert t[1..] == [t[1]] && t[1..][1..] == [];
    assert DropPunctuation(t) == [t[0]] + DropPunctuation(t[1..]);
    assert DropPunctuation(t[1..]) == [t[1]] + DropPunctuation([]);
  }

  lemma LettersKeptByCollapse(t: string)
    requires TwoLetters(t)
    ensures Collapse(t) == t && Trimmed(t)
  {
    assert t[1..] == [t[1]] && t[1..][1..] == [];
    assert Collapse(t) == [t[0]] + Collapse(t[1..]);
    assert Collapse(t[1..]) == [t[1]] + Collapse([]);
  }
}
