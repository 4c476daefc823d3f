/**
 * `_norm_line`, the line normaliser every scan applies before matching:
 * NBSP becomes a space, every run of whitespace becomes one space, and the ends
 * are trimmed. Its meaning is stated by `NormLineIsWordJoin`: the normalised line
 * is the line's words joined by single spaces.
 */
module TextNorm {
  import opened Strings
  import opened Spacing

  /** `_norm_line(s)`. */
  function NormLine(s: string): string {
    Strip(Collapse(ReplaceChar(s, NBSP, ' ')))
  }

  /** The normalised line holds no NBSP, only plain single spaces, and no space at either end. */
  lemma NormLineSpacing(s: string)
    ensures var r := NormLine(s);
      NBSP !in r && OnlyPlainSpaces(r) && NoDoubleSpace(r) && Trimmed(r) && |r| <= |s|
  {
    var c := Collapse(ReplaceChar(s, NBSP, ' '));
    StripKeepsSpacing(c);
  }

  /** Strip cuts a contiguous slice, so single plain spacing survives it. */
  lemma {:induction false} StripKeepsSpacing(s: string)
    requires OnlyPlainSpaces(s) && NoDoubleSpace(s)
    ensures OnlyPlainSpaces(Strip(s)) && NoDoubleSpace(Strip(s))
  {
    var l := LStrip(s);
    var off := |s| - |l|;
    var r := Strip(s);
    assert r == RStrip(l);
    forall k | 0 <= k < |r| ensures r[k] == s[off + k] {
      assert r[k] == l[k];
    }
  }

  /** The meaning of the normaliser: the line's words, joined by single spaces. */
  lemma {:induction false} NormLineIsWordJoin(s: string)
    ensures NormLine(s) == Join(" ", Words(s))
  {
    CollapseCongruent(ReplaceChar(s, NBSP, ' '), s);
    StripCollapseIsWordJoin(s);
  }

  /** Normalising twice is normalising once. */
  lemma {:induction false} NormLineIdempotent(s: string)
    ensures NormLine(NormLine(s)) == NormLine(s)
  {
    var n := NormLine(s);
    ReplaceAbsentChar(n, NBSP, ' ');
    CollapseFixed(n);
    StripFixed(n);
  }

  /** `[f(ln) for ln in lines]`. */
  function MapLines(f: string -> string, lines: seq<string>): (r: seq<string>)
    ensures |r| == |lines|
  {
    if lines == [] then [] else [f(lines[0])] + MapLines(f, lines[1..])
  }

  lemma {:induction false} MapLinesAt(f: string -> string, lines: seq<string>, i: nat)
    requires i < |lines|
    ensures MapLines(f, lines)[i] == f(lines[i])
  {
    if i > 0 {
      MapLinesAt(f, lines[1..], i - 1);
    }
  }

  /** Every line normalised, in order: the view on which the line scans test their patterns. */
  function NormLines(lines: seq<string>): (r: seq<string>)
    ensures |r| == |lines|
  {
    MapLines(NormLine, lines)
  }

  lemma NormLinesAt(lines: seq<string>, i: nat)
    requires i < |lines|
    ensures NormLines(lines)[i] == NormLine(lines[i])
  {
    MapLinesAt(NormLine, lines, i);
  }
}
