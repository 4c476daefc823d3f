/**
 * Facts about whitespace handling: `re.sub(r"\s+", " ", s).strip()` equals
 * `" ".join(s.split())`, and neither can tell one whitespace character from another.
 */
module Spacing {
  import opened Strings
  import opened Wrappers

  /** `a` and `b` differ at most in which whitespace character stands where. */
  predicate SameUpToSpaces(a: string, b: string) {
    |a| == |b| &&
    forall i :: 0 <= i < |a| ==> (IsSpace(a[i]) <==> IsSpace(b[i])) && (!IsSpace(a[i]) ==> a[i] == b[i])
  }

  lemma {:induction false} LStripCongruent(a: string, b: string)
    requires SameUpToSpaces(a, b)
    ensures SameUpToSpaces(LStrip(a), LStrip(b))
    decreases |a|
  {
    if a != [] && IsSpace(a[0]) {
      assert SameUpToSpaces(a[1..], b[1..]) by {
        forall i | 0 <= i < |a| - 1 ensures a[1..][i] == a[i + 1] && b[1..][i] == b[i + 1] { }
      }
      LStripCongruent(a[1..], b[1..]);
    }
  }

  /** `\s+` cannot tell one whitespace character from another. */
  lemma {:induction false} CollapseCongruent(a: string, b: string)
    requires SameUpToSpaces(a, b)
    ensures Collapse(a) == Collapse(b)
    decreases |a|
  {
    if a != [] {
      assert SameUpToSpaces(a[1..], b[1..]) by {
        forall i | 0 <= i < |a| - 1 ensures a[1..][i] == a[i + 1] && b[1..][i] == b[i + 1] { }
      }
      if IsSpace(a[0]) {
        LStripCongruent(a[1..], b[1..]);
        CollapseCongruent(LStrip(a[1..]), LStrip(b[1..]));
      } else {
        CollapseCongruent(a[1..], b[1..]);
      }
    }
  }

  lemma {:induction false} CollapseAfterWord(w: string, r: string)
    requires forall i :: 0 <= i < |w| ==> !IsSpace(w[i])
    ensures Collapse(w + r) == w + Collapse(r)
    decreases |w|
  {
    if w != [] {
      assert (w + r)[0] == w[0];
      assert (w + r)[1..] == w[1..] + r;
      CollapseAfterWord(w[1..], r);
    } else {
      assert w + r == r;
    }
  }

  lemma {:induction false} RStripAfterPrefix(a: string, y: string)
    requires RStrip(y) != []
    ensures RStrip(a + y) == a + RStrip(y)
    decreases |y|
  {
    var s := a + y;
    assert s[|s| - 1] == y[|y| - 1];
    if IsSpace(y[|y| - 1]) {
      assert s[..|s| - 1] == a + y[..|y| - 1];
      RStripAfterPrefix(a, y[..|y| - 1]);
    }
  }

  lemma {:induction false} LStripIdempotent(s: string)
    ensures LStrip(LStrip(s)) == LStrip(s)
  {
  }

  /** Leading whitespace makes no difference once the result is stripped. */
  lemma {:induction false} StripCollapseSkipsLeading(s: string)
    ensures Strip(Collapse(s)) == Strip(Collapse(LStrip(s)))
  {
    if s != [] && IsSpace(s[0]) {
      var x := Collapse(LStrip(s[1..]));
      assert Collapse(s) == [' '] + x;
      assert ([' '] + x)[1..] == x;
      assert LStrip([' '] + x) == LStrip(x);
    }
  }

  /** A single word is already stripped, with or without one trailing space. */
  lemma {:induction false} StripOfWord(w: string)
    requires w != [] && forall i :: 0 <= i < |w| ==> !IsSpace(w[i])
    ensures Strip(w) == w && Strip(w + [' ']) == w
  {
    assert LStrip(w + [' ']) == w + [' '];
    assert (w + [' '])[..|w|] == w;
    assert RStrip(w + [' ']) == RStrip(w);
  }

  /** Stripping a word, a space and a text that starts with a non-space only strips the text. */
  lemma {:induction false} StripAfterWord(w: string, y: string)
    requires w != [] && !IsSpace(w[0])
    requires y != [] && !IsSpace(y[0])
    ensures Strip((w + [' ']) + y) == (w + [' ']) + Strip(y)
  {
    var a := w + [' '];
    assert (a + y)[0] == w[0];
    assert LStrip(a + y) == a + y;
    assert LStrip(y) == y;
    assert RStrip(y) != [];
    RStripAfterPrefix(a, y);
  }

  /** The words of a text that starts with whitespace are the words after it. */
  lemma {:induction false} WordsAfterSpace(rest: string)
    requires rest != [] && IsSpace(rest[0])
    ensures Words(rest) == Words(LStrip(rest))
  {
    LStripIdempotent(rest);
  }

  lemma {:induction false} LStripSkipsSpace(rest: string)
    requires rest != [] && IsSpace(rest[0])
    ensures LStrip(rest) == LStrip(rest[1..])
  {
  }

  /** A word followed by whitespace collapses to the word, one space, and the rest collapsed. */
  lemma {:induction false} CollapseWordSpace(w: string, rest: string)
    requires w != [] && forall i :: 0 <= i < |w| ==> !IsSpace(w[i])
    requires rest != [] && IsSpace(rest[0])
    ensures Collapse(w + rest) == (w + [' ']) + Collapse(LStrip(rest))
  {
    var c := Collapse(LStrip(rest));
    assert Collapse(rest) == [' '] + c by { LStripSkipsSpace(rest); }
    assert Collapse(w + rest) == w + Collapse(rest) by { CollapseAfterWord(w, rest); }
    ConcatAssoc(w, [' '], c);
  }

  /** The last word of a line, followed only by whitespace. */
  lemma {:induction false} WordThenNothing(w: string, rest: string)
    requires w != [] && forall i :: 0 <= i < |w| ==> !IsSpace(w[i])
    requires rest != [] && IsSpace(rest[0])
    requires LStrip(rest) == []
    ensures Strip(Collapse(w + rest)) == Join(" ", [w] + Words(rest))
  {
    CollapseWordSpace(w, rest);
    WordsAfterSpace(rest);
    assert Words(rest) == [];
    StripOfWord(w);
    assert (w + [' ']) + [] == w + [' '];
  }

  /** A word followed by whitespace and further words. */
  lemma {:induction false} WordThenMore(w: string, rest: string)
    requires w != [] && forall i :: 0 <= i < |w| ==> !IsSpace(w[i])
    requires rest != [] && IsSpace(rest[0])
    requires LStrip(rest) != []
    requires Strip(Collapse(LStrip(rest))) == Join(" ", Words(LStrip(rest)))
    ensures Strip(Collapse(w + rest)) == Join(" ", [w] + Words(rest))
  {
    var u := LStrip(rest);
    CollapseWordSpace(w, rest);
    WordsAfterSpace(rest);
    StripAfterWord(w, Collapse(u));
    var ws := Words(u);
    assert ws != [];
    JoinCons(" ", w, ws);
  }

  /** A word with nothing after it. */
  lemma {:induction false} WordAlone(w: string, rest: string)
    requires w != [] && forall i :: 0 <= i < |w| ==> !IsSpace(w[i])
    requires rest == []
    ensures Strip(Collapse(w + rest)) == Join(" ", [w] + Words(rest))
  {
    EmptyRight(w);
    CollapseAfterWord(w, []);
    assert Collapse([]) == [];
    StripOfWord(w);
    assert Words([]) == [];
    EmptyRight([w]);
  }

  /** One unfolding of `Words`: the first word and what follows it. */
  lemma {:induction false} WordsUnfold(s: string)
    requires LStrip(s) != []
    ensures var t := LStrip(s); var w := TakeWord(t);
      && t == w + t[|w|..] && w != []
      && (forall i :: 0 <= i < |w| ==> !IsSpace(w[i]))
      && (t[|w|..] != [] ==> IsSpace(t[|w|..][0]))
      && Words(s) == [w] + Words(t[|w|..])
  {
  }

  /** One word step of `StripCollapseIsWordJoin`, given the fact for the text after the word. */
  lemma {:induction false} WordStep(w: string, rest: string)
    requires w != [] && forall i :: 0 <= i < |w| ==> !IsSpace(w[i])
    requires rest != [] ==> IsSpace(rest[0])
    requires LStrip(rest) != [] ==> Strip(Collapse(LStrip(rest))) == Join(" ", Words(LStrip(rest)))
    ensures Strip(Collapse(w + rest)) == Join(" ", [w] + Words(rest))
  {
    if rest == [] {
      WordAlone(w, rest);
    } else if LStrip(rest) == [] {
      WordThenNothing(w, rest);
    } else {
      WordThenMore(w, rest);
    }
  }

  /** A text of whitespace only has no words and normalises to nothing. */
  lemma {:induction false} NoWords(s: string)
    requires LStrip(s) == []
    ensures Strip(Collapse(s)) == [] && Words(s) == []
  {
    StripCollapseSkipsLeading(s);
  }

  /** The text after the first word of `s` (after its leading whitespace). */
  function AfterFirstWord(s: string): string {
    var t := LStrip(s);
    t[|TakeWord(t)|..]
  }

  /** `StripCollapseIsWordJoin` for a text with a first word, given the fact for the rest. */
  lemma {:induction false} SomeWords(s: string)
    requires LStrip(s) != []
    requires var u := LStrip(AfterFirstWord(s));
      u != [] ==> Strip(Collapse(u)) == Join(" ", Words(u))
    ensures Strip(Collapse(s)) == Join(" ", Words(s))
  {
    var t := LStrip(s);
    var w := TakeWord(t);
    var rest := AfterFirstWord(s);
    StripCollapseSkipsLeading(s);
    WordsUnfold(s);
    WordStep(w, rest);
  }

  /** `re.sub(r"\s+", " ", s).strip()` is `" ".join(s.split())`. */
  lemma {:induction false} StripCollapseIsWordJoin(s: string)
    ensures Strip(Collapse(s)) == Join(" ", Words(s))
    decreases |s|
  {
    if LStrip(s) == [] {
      NoWords(s);
    } else {
      var u := LStrip(AfterFirstWord(s));
      if u != [] {
        StripCollapseIsWordJoin(u);
      }
      SomeWords(s);
    }
  }
}
