/** The Python `str` operations the extraction code relies on, over `seq<char>`. */
module Strings {
  import opened Wrappers

  const NBSP: char := '\U{a0}'

  /** `str.isspace()`, which is also the class `\s` matches in a `str` pattern. */
  predicate IsSpace(c: char) {
    || ('\t' <= c <= '\r') || ('\U{1c}' <= c <= ' ')
    || c == '\U{85}' || c == NBSP || c == '\U{1680}'
    || ('\U{2000}' <= c <= '\U{200a}')
    || c == '\U{2028}' || c == '\U{2029}' || c == '\U{202f}' || c == '\U{205f}' || c == '\U{3000}'
  }

  /** Every whitespace character of `s` is a plain space. */
  predicate OnlyPlainSpaces(s: string) {
    forall i :: 0 <= i < |s| && IsSpace(s[i]) ==> s[i] == ' '
  }

  /** `s` holds no run of two or more whitespace characters. */
  predicate NoDoubleSpace(s: string) {
    forall i, j :: 0 <= i < |s| && 0 <= j < |s| && j == i + 1 ==> !(IsSpace(s[i]) && IsSpace(s[j]))
  }

  /** `s` neither starts nor ends with whitespace. */
  predicate Trimmed(s: string) {
    s != [] ==> !IsSpace(s[0]) && !IsSpace(s[|s| - 1])
  }

  /** `str.lstrip()`: the suffix left after the leading whitespace. */
  function LStrip(s: string): (r: string)
    ensures |r| <= |s| && r == s[|s| - |r|..]
    ensures r != [] ==> !IsSpace(r[0])
    ensures forall i :: 0 <= i < |s| - |r| ==> IsSpace(s[i])
    decreases |s|
  {
    if s != [] && IsSpace(s[0]) then LStrip(s[1..]) else s
  }

  /** `str.rstrip()`: the prefix left before the trailing whitespace. */
  function RStrip(s: string): (r: string)
    ensures |r| <= |s| && r == s[..|r|]
    ensures r != [] ==> !IsSpace(r[|r| - 1])
    ensures forall i :: |r| <= i < |s| ==> IsSpace(s[i])
    decreases |s|
  {
    if s != [] && IsSpace(s[|s| - 1]) then RStrip(s[..|s| - 1]) else s
  }

  /** `str.strip()`. */
  function Strip(s: string): (r: string)
    ensures Trimmed(r) && |r| <= |s|
  {
    var l := LStrip(s);
    var r := RStrip(l);
    assert r != [] ==> r[0] == l[0];
    r
  }

  /** `re.sub(r"\s+", " ", s)`: every maximal run of whitespace becomes one space. */
  function Collapse(s: string): (r: string)
    ensures OnlyPlainSpaces(r) && NoDoubleSpace(r) && |r| <= |s|
    ensures s != [] && !IsSpace(s[0]) ==> r != [] && r[0] == s[0]
    ensures s != [] && IsSpace(s[0]) ==> r != [] && r[0] == ' '
    ensures s == [] <==> r == []
    decreases |s|
  {
    if s == [] then []
    else if IsSpace(s[0]) then
      var rest := Collapse(LStrip(s[1..]));
      CleanCons(' ', rest);
      [' '] + rest
    else
      var rest := Collapse(s[1..]);
      CleanCons(s[0], rest);
      [s[0]] + rest
  }

  /** A character put before a collapsed text keeps it collapsed, unless it makes a run. */
  lemma CleanCons(c: char, rest: string)
    requires OnlyPlainSpaces(rest) && NoDoubleSpace(rest)
    requires IsSpace(c) ==> c == ' ' && (rest == [] || !IsSpace(rest[0]))
    ensures OnlyPlainSpaces([c] + rest) && NoDoubleSpace([c] + rest)
  {
    var r := [c] + rest;
    forall i | 0 <= i < |r| && IsSpace(r[i])
      ensures r[i] == ' '
    {
      if i > 0 {
        assert r[i] == rest[i - 1];
      }
    }
    forall i, j | 0 <= i < |r| && 0 <= j < |r| && j == i + 1
      ensures !(IsSpace(r[i]) && IsSpace(r[j]))
    {
      if i > 0 {
        assert r[i] == rest[i - 1] && r[j] == rest[j - 1];
      }
    }
  }

  /** `s.replace(a, b)` for single characters. */
  function ReplaceChar(s: string, a: char, b: char): (r: string)
    ensures |r| == |s|
    ensures forall i :: 0 <= i < |s| ==> r[i] == if s[i] == a then b else s[i]
  {
    if s == [] then [] else [if s[0] == a then b else s[0]] + ReplaceChar(s[1..], a, b)
  }

  /** `s.replace(a, "")` for a single character. */
  function RemoveChar(s: string, a: char): (r: string)
    ensures a !in r && |r| <= |s|
    ensures forall c :: c != a ==> multiset(r)[c] == multiset(s)[c]
  {
    if s == [] then []
    else
      assert s == [s[0]] + s[1..];
      (if s[0] == a then [] else [s[0]]) + RemoveChar(s[1..], a)
  }

  /** `s.count(c)` for a single character. */
  function Count(s: string, c: char): nat {
    multiset(s)[c]
  }

  /** `t in s` for strings: `t` occurs in `s` as a contiguous substring. */
  predicate IsSubstring(t: string, s: string)
    decreases |s|
  {
    t <= s || (s != [] && IsSubstring(t, s[1..]))
  }

  /** `s.startswith(p)`. */
  predicate StartsWith(s: string, p: string) {
    p <= s
  }

  /** `sep.join(parts)`. */
  function Join(sep: string, parts: seq<string>): string {
    if parts == [] then []
    else if |parts| == 1 then parts[0]
    else parts[0] + sep + Join(sep, parts[1..])
  }

  /** `s.split(sep)` for a one-character separator. */
  function Split(s: string, sep: char): (r: seq<string>)
    ensures |r| == Count(s, sep) + 1
    ensures forall i :: 0 <= i < |r| ==> sep !in r[i]
  {
    if s == [] then [""]
    else
      var rest := Split(s[1..], sep);
      assert s == [s[0]] + s[1..];
      if s[0] == sep then [""] + rest else [[s[0]] + rest[0]] + rest[1..]
  }

  /** The longest prefix of `s` that holds no whitespace. */
  function TakeWord(s: string): (w: string)
    ensures w <= s
    ensures forall i :: 0 <= i < |w| ==> !IsSpace(w[i])
    ensures |w| < |s| ==> IsSpace(s[|w|])
  {
    if s == [] || IsSpace(s[0]) then [] else [s[0]] + TakeWord(s[1..])
  }

  /** A text that starts with a non-space starts with a word. */
  lemma WordHead(t: string)
    requires t != [] && !IsSpace(t[0])
    ensures 0 < |TakeWord(t)| <= |t|
  {
    assert TakeWord(t) == [t[0]] + TakeWord(t[1..]);
  }

  /** `s.split()`: the maximal runs of non-whitespace, in order. */
  function Words(s: string): (r: seq<string>)
    ensures forall i :: 0 <= i < |r| ==> r[i] != [] && forall j :: 0 <= j < |r[i]| ==> !IsSpace(r[i][j])
    decreases |s|
  {
    var t := LStrip(s);
    if t == [] then []
    else
      WordHead(t);
      var w := TakeWord(t);
      var rest := Words(t[|w|..]);
      WordsCons(w, rest);
      [w] + rest
  }

  /** A word in front of words gives words. */
  lemma WordsCons(w: string, rest: seq<string>)
    requires w != [] && forall j :: 0 <= j < |w| ==> !IsSpace(w[j])
    requires forall i :: 0 <= i < |rest| ==> rest[i] != [] && forall j :: 0 <= j < |rest[i]| ==> !IsSpace(rest[i][j])
    ensures forall i :: 0 <= i < |[w] + rest| ==> ([w] + rest)[i] != [] && forall j :: 0 <= j < |([w] + rest)[i]| ==> !IsSpace(([w] + rest)[i][j])
  {
    forall i | 0 <= i < |[w] + rest|
      ensures ([w] + rest)[i] != [] && forall j :: 0 <= j < |([w] + rest)[i]| ==> !IsSpace(([w] + rest)[i][j])
    {
      if i == 0 {
        assert ([w] + rest)[i] == w;
      } else {
        assert ([w] + rest)[i] == rest[i - 1];
      }
    }
  }

  /** `s.replace(pat, rep)`: non-overlapping occurrences, scanned left to right. */
  function ReplaceAll(s: string, pat: string, rep: string): string
    requires pat != []
    decreases |s|
  {
    if |s| < |pat| then s
    else if s[..|pat|] == pat then rep + ReplaceAll(s[|pat|..], pat, rep)
    else [s[0]] + ReplaceAll(s[1..], pat, rep)
  }

  predicate IsDigit(c: char) {
    '0' <= c <= '9'
  }

  /** `s.isdigit()` (ASCII digits). */
  predicate IsDigits(s: string) {
    s != [] && forall i :: 0 <= i < |s| ==> IsDigit(s[i])
  }

  /** `int(s)` for a string of decimal digits. */
  function DigitsValue(s: string): nat
    requires forall i :: 0 <= i < |s| ==> IsDigit(s[i])
  {
    if s == [] then 0
    else
      assert IsDigit(s[|s| - 1]);
      DigitsValue(s[..|s| - 1]) * 10 + (s[|s| - 1] as int - '0' as int)
  }

  /** The decimal rendering of a natural number, `str(n)`, without leading zeros. */
  function NatString(n: nat): (s: string)
    ensures IsDigits(s)
    ensures DigitsValue(s) == n
  {
    var d := ['0' + ((n % 10) as char)];
    if n < 10 then d
    else
      var s := NatString(n / 10) + d;
      assert s[..|s| - 1] == NatString(n / 10);
      s
  }

  /** `str.lower()` on ASCII letters; every other character is left as it is. */
  function AsciiLower(s: string): (r: string)
    ensures |r| == |s|
  {
    if s == [] then []
    else [if 'A' <= s[0] <= 'Z' then (s[0] as int + 32) as char else s[0]] + AsciiLower(s[1..])
  }

  // ---------------------------------------------------------------------------
  // Facts about the operations above
  // ---------------------------------------------------------------------------

  /** `s.strip()` is empty exactly when every character of `s` is whitespace. */
  lemma StripEmptyIff(s: string)
    ensures Strip(s) == [] <==> forall i :: 0 <= i < |s| ==> IsSpace(s[i])
  {
    var l := LStrip(s);
    if l != [] {
      assert !IsSpace(s[|s| - |l|]);
    }
  }

  /** Collapse leaves alone a string whose whitespace is already single plain spaces. */
  lemma {:induction false} CollapseFixed(s: string)
    requires OnlyPlainSpaces(s) && NoDoubleSpace(s)
    ensures Collapse(s) == s
    decreases |s|
  {
    if s != [] {
      var t := s[1..];
      assert OnlyPlainSpaces(t) && NoDoubleSpace(t) by {
        forall i | 0 <= i < |t| ensures IsSpace(t[i]) ==> t[i] == ' ' { assert t[i] == s[i + 1]; }
        forall i | 0 <= i < |t| - 1 ensures !(IsSpace(t[i]) && IsSpace(t[i + 1])) {
          assert t[i] == s[i + 1] && t[i + 1] == s[i + 2];
        }
      }
      CollapseFixed(t);
      if IsSpace(s[0]) {
        assert t != [] ==> !IsSpace(t[0]);
        assert LStrip(t) == t;
      }
    }
  }

  /** Strip leaves alone a string that is already trimmed. */
  lemma StripFixed(s: string)
    requires Trimmed(s)
    ensures Strip(s) == s
  {
  }

  /** Joining a part in front of non-empty parts puts one separator between them. */
  lemma JoinCons(sep: string, w: string, ws: seq<string>)
    requires ws != []
    ensures Join(sep, [w] + ws) == w + sep + Join(sep, ws)
  {
    assert ([w] + ws)[0] == w;
    assert ([w] + ws)[1..] == ws;
  }

  lemma {:induction false} ReplaceAbsentChar(s: string, a: char, b: char)
    requires a !in s
    ensures ReplaceChar(s, a, b) == s
  {
    var r := ReplaceChar(s, a, b);
    forall i | 0 <= i < |s| ensures r[i] == s[i] {
      assert s[i] != a;
    }
  }

  lemma {:induction false} RemoveAbsentChar(s: string, a: char)
    requires a !in s
    ensures RemoveChar(s, a) == s
    decreases |s|
  {
    if s != [] {
      assert s[0] != a && a !in s[1..];
      RemoveAbsentChar(s[1..], a);
      assert s == [s[0]] + s[1..];
    }
  }

  lemma {:induction false} SplitAbsent(s: string, sep: char)
    requires sep !in s
    ensures Split(s, sep) == [s]
    decreases |s|
  {
    if s != [] {
      assert s[0] != sep && sep !in s[1..];
      SplitAbsent(s[1..], sep);
      assert s == [s[0]] + s[1..];
    }
  }

  /** One character more in front of a split text. */
  lemma SplitCons(x: char, s: string, sep: char)
    ensures Split([x] + s, sep) ==
      if x == sep then [""] + Split(s, sep) else [[x] + Split(s, sep)[0]] + Split(s, sep)[1..]
  {
    assert ([x] + s)[0] == x && ([x] + s)[1..] == s;
  }

  /** Splitting and joining back with the same separator gives the text again. */
  lemma {:induction false} SplitJoin(s: string, sep: char)
    ensures Join([sep], Split(s, sep)) == s
    decreases |s|
  {
    if s != [] {
      SplitJoin(s[1..], sep);
      SplitJoinStep(s, sep);
    }
  }

  lemma {:induction false} SplitJoinStep(s: string, sep: char)
    requires s != [] && Join([sep], Split(s[1..], sep)) == s[1..]
    ensures Join([sep], Split(s, sep)) == s
  {
    var rest := Split(s[1..], sep);
    HeadTail(s);
    SplitCons(s[0], s[1..], sep);
    if s[0] == sep {
      JoinCons([sep], "", rest);
    } else if |rest| > 1 {
      JoinGlue(s[0], rest, [sep]);
    }
  }

  /** Gluing a character onto the first part glues it onto the joined text. */
  lemma {:induction false} JoinGlue(c: char, parts: seq<string>, sep: string)
    requires |parts| > 1
    ensures Join(sep, [[c] + parts[0]] + parts[1..]) == [c] + Join(sep, parts)
  {
    var q := [[c] + parts[0]] + parts[1..];
    assert q[1..] == parts[1..];
    assert q[0] == [c] + parts[0];
  }

  /** A substring of one part is a substring of the joined text. */
  lemma {:induction false} SubstringOfJoin(t: string, sep: string, parts: seq<string>, k: nat)
    requires k < |parts| && IsSubstring(t, parts[k])
    ensures IsSubstring(t, Join(sep, parts))
    decreases |parts|
  {
    if |parts| > 1 {
      if k == 0 {
        SubstringOfPrefix(t, parts[0], sep + Join(sep, parts[1..]));
        assert parts[0] + sep + Join(sep, parts[1..]) == parts[0] + (sep + Join(sep, parts[1..]));
      } else {
        SubstringOfJoin(t, sep, parts[1..], k - 1);
        SubstringOfSuffix(t, parts[0] + sep, Join(sep, parts[1..]));
        assert parts[0] + sep + Join(sep, parts[1..]) == (parts[0] + sep) + Join(sep, parts[1..]);
      }
    }
  }

  lemma {:induction false} SubstringOfPrefix(t: string, a: string, b: string)
    requires IsSubstring(t, a)
    ensures IsSubstring(t, a + b)
    decreases |a|
  {
    if t <= a {
      assert t <= a + b;
    } else {
      SubstringOfPrefix(t, a[1..], b);
      assert (a + b)[1..] == a[1..] + b;
    }
  }

  lemma {:induction false} SubstringOfSuffix(t: string, a: string, b: string)
    requires IsSubstring(t, b)
    ensures IsSubstring(t, a + b)
    decreases |a|
  {
    if a != [] {
      SubstringOfSuffix(t, a[1..], b);
      assert (a + b)[1..] == a[1..] + b;
    } else {
      assert a + b == b;
    }
  }

  /** Where a substring occurs. */
  lemma {:induction false} SubstringAt(p: string, t: string) returns (k: nat)
    requires IsSubstring(p, t)
    ensures k + |p| <= |t| && t[k..k + |p|] == p
    decreases |t|
  {
    if p <= t {
      k := 0;
    } else {
      var k' := SubstringAt(p, t[1..]);
      k := k' + 1;
      assert t[k..k + |p|] == t[1..][k'..k' + |p|];
    }
  }

  /** Occurrence is transitive. */
  lemma SubstringTrans(a: string, b: string, c: string)
    requires IsSubstring(a, b) && IsSubstring(b, c)
    ensures IsSubstring(a, c)
  {
    var i := SubstringAt(a, b);
    var k := SubstringAt(b, c);
    var pre, post := c[..k + i], c[k + i + |a|..];
    assert c[k + i..k + i + |a|] == a by {
      forall m | 0 <= m < |a| ensures c[k + i + m] == a[m] {
        assert c[k + i + m] == c[k..k + |b|][i + m];
      }
    }
    assert c == c[..k + i] + c[k + i..k + i + |a|] + c[k + i + |a|..];
    assert a <= a + post;
    SubstringOfSuffix(a, pre, a + post);
    assert pre + a + post == pre + (a + post);
  }
}
