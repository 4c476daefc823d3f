/**
 * `_to_int_safe`, the lenient integer parser applied to quantity fields.
 * The text of the value is stripped, spaces and NBSPs are removed, a comma
 * becomes a dot, all dots are dropped when there is more than one, and the
 * rest is read as a decimal number and truncated toward zero; anything that
 * is not a number gives 0.
 */
module Numeric {
  import opened Wrappers
  import opened Strings
  import opened Values

  /** Every character of `s` is an ASCII digit (the empty string included). */
  predicate AllDigits(s: string) {
    forall i :: 0 <= i < |s| ==> IsDigit(s[i])
  }

  /** The integer part of an unsigned decimal `d+`, `d+.d*` or `.d+`; None for anything else. */
  function UnsignedTruncated(body: string): Option<int> {
    var parts := Split(body, '.');
    if |parts| == 1 then
      if IsDigits(parts[0]) then Some(DigitsValue(parts[0])) else None
    else if |parts| == 2 then
      var ip, fp := parts[0], parts[1];
      if AllDigits(ip) && AllDigits(fp) && |ip| + |fp| >= 1 then
        Some(DigitsValue(ip))
      else None
    else None
  }

  /** `int(float(s))` for the decimals the model reads: an optional sign, then an unsigned decimal. */
  function ParseTruncated(s: string): Option<int> {
    if s != [] && (s[0] == '+' || s[0] == '-') then
      match UnsignedTruncated(s[1..])
      case None => None
      case Some(m) =>
        var n := if s[0] == '-' then -m else m;
        Some(n)
    else
      match UnsignedTruncated(s)
      case None => None
      case Some(m) => Some(m)
  }

  lemma {:induction false} ParseUnsigned(s: string)
    requires s != [] && IsDigit(s[0])
    ensures ParseTruncated(s) == UnsignedTruncated(s)
  {
  }

  lemma {:induction false} ParseNegative(d: string, m: int)
    requires UnsignedTruncated(d) == Some(m)
    ensures ParseTruncated("-" + d) == Some(-m)
  {
    assert ("-" + d)[1..] == d;
  }

  /** The text `_to_int_safe` hands to `float`. */
  function Cleaned(v: Value): string {
    var s := ReplaceChar(RemoveChar(RemoveChar(Strip(PyStr(v)), ' '), NBSP), ',', '.');
    if Count(s, '.') > 1 then RemoveChar(s, '.') else s
  }

  /** `_to_int_safe(v)`. `float` ignores surrounding whitespace, hence the second strip. */
  function ToIntSafe(v: Value): int {
    ReadInt(Strip(Cleaned(v)))
  }

  /** `int(float(t))`, or 0 when `float` raises. */
  function ReadInt(t: string): int {
    match ParseTruncated(t)
    case None => 0
    case Some(n) => n
  }

  // ---------------------------------------------------------------------------
  // What `_to_int_safe` reads
  // ---------------------------------------------------------------------------

  lemma {:induction false} DigitsHaveNoSpace(s: string)
    requires AllDigits(s)
    ensures Trimmed(s) && ' ' !in s && NBSP !in s && ',' !in s && '.' !in s
  {
  }

  /** A trimmed text with no space, NBSP or comma and at most one dot reaches `float` unchanged. */
  lemma {:induction false} CleanedPlain(s: string)
    requires Trimmed(s) && ' ' !in s && NBSP !in s && ',' !in s && Count(s, '.') <= 1
    ensures Strip(Cleaned(VStr(s))) == s
  {
    StripFixed(s);
    assert Strip(PyStr(VStr(s))) == s;
    RemoveAbsentChar(s, ' ');
    RemoveAbsentChar(s, NBSP);
    ReplaceAbsentChar(s, ',', '.');
    assert ReplaceChar(RemoveChar(RemoveChar(s, ' '), NBSP), ',', '.') == s;
    assert Cleaned(VStr(s)) == s;
  }

  /** An unsigned digit string reads as its value. */
  lemma {:induction false} UnsignedDigits(d: string)
    requires IsDigits(d)
    ensures UnsignedTruncated(d) == Some(DigitsValue(d))
  {
    DigitsHaveNoSpace(d);
    SplitAbsent(d, '.');
  }

  /** A plain digit string reads as its value. */
  lemma {:induction false} ToIntSafeDigits(s: string)
    requires IsDigits(s)
    ensures ToIntSafe(VStr(s)) == DigitsValue(s)
  {
    DigitsHaveNoSpace(s);
    assert Count(s, '.') == 0;
    CleanedPlain(s);
    UnsignedDigits(s);
    ParseUnsigned(s);
  }

  lemma {:induction false} NegativePlain(d: string)
    requires IsDigits(d)
    ensures Strip(Cleaned(VStr("-" + d))) == "-" + d
  {
    var s := "-" + d;
    DigitsHaveNoSpace(d);
    assert s[1..] == d && s[0] == '-';
    assert Trimmed(s) by { assert s[|s| - 1] == d[|d| - 1]; }
    assert ' ' !in s && NBSP !in s && ',' !in s && '.' !in s;
    assert Count(s, '.') == 0;
    CleanedPlain(s);
  }

  /** A minus sign in front of a digit string. */
  lemma {:induction false} NegativeDigits(d: string)
    requires IsDigits(d)
    ensures ToIntSafe(VStr("-" + d)) == -(DigitsValue(d) as int)
  {
    var s := "-" + d;
    NegativePlain(d);
    UnsignedDigits(d);
    var m: int := DigitsValue(d);
    ParseNegative(d, m);
  }

  /** `_to_int_safe(str(n)) == n`: converting an already converted field changes nothing. */
  lemma {:induction false} ToIntSafeOfInt(n: int)
    ensures ToIntSafe(VStr(IntString(n))) == n
    ensures ToIntSafe(VInt(n)) == n
  {
    if n >= 0 {
      ToIntSafeDigits(NatString(n));
    } else {
      NegativeDigits(NatString(-n));
    }
    assert PyStr(VInt(n)) == PyStr(VStr(IntString(n)));
    assert Cleaned(VInt(n)) == Cleaned(VStr(IntString(n)));
  }

  /** Converting twice is converting once. */
  lemma {:induction false} ToIntSafeIdempotent(v: Value)
    ensures ToIntSafe(VInt(ToIntSafe(v))) == ToIntSafe(v)
  {
    ToIntSafeOfInt(ToIntSafe(v));
  }

  /** `a.b` with digit strings `a` (non-empty) and `b` reads as the value of `a`. */
  lemma {:induction false} UnsignedFraction(a: string, b: string)
    requires IsDigits(a) && AllDigits(b)
    ensures UnsignedTruncated(a + ['.'] + b) == Some(DigitsValue(a))
  {
    DigitsHaveNoSpace(a);
    DigitsHaveNoSpace(b);
    SplitAt(a, b, '.');
  }

  lemma {:induction false} FractionTrimmed(a: string, b: string, sep: char)
    requires IsDigits(a) && AllDigits(b) && !IsSpace(sep)
    ensures Trimmed(a + [sep] + b)
  {
    var s := a + [sep] + b;
    assert s[0] == a[0];
    if b == [] { assert s[|s| - 1] == sep; } else { assert s[|s| - 1] == b[|b| - 1]; }
  }

  lemma {:induction false} CommaToPoint(a: string, b: string, sep: char)
    requires AllDigits(a) && AllDigits(b) && (sep == ',' || sep == '.')
    ensures ReplaceChar(a + [sep] + b, ',', '.') == a + ['.'] + b
  {
    var s := a + [sep] + b;
    var r := ReplaceChar(s, ',', '.');
    var t := a + ['.'] + b;
    forall i | 0 <= i < |s| ensures r[i] == t[i] {
      if i < |a| {
        assert s[i] == a[i] && t[i] == a[i];
      } else if i > |a| {
        assert s[i] == b[i - |a| - 1] && t[i] == b[i - |a| - 1];
      }
    }
  }

  lemma {:induction false} OnePoint(a: string, b: string)
    requires AllDigits(a) && AllDigits(b)
    ensures Count(a + ['.'] + b, '.') == 1
  {
    DigitsHaveNoSpace(a);
    DigitsHaveNoSpace(b);
    assert multiset(a + ['.'] + b) == multiset(a) + multiset(['.']) + multiset(b);
  }

  /** `a.b` has one point and nothing to strip. */
  lemma {:induction false} PointFixed(a: string, b: string)
    requires IsDigits(a) && AllDigits(b)
    ensures Count(a + ['.'] + b, '.') == 1
    ensures Strip(a + ['.'] + b) == a + ['.'] + b
  {
    OnePoint(a, b);
    FractionTrimmed(a, b, '.');
    StripFixed(a + ['.'] + b);
  }

  lemma {:induction false} CleanedOnePoint(v: Value, t: string)
    requires ReplaceChar(RemoveChar(RemoveChar(Strip(PyStr(v)), ' '), NBSP), ',', '.') == t
    requires Count(t, '.') <= 1
    ensures Cleaned(v) == t
  {
  }

  /** Stripping and removing spaces leave `a` sep `b` alone. */
  lemma {:induction false} FractionUnspaced(a: string, b: string, sep: char)
    requires IsDigits(a) && AllDigits(b) && (sep == ',' || sep == '.')
    ensures var s := a + [sep] + b; RemoveChar(RemoveChar(Strip(PyStr(VStr(s))), ' '), NBSP) == s
  {
    var s := a + [sep] + b;
    DigitsHaveNoSpace(a);
    DigitsHaveNoSpace(b);
    FractionTrimmed(a, b, sep);
    assert ' ' !in s && NBSP !in s;
    StripFixed(s);
    RemoveAbsentChar(s, ' ');
    RemoveAbsentChar(s, NBSP);
  }

  /** A decimal comma turns into the decimal point before the text is read. */
  lemma {:induction false} CleanedFraction(a: string, b: string, sep: char)
    requires IsDigits(a) && AllDigits(b) && (sep == ',' || sep == '.')
    ensures Strip(Cleaned(VStr(a + [sep] + b))) == a + ['.'] + b
  {
    var s := a + [sep] + b;
    var t := a + ['.'] + b;
    FractionUnspaced(a, b, sep);
    CommaToPoint(a, b, sep);
    PointFixed(a, b);
    CleanedOnePoint(VStr(s), t);
  }

  /** A decimal comma or point: the fraction is dropped, so `"3,5"` reads 3. */
  lemma {:induction false} ToIntSafeTruncates(a: string, b: string, sep: char)
    requires IsDigits(a) && AllDigits(b) && (sep == ',' || sep == '.')
    ensures ToIntSafe(VStr(a + [sep] + b)) == DigitsValue(a)
  {
    var t := a + ['.'] + b;
    CleanedFraction(a, b, sep);
    UnsignedFraction(a, b);
    assert t[0] == a[0];
    ParseUnsigned(t);
  }

  /** The characters a number may be written with: digits, points, and a leading sign. */
  predicate NumberText(t: string) {
    forall i :: 0 <= i < |t| ==> IsDigit(t[i]) || t[i] == '.' || (i == 0 && (t[i] == '+' || t[i] == '-'))
  }

  /** Only digits and points make an unsigned decimal. */
  lemma {:induction false} UnsignedChars(body: string)
    requires UnsignedTruncated(body).Some?
    ensures forall i :: 0 <= i < |body| ==> IsDigit(body[i]) || body[i] == '.'
  {
    var parts := Split(body, '.');
    SplitJoin(body, '.');
    if |parts| == 2 {
      assert parts[1..] == [parts[1]];
      assert body == parts[0] + ['.'] + parts[1];
      forall i | 0 <= i < |body| ensures IsDigit(body[i]) || body[i] == '.' {
        if i < |parts[0]| {
          assert body[i] == parts[0][i];
        } else if i > |parts[0]| {
          assert body[i] == parts[1][i - |parts[0]| - 1];
        }
      }
    }
  }

  lemma {:induction false} ParseChars(t: string)
    requires ParseTruncated(t).Some?
    ensures NumberText(t)
  {
    if t != [] && (t[0] == '+' || t[0] == '-') {
      UnsignedChars(t[1..]);
      forall i | 1 <= i < |t| ensures IsDigit(t[i]) || t[i] == '.' {
        assert t[i] == t[1..][i - 1];
      }
    } else {
      UnsignedChars(t);
    }
  }

  /** `float` refuses any other character, and then the result is 0. */
  lemma {:induction false} ToIntSafeRejects(v: Value)
    requires !NumberText(Strip(Cleaned(v)))
    ensures ToIntSafe(v) == 0
  {
    if ParseTruncated(Strip(Cleaned(v))).Some? {
      ParseChars(Strip(Cleaned(v)));
    }
  }

  /** `None`, the empty string and blanks read 0. */
  lemma {:induction false} ToIntSafeBlank(v: Value)
    requires v.VNone? || (v.VStr? && Strip(v.s) == [])
    ensures ToIntSafe(v) == 0
  {
    if v.VNone? {
      ToIntSafeNone(v);
    } else {
      BlankCleaned(v.s);
      ReadIntEmpty();
    }
  }

  lemma {:induction false} ReadIntEmpty()
    ensures ReadInt([]) == 0
  {
    SplitAbsent([], '.');
  }

  lemma {:induction false} ToIntSafeNone(v: Value)
    requires v.VNone?
    ensures ToIntSafe(v) == 0
  {
    NoneCleaned(v);
    NoneNotNumber();
    ToIntSafeRejects(v);
  }

  lemma NoneNotNumber()
    ensures !NumberText("None")
  {
    assert "None"[0] == 'N';
  }

  lemma {:induction false} BlankCleaned(s: string)
    requires Strip(s) == []
    ensures Strip(Cleaned(VStr(s))) == []
  {
    RemoveAbsentChar([], ' ');
    RemoveAbsentChar([], NBSP);
    assert Count([], '.') == 0;
  }

  lemma {:induction false} NoneCleaned(v: Value)
    requires v.VNone?
    ensures Strip(Cleaned(v)) == "None"
  {
    var n := "None";
    NonePlain();
    CleanedPlain(n);
    assert PyStr(v) == PyStr(VStr(n));
  }

  lemma {:induction false} NonePlain()
    ensures var n := "None"; Trimmed(n) && ' ' !in n && NBSP !in n && ',' !in n && Count(n, '.') <= 1
  {
    var n := "None";
    assert '.' !in n;
    assert multiset(n)['.'] == 0;
  }

  /** Digits grouped by two or more points are read with the points dropped: `"2.000.000"` is 2000000. */
  lemma {:induction false} ToIntSafeThousands(s: string)
    requires forall i :: 0 <= i < |s| ==> IsDigit(s[i]) || s[i] == '.'
    requires Count(s, '.') > 1 && Count(s, '.') < |s|
    ensures IsDigits(RemoveChar(s, '.')) && ToIntSafe(VStr(s)) == DigitsValue(RemoveChar(s, '.'))
  {
    var d := RemoveChar(s, '.');
    PointsOnlyUnspaced(s);
    assert Cleaned(VStr(s)) == d;
    DroppedPointsDigits(s);
    DigitsHaveNoSpace(d);
    StripFixed(d);
    ParseUnsigned(d);
    UnsignedDigits(d);
  }

  lemma {:induction false} PointsOnlyUnspaced(s: string)
    requires forall i :: 0 <= i < |s| ==> IsDigit(s[i]) || s[i] == '.'
    ensures ReplaceChar(RemoveChar(RemoveChar(Strip(PyStr(VStr(s))), ' '), NBSP), ',', '.') == s
  {
    assert Trimmed(s) by {
      if s != [] { assert IsDigit(s[0]) || s[0] == '.'; assert IsDigit(s[|s| - 1]) || s[|s| - 1] == '.'; }
    }
    StripFixed(s);
    assert ' ' !in s && NBSP !in s && ',' !in s;
    RemoveAbsentChar(s, ' ');
    RemoveAbsentChar(s, NBSP);
    ReplaceAbsentChar(s, ',', '.');
  }

  /** Dropping the points of a digits-and-points text with some digit leaves a digit string. */
  lemma {:induction false} DroppedPointsDigits(s: string)
    requires forall i :: 0 <= i < |s| ==> IsDigit(s[i]) || s[i] == '.'
    requires Count(s, '.') < |s|
    ensures IsDigits(RemoveChar(s, '.'))
  {
    var d := RemoveChar(s, '.');
    forall i | 0 <= i < |d| ensures IsDigit(d[i]) {
      var c := d[i];
      assert c in multiset(d);
      assert c != '.';
      assert c in multiset(s);
      assert c in s;
    }
    assert d != [] by {
      var k :| 0 <= k < |s| && s[k] != '.' by { NotAllPoints(s); }
      assert s[k] in multiset(s);
      assert multiset(d)[s[k]] == multiset(s)[s[k]];
    }
  }

  lemma {:induction false} NotAllPoints(s: string)
    requires Count(s, '.') < |s|
    ensures exists k :: 0 <= k < |s| && s[k] != '.'
    decreases |s|
  {
    assert s == [s[0]] + s[1..];
    if s[0] == '.' {
      assert Count(s[1..], '.') < |s[1..]|;
      NotAllPoints(s[1..]);
      var k :| 0 <= k < |s[1..]| && s[1..][k] != '.';
      assert s[k + 1] != '.';
    }
  }

  lemma {:induction false} SplitAt(a: string, b: string, c: char)
    requires c !in a && c !in b
    ensures Split(a + [c] + b, c) == [a, b]
    decreases |a|
  {
    if a == [] {
      assert a + [c] + b == [c] + b;
      SplitSeparatorFirst(b, c);
    } else {
      HeadAround(a, c, b);
      SplitAt(a[1..], b, c);
      SplitPrefixStep(a[0], a[1..] + [c] + b, a[1..], b, c);
    }
  }

  /** A separator in front of a text without one splits off an empty part. */
  lemma SplitSeparatorFirst(b: string, c: char)
    requires c !in b
    ensures Split([c] + b, c) == ["", b]
  {
    SplitCons(c, b, c);
    SplitAbsent(b, c);
  }

  /** One more character, not the separator, before a text that splits in two. */
  lemma SplitPrefixStep(x: char, tail: string, t0: string, b: string, c: char)
    requires x != c && Split(tail, c) == [t0, b]
    ensures Split([x] + tail, c) == [[x] + t0, b]
  {
    SplitCons(x, tail, c);
    assert Split(tail, c)[1..] == [b];
  }


}
