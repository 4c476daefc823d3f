/**
 * `_detect_supplier`: the first supplier of the configuration, in declaration
 * order, one of whose `detect.must_contain_any` tokens occurs in the page text
 * (the lines joined by newlines). Step 3 and the step 2 test script read the
 * configuration with `d.get(k, default)`; step 2 reads it with `d.get(k) or default`
 * and, when nothing matches and exactly one supplier is configured, returns that one.
 */
module Suppliers {
  import opened Wrappers
  import opened Strings
  import opened Values
  import opened Json

  /** How a configuration key is read: `d.get(k, default)` (strict) or `d.get(k) or default`. */
  function Read(d: Json, key: string, default: Json, lenient: bool): Result<Json> {
    if lenient then GetOrElse(d, key, default) else GetOr(d, key, default)
  }

  /** `any(tok in joined for tok in toks)`: stops at the first hit; a token that is not a
      string raises TypeError when it is reached. */
  function AnyIn(toks: seq<Json>, joined: string): (r: Result<bool>)
    ensures r == Ok(true) ==> exists i :: 0 <= i < |toks| && toks[i].JStr? && IsSubstring(toks[i].s, joined)
    ensures (forall i :: 0 <= i < |toks| ==> toks[i].JStr?) ==>
      r.Ok? && (r.value <==> exists i :: 0 <= i < |toks| && IsSubstring(toks[i].s, joined))
  {
    if toks == [] then Ok(false)
    else if !toks[0].JStr? then Err(TypeError)
    else if IsSubstring(toks[0].s, joined) then Ok(true)
    else
      var r := AnyIn(toks[1..], joined);
      assert forall i :: 1 <= i < |toks| ==> toks[i] == toks[1..][i - 1];
      r
  }

  /** Whether one supplier profile claims the text. */
  function ProfileMatches(prof: Json, joined: string, lenient: bool): Result<bool> {
    match Read(prof, "detect", EmptyObj, lenient)
    case Err(e) => Err(e)
    case Ok(detect) =>
      match Read(detect, "must_contain_any", JArr([]), lenient)
      case Err(e) => Err(e)
      case Ok(tokens) =>
        if !JTruthy(tokens) then Ok(false)
        else
          match Iter(tokens)
          case Err(e) => Err(e)
          case Ok(toks) => AnyIn(toks, joined)
  }

  /** The index of the first profile, from `k` on, that claims the text; an error raised
      by a profile on the way stops the scan. */
  function ScanFrom(entries: Dict<Json>, k: nat, joined: string, lenient: bool): (r: Result<Option<nat>>)
    requires k <= |entries|
    ensures r.Ok? && r.value.Some? ==>
      && k <= r.value.value < |entries|
      && ProfileMatches(entries[r.value.value].1, joined, lenient) == Ok(true)
      && forall j :: k <= j < r.value.value ==> ProfileMatches(entries[j].1, joined, lenient) == Ok(false)
    ensures r == Ok(None) ==> forall j :: k <= j < |entries| ==> ProfileMatches(entries[j].1, joined, lenient) == Ok(false)
    ensures r.Err? ==> exists i :: k <= i < |entries| && ProfileMatches(entries[i].1, joined, lenient) == Err(r.error)
  {
    var claim := ProfileClaim(entries, joined, lenient);
    assert forall j :: k <= j < |entries| ==> claim(j) == ProfileMatches(entries[j].1, joined, lenient);
    FirstTrue(claim, k, |entries|)
  }

  /** Whether profile `j` claims the text. */
  function ProfileClaim(entries: Dict<Json>, joined: string, lenient: bool): nat -> Result<bool> {
    (j: nat) => if j < |entries| then ProfileMatches(entries[j].1, joined, lenient) else Ok(false)
  }

  const Unknown: (string, Json) := ("unknown", EmptyObj)

  /** What detection returns on a configuration and the lines of a document. */
  function Detection(config: Json, lines: seq<string>, lenient: bool, fallback: bool): Result<(string, Json)> {
    match Read(config, "suppliers", EmptyObj, lenient)
    case Err(e) => Err(e)
    case Ok(sup) =>
      if !sup.JObj? then Err(AttributeError)
      else
        match ScanFrom(sup.fields, 0, Join("\n", lines), lenient)
        case Err(e) => Err(e)
        case Ok(Some(i)) => Ok(sup.fields[i])
        case Ok(None) =>
          if fallback && |sup.fields| == 1 then Ok(sup.fields[0]) else Ok(Unknown)
  }

  /** `_detect_supplier` of step 3 and of the step 2 test script. */
  method DetectSupplier(lines: seq<string>, config: Json) returns (r: Result<(string, Json)>)
    ensures r == Detection(config, lines, false, false)
  {
    r := DetectLoop(lines, config, false, false);
  }

  /** `_detect_supplier` of step 2: lenient reads and the single-profile fallback. */
  method DetectSupplierWithFallback(lines: seq<string>, config: Json) returns (r: Result<(string, Json)>)
    ensures r == Detection(config, lines, true, true)
  {
    r := DetectLoop(lines, config, true, true);
  }

  /** The loop both versions share: profiles in order, the first claim returns. */
  method DetectLoop(lines: seq<string>, config: Json, lenient: bool, fallback: bool)
    returns (r: Result<(string, Json)>)
    ensures r == Detection(config, lines, lenient, fallback)
  {
    var sup := Read(config, "suppliers", EmptyObj, lenient);
    if sup.Err? {
      return Err(sup.error);
    }
    var suppliers := sup.value;
    if !suppliers.JObj? {
      return Err(AttributeError);
    }
    var joined := Join("\n", lines);
    var entries := suppliers.fields;
    var k := 0;
    while k < |entries|
      invariant 0 <= k <= |entries|
      invariant ScanFrom(entries, 0, joined, lenient) == ScanFrom(entries, k, joined, lenient)
    {
      var m := ProfileMatches(entries[k].1, joined, lenient);
      if m.Err? {
        return Err(m.error);
      }
      if m.value {
        return Ok(entries[k]);
      }
      k := k + 1;
    }
    if fallback && |entries| == 1 {
      return Ok(entries[0]);
    }
    return Ok(Unknown);
  }

  // ---------------------------------------------------------------------------
  // Properties
  // ---------------------------------------------------------------------------

  /** A profile written as the configuration documents it: `detect` is an object whose
      `must_contain_any` is a list of strings. */
  predicate PlainProfile(prof: Json, toks: seq<string>) {
    prof.JObj? && Lookup(prof.fields, "detect").Some? &&
    var detect := Lookup(prof.fields, "detect").value;
    detect.JObj? && Lookup(detect.fields, "must_contain_any") == Some(JArr(StrList(toks)))
  }

  /** Both readings of such a profile find its token list. */
  lemma PlainProfileTokens(prof: Json, toks: seq<string>, lenient: bool)
    requires PlainProfile(prof, toks)
    ensures var detect := Lookup(prof.fields, "detect").value;
      Read(prof, "detect", EmptyObj, lenient) == Ok(detect)
      && (toks != [] ==> Read(detect, "must_contain_any", JArr([]), lenient) == Ok(JArr(StrList(toks))))
      && (toks == [] ==> !JTruthy(Read(detect, "must_contain_any", JArr([]), lenient).value))
  {
    var detect := Lookup(prof.fields, "detect").value;
    assert JTruthy(detect) by { assert "must_contain_any" in Keys(detect.fields); }
    ReadPresent(prof, "detect", EmptyObj, lenient, detect);
    var js := StrList(toks);
    if toks != [] {
      assert JTruthy(JArr(js));
      ReadPresent(detect, "must_contain_any", JArr([]), lenient, JArr(js));
    } else {
      assert js == [];
      assert GetOr(detect, "must_contain_any", JNull) == Ok(JArr([]));
    }
  }

  /** A key that holds a truthy value reads as that value in both versions. */
  lemma ReadPresent(d: Json, key: string, default: Json, lenient: bool, v: Json)
    requires d.JObj? && Lookup(d.fields, key) == Some(v) && JTruthy(v)
    ensures Read(d, key, default, lenient) == Ok(v)
  {
    assert GetOr(d, key, JNull) == Ok(v) && GetOr(d, key, default) == Ok(v);
  }

  /** For such a profile both versions agree: it claims the text exactly when one of its
      tokens occurs in it (so an empty token list never claims anything). */
  lemma PlainProfileMatches(prof: Json, toks: seq<string>, joined: string, lenient: bool)
    requires PlainProfile(prof, toks)
    ensures ProfileMatches(prof, joined, lenient) ==
      Ok(exists i :: 0 <= i < |toks| && IsSubstring(toks[i], joined))
  {
    PlainProfileTokens(prof, toks, lenient);
    var detect := Lookup(prof.fields, "detect").value;
    if toks == [] {
      assert ProfileMatches(prof, joined, lenient) == Ok(false);
    } else {
      var js := StrList(toks);
      assert Read(detect, "must_contain_any", JArr([]), lenient) == Ok(JArr(js)) && JTruthy(JArr(js));
      AnyInStrings(toks, joined);
      assert ProfileMatches(prof, joined, lenient) == AnyIn(js, joined);
    }
  }

  /** A list of strings claims the text exactly when one of them occurs in it. */
  lemma AnyInStrings(toks: seq<string>, joined: string)
    ensures AnyIn(StrList(toks), joined) == Ok(exists i :: 0 <= i < |toks| && IsSubstring(toks[i], joined))
  {
    var js := StrList(toks);
    var r := AnyIn(js, joined);
    assert r.Ok?;
    if r.value {
      var i :| 0 <= i < |js| && IsSubstring(js[i].s, joined);
      assert IsSubstring(toks[i], joined);
    } else {
      forall i | 0 <= i < |toks| ensures !IsSubstring(toks[i], joined) {
        assert js[i].s == toks[i];
      }
    }
  }

  /** Whenever the strict version succeeds, the lenient one without fallback gives the same
      answer: `d.get(k) or default` only differs on values that make `d.get(k, default)` fail
      further on. */
  lemma {:induction false} StrictProfileAgrees(prof: Json, joined: string)
    requires ProfileMatches(prof, joined, false).Ok?
    ensures ProfileMatches(prof, joined, true) == ProfileMatches(prof, joined, false)
  {
    var detect := GetOr(prof, "detect", EmptyObj).value;
    assert detect.JObj?;
    if JTruthy(detect) {
      assert GetOrElse(prof, "detect", EmptyObj) == Ok(detect);
    } else {
      assert detect == EmptyObj;
    }
    var tokens := GetOr(detect, "must_contain_any", JArr([])).value;
    if JTruthy(tokens) {
      assert GetOrElse(detect, "must_contain_any", JArr([])) == Ok(tokens);
    }
  }

  lemma {:induction false} StrictScanAgrees(entries: Dict<Json>, k: nat, joined: string)
    requires k <= |entries|
    requires ScanFrom(entries, k, joined, false).Ok?
    ensures ScanFrom(entries, k, joined, true) == ScanFrom(entries, k, joined, false)
    decreases |entries| - k
  {
    if k < |entries| {
      StrictProfileAgrees(entries[k].1, joined);
      if ProfileMatches(entries[k].1, joined, false) == Ok(false) {
        StrictScanAgrees(entries, k + 1, joined);
      }
    }
  }

  /** The two readings of the configuration detect the same supplier whenever the strict one
      does not raise. */
  lemma StrictDetectionAgrees(config: Json, lines: seq<string>)
    requires Detection(config, lines, false, false).Ok?
    ensures Detection(config, lines, true, false) == Detection(config, lines, false, false)
  {
    var sup := GetOr(config, "suppliers", EmptyObj).value;
    if JTruthy(sup) {
      assert GetOrElse(config, "suppliers", EmptyObj) == Ok(sup);
    } else {
      assert sup == EmptyObj;
    }
    StrictScanAgrees(sup.fields, 0, Join("\n", lines));
  }

  /** The fallback acts only when no profile claims the text and exactly one supplier is
      configured; it then returns that supplier instead of "unknown". */
  lemma FallbackOnlyForSingle(config: Json, lines: seq<string>)
    ensures var with := Detection(config, lines, true, true);
      var without := Detection(config, lines, true, false);
      with != without ==>
        && without == Ok(Unknown)
        && config.JObj? && GetOrElse(config, "suppliers", EmptyObj).Ok?
        && var sup := GetOrElse(config, "suppliers", EmptyObj).value;
           sup.JObj? && |sup.fields| == 1 && with == Ok(sup.fields[0])
  {
  }

  /** Entry `i` claims the text and no entry before it does. */
  predicate FirstClaim(entries: Dict<Json>, joined: string, lenient: bool, i: int) {
    && 0 <= i < |entries|
    && ProfileMatches(entries[i].1, joined, lenient) == Ok(true)
    && forall j :: 0 <= j < i ==> ProfileMatches(entries[j].1, joined, lenient) == Ok(false)
  }

  /** A detected supplier is one of the configured ones, and no earlier one claims the text. */
  lemma DetectionIsFirstClaim(config: Json, lines: seq<string>, lenient: bool)
    requires Detection(config, lines, lenient, false).Ok?
    requires Detection(config, lines, lenient, false) != Ok(Unknown)
    ensures var sup := Read(config, "suppliers", EmptyObj, lenient).value;
      var joined := Join("\n", lines);
      sup.JObj? &&
      exists i :: FirstClaim(sup.fields, joined, lenient, i) && Detection(config, lines, lenient, false) == Ok(sup.fields[i])
  {
    var sup := Read(config, "suppliers", EmptyObj, lenient).value;
    var i := ScanFrom(sup.fields, 0, Join("\n", lines), lenient).value.value;
    assert Detection(config, lines, lenient, false) == Ok(sup.fields[i]);
  }
}
