/**
 * The regular-expression part of `extract_metadata_from_text` in parse_bl.py: the
 * document date (group 1 of the first `date_regex` hit) and the customer order
 * numbers (every `purchase_order_regex` hit, duplicates dropped, first occurrences
 * kept in order). The text is a parameter; `re.findall` is left abstract.
 */
module Metadata {
  import opened Wrappers
  import opened Regex
  import opened Json

  /** The keys the function may set: `date_document` (group 1 of the date match, which is
      None when the group did not take part) and `purchase_orders`. None means the key
      is absent. */
  datatype Meta = Meta(date: Option<Option<string>>, orders: Option<seq<string>>)

  /** The elements of a list, as the loop's `seen` set holds them. */
  function Elems(xs: seq<string>): (r: set<string>)
    ensures forall x :: x in r <==> x in xs
  {
    set x | x in xs
  }

  /** The first occurrences of the list, in order: the deduplicated list defined by its
      prefixes (an element is kept when it does not occur earlier). */
  function FirstOccurrences(xs: seq<string>): seq<string>
    decreases |xs|
  {
    if xs == [] then []
    else
      var p := xs[..|xs| - 1];
      FirstOccurrences(p) + (if xs[|xs| - 1] in p then [] else [xs[|xs| - 1]])
  }

  /** The dedup loop over the `findall` results: `seen` and `uniq` built side by side. */
  method UniqueOrders(pos: seq<string>) returns (uniq: seq<string>)
    ensures uniq == FirstOccurrences(pos)
  {
    var seen: set<string> := {};
    uniq := [];
    var i := 0;
    while i < |pos|
      invariant 0 <= i <= |pos|
      invariant uniq == FirstOccurrences(pos[..i])
      invariant seen == Elems(pos[..i])
    {
      var p := pos[i];
      assert pos[..i + 1][..i] == pos[..i] && pos[..i + 1][i] == p;
      if p !in seen {
        seen := seen + {p};
        uniq := uniq + [p];
      }
      i := i + 1;
    }
    assert pos[..|pos|] == pos;
  }

  /** The date and order numbers of the text, or the error the code raises: a profile that
      is not a dict, a pattern that is not a string (TypeError from `re.compile`), or a
      date pattern without a group (IndexError from `m.group(1)`). */
  function ExtractMeta(eng: Engine, findAll: (Pattern, string) -> seq<string>, profile: Json, txt: string)
    : (r: Result<Meta>)
    ensures r.Ok? ==> profile.JObj?
    ensures r.Ok? && r.value.orders.Some? ==>
      var po := GetOr(profile, "purchase_order_regex", JNull).value;
      && po.JStr? && po.s != ""
      && findAll(Pattern(po.s, false), txt) != []
      && r.value.orders.value == FirstOccurrences(findAll(Pattern(po.s, false), txt))
    ensures r.Ok? && r.value.date.Some? ==>
      var dr := GetOr(profile, "date_regex", JNull).value;
      && dr.JStr? && eng.reSearch(Pattern(dr.s, false), txt).Some?
      && var m := eng.reSearch(Pattern(dr.s, false), txt).value;
         1 <= |m.groups| && r.value.date.value == m.groups[0].value
    ensures !profile.JObj? ==> r == Err(AttributeError)
    ensures profile.JObj? ==>
      var dr := GetOr(profile, "date_regex", JNull).value;
      var po := GetOr(profile, "purchase_order_regex", JNull).value;
      var hit := JTruthy(dr) && dr.JStr? && eng.reSearch(Pattern(dr.s, false), txt).Some?;
      && (JTruthy(dr) && !dr.JStr? ==> r == Err(TypeError))
      && (hit && |eng.reSearch(Pattern(dr.s, false), txt).value.groups| == 0 ==> r == Err(IndexError))
      && (r.Err? <==> (JTruthy(dr) && !dr.JStr?) || (hit && |eng.reSearch(Pattern(dr.s, false), txt).value.groups| == 0)
                      || (JTruthy(po) && !po.JStr?))
      && (r.Ok? ==> (r.value.date.Some? <==> hit))
      && (r.Ok? ==> (r.value.orders.Some? <==> JTruthy(po) && po.JStr? && findAll(Pattern(po.s, false), txt) != []))
  {
    match GetOr(profile, "date_regex", JNull)
    case Err(e) => Err(e)
    case Ok(dateRe) =>
      var date: Result<Option<Option<string>>> :=
        if !JTruthy(dateRe) then Ok(None)
        else if !dateRe.JStr? then Err(TypeError)
        else
          match eng.reSearch(Pattern(dateRe.s, false), txt)
          case None => Ok(None)
          case Some(m) =>
            (match GroupAt(m, 1)
             case Err(e) => Err(e)
             case Ok(g) => Ok(Some(g)));
      if date.Err? then Err(date.error)
      else
        var poRe := GetOr(profile, "purchase_order_regex", JNull).value;
        if !JTruthy(poRe) then Ok(Meta(date.value, None))
        else if !poRe.JStr? then Err(TypeError)
        else
          var pos := findAll(Pattern(poRe.s, false), txt);
          if pos == [] then Ok(Meta(date.value, None))
          else Ok(Meta(date.value, Some(FirstOccurrences(pos))))
  }

  // ---------------------------------------------------------------------------
  // Properties of the deduplicated list
  // ---------------------------------------------------------------------------

  /** No order number is listed twice. */
  lemma {:induction false} FirstOccurrencesDistinct(xs: seq<string>)
    ensures forall i, j :: 0 <= i < j < |FirstOccurrences(xs)| ==> FirstOccurrences(xs)[i] != FirstOccurrences(xs)[j]
    decreases |xs|
  {
    if xs != [] {
      var p := xs[..|xs| - 1];
      var y := xs[|xs| - 1];
      FirstOccurrencesDistinct(p);
      FirstOccurrencesElements(p);
      var rp := FirstOccurrences(p);
      var r := FirstOccurrences(xs);
      assert r == rp + (if y in p then [] else [y]);
      forall i, j | 0 <= i < j < |r|
        ensures r[i] != r[j]
      {
        if j >= |rp| {
          assert r[i] == rp[i] && r[j] == y && y !in p;
          assert rp[i] in rp;
        } else {
          assert r[i] == rp[i] && r[j] == rp[j];
        }
      }
    }
  }

  /** Exactly the distinct `findall` results are listed. */
  lemma {:induction false} FirstOccurrencesElements(xs: seq<string>)
    ensures forall x :: x in FirstOccurrences(xs) <==> x in xs
    decreases |xs|
  {
    if xs != [] {
      var p := xs[..|xs| - 1];
      FirstOccurrencesElements(p);
      assert xs == p + [xs[|xs| - 1]];
    }
  }

  /** The position of the first occurrence of `x`. */
  function FirstIndex(xs: seq<string>, x: string): (k: nat)
    requires x in xs
    ensures k < |xs| && xs[k] == x && x !in xs[..k]
  {
    if xs[0] == x then 0
    else
      var k := FirstIndex(xs[1..], x);
      assert xs[..k + 1] == [xs[0]] + xs[1..][..k];
      k + 1
  }

  /** An index holding `x` with no `x` before it is the first index of `x`. */
  lemma FirstIndexUnique(xs: seq<string>, x: string, j: nat)
    requires j < |xs| && xs[j] == x && x !in xs[..j]
    ensures FirstIndex(xs, x) == j
  {
  }

  /** Appending an element leaves the first index of an earlier element alone. */
  lemma FirstIndexExtend(p: seq<string>, y: string, x: string)
    requires x in p
    ensures FirstIndex(p + [y], x) == FirstIndex(p, x)
  {
    var k := FirstIndex(p, x);
    assert (p + [y])[..k] == p[..k];
    FirstIndexUnique(p + [y], x, k);
  }

  /** A new element appended last has its first index there. */
  lemma FirstIndexLast(p: seq<string>, y: string)
    requires y !in p
    ensures FirstIndex(p + [y], y) == |p|
  {
    assert (p + [y])[..|p|] == p;
    FirstIndexUnique(p + [y], y, |p|);
  }

  /** The order numbers come in the order of their first occurrence in the text. */
  lemma {:induction false} FirstOccurrencesOrdered(xs: seq<string>)
    ensures var r := FirstOccurrences(xs);
      forall i, j :: 0 <= i < j < |r| ==> r[i] in xs && r[j] in xs && FirstIndex(xs, r[i]) < FirstIndex(xs, r[j])
    decreases |xs|
  {
    if xs != [] {
      var p := xs[..|xs| - 1];
      var y := xs[|xs| - 1];
      assert xs == p + [y];
      FirstOccurrencesOrdered(p);
      FirstOccurrencesElements(p);
      var rp := FirstOccurrences(p);
      assert FirstOccurrences(xs) == rp + (if y in p then [] else [y]);
      assert forall i :: 0 <= i < |rp| ==> rp[i] in rp;
      OrderedStep(p, y, rp);
    }
  }

  /** The step of `FirstOccurrencesOrdered`: appending one element to the list. */
  lemma OrderedStep(p: seq<string>, y: string, rp: seq<string>)
    requires rp == FirstOccurrences(p)
    requires forall i :: 0 <= i < |rp| ==> rp[i] in p
    requires forall i, j :: 0 <= i < j < |rp| ==> rp[i] in p && rp[j] in p && FirstIndex(p, rp[i]) < FirstIndex(p, rp[j])
    ensures var xs := p + [y];
      var r := rp + (if y in p then [] else [y]);
      forall i, j :: 0 <= i < j < |r| ==> r[i] in xs && r[j] in xs && FirstIndex(xs, r[i]) < FirstIndex(xs, r[j])
  {
    var xs := p + [y];
    var r := rp + (if y in p then [] else [y]);
    forall i | 0 <= i < |rp|
      ensures FirstIndex(xs, rp[i]) == FirstIndex(p, rp[i])
    {
      FirstIndexExtend(p, y, rp[i]);
    }
    if y !in p {
      FirstIndexLast(p, y);
    }
    forall i, j | 0 <= i < j < |r|
      ensures r[i] in xs && r[j] in xs && FirstIndex(xs, r[i]) < FirstIndex(xs, r[j])
    {
      if j < |rp| {
        assert r[i] == rp[i] && r[j] == rp[j];
      } else {
        assert r[i] == rp[i] && r[j] == y;
        assert FirstIndex(p, rp[i]) < |p|;
      }
    }
  }
}
