/**
 * The `re` module, left abstract. A compiled pattern keeps its source text and its
 * IGNORECASE flag; matching is done by an `Engine` that every extraction function
 * takes as a parameter, so nothing here depends on how a regular expression matches.
 */
module Regex {
  import opened Wrappers

  /** `re.compile(source, flags=re.IGNORECASE if ignoreCase else 0)`. */
  datatype Pattern = Pattern(source: string, ignoreCase: bool)

  /** One capturing group of a match: its name when written `(?P<name>...)`, and the
      text it captured (None when the group did not take part in the match). */
  datatype Group = Group(name: Option<string>, value: Option<string>)

  /** A successful match: the matched text (group 0) and groups 1, 2, ... in order. */
  datatype Match = Match(whole: string, groups: seq<Group>)

  /** Whether the pattern has a named group. Only then does CPython look a selector
      that is not an integer up in the pattern's group index; without one, any such
      selector is "no such group" (IndexError), even a list or a dict. */
  predicate HasNamedGroup(m: Match) {
    exists i :: 0 <= i < |m.groups| && m.groups[i].name.Some?
  }

  /** `reMatch` is `p.match(s)`, anchored at the start of `s`; `reSearch` is `p.search(s)`. */
  datatype Engine = Engine(
    reMatch: (Pattern, string) -> Option<Match>,
    reSearch: (Pattern, string) -> Option<Match>)

  /** A field reference of a profile: a group number or a group name. */
  datatype GroupRef = Index(i: int) | Name(n: string)

  /** The result of `m.groupdict()`: the named groups in definition order. */
  type GroupDict = seq<(string, Option<string>)>

  function GroupDictOf(m: Match): (d: GroupDict)
    ensures |d| <= |m.groups|
    ensures forall k, v :: (k, v) in d ==> Group(Some(k), v) in m.groups
  {
    GroupDictOfGroups(m.groups)
  }

  function GroupDictOfGroups(gs: seq<Group>): (d: GroupDict)
    ensures |d| <= |gs|
    ensures forall k, v :: (k, v) in d ==> Group(Some(k), v) in gs
  {
    if gs == [] then []
    else
      var rest := GroupDictOfGroups(gs[1..]);
      assert forall g :: g in gs[1..] ==> g in gs;
      match gs[0].name
      case Some(k) => [(k, gs[0].value)] + rest
      case None => rest
  }

  /** `k in d` followed by `d[k]`: None when `k` is not a key, Some(value) otherwise. */
  function Find(d: GroupDict, k: string): (r: Option<Option<string>>)
    ensures r.None? <==> forall i :: 0 <= i < |d| ==> d[i].0 != k
    ensures r.Some? ==> exists i :: 0 <= i < |d| && d[i] == (k, r.value)
  {
    if d == [] then None
    else if d[0].0 == k then Some(d[0].1)
    else
      var r := Find(d[1..], k);
      assert forall i :: 1 <= i < |d| ==> d[i] == d[1..][i - 1];
      r
  }

  /** `d.get(k)`: None both when `k` is absent and when its group did not take part. */
  function Get(d: GroupDict, k: string): Option<string> {
    match Find(d, k)
    case None => None
    case Some(v) => v
  }

  /** The first non-empty value of `d`, in order (`next((v for v in d.values() if v), None)`). */
  function FirstNonEmpty(d: GroupDict): (r: Option<string>)
    ensures r.Some? ==> r.value != "" && exists i :: 0 <= i < |d| && d[i].1 == r && forall j :: 0 <= j < i ==> !Truthy(d[j].1)
    ensures r.None? ==> forall i :: 0 <= i < |d| ==> !Truthy(d[i].1)
  {
    if d == [] then None
    else if Truthy(d[0].1) then d[0].1
    else
      var r := FirstNonEmpty(d[1..]);
      assert forall i :: 1 <= i < |d| ==> d[i] == d[1..][i - 1];
      assert r.Some? ==> exists i :: 0 <= i < |d| && d[i].1 == r && forall j :: 0 <= j < i ==> !Truthy(d[j].1) by {
        if r.Some? {
          var i :| 0 <= i < |d[1..]| && d[1..][i].1 == r && forall j :: 0 <= j < i ==> !Truthy(d[1..][j].1);
          assert d[i + 1].1 == r && forall j :: 0 <= j < i + 1 ==> !Truthy(d[j].1);
        }
      }
      r
  }

  /** `m.groups()`: the captured texts of groups 1, 2, ... */
  function GroupValues(m: Match): (vs: seq<Option<string>>)
    ensures |vs| == |m.groups|
    ensures forall i :: 0 <= i < |vs| ==> vs[i] == m.groups[i].value
  {
    seq(|m.groups|, i requires 0 <= i < |m.groups| => m.groups[i].value)
  }

  /** `m.group(k)`: group 0 is the whole match; a number with no group raises IndexError. */
  function GroupAt(m: Match, k: int): (r: Result<Option<string>>)
    ensures r.Err? <==> !(0 <= k <= |m.groups|)
    ensures k == 0 ==> r == Ok(Some(m.whole))
    ensures 1 <= k <= |m.groups| ==> r == Ok(m.groups[k - 1].value)
  {
    if k == 0 then Ok(Some(m.whole))
    else if 1 <= k <= |m.groups| then Ok(m.groups[k - 1].value)
    else Err(IndexError)
  }

  /** `m.group(name)`: a name that no group carries raises IndexError. */
  function GroupNamed(m: Match, name: string): (r: Result<Option<string>>)
    ensures r.Err? <==> forall i :: 0 <= i < |m.groups| ==> m.groups[i].name != Some(name)
  {
    GroupNamedIn(m.groups, name)
  }

  function GroupNamedIn(gs: seq<Group>, name: string): (r: Result<Option<string>>)
    ensures r.Err? <==> forall i :: 0 <= i < |gs| ==> gs[i].name != Some(name)
    ensures r.Ok? ==> exists i :: 0 <= i < |gs| && gs[i] == Group(Some(name), r.value)
  {
    if gs == [] then Err(IndexError)
    else if gs[0].name == Some(name) then Ok(gs[0].value)
    else
      var r := GroupNamedIn(gs[1..], name);
      assert forall i :: 1 <= i < |gs| ==> gs[i] == gs[1..][i - 1];
      r
  }

  /** `m.group(ref)` for a profile's field reference. */
  function GroupBy(m: Match, ref: GroupRef): Result<Option<string>> {
    match ref
    case Index(k) => GroupAt(m, k)
    case Name(n) => GroupNamed(m, n)
  }
}
