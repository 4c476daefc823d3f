/** Option and Result values shared by the whole model. */
module Wrappers {

  datatype Option<+T> = None | Some(value: T)

  /** The Python exceptions that escape the modelled functions uncaught. */
  datatype Error =
    | IndexError        // m.group(k) or seq[k] with no such group or element
    | KeyError          // d[k] with no such key
    | AttributeError    // a method the value lacks (None.strip(), .get on a value that is not a dict)
    | TypeError         // an operand of the wrong type: `in` with a non-string or a non-container,
                        // iteration over a value that is not iterable, an unhashable key, a pattern that
                        // is not a string, an ordering comparison of mixed types
    | ValueError(msg: string)

  datatype Result<+T> = Ok(value: T) | Err(error: Error)

  /** The items gathered so far placed before those still to come; an error still to
      come wins, as when a loop that appends to a list raises part-way. */
  function Prepend<T>(done: seq<T>, rest: Result<seq<T>>): Result<seq<T>> {
    match rest
    case Err(e) => Err(e)
    case Ok(r) => Ok(done + r)
  }

  /** The first of the answers `claim(k), ..., claim(n - 1)` that is true; the first error
      stops the scan. */
  function FirstTrue(claim: nat -> Result<bool>, k: nat, n: nat): (r: Result<Option<nat>>)
    requires k <= n
    ensures r.Ok? && r.value.Some? ==>
      && k <= r.value.value < n
      && claim(r.value.value) == Ok(true)
      && forall j :: k <= j < r.value.value ==> claim(j) == Ok(false)
    ensures r == Ok(None) ==> forall j :: k <= j < n ==> claim(j) == Ok(false)
    ensures r.Err? ==> exists j :: k <= j < n && claim(j) == Err(r.error)
    decreases n - k
  {
    if k == n then Ok(None)
    else
      match claim(k)
      case Err(e) => Err(e)
      case Ok(true) => Ok(Some(k))
      case Ok(false) => FirstTrue(claim, k + 1, n)
  }

  lemma ConcatAssoc<T>(a: seq<T>, b: seq<T>, c: seq<T>)
    ensures (a + b) + c == a + (b + c)
  {
  }

  /** Nothing appended changes nothing. */
  lemma EmptyRight<T>(s: seq<T>)
    ensures s + [] == s
  {
  }

  /** A non-empty sequence is its head before its tail. */
  lemma HeadTail<T>(s: seq<T>)
    requires s != []
    ensures s == [s[0]] + s[1..]
  {
  }

  /** A non-empty sequence is its front before its last element. */
  lemma InitLast<T>(s: seq<T>)
    requires s != []
    ensures s == s[..|s| - 1] + [s[|s| - 1]]
  {
  }

  /** A sequence of length 2 or more is its first element, its middle and its last. */
  lemma Bracketed<T>(s: seq<T>)
    requires |s| >= 2
    ensures s == [s[0]] + s[1..|s| - 1] + [s[|s| - 1]]
  {
  }

  /** The head of `a` taken out of `a + [x] + b`. */
  lemma HeadAround<T>(a: seq<T>, x: T, b: seq<T>)
    requires a != []
    ensures a + [x] + b == [a[0]] + (a[1..] + [x] + b)
    ensures [a[0]] + a[1..] == a
  {
  }

  lemma PrependNothing<T>(rest: Result<seq<T>>)
    ensures Prepend([], rest) == rest
  {
    if rest.Ok? {
      assert [] + rest.value == rest.value;
    }
  }

  /** Python truthiness of an optional string: present and non-empty. */
  predicate Truthy(o: Option<string>) {
    o.Some? && o.value != ""
  }
}
