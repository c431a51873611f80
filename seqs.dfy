/** First-match and filtering over sequences: Python's list comprehensions
    with an `if`, and `next(x for x in s if f(x))`. */
module Seqs {

  import opened Base

  /** The position of the first element satisfying `f`, or `|s|` if none does. */
  function FirstIndex<T>(s: seq<T>, f: T -> bool): (i: nat)
    ensures i <= |s|
    ensures forall j :: 0 <= j < i ==> !f(s[j])
    ensures i < |s| ==> f(s[i])
  {
    if s == [] then 0 else if f(s[0]) then 0 else 1 + FirstIndex(s[1..], f)
  }

  /** `next((x for x in s if f(x)), None)`. */
  function First<T>(s: seq<T>, f: T -> bool): (r: Option<T>)
    ensures r.None? <==> forall j :: 0 <= j < |s| ==> !f(s[j])
    ensures r.Some? ==> exists i :: 0 <= i < |s| && s[i] == r.value && f(s[i]) && forall j :: 0 <= j < i ==> !f(s[j])
  {
    var i := FirstIndex(s, f);
    if i < |s| then Some(s[i]) else None
  }

  /** `[x for x in s if f(x)]`. */
  function Filter<T>(s: seq<T>, f: T -> bool): (r: seq<T>)
    ensures |r| <= |s|
    ensures forall k :: 0 <= k < |r| ==> f(r[k])
    ensures forall k :: 0 <= k < |r| ==> r[k] in s
  {
    if s == [] then [] else (if f(s[0]) then [s[0]] else []) + Filter(s[1..], f)
  }

  /** Filtering keeps order: the kept elements of a prefix come before the
      kept elements of what follows it. */
  lemma {:induction false} FilterAppend<T>(a: seq<T>, b: seq<T>, f: T -> bool)
    ensures Filter(a + b, f) == Filter(a, f) + Filter(b, f)
    decreases |a|
  {
    if a == [] {
      assert a + b == b;
    } else {
      assert (a + b)[0] == a[0];
      assert (a + b)[1..] == a[1..] + b;
      FilterAppend(a[1..], b, f);
    }
  }

  /** The first kept element is the first element satisfying `f`, and
      something is kept exactly when some element satisfies `f`. */
  lemma {:induction false} FilterHead<T>(s: seq<T>, f: T -> bool)
    ensures Filter(s, f) != [] <==> FirstIndex(s, f) < |s|
    ensures Filter(s, f) != [] ==> Filter(s, f)[0] == s[FirstIndex(s, f)]
    decreases |s|
  {
    if s != [] && !f(s[0]) {
      FilterHead(s[1..], f);
      assert s[1..][FirstIndex(s[1..], f)..] == s[1 + FirstIndex(s[1..], f)..];
    }
  }
}
