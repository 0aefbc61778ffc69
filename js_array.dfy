/**
 * `Array.prototype.filter` and `Array.prototype.find` as the handlers use
 * them, over sequences and with a total predicate.
 */
module JsArray {
  import opened Wrappers

  /** `s.filter(keep)`: the elements that pass `keep`, in their original order. */
  function Filter<T(!new)>(s: seq<T>, keep: T -> bool): (r: seq<T>)
    ensures |r| <= |s|
    ensures forall i :: 0 <= i < |r| ==> keep(r[i])
  {
    if s == [] then []
    else if keep(s[0]) then [s[0]] + Filter(s[1..], keep)
    else Filter(s[1..], keep)
  }

  /**
   * `s.filter(keep)` keeps every passing element as often as `s` holds it and
   * drops every other one: it is `s` without exactly the failing elements.
   */
  lemma {:induction false} FilterCounts<T(!new)>(s: seq<T>, keep: T -> bool)
    ensures forall x :: multiset(Filter(s, keep))[x] == if keep(x) then multiset(s)[x] else 0
  {
    if s != [] {
      FilterCounts(s[1..], keep);
      assert s == [s[0]] + s[1..];
    }
  }

  /** An element is in `s.filter(keep)` exactly when it is in `s` and passes `keep`. */
  lemma FilterMembers<T(!new)>(s: seq<T>, keep: T -> bool)
    ensures forall x :: x in Filter(s, keep) <==> x in s && keep(x)
  {
    FilterCounts(s, keep);
    forall x
      ensures x in Filter(s, keep) <==> x in s && keep(x)
    {
      assert x in Filter(s, keep) <==> multiset(Filter(s, keep))[x] > 0;
      assert x in s <==> multiset(s)[x] > 0;
    }
  }

  /** Filtering a concatenation filters each part and keeps them in order. */
  lemma {:induction false} FilterConcat<T(!new)>(a: seq<T>, b: seq<T>, keep: T -> bool)
    ensures Filter(a + b, keep) == Filter(a, keep) + Filter(b, keep)
  {
    if a == [] {
      assert a + b == b;
    } else {
      var ab := a + b;
      assert ab[0] == a[0] && ab[1..] == a[1..] + b;
      FilterConcat(a[1..], b, keep);
      var rest := Filter(a[1..], keep) + Filter(b, keep);
      assert Filter(ab[1..], keep) == rest;
      if keep(a[0]) {
        assert Filter(ab, keep) == [a[0]] + rest;
        assert Filter(a, keep) == [a[0]] + Filter(a[1..], keep);
      } else {
        assert Filter(ab, keep) == rest;
        assert Filter(a, keep) == Filter(a[1..], keep);
      }
    }
  }

  /** When every element passes, filtering returns the sequence itself. */
  lemma {:induction false} FilterKeepsAll<T(!new)>(s: seq<T>, keep: T -> bool)
    requires forall i :: 0 <= i < |s| ==> keep(s[i])
    ensures Filter(s, keep) == s
  {
    if s != [] {
      FilterKeepsAll(s[1..], keep);
    }
  }

  /** `s.findIndex(p)` from position `k`: the first index at or after `k` whose element satisfies `p`. */
  function FindIndexFrom<T>(s: seq<T>, p: T -> bool, k: nat): (r: Option<nat>)
    requires k <= |s|
    ensures r.Some? ==> k <= r.value < |s| && p(s[r.value])
    ensures r.Some? ==> forall j :: k <= j < r.value ==> !p(s[j])
    ensures r.None? ==> forall j :: k <= j < |s| ==> !p(s[j])
    decreases |s| - k
  {
    if k == |s| then None
    else if p(s[k]) then Some(k)
    else FindIndexFrom(s, p, k + 1)
  }

  /** `s.find(p)`: the first element that satisfies `p`, or `undefined` (here `None`). */
  function Find<T(!new)>(s: seq<T>, p: T -> bool): (r: Option<T>)
    ensures r.Some? ==> r.value in s && p(r.value)
    ensures r.None? <==> forall x :: x in s ==> !p(x)
  {
    match FindIndexFrom(s, p, 0)
    case None => None
    case Some(i) => Some(s[i])
  }

  /** What `s.find(p)` returns is the element at the first index that satisfies `p`. */
  lemma FindIsFirst<T(!new)>(s: seq<T>, p: T -> bool)
    requires Find(s, p).Some?
    ensures exists i :: 0 <= i < |s| && s[i] == Find(s, p).value && forall j :: 0 <= j < i ==> !p(s[j])
  {
    var i := FindIndexFrom(s, p, 0).value;
    assert s[i] == Find(s, p).value;
  }
}
