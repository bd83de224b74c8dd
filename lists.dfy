/**
 * The two array operations the screens select rides with: `find` (the first element that
 * satisfies a test) and `filter` (every element that does, in order).
 */
module Lists {
  import opened Outcomes

  /** The position of the first element satisfying `p`, or |xs| when there is none. */
  function FirstIndex<T>(xs: seq<T>, p: T -> bool): (i: nat)
    ensures i <= |xs|
    ensures i < |xs| ==> p(xs[i])
    ensures forall j :: 0 <= j < i ==> !p(xs[j])
  {
    if xs == [] then 0
    else if p(xs[0]) then 0
    else 1 + FirstIndex(xs[1..], p)
  }

  /** Array.prototype.find. */
  function Find<T>(xs: seq<T>, p: T -> bool): (r: Option<T>)
    ensures r.None? <==> forall j :: 0 <= j < |xs| ==> !p(xs[j])
    ensures r.Some? ==> p(r.value) && r.value in xs
    ensures r.Some? ==> r.value == xs[FirstIndex(xs, p)]
  {
    var i := FirstIndex(xs, p);
    if i < |xs| then Some(xs[i]) else None
  }

  /** Array.prototype.filter. */
  function Filter<T>(xs: seq<T>, p: T -> bool): (ys: seq<T>)
    ensures |ys| <= |xs|
    ensures forall y :: y in ys ==> y in xs && p(y)
    ensures forall j :: 0 <= j < |xs| && p(xs[j]) ==> xs[j] in ys
    ensures multiset(ys) <= multiset(xs)
    ensures ys == [] <==> forall j :: 0 <= j < |xs| ==> !p(xs[j])
  {
    if xs == [] then []
    else
      assert xs == [xs[0]] + xs[1..];
      if p(xs[0]) then [xs[0]] + Filter(xs[1..], p) else Filter(xs[1..], p)
  }

  /** Filtering keeps the order of the input: it filters each part of a concatenation on its own. */
  lemma {:induction false} FilterAppend<T>(xs: seq<T>, zs: seq<T>, p: T -> bool)
    ensures Filter(xs + zs, p) == Filter(xs, p) + Filter(zs, p)
  {
    if xs == [] {
      assert xs + zs == zs;
    } else {
      assert (xs + zs)[1..] == xs[1..] + zs;
      FilterAppend(xs[1..], zs, p);
    }
  }

  /** Filtering keeps every element that passes as many times as it occurs. */
  lemma {:induction false} FilterKeepsPassing<T>(xs: seq<T>, p: T -> bool, x: T)
    requires p(x)
    ensures multiset(Filter(xs, p))[x] == multiset(xs)[x]
  {
    if xs != [] {
      assert xs == [xs[0]] + xs[1..];
      FilterKeepsPassing(xs[1..], p, x);
    }
  }

  /** Filtering twice with the same test changes nothing the second time. */
  lemma {:induction false} FilterIdempotent<T>(xs: seq<T>, p: T -> bool)
    ensures Filter(Filter(xs, p), p) == Filter(xs, p)
  {
    if xs != [] {
      FilterIdempotent(xs[1..], p);
      if p(xs[0]) {
        assert ([xs[0]] + Filter(xs[1..], p))[1..] == Filter(xs[1..], p);
      }
    }
  }
}
