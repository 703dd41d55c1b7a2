/**
 * The two list transformations the state updates are built from:
 * `xs.map(x => hit(x) ? f(x) : x)` and `xs.filter(keep)`.
 */
module Lists {

  /** `xs.map(x => hit(x) ? f(x) : x)`: the hits are rewritten in place, the rest kept. */
  function MapWhere<T>(xs: seq<T>, hit: T -> bool, f: T -> T): (ys: seq<T>)
    ensures |ys| == |xs|
    ensures forall i :: 0 <= i < |xs| ==> ys[i] == if hit(xs[i]) then f(xs[i]) else xs[i]
  {
    if xs == [] then []
    else [if hit(xs[0]) then f(xs[0]) else xs[0]] + MapWhere(xs[1..], hit, f)
  }

  /** With no hit, the list is returned as it was. */
  lemma MapWhereNoHit<T>(xs: seq<T>, hit: T -> bool, f: T -> T)
    requires forall i :: 0 <= i < |xs| ==> !hit(xs[i])
    ensures MapWhere(xs, hit, f) == xs
  {
    var ys := MapWhere(xs, hit, f);
    assert forall i :: 0 <= i < |xs| ==> ys[i] == xs[i];
  }

  /** `xs.filter(keep)`: the elements that pass, in their original order. */
  function Filter<T>(xs: seq<T>, keep: T -> bool): (ys: seq<T>)
    ensures |ys| <= |xs|
    ensures forall i :: 0 <= i < |ys| ==> keep(ys[i]) && ys[i] in xs
    ensures forall x :: x in xs && keep(x) ==> x in ys
  {
    if xs == [] then []
    else if keep(xs[0]) then [xs[0]] + Filter(xs[1..], keep)
    else Filter(xs[1..], keep)
  }

  /** Filtering distributes over concatenation, which is what keeping the order means. */
  lemma {:induction false} FilterAppend<T>(a: seq<T>, b: seq<T>, keep: T -> bool)
    ensures Filter(a + b, keep) == Filter(a, keep) + Filter(b, keep)
  {
    if a == [] {
      assert a + b == b;
    } else {
      assert (a + b)[1..] == a[1..] + b;
      FilterAppend(a[1..], b, keep);
    }
  }

  /** When every element passes, nothing is removed. */
  lemma {:induction false} FilterKeepsAll<T>(xs: seq<T>, keep: T -> bool)
    requires forall i :: 0 <= i < |xs| ==> keep(xs[i])
    ensures Filter(xs, keep) == xs
  {
    if xs != [] {
      FilterKeepsAll(xs[1..], keep);
    }
  }

  /** Filtering twice with the same test removes nothing more. */
  lemma FilterIdempotent<T>(xs: seq<T>, keep: T -> bool)
    ensures Filter(Filter(xs, keep), keep) == Filter(xs, keep)
  {
    FilterKeepsAll(Filter(xs, keep), keep);
  }
}
