/** Order-preserving selection on sequences (`Array.prototype.filter`) and
    the subsequence relation it produces. */
module Seqs {

  /** `xs.filter(keep)`: the elements that satisfy `keep`, in their order. */
  function Filter<T>(xs: seq<T>, keep: T -> bool): (r: seq<T>)
    ensures |r| <= |xs|
    ensures forall i :: 0 <= i < |r| ==> keep(r[i])
    ensures forall x :: x in r ==> x in xs
  {
    if xs == [] then []
    else (if keep(xs[0]) then [xs[0]] else []) + Filter(xs[1..], keep)
  }

  /** `a` is obtained from `b` by deleting elements, keeping the order. */
  predicate IsSubsequence<T(==)>(a: seq<T>, b: seq<T>)
    decreases |b|
  {
    a == [] || (b != [] && ((a[0] == b[0] && IsSubsequence(a[1..], b[1..])) || IsSubsequence(a, b[1..])))
  }

  lemma {:induction false} FilterIsSubsequence<T>(xs: seq<T>, keep: T -> bool)
    ensures IsSubsequence(Filter(xs, keep), xs)
  {
    if xs != [] {
      FilterIsSubsequence(xs[1..], keep);
      var a := Filter(xs, keep);
      if keep(xs[0]) {
        assert a == [xs[0]] + Filter(xs[1..], keep);
        assert a[0] == xs[0] && a[1..] == Filter(xs[1..], keep);
      } else {
        assert a == Filter(xs[1..], keep);
      }
    }
  }

  /** Exactly the elements of `xs` that satisfy `keep` are in the result. */
  lemma {:induction false} FilterMembership<T>(xs: seq<T>, keep: T -> bool, x: T)
    ensures x in Filter(xs, keep) <==> x in xs && keep(x)
  {
    if xs != [] {
      FilterMembership(xs[1..], keep, x);
      assert x in xs <==> x == xs[0] || x in xs[1..];
    }
  }

  lemma {:induction false} FilterAppend<T>(a: seq<T>, b: seq<T>, keep: T -> bool)
    ensures Filter(a + b, keep) == Filter(a, keep) + Filter(b, keep)
  {
    if a == [] {
      assert a + b == b;
    } else {
      assert (a + b)[0] == a[0];
      assert (a + b)[1..] == a[1..] + b;
      FilterAppend(a[1..], b, keep);
    }
  }

  /** Filtering keeps everything when every element is kept. */
  lemma {:induction false} FilterAll<T>(xs: seq<T>, keep: T -> bool)
    requires forall i :: 0 <= i < |xs| ==> keep(xs[i])
    ensures Filter(xs, keep) == xs
  {
    if xs != [] {
      FilterAll(xs[1..], keep);
    }
  }

  /** A stricter filter applied after a weaker one is the stricter filter. */
  lemma {:induction false} FilterNarrower<T>(xs: seq<T>, strict: T -> bool, weak: T -> bool)
    requires forall x :: strict(x) ==> weak(x)
    ensures Filter(Filter(xs, weak), strict) == Filter(xs, strict)
  {
    if xs != [] {
      FilterNarrower(xs[1..], strict, weak);
      var w := Filter(xs, weak);
      if weak(xs[0]) {
        assert w == [xs[0]] + Filter(xs[1..], weak);
        assert w[0] == xs[0] && w[1..] == Filter(xs[1..], weak);
      } else {
        assert !strict(xs[0]);
        assert w == Filter(xs[1..], weak);
      }
    }
  }
}
