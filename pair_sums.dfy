/** Sums over all pairs drawn from two lists, in the order of two nested loops:
    the outer loop over the first list, the inner one over the second. The
    detector passes accumulate their scores this way. */
module PairSums {

  /** `f(x, b[0]) + ... + f(x, b[|b| - 1])`, added left to right. */
  function RowSum<T>(x: T, b: seq<T>, f: (T, T) -> real): real {
    if b == [] then 0.0 else RowSum(x, b[..|b| - 1], f) + f(x, b[|b| - 1])
  }

  /** The sum of `f(a[i], b[j])` over every `i` and `j`, row by row. */
  function PairSum<T>(a: seq<T>, b: seq<T>, f: (T, T) -> real): real {
    if a == [] then 0.0 else PairSum(a[..|a| - 1], b, f) + RowSum(a[|a| - 1], b, f)
  }

  /** The elements of `s` that satisfy `p`, in order. */
  function Filter<T>(s: seq<T>, p: T -> bool): (r: seq<T>)
    ensures |r| <= |s|
    ensures forall k :: 0 <= k < |r| ==> p(r[k]) && r[k] in s
  {
    if s == [] then [] else Filter(s[..|s| - 1], p) + (if p(s[|s| - 1]) then [s[|s| - 1]] else [])
  }

  lemma {:induction false} RowSumNonNegative<T>(x: T, b: seq<T>, f: (T, T) -> real)
    requires forall y :: f(x, y) >= 0.0
    ensures RowSum(x, b, f) >= 0.0
  {
    if b != [] {
      RowSumNonNegative(x, b[..|b| - 1], f);
    }
  }

  /** Non-negative terms give a non-negative sum. */
  lemma {:induction false} PairSumNonNegative<T>(a: seq<T>, b: seq<T>, f: (T, T) -> real)
    requires forall x, y :: f(x, y) >= 0.0
    ensures PairSum(a, b, f) >= 0.0
  {
    if a != [] {
      PairSumNonNegative(a[..|a| - 1], b, f);
      RowSumNonNegative(a[|a| - 1], b, f);
    }
  }

  lemma {:induction false} PairSumEmptyRight<T>(a: seq<T>, f: (T, T) -> real)
    ensures PairSum(a, [], f) == 0.0
  {
    if a != [] {
      PairSumEmptyRight(a[..|a| - 1], f);
    }
  }

  /** Adding a column `y` to the second list adds `y`'s row of the transposed sum. */
  lemma {:induction false} PairSumAppendRight<T>(a: seq<T>, b: seq<T>, y: T, f: (T, T) -> real, g: (T, T) -> real)
    requires forall u, v :: f(u, v) == g(v, u)
    ensures PairSum(a, b + [y], f) == PairSum(a, b, f) + RowSum(y, a, g)
  {
    assert (b + [y])[..|b|] == b;
    if a != [] {
      var a', x := a[..|a| - 1], a[|a| - 1];
      PairSumAppendRight(a', b, y, f, g);
      assert RowSum(x, b + [y], f) == RowSum(x, b, f) + f(x, y);
      assert RowSum(y, a, g) == RowSum(y, a', g) + g(y, x);
    }
  }

  /** A pair sum does not depend on which list drives the outer loop, as long as
      the term is swapped with it. */
  lemma {:induction false} PairSumSwap<T>(a: seq<T>, b: seq<T>, f: (T, T) -> real, g: (T, T) -> real)
    requires forall u, v :: f(u, v) == g(v, u)
    ensures PairSum(a, b, f) == PairSum(b, a, g)
  {
    if b == [] {
      PairSumEmptyRight(a, f);
    } else {
      var b', y := b[..|b| - 1], b[|b| - 1];
      assert b == b' + [y];
      PairSumAppendRight(a, b', y, f, g);
      PairSumSwap(a, b', f, g);
    }
  }

  lemma {:induction false} RowSumAdd<T>(x: T, b: seq<T>, f: (T, T) -> real, g: (T, T) -> real, h: (T, T) -> real)
    requires forall u, v :: h(u, v) == f(u, v) + g(u, v)
    ensures RowSum(x, b, h) == RowSum(x, b, f) + RowSum(x, b, g)
  {
    if b != [] {
      RowSumAdd(x, b[..|b| - 1], f, g, h);
    }
  }

  /** A pair sum of a sum of terms is the sum of the two pair sums. */
  lemma {:induction false} PairSumAdd<T>(a: seq<T>, b: seq<T>, f: (T, T) -> real, g: (T, T) -> real, h: (T, T) -> real)
    requires forall u, v :: h(u, v) == f(u, v) + g(u, v)
    ensures PairSum(a, b, h) == PairSum(a, b, f) + PairSum(a, b, g)
  {
    if a != [] {
      PairSumAdd(a[..|a| - 1], b, f, g, h);
      RowSumAdd(a[|a| - 1], b, f, g, h);
    }
  }

  lemma {:induction false} RowSumFilter<T>(x: T, b: seq<T>, p: T -> bool, f: (T, T) -> real, g: (T, T) -> real)
    requires p(x)
    requires forall u, v :: f(u, v) == if p(u) && p(v) then g(u, v) else 0.0
    ensures RowSum(x, b, f) == RowSum(x, Filter(b, p), g)
  {
    if b != [] {
      var b', y := b[..|b| - 1], b[|b| - 1];
      RowSumFilter(x, b', p, f, g);
      if p(y) {
        var fb := Filter(b', p) + [y];
        assert fb[..|fb| - 1] == Filter(b', p);
      } else {
        assert Filter(b, p) == Filter(b', p) + [] == Filter(b', p);
        assert RowSum(x, b, f) == RowSum(x, b', f) + f(x, y);
        assert f(x, y) == 0.0;
      }
    }
  }

  lemma {:induction false} RowSumZero<T>(x: T, b: seq<T>, f: (T, T) -> real)
    requires forall v :: f(x, v) == 0.0
    ensures RowSum(x, b, f) == 0.0
  {
    if b != [] {
      RowSumZero(x, b[..|b| - 1], f);
    }
  }

  /** A term that vanishes unless both elements satisfy `p` sums over the
      elements that satisfy `p` only. */
  lemma {:induction false} PairSumFilter<T>(a: seq<T>, b: seq<T>, p: T -> bool, f: (T, T) -> real, g: (T, T) -> real)
    requires forall u, v :: f(u, v) == if p(u) && p(v) then g(u, v) else 0.0
    ensures PairSum(a, b, f) == PairSum(Filter(a, p), Filter(b, p), g)
  {
    if a != [] {
      var a', x := a[..|a| - 1], a[|a| - 1];
      PairSumFilter(a', b, p, f, g);
      if p(x) {
        RowSumFilter(x, b, p, f, g);
        var fa := Filter(a', p) + [x];
        assert fa[..|fa| - 1] == Filter(a', p);
      } else {
        RowSumZero(x, b, f);
        assert Filter(a, p) == Filter(a', p) + [] == Filter(a', p);
      }
    }
  }

  /** A pair sum only depends on the term's values at pairs of members. */
  lemma {:induction false} PairSumCongruent<T>(a: seq<T>, b: seq<T>, f: (T, T) -> real, g: (T, T) -> real)
    requires forall u, v :: u in a && v in b ==> f(u, v) == g(u, v)
    ensures PairSum(a, b, f) == PairSum(a, b, g)
  {
    if a != [] {
      var a', x := a[..|a| - 1], a[|a| - 1];
      assert forall u :: u in a' ==> u in a;
      PairSumCongruent(a', b, f, g);
      RowSumCongruent(x, b, f, g);
    }
  }

  lemma {:induction false} RowSumCongruent<T>(x: T, b: seq<T>, f: (T, T) -> real, g: (T, T) -> real)
    requires forall v :: v in b ==> f(x, v) == g(x, v)
    ensures RowSum(x, b, f) == RowSum(x, b, g)
  {
    if b != [] {
      assert forall v :: v in b[..|b| - 1] ==> v in b;
      RowSumCongruent(x, b[..|b| - 1], f, g);
      assert b[|b| - 1] in b;
    }
  }

  /** For a term that is never negative, the pair sum vanishes exactly when the
      term vanishes at every pair of members. */
  lemma {:induction false} PairSumZeroIff<T>(a: seq<T>, b: seq<T>, f: (T, T) -> real)
    requires forall u, v :: f(u, v) >= 0.0
    ensures PairSum(a, b, f) == 0.0 <==> forall u, v :: u in a && v in b ==> f(u, v) == 0.0
  {
    if a != [] {
      var a', x := a[..|a| - 1], a[|a| - 1];
      PairSumZeroIff(a', b, f);
      RowSumZeroIff(x, b, f);
      PairSumNonNegative(a', b, f);
      RowSumNonNegative(x, b, f);
      assert forall u :: u in a <==> u in a' || u == x;
    }
  }

  lemma {:induction false} RowSumZeroIff<T>(x: T, b: seq<T>, f: (T, T) -> real)
    requires forall u, v :: f(u, v) >= 0.0
    ensures RowSum(x, b, f) == 0.0 <==> forall v :: v in b ==> f(x, v) == 0.0
  {
    if b != [] {
      var b', y := b[..|b| - 1], b[|b| - 1];
      RowSumZeroIff(x, b', f);
      RowSumNonNegative(x, b', f);
      assert forall v :: v in b <==> v in b' || v == y;
    }
  }

  /** `g(x, b[0]) + ... + g(x, b[|b| - 1])` as list concatenation: what an inner
      loop appends for one outer element. */
  function RowFlat<T, U>(x: T, b: seq<T>, g: (T, T) -> seq<U>): seq<U> {
    if b == [] then [] else RowFlat(x, b[..|b| - 1], g) + g(x, b[|b| - 1])
  }

  /** What two nested loops append, row by row. */
  function PairFlat<T, U>(a: seq<T>, b: seq<T>, g: (T, T) -> seq<U>): seq<U> {
    if a == [] then [] else PairFlat(a[..|a| - 1], b, g) + RowFlat(a[|a| - 1], b, g)
  }

  /** The number of items appended is the pair sum of the items per pair. */
  lemma {:induction false} PairFlatLength<T, U>(a: seq<T>, b: seq<T>, g: (T, T) -> seq<U>, c: (T, T) -> real)
    requires forall u, v :: c(u, v) == |g(u, v)| as real
    ensures |PairFlat(a, b, g)| as real == PairSum(a, b, c)
  {
    if a != [] {
      PairFlatLength(a[..|a| - 1], b, g, c);
      RowFlatLength(a[|a| - 1], b, g, c);
    }
  }

  lemma {:induction false} RowFlatLength<T, U>(x: T, b: seq<T>, g: (T, T) -> seq<U>, c: (T, T) -> real)
    requires forall u, v :: c(u, v) == |g(u, v)| as real
    ensures |RowFlat(x, b, g)| as real == RowSum(x, b, c)
  {
    if b != [] {
      RowFlatLength(x, b[..|b| - 1], g, c);
    }
  }

  /** Appending the same number of items per pair keeps two flattenings the same
      length. */
  lemma {:induction false} PairFlatSameLength<T, U, V>(a: seq<T>, b: seq<T>, g: (T, T) -> seq<U>, h: (T, T) -> seq<V>)
    requires forall u, v :: |g(u, v)| == |h(u, v)|
    ensures |PairFlat(a, b, g)| == |PairFlat(a, b, h)|
  {
    if a != [] {
      PairFlatSameLength(a[..|a| - 1], b, g, h);
      RowFlatSameLength(a[|a| - 1], b, g, h);
    }
  }

  lemma {:induction false} RowFlatSameLength<T, U, V>(x: T, b: seq<T>, g: (T, T) -> seq<U>, h: (T, T) -> seq<V>)
    requires forall u, v :: |g(u, v)| == |h(u, v)|
    ensures |RowFlat(x, b, g)| == |RowFlat(x, b, h)|
  {
    if b != [] {
      RowFlatSameLength(x, b[..|b| - 1], g, h);
    }
  }

  /** With no member satisfying `p`, nothing is kept. */
  lemma {:induction false} FilterNone<T>(s: seq<T>, p: T -> bool)
    requires forall x :: x in s ==> !p(x)
    ensures Filter(s, p) == []
  {
    if s != [] {
      assert forall x :: x in s[..|s| - 1] ==> x in s;
      FilterNone(s[..|s| - 1], p);
      assert s[|s| - 1] in s;
    }
  }
}
