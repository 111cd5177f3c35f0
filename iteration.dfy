/** Python's iteration over a `set`: every element exactly once, in an order the
    language does not specify. */
module Iteration {

  /** `s` lists the elements of a set once each, in some order. */
  predicate IsListing<T>(s: seq<T>, elements: set<T>) {
    (forall x :: x in s ==> x in elements) && (forall x :: x in elements ==> x in s)
    && (forall i, j :: 0 <= i < j < |s| ==> s[i] != s[j])
  }

  /** `set(s)`: the elements of a list. */
  function Elements<T>(s: seq<T>): set<T> {
    set x | x in s
  }

  /** `for x in elements`: the order is chosen by the runtime, so it is left
      open here. */
  method Enumerate<T>(elements: set<T>) returns (s: seq<T>)
    ensures IsListing(s, elements)
    ensures |s| == |elements|
  {
    s := [];
    var rest := elements;
    while rest != {}
      invariant rest <= elements
      invariant forall x :: x in s <==> x in elements - rest
      invariant forall i, j :: 0 <= i < j < |s| ==> s[i] != s[j]
      invariant |s| + |rest| == |elements|
      decreases |rest|
    {
      var x :| x in rest;
      assert x !in s;
      s := s + [x];
      rest := rest - {x};
    }
  }

  /** An element of a listing does not occur before its own position. */
  lemma ListingPrefix<T>(s: seq<T>, elements: set<T>, i: int)
    requires IsListing(s, elements) && 0 <= i < |s|
    ensures s[i] !in s[..i] && s[i] in elements
  {
  }

  /** The prefix of a loop over `s` grows by the element at the index. */
  lemma PrefixStep<T>(s: seq<T>, i: int)
    requires 0 <= i < |s|
    ensures s[..i + 1] == s[..i] + [s[i]] && s[..i + 1][..i] == s[..i]
  {
  }

  lemma PrefixAll<T>(s: seq<T>)
    ensures s[..|s|] == s
  {
  }

  /** Splitting off the last element of the right operand of a concatenation. */
  lemma ConcatLast<T>(a: seq<T>, b: seq<T>)
    requires b != []
    ensures a + b[..|b| - 1] + [b[|b| - 1]] == a + b
    ensures (a + b)[..|a + b| - 1] == a + b[..|b| - 1] && (a + b)[|a + b| - 1] == b[|b| - 1]
  {
  }

  lemma ConcatEmpty<T>(a: seq<T>)
    ensures a + [] == a && [] + a == a
  {
  }
}
