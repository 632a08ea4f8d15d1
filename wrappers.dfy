/** Rust's `Option`, used for every probe result that may be absent, and `filter_map`. */
module Wrappers {

  datatype Option<+T> = None | Some(value: T) {

    /** `unwrap_or`: the value, or `default` when absent. */
    function GetOr(default: T): T {
      match this
      case Some(v) => v
      case None => default
    }
  }

  /** `xs.iter().filter_map(f)`: the values `f` gives, in order, skipping the absent ones. */
  function FilterMap<A, B>(f: A -> Option<B>, xs: seq<A>): (r: seq<B>)
    ensures |r| <= |xs|
    decreases |xs|
  {
    if xs == [] then []
    else
      var last := f(xs[|xs| - 1]);
      FilterMap(f, xs[..|xs| - 1]) + (if last.Some? then [last.value] else [])
  }

  /** Filtering one more element appends its value, if it has one. */
  lemma FilterMapSnoc<A, B>(f: A -> Option<B>, xs: seq<A>, i: nat)
    requires i < |xs|
    ensures FilterMap(f, xs[..i + 1]) ==
      FilterMap(f, xs[..i]) + (if f(xs[i]).Some? then [f(xs[i]).value] else [])
  {
    assert xs[..i + 1][..i] == xs[..i];
  }

  /** Filtering commutes with concatenation. */
  lemma {:induction false} FilterMapAppend<A, B>(f: A -> Option<B>, a: seq<A>, b: seq<A>)
    ensures FilterMap(f, a + b) == FilterMap(f, a) + FilterMap(f, b)
    decreases |b|
  {
    if b == [] {
      assert a + b == a;
    } else {
      var b' := b[..|b| - 1];
      assert (a + b)[..|a + b| - 1] == a + b';
      FilterMapAppend(f, a, b');
    }
  }

  /** A value is in the output exactly when some input element gives it. */
  lemma {:induction false} FilterMapMembers<A, B>(f: A -> Option<B>, xs: seq<A>, y: B)
    ensures y in FilterMap(f, xs) <==> exists k :: 0 <= k < |xs| && f(xs[k]) == Some(y)
    decreases |xs|
  {
    if xs != [] {
      var xs' := xs[..|xs| - 1];
      FilterMapMembers(f, xs', y);
      if exists k :: 0 <= k < |xs'| && f(xs'[k]) == Some(y) {
        var k :| 0 <= k < |xs'| && f(xs'[k]) == Some(y);
        assert xs[k] == xs'[k];
      }
      if exists k :: 0 <= k < |xs| && f(xs[k]) == Some(y) {
        var k :| 0 <= k < |xs| && f(xs[k]) == Some(y);
        if k < |xs'| {
          assert xs'[k] == xs[k];
        }
      }
    }
  }

  /** When every input element's value carries the element's own index as its key, the output
      lists the keys in strictly increasing order: filtering keeps the input order. */
  lemma {:induction false} FilterMapOrdered<A, B>(f: A -> Option<B>, xs: seq<A>, key: B -> int)
    requires forall k :: 0 <= k < |xs| && f(xs[k]).Some? ==> key(f(xs[k]).value) == k
    ensures forall i :: 0 <= i < |FilterMap(f, xs)| ==> 0 <= key(FilterMap(f, xs)[i]) < |xs|
    ensures forall i, j :: 0 <= i < j < |FilterMap(f, xs)| ==> key(FilterMap(f, xs)[i]) < key(FilterMap(f, xs)[j])
    decreases |xs|
  {
    if xs != [] {
      var xs' := xs[..|xs| - 1];
      forall k | 0 <= k < |xs'| && f(xs'[k]).Some?
        ensures key(f(xs'[k]).value) == k
      {
        assert xs'[k] == xs[k];
      }
      FilterMapOrdered(f, xs', key);
    }
  }
}
