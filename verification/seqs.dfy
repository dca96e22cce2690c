/** Sequence helpers that mirror the JavaScript array methods the fretboard relies on:
    `indexOf`, `filter`, `some` and `Math.min(...xs)`. */
module Seqs {

  /** `xs.indexOf(x)`: the first index holding `x`, or -1 when there is none. */
  function IndexOf<T(==)>(xs: seq<T>, x: T): (r: int)
    ensures -1 <= r < |xs|
    ensures r == -1 <==> x !in xs
    ensures 0 <= r ==> xs[r] == x && x !in xs[..r]
  {
    if |xs| == 0 then -1
    else if xs[0] == x then 0
    else
      var k := IndexOf(xs[1..], x);
      assert xs[1..][..k + 1] == xs[1..k + 2] || k == -1;
      if k == -1 then -1 else k + 1
  }

  /** In a sequence without repeated elements, `indexOf` inverts indexing. */
  lemma IndexOfDistinct<T>(xs: seq<T>, i: int)
    requires forall a, b :: 0 <= a < b < |xs| ==> xs[a] != xs[b]
    requires 0 <= i < |xs|
    ensures IndexOf(xs, xs[i]) == i
  {
  }

  /** `xs.filter(keep)`: the elements satisfying `keep`, in their original order. */
  function Filter<T>(keep: T -> bool, xs: seq<T>): (r: seq<T>)
    ensures |r| <= |xs|
    ensures forall k :: 0 <= k < |r| ==> r[k] in xs && keep(r[k])
    ensures forall k :: 0 <= k < |xs| && keep(xs[k]) ==> xs[k] in r
  {
    if |xs| == 0 then []
    else (if keep(xs[0]) then [xs[0]] else []) + Filter(keep, xs[1..])
  }

  /** Filtering distributes over concatenation, so the kept elements stay in order. */
  lemma {:induction false} FilterAppend<T>(keep: T -> bool, a: seq<T>, b: seq<T>)
    ensures Filter(keep, a + b) == Filter(keep, a) + Filter(keep, b)
  {
    if |a| == 0 {
      assert a + b == b;
    } else {
      assert (a + b)[1..] == a[1..] + b;
      FilterAppend(keep, a[1..], b);
    }
  }

  /** A one-element sequence is kept or dropped as a whole. */
  lemma FilterSingle<T>(keep: T -> bool, x: T)
    ensures Filter(keep, [x]) == if keep(x) then [x] else []
  {
    assert [x][1..] == [];
  }

  /** A filter that keeps everything returns its input. */
  lemma {:induction false} FilterKeepsAll<T>(keep: T -> bool, xs: seq<T>)
    requires forall k :: 0 <= k < |xs| ==> keep(xs[k])
    ensures Filter(keep, xs) == xs
  {
    if |xs| > 0 {
      FilterKeepsAll(keep, xs[1..]);
      assert [xs[0]] + xs[1..] == xs;
    }
  }

  /** A filter that keeps nothing returns the empty sequence. */
  lemma {:induction false} FilterKeepsNone<T>(keep: T -> bool, xs: seq<T>)
    requires forall k :: 0 <= k < |xs| ==> !keep(xs[k])
    ensures Filter(keep, xs) == []
  {
    if |xs| > 0 {
      FilterKeepsNone(keep, xs[1..]);
    }
  }

  /** Filtering out one dropped element between kept ones closes the gap. */
  lemma FilterOutOne<T>(keep: T -> bool, a: seq<T>, x: T, b: seq<T>)
    requires forall k :: 0 <= k < |a| ==> keep(a[k])
    requires forall k :: 0 <= k < |b| ==> keep(b[k])
    requires !keep(x)
    ensures Filter(keep, a + [x] + b) == a + b
  {
    FilterAppend(keep, a + [x], b);
    FilterAppend(keep, a, [x]);
    FilterSingle(keep, x);
    FilterKeepsAll(keep, a);
    FilterKeepsAll(keep, b);
    assert a + [] == a;
  }

  /** Filtering a sequence without repeats gives a sequence without repeats. */
  lemma {:induction false} FilterDistinct<T>(keep: T -> bool, xs: seq<T>)
    requires forall a, b :: 0 <= a < b < |xs| ==> xs[a] != xs[b]
    ensures forall a, b :: 0 <= a < b < |Filter(keep, xs)| ==> Filter(keep, xs)[a] != Filter(keep, xs)[b]
  {
    if |xs| > 0 {
      var tail := xs[1..];
      FilterDistinct(keep, tail);
      var h := if keep(xs[0]) then [xs[0]] else [];
      var r := Filter(keep, tail);
      assert Filter(keep, xs) == h + r;
      assert xs[0] !in tail by {
        assert forall k :: 0 <= k < |tail| ==> tail[k] == xs[k + 1];
      }
      assert xs[0] !in r;
    }
  }

  /** A filter keeps every copy of a kept value and no copy of a dropped one. */
  lemma {:induction false} FilterCount<T>(keep: T -> bool, xs: seq<T>, x: T)
    ensures multiset(Filter(keep, xs))[x] == if keep(x) then multiset(xs)[x] else 0
  {
    if |xs| > 0 {
      FilterCount(keep, xs[1..], x);
      assert xs == [xs[0]] + xs[1..];
      assert multiset(xs) == multiset([xs[0]]) + multiset(xs[1..]);
    }
  }

  /** `xs.some(test)`: whether some element passes the test. */
  function Any<T>(test: T -> bool, xs: seq<T>): (b: bool)
    ensures b <==> exists k :: 0 <= k < |xs| && test(xs[k])
  {
    if |xs| == 0 then false
    else
      assert forall k :: 1 <= k < |xs| ==> xs[k] == xs[1..][k - 1];
      test(xs[0]) || Any(test, xs[1..])
  }

  /** The sequences `f(x)` for the elements `x` of `xs`, concatenated left to right: what a
      `forEach` that appends each `f(x)` to an accumulator builds. */
  function FlatMap<U, T>(f: U -> seq<T>, xs: seq<U>): seq<T>
  {
    if |xs| == 0 then [] else FlatMap(f, xs[..|xs| - 1]) + f(xs[|xs| - 1])
  }

  lemma {:induction false} FlatMapAppend<U, T>(f: U -> seq<T>, a: seq<U>, b: seq<U>)
    ensures FlatMap(f, a + b) == FlatMap(f, a) + FlatMap(f, b)
    decreases |b|
  {
    if |b| == 0 {
      assert a + b == a;
    } else {
      var b' := b[..|b| - 1];
      assert (a + b)[..|a + b| - 1] == a + b';
      assert (a + b)[|a + b| - 1] == b[|b| - 1];
      FlatMapAppend(f, a, b');
    }
  }

  /** An element of the concatenation comes from one of the parts, and every part's elements
      are in it. */
  lemma {:induction false} FlatMapMembers<U, T>(f: U -> seq<T>, xs: seq<U>, y: T)
    ensures y in FlatMap(f, xs) <==> exists j :: 0 <= j < |xs| && y in f(xs[j])
    decreases |xs|
  {
    if |xs| > 0 {
      var init := xs[..|xs| - 1];
      FlatMapMembers(f, init, y);
      assert FlatMap(f, xs) == FlatMap(f, init) + f(xs[|xs| - 1]);
      assert forall j :: 0 <= j < |init| ==> init[j] == xs[j];
    }
  }

  /** `Math.min(...xs)` on a non-empty array. */
  function Min(xs: seq<int>): (m: int)
    requires |xs| > 0
    ensures m in xs
    ensures forall k :: 0 <= k < |xs| ==> m <= xs[k]
  {
    if |xs| == 1 then xs[0]
    else
      var t := Min(xs[1..]);
      assert forall k :: 1 <= k < |xs| ==> xs[k] == xs[1..][k - 1];
      if xs[0] <= t then xs[0] else t
  }
}
