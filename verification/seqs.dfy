/** Counting over sequences. */
module Seqs {

  /** The number of elements of `xs` that satisfy `f`. */
  function Count<T>(xs: seq<T>, f: T -> bool): (n: nat)
    ensures n <= |xs|
  {
    if |xs| == 0 then 0
    else Count(xs[..|xs| - 1], f) + (if f(xs[|xs| - 1]) then 1 else 0)
  }

  /** Counting distributes over concatenation. */
  lemma {:induction false} CountAppend<T>(a: seq<T>, b: seq<T>, f: T -> bool)
    ensures Count(a + b, f) == Count(a, f) + Count(b, f)
    decreases |b|
  {
    if |b| == 0 {
      assert a + b == a;
    } else {
      assert (a + b)[..|a + b| - 1] == a + b[..|b| - 1];
      CountAppend(a, b[..|b| - 1], f);
    }
  }

  /** Replacing one element changes the count only by what that element contributes. */
  lemma CountUpdate<T>(xs: seq<T>, i: nat, x: T, f: T -> bool)
    requires i < |xs|
    ensures Count(xs[i := x], f) + (if f(xs[i]) then 1 else 0)
         == Count(xs, f) + (if f(x) then 1 else 0)
  {
    assert xs == xs[..i] + [xs[i]] + xs[i + 1..];
    assert xs[i := x] == xs[..i] + [x] + xs[i + 1..];
    CountAppend(xs[..i] + [xs[i]], xs[i + 1..], f);
    CountAppend(xs[..i] + [x], xs[i + 1..], f);
    CountAppend(xs[..i], [xs[i]], f);
    CountAppend(xs[..i], [x], f);
  }

  /** No element satisfies `f` exactly when the count is zero. */
  lemma {:induction false} CountNone<T>(xs: seq<T>, f: T -> bool)
    ensures Count(xs, f) == 0 <==> forall i :: 0 <= i < |xs| ==> !f(xs[i])
    decreases |xs|
  {
    if |xs| > 0 {
      var init := xs[..|xs| - 1];
      CountNone(init, f);
      assert forall i :: 0 <= i < |init| ==> init[i] == xs[i];
    }
  }
}
