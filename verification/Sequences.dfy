/** Sequences without one of their elements, and regrouped. */
module Sequences {

  function Without<T>(xs: seq<T>, i: nat): seq<T>
    requires i < |xs|
  {
    xs[..i] + xs[i + 1..]
  }

  lemma WithoutLast<T>(xs: seq<T>, i: nat)
    requires i < |xs| - 1
    ensures Without(xs, i) == Without(xs[..|xs| - 1], i) + [xs[|xs| - 1]] && xs[..|xs| - 1][i] == xs[i]
  {
  }

  lemma WithoutOne<T>(xs: seq<T>, i: nat)
    requires i < |xs|
    ensures multiset(xs) == multiset(Without(xs, i)) + multiset{xs[i]}
  {
    assert xs == xs[..i] + [xs[i]] + xs[i + 1..];
  }

  lemma Associative<T>(xs: seq<T>, ys: seq<T>, zs: seq<T>)
    ensures (xs + ys) + zs == xs + (ys + zs)
  {
  }
}
