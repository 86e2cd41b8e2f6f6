/** Runs of any machine, and how they compose. */
module Runs {

  ghost predicate IsPath<S, A>(s: S, actions: seq<A>, can: (S, A) -> bool, step: (S, A) -> S)
    decreases |actions|
  {
    actions == [] || (can(s, actions[0]) && IsPath(step(s, actions[0]), actions[1..], can, step))
  }

  ghost function End<S, A>(s: S, actions: seq<A>, step: (S, A) -> S): S
    decreases |actions|
  {
    if actions == [] then s else End(step(s, actions[0]), actions[1..], step)
  }

  lemma {:induction false} PathThen<S, A>(s: S, first: seq<A>, rest: seq<A>, can: (S, A) -> bool, step: (S, A) -> S)
    requires IsPath(s, first, can, step) && IsPath(End(s, first, step), rest, can, step)
    ensures IsPath(s, first + rest, can, step) && End(s, first + rest, step) == End(End(s, first, step), rest, step)
    decreases |first|
  {
    if first == [] {
      assert first + rest == rest;
    } else {
      assert first + rest == [first[0]] + (first[1..] + rest);
      PathThen(step(s, first[0]), first[1..], rest, can, step);
    }
  }
}
