/** Runs of the machine, one after the other. */
module Composition {
  import opened System
  import opened Runs

  ghost function Step(s: Sys, a: Action): Sys { if Enabled(s, a) then Next(s, a) else s }

  lemma {:induction false} RunIsPath(s: Sys, actions: seq<Action>)
    ensures IsRun(s, actions) <==> IsPath(s, actions, Enabled, Step)
    ensures IsRun(s, actions) ==> After(s, actions) == End(s, actions, Step)
    decreases |actions|
  {
    if actions != [] && Enabled(s, actions[0]) { RunIsPath(Next(s, actions[0]), actions[1..]); }
  }

  lemma RunThen(s: Sys, first: seq<Action>, rest: seq<Action>)
    requires IsRun(s, first) && IsRun(After(s, first), rest)
    ensures IsRun(s, first + rest) && After(s, first + rest) == After(After(s, first), rest)
  {
    RunIsPath(s, first);
    RunIsPath(After(s, first), rest);
    PathThen(s, first, rest, Enabled, Step);
    RunIsPath(s, first + rest);
  }

  lemma StepThen(s: Sys, a: Action, rest: seq<Action>)
    requires Enabled(s, a) && IsRun(Next(s, a), rest)
    ensures IsRun(s, [a] + rest) && After(s, [a] + rest) == After(Next(s, a), rest)
  {
    assert ([a] + rest)[0] == a && ([a] + rest)[1..] == rest;
  }
}
