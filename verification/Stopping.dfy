/** Shutdown ends: after QUIT, from every reachable state, the threads and the loop can get to the point
    where the loop has stopped, without further input. */
module Stopping {
  import opened Workers
  import opened Pool
  import opened Batches
  import opened System
  import opened Order
  import opened Theorems
  import opened Shutdown
  import opened Draining
  import opened Composition

  /** Steps of the loop to the messages of the workers, or, if everybody has been joined, to its end. */
  function Ahead(s: Sys): nat {
    if AllJoined(s.pool) then
      match s.phase case Stopped => 0 case Incoming => 1 case Timers => 2 case WorkerMessages => 3 case _ => 4
    else
      match s.phase case WorkerMessages => 0 case Control => 1 case Incoming => 2 case _ => 3
  }

  lemma NextWhileDown(s: Sys, a: Action)
    requires Inv(s) && ShuttingDown(s.pool) && Enabled(s, a) && NoInput(a)
    ensures Inv(Next(s, a)) && ShuttingDown(Next(s, a).pool)
    ensures Outstanding(Next(s, a).pool) == Outstanding(s.pool) - (if a.Advance? then 0 else 1)
  {
    NextKeepsInv(s, a);
    StepAccounting(s, a);
  }

  /** As long as the loop has not stopped, a thread can take a step, or a message can be handled, or the
      loop gets nearer to one of these or to its end. */
  lemma StepTowardsEnd(s: Sys) returns (a: Action)
    requires Inv(s) && ShuttingDown(s.pool) && !s.phase.Stopped?
    ensures Enabled(s, a) && NoInput(a) && (a.Advance? ==> Ahead(Next(s, a)) < Ahead(s))
  {
    if w :| 0 <= w < |s.pool.workers| && CanStep(s.pool.workers[w]) {
      a := PoolThread(w, Value(0));
    } else if t :| 0 <= t < |s.pool.tagged| && CanStep(s.pool.tagged[t].worker) {
      a := TaggedThread(t, Value(0));
    } else if s.phase.WorkerMessages? && Reporting(s.pool) {
      a := HandleOne(s);
    } else {
      a := Advance;
      if !Reporting(s.pool) { NobodyLeft(s.pool); }
      AheadDecreases(s);
    }
  }

  lemma NobodyLeft(p: Pool)
    requires PoolInv(p) && ShuttingDown(p) && Still(p) && !Reporting(p)
    ensures AllJoined(p)
  {
    forall i | 0 <= i < |p.workers| ensures !p.workers[i].joinable {
      assert Legal(p.workers[i]) && !Resting(p.workers[i]);
      LegalMoves(p.workers[i]);
    }
    forall t | 0 <= t < |p.tagged| ensures !p.tagged[t].worker.joinable {
      assert Legal(p.tagged[t].worker) && !Resting(p.tagged[t].worker);
      LegalMoves(p.tagged[t].worker);
    }
  }

  lemma AheadDecreases(s: Sys)
    requires OrderInv(s) && ShuttingDown(s.pool) && !s.phase.Stopped?
    requires AllJoined(s.pool) || !s.phase.WorkerMessages?
    ensures Ahead(Proceed(s)) < Ahead(s)
  {
  }

  /** A step that brings the end nearer. */
  predicate Nearer(s': Sys, s: Sys) {
    || Outstanding(s'.pool) < Outstanding(s.pool)
    || (Outstanding(s'.pool) == Outstanding(s.pool) && Ahead(s') < Ahead(s))
  }

  lemma OneStep(s: Sys) returns (a: Action)
    requires Inv(s) && ShuttingDown(s.pool) && !s.phase.Stopped?
    ensures Enabled(s, a) && NoInput(a) && Inv(Next(s, a)) && ShuttingDown(Next(s, a).pool) && Nearer(Next(s, a), s)
  {
    a := StepTowardsEnd(s);
    NextWhileDown(s, a);
  }

  /** A run without input to the end of the loop. */
  predicate EndsLoop(s: Sys, actions: seq<Action>) {
    IsRun(s, actions) && (forall a | a in actions :: NoInput(a)) && After(s, actions).phase.Stopped?
  }

  lemma OneMore(s: Sys, a: Action, rest: seq<Action>)
    requires Enabled(s, a) && NoInput(a) && EndsLoop(Next(s, a), rest)
    ensures EndsLoop(s, [a] + rest)
  {
    StepThen(s, a, rest);
  }

  lemma {:induction false} RunToEnd(s: Sys) returns (actions: seq<Action>)
    requires Inv(s) && ShuttingDown(s.pool)
    ensures EndsLoop(s, actions)
    decreases Outstanding(s.pool), Ahead(s)
  {
    actions := [];
    if !s.phase.Stopped? {
      var a := OneStep(s);
      actions := RunToEnd(Next(s, a));
      OneMore(s, a, actions);
      actions := [a] + actions;
    }
  }

  /** After QUIT the loop can always get to its end, and has then joined every thread. */
  lemma ShutdownEnds(s: Sys) returns (actions: seq<Action>)
    requires Reachable(s) && ShuttingDown(s.pool)
    ensures IsRun(s, actions) && (forall a | a in actions :: NoInput(a))
    ensures After(s, actions).phase.Stopped? && AllJoined(After(s, actions).pool)
  {
    ReachableInv(s);
    actions := RunToEnd(s);
    RunKeepsInv(s, actions);
  }
}
