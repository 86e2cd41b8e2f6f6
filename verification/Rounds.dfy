/** The loop goes around: whatever there is to dispatch, it comes to each of its parts again and again. */
module Rounds {
  import opened Pool
  import opened System
  import opened Order
  import opened Theorems
  import opened Draining
  import opened Composition

  function Turns(n: nat): seq<Action> { seq(n, _ => Advance) }

  /** Some number of steps of the loop itself leads to `phase`. */
  ghost predicate ComesTo(s: Sys, phase: Phase) {
    exists n: nat :: IsRun(s, Turns(n)) && After(s, Turns(n)).phase == phase
  }

  lemma TurnThen(s: Sys, n: nat)
    requires Enabled(s, Advance) && IsRun(Proceed(s), Turns(n))
    ensures IsRun(s, Turns(n + 1)) && After(s, Turns(n + 1)) == After(Proceed(s), Turns(n))
  {
    StepThen(s, Advance, Turns(n));
    assert Turns(n + 1) == [Advance] + Turns(n);
  }

  lemma OneMore(s: Sys, phase: Phase)
    requires Enabled(s, Advance)
    ensures ComesTo(Proceed(s), phase) ==> ComesTo(s, phase)
  {
    if n: nat :| IsRun(Proceed(s), Turns(n)) && After(Proceed(s), Turns(n)).phase == phase { TurnThen(s, n); }
  }

  lemma AlreadyThere(s: Sys)
    ensures ComesTo(s, s.phase)
  {
    assert IsRun(s, Turns(0)) && After(s, Turns(0)) == s;
  }

  /** The parts of a round, in order; the last one is the first of the next round. */
  function Part(i: nat): Phase {
    match i
    case 0 => Incoming
    case 1 => Control
    case 2 => WorkerMessages
    case 3 => Timers
    case 4 => ToTagged(0)
    case 5 => ToQueue(false)
    case 6 => ToQueue(true)
    case 7 => Scan(0)
    case _ => Incoming
  }

  function PartOf(phase: Phase): nat {
    match phase
    case Incoming => 0
    case Control => 1
    case WorkerMessages => 2
    case Timers => 3
    case ToTagged(_) => 4
    case ToQueue(reply) => if reply then 6 else 5
    case _ => 7
  }

  /** Steps to the end of the round if nothing is dispatched on the way. */
  function Left(s: Sys): int {
    var n, m := |s.pool.pending|, |s.pool.tagged|;
    match s.phase
    case Incoming => 8 + n + m
    case Control => 7 + n + m
    case WorkerMessages => 6 + n + m
    case Timers => 5 + n + m
    case ToTagged(t) => 4 + n + m - t
    case ToQueue(reply) => if reply then 2 + n else 3 + n
    case Scan(i) => 1 + n - i
    case Stopped => 0
  }

  lemma QuietTurn(s: Sys)
    requires PhaseInv(s) && !ShuttingDown(s.pool) && ProceedPool(s) == s.pool && !s.phase.Stopped?
    ensures ProceedPhase(s) == Incoming || Left(Proceed(s)) < Left(s)
  {
  }

  /** A turn stays in its part or enters the next one at its beginning, so it does not miss part `i`. */
  lemma TurnMoves(s: Sys, i: nat, again: bool)
    requires !ShuttingDown(s.pool) && !s.phase.Stopped? && 0 < i <= 8 && (again || PartOf(s.phase) < i)
    ensures var phase := ProceedPhase(s);
      phase == Part(i) || if phase == Incoming then again else again || PartOf(phase) < i
  {
    var k, phase := PartOf(s.phase), ProceedPhase(s);
    assert (PartOf(phase) == k && k > 0) || phase == Part(k + 1);
  }

  predicate Nearer(s': Sys, s: Sys) {
    Effort(s') < Effort(s) || (Effort(s') == Effort(s) && Left(s') < Left(s))
  }

  /** A turn ends the round, or dispatches something, which uses up work, or comes nearer to the end. */
  lemma OneTurn(s: Sys)
    requires Inv(s) && !ShuttingDown(s.pool)
    ensures Enabled(s, Advance) && Inv(Proceed(s)) && !ShuttingDown(Proceed(s).pool)
    ensures Left(s) >= 0 && (ProceedPhase(s) == Incoming || Nearer(Proceed(s), s))
  {
    StepKeeps(s, Advance);
    AdvanceSpends(s);
    LeftIsNat(s);
    if ProceedPool(s) == s.pool { QuietTurn(s); }
  }

  lemma LeftIsNat(s: Sys)
    requires PhaseInv(s) && !ShuttingDown(s.pool)
    ensures Left(s) >= 0
  {
  }

  /** The state after a turn, seen from the state before: how far it is to part `i` from there, in this
      round, or in the next one if `again`. */
  lemma TurnTowards(s: Sys, i: nat, again: bool) returns (s': Sys, again': bool)
    requires Inv(s) && !ShuttingDown(s.pool) && 0 < i <= 8 && (again || PartOf(s.phase) < i)
    ensures ComesTo(s', Part(i)) ==> ComesTo(s, Part(i))
    ensures Inv(s') && !ShuttingDown(s'.pool) && Left(s) >= 0
    ensures s'.phase == Part(i) || again' || PartOf(s'.phase) < i
    ensures s'.phase == Part(i) || (again && !again') || (again == again' && Nearer(s', s))
  {
    OneTurn(s);
    TurnMoves(s, i, again);
    OneMore(s, Part(i));
    s', again' := Proceed(s), again && ProceedPhase(s) != Incoming;
  }

  lemma {:induction false} ToPart(s: Sys, i: nat, again: bool)
    requires Inv(s) && !ShuttingDown(s.pool) && 0 < i <= 8 && (again || PartOf(s.phase) < i)
    ensures ComesTo(s, Part(i))
    decreases again, Effort(s), Left(s)
  {
    var s', again' := TurnTowards(s, i, again);
    if s'.phase == Part(i) { AlreadyThere(s'); } else { ToPart(s', i, again'); }
  }

  /** Before QUIT, from every reachable state, the loop by itself comes to each of its parts: the control
      messages, those of the workers, the timers, the queues and the incoming messages. */
  lemma ComesAround(s: Sys, i: nat)
    requires Reachable(s) && !ShuttingDown(s.pool) && 0 < i <= 8
    ensures ComesTo(s, Part(i))
  {
    ReachableInv(s);
    ToPart(s, i, true);
  }
}
