/** The loops of `proxy_process_queue` as functions of the pool: they keep its invariant, leave nothing
    runnable behind, and are what the steps of the machine compute. */
module Scheduler {
  import opened Workers
  import opened Pool
  import opened System
  import opened PoolProofs
  import opened Order
  import opened Composition

  // ----- what the loops compute -----

  /** Jobs from a queue, until the loop condition of `proxy_run_batch_jobs` fails. */
  function DrainQueue(p: Pool, reply: bool): Pool
    decreases |QueueOf(p, reply)|
  {
    if CanRunQueue(p, reply) then
      PopShrinks(p, reply);
      DrainQueue(RunQueueFront(p, reply), reply)
    else p
  }

  /** One job for each idle tagged worker from `t` on. */
  function DrainTagged(p: Pool, t: nat): Pool
    decreases |p.tagged| - t
  {
    if t >= |p.tagged| then p
    else DrainTagged(if CanRunTagged(p, t) then RunTagged(p, t) else p, t + 1)
  }

  /** The scan of the pending commands from position `i` on. */
  function ScanFrom(p: Pool, i: nat): Pool
    decreases |p.pending| - i
  {
    if i >= |p.pending| || ActiveWorkers(p) >= p.maxWorkers then p
    else if CanRunPending(p, i) then
      RunPendingShrinks(p, i);
      ScanFrom(RunPending(p, i), i)
    else ScanFrom(p, i + 1)
  }

  /** `proxy_process_queue`. */
  function ProcessQueue(p: Pool): Pool {
    if ShuttingDown(p) then p
    else ScanFrom(DrainQueue(DrainQueue(DrainTagged(p, 0), false), true), 0)
  }

  lemma PopShrinks(p: Pool, reply: bool)
    requires QueueOf(p, reply) != []
    ensures |QueueOf(RunQueueFront(p, reply), reply)| == |QueueOf(p, reply)| - 1
  {
  }

  lemma RunPendingShrinks(p: Pool, i: nat)
    requires i < |p.pending| && p.pending[i].cat < |p.cats|
    ensures |RunPending(p, i).pending| == |p.pending| - 1
  {
  }

  // ----- the loops keep the invariant and leave nothing runnable behind -----

  lemma {:induction false} DrainTaggedInv(p: Pool, t: nat)
    requires PoolInv(p) && !ShuttingDown(p)
    ensures PoolInv(DrainTagged(p, t)) && DrainTagged(p, t).maxWorkers == p.maxWorkers
    decreases |p.tagged| - t
  {
    if t < |p.tagged| {
      if CanRunTagged(p, t) { RunTaggedInv(p, t); }
      DrainTaggedInv(if CanRunTagged(p, t) then RunTagged(p, t) else p, t + 1);
    }
  }

  lemma {:induction false} DrainQueueInv(p: Pool, reply: bool)
    requires PoolInv(p) && !ShuttingDown(p)
    ensures PoolInv(DrainQueue(p, reply)) && DrainQueue(p, reply).maxWorkers == p.maxWorkers
    decreases |QueueOf(p, reply)|
  {
    if CanRunQueue(p, reply) {
      RunQueueFrontInv(p, reply);
      KeepsMaxWorkers(p, reply);
      PopShrinks(p, reply);
      DrainQueueInv(RunQueueFront(p, reply), reply);
    }
  }

  lemma KeepsMaxWorkers(p: Pool, reply: bool)
    requires QueueOf(p, reply) != []
    ensures RunQueueFront(p, reply).maxWorkers == p.maxWorkers
  {
  }

  lemma {:induction false} ScanFromInv(p: Pool, i: nat)
    requires PoolInv(p) && !ShuttingDown(p)
    ensures PoolInv(ScanFrom(p, i)) && ScanFrom(p, i).maxWorkers == p.maxWorkers
    decreases |p.pending| - i
  {
    if i < |p.pending| && ActiveWorkers(p) < p.maxWorkers {
      if CanRunPending(p, i) {
        RunPendingInv(p, i);
        RunPendingShape(p, i);
        RunPendingShrinks(p, i);
        ScanFromInv(RunPending(p, i), i);
      } else {
        ScanFromInv(p, i + 1);
      }
    }
  }

  lemma ProcessQueueInv(p: Pool)
    requires PoolInv(p)
    ensures PoolInv(ProcessQueue(p))
  {
    if !ShuttingDown(p) {
      DrainTaggedInv(p, 0);
      DrainQueueInv(DrainTagged(p, 0), false);
      DrainQueueInv(DrainQueue(DrainTagged(p, 0), false), true);
      ScanFromInv(DrainQueue(DrainQueue(DrainTagged(p, 0), false), true), 0);
    }
  }

  lemma {:induction false} DrainTaggedClears(p: Pool, t: nat)
    requires t <= |p.tagged| && TaggedDrained(p, t)
    ensures |DrainTagged(p, t).tagged| == |p.tagged| && TaggedDrained(DrainTagged(p, t), |p.tagged|)
    decreases |p.tagged| - t
  {
    if t < |p.tagged| {
      var q := if CanRunTagged(p, t) then RunTagged(p, t) else p;
      assert forall i | 0 <= i < |p.tagged| && i != t :: q.tagged[i] == p.tagged[i];
      assert forall i | 0 <= i < t :: CanRunTagged(q, i) == CanRunTagged(p, i);
      DrainTaggedClears(q, t + 1);
    }
  }

  lemma NoEasierTransitive(p: Pool, q: Pool, r: Pool)
    requires NoEasier(p, q) && NoEasier(q, r)
    ensures NoEasier(p, r)
  {
  }

  lemma {:induction false} DrainQueueClears(p: Pool, reply: bool)
    requires PoolInv(p) && !ShuttingDown(p)
    ensures var q := DrainQueue(p, reply);
      && QueueDrained(q, reply) && NoEasier(p, q)
      && q.tagged == p.tagged && q.pending == p.pending && QueueOf(q, !reply) == QueueOf(p, !reply)
    decreases |QueueOf(p, reply)|
  {
    if CanRunQueue(p, reply) {
      var q := RunQueueFront(p, reply);
      RunQueueFrontInv(p, reply);
      RunQueueShape(p, reply);
      KeepsMaxWorkers(p, reply);
      PopShrinks(p, reply);
      DrainQueueClears(q, reply);
      NoEasierTransitive(p, q, DrainQueue(q, reply));
    } else {
      LoopEndDrains(p, reply);
    }
  }

  lemma FullPoolBlocks(p: Pool)
    requires PoolInv(p) && !ShuttingDown(p) && ActiveWorkers(p) >= p.maxWorkers
    ensures BlockedUpTo(p, |p.pending|)
  {
    forall k | 0 <= k < |p.pending| ensures !CatRunnable(p, p.pending[k].cat) {
      FullPoolRunsNothing(p, CategoryClass(p.pending[k].cat));
    }
  }

  lemma {:induction false} ScanClears(p: Pool, i: nat)
    requires PoolInv(p) && !ShuttingDown(p) && i <= |p.pending| && BlockedUpTo(p, i)
    ensures var q := ScanFrom(p, i);
      && BlockedUpTo(q, |q.pending|) && NoEasier(p, q)
      && q.tagged == p.tagged && q.batchJobs == p.batchJobs && q.replyJobs == p.replyJobs
    decreases |p.pending| - i
  {
    if i < |p.pending| && ActiveWorkers(p) >= p.maxWorkers {
      FullPoolBlocks(p);
    } else if i < |p.pending| && CanRunPending(p, i) {
      var q := RunPending(p, i);
      RunPendingInv(p, i);
      RunPendingShape(p, i);
      assert q.pending[..i] == p.pending[..i];
      StillBlocked(p, q, i);
      ScanClears(q, i);
      NoEasierTransitive(p, q, ScanFrom(q, i));
    } else if i < |p.pending| {
      ScanClears(p, i + 1);
    }
  }

  /** When `proxy_process_queue` returns, nothing that is still queued could be run by anybody. */
  lemma ProcessQueueDrains(p: Pool)
    requires PoolInv(p) && !ShuttingDown(p)
    ensures Drained(ProcessQueue(p))
  {
    var p1 := DrainTagged(p, 0);
    var p2 := DrainQueue(p1, false);
    var p3 := DrainQueue(p2, true);
    DrainTaggedInv(p, 0);
    DrainTaggedClears(p, 0);
    DrainQueueInv(p1, false);
    DrainQueueClears(p1, false);
    DrainQueueInv(p2, true);
    DrainQueueClears(p2, true);
    ScanClears(p3, 0);
    StaysDrained(p1, p2);
    StaysDrained(p2, p3);
    StaysDrained(p3, ProcessQueue(p));
  }

  /** What is drained stays so when nothing gets easier. */
  lemma StaysDrained(p: Pool, q: Pool)
    requires NoEasier(p, q) && q.tagged == p.tagged
    ensures TaggedDrained(p, |p.tagged|) ==> TaggedDrained(q, |q.tagged|)
    ensures QueueDrained(p, false) && q.batchJobs == p.batchJobs ==> QueueDrained(q, false)
    ensures QueueDrained(p, true) && q.replyJobs == p.replyJobs ==> QueueDrained(q, true)
  {
    assert forall i | 0 <= i < |p.tagged| :: CanRunTagged(q, i) == CanRunTagged(p, i);
  }

  // ----- the loops are runs of the machine -----

  function Advances(n: nat): seq<Action> {
    if n == 0 then [] else [Advance] + Advances(n - 1)
  }

  /** From `s` the loop alone gets to `s'`. */
  ghost predicate LeadsTo(s: Sys, s': Sys) {
    exists n :: IsRun(s, Advances(n)) && After(s, Advances(n)) == s'
  }

  lemma {:induction false} AdvancesAdd(m: nat, n: nat)
    ensures Advances(m + n) == Advances(m) + Advances(n)
  {
    if m > 0 { AdvancesAdd(m - 1, n); }
  }

  lemma LeadsToTransitive(s: Sys, s': Sys, s'': Sys)
    requires LeadsTo(s, s') && LeadsTo(s', s'')
    ensures LeadsTo(s, s'')
  {
    var m :| IsRun(s, Advances(m)) && After(s, Advances(m)) == s';
    var n :| IsRun(s', Advances(n)) && After(s', Advances(n)) == s'';
    AdvancesAdd(m, n);
    RunThen(s, Advances(m), Advances(n));
  }

  lemma OneAdvance(s: Sys)
    requires !s.phase.Stopped?
    ensures LeadsTo(s, Proceed(s))
  {
    assert Advances(1) == [Advance];
    assert IsRun(Next(s, Advance), []);
    assert IsRun(s, Advances(1)) && After(s, Advances(1)) == Proceed(s);
  }

  lemma {:induction false} TaggedLoopRuns(s: Sys)
    requires s.phase.ToTagged? && s.phase.next <= |s.pool.tagged|
    ensures LeadsTo(s, s.(pool := DrainTagged(s.pool, s.phase.next), phase := ToQueue(false)))
    decreases |s.pool.tagged| - s.phase.next
  {
    var t := s.phase.next;
    OneAdvance(s);
    if t < |s.pool.tagged| {
      TaggedLoopRuns(Proceed(s));
      LeadsToTransitive(s, Proceed(s), s.(pool := DrainTagged(s.pool, t), phase := ToQueue(false)));
    }
  }

  lemma {:induction false} QueueLoopRuns(s: Sys)
    requires s.phase.ToQueue?
    ensures LeadsTo(s, s.(pool := DrainQueue(s.pool, s.phase.reply),
                          phase := if s.phase.reply then Scan(0) else ToQueue(true)))
    decreases |QueueOf(s.pool, s.phase.reply)|
  {
    var reply := s.phase.reply;
    OneAdvance(s);
    if CanRunQueue(s.pool, reply) {
      PopShrinks(s.pool, reply);
      QueueLoopRuns(Proceed(s));
      LeadsToTransitive(s, Proceed(s), s.(pool := DrainQueue(s.pool, reply),
                                          phase := if reply then Scan(0) else ToQueue(true)));
    }
  }

  /** The scan also records what it started. */
  lemma {:induction false} ScanLoopRuns(s: Sys) returns (started: seq<Command>)
    requires s.phase.Scan?
    ensures LeadsTo(s, s.(pool := ScanFrom(s.pool, s.phase.pos), phase := Incoming, started := started))
    decreases |s.pool.pending| - s.phase.pos
  {
    OneAdvance(s);
    started := s.started;
    if s.phase.pos < |s.pool.pending| && ActiveWorkers(s.pool) < s.pool.maxWorkers {
      if CanRunPending(s.pool, s.phase.pos) { RunPendingShrinks(s.pool, s.phase.pos); }
      started := ScanLoopRuns(Proceed(s));
      LeadsToTransitive(s, Proceed(s), s.(pool := ScanFrom(s.pool, s.phase.pos), phase := Incoming,
                                          started := started));
    }
  }

  /** The loops and the machine agree: from the start of the dispatch phases the loop reaches
      `Incoming` with exactly the pool that `ProcessQueue` computes. */
  lemma ProcessQueueIsRun(s: Sys) returns (started: seq<Command>)
    requires s.phase == ToTagged(0) && !ShuttingDown(s.pool)
    ensures LeadsTo(s, s.(pool := ProcessQueue(s.pool), phase := Incoming, started := started))
  {
    var s1 := s.(pool := DrainTagged(s.pool, 0), phase := ToQueue(false));
    var s2 := s1.(pool := DrainQueue(s1.pool, false), phase := ToQueue(true));
    var s3 := s2.(pool := DrainQueue(s2.pool, true), phase := Scan(0));
    TaggedLoopRuns(s);
    QueueLoopRuns(s1);
    LeadsToTransitive(s, s1, s2);
    QueueLoopRuns(s2);
    LeadsToTransitive(s, s2, s3);
    started := ScanLoopRuns(s3);
    LeadsToTransitive(s, s3, s.(pool := ProcessQueue(s.pool), phase := Incoming, started := started));
  }
}
