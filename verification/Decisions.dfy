/** What is run, queued or dropped, in terms of the workers that are busy and the commands that wait. */
module Decisions {
  import opened Sequences
  import opened Workers
  import opened Pool
  import opened System
  import opened PoolProofs
  import opened Order
  import opened Theorems

  /** Threads reserved for a class by the configuration. */
  function ReservedFor(p: Pool, k: JobClass): nat
    requires k.CategoryClass? ==> k.cat < |p.cats|
  {
    match k
    case BatchClass => p.batchReserved
    case ReplyClass => p.replyReserved
    case CategoryClass(c) => p.cats[c].reserved
  }

  /** The class runs on fewer threads than are reserved for it, or fewer workers than the general
      threads are in use. */
  predicate HasThread(p: Pool, k: JobClass)
    requires k.CategoryClass? ==> k.cat < |p.cats|
  {
    CountBusy(p.workers, k) < ReservedFor(p, k) || |p.workers| - |p.idle| < p.general
  }

  lemma RunnableMeans(p: Pool, k: JobClass)
    requires CountersOk(p) && Known(p, k)
    ensures Runnable(p, k) <==> HasThread(p, k)
  {
  }

  /** A command that arrives is given to a worker exactly if there is a thread for it; otherwise it is
      queued, unless its category has a limit and as many commands of it are waiting, and then dropped. */
  lemma ArrivalDecided(s: Sys, a: Action, cmd: Command)
    requires Reachable(s) && Enabled(s, a) && (a == Inject(cmd) || a == Receive(cmd))
    ensures var s', cat, waiting := Next(s, a), s.pool.cats[cmd.cat], CountPending(s.pool.pending, cmd.cat);
      if HasThread(s.pool, CategoryClass(cmd.cat)) then
        && s'.accepted == s.accepted + [cmd] && s'.started == s.started + [cmd] && s'.pool.pending == s.pool.pending
      else if cat.maxQueue < 0 || waiting < cat.maxQueue then
        && s'.accepted == s.accepted + [cmd] && s'.started == s.started && s'.pool.pending == s.pool.pending + [cmd]
      else s' == s && waiting == cat.maxQueue
  {
    ReachableInv(s);
    AdmitMeans(s, cmd);
  }

  lemma AdmitMeans(s: Sys, cmd: Command)
    requires PoolInv(s.pool) && cmd.cat < |s.pool.cats|
    ensures var s', cat, waiting := AdmitCommand(s, cmd), s.pool.cats[cmd.cat], CountPending(s.pool.pending, cmd.cat);
      if HasThread(s.pool, CategoryClass(cmd.cat)) then
        && s'.accepted == s.accepted + [cmd] && s'.started == s.started + [cmd] && s'.pool.pending == s.pool.pending
      else if cat.maxQueue < 0 || waiting < cat.maxQueue then
        && s'.accepted == s.accepted + [cmd] && s'.started == s.started && s'.pool.pending == s.pool.pending + [cmd]
      else s' == s && waiting == cat.maxQueue
  {
    RunnableMeans(s.pool, CategoryClass(cmd.cat));
    AdmitShape(s, cmd);
    assert s.pool.cats[cmd.cat].queued == CountPending(s.pool.pending, cmd.cat);
  }

  /** The loops: a job leaves the batch queue or the reply queue ... */
  lemma QueueDecided(s: Sys)
    requires Reachable(s) && s.phase.ToQueue?
    ensures var reply := s.phase.reply;
      var runs := QueueOf(s.pool, reply) != [] && HasThread(s.pool, if reply then ReplyClass else BatchClass);
      && (Proceed(s).phase == s.phase <==> runs)
      && QueueOf(Proceed(s).pool, reply) == (if runs then QueueOf(s.pool, reply)[1..] else QueueOf(s.pool, reply))
      && QueueOf(Proceed(s).pool, !reply) == QueueOf(s.pool, !reply) && Proceed(s).pool.pending == s.pool.pending
  {
    ReachableInv(s);
    QueueStep(s);
  }

  lemma QueueStep(s: Sys)
    requires PoolInv(s.pool) && !ShuttingDown(s.pool) && s.phase.ToQueue?
    ensures var reply := s.phase.reply;
      var runs := QueueOf(s.pool, reply) != [] && HasThread(s.pool, if reply then ReplyClass else BatchClass);
      && (Proceed(s).phase == s.phase <==> runs)
      && QueueOf(Proceed(s).pool, reply) == (if runs then QueueOf(s.pool, reply)[1..] else QueueOf(s.pool, reply))
      && QueueOf(Proceed(s).pool, !reply) == QueueOf(s.pool, !reply) && Proceed(s).pool.pending == s.pool.pending
  {
    var p, reply := s.pool, s.phase.reply;
    RunnableMeans(p, QueueClass(reply));
    QueueRuns(p, reply);
    if CanRunQueue(p, reply) { FrontTaken(p, reply); }
  }

  lemma QueueRuns(p: Pool, reply: bool)
    requires PoolInv(p) && !ShuttingDown(p)
    ensures CanRunQueue(p, reply) <==> QueueOf(p, reply) != [] && Runnable(p, QueueClass(reply))
  {
    if !CanRunQueue(p, reply) { LoopEndDrains(p, reply); }
  }

  lemma FrontTaken(p: Pool, reply: bool)
    requires PoolInv(p) && CanRunQueue(p, reply)
    ensures QueueOf(RunQueueFront(p, reply), reply) == QueueOf(p, reply)[1..]
    ensures QueueOf(RunQueueFront(p, reply), !reply) == QueueOf(p, !reply)
    ensures RunQueueFront(p, reply).pending == p.pending
  {
    DispatchTarget(p, QueueClass(reply));
    DispatchFrame(PopQueue(p, reply), BatchLoad(QueueOf(p, reply)[0], reply));
  }

  /** ... the scan dispatches the command that it has come to ... */
  lemma ScanDecided(s: Sys)
    requires Reachable(s) && s.phase.Scan? && s.phase.pos < |s.pool.pending|
    ensures var i, cmd := s.phase.pos, s.pool.pending[s.phase.pos];
      && cmd.cat < |s.pool.cats|
      && if HasThread(s.pool, CategoryClass(cmd.cat)) then
           Proceed(s).pool.pending == Without(s.pool.pending, i) && Proceed(s).started == s.started + [cmd]
         else Proceed(s).pool == s.pool && Proceed(s).started == s.started
  {
    ReachableInv(s);
    var p, i := s.pool, s.phase.pos;
    RunnableMeans(p, CategoryClass(p.pending[i].cat));
    if Runnable(p, CategoryClass(p.pending[i].cat)) {
      RunnableHasRoom(p, CategoryClass(p.pending[i].cat));
      RunPendingShape(p, i);
    }
  }

  /** ... and a tagged thread is given the first job of its queue, exactly if that is possible. */
  lemma TaggedDecided(s: Sys)
    requires Reachable(s) && s.phase.ToTagged? && s.phase.next < |s.pool.tagged|
    ensures var t := s.phase.next;
      var tw, tw' := s.pool.tagged[t], Proceed(s).pool.tagged[t];
      if !Busy(tw.worker) && tw.queue != [] then
        tw'.queue == tw.queue[1..] && Busy(tw'.worker) && tw'.worker.load == BatchLoad(tw.queue[0], false)
      else Proceed(s).pool == s.pool
  {
    ReachableInv(s);
    var tw := s.pool.tagged[s.phase.next];
    assert Legal(tw.worker) && (Busy(tw.worker) <==> tw.busy);
    if CanRunTagged(s.pool, s.phase.next) { LaunchMakesBusy(tw.worker, BatchLoad(tw.queue[0], false)); }
  }

  /** So when the queues have been processed, nothing is left that could be run: of every class that has
      something waiting at least as many workers are busy as are reserved for it, and all general
      threads are in use; and every tagged thread with something waiting is busy. */
  lemma NothingLeftToRun(s: Sys)
    requires Reachable(s) && s.phase.Scan? && Proceed(s).phase.Incoming?
    ensures var p := Proceed(s).pool;
      && (p.batchJobs != [] ==> !HasThread(p, BatchClass)) && (p.replyJobs != [] ==> !HasThread(p, ReplyClass))
      && (forall cmd | cmd in p.pending :: cmd.cat < |p.cats| && !HasThread(p, CategoryClass(cmd.cat)))
      && (forall t | 0 <= t < |p.tagged| && p.tagged[t].queue != [] :: Busy(p.tagged[t].worker))
  {
    WorkConservation(s);
    ReachableInv(s);
    NextKeepsInv(s, Advance);
    var p := Proceed(s).pool;
    assert PoolInv(p);
    RunnableMeans(p, BatchClass);
    RunnableMeans(p, ReplyClass);
    forall cmd | cmd in p.pending ensures cmd.cat < |p.cats| && !HasThread(p, CategoryClass(cmd.cat)) {
      var i :| 0 <= i < |p.pending| && p.pending[i] == cmd;
      assert !CatRunnable(p, p.pending[i].cat);
      RunnableMeans(p, CategoryClass(cmd.cat));
    }
    forall t | 0 <= t < |p.tagged| && p.tagged[t].queue != [] ensures Busy(p.tagged[t].worker) {
      assert !CanRunTagged(p, t);
    }
  }

  /** The worker that became idle last is the first to be used again. */
  lemma LatestIdleRunsNext(p: Pool, w: nat, load: Load)
    requires PoolInv(p) && !ShuttingDown(p) && w < |p.workers| && p.workers[w].outbox != []
    requires !load.Nothing? && Known(p, ClassOf(load))
    ensures p.workers[w].outbox[0] == Ran
    ensures Busy(Dispatch(PoolRan(p, w), load).workers[w]) && Dispatch(PoolRan(p, w), load).workers[w].load == load
  {
    assert Legal(p.workers[w]) && !Retiring(p.workers[w]);
    PoolRanInv(p, w);
    var q := PoolRan(p, w);
    assert q.idle[|q.idle| - 1] == w;
    assert Resting(q.workers[w]);
    LaunchMakesBusy(q.workers[w], load);
  }
}
