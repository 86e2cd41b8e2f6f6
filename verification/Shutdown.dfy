/** Shutdown: after QUIT the worker threads are wound down in a bounded number of steps, each of
    them told to quit once and joined once, and only then does the loop stop. */
module Shutdown {
  import opened Workers
  import opened Pool
  import opened Batches
  import opened System
  import opened PoolProofs
  import opened SystemProofs
  import opened Order
  import opened Theorems

  /** Steps that a worker and the proxy still have to take on behalf of this worker. */
  function Remaining(w: Worker): nat {
    if Joined(w) then 0
    else if w.thread.Exited? then 1
    else if w.quitsSent > 0 then (if w.thread.AwaitingStart? then 3 else 2)
    else if w.outbox != [] then 3
    else if w.thread.Executed? then 4
    else if w.thread.Working? then 5
    else if w.thread.AwaitingStart? then 7
    else 6
  }

  function SumWorkers(ws: seq<Worker>): nat {
    if ws == [] then 0 else SumWorkers(ws[..|ws| - 1]) + Remaining(ws[|ws| - 1])
  }

  function SumTagged(ts: seq<Tagged>): nat {
    if ts == [] then 0 else SumTagged(ts[..|ts| - 1]) + Remaining(ts[|ts| - 1].worker)
  }

  function Outstanding(p: Pool): nat { SumWorkers(p.workers) + SumTagged(p.tagged) }

  /** A step of a worker thread, or the handling of one of its messages. */
  predicate IsWorkerStep(a: Action) {
    a.PoolMessage? || a.TaggedMessage? || a.PoolThread? || a.TaggedThread?
  }

  function WorkerSteps(actions: seq<Action>): nat {
    if actions == [] then 0 else (if IsWorkerStep(actions[0]) then 1 else 0) + WorkerSteps(actions[1..])
  }

  lemma {:induction false} SumWorkersUpdate(ws: seq<Worker>, i: nat, w: Worker)
    requires i < |ws|
    ensures SumWorkers(ws[i := w]) == SumWorkers(ws) - Remaining(ws[i]) + Remaining(w)
  {
    var n := |ws| - 1;
    if i == n {
      assert ws[i := w][..n] == ws[..n];
    } else {
      assert ws[i := w][..n] == ws[..n][i := w];
      SumWorkersUpdate(ws[..n], i, w);
    }
  }

  lemma {:induction false} SumTaggedUpdate(ts: seq<Tagged>, i: nat, t: Tagged)
    requires i < |ts|
    ensures SumTagged(ts[i := t]) == SumTagged(ts) - Remaining(ts[i].worker) + Remaining(t.worker)
  {
    var n := |ts| - 1;
    if i == n {
      assert ts[i := t][..n] == ts[..n];
    } else {
      assert ts[i := t][..n] == ts[..n][i := t];
      SumTaggedUpdate(ts[..n], i, t);
    }
  }

  lemma {:induction false} SumWorkersZero(ws: seq<Worker>)
    requires forall i | 0 <= i < |ws| :: Busy(ws[i]) || Retiring(ws[i])
    ensures SumWorkers(ws) == 0 <==> forall i | 0 <= i < |ws| :: !ws[i].joinable
  {
    if ws != [] {
      var n := |ws| - 1;
      SumWorkersZero(ws[..n]);
      assert forall i | 0 <= i < n :: ws[..n][i] == ws[i];
    }
  }

  lemma {:induction false} SumTaggedZero(ts: seq<Tagged>)
    requires forall i | 0 <= i < |ts| :: Busy(ts[i].worker) || Retiring(ts[i].worker)
    ensures SumTagged(ts) == 0 <==> forall i | 0 <= i < |ts| :: !ts[i].worker.joinable
  {
    if ts != [] {
      var n := |ts| - 1;
      SumTaggedZero(ts[..n]);
      assert forall i | 0 <= i < n :: ts[..n][i] == ts[i];
    }
  }

  /** Nobody is left over exactly when no step is left. */
  lemma OutstandingZero(p: Pool)
    requires PoolInv(p) && ShuttingDown(p)
    ensures Outstanding(p) == 0 <==> AllJoined(p)
  {
    assert forall i | 0 <= i < |p.workers| :: Legal(p.workers[i]) && !Resting(p.workers[i]);
    assert forall i | 0 <= i < |p.tagged| :: Legal(p.tagged[i].worker) && !Resting(p.tagged[i].worker);
    SumWorkersZero(p.workers);
    SumTaggedZero(p.tagged);
  }

  // ----- each worker step uses up one of the outstanding steps -----

  lemma ThreadStepUsesOne(w: Worker)
    requires Legal(w) && !Resting(w) && CanStep(w)
    ensures Remaining(ThreadStep(w)) == Remaining(w) - 1
  {
  }

  lemma MessageUsesOne(w: Worker)
    requires Legal(w) && w.outbox != []
    ensures w.outbox[0] == Ran ==> Remaining(SendQuit(TakeReport(w))) == Remaining(w) - 1
    ensures w.outbox[0] == Quitting ==> Remaining(Join(TakeReport(w))) == Remaining(w) - 1
  {
  }

  lemma CompletionKeeps(p: Pool, fate: Fate, reply: bool, job: BatchJob)
    ensures var q := EnqueueCompletion(p, fate, reply, job);
      q.workers == p.workers && SumTagged(q.tagged) == SumTagged(p.tagged) && q.maxWorkers == p.maxWorkers
  {
    if fate.Queues? && fate.thread > 0 && fate.thread - 1 < |p.tagged| {
      SumTaggedUpdate(p.tagged, fate.thread - 1, Enqueue(p, fate.thread, job).tagged[fate.thread - 1]);
    }
  }

  lemma PoolMessageUsesOne(s: Sys, w: nat)
    requires PoolInv(s.pool) && ShuttingDown(s.pool) && w < |s.pool.workers| && s.pool.workers[w].outbox != []
    ensures Outstanding(HandlePool(s, w).pool) == Outstanding(s.pool) - 1 && ShuttingDown(HandlePool(s, w).pool)
  {
    var worker, p := s.pool.workers[w], s.pool;
    assert Legal(worker);
    MessageUsesOne(worker);
    if worker.outbox[0] == Quitting {
      SumWorkersUpdate(p.workers, w, Join(TakeReport(worker)));
    } else {
      SumWorkersUpdate(p.workers, w, SendQuit(TakeReport(worker)));
      var q := PoolRan(p, w);
      assert q.workers == p.workers[w := SendQuit(TakeReport(worker))];
      assert q.tagged == p.tagged && q.maxWorkers == p.maxWorkers;
      if worker.load.BatchLoad? {
        CompletionKeeps(q, FateIn(s.store, worker.load.job), worker.load.reply, BatchJob(worker.load.job.batch, -1));
      }
    }
  }

  lemma TaggedMessageUsesOne(s: Sys, t: nat)
    requires PoolInv(s.pool) && ShuttingDown(s.pool) && t < |s.pool.tagged| && s.pool.tagged[t].worker.outbox != []
    ensures Outstanding(HandleTagged(s, t).pool) == Outstanding(s.pool) - 1 && ShuttingDown(HandleTagged(s, t).pool)
  {
    var worker, p := s.pool.tagged[t].worker, s.pool;
    assert Legal(worker) && (Busy(worker) ==> worker.load.BatchLoad?);
    MessageUsesOne(worker);
    if worker.outbox[0] == Quitting {
      SumTaggedUpdate(p.tagged, t, JoinTagged(p, t).tagged[t]);
    } else {
      SumTaggedUpdate(p.tagged, t, TaggedRan(p, t).tagged[t]);
      CompletionKeeps(TaggedRan(p, t), FateIn(s.store, worker.load.job), worker.load.reply,
                      BatchJob(worker.load.job.batch, -1));
    }
  }

  lemma {:induction false} EnqueueJobsKeeps(p: Pool, obj: Batch, b: nat, n: nat)
    requires n <= Size(obj)
    ensures SumTagged(EnqueueJobs(p, obj, b, n).tagged) == SumTagged(p.tagged)
  {
    if n > 0 {
      EnqueueJobsKeeps(p, obj, b, n - 1);
      EnqueueKeeps(EnqueueJobs(p, obj, b, n - 1), ThreadOf(obj, n - 1), BatchJob(b, n - 1));
    }
  }

  lemma EnqueueKeeps(p: Pool, t: int, job: BatchJob)
    ensures SumTagged(Enqueue(p, t, job).tagged) == SumTagged(p.tagged)
  {
    if 0 < t <= |p.tagged| { SumTaggedUpdate(p.tagged, t - 1, Enqueue(p, t, job).tagged[t - 1]); }
  }

  lemma AddBatchKeeps(s: Sys, obj: Batch)
    ensures Outstanding(AddBatch(s, obj).pool) == Outstanding(s.pool)
    ensures AddBatch(s, obj).pool.maxWorkers == s.pool.maxWorkers
  {
    EnqueueJobsKeeps(s.pool, obj, s.store.next, Size(obj));
    EnqueueJobsFrame(s.pool, obj, s.store.next, Size(obj));
  }

  lemma FireKeeps(s: Sys, timer: nat)
    ensures Outstanding(Fire(s, timer).pool) == Outstanding(s.pool)
    ensures Fire(s, timer).pool.maxWorkers == s.pool.maxWorkers
  {
    if timer in s.store.timers {
      AddBatchKeeps(s, NewBatch([s.store.timers[timer].thread], Rearm(timer)));
      AddBatchKeeps(s, Job(s.store.timers[timer].thread));
    }
  }

  /** Steps that a new worker has to take: run its command, report, receive QUIT, leave, be joined. */
  const STEPS_PER_COMMAND: nat := 5

  /** After QUIT nobody is idle, so a command that is dispatched gets a new worker. */
  lemma AdmitAdds(s: Sys, cmd: Command)
    requires PoolInv(s.pool) && ShuttingDown(s.pool) && cmd.cat < |s.pool.cats|
    ensures var s' := AdmitCommand(s, cmd);
      && s'.pool.maxWorkers == s.pool.maxWorkers
      && Outstanding(s'.pool) == Outstanding(s.pool) + STEPS_PER_COMMAND * (|s'.started| - |s.started|)
  {
    var p := s.pool;
    if Admit(p, cmd).Admitted? {
      DispatchTarget(p, CategoryClass(cmd.cat));
      DispatchFrame(p, CommandLoad(cmd));
      var w := Launch(FRESH_WORKER, CommandLoad(cmd));
      assert Dispatch(p, CommandLoad(cmd)).workers == p.workers + [w];
      assert (p.workers + [w])[..|p.workers|] == p.workers && Remaining(w) == STEPS_PER_COMMAND;
    }
  }

  lemma NothingStarted(s: Sys, a: Action)
    requires (Dispatching(s.phase) ==> !ShuttingDown(s.pool)) && ShuttingDown(s.pool)
    requires Enabled(s, a) && !a.Inject? && !a.Receive?
    ensures Next(s, a).started == s.started
  {
  }

  lemma QuietAccounting(s: Sys, a: Action)
    requires PoolInv(s.pool) && (Dispatching(s.phase) ==> !ShuttingDown(s.pool))
    requires ShuttingDown(s.pool) && Enabled(s, a) && !a.Inject? && !a.Receive?
    ensures ShuttingDown(Next(s, a).pool)
    ensures Outstanding(Next(s, a).pool) == Outstanding(s.pool) - (if IsWorkerStep(a) then 1 else 0)
  {
    match a {
      case SubmitBatch(threads, completion, surplus) => AddBatchKeeps(s, Submission(threads, completion, surplus));
      case SubmitJob(thread) => AddBatchKeeps(s, Job(thread));
      case FireTimer(timer) => FireKeeps(s, timer);
      case PoolMessage(w) => PoolMessageUsesOne(s, w);
      case TaggedMessage(t) => TaggedMessageUsesOne(s, t);
      case PoolThread(w, _) => PoolThreadUsesOne(s.pool, w);
      case TaggedThread(t, _) => TaggedThreadUsesOne(s.pool, t);
      case _ =>
    }
  }

  /** After QUIT, a worker step uses up exactly one outstanding step, a command that is dispatched adds
      its five, and nothing else changes their number. */
  lemma StepAccounting(s: Sys, a: Action)
    requires PoolInv(s.pool) && (Dispatching(s.phase) ==> !ShuttingDown(s.pool))
    requires ShuttingDown(s.pool) && Enabled(s, a)
    ensures ShuttingDown(Next(s, a).pool) && |Next(s, a).started| >= |s.started|
    ensures Outstanding(Next(s, a).pool) + (if IsWorkerStep(a) then 1 else 0)
         == Outstanding(s.pool) + STEPS_PER_COMMAND * (|Next(s, a).started| - |s.started|)
    ensures !a.Inject? && !a.Receive? ==> Next(s, a).started == s.started
  {
    if a.Inject? || a.Receive? {
      AdmitAdds(s, a.cmd);
    } else {
      NothingStarted(s, a);
      QuietAccounting(s, a);
    }
  }

  lemma PoolThreadUsesOne(p: Pool, w: nat)
    requires PoolInv(p) && ShuttingDown(p) && w < |p.workers| && CanStep(p.workers[w])
    ensures Outstanding(SetWorker(p, w, ThreadStep(p.workers[w]))) == Outstanding(p) - 1
  {
    assert Legal(p.workers[w]) && !Resting(p.workers[w]);
    ThreadStepUsesOne(p.workers[w]);
    SumWorkersUpdate(p.workers, w, ThreadStep(p.workers[w]));
  }

  lemma TaggedThreadUsesOne(p: Pool, t: nat)
    requires PoolInv(p) && ShuttingDown(p) && t < |p.tagged| && CanStep(p.tagged[t].worker)
    ensures Outstanding(SetTagged(p, t, ThreadStep(p.tagged[t].worker))) == Outstanding(p) - 1
  {
    var w := p.tagged[t].worker;
    assert Legal(w) && !Resting(w);
    ThreadStepUsesOne(w);
    SumTaggedUpdate(p.tagged, t, SetTagged(p, t, ThreadStep(w)).tagged[t]);
  }

  // ----- theorems -----

  /** Any run after QUIT: the worker steps taken and those outstanding add up to those outstanding at
      first and five for every command dispatched since; all threads are joined exactly when that many
      steps have been taken. */
  lemma {:induction false} ShutdownIsBounded(s: Sys, actions: seq<Action>)
    requires Inv(s) && ShuttingDown(s.pool) && IsRun(s, actions)
    ensures var s' := After(s, actions);
      var total := Outstanding(s.pool) + STEPS_PER_COMMAND * (|s'.started| - |s.started|);
      && |s'.started| >= |s.started|
      && WorkerSteps(actions) + Outstanding(s'.pool) == total
      && (WorkerSteps(actions) == total <==> AllJoined(s'.pool))
    decreases |actions|
  {
    if actions == [] {
      OutstandingZero(s.pool);
    } else {
      var s' := Next(s, actions[0]);
      StepAccounting(s, actions[0]);
      NextKeepsInv(s, actions[0]);
      ShutdownIsBounded(s', actions[1..]);
      assert After(s, actions) == After(s', actions[1..]);
    }
  }

  lemma {:induction false} NoCommandsStarted(s: Sys, actions: seq<Action>)
    requires Inv(s) && ShuttingDown(s.pool) && IsRun(s, actions)
    requires forall a | a in actions :: !a.Inject? && !a.Receive?
    ensures After(s, actions).started == s.started
    decreases |actions|
  {
    if actions != [] {
      StepAccounting(s, actions[0]);
      NextKeepsInv(s, actions[0]);
      NoCommandsStarted(Next(s, actions[0]), actions[1..]);
    }
  }

  /** Without new commands the number of steps is fixed when QUIT is handled. */
  lemma QuietShutdown(s: Sys, actions: seq<Action>)
    requires Inv(s) && ShuttingDown(s.pool) && IsRun(s, actions)
    requires forall a | a in actions :: !a.Inject? && !a.Receive?
    ensures WorkerSteps(actions) + Outstanding(After(s, actions).pool) == Outstanding(s.pool)
    ensures WorkerSteps(actions) == Outstanding(s.pool) <==> AllJoined(After(s, actions).pool)
  {
    NoCommandsStarted(s, actions);
    ShutdownIsBounded(s, actions);
  }

  /** Shutdown never gets stuck: as long as a worker is not joined, that very worker can take a step
      or has sent something that the proxy will handle. */
  lemma NobodyIsStuck(s: Sys, w: Worker)
    requires Reachable(s) && ShuttingDown(s.pool)
    requires w in s.pool.workers || exists t :: t in s.pool.tagged && t.worker == w
    ensures Joined(w) || CanStep(w) || w.outbox != []
  {
    ReachableInv(s);
    if w in s.pool.workers {
      var i :| 0 <= i < |s.pool.workers| && s.pool.workers[i] == w;
      assert Legal(w) && !Resting(w);
    } else {
      var i :| 0 <= i < |s.pool.tagged| && s.pool.tagged[i].worker == w;
      assert Legal(w) && !Resting(w);
    }
    LegalMoves(w);
  }

  lemma LegalMoves(w: Worker)
    requires Legal(w) && !Resting(w)
    ensures Joined(w) || CanStep(w) || w.outbox != []
  {
  }

  /** The loop stops only when every worker, pool or tagged, has been told to quit exactly once and
      joined exactly once; nobody is told before QUIT. */
  lemma StopsCleanly(s: Sys, w: Worker)
    requires Reachable(s)
    requires w in s.pool.workers || exists t :: t in s.pool.tagged && t.worker == w
    ensures s.phase.Stopped? ==> Joined(w)
    ensures !ShuttingDown(s.pool) ==> w.quitsSent == 0 && w.joins == 0
  {
    ReachableInv(s);
    assert Legal(w);
    if w in s.pool.workers {
      var i :| 0 <= i < |s.pool.workers| && s.pool.workers[i] == w;
      assert Retiring(w) ==> ShuttingDown(s.pool);
    } else {
      var i :| 0 <= i < |s.pool.tagged| && s.pool.tagged[i].worker == w;
    }
  }
}
