/** The scheduling half of the proxy as an object: methods update the fields in place and are proved
    against the functions on `Pool`. */
module Proxy {
  import opened Workers
  import opened Pool
  import opened PoolProofs
  import opened Batches
  import opened System
  import opened SystemProofs
  import opened Scheduler
  import opened Order
  import opened Theorems

  class Proxy {
    var general: nat
    var batchReserved: nat
    var replyReserved: nat
    var maxWorkers: nat
    var cats: seq<Category>
    var batchActive: int
    var replyActive: int
    var workers: seq<Worker>
    var idleWorkers: array<nat>
    var idleWorkerCount: nat
    var tagged: seq<Tagged>
    var batchJobs: seq<BatchJob>
    var replyJobs: seq<BatchJob>
    var pending: seq<Command>
    ghost var batchTaken: seq<BatchJob>
    ghost var replyTaken: seq<BatchJob>

    /** The pool this object represents. */
    ghost function View(): Pool
      requires idleWorkerCount <= idleWorkers.Length
      reads this, idleWorkers
    {
      Pool(general, batchReserved, replyReserved, idleWorkers.Length, maxWorkers,
           cats, batchActive, replyActive, workers, idleWorkers[..idleWorkerCount], tagged,
           batchJobs, replyJobs, pending, batchTaken, replyTaken, |workers| > idleWorkers.Length)
    }

    ghost predicate Valid()
      reads this, idleWorkers
    {
      idleWorkerCount <= idleWorkers.Length && PoolInv(View())
    }

    /** `start()`: resolve the default reservations, then size the arrays by the general workers plus
        every reservation. */
    constructor (generalThreads: nat, batchThreads: int, replyThreads: int, categories: seq<Category>,
                 taggedThreads: nat)
      requires generalThreads > 0
      requires forall c | c in categories :: c.active == 0 && c.queued == 0
      ensures Valid() && fresh(idleWorkers)
      ensures maxWorkers == idleWorkers.Length == general + TotalReserved(View())
      ensures general == generalThreads && cats == categories
      ensures batchReserved == if batchThreads < 0 then (generalThreads + 1) / 2 else batchThreads
      ensures replyReserved == if replyThreads < 0 then (generalThreads + 7) / 8 else replyThreads
      ensures Initial(Sys(View(), EMPTY_STORE, Control, [], []))
    {
      var b: nat := if batchThreads < 0 then (generalThreads + 1) / 2 else batchThreads;
      var r: nat := if replyThreads < 0 then (generalThreads + 7) / 8 else replyThreads;
      var total: nat := generalThreads + b + r;
      var i := 0;
      while i < |categories|
        invariant 0 <= i <= |categories|
        invariant total + SumBy(categories[i..], ReservedOf) == generalThreads + b + r + SumBy(categories, ReservedOf)
      {
        assert categories[i..][1..] == categories[i + 1..];
        total := total + categories[i].reserved;
        i := i + 1;
      }
      assert categories[i..] == [];
      general, batchReserved, replyReserved, maxWorkers, cats := generalThreads, b, r, total, categories;
      batchActive, replyActive, workers, idleWorkerCount := 0, 0, [], 0;
      idleWorkers := new nat[total];
      tagged := seq(taggedThreads, _ => Tagged(TAGGED_WORKER, false, [], []));
      batchJobs, replyJobs, pending, batchTaken, replyTaken := [], [], [], [], [];
      new;
      ghost var s := Sys(View(), EMPTY_STORE, Control, [], []);
      assert View().idle == [];
      assert Initial(s);
      InitialPool(s);
    }

    function ActiveCount(): int
      reads this
    {
      |workers| - idleWorkerCount
    }

    method GetIdleWorker() returns (id: nat)
      requires idleWorkerCount <= idleWorkers.Length
      modifies this`workers, this`idleWorkerCount
      ensures idleWorkerCount <= idleWorkers.Length
      ensures id == IdleWorkerId(old(View())) && View() == TakeIdleWorker(old(View()))
    {
      if idleWorkerCount == 0 {
        id := |workers|;
        workers := workers + [FRESH_WORKER];
      } else {
        idleWorkerCount := idleWorkerCount - 1;
        id := idleWorkers[idleWorkerCount];
        assert View().idle == old(View()).idle[..|old(View()).idle| - 1];
      }
    }

    /** Write the slot, then start the thread or send RUN. */
    method LoadAndRun(id: nat, load: Load)
      requires id < |workers|
      modifies this`workers
      ensures workers == old(workers)[id := Launch(old(workers)[id], load)]
    {
      workers := workers[id := workers[id].(load := load)];
      if !workers[id].joinable {
        workers := workers[id := workers[id].(thread := Working, joinable := true)];
      } else {
        workers := workers[id := workers[id].(inbox := workers[id].inbox + [Run])];
      }
    }

    method Count(load: Load, delta: int)
      requires !load.Nothing? && idleWorkerCount <= idleWorkers.Length && Known(View(), ClassOf(load))
      modifies this`batchActive, this`replyActive, this`cats
      ensures View() == Adjust(old(View()), ClassOf(load), delta)
    {
      match load {
        case CommandLoad(cmd) =>
          cats := cats[cmd.cat := cats[cmd.cat].(active := cats[cmd.cat].active + delta)];
        case BatchLoad(_, reply) =>
          if reply { replyActive := replyActive + delta; } else { batchActive := batchActive + delta; }
      }
    }

    /** Hand a job to an idle or new worker; the caller has found a free spot for its class. */
    method Assign(load: Load)
      requires idleWorkerCount <= idleWorkers.Length && TargetOk(View()) && !load.Nothing?
      requires Known(View(), ClassOf(load))
      modifies this`workers, this`idleWorkerCount, this`batchActive, this`replyActive, this`cats
      ensures idleWorkerCount <= idleWorkers.Length && View() == Dispatch(old(View()), load)
    {
      var id := GetIdleWorker();
      LoadAndRun(id, load);
      Count(load, 1);
    }

    method Postpone(cmd: Command)
      requires idleWorkerCount <= idleWorkers.Length && cmd.cat < |cats|
      requires !Runnable(View(), CategoryClass(cmd.cat)) && !Admit(View(), cmd).Dropped?
      modifies this`cats, this`pending
      ensures View() == Admit(old(View()), cmd).pool
    {
      pending := pending + [cmd];
      cats := cats[cmd.cat := cats[cmd.cat].(queued := cats[cmd.cat].queued + 1)];
    }

    /** `proxy_inject_task`, and the dispatching part of `proxy_to_worker`: false when the command is
        dropped because its category's queue is full. */
    method Accept(cmd: Command) returns (accepted: bool)
      requires Valid() && cmd.cat < |cats|
      modifies this`workers, this`idleWorkerCount, this`batchActive, this`replyActive, this`cats, this`pending
      ensures Valid()
      ensures accepted == !Admit(old(View()), cmd).Dropped?
      ensures View() == if accepted then Admit(old(View()), cmd).pool else old(View())
    {
      ghost var before := View();
      AdmitInv(before, cmd);
      var cat := cats[cmd.cat];
      if cat.active >= cat.reserved && ActiveCount() >= general {
        if cat.maxQueue >= 0 && cat.queued >= cat.maxQueue {
          return false;
        }
        Postpone(cmd);
        return true;
      }
      DispatchTarget(before, CategoryClass(cmd.cat));
      Assign(CommandLoad(cmd));
      return true;
    }

    /** Loop body of `proxy_run_batch_jobs`. */
    method RunFront(reply: bool)
      requires idleWorkerCount <= idleWorkers.Length && TargetOk(View()) && QueueOf(View(), reply) != []
      modifies this`workers, this`idleWorkerCount, this`batchActive, this`replyActive, this`cats
      modifies this`batchJobs, this`replyJobs, this`batchTaken, this`replyTaken
      ensures idleWorkerCount <= idleWorkers.Length && View() == RunQueueFront(old(View()), reply)
    {
      var job;
      if reply {
        job := replyJobs[0];
        replyJobs, replyTaken := replyJobs[1..], replyTaken + [job];
      } else {
        job := batchJobs[0];
        batchJobs, batchTaken := batchJobs[1..], batchTaken + [job];
      }
      assert View() == PopQueue(old(View()), reply);
      Assign(BatchLoad(job, reply));
    }

    method RunBatchJobs(reply: bool)
      requires Valid() && !ShuttingDown(View())
      modifies this`workers, this`idleWorkerCount, this`batchActive, this`replyActive, this`cats
      modifies this`batchJobs, this`replyJobs, this`batchTaken, this`replyTaken
      ensures Valid() && View() == DrainQueue(old(View()), reply)
    {
      while (if reply then replyJobs else batchJobs) != [] && ActiveCount() < maxWorkers
        && ((if reply then replyActive < replyReserved else batchActive < batchReserved) || ActiveCount() < general)
        invariant Valid() && !ShuttingDown(View()) && DrainQueue(View(), reply) == DrainQueue(old(View()), reply)
        decreases |QueueOf(View(), reply)|
      {
        ghost var before := View();
        FrontFacts(before, reply);
        RunFront(reply);
      }
    }

    method QueueJob(thread: int, job: BatchJob)
      requires idleWorkerCount <= idleWorkers.Length && thread - 1 < |tagged|
      modifies this`batchJobs, this`tagged
      ensures |tagged| == old(|tagged|) && View() == Enqueue(old(View()), thread, job)
    {
      if thread > 0 {
        tagged := tagged[thread - 1 := tagged[thread - 1].(queue := tagged[thread - 1].queue + [job])];
      } else {
        batchJobs := batchJobs + [job];
      }
    }

    method QueueUntagged(obj: Batch, b: nat)
      requires idleWorkerCount <= idleWorkers.Length && forall i | 0 <= i < Size(obj) :: ThreadOf(obj, i) == 0
      modifies this`batchJobs
      ensures View() == EnqueueJobs(old(View()), obj, b, Size(obj))
    {
      for i := 0 to Size(obj)
        invariant View() == EnqueueJobs(old(View()), obj, b, i)
      {
        ghost var before := View();
        batchJobs := batchJobs + [BatchJob(b, i)];
        assert View() == Enqueue(before, ThreadOf(obj, i), BatchJob(b, i));
      }
    }

    method QueueByThread(obj: Batch, b: nat)
      requires idleWorkerCount <= idleWorkers.Length && forall i | 0 <= i < Size(obj) :: ThreadOf(obj, i) - 1 < |tagged|
      modifies this`batchJobs, this`tagged
      ensures View() == EnqueueJobs(old(View()), obj, b, Size(obj))
    {
      for i := 0 to Size(obj)
        invariant |tagged| == old(|tagged|) && View() == EnqueueJobs(old(View()), obj, b, i)
      {
        QueueJob(ThreadOf(obj, i), BatchJob(b, i));
      }
    }

    /** `proxy_batch`: queue all jobs of a batch; only a batch that uses tagged threads is asked where
        each of its jobs belongs. */
    method QueueBatch(obj: Batch, b: nat, usesTagged: bool)
      requires Valid() && forall i | 0 <= i < Size(obj) :: ValidThread(View(), ThreadOf(obj, i))
      requires !usesTagged ==> forall i | 0 <= i < Size(obj) :: ThreadOf(obj, i) == 0
      modifies this`batchJobs, this`tagged
      ensures Valid() && View() == EnqueueJobs(old(View()), obj, b, Size(obj))
    {
      EnqueueJobsInv(View(), obj, b, Size(obj));
      if usesTagged { QueueByThread(obj, b); } else { QueueUntagged(obj, b); }
    }

    /** Queue a completion job where its batch wants it. */
    method QueueCompletion(thread: nat, reply: bool, job: BatchJob)
      requires idleWorkerCount <= idleWorkers.Length && thread <= |tagged|
      modifies this`batchJobs, this`replyJobs, this`tagged
      ensures View() == EnqueueCompletion(old(View()), Queues(thread), reply, job)
    {
      if thread > 0 || !reply {
        QueueJob(thread, job);
      } else {
        replyJobs := replyJobs + [job];
      }
    }

    /** `proxy_schedule_reply_job`, for the job of a new batch `b`. */
    method ScheduleReply(b: nat)
      requires Valid()
      modifies this`replyJobs
      ensures Valid() && View() == old(View()).(replyJobs := old(replyJobs) + [BatchJob(b, 0)])
    {
      ghost var before := View();
      replyJobs := replyJobs + [BatchJob(b, 0)];
      SameSchedule(before, View());
    }

    method RunTaggedJobs()
      requires Valid() && !ShuttingDown(View())
      modifies this`tagged
      ensures Valid() && View() == DrainTagged(old(View()), 0)
    {
      var t := 0;
      while t < |tagged|
        invariant 0 <= t <= |tagged| && Valid() && !ShuttingDown(View())
        invariant DrainTagged(View(), t) == DrainTagged(old(View()), 0)
      {
        ghost var before := View();
        if !tagged[t].busy && tagged[t].queue != [] {
          RunTaggedInv(before, t);
          var job := tagged[t].queue[0];
          tagged := tagged[t := Tagged(Launch(tagged[t].worker, BatchLoad(job, false)), true,
                                       tagged[t].queue[1..], tagged[t].taken + [job])];
          assert View() == RunTagged(before, t);
        }
        t := t + 1;
      }
    }

    /** Loop body of the scan, for a command that can run. */
    method RunPendingAt(i: nat)
      requires idleWorkerCount <= idleWorkers.Length && TargetOk(View()) && i < |pending| && pending[i].cat < |cats|
      modifies this`workers, this`idleWorkerCount, this`batchActive, this`replyActive, this`cats, this`pending
      ensures idleWorkerCount <= idleWorkers.Length && View() == RunPending(old(View()), i)
    {
      var cmd := pending[i];
      Assign(CommandLoad(cmd));
      cats := cats[cmd.cat := cats[cmd.cat].(queued := cats[cmd.cat].queued - 1)];
      pending := pending[..i] + pending[i + 1..];
    }

    /** The test of the scan. */
    method MayRun(i: nat) returns (may: bool)
      requires idleWorkerCount <= idleWorkers.Length && i < |pending| && pending[i].cat < |cats|
      ensures may == CanRunPending(View(), i)
    {
      var cat := cats[pending[i].cat];
      may := cat.active < cat.reserved || ActiveCount() < general;
    }

    method ScanPending()
      requires Valid() && !ShuttingDown(View())
      modifies this`workers, this`idleWorkerCount, this`batchActive, this`replyActive, this`cats, this`pending
      ensures Valid() && View() == ScanFrom(old(View()), 0)
    {
      var i := 0;
      while i < |pending| && ActiveCount() < maxWorkers
        invariant 0 <= i <= |pending| && Valid() && !ShuttingDown(View())
        invariant ScanFrom(View(), i) == ScanFrom(old(View()), 0)
        decreases |pending| - i
      {
        assert View().pending[i].cat < |View().cats|;
        var may := MayRun(i);
        if may {
          PendingFacts(View(), i);
          RunPendingAt(i);
        } else {
          i := i + 1;
        }
      }
    }

    /** `proxy_process_queue`. */
    method ProcessQueues()
      requires Valid()
      modifies this
      ensures Valid() && View() == ProcessQueue(old(View()))
    {
      if maxWorkers == 0 {
        return;
      }
      RunTaggedJobs();
      DrainTaggedInv(old(View()), 0);
      RunBatchJobs(false);
      DrainQueueInv(DrainTagged(old(View()), 0), false);
      RunBatchJobs(true);
      DrainQueueInv(DrainQueue(DrainTagged(old(View()), 0), false), true);
      ScanPending();
    }

    /** RAN from a pool worker: the class counter, then back on the idle stack (whose write is within
        the array) or, during shutdown, QUIT. */
    method WorkerRan(w: nat)
      requires Valid() && w < |workers| && workers[w].outbox != [] && workers[w].outbox[0] == Ran
      modifies this`workers, this`idleWorkerCount, this`batchActive, this`replyActive, this`cats, idleWorkers
      ensures Valid() && old(!workers[w].load.Nothing?) && View() == PoolRan(old(View()), w)
    {
      RanFacts(View(), w);
      Retire(w);
    }

    method Retire(w: nat)
      requires idleWorkerCount <= idleWorkers.Length && w < |workers| && workers[w].outbox != []
      requires !workers[w].load.Nothing?
      requires var k := ClassOf(workers[w].load); Known(View(), k) && Active(View(), k) > 0
      requires maxWorkers != 0 ==> idleWorkerCount < idleWorkers.Length
      modifies this`workers, this`idleWorkerCount, this`batchActive, this`replyActive, this`cats, idleWorkers
      ensures idleWorkerCount <= idleWorkers.Length && View() == PoolRan(old(View()), w)
    {
      ghost var idle := View().idle;
      Count(workers[w].load, -1);
      workers := workers[w := TakeReport(workers[w])];
      if maxWorkers == 0 {
        workers := workers[w := SendQuit(workers[w])];
      } else {
        idleWorkers[idleWorkerCount] := w;
        idleWorkerCount := idleWorkerCount + 1;
        assert View().idle == idle + [w];
      }
    }

    method QuitIdle()
      requires idleWorkerCount <= idleWorkers.Length
      requires forall i | 0 <= i < idleWorkerCount :: idleWorkers[i] < |workers|
      requires forall i, j | 0 <= i < j < idleWorkerCount :: idleWorkers[i] != idleWorkers[j]
      modifies this`workers, this`idleWorkerCount
      ensures idleWorkerCount == 0 && |workers| == old(|workers|)
      ensures forall w | 0 <= w < |workers| ::
        workers[w] == if w in old(idleWorkers[..idleWorkerCount]) then SendQuit(old(workers)[w]) else old(workers)[w]
    {
      ghost var idle := idleWorkers[..idleWorkerCount];
      var i := 0;
      while i < idleWorkerCount
        invariant 0 <= i <= idleWorkerCount == |idle| && |workers| == old(|workers|)
        invariant forall w | 0 <= w < |workers| ::
          workers[w] == if w in idle[..i] then SendQuit(old(workers)[w]) else old(workers)[w]
      {
        var w := idleWorkers[i];
        assert w == idle[i] && w !in idle[..i] && idle[..i + 1] == idle[..i] + [w];
        workers := workers[w := SendQuit(workers[w])];
        i := i + 1;
      }
      assert idle[..i] == idle;
      idleWorkerCount := 0;
    }

    method QuitTagged()
      modifies this`tagged
      ensures |tagged| == old(|tagged|)
      ensures forall t | 0 <= t < |tagged| ::
        tagged[t] == var o := old(tagged)[t]; if o.busy then o else o.(worker := SendQuit(o.worker))
    {
      var t := 0;
      while t < |tagged|
        invariant 0 <= t <= |tagged| == old(|tagged|)
        invariant forall k | 0 <= k < |tagged| ::
          tagged[k] == var o := old(tagged)[k]; if k >= t || o.busy then o else o.(worker := SendQuit(o.worker))
      {
        if !tagged[t].busy {
          tagged := tagged[t := tagged[t].(worker := SendQuit(tagged[t].worker))];
        }
        t := t + 1;
      }
    }

    method TellEverybody()
      requires idleWorkerCount <= idleWorkers.Length
      requires forall i | 0 <= i < idleWorkerCount :: idleWorkers[i] < |workers|
      requires forall i, j | 0 <= i < j < idleWorkerCount :: idleWorkers[i] != idleWorkers[j]
      modifies this`maxWorkers, this`workers, this`idleWorkerCount, this`tagged
      ensures idleWorkerCount <= idleWorkers.Length && View() == QuitAll(old(View()))
    {
      maxWorkers := 0;
      QuitIdle();
      QuitTagged();
      assert workers == QuitAll(old(View())).workers;
      assert tagged == QuitAll(old(View())).tagged;
    }

    /** QUIT: tell everybody who is idle. */
    method Quit()
      requires Valid() && maxWorkers != 0
      modifies this`maxWorkers, this`workers, this`idleWorkerCount, this`tagged
      ensures Valid() && View() == QuitAll(old(View()))
    {
      QuitFacts(View());
      assert forall i | 0 <= i < idleWorkerCount :: idleWorkers[i] == View().idle[i];
      TellEverybody();
    }
  }

  lemma QuitFacts(p: Pool)
    requires PoolInv(p) && !ShuttingDown(p)
    ensures PoolInv(QuitAll(p))
    ensures forall i | 0 <= i < |p.idle| :: p.idle[i] < |p.workers|
    ensures forall i, j | 0 <= i < j < |p.idle| :: p.idle[i] != p.idle[j]
  {
    QuitAllInv(p);
    assert forall i | 0 <= i < |p.idle| :: p.idle[i] in p.idle;
  }

  lemma FrontFacts(p: Pool, reply: bool)
    requires PoolInv(p) && !ShuttingDown(p) && CanRunQueue(p, reply)
    ensures TargetOk(p) && PoolInv(RunQueueFront(p, reply)) && !ShuttingDown(RunQueueFront(p, reply))
    ensures |QueueOf(RunQueueFront(p, reply), reply)| < |QueueOf(p, reply)|
  {
    DispatchTarget(p, QueueClass(reply));
    RunQueueFrontInv(p, reply);
    PopShrinks(p, reply);
    KeepsMaxWorkers(p, reply);
  }

  lemma PendingFacts(p: Pool, i: nat)
    requires PoolInv(p) && !ShuttingDown(p) && i < |p.pending| && CanRunPending(p, i)
    ensures TargetOk(p) && PoolInv(RunPending(p, i)) && !ShuttingDown(RunPending(p, i))
    ensures |RunPending(p, i).pending| == |p.pending| - 1
  {
    DispatchTarget(p, CategoryClass(p.pending[i].cat));
    RunPendingInv(p, i);
    RunPendingShape(p, i);
    RunPendingShrinks(p, i);
  }

  lemma RanFacts(p: Pool, w: nat)
    requires PoolInv(p) && w < |p.workers| && p.workers[w].outbox != [] && p.workers[w].outbox[0] == Ran
    ensures !p.workers[w].load.Nothing? && PoolInv(PoolRan(p, w))
    ensures var k := ClassOf(p.workers[w].load); Known(p, k) && Active(p, k) > 0
    ensures !ShuttingDown(p) ==> |p.idle| < p.capacity
  {
    PoolRanInv(p, w);
    PoolRanCounters(p, w);
    PoolRanBound(p, w);
  }
}
