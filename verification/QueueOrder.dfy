/** The batch queue, the reply queue and every tagged queue are first-in first-out over whole runs. */
module QueueOrder {
  import opened Workers
  import opened Pool
  import opened Batches
  import opened System
  import opened PoolProofs
  import opened Theorems

  /** Everything that ever entered the queue, in order: what was taken, then what waits. */
  function Line(p: Pool, reply: bool): seq<BatchJob> {
    (if reply then p.replyTaken else p.batchTaken) + QueueOf(p, reply)
  }

  function TaggedLine(p: Pool, t: nat): seq<BatchJob>
    requires t < |p.tagged|
  {
    p.tagged[t].taken + p.tagged[t].queue
  }

  /** Every line only grows at its end. */
  predicate LinesGrow(p: Pool, q: Pool) {
    && Line(p, false) <= Line(q, false) && Line(p, true) <= Line(q, true)
    && |p.tagged| == |q.tagged|
    && (forall t | 0 <= t < |p.tagged| :: TaggedLine(p, t) <= TaggedLine(q, t))
  }

  predicate SameLines(p: Pool, q: Pool) {
    && p.batchJobs == q.batchJobs && p.replyJobs == q.replyJobs && p.batchTaken == q.batchTaken
    && p.replyTaken == q.replyTaken
    && |p.tagged| == |q.tagged|
    && (forall t | 0 <= t < |p.tagged| ::
          p.tagged[t].taken == q.tagged[t].taken && p.tagged[t].queue == q.tagged[t].queue)
  }

  lemma DispatchLines(p: Pool, load: Load)
    requires TargetOk(p) && !load.Nothing? && Known(p, ClassOf(load))
    ensures SameLines(p, Dispatch(p, load))
  {
    DispatchFrame(p, load);
  }

  lemma EnqueueLines(p: Pool, thread: int, job: BatchJob)
    ensures LinesGrow(p, Enqueue(p, thread, job))
  {
  }

  lemma GrowTransitive(p: Pool, q: Pool, r: Pool)
    requires LinesGrow(p, q) && LinesGrow(q, r)
    ensures LinesGrow(p, r)
  {
    forall t | 0 <= t < |p.tagged| ensures TaggedLine(p, t) <= TaggedLine(r, t) {
      assert TaggedLine(p, t) <= TaggedLine(q, t) && TaggedLine(q, t) <= TaggedLine(r, t);
    }
  }

  lemma {:induction false} EnqueueJobsLines(p: Pool, obj: Batch, b: nat, n: nat)
    requires n <= Size(obj)
    ensures LinesGrow(p, EnqueueJobs(p, obj, b, n))
  {
    if n > 0 {
      var q := EnqueueJobs(p, obj, b, n - 1);
      EnqueueJobsLines(p, obj, b, n - 1);
      EnqueueLines(q, ThreadOf(obj, n - 1), BatchJob(b, n - 1));
      GrowTransitive(p, q, EnqueueJobs(p, obj, b, n));
    }
  }

  lemma FireLines(s: Sys, timer: nat)
    ensures LinesGrow(s.pool, Fire(s, timer).pool)
  {
    if timer in s.store.timers {
      var t := s.store.timers[timer];
      EnqueueJobsLines(s.pool, NewBatch([t.thread], Rearm(timer)), s.store.next, 1);
      EnqueueJobsLines(s.pool, Job(t.thread), s.store.next, 1);
    }
  }

  lemma CompletionLines(p: Pool, fate: Fate, reply: bool, job: BatchJob)
    ensures LinesGrow(p, EnqueueCompletion(p, fate, reply, job))
  {
    if fate.Queues? && (fate.thread > 0 || !reply) { EnqueueLines(p, fate.thread, job); }
  }

  lemma PoolMessageLines(s: Sys, w: nat)
    requires w < |s.pool.workers| && s.pool.workers[w].outbox != []
    ensures LinesGrow(s.pool, HandlePool(s, w).pool)
  {
    var worker := s.pool.workers[w];
    if worker.outbox[0] != Quitting && worker.load.BatchLoad? {
      var q := PoolRan(s.pool, w);
      assert LinesGrow(s.pool, q);
      CompletionLines(q, FateIn(s.store, worker.load.job), worker.load.reply, BatchJob(worker.load.job.batch, -1));
      GrowTransitive(s.pool, q, HandlePool(s, w).pool);
    }
  }

  lemma TaggedMessageLines(s: Sys, t: nat)
    requires t < |s.pool.tagged| && s.pool.tagged[t].worker.outbox != []
    ensures LinesGrow(s.pool, HandleTagged(s, t).pool)
  {
    var worker := s.pool.tagged[t].worker;
    if worker.outbox[0] != Quitting && worker.load.BatchLoad? {
      var q := TaggedRan(s.pool, t);
      assert LinesGrow(s.pool, q);
      CompletionLines(q, FateIn(s.store, worker.load.job), worker.load.reply, BatchJob(worker.load.job.batch, -1));
      GrowTransitive(s.pool, q, HandleTagged(s, t).pool);
    }
  }

  lemma PopLines(p: Pool, reply: bool)
    requires QueueOf(p, reply) != []
    ensures LinesGrow(p, PopQueue(p, reply))
  {
    var queue := QueueOf(p, reply);
    assert queue == [queue[0]] + queue[1..];
    assert Line(p, reply) == Line(PopQueue(p, reply), reply);
  }

  lemma SameLinesGrow(p: Pool, q: Pool)
    requires SameLines(p, q)
    ensures LinesGrow(p, q)
  {
  }

  lemma QueueFrontLines(p: Pool, reply: bool)
    requires PoolInv(p) && CanRunQueue(p, reply)
    ensures LinesGrow(p, RunQueueFront(p, reply))
  {
    DispatchTarget(p, QueueClass(reply));
    PopLines(p, reply);
    DispatchLines(PopQueue(p, reply), BatchLoad(QueueOf(p, reply)[0], reply));
    SameLinesGrow(PopQueue(p, reply), RunQueueFront(p, reply));
    GrowTransitive(p, PopQueue(p, reply), RunQueueFront(p, reply));
  }

  lemma ProceedLines(s: Sys)
    requires PoolInv(s.pool)
    ensures LinesGrow(s.pool, ProceedPool(s))
  {
    if ProceedPool(s) == s.pool {
      SameLinesGrow(s.pool, s.pool);
    } else {
      match s.phase {
        case ToTagged(t) => RunTaggedLines(s.pool, t);
        case ToQueue(reply) => QueueFrontLines(s.pool, reply);
        case Scan(i) => RunPendingLines(s.pool, i);
      }
    }
  }

  lemma RunTaggedLines(p: Pool, t: nat)
    requires t < |p.tagged| && CanRunTagged(p, t)
    ensures LinesGrow(p, RunTagged(p, t))
  {
    var queue := p.tagged[t].queue;
    assert queue == [queue[0]] + queue[1..];
    assert TaggedLine(RunTagged(p, t), t) == TaggedLine(p, t);
  }

  lemma RunPendingLines(p: Pool, i: nat)
    requires PoolInv(p) && i < |p.pending| && CanRunPending(p, i)
    ensures LinesGrow(p, RunPending(p, i))
  {
    DispatchTarget(p, CategoryClass(p.pending[i].cat));
    DispatchLines(p, CommandLoad(p.pending[i]));
    SameLinesGrow(p, RunPending(p, i));
  }

  lemma AdmitLines(s: Sys, cmd: Command)
    requires PoolInv(s.pool) && cmd.cat < |s.pool.cats|
    ensures LinesGrow(s.pool, AdmitCommand(s, cmd).pool)
  {
    if Admit(s.pool, cmd).Admitted? {
      DispatchTarget(s.pool, CategoryClass(cmd.cat));
      DispatchLines(s.pool, CommandLoad(cmd));
    }
  }

  lemma StepLines(s: Sys, a: Action)
    requires PoolInv(s.pool) && Enabled(s, a)
    ensures LinesGrow(s.pool, Next(s, a).pool)
  {
    match a {
      case SubmitBatch(threads, completion, surplus) =>
        EnqueueJobsLines(s.pool, Submission(threads, completion, surplus), s.store.next, |threads|);
      case SubmitJob(thread) => EnqueueJobsLines(s.pool, Job(thread), s.store.next, 1);
      case FireTimer(timer) => FireLines(s, timer);
      case Inject(cmd) => AdmitLines(s, cmd);
      case Receive(cmd) => AdmitLines(s, cmd);
      case PoolMessage(w) => PoolMessageLines(s, w);
      case TaggedMessage(t) => TaggedMessageLines(s, t);
      case Advance => ProceedLines(s);
      case _ =>
    }
  }

  /** Over any run, what a queue has handed out is a prefix of everything that ever entered it in
      order of entry: nothing overtakes, nothing is lost, nothing is handed out twice. */
  lemma {:induction false} QueuesAreFifo(s: Sys, actions: seq<Action>)
    requires Inv(s) && IsRun(s, actions)
    ensures LinesGrow(s.pool, After(s, actions).pool)
    decreases |actions|
  {
    if actions != [] {
      var s' := Next(s, actions[0]);
      StepLines(s, actions[0]);
      NextKeepsInv(s, actions[0]);
      QueuesAreFifo(s', actions[1..]);
      GrowTransitive(s.pool, s'.pool, After(s, actions).pool);
    }
  }
}
