/** The arrays that `start()` sizes, after QUIT: commands are still dispatched then, to new workers
    only, so a category with reserved threads can outgrow them.  Here is such a run, and exactly which
    configurations are safe. */
module AfterQuit {
  import opened Workers
  import opened Pool
  import opened Batches
  import opened System
  import opened PoolProofs
  import opened SystemProofs
  import opened Order
  import opened Theorems
  import opened Composition

  // ----- the configuration never changes -----

  predicate SameConfig(p: Pool, q: Pool) {
    && q.general == p.general && q.capacity == p.capacity && |q.cats| == |p.cats|
    && (forall c | 0 <= c < |p.cats| ::
          q.cats[c].reserved == p.cats[c].reserved && q.cats[c].maxQueue == p.cats[c].maxQueue)
  }

  lemma CompletionConfig(p: Pool, fate: Fate, reply: bool, job: BatchJob)
    ensures var q := EnqueueCompletion(p, fate, reply, job);
      && q.general == p.general && q.capacity == p.capacity && q.cats == p.cats && q.workers == p.workers
      && q.maxWorkers == p.maxWorkers
  {
  }

  lemma PoolRanConfig(p: Pool, w: nat)
    requires w < |p.workers| && p.workers[w].outbox != [] && !p.workers[w].load.Nothing?
    ensures SameConfig(p, PoolRan(p, w)) && |PoolRan(p, w).workers| == |p.workers|
    ensures PoolRan(p, w).maxWorkers == p.maxWorkers
  {
  }

  lemma HandlePoolConfig(s: Sys, w: nat)
    requires w < |s.pool.workers| && s.pool.workers[w].outbox != []
    ensures SameConfig(s.pool, HandlePool(s, w).pool) && |HandlePool(s, w).pool.workers| == |s.pool.workers|
    ensures HandlePool(s, w).pool.maxWorkers == s.pool.maxWorkers
  {
    var worker := s.pool.workers[w];
    if worker.outbox[0] != Quitting && !worker.load.Nothing? {
      PoolRanConfig(s.pool, w);
      if worker.load.BatchLoad? {
        var job := worker.load.job;
        CompletionConfig(PoolRan(s.pool, w), FateIn(s.store, job), worker.load.reply, BatchJob(job.batch, -1));
      }
    }
  }

  lemma HandleTaggedConfig(s: Sys, t: nat)
    requires t < |s.pool.tagged| && s.pool.tagged[t].worker.outbox != []
    ensures SameConfig(s.pool, HandleTagged(s, t).pool) && HandleTagged(s, t).pool.workers == s.pool.workers
    ensures HandleTagged(s, t).pool.maxWorkers == s.pool.maxWorkers
  {
    var worker := s.pool.tagged[t].worker;
    if worker.outbox[0] != Quitting && worker.load.BatchLoad? {
      var job := worker.load.job;
      CompletionConfig(TaggedRan(s.pool, t), FateIn(s.store, job), worker.load.reply, BatchJob(job.batch, -1));
    }
  }

  lemma {:induction false} EnqueueJobsConfig(p: Pool, obj: Batch, b: nat, n: nat)
    requires n <= Size(obj)
    ensures EnqueueJobs(p, obj, b, n).capacity == p.capacity && SameConfig(p, EnqueueJobs(p, obj, b, n))
    ensures EnqueueJobs(p, obj, b, n).workers == p.workers
  {
    if n > 0 { EnqueueJobsConfig(p, obj, b, n - 1); }
  }

  lemma FireConfig(s: Sys, timer: nat)
    ensures SameConfig(s.pool, Fire(s, timer).pool) && Fire(s, timer).pool.workers == s.pool.workers
  {
    if timer in s.store.timers {
      var t := s.store.timers[timer];
      EnqueueJobsConfig(s.pool, NewBatch([t.thread], Rearm(timer)), s.store.next, 1);
      EnqueueJobsConfig(s.pool, Job(t.thread), s.store.next, 1);
    }
  }

  lemma AdmitConfig(s: Sys, cmd: Command)
    requires PoolInv(s.pool) && cmd.cat < |s.pool.cats|
    ensures SameConfig(s.pool, AdmitCommand(s, cmd).pool)
  {
    if Admit(s.pool, cmd).Admitted? {
      DispatchTarget(s.pool, CategoryClass(cmd.cat));
      DispatchFrame(s.pool, CommandLoad(cmd));
    }
  }

  lemma QueueFrontConfig(p: Pool, reply: bool)
    requires PoolInv(p) && CanRunQueue(p, reply)
    ensures SameConfig(p, RunQueueFront(p, reply)) && RunQueueFront(p, reply).maxWorkers == p.maxWorkers
  {
    DispatchTarget(p, QueueClass(reply));
    DispatchFrame(PopQueue(p, reply), BatchLoad(QueueOf(p, reply)[0], reply));
  }

  lemma RunPendingConfig(p: Pool, i: nat)
    requires PoolInv(p) && i < |p.pending| && CanRunPending(p, i)
    ensures SameConfig(p, RunPending(p, i)) && RunPending(p, i).maxWorkers == p.maxWorkers
  {
    DispatchTarget(p, CategoryClass(p.pending[i].cat));
    DispatchFrame(p, CommandLoad(p.pending[i]));
  }

  lemma ProceedConfig(s: Sys)
    requires PoolInv(s.pool)
    ensures SameConfig(s.pool, ProceedPool(s)) && ProceedPool(s).maxWorkers == s.pool.maxWorkers
  {
    if ProceedPool(s) != s.pool {
      match s.phase {
        case ToTagged(t) =>
        case ToQueue(reply) => QueueFrontConfig(s.pool, reply);
        case Scan(i) => RunPendingConfig(s.pool, i);
      }
    }
  }

  lemma NextConfig(s: Sys, a: Action)
    requires PoolInv(s.pool) && Enabled(s, a)
    ensures SameConfig(s.pool, Next(s, a).pool)
  {
    match a {
      case SubmitBatch(threads, completion, surplus) =>
        EnqueueJobsConfig(s.pool, Submission(threads, completion, surplus), s.store.next, |threads|);
      case SubmitJob(thread) => EnqueueJobsConfig(s.pool, Job(thread), s.store.next, 1);
      case Inject(cmd) => AdmitConfig(s, cmd);
      case Receive(cmd) => AdmitConfig(s, cmd);
      case FireTimer(timer) => FireConfig(s, timer);
      case PoolMessage(w) => HandlePoolConfig(s, w);
      case TaggedMessage(t) => HandleTaggedConfig(s, t);
      case Advance => ProceedConfig(s);
      case _ =>
    }
  }

  // ----- configurations without reserved categories -----

  predicate NoneReserved(p: Pool) {
    forall c | 0 <= c < |p.cats| :: p.cats[c].reserved == 0
  }

  /** After QUIT only a command that is admitted adds a worker, and without reservations only while
      there are fewer workers than general threads. */
  lemma AdmitWithin(s: Sys, cmd: Command)
    requires PoolInv(s.pool) && ShuttingDown(s.pool) && NoneReserved(s.pool) && cmd.cat < |s.pool.cats|
    requires !Overrunning(s.pool)
    ensures !Overrunning(AdmitCommand(s, cmd).pool)
  {
    var p := s.pool;
    ReservedNonNegative(p.cats);
    assert p.cats[cmd.cat].active >= 0;
    if Admit(p, cmd).Admitted? {
      DispatchTarget(p, CategoryClass(cmd.cat));
      DispatchFrame(p, CommandLoad(cmd));
    }
  }

  lemma NextWithin(s: Sys, a: Action)
    requires Inv(s) && Enabled(s, a) && NoneReserved(s.pool) && !Overrunning(s.pool)
    ensures !Overrunning(Next(s, a).pool) && NoneReserved(Next(s, a).pool)
  {
    NextConfig(s, a);
    if !ShuttingDown(s.pool) {
      NextKeepsInv(s, a);
      FaultIsOverrun(Next(s, a).pool);
      if !a.Quit? { NotYet(s, a); }
    } else {
      ShuttingWithin(s, a);
    }
  }

  /** Only QUIT starts the shutdown. */
  lemma NotYet(s: Sys, a: Action)
    requires PoolInv(s.pool) && Enabled(s, a) && !a.Quit? && !ShuttingDown(s.pool)
    ensures !ShuttingDown(Next(s, a).pool)
  {
    match a {
      case SubmitBatch(threads, completion, surplus) =>
        EnqueueJobsFrame(s.pool, Submission(threads, completion, surplus), s.store.next, |threads|);
      case SubmitJob(thread) => EnqueueJobsFrame(s.pool, Job(thread), s.store.next, 1);
      case Inject(cmd) => AdmitShape(s, cmd);
      case Receive(cmd) => AdmitShape(s, cmd);
      case FireTimer(timer) => FireStays(s, timer);
      case PoolMessage(w) => HandlePoolConfig(s, w);
      case TaggedMessage(t) => HandleTaggedConfig(s, t);
      case Advance => ProceedConfig(s);
      case _ =>
    }
  }

  lemma FireStays(s: Sys, timer: nat)
    ensures Fire(s, timer).pool.maxWorkers == s.pool.maxWorkers
  {
    if timer in s.store.timers {
      var t := s.store.timers[timer];
      EnqueueJobsFrame(s.pool, NewBatch([t.thread], Rearm(timer)), s.store.next, 1);
      EnqueueJobsFrame(s.pool, Job(t.thread), s.store.next, 1);
    }
  }

  lemma ShuttingWithin(s: Sys, a: Action)
    requires PoolInv(s.pool) && (Dispatching(s.phase) ==> !ShuttingDown(s.pool)) && ShuttingDown(s.pool)
    requires Enabled(s, a) && NoneReserved(s.pool) && !Overrunning(s.pool)
    ensures !Overrunning(Next(s, a).pool)
  {
    match a {
      case SubmitBatch(threads, completion, surplus) =>
        EnqueueJobsConfig(s.pool, Submission(threads, completion, surplus), s.store.next, |threads|);
      case SubmitJob(thread) => EnqueueJobsConfig(s.pool, Job(thread), s.store.next, 1);
      case Inject(cmd) => AdmitWithin(s, cmd);
      case Receive(cmd) => AdmitWithin(s, cmd);
      case FireTimer(timer) => FireConfig(s, timer);
      case PoolMessage(w) => HandlePoolConfig(s, w);
      case TaggedMessage(t) => HandleTaggedConfig(s, t);
      case _ =>
    }
  }

  lemma {:induction false} RunWithin(s: Sys, actions: seq<Action>)
    requires Inv(s) && IsRun(s, actions) && NoneReserved(s.pool) && !Overrunning(s.pool)
    ensures !Overrunning(After(s, actions).pool)
    decreases |actions|
  {
    if actions != [] {
      NextWithin(s, actions[0]);
      NextKeepsInv(s, actions[0]);
      RunWithin(Next(s, actions[0]), actions[1..]);
    }
  }

  // ----- configurations with a reserved category -----

  /** Waiting for messages after QUIT, with no command of category `c` being run. */
  predicate Ready(s: Sys, c: nat) {
    && s.phase.Incoming? && ShuttingDown(s.pool) && s.pool.idle == []
    && c < |s.pool.cats| && s.pool.cats[c].reserved > 0 && s.pool.cats[c].active == 0
  }

  /** A command of category `c` arrives, worker `w` runs it, and its report is handled. */
  function Round(c: nat, w: nat): seq<Action> {
    [Receive(Command(c, 0, false)), PoolThread(w, Value(0)), PoolThread(w, Value(0)), Advance, Advance, PoolMessage(w),
     Advance, Advance]
  }

  function Rounds(c: nat, w: nat, n: nat): seq<Action>
    decreases n
  {
    if n == 0 then [] else Round(c, w) + Rounds(c, w + 1, n - 1)
  }

  /** Worker `w` is the newest; everything else is as in `p`, but for the counter of category `c`. */
  predicate WithNew(p: Pool, q: Pool, c: nat, w: Worker, active: int)
    requires c < |p.cats|
  {
    q.(fault := p.fault) == p.(workers := p.workers + [w], cats := p.cats[c := p.cats[c].(active := active)])
  }

  function Newest(c: nat, thread: Thread, inbox: seq<ToWorker>, outbox: seq<FromWorker>): Worker {
    Worker(CommandLoad(Command(c, 0, false)), true, thread, inbox, outbox, |inbox|, 0)
  }

  lemma Arrives(s: Sys, c: nat)
    requires Ready(s, c)
    ensures Enabled(s, Receive(Command(c, 0, false)))
    ensures var s' := Next(s, Receive(Command(c, 0, false)));
      && s'.phase == s.phase && s'.store == s.store
      && WithNew(s.pool, s'.pool, c, Newest(c, Working, [], []), 1)
  {
  }

  lemma Works(s: Sys, p: Pool, c: nat, thread: Thread)
    requires c < |p.cats| && (thread.Working? || thread.Executed?)
    requires WithNew(p, s.pool, c, Newest(c, thread, [], []), 1)
    ensures Enabled(s, PoolThread(|p.workers|, Value(0)))
    ensures var s' := Next(s, PoolThread(|p.workers|, Value(0)));
      && s'.phase == s.phase && s'.store == s.store
      && WithNew(p, s'.pool, c, if thread.Working?
           then Newest(c, Executed, [], [])
           else Newest(c, Waiting, [], [Ran]), 1)
  {
    var w := |p.workers|;
    assert s.pool.workers[w] == Newest(c, thread, [], []);
    var s' := Next(s, PoolThread(w, Value(0)));
    assert s'.pool.workers == p.workers + [ThreadStep(s.pool.workers[w])];
    assert [] + [Ran] == [Ran];
  }

  lemma Reports(s: Sys, p: Pool, c: nat)
    requires c < |p.cats| && p.maxWorkers == 0 && s.phase.WorkerMessages?
    requires WithNew(p, s.pool, c, Newest(c, Waiting, [], [Ran]), 1)
    ensures Enabled(s, PoolMessage(|p.workers|))
    ensures var s' := Next(s, PoolMessage(|p.workers|));
      && s'.phase == s.phase && s'.store == s.store
      && WithNew(p, s'.pool, c, Newest(c, Waiting, [ToWorker.Quit], []), 0)
  {
    var w := |p.workers|;
    var worker := s.pool.workers[w];
    assert worker == Newest(c, Waiting, [], [Ran]);
    assert SendQuit(TakeReport(worker)) == Newest(c, Waiting, [ToWorker.Quit], []);
    assert PoolRan(s.pool, w).workers == p.workers + [SendQuit(TakeReport(worker))];
    assert PoolRan(s.pool, w).cats == p.cats[c := p.cats[c].(active := 0)];
  }

  /** One round adds a worker and is ready for the next one. */
  lemma RoundAdds(s: Sys, c: nat)
    requires Ready(s, c)
    ensures IsRun(s, Round(c, |s.pool.workers|))
    ensures var s' := After(s, Round(c, |s.pool.workers|));
      Ready(s', c) && |s'.pool.workers| == |s.pool.workers| + 1 && s'.pool.capacity == s.pool.capacity
  {
    var p, w := s.pool, |s.pool.workers|;
    var first, second := Round(c, w)[..3], Round(c, w)[3..];
    RoundRuns(s, c);
    RoundReports(After(s, first), p, c);
    RunThen(s, first, second);
    assert first + second == Round(c, w);
  }

  /** The first half of a round. */
  lemma RoundRuns(s: Sys, c: nat)
    requires Ready(s, c)
    ensures var first := Round(c, |s.pool.workers|)[..3];
      && IsRun(s, first) && After(s, first).phase.Incoming?
      && WithNew(s.pool, After(s, first).pool, c, Newest(c, Waiting, [], [Ran]), 1)
  {
    var w := |s.pool.workers|;
    var run := PoolThread(w, Value(0));
    Arrives(s, c);
    var s1 := Next(s, Receive(Command(c, 0, false)));
    Works(s1, s.pool, c, Working);
    var s2 := Next(s1, run);
    Works(s2, s.pool, c, Executed);
    StepThen(s2, run, []);
    StepThen(s1, run, [run] + []);
    StepThen(s, Receive(Command(c, 0, false)), [run] + ([run] + []));
    assert Round(c, w)[..3] == [Receive(Command(c, 0, false))] + ([run] + ([run] + []));
  }

  /** The second half: the loop comes round to the messages of the workers ... */
  lemma RoundReports(s: Sys, p: Pool, c: nat)
    requires s.phase.Incoming? && ShuttingDown(p) && p.idle == [] && c < |p.cats| && p.cats[c].reserved > 0
    requires WithNew(p, s.pool, c, Newest(c, Waiting, [], [Ran]), 1)
    ensures var second := Round(c, |p.workers|)[3..];
      && IsRun(s, second) && Ready(After(s, second), c)
      && |After(s, second).pool.workers| == |p.workers| + 1 && After(s, second).pool.capacity == p.capacity
  {
    var w := |p.workers|;
    assert s.pool.workers[w].joinable;
    var s1 := Next(s, Advance);
    var s2 := Next(s1, Advance);
    var rest := [PoolMessage(w), Advance, Advance];
    ReportHandled(s2, p, c);
    StepThen(s1, Advance, rest);
    StepThen(s, Advance, [Advance] + rest);
    assert Round(c, w)[3..] == [Advance] + ([Advance] + rest);
  }

  /** ... handles the report, and gets to the next incoming messages. */
  lemma ReportHandled(s: Sys, p: Pool, c: nat)
    requires s.phase.WorkerMessages? && ShuttingDown(p) && p.idle == [] && c < |p.cats| && p.cats[c].reserved > 0
    requires WithNew(p, s.pool, c, Newest(c, Waiting, [], [Ran]), 1)
    ensures var rest := [PoolMessage(|p.workers|), Advance, Advance];
      && IsRun(s, rest) && Ready(After(s, rest), c)
      && |After(s, rest).pool.workers| == |p.workers| + 1 && After(s, rest).pool.capacity == p.capacity
  {
    var w := |p.workers|;
    Reports(s, p, c);
    var s1 := Next(s, PoolMessage(w));
    var s2 := Next(s1, Advance);
    StepThen(s2, Advance, []);
    StepThen(s1, Advance, [Advance] + []);
    StepThen(s, PoolMessage(w), [Advance] + ([Advance] + []));
    assert [PoolMessage(w), Advance, Advance] == [PoolMessage(w)] + ([Advance] + ([Advance] + []));
  }

  /** A run that adds `n` workers. */
  predicate Adds(s: Sys, actions: seq<Action>, n: nat) {
    && IsRun(s, actions)
    && |After(s, actions).pool.workers| == |s.pool.workers| + n && After(s, actions).pool.capacity == s.pool.capacity
  }

  lemma OneRoundMore(s: Sys, c: nat, n: nat)
    requires var w := |s.pool.workers|;
      Adds(s, Round(c, w), 1) && Adds(After(s, Round(c, w)), Rounds(c, w + 1, n), n)
    ensures Adds(s, Rounds(c, |s.pool.workers|, n + 1), n + 1)
  {
    RunThen(s, Round(c, |s.pool.workers|), Rounds(c, |s.pool.workers| + 1, n));
  }

  /** After QUIT, as many workers as one likes. */
  lemma {:induction false} RoundsAdd(s: Sys, c: nat, n: nat)
    requires Ready(s, c)
    ensures Adds(s, Rounds(c, |s.pool.workers|, n), n)
    decreases n
  {
    if n > 0 {
      RoundAdds(s, c);
      RoundsAdd(After(s, Round(c, |s.pool.workers|)), c, n - 1);
      OneRoundMore(s, c, n - 1);
    }
  }

  const QUIT_FIRST: seq<Action> := [Action.Quit, Advance, Advance, Advance]

  lemma QuitAtOnce(s: Sys, c: nat)
    requires Initial(s) && c < |s.pool.cats| && s.pool.cats[c].reserved > 0
    ensures IsRun(s, QUIT_FIRST)
    ensures var s' := After(s, QUIT_FIRST); Ready(s', c) && s'.pool.workers == [] && s'.pool.capacity == s.pool.capacity
  {
    assert s.pool.cats[c] in s.pool.cats && s.pool.cats[c].active == 0;
    ReservedNonNegative(s.pool.cats);
    var s1 := Next(s, Action.Quit);
    var s2 := Next(s1, Advance);
    var s3 := Next(s2, Advance);
    StepThen(s3, Advance, []);
    StepThen(s2, Advance, [Advance] + []);
    StepThen(s1, Advance, [Advance] + ([Advance] + []));
    StepThen(s, Action.Quit, [Advance] + ([Advance] + ([Advance] + [])));
    assert QUIT_FIRST == [Action.Quit] + ([Advance] + ([Advance] + ([Advance] + [])));
  }

  /** The run: QUIT, then `n` commands of a category with reserved threads, one after the other. */
  lemma OverrunRun(s: Sys, c: nat, n: nat)
    requires Initial(s) && c < |s.pool.cats| && s.pool.cats[c].reserved > 0
    ensures IsRun(s, QUIT_FIRST + Rounds(c, 0, n))
    ensures var p := After(s, QUIT_FIRST + Rounds(c, 0, n)).pool;
      |p.workers| == n && p.capacity == s.pool.capacity && (p.fault <==> n > p.capacity)
  {
    QuitAtOnce(s, c);
    RoundsAdd(After(s, QUIT_FIRST), c, n);
    RunThen(s, QUIT_FIRST, Rounds(c, 0, n));
    InitialInv(s);
    RunKeepsInv(s, QUIT_FIRST + Rounds(c, 0, n));
    FaultIsOverrun(After(s, QUIT_FIRST + Rounds(c, 0, n)).pool);
  }

  /** The smallest configuration in which it happens: one general thread and one reserved one. */
  lemma OverrunExample()
    ensures var p := Pool(1, 0, 0, 2, 2, [Category(1, -1, 0, 0)], 0, 0, [], [], [], [], [], [], [], [], false);
      var s := Sys(p, EMPTY_STORE, Control, [], []);
      && Initial(s) && IsRun(s, QUIT_FIRST + Rounds(0, 0, 3))
      && Overrunning(After(s, QUIT_FIRST + Rounds(0, 0, 3)).pool)
  {
    var cats := [Category(1, -1, 0, 0)];
    var p := Pool(1, 0, 0, 2, 2, cats, 0, 0, [], [], [], [], [], [], [], [], false);
    var s := Sys(p, EMPTY_STORE, Control, [], []);
    assert SumBy(cats, ReservedOf) == 1;
    OverrunRun(s, 0, 3);
  }

  /** Exactly the configurations in which no category reserves threads are safe: in every run the
      workers fit the arrays, and so nothing at all goes wrong. */
  lemma ArraysHoldIff(s: Sys)
    requires Initial(s)
    ensures (forall actions | IsRun(s, actions) :: !After(s, actions).pool.fault) <==> NoneReserved(s.pool)
  {
    InitialInv(s);
    if NoneReserved(s.pool) {
      forall actions | IsRun(s, actions) ensures !After(s, actions).pool.fault {
        RunWithin(s, actions);
        RunKeepsInv(s, actions);
        FaultIsOverrun(After(s, actions).pool);
      }
    } else {
      var c :| 0 <= c < |s.pool.cats| && s.pool.cats[c].reserved != 0;
      OverrunRun(s, c, s.pool.capacity + 1);
    }
  }
}
