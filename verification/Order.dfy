/** Order and progress of the scheduler over whole runs: per-category first-in first-out, and no
    runnable job left behind when the queues have been processed. */
module Order {
  import opened Sequences
  import opened Workers
  import opened Pool
  import opened Batches
  import opened System
  import opened PoolProofs
  import opened SystemProofs

  /** The commands of one category, in order. */
  function Of(cmds: seq<Command>, c: nat): seq<Command> {
    if cmds == [] then []
    else
      var rest, cmd := Of(cmds[..|cmds| - 1], c), cmds[|cmds| - 1];
      if cmd.cat == c then rest + [cmd] else rest
  }

  /** `xs` is `ys` with some elements left out. */
  predicate Within<T(==)>(xs: seq<T>, ys: seq<T>) {
    if xs == [] then true
    else if ys == [] then false
    else if xs[|xs| - 1] == ys[|ys| - 1] then Within(xs[..|xs| - 1], ys[..|ys| - 1])
    else Within(xs, ys[..|ys| - 1])
  }

  predicate CatRunnable(p: Pool, c: nat) {
    c < |p.cats| && Runnable(p, CategoryClass(c))
  }

  /** No command among the first `n` pending ones could be dispatched now. */
  predicate BlockedUpTo(p: Pool, n: nat)
    requires n <= |p.pending|
  {
    forall i | 0 <= i < n :: !CatRunnable(p, p.pending[i].cat)
  }

  predicate TaggedDrained(p: Pool, n: nat)
    requires n <= |p.tagged|
  {
    forall i | 0 <= i < n :: !CanRunTagged(p, i)
  }

  predicate QueueDrained(p: Pool, reply: bool) {
    QueueOf(p, reply) == [] || !Runnable(p, QueueClass(reply))
  }

  /** Nothing that is queued could be run by anybody. */
  predicate Drained(p: Pool) {
    && TaggedDrained(p, |p.tagged|) && QueueDrained(p, false) && QueueDrained(p, true)
    && BlockedUpTo(p, |p.pending|)
  }

  /** What the program counter says about the queues. */
  predicate PhaseInv(s: Sys) {
    !ShuttingDown(s.pool) ==>
      match s.phase
      case ToTagged(t) => t <= |s.pool.tagged| && TaggedDrained(s.pool, t)
      case ToQueue(reply) => TaggedDrained(s.pool, |s.pool.tagged|) && (reply ==> QueueDrained(s.pool, false))
      case Scan(i) =>
        && TaggedDrained(s.pool, |s.pool.tagged|) && QueueDrained(s.pool, false) && QueueDrained(s.pool, true)
        && i <= |s.pool.pending| && BlockedUpTo(s.pool, i)
      case Incoming => BlockedUpTo(s.pool, |s.pool.pending|)
      case Control => BlockedUpTo(s.pool, |s.pool.pending|)
      case _ => true
  }

  predicate FifoInv(s: Sys) {
    forall c | 0 <= c < |s.pool.cats| ::
      if ShuttingDown(s.pool) then Within(Of(s.started, c), Of(s.accepted, c))
      else Of(s.accepted, c) == Of(s.started, c) + Of(s.pool.pending, c)
  }

  predicate OrderInv(s: Sys) {
    && (Dispatching(s.phase) ==> !ShuttingDown(s.pool))
    && PhaseInv(s) && FifoInv(s)
  }

  // ----- sequences -----

  lemma OfAppend(cmds: seq<Command>, cmd: Command, c: nat)
    ensures Of(cmds + [cmd], c) == if cmd.cat == c then Of(cmds, c) + [cmd] else Of(cmds, c)
  {
    assert (cmds + [cmd])[..|cmds|] == cmds;
  }

  lemma {:induction false} OfNone(cmds: seq<Command>, c: nat)
    requires forall i | 0 <= i < |cmds| :: cmds[i].cat != c
    ensures Of(cmds, c) == []
  {
    if cmds != [] { OfNone(cmds[..|cmds| - 1], c); }
  }

  /** Removing the first command of its category removes the head of that category's line. */
  lemma {:induction false} OfRemove(cmds: seq<Command>, i: nat, c: nat)
    requires i < |cmds| && forall k | 0 <= k < i :: cmds[k].cat != cmds[i].cat
    ensures Of(cmds, c) == if cmds[i].cat == c then [cmds[i]] + Of(Without(cmds, i), c) else Of(Without(cmds, i), c)
  {
    var n := |cmds| - 1;
    if i == n {
      assert Without(cmds, i) == cmds[..n];
      if cmds[i].cat == c {
        OfNone(cmds[..n], c);
        assert [] + [cmds[i]] == [cmds[i]] + [];
      }
    } else {
      var rest := Of(Without(cmds[..n], i), c);
      WithoutLast(cmds, i);
      OfAppend(Without(cmds[..n], i), cmds[n], c);
      OfRemove(cmds[..n], i, c);
      if cmds[i].cat == c && cmds[n].cat == c { Associative([cmds[i]], rest, [cmds[n]]); }
    }
  }

  lemma {:induction false} PrefixWithin<T>(xs: seq<T>, ys: seq<T>)
    ensures Within(xs, xs + ys)
    decreases |ys|
  {
    if ys == [] {
      assert xs + ys == xs;
      SelfWithin(xs);
    } else {
      var n := |ys| - 1;
      assert (xs + ys)[..|xs| + n] == xs + ys[..n];
      PrefixWithin(xs, ys[..n]);
      if xs != [] && xs[|xs| - 1] == ys[n] { ShorterWithin(xs, xs + ys[..n]); }
    }
  }

  lemma {:induction false} SelfWithin<T>(xs: seq<T>)
    ensures Within(xs, xs)
  {
    if xs != [] { SelfWithin(xs[..|xs| - 1]); }
  }

  lemma {:induction false} ShorterWithin<T>(xs: seq<T>, ys: seq<T>)
    requires xs != [] && Within(xs, ys)
    ensures Within(xs[..|xs| - 1], ys)
    decreases |ys|
  {
    var xs', ys' := xs[..|xs| - 1], ys[..|ys| - 1];
    if xs[|xs| - 1] == ys[|ys| - 1] {
      assert Within(xs', ys');
      if xs' != [] && xs'[|xs'| - 1] == ys[|ys| - 1] { ShorterWithin(xs', ys'); }
    } else {
      ShorterWithin(xs, ys');
      if xs' != [] && xs'[|xs'| - 1] == ys[|ys| - 1] { ShorterWithin(xs', ys'); }
    }
  }

  lemma WithinExtend<T>(xs: seq<T>, ys: seq<T>, y: T)
    requires Within(xs, ys)
    ensures Within(xs, ys + [y]) && Within(xs + [y], ys + [y])
  {
    assert (ys + [y])[..|ys|] == ys && (xs + [y])[..|xs|] == xs;
    if xs != [] && xs[|xs| - 1] == y { ShorterWithin(xs, ys); }
  }

  // ----- nothing becomes runnable -----

  /** Every class that cannot run in `p` cannot run in `q` either. */
  predicate NoEasier(p: Pool, q: Pool) {
    && |q.cats| == |p.cats| && q.general == p.general && ActiveWorkers(q) >= ActiveWorkers(p)
    && q.batchReserved == p.batchReserved && q.replyReserved == p.replyReserved
    && q.batchActive >= p.batchActive && q.replyActive >= p.replyActive
    && (forall c | 0 <= c < |p.cats| ::
          q.cats[c].reserved == p.cats[c].reserved && q.cats[c].active >= p.cats[c].active)
  }

  lemma DispatchNoEasier(p: Pool, load: Load)
    requires TargetOk(p) && !load.Nothing? && Known(p, ClassOf(load))
    ensures NoEasier(p, Dispatch(p, load))
  {
  }

  lemma StillBlocked(p: Pool, q: Pool, n: nat)
    requires NoEasier(p, q) && n <= |p.pending| && n <= |q.pending| && q.pending[..n] == p.pending[..n]
    requires BlockedUpTo(p, n)
    ensures BlockedUpTo(q, n)
  {
    forall i | 0 <= i < n ensures !CatRunnable(q, q.pending[i].cat) {
      assert q.pending[i] == q.pending[..n][i] == p.pending[..n][i] == p.pending[i];
      assert !CatRunnable(p, p.pending[i].cat);
    }
  }

  // ----- actions -----

  /** Histories, pending commands and runnability are as before, and so is what is drained. */
  lemma QuietStep(s: Sys, s': Sys)
    requires OrderInv(s) && s'.phase == s.phase && s'.accepted == s.accepted && s'.started == s.started
    requires s'.pool.pending == s.pool.pending && s'.pool.maxWorkers == s.pool.maxWorkers
    requires |s'.pool.cats| == |s.pool.cats|
    requires s.phase.WorkerMessages? || s.phase.Timers? || s.phase.Stopped? ||
      (NoEasier(s.pool, s'.pool) && ((s.phase.Control? || s.phase.Incoming?) || SameQueues(s.pool, s'.pool)))
    ensures OrderInv(s')
  {
    if SameQueues(s.pool, s'.pool) {
      assert forall i | 0 <= i < |s.pool.tagged| :: CanRunTagged(s'.pool, i) == CanRunTagged(s.pool, i);
    }
    if s.phase.Control? || s.phase.Incoming? || s.phase.Scan? {
      if !ShuttingDown(s.pool) {
        StillBlocked(s.pool, s'.pool, if s.phase.Scan? then s.phase.pos else |s.pool.pending|);
      }
    }
  }

  predicate SameQueues(p: Pool, q: Pool) {
    && q.batchJobs == p.batchJobs && q.replyJobs == p.replyJobs && |q.tagged| == |p.tagged|
    && (forall i | 0 <= i < |p.tagged| ::
          q.tagged[i].busy == p.tagged[i].busy && q.tagged[i].queue == p.tagged[i].queue)
  }

  lemma {:induction false} EnqueueJobsFrame(p: Pool, obj: Batch, b: nat, n: nat)
    requires n <= Size(obj)
    ensures var q := EnqueueJobs(p, obj, b, n);
      && q.pending == p.pending && q.maxWorkers == p.maxWorkers && q.cats == p.cats && q.workers == p.workers
      && q.idle == p.idle
      && q.batchActive == p.batchActive && q.replyActive == p.replyActive && q.general == p.general
      && q.batchReserved == p.batchReserved && q.replyReserved == p.replyReserved
  {
    if n > 0 { EnqueueJobsFrame(p, obj, b, n - 1); }
  }

  lemma AddBatchOrder(s: Sys, obj: Batch)
    requires OrderInv(s) && (s.phase.Control? || s.phase.Incoming? || s.phase.Timers?)
    ensures OrderInv(AddBatch(s, obj))
  {
    EnqueueJobsFrame(s.pool, obj, s.store.next, Size(obj));
    QuietStep(s, AddBatch(s, obj));
  }

  /** A command that may be dispatched at once has nothing of its category waiting before it: the
      queues were processed after the last worker became free. */
  lemma AdmittedIsNext(s: Sys, cmd: Command)
    requires PoolInv(s.pool) && OrderInv(s) && (s.phase.Control? || s.phase.Incoming?)
    requires cmd.cat < |s.pool.cats| && !ShuttingDown(s.pool) && Runnable(s.pool, CategoryClass(cmd.cat))
    ensures Of(s.pool.pending, cmd.cat) == []
  {
    forall i | 0 <= i < |s.pool.pending| ensures s.pool.pending[i].cat != cmd.cat {
      assert !CatRunnable(s.pool, s.pool.pending[i].cat);
    }
    OfNone(s.pool.pending, cmd.cat);
  }

  /** A command that is accepted goes to the end of the line ... */
  lemma LineGrows(accepted: seq<Command>, started: seq<Command>, pending: seq<Command>, cmd: Command, c: nat)
    requires Of(accepted, c) == Of(started, c) + Of(pending, c)
    ensures Of(accepted + [cmd], c) == Of(started, c) + Of(pending + [cmd], c)
  {
    OfAppend(accepted, cmd, c);
    OfAppend(pending, cmd, c);
    if cmd.cat == c { Associative(Of(started, c), Of(pending, c), [cmd]); }
  }

  /** ... and if nobody of its category waits, it may as well start. */
  lemma LineMoves(accepted: seq<Command>, started: seq<Command>, pending: seq<Command>, cmd: Command, c: nat)
    requires Of(accepted, c) == Of(started, c) + Of(pending, c) && (cmd.cat == c ==> Of(pending, c) == [])
    ensures Of(accepted + [cmd], c) == Of(started + [cmd], c) + Of(pending, c)
  {
    OfAppend(accepted, cmd, c);
    OfAppend(started, cmd, c);
    if cmd.cat == c { NothingBehind(Of(started, c), cmd); }
  }

  lemma NothingBehind<T>(xs: seq<T>, x: T)
    ensures (xs + []) + [x] == (xs + [x]) + []
  {
  }

  lemma LineGrowsWithin(accepted: seq<Command>, started: seq<Command>, cmd: Command, c: nat)
    requires Within(Of(started, c), Of(accepted, c))
    ensures Within(Of(started, c), Of(accepted + [cmd], c)) && Within(Of(started + [cmd], c), Of(accepted + [cmd], c))
  {
    OfAppend(accepted, cmd, c);
    OfAppend(started, cmd, c);
    WithinExtend(Of(started, c), Of(accepted, c), cmd);
  }

  lemma AdmitFifo(s: Sys, cmd: Command)
    requires PoolInv(s.pool) && OrderInv(s) && (s.phase.Control? || s.phase.Incoming?) && cmd.cat < |s.pool.cats|
    ensures FifoInv(AdmitCommand(s, cmd))
  {
    var s' := AdmitCommand(s, cmd);
    AdmitShape(s, cmd);
    if !ShuttingDown(s.pool) && Admit(s.pool, cmd).Admitted? { AdmittedIsNext(s, cmd); }
    forall c | 0 <= c < |s.pool.cats|
      ensures if ShuttingDown(s'.pool) then Within(Of(s'.started, c), Of(s'.accepted, c))
              else Of(s'.accepted, c) == Of(s'.started, c) + Of(s'.pool.pending, c)
    {
      if ShuttingDown(s.pool) {
        LineGrowsWithin(s.accepted, s.started, cmd, c);
      } else {
        LineGrows(s.accepted, s.started, s.pool.pending, cmd, c);
        if Admit(s.pool, cmd).Admitted? { LineMoves(s.accepted, s.started, s.pool.pending, cmd, c); }
      }
    }
  }

  lemma AdmitShape(s: Sys, cmd: Command)
    requires PoolInv(s.pool) && cmd.cat < |s.pool.cats|
    ensures var s' := AdmitCommand(s, cmd);
      && s'.pool.maxWorkers == s.pool.maxWorkers && NoEasier(s.pool, s'.pool) && s'.phase == s.phase
      && match Admit(s.pool, cmd)
         case Admitted(_) =>
           && s'.pool.pending == s.pool.pending && s'.accepted == s.accepted + [cmd] && s'.started == s.started + [cmd]
           && Runnable(s.pool, CategoryClass(cmd.cat))
         case Queued(_) =>
           && s'.pool.pending == s.pool.pending + [cmd] && s'.accepted == s.accepted + [cmd] && s'.started == s.started
           && !CatRunnable(s'.pool, cmd.cat)
         case Dropped => s' == s
  {
    if Admit(s.pool, cmd).Admitted? {
      DispatchTarget(s.pool, CategoryClass(cmd.cat));
      DispatchFrame(s.pool, CommandLoad(cmd));
      DispatchNoEasier(s.pool, CommandLoad(cmd));
    }
  }

  lemma AdmitOrder(s: Sys, cmd: Command)
    requires PoolInv(s.pool) && OrderInv(s) && (s.phase.Control? || s.phase.Incoming?) && cmd.cat < |s.pool.cats|
    ensures OrderInv(AdmitCommand(s, cmd))
  {
    AdmitFifo(s, cmd);
    AdmitShape(s, cmd);
    var s', n := AdmitCommand(s, cmd), |s.pool.pending|;
    if !ShuttingDown(s.pool) {
      StillBlocked(s.pool, s'.pool, n);
      assert BlockedUpTo(s'.pool, |s'.pool.pending|);
    }
  }

  lemma QuitOrder(s: Sys)
    requires OrderInv(s) && s.phase.Control? && !ShuttingDown(s.pool)
    ensures OrderInv(s.(pool := QuitAll(s.pool)))
  {
    forall c | 0 <= c < |s.pool.cats| ensures Within(Of(s.started, c), Of(s.accepted, c)) {
      PrefixWithin(Of(s.started, c), Of(s.pool.pending, c));
    }
  }

  // ----- worker threads and reports -----

  lemma ThreadOrder(s: Sys, s': Sys)
    requires OrderInv(s) && s'.phase == s.phase && s'.accepted == s.accepted && s'.started == s.started
    requires || (exists i, w | 0 <= i < |s.pool.workers| :: s'.pool == SetWorker(s.pool, i, w))
             || (exists t, w | 0 <= t < |s.pool.tagged| :: s'.pool == SetTagged(s.pool, t, w))
    ensures OrderInv(s')
  {
    QuietStep(s, s');
  }

  lemma CompletionFrame(p: Pool, fate: Fate, reply: bool, job: BatchJob)
    ensures var q := EnqueueCompletion(p, fate, reply, job);
      q.pending == p.pending && q.maxWorkers == p.maxWorkers && q.cats == p.cats
  {
  }

  lemma PoolMessageOrder(s: Sys, w: nat)
    requires OrderInv(s) && s.phase.WorkerMessages? && w < |s.pool.workers| && s.pool.workers[w].outbox != []
    ensures OrderInv(HandlePool(s, w))
  {
    var worker := s.pool.workers[w];
    if worker.outbox[0] != Quitting && worker.load.BatchLoad? {
      CompletionFrame(PoolRan(s.pool, w), FateIn(s.store, worker.load.job), worker.load.reply,
                      BatchJob(worker.load.job.batch, -1));
    }
    QuietStep(s, HandlePool(s, w));
  }

  lemma TaggedMessageOrder(s: Sys, t: nat)
    requires OrderInv(s) && s.phase.WorkerMessages? && t < |s.pool.tagged| && s.pool.tagged[t].worker.outbox != []
    ensures OrderInv(HandleTagged(s, t))
  {
    var worker := s.pool.tagged[t].worker;
    if worker.outbox[0] != Quitting && worker.load.BatchLoad? {
      CompletionFrame(TaggedRan(s.pool, t), FateIn(s.store, worker.load.job), worker.load.reply,
                      BatchJob(worker.load.job.batch, -1));
    }
    QuietStep(s, HandleTagged(s, t));
  }

  // ----- the loop -----

  lemma ToTaggedOrder(s: Sys)
    requires PoolInv(s.pool) && OrderInv(s) && s.phase.ToTagged?
    ensures OrderInv(Proceed(s))
  {
    var p, q, t := s.pool, ProceedPool(s), s.phase.next;
    if t < |p.tagged| {
      forall i | 0 <= i < t ensures !CanRunTagged(q, i) {
        assert !CanRunTagged(p, i) && q.tagged[i] == p.tagged[i];
      }
    }
  }

  /** When a queue loop ends, whatever is left in the queue cannot run, whichever of the three loop
      conditions failed. */
  lemma LoopEndDrains(p: Pool, reply: bool)
    requires PoolInv(p) && !ShuttingDown(p) && !CanRunQueue(p, reply)
    ensures QueueDrained(p, reply)
  {
    if QueueOf(p, reply) != [] && ActiveWorkers(p) >= p.maxWorkers {
      FullPoolRunsNothing(p, QueueClass(reply));
    }
  }

  lemma RunQueueShape(p: Pool, reply: bool)
    requires PoolInv(p) && CanRunQueue(p, reply)
    ensures var q := RunQueueFront(p, reply);
      && q.pending == p.pending && q.maxWorkers == p.maxWorkers && NoEasier(p, q) && q.tagged == p.tagged
      && QueueOf(q, !reply) == QueueOf(p, !reply)
  {
    var popped, load := PopQueue(p, reply), BatchLoad(QueueOf(p, reply)[0], reply);
    DispatchTarget(p, QueueClass(reply));
    DispatchFrame(popped, load);
    DispatchNoEasier(popped, load);
  }

  lemma ToQueueOrder(s: Sys)
    requires PoolInv(s.pool) && OrderInv(s) && s.phase.ToQueue?
    ensures OrderInv(Proceed(s))
  {
    var p, reply := s.pool, s.phase.reply;
    if CanRunQueue(p, reply) {
      RunQueueShape(p, reply);
      var q := RunQueueFront(p, reply);
      assert forall i | 0 <= i < |p.tagged| :: CanRunTagged(q, i) == CanRunTagged(p, i);
    } else {
      LoopEndDrains(p, reply);
    }
  }

  lemma ScanRunFifo(s: Sys)
    requires PoolInv(s.pool) && OrderInv(s) && ScanRuns(s)
    ensures FifoInv(Proceed(s))
  {
    var p, i, s' := s.pool, s.phase.pos, Proceed(s);
    var cmd := p.pending[i];
    RunPendingShape(p, i);
    forall k | 0 <= k < i ensures p.pending[k].cat != cmd.cat {
      assert !CatRunnable(p, p.pending[k].cat);
    }
    forall c | 0 <= c < |p.cats| ensures Of(s'.accepted, c) == Of(s'.started, c) + Of(s'.pool.pending, c) {
      LineMovesOn(s.accepted, s.started, p.pending, i, c);
    }
  }

  lemma LineMovesOn(accepted: seq<Command>, started: seq<Command>, pending: seq<Command>, i: nat, c: nat)
    requires i < |pending| && forall k | 0 <= k < i :: pending[k].cat != pending[i].cat
    requires Of(accepted, c) == Of(started, c) + Of(pending, c)
    ensures Of(accepted, c) == Of(started + [pending[i]], c) + Of(Without(pending, i), c)
  {
    OfRemove(pending, i, c);
    OfAppend(started, pending[i], c);
    var xs, ys, cmd := Of(started, c), Of(Without(pending, i), c), pending[i];
    if cmd.cat == c { Associative(xs, [cmd], ys); }
  }

  lemma RunPendingShape(p: Pool, i: nat)
    requires PoolInv(p) && i < |p.pending| && CanRunPending(p, i)
    ensures var q := RunPending(p, i);
      && q.pending == Without(p.pending, i) && q.maxWorkers == p.maxWorkers && NoEasier(p, q)
      && q.tagged == p.tagged && q.batchJobs == p.batchJobs && q.replyJobs == p.replyJobs
  {
    DispatchTarget(p, CategoryClass(p.pending[i].cat));
    DispatchFrame(p, CommandLoad(p.pending[i]));
    DispatchNoEasier(p, CommandLoad(p.pending[i]));
  }

  lemma ScanRunOrder(s: Sys)
    requires PoolInv(s.pool) && OrderInv(s) && ScanRuns(s)
    ensures OrderInv(Proceed(s))
  {
    ScanRunFifo(s);
    var p, q, i := s.pool, ProceedPool(s), s.phase.pos;
    RunPendingShape(p, i);
    assert Without(p.pending, i)[..i] == p.pending[..i];
    StillBlocked(p, q, i);
    assert forall k | 0 <= k < |p.tagged| :: CanRunTagged(q, k) == CanRunTagged(p, k);
  }

  /** The scan moves on, or ends with every pending command blocked. */
  lemma ScanMovesOn(s: Sys)
    requires PoolInv(s.pool) && OrderInv(s) && s.phase.Scan? && !ScanRuns(s)
    ensures OrderInv(Proceed(s))
    ensures Proceed(s).phase.Incoming? ==> Drained(s.pool)
  {
    var p, i := s.pool, s.phase.pos;
    if i < |p.pending| && ActiveWorkers(p) >= p.maxWorkers {
      forall k | 0 <= k < |p.pending| ensures !CatRunnable(p, p.pending[k].cat) {
        if p.pending[k].cat < |p.cats| { FullPoolRunsNothing(p, CategoryClass(p.pending[k].cat)); }
      }
    }
  }

  lemma ProceedOrder(s: Sys)
    requires PoolInv(s.pool) && OrderInv(s)
    ensures OrderInv(Proceed(s))
  {
    match s.phase {
      case ToTagged(_) => ToTaggedOrder(s);
      case ToQueue(_) => ToQueueOrder(s);
      case Scan(_) => if ScanRuns(s) { ScanRunOrder(s); } else { ScanMovesOn(s); }
      case _ =>
    }
  }

  lemma NextOrder(s: Sys, a: Action)
    requires PoolInv(s.pool) && OrderInv(s) && Enabled(s, a)
    ensures OrderInv(Next(s, a))
  {
    match a {
      case SubmitBatch(threads, completion, surplus) => AddBatchOrder(s, Submission(threads, completion, surplus));
      case SubmitJob(thread) => AddBatchOrder(s, Job(thread));
      case ScheduleReply => QuietStep(s, AddReply(s));
      case Inject(cmd) => AdmitOrder(s, cmd);
      case Receive(cmd) => AdmitOrder(s, cmd);
      case AddTimer(_, _, _) => QuietStep(s, Next(s, a));
      case CancelTimer(_) => QuietStep(s, Next(s, a));
      case FireTimer(timer) => FireOrder(s, timer);
      case Quit => QuitOrder(s);
      case PoolMessage(w) => PoolMessageOrder(s, w);
      case TaggedMessage(t) => TaggedMessageOrder(s, t);
      case Advance => ProceedOrder(s);
      case PoolThread(_, _) => ThreadOrder(s, Next(s, a));
      case TaggedThread(_, _) => ThreadOrder(s, Next(s, a));
    }
  }

  lemma FireOrder(s: Sys, timer: nat)
    requires OrderInv(s) && s.phase.Timers?
    ensures OrderInv(Fire(s, timer))
  {
    if timer in s.store.timers {
      var t := s.store.timers[timer];
      if !(t.squelch && t.running) && t.thread != -1 {
        var obj := if t.squelch then NewBatch([t.thread], Rearm(timer)) else Job(t.thread);
        AddBatchOrder(s, obj);
        QuietStep(AddBatch(s, obj), Fire(s, timer));
      }
    }
  }
}
