/** Every batch job and every completion runs in the thread that was asked for: in the tagged thread
    named when it was added, or in the pool if none was. */
module Placement {
  import opened Workers
  import opened Pool
  import opened Batches
  import opened System
  import opened PoolProofs
  import opened BatchProofs
  import opened SystemProofs
  import opened Theorems
  import opened Tokens

  /** The submitter of `j` asked for `thread` (0 being the pool). */
  predicate Wants(st: Store, j: BatchJob, thread: int) {
    && j.batch in st.submitted
    && var obj := st.submitted[j.batch];
       if j.jobno == -1 then obj.Batch? && obj.completion == InThread(thread)
       else 0 <= j.jobno < Size(obj) && ThreadOf(obj, j.jobno) == thread
  }

  predicate QueuePlaced(st: Store, queue: seq<BatchJob>, thread: nat) {
    forall i | 0 <= i < |queue| :: Wants(st, queue[i], thread)
  }

  predicate SlotPlaced(st: Store, w: Worker, thread: nat) {
    Busy(w) && w.load.BatchLoad? ==> Wants(st, w.load.job, thread)
  }

  predicate TaggedPlaced(st: Store, t: Tagged, thread: nat) {
    QueuePlaced(st, t.queue, thread) && SlotPlaced(st, t.worker, thread)
  }

  predicate Placed(p: Pool, st: Store) {
    && QueuePlaced(st, p.batchJobs, 0) && QueuePlaced(st, p.replyJobs, 0)
    && (forall i | 0 <= i < |p.workers| :: SlotPlaced(st, p.workers[i], 0))
    && (forall t | 0 <= t < |p.tagged| :: TaggedPlaced(st, p.tagged[t], t + 1))
  }

  /** What was asked for is on record for good. */
  predicate Extends(st: Store, st': Store) {
    forall b | b in st.submitted :: b in st'.submitted && st'.submitted[b] == st.submitted[b]
  }

  lemma StillPlaced(p: Pool, st: Store, st': Store)
    requires Placed(p, st) && Extends(st, st')
    ensures Placed(p, st')
  {
    assert forall j, thread | Wants(st, j, thread) :: Wants(st', j, thread);
    forall t | 0 <= t < |p.tagged| ensures TaggedPlaced(st', p.tagged[t], t + 1) {
      assert TaggedPlaced(st, p.tagged[t], t + 1);
    }
  }

  /** Slots and queues are those of before, or were emptied. */
  predicate NothingNew(p: Pool, q: Pool) {
    && q.batchJobs == p.batchJobs && q.replyJobs == p.replyJobs
    && |q.workers| == |p.workers| && |q.tagged| == |p.tagged|
    && (forall i | 0 <= i < |p.workers| :: KeepsJob(p.workers[i], q.workers[i]))
    && (forall t | 0 <= t < |p.tagged| ::
          q.tagged[t].queue == p.tagged[t].queue && KeepsJob(p.tagged[t].worker, q.tagged[t].worker))
  }

  predicate KeepsJob(w: Worker, v: Worker) {
    Busy(v) ==> Busy(w) && v.load == w.load
  }

  lemma NothingNewPlaced(p: Pool, q: Pool, st: Store)
    requires Placed(p, st) && NothingNew(p, q)
    ensures Placed(q, st)
  {
    forall i | 0 <= i < |q.workers| ensures SlotPlaced(st, q.workers[i], 0) {
      assert SlotPlaced(st, p.workers[i], 0) && KeepsJob(p.workers[i], q.workers[i]);
    }
    forall t | 0 <= t < |q.tagged| ensures TaggedPlaced(st, q.tagged[t], t + 1) {
      assert TaggedPlaced(st, p.tagged[t], t + 1);
    }
  }

  // ----- queueing -----

  lemma EnqueuePlaced(p: Pool, st: Store, thread: nat, job: BatchJob)
    requires Placed(p, st) && thread <= |p.tagged| && Wants(st, job, thread)
    ensures Placed(Enqueue(p, thread, job), st) && |Enqueue(p, thread, job).tagged| == |p.tagged|
  {
    var q := Enqueue(p, thread, job);
    forall t | 0 <= t < |q.tagged| ensures TaggedPlaced(st, q.tagged[t], t + 1) {
      assert TaggedPlaced(st, p.tagged[t], t + 1);
    }
  }

  lemma {:induction false} EnqueueJobsPlaced(p: Pool, st: Store, obj: Batch, b: nat, n: nat)
    requires Placed(p, st) && n <= Size(obj) && b in st.submitted && st.submitted[b] == obj
    requires forall i | 0 <= i < Size(obj) :: ValidThread(p, ThreadOf(obj, i))
    ensures Placed(EnqueueJobs(p, obj, b, n), st) && |EnqueueJobs(p, obj, b, n).tagged| == |p.tagged|
  {
    if n > 0 {
      EnqueueJobsPlaced(p, st, obj, b, n - 1);
      EnqueuePlaced(EnqueueJobs(p, obj, b, n - 1), st, ThreadOf(obj, n - 1), BatchJob(b, n - 1));
    }
  }

  lemma AddBatchPlaced(s: Sys, obj: Batch)
    requires Placed(s.pool, s.store) && s.store.next !in s.store.submitted
    requires forall i | 0 <= i < Size(obj) :: ValidThread(s.pool, ThreadOf(obj, i))
    ensures Placed(AddBatch(s, obj).pool, AddBatch(s, obj).store)
  {
    StillPlaced(s.pool, s.store, Submit(s.store, obj));
    EnqueueJobsPlaced(s.pool, Submit(s.store, obj), obj, s.store.next, Size(obj));
  }

  lemma AddReplyPlaced(s: Sys)
    requires Placed(s.pool, s.store) && s.store.next !in s.store.submitted
    ensures Placed(AddReply(s).pool, AddReply(s).store)
  {
    StillPlaced(s.pool, s.store, Submit(s.store, Job(0)));
    forall t | 0 <= t < |s.pool.tagged| ensures TaggedPlaced(AddReply(s).store, AddReply(s).pool.tagged[t], t + 1) {
      assert TaggedPlaced(Submit(s.store, Job(0)), s.pool.tagged[t], t + 1);
    }
  }

  lemma FirePlaced(s: Sys, timer: nat)
    requires Placed(s.pool, s.store) && s.store.next !in s.store.submitted && ThreadsInv(s)
    ensures Placed(Fire(s, timer).pool, Fire(s, timer).store)
  {
    if timer in s.store.timers {
      var t := s.store.timers[timer];
      if !(t.squelch && t.running) && t.thread != -1 {
        var obj := if t.squelch then NewBatch([t.thread], Rearm(timer)) else Job(t.thread);
        AddBatchPlaced(s, obj);
        StillPlaced(AddBatch(s, obj).pool, AddBatch(s, obj).store, Fire(s, timer).store);
      }
    }
  }

  // ----- dispatching -----

  lemma DispatchPlaced(p: Pool, st: Store, load: Load)
    requires Placed(p, st) && TargetOk(p) && !load.Nothing? && Known(p, ClassOf(load))
    requires load.BatchLoad? ==> Wants(st, load.job, 0)
    ensures Placed(Dispatch(p, load), st)
  {
    var q, id := Dispatch(p, load), IdleWorkerId(p);
    DispatchFrame(p, load);
    LaunchMakesBusy(TakeIdleWorker(p).workers[id], load);
    forall i | 0 <= i < |q.workers| ensures SlotPlaced(st, q.workers[i], 0) {
      if i != id { assert q.workers[i] == p.workers[i] && SlotPlaced(st, p.workers[i], 0); }
    }
    forall t | 0 <= t < |q.tagged| ensures TaggedPlaced(st, q.tagged[t], t + 1) {
      assert TaggedPlaced(st, p.tagged[t], t + 1);
    }
  }

  lemma RunQueueFrontPlaced(p: Pool, st: Store, reply: bool)
    requires Placed(p, st) && PoolInv(p) && CanRunQueue(p, reply)
    ensures Placed(RunQueueFront(p, reply), st)
  {
    var q, job := PopQueue(p, reply), QueueOf(p, reply)[0];
    DispatchTarget(p, QueueClass(reply));
    forall t | 0 <= t < |q.tagged| ensures TaggedPlaced(st, q.tagged[t], t + 1) {
      assert TaggedPlaced(st, p.tagged[t], t + 1);
    }
    forall i | 0 <= i < |q.workers| ensures SlotPlaced(st, q.workers[i], 0) {
      assert SlotPlaced(st, p.workers[i], 0);
    }
    DispatchPlaced(q, st, BatchLoad(job, reply));
  }

  lemma RunPendingPlaced(p: Pool, st: Store, i: nat)
    requires Placed(p, st) && PoolInv(p) && i < |p.pending| && CanRunPending(p, i)
    ensures Placed(RunPending(p, i), st)
  {
    var load := CommandLoad(p.pending[i]);
    DispatchTarget(p, CategoryClass(p.pending[i].cat));
    DispatchPlaced(p, st, load);
    DispatchFrame(p, load);
    NothingNewPlaced(Dispatch(p, load), RunPending(p, i), st);
  }

  lemma RunTaggedPlaced(p: Pool, st: Store, t: nat)
    requires Placed(p, st) && t < |p.tagged| && CanRunTagged(p, t)
    ensures Placed(RunTagged(p, t), st)
  {
    var q := RunTagged(p, t);
    forall i | 0 <= i < |q.tagged| ensures TaggedPlaced(st, q.tagged[i], i + 1) {
      assert TaggedPlaced(st, p.tagged[i], i + 1);
      if i == t { assert Wants(st, p.tagged[t].queue[0], t + 1); }
    }
    forall i | 0 <= i < |q.workers| ensures SlotPlaced(st, q.workers[i], 0) {
      assert SlotPlaced(st, p.workers[i], 0);
    }
  }

  lemma ProceedPlaced(s: Sys)
    requires Placed(s.pool, s.store) && PoolInv(s.pool)
    ensures Placed(ProceedPool(s), s.store)
  {
    if ProceedPool(s) != s.pool {
      match s.phase {
        case ToTagged(t) => RunTaggedPlaced(s.pool, s.store, t);
        case ToQueue(reply) => RunQueueFrontPlaced(s.pool, s.store, reply);
        case Scan(i) => RunPendingPlaced(s.pool, s.store, i);
      }
    }
  }

  lemma AdmitPlaced(s: Sys, cmd: Command)
    requires Placed(s.pool, s.store) && PoolInv(s.pool) && cmd.cat < |s.pool.cats|
    ensures Placed(AdmitCommand(s, cmd).pool, s.store)
  {
    var p := s.pool;
    match Admit(p, cmd) {
      case Admitted(_) =>
        DispatchTarget(p, CategoryClass(cmd.cat));
        DispatchPlaced(p, s.store, CommandLoad(cmd));
      case Queued(q) => NothingNewPlaced(p, q, s.store);
      case Dropped =>
    }
  }

  // ----- reports -----

  /** The completion goes where it was asked to run. */
  lemma CompletionPlaced(p: Pool, st: Store, job: BatchJob, reply: bool, tagged: nat)
    requires Placed(p, st) && |p.tagged| == tagged
    requires job.batch in st.heap && job.batch in st.submitted && st.heap[job.batch].Batch?
    requires st.submitted[job.batch].Batch?
    requires st.heap[job.batch].completion == st.submitted[job.batch].completion
    requires FateIn(st, job).Queues? ==> FateIn(st, job).thread <= tagged
    ensures Placed(EnqueueCompletion(p, FateIn(st, job), reply, BatchJob(job.batch, -1)), st)
  {
    var fate, c := FateIn(st, job), BatchJob(job.batch, -1);
    if fate.Queues? {
      assert Wants(st, c, fate.thread);
      if fate.thread > 0 || !reply {
        EnqueuePlaced(p, st, fate.thread, c);
      } else {
        var q := EnqueueCompletion(p, fate, reply, c);
        forall t | 0 <= t < |q.tagged| ensures TaggedPlaced(st, q.tagged[t], t + 1) {
          assert TaggedPlaced(st, p.tagged[t], t + 1);
        }
      }
    }
  }

  lemma ReportPlaced(s: Sys, p: Pool, job: BatchJob, reply: bool)
    requires CoreInv(s) && Placed(p, s.store) && |p.tagged| == |s.pool.tagged| && Reportable(s.store, job)
    ensures Placed(EnqueueCompletion(p, FateIn(s.store, job), reply, BatchJob(job.batch, -1)), ReportJob(s.store, job))
  {
    var st, fate := s.store, FateIn(s.store, job);
    FateThread(s, job);
    assert BatchOk(st, job.batch);
    if st.heap[job.batch].Batch? {
      CompletionPlaced(p, st, job, reply, |p.tagged|);
    } else {
      assert !fate.Queues?;
    }
    StillPlaced(EnqueueCompletion(p, fate, reply, BatchJob(job.batch, -1)), st, ReportJob(st, job));
  }

  lemma PoolRanNothingNew(p: Pool, w: nat)
    requires w < |p.workers| && p.workers[w].outbox != [] && !p.workers[w].load.Nothing? && Legal(p.workers[w])
    ensures NothingNew(p, PoolRan(p, w))
  {
  }

  lemma TaggedRanNothingNew(p: Pool, t: nat)
    requires t < |p.tagged| && p.tagged[t].worker.outbox != [] && Legal(p.tagged[t].worker)
    ensures NothingNew(p, TaggedRan(p, t))
  {
  }

  lemma JoinNothingNew(p: Pool)
    ensures forall w | 0 <= w < |p.workers| && p.workers[w].outbox != [] :: NothingNew(p, JoinPool(p, w))
    ensures forall t | 0 <= t < |p.tagged| && p.tagged[t].worker.outbox != [] :: NothingNew(p, JoinTagged(p, t))
  {
  }

  lemma PoolMessagePlaced(s: Sys, w: nat)
    requires CoreInv(s) && Placed(s.pool, s.store) && w < |s.pool.workers| && s.pool.workers[w].outbox != []
    ensures Placed(HandlePool(s, w).pool, HandlePool(s, w).store)
  {
    var worker, p := s.pool.workers[w], s.pool;
    assert Legal(worker);
    if worker.outbox[0] == Quitting {
      JoinNothingNew(p);
      NothingNewPlaced(p, JoinPool(p, w), s.store);
    } else {
      PoolRanNothingNew(p, w);
      NothingNewPlaced(p, PoolRan(p, w), s.store);
      if worker.load.BatchLoad? {
        RanIsReportable(s, worker.load.job, worker);
        ReportPlaced(s, PoolRan(p, w), worker.load.job, worker.load.reply);
      }
    }
  }

  lemma TaggedMessagePlaced(s: Sys, t: nat)
    requires CoreInv(s) && Placed(s.pool, s.store) && t < |s.pool.tagged| && s.pool.tagged[t].worker.outbox != []
    ensures Placed(HandleTagged(s, t).pool, HandleTagged(s, t).store)
  {
    var worker, p := s.pool.tagged[t].worker, s.pool;
    assert Legal(worker) && (Busy(worker) ==> worker.load.BatchLoad?);
    if worker.outbox[0] == Quitting {
      JoinNothingNew(p);
      NothingNewPlaced(p, JoinTagged(p, t), s.store);
    } else {
      TaggedRanNothingNew(p, t);
      NothingNewPlaced(p, TaggedRan(p, t), s.store);
      RanIsReportable(s, worker.load.job, worker);
      ReportPlaced(s, TaggedRan(p, t), worker.load.job, worker.load.reply);
    }
  }

  lemma RanIsReportable(s: Sys, job: BatchJob, w: Worker)
    requires BatchesInv(s) && HoldsRun(w, job)
    requires w in s.pool.workers || exists t :: t in s.pool.tagged && t.worker == w
    ensures Reportable(s.store, job)
  {
    var p := s.pool;
    if w in p.workers {
      var i :| 0 <= i < |p.workers| && p.workers[i] == w;
      WorkersHold(p.workers, i, job);
    } else {
      var i :| 0 <= i < |p.tagged| && p.tagged[i].worker == w;
      TaggedHold(p.tagged, i, job);
    }
    assert PostOf(p)(job) == Post(p, job) > 0;
    ReportedJobIsLive(PreOf(p), PostOf(p), s.store, job);
  }

  // ----- threads and QUIT -----

  lemma PoolThreadNothingNew(p: Pool, w: nat)
    requires w < |p.workers| && CanStep(p.workers[w]) && Legal(p.workers[w])
    ensures NothingNew(p, SetWorker(p, w, ThreadStep(p.workers[w])))
  {
    ThreadStepKeepsStatus(p.workers[w]);
  }

  lemma TaggedThreadNothingNew(p: Pool, t: nat)
    requires t < |p.tagged| && CanStep(p.tagged[t].worker) && Legal(p.tagged[t].worker)
    ensures NothingNew(p, SetTagged(p, t, ThreadStep(p.tagged[t].worker)))
  {
    ThreadStepKeepsStatus(p.tagged[t].worker);
  }

  lemma QuitNothingNew(p: Pool)
    ensures NothingNew(p, QuitAll(p))
  {
  }

  // ----- every step -----

  lemma NextIsNew(s: Sys)
    requires BatchesInv(s)
    ensures s.store.next !in s.store.submitted
  {
  }

  lemma TimersPlaced(s: Sys, st': Store)
    requires Placed(s.pool, s.store) && st'.submitted == s.store.submitted
    ensures Placed(s.pool, st')
  {
    StillPlaced(s.pool, s.store, st');
  }

  lemma QuitPlaced(p: Pool, st: Store)
    requires Placed(p, st)
    ensures Placed(QuitAll(p), st)
  {
    QuitNothingNew(p);
    NothingNewPlaced(p, QuitAll(p), st);
  }

  lemma NewBatchPlaced(s: Sys, a: Action)
    requires CoreInv(s) && Placed(s.pool, s.store) && Enabled(s, a) && (a.SubmitBatch? || a.SubmitJob?)
    ensures Placed(Next(s, a).pool, Next(s, a).store)
  {
    NextIsNew(s);
    AddBatchPlaced(s, if a.SubmitBatch? then Submission(a.threads, a.completion, a.surplus) else Job(a.thread));
  }

  lemma NextPlaced(s: Sys, a: Action)
    requires CoreInv(s) && Placed(s.pool, s.store) && Enabled(s, a)
    ensures Placed(Next(s, a).pool, Next(s, a).store)
  {
    NextIsNew(s);
    match a {
      case SubmitBatch(_, _, _) => NewBatchPlaced(s, a);
      case SubmitJob(_) => NewBatchPlaced(s, a);
      case ScheduleReply => AddReplyPlaced(s);
      case Inject(cmd) => AdmitPlaced(s, cmd);
      case Receive(cmd) => AdmitPlaced(s, cmd);
      case AddTimer(timer, squelch, thread) => TimersPlaced(s, Arm(s.store, timer, squelch, thread));
      case CancelTimer(timer) => TimersPlaced(s, s.store.(armed := s.store.armed - {timer}));
      case FireTimer(timer) => FirePlaced(s, timer);
      case Quit => QuitPlaced(s.pool, s.store);
      case PoolMessage(w) => PoolMessagePlaced(s, w);
      case TaggedMessage(t) => TaggedMessagePlaced(s, t);
      case Advance => ProceedPlaced(s);
      case PoolThread(_, _) => PoolThreadPlaced(s, a);
      case TaggedThread(_, _) => TaggedThreadPlaced(s, a);
    }
  }

  lemma PoolThreadPlaced(s: Sys, a: Action)
    requires PoolInv(s.pool) && Placed(s.pool, s.store) && a.PoolThread? && Enabled(s, a)
    ensures Placed(Next(s, a).pool, Next(s, a).store)
  {
    assert Legal(s.pool.workers[a.worker]);
    PoolThreadNothingNew(s.pool, a.worker);
    NothingNewPlaced(s.pool, Next(s, a).pool, s.store);
    StillPlaced(Next(s, a).pool, s.store, Next(s, a).store);
  }

  lemma TaggedThreadPlaced(s: Sys, a: Action)
    requires PoolInv(s.pool) && Placed(s.pool, s.store) && a.TaggedThread? && Enabled(s, a)
    ensures Placed(Next(s, a).pool, Next(s, a).store)
  {
    assert Legal(s.pool.tagged[a.tagged].worker);
    TaggedThreadNothingNew(s.pool, a.tagged);
    NothingNewPlaced(s.pool, Next(s, a).pool, s.store);
    StillPlaced(Next(s, a).pool, s.store, Next(s, a).store);
  }

  lemma {:induction false} RunPlaced(s: Sys, actions: seq<Action>)
    requires Inv(s) && Placed(s.pool, s.store) && IsRun(s, actions)
    ensures Placed(After(s, actions).pool, After(s, actions).store)
    decreases |actions|
  {
    if actions != [] {
      NextPlaced(s, actions[0]);
      NextKeepsInv(s, actions[0]);
      RunPlaced(Next(s, actions[0]), actions[1..]);
    }
  }

  /** In every reachable state a pool worker that has a batch job was given one that asked for no
      thread, and a tagged worker one that asked for that very thread, completions included. */
  lemma JobsRunWhereAsked(s: Sys)
    requires Reachable(s)
    ensures forall i | 0 <= i < |s.pool.workers| :: SlotPlaced(s.store, s.pool.workers[i], 0)
    ensures forall t | 0 <= t < |s.pool.tagged| :: TaggedPlaced(s.store, s.pool.tagged[t], t + 1)
  {
    var s0, actions :| Initial(s0) && IsRun(s0, actions) && After(s0, actions) == s;
    InitialInv(s0);
    assert forall t | 0 <= t < |s0.pool.tagged| :: s0.pool.tagged[t] in s0.pool.tagged;
    RunPlaced(s0, actions);
  }

  /** A timer that fires starts one job, of a batch of its own, in the thread it was added with; one
      that runs in the proxy, or a squelched one whose last job is not over, starts none. */
  lemma TimerStartsOneJob(s: Sys, timer: nat, k: BatchJob)
    requires Reachable(s) && timer in s.store.timers
    ensures var t, s', j := s.store.timers[timer], Fire(s, timer), BatchJob(s.store.next, 0);
      if t.thread == -1 || (t.squelch && t.running) then s' == s
      else
        && Wants(s'.store, j, t.thread) && j !in s.store.created
        && s'.store.created[k] == s.store.created[k] + One(k == j)
        && Pre(s'.pool, k) == Pre(s.pool, k) + One(k == j) && Post(s'.pool, k) == Post(s.pool, k)
        && timer in s'.store.timers && s'.store.timers[timer].running == t.squelch
  {
    ReachableInv(s);
    var t := s.store.timers[timer];
    if t.thread != -1 && !(t.squelch && t.running) {
      OneJobAdded(s, if t.squelch then NewBatch([t.thread], Rearm(timer)) else Job(t.thread), k);
    }
  }

  lemma OneJobAdded(s: Sys, obj: Batch, k: BatchJob)
    requires BatchesInv(s) && Size(obj) == 1 && ValidThread(s.pool, ThreadOf(obj, 0))
    ensures var s', j := AddBatch(s, obj), BatchJob(s.store.next, 0);
      && Wants(s'.store, j, ThreadOf(obj, 0)) && j !in s.store.created
      && s'.store.created[k] == s.store.created[k] + One(k == j)
      && Pre(s'.pool, k) == Pre(s.pool, k) + One(k == j) && Post(s'.pool, k) == Post(s.pool, k)
  {
    NextIsNew(s);
    EnqueueJobsMoves(s.pool, obj, s.store.next, 1, k);
    JobsOfStep(s.store.next, 1, k);
  }
}
