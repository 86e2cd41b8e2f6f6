/** What holds in every reachable state of the machine, for every configuration, every input and
    every interleaving of the proxy thread with the worker threads. */
module Theorems {
  import opened Workers
  import opened Pool
  import opened Batches
  import opened System
  import opened PoolProofs
  import opened BatchProofs
  import opened Tokens
  import opened SystemProofs
  import opened Order

  ghost predicate Reachable(s: Sys) {
    exists s0, actions :: Initial(s0) && IsRun(s0, actions) && After(s0, actions) == s
  }

  predicate StoppedInv(s: Sys) {
    s.phase.Stopped? ==> ShuttingDown(s.pool) && AllJoined(s.pool)
  }

  ghost predicate Inv(s: Sys) {
    CoreInv(s) && OrderInv(s) && StoppedInv(s)
  }

  // ----- the invariant holds in every reachable state -----

  lemma {:induction false} NoTokens(p: Pool, n: nat, j: BatchJob)
    requires n <= |p.tagged| && forall i | 0 <= i < |p.tagged| :: p.tagged[i] == Tagged(TAGGED_WORKER, false, [], [])
    ensures TaggedPre(p.tagged[..n], j) == 0 && TaggedPost(p.tagged[..n], j) == 0
  {
    if n > 0 {
      assert p.tagged[..n][..n - 1] == p.tagged[..n - 1];
      NoTokens(p, n - 1, j);
    }
  }

  lemma {:induction false} SumsOfZero(cats: seq<Category>)
    requires forall c | c in cats :: c.active == 0
    ensures SumBy(cats, ActiveOf) == 0 && SumBy(cats, OverOf) == 0
  {
    if cats != [] { SumsOfZero(cats[1..]); }
  }

  lemma InitialPool(s: Sys)
    requires Initial(s)
    ensures PoolInv(s.pool)
  {
    SumsOfZero(s.pool.cats);
    assert forall i | 0 <= i < |s.pool.tagged| :: s.pool.tagged[i] in s.pool.tagged;
    assert forall c | 0 <= c < |s.pool.cats| :: s.pool.cats[c] in s.pool.cats;
    assert PendingOk(s.pool);
    ReservedNonNegative(s.pool.cats);
  }

  lemma InitialInv(s: Sys)
    requires Initial(s)
    ensures Inv(s)
  {
    InitialPool(s);
    var p := s.pool;
    forall j ensures PreOf(p)(j) == 0 && PostOf(p)(j) == 0 {
      assert forall i | 0 <= i < |p.tagged| :: p.tagged[i] in p.tagged;
      NoTokens(p, |p.tagged|, j);
      assert p.tagged[..|p.tagged|] == p.tagged;
    }
    assert BatchesInv(s);
  }

  lemma StoppedStays(s: Sys, a: Action)
    requires CoreInv(s) && StoppedInv(s) && Enabled(s, a)
    ensures StoppedInv(Next(s, a))
  {
    if s.phase.Stopped? {
      NobodyMoves(s.pool);
    } else if !a.Advance? {
      OnlyLoopMoves(s, a);
    }
  }

  lemma OnlyLoopMoves(s: Sys, a: Action)
    requires Enabled(s, a) && !a.Advance?
    ensures Next(s, a).phase == s.phase
  {
  }

  lemma NobodyMoves(p: Pool)
    requires PoolInv(p) && ShuttingDown(p) && AllJoined(p)
    ensures forall i | 0 <= i < |p.workers| :: !CanStep(p.workers[i])
    ensures forall t | 0 <= t < |p.tagged| :: !CanStep(p.tagged[t].worker)
  {
    assert forall i | 0 <= i < |p.workers| :: Legal(p.workers[i]);
    assert forall t | 0 <= t < |p.tagged| :: Legal(p.tagged[t].worker);
  }

  lemma NextKeepsInv(s: Sys, a: Action)
    requires Inv(s) && Enabled(s, a)
    ensures Inv(Next(s, a))
  {
    NextInv(s, a);
    NextOrder(s, a);
    StoppedStays(s, a);
  }

  lemma {:induction false} RunKeepsInv(s: Sys, actions: seq<Action>)
    requires Inv(s) && IsRun(s, actions)
    ensures Inv(After(s, actions))
    decreases |actions|
  {
    if actions != [] {
      NextKeepsInv(s, actions[0]);
      RunKeepsInv(Next(s, actions[0]), actions[1..]);
    }
  }

  lemma ReachableInv(s: Sys)
    requires Reachable(s)
    ensures Inv(s)
  {
    var s0, actions :| Initial(s0) && IsRun(s0, actions) && After(s0, actions) == s;
    InitialInv(s0);
    RunKeepsInv(s0, actions);
  }

  // ----- the thread pool -----

  /** What the code relies on without testing it: no slot is written while a thread may read it, no
      index is out of range, no counter under-runs, no thread is joined twice or alive, no deleted
      batch is touched, no missing job is run.  The one thing that can fail is the size of the worker
      arrays, and only after QUIT. */
  lemma NoFault(s: Sys)
    requires Reachable(s)
    ensures !s.store.fault && (s.pool.fault <==> Overrunning(s.pool))
    ensures !ShuttingDown(s.pool) ==> !s.pool.fault
  {
    ReachableInv(s);
    FaultIsOverrun(s.pool);
  }

  lemma FaultIsOverrun(p: Pool)
    requires PoolInv(p)
    ensures (p.fault <==> Overrunning(p)) && (!ShuttingDown(p) ==> !p.fault)
  {
  }

  /** Reservations, in every reachable state, before and after QUIT; before QUIT the workers that are
      not idle are those that run something, and all fit the arrays. */
  lemma PoolBounds(s: Sys)
    requires Reachable(s)
    ensures Overrun(s.pool) <= s.pool.general
    ensures TotalActive(s.pool) + Unfilled(s.pool) <= s.pool.capacity
    ensures forall k | Known(s.pool, k) ::
      TotalActive(s.pool) - Active(s.pool, k) <= s.pool.capacity - Reserved(s.pool, k)
    ensures TotalActive(s.pool) <= ActiveWorkers(s.pool)
    ensures !ShuttingDown(s.pool) ==>
      && ActiveWorkers(s.pool) == TotalActive(s.pool)
      && |s.pool.workers| <= s.pool.capacity && |s.pool.idle| <= s.pool.capacity
  {
    ReachableInv(s);
    ReservationsHeld(s.pool);
    forall k | Known(s.pool, k)
      ensures TotalActive(s.pool) - Active(s.pool, k) <= s.pool.capacity - Reserved(s.pool, k)
    {
      OthersLeaveReservation(s.pool, k);
    }
  }

  /** Counters and queues agree with what they count; queue limits are respected. */
  lemma Coherence(s: Sys, c: nat)
    requires Reachable(s) && c < |s.pool.cats|
    ensures var cat := s.pool.cats[c];
      && cat.active == CountBusy(s.pool.workers, CategoryClass(c))
      && cat.queued == CountPending(s.pool.pending, c)
      && (cat.maxQueue >= 0 ==> cat.queued <= cat.maxQueue)
    ensures forall i | 0 <= i < |s.pool.workers| :: i in s.pool.idle <==> Resting(s.pool.workers[i])
    ensures forall i, j | 0 <= i < j < |s.pool.idle| :: s.pool.idle[i] != s.pool.idle[j]
  {
    ReachableInv(s);
  }

  /** When the loop leaves `proxy_process_queue`, nothing that is still queued could run. */
  lemma WorkConservation(s: Sys)
    requires Reachable(s) && s.phase.Scan? && Proceed(s).phase.Incoming?
    ensures Drained(Proceed(s).pool)
  {
    ReachableInv(s);
    ScanMovesOn(s);
  }

  // ----- slots -----

  /** The slot of a pool worker that has been given a job keeps that job until the proxy has handled
      the worker's report, whatever anybody does, unless the array of the slots is overrun. */
  lemma SlotStable(s: Sys, a: Action, w: nat)
    requires Reachable(s) && Enabled(s, a) && w < |s.pool.workers| && Busy(s.pool.workers[w])
    requires !Overrunning(Next(s, a).pool)
    ensures w < |Next(s, a).pool.workers| && Next(s, a).pool.workers[w].load == s.pool.workers[w].load
    ensures Busy(Next(s, a).pool.workers[w]) || a == PoolMessage(w)
  {
    ReachableInv(s);
    SlotKept(s, a, w);
  }

  /** Likewise for the slot of a tagged worker, in every state. */
  lemma TaggedSlotStable(s: Sys, a: Action, t: nat)
    requires Reachable(s) && Enabled(s, a) && t < |s.pool.tagged| && Busy(s.pool.tagged[t].worker)
    ensures t < |Next(s, a).pool.tagged| && Next(s, a).pool.tagged[t].worker.load == s.pool.tagged[t].worker.load
    ensures Busy(Next(s, a).pool.tagged[t].worker) || a == TaggedMessage(t)
  {
    ReachableInv(s);
    TaggedSlotKept(s, a, t);
  }

  lemma TaggedSlotKept(s: Sys, a: Action, t: nat)
    requires PoolInv(s.pool) && Enabled(s, a) && t < |s.pool.tagged| && Busy(s.pool.tagged[t].worker)
    ensures t < |Next(s, a).pool.tagged| && Next(s, a).pool.tagged[t].worker.load == s.pool.tagged[t].worker.load
    ensures Busy(Next(s, a).pool.tagged[t].worker) || a == TaggedMessage(t)
  {
    match a {
      case SubmitBatch(threads, completion, surplus) =>
        EnqueueJobsTagged(s.pool, Submission(threads, completion, surplus), s.store.next, |threads|);
      case SubmitJob(thread) => EnqueueJobsTagged(s.pool, Job(thread), s.store.next, 1);
      case FireTimer(timer) => FireTagged(s, timer);
      case Inject(cmd) => AdmitTagged(s.pool, cmd);
      case Receive(cmd) => AdmitTagged(s.pool, cmd);
      case PoolMessage(w) => PoolMessageTagged(s, w, t);
      case TaggedMessage(u) => TaggedMessageTagged(s, u, t);
      case Advance => AdvanceTagged(s, t);
      case TaggedThread(u, _) =>
        assert Legal(s.pool.tagged[u].worker);
        ThreadStepKeepsStatus(s.pool.tagged[u].worker);
      case _ =>
    }
  }

  /** Queueing touches no slot. */
  predicate SameSlots(p: Pool, q: Pool) {
    |q.tagged| == |p.tagged| && forall t | 0 <= t < |p.tagged| :: q.tagged[t].worker == p.tagged[t].worker
  }

  lemma {:induction false} EnqueueJobsTagged(p: Pool, obj: Batch, b: nat, n: nat)
    requires n <= Size(obj)
    ensures SameSlots(p, EnqueueJobs(p, obj, b, n))
  {
    if n > 0 { EnqueueJobsTagged(p, obj, b, n - 1); }
  }

  lemma FireTagged(s: Sys, timer: nat)
    ensures SameSlots(s.pool, Fire(s, timer).pool)
  {
    if timer in s.store.timers {
      var t := s.store.timers[timer];
      EnqueueJobsTagged(s.pool, NewBatch([t.thread], Rearm(timer)), s.store.next, 1);
      EnqueueJobsTagged(s.pool, Job(t.thread), s.store.next, 1);
    }
  }

  lemma AdmitTagged(p: Pool, cmd: Command)
    requires PoolInv(p) && cmd.cat < |p.cats|
    ensures !Admit(p, cmd).Dropped? ==> Admit(p, cmd).pool.tagged == p.tagged
  {
    if Admit(p, cmd).Admitted? {
      DispatchTarget(p, CategoryClass(cmd.cat));
      DispatchFrame(p, CommandLoad(cmd));
    }
  }

  lemma PoolMessageTagged(s: Sys, w: nat, t: nat)
    requires w < |s.pool.workers| && s.pool.workers[w].outbox != [] && t < |s.pool.tagged|
    ensures SameSlots(s.pool, HandlePool(s, w).pool)
  {
    if s.pool.workers[w].outbox[0] != Quitting && !s.pool.workers[w].load.Nothing? { PoolRanTagged(s.pool, w); }
  }

  lemma TaggedMessageTagged(s: Sys, u: nat, t: nat)
    requires u < |s.pool.tagged| && s.pool.tagged[u].worker.outbox != [] && t < |s.pool.tagged|
    ensures |HandleTagged(s, u).pool.tagged| == |s.pool.tagged|
    ensures HandleTagged(s, u).pool.tagged[t].worker.load == s.pool.tagged[t].worker.load
    ensures u != t ==> HandleTagged(s, u).pool.tagged[t].worker == s.pool.tagged[t].worker
  {
    var worker := s.pool.tagged[u].worker;
    if worker.outbox[0] != Quitting && worker.load.BatchLoad? {
      var job := worker.load.job;
      CompletionSlots(TaggedRan(s.pool, u), FateIn(s.store, job), worker.load.reply, BatchJob(job.batch, -1));
    }
  }

  lemma CompletionSlots(p: Pool, fate: Fate, reply: bool, job: BatchJob)
    ensures SameSlots(p, EnqueueCompletion(p, fate, reply, job))
  {
  }

  lemma AdvanceTagged(s: Sys, t: nat)
    requires PoolInv(s.pool) && t < |s.pool.tagged| && Busy(s.pool.tagged[t].worker)
    ensures t < |ProceedPool(s).tagged| && ProceedPool(s).tagged[t].worker == s.pool.tagged[t].worker
  {
    var p := s.pool;
    if ProceedPool(s) != p {
      match s.phase {
        case ToTagged(_) =>
        case ToQueue(reply) => QueueFrontFrame(p, reply);
        case Scan(i) =>
          DispatchTarget(p, CategoryClass(p.pending[i].cat));
          DispatchFrame(p, CommandLoad(p.pending[i]));
      }
    }
  }

  lemma SlotKept(s: Sys, a: Action, w: nat)
    requires PoolInv(s.pool) && (Dispatching(s.phase) ==> !ShuttingDown(s.pool))
    requires Enabled(s, a) && w < |s.pool.workers| && Busy(s.pool.workers[w])
    ensures w < |Next(s, a).pool.workers| && Next(s, a).pool.workers[w].load == s.pool.workers[w].load
    ensures Busy(Next(s, a).pool.workers[w]) || a == PoolMessage(w)
  {
    match a {
      case SubmitBatch(threads, completion, surplus) =>
        EnqueueJobsFrame(s.pool, Submission(threads, completion, surplus), s.store.next, |threads|);
      case SubmitJob(thread) => EnqueueJobsFrame(s.pool, Job(thread), s.store.next, 1);
      case FireTimer(timer) => FireSlots(s, timer);
      case Inject(cmd) => AdmitSlots(s.pool, cmd, w);
      case Receive(cmd) => AdmitSlots(s.pool, cmd, w);
      case PoolMessage(v) => PoolMessageSlots(s, v, w);
      case TaggedMessage(t) => TaggedMessageSlots(s, t);
      case Advance => AdvanceSlots(s, w);
      case PoolThread(v, _) => assert Legal(s.pool.workers[v]); ThreadStepKeepsStatus(s.pool.workers[v]);
      case _ =>
    }
  }

  lemma DispatchSlots(p: Pool, load: Load, w: nat)
    requires TargetOk(p) && !load.Nothing? && Known(p, ClassOf(load)) && w < |p.workers| && Busy(p.workers[w])
    ensures w < |Dispatch(p, load).workers| && Dispatch(p, load).workers[w] == p.workers[w]
  {
    DispatchFrame(p, load);
    if w == IdleWorkerId(p) { LaunchMakesBusy(TakeIdleWorker(p).workers[w], load); }
  }

  lemma FireSlots(s: Sys, timer: nat)
    ensures Fire(s, timer).pool.workers == s.pool.workers
  {
    if timer in s.store.timers {
      var t := s.store.timers[timer];
      EnqueueJobsFrame(s.pool, NewBatch([t.thread], Rearm(timer)), s.store.next, 1);
      EnqueueJobsFrame(s.pool, Job(t.thread), s.store.next, 1);
    }
  }

  lemma AdmitSlots(p: Pool, cmd: Command, w: nat)
    requires PoolInv(p) && cmd.cat < |p.cats| && w < |p.workers| && Busy(p.workers[w])
    ensures !Admit(p, cmd).Dropped? ==>
      w < |Admit(p, cmd).pool.workers| && Admit(p, cmd).pool.workers[w] == p.workers[w]
  {
    if Admit(p, cmd).Admitted? {
      DispatchTarget(p, CategoryClass(cmd.cat));
      DispatchSlots(p, CommandLoad(cmd), w);
    }
  }

  lemma PoolMessageSlots(s: Sys, v: nat, w: nat)
    requires v < |s.pool.workers| && s.pool.workers[v].outbox != [] && w < |s.pool.workers|
    ensures |HandlePool(s, v).pool.workers| == |s.pool.workers|
    ensures HandlePool(s, v).pool.workers[w].load == s.pool.workers[w].load
    ensures v != w ==> HandlePool(s, v).pool.workers[w] == s.pool.workers[w]
  {
    var worker := s.pool.workers[v];
    if worker.outbox[0] != Quitting && !worker.load.Nothing? {
      PoolRanSlots(s.pool, v, w);
      assert HandlePool(s, v).pool.workers == PoolRan(s.pool, v).workers;
    }
  }

  lemma PoolRanSlots(p: Pool, v: nat, w: nat)
    requires v < |p.workers| && p.workers[v].outbox != [] && !p.workers[v].load.Nothing? && w < |p.workers|
    ensures |PoolRan(p, v).workers| == |p.workers| && PoolRan(p, v).workers[w].load == p.workers[w].load
    ensures v != w ==> PoolRan(p, v).workers[w] == p.workers[w]
  {
  }

  lemma TaggedMessageSlots(s: Sys, t: nat)
    requires t < |s.pool.tagged| && s.pool.tagged[t].worker.outbox != []
    ensures HandleTagged(s, t).pool.workers == s.pool.workers
  {
  }

  lemma AdvanceSlots(s: Sys, w: nat)
    requires PoolInv(s.pool) && (Dispatching(s.phase) ==> !ShuttingDown(s.pool)) && w < |s.pool.workers|
    requires Busy(s.pool.workers[w])
    ensures w < |ProceedPool(s).workers| && ProceedPool(s).workers[w] == s.pool.workers[w]
  {
    if ProceedPool(s) != s.pool {
      match s.phase {
        case ToTagged(_) =>
        case ToQueue(reply) => QueueFrontSlots(s.pool, reply, w);
        case Scan(i) => RunPendingSlots(s.pool, i, w);
      }
    }
  }

  lemma QueueFrontSlots(p: Pool, reply: bool, w: nat)
    requires PoolInv(p) && CanRunQueue(p, reply) && w < |p.workers| && Busy(p.workers[w])
    ensures w < |RunQueueFront(p, reply).workers| && RunQueueFront(p, reply).workers[w] == p.workers[w]
  {
    DispatchTarget(p, QueueClass(reply));
    DispatchSlots(PopQueue(p, reply), BatchLoad(QueueOf(p, reply)[0], reply), w);
  }

  lemma RunPendingSlots(p: Pool, i: nat, w: nat)
    requires PoolInv(p) && i < |p.pending| && CanRunPending(p, i) && w < |p.workers| && Busy(p.workers[w])
    ensures w < |RunPending(p, i).workers| && RunPending(p, i).workers[w] == p.workers[w]
  {
    DispatchTarget(p, CategoryClass(p.pending[i].cat));
    DispatchSlots(p, CommandLoad(p.pending[i]), w);
  }

  /** The channels never hold more than one message each way (plus the START of a tagged thread). */
  lemma ChannelsBounded(s: Sys, w: Worker)
    requires Reachable(s) && (w in s.pool.workers || exists t :: t in s.pool.tagged && t.worker == w)
    ensures |w.outbox| <= 1 && |w.inbox| <= 2 && (|w.inbox| == 2 ==> w.inbox[0] == Start)
    ensures !(w.inbox != [] && w.outbox != [])
    ensures w.quitsSent <= 1 && w.joins <= w.quitsSent && (w.quitsSent == 1 ==> Run !in w.inbox && !w.thread.Working?)
  {
    ReachableInv(s);
    LegalChannels(w);
  }

  lemma LegalChannels(w: Worker)
    requires Legal(w)
    ensures |w.outbox| <= 1 && |w.inbox| <= 2 && (|w.inbox| == 2 ==> w.inbox[0] == Start)
    ensures !(w.inbox != [] && w.outbox != [])
    ensures w.quitsSent <= 1 && w.joins <= w.quitsSent && (w.quitsSent == 1 ==> Run !in w.inbox && !w.thread.Working?)
  {
  }

  // ----- batches -----

  /** The life of every batch ever submitted. */
  lemma BatchLifecycle(s: Sys, b: nat)
    requires Reachable(s) && b in s.store.submitted
    // every job is queued once and run at most once; the completion likewise
    ensures forall i | 0 <= i < Size(s.store.submitted[b]) ::
      s.store.ran[BatchJob(b, i)] <= s.store.created[BatchJob(b, i)] == 1
    ensures s.store.ran[BatchJob(b, -1)] <= s.store.created[BatchJob(b, -1)] <= 1
    // the completion is queued (let alone run) only after all jobs were run and reported, and it
    // receives the outcome of every job in order
    ensures BatchJob(b, -1) in s.store.created ==>
      && HasCompletion(s.store.submitted[b]) && Surplus(s.store.submitted[b]) == 0
      && AllFinished(s.store, b, Size(s.store.submitted[b]))
    ensures BatchJob(b, -1) in s.store.ran ==>
      DeliveredOk(s.store, b) && forall i | 0 <= i < Size(s.store.submitted[b]) :: s.store.delivered[b][i] != NotRun
    // it is deleted at most once, and then everything it had to do is done; never if it counts jobs
    // that it does not have
    ensures s.store.deleted[b] <= 1 && (s.store.deleted[b] == 1 <==> b !in s.store.heap)
    ensures b !in s.store.heap ==>
      && Surplus(s.store.submitted[b]) == 0
      && (forall i | 0 <= i < Size(s.store.submitted[b]) :: s.store.ran[BatchJob(b, i)] == 1)
      && s.store.ran[BatchJob(b, -1)] == (if HasCompletion(s.store.submitted[b]) then 1 else 0)
  {
    ReachableInv(s);
    ReachableOutcomes(s);
    assert BatchOk(s.store, b);
    LedgerOrder(PreOf(s.pool), PostOf(s.pool), s.store);
    if BatchJob(b, -1) in s.store.created { NoSurplus(s.store, b); }
  }

  /** Only a batch that counts its own jobs and no others comes to its completion. */
  lemma NoSurplus(st: Store, b: nat)
    requires b in st.submitted && BatchOk(st, b) && BatchJob(b, -1) in st.created
    ensures Surplus(st.submitted[b]) == 0
  {
    assert Unfinished(st.finished, b, Size(st.submitted[b])) >= 0;
  }

  /** Every recorded outcome is a value or an exception. */
  predicate OutcomesInv(st: Store) {
    forall j | j in st.outcomes :: st.outcomes[j] != NotRun
  }

  lemma NextOutcomes(s: Sys, a: Action)
    requires OutcomesInv(s.store) && Enabled(s, a)
    ensures OutcomesInv(Next(s, a).store)
  {
    match a {
      case PoolThread(w, outcome) => RunOutcome(s.store, s.pool.workers[w], outcome);
      case TaggedThread(t, outcome) => RunOutcome(s.store, s.pool.tagged[t].worker, outcome);
      case _ => SameOutcomes(s, a);
    }
  }

  lemma RunOutcome(st: Store, w: Worker, outcome: Outcome)
    requires OutcomesInv(st) && outcome != NotRun
    ensures OutcomesInv(RunBy(st, w, outcome))
  {
  }

  lemma SameOutcomes(s: Sys, a: Action)
    requires Enabled(s, a) && !a.PoolThread? && !a.TaggedThread?
    ensures Next(s, a).store.outcomes == s.store.outcomes
  {
    match a {
      case FireTimer(timer) => FireOutcomes(s, timer);
      case PoolMessage(w) => PoolMessageOutcomes(s, w);
      case TaggedMessage(t) => TaggedMessageOutcomes(s, t);
      case Inject(cmd) => AdmitOutcomes(s, cmd);
      case Receive(cmd) => AdmitOutcomes(s, cmd);
      case _ =>
    }
  }

  lemma FireOutcomes(s: Sys, timer: nat)
    ensures Fire(s, timer).store.outcomes == s.store.outcomes
  {
  }

  lemma PoolMessageOutcomes(s: Sys, w: nat)
    requires w < |s.pool.workers| && s.pool.workers[w].outbox != []
    ensures HandlePool(s, w).store.outcomes == s.store.outcomes
  {
  }

  lemma TaggedMessageOutcomes(s: Sys, t: nat)
    requires t < |s.pool.tagged| && s.pool.tagged[t].worker.outbox != []
    ensures HandleTagged(s, t).store.outcomes == s.store.outcomes
  {
  }

  lemma AdmitOutcomes(s: Sys, cmd: Command)
    requires cmd.cat < |s.pool.cats|
    ensures AdmitCommand(s, cmd).store == s.store
  {
  }

  lemma {:induction false} RunOutcomes(s: Sys, actions: seq<Action>)
    requires OutcomesInv(s.store) && IsRun(s, actions)
    ensures OutcomesInv(After(s, actions).store)
    decreases |actions|
  {
    if actions != [] {
      NextOutcomes(s, actions[0]);
      RunOutcomes(Next(s, actions[0]), actions[1..]);
    }
  }

  lemma ReachableOutcomes(s: Sys)
    requires Reachable(s)
    ensures OutcomesInv(s.store)
  {
    var s0, actions :| Initial(s0) && IsRun(s0, actions) && After(s0, actions) == s;
    RunOutcomes(s0, actions);
  }

  /** No queue entry and no slot in use refers to a deleted batch. */
  lemma NoDanglingJobs(s: Sys, j: BatchJob)
    requires Reachable(s)
    requires || j in s.pool.batchJobs || j in s.pool.replyJobs
             || (exists t :: t in s.pool.tagged && (j in t.queue || (Busy(t.worker) && IsJob(t.worker.load, j))))
             || (exists w :: w in s.pool.workers && Busy(w) && IsJob(w.load, j))
    ensures j.batch in s.store.heap
  {
    ReachableInv(s);
    HeldIsCounted(s.pool, j);
    var pre, post := PreOf(s.pool), PostOf(s.pool);
    assert pre(j) == Pre(s.pool, j) && post(j) == Post(s.pool, j);
    if pre(j) > 0 { WaitingJobIsLive(pre, post, s.store, j); } else { ReportedJobIsLive(pre, post, s.store, j); }
  }

  lemma HeldIsCounted(p: Pool, j: BatchJob)
    requires || j in p.batchJobs || j in p.replyJobs
             || (exists t :: t in p.tagged && (j in t.queue || (Busy(t.worker) && IsJob(t.worker.load, j))))
             || (exists w :: w in p.workers && Busy(w) && IsJob(w.load, j))
    ensures Pre(p, j) + Post(p, j) > 0
  {
    if t :| t in p.tagged && (j in t.queue || (Busy(t.worker) && IsJob(t.worker.load, j))) {
      var i :| 0 <= i < |p.tagged| && p.tagged[i] == t;
      TaggedHold(p.tagged, i, j);
    } else if w :| w in p.workers && Busy(w) && IsJob(w.load, j) {
      var i :| 0 <= i < |p.workers| && p.workers[i] == w;
      WorkersHold(p.workers, i, j);
    }
  }

  /** Nothing leaks: when no job waits or is being run, the batches that are left are exactly those
      that count jobs they do not have. */
  lemma QuiescentMeansEmpty(s: Sys)
    requires Reachable(s) && forall j :: Pre(s.pool, j) == 0 && Post(s.pool, j) == 0
    ensures forall b :: b in s.store.heap <==> b in s.store.submitted && Surplus(s.store.submitted[b]) > 0
  {
    ReachableInv(s);
    forall b ensures b in s.store.heap <==> b in s.store.submitted && Surplus(s.store.submitted[b]) > 0 {
      if b in s.store.submitted { LeftIffSurplus(s, b); }
    }
  }

  lemma LeftIffSurplus(s: Sys, b: nat)
    requires Inv(s) && b in s.store.submitted && forall j :: Pre(s.pool, j) == 0 && Post(s.pool, j) == 0
    ensures b in s.store.heap <==> Surplus(s.store.submitted[b]) > 0
  {
    var st := s.store;
    assert forall j :: PreOf(s.pool)(j) == 0 && PostOf(s.pool)(j) == 0;
    assert st.created == st.ran == st.finished;
    assert BatchOk(st, b);
    if b in st.heap { AllReportedIsSurplus(st, b); }
  }

  /** A live batch all of whose jobs were reported. */
  lemma AllReportedIsSurplus(st: Store, b: nat)
    requires b in st.submitted && b in st.heap && BatchOk(st, b) && st.created == st.finished
    ensures Surplus(st.submitted[b]) > 0
  {
    var n := Size(st.submitted[b]);
    assert forall i | 0 <= i < n :: st.finished[BatchJob(b, i)] == 1;
    assert st.created[BatchJob(b, 0)] == 1;
    if st.heap[b].Batch? { AllFinishedZero(st, b, n); }
  }

  lemma {:induction false} AllFinishedZero(st: Store, b: nat, n: nat)
    requires AllFinished(st, b, n)
    ensures Unfinished(st.finished, b, n) == 0
  {
    if n > 0 { AllFinishedZero(st, b, n - 1); }
  }

  /** A squelched timer has at most one batch alive, and is marked as running exactly then. */
  lemma SquelchedTimers(s: Sys, t: nat)
    requires Reachable(s) && t in s.store.timers
    ensures forall b, c | Rearms(s.store, b, t) && Rearms(s.store, c, t) :: b == c
    ensures s.store.timers[t].running <==> exists b :: Rearms(s.store, b, t)
  {
    ReachableInv(s);
    if s.store.timers[t].running { assert Rearms(s.store, s.store.timers[t].batch, t); }
  }
}
