/** Every pool operation keeps `PoolInv`; the reservation bound and its consequences. */
module PoolProofs {
  import opened Sequences
  import opened Workers
  import opened Pool

  // ----- sums -----

  lemma {:induction false} SumUpdate(cats: seq<Category>, f: Category -> int, i: nat, c: Category)
    requires i < |cats|
    ensures SumBy(cats[i := c], f) == SumBy(cats, f) - f(cats[i]) + f(c)
  {
    if i == 0 {
      assert cats[i := c][1..] == cats[1..];
    } else {
      assert cats[i := c][1..] == cats[1..][i - 1 := c];
      SumUpdate(cats[1..], f, i - 1, c);
    }
  }

  /** No class can overrun by more than it runs. */
  lemma {:induction false} OverAtMostActive(cats: seq<Category>)
    requires forall c | c in cats :: c.active >= 0
    ensures 0 <= SumBy(cats, OverOf) <= SumBy(cats, ActiveOf)
  {
    if cats != [] { OverAtMostActive(cats[1..]); }
  }

  /** Overrun minus unfilled reservations is the surplus of running jobs over reservations. */
  lemma {:induction false} SurplusSplits(cats: seq<Category>)
    ensures SumBy(cats, OverOf) - SumBy(cats, UnderOf) == SumBy(cats, ActiveOf) - SumBy(cats, ReservedOf)
    ensures 0 <= SumBy(cats, UnderOf) && 0 <= SumBy(cats, OverOf)
  {
    if cats != [] { SurplusSplits(cats[1..]); }
  }

  /** One summand is at most the sum of the unfilled reservations. */
  lemma {:induction false} UnderAtMostSum(cats: seq<Category>, i: nat)
    requires i < |cats|
    ensures UnderOf(cats[i]) <= SumBy(cats, UnderOf)
  {
    SurplusSplits(cats[1..]);
    if i > 0 { UnderAtMostSum(cats[1..], i - 1); }
  }

  lemma {:induction false} ReservedNonNegative(cats: seq<Category>)
    ensures SumBy(cats, ReservedOf) >= 0
  {
    if cats != [] { ReservedNonNegative(cats[1..]); }
  }

  // ----- counting busy workers and pending commands -----

  lemma {:induction false} CountUpdate(ws: seq<Worker>, i: nat, w: Worker, k: JobClass)
    requires i < |ws|
    ensures CountBusy(ws[i := w], k)
         == CountBusy(ws, k) - (if IsBusyWith(ws[i], k) then 1 else 0) + (if IsBusyWith(w, k) then 1 else 0)
  {
    var n := |ws| - 1;
    if i == n {
      assert ws[i := w][..n] == ws[..n];
    } else {
      assert ws[i := w][..n] == ws[..n][i := w];
      CountUpdate(ws[..n], i, w, k);
    }
  }

  lemma CountAppend(ws: seq<Worker>, w: Worker, k: JobClass)
    ensures CountBusy(ws + [w], k) == CountBusy(ws, k) + (if IsBusyWith(w, k) then 1 else 0)
  {
    assert (ws + [w])[..|ws|] == ws;
  }

  lemma {:induction false} CountPositive(ws: seq<Worker>, i: nat, k: JobClass)
    requires i < |ws| && IsBusyWith(ws[i], k)
    ensures CountBusy(ws, k) > 0
  {
    if i < |ws| - 1 { CountPositive(ws[..|ws| - 1], i, k); }
  }

  lemma PendingAppend(pending: seq<Command>, cmd: Command, c: nat)
    ensures CountPending(pending + [cmd], c) == CountPending(pending, c) + (if cmd.cat == c then 1 else 0)
  {
    assert (pending + [cmd])[..|pending|] == pending;
  }

  lemma {:induction false} PendingRemove(pending: seq<Command>, i: nat, c: nat)
    requires i < |pending|
    ensures CountPending(Without(pending, i), c) == CountPending(pending, c) - (if pending[i].cat == c then 1 else 0)
  {
    var n := |pending| - 1;
    if i == n {
      assert Without(pending, i) == pending[..n];
    } else {
      WithoutLast(pending, i);
      PendingAppend(Without(pending[..n], i), pending[n], c);
      PendingRemove(pending[..n], i, c);
    }
  }

  // ----- consequences of the bound -----

  lemma ActivesNonNegative(p: Pool)
    requires CountersOk(p)
    ensures p.batchActive >= 0 && p.replyActive >= 0
    ensures forall c | c in p.cats :: c.active >= 0
  {
    forall c | c in p.cats ensures c.active >= 0 {
      var i :| 0 <= i < |p.cats| && p.cats[i] == c;
    }
  }

  /** In every state that satisfies the invariant: what is running stays within the capacity, and what
      is free covers every reservation that is not in use.  Before QUIT the active workers are those
      that run something. */
  lemma ReservationsHeld(p: Pool)
    requires ConfigOk(p) && CountersOk(p) && BoundOk(p)
    ensures 0 <= TotalActive(p) <= TotalActive(p) + Unfilled(p) <= p.capacity
    ensures !ShuttingDown(p) ==>
      && ActiveWorkers(p) == TotalActive(p)
      && |p.workers| <= p.capacity && |p.idle| <= p.capacity
  {
    SurplusSplits(p.cats);
    ActivesNonNegative(p);
    OverAtMostActive(p.cats);
  }

  /** The promise of the thread-pool documentation: reserving r of n threads for a class means that
      all the other classes together never use more than n - r. */
  lemma OthersLeaveReservation(p: Pool, k: JobClass)
    requires PoolInv(p) && Known(p, k)
    ensures TotalActive(p) - Active(p, k) <= p.capacity - Reserved(p, k)
  {
    ReservationsHeld(p);
    SurplusSplits(p.cats);
    if k.CategoryClass? { UnderAtMostSum(p.cats, k.cat); }
  }

  /** A full pool has no runnable class: every class is at or above its reservation. */
  lemma FullPoolRunsNothing(p: Pool, k: JobClass)
    requires ConfigOk(p) && CountersOk(p) && BoundOk(p) && !ShuttingDown(p)
    requires Known(p, k) && ActiveWorkers(p) >= p.maxWorkers
    ensures !Runnable(p, k)
  {
    ReservationsHeld(p);
    SurplusSplits(p.cats);
    ReservedNonNegative(p.cats);
    if k.CategoryClass? { UnderAtMostSum(p.cats, k.cat); }
  }

  /** Hence a runnable class implies a free slot: the two dispatch paths that never look at the
      capacity cannot exceed it. */
  lemma RunnableHasRoom(p: Pool, k: JobClass)
    requires ConfigOk(p) && CountersOk(p) && BoundOk(p) && !ShuttingDown(p)
    requires Known(p, k) && Runnable(p, k)
    ensures ActiveWorkers(p) < p.capacity
  {
    if ActiveWorkers(p) >= p.capacity { FullPoolRunsNothing(p, k); }
  }

  // ----- dispatch keeps the invariant -----

  lemma LaunchMakesBusy(w: Worker, load: Load)
    requires Writable(w) && !load.Nothing?
    ensures Busy(Launch(w, load)) && Unrun(Launch(w, load)) && Launch(w, load).load == load
    ensures !Resting(Launch(w, load)) && !Retiring(Launch(w, load)) && !Busy(w)
  {
  }

  /** The worker a dispatch would use is in range and writable. */
  predicate TargetOk(p: Pool) {
    var id, q := IdleWorkerId(p), TakeIdleWorker(p);
    && id < |q.workers| && Writable(q.workers[id]) && id !in q.idle
    && (p.idle == [] && !ShuttingDown(p) ==> id < p.capacity)
  }

  predicate MayDispatch(p: Pool, k: JobClass) {
    Known(p, k) && Runnable(p, k)
  }

  lemma DispatchTarget(p: Pool, k: JobClass)
    requires ConfigOk(p) && CountersOk(p) && BoundOk(p) && WorkersOk(p) && MayDispatch(p, k)
    ensures TargetOk(p)
  {
    if p.idle == [] {
      if !ShuttingDown(p) { RunnableHasRoom(p, k); }
    } else {
      assert p.idle[|p.idle| - 1] in p.idle;
    }
  }

  lemma DispatchWorkers(p: Pool, load: Load)
    requires (p.fault <==> Overrunning(p)) && WorkersOk(p) && TargetOk(p) && !load.Nothing? && Known(p, ClassOf(load))
    ensures (Dispatch(p, load).fault <==> Overrunning(Dispatch(p, load))) && WorkersOk(Dispatch(p, load))
  {
    var id, q, r := IdleWorkerId(p), TakeIdleWorker(p), Dispatch(p, load);
    LaunchMakesBusy(q.workers[id], load);
    assert r.workers == q.workers[id := Launch(q.workers[id], load)] && r.idle == q.idle;
    if p.idle != [] {
      assert p.idle == q.idle + [id];
    }
    forall i | 0 <= i < |r.workers| && i != id
      ensures r.workers[i] == p.workers[i] && (i in r.idle <==> i in p.idle)
    {
    }
    forall x | x in r.idle ensures x < |r.workers| {
      assert x in p.idle;
    }
  }

  lemma DispatchCount(p: Pool, load: Load, k: JobClass)
    requires TargetOk(p) && !load.Nothing?
    ensures CountBusy(Dispatch(p, load).workers, k)
         == CountBusy(p.workers, k) + (if ClassOf(load) == k then 1 else 0)
  {
    var id, q := IdleWorkerId(p), TakeIdleWorker(p);
    LaunchMakesBusy(q.workers[id], load);
    CountUpdate(q.workers, id, Launch(q.workers[id], load), k);
    if p.idle == [] { CountAppend(p.workers, FRESH_WORKER, k); }
  }

  lemma DispatchCounters(p: Pool, load: Load)
    requires CountersOk(p) && TargetOk(p) && !load.Nothing? && Known(p, ClassOf(load))
    ensures CountersOk(Dispatch(p, load))
  {
    var r := Dispatch(p, load);
    DispatchCount(p, load, BatchClass);
    DispatchCount(p, load, ReplyClass);
    forall c | 0 <= c < |r.cats| ensures r.cats[c].active == CountBusy(r.workers, CategoryClass(c)) {
      DispatchCount(p, load, CategoryClass(c));
    }
    forall i | 0 <= i < |r.workers| && Busy(r.workers[i]) ensures Known(r, ClassOf(r.workers[i].load)) {
      DispatchKnown(p, load, i);
    }
  }

  lemma DispatchKnown(p: Pool, load: Load, i: nat)
    requires CountersOk(p) && TargetOk(p) && !load.Nothing? && Known(p, ClassOf(load))
    requires i < |Dispatch(p, load).workers| && Busy(Dispatch(p, load).workers[i])
    ensures Known(Dispatch(p, load), ClassOf(Dispatch(p, load).workers[i].load))
  {
    var r, id := Dispatch(p, load), IdleWorkerId(p);
    if i == id { LaunchMakesBusy(TakeIdleWorker(p).workers[id], load); } else { assert r.workers[i] == p.workers[i]; }
  }

  /** Adjusting one class changes the sums of active jobs and of overruns accordingly. */
  lemma AdjustSums(p: Pool, k: JobClass, delta: int)
    requires Known(p, k)
    ensures var q := Adjust(p, k, delta);
      && TotalActive(q) == TotalActive(p) + delta && TotalReserved(q) == TotalReserved(p)
      && Overrun(q) == Overrun(p) - Max0(Active(p, k) - Reserved(p, k)) + Max0(Active(p, k) + delta - Reserved(p, k))
  {
    if k.CategoryClass? {
      var c := p.cats[k.cat].(active := p.cats[k.cat].active + delta);
      SumUpdate(p.cats, ActiveOf, k.cat, c);
      SumUpdate(p.cats, ReservedOf, k.cat, c);
      SumUpdate(p.cats, OverOf, k.cat, c);
    }
  }

  lemma DispatchSums(p: Pool, load: Load)
    requires TargetOk(p) && !load.Nothing? && Known(p, ClassOf(load))
    ensures var r, k := Dispatch(p, load), ClassOf(load);
      && TotalActive(r) == TotalActive(p) + 1 && TotalReserved(r) == TotalReserved(p)
      && Overrun(r) == Overrun(p) - Max0(Active(p, k) - Reserved(p, k)) + Max0(Active(p, k) + 1 - Reserved(p, k))
  {
    AdjustSums(p, ClassOf(load), 1);
    var q, r := Adjust(p, ClassOf(load), 1), Dispatch(p, load);
    assert q.cats == r.cats && q.batchActive == r.batchActive && q.replyActive == r.replyActive;
  }

  /** Nothing overruns while fewer than `general` workers are active. */
  lemma OverrunAtMostActive(p: Pool)
    requires CountersOk(p)
    ensures Overrun(p) <= TotalActive(p)
  {
    ActivesNonNegative(p);
    OverAtMostActive(p.cats);
  }

  lemma DispatchBound(p: Pool, load: Load)
    requires ConfigOk(p) && CountersOk(p) && BoundOk(p) && TargetOk(p)
    requires !load.Nothing? && MayDispatch(p, ClassOf(load))
    ensures ConfigOk(Dispatch(p, load)) && BoundOk(Dispatch(p, load))
  {
    DispatchSums(p, load);
    OverrunAtMostActive(p);
    if !ShuttingDown(p) { RunnableHasRoom(p, ClassOf(load)); }
  }

  /** What a dispatch leaves alone. */
  lemma DispatchFrame(p: Pool, load: Load)
    requires TargetOk(p) && !load.Nothing? && Known(p, ClassOf(load))
    ensures var r, id, q := Dispatch(p, load), IdleWorkerId(p), TakeIdleWorker(p);
      && r.workers == q.workers[id := Launch(q.workers[id], load)] && r.idle == q.idle
      && r.tagged == p.tagged && r.pending == p.pending && r.batchJobs == p.batchJobs && r.replyJobs == p.replyJobs
      && r.batchTaken == p.batchTaken && r.replyTaken == p.replyTaken
      && r.maxWorkers == p.maxWorkers && r.capacity == p.capacity && r.general == p.general
      && |r.cats| == |p.cats|
      && (forall c | 0 <= c < |p.cats| :: r.cats[c] == p.cats[c].(active := r.cats[c].active))
  {
  }

  lemma DispatchRest(p: Pool, load: Load)
    requires TargetOk(p) && !load.Nothing? && Known(p, ClassOf(load)) && TaggedOk(p) && PendingOk(p)
    ensures TaggedOk(Dispatch(p, load)) && PendingOk(Dispatch(p, load))
  {
    DispatchFrame(p, load);
  }

  lemma DispatchInv(p: Pool, load: Load)
    requires PoolInv(p) && !load.Nothing? && MayDispatch(p, ClassOf(load))
    ensures PoolInv(Dispatch(p, load))
  {
    DispatchTarget(p, ClassOf(load));
    DispatchWorkers(p, load);
    DispatchCounters(p, load);
    DispatchBound(p, load);
    DispatchRest(p, load);
  }

  // ----- the four dispatch paths -----

  lemma AdmitInv(p: Pool, cmd: Command)
    requires PoolInv(p) && cmd.cat < |p.cats|
    ensures Admit(p, cmd).Admitted? ==> PoolInv(Admit(p, cmd).pool)
    ensures Admit(p, cmd).Queued? ==> PoolInv(Admit(p, cmd).pool)
  {
    match Admit(p, cmd) {
      case Admitted(_) => DispatchInv(p, CommandLoad(cmd));
      case Queued(q) => QueueCommand(p, cmd, q);
      case Dropped =>
    }
  }

  /** Replacing a category by one with the same thread counters changes no sum. */
  lemma QueuedSums(p: Pool, q: Pool, c: nat, n: int)
    requires c < |p.cats| && q.cats == p.cats[c := p.cats[c].(queued := n)]
    requires q.batchActive == p.batchActive && q.replyActive == p.replyActive
    requires q.batchReserved == p.batchReserved && q.replyReserved == p.replyReserved
    ensures TotalActive(q) == TotalActive(p) && TotalReserved(q) == TotalReserved(p) && Overrun(q) == Overrun(p)
  {
    var cat := p.cats[c].(queued := n);
    SumUpdate(p.cats, ActiveOf, c, cat);
    SumUpdate(p.cats, ReservedOf, c, cat);
    SumUpdate(p.cats, OverOf, c, cat);
  }

  lemma QueueCommand(p: Pool, cmd: Command, q: Pool)
    requires PoolInv(p) && cmd.cat < |p.cats|
    requires Admit(p, cmd) == Queued(q)
    ensures PoolInv(q)
  {
    QueuedSums(p, q, cmd.cat, p.cats[cmd.cat].queued + 1);
    forall c | 0 <= c < |q.cats| ensures q.cats[c].queued == CountPending(q.pending, c) {
      PendingAppend(p.pending, cmd, c);
    }
    assert TaggedOk(q);
  }

  lemma RunQueueFrontInv(p: Pool, reply: bool)
    requires PoolInv(p) && !ShuttingDown(p) && CanRunQueue(p, reply)
    ensures PoolInv(RunQueueFront(p, reply))
  {
    SameSchedule(p, PopQueue(p, reply));
    DispatchInv(PopQueue(p, reply), BatchLoad(QueueOf(p, reply)[0], reply));
  }

  /** The queues of batch and reply jobs play no part in the invariant. */
  lemma SameSchedule(p: Pool, q: Pool)
    requires PoolInv(p)
    requires q ==
      p.(batchJobs := q.batchJobs, replyJobs := q.replyJobs, batchTaken := q.batchTaken, replyTaken := q.replyTaken)
    ensures PoolInv(q)
  {
  }

  lemma RunPendingInv(p: Pool, i: nat)
    requires PoolInv(p) && i < |p.pending| && CanRunPending(p, i) && !ShuttingDown(p)
    ensures PoolInv(RunPending(p, i))
  {
    DispatchInv(p, CommandLoad(p.pending[i]));
    DequeueCommand(Dispatch(p, CommandLoad(p.pending[i])), i);
  }

  lemma DequeueCommand(p: Pool, i: nat)
    requires PoolInv(p) && i < |p.pending|
    ensures p.pending[i].cat < |p.cats|
    ensures PoolInv(Dequeue(p, i))
  {
    var c, q := p.pending[i].cat, Dequeue(p, i);
    QueuedSums(p, q, c, p.cats[c].queued - 1);
    forall d | 0 <= d < |q.cats| ensures q.cats[d].queued == CountPending(q.pending, d) {
      PendingRemove(p.pending, i, d);
    }
    assert TaggedOk(q);
  }

  lemma RunTaggedInv(p: Pool, t: nat)
    requires PoolInv(p) && t < |p.tagged| && CanRunTagged(p, t) && !ShuttingDown(p)
    ensures PoolInv(RunTagged(p, t))
  {
    LaunchMakesBusy(p.tagged[t].worker, BatchLoad(p.tagged[t].queue[0], false));
    TaggedOnly(p, RunTagged(p, t));
  }

  /** Only the tagged workers changed. */
  lemma TaggedOnly(p: Pool, q: Pool)
    requires PoolInv(p) && q == p.(tagged := q.tagged) && TaggedOk(q)
    ensures PoolInv(q)
  {
  }

  lemma EnqueueInv(p: Pool, thread: int, job: BatchJob)
    requires PoolInv(p) && thread - 1 < |p.tagged|
    ensures PoolInv(Enqueue(p, thread, job))
  {
    if thread <= 0 {
      SameSchedule(p, Enqueue(p, thread, job));
    } else {
      TaggedOnly(p, Enqueue(p, thread, job));
    }
  }

  // ----- worker steps -----

  /** `v` is the same worker one step later: same situation, same job in the slot. */
  predicate SameStatus(w: Worker, v: Worker) {
    && (Busy(w) <==> Busy(v)) && (Resting(w) <==> Resting(v)) && (Retiring(w) <==> Retiring(v))
    && w.load == v.load
  }

  lemma ThreadStepKeepsStatus(w: Worker)
    requires Legal(w)
    ensures w.inbox != [] && (w.thread.Waiting? || w.thread.AwaitingStart?) ==> SameStatus(w, Receive(w))
    ensures w.thread.Working? ==> SameStatus(w, Execute(w))
    ensures w.thread.Executed? ==> SameStatus(w, ReportRan(w))
  {
  }

  lemma SetWorkerInv(p: Pool, i: nat, w: Worker)
    requires PoolInv(p) && i < |p.workers| && SameStatus(p.workers[i], w)
    ensures PoolInv(SetWorker(p, i, w))
  {
    var q := SetWorker(p, i, w);
    CountUpdate(p.workers, i, w, BatchClass);
    CountUpdate(p.workers, i, w, ReplyClass);
    forall c | 0 <= c < |q.cats| ensures q.cats[c].active == CountBusy(q.workers, CategoryClass(c)) {
      CountUpdate(p.workers, i, w, CategoryClass(c));
    }
    assert TaggedOk(q) && PendingOk(q);
  }

  lemma SetTaggedInv(p: Pool, t: nat, w: Worker)
    requires PoolInv(p) && t < |p.tagged| && SameStatus(p.tagged[t].worker, w)
    ensures PoolInv(SetTagged(p, t, w))
  {
    TaggedOnly(p, SetTagged(p, t, w));
  }

  // ----- reports from workers -----

  lemma PoolRanCounters(p: Pool, w: nat)
    requires CountersOk(p) && w < |p.workers| && Busy(p.workers[w]) && p.workers[w].outbox != []
    ensures var k := ClassOf(p.workers[w].load); Known(p, k) && Active(p, k) > 0
    ensures CountersOk(PoolRan(p, w))
  {
    var q, k := PoolRan(p, w), ClassOf(p.workers[w].load);
    CountPositive(p.workers, w, k);
    assert !Busy(q.workers[w]);
    CountUpdate(p.workers, w, q.workers[w], BatchClass);
    CountUpdate(p.workers, w, q.workers[w], ReplyClass);
    forall c | 0 <= c < |q.cats| ensures q.cats[c].active == CountBusy(q.workers, CategoryClass(c)) {
      CountUpdate(p.workers, w, q.workers[w], CategoryClass(c));
    }
    forall i | 0 <= i < |q.workers| && Busy(q.workers[i]) ensures Known(q, ClassOf(q.workers[i].load)) {
      assert q.workers[i] == p.workers[i];
    }
  }

  lemma PoolRanWorkers(p: Pool, w: nat)
    requires WorkersOk(p) && w < |p.workers| && Busy(p.workers[w]) && p.workers[w].outbox != []
    ensures WorkersOk(PoolRan(p, w))
  {
    var q := PoolRan(p, w);
    assert w !in p.idle;
    forall i | 0 <= i < |q.workers| && i != w
      ensures q.workers[i] == p.workers[i] && (i in q.idle <==> i in p.idle)
    {
    }
  }

  lemma PoolRanBound(p: Pool, w: nat)
    requires ConfigOk(p) && CountersOk(p) && BoundOk(p)
    requires w < |p.workers| && Busy(p.workers[w]) && p.workers[w].outbox != []
    ensures ConfigOk(PoolRan(p, w)) && BoundOk(PoolRan(p, w))
    ensures !ShuttingDown(p) ==> |p.idle| < p.capacity
  {
    CountPositive(p.workers, w, ClassOf(p.workers[w].load));
    PoolRanSums(p, w);
    OneActive(p, ClassOf(p.workers[w].load));
  }

  lemma PoolRanSums(p: Pool, w: nat)
    requires w < |p.workers| && p.workers[w].outbox != [] && !p.workers[w].load.Nothing?
    requires Known(p, ClassOf(p.workers[w].load))
    ensures var r := PoolRan(p, w);
      && TotalActive(r) == TotalActive(p) - 1 && TotalReserved(r) == TotalReserved(p) && Overrun(r) <= Overrun(p)
      && r.general == p.general && r.capacity == p.capacity && r.maxWorkers == p.maxWorkers
      && |r.workers| == |p.workers| && |r.idle| == |p.idle| + (if ShuttingDown(p) then 0 else 1)
  {
    var k := ClassOf(p.workers[w].load);
    AdjustSums(p, k, -1);
    var q, r := Adjust(p, k, -1), PoolRan(p, w);
    assert q.cats == r.cats && q.batchActive == r.batchActive && q.replyActive == r.replyActive;
  }

  lemma OneActive(p: Pool, k: JobClass)
    requires CountersOk(p) && Known(p, k) && Active(p, k) > 0
    ensures TotalActive(p) > 0
  {
    AdjustSums(p, k, -1);
    ActivesNonNegative(p);
    var q := Adjust(p, k, -1);
    assert forall c | c in q.cats :: c.active >= 0;
    OverAtMostActive(q.cats);
  }

  lemma PoolRanInv(p: Pool, w: nat)
    requires PoolInv(p) && w < |p.workers| && p.workers[w].outbox != [] && p.workers[w].outbox[0] == Ran
    ensures !p.workers[w].load.Nothing? && Busy(p.workers[w])
    ensures PoolInv(PoolRan(p, w))
  {
    assert Legal(p.workers[w]);
    PoolRanCounters(p, w);
    PoolRanWorkers(p, w);
    PoolRanBound(p, w);
  }

  lemma TaggedRanInv(p: Pool, t: nat)
    requires PoolInv(p) && t < |p.tagged| && p.tagged[t].worker.outbox != [] && p.tagged[t].worker.outbox[0] == Ran
    ensures Busy(p.tagged[t].worker)
    ensures PoolInv(TaggedRan(p, t))
  {
    assert Legal(p.tagged[t].worker);
    TaggedOnly(p, TaggedRan(p, t));
  }

  lemma JoinPoolInv(p: Pool, w: nat)
    requires PoolInv(p) && w < |p.workers| && p.workers[w].outbox != [] && p.workers[w].outbox[0] == Quitting
    ensures PoolInv(JoinPool(p, w))
  {
    assert Legal(p.workers[w]);
    SetWorkerInv(p, w, Join(TakeReport(p.workers[w])));
  }

  lemma JoinTaggedInv(p: Pool, t: nat)
    requires PoolInv(p) && t < |p.tagged| && p.tagged[t].worker.outbox != [] && p.tagged[t].worker.outbox[0] == Quitting
    ensures PoolInv(JoinTagged(p, t))
  {
    assert Legal(p.tagged[t].worker);
    SetTaggedInv(p, t, Join(TakeReport(p.tagged[t].worker)));
  }

  // ----- QUIT -----

  /** Telling resting workers to quit changes no class count. */
  lemma {:induction false} QuitCount(ws: seq<Worker>, vs: seq<Worker>, k: JobClass)
    requires |ws| == |vs|
    requires forall i | 0 <= i < |ws| :: IsBusyWith(ws[i], k) <==> IsBusyWith(vs[i], k)
    ensures CountBusy(ws, k) == CountBusy(vs, k)
  {
    if ws != [] { QuitCount(ws[..|ws| - 1], vs[..|vs| - 1], k); }
  }

  lemma QuitAllInv(p: Pool)
    requires PoolInv(p) && !ShuttingDown(p)
    ensures PoolInv(QuitAll(p))
  {
    QuitWorkers(p);
    QuitCounters(p);
    QuitTagged(p);
    assert PendingOk(QuitAll(p));
  }

  lemma QuitCounters(p: Pool)
    requires WorkersOk(p) && CountersOk(p)
    ensures CountersOk(QuitAll(p))
  {
    var q := QuitAll(p);
    QuitWorkers(p);
    QuitCount(p.workers, q.workers, BatchClass);
    QuitCount(p.workers, q.workers, ReplyClass);
    forall c | 0 <= c < |q.cats| ensures q.cats[c].active == CountBusy(q.workers, CategoryClass(c)) {
      QuitCount(p.workers, q.workers, CategoryClass(c));
    }
  }

  lemma QuitTagged(p: Pool)
    requires TaggedOk(p) && !ShuttingDown(p)
    ensures TaggedOk(QuitAll(p))
  {
  }

  lemma QuitWorkers(p: Pool)
    requires WorkersOk(p)
    ensures WorkersOk(QuitAll(p))
    ensures forall i | 0 <= i < |p.workers| ::
      && (Busy(p.workers[i]) <==> Busy(QuitAll(p).workers[i]))
      && p.workers[i].load == QuitAll(p).workers[i].load
  {
  }
}
