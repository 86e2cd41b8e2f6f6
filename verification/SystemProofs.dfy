/** The invariant of the machine, kept by every action. */
module SystemProofs {
  import opened Workers
  import opened Pool
  import opened Batches
  import opened System
  import opened PoolProofs
  import opened BatchProofs
  import opened Tokens

  ghost function PreOf(p: Pool): Tally { (j: BatchJob) => Pre(p, j) }
  ghost function PostOf(p: Pool): Tally { (j: BatchJob) => Post(p, j) }

  ghost predicate BatchesInv(s: Sys) {
    StoreInv(PreOf(s.pool), PostOf(s.pool), s.store)
  }

  /** The batch of a squelched timer's current job. */
  predicate Rearms(st: Store, b: nat, t: nat) {
    b in st.heap && st.heap[b].Batch? && st.heap[b].completion == Rearm(t)
  }

  /** A timer is marked as running exactly while a batch that will clear the mark is alive, and
      there is never more than one. */
  ghost predicate TimersInv(st: Store) {
    && st.armed <= st.timers.Keys
    && (forall t {:trigger st.timers[t]} | t in st.timers && st.timers[t].running ::
          st.timers[t].squelch && Rearms(st, st.timers[t].batch, t))
    && (forall b, t {:trigger Rearms(st, b, t)} | Rearms(st, b, t) ::
          t in st.timers && st.timers[t].running && st.timers[t].batch == b)
  }

  /** Threads named by live completions and by timers exist. */
  ghost predicate ThreadsInv(s: Sys) {
    && (forall b {:trigger s.store.heap[b]}
          | b in s.store.heap && s.store.heap[b].Batch? && s.store.heap[b].completion.InThread? ::
          s.store.heap[b].completion.thread == -1 || ValidThread(s.pool, s.store.heap[b].completion.thread))
    && (forall t {:trigger s.store.timers[t]} | t in s.store.timers ::
          s.store.timers[t].thread == -1 || ValidThread(s.pool, s.store.timers[t].thread))
  }

  ghost predicate CoreInv(s: Sys) {
    PoolInv(s.pool) && BatchesInv(s) && TimersInv(s.store) && ThreadsInv(s)
  }

  /** A pool step that moves no batch job keeps the ledger. */
  lemma SameTokens(s: Sys, p: Pool)
    requires BatchesInv(s)
    requires forall j :: Pre(p, j) == Pre(s.pool, j) && Post(p, j) == Post(s.pool, j)
    ensures StoreInv(PreOf(p), PostOf(p), s.store)
  {
    assert forall j :: PreOf(p)(j) == PreOf(s.pool)(j) && PostOf(p)(j) == PostOf(s.pool)(j);
  }

  /** The pool changed, the batches did not. */
  lemma PoolStep(s: Sys, p: Pool)
    requires CoreInv(s) && PoolInv(p) && |p.tagged| == |s.pool.tagged|
    requires forall j :: Pre(p, j) == Pre(s.pool, j) && Post(p, j) == Post(s.pool, j)
    ensures StoreInv(PreOf(p), PostOf(p), s.store)
    ensures ThreadsInv(s.(pool := p))
  {
    SameTokens(s, p);
  }

  // ----- new batches -----

  lemma {:induction false} EnqueueJobsInv(p: Pool, obj: Batch, b: nat, n: nat)
    requires PoolInv(p) && n <= Size(obj)
    requires forall i | 0 <= i < Size(obj) :: ValidThread(p, ThreadOf(obj, i))
    ensures PoolInv(EnqueueJobs(p, obj, b, n)) && |EnqueueJobs(p, obj, b, n).tagged| == |p.tagged|
  {
    if n > 0 {
      EnqueueJobsInv(p, obj, b, n - 1);
      EnqueueInv(EnqueueJobs(p, obj, b, n - 1), ThreadOf(obj, n - 1), BatchJob(b, n - 1));
    }
  }

  lemma JobsOfStep(b: nat, n: nat, j: BatchJob)
    requires n > 0
    ensures JobsOf(b, n)[j] == JobsOf(b, n - 1)[j] + One(BatchJob(b, n - 1) == j)
  {
  }

  lemma {:induction false} EnqueueJobsMoves(p: Pool, obj: Batch, b: nat, n: nat, j: BatchJob)
    requires n <= Size(obj)
    requires forall i | 0 <= i < Size(obj) :: ValidThread(p, ThreadOf(obj, i))
    ensures |EnqueueJobs(p, obj, b, n).tagged| == |p.tagged|
    ensures Pre(EnqueueJobs(p, obj, b, n), j) == Pre(p, j) + JobsOf(b, n)[j]
    ensures Post(EnqueueJobs(p, obj, b, n), j) == Post(p, j)
  {
    if n > 0 {
      EnqueueJobsMoves(p, obj, b, n - 1, j);
      EnqueueMoves(EnqueueJobs(p, obj, b, n - 1), ThreadOf(obj, n - 1), BatchJob(b, n - 1), j);
      JobsOfStep(b, n, j);
    }
  }

  lemma AddBatchInv(s: Sys, obj: Batch)
    requires PoolInv(s.pool) && BatchesInv(s) && NewObject(obj)
    requires forall i | 0 <= i < Size(obj) :: ValidThread(s.pool, ThreadOf(obj, i))
    ensures PoolInv(AddBatch(s, obj).pool) && BatchesInv(AddBatch(s, obj))
    ensures |AddBatch(s, obj).pool.tagged| == |s.pool.tagged|
  {
    var p, b, n := AddBatch(s, obj).pool, s.store.next, Size(obj);
    EnqueueJobsInv(s.pool, obj, b, n);
    forall j: BatchJob ensures PreOf(p)(j) == PreOf(s.pool)(j) + JobsOf(b, n)[j] && PostOf(p)(j) == PostOf(s.pool)(j) {
      EnqueueJobsMoves(s.pool, obj, b, n, j);
    }
    SamePost(s.store, PreOf(s.pool), PostOf(s.pool), PostOf(p));
    SubmitInv(PreOf(s.pool), PostOf(p), s.store, obj, PreOf(p));
  }

  lemma SamePost(st: Store, pre: Tally, post: Tally, post': Tally)
    requires StoreInv(pre, post, st) && forall j :: post(j) == post'(j)
    ensures StoreInv(pre, post', st)
  {
  }

  lemma AddReplyMoves(s: Sys, j: BatchJob)
    ensures Pre(AddReply(s).pool, j) == Pre(s.pool, j) + JobsOf(s.store.next, 1)[j]
    ensures Post(AddReply(s).pool, j) == Post(s.pool, j)
  {
    JobsOfCount(s.store.next, 1, j);
  }

  lemma AddReplyInv(s: Sys)
    requires PoolInv(s.pool) && BatchesInv(s)
    ensures PoolInv(AddReply(s).pool) && BatchesInv(AddReply(s))
  {
    var p := AddReply(s).pool;
    SameSchedule(s.pool, p);
    assert Size(Job(0)) == 1;
    forall j: BatchJob
      ensures PreOf(p)(j) == PreOf(s.pool)(j) + JobsOf(s.store.next, Size(Job(0)))[j]
      ensures PostOf(p)(j) == PostOf(s.pool)(j)
    {
      AddReplyMoves(s, j);
    }
    SubmitJobInv(s.store, PreOf(s.pool), PostOf(s.pool), PreOf(p), PostOf(p));
  }

  lemma SubmitJobInv(st: Store, pre: Tally, post: Tally, pre': Tally, post': Tally)
    requires StoreInv(pre, post, st)
    requires forall k :: pre'(k) == pre(k) + JobsOf(st.next, Size(Job(0)))[k] && post'(k) == post(k)
    ensures StoreInv(pre', post', Submit(st, Job(0)))
  {
    SamePost(st, pre, post, post');
    SubmitInv(pre, post', st, Job(0), pre');
  }

  /** A new batch that is no timer's leaves the timers as they are. */
  lemma SubmitTimers(st: Store, obj: Batch)
    requires TimersInv(st) && st.next !in st.heap && !(obj.Batch? && obj.completion.Rearm?)
    ensures TimersInv(Submit(st, obj))
  {
    var st' := Submit(st, obj);
    forall b, t | Rearms(st', b, t) ensures t in st'.timers && st'.timers[t].running && st'.timers[t].batch == b {
      assert Rearms(st, b, t);
    }
    forall t | t in st'.timers && st'.timers[t].running
      ensures st'.timers[t].squelch && Rearms(st', st'.timers[t].batch, t)
    {
      assert Rearms(st, st.timers[t].batch, t);
    }
  }

  lemma NextIsFree(s: Sys)
    requires BatchesInv(s)
    ensures s.store.next !in s.store.heap
  {
    assert s.store.next in s.store.heap ==> s.store.next in s.store.submitted;
  }

  lemma SubmitThreads(s: Sys, obj: Batch)
    requires ThreadsInv(s)
    requires obj.Batch? && obj.completion.InThread? ==>
      obj.completion.thread == -1 || ValidThread(s.pool, obj.completion.thread)
    ensures ThreadsInv(s.(store := Submit(s.store, obj)))
  {
  }

  // ----- timers -----

  lemma FireInv(s: Sys, timer: nat)
    requires CoreInv(s)
    ensures CoreInv(Fire(s, timer))
  {
    if timer in s.store.timers {
      var t := s.store.timers[timer];
      if !(t.squelch && t.running) && t.thread != -1 {
        if t.squelch { FireSquelched(s, timer); } else { FirePlain(s, t.thread); }
      }
    }
  }

  lemma FirePlain(s: Sys, thread: int)
    requires CoreInv(s) && ValidThread(s.pool, thread)
    ensures CoreInv(AddBatch(s, Job(thread)))
  {
    NextIsFree(s);
    AddBatchInv(s, Job(thread));
    SubmitTimers(s.store, Job(thread));
    SubmitThreads(s, Job(thread));
    ThreadsSame(s.(store := Submit(s.store, Job(thread))), AddBatch(s, Job(thread)).pool);
  }

  /** Only the timers differ: nothing in the ledger depends on them. */
  lemma SameLedger(pre: Tally, post: Tally, st: Store, st': Store)
    requires StoreInv(pre, post, st) && st' == st.(timers := st'.timers, armed := st'.armed)
    ensures StoreInv(pre, post, st')
  {
    forall b | b in st'.submitted ensures BatchOk(st', b) {
      assert BatchOk(st, b);
    }
  }

  lemma FireSquelched(s: Sys, timer: nat)
    requires CoreInv(s) && timer in s.store.timers && s.store.timers[timer].squelch && !s.store.timers[timer].running
    requires s.store.timers[timer].thread != -1
    ensures CoreInv(Fire(s, timer))
  {
    var obj := NewBatch([s.store.timers[timer].thread], Rearm(timer));
    var s', s'' := AddBatch(s, obj), Fire(s, timer);
    AddBatchInv(s, obj);
    SameLedger(PreOf(s'.pool), PostOf(s'.pool), s'.store, s''.store);
    NextIsFree(s);
    RearmedTimers(s.store, timer, s''.store);
    FiredThreads(s, timer, s'');
  }

  lemma FiredThreads(s: Sys, timer: nat, s': Sys)
    requires ThreadsInv(s) && timer in s.store.timers && |s'.pool.tagged| == |s.pool.tagged|
    requires s'.store.heap == s.store.heap[s.store.next := NewBatch([s.store.timers[timer].thread], Rearm(timer))]
    requires s'.store.timers == s.store.timers[timer := s.store.timers[timer].(running := true, batch := s.store.next)]
    ensures ThreadsInv(s')
  {
  }

  lemma RearmedTimers(st: Store, timer: nat, st': Store)
    requires TimersInv(st) && timer in st.timers && st.timers[timer].squelch && !st.timers[timer].running
    requires st.next !in st.heap
    requires st'.heap == st.heap[st.next := NewBatch([st.timers[timer].thread], Rearm(timer))]
    requires st'.timers == st.timers[timer := st.timers[timer].(running := true, batch := st.next)]
    requires st'.armed == st.armed
    ensures TimersInv(st')
  {
    forall b, t | Rearms(st', b, t) ensures t in st'.timers && st'.timers[t].running && st'.timers[t].batch == b {
      if b != st.next { assert Rearms(st, b, t); }
    }
    forall t | t in st'.timers && st'.timers[t].running
      ensures st'.timers[t].squelch && Rearms(st', st'.timers[t].batch, t)
    {
      if t != timer { assert Rearms(st, st.timers[t].batch, t); }
    }
  }

  // ----- reports -----

  /** The effect of a report on the heap and the timers. */
  lemma ReportEffect(st: Store, j: BatchJob)
    requires Reportable(st, j)
    ensures var st', b, fate := ReportJob(st, j), j.batch, FateOf(st.heap[j.batch], j.jobno);
      && st'.armed == st.armed
      && (st'.heap == if fate.Kept? || fate.Queues? then st.heap[b := JobFinished(st.heap[b]).batch] else st.heap - {b})
      && (st'.timers == if fate.CompletedHere? then AfterCompletion(st.timers, st.heap[b].completion) else st.timers)
  {
  }

  /** The object stays, with the same completion. */
  lemma KeptTimers(st: Store, st': Store, b: nat)
    requires TimersInv(st) && b in st.heap && st'.armed == st.armed && st'.timers == st.timers
    requires st'.heap == st.heap[b := JobFinished(st.heap[b]).batch]
    ensures TimersInv(st')
  {
    assert forall c, t :: Rearms(st', c, t) <==> Rearms(st, c, t);
  }

  /** The object goes and no timer depends on it. */
  lemma DeletedTimers(st: Store, st': Store, b: nat)
    requires TimersInv(st) && st'.armed == st.armed && st'.timers == st.timers && st'.heap == st.heap - {b}
    requires forall t :: !Rearms(st, b, t)
    ensures TimersInv(st')
  {
    assert forall c, t :: Rearms(st', c, t) <==> Rearms(st, c, t);
  }

  /** The object goes after re-arming its timer. */
  lemma CompletedTimers(st: Store, st': Store, b: nat, timer: nat)
    requires TimersInv(st) && Rearms(st, b, timer) && st'.armed == st.armed && st'.heap == st.heap - {b}
    requires st'.timers == AfterCompletion(st.timers, Rearm(timer))
    ensures TimersInv(st')
  {
    assert forall c, t | c != b :: Rearms(st', c, t) <==> Rearms(st, c, t);
    forall c, t | Rearms(st', c, t) ensures t in st'.timers && st'.timers[t].running && st'.timers[t].batch == c {
      assert Rearms(st, c, t);
    }
    forall t | t in st'.timers && st'.timers[t].running
      ensures st'.timers[t].squelch && Rearms(st', st'.timers[t].batch, t)
    {
      assert Rearms(st, st.timers[t].batch, t);
    }
  }

  /** A batch that a report deletes without completing it here has no timer. */
  lemma DeletedHasNoTimer(pre: Tally, post: Tally, st: Store, j: BatchJob)
    requires StoreInv(pre, post, st) && post(j) > 0
    ensures j.batch in st.heap
    ensures FateOf(st.heap[j.batch], j.jobno).Deleted? ==> forall t :: !Rearms(st, j.batch, t)
  {
    ReportedJobIsLive(pre, post, st, j);
    assert BatchOk(st, j.batch);
    assert j == BatchJob(j.batch, j.jobno);
  }

  lemma ReportTimers(pre: Tally, post: Tally, st: Store, j: BatchJob)
    requires StoreInv(pre, post, st) && TimersInv(st) && post(j) > 0
    ensures TimersInv(ReportJob(st, j))
  {
    ReportedJobIsLive(pre, post, st, j);
    DeletedHasNoTimer(pre, post, st, j);
    ReportEffect(st, j);
    TimersAfterReport(st, ReportJob(st, j), j);
  }

  lemma TimersAfterReport(st: Store, st': Store, j: BatchJob)
    requires TimersInv(st) && Reportable(st, j)
    requires FateOf(st.heap[j.batch], j.jobno).Deleted? ==> forall t :: !Rearms(st, j.batch, t)
    requires var b, fate := j.batch, FateOf(st.heap[j.batch], j.jobno);
      && st'.armed == st.armed
      && (st'.heap == if fate.Kept? || fate.Queues? then st.heap[b := JobFinished(st.heap[b]).batch] else st.heap - {b})
      && (st'.timers == if fate.CompletedHere? then AfterCompletion(st.timers, st.heap[b].completion) else st.timers)
    ensures TimersInv(st')
  {
    var b, obj := j.batch, st.heap[j.batch];
    match FateOf(obj, j.jobno) {
      case Kept => KeptTimers(st, st', b);
      case Queues(_) => KeptTimers(st, st', b);
      case Deleted => DeletedTimers(st, st', b);
      case CompletedHere =>
        if obj.completion.Rearm? {
          CompletedTimers(st, st', b, obj.completion.timer);
        } else {
          DeletedTimers(st, st', b);
        }
    }
  }

  lemma ReportThreads(s: Sys, j: BatchJob)
    requires ThreadsInv(s) && Reportable(s.store, j)
    ensures ThreadsInv(s.(store := ReportJob(s.store, j)))
  {
    ReportEffect(s.store, j);
    ThreadsAfterReport(s, ReportJob(s.store, j), j.batch);
  }

  lemma ThreadsAfterReport(s: Sys, st': Store, b: nat)
    requires ThreadsInv(s) && b in s.store.heap
    requires st'.heap == s.store.heap[b := JobFinished(s.store.heap[b]).batch] || st'.heap == s.store.heap - {b}
    requires || st'.timers == s.store.timers
             || (s.store.heap[b].Batch? && st'.timers == AfterCompletion(s.store.timers, s.store.heap[b].completion))
    ensures ThreadsInv(s.(store := st'))
  {
  }

  lemma CompletionInv(p: Pool, fate: Fate, reply: bool, job: BatchJob)
    requires PoolInv(p) && (fate.Queues? ==> ValidThread(p, fate.thread))
    ensures PoolInv(EnqueueCompletion(p, fate, reply, job))
    ensures |EnqueueCompletion(p, fate, reply, job).tagged| == |p.tagged|
  {
    if fate.Queues? {
      if fate.thread > 0 || !reply {
        EnqueueInv(p, fate.thread, job);
      } else {
        SameSchedule(p, EnqueueCompletion(p, fate, reply, job));
      }
    }
  }

  lemma CompletionMoves(p: Pool, fate: Fate, reply: bool, job: BatchJob, j: BatchJob)
    requires fate.Queues? ==> ValidThread(p, fate.thread)
    ensures Pre(EnqueueCompletion(p, fate, reply, job), j) == Pre(p, j) + One(fate.Queues? && job == j)
    ensures Post(EnqueueCompletion(p, fate, reply, job), j) == Post(p, j)
  {
    if fate.Queues? && (fate.thread > 0 || !reply) { EnqueueMoves(p, fate.thread, job, j); }
  }

  lemma ReportMoves(st: Store, p: Pool, job: BatchJob, reply: bool, k: BatchJob)
    requires job.batch in st.heap && (FateIn(st, job).Queues? ==> ValidThread(p, FateIn(st, job).thread))
    ensures var q := EnqueueCompletion(p, FateIn(st, job), reply, BatchJob(job.batch, -1));
      Pre(q, k) == Pre(p, k) + NewlyQueued(st, job)[k] && Post(q, k) == Post(p, k)
  {
    CompletionMoves(p, FateIn(st, job), reply, BatchJob(job.batch, -1), k);
  }

  lemma ReportLedger(s: Sys, p: Pool, job: BatchJob, reply: bool, q: Pool)
    requires BatchesInv(s) && Reportable(s.store, job) && PostOf(s.pool)(job) > 0
    requires FateIn(s.store, job).Queues? ==> ValidThread(p, FateIn(s.store, job).thread)
    requires forall j :: Pre(p, j) == Pre(s.pool, j) && Post(p, j) + One(job == j) == Post(s.pool, j)
    requires q == EnqueueCompletion(p, FateIn(s.store, job), reply, BatchJob(job.batch, -1))
    ensures StoreInv(PreOf(q), PostOf(q), ReportJob(s.store, job))
  {
    var pre, post := PreOf(s.pool), PostOf(s.pool);
    forall k: BatchJob
      ensures PreOf(q)(k) == pre(k) + NewlyQueued(s.store, job)[k] && post(k) == PostOf(q)(k) + multiset{job}[k]
    {
      assert Pre(p, k) == Pre(s.pool, k) && Post(p, k) + One(job == k) == Post(s.pool, k);
      ReportMoves(s.store, p, job, reply, k);
    }
    ReportInv(pre, post, s.store, job, PreOf(q), PostOf(q));
  }

  /** The report of a batch job: `p` is the pool after the worker's own bookkeeping. */
  lemma ReportCore(s: Sys, p: Pool, job: BatchJob, reply: bool, q: Pool)
    requires CoreInv(s) && PoolInv(p) && |p.tagged| == |s.pool.tagged|
    requires forall j :: Pre(p, j) == Pre(s.pool, j) && Post(p, j) + One(job == j) == Post(s.pool, j)
    requires q == EnqueueCompletion(p, FateIn(s.store, job), reply, BatchJob(job.batch, -1))
    ensures CoreInv(s.(pool := q, store := ReportJob(s.store, job)))
  {
    var pre, post := PreOf(s.pool), PostOf(s.pool);
    assert post(job) == Post(s.pool, job) == Post(p, job) + One(job == job);
    ReportedJobIsLive(pre, post, s.store, job);
    FateThread(s, job);
    CompletionInv(p, FateIn(s.store, job), reply, BatchJob(job.batch, -1));
    ReportLedger(s, p, job, reply, q);
    ReportTimers(pre, post, s.store, job);
    ReportThreads(s, job);
    ThreadsSame(s.(store := ReportJob(s.store, job)), q);
  }

  lemma ThreadsSame(s: Sys, p: Pool)
    requires ThreadsInv(s) && |p.tagged| == |s.pool.tagged|
    ensures ThreadsInv(s.(pool := p))
  {
  }

  lemma FateThread(s: Sys, job: BatchJob)
    requires ThreadsInv(s) && Reportable(s.store, job)
    ensures FateIn(s.store, job).Queues? ==> ValidThread(s.pool, FateIn(s.store, job).thread)
  {
    assert s.store.heap[job.batch] == s.store.heap[job.batch];
  }

  lemma HandlePoolInv(s: Sys, w: nat)
    requires CoreInv(s) && w < |s.pool.workers| && s.pool.workers[w].outbox != []
    ensures CoreInv(HandlePool(s, w))
  {
    var worker := s.pool.workers[w];
    assert Legal(worker);
    if worker.outbox[0] == Quitting {
      JoinPoolInv(s.pool, w);
      forall j { JoinMoves(s.pool, w, j); }
      PoolStep(s, JoinPool(s.pool, w));
    } else {
      PoolRanInv(s.pool, w);
      forall j { PoolRanMoves(s.pool, w, j); }
      PoolRanTagged(s.pool, w);
      match worker.load {
        case CommandLoad(_) => PoolStep(s, PoolRan(s.pool, w));
        case BatchLoad(job, reply) => ReportCore(s, PoolRan(s.pool, w), job, reply, HandlePool(s, w).pool);
      }
    }
  }

  lemma PoolRanTagged(p: Pool, w: nat)
    requires w < |p.workers| && p.workers[w].outbox != [] && !p.workers[w].load.Nothing?
    ensures PoolRan(p, w).tagged == p.tagged
  {
  }

  lemma HandleTaggedInv(s: Sys, t: nat)
    requires CoreInv(s) && t < |s.pool.tagged| && s.pool.tagged[t].worker.outbox != []
    ensures CoreInv(HandleTagged(s, t))
  {
    var worker := s.pool.tagged[t].worker;
    assert Legal(worker) && (Busy(worker) ==> worker.load.BatchLoad?);
    if worker.outbox[0] == Quitting {
      JoinTaggedInv(s.pool, t);
      forall j { JoinTaggedMoves(s.pool, t, j); }
      PoolStep(s, JoinTagged(s.pool, t));
    } else {
      TaggedRanInv(s.pool, t);
      forall j { TaggedRanMoves(s.pool, t, j); }
      ReportCore(s, TaggedRan(s.pool, t), worker.load.job, worker.load.reply, HandleTagged(s, t).pool);
    }
  }

  // ----- worker threads -----

  lemma RunCore(s: Sys, p: Pool, job: BatchJob, outcome: Outcome)
    requires CoreInv(s) && PoolInv(p) && |p.tagged| == |s.pool.tagged|
    requires forall j :: Pre(p, j) + One(job == j) == Pre(s.pool, j) && Post(p, j) == Post(s.pool, j) + One(job == j)
    ensures CoreInv(s.(pool := p, store := RunJob(s.store, job, outcome)))
  {
    var pre, post := PreOf(s.pool), PostOf(s.pool);
    assert pre(job) == Pre(s.pool, job) == Pre(p, job) + One(job == job);
    forall k: BatchJob
      ensures pre(k) == PreOf(p)(k) + multiset{job}[k] && PostOf(p)(k) == post(k) + multiset{job}[k]
    {
      assert Pre(p, k) + One(job == k) == Pre(s.pool, k);
    }
    RunJobInv(pre, post, s.store, job, outcome, PreOf(p), PostOf(p));
    WaitingJobIsLive(pre, post, s.store, job);
    RunChangesResults(s.store, job, outcome);
    RunKeepsTimers(s.store, RunJob(s.store, job, outcome));
    RunKeepsThreads(s, p, RunJob(s.store, job, outcome));
  }

  /** Running a job changes results only. */
  ghost predicate SameButResults(st: Store, st': Store) {
    && st'.heap.Keys == st.heap.Keys && st'.timers == st.timers && st'.armed == st.armed
    && (forall b {:trigger st'.heap[b]} {:trigger st.heap[b]} | b in st.heap ::
          && st'.heap[b].Batch? == st.heap[b].Batch?
          && (st.heap[b].Batch? ==> st'.heap[b].completion == st.heap[b].completion))
  }

  lemma RunChangesResults(st: Store, job: BatchJob, outcome: Outcome)
    requires job.batch in st.heap
    ensures SameButResults(st, RunJob(st, job, outcome))
  {
    var st', obj := RunJob(st, job, outcome), st.heap[job.batch];
    if 0 <= job.jobno < Size(obj) {
      var obj' := StoreResult(obj, job.jobno, outcome);
      assert st'.heap == st.heap[job.batch := obj'] && st'.heap.Keys == st.heap.Keys;
      assert obj'.Batch? == obj.Batch? && (obj.Batch? ==> obj'.completion == obj.completion);
    } else {
      assert st'.heap == st.heap;
    }
  }

  lemma RunKeepsTimers(st: Store, st': Store)
    requires TimersInv(st) && SameButResults(st, st')
    ensures TimersInv(st')
  {
    forall b, t ensures Rearms(st', b, t) <==> Rearms(st, b, t) {
      assert b in st'.heap <==> b in st.heap;
    }
  }

  lemma RunKeepsThreads(s: Sys, p: Pool, st': Store)
    requires ThreadsInv(s) && SameButResults(s.store, st') && |p.tagged| == |s.pool.tagged|
    ensures ThreadsInv(s.(pool := p, store := st'))
  {
  }

  /** Running a job moves it from waiting to run; other steps move nothing. */
  lemma PoolThreadMoves(p: Pool, w: nat, j: BatchJob)
    requires w < |p.workers| && CanStep(p.workers[w]) && Legal(p.workers[w])
    ensures var w', q := p.workers[w], SetWorker(p, w, ThreadStep(p.workers[w]));
      && Pre(q, j) + One(w'.thread.Working? && IsJob(w'.load, j)) == Pre(p, j)
      && Post(q, j) == Post(p, j) + One(w'.thread.Working? && IsJob(w'.load, j))
  {
    ThreadStepHolds(p.workers[w], j);
    SetWorkerMoves(p, w, ThreadStep(p.workers[w]), j);
  }

  lemma PoolThreadPool(p: Pool, w: nat)
    requires PoolInv(p) && w < |p.workers| && CanStep(p.workers[w])
    ensures PoolInv(SetWorker(p, w, ThreadStep(p.workers[w]))) && Legal(p.workers[w])
  {
    assert Legal(p.workers[w]);
    ThreadStepKeepsStatus(p.workers[w]);
    SetWorkerInv(p, w, ThreadStep(p.workers[w]));
  }

  /** The step of a worker that holds `w` moves the job it runs, if it runs one. */
  lemma ThreadCore(s: Sys, p: Pool, w: Worker, outcome: Outcome)
    requires CoreInv(s) && PoolInv(p) && |p.tagged| == |s.pool.tagged|
    requires forall j ::
      && Pre(p, j) + One(w.thread.Working? && IsJob(w.load, j)) == Pre(s.pool, j)
      && Post(p, j) == Post(s.pool, j) + One(w.thread.Working? && IsJob(w.load, j))
    ensures CoreInv(s.(pool := p, store := RunBy(s.store, w, outcome)))
  {
    if w.thread.Working? && w.load.BatchLoad? {
      forall j ensures IsJob(w.load, j) == (w.load.job == j) {}
      RunCore(s, p, w.load.job, outcome);
      assert RunBy(s.store, w, outcome) == RunJob(s.store, w.load.job, outcome);
    } else {
      PoolStep(s, p);
      assert RunBy(s.store, w, outcome) == s.store;
    }
  }

  lemma PoolThreadInv(s: Sys, w: nat, outcome: Outcome)
    requires CoreInv(s) && Enabled(s, PoolThread(w, outcome))
    ensures CoreInv(Next(s, PoolThread(w, outcome)))
  {
    PoolThreadPool(s.pool, w);
    forall j { PoolThreadMoves(s.pool, w, j); }
    ThreadCore(s, SetWorker(s.pool, w, ThreadStep(s.pool.workers[w])), s.pool.workers[w], outcome);
  }

  /** Running a job moves it from waiting to run; other steps move nothing. */
  lemma TaggedThreadMoves(p: Pool, t: nat, j: BatchJob)
    requires t < |p.tagged| && CanStep(p.tagged[t].worker) && Legal(p.tagged[t].worker)
    ensures var w', q := p.tagged[t].worker, SetTagged(p, t, ThreadStep(p.tagged[t].worker));
      && Pre(q, j) + One(w'.thread.Working? && IsJob(w'.load, j)) == Pre(p, j)
      && Post(q, j) == Post(p, j) + One(w'.thread.Working? && IsJob(w'.load, j))
  {
    ThreadStepHolds(p.tagged[t].worker, j);
    SetTaggedMoves(p, t, ThreadStep(p.tagged[t].worker), j);
  }

  lemma TaggedThreadPool(p: Pool, t: nat)
    requires PoolInv(p) && t < |p.tagged| && CanStep(p.tagged[t].worker)
    ensures PoolInv(SetTagged(p, t, ThreadStep(p.tagged[t].worker))) && Legal(p.tagged[t].worker)
  {
    assert Legal(p.tagged[t].worker);
    ThreadStepKeepsStatus(p.tagged[t].worker);
    SetTaggedInv(p, t, ThreadStep(p.tagged[t].worker));
  }

  lemma TaggedThreadInv(s: Sys, t: nat, outcome: Outcome)
    requires CoreInv(s) && Enabled(s, TaggedThread(t, outcome))
    ensures CoreInv(Next(s, TaggedThread(t, outcome)))
  {
    var worker := s.pool.tagged[t].worker;
    TaggedThreadPool(s.pool, t);
    forall j { TaggedThreadMoves(s.pool, t, j); }
    ThreadCore(s, SetTagged(s.pool, t, ThreadStep(worker)), worker, outcome);
  }

  // ----- the proxy loop -----

  /** The dispatch phases exist only before QUIT. */
  predicate Dispatching(phase: Phase) { phase.ToTagged? || phase.ToQueue? || phase.Scan? }

  lemma ToTaggedInv(s: Sys, t: nat)
    requires CoreInv(s) && !ShuttingDown(s.pool) && t < |s.pool.tagged| && CanRunTagged(s.pool, t)
    ensures CoreInv(s.(pool := RunTagged(s.pool, t)))
  {
    RunTaggedInv(s.pool, t);
    forall j { RunTaggedMoves(s.pool, t, j); }
    PoolStep(s, RunTagged(s.pool, t));
  }

  lemma ToQueueInv(s: Sys, reply: bool)
    requires CoreInv(s) && !ShuttingDown(s.pool) && CanRunQueue(s.pool, reply)
    ensures CoreInv(s.(pool := RunQueueFront(s.pool, reply)))
  {
    var p := s.pool;
    RunQueueFrontInv(p, reply);
    forall j { RunQueueFrontMoves(p, reply, j); }
    QueueFrontFrame(p, reply);
    PoolStep(s, RunQueueFront(p, reply));
  }

  lemma QueueFrontFrame(p: Pool, reply: bool)
    requires PoolInv(p) && CanRunQueue(p, reply)
    ensures RunQueueFront(p, reply).tagged == p.tagged && RunQueueFront(p, reply).pending == p.pending
  {
    DispatchTarget(p, QueueClass(reply));
    DispatchFrame(PopQueue(p, reply), BatchLoad(QueueOf(p, reply)[0], reply));
  }

  lemma ScanInv(s: Sys, i: nat)
    requires CoreInv(s) && !ShuttingDown(s.pool) && i < |s.pool.pending| && CanRunPending(s.pool, i)
    ensures CoreInv(s.(pool := RunPending(s.pool, i)))
  {
    var p := s.pool;
    RunPendingInv(p, i);
    forall j { RunPendingMoves(p, i, j); }
    DispatchTarget(p, CategoryClass(p.pending[i].cat));
    DispatchFrame(p, CommandLoad(p.pending[i]));
    PoolStep(s, RunPending(p, i));
  }

  /** Only the program counter and the histories differ. */
  lemma SameCore(s: Sys, s': Sys)
    requires CoreInv(s) && s'.pool == s.pool && s'.store == s.store
    ensures CoreInv(s')
  {
  }

  lemma ProceedInv(s: Sys)
    requires CoreInv(s) && (Dispatching(s.phase) ==> !ShuttingDown(s.pool))
    ensures CoreInv(Proceed(s))
  {
    if ProceedPool(s) == s.pool {
      SameCore(s, Proceed(s));
    } else {
      ProceedPoolInv(s);
      SameCore(s.(pool := ProceedPool(s)), Proceed(s));
    }
  }

  lemma ProceedPoolInv(s: Sys)
    requires CoreInv(s) && !ShuttingDown(s.pool) && ProceedPool(s) != s.pool
    ensures CoreInv(s.(pool := ProceedPool(s)))
  {
    match s.phase {
      case ToTagged(t) => ToTaggedInv(s, t);
      case ToQueue(reply) => ToQueueInv(s, reply);
      case Scan(i) => ScanInv(s, i);
    }
  }

  lemma AdmitCommandInv(s: Sys, cmd: Command)
    requires CoreInv(s) && cmd.cat < |s.pool.cats|
    ensures CoreInv(AdmitCommand(s, cmd))
  {
    AdmitInv(s.pool, cmd);
    forall j { AdmitMoves(s.pool, cmd, j); }
    match Admit(s.pool, cmd) {
      case Admitted(p) =>
        DispatchTarget(s.pool, CategoryClass(cmd.cat));
        DispatchFrame(s.pool, CommandLoad(cmd));
        PoolStep(s, p);
      case Queued(p) => PoolStep(s, p);
      case Dropped =>
    }
  }

  lemma TimerSetInv(s: Sys, st': Store)
    requires CoreInv(s) && st' == s.store.(timers := st'.timers, armed := st'.armed)
    requires st'.armed <= st'.timers.Keys
    requires forall t | t in s.store.timers :: t in st'.timers && st'.timers[t] == s.store.timers[t]
    requires forall t | t in st'.timers && t !in s.store.timers ::
      !st'.timers[t].running && (st'.timers[t].thread == -1 || ValidThread(s.pool, st'.timers[t].thread))
    ensures CoreInv(s.(store := st'))
  {
    SameLedger(PreOf(s.pool), PostOf(s.pool), s.store, st');
    assert forall b, t :: Rearms(st', b, t) <==> Rearms(s.store, b, t);
  }

  lemma SubmitBatchInv(s: Sys, obj: Batch)
    requires CoreInv(s) && NewObject(obj) && !(obj.Batch? && obj.completion.Rearm?)
    requires forall i | 0 <= i < Size(obj) :: ValidThread(s.pool, ThreadOf(obj, i))
    requires obj.Batch? && obj.completion.InThread? ==>
      obj.completion.thread == -1 || ValidThread(s.pool, obj.completion.thread)
    ensures CoreInv(AddBatch(s, obj))
  {
    AddBatchInv(s, obj);
    NextIsFree(s);
    SubmitTimers(s.store, obj);
    SubmitThreads(s, obj);
    ThreadsSame(s.(store := Submit(s.store, obj)), AddBatch(s, obj).pool);
  }

  lemma ScheduleReplyInv(s: Sys)
    requires CoreInv(s)
    ensures CoreInv(AddReply(s))
  {
    AddReplyInv(s);
    NextIsFree(s);
    SubmitTimers(s.store, Job(0));
    SubmitThreads(s, Job(0));
  }

  lemma QuitInv(s: Sys)
    requires CoreInv(s) && !ShuttingDown(s.pool)
    ensures CoreInv(s.(pool := QuitAll(s.pool)))
  {
    QuitAllInv(s.pool);
    forall j { QuitMoves(s.pool, j); }
    PoolStep(s, QuitAll(s.pool));
  }

  /** Every action keeps the invariant. */
  lemma NextInv(s: Sys, a: Action)
    requires CoreInv(s) && Enabled(s, a) && (Dispatching(s.phase) ==> !ShuttingDown(s.pool))
    ensures CoreInv(Next(s, a))
  {
    match a {
      case SubmitBatch(threads, completion, surplus) => SubmitBatchInv(s, Submission(threads, completion, surplus));
      case SubmitJob(thread) => SubmitBatchInv(s, Job(thread));
      case ScheduleReply => ScheduleReplyInv(s);
      case Inject(cmd) => AdmitCommandInv(s, cmd);
      case Receive(cmd) => AdmitCommandInv(s, cmd);
      case AddTimer(timer, squelch, thread) => TimerSetInv(s, Arm(s.store, timer, squelch, thread));
      case CancelTimer(timer) => TimerSetInv(s, s.store.(armed := s.store.armed - {timer}));
      case FireTimer(timer) => FireInv(s, timer);
      case Quit => QuitInv(s);
      case PoolMessage(w) => HandlePoolInv(s, w);
      case TaggedMessage(t) => HandleTaggedInv(s, t);
      case Advance => ProceedInv(s);
      case PoolThread(w, outcome) => PoolThreadInv(s, w, outcome);
      case TaggedThread(t, outcome) => TaggedThreadInv(s, t, outcome);
    }
  }
}
