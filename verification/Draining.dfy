/** Without further input the machine finishes what it was given.  The steps that are left are counted
    exactly, so no run can take more of them; and before QUIT, from every reachable state, there is a run
    that takes them all, after which nothing is queued or running. */
module Draining {
  import opened Workers
  import opened Pool
  import opened Batches
  import opened System
  import opened PoolProofs
  import opened BatchProofs
  import opened Tokens
  import opened SystemProofs
  import opened Order
  import opened Theorems
  import opened Placement
  import opened AfterQuit
  import opened Composition

  // ----- the steps that are left -----

  /** Steps left for the job in a slot (take RUN, run it, report, have the report handled), and the one
      that consumes START. */
  function Todo(w: Worker): nat {
    (if w.thread.AwaitingStart? then 1 else 0)
    + (if !Busy(w) then 0
       else if w.outbox != [] then 1
       else if w.thread.Executed? then 2
       else if w.thread.Working? then 3
       else 4)
  }

  /** Those four, and the dispatch. */
  const STEPS_PER_JOB: nat := 5

  function TodoWorkers(ws: seq<Worker>): nat {
    if ws == [] then 0 else TodoWorkers(ws[..|ws| - 1]) + Todo(ws[|ws| - 1])
  }

  function TodoOf(t: Tagged): nat { Todo(t.worker) + STEPS_PER_JOB * |t.queue| }

  function TodoTagged(ts: seq<Tagged>): nat {
    if ts == [] then 0 else TodoTagged(ts[..|ts| - 1]) + TodoOf(ts[|ts| - 1])
  }

  function PoolEffort(p: Pool): nat {
    TodoWorkers(p.workers) + TodoTagged(p.tagged)
    + STEPS_PER_JOB * (|p.batchJobs| + |p.replyJobs| + |p.pending|)
  }

  /** The completion of such a batch will be queued. */
  predicate WillComplete(b: Batch) {
    b.Batch? && b.completion.InThread? && b.completion.thread >= 0 && Surplus(b) == 0
  }

  /** Live batches whose completion is still to be queued. */
  function ToComplete(st: Store): set<nat> {
    set b | b in st.heap && b in st.submitted && WillComplete(st.submitted[b]) && BatchJob(b, -1) !in st.created
  }

  function Effort(s: Sys): nat { PoolEffort(s.pool) + STEPS_PER_JOB * |ToComplete(s.store)| }

  /** `n` of the steps were taken; a worker that is new needs no RUN, which saves one. */
  predicate Spends(s: Sys, s': Sys, n: nat) {
    && Effort(s') + |s'.pool.workers| + n == Effort(s) + |s.pool.workers|
    && |s'.pool.workers| >= |s.pool.workers|
  }

  lemma {:induction false} TodoWorkersUpdate(ws: seq<Worker>, i: nat, w: Worker)
    requires i < |ws|
    ensures TodoWorkers(ws[i := w]) == TodoWorkers(ws) - Todo(ws[i]) + Todo(w)
  {
    var n := |ws| - 1;
    if i == n {
      assert ws[i := w][..n] == ws[..n];
    } else {
      assert ws[i := w][..n] == ws[..n][i := w];
      TodoWorkersUpdate(ws[..n], i, w);
    }
  }

  lemma {:induction false} TodoTaggedUpdate(ts: seq<Tagged>, i: nat, t: Tagged)
    requires i < |ts|
    ensures TodoTagged(ts[i := t]) == TodoTagged(ts) - TodoOf(ts[i]) + TodoOf(t)
  {
    var n := |ts| - 1;
    if i == n {
      assert ts[i := t][..n] == ts[..n];
    } else {
      assert ts[i := t][..n] == ts[..n][i := t];
      TodoTaggedUpdate(ts[..n], i, t);
    }
  }

  // ----- steps of the threads -----

  predicate SameWork(st: Store, st': Store) {
    st'.submitted == st.submitted && st'.heap.Keys == st.heap.Keys && st'.created == st.created
  }

  lemma SameToComplete(st: Store, st': Store)
    requires SameWork(st, st')
    ensures ToComplete(st') == ToComplete(st)
  {
  }

  lemma RunKeepsWork(st: Store, w: Worker, outcome: Outcome)
    ensures SameWork(st, RunBy(st, w, outcome))
  {
    if w.thread.Working? && w.load.BatchLoad? { RunJobKeepsWork(st, w.load.job, outcome); }
  }

  lemma RunJobKeepsWork(st: Store, job: BatchJob, outcome: Outcome)
    ensures SameWork(st, RunJob(st, job, outcome))
  {
    if job.batch in st.heap {
      var obj := st.heap[job.batch];
      if 0 <= job.jobno < Size(obj) {
        assert RunJob(st, job, outcome).heap == st.heap[job.batch := StoreResult(obj, job.jobno, outcome)];
      }
    }
  }

  lemma StepTodo(w: Worker)
    requires Legal(w) && !Retiring(w) && CanStep(w)
    ensures Todo(ThreadStep(w)) == Todo(w) - 1
  {
  }

  lemma PoolThreadSpends(s: Sys, w: nat, outcome: Outcome)
    requires PoolInv(s.pool) && !ShuttingDown(s.pool) && Enabled(s, PoolThread(w, outcome))
    ensures Spends(s, Next(s, PoolThread(w, outcome)), 1)
  {
    var worker := s.pool.workers[w];
    assert Legal(worker) && !Retiring(worker);
    StepTodo(worker);
    TodoWorkersUpdate(s.pool.workers, w, ThreadStep(worker));
    RunKeepsWork(s.store, worker, outcome);
    SameToComplete(s.store, RunBy(s.store, worker, outcome));
  }

  lemma TaggedThreadSpends(s: Sys, t: nat, outcome: Outcome)
    requires PoolInv(s.pool) && !ShuttingDown(s.pool) && Enabled(s, TaggedThread(t, outcome))
    ensures Spends(s, Next(s, TaggedThread(t, outcome)), 1)
  {
    var worker := s.pool.tagged[t].worker;
    assert Legal(worker) && !Retiring(worker);
    StepTodo(worker);
    TodoTaggedUpdate(s.pool.tagged, t, s.pool.tagged[t].(worker := ThreadStep(worker)));
    RunKeepsWork(s.store, worker, outcome);
    SameToComplete(s.store, RunBy(s.store, worker, outcome));
  }

  // ----- reports -----

  lemma EnqueueEffort(p: Pool, thread: int, job: BatchJob)
    requires ValidThread(p, thread)
    ensures var q := Enqueue(p, thread, job);
      PoolEffort(q) == PoolEffort(p) + STEPS_PER_JOB && q.workers == p.workers
  {
    if thread > 0 { TodoTaggedUpdate(p.tagged, thread - 1, Enqueue(p, thread, job).tagged[thread - 1]); }
  }

  lemma CompletionEffort(p: Pool, fate: Fate, reply: bool, job: BatchJob)
    requires fate.Queues? ==> ValidThread(p, fate.thread)
    ensures var q := EnqueueCompletion(p, fate, reply, job);
      PoolEffort(q) == PoolEffort(p) + (if fate.Queues? then STEPS_PER_JOB else 0) && q.workers == p.workers
  {
    if fate.Queues? && (fate.thread > 0 || !reply) { EnqueueEffort(p, fate.thread, job); }
  }

  /** A report that queues the completion of a batch takes the batch off the list; no other does. */
  lemma ReportCompletes(st: Store, j: BatchJob)
    requires j.batch in st.submitted && BatchOk(st, j.batch) && Reportable(st, j) && st.finished <= st.ran <= st.created
    ensures |ToComplete(ReportJob(st, j))| == |ToComplete(st)| - (if FateIn(st, j).Queues? then 1 else 0)
  {
    var st', b := ReportJob(st, j), j.batch;
    if j.jobno >= 0 && st.heap[b].Batch? { FinishCounts(st, j, st.finished + multiset{j}); }
    assert j == BatchJob(b, j.jobno);
    CompletionIsDue(st, j);
    match FateIn(st, j) {
      case Kept => assert st'.heap.Keys == st.heap.Keys; SameToComplete(st, st');
      case Queues(_) => assert st'.heap.Keys == st.heap.Keys; OneLess(st, st', b);
      case Deleted => EndedNotListed(st, st', b);
      case CompletedHere => EndedNotListed(st, st', b);
    }
  }

  lemma OneLess(st: Store, st': Store, b: nat)
    requires b in ToComplete(st) && st'.submitted == st.submitted && st'.heap.Keys == st.heap.Keys
    requires st'.created == st.created + multiset{BatchJob(b, -1)}
    ensures |ToComplete(st')| == |ToComplete(st)| - 1
  {
    assert ToComplete(st') == ToComplete(st) - {b};
  }

  lemma EndedNotListed(st: Store, st': Store, b: nat)
    requires b !in ToComplete(st) && st'.submitted == st.submitted && st'.heap == st.heap - {b}
    requires st'.created == st.created || st'.created == st.created + multiset{BatchJob(b, -1)}
    ensures ToComplete(st') == ToComplete(st)
  {
  }

  /** The batch is on the list if the report queues its completion, and not if the report ends it. */
  lemma CompletionIsDue(st: Store, j: BatchJob)
    requires j.batch in st.submitted && BatchOk(st, j.batch) && Reportable(st, j)
    requires j.jobno >= 0 && st.heap[j.batch].Batch? ==>
      && BatchJob(j.batch, -1) !in st.created
      && (st.heap[j.batch].outstanding == 1 ==> Surplus(st.submitted[j.batch]) == 0)
    ensures FateIn(st, j).Queues? ==> j.batch in ToComplete(st)
    ensures FateIn(st, j).Deleted? || FateIn(st, j).CompletedHere? ==> j.batch !in ToComplete(st)
  {
    assert j == BatchJob(j.batch, j.jobno);
  }

  /** `p` is the pool after the worker's own bookkeeping. */
  lemma ReportSpends(s: Sys, p: Pool, job: BatchJob, reply: bool, s': Sys)
    requires CoreInv(s) && Reportable(s.store, job) && |p.tagged| == |s.pool.tagged|
    requires PoolEffort(p) == PoolEffort(s.pool) - 1 && |p.workers| == |s.pool.workers|
    requires s'.pool == EnqueueCompletion(p, FateIn(s.store, job), reply, BatchJob(job.batch, -1))
    requires s'.store == ReportJob(s.store, job)
    ensures Spends(s, s', 1)
  {
    assert BatchOk(s.store, job.batch);
    LedgerOrder(PreOf(s.pool), PostOf(s.pool), s.store);
    ReportCompletes(s.store, job);
    FateThread(s, job);
    CompletionEffort(p, FateIn(s.store, job), reply, BatchJob(job.batch, -1));
  }

  lemma RanTodo(w: Worker)
    requires Busy(w) && w.outbox != []
    ensures Todo(w) == 1 && Todo(TakeReport(w)) == 0
  {
  }

  lemma PoolRanEffort(p: Pool, w: nat)
    requires !ShuttingDown(p) && w < |p.workers| && Busy(p.workers[w]) && p.workers[w].outbox != []
    ensures var q := PoolRan(p, w);
      PoolEffort(q) == PoolEffort(p) - 1 && |q.workers| == |p.workers| && |q.tagged| == |p.tagged|
  {
    RanTodo(p.workers[w]);
    var q := PoolRan(p, w);
    assert q.workers == p.workers[w := TakeReport(p.workers[w])] && q.tagged == p.tagged;
    TodoWorkersUpdate(p.workers, w, TakeReport(p.workers[w]));
  }

  lemma TaggedRanEffort(p: Pool, t: nat)
    requires !ShuttingDown(p) && t < |p.tagged| && Busy(p.tagged[t].worker) && p.tagged[t].worker.outbox != []
    ensures var q := TaggedRan(p, t);
      PoolEffort(q) == PoolEffort(p) - 1 && q.workers == p.workers && |q.tagged| == |p.tagged|
  {
    RanTodo(p.tagged[t].worker);
    TodoTaggedUpdate(p.tagged, t, TaggedRan(p, t).tagged[t]);
  }

  lemma PoolMessageSpends(s: Sys, w: nat)
    requires CoreInv(s) && !ShuttingDown(s.pool) && w < |s.pool.workers| && s.pool.workers[w].outbox != []
    ensures Spends(s, HandlePool(s, w), 1)
  {
    var worker := s.pool.workers[w];
    assert Legal(worker) && !Retiring(worker);
    PoolRanEffort(s.pool, w);
    if worker.load.BatchLoad? {
      RanIsReportable(s, worker.load.job, worker);
      ReportSpends(s, PoolRan(s.pool, w), worker.load.job, worker.load.reply, HandlePool(s, w));
    }
  }

  lemma TaggedMessageSpends(s: Sys, t: nat)
    requires CoreInv(s) && !ShuttingDown(s.pool) && t < |s.pool.tagged| && s.pool.tagged[t].worker.outbox != []
    ensures Spends(s, HandleTagged(s, t), 1)
  {
    var worker := s.pool.tagged[t].worker;
    assert Legal(worker) && !Retiring(worker) && (Busy(worker) ==> worker.load.BatchLoad?);
    TaggedRanEffort(s.pool, t);
    RanIsReportable(s, worker.load.job, worker);
    ReportSpends(s, TaggedRan(s.pool, t), worker.load.job, worker.load.reply, HandleTagged(s, t));
  }

  // ----- dispatch -----

  lemma LaunchTodo(w: Worker, load: Load)
    requires !load.Nothing?
    ensures Resting(w) ==> Todo(Launch(w, load)) == Todo(w) + 4
    ensures w == FRESH_WORKER ==> Todo(Launch(w, load)) == 3
  {
  }

  lemma DispatchTodo(p: Pool, load: Load)
    requires WorkersOk(p) && TargetOk(p) && !load.Nothing? && Known(p, ClassOf(load))
    ensures var q := Dispatch(p, load);
      && TodoWorkers(q.workers) + |q.workers| == TodoWorkers(p.workers) + |p.workers| + 4
      && |q.workers| >= |p.workers|
  {
    DispatchFrame(p, load);
    if p.idle == [] {
      var w := Launch(FRESH_WORKER, load);
      LaunchTodo(FRESH_WORKER, load);
      assert Dispatch(p, load).workers == p.workers + [w];
      assert (p.workers + [w])[..|p.workers|] == p.workers;
    } else {
      var id := IdleWorkerId(p);
      assert id in p.idle;
      LaunchTodo(p.workers[id], load);
      TodoWorkersUpdate(p.workers, id, Launch(p.workers[id], load));
    }
  }

  lemma RunTaggedSpends(s: Sys, t: nat)
    requires PoolInv(s.pool) && !ShuttingDown(s.pool) && t < |s.pool.tagged| && CanRunTagged(s.pool, t)
    ensures Spends(s, s.(pool := RunTagged(s.pool, t)), 1)
  {
    var tw, p := s.pool.tagged[t], s.pool;
    assert Legal(tw.worker) && Resting(tw.worker);
    LaunchTodo(tw.worker, BatchLoad(tw.queue[0], false));
    TodoTaggedUpdate(p.tagged, t, RunTagged(p, t).tagged[t]);
  }

  lemma RunQueueSpends(s: Sys, reply: bool)
    requires PoolInv(s.pool) && CanRunQueue(s.pool, reply)
    ensures Spends(s, s.(pool := RunQueueFront(s.pool, reply)), 1)
  {
    var p, load := PopQueue(s.pool, reply), BatchLoad(QueueOf(s.pool, reply)[0], reply);
    DispatchTarget(s.pool, QueueClass(reply));
    DispatchFrame(p, load);
    DispatchTodo(p, load);
  }

  lemma RunPendingSpends(s: Sys, i: nat)
    requires PoolInv(s.pool) && i < |s.pool.pending| && CanRunPending(s.pool, i)
    ensures Spends(s, s.(pool := RunPending(s.pool, i)), 1)
  {
    var p, load := s.pool, CommandLoad(s.pool.pending[i]);
    DispatchTarget(p, CategoryClass(p.pending[i].cat));
    DispatchFrame(p, load);
    DispatchTodo(p, load);
    var q := RunPending(p, i);
    assert |q.pending| == |p.pending| - 1 && q.workers == Dispatch(p, load).workers && q.tagged == p.tagged;
  }

  lemma AdvanceSpends(s: Sys)
    requires PoolInv(s.pool) && !ShuttingDown(s.pool)
    ensures Spends(s, Proceed(s), if ProceedPool(s) == s.pool then 0 else 1)
  {
    if ProceedPool(s) != s.pool {
      match s.phase {
        case ToTagged(t) => RunTaggedSpends(s, t);
        case ToQueue(reply) => RunQueueSpends(s, reply);
        case Scan(i) => RunPendingSpends(s, i);
      }
    }
  }

  // ----- all runs without input -----

  /** A step of a thread, the handling of a message, or a step of the loop: no input. */
  predicate NoInput(a: Action) {
    a.PoolMessage? || a.TaggedMessage? || a.PoolThread? || a.TaggedThread? || a.Advance?
  }

  /** Everything but a turn of the loop that dispatches nothing. */
  function Work(s: Sys, a: Action): nat { if a.Advance? && ProceedPool(s) == s.pool then 0 else 1 }

  function WorkDone(s: Sys, actions: seq<Action>): nat
    requires IsRun(s, actions)
    decreases |actions|
  {
    if actions == [] then 0 else Work(s, actions[0]) + WorkDone(Next(s, actions[0]), actions[1..])
  }

  lemma StepSpends(s: Sys, a: Action)
    requires Inv(s) && !ShuttingDown(s.pool) && Enabled(s, a) && NoInput(a)
    ensures Spends(s, Next(s, a), Work(s, a))
  {
    match a {
      case PoolMessage(w) => PoolMessageSpends(s, w);
      case TaggedMessage(t) => TaggedMessageSpends(s, t);
      case PoolThread(w, outcome) => PoolThreadSpends(s, w, outcome);
      case TaggedThread(t, outcome) => TaggedThreadSpends(s, t, outcome);
      case Advance => AdvanceSpends(s);
    }
  }

  /** Nothing is queued or running, and every thread has started. */
  predicate AtRest(p: Pool) {
    && p.batchJobs == [] && p.replyJobs == [] && p.pending == []
    && (forall w | 0 <= w < |p.workers| :: Todo(p.workers[w]) == 0)
    && (forall t | 0 <= t < |p.tagged| :: TodoOf(p.tagged[t]) == 0)
  }

  lemma {:induction false} NoTodo(ws: seq<Worker>)
    ensures TodoWorkers(ws) == 0 <==> forall w | 0 <= w < |ws| :: Todo(ws[w]) == 0
  {
    if ws != [] {
      var n := |ws| - 1;
      NoTodo(ws[..n]);
      assert forall w | 0 <= w < n :: ws[..n][w] == ws[w];
    }
  }

  lemma {:induction false} NoTodoTagged(ts: seq<Tagged>)
    ensures TodoTagged(ts) == 0 <==> forall t | 0 <= t < |ts| :: TodoOf(ts[t]) == 0
  {
    if ts != [] {
      var n := |ts| - 1;
      NoTodoTagged(ts[..n]);
      assert forall t | 0 <= t < n :: ts[..n][t] == ts[t];
    }
  }

  lemma PoolAtRest(p: Pool)
    ensures PoolEffort(p) == 0 <==> AtRest(p)
  {
    NoTodo(p.workers);
    NoTodoTagged(p.tagged);
  }

  lemma {:induction false} NoneHeld(ws: seq<Worker>, j: BatchJob)
    requires forall w | 0 <= w < |ws| :: !Busy(ws[w])
    ensures WorkersPre(ws, j) == 0 && WorkersPost(ws, j) == 0
  {
    if ws != [] { NoneHeld(ws[..|ws| - 1], j); }
  }

  lemma {:induction false} NoneTagged(ts: seq<Tagged>, j: BatchJob)
    requires forall t | 0 <= t < |ts| :: !Busy(ts[t].worker) && ts[t].queue == []
    ensures TaggedPre(ts, j) == 0 && TaggedPost(ts, j) == 0
  {
    if ts != [] { NoneTagged(ts[..|ts| - 1], j); }
  }

  lemma RestHoldsNothing(p: Pool, j: BatchJob)
    requires AtRest(p)
    ensures Pre(p, j) == 0 && Post(p, j) == 0
  {
    forall w | 0 <= w < |p.workers| ensures !Busy(p.workers[w]) { assert Todo(p.workers[w]) == 0; }
    forall t | 0 <= t < |p.tagged| ensures !Busy(p.tagged[t].worker) && p.tagged[t].queue == [] {
      assert TodoOf(p.tagged[t]) == 0;
    }
    NoneHeld(p.workers, j);
    NoneTagged(p.tagged, j);
  }

  /** No step is left exactly when nothing is queued or running. */
  lemma EffortZero(s: Sys)
    requires Inv(s)
    ensures Effort(s) == 0 <==> AtRest(s.pool)
  {
    PoolAtRest(s.pool);
    if AtRest(s.pool) {
      forall j ensures Pre(s.pool, j) == 0 && Post(s.pool, j) == 0 { RestHoldsNothing(s.pool, j); }
      if b :| b in ToComplete(s.store) { LeftIffSurplus(s, b); }
    }
  }

  lemma {:induction false} RunSpends(s: Sys, actions: seq<Action>)
    requires Inv(s) && !ShuttingDown(s.pool) && IsRun(s, actions) && forall a | a in actions :: NoInput(a)
    ensures Spends(s, After(s, actions), WorkDone(s, actions)) && Inv(After(s, actions))
    decreases |actions|
  {
    if actions != [] {
      var s' := Next(s, actions[0]);
      SpendsAndKeeps(s, actions[0]);
      RunSpends(s', actions[1..]);
      SpendsThen(s, s', After(s', actions[1..]), Work(s, actions[0]), WorkDone(s', actions[1..]));
    }
  }

  lemma SpendsAndKeeps(s: Sys, a: Action)
    requires Inv(s) && !ShuttingDown(s.pool) && Enabled(s, a) && NoInput(a)
    ensures Spends(s, Next(s, a), Work(s, a)) && Inv(Next(s, a)) && !ShuttingDown(Next(s, a).pool)
  {
    StepSpends(s, a);
    NextKeepsInv(s, a);
    NotYet(s, a);
  }

  lemma SpendsThen(s: Sys, s': Sys, s'': Sys, m: nat, n: nat)
    requires Spends(s, s', m) && Spends(s', s'', n)
    ensures Spends(s, s'', m + n)
  {
  }

  /** In every run without input before QUIT, whatever the interleaving: the steps taken other than idle
      turns of the loop, those left at the end and the new workers add up to the steps left at first.
      So there are at most that many, and everything has been done exactly when they have been taken. */
  lemma WorkIsBounded(s: Sys, actions: seq<Action>)
    requires Reachable(s) && !ShuttingDown(s.pool) && IsRun(s, actions) && forall a | a in actions :: NoInput(a)
    ensures var s' := After(s, actions);
      var created := |s'.pool.workers| - |s.pool.workers|;
      && created >= 0 && WorkDone(s, actions) + Effort(s') + created == Effort(s)
      && (WorkDone(s, actions) + created == Effort(s) <==> AtRest(s'.pool))
  {
    ReachableInv(s);
    RunSpends(s, actions);
    EffortZero(After(s, actions));
  }

  // ----- there is always a step to take -----

  predicate Reporting(p: Pool) {
    || (exists w | 0 <= w < |p.workers| :: p.workers[w].outbox != [])
    || (exists t | 0 <= t < |p.tagged| :: p.tagged[t].worker.outbox != [])
  }

  /** Steps of the loop to the messages of the workers, if there are any; otherwise to the end of the
      dispatch phases. */
  function Rank(s: Sys): int {
    var n, m := |s.pool.pending|, |s.pool.tagged|;
    var dispatch := match s.phase
      case Timers => 4 + n + m
      case ToTagged(t) => 3 + n + m - t
      case ToQueue(reply) => if reply then 1 + n else 2 + n
      case Scan(i) => n - i
      case _ => -1;
    if Reporting(s.pool) then
      match s.phase case WorkerMessages => 0 case Control => 1 case Incoming => 2 case _ => 3 + dispatch
    else
      match s.phase
      case WorkerMessages => 5 + n + m
      case Control => 6 + n + m
      case Incoming => 7 + n + m
      case _ => dispatch
  }

  /** Every step of work, or every turn of the loop towards one, makes this smaller. */
  predicate Less(s': Sys, s: Sys) {
    Effort(s') < Effort(s) || (Effort(s') == Effort(s) && Rank(s') < Rank(s))
  }

  predicate Still(p: Pool) {
    && (forall w | 0 <= w < |p.workers| :: !CanStep(p.workers[w]))
    && (forall t | 0 <= t < |p.tagged| :: !CanStep(p.tagged[t].worker))
  }

  /** Nobody can take a step or has something to say: then nobody is busy. */
  lemma NobodyBusy(p: Pool)
    requires PoolInv(p) && Still(p) && !Reporting(p)
    ensures forall w | 0 <= w < |p.workers| :: !Busy(p.workers[w])
    ensures forall t | 0 <= t < |p.tagged| :: !Busy(p.tagged[t].worker) && !p.tagged[t].busy
  {
    forall w | 0 <= w < |p.workers| ensures !Busy(p.workers[w]) {
      assert !CanStep(p.workers[w]) && p.workers[w].outbox == [];
    }
    forall t | 0 <= t < |p.tagged| ensures !Busy(p.tagged[t].worker) {
      assert !CanStep(p.tagged[t].worker) && p.tagged[t].worker.outbox == [];
    }
  }

  lemma {:induction false} NobodyCounts(ws: seq<Worker>, k: JobClass)
    requires forall w | 0 <= w < |ws| :: !Busy(ws[w])
    ensures CountBusy(ws, k) == 0
  {
    if ws != [] { NobodyCounts(ws[..|ws| - 1], k); }
  }

  /** Then every class may run something. */
  lemma EverythingRunnable(p: Pool, k: JobClass)
    requires PoolInv(p) && !ShuttingDown(p) && Known(p, k)
    requires forall w | 0 <= w < |p.workers| :: !Busy(p.workers[w])
    ensures Runnable(p, k)
  {
    NobodyCounts(p.workers, BatchClass);
    NobodyCounts(p.workers, ReplyClass);
    forall c | c in p.cats ensures c.active == 0 {
      var i :| 0 <= i < |p.cats| && p.cats[i] == c;
      NobodyCounts(p.workers, CategoryClass(i));
    }
    SumsOfZero(p.cats);
  }

  /** At the scan, if nobody is busy and nothing is dispatched, everything has been done. */
  lemma ScanMeansDone(s: Sys)
    requires Inv(s) && !ShuttingDown(s.pool) && s.phase.Scan? && Still(s.pool) && !Reporting(s.pool)
    requires ProceedPool(s) == s.pool
    ensures Effort(s) == 0
  {
    var p := s.pool;
    NobodyBusy(p);
    EverythingRunnable(p, BatchClass);
    EverythingRunnable(p, ReplyClass);
    assert p.batchJobs == [] && p.replyJobs == [];
    ScanIsOver(s);
    forall w | 0 <= w < |p.workers| ensures Todo(p.workers[w]) == 0 {
      assert Legal(p.workers[w]) && !CanStep(p.workers[w]);
    }
    forall t | 0 <= t < |p.tagged| ensures TodoOf(p.tagged[t]) == 0 {
      assert Legal(p.tagged[t].worker) && !CanStep(p.tagged[t].worker) && !CanRunTagged(p, t);
    }
    EffortZero(s);
  }

  lemma ScanIsOver(s: Sys)
    requires Inv(s) && !ShuttingDown(s.pool) && s.phase.Scan? && ProceedPool(s) == s.pool
    requires forall w | 0 <= w < |s.pool.workers| :: !Busy(s.pool.workers[w])
    ensures s.pool.pending == []
  {
    var p, i := s.pool, s.phase.pos;
    ReservationsHeld(p);
    forall k | 0 <= k < |p.pending| ensures CatRunnable(p, p.pending[k].cat) {
      EverythingRunnable(p, CategoryClass(p.pending[k].cat));
    }
    NobodyActive(p);
    if ScanRuns(s) { RunPendingSpends(s, i); }
    assert i >= |p.pending|;
  }

  lemma NobodyActive(p: Pool)
    requires PoolInv(p) && !ShuttingDown(p) && forall w | 0 <= w < |p.workers| :: !Busy(p.workers[w])
    ensures ActiveWorkers(p) == 0 < p.maxWorkers
  {
    NobodyCounts(p.workers, BatchClass);
    NobodyCounts(p.workers, ReplyClass);
    forall c | c in p.cats ensures c.active == 0 {
      var i :| 0 <= i < |p.cats| && p.cats[i] == c;
      NobodyCounts(p.workers, CategoryClass(i));
    }
    SumsOfZero(p.cats);
  }

  /** A turn of the loop that dispatches nothing brings it nearer to where something happens. */
  lemma QuietProgress(s: Sys)
    requires PhaseInv(s) && !ShuttingDown(s.pool) && ProceedPool(s) == s.pool && !s.phase.Stopped?
    requires Reporting(s.pool) ==> !s.phase.WorkerMessages?
    requires !Reporting(s.pool) ==> !s.phase.Scan?
    ensures Less(Proceed(s), s)
  {
    assert Rank(Proceed(s)) < Rank(s);
  }

  lemma AdvanceProgress(s: Sys)
    requires Inv(s) && !ShuttingDown(s.pool) && Effort(s) > 0 && Still(s.pool)
    requires Reporting(s.pool) ==> !s.phase.WorkerMessages?
    ensures Less(Proceed(s), s) && Enabled(s, Advance)
  {
    AdvanceSpends(s);
    if ProceedPool(s) == s.pool {
      if s.phase.Scan? && !Reporting(s.pool) { ScanMeansDone(s); }
      QuietProgress(s);
    }
  }

  /** As long as steps are left, one can be taken, by a thread or by the loop, that makes the measure
      smaller. */
  lemma Progress(s: Sys) returns (a: Action)
    requires Inv(s) && !ShuttingDown(s.pool) && Effort(s) > 0
    ensures Enabled(s, a) && NoInput(a) && Less(Next(s, a), s)
  {
    if w :| 0 <= w < |s.pool.workers| && CanStep(s.pool.workers[w]) {
      a := PoolThread(w, Value(0));
    } else if t :| 0 <= t < |s.pool.tagged| && CanStep(s.pool.tagged[t].worker) {
      a := TaggedThread(t, Value(0));
    } else if s.phase.WorkerMessages? && Reporting(s.pool) {
      a := HandleOne(s);
    } else {
      a := Advance;
      AdvanceProgress(s);
    }
    if !a.Advance? { StepIsLess(s, a); }
  }

  lemma StepIsLess(s: Sys, a: Action)
    requires Inv(s) && !ShuttingDown(s.pool) && Enabled(s, a) && NoInput(a) && !a.Advance?
    ensures Less(Next(s, a), s)
  {
    StepSpends(s, a);
  }

  lemma HandleOne(s: Sys) returns (a: Action)
    requires s.phase.WorkerMessages? && Reporting(s.pool)
    ensures Enabled(s, a) && (a.PoolMessage? || a.TaggedMessage?)
  {
    if w :| 0 <= w < |s.pool.workers| && s.pool.workers[w].outbox != [] {
      a := PoolMessage(w);
    } else {
      var t :| 0 <= t < |s.pool.tagged| && s.pool.tagged[t].worker.outbox != [];
      a := TaggedMessage(t);
    }
  }

  lemma NothingSubmitted(s: Sys, a: Action)
    requires Enabled(s, a) && NoInput(a)
    ensures Next(s, a).store.submitted == s.store.submitted
  {
    match a {
      case PoolMessage(w) => PoolMessageSubmits(s, w);
      case TaggedMessage(t) => TaggedMessageSubmits(s, t);
      case PoolThread(w, outcome) => RunKeepsWork(s.store, s.pool.workers[w], outcome);
      case TaggedThread(t, outcome) => RunKeepsWork(s.store, s.pool.tagged[t].worker, outcome);
      case Advance =>
    }
  }

  lemma PoolMessageSubmits(s: Sys, w: nat)
    requires w < |s.pool.workers| && s.pool.workers[w].outbox != []
    ensures HandlePool(s, w).store.submitted == s.store.submitted
  {
    var worker := s.pool.workers[w];
    if worker.load.BatchLoad? {
      ReportSubmits(s.store, worker.load.job);
      assert HandlePool(s, w).store in {s.store, ReportJob(s.store, worker.load.job)};
    } else {
      assert HandlePool(s, w).store == s.store;
    }
  }

  lemma TaggedMessageSubmits(s: Sys, t: nat)
    requires t < |s.pool.tagged| && s.pool.tagged[t].worker.outbox != []
    ensures HandleTagged(s, t).store.submitted == s.store.submitted
  {
    var worker := s.pool.tagged[t].worker;
    if worker.load.BatchLoad? {
      ReportSubmits(s.store, worker.load.job);
      assert HandleTagged(s, t).store in {s.store, ReportJob(s.store, worker.load.job)};
    } else {
      assert HandleTagged(s, t).store == s.store;
    }
  }

  lemma ReportSubmits(st: Store, job: BatchJob)
    ensures ReportJob(st, job).submitted == st.submitted
  {
  }

  lemma StepKeeps(s: Sys, a: Action)
    requires Inv(s) && !ShuttingDown(s.pool) && Enabled(s, a) && NoInput(a)
    ensures Inv(Next(s, a)) && !ShuttingDown(Next(s, a).pool) && Next(s, a).store.submitted == s.store.submitted
  {
    NextKeepsInv(s, a);
    NotYet(s, a);
    NothingSubmitted(s, a);
  }

  lemma RankIsBounded(s: Sys)
    requires PhaseInv(s) && !ShuttingDown(s.pool)
    ensures Rank(s) >= -1
  {
  }

  lemma {:induction false} Drain(s: Sys) returns (actions: seq<Action>)
    requires Inv(s) && !ShuttingDown(s.pool)
    ensures IsRun(s, actions) && (forall a | a in actions :: NoInput(a))
    ensures AtRest(After(s, actions).pool) && After(s, actions).store.submitted == s.store.submitted
    decreases Effort(s), Rank(s)
  {
    actions := [];
    EffortZero(s);
    if Effort(s) > 0 {
      RankIsBounded(s);
      var a := Progress(s);
      StepKeeps(s, a);
      RankIsBounded(Next(s, a));
      var rest := Drain(Next(s, a));
      StepThen(s, a, rest);
      actions := [a] + rest;
    }
  }

  /** Each job was run exactly once.  A batch that counts just its own jobs has had its completion run
      exactly once, if it has one, and has been deleted exactly once; any other is left over. */
  predicate IsOver(st: Store, b: nat)
    requires b in st.submitted
  {
    var done := Surplus(st.submitted[b]) == 0;
    && (forall i | 0 <= i < Size(st.submitted[b]) :: st.ran[BatchJob(b, i)] == 1)
    && st.deleted[b] == (if done then 1 else 0)
    && st.ran[BatchJob(b, -1)] == (if done && HasCompletion(st.submitted[b]) then 1 else 0)
  }

  lemma RestMeansOver(s: Sys, b: nat)
    requires Reachable(s) && AtRest(s.pool) && b in s.store.submitted
    ensures IsOver(s.store, b)
  {
    ReachableInv(s);
    forall j ensures Pre(s.pool, j) == 0 && Post(s.pool, j) == 0 { RestHoldsNothing(s.pool, j); }
    BatchLifecycle(s, b);
    LeftIffSurplus(s, b);
    assert forall j :: PreOf(s.pool)(j) == 0;
    assert s.store.ran == s.store.created;
  }

  lemma StaysReachable(s: Sys, actions: seq<Action>)
    requires Reachable(s) && IsRun(s, actions)
    ensures Reachable(After(s, actions))
  {
    var s0, before :| Initial(s0) && IsRun(s0, before) && After(s0, before) == s;
    RunThen(s0, before, actions);
  }

  /** From every reachable state before QUIT the loop and the threads, without further input, can get to
      a state in which nothing is queued or running, no command is pending, and every batch submitted
      so far is over. */
  lemma EverythingGetsDone(s: Sys) returns (actions: seq<Action>)
    requires Reachable(s) && !ShuttingDown(s.pool)
    ensures IsRun(s, actions) && (forall a | a in actions :: NoInput(a))
    ensures var s' := After(s, actions);
      && AtRest(s'.pool) && s'.store.submitted == s.store.submitted
      && (forall b | b in s.store.submitted :: IsOver(s'.store, b))
  {
    ReachableInv(s);
    actions := Drain(s);
    StaysReachable(s, actions);
    forall b | b in s.store.submitted ensures IsOver(After(s, actions).store, b) {
      RestMeansOver(After(s, actions), b);
    }
  }
}
