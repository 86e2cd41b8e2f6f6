/** The whole machine: the proxy loop with its program counter, the worker threads, the batches and
    the timers.  An action is one step of the proxy loop (handling one message, dispatching one job,
    moving to the next phase) or one step of one worker thread; a run is any sequence of enabled
    actions, so every interleaving of the proxy with every worker is a run. */
module System {
  import opened Workers
  import opened Pool
  import opened Batches

  /** Program counter of `proxy_loop`; `ToTagged`, `ToQueue` and `Scan` are inside
      `proxy_process_queue`, with the position of its current loop. */
  datatype Phase =
    | Control
    | WorkerMessages
    | Timers
    | ToTagged(next: nat)
    | ToQueue(reply: bool)
    | Scan(pos: nat)
    | Incoming
    | Stopped

  /** `accepted` and `started` record the commands and injected tasks that were not dropped, and
      those given to a worker, in order. */
  datatype Sys = Sys(pool: Pool, store: Store, phase: Phase, accepted: seq<Command>, started: seq<Command>)

  datatype Action =
    | SubmitBatch(threads: seq<int>, completion: Completion, surplus: nat)
    | SubmitJob(thread: int)
    | ScheduleReply
    | Inject(cmd: Command)
    | Receive(cmd: Command)
    | AddTimer(timer: nat, squelch: bool, thread: int)
    | CancelTimer(timer: nat)
    | FireTimer(timer: nat)
    | Quit
    | PoolMessage(worker: nat)
    | TaggedMessage(tagged: nat)
    | Advance
    | PoolThread(worker: nat, outcome: Outcome)
    | TaggedThread(tagged: nat, outcome: Outcome)

  // ----- what may happen when -----

  /** A tagged thread id handed out by `add_tagged_thread`, or 0 for the pool. */
  predicate ValidThread(p: Pool, thread: int) { 0 <= thread <= |p.tagged| }

  predicate CanStep(w: Worker) {
    || (w.inbox != [] && (w.thread.Waiting? || w.thread.AwaitingStart?))
    || w.thread.Working? || w.thread.Executed?
  }

  predicate Enabled(s: Sys, a: Action) {
    match a
    case SubmitBatch(threads, completion, _) =>
      && s.phase == Control && threads != [] && (forall t | t in threads :: ValidThread(s.pool, t))
      && !completion.Rearm?
      && (completion.InThread? ==> completion.thread == -1 || ValidThread(s.pool, completion.thread))
    case SubmitJob(thread) => s.phase == Control && ValidThread(s.pool, thread)
    case ScheduleReply => s.phase == Control || s.phase == Incoming
    case Inject(cmd) => s.phase == Control && cmd.cat < |s.pool.cats|
    case Receive(cmd) => s.phase == Incoming && cmd.cat < |s.pool.cats|
    case AddTimer(timer, _, thread) =>
      s.phase == Control && timer !in s.store.timers && (thread == -1 || ValidThread(s.pool, thread))
    case CancelTimer(_) => s.phase == Control
    case FireTimer(timer) => s.phase == Timers && timer in s.store.armed
    case Quit => s.phase == Control && !ShuttingDown(s.pool)
    case PoolMessage(w) => s.phase == WorkerMessages && w < |s.pool.workers| && s.pool.workers[w].outbox != []
    case TaggedMessage(t) => s.phase == WorkerMessages && t < |s.pool.tagged| && s.pool.tagged[t].worker.outbox != []
    case Advance => s.phase != Stopped
    case PoolThread(w, outcome) => w < |s.pool.workers| && CanStep(s.pool.workers[w]) && outcome != NotRun
    case TaggedThread(t, outcome) => t < |s.pool.tagged| && CanStep(s.pool.tagged[t].worker) && outcome != NotRun
  }

  // ----- steps -----

  /** Queue jobs 0 .. n-1 of batch `b` where they have to run (`proxy_batch`). */
  function EnqueueJobs(p: Pool, obj: Batch, b: nat, n: nat): Pool
    requires n <= Size(obj)
  {
    if n == 0 then p else Enqueue(EnqueueJobs(p, obj, b, n - 1), ThreadOf(obj, n - 1), BatchJob(b, n - 1))
  }

  function AddBatch(s: Sys, obj: Batch): Sys {
    s.(pool := EnqueueJobs(s.pool, obj, s.store.next, Size(obj)), store := Submit(s.store, obj))
  }

  /** `proxy_schedule_reply_job`. */
  function AddReply(s: Sys): Sys {
    s.(pool := s.pool.(replyJobs := s.pool.replyJobs + [BatchJob(s.store.next, 0)]), store := Submit(s.store, Job(0)))
  }

  function AdmitCommand(s: Sys, cmd: Command): Sys
    requires cmd.cat < |s.pool.cats|
  {
    match Admit(s.pool, cmd)
    case Admitted(p) => s.(pool := p, accepted := s.accepted + [cmd], started := s.started + [cmd])
    case Queued(p) => s.(pool := p, accepted := s.accepted + [cmd])
    case Dropped => s
  }

  function Arm(st: Store, timer: nat, squelch: bool, thread: int): Store {
    st.(timers := st.timers[timer := Timer(squelch, false, thread, 0)], armed := st.armed + {timer})
  }

  /** `_queue_timer_job`. */
  function Fire(s: Sys, timer: nat): Sys {
    if timer !in s.store.timers then s
    else
      var t := s.store.timers[timer];
      if (t.squelch && t.running) || t.thread == -1 then s
      else if t.squelch then
        var s' := AddBatch(s, NewBatch([t.thread], Rearm(timer)));
        s'.(store := s'.store.(timers := s'.store.timers[timer := t.(running := true, batch := s.store.next)]))
      else
        AddBatch(s, Job(t.thread))
  }

  /** The queue for a completion job: a tagged thread's, or the queue kind its last job came from. */
  function EnqueueCompletion(p: Pool, fate: Fate, reply: bool, job: BatchJob): Pool {
    if !fate.Queues? then p
    else if fate.thread > 0 || !reply then Enqueue(p, fate.thread, job)
    else p.(replyJobs := p.replyJobs + [job])
  }

  function FateIn(st: Store, job: BatchJob): Fate {
    if job.batch in st.heap then FateOf(st.heap[job.batch], job.jobno) else Kept
  }

  /** `proxy_worker_message` from a pool worker. */
  function HandlePool(s: Sys, w: nat): Sys
    requires w < |s.pool.workers| && s.pool.workers[w].outbox != []
  {
    var worker := s.pool.workers[w];
    if worker.outbox[0] == Quitting then s.(pool := JoinPool(s.pool, w))
    else match worker.load
      case Nothing => s.(pool := s.pool.(fault := true))
      case CommandLoad(_) => s.(pool := PoolRan(s.pool, w))
      case BatchLoad(job, reply) =>
        s.(pool := EnqueueCompletion(PoolRan(s.pool, w), FateIn(s.store, job), reply, BatchJob(job.batch, -1)),
           store := ReportJob(s.store, job))
  }

  /** `proxy_worker_message` from a tagged worker. */
  function HandleTagged(s: Sys, t: nat): Sys
    requires t < |s.pool.tagged| && s.pool.tagged[t].worker.outbox != []
  {
    var worker := s.pool.tagged[t].worker;
    if worker.outbox[0] == Quitting then s.(pool := JoinTagged(s.pool, t))
    else match worker.load
      case BatchLoad(job, reply) =>
        s.(pool := EnqueueCompletion(TaggedRan(s.pool, t), FateIn(s.store, job), reply, BatchJob(job.batch, -1)),
           store := ReportJob(s.store, job))
      case _ => s.(pool := s.pool.(fault := true))
  }

  /** The pending command that the scan has reached may be dispatched. */
  predicate ScanRuns(s: Sys) {
    && s.phase.Scan? && s.phase.pos < |s.pool.pending| && ActiveWorkers(s.pool) < s.pool.maxWorkers
    && CanRunPending(s.pool, s.phase.pos)
  }

  /** The next step of the loop itself: what it dispatches ... */
  function ProceedPool(s: Sys): Pool {
    match s.phase
    case ToTagged(t) => if t < |s.pool.tagged| && CanRunTagged(s.pool, t) then RunTagged(s.pool, t) else s.pool
    case ToQueue(reply) => if CanRunQueue(s.pool, reply) then RunQueueFront(s.pool, reply) else s.pool
    case Scan(i) => if ScanRuns(s) then RunPending(s.pool, i) else s.pool
    case _ => s.pool
  }

  /** ... and where it goes. */
  function ProceedPhase(s: Sys): Phase {
    match s.phase
    case Control => WorkerMessages
    case WorkerMessages => Timers
    case Timers => if ShuttingDown(s.pool) then Incoming else ToTagged(0)
    case ToTagged(t) => if t < |s.pool.tagged| then ToTagged(t + 1) else ToQueue(false)
    case ToQueue(reply) => if CanRunQueue(s.pool, reply) then s.phase else if reply then Scan(0) else ToQueue(true)
    case Scan(i) =>
      if i >= |s.pool.pending| || ActiveWorkers(s.pool) >= s.pool.maxWorkers then Incoming
      else if ScanRuns(s) then s.phase
      else Scan(i + 1)
    case Incoming => if ShuttingDown(s.pool) && AllJoined(s.pool) then Stopped else Control
    case Stopped => Stopped
  }

  function Proceed(s: Sys): Sys {
    s.(pool := ProceedPool(s), phase := ProceedPhase(s),
       started := if ScanRuns(s) then s.started + [s.pool.pending[s.phase.pos]] else s.started)
  }

  /** One step of a worker thread; running a batch job changes the batch. */
  function ThreadStep(w: Worker): Worker
    requires CanStep(w)
  {
    if w.thread.Working? then Execute(w)
    else if w.thread.Executed? then ReportRan(w)
    else Workers.Receive(w)
  }

  function RunBy(st: Store, w: Worker, outcome: Outcome): Store {
    if w.thread.Working? && w.load.BatchLoad? then RunJob(st, w.load.job, outcome) else st
  }

  function Next(s: Sys, a: Action): Sys
    requires Enabled(s, a)
  {
    match a
    case SubmitBatch(threads, completion, surplus) => AddBatch(s, Submission(threads, completion, surplus))
    case SubmitJob(thread) => AddBatch(s, Job(thread))
    case ScheduleReply => AddReply(s)
    case Inject(cmd) => AdmitCommand(s, cmd)
    case Receive(cmd) => AdmitCommand(s, cmd)
    case AddTimer(timer, squelch, thread) => s.(store := Arm(s.store, timer, squelch, thread))
    case CancelTimer(timer) => s.(store := s.store.(armed := s.store.armed - {timer}))
    case FireTimer(timer) => Fire(s, timer)
    case Quit => s.(pool := QuitAll(s.pool))
    case PoolMessage(w) => HandlePool(s, w)
    case TaggedMessage(t) => HandleTagged(s, t)
    case Advance => Proceed(s)
    case PoolThread(w, outcome) =>
      s.(pool := SetWorker(s.pool, w, ThreadStep(s.pool.workers[w])),
         store := RunBy(s.store, s.pool.workers[w], outcome))
    case TaggedThread(t, outcome) =>
      s.(pool := SetTagged(s.pool, t, ThreadStep(s.pool.tagged[t].worker)),
         store := RunBy(s.store, s.pool.tagged[t].worker, outcome))
  }

  // ----- runs -----

  /** What `start()` sets up: no workers yet, tagged threads started, empty queues. */
  predicate Initial(s: Sys) {
    var p := s.pool;
    && p.general > 0 && p.capacity == p.general + TotalReserved(p) && p.maxWorkers == p.capacity
    && (forall c | c in p.cats :: c.active == 0 && c.queued == 0)
    && p.batchActive == 0 && p.replyActive == 0 && p.workers == [] && p.idle == []
    && (forall t | t in p.tagged :: t == Tagged(TAGGED_WORKER, false, [], []))
    && p.batchJobs == [] && p.replyJobs == [] && p.pending == []
    && p.batchTaken == [] && p.replyTaken == [] && !p.fault
    && s.store == EMPTY_STORE && s.phase == Control && s.accepted == [] && s.started == []
  }

  /** The state after a sequence of actions, each enabled when it happens. */
  predicate IsRun(s: Sys, actions: seq<Action>)
    decreases |actions|
  {
    actions == [] || (Enabled(s, actions[0]) && IsRun(Next(s, actions[0]), actions[1..]))
  }

  function After(s: Sys, actions: seq<Action>): Sys
    requires IsRun(s, actions)
    decreases |actions|
  {
    if actions == [] then s else After(Next(s, actions[0]), actions[1..])
  }
}
