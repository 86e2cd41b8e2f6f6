/** The proxy's scheduling state: the worker pool with its per-class reservations, the idle stack,
    the three job queues and the tagged workers.

    All step functions are total.  Whenever the code relies on something it does not test (an
    index, a positive counter, a slot that no thread is reading) the function checks it and records
    a violation in `fault`.  The theorems tell exactly when `fault` becomes true. */
module Pool {
  import opened Sequences
  import opened Workers

  datatype Category = Category(reserved: nat, maxQueue: int, active: int, queued: int)

  /** A tagged worker, its own queue, and (for the ordering theorem) what it took from that queue. */
  datatype Tagged = Tagged(worker: Worker, busy: bool, queue: seq<BatchJob>, taken: seq<BatchJob>)

  /** `capacity` is what `start()` computed as the maximum number of workers and sized the worker
      arrays with; `maxWorkers` equals it until QUIT sets it to 0.  `batchTaken` and `replyTaken`
      record, for the ordering theorem, what was taken from the two queues. */
  datatype Pool = Pool(
    general: nat, batchReserved: nat, replyReserved: nat, capacity: nat, maxWorkers: nat,
    cats: seq<Category>, batchActive: int, replyActive: int,
    workers: seq<Worker>, idle: seq<nat>, tagged: seq<Tagged>,
    batchJobs: seq<BatchJob>, replyJobs: seq<BatchJob>, pending: seq<Command>,
    batchTaken: seq<BatchJob>, replyTaken: seq<BatchJob>, fault: bool)

  // ----- sums over the categories -----

  function Max0(x: int): int { if x < 0 then 0 else x }

  function ReservedOf(c: Category): int { c.reserved }
  function ActiveOf(c: Category): int { c.active }
  function OverOf(c: Category): int { Max0(c.active - c.reserved) }
  function UnderOf(c: Category): int { Max0(c.reserved - c.active) }

  function SumBy(cats: seq<Category>, f: Category -> int): int {
    if cats == [] then 0 else f(cats[0]) + SumBy(cats[1..], f)
  }

  // ----- queries -----

  function ActiveWorkers(p: Pool): int { |p.workers| - |p.idle| }

  predicate Known(p: Pool, k: JobClass) {
    k.CategoryClass? ==> k.cat < |p.cats|
  }

  function Active(p: Pool, k: JobClass): int
    requires Known(p, k)
  {
    match k
    case BatchClass => p.batchActive
    case ReplyClass => p.replyActive
    case CategoryClass(c) => p.cats[c].active
  }

  function Reserved(p: Pool, k: JobClass): nat
    requires Known(p, k)
  {
    match k
    case BatchClass => p.batchReserved
    case ReplyClass => p.replyReserved
    case CategoryClass(c) => p.cats[c].reserved
  }

  /** A free reserved or general spot exists for the class. */
  predicate Runnable(p: Pool, k: JobClass)
    requires Known(p, k)
  {
    Active(p, k) < Reserved(p, k) || ActiveWorkers(p) < p.general
  }

  function TotalActive(p: Pool): int {
    p.batchActive + p.replyActive + SumBy(p.cats, ActiveOf)
  }

  function TotalReserved(p: Pool): int {
    p.batchReserved + p.replyReserved + SumBy(p.cats, ReservedOf)
  }

  /** Jobs running beyond their class's reservation. */
  function Overrun(p: Pool): int {
    Max0(p.batchActive - p.batchReserved) + Max0(p.replyActive - p.replyReserved) + SumBy(p.cats, OverOf)
  }

  /** Reserved places that are not in use. */
  function Unfilled(p: Pool): int {
    Max0(p.batchReserved - p.batchActive) + Max0(p.replyReserved - p.replyActive) + SumBy(p.cats, UnderOf)
  }

  predicate ShuttingDown(p: Pool) { p.maxWorkers == 0 }

  // ----- dispatch -----

  function Adjust(p: Pool, k: JobClass, delta: int): Pool {
    p.(batchActive := if k.BatchClass? then p.batchActive + delta else p.batchActive,
       replyActive := if k.ReplyClass? then p.replyActive + delta else p.replyActive,
       cats := if k.CategoryClass? && k.cat < |p.cats|
               then p.cats[k.cat := p.cats[k.cat].(active := p.cats[k.cat].active + delta)] else p.cats,
       fault := p.fault || !Known(p, k))
  }

  /** Which worker `get_idle_worker` returns ... */
  function IdleWorkerId(p: Pool): nat {
    if p.idle == [] then |p.workers| else p.idle[|p.idle| - 1]
  }

  /** ... and what it does to the pool. */
  function TakeIdleWorker(p: Pool): Pool {
    if p.idle == [] then p.(workers := p.workers + [FRESH_WORKER], fault := p.fault || |p.workers| >= p.capacity)
    else p.(idle := p.idle[..|p.idle| - 1])
  }

  /** Give `load` to an idle or new worker and count it: common to all four dispatch paths. */
  function Dispatch(p: Pool, load: Load): Pool
    requires !load.Nothing?
  {
    var id := IdleWorkerId(p);
    var q := TakeIdleWorker(p);
    if id < |q.workers| then
      var w := q.workers[id];
      Adjust(q.(workers := q.workers[id := Launch(w, load)], fault := q.fault || !Writable(w)), ClassOf(load), 1)
    else
      p.(fault := true)
  }

  /** Admission of a command or injected task: run it, queue it, or drop it because the category's
      queue is full (`proxy_to_worker`, `proxy_inject_task`). */
  datatype Admission = Admitted(pool: Pool) | Queued(pool: Pool) | Dropped

  function Admit(p: Pool, cmd: Command): Admission
    requires cmd.cat < |p.cats|
  {
    var cat := p.cats[cmd.cat];
    if cat.active >= cat.reserved && ActiveWorkers(p) >= p.general then
      if cat.maxQueue >= 0 && cat.queued >= cat.maxQueue then
        Dropped
      else
        Queued(p.(pending := p.pending + [cmd], cats := p.cats[cmd.cat := cat.(queued := cat.queued + 1)]))
    else
      Admitted(Dispatch(p, CommandLoad(cmd)))
  }

  function QueueOf(p: Pool, reply: bool): seq<BatchJob> {
    if reply then p.replyJobs else p.batchJobs
  }

  function PopQueue(p: Pool, reply: bool): Pool
    requires QueueOf(p, reply) != []
  {
    if reply then p.(replyJobs := p.replyJobs[1..], replyTaken := p.replyTaken + [p.replyJobs[0]])
    else p.(batchJobs := p.batchJobs[1..], batchTaken := p.batchTaken + [p.batchJobs[0]])
  }

  function QueueClass(reply: bool): JobClass { if reply then ReplyClass else BatchClass }

  /** Loop condition of `proxy_run_batch_jobs`. */
  predicate CanRunQueue(p: Pool, reply: bool) {
    QueueOf(p, reply) != [] && ActiveWorkers(p) < p.maxWorkers && Runnable(p, QueueClass(reply))
  }

  /** Loop body of `proxy_run_batch_jobs`. */
  function RunQueueFront(p: Pool, reply: bool): Pool
    requires QueueOf(p, reply) != []
  {
    Dispatch(PopQueue(p, reply), BatchLoad(QueueOf(p, reply)[0], reply))
  }

  /** The pending command at `i` may run now (the scan's test, after its loop condition). */
  predicate CanRunPending(p: Pool, i: nat)
    requires i < |p.pending|
  {
    p.pending[i].cat < |p.cats| && Runnable(p, CategoryClass(p.pending[i].cat))
  }

  function RunPending(p: Pool, i: nat): Pool
    requires i < |p.pending| && p.pending[i].cat < |p.cats|
  {
    Dequeue(Dispatch(p, CommandLoad(p.pending[i])), i)
  }

  /** The command at `i` is no longer pending. */
  function Dequeue(p: Pool, i: nat): Pool {
    if i < |p.pending| && p.pending[i].cat < |p.cats| then
      var c := p.pending[i].cat;
      p.(pending := Without(p.pending, i), cats := p.cats[c := p.cats[c].(queued := p.cats[c].queued - 1)])
    else
      p.(fault := true)
  }

  /** An idle tagged worker takes the front of its own queue. */
  predicate CanRunTagged(p: Pool, t: nat)
    requires t < |p.tagged|
  {
    !p.tagged[t].busy && p.tagged[t].queue != []
  }

  function RunTagged(p: Pool, t: nat): Pool
    requires t < |p.tagged| && p.tagged[t].queue != []
  {
    var tw := p.tagged[t];
    p.(tagged := p.tagged[t := Tagged(Launch(tw.worker, BatchLoad(tw.queue[0], false)), true, tw.queue[1..],
                                         tw.taken + [tw.queue[0]])],
       fault := p.fault || !Writable(tw.worker))
  }

  /** Append a job to a tagged queue (`thread` > 0) or to the batch queue. */
  function Enqueue(p: Pool, thread: int, job: BatchJob): Pool {
    p.(batchJobs := if thread <= 0 then p.batchJobs + [job] else p.batchJobs,
       tagged := if 0 < thread <= |p.tagged|
                 then p.tagged[thread - 1 := p.tagged[thread - 1].(queue := p.tagged[thread - 1].queue + [job])]
                 else p.tagged,
       fault := p.fault || thread > |p.tagged|)
  }

  // ----- messages from workers -----

  /** RAN from pool worker `w`: counters, then back to the idle stack or, when quitting, QUIT. */
  function PoolRan(p: Pool, w: nat): Pool
    requires w < |p.workers| && p.workers[w].outbox != [] && !p.workers[w].load.Nothing?
  {
    var k := ClassOf(p.workers[w].load);
    var taken := TakeReport(p.workers[w]);
    var ok := Known(p, k) && Active(p, k) > 0 && (ShuttingDown(p) || |p.idle| < p.capacity);
    var q := Adjust(p.(fault := p.fault || !ok), k, -1);
    if ShuttingDown(p) then
      q.(workers := q.workers[w := SendQuit(taken)])
    else
      q.(workers := q.workers[w := taken], idle := q.idle + [w])
  }

  /** RAN from tagged worker `t`. */
  function TaggedRan(p: Pool, t: nat): Pool
    requires t < |p.tagged| && p.tagged[t].worker.outbox != []
  {
    var taken := TakeReport(p.tagged[t].worker);
    p.(tagged := p.tagged[t := p.tagged[t].(
      busy := false, worker := if ShuttingDown(p) then SendQuit(taken) else taken)])
  }

  /** QUITTING: join the thread; joining twice or joining a live thread would be a fault. */
  function JoinPool(p: Pool, w: nat): Pool
    requires w < |p.workers| && p.workers[w].outbox != []
  {
    p.(workers := p.workers[w := Join(TakeReport(p.workers[w]))],
       fault := p.fault || !p.workers[w].joinable || !p.workers[w].thread.Exited?)
  }

  function JoinTagged(p: Pool, t: nat): Pool
    requires t < |p.tagged| && p.tagged[t].worker.outbox != []
  {
    var w := p.tagged[t].worker;
    p.(tagged := p.tagged[t := p.tagged[t].(worker := Join(TakeReport(w)))],
       fault := p.fault || !w.joinable || !w.thread.Exited?)
  }

  /** QUIT from the owner: every idle pool worker and every tagged worker that is not busy is told
      to quit; the others are told when they next report. */
  function QuitAll(p: Pool): Pool {
    p.(maxWorkers := 0, idle := [],
       workers := seq(|p.workers|, i requires 0 <= i < |p.workers| =>
         if i in p.idle then SendQuit(p.workers[i]) else p.workers[i]),
       tagged := seq(|p.tagged|, i requires 0 <= i < |p.tagged| =>
         if p.tagged[i].busy then p.tagged[i] else p.tagged[i].(worker := SendQuit(p.tagged[i].worker))))
  }

  /** No worker thread is left to join. */
  predicate AllJoined(p: Pool) {
    && (forall i | 0 <= i < |p.workers| :: !p.workers[i].joinable)
    && (forall i | 0 <= i < |p.tagged| :: !p.tagged[i].worker.joinable)
  }

  // ----- steps of the worker threads, seen in the pool -----

  function SetWorker(p: Pool, i: nat, w: Worker): Pool
    requires i < |p.workers|
  {
    p.(workers := p.workers[i := w])
  }

  function SetTagged(p: Pool, t: nat, w: Worker): Pool
    requires t < |p.tagged|
  {
    p.(tagged := p.tagged[t := p.tagged[t].(worker := w)])
  }

  // ----- invariant -----

  /** Busy workers of the class. */
  function CountBusy(ws: seq<Worker>, k: JobClass): nat {
    if ws == [] then 0
    else CountBusy(ws[..|ws| - 1], k) + (if IsBusyWith(ws[|ws| - 1], k) then 1 else 0)
  }

  predicate IsBusyWith(w: Worker, k: JobClass) {
    Busy(w) && ClassOf(w.load) == k
  }

  function CountPending(pending: seq<Command>, c: nat): nat {
    if pending == [] then 0
    else CountPending(pending[..|pending| - 1], c) + (if pending[|pending| - 1].cat == c then 1 else 0)
  }

  predicate ConfigOk(p: Pool) {
    && p.general > 0
    && p.capacity == p.general + TotalReserved(p)
    && (p.maxWorkers == p.capacity || p.maxWorkers == 0)
  }

  /** Every worker follows the protocol; the idle stack lists exactly the resting workers, once
      each; before QUIT nobody retires and after QUIT nobody rests. */
  predicate WorkersOk(p: Pool) {
    && (forall i | 0 <= i < |p.workers| :: Legal(p.workers[i]))
    && (forall i | 0 <= i < |p.workers| :: Resting(p.workers[i]) <==> i in p.idle)
    && (forall i | 0 <= i < |p.workers| :: Retiring(p.workers[i]) ==> ShuttingDown(p))
    && (forall x | x in p.idle :: x < |p.workers|)
    && (forall i, j | 0 <= i < j < |p.idle| :: p.idle[i] != p.idle[j])
    && (ShuttingDown(p) ==> p.idle == [])
  }

  predicate TaggedOk(p: Pool) {
    forall i | 0 <= i < |p.tagged| ::
      && Legal(p.tagged[i].worker)
      && (Busy(p.tagged[i].worker) <==> p.tagged[i].busy)
      && (p.tagged[i].busy ==> p.tagged[i].worker.load.BatchLoad? && !p.tagged[i].worker.load.reply)
      && (Retiring(p.tagged[i].worker) ==> ShuttingDown(p))
      && (Resting(p.tagged[i].worker) ==> !ShuttingDown(p))
  }

  /** Each counter is the number of busy workers of its class. */
  predicate CountersOk(p: Pool) {
    && p.batchActive == CountBusy(p.workers, BatchClass)
    && p.replyActive == CountBusy(p.workers, ReplyClass)
    && (forall c | 0 <= c < |p.cats| :: p.cats[c].active == CountBusy(p.workers, CategoryClass(c)))
    && (forall i | 0 <= i < |p.workers| && Busy(p.workers[i]) :: Known(p, ClassOf(p.workers[i].load)))
  }

  predicate PendingOk(p: Pool) {
    && (forall i | 0 <= i < |p.pending| :: p.pending[i].cat < |p.cats|)
    && (forall c | 0 <= c < |p.cats| :: p.cats[c].queued == CountPending(p.pending, c))
    && (forall c | 0 <= c < |p.cats| && p.cats[c].maxQueue >= 0 :: p.cats[c].queued <= p.cats[c].maxQueue)
  }

  /** The bound on what runs beyond the reservations, which before QUIT keeps the untested dispatch
      paths inside the fixed-size arrays. */
  predicate BoundOk(p: Pool) {
    && TotalActive(p) <= ActiveWorkers(p) && Overrun(p) <= p.general
    && (!ShuttingDown(p) ==> ActiveWorkers(p) == TotalActive(p) && |p.workers| <= p.capacity)
  }

  /** There are more workers than the arrays made by `start()` have room for. */
  predicate Overrunning(p: Pool) { |p.workers| > p.capacity }

  /** Nothing goes wrong as long as the arrays are not overrun. */
  predicate PoolInv(p: Pool) {
    && (p.fault <==> Overrunning(p))
    && ConfigOk(p) && WorkersOk(p) && TaggedOk(p) && CountersOk(p) && PendingOk(p) && BoundOk(p)
  }
}
