/** Where the jobs of all batches are: waiting (in a queue, or in a slot whose worker has not run
    it) or run but not yet reported.  Each pool operation moves them in the obvious way. */
module Tokens {
  import opened Workers
  import opened Pool
  import opened PoolProofs

  function One(b: bool): nat { if b then 1 else 0 }

  /** The worker holds job `j` and has not run it. */
  predicate HoldsUnrun(w: Worker, j: BatchJob) {
    Unrun(w) && w.load.BatchLoad? && w.load.job == j
  }

  /** The worker has run job `j`; the proxy does not know yet. */
  predicate HoldsRun(w: Worker, j: BatchJob) {
    Busy(w) && !Unrun(w) && w.load.BatchLoad? && w.load.job == j
  }

  predicate IsJob(load: Load, j: BatchJob) {
    load.BatchLoad? && load.job == j
  }

  function InQueue(queue: seq<BatchJob>, j: BatchJob): nat {
    multiset(queue)[j]
  }

  function WorkersPre(ws: seq<Worker>, j: BatchJob): nat {
    if ws == [] then 0 else WorkersPre(ws[..|ws| - 1], j) + One(HoldsUnrun(ws[|ws| - 1], j))
  }

  function WorkersPost(ws: seq<Worker>, j: BatchJob): nat {
    if ws == [] then 0 else WorkersPost(ws[..|ws| - 1], j) + One(HoldsRun(ws[|ws| - 1], j))
  }

  function TaggedPre(ts: seq<Tagged>, j: BatchJob): nat {
    if ts == [] then 0
    else TaggedPre(ts[..|ts| - 1], j) + InQueue(ts[|ts| - 1].queue, j) + One(HoldsUnrun(ts[|ts| - 1].worker, j))
  }

  function TaggedPost(ts: seq<Tagged>, j: BatchJob): nat {
    if ts == [] then 0 else TaggedPost(ts[..|ts| - 1], j) + One(HoldsRun(ts[|ts| - 1].worker, j))
  }

  /** Copies of `j` that still have to be run ... */
  function Pre(p: Pool, j: BatchJob): nat {
    InQueue(p.batchJobs, j) + InQueue(p.replyJobs, j) + WorkersPre(p.workers, j) + TaggedPre(p.tagged, j)
  }

  /** ... and copies that have been run but not reported. */
  function Post(p: Pool, j: BatchJob): nat {
    WorkersPost(p.workers, j) + TaggedPost(p.tagged, j)
  }

  // ----- updates -----

  lemma {:induction false} WorkersUpdate(ws: seq<Worker>, i: nat, w: Worker, j: BatchJob)
    requires i < |ws|
    ensures WorkersPre(ws[i := w], j) == WorkersPre(ws, j) - One(HoldsUnrun(ws[i], j)) + One(HoldsUnrun(w, j))
    ensures WorkersPost(ws[i := w], j) == WorkersPost(ws, j) - One(HoldsRun(ws[i], j)) + One(HoldsRun(w, j))
  {
    var n := |ws| - 1;
    if i == n {
      assert ws[i := w][..n] == ws[..n];
    } else {
      assert ws[i := w][..n] == ws[..n][i := w];
      WorkersUpdate(ws[..n], i, w, j);
    }
  }

  lemma WorkersAppend(ws: seq<Worker>, w: Worker, j: BatchJob)
    ensures WorkersPre(ws + [w], j) == WorkersPre(ws, j) + One(HoldsUnrun(w, j))
    ensures WorkersPost(ws + [w], j) == WorkersPost(ws, j) + One(HoldsRun(w, j))
  {
    assert (ws + [w])[..|ws|] == ws;
  }

  lemma {:induction false} TaggedUpdate(ts: seq<Tagged>, i: nat, t: Tagged, j: BatchJob)
    requires i < |ts|
    ensures TaggedPre(ts[i := t], j) == TaggedPre(ts, j)
      - InQueue(ts[i].queue, j) - One(HoldsUnrun(ts[i].worker, j)) + InQueue(t.queue, j) + One(HoldsUnrun(t.worker, j))
    ensures TaggedPost(ts[i := t], j) == TaggedPost(ts, j) - One(HoldsRun(ts[i].worker, j)) + One(HoldsRun(t.worker, j))
  {
    var n := |ts| - 1;
    if i == n {
      assert ts[i := t][..n] == ts[..n];
    } else {
      assert ts[i := t][..n] == ts[..n][i := t];
      TaggedUpdate(ts[..n], i, t, j);
    }
  }

  lemma {:induction false} WorkersSame(ws: seq<Worker>, vs: seq<Worker>, j: BatchJob)
    requires |ws| == |vs|
    requires forall i | 0 <= i < |ws| ::
      HoldsUnrun(ws[i], j) == HoldsUnrun(vs[i], j) && HoldsRun(ws[i], j) == HoldsRun(vs[i], j)
    ensures WorkersPre(ws, j) == WorkersPre(vs, j) && WorkersPost(ws, j) == WorkersPost(vs, j)
  {
    if ws != [] { WorkersSame(ws[..|ws| - 1], vs[..|vs| - 1], j); }
  }

  lemma {:induction false} TaggedSame(ts: seq<Tagged>, us: seq<Tagged>, j: BatchJob)
    requires |ts| == |us|
    requires forall i | 0 <= i < |ts| ::
      && ts[i].queue == us[i].queue
      && HoldsUnrun(ts[i].worker, j) == HoldsUnrun(us[i].worker, j)
      && HoldsRun(ts[i].worker, j) == HoldsRun(us[i].worker, j)
    ensures TaggedPre(ts, j) == TaggedPre(us, j) && TaggedPost(ts, j) == TaggedPost(us, j)
  {
    if ts != [] { TaggedSame(ts[..|ts| - 1], us[..|us| - 1], j); }
  }

  /** What a worker holds is accounted for. */
  lemma {:induction false} WorkersHold(ws: seq<Worker>, i: nat, j: BatchJob)
    requires i < |ws|
    ensures HoldsUnrun(ws[i], j) ==> WorkersPre(ws, j) > 0
    ensures HoldsRun(ws[i], j) ==> WorkersPost(ws, j) > 0
  {
    if i < |ws| - 1 { WorkersHold(ws[..|ws| - 1], i, j); }
  }

  lemma {:induction false} TaggedHold(ts: seq<Tagged>, i: nat, j: BatchJob)
    requires i < |ts|
    ensures HoldsUnrun(ts[i].worker, j) || j in ts[i].queue ==> TaggedPre(ts, j) > 0
    ensures HoldsRun(ts[i].worker, j) ==> TaggedPost(ts, j) > 0
  {
    if i < |ts| - 1 { TaggedHold(ts[..|ts| - 1], i, j); }
  }

  // ----- moves -----

  /** A dispatched job is waiting in its slot. */
  lemma DispatchMoves(p: Pool, load: Load, j: BatchJob)
    requires TargetOk(p) && !load.Nothing? && Known(p, ClassOf(load))
    ensures Pre(Dispatch(p, load), j) == Pre(p, j) + One(IsJob(load, j)) && Post(Dispatch(p, load), j) == Post(p, j)
  {
    DispatchFrame(p, load);
    LaunchCounts(p, load, j);
  }

  lemma LaunchCounts(p: Pool, load: Load, j: BatchJob)
    requires TargetOk(p) && !load.Nothing?
    ensures var id, q := IdleWorkerId(p), TakeIdleWorker(p);
      var ws := q.workers[id := Launch(q.workers[id], load)];
      && WorkersPre(ws, j) == WorkersPre(p.workers, j) + One(IsJob(load, j))
      && WorkersPost(ws, j) == WorkersPost(p.workers, j)
  {
    var id, q := IdleWorkerId(p), TakeIdleWorker(p);
    LaunchMakesBusy(q.workers[id], load);
    WorkersUpdate(q.workers, id, Launch(q.workers[id], load), j);
    if p.idle == [] { WorkersAppend(p.workers, FRESH_WORKER, j); }
  }

  lemma PopCount(queue: seq<BatchJob>, j: BatchJob)
    requires queue != []
    ensures InQueue(queue, j) == InQueue(queue[1..], j) + One(queue[0] == j)
  {
    assert queue == [queue[0]] + queue[1..];
  }

  lemma RunQueueFrontMoves(p: Pool, reply: bool, j: BatchJob)
    requires PoolInv(p) && !ShuttingDown(p) && CanRunQueue(p, reply)
    ensures Pre(RunQueueFront(p, reply), j) == Pre(p, j) && Post(RunQueueFront(p, reply), j) == Post(p, j)
  {
    PopCount(QueueOf(p, reply), j);
    DispatchTarget(p, QueueClass(reply));
    DispatchMoves(PopQueue(p, reply), BatchLoad(QueueOf(p, reply)[0], reply), j);
  }

  lemma RunPendingMoves(p: Pool, i: nat, j: BatchJob)
    requires PoolInv(p) && i < |p.pending| && CanRunPending(p, i) && !ShuttingDown(p)
    ensures Pre(RunPending(p, i), j) == Pre(p, j) && Post(RunPending(p, i), j) == Post(p, j)
  {
    DispatchTarget(p, CategoryClass(p.pending[i].cat));
    DispatchMoves(p, CommandLoad(p.pending[i]), j);
  }

  lemma AdmitMoves(p: Pool, cmd: Command, j: BatchJob)
    requires PoolInv(p) && cmd.cat < |p.cats|
    ensures !Admit(p, cmd).Dropped? ==>
      Pre(Admit(p, cmd).pool, j) == Pre(p, j) && Post(Admit(p, cmd).pool, j) == Post(p, j)
  {
    if Admit(p, cmd).Admitted? {
      DispatchTarget(p, CategoryClass(cmd.cat));
      DispatchMoves(p, CommandLoad(cmd), j);
    }
  }

  lemma RunTaggedMoves(p: Pool, t: nat, j: BatchJob)
    requires PoolInv(p) && t < |p.tagged| && CanRunTagged(p, t) && !ShuttingDown(p)
    ensures Pre(RunTagged(p, t), j) == Pre(p, j) && Post(RunTagged(p, t), j) == Post(p, j)
  {
    var tw := p.tagged[t];
    assert Writable(tw.worker);
    LaunchMakesBusy(tw.worker, BatchLoad(tw.queue[0], false));
    TaggedUpdate(p.tagged, t, RunTagged(p, t).tagged[t], j);
    PopCount(tw.queue, j);
  }

  lemma EnqueueMoves(p: Pool, thread: int, job: BatchJob, j: BatchJob)
    requires thread - 1 < |p.tagged|
    ensures Pre(Enqueue(p, thread, job), j) == Pre(p, j) + One(job == j)
    ensures Post(Enqueue(p, thread, job), j) == Post(p, j)
  {
    if thread > 0 {
      TaggedUpdate(p.tagged, thread - 1, Enqueue(p, thread, job).tagged[thread - 1], j);
    }
  }

  lemma SetWorkerMoves(p: Pool, i: nat, w: Worker, j: BatchJob)
    requires i < |p.workers|
    ensures Pre(SetWorker(p, i, w), j) == Pre(p, j) - One(HoldsUnrun(p.workers[i], j)) + One(HoldsUnrun(w, j))
    ensures Post(SetWorker(p, i, w), j) == Post(p, j) - One(HoldsRun(p.workers[i], j)) + One(HoldsRun(w, j))
  {
    WorkersUpdate(p.workers, i, w, j);
  }

  lemma SetTaggedMoves(p: Pool, t: nat, w: Worker, j: BatchJob)
    requires t < |p.tagged|
    ensures Pre(SetTagged(p, t, w), j) == Pre(p, j) - One(HoldsUnrun(p.tagged[t].worker, j)) + One(HoldsUnrun(w, j))
    ensures Post(SetTagged(p, t, w), j) == Post(p, j) - One(HoldsRun(p.tagged[t].worker, j)) + One(HoldsRun(w, j))
  {
    TaggedUpdate(p.tagged, t, SetTagged(p, t, w).tagged[t], j);
  }

  lemma ThreadStepHolds(w: Worker, j: BatchJob)
    requires Legal(w)
    ensures w.inbox != [] && (w.thread.Waiting? || w.thread.AwaitingStart?) ==>
              HoldsUnrun(Receive(w), j) == HoldsUnrun(w, j) && HoldsRun(Receive(w), j) == HoldsRun(w, j)
    ensures w.thread.Executed? ==>
              HoldsUnrun(ReportRan(w), j) == HoldsUnrun(w, j) && HoldsRun(ReportRan(w), j) == HoldsRun(w, j)
    ensures w.thread.Working? ==>
              && HoldsUnrun(w, j) == IsJob(w.load, j) && !HoldsRun(w, j)
              && !HoldsUnrun(Execute(w), j) && HoldsRun(Execute(w), j) == IsJob(w.load, j)
  {
  }

  lemma PoolRanMoves(p: Pool, w: nat, j: BatchJob)
    requires w < |p.workers| && Busy(p.workers[w]) && p.workers[w].outbox != []
    ensures Pre(PoolRan(p, w), j) == Pre(p, j)
    ensures Post(PoolRan(p, w), j) + One(IsJob(p.workers[w].load, j)) == Post(p, j)
  {
    WorkersUpdate(p.workers, w, PoolRan(p, w).workers[w], j);
  }

  lemma TaggedRanMoves(p: Pool, t: nat, j: BatchJob)
    requires t < |p.tagged| && Busy(p.tagged[t].worker) && p.tagged[t].worker.outbox != []
    ensures Pre(TaggedRan(p, t), j) == Pre(p, j)
    ensures Post(TaggedRan(p, t), j) + One(IsJob(p.tagged[t].worker.load, j)) == Post(p, j)
  {
    TaggedUpdate(p.tagged, t, TaggedRan(p, t).tagged[t], j);
  }

  lemma JoinMoves(p: Pool, w: nat, j: BatchJob)
    requires w < |p.workers| && Retiring(p.workers[w]) && p.workers[w].outbox != []
    ensures Pre(JoinPool(p, w), j) == Pre(p, j) && Post(JoinPool(p, w), j) == Post(p, j)
  {
    WorkersUpdate(p.workers, w, JoinPool(p, w).workers[w], j);
  }

  lemma JoinTaggedMoves(p: Pool, t: nat, j: BatchJob)
    requires t < |p.tagged| && Retiring(p.tagged[t].worker) && p.tagged[t].worker.outbox != []
    ensures Pre(JoinTagged(p, t), j) == Pre(p, j) && Post(JoinTagged(p, t), j) == Post(p, j)
  {
    TaggedUpdate(p.tagged, t, JoinTagged(p, t).tagged[t], j);
  }

  lemma QuitMoves(p: Pool, j: BatchJob)
    requires WorkersOk(p) && TaggedOk(p)
    ensures Pre(QuitAll(p), j) == Pre(p, j) && Post(QuitAll(p), j) == Post(p, j)
  {
    var q := QuitAll(p);
    forall i | 0 <= i < |p.workers|
      ensures HoldsUnrun(p.workers[i], j) == HoldsUnrun(q.workers[i], j)
      ensures HoldsRun(p.workers[i], j) == HoldsRun(q.workers[i], j)
    {
      assert Legal(p.workers[i]) && (Resting(p.workers[i]) <==> i in p.idle);
    }
    WorkersSame(p.workers, q.workers, j);
    TaggedSame(p.tagged, q.tagged, j);
  }
}
