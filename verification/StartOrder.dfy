/** The order in which jobs get into the slots of workers is the order in which they were queued. */
module StartOrder {
  import opened Sequences
  import opened Workers
  import opened Pool
  import opened Batches
  import opened System
  import opened PoolProofs
  import opened SystemProofs
  import opened Theorems
  import opened Shutdown
  import opened QueueOrder
  import opened Placement

  // ----- what a step puts into slots -----

  /** The loads of those among the first `n` workers that are busy and were not before. */
  function NewLoads(ps: seq<Worker>, qs: seq<Worker>, n: nat): seq<Load>
    requires n <= |qs|
  {
    if n == 0 then []
    else
      var starts := Busy(qs[n - 1]) && !(n - 1 < |ps| && Busy(ps[n - 1]));
      NewLoads(ps, qs, n - 1) + (if starts then [qs[n - 1].load] else [])
  }

  /** The job in a slot that comes from the batch queue or from the reply queue ... */
  function JobIn(load: Load, reply: bool): seq<BatchJob> {
    if load.BatchLoad? && load.reply == reply then [load.job] else []
  }

  /** ... or the command. */
  function CommandIn(load: Load): seq<Command> {
    if load.CommandLoad? then [load.cmd] else []
  }

  function JobsIn(loads: seq<Load>, reply: bool): seq<BatchJob> {
    if loads == [] then [] else JobsIn(loads[..|loads| - 1], reply) + JobIn(loads[|loads| - 1], reply)
  }

  function CommandsIn(loads: seq<Load>): seq<Command> {
    if loads == [] then [] else CommandsIn(loads[..|loads| - 1]) + CommandIn(loads[|loads| - 1])
  }

  lemma OneLoad(load: Load, reply: bool)
    ensures JobsIn([load], reply) == JobIn(load, reply) && CommandsIn([load]) == CommandIn(load)
  {
    assert [load][..0] == [];
  }

  lemma {:induction false} JobsInAll(xs: seq<Load>, ys: seq<Load>, reply: bool)
    ensures JobsIn(xs + ys, reply) == JobsIn(xs, reply) + JobsIn(ys, reply)
    decreases |ys|
  {
    if ys == [] {
      assert xs + ys == xs;
    } else {
      var n := |ys| - 1;
      assert (xs + ys)[..|xs| + n] == xs + ys[..n];
      JobsInAll(xs, ys[..n], reply);
      Associative(JobsIn(xs, reply), JobsIn(ys[..n], reply), JobIn(ys[n], reply));
    }
  }

  lemma {:induction false} CommandsInAll(xs: seq<Load>, ys: seq<Load>)
    ensures CommandsIn(xs + ys) == CommandsIn(xs) + CommandsIn(ys)
    decreases |ys|
  {
    if ys == [] {
      assert xs + ys == xs;
    } else {
      var n := |ys| - 1;
      assert (xs + ys)[..|xs| + n] == xs + ys[..n];
      CommandsInAll(xs, ys[..n]);
      Associative(CommandsIn(xs), CommandsIn(ys[..n]), CommandIn(ys[n]));
    }
  }

  lemma {:induction false} NoneNew(ps: seq<Worker>, qs: seq<Worker>, n: nat)
    requires n <= |qs| <= |ps| && forall i | 0 <= i < n && Busy(qs[i]) :: Busy(ps[i])
    ensures NewLoads(ps, qs, n) == []
  {
    if n > 0 { NoneNew(ps, qs, n - 1); }
  }

  lemma {:induction false} OneNew(ps: seq<Worker>, qs: seq<Worker>, n: nat, id: nat)
    requires n <= |qs| && id < |qs| && !(id < |ps| && Busy(ps[id])) && Busy(qs[id])
    requires (|qs| == |ps| || (id == |ps| && |qs| == |ps| + 1)) && forall i | 0 <= i < |ps| && i != id :: qs[i] == ps[i]
    ensures NewLoads(ps, qs, n) == if id < n then [qs[id].load] else []
  {
    if n > 0 { OneNew(ps, qs, n - 1, id); }
  }

  function Taken(p: Pool, reply: bool): seq<BatchJob> { if reply then p.replyTaken else p.batchTaken }

  /** What a step from `p` to `q` puts into slots of pool workers. */
  function Given(p: Pool, q: Pool): seq<Load> { NewLoads(p.workers, q.workers, |q.workers|) }

  /** A step puts nothing into a slot, or one load: the job in it is what the step took from the queue,
      and the command in it is what it recorded as started. */
  predicate Matches(s: Sys, s': Sys, reply: bool) {
    if Given(s.pool, s'.pool) == []
    then Taken(s'.pool, reply) == Taken(s.pool, reply) && s'.started == s.started
    else
      && |Given(s.pool, s'.pool)| == 1
      && Taken(s'.pool, reply) == Taken(s.pool, reply) + JobIn(Given(s.pool, s'.pool)[0], reply)
      && s'.started == s.started + CommandIn(Given(s.pool, s'.pool)[0])
  }

  lemma QuietMatches(s: Sys, s': Sys, reply: bool)
    requires Taken(s'.pool, reply) == Taken(s.pool, reply) && s'.started == s.started
    requires |s'.pool.workers| == |s.pool.workers|
    requires forall i | 0 <= i < |s.pool.workers| && Busy(s'.pool.workers[i]) :: Busy(s.pool.workers[i])
    ensures Matches(s, s', reply)
  {
    NoneNew(s.pool.workers, s'.pool.workers, |s'.pool.workers|);
  }

  lemma OneMatches(s: Sys, s': Sys, load: Load, reply: bool)
    requires Given(s.pool, s'.pool) == [load]
    requires Taken(s'.pool, reply) == Taken(s.pool, reply) + JobIn(load, reply)
    requires s'.started == s.started + CommandIn(load)
    ensures Matches(s, s', reply)
  {
  }

  /** A dispatch puts exactly its load into a slot. */
  lemma DispatchGives(p: Pool, load: Load)
    requires TargetOk(p) && !load.Nothing? && Known(p, ClassOf(load))
    ensures Given(p, Dispatch(p, load)) == [load]
  {
    var id, q := IdleWorkerId(p), TakeIdleWorker(p);
    DispatchFrame(p, load);
    LaunchMakesBusy(q.workers[id], load);
    OneNew(p.workers, Dispatch(p, load).workers, |Dispatch(p, load).workers|, id);
  }

  lemma QueueFrontGives(p: Pool, front: bool)
    requires PoolInv(p) && CanRunQueue(p, front)
    ensures var q := RunQueueFront(p, front);
      && Given(p, q) == [BatchLoad(QueueOf(p, front)[0], front)] && Taken(q, !front) == Taken(p, !front)
      && Taken(q, front) == Taken(p, front) + [QueueOf(p, front)[0]]
  {
    var load := BatchLoad(QueueOf(p, front)[0], front);
    DispatchTarget(p, QueueClass(front));
    DispatchFrame(PopQueue(p, front), load);
    DispatchGives(PopQueue(p, front), load);
  }

  lemma RunPendingGives(p: Pool, i: nat)
    requires PoolInv(p) && i < |p.pending| && CanRunPending(p, i)
    ensures var q := RunPending(p, i);
      && Given(p, q) == [CommandLoad(p.pending[i])]
      && Taken(q, true) == Taken(p, true) && Taken(q, false) == Taken(p, false)
  {
    var load := CommandLoad(p.pending[i]);
    DispatchTarget(p, CategoryClass(p.pending[i].cat));
    DispatchFrame(p, load);
    DispatchGives(p, load);
  }

  lemma AdmitMatches(s: Sys, cmd: Command, reply: bool)
    requires PoolInv(s.pool) && cmd.cat < |s.pool.cats|
    ensures Matches(s, AdmitCommand(s, cmd), reply)
  {
    match Admit(s.pool, cmd) {
      case Admitted(p) =>
        AdmittedGives(s.pool, cmd);
        OneMatches(s, AdmitCommand(s, cmd), CommandLoad(cmd), reply);
      case _ => QuietMatches(s, AdmitCommand(s, cmd), reply);
    }
  }

  lemma AdmittedGives(p: Pool, cmd: Command)
    requires PoolInv(p) && cmd.cat < |p.cats| && Admit(p, cmd).Admitted?
    ensures var q := Admit(p, cmd).pool;
      && Given(p, q) == [CommandLoad(cmd)]
      && Taken(q, true) == Taken(p, true) && Taken(q, false) == Taken(p, false)
  {
    DispatchTarget(p, CategoryClass(cmd.cat));
    DispatchFrame(p, CommandLoad(cmd));
    DispatchGives(p, CommandLoad(cmd));
  }

  lemma ProceedMatches(s: Sys, reply: bool)
    requires PoolInv(s.pool)
    ensures Matches(s, Proceed(s), reply)
  {
    if ScanRuns(s) {
      RunPendingGives(s.pool, s.phase.pos);
      OneMatches(s, Proceed(s), CommandLoad(s.pool.pending[s.phase.pos]), reply);
    } else if ProceedPool(s) == s.pool || s.phase.ToTagged? {
      QuietMatches(s, Proceed(s), reply);
    } else {
      var front := s.phase.reply;
      QueueFrontGives(s.pool, front);
      OneMatches(s, Proceed(s), BatchLoad(QueueOf(s.pool, front)[0], front), reply);
    }
  }

  lemma {:induction false} EnqueueJobsTaken(p: Pool, obj: Batch, b: nat, n: nat)
    requires n <= Size(obj)
    ensures var q := EnqueueJobs(p, obj, b, n);
      q.batchTaken == p.batchTaken && q.replyTaken == p.replyTaken && q.workers == p.workers
    ensures SameTaken(p, EnqueueJobs(p, obj, b, n))
  {
    if n > 0 { EnqueueJobsTaken(p, obj, b, n - 1); }
  }

  /** No tagged worker was given anything. */
  predicate SameTaken(p: Pool, q: Pool) {
    && |q.tagged| == |p.tagged|
    && (forall t | 0 <= t < |p.tagged| ::
          q.tagged[t].taken == p.tagged[t].taken && KeepsJob(p.tagged[t].worker, q.tagged[t].worker))
  }

  lemma FireTaken(s: Sys, timer: nat)
    ensures var q := Fire(s, timer).pool;
      && q.batchTaken == s.pool.batchTaken && q.replyTaken == s.pool.replyTaken && q.workers == s.pool.workers
      && SameTaken(s.pool, q)
  {
    if timer in s.store.timers {
      var t := s.store.timers[timer];
      EnqueueJobsTaken(s.pool, NewBatch([t.thread], Rearm(timer)), s.store.next, 1);
      EnqueueJobsTaken(s.pool, Job(t.thread), s.store.next, 1);
    }
  }

  lemma PoolMessageTaken(s: Sys, w: nat)
    requires PoolInv(s.pool) && w < |s.pool.workers| && s.pool.workers[w].outbox != []
    ensures var q := HandlePool(s, w).pool;
      && q.batchTaken == s.pool.batchTaken && q.replyTaken == s.pool.replyTaken && SameTaken(s.pool, q)
      && |q.workers| == |s.pool.workers| && forall i | 0 <= i < |q.workers| :: KeepsJob(s.pool.workers[i], q.workers[i])
  {
    var worker, p := s.pool.workers[w], s.pool;
    assert Legal(worker);
    if worker.outbox[0] == Quitting {
      JoinNothingNew(p);
    } else {
      PoolRanTaken(p, w);
      if worker.load.BatchLoad? {
        CompletionTaken(PoolRan(p, w), FateIn(s.store, worker.load.job), worker.load.reply,
                        BatchJob(worker.load.job.batch, -1));
      }
    }
  }

  lemma PoolRanTaken(p: Pool, w: nat)
    requires w < |p.workers| && p.workers[w].outbox != [] && !p.workers[w].load.Nothing? && Legal(p.workers[w])
    ensures var q := PoolRan(p, w);
      && q.batchTaken == p.batchTaken && q.replyTaken == p.replyTaken && q.tagged == p.tagged
      && |q.workers| == |p.workers| && forall i | 0 <= i < |q.workers| :: KeepsJob(p.workers[i], q.workers[i])
  {
    PoolRanNothingNew(p, w);
    PoolRanTagged(p, w);
  }

  lemma TaggedMessageTaken(s: Sys, t: nat)
    requires PoolInv(s.pool) && t < |s.pool.tagged| && s.pool.tagged[t].worker.outbox != []
    ensures var q := HandleTagged(s, t).pool;
      && q.batchTaken == s.pool.batchTaken && q.replyTaken == s.pool.replyTaken && SameTaken(s.pool, q)
      && q.workers == s.pool.workers
  {
    var worker, p := s.pool.tagged[t].worker, s.pool;
    assert Legal(worker);
    if worker.outbox[0] == Quitting {
      JoinNothingNew(p);
    } else {
      TaggedRanNothingNew(p, t);
      if worker.load.BatchLoad? {
        CompletionTaken(TaggedRan(p, t), FateIn(s.store, worker.load.job), worker.load.reply,
                        BatchJob(worker.load.job.batch, -1));
      }
    }
  }

  lemma CompletionTaken(p: Pool, fate: Fate, reply: bool, job: BatchJob)
    ensures var q := EnqueueCompletion(p, fate, reply, job);
      && q.batchTaken == p.batchTaken && q.replyTaken == p.replyTaken && q.workers == p.workers
      && |q.tagged| == |p.tagged|
      && forall t | 0 <= t < |p.tagged| ::
           q.tagged[t].taken == p.tagged[t].taken && q.tagged[t].worker == p.tagged[t].worker
  {
  }

  lemma StepMatches(s: Sys, a: Action, reply: bool)
    requires PoolInv(s.pool) && Enabled(s, a)
    ensures Matches(s, Next(s, a), reply)
  {
    var p, s' := s.pool, Next(s, a);
    match a {
      case SubmitBatch(threads, completion, surplus) =>
        EnqueueJobsTaken(p, Submission(threads, completion, surplus), s.store.next, |threads|);
        QuietMatches(s, s', reply);
      case SubmitJob(thread) =>
        EnqueueJobsTaken(p, Job(thread), s.store.next, 1);
        QuietMatches(s, s', reply);
      case FireTimer(timer) => FireTaken(s, timer); QuietMatches(s, s', reply);
      case Inject(cmd) => AdmitMatches(s, cmd, reply);
      case Receive(cmd) => AdmitMatches(s, cmd, reply);
      case PoolMessage(w) => PoolMessageTaken(s, w); QuietMatches(s, s', reply);
      case TaggedMessage(t) => TaggedMessageTaken(s, t); QuietMatches(s, s', reply);
      case Advance => ProceedMatches(s, reply);
      case PoolThread(w, _) =>
        assert Legal(p.workers[w]);
        PoolThreadNothingNew(p, w);
        QuietMatches(s, s', reply);
      case Quit => QuitNothingNew(p); QuietMatches(s, s', reply);
      case _ => QuietMatches(s, s', reply);
    }
  }

  // ----- tagged workers -----

  /** The job, if any, that a step puts into the slot of a tagged worker. */
  function NewTagged(w: Worker, v: Worker): seq<BatchJob> {
    if Busy(v) && !Busy(w) && v.load.BatchLoad? then [v.load.job] else []
  }

  predicate TaggedMatches(p: Pool, q: Pool, t: nat) {
    && t < |p.tagged| == |q.tagged|
    && q.tagged[t].taken == p.tagged[t].taken + NewTagged(p.tagged[t].worker, q.tagged[t].worker)
  }

  /** A busy tagged worker runs the job that was taken last. */
  predicate RunsLast(tw: Tagged) {
    Busy(tw.worker) ==> tw.taken != [] && tw.worker.load == BatchLoad(tw.taken[|tw.taken| - 1], false)
  }

  lemma RunTaggedMatches(p: Pool, u: nat, t: nat)
    requires PoolInv(p) && !ShuttingDown(p) && u < |p.tagged| && CanRunTagged(p, u) && t < |p.tagged|
    ensures TaggedMatches(p, RunTagged(p, u), t) && (RunsLast(p.tagged[t]) ==> RunsLast(RunTagged(p, u).tagged[t]))
  {
    if t == u {
      assert Legal(p.tagged[u].worker) && !Busy(p.tagged[u].worker);
      LaunchMakesBusy(p.tagged[u].worker, BatchLoad(p.tagged[u].queue[0], false));
    }
  }

  lemma QuietTagged(p: Pool, q: Pool, t: nat)
    requires SameTaken(p, q) && t < |p.tagged|
    ensures TaggedMatches(p, q, t) && (RunsLast(p.tagged[t]) ==> RunsLast(q.tagged[t]))
  {
    assert KeepsJob(p.tagged[t].worker, q.tagged[t].worker);
  }

  lemma ProceedTagged(s: Sys, t: nat)
    requires PoolInv(s.pool) && (Dispatching(s.phase) ==> !ShuttingDown(s.pool)) && t < |s.pool.tagged|
    ensures TaggedMatches(s.pool, ProceedPool(s), t)
    ensures RunsLast(s.pool.tagged[t]) ==> RunsLast(ProceedPool(s).tagged[t])
  {
    var p := s.pool;
    if ProceedPool(s) == p {
      QuietTagged(p, p, t);
    } else {
      match s.phase {
        case ToTagged(u) => RunTaggedMatches(p, u, t);
        case ToQueue(reply) => QueueFrontFrame(p, reply); QuietTagged(p, ProceedPool(s), t);
        case Scan(i) =>
          DispatchTarget(p, CategoryClass(p.pending[i].cat));
          DispatchFrame(p, CommandLoad(p.pending[i]));
          QuietTagged(p, ProceedPool(s), t);
      }
    }
  }

  /** Only the loop itself gives jobs to tagged workers. */
  lemma OthersTakeNothing(s: Sys, a: Action)
    requires PoolInv(s.pool) && Enabled(s, a) && !a.Advance?
    ensures SameTaken(s.pool, Next(s, a).pool)
  {
    var p := s.pool;
    match a {
      case SubmitBatch(threads, completion, surplus) =>
        EnqueueJobsTaken(p, Submission(threads, completion, surplus), s.store.next, |threads|);
      case SubmitJob(thread) => EnqueueJobsTaken(p, Job(thread), s.store.next, 1);
      case FireTimer(timer) => FireTaken(s, timer);
      case Inject(cmd) => AdmitTagged(p, cmd);
      case Receive(cmd) => AdmitTagged(p, cmd);
      case PoolMessage(w) => PoolMessageTaken(s, w);
      case TaggedMessage(u) => TaggedMessageTaken(s, u);
      case TaggedThread(u, _) =>
        assert Legal(p.tagged[u].worker);
        TaggedThreadNothingNew(p, u);
      case Quit => QuitNothingNew(p);
      case _ =>
    }
  }

  lemma StepTaggedMatches(s: Sys, a: Action, t: nat)
    requires PoolInv(s.pool) && (Dispatching(s.phase) ==> !ShuttingDown(s.pool)) && Enabled(s, a) && t < |s.pool.tagged|
    ensures TaggedMatches(s.pool, Next(s, a).pool, t)
    ensures RunsLast(s.pool.tagged[t]) ==> RunsLast(Next(s, a).pool.tagged[t])
  {
    if a.Advance? {
      ProceedTagged(s, t);
    } else {
      OthersTakeNothing(s, a);
      QuietTagged(s.pool, Next(s, a).pool, t);
    }
  }

  // ----- runs -----

  /** What a run puts into slots of pool workers, in order. */
  function Launched(s: Sys, actions: seq<Action>): seq<Load>
    requires IsRun(s, actions)
    decreases |actions|
  {
    if actions == [] then []
    else
      var s' := Next(s, actions[0]);
      Given(s.pool, s'.pool) + Launched(s', actions[1..])
  }

  /** What a run puts into the slot of tagged worker `t`, in order. */
  function LaunchedTagged(s: Sys, actions: seq<Action>, t: nat): seq<BatchJob>
    requires IsRun(s, actions)
    decreases |actions|
  {
    if actions == [] then []
    else
      var s' := Next(s, actions[0]);
      (if t < |s.pool.tagged| && t < |s'.pool.tagged|
       then NewTagged(s.pool.tagged[t].worker, s'.pool.tagged[t].worker) else [])
      + LaunchedTagged(s', actions[1..], t)
  }

  /** What the first step of a run puts into slots comes first. */
  lemma FirstLaunched(s: Sys, s': Sys, rest: seq<Load>, reply: bool)
    requires Matches(s, s', reply)
    ensures Taken(s'.pool, reply) + JobsIn(rest, reply)
         == Taken(s.pool, reply) + JobsIn(Given(s.pool, s'.pool) + rest, reply)
    ensures s'.started + CommandsIn(rest) == s.started + CommandsIn(Given(s.pool, s'.pool) + rest)
  {
    var loads := Given(s.pool, s'.pool);
    if loads == [] {
      assert loads + rest == rest;
    } else {
      assert loads == [loads[0]];
      OneLoad(loads[0], reply);
      JobsInAll(loads, rest, reply);
      CommandsInAll(loads, rest);
      Associative(Taken(s.pool, reply), JobIn(loads[0], reply), JobsIn(rest, reply));
      Associative(s.started, CommandIn(loads[0]), CommandsIn(rest));
    }
  }

  lemma FirstTagged(s: Sys, actions: seq<Action>, t: nat)
    requires IsRun(s, actions) && actions != [] && t < |s.pool.tagged| == |Next(s, actions[0]).pool.tagged|
    ensures var s', tail := Next(s, actions[0]), actions[1..];
      && After(s, actions) == After(s', tail)
      && LaunchedTagged(s, actions, t)
         == NewTagged(s.pool.tagged[t].worker, s'.pool.tagged[t].worker) + LaunchedTagged(s', tail, t)
  {
  }

  lemma {:induction false} RunMatches(s: Sys, actions: seq<Action>, reply: bool)
    requires Inv(s) && IsRun(s, actions)
    ensures Taken(After(s, actions).pool, reply) == Taken(s.pool, reply) + JobsIn(Launched(s, actions), reply)
    ensures After(s, actions).started == s.started + CommandsIn(Launched(s, actions))
    decreases |actions|
  {
    if actions != [] {
      var s', tail := Next(s, actions[0]), actions[1..];
      StepMatches(s, actions[0], reply);
      NextKeepsInv(s, actions[0]);
      RunMatches(s', tail, reply);
      FirstLaunched(s, s', Launched(s', tail), reply);
      assert Launched(s, actions) == Given(s.pool, s'.pool) + Launched(s', tail);
    }
  }

  lemma {:induction false} RunTaggedOrder(s: Sys, actions: seq<Action>, t: nat)
    requires Inv(s) && IsRun(s, actions) && t < |s.pool.tagged|
    ensures var q := After(s, actions).pool;
      && t < |q.tagged| && q.tagged[t].taken == s.pool.tagged[t].taken + LaunchedTagged(s, actions, t)
      && (RunsLast(s.pool.tagged[t]) ==> RunsLast(q.tagged[t]))
    decreases |actions|
  {
    if actions != [] {
      var s', tail := Next(s, actions[0]), actions[1..];
      StepTaggedMatches(s, actions[0], t);
      NextKeepsInv(s, actions[0]);
      RunTaggedOrder(s', tail, t);
      FirstTagged(s, actions, t);
      Associative(s.pool.tagged[t].taken, NewTagged(s.pool.tagged[t].worker, s'.pool.tagged[t].worker),
                  LaunchedTagged(s', tail, t));
    }
  }

  /** Over any run from the start, the batch jobs (or reply jobs) that got into slots, in that order,
      followed by those still queued, are everything that ever entered the queue, in order of entry. */
  lemma JobsStartInOrder(s: Sys, actions: seq<Action>, reply: bool)
    requires Initial(s) && IsRun(s, actions)
    ensures JobsIn(Launched(s, actions), reply) + QueueOf(After(s, actions).pool, reply)
         == Line(After(s, actions).pool, reply)
  {
    InitialInv(s);
    NothingTaken(s);
    FromNothing(s, actions, reply);
  }

  /** The commands that got into slots, in that order, are those recorded as started. */
  lemma CommandsStartInOrder(s: Sys, actions: seq<Action>)
    requires Initial(s) && IsRun(s, actions)
    ensures CommandsIn(Launched(s, actions)) == After(s, actions).started
  {
    InitialInv(s);
    NothingTaken(s);
    FromNothing(s, actions, false);
  }

  lemma FromNothing(s: Sys, actions: seq<Action>, reply: bool)
    requires Inv(s) && IsRun(s, actions) && Taken(s.pool, reply) == [] && s.started == []
    ensures JobsIn(Launched(s, actions), reply) == Taken(After(s, actions).pool, reply)
    ensures CommandsIn(Launched(s, actions)) == After(s, actions).started
  {
    RunMatches(s, actions, reply);
    assert [] + JobsIn(Launched(s, actions), reply) == JobsIn(Launched(s, actions), reply);
    assert [] + CommandsIn(Launched(s, actions)) == CommandsIn(Launched(s, actions));
  }

  lemma NothingTaken(s: Sys)
    requires Initial(s)
    ensures Taken(s.pool, false) == [] && Taken(s.pool, true) == [] && s.started == []
  {
  }

  /** Likewise for each tagged thread, which runs one job at a time: the one it was given last. */
  lemma TaggedJobsStartInOrder(s: Sys, actions: seq<Action>, t: nat)
    requires Initial(s) && IsRun(s, actions) && t < |s.pool.tagged|
    ensures var q := After(s, actions).pool;
      && t < |q.tagged| && LaunchedTagged(s, actions, t) + q.tagged[t].queue == TaggedLine(q, t)
      && (Busy(q.tagged[t].worker) ==>
            var jobs := LaunchedTagged(s, actions, t);
            jobs != [] && q.tagged[t].worker.load == BatchLoad(jobs[|jobs| - 1], false))
  {
    InitialInv(s);
    assert s.pool.tagged[t] in s.pool.tagged;
    TaggedFromNothing(s, actions, t);
  }

  lemma TaggedFromNothing(s: Sys, actions: seq<Action>, t: nat)
    requires Inv(s) && IsRun(s, actions) && t < |s.pool.tagged|
    requires !Busy(s.pool.tagged[t].worker) && s.pool.tagged[t].taken == []
    ensures var q, jobs := After(s, actions).pool, LaunchedTagged(s, actions, t);
      t < |q.tagged| && q.tagged[t].taken == jobs && RunsLast(q.tagged[t])
  {
    RunTaggedOrder(s, actions, t);
    assert [] + LaunchedTagged(s, actions, t) == LaunchedTagged(s, actions, t);
  }

  // ----- after QUIT -----

  lemma NothingTakenAfterQuit(s: Sys, a: Action)
    requires PoolInv(s.pool) && (Dispatching(s.phase) ==> !ShuttingDown(s.pool)) && ShuttingDown(s.pool)
    requires Enabled(s, a)
    ensures var q := Next(s, a).pool;
      q.batchTaken == s.pool.batchTaken && q.replyTaken == s.pool.replyTaken && SameTaken(s.pool, q)
  {
    if !a.Advance? { OthersTakeNothing(s, a); }
    match a {
      case SubmitBatch(threads, completion, surplus) =>
        EnqueueJobsTaken(s.pool, Submission(threads, completion, surplus), s.store.next, |threads|);
      case SubmitJob(thread) => EnqueueJobsTaken(s.pool, Job(thread), s.store.next, 1);
      case FireTimer(timer) => FireTaken(s, timer);
      case Inject(cmd) => if Admit(s.pool, cmd).Admitted? { AdmittedGives(s.pool, cmd); }
      case Receive(cmd) => if Admit(s.pool, cmd).Admitted? { AdmittedGives(s.pool, cmd); }
      case PoolMessage(w) => PoolMessageTaken(s, w);
      case TaggedMessage(t) => TaggedMessageTaken(s, t);
      case _ =>
    }
  }

  lemma {:induction false} RunTakesNothing(s: Sys, actions: seq<Action>)
    requires Inv(s) && ShuttingDown(s.pool) && IsRun(s, actions)
    ensures var q := After(s, actions).pool;
      && q.batchTaken == s.pool.batchTaken && q.replyTaken == s.pool.replyTaken && |q.tagged| == |s.pool.tagged|
      && forall t | 0 <= t < |q.tagged| :: q.tagged[t].taken == s.pool.tagged[t].taken
    decreases |actions|
  {
    if actions != [] {
      NothingTakenAfterQuit(s, actions[0]);
      StepAccounting(s, actions[0]);
      NextKeepsInv(s, actions[0]);
      RunTakesNothing(Next(s, actions[0]), actions[1..]);
    }
  }

  /** After QUIT only commands get into slots: whatever batch, reply or tagged job is queued then, or
      is queued later, is never run. */
  lemma QueuedJobsStayQueued(s: Sys, actions: seq<Action>, reply: bool)
    requires Reachable(s) && ShuttingDown(s.pool) && IsRun(s, actions)
    ensures JobsIn(Launched(s, actions), reply) == []
    ensures forall t | 0 <= t < |s.pool.tagged| :: LaunchedTagged(s, actions, t) == []
    ensures QueueOf(s.pool, reply) <= QueueOf(After(s, actions).pool, reply)
  {
    ReachableInv(s);
    RunTakesNothing(s, actions);
    RunMatches(s, actions, reply);
    forall t | 0 <= t < |s.pool.tagged| ensures LaunchedTagged(s, actions, t) == [] {
      RunTaggedOrder(s, actions, t);
    }
    QueueGrows(s, actions, reply);
  }

  lemma QueueGrows(s: Sys, actions: seq<Action>, reply: bool)
    requires Inv(s) && IsRun(s, actions) && Taken(After(s, actions).pool, reply) == Taken(s.pool, reply)
    ensures QueueOf(s.pool, reply) <= QueueOf(After(s, actions).pool, reply)
  {
    QueuesAreFifo(s, actions);
    SameFront(Taken(s.pool, reply), QueueOf(s.pool, reply), QueueOf(After(s, actions).pool, reply));
  }

  lemma SameFront<T>(xs: seq<T>, ys: seq<T>, zs: seq<T>)
    requires xs + ys <= xs + zs
    ensures ys <= zs
  {
    assert ys == (xs + ys)[|xs|..] && zs == (xs + zs)[|xs|..];
    assert (xs + ys)[|xs|..] == (xs + zs)[|xs|..|xs| + |ys|];
  }
}
