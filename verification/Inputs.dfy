/** What an input leads to: the batch that is on record, the queues its jobs enter, what a job's own
    outcome is, and when a timer may fire. */
module Inputs {
  import opened Workers
  import opened Pool
  import opened Batches
  import opened System
  import opened BatchProofs
  import opened Tokens
  import opened SystemProofs
  import opened Theorems
  import opened Placement
  import opened Draining

  // ----- timers -----

  /** A timer keeps its thread and its squelch flag, and stays armed unless it is cancelled. */
  lemma TimerKept(s: Sys, a: Action, t: nat)
    requires Enabled(s, a) && t in s.store.timers
    ensures var st, st' := s.store, Next(s, a).store;
      && t in st'.timers && st'.timers[t].thread == st.timers[t].thread && st'.timers[t].squelch == st.timers[t].squelch
      && (t in st'.armed <==> t in st.armed && a != CancelTimer(t))
  {
    match a {
      case AddTimer(_, _, _) =>
      case CancelTimer(_) =>
      case _ => OthersKeepTimer(s, a, t);
    }
  }

  lemma OthersKeepTimer(s: Sys, a: Action, t: nat)
    requires Enabled(s, a) && t in s.store.timers && !a.AddTimer? && !a.CancelTimer?
    ensures SameTimer(s.store, Next(s, a).store, t)
  {
    match a {
      case SubmitBatch(threads, completion, surplus) => AddBatchTimers(s, Submission(threads, completion, surplus));
      case SubmitJob(thread) => AddBatchTimers(s, Job(thread));
      case PoolMessage(w) => PoolMessageTimer(s, w, t);
      case TaggedMessage(u) => TaggedMessageTimer(s, u, t);
      case PoolThread(w, outcome) => RunKeepsTimers(s.store, s.pool.workers[w], outcome);
      case TaggedThread(u, outcome) => RunKeepsTimers(s.store, s.pool.tagged[u].worker, outcome);
      case FireTimer(u) => FireTimerKept(s, u, t);
      case Inject(cmd) => AdmitOutcomes(s, cmd);
      case Receive(cmd) => AdmitOutcomes(s, cmd);
      case _ =>
    }
  }

  lemma RunKeepsTimers(st: Store, w: Worker, outcome: Outcome)
    ensures RunBy(st, w, outcome).timers == st.timers && RunBy(st, w, outcome).armed == st.armed
  {
  }

  predicate SameTimer(st: Store, st': Store, t: nat) {
    && t in st.timers && t in st'.timers && st'.armed == st.armed
    && st'.timers[t].thread == st.timers[t].thread && st'.timers[t].squelch == st.timers[t].squelch
  }

  lemma ReportTimer(st: Store, job: BatchJob, t: nat)
    requires t in st.timers
    ensures SameTimer(st, ReportJob(st, job), t)
  {
    if job.batch in st.heap && st.heap[job.batch].Batch? {
      CompletionTimer(st.timers, st.heap[job.batch].completion, t);
      assert ReportJob(st, job).timers in {st.timers, AfterCompletion(st.timers, st.heap[job.batch].completion)};
    } else {
      assert ReportJob(st, job).timers == st.timers;
    }
  }

  lemma CompletionTimer(timers: map<nat, Timer>, completion: Completion, t: nat)
    requires t in timers
    ensures var timers' := AfterCompletion(timers, completion);
      t in timers' && timers'[t].thread == timers[t].thread && timers'[t].squelch == timers[t].squelch
  {
  }

  lemma PoolMessageTimer(s: Sys, w: nat, t: nat)
    requires w < |s.pool.workers| && s.pool.workers[w].outbox != [] && t in s.store.timers
    ensures SameTimer(s.store, HandlePool(s, w).store, t)
  {
    var worker := s.pool.workers[w];
    if worker.load.BatchLoad? {
      ReportTimer(s.store, worker.load.job, t);
      assert HandlePool(s, w).store in {s.store, ReportJob(s.store, worker.load.job)};
    } else {
      assert HandlePool(s, w).store == s.store;
    }
  }

  lemma TaggedMessageTimer(s: Sys, u: nat, t: nat)
    requires u < |s.pool.tagged| && s.pool.tagged[u].worker.outbox != [] && t in s.store.timers
    ensures SameTimer(s.store, HandleTagged(s, u).store, t)
  {
    var worker := s.pool.tagged[u].worker;
    if worker.load.BatchLoad? {
      ReportTimer(s.store, worker.load.job, t);
      assert HandleTagged(s, u).store in {s.store, ReportJob(s.store, worker.load.job)};
    } else {
      assert HandleTagged(s, u).store == s.store;
    }
  }

  lemma FireTimerKept(s: Sys, u: nat, t: nat)
    requires t in s.store.timers
    ensures SameTimer(s.store, Fire(s, u).store, t)
  {
    if u in s.store.timers && s.store.timers[u].squelch {
      AddBatchTimers(s, NewBatch([s.store.timers[u].thread], Rearm(u)));
    } else if u in s.store.timers {
      AddBatchTimers(s, Job(s.store.timers[u].thread));
    }
  }

  lemma AddBatchTimers(s: Sys, obj: Batch)
    ensures AddBatch(s, obj).store.timers == s.store.timers && AddBatch(s, obj).store.armed == s.store.armed
  {
  }

  lemma {:induction false} RunKeepsTimer(s: Sys, actions: seq<Action>, t: nat)
    requires IsRun(s, actions) && t in s.store.timers
    ensures var st, st' := s.store, After(s, actions).store;
      && t in st'.timers && st'.timers[t].thread == st.timers[t].thread && st'.timers[t].squelch == st.timers[t].squelch
      && (t in st'.armed <==> t in st.armed && CancelTimer(t) !in actions)
    decreases |actions|
  {
    if actions != [] {
      TimerKept(s, actions[0], t);
      RunKeepsTimer(Next(s, actions[0]), actions[1..], t);
      assert actions == [actions[0]] + actions[1..];
    }
  }

  /** Once added, a timer may fire whenever the loop gets to the timers, until it is cancelled and never
      after that; and it keeps the thread and the squelch flag that it was added with. */
  lemma MayFireIff(s: Sys, t: nat, squelch: bool, thread: int, actions: seq<Action>)
    requires Enabled(s, AddTimer(t, squelch, thread)) && IsRun(Next(s, AddTimer(t, squelch, thread)), actions)
    ensures var s' := After(Next(s, AddTimer(t, squelch, thread)), actions);
      && (Enabled(s', FireTimer(t)) <==> s'.phase.Timers? && CancelTimer(t) !in actions)
      && t in s'.store.timers && s'.store.timers[t].thread == thread && s'.store.timers[t].squelch == squelch
  {
    RunKeepsTimer(Next(s, AddTimer(t, squelch, thread)), actions, t);
  }

  // ----- batches on record -----

  /** A step changes nothing on record, and adds at most the next batch. */
  lemma StepExtends(s: Sys, a: Action)
    requires Enabled(s, a) && s.store.next !in s.store.submitted
    ensures Extends(s.store, Next(s, a).store)
  {
    match a {
      case PoolMessage(w) => PoolMessageSubmits(s, w);
      case TaggedMessage(t) => TaggedMessageSubmits(s, t);
      case PoolThread(w, outcome) => RunKeepsWork(s.store, s.pool.workers[w], outcome);
      case TaggedThread(t, outcome) => RunKeepsWork(s.store, s.pool.tagged[t].worker, outcome);
      case Inject(cmd) => AdmitOutcomes(s, cmd);
      case Receive(cmd) => AdmitOutcomes(s, cmd);
      case FireTimer(timer) => FireExtends(s, timer);
      case _ =>
    }
  }

  lemma FireExtends(s: Sys, timer: nat)
    requires s.store.next !in s.store.submitted
    ensures Extends(s.store, Fire(s, timer).store)
  {
  }

  lemma {:induction false} RunExtends(s: Sys, actions: seq<Action>)
    requires Inv(s) && IsRun(s, actions)
    ensures Extends(s.store, After(s, actions).store)
    decreases |actions|
  {
    if actions != [] {
      NextIsNew(s);
      StepExtends(s, actions[0]);
      NextKeepsInv(s, actions[0]);
      RunExtends(Next(s, actions[0]), actions[1..]);
    }
  }

  /** What is submitted is on record for good, as it was submitted: the record that the theorems about
      batches speak of. */
  lemma RecordedForGood(s: Sys, threads: seq<int>, completion: Completion, surplus: nat, actions: seq<Action>)
    requires Reachable(s) && Enabled(s, SubmitBatch(threads, completion, surplus))
    requires IsRun(Next(s, SubmitBatch(threads, completion, surplus)), actions)
    ensures var st := After(Next(s, SubmitBatch(threads, completion, surplus)), actions).store;
      && s.store.next !in s.store.submitted && s.store.next in st.submitted
      && var obj := st.submitted[s.store.next];
         obj.Batch? && obj.threads == threads && obj.completion == completion && Surplus(obj) == surplus
  {
    ReachableInv(s);
    NextIsNew(s);
    var a := SubmitBatch(threads, completion, surplus);
    NextKeepsInv(s, a);
    RunExtends(Next(s, a), actions);
    SubmissionRecorded(s, threads, completion, surplus);
  }

  lemma SubmissionRecorded(s: Sys, threads: seq<int>, completion: Completion, surplus: nat)
    ensures var st := AddBatch(s, Submission(threads, completion, surplus)).store;
      && s.store.next in st.submitted
      && var obj := st.submitted[s.store.next];
         obj.Batch? && obj.threads == threads && obj.completion == completion && Surplus(obj) == surplus
  {
  }

  // ----- the queues that jobs enter -----

  /** The jobs among the first `n` that ask for thread `t`, in order. */
  function Asking(b: nat, threads: seq<int>, t: int, n: nat): seq<BatchJob>
    requires n <= |threads|
  {
    if n == 0 then [] else Asking(b, threads, t, n - 1) + (if threads[n - 1] == t then [BatchJob(b, n - 1)] else [])
  }

  lemma {:induction false} EnqueuedWhereAsked(p: Pool, threads: seq<int>, completion: Completion, surplus: nat,
                                              b: nat, n: nat)
    requires n <= |threads| && forall i | 0 <= i < |threads| :: ValidThread(p, threads[i])
    ensures var q := EnqueueJobs(p, Submission(threads, completion, surplus), b, n);
      && q.batchJobs == p.batchJobs + Asking(b, threads, 0, n) && q.replyJobs == p.replyJobs
      && |q.tagged| == |p.tagged|
      && (forall t | 0 <= t < |p.tagged| :: q.tagged[t].queue == p.tagged[t].queue + Asking(b, threads, t + 1, n))
  {
    if n > 0 { EnqueuedWhereAsked(p, threads, completion, surplus, b, n - 1); }
  }

  /** The jobs of a batch go to the end of the queue of the thread that each asks for, in order. */
  lemma BatchArrives(s: Sys, threads: seq<int>, completion: Completion, surplus: nat)
    requires Enabled(s, SubmitBatch(threads, completion, surplus))
    ensures var p, q, b := s.pool, Next(s, SubmitBatch(threads, completion, surplus)).pool, s.store.next;
      && q.batchJobs == p.batchJobs + Asking(b, threads, 0, |threads|) && q.replyJobs == p.replyJobs
      && |q.tagged| == |p.tagged|
      && (forall t | 0 <= t < |p.tagged| ::
            q.tagged[t].queue == p.tagged[t].queue + Asking(b, threads, t + 1, |threads|))
  {
    EnqueuedWhereAsked(s.pool, threads, completion, surplus, s.store.next, |threads|);
  }


  /** Job `job` went to the end of the queue of tagged thread `t`, or, for 0, of the batch queue or the
      reply queue; for a negative `t` nowhere.  Nothing else was queued. */
  predicate QueuedFor(p: Pool, q: Pool, t: int, reply: bool, job: BatchJob) {
    && q.batchJobs == p.batchJobs + (if t == 0 && !reply then [job] else [])
    && q.replyJobs == p.replyJobs + (if t == 0 && reply then [job] else [])
    && |q.tagged| == |p.tagged|
    && (forall u | 0 <= u < |p.tagged| :: q.tagged[u].queue == p.tagged[u].queue + (if t == u + 1 then [job] else []))
  }

  /** A single job is recorded and goes to the end of the queue of the thread it asks for ... */
  lemma JobArrives(s: Sys, thread: int)
    requires Enabled(s, SubmitJob(thread))
    ensures var s', b := Next(s, SubmitJob(thread)), s.store.next;
      && QueuedFor(s.pool, s'.pool, thread, false, BatchJob(b, 0))
      && s'.store.submitted == s.store.submitted[b := Job(thread)] && s'.store.heap == s.store.heap[b := Job(thread)]
  {
    var obj, b := Job(thread), s.store.next;
    assert EnqueueJobs(s.pool, obj, b, 1) == Enqueue(EnqueueJobs(s.pool, obj, b, 0), thread, BatchJob(b, 0));
  }

  /** ... and a reply to the end of the reply queue. */
  lemma ReplyArrives(s: Sys)
    requires Enabled(s, ScheduleReply)
    ensures var s', b := Next(s, ScheduleReply), s.store.next;
      && QueuedFor(s.pool, s'.pool, 0, true, BatchJob(b, 0))
      && s'.store.submitted == s.store.submitted[b := Job(0)] && s'.store.heap == s.store.heap[b := Job(0)]
  {
  }

  /** Where the completion of a batch has to go when one of its jobs is reported: nowhere unless that is
      the last one it counts and the completion runs in a thread. */
  function DueThread(obj: Batch, jobno: int): int {
    if jobno >= 0 && obj.Batch? && obj.outstanding == 1 && obj.completion.InThread? then obj.completion.thread else -1
  }

  /** The completion of a batch enters the queue of its tagged thread, or else the queue that the last
      job came from, when the last job it counts is reported, and only then. */
  lemma CompletionArrives(s: Sys, w: nat)
    requires Reachable(s) && Enabled(s, PoolMessage(w)) && Busy(s.pool.workers[w]) && s.pool.workers[w].load.BatchLoad?
    ensures var load := s.pool.workers[w].load;
      && load.job.batch in s.store.heap
      && QueuedFor(s.pool, Next(s, PoolMessage(w)).pool, DueThread(s.store.heap[load.job.batch], load.job.jobno),
                   load.reply, BatchJob(load.job.batch, -1))
  {
    ReachableInv(s);
    RanIsReportable(s, s.pool.workers[w].load.job, s.pool.workers[w]);
    ReportQueues(s, w);
  }

  lemma ReportQueues(s: Sys, w: nat)
    requires ThreadsInv(s) && w < |s.pool.workers| && s.pool.workers[w].outbox != [] && Busy(s.pool.workers[w])
    requires s.pool.workers[w].load.BatchLoad? && Reportable(s.store, s.pool.workers[w].load.job)
    ensures var load := s.pool.workers[w].load;
      QueuedFor(s.pool, HandlePool(s, w).pool, DueThread(s.store.heap[load.job.batch], load.job.jobno), load.reply,
                BatchJob(load.job.batch, -1))
  {
    var p, load := s.pool, s.pool.workers[w].load;
    FateThread(s, load.job);
    PoolRanTagged(p, w);
    PoolRanQueues(p, w);
    FateMeans(s.store.heap[load.job.batch], load.job.jobno);
    CompletionQueued(PoolRan(p, w), FateIn(s.store, load.job), load.reply, BatchJob(load.job.batch, -1));
  }

  /** The same when the last job ran in a tagged thread. */
  lemma TaggedCompletionArrives(s: Sys, t: nat)
    requires Reachable(s) && Enabled(s, TaggedMessage(t)) && Busy(s.pool.tagged[t].worker)
    requires s.pool.tagged[t].worker.load.BatchLoad?
    ensures var load := s.pool.tagged[t].worker.load;
      && load.job.batch in s.store.heap
      && QueuedFor(s.pool, Next(s, TaggedMessage(t)).pool, DueThread(s.store.heap[load.job.batch], load.job.jobno),
                   load.reply, BatchJob(load.job.batch, -1))
  {
    ReachableInv(s);
    assert s.pool.tagged[t] in s.pool.tagged;
    RanIsReportable(s, s.pool.tagged[t].worker.load.job, s.pool.tagged[t].worker);
    TaggedReportQueues(s, t);
  }

  lemma TaggedReportQueues(s: Sys, t: nat)
    requires ThreadsInv(s) && t < |s.pool.tagged| && s.pool.tagged[t].worker.outbox != []
    requires Busy(s.pool.tagged[t].worker)
    requires s.pool.tagged[t].worker.load.BatchLoad? && Reportable(s.store, s.pool.tagged[t].worker.load.job)
    ensures var load := s.pool.tagged[t].worker.load;
      QueuedFor(s.pool, HandleTagged(s, t).pool, DueThread(s.store.heap[load.job.batch], load.job.jobno), load.reply,
                BatchJob(load.job.batch, -1))
  {
    var p, load := s.pool, s.pool.tagged[t].worker.load;
    FateThread(s, load.job);
    TaggedRanQueues(p, t);
    FateMeans(s.store.heap[load.job.batch], load.job.jobno);
    CompletionQueued(TaggedRan(p, t), FateIn(s.store, load.job), load.reply, BatchJob(load.job.batch, -1));
  }

  /** A completion is to be queued exactly if the batch counts one job more, and its completion runs in
      a thread. */
  lemma FateMeans(obj: Batch, jobno: int)
    ensures FateOf(obj, jobno).Queues?
       <==> jobno != -1 && obj.Batch? && obj.outstanding == 1 && obj.completion.InThread? && obj.completion.thread >= 0
    ensures FateOf(obj, jobno).Queues? ==> FateOf(obj, jobno).thread == obj.completion.thread
  {
  }

  lemma CompletionQueued(p: Pool, fate: Fate, reply: bool, job: BatchJob)
    requires fate.Queues? ==> ValidThread(p, fate.thread)
    ensures QueuedFor(p, EnqueueCompletion(p, fate, reply, job), if fate.Queues? then fate.thread else -1, reply, job)
  {
  }

  lemma PoolRanQueues(p: Pool, w: nat)
    requires w < |p.workers| && p.workers[w].outbox != [] && !p.workers[w].load.Nothing?
    ensures PoolRan(p, w).batchJobs == p.batchJobs && PoolRan(p, w).replyJobs == p.replyJobs
  {
  }

  lemma TaggedRanQueues(p: Pool, t: nat)
    requires t < |p.tagged| && p.tagged[t].worker.outbox != []
    ensures var q := TaggedRan(p, t);
      && q.batchJobs == p.batchJobs && q.replyJobs == p.replyJobs && |q.tagged| == |p.tagged|
      && (forall u | 0 <= u < |p.tagged| :: q.tagged[u].queue == p.tagged[u].queue)
  {
  }

  // ----- outcomes -----

  /** What a step shows about the outcome of a job: the thread that runs it ends with `outcome`. */
  function Ends(w: Worker, outcome: Outcome): map<BatchJob, Outcome> {
    if w.thread.Working? && w.load.BatchLoad? && w.load.job.jobno >= 0 then map[w.load.job := outcome] else map[]
  }

  function EndsIn(s: Sys, a: Action): map<BatchJob, Outcome>
    requires Enabled(s, a)
  {
    match a
    case PoolThread(w, outcome) => Ends(s.pool.workers[w], outcome)
    case TaggedThread(t, outcome) => Ends(s.pool.tagged[t].worker, outcome)
    case _ => map[]
  }

  /** The outcomes that a run shows. */
  function Observed(s: Sys, actions: seq<Action>, before: map<BatchJob, Outcome>): map<BatchJob, Outcome>
    requires IsRun(s, actions)
    decreases |actions|
  {
    if actions == [] then before
    else Observed(Next(s, actions[0]), actions[1..], before + EndsIn(s, actions[0]))
  }

  lemma RunShows(s: Sys, w: Worker, outcome: Outcome)
    requires PoolInv(s.pool) && BatchesInv(s)
    requires w in s.pool.workers || exists t :: t in s.pool.tagged && t.worker == w
    ensures RunBy(s.store, w, outcome).outcomes == s.store.outcomes + Ends(w, outcome)
  {
    if w.thread.Working? && w.load.BatchLoad? {
      assert Legal(w);
      UnrunIsLive(s, w.load.job, w);
      JobShows(s.store, w.load.job, outcome);
    } else {
      assert s.store.outcomes + map[] == s.store.outcomes;
    }
  }

  lemma JobShows(st: Store, job: BatchJob, outcome: Outcome)
    requires job.batch in st.heap && -1 <= job.jobno < Size(st.heap[job.batch])
    ensures RunJob(st, job, outcome).outcomes
         == st.outcomes + (if job.jobno >= 0 then map[job := outcome] else map[])
  {
    assert st.outcomes + map[] == st.outcomes;
    if job.jobno >= 0 { assert st.outcomes + map[job := outcome] == st.outcomes[job := outcome]; }
  }

  lemma UnrunIsLive(s: Sys, job: BatchJob, w: Worker)
    requires BatchesInv(s) && HoldsUnrun(w, job)
    requires w in s.pool.workers || exists t :: t in s.pool.tagged && t.worker == w
    ensures job.batch in s.store.heap && -1 <= job.jobno < Size(s.store.heap[job.batch])
  {
    var p := s.pool;
    if w in p.workers {
      var i :| 0 <= i < |p.workers| && p.workers[i] == w;
      WorkersHold(p.workers, i, job);
    } else {
      var i :| 0 <= i < |p.tagged| && p.tagged[i].worker == w;
      TaggedHold(p.tagged, i, job);
    }
    assert PreOf(p)(job) == Pre(p, job) > 0;
    WaitingJobIsLive(PreOf(p), PostOf(p), s.store, job);
  }

  lemma TaggedShows(s: Sys, t: nat, outcome: Outcome)
    requires PoolInv(s.pool) && BatchesInv(s) && t < |s.pool.tagged|
    ensures RunBy(s.store, s.pool.tagged[t].worker, outcome).outcomes
         == s.store.outcomes + Ends(s.pool.tagged[t].worker, outcome)
  {
    assert s.pool.tagged[t] in s.pool.tagged;
    RunShows(s, s.pool.tagged[t].worker, outcome);
  }

  lemma NothingShown(s: Sys, a: Action)
    requires Enabled(s, a) && !a.PoolThread? && !a.TaggedThread?
    ensures Next(s, a).store.outcomes == s.store.outcomes + EndsIn(s, a)
  {
    SameOutcomes(s, a);
    assert EndsIn(s, a) == map[] && s.store.outcomes + map[] == s.store.outcomes;
  }

  lemma StepShows(s: Sys, a: Action)
    requires PoolInv(s.pool) && BatchesInv(s) && Enabled(s, a)
    ensures Next(s, a).store.outcomes == s.store.outcomes + EndsIn(s, a)
  {
    match a {
      case PoolThread(w, outcome) => RunShows(s, s.pool.workers[w], outcome);
      case TaggedThread(t, outcome) => TaggedShows(s, t, outcome);
      case _ => NothingShown(s, a);
    }
  }

  lemma {:induction false} RunObserved(s: Sys, actions: seq<Action>)
    requires Inv(s) && IsRun(s, actions)
    ensures After(s, actions).store.outcomes == Observed(s, actions, s.store.outcomes)
    decreases |actions|
  {
    if actions != [] {
      StepShows(s, actions[0]);
      NextKeepsInv(s, actions[0]);
      RunObserved(Next(s, actions[0]), actions[1..]);
    }
  }

  /** The outcomes that completions get are those that the threads ended their jobs with. */
  lemma OutcomesAreObserved(s: Sys, actions: seq<Action>)
    requires Initial(s) && IsRun(s, actions)
    ensures After(s, actions).store.outcomes == Observed(s, actions, map[])
  {
    InitialInv(s);
    RunObserved(s, actions);
  }
}
