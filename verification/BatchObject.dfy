/** A batch as user code builds and submits it, and as worker threads and the proxy update it. */
module BatchObject {
  import opened Batches

  datatype Thread = AnyThread | InTagged(id: int)

  function ThreadId(thread: Thread): int { if thread.InTagged? then thread.id else 0 }

  const RUN_IN_PROXY: int := -1

  function WithJob(b: Batch, thread: int): Batch
    requires b.Batch?
  {
    b.(threads := b.threads + [thread], results := b.results + [NotRun], outstanding := b.outstanding + 1)
  }

  class BatchObject {
    var threads: seq<int>
    var results: seq<Outcome>
    var jobsOutstanding: int
    var hasCompletion: bool
    var completeInThread: int
    var started: bool
    var taggedThreadJobs: bool
    /** The object has been moved to the proxy before. */
    ghost var submitted: bool

    ghost function View(): Batch
      reads this
    {
      Batch(threads, results, jobsOutstanding, if hasCompletion then InThread(completeInThread) else NoCompletion)
    }

    predicate Tagged()
      reads this
    {
      exists i | 0 <= i < |threads| :: threads[i] != 0
    }

    /** One result per job; the flag tells whether some job asked for a thread, and may be a leftover
        after a submission; nothing ever sets `started`. */
    ghost predicate Valid()
      reads this
    {
      && !started && |results| == |threads|
      && (Tagged() ==> taggedThreadJobs) && (taggedThreadJobs && !submitted ==> Tagged())
    }

    /** No job has been run or reported yet, and the count is right. */
    ghost predicate Fresh()
      reads this
    {
      View() == NewBatch(threads, View().completion)
    }

    constructor ()
      ensures Valid() && Fresh() && !submitted && View() == NewBatch([], NoCompletion)
    {
      threads, results, jobsOutstanding := [], [], 0;
      hasCompletion, completeInThread, started, taggedThreadJobs := false, 0, false, false;
      submitted := false;
    }

    /** `add_job`: refused for the proxy thread only, whether the batch was submitted or not. */
    method AddJob(thread: Thread) returns (ok: bool)
      requires Valid()
      modifies this
      ensures Valid() && submitted == old(submitted)
      ensures ok <==> thread != InTagged(RUN_IN_PROXY)
      ensures View() == if ok then WithJob(old(View()), ThreadId(thread)) else old(View())
      ensures ok ==> threads == old(threads) + [if thread.InTagged? then thread.id else 0]
      ensures ok ==> results == old(results) + [NotRun] && jobsOutstanding == old(jobsOutstanding) + 1
      ensures old(Fresh()) ==> Fresh()
    {
      if started || (thread.InTagged? && thread.id == RUN_IN_PROXY) { return false; }
      var id := if thread.InTagged? then thread.id else 0;
      ghost var before := threads;
      threads := threads + [id];
      results := results + [NotRun];
      jobsOutstanding := jobsOutstanding + 1;
      if id != 0 {
        taggedThreadJobs := true;
        assert threads[|before|] != 0;
      }
      assert forall i | 0 <= i < |before| :: threads[i] == before[i];
      return true;
    }

    /** `completion`: refused only if there is one, whether the batch was submitted or not. */
    method SetCompletion(thread: Thread) returns (ok: bool)
      requires Valid()
      modifies this
      ensures Valid() && submitted == old(submitted)
      ensures ok <==> old(View()).completion.NoCompletion?
      ensures View() == if ok then old(View()).(completion := InThread(ThreadId(thread))) else old(View())
      ensures ok ==> hasCompletion && completeInThread == if thread.InTagged? then thread.id else 0
      ensures old(Fresh()) ==> Fresh()
    {
      if started || hasCompletion { return false; }
      hasCompletion := true;
      completeInThread := if thread.InTagged? then thread.id else 0;
      return true;
    }

    /** `OxenMQ::batch`: an empty batch is refused; otherwise the contents are moved out.  The vectors
        are empty then, the counter and the flags are what they were, and whether a completion is left
        behind is up to the library. */
    method Submit() returns (ok: bool, moved: Batch)
      requires Valid()
      modifies this
      ensures Valid() && (ok <==> old(threads) != []) && moved == old(View())
      ensures !ok ==> View() == old(View()) && submitted == old(submitted)
      ensures ok ==> submitted && threads == [] && results == [] && jobsOutstanding == old(jobsOutstanding)
    {
      moved := Batch(threads, results, jobsOutstanding,
                     if hasCompletion then InThread(completeInThread) else NoCompletion);
      ok := threads != [];
      if ok {
        threads, results := [], [];
        hasCompletion := *;
        submitted := true;
      }
    }

    /** Whether the jobs can all go to the general queue, and where each belongs. */
    method Threads() returns (usesTagged: bool, ids: seq<int>)
      requires Valid()
      ensures ids == threads && (!usesTagged ==> forall i | 0 <= i < |ids| :: ids[i] == 0)
      ensures usesTagged && !submitted ==> exists i | 0 <= i < |ids| :: ids[i] != 0
    {
      usesTagged, ids := taggedThreadJobs, [];
      while |ids| < |threads|
        invariant |ids| <= |threads| && ids == threads[..|ids|]
      {
        ids := ids + [threads[|ids|]];
      }
    }

    /** A worker thread runs job `i`. */
    method RunJob(i: nat, outcome: Outcome)
      requires Valid() && i < |threads|
      modifies this`results
      ensures Valid() && View() == StoreResult(old(View()), i, outcome)
    {
      results := results[i := outcome];
    }

    /** `job_finished`, in the proxy. */
    method Finished() returns (state: BatchState, thread: int)
      requires Valid() && jobsOutstanding > 0
      modifies this`jobsOutstanding
      ensures Valid() && BatchStatus(View(), state, thread) == JobFinished(old(View()))
    {
      jobsOutstanding := jobsOutstanding - 1;
      if jobsOutstanding != 0 { return Running, 0; }
      if hasCompletion { return Complete, completeInThread; }
      return Done, 0;
    }
  }

  // ----- after a submission -----

  /** The documentation says that adding a job after the start throws; it never does, and what is
      submitted then counts jobs that it does not have. */
  method UseAgain(b: BatchObject, thread: Thread) returns (ok: bool, moved: Batch)
    requires b.Valid() && b.submitted && b.threads == [] && b.jobsOutstanding > 0 && thread != InTagged(RUN_IN_PROXY)
    modifies b
    ensures ok && moved.Batch?
    ensures moved == Submission([if thread.InTagged? then thread.id else 0], moved.completion, old(b.jobsOutstanding))
  {
    ok := b.AddJob(thread);
    var submitted, m := b.Submit();
    return ok && submitted, m;
  }

  /** The batch after `n` of its jobs were reported. */
  function Reported(b: Batch, n: nat): Batch {
    if n == 0 then b else JobFinished(Reported(b, n - 1)).batch
  }

  lemma {:induction false} Countdown(b: Batch, n: nat)
    requires b.Batch?
    ensures Reported(b, n) == b.(outstanding := b.outstanding - n)
  {
    if n > 0 { Countdown(b, n - 1); }
  }

  /** The report of the n-th job ends a batch exactly if `n` jobs were outstanding: a new batch ends
      with its last job, and one that was used again never does. */
  lemma EndsIff(b: Batch, n: nat)
    requires b.Batch? && 1 <= n <= |b.threads|
    ensures JobFinished(Reported(b, n - 1)).state != Running <==> b.outstanding == n
    ensures b.outstanding > |b.threads| ==> JobFinished(Reported(b, n - 1)).state == Running
  {
    Countdown(b, n - 1);
  }
}
