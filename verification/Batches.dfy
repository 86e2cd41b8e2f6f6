/** Batch objects: submitted by user code, owned by the proxy, run by workers, deleted by the
    proxy.  The store is the heap of live objects plus a ledger of everything that ever happened
    to them.  As in the pool, dereferencing a deleted batch, running a job that does not exist or
    under-running a counter is recorded in `fault`. */
module Batches {
  import opened Workers

  datatype Outcome = NotRun | Value(v: int) | Raised(e: int)

  /** Where the completion function runs: -1 in the proxy thread, 0 in the pool, t > 0 in tagged
      thread t.  The completion of a squelched timer's batch re-arms its timer in the proxy. */
  datatype Completion = NoCompletion | InThread(thread: int) | Rearm(timer: nat)

  /** `Batch<R>` and `Job` of batch.h. */
  datatype Batch =
    | Batch(threads: seq<int>, results: seq<Outcome>, outstanding: int, completion: Completion)
    | Job(thread: int)

  datatype BatchState = Running | Complete | Done

  datatype BatchStatus = BatchStatus(batch: Batch, state: BatchState, thread: int)

  datatype Timer = Timer(squelch: bool, running: bool, thread: int, batch: nat)

  /** `created`, `ran` and `finished` count, for each (batch, job number), how often it was queued,
      run by a thread, and reported back to the proxy; `deleted` counts deletions. */
  datatype Store = Store(
    heap: map<nat, Batch>, next: nat, timers: map<nat, Timer>, armed: set<nat>,
    submitted: map<nat, Batch>,
    created: multiset<BatchJob>, ran: multiset<BatchJob>, finished: multiset<BatchJob>,
    outcomes: map<BatchJob, Outcome>, delivered: map<nat, seq<Outcome>>,
    deleted: multiset<nat>, fault: bool)

  const EMPTY_STORE :=
    Store(map[], 0, map[], {}, map[], multiset{}, multiset{}, multiset{}, map[], map[], multiset{}, false)

  function Size(b: Batch): nat {
    if b.Batch? then |b.threads| else 1
  }

  function ThreadOf(b: Batch, i: nat): int
    requires i < Size(b)
  {
    if b.Batch? then b.threads[i] else b.thread
  }

  function NewBatch(threads: seq<int>, completion: Completion): Batch {
    Submission(threads, completion, 0)
  }

  /** A batch as it is submitted; one whose object was submitted before counts `surplus` jobs of that
      submission on top of its own. */
  function Submission(threads: seq<int>, completion: Completion, surplus: nat): Batch {
    Batch(threads, seq(|threads|, _ => NotRun), |threads| + surplus, completion)
  }

  /** What a batch counts, when it is submitted, beyond the jobs that it has. */
  function Surplus(b: Batch): int {
    if b.Batch? then b.outstanding - |b.threads| else 0
  }

  /** `job_finished()`: called in the proxy for each job that comes back. */
  function JobFinished(b: Batch): BatchStatus {
    if b.Job? then BatchStatus(b, Done, 0)
    else
      var b' := b.(outstanding := b.outstanding - 1);
      if b'.outstanding != 0 then BatchStatus(b', Running, 0)
      else match b.completion
        case NoCompletion => BatchStatus(b', Done, 0)
        case InThread(t) => BatchStatus(b', Complete, t)
        case Rearm(_) => BatchStatus(b', Complete, -1)
  }

  /** Jobs 0 .. n-1 of batch `b`. */
  function JobsOf(b: nat, n: nat): multiset<BatchJob> {
    if n == 0 then multiset{} else JobsOf(b, n - 1) + multiset{BatchJob(b, n - 1)}
  }

  // ----- operations -----

  /** Take ownership of a new batch; its jobs are about to be queued. */
  function Submit(s: Store, obj: Batch): Store {
    s.(heap := s.heap[s.next := obj], submitted := s.submitted[s.next := obj],
       created := s.created + JobsOf(s.next, Size(obj)), next := s.next + 1)
  }

  /** A worker thread runs `job` and the job's function ends with `outcome`. */
  function RunJob(s: Store, job: BatchJob, outcome: Outcome): Store {
    if job.batch !in s.heap then
      s.(fault := true)
    else
      var obj := s.heap[job.batch];
      if 0 <= job.jobno < Size(obj) then
        s.(heap := s.heap[job.batch := StoreResult(obj, job.jobno, outcome)],
           ran := s.ran + multiset{job}, outcomes := s.outcomes[job := outcome])
      else if job.jobno == -1 && obj.Batch? && obj.completion.InThread? then
        s.(ran := s.ran + multiset{job}, delivered := s.delivered[job.batch := obj.results])
      else
        s.(fault := true)
  }

  /** `run_job`: the value or exception becomes result `i`; a `Job` discards it. */
  function StoreResult(b: Batch, i: int, outcome: Outcome): Batch
    requires 0 <= i < Size(b)
  {
    if b.Batch? && i < |b.results| then b.(results := b.results[i := outcome]) else b
  }

  /** What becomes of a batch when one of its jobs is reported as finished. */
  datatype Fate =
    | Kept                    // more jobs to come
    | Queues(thread: nat)     // the completion job goes to the pool (0) or to a tagged thread
    | CompletedHere           // the completion runs in the proxy, then the batch is deleted
    | Deleted

  function FateOf(obj: Batch, jobno: int): Fate {
    if jobno == -1 then Deleted
    else
      var status := JobFinished(obj);
      match status.state
      case Running => Kept
      case Done => Deleted
      case Complete => if status.thread < 0 then CompletedHere else Queues(status.thread)
  }

  /** A completion that runs in the proxy thread: the one of a squelched timer clears its flag. */
  function AfterCompletion(timers: map<nat, Timer>, completion: Completion): map<nat, Timer> {
    if completion.Rearm? && completion.timer in timers
    then timers[completion.timer := timers[completion.timer].(running := false)]
    else timers
  }

  /** The proxy handles RAN for a batch job (the batch part of `proxy_worker_message`). */
  function ReportJob(s: Store, j: BatchJob): Store {
    var b := j.batch;
    if || b !in s.heap || (s.heap[b].Job? && j.jobno == -1)
       || (s.heap[b].Batch? && j.jobno != -1 && s.heap[b].outstanding <= 0)
    then s.(fault := true)
    else
      var fate, completion := FateOf(s.heap[b], j.jobno), multiset{BatchJob(b, -1)};
      var stays := fate.Kept? || fate.Queues?;
      var finished := s.finished + multiset{j};
      s.(finished := if fate.CompletedHere? then finished + completion else finished,
         created := if fate.CompletedHere? || fate.Queues? then s.created + completion else s.created,
         ran := if fate.CompletedHere? then s.ran + completion else s.ran,
         delivered := if fate.CompletedHere? then s.delivered[b := s.heap[b].results] else s.delivered,
         timers := if fate.CompletedHere? then AfterCompletion(s.timers, s.heap[b].completion) else s.timers,
         heap := if stays then s.heap[b := JobFinished(s.heap[b]).batch] else s.heap - {b},
         deleted := if stays then s.deleted else s.deleted + multiset{b})
  }

  /** The completion job, if this report queues one. */
  function NewlyQueued(s: Store, j: BatchJob): multiset<BatchJob> {
    if j.batch in s.heap && FateOf(s.heap[j.batch], j.jobno).Queues?
    then multiset{BatchJob(j.batch, -1)}
    else multiset{}
  }

  // ----- invariant -----

  /** How many copies of a job there are in some part of the system. */
  type Tally = BatchJob -> nat

  /** Every queued job is waiting or has been run; every run job is about to be reported or has
      been: `pre` are the jobs in queues and in slots not run yet, `post` those run but not reported. */
  ghost predicate Ledger(pre: Tally, post: Tally, s: Store) {
    forall j: BatchJob :: s.created[j] == pre(j) + s.ran[j] && s.ran[j] == post(j) + s.finished[j]
  }

  function Unfinished(finished: multiset<BatchJob>, b: nat, n: nat): nat {
    if n == 0 then 0
    else Unfinished(finished, b, n - 1) + (if BatchJob(b, n - 1) in finished then 0 else 1)
  }

  predicate AllFinished(s: Store, b: nat, n: nat) {
    forall i | 0 <= i < n :: BatchJob(b, i) in s.finished
  }

  predicate HasCompletion(b: Batch) {
    b.Batch? && !b.completion.NoCompletion?
  }

  /** A live object agrees with the ledger. */
  predicate LiveOk(s: Store, b: nat)
    requires b in s.heap && b in s.submitted
  {
    var obj, n := s.heap[b], Size(s.submitted[b]);
    if obj.Job? then
      obj == s.submitted[b] && BatchJob(b, 0) !in s.finished && BatchJob(b, -1) !in s.created
    else
      && s.submitted[b].Batch? && obj.threads == s.submitted[b].threads && obj.completion == s.submitted[b].completion
      && |obj.results| == n
      && (forall i | 0 <= i < n :: BatchJob(b, i) in s.ran ==>
            BatchJob(b, i) in s.outcomes && obj.results[i] == s.outcomes[BatchJob(b, i)])
      && (forall i | 0 <= i < n :: BatchJob(b, i) !in s.ran ==> obj.results[i] == NotRun)
      && obj.outstanding == Unfinished(s.finished, b, n) + Surplus(s.submitted[b])
      && (BatchJob(b, -1) in s.created <==> obj.outstanding == 0)
      && (BatchJob(b, -1) in s.created ==> obj.completion.InThread? && BatchJob(b, -1) !in s.finished)
  }

  /** A deleted batch: all its jobs, and its completion if it has one, ran and were reported; and it
      counted no others. */
  predicate GoneOk(s: Store, b: nat)
    requires b in s.submitted
  {
    && Surplus(s.submitted[b]) == 0
    && AllFinished(s, b, Size(s.submitted[b]))
    && s.finished[BatchJob(b, -1)] == s.created[BatchJob(b, -1)]
    && (BatchJob(b, -1) in s.created <==> HasCompletion(s.submitted[b]))
  }

  /** The completion function received exactly the outcomes of the jobs, in order. */
  predicate DeliveredOk(s: Store, b: nat)
    requires b in s.submitted
  {
    && b in s.delivered && |s.delivered[b]| == Size(s.submitted[b])
    && (forall i | 0 <= i < Size(s.submitted[b]) ::
          BatchJob(b, i) in s.outcomes && s.delivered[b][i] == s.outcomes[BatchJob(b, i)])
  }

  /** Everything known about batch `b`, from its submission for ever after. */
  predicate BatchOk(s: Store, b: nat)
    requires b in s.submitted
  {
    var n := Size(s.submitted[b]);
    && n > 0 && Surplus(s.submitted[b]) >= 0
    && (forall i | 0 <= i < n :: s.created[BatchJob(b, i)] == 1)
    && s.created[BatchJob(b, -1)] <= 1
    && (forall j | j in s.created && j.batch == b :: -1 <= j.jobno < n)
    && (BatchJob(b, -1) in s.created ==> HasCompletion(s.submitted[b]) && AllFinished(s, b, n))
    && (BatchJob(b, -1) in s.ran ==> DeliveredOk(s, b))
    && s.deleted[b] == (if b in s.heap then 0 else 1)
    && (if b in s.heap then LiveOk(s, b) else GoneOk(s, b))
  }

  ghost predicate StoreInv(pre: Tally, post: Tally, s: Store) {
    && !s.fault
    && Ledger(pre, post, s)
    && (forall b :: b in s.submitted <==> 0 <= b < s.next)
    && (forall b | b in s.heap :: b in s.submitted)
    && (forall j | j in s.created :: j.batch in s.submitted)
    && (forall b | b in s.deleted :: b in s.submitted)
    && (forall b {:trigger BatchOk(s, b)} | b in s.submitted :: BatchOk(s, b))
  }
}
