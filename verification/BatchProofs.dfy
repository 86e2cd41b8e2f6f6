/** The batch ledger is kept by every operation on the store. */
module BatchProofs {
  import opened Workers
  import opened Batches

  lemma {:induction false} JobsOfCount(b: nat, n: nat, j: BatchJob)
    ensures JobsOf(b, n)[j] == (if j.batch == b && 0 <= j.jobno < n then 1 else 0)
  {
    if n > 0 { JobsOfCount(b, n - 1, j); }
  }

  lemma {:induction false} UnfinishedSame(f: multiset<BatchJob>, g: multiset<BatchJob>, b: nat, n: nat)
    requires forall i | 0 <= i < n :: BatchJob(b, i) in f <==> BatchJob(b, i) in g
    ensures Unfinished(f, b, n) == Unfinished(g, b, n)
  {
    if n > 0 { UnfinishedSame(f, g, b, n - 1); }
  }

  lemma {:induction false} UnfinishedNone(f: multiset<BatchJob>, b: nat, n: nat)
    requires forall i | 0 <= i < n :: BatchJob(b, i) !in f
    ensures Unfinished(f, b, n) == n
  {
    if n > 0 { UnfinishedNone(f, b, n - 1); }
  }

  /** Finishing one more job of the batch lowers the number of unfinished jobs by one. */
  lemma {:induction false} UnfinishedStep(f: multiset<BatchJob>, b: nat, n: nat, i: nat)
    requires i < n && BatchJob(b, i) !in f
    ensures Unfinished(f + multiset{BatchJob(b, i)}, b, n) == Unfinished(f, b, n) - 1
  {
    if i == n - 1 {
      UnfinishedSame(f, f + multiset{BatchJob(b, i)}, b, n - 1);
    } else {
      UnfinishedStep(f, b, n - 1, i);
    }
  }

  lemma {:induction false} UnfinishedZero(f: multiset<BatchJob>, b: nat, n: nat)
    requires Unfinished(f, b, n) == 0
    ensures forall i | 0 <= i < n :: BatchJob(b, i) in f
  {
    if n > 0 { UnfinishedZero(f, b, n - 1); }
  }

  lemma {:induction false} UnfinishedSome(f: multiset<BatchJob>, b: nat, n: nat, i: nat)
    requires i < n && BatchJob(b, i) !in f
    ensures Unfinished(f, b, n) > 0
  {
    if i < n - 1 { UnfinishedSome(f, b, n - 1, i); }
  }

  // ----- frame -----

  /** The two stores differ only in what they say about batch `b`. */
  ghost predicate OnlyTouches(s: Store, s': Store, b: nat) {
    && (forall c | c != b && c in s.submitted :: c in s'.submitted && s.submitted[c] == s'.submitted[c])
    && (forall c | c != b && c in s.heap :: c in s'.heap && s.heap[c] == s'.heap[c])
    && (forall c | c != b && c in s'.heap :: c in s.heap)
    && (forall c | c != b :: s.deleted[c] == s'.deleted[c])
    && (forall c | c != b && c in s.delivered :: c in s'.delivered && s.delivered[c] == s'.delivered[c])
    && (forall j: BatchJob | j.batch != b :: s.created[j] == s'.created[j])
    && (forall j: BatchJob | j.batch != b :: s.ran[j] == s'.ran[j])
    && (forall j: BatchJob | j.batch != b :: s.finished[j] == s'.finished[j])
    && (forall j: BatchJob | j.batch != b && j in s.outcomes :: j in s'.outcomes && s.outcomes[j] == s'.outcomes[j])
  }

  lemma Untouched(s: Store, s': Store, b: nat, c: nat)
    requires OnlyTouches(s, s', b) && c != b && c in s.submitted && BatchOk(s, c)
    ensures c in s'.submitted && BatchOk(s', c)
  {
    var n := Size(s.submitted[c]);
    assert BatchJob(c, 0).batch == c;
    UnfinishedSame(s.finished, s'.finished, c, n);
  }

  /** The part of the invariant that is not about single batches. */
  ghost predicate Domains(s: Store) {
    && (forall b :: b in s.submitted <==> 0 <= b < s.next)
    && (forall b | b in s.heap :: b in s.submitted)
    && (forall j | j in s.created :: j.batch in s.submitted)
    && (forall b | b in s.deleted :: b in s.submitted)
  }

  lemma OneBatchChanged(pre: Tally, post: Tally, s: Store,
                        pre': Tally, post': Tally, s': Store, b: nat)
    requires StoreInv(pre, post, s) && OnlyTouches(s, s', b)
    requires !s'.fault && Ledger(pre', post', s') && Domains(s') && b in s'.submitted && BatchOk(s', b)
    requires forall c | c in s'.submitted && c != b :: c in s.submitted
    ensures StoreInv(pre', post', s')
  {
    forall c | c in s'.submitted && c != b ensures BatchOk(s', c) {
      Untouched(s, s', b, c);
    }
  }

  // ----- submission -----

  predicate NewObject(obj: Batch) {
    && Size(obj) > 0
    && (obj.Batch? ==>
          && |obj.results| == |obj.threads| <= obj.outstanding
          && (forall i | 0 <= i < |obj.results| :: obj.results[i] == NotRun))
  }

  lemma SubmittedOk(s: Store, obj: Batch)
    requires NewObject(obj) && s.next !in s.deleted
    requires forall j: BatchJob | j.batch == s.next :: j !in s.created && j !in s.ran && j !in s.finished
    ensures BatchOk(Submit(s, obj), s.next)
    ensures OnlyTouches(s, Submit(s, obj), s.next)
  {
    var s', b, n := Submit(s, obj), s.next, Size(obj);
    forall j: BatchJob ensures JobsOf(b, n)[j] == (if j.batch == b && 0 <= j.jobno < n then 1 else 0) {
      JobsOfCount(b, n, j);
    }
    UnfinishedNone(s'.finished, b, n);
    assert BatchJob(b, 0).batch == b && BatchJob(b, -1).batch == b;
    assert forall i :: BatchJob(b, i).batch == b;
    assert LiveOk(s', b);
  }

  lemma NothingOfNext(pre: Tally, post: Tally, s: Store)
    requires StoreInv(pre, post, s)
    ensures s.next !in s.deleted
    ensures forall j: BatchJob | j.batch == s.next :: j !in s.created && j !in s.ran && j !in s.finished
  {
    forall j: BatchJob | j.batch == s.next ensures j !in s.created && j !in s.ran && j !in s.finished {
      assert s.created[j] == pre(j) + s.ran[j] && s.ran[j] == post(j) + s.finished[j];
    }
  }

  lemma SubmittedDomains(s: Store, obj: Batch)
    requires Domains(s)
    ensures Domains(Submit(s, obj))
  {
    forall j | j in Submit(s, obj).created ensures j in s.created || j.batch == s.next {
      JobsOfCount(s.next, Size(obj), j);
    }
  }

  lemma SubmitInv(pre: Tally, post: Tally, s: Store, obj: Batch, pre': Tally)
    requires StoreInv(pre, post, s) && NewObject(obj)
    requires forall k :: pre'(k) == pre(k) + JobsOf(s.next, Size(obj))[k]
    ensures StoreInv(pre', post, Submit(s, obj))
  {
    var s', b, n := Submit(s, obj), s.next, Size(obj);
    NothingOfNext(pre, post, s);
    SubmittedOk(s, obj);
    SubmittedDomains(s, obj);
    OneBatchChanged(pre, post, s, pre', post, s', b);
  }

  // ----- running -----

  /** A job that waits in a queue or in an unrun slot has a live object, has not been run, and is a
      job that object can run. */
  lemma WaitingJobIsLive(pre: Tally, post: Tally, s: Store, j: BatchJob)
    requires StoreInv(pre, post, s) && pre(j) > 0
    ensures j.batch in s.submitted && j.batch in s.heap && j in s.created && j !in s.ran && j !in s.finished
    ensures -1 <= j.jobno < Size(s.heap[j.batch])
    ensures j.jobno == -1 ==> s.heap[j.batch].Batch? && s.heap[j.batch].completion.InThread?
  {
    assert s.created[j] == pre(j) + s.ran[j] && s.ran[j] == post(j) + s.finished[j];
    assert j in s.created;
    assert BatchOk(s, j.batch);
  }

  lemma LedgerOrder(pre: Tally, post: Tally, s: Store)
    requires Ledger(pre, post, s)
    ensures s.finished <= s.ran <= s.created
  {
  }

  lemma ResultStored(s: Store, j: BatchJob, outcome: Outcome)
    requires j.batch in s.submitted && BatchOk(s, j.batch) && j.batch in s.heap && j !in s.ran && j !in s.finished
    requires 0 <= j.jobno < Size(s.heap[j.batch])
    requires s.finished <= s.ran <= s.created
    ensures BatchOk(RunJob(s, j, outcome), j.batch)
    ensures OnlyTouches(s, RunJob(s, j, outcome), j.batch)
  {
    var b, s' := j.batch, RunJob(s, j, outcome);
    assert j == BatchJob(b, j.jobno);
    assert BatchJob(b, -1) !in s.created;
    assert BatchJob(b, -1) !in s'.ran;
    assert LiveOk(s', b);
  }

  lemma CompletionDelivers(s: Store, b: nat, outcome: Outcome)
    requires b in s.submitted && BatchOk(s, b) && b in s.heap && s.heap[b].Batch? && s.heap[b].completion.InThread?
    requires BatchJob(b, -1) in s.created && s.finished <= s.ran
    ensures BatchOk(RunJob(s, BatchJob(b, -1), outcome), b)
    ensures OnlyTouches(s, RunJob(s, BatchJob(b, -1), outcome), b)
  {
    var s' := RunJob(s, BatchJob(b, -1), outcome);
    assert DeliveredOk(s', b);
  }

  lemma RunJobFacts(s: Store, j: BatchJob, outcome: Outcome)
    requires !s.fault && Domains(s) && j.batch in s.heap && -1 <= j.jobno < Size(s.heap[j.batch])
    requires j.jobno == -1 ==> s.heap[j.batch].Batch? && s.heap[j.batch].completion.InThread?
    ensures var s' := RunJob(s, j, outcome);
      && !s'.fault && Domains(s') && s'.submitted == s.submitted
      && s'.created == s.created && s'.ran == s.ran + multiset{j} && s'.finished == s.finished
  {
  }

  lemma RunJobTouchesOne(pre: Tally, post: Tally, s: Store, j: BatchJob, outcome: Outcome)
    requires StoreInv(pre, post, s) && pre(j) > 0
    ensures j.batch in s.submitted && BatchOk(RunJob(s, j, outcome), j.batch)
    ensures OnlyTouches(s, RunJob(s, j, outcome), j.batch)
  {
    WaitingJobIsLive(pre, post, s, j);
    LedgerOrder(pre, post, s);
    if j.jobno == -1 {
      assert j == BatchJob(j.batch, -1);
      CompletionDelivers(s, j.batch, outcome);
    } else {
      ResultStored(s, j, outcome);
    }
  }

  lemma RunJobInv(pre: Tally, post: Tally, s: Store, j: BatchJob, outcome: Outcome, pre': Tally, post': Tally)
    requires StoreInv(pre, post, s) && pre(j) > 0
    requires forall k :: pre(k) == pre'(k) + multiset{j}[k] && post'(k) == post(k) + multiset{j}[k]
    ensures StoreInv(pre', post', RunJob(s, j, outcome))
  {
    WaitingJobIsLive(pre, post, s, j);
    RunJobFacts(s, j, outcome);
    RunJobTouchesOne(pre, post, s, j, outcome);
    OneBatchChanged(pre, post, s, pre', post', RunJob(s, j, outcome), j.batch);
  }

  // ----- reporting -----

  /** A job that was run and not yet reported still has its object. */
  lemma ReportedJobIsLive(pre: Tally, post: Tally, s: Store, j: BatchJob)
    requires StoreInv(pre, post, s) && post(j) > 0
    ensures j.batch in s.submitted && Reportable(s, j)
  {
    assert s.created[j] == pre(j) + s.ran[j] && s.ran[j] == post(j) + s.finished[j];
    assert j in s.created;
    assert BatchOk(s, j.batch);
    if s.heap[j.batch].Batch? && j.jobno >= 0 {
      assert j == BatchJob(j.batch, j.jobno);
      UnfinishedSome(s.finished, j.batch, Size(s.submitted[j.batch]), j.jobno);
    }
  }

  predicate Reportable(s: Store, j: BatchJob) {
    && j.batch in s.heap && j in s.created && j in s.ran && j !in s.finished
    && -1 <= j.jobno < Size(s.heap[j.batch])
    && (j.jobno == -1 ==> s.heap[j.batch].Batch?)
    && (j.jobno >= 0 && s.heap[j.batch].Batch? ==> s.heap[j.batch].outstanding > 0)
  }

  /** After one more job is finished, the object's own counter is still the number of unfinished jobs
      and the surplus; the completion has not been queued before. */
  lemma FinishCounts(s: Store, j: BatchJob, finished: multiset<BatchJob>)
    requires j.batch in s.submitted && BatchOk(s, j.batch) && Reportable(s, j) && s.heap[j.batch].Batch? && j.jobno >= 0
    requires s.finished <= s.ran <= s.created && finished == s.finished + multiset{j}
    ensures var b, n := j.batch, Size(s.submitted[j.batch]);
      && JobFinished(s.heap[b]).batch.outstanding == Unfinished(finished, b, n) + Surplus(s.submitted[b])
      && (JobFinished(s.heap[b]).batch.outstanding == 0 ==>
            Surplus(s.submitted[b]) == 0 && forall i | 0 <= i < n :: BatchJob(b, i) in finished)
      && BatchJob(b, -1) !in s.created && BatchJob(b, -1) !in s.ran && BatchJob(b, -1) !in s.finished
  {
    var b, n := j.batch, Size(s.submitted[j.batch]);
    assert j == BatchJob(b, j.jobno);
    UnfinishedStep(s.finished, b, n, j.jobno);
    if Unfinished(finished, b, n) == 0 { UnfinishedZero(finished, b, n); }
  }

  lemma KeptOk(s: Store, j: BatchJob)
    requires j.batch in s.submitted && BatchOk(s, j.batch) && Reportable(s, j) && s.finished <= s.ran <= s.created
    requires FateOf(s.heap[j.batch], j.jobno) == Kept
    ensures BatchOk(ReportJob(s, j), j.batch)
  {
    FinishCounts(s, j, s.finished + multiset{j});
    assert LiveOk(ReportJob(s, j), j.batch);
  }

  lemma QueuesOk(s: Store, j: BatchJob)
    requires j.batch in s.submitted && BatchOk(s, j.batch) && Reportable(s, j) && s.finished <= s.ran <= s.created
    requires FateOf(s.heap[j.batch], j.jobno).Queues?
    ensures BatchOk(ReportJob(s, j), j.batch)
  {
    FinishCounts(s, j, s.finished + multiset{j});
    assert LiveOk(ReportJob(s, j), j.batch);
  }

  lemma DeletedOk(s: Store, j: BatchJob)
    requires j.batch in s.submitted && BatchOk(s, j.batch) && Reportable(s, j) && s.finished <= s.ran <= s.created
    requires FateOf(s.heap[j.batch], j.jobno) == Deleted
    ensures BatchOk(ReportJob(s, j), j.batch)
  {
    if j.jobno == -1 {
      assert j == BatchJob(j.batch, -1);
      CompletionReported(s, j.batch);
    } else {
      LastReported(s, j);
    }
  }

  /** The report of the last job of a batch without completion. */
  lemma LastReported(s: Store, j: BatchJob)
    requires j.batch in s.submitted && BatchOk(s, j.batch) && Reportable(s, j) && s.finished <= s.ran <= s.created
    requires FateOf(s.heap[j.batch], j.jobno) == Deleted && j.jobno >= 0
    ensures BatchOk(ReportJob(s, j), j.batch)
  {
    var b, s' := j.batch, ReportJob(s, j);
    assert j == BatchJob(b, j.jobno);
    if s.heap[b].Batch? { FinishCounts(s, j, s.finished + multiset{j}); }
    assert s'.finished == s.finished + multiset{j} && s'.created == s.created && s'.ran == s.ran;
    assert GoneOk(s', b);
  }

  /** The report of the completion job. */
  lemma CompletionReported(s: Store, b: nat)
    requires b in s.submitted && BatchOk(s, b) && Reportable(s, BatchJob(b, -1)) && s.finished <= s.ran <= s.created
    ensures BatchOk(ReportJob(s, BatchJob(b, -1)), b)
  {
    var s' := ReportJob(s, BatchJob(b, -1));
    assert Unfinished(s.finished, b, Size(s.submitted[b])) >= 0;
    assert s'.finished == s.finished + multiset{BatchJob(b, -1)} && s'.created == s.created && s'.ran == s.ran;
    assert Surplus(s.submitted[b]) == 0;
    assert DeliveredOk(s', b);
    assert GoneOk(s', b);
  }

  lemma CompletedHereOk(s: Store, j: BatchJob)
    requires j.batch in s.submitted && BatchOk(s, j.batch) && Reportable(s, j) && s.finished <= s.ran <= s.created
    requires FateOf(s.heap[j.batch], j.jobno) == CompletedHere
    ensures BatchOk(ReportJob(s, j), j.batch)
  {
    var b, s' := j.batch, ReportJob(s, j);
    FinishCounts(s, j, s.finished + multiset{j});
    assert s'.finished == s.finished + multiset{j} + multiset{BatchJob(b, -1)};
    assert AllFinished(s', b, Size(s.submitted[b]));
    EverythingRan(s, j);
    assert DeliveredOk(s', b);
    assert GoneOk(s', b);
  }

  lemma EverythingRan(s: Store, j: BatchJob)
    requires j in s.ran && s.finished <= s.ran
    ensures forall k | k in s.finished + multiset{j} :: k in s.ran
  {
  }

  lemma ReportedBatchOk(s: Store, j: BatchJob)
    requires j.batch in s.submitted && BatchOk(s, j.batch) && Reportable(s, j) && s.finished <= s.ran <= s.created
    ensures BatchOk(ReportJob(s, j), j.batch)
  {
    match FateOf(s.heap[j.batch], j.jobno) {
      case Kept => KeptOk(s, j);
      case Queues(_) => QueuesOk(s, j);
      case Deleted => DeletedOk(s, j);
      case CompletedHere => CompletedHereOk(s, j);
    }
  }

  /** The completion job, if this report runs it in the proxy. */
  function RunHere(s: Store, j: BatchJob): multiset<BatchJob> {
    if j.batch in s.heap && FateOf(s.heap[j.batch], j.jobno).CompletedHere?
    then multiset{BatchJob(j.batch, -1)}
    else multiset{}
  }

  /** How a report changes the store: it queues `q`, runs `r`, and touches one object. */
  ghost predicate ReportShape(s: Store, s': Store, j: BatchJob, q: multiset<BatchJob>, r: multiset<BatchJob>) {
    && s'.fault == s.fault && s'.next == s.next && s'.submitted == s.submitted && s'.outcomes == s.outcomes
    && s'.created == s.created + q + r && s'.ran == s.ran + r && s'.finished == s.finished + multiset{j} + r
    && (|| s'.delivered == s.delivered
        || (&& j.batch in s.heap && s.heap[j.batch].Batch?
            && s'.delivered == s.delivered[j.batch := s.heap[j.batch].results]))
    && (|| (s'.heap == s.heap - {j.batch} && s'.deleted == s.deleted + multiset{j.batch})
        || (j.batch in s'.heap && s'.heap == s.heap[j.batch := s'.heap[j.batch]] && s'.deleted == s.deleted))
  }

  lemma ReportHasShape(s: Store, j: BatchJob)
    requires Reportable(s, j)
    ensures ReportShape(s, ReportJob(s, j), j, NewlyQueued(s, j), RunHere(s, j))
  {
    match FateOf(s.heap[j.batch], j.jobno) {
      case Kept => KeptShape(s, j);
      case Queues(_) => QueuesShape(s, j);
      case Deleted => DeletedShape(s, j);
      case CompletedHere => CompletedHereShape(s, j);
    }
  }

  lemma KeptShape(s: Store, j: BatchJob)
    requires Reportable(s, j) && FateOf(s.heap[j.batch], j.jobno).Kept?
    ensures ReportShape(s, ReportJob(s, j), j, NewlyQueued(s, j), RunHere(s, j))
  {
  }

  lemma QueuesShape(s: Store, j: BatchJob)
    requires Reportable(s, j) && FateOf(s.heap[j.batch], j.jobno).Queues?
    ensures ReportShape(s, ReportJob(s, j), j, NewlyQueued(s, j), RunHere(s, j))
  {
  }

  lemma DeletedShape(s: Store, j: BatchJob)
    requires Reportable(s, j) && FateOf(s.heap[j.batch], j.jobno).Deleted?
    ensures ReportShape(s, ReportJob(s, j), j, NewlyQueued(s, j), RunHere(s, j))
  {
  }

  lemma CompletedHereShape(s: Store, j: BatchJob)
    requires Reportable(s, j) && FateOf(s.heap[j.batch], j.jobno).CompletedHere?
    ensures ReportShape(s, ReportJob(s, j), j, NewlyQueued(s, j), RunHere(s, j))
  {
  }

  lemma ShapeLedger(pre: Tally, post: Tally, s: Store, s': Store, j: BatchJob,
                    q: multiset<BatchJob>, r: multiset<BatchJob>, pre': Tally, post': Tally)
    requires ReportShape(s, s', j, q, r) && Ledger(pre, post, s)
    requires forall k :: pre'(k) == pre(k) + q[k] && post(k) == post'(k) + multiset{j}[k]
    ensures Ledger(pre', post', s')
  {
  }

  lemma ShapeTouchesOne(s: Store, s': Store, j: BatchJob, q: multiset<BatchJob>, r: multiset<BatchJob>)
    requires ReportShape(s, s', j, q, r)
    requires forall k | k in q || k in r :: k.batch == j.batch
    ensures OnlyTouches(s, s', j.batch)
  {
  }

  lemma ShapeDomains(s: Store, s': Store, j: BatchJob, q: multiset<BatchJob>, r: multiset<BatchJob>)
    requires ReportShape(s, s', j, q, r) && Domains(s) && j.batch in s.heap
    requires forall k | k in q || k in r :: k.batch == j.batch
    ensures Domains(s')
  {
  }

  lemma ReportInv(pre: Tally, post: Tally, s: Store, j: BatchJob, pre': Tally, post': Tally)
    requires StoreInv(pre, post, s) && post(j) > 0
    requires forall k :: pre'(k) == pre(k) + NewlyQueued(s, j)[k] && post(k) == post'(k) + multiset{j}[k]
    ensures StoreInv(pre', post', ReportJob(s, j))
  {
    var s', q, r := ReportJob(s, j), NewlyQueued(s, j), RunHere(s, j);
    ReportedJobIsLive(pre, post, s, j);
    ReportHasShape(s, j);
    assert BatchOk(s, j.batch);
    LedgerOrder(pre, post, s);
    ReportedBatchOk(s, j);
    ShapeInv(pre, post, s, s', j, q, r, pre', post');
  }

  lemma ShapeInv(pre: Tally, post: Tally, s: Store, s': Store, j: BatchJob,
                 q: multiset<BatchJob>, r: multiset<BatchJob>, pre': Tally, post': Tally)
    requires StoreInv(pre, post, s) && ReportShape(s, s', j, q, r) && j.batch in s.heap
    requires forall k | k in q || k in r :: k.batch == j.batch
    requires forall k :: pre'(k) == pre(k) + q[k] && post(k) == post'(k) + multiset{j}[k]
    requires j.batch in s'.submitted && BatchOk(s', j.batch)
    ensures StoreInv(pre', post', s')
  {
    ShapeTouchesOne(s, s', j, q, r);
    ShapeDomains(s, s', j, q, r);
    ShapeLedger(pre, post, s, s', j, q, r, pre', post');
    OneBatchChanged(pre, post, s, pre', post', s', j.batch);
  }
}
