# Verified model of OxenMQ

This project models the parts of OxenMQ whose correctness does not show in any one function, and
proves what they are for:

- **The proxy and its threads.** One proxy thread owns all state. It hands commands, injected tasks,
  batch jobs, replies and timer jobs to pool workers and tagged threads, one slot per worker, over
  in-process channels. `Workers`, `Pool`, `Batches` and `System` describe this as a machine whose
  steps are those of the proxy loop and of each thread, in any interleaving. Every unchecked
  assumption of the code (an index in range, a slot not in use, a counter above zero, a batch not yet
  deleted) sets a fault flag when it fails. The theorems about all runs are in `Theorems`,
  `CategoryOrder`, `AfterQuit`, `Draining`, `Shutdown`, `Stopping`, `QueueOrder`, `StartOrder`,
  `Placement`, `Rounds`, `Decisions` (what is run, queued or dropped) and `Inputs` (what an input leads
  to). The conservation law behind the batch theorems (what was queued is waiting or was run, what was run is
  unreported or was reported) is in `Batches`, `BatchProofs` and `Tokens`.
- **The same code in its own form.** `Proxy` is a class with the queues, counters and the fixed-size
  idle array; its methods update them in place and are proved equal to the functions on `Pool`, and
  `Scheduler` proves that these functions are runs of the machine. `BatchObject` does the same for a
  batch, `Ring` for the circular buffer that serves incoming messages. Each method of a class is proved
  to change its view exactly as the function of that step does; the table lists those with a loop or a
  decision of their own.
- **Connections, requests and service nodes.** `Connections`, `SendRetry` and `Outcomes` form a second
  machine over the connection tables, pending requests and pending connects, with its theorems in
  `OutcomeProofs`, `Verdicts`, `Activity`, `Connecting`, `ListedOnce`, `OpenEntries` and `PolledRing`;
  `Registry` is the class that updates the tables in place, with its erasing loops.
- **Subscriptions** (`Pubsub`) and **addresses** (`Codec`, `Numerals`, `Addresses`,
  `AddressProofs`, `Printing`, `AddressParser`).

Assumptions, made once: in-process channels are reliable and deliver in order; the steady clock is
monotone; request tags, timer ids and connection numbers are fresh; identities of ROUTER peers are not
empty. User callbacks are opaque, and a job may end with any value or exception. The outcomes of
socket calls, clock readings, address lookups and the iteration order of unordered containers are
parameters. Integers are unbounded. The user data of a subscription is compared by plain equality.

Hex and base64 follow sections 8 and 4 of RFC 4648. z-base-32 uses its published alphabet, most
significant bit first. The encoding library itself is not part of this model: bits beyond the last
whole byte are taken to be ignored, hex and z-base-32 to be case-insensitive, and base64 to accept up
to two padding characters that fill its length up to a multiple of four.

Where code and intention differ, the model follows the code:

- A send to a service node is meant to retry on its other connections. For an incoming-only send the
  scan for the failed entry does not advance past an entry that is not it, so the loop may not end;
  `SendRetry.AlwaysEndsIff` gives the exact condition and `OutcomeProofs.StuckExample` an instance.
- A pubkey is meant to be 32 bytes. An `ipc+curve` address whose base64 key ends in two padding
  characters is accepted with 31; `AddressProofs.AcceptedIsWellFormedIff` says that this is the only
  exception.
- Adding to a batch after it was submitted is documented to throw. Nothing in the source sets the
  `started` flag that this depends on, so `BatchObject.AddJob` is refused exactly for the proxy thread;
  `BatchObject.UseAgain` says what such a batch submits, and `Theorems.BatchLifecycle` and
  `Draining.EverythingGetsDone` what becomes of it: its jobs run, and it is never completed or deleted.
- The worker arrays are sized for general threads plus reservations. After QUIT workers that finish are
  not reused while commands are still dispatched, so they may overflow; `AfterQuit.ArraysHoldIff` gives
  the exact condition on the configuration and `AfterQuit.OverrunExample` an instance.
- Commands of a category are meant to start in order. After QUIT pending ones are no longer started, while
  one that arrives may be, if the category has a reserved thread free; `CategoryOrder.InLineIff` gives the
  exact condition on the configuration and `CategoryOrder.OvertakenExample` an instance.
- An outgoing entry of a service node is meant to name an open connection. BYE closes the connection and
  leaves the entry; `OpenEntries.StaysIndexedIff` says that nothing else breaks this, and
  `OpenEntries.ByeLeavesEntry` is an instance; `OpenEntries.ReusesClosed` shows the next connect.
- With epoll the ring is filled before control messages and timers are processed, which may close a
  connection in it; `PolledRing.PolledStayOpenIff` gives the exact condition and
  `PolledRing.PolledThenClosed` an instance.

## Model

| member | source | states |
|---|---|---|
| `Theorems.ReachableInv` | oxenmq/proxy.cpp:510-655 | every state reachable from start() by any interleaving of the proxy loop with worker and tagged threads, for every configuration and input, satisfies the combined invariant of pool, batches, timers, threads and queue order |
| `Theorems.NoFault` | oxenmq/worker.cpp:188-285 | of all that the code relies on without testing (no slot written while its thread may read it, no index or counter out of range, no thread joined twice or while alive, no deleted batch touched, no job run that does not exist) nothing ever fails in any run, except exactly when there are more workers than the arrays hold, which cannot be before QUIT |
| `AfterQuit.ArraysHoldIff` | oxenmq/worker.cpp:174-186 | for every configuration, all runs stay within the worker arrays if and only if no category reserves threads |
| `AfterQuit.OverrunRun` | oxenmq/worker.cpp:364-378 | if some category reserves threads then QUIT followed by n commands of it, each run and reported in between, leads to n workers, whatever the capacity |
| `AfterQuit.OverrunExample` | oxenmq/worker.cpp:364-378 | an instance: one general thread, one category reserving one, three commands after QUIT, arrays of two |
| `AfterQuit.NextWithin` | oxenmq/worker.cpp:174-186 | without reservations every step, before and after QUIT, keeps the workers within the arrays |
| `Theorems.PoolBounds` | oxenmq/worker.cpp:364-440 | in every reachable state, also after QUIT: the sum over classes of max(0, active - reserved) is at most the general workers, running jobs plus all unfilled reservations fit the capacity, and all classes other than k together run at most capacity - reserved(k); before QUIT the active workers are exactly those that run something and all workers fit the arrays |
| `Theorems.Coherence` | oxenmq/worker.cpp:213-277 | in every reachable state each category's counters equal the number of its busy workers and of its pending commands, queue limits hold, and the idle stack lists exactly the resting workers, once each |
| `Decisions.ArrivalDecided` | oxenmq/worker.cpp:363-378 | in every reachable state a command that arrives is given to a worker exactly if fewer workers are busy with its category than are reserved for it or fewer workers than the general threads are in use; otherwise it is queued, unless the category has a limit and that many commands of it wait, and only then dropped |
| `Decisions.QueueDecided` | oxenmq/jobs.cpp:44-51 | the loops over the batch and the reply queue take the first job exactly if there is one and the same holds of its class |
| `Decisions.ScanDecided` | oxenmq/proxy.cpp:841-853 | the scan starts the command it has come to exactly if the same holds of its category, and leaves it otherwise |
| `Decisions.TaggedDecided` | oxenmq/proxy.cpp:825-831 | a tagged thread is given the first job of its queue exactly if it is not busy |
| `Decisions.NothingLeftToRun` | oxenmq/proxy.cpp:820-854 | so when the queues have been processed, all threads reserved for a class that has something waiting, and all general threads, are in use, and tagged threads with something waiting are busy |
| `Decisions.LatestIdleRunsNext` | oxenmq/worker.cpp:174-186 | the worker that became idle last is the first to be used again |
| `Rounds.ComesAround` | oxenmq/proxy.cpp:556-655 | before QUIT, from every reachable state, the loop by itself comes to each of its parts: incoming messages, control messages, worker messages, timers, tagged threads, both queues and the pending commands |
| `CategoryOrder.InLineIff` | oxenmq/worker.cpp:363-378 | for every configuration and category, in all runs, shutdown included, the accepted commands are those started, in order, followed by those pending, in order, if and only if the category reserves no threads or has no queue |
| `CategoryOrder.CategoryFifo` | oxenmq/proxy.cpp:841-853 | in every reachable state this holds before QUIT for all categories and afterwards for those of that condition; for all of them the started commands are a subsequence of the accepted ones, and each accepted command was started or is pending, once |
| `CategoryOrder.OvertakenAfterQuit` | oxenmq/worker.cpp:363-378 | for every other category a run in which a command is overtaken: fill it, queue one more, QUIT, let the workers report, receive another |
| `CategoryOrder.OvertakenExample` | oxenmq/worker.cpp:419-440 | an instance with one general and one reserved thread: of three commands the third is run and the second stays pending |
| `Theorems.WorkConservation` | oxenmq/proxy.cpp:820-854 | when the loop leaves the queue-processing phases, no tagged, batch, reply or pending job that is still queued could run |
| `Theorems.SlotStable` | oxenmq/worker.cpp:103-170 | whatever any thread does, the slot of a pool worker that was given a job keeps that job, and the worker stays busy, until the proxy handles its report, as long as the workers fit the arrays (ArraysHoldIff) |
| `Theorems.TaggedSlotStable` | oxenmq/worker.cpp:103-170 | the same for the slot of a tagged thread, without any condition |
| `Theorems.ChannelsBounded` | oxenmq/worker.cpp:23-46 | at most one message is in flight each way (plus START for a tagged thread), never both ways at once; QUIT is sent at most once and never to a worker that is working or has RUN waiting |
| `Theorems.BatchLifecycle` | oxenmq/worker.cpp:215-261 | over every interleaving each job of each submitted batch is queued once and run at most once, the completion is queued only after all jobs ran and were reported and gets their values or exceptions, all of them and in order, the batch is deleted at most once and then everything it had to do was done exactly once; one that counts jobs it does not have, being submitted again, is never completed or deleted |
| `Theorems.NoDanglingJobs` | oxenmq/worker.cpp:223-261 | no queue entry and no slot in use refers to a deleted batch |
| `Theorems.QuiescentMeansEmpty` | oxenmq/worker.cpp:255-261 | when no job waits, runs or awaits its report, the batches not deleted are exactly those that were submitted with more jobs counted than they have |
| `Draining.EverythingGetsDone` | oxenmq/proxy.cpp:510-655 | from every reachable state before QUIT there is a run of the loop and the threads alone after which nothing is queued or running, no command is pending and every batch is over: each job ran exactly once and, unless it counts jobs it does not have, its completion ran and it was deleted exactly once |
| `Draining.WorkIsBounded` | oxenmq/proxy.cpp:510-655 | in every run without input before QUIT, whatever the interleaving, the steps taken other than idle turns of the loop, the steps left and the workers created add up to the steps left at first, five for each queued job, command or coming completion; nothing is queued or running exactly when all were taken |
| `Draining.Progress` | oxenmq/proxy.cpp:592-655 | while steps are left, some step of a thread or of the loop is possible that decreases a fixed measure |
| `Theorems.SquelchedTimers` | oxenmq/jobs.cpp:80-122 | in every reachable state a squelched timer has at most one live batch, and its running flag is set exactly while there is one, whether the job throws or the timer is cancelled |
| `Inputs.MayFireIff` | oxenmq/jobs.cpp:145-153 | over any run after a timer was added, it may fire when the loop is at the timers if and only if it has not been cancelled, and it keeps the thread and the squelch flag it was added with |
| `Inputs.RecordedForGood` | oxenmq/batch.h:317-323 | a batch is on record for good with the threads, the completion and the count it was submitted with; the theorems about batches speak of that record |
| `Inputs.BatchArrives` | oxenmq/jobs.cpp:9-28 | each job of a batch goes to the end of the queue of the thread it asks for, in order, and nothing else is queued |
| `Inputs.JobArrives` | oxenmq/jobs.cpp:9-36 | a single job is on record with its thread and goes to the end of the queue of that thread |
| `Inputs.ReplyArrives` | oxenmq/jobs.cpp:38-42 | a reply is on record and goes to the end of the reply queue |
| `Inputs.CompletionArrives` | oxenmq/worker.cpp:243-250 | a completion goes to the end of the queue of its tagged thread, or else of the queue its last job came from, when the last job that the batch counts is reported and only then |
| `Inputs.TaggedCompletionArrives` | oxenmq/worker.cpp:243-250 | likewise when the last job ran in a tagged thread |
| `Inputs.OutcomesAreObserved` | oxenmq/batch.h:245-253 | over every run the outcomes that completions get are those with which the threads ended the jobs |
| `Placement.JobsRunWhereAsked` | oxenmq/batch.h:182-196 | in every reachable state a tagged thread holds and is given only jobs and completions that asked for that very thread, and a pool worker only those that asked for none |
| `Placement.NextPlaced` | oxenmq/worker.cpp:243-250 | every step of the machine keeps this, in queues and slots, for jobs, completions, replies and timer jobs |
| `Placement.TimerStartsOneJob` | oxenmq/jobs.cpp:80-122 | a timer that fires queues exactly one new job in its thread and is then marked running exactly if squelched; one that runs in the proxy, or is squelched and still running, queues none |
| `Shutdown.ShutdownIsBounded` | oxenmq/proxy.cpp:328-339 | in any run after QUIT, worker steps taken plus steps outstanding equal those outstanding at first plus five for each command started since, and all threads are joined exactly when all those steps were taken |
| `Shutdown.QuietShutdown` | oxenmq/proxy.cpp:328-339 | if no commands arrive, all threads are joined after exactly the steps outstanding at QUIT |
| `Shutdown.NobodyIsStuck` | oxenmq/proxy.cpp:510-521 | during shutdown every worker not yet joined can take a step or has sent a message for the proxy to handle |
| `Shutdown.StopsCleanly` | oxenmq/proxy.cpp:511-517 | the loop stops only when every pool and tagged worker was told to quit exactly once and joined exactly once, and nobody is told before QUIT |
| `Stopping.ShutdownEnds` | oxenmq/proxy.cpp:510-521 | from every reachable state after QUIT there is a run of the loop and the threads alone to the end of the loop, with every thread joined |
| `Shutdown.StepAccounting` | oxenmq/worker.cpp:265-274 | after QUIT each step of a worker or handling of its message uses up exactly one outstanding step, a command that is started adds five, and nothing else adds any |
| `QueueOrder.QueuesAreFifo` | oxenmq/jobs.cpp:44-51 | over any run the batch queue, the reply queue and each tagged queue give out jobs in order of entry: nothing overtakes, is lost or is given out twice |
| `StartOrder.JobsStartInOrder` | oxenmq/jobs.cpp:44-51 | over any run the jobs that appear in the slots of pool workers from the batch queue (or the reply queue), in order, followed by those still queued, are all that ever entered that queue, in order |
| `StartOrder.CommandsStartInOrder` | oxenmq/worker.cpp:280-285 | over any run the commands that appear in the slots of pool workers, in order, are those that the order theorems call started |
| `StartOrder.TaggedJobsStartInOrder` | oxenmq/proxy.cpp:825-831 | likewise for the slot and the queue of each tagged thread, and what a busy tagged thread holds is the last one it was given |
| `StartOrder.QueuedJobsStayQueued` | oxenmq/proxy.cpp:820-823 | over any run after QUIT no batch, reply or tagged job gets into a slot, so what is queued then stays queued, and the queues only grow |
| `PoolProofs.ReservationsHeld` | oxenmq/oxenmq.cpp:237-246 | the invariant implies that what runs fits the capacity computed by start() together with every unfilled reservation, and before QUIT that workers and idle entries do |
| `PoolProofs.OthersLeaveReservation` | README.md:241-248 | reserving r of n threads for a class means the other classes together never run more than n - r, before or after QUIT |
| `PoolProofs.FullPoolRunsNothing` | oxenmq/jobs.cpp:45-46 | in a full pool every class is at or above its reservation, so stopping a loop because active = max_workers leaves nothing runnable |
| `PoolProofs.RunnableHasRoom` | oxenmq/worker.cpp:364-408 | a class that passes the reservation test has a free slot, so the dispatch paths that never test max_workers stay within the arrays |
| `PoolProofs.DispatchInv` | oxenmq/worker.cpp:174-186 | giving a job to an idle or new worker keeps the pool invariant |
| `PoolProofs.AdmitInv` | oxenmq/worker.cpp:419-440 | running, queueing or dropping a command or injected task keeps the pool invariant |
| `PoolProofs.RunQueueFrontInv` | oxenmq/jobs.cpp:44-51 | one iteration of proxy_run_batch_jobs keeps the pool invariant |
| `PoolProofs.RunPendingInv` | oxenmq/proxy.cpp:843-849 | dispatching a pending command out of the middle of the list keeps the pool invariant |
| `PoolProofs.PoolRanInv` | oxenmq/worker.cpp:213-271 | a RAN always comes from a busy worker with a job in its slot, and handling it keeps the pool invariant, including the write to the idle array |
| `PoolProofs.QuitAllInv` | oxenmq/proxy.cpp:328-339 | QUIT keeps the pool invariant and leaves no worker resting |
| `BatchProofs.SubmitInv` | oxenmq/jobs.cpp:9-28 | taking over a new batch keeps the ledger of queued, run and reported jobs |
| `BatchProofs.RunJobInv` | oxenmq/batch.h:245-253 | running a waiting job stores its value or exception as its own result, touches no other batch, and keeps the ledger |
| `BatchProofs.ReportInv` | oxenmq/worker.cpp:223-261 | handling the report of a job that was run keeps the ledger in all four outcomes: more to come, completion queued, completion run in the proxy, deleted |
| `BatchProofs.WaitingJobIsLive` | oxenmq/worker.cpp:113-121 | a job that waits belongs to a live batch and is one of its jobs or its completion |
| `BatchProofs.ReportedJobIsLive` | oxenmq/worker.cpp:223-233 | a job that ran and awaits its report belongs to a live batch, with its counter above zero |
| `Tokens.DispatchMoves` | oxenmq/worker.cpp:280-285 | a dispatch puts exactly the given batch job into a slot and moves no other |
| `Tokens.QuitMoves` | oxenmq/proxy.cpp:328-339 | QUIT loses no job and duplicates none |
| `Order.AdmittedIsNext` | oxenmq/worker.cpp:364-378 | a command that may be dispatched directly has no earlier command of its category waiting |
| `Order.ScanRunOrder` | oxenmq/proxy.cpp:841-853 | dispatching from the scan takes the oldest pending command of its category and keeps the order invariant |
| `Order.ScanMovesOn` | oxenmq/proxy.cpp:841-853 | when the scan ends, whether at the end of the list or because the pool is full, everything still queued is blocked |
| `Order.NextOrder` | oxenmq/proxy.cpp:592-655 | every step of the machine keeps the order invariant |
| `SystemProofs.NextInv` | oxenmq/proxy.cpp:592-655 | every step of the machine keeps the invariants of pool, batches, timers and threads |
| `SystemProofs.FireInv` | oxenmq/jobs.cpp:80-122 | firing a timer, squelched or not, keeps all of them |
| `SystemProofs.HandlePoolInv` | oxenmq/worker.cpp:188-277 | handling any message of a pool worker keeps all of them |
| `SystemProofs.HandleTaggedInv` | oxenmq/worker.cpp:188-277 | handling any message of a tagged worker keeps all of them |
| `Scheduler.ProcessQueueInv` | oxenmq/proxy.cpp:820-854 | proxy_process_queue keeps the pool invariant |
| `Scheduler.ProcessQueueDrains` | oxenmq/proxy.cpp:820-854 | when proxy_process_queue returns before shutdown, no tagged, batch, reply or pending job that remains could run, for any starting pool |
| `Scheduler.ProcessQueueIsRun` | oxenmq/proxy.cpp:820-854 | the function that the class method implements is what the steps of the machine compute from the start of the dispatch phases |
| `Proxy.Proxy.constructor` | oxenmq/oxenmq.cpp:237-246 | start() resolves the default reservations and sizes the arrays by general workers plus all reservations; the result is an initial state of the machine |
| `Proxy.Proxy.Accept` | oxenmq/worker.cpp:419-440 | exactly the admission decision that Decisions.ArrivalDecided spells out, with the pool it leads to; false exactly when the command is dropped |
| `Proxy.Proxy.QueueBatch` | oxenmq/jobs.cpp:9-28 | both branches queue every job of a batch in the queue of its thread, in order |
| `Proxy.Proxy.RunBatchJobs` | oxenmq/jobs.cpp:44-51 | the loop computes DrainQueue, in place, and keeps the invariant |
| `Proxy.Proxy.RunTaggedJobs` | oxenmq/proxy.cpp:825-831 | the loop computes DrainTagged, in place, and keeps the invariant |
| `Proxy.Proxy.ScanPending` | oxenmq/proxy.cpp:841-853 | the erasing scan computes ScanFrom, in place, and keeps the invariant |
| `Proxy.Proxy.ProcessQueues` | oxenmq/proxy.cpp:820-854 | the four loops together compute ProcessQueue and keep the invariant |
| `Proxy.Proxy.Quit` | oxenmq/proxy.cpp:328-339 | every resting worker and idle tagged worker gets QUIT once |
| `BatchObject.BatchObject.AddJob` | oxenmq/batch.h:189-227 | refused exactly for the proxy thread, submitted or not; otherwise one more job, result and outstanding count, and a batch of which nothing ran stays so |
| `BatchObject.BatchObject.SetCompletion` | oxenmq/batch.h:211-217 | refused exactly if there is one already, submitted or not; otherwise sets it and nothing else |
| `BatchObject.BatchObject.Threads` | oxenmq/batch.h:229-238 | the loop lists the thread of each job, and with the flag off no job asks for one; for a batch never submitted before the flag is exact |
| `BatchObject.BatchObject.Submit` | oxenmq/batch.h:317-323 | an empty batch is refused; otherwise all of its contents are moved out and the counter stays behind |
| `BatchObject.UseAgain` | oxenmq/batch.h:189-197 | a submitted batch takes another job and can be submitted again, and what is submitted then counts, on top of that job, all that the object counted before |
| `BatchObject.EndsIff` | oxenmq/batch.h:255-262 | the n-th report ends a batch exactly if n jobs were outstanding, so one that counts more than it has never ends |
| `Ring.Deliver` | oxenmq/proxy.cpp:619-655 | the ring of n slots plus one spare delivers exactly the messages of a plain rotating queue, in that order, or that up to and including the first message after which the connections changed; it never reads the null slot or overwrites a live one, ends on every finite load, and what it delivers is what some number of iterations deliver |
| `Ring.DeliversEverything` | oxenmq/proxy.cpp:629-655 | each message is delivered exactly once and in the order of its connection |
| `Ring.Fair` | oxenmq/proxy.cpp:531-534 | after any number of iterations, so in what Deliver returns, of two connections still in the ring neither was served more than once more often |
| `PolledRing.ClosesExactly` | oxenmq/proxy.cpp:592-617 | each step closes exactly the connections listed for it: the one disconnected, the idle and late ones, those of removed service nodes; and, later, within the ring, the one that said BYE |
| `PolledRing.PolledStayOpenIff` | oxenmq/proxy.cpp:554-566 | the connections polled are open whenever the ring may follow its pointers if and only if none of those steps closes one of them |
| `PolledRing.PolledThenClosed` | oxenmq/proxy.cpp:629-631 | an instance where one is: a polled connection that a control message disconnects |
| `ConnectionProofs.ConnectSNInv` | oxenmq/connections.cpp:141-215 | reusing or opening a connection keeps the tables in agreement |
| `ConnectionProofs.CloseInv` | oxenmq/connections.cpp:245-257 | closing keeps the tables in agreement and unlists the connection |
| `ConnectionProofs.ExpireIdleInv` | oxenmq/connections.cpp:259-288 | so does expiring idle peers |
| `ConnectionProofs.ExpireIdleKeeps` | oxenmq/connections.cpp:259-288 | exactly the idle outgoing entries of the keys visited are removed; the others stay, in order |
| `Activity.KeptIffUsed` | oxenmq/connections.cpp:259-288 | over every run, a cleanup keeps an outgoing connection to a service node if and only if no more time has passed since it was last used, by a connect, a send or a command received, than the largest keep-alive time asked for by those that used it |
| `Activity.EntriesShowUsage` | oxenmq/connections.cpp:156-164 | over every run each outgoing entry shows its owner, that time and that maximum, as read off the history of the run |
| `Activity.KeptAlive` | oxenmq/connections.cpp:259-288 | a connection got at time t with keep-alive k is still listed after any cleanup up to t + k |
| `Connecting.ConnectDecided` | oxenmq/connections.cpp:141-215 | a connect uses the first entry that the options allow and changes no other; without one it opens a connection exactly if that may be outgoing, is not just optional, and can be made |
| `Connecting.DisconnectDrops` | oxenmq/connections.cpp:415-428 | a disconnect drops the outgoing entry, closes its connection, and leaves all else alone |
| `ConnectionProofs.RemoveSNsEmpties` | oxenmq/auth.cpp:167-180 | no entry survives for a removed service node and no other entry is touched |
| `ConnectionProofs.UpdateCleanInv` | oxenmq/auth.cpp:162-185 | changing the active set keeps the tables in agreement |
| `SendRetry.AttemptsBounded` | oxenmq/proxy.cpp:122-204 | a send to a service node makes at most one attempt per incoming entry plus one |
| `SendRetry.ErasesWhatFailed` | oxenmq/proxy.cpp:161-184 | the entries erased are exactly the leading ones that were tried and found unreachable; the rest, and every other key, is as before, the result is that of one last connect, and that one did not end in giving up on an incoming connection that cannot be reached |
| `SendRetry.NotStuck` | oxenmq/proxy.cpp:122-204 | the send ends for every behaviour of the sockets unless it is incoming-only with an incoming entry behind the outgoing one |
| `SendRetry.StuckIfUnreachable` | oxenmq/proxy.cpp:169-178 | in that case it does not end when nobody can be reached, because the scan for the failed entry does not advance |
| `SendRetry.AlwaysEndsIff` | oxenmq/proxy.cpp:122-204 | hence the exact condition under which a send always ends |
| `OutcomeProofs.StuckExample` | oxenmq/proxy.cpp:169-178 | a run of two steps, a message from a service node and a connection to it, after which a send does not end |
| `OutcomeProofs.ExactlyOneOutcome` | oxenmq/connections.cpp:302-328 | in every reachable state each request, and each connection attempt, either had its callback scheduled exactly once or is still pending and had none; unknown tags and connections have neither |
| `OutcomeProofs.OutcomeIsFinal` | oxenmq/proxy.cpp:711-734 | once a request was answered no later step, such as a late reply, changes or repeats the answer |
| `OutcomeProofs.CleanupTimesOut` | oxenmq/connections.cpp:290-328 | a cleanup at time t leaves pending exactly the requests and attempts whose deadline is not before t, with their deadlines; the overdue requests failed with TIMEOUT, the overdue attempts failed and their connections are closed and forgotten, and every other answer and result is as before |
| `OutcomeProofs.ReplyReachesItsRequest` | oxenmq/proxy.cpp:711-734 | in every reachable state a reply to a pending request answers it, and only it, once, with exactly the parts after the tag; a reply to any other tag, or the same reply again, changes nothing |
| `OutcomeProofs.ErrorReachesItsRequest` | oxenmq/proxy.cpp:777-806 | an error that names a pending request fails it, and only it, with the name of the error; otherwise it changes nothing |
| `Verdicts.HelloReachesItsAttempt` | oxenmq/proxy.cpp:743-767 | in every reachable state HELLO on the outgoing connection of an attempt that waits and is listed calls the success callback, its only one, and changes nothing else; a second HELLO, one nobody waits for, or one on an incoming connection changes nothing |
| `Verdicts.OpenDecided` | oxenmq/connections.cpp:365-396 | if the socket calls succeed the connection is open and listed and waits for HELLO until the deadline given; otherwise the failure callback is called at once, and nothing else changes |
| `Verdicts.RequestDecided` | oxenmq/proxy.cpp:205-214 | a request to a service node waits until the deadline given exactly if the last connection tried took the message; otherwise it fails at once |
| `Verdicts.RemoteRequestDecided` | oxenmq/proxy.cpp:205-214 | likewise for a request to any other remote |
| `Verdicts.KeptFromWorkers` | oxenmq/proxy.cpp:694-818 | exactly nine commands are kept from the workers |
| `Verdicts.ByeCloses` | oxenmq/proxy.cpp:768-776 | BYE closes the outgoing connection it came on and touches nothing else; on an incoming one it does nothing |
| `OutcomeProofs.MessagesAreLocal` | oxenmq/proxy.cpp:694-818 | a message changes something only if it is kept from the workers, decides at most requests it names and the attempt of its own outgoing connection, and leaves the peers alone |
| `OutcomeProofs.TablesAgree` | oxenmq/connections.cpp:141-257 | over all connect, send, receive, disconnect, expiry, timeout, removal and BYE steps every key of outgoing_sn_conns is open and maps to a pubkey with an outgoing entry for it, each service node has at most one outgoing entry, and incoming entries exist for active service nodes only |
| `OpenEntries.StaysIndexedIff` | oxenmq/proxy.cpp:768-776 | in a state where every outgoing entry of a service node is open and indexed under its pubkey, a step keeps this if and only if it is not BYE on the connection of a service node |
| `OpenEntries.EntriesAreOpen` | oxenmq/connections.cpp:141-257 | hence over every run without such a BYE each outgoing entry is open and indexed under its pubkey |
| `OpenEntries.ByeLeavesEntry` | oxenmq/proxy.cpp:768-776 | an instance with one, after which the entry names a connection that is closed |
| `OpenEntries.LinksAreOpen` | oxenmq/connections.cpp:141-215 | over every run without such a BYE a connect that gets an outgoing connection gets an open one: that of the entry found, or a new one |
| `OpenEntries.ReusesClosed` | oxenmq/connections.cpp:165 | after that instance the next connect gets the closed one, and looking up its socket creates an empty one |
| `ListedOnce.IncomingListedOnce` | oxenmq/worker.cpp:318-336 | in every reachable state no incoming connection is listed twice under its service node |
| `ListedOnce.NotedOnce` | oxenmq/worker.cpp:318-336 | a message from a service node leaves its connection listed, drops no entry and adds no duplicate |
| `OutcomeProofs.NextInv` | oxenmq/proxy.cpp:279-344 | every step keeps all of these |
| `Registry.Registry.ConnectToSN` | oxenmq/connections.cpp:141-215 | the scan and both outcomes compute ConnectSN in place |
| `Registry.Registry.SendToNode` | oxenmq/proxy.cpp:118-204 | the retry loop computes SendSN in place, and reports where it would not end |
| `Registry.Registry.NoteMessage` | oxenmq/worker.cpp:318-336 | the lookup by connection and route adds an entry exactly if there is none |
| `Registry.Registry.PumpActivity` | oxenmq/worker.cpp:395-396 | the activity time of the entry found for an outgoing connection is set, and nothing else |
| `Registry.Registry.DisconnectPeer` | oxenmq/connections.cpp:415-428 | closes and erases the first outgoing entry, or nothing |
| `Registry.Registry.ExpireIdlePeers` | oxenmq/connections.cpp:259-288 | the erasing loop over all keys computes ExpireIdle |
| `Registry.Registry.CleanUp` | oxenmq/connections.cpp:290-331 | the three loops compute Cleanup, over exactly the keys of peers |
| `Registry.Registry.HandleMessage` | oxenmq/proxy.cpp:694-818 | true exactly for built-in messages, with the effects that Verdicts and OutcomeProofs spell out |
| `Registry.Registry.UpdateNodes` | oxenmq/auth.cpp:162-185 | the erasing loops compute UpdateClean for some order of the removed keys |
| `Registry.Registry.SetActiveNodes` | oxenmq/auth.cpp:89-113 | although it skips on equal sizes and stops scanning by a count, exactly the 32-byte keys passed are active afterwards, and exactly the entries of dropped keys are gone |
| `Registry.Registry.FindRemoved` | oxenmq/auth.cpp:106-111 | the scan that stops early finds the whole set difference |
| `Registry.Registry.UpdateActiveNodes` | oxenmq/auth.cpp:130-160 | active becomes (active minus (removed minus added)) plus the valid added keys, and exactly the entries of dropped keys are gone |
| `Registry.SameSizeIsSame` | oxenmq/auth.cpp:102-105 | equal sizes and nothing to add mean that the set is unchanged |
| `Registry.AllRemovedFound` | oxenmq/auth.cpp:109-110 | when the sizes agree every removed key has been found |
| `Pubsub.PublishReachesExactly` | oxenmq/pubsub.h:135-155 | after any history of subscribe, unsubscribe, remove_expired and interleaved two-lock publishes, a publish at t reaches exactly the connections whose own last action was a subscribe at s with s + duration >= t, with the data of that subscribe |
| `Pubsub.PublishClears` | oxenmq/pubsub.h:157-165 | whatever happens between the two locks, a subscription found expired is gone after the second one unless it was renewed in between |
| `Pubsub.ExpiredAreGone` | oxenmq/pubsub.h:120-129 | after any history remove_expired leaves exactly the leases that have not run out |
| `Pubsub.RunHoldsLeases` | oxenmq/pubsub.h:68-165 | in every run the table holds only current leases and every lease that has not run out |
| `Pubsub.Subscription.RemoveExpired` | oxenmq/pubsub.h:120-129 | keeps exactly the unexpired subscriptions |
| `Pubsub.Subscription.PublishScan` | oxenmq/pubsub.h:137-153 | calls back once for each unexpired subscription, with its data, and collects exactly the expired ones |
| `Pubsub.Subscription.PublishSweep` | oxenmq/pubsub.h:158-165 | of the collected ones, drops exactly those still expired |
| `Codec.DecodeEncode` | oxenmq/address.cpp:197-216 | decoding undoes encoding for hex, z-base-32 and base64, also in upper case where case does not matter |
| `Codec.KeyLength` | oxenmq/address.cpp:13-17 | a 32-byte key takes 64, 52 or 43 characters |
| `Numerals.EncodesTheNumber` | oxenmq/address.cpp:197-216 | the text of some bytes, read as digits of the published alphabet, is the number that the bytes are, shifted by the zero bits that fill its last digit |
| `Numerals.DecodesTheNumber` | oxenmq/address.cpp:23-40 | decoded bytes are the number that the text is, less the bits that do not fill a byte |
| `Numerals.WrittenAs` | oxenmq/address.cpp:197-216 | a digit is written as the character at its place in the alphabet |
| `Numerals.ReadAs` | oxenmq/address.cpp:23-40 | a character has a digit exactly if it is in the alphabet, in either case for hex and z-base-32, and then its place there |
| `AddressProofs.RoundTrip` | oxenmq/address.cpp:218-253 | for every well-formed address and each of the four encodings, parsing full_address gives an equal address, whatever slashes its socket path contains |
| `AddressProofs.UnixRoundTrip` | oxenmq/address.cpp:114-137 | the key is found at the end of a socket path that may itself contain slashes |
| `AddressProofs.AcceptedIsWellFormedIff` | oxenmq/address.cpp:23-181 | every accepted string gives a well-formed address (port 1 to 65535, 32-byte key exactly for curve, host plain or bracketed), except exactly ipc+curve strings ending in two padding characters |
| `AddressProofs.TwicePaddedIsAccepted` | oxenmq/address.cpp:117-126 | such strings are accepted, with a key of 31 bytes |
| `AddressProofs.TwicePaddedExample` | oxenmq/address.cpp:117-126 | a concrete one |
| `AddressProofs.HashAgrees` | oxenmq/address.h:208-214 | operator== holds exactly when the strings that are hashed are equal, for well-formed addresses and for ipc+curve ones with a key of any length |
| `AddressProofs.AcceptedHashAgrees` | oxenmq/address.h:208-214 | hence for the addresses of any two accepted strings |
| `AddressProofs.PrintsAgree` | oxenmq/address.cpp:218-253 | for well-formed addresses the same holds of full_address in each encoding |
| `AddressProofs.QrRoundTripIff` | oxenmq/address.cpp:271-299 | for every well-formed TCP address the QR form parses back to an equal address exactly if the host is bracketed or plain without a leading dollar sign, free of capitals and made of QR characters, and then it uses only the permitted characters |
| `Printing.KeyPrinted` | oxenmq/address.cpp:197-216 | a printed 32-byte key is its number in the alphabet of the encoding, in 64, 52 or 43 characters, in capitals where asked for |
| `Printing.PrintedAs` | oxenmq/address.cpp:218-253 | full_address is the scheme, then host and port or path, then the key, for each of the four protocols |
| `Printing.QrPrintedAs` | oxenmq/address.cpp:271-299 | qr_address exists exactly for TCP addresses with a host and is scheme, host, port and key in capitals, with dollar signs for brackets |
| `Printing.PortPrinted` | oxenmq/address.cpp:218-253 | a port is printed as the decimal number that it is, without leading zeros |
| `Printing.DecimalValue` | oxenmq/address.cpp:77-92 | the value of a string of digits is the decimal number that it is, digit by digit |
| `Printing.CaseIs` | oxenmq/address.cpp:271-299 | upper and lower case exchange the letters of the two alphabets and nothing else |
| `Printing.TcpText` | oxenmq/address.cpp:45-109 | accepted text is host, colon, decimal port and, for curve, a slash and the key: nothing in between and nothing after |
| `Printing.UnixText` | oxenmq/address.cpp:114-137 | accepted text is the path and, for curve, a slash and the key |
| `Printing.SchemeText` | oxenmq/address.cpp:141-181 | accepted text is a known scheme, colon and two slashes, and text accepted for that scheme |
| `Printing.QrHostText` | oxenmq/address.cpp:45-75 | the host read from a QR address is its text in small letters, with brackets for dollar signs |
| `Printing.KnownSchemes` | oxenmq/address.cpp:141-170 | seven schemes are known |
| `Printing.Synonyms` | oxenmq/address.cpp:141-170 | tcp+curve and curve mean the same |
| `Printing.CharacterSets` | oxenmq/address.cpp:45-75 | the characters of an IPv6 host and of a QR address |
| `AddressParser.ParseAddress` | oxenmq/address.cpp:141-181 | the parser that advances its view computes Parse |
| `AddressParser.View.TakeTcp` | oxenmq/address.cpp:45-109 | host, port and key are consumed one after the other, as ParseTcp does |
| `AddressParser.View.TakePubkey` | oxenmq/address.cpp:23-40 | takes a key in the first encoding that fits and advances past it |
| `AddressParser.WriteQr` | oxenmq/address.cpp:271-299 | the loop over the host and the key in upper case compute QrAddress, which Printing.QrPrintedAs spells out, with its two errors |

## Left out

- ZeroMQ sockets, polling, socket options, binding and thread naming: only channels and the results of calls remain.
- Curve encryption, key and tag generation, and the serialisation of control messages.
- `process_zap_requests` and `proxy_check_auth`: each is one pass of independent checks with no state to keep.
- `proxy_reply`: no public call sends it.
- The command registry, aliases, access levels, logging, formatters and deprecated overloads: table lookups and forwarding.
- `set_pubkey`, `zmq_address` and the address factory functions: they only set or print fields.
- Timers bound to the proxy thread run their callback in place and create no batch; only that is modelled of them.
- Sends to remotes that are not service nodes: whether the message was sent is a parameter, since they change no table.
- The state of the completion callback in a batch that was moved from: it is left open, as the language leaves it.
- Fairness of the scheduler: that a step which stays possible is taken is not assumed, so `Draining.EverythingGetsDone` says that work can finish from everywhere and `Draining.WorkIsBounded` how much of it there is, not that it does finish.
- Theorems.SlotStable: only while the workers fit the arrays; beyond that the vector of slots may move.
