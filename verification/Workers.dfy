/** Worker threads, the slot (`run_info`) each of them reads, and the control messages it
    exchanges with the proxy thread.

    Every worker has one reliable FIFO channel in each direction.  The functions below are the
    steps of `worker_thread` and the three things the proxy does to a worker: launch a job on it,
    tell it to quit, and join it.  Nothing here assumes that messages arrive in a sensible order:
    an unexpected command is dropped, as `worker_wait_for` drops it. */
module Workers {

  /** One entry of a batch queue: a batch and a job number, -1 being the completion job. */
  datatype BatchJob = BatchJob(batch: nat, jobno: int)

  /** An accepted command or injected task of a category. */
  datatype Command = Command(cat: nat, id: nat, injected: bool)

  /** What a slot currently tells its worker to run; a finished worker keeps its stale load. */
  datatype Load =
    | Nothing
    | CommandLoad(cmd: Command)
    | BatchLoad(job: BatchJob, reply: bool)

  /** The accounting class of a job that runs in the general pool. */
  datatype JobClass = BatchClass | ReplyClass | CategoryClass(cat: nat)

  datatype ToWorker = Start | Run | Quit

  datatype FromWorker = Ran | Quitting

  /** Control points of `worker_thread`. */
  datatype Thread = Unstarted | AwaitingStart | Waiting | Working | Executed | Exited

  /** A slot together with its thread and channels.  `quitsSent` and `joins` count, for the
      shutdown theorem, how often the proxy sent QUIT and how often it joined the thread. */
  datatype Worker = Worker(
    load: Load, joinable: bool, thread: Thread,
    inbox: seq<ToWorker>, outbox: seq<FromWorker>,
    quitsSent: nat, joins: nat)

  const FRESH_WORKER := Worker(Nothing, false, Unstarted, [], [], 0, 0)

  /** A tagged worker when the proxy loop starts: its thread exists and START has been sent. */
  const TAGGED_WORKER := Worker(Nothing, true, AwaitingStart, [Start], [], 0, 0)

  function ClassOf(load: Load): JobClass
    requires !load.Nothing?
  {
    match load
    case CommandLoad(cmd) => CategoryClass(cmd.cat)
    case BatchLoad(_, reply) => if reply then ReplyClass else BatchClass
  }

  // ----- steps of the worker thread -----

  /** The worker takes the next control message (`worker_wait_for`). */
  function Receive(w: Worker): Worker
    requires w.inbox != [] && (w.thread.Waiting? || w.thread.AwaitingStart?)
  {
    var rest := w.(inbox := w.inbox[1..]);
    if w.inbox[0] == Quit then
      rest.(thread := Exited, outbox := w.outbox + [Quitting])
    else if w.thread.Waiting? && w.inbox[0] == Run then
      rest.(thread := Working)
    else if w.thread.AwaitingStart? && w.inbox[0] == Start then
      rest.(thread := Waiting)
    else
      rest
  }

  /** The worker has run the job in its slot (the effect of the job itself is modelled apart). */
  function Execute(w: Worker): Worker
    requires w.thread.Working?
  {
    w.(thread := Executed)
  }

  function ReportRan(w: Worker): Worker
    requires w.thread.Executed?
  {
    w.(thread := Waiting, outbox := w.outbox + [Ran])
  }

  // ----- what the proxy does to a worker -----

  /** Nobody but the proxy may touch the slot now: the thread does not exist yet, or it waits with
      nothing in flight either way (apart from the initial START) and has not been told to quit. */
  predicate Writable(w: Worker) {
    && w.outbox == [] && w.quitsSent == 0 && w.joins == 0
    && match w.thread
       case Unstarted => !w.joinable && w.inbox == []
       case Waiting => w.joinable && w.inbox == []
       case AwaitingStart => w.joinable && w.inbox == [Start]
       case _ => false
  }

  /** Load the slot, then start the thread or send RUN (`run_info::load`, `proxy_run_worker`). */
  function Launch(w: Worker, load: Load): Worker {
    if w.joinable then
      w.(load := load, inbox := w.inbox + [Run])
    else
      w.(load := load, thread := Working, joinable := true)
  }

  function SendQuit(w: Worker): Worker {
    w.(inbox := w.inbox + [Quit], quitsSent := w.quitsSent + 1)
  }

  function TakeReport(w: Worker): Worker
    requires w.outbox != []
  {
    w.(outbox := w.outbox[1..])
  }

  function Join(w: Worker): Worker {
    w.(joinable := false, joins := w.joins + 1)
  }

  // ----- the protocol -----

  /** The inbox is `msgs`, possibly behind a START that the thread has not consumed yet. */
  predicate InboxIs(w: Worker, msgs: seq<ToWorker>) {
    || (w.thread.Waiting? && w.inbox == msgs)
    || (w.thread.AwaitingStart? && w.inbox == [Start] + msgs)
  }

  /** Between taking a job and the proxy learning that it is finished. */
  predicate Busy(w: Worker) {
    && w.joinable && w.quitsSent == 0 && w.joins == 0 && !w.load.Nothing?
    && (|| (InboxIs(w, [Run]) && w.outbox == [])
        || ((w.thread.Working? || w.thread.Executed?) && w.inbox == [] && w.outbox == [])
        || (w.thread.Waiting? && w.inbox == [] && w.outbox == [Ran]))
  }

  predicate Resting(w: Worker) {
    w.joinable && w.quitsSent == 0 && w.joins == 0 && InboxIs(w, []) && w.outbox == []
  }

  /** Told to quit, exactly once. */
  predicate Retiring(w: Worker) {
    && w.quitsSent == 1
    && (|| (w.joinable && w.joins == 0 && InboxIs(w, [Quit]) && w.outbox == [])
        || (w.joinable && w.joins == 0 && w.thread.Exited? && w.inbox == [] && w.outbox == [Quitting])
        || Joined(w))
  }

  predicate Joined(w: Worker) {
    && w.quitsSent == 1 && w.joins == 1 && !w.joinable
    && w.thread.Exited? && w.inbox == [] && w.outbox == []
  }

  /** Every worker is always in one of the three situations; they exclude one another. */
  predicate Legal(w: Worker) {
    Busy(w) || Resting(w) || Retiring(w)
  }

  /** The job in the slot has been handed over but not run yet. */
  predicate Unrun(w: Worker) {
    Busy(w) && (w.thread.Working? || w.inbox != [])
  }
}
