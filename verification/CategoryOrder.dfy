/** First in, first out per category over whole runs.  Before QUIT this always holds.  After QUIT nothing
    pending is dispatched any more, while commands that arrive may be: here is exactly which categories
    keep their order all the same, and a run in which a command is overtaken for each of the others. */
module CategoryOrder {
  import opened Sequences
  import opened Workers
  import opened Pool
  import opened Batches
  import opened System
  import opened PoolProofs
  import opened Order
  import opened Theorems
  import opened AfterQuit
  import opened Composition

  /** The accepted commands of the category are those started, in order, and then those pending. */
  predicate InLine(s: Sys, c: nat) {
    Of(s.accepted, c) == Of(s.started, c) + Of(s.pool.pending, c)
  }

  /** The category has no threads of its own, or no queue. */
  predicate KeepsLine(p: Pool, c: nat)
    requires c < |p.cats|
  {
    p.cats[c].reserved == 0 || p.cats[c].maxQueue == 0
  }

  // ----- categories that keep their order -----

  lemma {:induction false} OfCount(cmds: seq<Command>, c: nat)
    ensures |Of(cmds, c)| == CountPending(cmds, c)
  {
    if cmds != [] { OfCount(cmds[..|cmds| - 1], c); }
  }

  lemma {:induction false} OfSome(cmds: seq<Command>, c: nat) returns (i: nat)
    requires Of(cmds, c) != []
    ensures i < |cmds| && cmds[i].cat == c
  {
    i := |cmds| - 1;
    if cmds[i].cat != c { i := OfSome(cmds[..i], c); }
  }

  /** As long as something of the category is pending after QUIT, no general thread is free; and none
      ever becomes free then, since finished workers still count as active. */
  predicate Held(s: Sys, c: nat) {
    InLine(s, c) && (ShuttingDown(s.pool) && Of(s.pool.pending, c) != [] ==> |s.pool.workers| >= s.pool.general)
  }

  lemma QuitHolds(s: Sys, c: nat)
    requires OrderInv(s) && s.phase.Control? && !ShuttingDown(s.pool) && c < |s.pool.cats|
    ensures Held(s.(pool := QuitAll(s.pool)), c)
  {
    if Of(s.pool.pending, c) != [] {
      var i := OfSome(s.pool.pending, c);
      assert !CatRunnable(s.pool, s.pool.pending[i].cat);
    }
  }

  /** A command that is dispatched after QUIT has nothing of its category waiting before it. */
  lemma AdmittedKeepsLine(s: Sys, cmd: Command)
    requires PoolInv(s.pool) && ShuttingDown(s.pool) && cmd.cat < |s.pool.cats| && KeepsLine(s.pool, cmd.cat)
    requires Held(s, cmd.cat) && Runnable(s.pool, CategoryClass(cmd.cat))
    ensures Of(s.pool.pending, cmd.cat) == []
  {
    OfCount(s.pool.pending, cmd.cat);
    assert s.pool.cats[cmd.cat].active >= 0;
  }

  lemma AdmitHolds(s: Sys, cmd: Command, c: nat)
    requires PoolInv(s.pool) && ShuttingDown(s.pool) && cmd.cat < |s.pool.cats|
    requires c < |s.pool.cats| && KeepsLine(s.pool, c) && Held(s, c)
    ensures Held(AdmitCommand(s, cmd), c)
  {
    AdmitShape(s, cmd);
    LineGrows(s.accepted, s.started, s.pool.pending, cmd, c);
    OfAppend(s.pool.pending, cmd, c);
    if Admit(s.pool, cmd).Admitted? {
      if cmd.cat == c { AdmittedKeepsLine(s, cmd); }
      LineMoves(s.accepted, s.started, s.pool.pending, cmd, c);
      DispatchTarget(s.pool, CategoryClass(cmd.cat));
      DispatchFrame(s.pool, CommandLoad(cmd));
    }
  }

  /** Nothing but the arrival of a command, or the loop before QUIT, changes the line. */
  predicate SameLine(s: Sys, s': Sys) {
    && s'.accepted == s.accepted && s'.started == s.started && s'.pool.pending == s.pool.pending
    && |s'.pool.workers| == |s.pool.workers| && s'.pool.general == s.pool.general
  }

  lemma PoolMessageLine(s: Sys, w: nat)
    requires w < |s.pool.workers| && s.pool.workers[w].outbox != []
    ensures SameLine(s, HandlePool(s, w))
  {
    var worker := s.pool.workers[w];
    HandlePoolConfig(s, w);
    if worker.outbox[0] != Quitting && worker.load.BatchLoad? {
      CompletionFrame(PoolRan(s.pool, w), FateIn(s.store, worker.load.job), worker.load.reply,
                      BatchJob(worker.load.job.batch, -1));
    }
  }

  lemma TaggedMessageLine(s: Sys, t: nat)
    requires t < |s.pool.tagged| && s.pool.tagged[t].worker.outbox != []
    ensures SameLine(s, HandleTagged(s, t))
  {
    var worker := s.pool.tagged[t].worker;
    HandleTaggedConfig(s, t);
    if worker.outbox[0] != Quitting && worker.load.BatchLoad? {
      CompletionFrame(TaggedRan(s.pool, t), FateIn(s.store, worker.load.job), worker.load.reply,
                      BatchJob(worker.load.job.batch, -1));
    }
  }

  lemma FireLine(s: Sys, timer: nat)
    ensures SameLine(s, Fire(s, timer))
  {
    if timer in s.store.timers {
      var t := s.store.timers[timer];
      EnqueueJobsFrame(s.pool, NewBatch([t.thread], Rearm(timer)), s.store.next, 1);
      EnqueueJobsFrame(s.pool, Job(t.thread), s.store.next, 1);
    }
  }

  lemma OthersKeepLine(s: Sys, a: Action)
    requires Enabled(s, a) && !a.Inject? && !a.Receive? && !a.Advance?
    ensures SameLine(s, Next(s, a))
  {
    match a {
      case SubmitBatch(threads, completion, surplus) =>
        EnqueueJobsFrame(s.pool, Submission(threads, completion, surplus), s.store.next, |threads|);
      case SubmitJob(thread) => EnqueueJobsFrame(s.pool, Job(thread), s.store.next, 1);
      case FireTimer(timer) => FireLine(s, timer);
      case PoolMessage(w) => PoolMessageLine(s, w);
      case TaggedMessage(t) => TaggedMessageLine(s, t);
      case _ =>
    }
  }

  lemma NextHolds(s: Sys, a: Action, c: nat)
    requires Inv(s) && Enabled(s, a) && c < |s.pool.cats| && KeepsLine(s.pool, c) && Held(s, c)
    ensures Held(Next(s, a), c)
  {
    if ShuttingDown(s.pool) {
      if a.Inject? || a.Receive? {
        AdmitHolds(s, a.cmd, c);
      } else if a.Advance? {
        assert SameLine(s, Proceed(s));
      } else {
        OthersKeepLine(s, a);
      }
    } else if a.Quit? {
      QuitHolds(s, c);
    } else {
      NotYet(s, a);
      NextOrder(s, a);
      NextConfig(s, a);
    }
  }

  lemma {:induction false} RunHolds(s: Sys, actions: seq<Action>, c: nat)
    requires Inv(s) && IsRun(s, actions) && c < |s.pool.cats| && KeepsLine(s.pool, c) && Held(s, c)
    ensures InLine(After(s, actions), c)
    decreases |actions|
  {
    if actions != [] {
      NextHolds(s, actions[0], c);
      NextConfig(s, actions[0]);
      NextKeepsInv(s, actions[0]);
      RunHolds(Next(s, actions[0]), actions[1..], c);
    }
  }

  // ----- a run in which a command is overtaken -----

  /** Command `i` of the run, and the worker that has just been given it. */
  function Cmd(c: nat, i: nat): Command { Command(c, i, true) }

  function AtWork(c: nat, i: nat): Worker { Worker(CommandLoad(Cmd(c, i)), true, Working, [], [], 0, 0) }

  function Cmds(c: nat, n: nat): seq<Command> {
    if n == 0 then [] else Cmds(c, n - 1) + [Cmd(c, n - 1)]
  }

  function Injects(c: nat, n: nat): seq<Action> {
    if n == 0 then [] else Injects(c, n - 1) + [Inject(Cmd(c, n - 1))]
  }

  /** As many commands as the category can run at once. */
  function Room(p: Pool, c: nat): nat
    requires c < |p.cats|
  {
    if p.general < p.cats[c].reserved then p.cats[c].reserved else p.general
  }

  /** `n` commands have been injected, and each is being run by a worker of its own. */
  predicate Filled(s: Sys, c: nat, n: nat, room: nat) {
    && s.phase.Control? && !ShuttingDown(s.pool) && s.pool.idle == [] && s.pool.pending == []
    && c < |s.pool.cats| && s.pool.cats[c].reserved > 0 && s.pool.cats[c].maxQueue != 0
    && Room(s.pool, c) == room && s.pool.cats[c].active == n && s.pool.cats[c].queued == 0
    && |s.pool.workers| == n && (forall i | 0 <= i < n :: s.pool.workers[i] == AtWork(c, i))
    && s.accepted == Cmds(c, n) && s.started == Cmds(c, n)
  }

  lemma FillOne(s: Sys, c: nat, n: nat, room: nat)
    requires Filled(s, c, n, room) && n < room
    ensures Enabled(s, Inject(Cmd(c, n))) && Filled(Next(s, Inject(Cmd(c, n))), c, n + 1, room)
  {
    var q := Dispatch(s.pool, CommandLoad(Cmd(c, n)));
    assert q.workers == s.pool.workers + [AtWork(c, n)];
  }

  lemma {:induction false} Fill(s: Sys, c: nat, n: nat, room: nat)
    requires Filled(s, c, 0, room) && n <= room
    ensures IsRun(s, Injects(c, n)) && Filled(After(s, Injects(c, n)), c, n, room)
  {
    if n > 0 {
      Fill(s, c, n - 1, room);
      var s' := After(s, Injects(c, n - 1));
      FillOne(s', c, n - 1, room);
      StepThen(s', Inject(Cmd(c, n - 1)), []);
      RunThen(s, Injects(c, n - 1), [Inject(Cmd(c, n - 1))] + []);
      assert Injects(c, n) == Injects(c, n - 1) + ([Inject(Cmd(c, n - 1))] + []);
    }
  }

  /** After QUIT, one more command being pending, the reports of `j` of the workers have been handled. */
  predicate Winding(s: Sys, c: nat, j: nat, room: nat) {
    && s.phase.WorkerMessages? && ShuttingDown(s.pool) && s.pool.idle == [] && s.pool.pending == [Cmd(c, room)]
    && c < |s.pool.cats| && s.pool.cats[c].reserved > 0 && s.pool.cats[c].active == room - j
    && |s.pool.workers| == room && (forall i | j <= i < room :: s.pool.workers[i] == AtWork(c, i))
    && s.accepted == Cmds(c, room) + [Cmd(c, room)] && s.started == Cmds(c, room)
  }

  function ThenQuit(c: nat, room: nat): seq<Action> { [Inject(Cmd(c, room)), Action.Quit, Advance] }

  /** There is no room for one more, so it is queued; then comes QUIT. */
  lemma QueuedThenQuit(s: Sys, c: nat, room: nat)
    requires Filled(s, c, room, room)
    ensures IsRun(s, ThenQuit(c, room)) && Winding(After(s, ThenQuit(c, room)), c, 0, room)
  {
    var s1 := Next(s, Inject(Cmd(c, room)));
    assert s1.pool.pending == [Cmd(c, room)];
    var s2 := Next(s1, Action.Quit);
    assert s2.pool.workers == s1.pool.workers;
    StepThen(s2, Advance, []);
    StepThen(s1, Action.Quit, [Advance] + []);
    StepThen(s, Inject(Cmd(c, room)), [Action.Quit] + ([Advance] + []));
    assert ThenQuit(c, room) == [Inject(Cmd(c, room))] + ([Action.Quit] + ([Advance] + []));
  }

  function Report(w: nat): seq<Action> { [PoolThread(w, Value(0)), PoolThread(w, Value(0)), PoolMessage(w)] }

  function Reports(n: nat): seq<Action> {
    if n == 0 then [] else Reports(n - 1) + Report(n - 1)
  }

  /** Worker `j` has got to `thread`, with `outbox` to report. */
  predicate Getting(s: Sys, s': Sys, j: nat, thread: Thread, outbox: seq<FromWorker>) {
    && j < |s.pool.workers|
    && s'.(store := s.store)
       == s.(pool := SetWorker(s.pool, j, s.pool.workers[j].(thread := thread, outbox := outbox)))
  }

  lemma RunsAndReports(s: Sys, c: nat, j: nat, room: nat)
    requires Winding(s, c, j, room) && j < room
    ensures var a := PoolThread(j, Value(0));
      && Enabled(s, a) && Enabled(Next(s, a), a) && Getting(s, Next(Next(s, a), a), j, Waiting, [Ran])
  {
    var a := PoolThread(j, Value(0));
    assert s.pool.workers[j] == AtWork(c, j);
    var s1 := Next(s, a);
    assert Getting(s, s1, j, Executed, []);
    assert [] + [Ran] == [Ran];
    assert s1.pool.workers[j := ThreadStep(s1.pool.workers[j])] == s.pool.workers[j := ThreadStep(s1.pool.workers[j])];
  }

  lemma ReportHandledThen(s: Sys, s': Sys, c: nat, j: nat, room: nat)
    requires Winding(s, c, j, room) && j < room && Getting(s, s', j, Waiting, [Ran])
    ensures Enabled(s', PoolMessage(j)) && Winding(Next(s', PoolMessage(j)), c, j + 1, room)
  {
    assert s.pool.workers[j] == AtWork(c, j);
    var worker := s'.pool.workers[j];
    assert worker.outbox == [Ran] && worker.load == CommandLoad(Cmd(c, j));
    var q := PoolRan(s'.pool, j);
    assert q.workers == s'.pool.workers[j := SendQuit(TakeReport(worker))];
    assert q.cats == s.pool.cats[c := s.pool.cats[c].(active := room - j - 1)];
  }

  lemma ReportOne(s: Sys, c: nat, j: nat, room: nat)
    requires Winding(s, c, j, room) && j < room
    ensures IsRun(s, Report(j)) && Winding(After(s, Report(j)), c, j + 1, room)
  {
    var a := PoolThread(j, Value(0));
    RunsAndReports(s, c, j, room);
    var s1 := Next(s, a);
    var s2 := Next(s1, a);
    ReportHandledThen(s, s2, c, j, room);
    StepThen(s2, PoolMessage(j), []);
    StepThen(s1, a, [PoolMessage(j)] + []);
    StepThen(s, a, [a] + ([PoolMessage(j)] + []));
    assert Report(j) == [a] + ([a] + ([PoolMessage(j)] + []));
  }

  predicate Reported(s: Sys, c: nat, n: nat, room: nat) {
    IsRun(s, Reports(n)) && Winding(After(s, Reports(n)), c, n, room)
  }

  lemma ReportNext(s: Sys, c: nat, n: nat, room: nat)
    requires Reported(s, c, n, room) && n < room
    ensures Reported(s, c, n + 1, room)
  {
    ReportOne(After(s, Reports(n)), c, n, room);
    RunThen(s, Reports(n), Report(n));
  }

  lemma {:induction false} ReportAll(s: Sys, c: nat, n: nat, room: nat)
    requires Winding(s, c, 0, room) && n <= room
    ensures Reported(s, c, n, room)
  {
    if n > 0 {
      ReportAll(s, c, n - 1, room);
      ReportNext(s, c, n - 1, room);
    }
  }

  /** The command that overtakes. */
  function Late(c: nat, room: nat): Command { Command(c, room + 1, false) }

  function ThenReceive(c: nat, room: nat): seq<Action> { [Advance, Advance, Receive(Late(c, room))] }

  /** The pending command has been overtaken. */
  predicate Overtaken(s: Sys, c: nat, room: nat) {
    && s.accepted == Cmds(c, room) + [Cmd(c, room)] + [Late(c, room)]
    && s.started == Cmds(c, room) + [Late(c, room)] && s.pool.pending == [Cmd(c, room)]
  }

  lemma Overtakes(s: Sys, c: nat, room: nat)
    requires Winding(s, c, room, room)
    ensures IsRun(s, ThenReceive(c, room)) && Overtaken(After(s, ThenReceive(c, room)), c, room)
  {
    var s1 := Next(s, Advance);
    var s2 := Next(s1, Advance);
    StepThen(s2, Receive(Late(c, room)), []);
    StepThen(s1, Advance, [Receive(Late(c, room))] + []);
    StepThen(s, Advance, [Advance] + ([Receive(Late(c, room))] + []));
    assert ThenReceive(c, room) == [Advance] + ([Advance] + ([Receive(Late(c, room))] + []));
  }

  /** Fill the category, queue one more command, QUIT, let all workers report, and receive another. */
  function OvertakingRun(c: nat, room: nat): seq<Action> {
    Injects(c, room) + (ThenQuit(c, room) + (Reports(room) + ThenReceive(c, room)))
  }

  lemma OvertakenAfterQuit(s: Sys, c: nat)
    requires Initial(s) && c < |s.pool.cats| && !KeepsLine(s.pool, c)
    ensures var run := OvertakingRun(c, Room(s.pool, c)); IsRun(s, run) && Overtaken(After(s, run), c, Room(s.pool, c))
  {
    var room := Room(s.pool, c);
    assert s.pool.cats[c] in s.pool.cats;
    ReservedNonNegative(s.pool.cats);
    Fill(s, c, room, room);
    var s1 := After(s, Injects(c, room));
    QueuedThenQuit(s1, c, room);
    var s2 := After(s1, ThenQuit(c, room));
    ReportAll(s2, c, room, room);
    Overtakes(After(s2, Reports(room)), c, room);
    RunThen(s2, Reports(room), ThenReceive(c, room));
    RunThen(s1, ThenQuit(c, room), Reports(room) + ThenReceive(c, room));
    RunThen(s, Injects(c, room), ThenQuit(c, room) + (Reports(room) + ThenReceive(c, room)));
  }

  lemma OvertakenIsOut(s: Sys, c: nat, room: nat)
    requires Overtaken(s, c, room)
    ensures !InLine(s, c)
  {
    var xs := Of(Cmds(c, room), c);
    OfAppend(Cmds(c, room), Cmd(c, room), c);
    OfAppend(Cmds(c, room) + [Cmd(c, room)], Late(c, room), c);
    OfAppend(Cmds(c, room), Late(c, room), c);
    OfAppend([], Cmd(c, room), c);
    assert [] + [Cmd(c, room)] == [Cmd(c, room)];
    assert Of(s.accepted, c)[|xs|] == Cmd(c, room);
    assert (Of(s.started, c) + Of(s.pool.pending, c))[|xs|] == Late(c, room);
  }

  /** The smallest instance: one general thread, one reserved one.  The second command was accepted
      before the third and is never run, the third is. */
  lemma OvertakenExample(s: Sys, run: seq<Action>)
    requires Initial(s) && s.pool.general == 1 && s.pool.cats == [Category(1, -1, 0, 0)]
    requires run == [Inject(Command(0, 0, true)), Inject(Command(0, 1, true)), Action.Quit, Advance,
                     PoolThread(0, Value(0)), PoolThread(0, Value(0)), PoolMessage(0),
                     Advance, Advance, Receive(Command(0, 2, false))]
    ensures IsRun(s, run)
    ensures After(s, run).accepted == [Command(0, 0, true), Command(0, 1, true), Command(0, 2, false)]
    ensures After(s, run).started == [Command(0, 0, true), Command(0, 2, false)]
    ensures After(s, run).pool.pending == [Command(0, 1, true)]
  {
    SmallestRun();
    OvertakenAfterQuit(s, 0);
  }

  lemma SmallestRun()
    ensures Cmds(0, 1) == [Command(0, 0, true)]
    ensures OvertakingRun(0, 1)
         == [Inject(Command(0, 0, true)), Inject(Command(0, 1, true)), Action.Quit, Advance,
             PoolThread(0, Value(0)), PoolThread(0, Value(0)), PoolMessage(0),
             Advance, Advance, Receive(Command(0, 2, false))]
  {
    assert Cmds(0, 1) == Cmds(0, 0) + [Cmd(0, 0)];
    assert Injects(0, 1) == Injects(0, 0) + [Inject(Cmd(0, 0))] == [Inject(Cmd(0, 0))];
    assert Reports(1) == Reports(0) + Report(0) == Report(0);
  }

  // ----- theorems -----

  /** A category keeps its order in every run, shutdown included, exactly if it reserves no threads or
      may not queue commands. */
  lemma InLineIff(s: Sys, c: nat)
    requires Initial(s) && c < |s.pool.cats|
    ensures (forall actions | IsRun(s, actions) :: InLine(After(s, actions), c)) <==> KeepsLine(s.pool, c)
  {
    InitialInv(s);
    if KeepsLine(s.pool, c) {
      StartsInLine(s, c);
      forall actions | IsRun(s, actions) ensures InLine(After(s, actions), c) {
        RunHolds(s, actions, c);
      }
    } else {
      OutOfLine(s, c);
    }
  }

  lemma OutOfLine(s: Sys, c: nat)
    requires Initial(s) && c < |s.pool.cats| && !KeepsLine(s.pool, c)
    ensures var run := OvertakingRun(c, Room(s.pool, c)); IsRun(s, run) && !InLine(After(s, run), c)
  {
    OvertakenAfterQuit(s, c);
    OvertakenIsOut(After(s, OvertakingRun(c, Room(s.pool, c))), c, Room(s.pool, c));
  }

  lemma StartsInLine(s: Sys, c: nat)
    requires Initial(s)
    ensures Held(s, c)
  {
  }

  /** Every accepted command has been started or is pending, and is counted once. */
  predicate Conserved(s: Sys) {
    multiset(s.accepted) == multiset(s.started) + multiset(s.pool.pending)
  }

  lemma AdmitConserves(s: Sys, cmd: Command)
    requires PoolInv(s.pool) && Conserved(s) && cmd.cat < |s.pool.cats|
    ensures Conserved(AdmitCommand(s, cmd))
  {
    AdmitShape(s, cmd);
  }

  lemma NextConserves(s: Sys, a: Action)
    requires Inv(s) && Conserved(s) && Enabled(s, a)
    ensures Conserved(Next(s, a))
  {
    match a {
      case Inject(cmd) => AdmitConserves(s, cmd);
      case Receive(cmd) => AdmitConserves(s, cmd);
      case Advance => ProceedConserves(s);
      case _ => OthersKeepLine(s, a);
    }
  }

  lemma ProceedConserves(s: Sys)
    requires PoolInv(s.pool) && Conserved(s)
    ensures Conserved(Proceed(s))
  {
    if ScanRuns(s) {
      RunPendingShape(s.pool, s.phase.pos);
      WithoutOne(s.pool.pending, s.phase.pos);
    } else if ProceedPool(s) != s.pool && s.phase.ToQueue? {
      RunQueueShape(s.pool, s.phase.reply);
    }
  }

  lemma {:induction false} RunConserves(s: Sys, actions: seq<Action>)
    requires Inv(s) && Conserved(s) && IsRun(s, actions)
    ensures Conserved(After(s, actions))
    decreases |actions|
  {
    if actions != [] {
      NextConserves(s, actions[0]);
      NextKeepsInv(s, actions[0]);
      RunConserves(Next(s, actions[0]), actions[1..]);
    }
  }

  /** First in, first out: the accepted commands of a category are those started, in order, followed by
      those pending, in order; after QUIT this is promised for the categories of `KeepsLine`.  For every
      category no command ever starts before one accepted earlier that starts at all, and none is lost
      or duplicated. */
  lemma CategoryFifo(s: Sys, c: nat)
    requires Reachable(s) && c < |s.pool.cats|
    ensures !ShuttingDown(s.pool) || KeepsLine(s.pool, c) ==> InLine(s, c)
    ensures Within(Of(s.started, c), Of(s.accepted, c)) && Conserved(s)
  {
    var s0, actions :| Initial(s0) && IsRun(s0, actions) && After(s0, actions) == s;
    InitialInv(s0);
    RunConserves(s0, actions);
    ReachableInv(s);
    if !ShuttingDown(s.pool) { PrefixWithin(Of(s.started, c), Of(s.pool.pending, c)); }
    RunConfig(s0, actions);
    if KeepsLine(s.pool, c) {
      StartsInLine(s0, c);
      RunHolds(s0, actions, c);
    }
  }

  lemma {:induction false} RunConfig(s: Sys, actions: seq<Action>)
    requires Inv(s) && IsRun(s, actions)
    ensures SameConfig(s.pool, After(s, actions).pool)
    decreases |actions|
  {
    if actions != [] {
      NextConfig(s, actions[0]);
      NextKeepsInv(s, actions[0]);
      RunConfig(Next(s, actions[0]), actions[1..]);
    }
  }
}
