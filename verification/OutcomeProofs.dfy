/** Invariants of `Outcomes.Next` and the theorems over all its runs. */
module OutcomeProofs {
  import opened Sequences
  import opened Connections
  import opened ConnectionProofs
  import opened SendRetry
  import opened Outcomes

  // ----- incoming connections -----

  /** Entries were only dropped, or are outgoing. */
  ghost predicate NoNewIncoming(c: Conns, c': Conns) {
    forall pk: Pubkey, p | p in Range(c', SN(pk)) && !IsOutgoing(p) :: p in Range(c, SN(pk))
  }

  lemma IncomingKept(c: Conns, c': Conns)
    requires IncomingInv(c) && c'.active == c.active && NoNewIncoming(c, c')
    ensures IncomingInv(c')
  {
    forall pk: Pubkey, i | 0 <= i < |Range(c', SN(pk))| && !IsOutgoing(Range(c', SN(pk))[i]) ensures pk in c'.active {
      assert Range(c', SN(pk))[i] in Range(c, SN(pk));
    }
  }

  lemma SetRangeIncoming(c: Conns, k: Key, range: seq<Peer>)
    requires forall p | p in range && !IsOutgoing(p) :: p in Range(c, k)
    ensures NoNewIncoming(c, SetRange(c, k, range))
  {
  }

  lemma ConnectIncoming(c: Conns, r: Request)
    ensures NoNewIncoming(c, Connect(c, r).conns) && Connect(c, r).conns.active == c.active
  {
    var range := Range(c, SN(r.pk));
    var i := FirstUsable(range, r.options);
    if i < |range| {
      SetRangeIncoming(c, SN(r.pk), range[i := Touch(range[i], r.keepAlive, r.now)]);
    } else {
      var p := Peer(c.nextConn, "", r.now, r.keepAlive);
      InsertedAt(range, r.at, p);
      SetRangeIncoming(c, SN(r.pk), Inserted(range, r.at, p));
    }
  }

  lemma {:induction false} SendIncoming(c: Conns, r: Request, results: nat -> SendResult, tried: seq<Link>)
    requires SendSN(c, r, results, tried).Ended?
    ensures NoNewIncoming(c, SendSN(c, r, results, tried).conns)
    ensures SendSN(c, r, results, tried).conns.active == c.active
    decreases CountIncoming(Range(c, SN(r.pk)))
  {
    if Retries(c, r, results, |tried|) {
      var p := Range(c, SN(r.pk))[0];
      var c' := RetryStep(c, r, results, tried);
      SendIncoming(c', r, results, tried + [Link(p.connId, p.route)]);
      assert NoNewIncoming(c, c') by {
        forall k | k != SN(r.pk) ensures Range(c', k) == Range(c, k) {
          assert k in c'.peers <==> k in c'.peers - {SN(r.pk)};
          assert k in c.peers <==> k in c.peers - {SN(r.pk)};
        }
      }
    } else {
      LastAttempt(c, r, results, tried);
      ConnectIncoming(c, r);
    }
  }

  lemma AbandonIncoming(c: Conns, id: int)
    requires IncomingInv(c)
    ensures IncomingInv(Abandon(c, id))
  {
    IncomingKept(c, Abandon(c, id));
  }

  lemma DisconnectIncoming(c: Conns, k: Key)
    requires IncomingInv(c)
    ensures IncomingInv(Disconnect(c, k))
  {
    IncomingKept(c, Disconnect(c, k));
  }

  lemma ExpireIncoming(c: Conns, keys: seq<Key>, now: int)
    requires IncomingInv(c) && forall i, j | 0 <= i < j < |keys| :: keys[i] != keys[j]
    ensures IncomingInv(ExpireIdle(c, keys, now))
  {
    var c' := ExpireIdle(c, keys, now);
    forall pk: Pubkey, p | p in Range(c', SN(pk)) && !IsOutgoing(p) ensures p in Range(c, SN(pk)) {
      ExpireIdleKeeps(c, keys, now, SN(pk));
      NotIdleKeeps(Range(c, SN(pk)), now, p);
    }
    ExpireIdleActive(c, keys, now);
    IncomingKept(c, c');
  }

  lemma NotedIncoming(c: Conns, pk: Pubkey, connId: int, route: string, at: nat)
    requires IncomingInv(c) && pk in c.active
    ensures IncomingInv(NoteIncoming(c, pk, connId, route, at))
  {
    var p := Peer(connId, route, 0, 0);
    InsertedAt(Range(c, SN(pk)), at, p);
    var c' := NoteIncoming(c, pk, connId, route, at);
    forall pk': Pubkey, i | 0 <= i < |Range(c', SN(pk'))| && !IsOutgoing(Range(c', SN(pk'))[i])
      ensures pk' in c'.active
    {
      assert pk' != pk ==> Range(c', SN(pk')) == Range(c, SN(pk'));
    }
  }

  lemma ActivityIncoming(c: Conns, connId: int, i: nat, now: int)
    requires IncomingInv(c)
    ensures IncomingInv(NoteActivity(c, connId, i, now))
  {
    NoteActivityIds(c, connId, i, now);
    var c' := NoteActivity(c, connId, i, now);
    forall pk: Pubkey, j | 0 <= j < |Range(c', SN(pk))| && !IsOutgoing(Range(c', SN(pk))[j]) ensures pk in c'.active {
      assert SameIds(Range(c, SN(pk)), Range(c', SN(pk)));
      assert !IsOutgoing(Range(c, SN(pk))[j]);
    }
  }

  lemma UpdateIncoming(c: Conns, added: set<Pubkey>, removed: seq<Pubkey>)
    requires IncomingInv(c)
    ensures IncomingInv(UpdateClean(c, added, removed))
  {
    RemoveSNsEmpties(c, removed);
    var c' := UpdateClean(c, added, removed);
    forall pk: Pubkey, i | 0 <= i < |Range(c', SN(pk))| && !IsOutgoing(Range(c', SN(pk))[i]) ensures pk in c'.active {
      assert Range(c', SN(pk)) == Range(RemoveSNs(c, removed), SN(pk));
      assert SN(pk).SN? && SN(pk).pk == pk;
    }
  }

  // ----- requests -----

  lemma IssueInv(b: Book, tag: Tag, sent: bool, deadline: int)
    requires RequestsInv(b) && tag !in b.issued
    ensures RequestsInv(Issue(b, tag, sent, deadline))
  {
    var b' := Issue(b, tag, sent, deadline);
    forall t: Tag ensures b'.answered[t] + (if t in b'.requests then 1 else 0) == if t in b'.issued then 1 else 0 {
      assert b.answered[t] + (if t in b.requests then 1 else 0) == if t in b.issued then 1 else 0;
    }
  }

  lemma FinishInv(b: Book, tag: Tag, a: Answer)
    requires RequestsInv(b)
    ensures RequestsInv(Finish(b, tag, a))
  {
    var b' := Finish(b, tag, a);
    forall t: Tag ensures b'.answered[t] + (if t in b'.requests then 1 else 0) == if t in b'.issued then 1 else 0 {
      assert b.answered[t] + (if t in b.requests then 1 else 0) == if t in b.issued then 1 else 0;
    }
  }

  lemma TimeOutRequestsInv(b: Book, now: int)
    requires RequestsInv(b)
    ensures RequestsInv(TimeOutRequests(b, now))
  {
    var b' := TimeOutRequests(b, now);
    forall t: Tag ensures b'.answered[t] + (if t in b'.requests then 1 else 0) == if t in b'.issued then 1 else 0 {
      assert b.answered[t] + (if t in b.requests then 1 else 0) == if t in b.issued then 1 else 0;
    }
  }

  // ----- connection attempts -----

  lemma WithoutAttempt(connects: seq<Attempt>, i: nat, id: int)
    requires DistinctAttempts(connects) && i < |connects|
    ensures DistinctAttempts(Without(connects, i))
    ensures (FindAttempt(Without(connects, i), id) < |connects| - 1)
        <==> FindAttempt(connects, id) < |connects| && id != connects[i].id
  {
    var rest := Without(connects, i);
    forall k | 0 <= k < |rest| ensures rest[k] == connects[if k < i then k else k + 1] {}
    var f := FindAttempt(connects, id);
    if f < |connects| && id != connects[i].id {
      assert rest[if f < i then f else f - 1].id == id;
    }
  }

  lemma SettleInv(b: Book, i: nat, ok: bool)
    requires ConnectsInv(b) && i < |b.connects|
    ensures ConnectsInv(Settled(b.(connects := Without(b.connects, i)), b.connects[i].id, ok))
  {
    var id := b.connects[i].id;
    var b' := Settled(b.(connects := Without(b.connects, i)), id, ok);
    forall j: int ensures b'.settled[j] + (if Waiting(b', j) then 1 else 0) == if j in b'.attempted then 1 else 0 {
      WithoutAttempt(b.connects, i, j);
      assert b.settled[j] + (if Waiting(b, j) then 1 else 0) == if j in b.attempted then 1 else 0;
    }
    WithoutAttempt(b.connects, i, id);
  }

  lemma OpenAttemptInv(b: Book, id: int, ok: bool, now: int, deadline: int)
    requires ConnectsInv(b) && id in b.reserved
    ensures ConnectsInv(OpenAttempt(b, id, ok, now, deadline))
  {
    var b' := OpenAttempt(b, id, ok, now, deadline);
    assert b.settled[id] + (if Waiting(b, id) then 1 else 0) == 0;
    forall j: int ensures b'.settled[j] + (if Waiting(b', j) then 1 else 0) == if j in b'.attempted then 1 else 0 {
      assert b.settled[j] + (if Waiting(b, j) then 1 else 0) == if j in b.attempted then 1 else 0;
      if ok && Waiting(b, j) { assert b'.connects[FindAttempt(b.connects, j)].id == j; }
      if ok && j == id { assert b'.connects[|b.connects|].id == j; }
    }
  }

  /** The attempts do not depend on the tables beyond the next connection number. */
  lemma OtherConns(b: Book, c: Conns)
    requires ConnectsInv(b) && b.conns.nextConn <= c.nextConn
    ensures ConnectsInv(b.(conns := c))
  {
    var b' := b.(conns := c);
    forall j: int ensures b'.settled[j] + (if Waiting(b', j) then 1 else 0) == if j in b'.attempted then 1 else 0 {
      assert Waiting(b', j) == Waiting(b, j);
      assert b.settled[j] + (if Waiting(b, j) then 1 else 0) == if j in b.attempted then 1 else 0;
    }
  }

  lemma {:induction false} TimeOutConnectsInv(b: Book, i: nat, now: int)
    requires ConnectsInv(b) && TablesInv(b.conns) && IncomingInv(b.conns)
    ensures var b' := TimeOutConnects(b, i, now);
      && ConnectsInv(b') && TablesInv(b'.conns) && IncomingInv(b'.conns)
      && b'.(conns := b.conns, connects := b.connects, settled := b.settled, results := b.results) == b
    decreases |b.connects| - i
  {
    if i < |b.connects| {
      if b.connects[i].deadline < now {
        var id := b.connects[i].id;
        var b1 := b.(conns := Abandon(b.conns, id));
        OtherConns(b, b1.conns);
        SettleInv(b1, i, false);
        AbandonInv(b.conns, id);
        AbandonIncoming(b.conns, id);
        TimeOutConnectsInv(Settled(b.(connects := Without(b.connects, i), conns := Abandon(b.conns, id)), id, false),
                           i, now);
      } else {
        TimeOutConnectsInv(b, i + 1, now);
      }
    }
  }

  // ----- every step -----

  ghost predicate Inv(b: Book) {
    RequestsInv(b) && ConnectsInv(b) && TablesInv(b.conns) && IncomingInv(b.conns)
  }

  lemma NewConnsInv(b: Book, c: Conns)
    requires Inv(b) && TablesInv(c) && IncomingInv(c) && b.conns.nextConn <= c.nextConn
    ensures Inv(b.(conns := c))
  {
    OtherConns(b, c);
  }

  lemma ConnectStepInv(c: Conns, r: Request)
    requires TablesInv(c) && IncomingInv(c)
    ensures TablesInv(Connect(c, r).conns) && IncomingInv(Connect(c, r).conns)
    ensures c.nextConn <= Connect(c, r).conns.nextConn
  {
    ConnectSNInv(c, r.pk, r.options, r.reachable, r.keepAlive, r.now, r.at);
    ConnectIncoming(c, r);
    IncomingKept(c, Connect(c, r).conns);
  }

  /** Erasing the dead incoming entry and opening its listener again. */
  lemma RetryInv(c: Conns, r: Request, results: nat -> SendResult, tried: seq<Link>)
    requires TablesInv(c) && Retries(c, r, results, |tried|) && SendSN(c, r, results, tried).Ended?
    ensures Range(c, SN(r.pk)) != [] && !IsOutgoing(Range(c, SN(r.pk))[0])
    ensures var c' := SetRange(Connect(c, r).conns, SN(r.pk), Range(c, SN(r.pk))[1..]);
      && TablesInv(c') && c'.nextConn == c.nextConn
      && SendSN(c, r, results, tried) == SendSN(c', r, results, tried + [Connect(c, r).link])
  {
    RoutedLink(c, r);
    FirstIsUsed(Range(c, SN(r.pk)), r.options);
    var c1 := Connect(c, r).conns;
    ConnectSNInv(c, r.pk, r.options, r.reachable, r.keepAlive, r.now, r.at);
    DropEntry(c1, SN(r.pk), 0);
    assert Without(Range(c1, SN(r.pk)), 0) == Range(c, SN(r.pk))[1..];
  }

  lemma {:induction false} SendInv(c: Conns, r: Request, results: nat -> SendResult, tried: seq<Link>)
    requires TablesInv(c) && SendSN(c, r, results, tried).Ended?
    ensures TablesInv(SendSN(c, r, results, tried).conns) && c.nextConn <= SendSN(c, r, results, tried).conns.nextConn
    decreases CountIncoming(Range(c, SN(r.pk)))
  {
    if Retries(c, r, results, |tried|) {
      RetryInv(c, r, results, tried);
      SendInv(SetRange(Connect(c, r).conns, SN(r.pk), Range(c, SN(r.pk))[1..]), r, results,
              tried + [Connect(c, r).link]);
    } else {
      LastAttempt(c, r, results, tried);
      ConnectSNInv(c, r.pk, r.options, r.reachable, r.keepAlive, r.now, r.at);
    }
  }

  lemma SendStepInv(b: Book, r: Request, results: nat -> SendResult, t: Tracked)
    requires Inv(b) && Enabled(b, SendToSN(r, results, t))
    ensures Inv(Next(b, SendToSN(r, results, t)))
  {
    SendInv(b.conns, r, results, []);
    SendIncoming(b.conns, r, results, []);
    var c := SendSN(b.conns, r, results, []).conns;
    IncomingKept(b.conns, c);
    NewConnsInv(b, c);
    MaybeIssueInv(b.(conns := c), t, SendSN(b.conns, r, results, []).sent);
  }

  lemma MaybeIssueInv(b: Book, t: Tracked, sent: bool)
    requires Inv(b) && (t.Track? ==> t.tag !in b.issued)
    ensures Inv(MaybeIssue(b, t, sent))
  {
    if t.Track? {
      IssueInv(b, t.tag, sent, t.deadline);
      SameAttempts(b, MaybeIssue(b, t, sent));
    }
  }

  lemma SameAttempts(b: Book, b': Book)
    requires ConnectsInv(b)
    requires b'.conns == b.conns && b'.connects == b.connects && b'.settled == b.settled
    requires b'.reserved == b.reserved && b'.attempted == b.attempted
    ensures ConnectsInv(b')
  {
    forall j: int ensures b'.settled[j] + (if Waiting(b', j) then 1 else 0) == if j in b'.attempted then 1 else 0 {
      assert Waiting(b', j) == Waiting(b, j);
    }
  }

  lemma MessageInv(b: Book, connId: int, incoming: bool, parts: seq<string>)
    requires Inv(b)
    ensures Inv(HandleBuiltin(b, connId, incoming, parts))
  {
    match MessageEffect(incoming, parts)
    case Nothing =>
    case Resolve(tag, answer) =>
      FinishInv(b, tag, answer);
      SameAttempts(b, Finish(b, tag, answer));
    case Greet =>
      if FindAttempt(b.connects, connId) < |b.connects| {
        SettleInv(b, FindAttempt(b.connects, connId), true);
      }
    case Hangup =>
      CloseInv(b.conns, connId);
      IncomingKept(b.conns, Close(b.conns, connId));
      NewConnsInv(b, Close(b.conns, connId));
  }

  lemma CleanupInv(b: Book, keys: seq<Key>, idleNow: int, now: int)
    requires Inv(b) && forall i, j | 0 <= i < j < |keys| :: keys[i] != keys[j]
    ensures Inv(Cleanup(b, keys, idleNow, now))
  {
    var b1 := b.(conns := ExpireIdle(b.conns, keys, idleNow));
    ExpireIdleInv(b.conns, keys, idleNow);
    ExpireIncoming(b.conns, keys, idleNow);
    ExpireIdleActive(b.conns, keys, idleNow);
    NewConnsInv(b, b1.conns);
    TimeOutConnectsInv(b1, 0, now);
    var b2 := TimeOutConnects(b1, 0, now);
    assert b2.answered == b1.answered && b2.requests == b1.requests && b2.issued == b1.issued;
    TimeOutRequestsInv(b2, now);
    SameAttempts(b2, TimeOutRequests(b2, now));
  }

  lemma NextInv(b: Book, s: Step)
    requires Inv(b) && Enabled(b, s)
    ensures Inv(Next(b, s))
  {
    match s
    case ConnectStep(r) =>
      ConnectStepInv(b.conns, r);
      NewConnsInv(b, Connect(b.conns, r).conns);
    case SendToSN(r, results, t) => SendStepInv(b, r, results, t);
    case SendToRemote(sent, t) => MaybeIssueInv(b, t, sent);
    case NewId => ReserveInv(b);
    case OpenRemoteStep(id, ok, now, deadline) =>
      OpenAttemptInv(b, id, ok, now, deadline);
      OpenRemoteInv(b.conns, id, now);
      IncomingKept(b.conns, OpenRemote(b.conns, id, now));
    case FromSN(pk, connId, route, at) =>
      NoteIncomingInv(b.conns, pk, connId, route, at);
      NotedIncoming(b.conns, pk, connId, route, at);
      NewConnsInv(b, NoteIncoming(b.conns, pk, connId, route, at));
    case Received(connId, i, at) =>
      NoteActivityInv(b.conns, connId, i, at);
      ActivityIncoming(b.conns, connId, i, at);
      NewConnsInv(b, NoteActivity(b.conns, connId, i, at));
    case Message(connId, incoming, parts) => MessageInv(b, connId, incoming, parts);
    case DisconnectStep(key) =>
      DisconnectInv(b.conns, key);
      DisconnectIncoming(b.conns, key);
      NewConnsInv(b, Disconnect(b.conns, key));
    case CleanupStep(keys, idleNow, now) => CleanupInv(b, keys, idleNow, now);
    case UpdateSNs(added, removed) =>
      UpdateCleanInv(b.conns, added, removed);
      UpdateIncoming(b.conns, added, removed);
      UpdateNextConn(b.conns, removed);
      NewConnsInv(b, UpdateClean(b.conns, added, removed));
  }

  lemma ReserveInv(b: Book)
    requires Inv(b)
    ensures Inv(ReserveId(b))
  {
    var b' := ReserveId(b);
    NewConnsInv(b, b'.conns) by {
      forall id | id in b'.conns.outgoing ensures Listed(b'.conns, id, b'.conns.outgoing[id]) {
        var pk := b.conns.outgoing[id];
        assert Range(b'.conns, SN(pk)) == Range(b.conns, SN(pk)) && Listed(b.conns, id, pk);
      }
      IncomingKept(b.conns, b'.conns);
    }
    forall j: int ensures b'.settled[j] + (if Waiting(b', j) then 1 else 0) == if j in b'.attempted then 1 else 0 {
      assert Waiting(b', j) == Waiting(b, j);
    }
  }

  lemma {:induction false} UpdateNextConn(c: Conns, removed: seq<Pubkey>)
    ensures RemoveSNs(c, removed).nextConn == c.nextConn
    decreases |removed|
  {
    if removed != [] {
      RemoveEntriesNextConn(c.(active := c.active - {removed[0]}), removed[0]);
      UpdateNextConn(RemoveSN(c, removed[0]), removed[1..]);
    }
  }

  lemma {:induction false} RemoveEntriesNextConn(c: Conns, pk: Pubkey)
    ensures RemoveEntries(c, pk).nextConn == c.nextConn
    decreases |Range(c, SN(pk))|
  {
    var range := Range(c, SN(pk));
    if range != [] {
      var c' := SetRange(c, SN(pk), range[1..]);
      RemoveEntriesNextConn(if IsOutgoing(range[0]) then Close(c', range[0].connId) else c', pk);
    }
  }

  // ----- theorems over all runs -----

  ghost predicate Reachable(b: Book) {
    exists active, listeners, nextConn, run ::
      IsRun(Empty(active, listeners, nextConn), run) && b == After(Empty(active, listeners, nextConn), run)
  }

  lemma {:induction false} RunInv(b: Book, run: seq<Step>)
    requires Inv(b) && IsRun(b, run)
    ensures Inv(After(b, run))
    decreases |run|
  {
    if run != [] {
      NextInv(b, run[0]);
      RunInv(Next(b, run[0]), run[1..]);
    }
  }

  lemma ReachableInv(b: Book)
    requires Reachable(b)
    ensures Inv(b)
  {
    var active, listeners, nextConn, run :|
      IsRun(Empty(active, listeners, nextConn), run) && b == After(Empty(active, listeners, nextConn), run);
    RunInv(Empty(active, listeners, nextConn), run);
  }

  /** At every moment each request that was made has had its callback scheduled exactly once, or is
      still waiting and has not; and likewise each connection attempt. */
  lemma ExactlyOneOutcome(b: Book, tag: Tag, id: int)
    requires Reachable(b)
    ensures tag in b.issued ==> b.answered[tag] == if tag in b.requests then 0 else 1
    ensures id in b.attempted ==> b.settled[id] == if Waiting(b, id) then 0 else 1
    ensures tag !in b.issued ==> b.answered[tag] == 0 && tag !in b.requests
    ensures id !in b.attempted ==> b.settled[id] == 0 && !Waiting(b, id)
  {
    ReachableInv(b);
    assert b.answered[tag] + (if tag in b.requests then 1 else 0) == if tag in b.issued then 1 else 0;
    assert b.settled[id] + (if Waiting(b, id) then 1 else 0) == if id in b.attempted then 1 else 0;
  }

  /** The connection tables agree in every reachable state. */
  lemma TablesAgree(b: Book)
    requires Reachable(b)
    ensures TablesInv(b.conns) && IncomingInv(b.conns)
  {
    ReachableInv(b);
  }

  predicate SameAnswer(b: Book, b': Book, t: Tag) {
    && b'.answered[t] == b.answered[t] && (t in b'.answers <==> t in b.answers)
    && (t in b.answers ==> b'.answers[t] == b.answers[t])
  }

  predicate SameResult(b: Book, b': Book, id: int) {
    && b'.settled[id] == b.settled[id] && (id in b'.results <==> id in b.results)
    && (id in b.results ==> b'.results[id] == b.results[id])
  }

  /** The request had its callback scheduled once more, with `answer`. */
  predicate AnsweredWith(b: Book, b': Book, t: Tag, answer: Answer) {
    b'.answered[t] == b.answered[t] + 1 && t in b'.answers && b'.answers[t] == answer
  }

  predicate IsLate(b: Book, id: int, now: int) {
    exists k | 0 <= k < |b.connects| :: b.connects[k].id == id && b.connects[k].deadline < now
  }

  /** A cleanup leaves nothing overdue; each overdue request fails with a timeout, each overdue
      attempt fails and its connection is closed and forgotten; what is not overdue waits on with its
      deadline, and nothing else is decided. */
  lemma CleanupTimesOut(b: Book, keys: seq<Key>, idleNow: int, now: int)
    requires Inv(b) && forall i, j | 0 <= i < j < |keys| :: keys[i] != keys[j]
    ensures var b' := Cleanup(b, keys, idleNow, now);
      && (forall t: Tag :: t in b'.requests <==> t in b.requests && b.requests[t] >= now)
      && (forall t | t in b'.requests :: b'.requests[t] == b.requests[t])
      && (forall t: Tag :: if t in b.requests && b.requests[t] < now
            then AnsweredWith(b, b', t, Answer(false, ["TIMEOUT"])) else SameAnswer(b, b', t))
      && b'.connects == InTime(b.connects, now)
      && (forall id: int :: if IsLate(b, id, now) then GaveUp(b', id) else SameResult(b, b', id))
  {
    var b1 := b.(conns := ExpireIdle(b.conns, keys, idleNow));
    TimeOutConnectsKeeps(b1, 0, now);
    assert b.connects[0..] == b.connects;
    forall id: int
      ensures if IsLate(b, id, now) then GaveUp(Cleanup(b, keys, idleNow, now), id)
              else SameResult(b, Cleanup(b, keys, idleNow, now), id)
    {
      if IsLate(b, id, now) {
        var k :| 0 <= k < |b.connects| && b.connects[k].id == id && b.connects[k].deadline < now;
        TimeOutConnectsDecides(b1, 0, now, id, k);
      } else {
        TimeOutConnectsOthers(b1, 0, now, id);
      }
    }
  }

  lemma {:induction false} TimeOutConnectsOthers(b: Book, i: nat, now: int, id: int)
    requires forall k | i <= k < |b.connects| && b.connects[k].deadline < now :: b.connects[k].id != id
    ensures SameResult(b, TimeOutConnects(b, i, now), id)
    decreases |b.connects| - i
  {
    var cs := b.connects;
    if i < |cs| {
      if cs[i].deadline < now {
        var b1 := Settled(b.(connects := Without(cs, i), conns := Abandon(b.conns, cs[i].id)), cs[i].id, false);
        assert forall k | i <= k < |b1.connects| :: b1.connects[k] == cs[k + 1];
        TimeOutConnectsOthers(b1, i, now, id);
      } else {
        TimeOutConnectsOthers(b, i + 1, now, id);
      }
    }
  }

  function InTime(connects: seq<Attempt>, now: int): seq<Attempt> {
    if connects == [] then []
    else (if connects[0].deadline < now then [] else [connects[0]]) + InTime(connects[1..], now)
  }

  lemma {:induction false} TimeOutConnectsKeeps(b: Book, i: nat, now: int)
    requires i <= |b.connects|
    ensures var b' := TimeOutConnects(b, i, now);
      && b'.connects == b.connects[..i] + InTime(b.connects[i..], now)
      && b'.requests == b.requests && b'.answers == b.answers && b'.issued == b.issued && b'.answered == b.answered
    decreases |b.connects| - i
  {
    var cs := b.connects;
    if i == |cs| {
      assert cs[..i] + [] == cs;
    } else if cs[i].deadline < now {
      var b1 := Settled(b.(connects := Without(cs, i), conns := Abandon(b.conns, cs[i].id)), cs[i].id, false);
      assert b1.connects[..i] == cs[..i] && b1.connects[i..] == cs[i..][1..];
      TimeOutConnectsKeeps(b1, i, now);
    } else {
      assert cs[..i + 1] == cs[..i] + [cs[i]] && cs[i + 1..] == cs[i..][1..];
      TimeOutConnectsKeeps(b, i + 1, now);
    }
  }

  ghost predicate GaveUp(b: Book, id: int) {
    id in b.results && !b.results[id] && id !in b.conns.connections && Range(b.conns, Remote(id)) == []
  }

  lemma {:induction false} TimeOutConnectsDecides(b: Book, i: nat, now: int, id: int, k: nat)
    requires GaveUp(b, id) || (i <= k < |b.connects| && b.connects[k].id == id && b.connects[k].deadline < now)
    ensures GaveUp(TimeOutConnects(b, i, now), id)
    decreases |b.connects| - i
  {
    var cs := b.connects;
    if i < |cs| {
      if cs[i].deadline < now {
        var b1 := Settled(b.(connects := Without(cs, i), conns := Abandon(b.conns, cs[i].id)), cs[i].id, false);
        assert k < |cs| && k > i ==> b1.connects[k - 1] == cs[k];
        TimeOutConnectsDecides(b1, i, now, id, if k > i then k - 1 else k);
      } else {
        TimeOutConnectsDecides(b, i + 1, now, id, k);
      }
    }
  }

  lemma CleanupKeepsAnswer(b: Book, keys: seq<Key>, idleNow: int, now: int, tag: Tag)
    requires tag in b.answers && tag !in b.requests
    ensures var b' := Cleanup(b, keys, idleNow, now); tag in b'.answers && b'.answers[tag] == b.answers[tag]
  {
    TimeOutConnectsKeeps(b.(conns := ExpireIdle(b.conns, keys, idleNow)), 0, now);
  }

  /** An outcome is final: no later step changes or repeats it. */
  lemma OutcomeIsFinal(b: Book, s: Step, tag: Tag)
    requires Inv(b) && Enabled(b, s) && b.answered[tag] == 1 && tag in b.answers
    ensures Next(b, s).answered[tag] == 1 && tag in Next(b, s).answers && Next(b, s).answers[tag] == b.answers[tag]
  {
    assert b.answered[tag] + (if tag in b.requests then 1 else 0) == if tag in b.issued then 1 else 0;
    NextInv(b, s);
    if s.CleanupStep? { CleanupKeepsAnswer(b, s.keys, s.idleNow, s.now, tag); }
    StillAnswered(b, s, tag);
  }

  lemma StillAnswered(b: Book, s: Step, tag: Tag)
    requires Inv(b) && Enabled(b, s) && Inv(Next(b, s)) && tag in b.issued && tag !in b.requests
    ensures tag in Next(b, s).issued && tag !in Next(b, s).requests && Next(b, s).answered[tag] == 1
  {
    if s.CleanupStep? {
      TimeOutConnectsKeeps(b.(conns := ExpireIdle(b.conns, s.keys, s.idleNow)), 0, s.now);
    }
    var b' := Next(b, s);
    assert b'.answered[tag] + (if tag in b'.requests then 1 else 0) == if tag in b'.issued then 1 else 0;
  }

  /** The parts of a reply, behind the route on an incoming connection. */
  function ReplyParts(incoming: bool, route: string, tag: Tag, data: seq<string>): seq<string> {
    (if incoming then [route] else []) + ["REPLY", tag] + data
  }

  function ErrorParts(incoming: bool, route: string, tag: Tag, error: string): seq<string> {
    (if incoming then [route] else []) + [error, "REPLY", tag]
  }

  lemma ReplyMessage(b: Book, connId: int, incoming: bool, route: string, tag: Tag, data: seq<string>)
    ensures HandleBuiltin(b, connId, incoming, ReplyParts(incoming, route, tag, data)) ==
      Finish(b, tag, Answer(true, data))
  {
    var off, parts := if incoming then 1 else 0, ReplyParts(incoming, route, tag, data);
    assert parts[off] == "REPLY" && parts[off + 1..] == [tag] + data;
    assert ([tag] + data)[1..] == data;
    assert MessageEffect(incoming, parts) == Resolve(tag, Answer(true, data));
  }

  lemma ErrorMessage(b: Book, connId: int, incoming: bool, route: string, tag: Tag, error: string)
    requires IsErrorResponse(error)
    ensures HandleBuiltin(b, connId, incoming, ErrorParts(incoming, route, tag, error)) ==
      Finish(b, tag, Answer(false, [error]))
  {
    var off, parts := if incoming then 1 else 0, ErrorParts(incoming, route, tag, error);
    assert parts[off] == error && parts[off + 1..] == ["REPLY", tag];
    assert MessageEffect(incoming, parts) == Resolve(tag, Answer(false, [error]));
  }

  /** The request `tag` is over, with `answer`; everything else is as before. */
  ghost predicate OnlyResolves(b: Book, b': Book, tag: Tag, answer: Answer) {
    && tag !in b'.requests && b'.answered[tag] == 1 && tag in b'.answers && b'.answers[tag] == answer
    && (forall t: Tag | t != tag :: SameAnswer(b, b', t) && (t in b'.requests <==> t in b.requests))
    && (forall t: Tag | t != tag && t in b.requests :: b'.requests[t] == b.requests[t])
    && b'.connects == b.connects && (forall id: int :: SameResult(b, b', id)) && b'.conns == b.conns
  }

  lemma FinishResolves(b: Book, tag: Tag, answer: Answer)
    requires RequestsInv(b) && tag in b.requests
    ensures OnlyResolves(b, Finish(b, tag, answer), tag, answer)
  {
    assert b.answered[tag] + (if tag in b.requests then 1 else 0) == if tag in b.issued then 1 else 0;
  }

  /** A reply that arrives while its request waits schedules that request's callback, its only one,
      with exactly the data that follows the tag; nothing else changes, and neither does anything when
      the reply arrives again, or if the request was not waiting. */
  lemma ReplyReachesItsRequest(b: Book, connId: int, incoming: bool, route: string, tag: Tag, data: seq<string>)
    requires Reachable(b)
    ensures var parts := ReplyParts(incoming, route, tag, data);
      var b' := HandleBuiltin(b, connId, incoming, parts);
      && (if tag in b.requests then OnlyResolves(b, b', tag, Answer(true, data)) else b' == b)
      && HandleBuiltin(b', connId, incoming, parts) == b'
  {
    ReachableInv(b);
    var b' := Finish(b, tag, Answer(true, data));
    ReplyMessage(b, connId, incoming, route, tag, data);
    ReplyMessage(b', connId, incoming, route, tag, data);
    if tag in b.requests { FinishResolves(b, tag, Answer(true, data)); }
  }

  /** Likewise an error that names the tag fails that request, and no other. */
  lemma ErrorReachesItsRequest(b: Book, connId: int, incoming: bool, route: string, tag: Tag, error: string)
    requires Reachable(b)
    requires error in {"FORBIDDEN", "FORBIDDEN_SN", "NOT_A_SERVICE_NODE", "UNKNOWNCOMMAND", "NO_REPLY_TAG"}
    ensures var b' := HandleBuiltin(b, connId, incoming, ErrorParts(incoming, route, tag, error));
      if tag in b.requests then OnlyResolves(b, b', tag, Answer(false, [error])) else b' == b
  {
    ReachableInv(b);
    ErrorMessage(b, connId, incoming, route, tag, error);
    if tag in b.requests { FinishResolves(b, tag, Answer(false, [error])); }
  }

  /** Only messages kept from the workers change anything, and a message decides at most one request,
      the one it names, and at most the attempt of the connection it came on. */
  lemma MessagesAreLocal(b: Book, connId: int, incoming: bool, parts: seq<string>)
    ensures var b' := HandleBuiltin(b, connId, incoming, parts);
      && (b' != b ==> IsBuiltin(incoming, parts))
      && (forall t: Tag | t !in parts :: b'.answered[t] == b.answered[t] && (t in b'.requests <==> t in b.requests))
      && (forall id: int | id != connId || incoming :: b'.settled[id] == b.settled[id])
      && b'.conns.peers == b.conns.peers
  {
  }

  /** A send that gets stuck: a service node connects to us, we connect to it, its own connection dies,
      and we send on that one only. */
  lemma StuckExample()
    ensures var b := Empty({"k"}, {1}, 2);
      var run := [FromSN("k", 1, "r", 0), ConnectStep(Request("k", Options(false, false, true), true, 0, 0, 0))];
      && IsRun(b, run)
      && Range(After(b, run).conns, SN("k")) == [Peer(2, "", 0, 0), Peer(1, "r", 0, 0)]
      && SendSN(After(b, run).conns, Request("k", Options(false, true, false), true, 0, 0, 0), _ => Unreachable, [])
         == Stuck
  {
    var b := Empty({"k"}, {1}, 2);
    var connect := ConnectStep(Request("k", Options(false, false, true), true, 0, 0, 0));
    var note := FromSN("k", 1, "r", 0);
    var b1 := Next(b, note);
    assert Range(b.conns, SN("k")) == [] && Range(b1.conns, SN("k")) == [Peer(1, "r", 0, 0)];
    var b2 := Next(b1, connect);
    var range := Range(b2.conns, SN("k"));
    assert range == [Peer(2, "", 0, 0), Peer(1, "r", 0, 0)];
    assert After(b1, [connect]) == After(b2, []) == b2 && IsRun(b2, []);
    assert [note, connect][1..] == [connect] && [connect][1..] == [];
    assert IsOutgoing(range[0]) && !IsOutgoing(range[1]);
    StuckIfUnreachable(b2.conns, Request("k", Options(false, true, false), true, 0, 0, 0), _ => Unreachable, []);
  }
}
