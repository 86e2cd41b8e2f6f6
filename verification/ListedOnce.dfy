/** No incoming connection is ever listed twice under its service node. */
module ListedOnce {
  import opened Sequences
  import opened Connections
  import opened ConnectionProofs
  import opened SendRetry
  import opened Outcomes
  import opened OutcomeProofs

  predicate SameConnection(p: Peer, q: Peer) { p.connId == q.connId && p.route == q.route }

  predicate OnceEach(range: seq<Peer>) {
    forall i, j | 0 <= i < j < |range| && !IsOutgoing(range[i]) :: !SameConnection(range[i], range[j])
  }

  ghost predicate OnceInv(c: Conns) {
    forall pk: Pubkey :: OnceEach(Range(c, SN(pk)))
  }

  lemma OnceElsewhere(c: Conns, c': Conns, k: Key)
    requires OnceInv(c) && (k.SN? ==> OnceEach(Range(c', k)))
    requires forall pk: Pubkey | SN(pk) != k :: Range(c', SN(pk)) == Range(c, SN(pk))
    ensures OnceInv(c')
  {
    forall pk: Pubkey ensures OnceEach(Range(c', SN(pk))) {
      assert OnceEach(Range(c, SN(pk)));
    }
  }

  lemma WithoutOnce(range: seq<Peer>, i: nat)
    requires OnceEach(range) && i < |range|
    ensures OnceEach(Without(range, i))
  {
    var rest := Without(range, i);
    forall a, b | 0 <= a < b < |rest| && !IsOutgoing(rest[a]) ensures !SameConnection(rest[a], rest[b]) {
      var a', b' := if a < i then a else a + 1, if b < i then b else b + 1;
      assert rest[a] == range[a'] && rest[b] == range[b'];
    }
  }

  lemma InsertedOnce(range: seq<Peer>, at: nat, p: Peer)
    requires OnceEach(range) && (IsOutgoing(p) || forall q | q in range :: !SameConnection(p, q))
    ensures OnceEach(Inserted(range, at, p))
  {
    var more, n := Inserted(range, at, p), if at <= |range| then at else |range|;
    forall a, b | 0 <= a < b < |more| && !IsOutgoing(more[a]) ensures !SameConnection(more[a], more[b]) {
      assert more[n] == p;
      if a != n { assert more[a] == range[if a < n then a else a - 1] && more[a] in range; }
      if b != n { assert more[b] == range[if b < n then b else b - 1] && more[b] in range; }
    }
  }

  lemma {:induction false} NotIdleOnce(range: seq<Peer>, now: int)
    requires OnceEach(range)
    ensures OnceEach(NotIdle(range, now))
  {
    if range != [] {
      var rest := NotIdle(range[1..], now);
      NotIdleOnce(range[1..], now);
      forall q | q in rest && !IsOutgoing(range[0]) ensures !SameConnection(range[0], q) {
        NotIdleKeeps(range[1..], now, q);
      }
    }
  }

  // ----- operations -----

  lemma ConnectOnce(c: Conns, r: Request)
    requires OnceInv(c)
    ensures OnceInv(Connect(c, r).conns)
  {
    var range, i := Range(c, SN(r.pk)), FirstUsable(Range(c, SN(r.pk)), r.options);
    assert OnceEach(range);
    if i == |range| { InsertedOnce(range, r.at, Peer(c.nextConn, "", r.now, r.keepAlive)); }
    OnceElsewhere(c, Connect(c, r).conns, SN(r.pk));
  }

  lemma {:induction false} SendOnce(c: Conns, r: Request, results: nat -> SendResult, tried: seq<Link>)
    requires OnceInv(c) && SendSN(c, r, results, tried).Ended?
    ensures OnceInv(SendSN(c, r, results, tried).conns)
    decreases CountIncoming(Range(c, SN(r.pk)))
  {
    if Retries(c, r, results, |tried|) {
      var p := Range(c, SN(r.pk))[0];
      var c' := RetryStep(c, r, results, tried);
      assert OnceEach(Range(c, SN(r.pk))) && OnceEach(Range(c', SN(r.pk)));
      forall pk: Pubkey | pk != r.pk ensures Range(c', SN(pk)) == Range(c, SN(pk)) {
        assert SN(pk) in c'.peers <==> SN(pk) in c'.peers - {SN(r.pk)};
        assert SN(pk) in c.peers <==> SN(pk) in c.peers - {SN(r.pk)};
      }
      OnceElsewhere(c, c', SN(r.pk));
      SendOnce(c', r, results, tried + [Link(p.connId, p.route)]);
    } else {
      LastAttempt(c, r, results, tried);
      ConnectOnce(c, r);
    }
  }

  lemma NotedOnce(c: Conns, pk: Pubkey, connId: int, route: string, at: nat)
    requires OnceInv(c) && route != ""
    ensures OnceInv(NoteIncoming(c, pk, connId, route, at))
    ensures exists p ::
      p in Range(NoteIncoming(c, pk, connId, route, at), SN(pk)) && p.connId == connId && p.route == route
    ensures forall p | p in Range(c, SN(pk)) :: p in Range(NoteIncoming(c, pk, connId, route, at), SN(pk))
  {
    var p := Peer(connId, route, 0, 0);
    assert OnceEach(Range(c, SN(pk)));
    InsertedAt(Range(c, SN(pk)), at, p);
    if NoteIncoming(c, pk, connId, route, at) != c {
      InsertedOnce(Range(c, SN(pk)), at, p);
      OnceElsewhere(c, NoteIncoming(c, pk, connId, route, at), SN(pk));
    }
  }

  lemma DisconnectOnce(c: Conns, k: Key)
    requires OnceInv(c)
    ensures OnceInv(Disconnect(c, k))
  {
    var i := FirstOutgoing(Range(c, k));
    if k.SN? { assert OnceEach(Range(c, SN(k.pk))); }
    if i < |Range(c, k)| && k.SN? { WithoutOnce(Range(c, k), i); }
    OnceElsewhere(c, Disconnect(c, k), k);
  }

  lemma ExpireOnce(c: Conns, keys: seq<Key>, now: int)
    requires OnceInv(c) && forall i, j | 0 <= i < j < |keys| :: keys[i] != keys[j]
    ensures OnceInv(ExpireIdle(c, keys, now))
  {
    forall pk: Pubkey ensures OnceEach(Range(ExpireIdle(c, keys, now), SN(pk))) {
      assert OnceEach(Range(c, SN(pk)));
      ExpireIdleKeeps(c, keys, now, SN(pk));
      NotIdleOnce(Range(c, SN(pk)), now);
    }
  }

  lemma {:induction false} TimeOutConnectsOnce(b: Book, i: nat, now: int)
    requires OnceInv(b.conns)
    ensures OnceInv(TimeOutConnects(b, i, now).conns)
    decreases |b.connects| - i
  {
    if i < |b.connects| {
      if b.connects[i].deadline < now {
        var id := b.connects[i].id;
        OnceElsewhere(b.conns, Abandon(b.conns, id), Remote(id));
        TimeOutConnectsOnce(Settled(b.(connects := Without(b.connects, i), conns := Abandon(b.conns, id)), id, false),
                            i, now);
      } else {
        TimeOutConnectsOnce(b, i + 1, now);
      }
    }
  }

  lemma UpdateOnce(c: Conns, added: set<Pubkey>, removed: seq<Pubkey>)
    requires OnceInv(c)
    ensures OnceInv(UpdateClean(c, added, removed))
  {
    RemoveSNsEmpties(c, removed);
    var c' := UpdateClean(c, added, removed);
    forall pk: Pubkey ensures OnceEach(Range(c', SN(pk))) {
      assert OnceEach(Range(c, SN(pk)));
      assert Range(c', SN(pk)) == Range(RemoveSNs(c, removed), SN(pk));
      assert SN(pk).SN? && SN(pk).pk == pk;
    }
  }

  lemma SamePeersOnce(c: Conns, c': Conns)
    requires OnceInv(c) && c'.peers == c.peers
    ensures OnceInv(c')
  {
    forall pk: Pubkey ensures OnceEach(Range(c', SN(pk))) { assert OnceEach(Range(c, SN(pk))); }
  }

  lemma ActivityOnce(c: Conns, connId: int, i: nat, now: int)
    requires OnceInv(c)
    ensures OnceInv(NoteActivity(c, connId, i, now))
  {
    NoteActivityIds(c, connId, i, now);
    var c' := NoteActivity(c, connId, i, now);
    forall pk: Pubkey ensures OnceEach(Range(c', SN(pk))) {
      assert SameIds(Range(c, SN(pk)), Range(c', SN(pk))) && OnceEach(Range(c, SN(pk)));
    }
  }

  lemma NextOnce(b: Book, s: Step)
    requires OnceInv(b.conns) && Enabled(b, s)
    ensures OnceInv(Next(b, s).conns)
  {
    match s
    case ConnectStep(r) => ConnectOnce(b.conns, r);
    case SendToSN(r, results, t) => SendOnce(b.conns, r, results, []);
    case SendToRemote(_, _) =>
    case NewId => SamePeersOnce(b.conns, Reserve(b.conns));
    case OpenRemoteStep(id, _, now, _) => OnceElsewhere(b.conns, OpenRemote(b.conns, id, now), Remote(id));
    case FromSN(pk, connId, route, at) => NotedOnce(b.conns, pk, connId, route, at);
    case Received(connId, i, at) => ActivityOnce(b.conns, connId, i, at);
    case Message(connId, incoming, parts) =>
      MessagesAreLocal(b, connId, incoming, parts);
      SamePeersOnce(b.conns, Next(b, s).conns);
    case DisconnectStep(key) => DisconnectOnce(b.conns, key);
    case CleanupStep(keys, idleNow, now) =>
      ExpireOnce(b.conns, keys, idleNow);
      TimeOutConnectsOnce(b.(conns := ExpireIdle(b.conns, keys, idleNow)), 0, now);
    case UpdateSNs(added, removed) => UpdateOnce(b.conns, added, removed);
  }

  lemma {:induction false} RunOnce(b: Book, run: seq<Step>)
    requires OnceInv(b.conns) && IsRun(b, run)
    ensures OnceInv(After(b, run).conns)
    decreases |run|
  {
    if run != [] {
      NextOnce(b, run[0]);
      RunOnce(Next(b, run[0]), run[1..]);
    }
  }

  /** In every reachable state each incoming connection of a service node has at most one entry. */
  lemma IncomingListedOnce(b: Book, pk: Pubkey)
    requires Reachable(b)
    ensures OnceEach(Range(b.conns, SN(pk)))
  {
    var active, listeners, nextConn, run :|
      IsRun(Empty(active, listeners, nextConn), run) && b == After(Empty(active, listeners, nextConn), run);
    RunOnce(Empty(active, listeners, nextConn), run);
  }
}
