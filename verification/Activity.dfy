/** How long an outgoing connection is kept: over every run a cleanup drops exactly those that have not
    been used for longer than the largest keep-alive time that was asked for. */
module Activity {
  import opened Sequences
  import opened Connections
  import opened ConnectionProofs
  import opened SendRetry
  import opened Outcomes
  import opened OutcomeProofs

  /** For an outgoing connection: whose it is, when it was last used, and the largest keep-alive time
      asked for by those that used it. */
  datatype Usage = Usage(key: Key, last: int, keep: int)

  type Log = map<int, Usage>

  function Larger(x: int, y: int): int { if x < y then y else x }

  // ----- the history of a run -----

  /** A connect or a send for `r` used `link`; only outgoing connections are of interest. */
  function LogUse(log: Log, r: Request, link: Link): Log {
    if link.NoLink? || link.route != "" then log
    else if link.connId in log then
      log[link.connId := Usage(log[link.connId].key, r.now, Larger(log[link.connId].keep, r.keepAlive))]
    else log[link.connId := Usage(SN(r.pk), r.now, r.keepAlive)]
  }

  /** The connection that a send used last. */
  function LastLink(e: Ending): Link {
    if e.Ended? && e.tried != [] then e.tried[|e.tried| - 1] else NoLink
  }

  function LogStep(b: Book, s: Step, log: Log): Log {
    match s
    case ConnectStep(r) => LogUse(log, r, Connect(b.conns, r).link)
    case SendToSN(r, results, _) => LogUse(log, r, LastLink(SendSN(b.conns, r, results, [])))
    case OpenRemoteStep(id, ok, now, _) => if ok then log[id := Usage(Remote(id), now, FOREVER)] else log
    case Received(connId, i, at) =>
      var range := Range(b.conns, KeyOf(b.conns, connId));
      if i < |range| && IsOutgoing(range[i]) && range[i].connId in log
      then log[range[i].connId := log[range[i].connId].(last := at)] else log
    case _ => log
  }

  function LogOf(b: Book, run: seq<Step>, log: Log): Log
    decreases |run|
  {
    if run == [] then log else LogOf(Next(b, run[0]), run[1..], LogStep(b, run[0], log))
  }

  // ----- the log agrees with the entries -----

  predicate Logged(log: Log, k: Key, p: Peer) {
    IsOutgoing(p) ==>
      && p.connId in log && log[p.connId] == Usage(k, p.lastActivity, p.idleExpiry)
      && (k.Remote? ==> k.id == p.connId)
  }

  ghost predicate EntriesLogged(c: Conns, log: Log) {
    && (forall k: Key, p | p in Range(c, k) :: Logged(log, k, p))
    && (forall id: int {:trigger Remote(id)} ::
          |Range(c, Remote(id))| <= 1 && forall p | p in Range(c, Remote(id)) :: IsOutgoing(p))
  }

  /** Numbers not handed out, or handed out and not used yet, are not in the log. */
  predicate LogFresh(log: Log, nextConn: int, reserved: set<int>) {
    forall id | id in log :: id < nextConn && id !in reserved
  }

  ghost predicate LogInv(b: Book, log: Log) {
    Inv(b) && EntriesLogged(b.conns, log) && LogFresh(log, b.conns.nextConn, b.reserved)
  }

  /** Entries only went. */
  ghost predicate Shrinks(c: Conns, c': Conns) {
    && (forall k: Key, p | p in Range(c', k) :: p in Range(c, k))
    && (forall id: int :: |Range(c', Remote(id))| <= |Range(c, Remote(id))|)
  }

  lemma ShrinksLogged(c: Conns, c': Conns, log: Log)
    requires EntriesLogged(c, log) && Shrinks(c, c')
    ensures EntriesLogged(c', log)
  {
    forall id: int
      ensures |Range(c', Remote(id))| <= 1 && forall p | p in Range(c', Remote(id)) :: IsOutgoing(p)
    {
      assert |Range(c, Remote(id))| <= 1;
    }
  }

  lemma SamePeersLogged(c: Conns, c': Conns, log: Log)
    requires EntriesLogged(c, log) && c'.peers == c.peers
    ensures EntriesLogged(c', log)
  {
    assert forall k :: Range(c', k) == Range(c, k);
    ShrinksLogged(c, c', log);
  }

  /** The only outgoing entry under `k`, number `i`, changed, and so did its line in the log. */
  lemma OneChanged(c: Conns, k: Key, i: nat, p: Peer, log: Log)
    requires EntriesLogged(c, log) && i < |Range(c, k)| && AtMostOneOutgoing(Range(c, k))
    requires p.connId == Range(c, k)[i].connId && IsOutgoing(p) && IsOutgoing(Range(c, k)[i])
    ensures EntriesLogged(SetRange(c, k, Range(c, k)[i := p]), log[p.connId := Usage(k, p.lastActivity, p.idleExpiry)])
  {
    var c', log' := SetRange(c, k, Range(c, k)[i := p]), log[p.connId := Usage(k, p.lastActivity, p.idleExpiry)];
    assert Range(c, k)[i] in Range(c, k) && Logged(log, k, Range(c, k)[i]);
    forall k', q | q in Range(c', k') ensures Logged(log', k', q) {
      if k' == k {
        var j :| 0 <= j < |Range(c', k)| && Range(c', k)[j] == q;
        if j != i { assert q == Range(c, k)[j] && q in Range(c, k); }
      } else {
        assert Range(c', k') == Range(c, k') && Logged(log, k', q);
      }
    }
    forall id: int
      ensures |Range(c', Remote(id))| <= 1 && forall q | q in Range(c', Remote(id)) :: IsOutgoing(q)
    {
      assert |Range(c, Remote(id))| <= 1;
    }
  }

  /** An incoming entry changed or came in under a service node. */
  lemma IncomingChanged(c: Conns, c': Conns, pk: Pubkey, log: Log)
    requires EntriesLogged(c, log) && forall k | k != SN(pk) :: Range(c', k) == Range(c, k)
    requires forall p | p in Range(c', SN(pk)) && IsOutgoing(p) :: p in Range(c, SN(pk))
    ensures EntriesLogged(c', log)
  {
    forall k: Key, p | p in Range(c', k) ensures Logged(log, k, p) {
      if IsOutgoing(p) { assert p in Range(c, k); }
    }
    forall id: int
      ensures |Range(c', Remote(id))| <= 1 && forall q | q in Range(c', Remote(id)) :: IsOutgoing(q)
    {
      assert Range(c', Remote(id)) == Range(c, Remote(id));
    }
  }

  // ----- steps -----

  lemma ReuseLogged(c: Conns, r: Request, log: Log)
    requires TablesInv(c) && EntriesLogged(c, log) && FirstUsable(Range(c, SN(r.pk)), r.options) < |Range(c, SN(r.pk))|
    ensures EntriesLogged(Connect(c, r).conns, LogUse(log, r, Connect(c, r).link))
  {
    var range, i := Range(c, SN(r.pk)), FirstUsable(Range(c, SN(r.pk)), r.options);
    var p := Touch(range[i], r.keepAlive, r.now);
    var c1 := SetRange(c, SN(r.pk), range[i := p]);
    assert range[i] in range && Logged(log, SN(r.pk), range[i]);
    if IsOutgoing(range[i]) {
      assert AtMostOneOutgoing(range);
      OneChanged(c, SN(r.pk), i, p, log);
    } else {
      assert range[i := p] == range;
      assert forall k :: Range(c1, k) == Range(c, k);
      ShrinksLogged(c, c1, log);
    }
    SamePeersLogged(c1, Connect(c, r).conns, LogUse(log, r, Connect(c, r).link));
  }

  lemma OpenLogged(c: Conns, r: Request, log: Log)
    requires EntriesLogged(c, log) && c.nextConn !in log
    requires FirstUsable(Range(c, SN(r.pk)), r.options) == |Range(c, SN(r.pk))| && Connect(c, r).link.Link?
    ensures EntriesLogged(Connect(c, r).conns, LogUse(log, r, Connect(c, r).link))
  {
    var c', p := Connect(c, r).conns, Peer(c.nextConn, "", r.now, r.keepAlive);
    var log' := LogUse(log, r, Connect(c, r).link);
    InsertedAt(Range(c, SN(r.pk)), r.at, p);
    forall k: Key, q | q in Range(c', k) ensures Logged(log', k, q) {
      if q != p { assert q in Range(c, k) && Logged(log, k, q); }
      if q == p && k != SN(r.pk) { assert q in Range(c, k) && Logged(log, k, q); }
    }
    forall id: int
      ensures |Range(c', Remote(id))| <= 1 && forall q | q in Range(c', Remote(id)) :: IsOutgoing(q)
    {
      assert Range(c', Remote(id)) == Range(c, Remote(id));
    }
  }

  lemma ConnectLogged(c: Conns, r: Request, log: Log)
    requires TablesInv(c) && EntriesLogged(c, log) && c.nextConn !in log
    ensures EntriesLogged(Connect(c, r).conns, LogUse(log, r, Connect(c, r).link))
  {
    if FirstUsable(Range(c, SN(r.pk)), r.options) < |Range(c, SN(r.pk))| {
      ReuseLogged(c, r, log);
    } else if Connect(c, r).link.Link? {
      OpenLogged(c, r, log);
    }
  }

  lemma ConnectFresh(c: Conns, r: Request, log: Log, reserved: set<int>)
    requires EntriesLogged(c, log) && LogFresh(log, c.nextConn, reserved)
    requires forall id | id in reserved :: id < c.nextConn
    ensures LogFresh(LogUse(log, r, Connect(c, r).link), Connect(c, r).conns.nextConn, reserved)
  {
    var range, i := Range(c, SN(r.pk)), FirstUsable(Range(c, SN(r.pk)), r.options);
    if i < |range| { assert range[i] in range && Logged(log, SN(r.pk), range[i]); }
  }

  /** Erasing leading incoming entries leaves the outgoing ones. */
  lemma ErasedLogged(c: Conns, last: Conns, pk: Pubkey, m: nat, log: Log)
    requires EntriesLogged(c, log) && ErasedPrefix(c, last, pk, m)
    ensures EntriesLogged(last, log)
  {
    forall k | k != SN(pk) ensures Range(last, k) == Range(c, k) {
      assert k in last.peers - {SN(pk)} <==> k in c.peers - {SN(pk)};
      if k in c.peers { assert (last.peers - {SN(pk)})[k] == (c.peers - {SN(pk)})[k]; }
    }
    IncomingChanged(c, last, pk, log);
  }

  lemma SendLogged(b: Book, r: Request, results: nat -> SendResult, log: Log)
    requires LogInv(b, log) && SendSN(b.conns, r, results, []).Ended?
    ensures var e := SendSN(b.conns, r, results, []);
      && EntriesLogged(e.conns, LogUse(log, r, LastLink(e)))
      && LogFresh(LogUse(log, r, LastLink(e)), e.conns.nextConn, b.reserved)
  {
    var c, e := b.conns, SendSN(b.conns, r, results, []);
    var m, last := ErasesWhatFailed(c, r, results, [], e);
    ErasedLogged(c, last, r.pk, m, log);
    ErasedTables(c, last, r.pk, m);
    ConnectLogged(last, r, log);
    ConnectFresh(last, r, log, b.reserved);
    SameUse(c, r, results, e, m, last, log);
  }

  lemma SameUse(c: Conns, r: Request, results: nat -> SendResult, e: Ending, m: nat, last: Conns, log: Log)
    requires e.Ended? && Failed(Range(c, SN(r.pk)), results, m, e.tried, 0) && EndsWith(e, Connect(last, r), results)
    requires |e.tried| == m + Attempts(Connect(last, r).link)
    ensures LogUse(log, r, LastLink(e)) == LogUse(log, r, Connect(last, r).link)
  {
    if Connect(last, r).link.NoLink? && m > 0 {
      assert !IsOutgoing(Range(c, SN(r.pk))[m - 1]) && e.tried[0 + (m - 1)].route != "";
    }
  }

  lemma ErasedTables(c: Conns, last: Conns, pk: Pubkey, m: nat)
    requires TablesInv(c) && ErasedPrefix(c, last, pk, m)
    requires forall i | 0 <= i < m :: !IsOutgoing(Range(c, SN(pk))[i])
    ensures TablesInv(last)
  {
    var range, range' := Range(c, SN(pk)), Range(last, SN(pk));
    assert forall j | 0 <= j < |range'| :: range'[j] == range[j + m];
    assert AtMostOneOutgoing(range);
    forall k | k != SN(pk) ensures Range(last, k) == Range(c, k) {
      assert k in last.peers - {SN(pk)} <==> k in c.peers - {SN(pk)};
      if k in c.peers { assert (last.peers - {SN(pk)})[k] == (c.peers - {SN(pk)})[k]; }
    }
    forall id | id in last.outgoing ensures Listed(last, id, last.outgoing[id]) {
      assert Listed(c, id, c.outgoing[id]);
      if c.outgoing[id] == pk {
        var i :| 0 <= i < |range| && IsOutgoing(range[i]) && range[i].connId == id;
        assert range'[i - m] == range[i];
      } else {
        assert Range(last, SN(c.outgoing[id])) == Range(c, SN(c.outgoing[id]));
      }
    }
    forall pk': Pubkey ensures AtMostOneOutgoing(Range(last, SN(pk'))) {
      if pk' != pk { assert Range(last, SN(pk')) == Range(c, SN(pk')); }
    }
  }

  lemma RemoteEntryLogged(c: Conns, id: int, log: Log)
    requires EntriesLogged(c, log)
    ensures Range(c, Remote(id)) != [] ==> id in log
  {
    if Range(c, Remote(id)) != [] {
      var p := Range(c, Remote(id))[0];
      assert p in Range(c, Remote(id)) && Logged(log, Remote(id), p);
    }
  }

  lemma OpenRemoteLogged(c: Conns, id: int, now: int, log: Log)
    requires EntriesLogged(c, log) && id !in log
    ensures EntriesLogged(OpenRemote(c, id, now), log[id := Usage(Remote(id), now, FOREVER)])
  {
    var c', log' := OpenRemote(c, id, now), log[id := Usage(Remote(id), now, FOREVER)];
    RemoteEntryLogged(c, id, log);
    assert Range(c', Remote(id)) == [Peer(id, "", now, FOREVER)];
    forall k: Key, q | q in Range(c', k) ensures Logged(log', k, q) {
      if k != Remote(id) { assert q in Range(c, k) && Logged(log, k, q); }
    }
    forall other: int
      ensures |Range(c', Remote(other))| <= 1 && forall q | q in Range(c', Remote(other)) :: IsOutgoing(q)
    {
      if other != id { assert Range(c', Remote(other)) == Range(c, Remote(other)); }
    }
  }

  lemma ActivityLogged(c: Conns, connId: int, i: nat, at: int, log: Log)
    requires TablesInv(c) && EntriesLogged(c, log)
    ensures var range := Range(c, KeyOf(c, connId));
      EntriesLogged(NoteActivity(c, connId, i, at),
                    if i < |range| && IsOutgoing(range[i]) && range[i].connId in log
                    then log[range[i].connId := log[range[i].connId].(last := at)] else log)
  {
    var k, range := KeyOf(c, connId), Range(c, KeyOf(c, connId));
    if i < |range| {
      var p := range[i].(lastActivity := at);
      assert range[i] in range && Logged(log, k, range[i]);
      if IsOutgoing(range[i]) {
        OneOutgoing(c, k, log);
        OneChanged(c, k, i, p, log);
      } else {
        assert k.SN?;
        forall q | q in range[i := p] && IsOutgoing(q) ensures q in range {
          var j :| 0 <= j < |range| && range[i := p][j] == q;
          assert q == range[j];
        }
        IncomingChanged(c, NoteActivity(c, connId, i, at), k.pk, log);
      }
    }
  }

  lemma OneOutgoing(c: Conns, k: Key, log: Log)
    requires TablesInv(c) && EntriesLogged(c, log)
    ensures AtMostOneOutgoing(Range(c, k))
  {
    match k
    case SN(pk) => assert AtMostOneOutgoing(Range(c, SN(pk)));
    case Remote(id) => assert |Range(c, Remote(id))| <= 1;
  }

  lemma {:induction false} NotIdleShorter(range: seq<Peer>, now: int)
    ensures |NotIdle(range, now)| <= |range|
  {
    if range != [] { NotIdleShorter(range[1..], now); }
  }

  lemma ExpireShrinks(c: Conns, keys: seq<Key>, now: int)
    requires forall i, j | 0 <= i < j < |keys| :: keys[i] != keys[j]
    ensures Shrinks(c, ExpireIdle(c, keys, now))
  {
    var c' := ExpireIdle(c, keys, now);
    forall k: Key, p | p in Range(c', k) ensures p in Range(c, k) {
      ExpireIdleKeeps(c, keys, now, k);
      NotIdleKeeps(Range(c, k), now, p);
    }
    forall id: int ensures |Range(c', Remote(id))| <= |Range(c, Remote(id))| {
      ExpireIdleKeeps(c, keys, now, Remote(id));
      NotIdleShorter(Range(c, Remote(id)), now);
    }
  }

  lemma {:induction false} TimeOutShrinks(b: Book, i: nat, now: int)
    ensures Shrinks(b.conns, TimeOutConnects(b, i, now).conns)
    ensures TimeOutConnects(b, i, now).conns.nextConn == b.conns.nextConn
    ensures TimeOutConnects(b, i, now).reserved == b.reserved
    ensures forall pk: Pubkey :: Range(TimeOutConnects(b, i, now).conns, SN(pk)) == Range(b.conns, SN(pk))
    decreases |b.connects| - i
  {
    if i < |b.connects| {
      if b.connects[i].deadline < now {
        var id := b.connects[i].id;
        var b1 := b.(connects := Without(b.connects, i), conns := Abandon(b.conns, id));
        TimeOutShrinks(Settled(b1, id, false), i, now);
      } else {
        TimeOutShrinks(b, i + 1, now);
      }
    }
  }

  lemma CleanupLogged(b: Book, keys: seq<Key>, idleNow: int, now: int, log: Log)
    requires LogInv(b, log) && forall i, j | 0 <= i < j < |keys| :: keys[i] != keys[j]
    ensures var b' := Cleanup(b, keys, idleNow, now);
      EntriesLogged(b'.conns, log) && b'.conns.nextConn == b.conns.nextConn && b'.reserved == b.reserved
  {
    ExpireShrinks(b.conns, keys, idleNow);
    ExpireIdleActive(b.conns, keys, idleNow);
    ShrinksLogged(b.conns, ExpireIdle(b.conns, keys, idleNow), log);
    var b1 := b.(conns := ExpireIdle(b.conns, keys, idleNow));
    TimeOutShrinks(b1, 0, now);
    ShrinksLogged(b1.conns, TimeOutConnects(b1, 0, now).conns, log);
  }

  lemma DisconnectLogged(c: Conns, k: Key, log: Log)
    requires EntriesLogged(c, log)
    ensures EntriesLogged(Disconnect(c, k), log) && Disconnect(c, k).nextConn == c.nextConn
  {
    ShrinksLogged(c, Disconnect(c, k), log);
  }

  lemma UpdateLogged(c: Conns, added: set<Pubkey>, removed: seq<Pubkey>, log: Log)
    requires EntriesLogged(c, log)
    ensures EntriesLogged(UpdateClean(c, added, removed), log) && UpdateClean(c, added, removed).nextConn == c.nextConn
  {
    RemoveSNsEmpties(c, removed);
    UpdateNextConn(c, removed);
    var c1, c' := RemoveSNs(c, removed), UpdateClean(c, added, removed);
    forall k: Key ensures Range(c', k) == [] || Range(c', k) == Range(c, k) {
      assert Range(c', k) == Range(c1, k);
    }
    ShrinksLogged(c, c', log);
  }

  lemma NextLogged(b: Book, s: Step, log: Log)
    requires LogInv(b, log) && Enabled(b, s)
    ensures LogInv(Next(b, s), LogStep(b, s, log))
  {
    NextInv(b, s);
    StepLogged(b, s, log);
  }

  lemma StepLogged(b: Book, s: Step, log: Log)
    requires LogInv(b, log) && Enabled(b, s)
    ensures EntriesLogged(Next(b, s).conns, LogStep(b, s, log))
    ensures LogFresh(LogStep(b, s, log), Next(b, s).conns.nextConn, Next(b, s).reserved)
  {
    match s
    case ConnectStep(r) =>
      ConnectLogged(b.conns, r, log);
      ConnectFresh(b.conns, r, log, b.reserved);
    case SendToSN(r, results, t) => SendLogged(b, r, results, log);
    case SendToRemote(_, _) =>
    case NewId => SamePeersLogged(b.conns, Reserve(b.conns), log);
    case OpenRemoteStep(id, ok, now, _) => if ok { OpenRemoteLogged(b.conns, id, now, log); }
    case FromSN(pk, connId, route, place) => NoteLogged(b.conns, pk, connId, route, place, log);
    case Received(connId, i, at) => ActivityLogged(b.conns, connId, i, at, log);
    case Message(connId, incoming, parts) => MessageLogged(b, connId, incoming, parts, log);
    case DisconnectStep(key) => DisconnectLogged(b.conns, key, log);
    case CleanupStep(keys, idleNow, now) => CleanupLogged(b, keys, idleNow, now, log);
    case UpdateSNs(added, removed) => UpdateLogged(b.conns, added, removed, log);
  }

  lemma NoteLogged(c: Conns, pk: Pubkey, connId: int, route: string, place: nat, log: Log)
    requires EntriesLogged(c, log) && route != ""
    ensures EntriesLogged(NoteIncoming(c, pk, connId, route, place), log)
  {
    InsertedAt(Range(c, SN(pk)), place, Peer(connId, route, 0, 0));
    IncomingChanged(c, NoteIncoming(c, pk, connId, route, place), pk, log);
  }

  lemma MessageLogged(b: Book, connId: int, incoming: bool, parts: seq<string>, log: Log)
    requires EntriesLogged(b.conns, log)
    ensures var b' := HandleBuiltin(b, connId, incoming, parts);
      EntriesLogged(b'.conns, log) && b'.conns.nextConn == b.conns.nextConn && b'.reserved == b.reserved
  {
    MessageKeepsPeers(b, connId, incoming, parts);
    SamePeersLogged(b.conns, HandleBuiltin(b, connId, incoming, parts).conns, log);
  }

  lemma MessageKeepsPeers(b: Book, connId: int, incoming: bool, parts: seq<string>)
    ensures var b' := HandleBuiltin(b, connId, incoming, parts);
      b'.conns.peers == b.conns.peers && b'.conns.nextConn == b.conns.nextConn && b'.reserved == b.reserved
  {
    EffectKeepsPeers(b, connId, MessageEffect(incoming, parts));
  }

  lemma EffectKeepsPeers(b: Book, connId: int, effect: Effect)
    ensures var b' := Apply(b, connId, effect);
      b'.conns.peers == b.conns.peers && b'.conns.nextConn == b.conns.nextConn && b'.reserved == b.reserved
  {
  }

  lemma {:induction false} RunLogged(b: Book, run: seq<Step>, log: Log)
    requires LogInv(b, log) && IsRun(b, run)
    ensures LogInv(After(b, run), LogOf(b, run, log))
    decreases |run|
  {
    if run != [] {
      NextLogged(b, run[0], log);
      RunLogged(Next(b, run[0]), run[1..], LogStep(b, run[0], log));
    }
  }

  // ----- theorems -----

  /** After any run, each outgoing entry shows when its connection was last used, and the largest
      keep-alive time asked for. */
  lemma EntriesShowUsage(active: set<Pubkey>, listeners: set<int>, nextConn: int, run: seq<Step>, k: Key, p: Peer)
    requires IsRun(Empty(active, listeners, nextConn), run)
    requires p in Range(After(Empty(active, listeners, nextConn), run).conns, k) && IsOutgoing(p)
    ensures var log := LogOf(Empty(active, listeners, nextConn), run, map[]);
      p.connId in log && log[p.connId] == Usage(k, p.lastActivity, p.idleExpiry)
  {
    var b := Empty(active, listeners, nextConn);
    RunLogged(b, run, map[]);
    assert Logged(LogOf(b, run, map[]), k, p);
  }

  /** So a cleanup that looks at its key keeps the entry of an outgoing connection to a service node
      exactly if at most that time has passed since it was last used. */
  lemma KeptIffUsed(active: set<Pubkey>, listeners: set<int>, nextConn: int, run: seq<Step>, pk: Pubkey, p: Peer,
                    keys: seq<Key>, idleNow: int, now: int)
    requires IsRun(Empty(active, listeners, nextConn), run)
    requires p in Range(After(Empty(active, listeners, nextConn), run).conns, SN(pk)) && IsOutgoing(p)
    requires SN(pk) in keys && forall i, j | 0 <= i < j < |keys| :: keys[i] != keys[j]
    ensures var b := After(Empty(active, listeners, nextConn), run);
      var log := LogOf(Empty(active, listeners, nextConn), run, map[]);
      && p.connId in log
      && (p in Range(Cleanup(b, keys, idleNow, now).conns, SN(pk))
          <==> idleNow <= log[p.connId].last + log[p.connId].keep)
  {
    EntriesShowUsage(active, listeners, nextConn, run, SN(pk), p);
    var b := After(Empty(active, listeners, nextConn), run);
    ExpireIdleKeeps(b.conns, keys, idleNow, SN(pk));
    NotIdleKeeps(Range(b.conns, SN(pk)), idleNow, p);
    TimeOutShrinks(b.(conns := ExpireIdle(b.conns, keys, idleNow)), 0, now);
  }

  /** In particular a connection that a connect or a send got at time `t`, asking for it to be kept for
      `k`, is still listed after a cleanup at any time up to `t + k`. */
  lemma KeptAlive(c: Conns, r: Request, keys: seq<Key>, now: int)
    requires Connect(c, r).link.Link? && Connect(c, r).link.route == "" && now <= r.now + r.keepAlive
    requires forall i, j | 0 <= i < j < |keys| :: keys[i] != keys[j]
    ensures exists p :: p in Range(ExpireIdle(Connect(c, r).conns, keys, now), SN(r.pk))
                        && p.connId == Connect(c, r).link.connId && IsOutgoing(p)
  {
    var c', range, i := Connect(c, r).conns, Range(c, SN(r.pk)), FirstUsable(Range(c, SN(r.pk)), r.options);
    var p := if i < |range| then Touch(range[i], r.keepAlive, r.now) else Peer(c.nextConn, "", r.now, r.keepAlive);
    if i < |range| {
      assert Range(c', SN(r.pk))[i] == p;
    } else {
      InsertedAt(range, r.at, p);
    }
    ExpireIdleKeeps(c', keys, now, SN(r.pk));
    NotIdleKeeps(Range(c', SN(r.pk)), now, p);
  }
}
