/** Is each outgoing entry of a service node open and indexed?  Only a BYE on such a connection breaks
    this: it closes the connection and leaves the entry. */
module OpenEntries {
  import opened Sequences
  import opened Connections
  import opened ConnectionProofs
  import opened SendRetry
  import opened Outcomes
  import opened OutcomeProofs

  predicate IndexedUnder(c: Conns, pk: Pubkey, p: Peer) {
    IsOutgoing(p) ==> p.connId in c.outgoing && c.outgoing[p.connId] == pk
  }

  ghost predicate EntriesIndexed(c: Conns) {
    forall pk: Pubkey, i | 0 <= i < |Range(c, SN(pk))| :: IndexedUnder(c, pk, Range(c, SN(pk))[i])
  }

  /** Entries of other remotes carry the number that was given to their caller. */
  ghost predicate RemotesInv(c: Conns, used: set<int>) {
    forall id: int, i | 0 <= i < |Range(c, Remote(id))| :: Range(c, Remote(id))[i].connId == id && id in used
  }

  // ----- changing the tables -----

  lemma SameIndex(c: Conns, c': Conns, k: Key)
    requires EntriesIndexed(c) && c'.outgoing == c.outgoing
    requires forall k' | k' != k :: Range(c', k') == Range(c, k')
    requires k.SN? ==> forall p | p in Range(c', k) && IsOutgoing(p) ::
      exists q :: q in Range(c, k) && IsOutgoing(q) && q.connId == p.connId
    ensures EntriesIndexed(c')
  {
    forall pk: Pubkey, i | 0 <= i < |Range(c', SN(pk))| ensures IndexedUnder(c', pk, Range(c', SN(pk))[i]) {
      var p := Range(c', SN(pk))[i];
      if SN(pk) != k {
        assert IndexedUnder(c, pk, Range(c, SN(pk))[i]);
      } else if IsOutgoing(p) {
        assert p in Range(c', k);
        var q :| q in Range(c, k) && IsOutgoing(q) && q.connId == p.connId;
        var j :| 0 <= j < |Range(c, k)| && Range(c, k)[j] == q;
        assert IndexedUnder(c, pk, Range(c, SN(pk))[j]);
      }
    }
  }

  lemma WithoutIn<T>(xs: seq<T>, i: nat)
    requires i < |xs|
    ensures forall x | x in Without(xs, i) :: x in xs
  {
  }

  /** Closing the connection of an outgoing entry and dropping the entry. */
  lemma CloseDropIndexed(c: Conns, k: Key, i: nat)
    requires TablesInv(c) && EntriesIndexed(c) && i < |Range(c, k)| && IsOutgoing(Range(c, k)[i])
    requires k.Remote? ==> Range(c, k)[i].connId !in c.outgoing
    ensures EntriesIndexed(SetRange(Close(c, Range(c, k)[i].connId), k, Without(Range(c, k), i)))
  {
    var range, id := Range(c, k), Range(c, k)[i].connId;
    var c' := SetRange(Close(c, id), k, Without(range, i));
    if k.SN? { assert IndexedUnder(c, k.pk, Range(c, SN(k.pk))[i]); }
    forall pk: Pubkey, j | 0 <= j < |Range(c', SN(pk))| ensures IndexedUnder(c', pk, Range(c', SN(pk))[j]) {
      if SN(pk) == k {
        var j' := if j < i then j else j + 1;
        assert Range(c', k)[j] == range[j'] && AtMostOneOutgoing(Range(c, SN(pk)));
      } else {
        assert Range(c', SN(pk)) == Range(c, SN(pk));
        assert IndexedUnder(c, pk, Range(c, SN(pk))[j]);
      }
    }
  }

  /** Closing alone breaks it exactly for the connection of a service node. */
  lemma CloseIndexedIff(c: Conns, id: int)
    requires TablesInv(c) && EntriesIndexed(c)
    ensures EntriesIndexed(Close(c, id)) <==> id !in c.outgoing
  {
    var c' := Close(c, id);
    if id in c.outgoing {
      var pk := c.outgoing[id];
      assert Listed(c, id, pk);
      var i :| 0 <= i < |Range(c, SN(pk))| && IsOutgoing(Range(c, SN(pk))[i]) && Range(c, SN(pk))[i].connId == id;
      assert !IndexedUnder(c', pk, Range(c', SN(pk))[i]);
    } else {
      assert c'.outgoing == c.outgoing;
      SameIndex(c, c', Remote(0));
    }
  }

  lemma ConnectIndexed(c: Conns, r: Request)
    requires TablesInv(c) && EntriesIndexed(c)
    ensures EntriesIndexed(Connect(c, r).conns)
  {
    var range, i, c' := Range(c, SN(r.pk)), FirstUsable(Range(c, SN(r.pk)), r.options), Connect(c, r).conns;
    if i < |range| {
      var touched := range[i := Touch(range[i], r.keepAlive, r.now)];
      forall p | p in touched && IsOutgoing(p) ensures exists q :: q in range && IsOutgoing(q) && q.connId == p.connId {
        var j :| 0 <= j < |touched| && touched[j] == p;
        assert range[j] in range && range[j].connId == p.connId;
      }
      SameIndex(c, c', SN(r.pk));
    } else if Connect(c, r).link.Link? {
      OpenIndexed(c, r);
    }
  }

  lemma OpenIndexed(c: Conns, r: Request)
    requires TablesInv(c) && EntriesIndexed(c) && FirstUsable(Range(c, SN(r.pk)), r.options) == |Range(c, SN(r.pk))|
    requires Connect(c, r).link.Link?
    ensures EntriesIndexed(Connect(c, r).conns)
  {
    var range, p, c' := Range(c, SN(r.pk)), Peer(c.nextConn, "", r.now, r.keepAlive), Connect(c, r).conns;
    InsertedAt(range, r.at, p);
    forall pk: Pubkey, i | 0 <= i < |Range(c', SN(pk))| ensures IndexedUnder(c', pk, Range(c', SN(pk))[i]) {
      var q := Range(c', SN(pk))[i];
      if q != p || pk != r.pk {
        assert q in Range(c, SN(pk));
        var j :| 0 <= j < |Range(c, SN(pk))| && Range(c, SN(pk))[j] == q;
        assert IndexedUnder(c, pk, Range(c, SN(pk))[j]);
      }
    }
  }

  lemma NoteIndexed(c: Conns, pk: Pubkey, connId: int, route: string, at: nat)
    requires EntriesIndexed(c) && route != ""
    ensures EntriesIndexed(NoteIncoming(c, pk, connId, route, at))
  {
    InsertedAt(Range(c, SN(pk)), at, Peer(connId, route, 0, 0));
    SameIndex(c, NoteIncoming(c, pk, connId, route, at), SN(pk));
  }

  // ----- dropping entries -----

  /** The tables agree, and no connection to another remote is indexed. */
  ghost predicate Sound(c: Conns, used: set<int>) {
    && TablesInv(c) && EntriesIndexed(c) && RemotesInv(c, used)
    && (forall id | id in c.outgoing :: id !in used)
  }

  lemma RemotesKept(c: Conns, c': Conns, used: set<int>)
    requires RemotesInv(c, used)
    requires forall id: int, p | p in Range(c', Remote(id)) :: p in Range(c, Remote(id))
    ensures RemotesInv(c', used)
  {
    forall id: int, i | 0 <= i < |Range(c', Remote(id))|
      ensures Range(c', Remote(id))[i].connId == id && id in used
    {
      var p := Range(c', Remote(id))[i];
      assert p in Range(c, Remote(id));
      var j :| 0 <= j < |Range(c, Remote(id))| && Range(c, Remote(id))[j] == p;
    }
  }

  lemma CloseDropSound(c: Conns, used: set<int>, k: Key, i: nat)
    requires Sound(c, used) && i < |Range(c, k)| && IsOutgoing(Range(c, k)[i])
    ensures Sound(SetRange(Close(c, Range(c, k)[i].connId), k, Without(Range(c, k), i)), used)
  {
    var c' := SetRange(Close(c, Range(c, k)[i].connId), k, Without(Range(c, k), i));
    if k.Remote? { assert Range(c, Remote(k.id))[i].connId == k.id && k.id in used; }
    CloseDropIndexed(c, k, i);
    CloseAndDrop(c, k, i);
    WithoutIn(Range(c, k), i);
    RemotesKept(c, c', used);
  }

  lemma ActivitySound(c: Conns, used: set<int>, connId: int, i: nat, now: int)
    requires Sound(c, used)
    ensures Sound(NoteActivity(c, connId, i, now), used)
  {
    var c' := NoteActivity(c, connId, i, now);
    NoteActivityInv(c, connId, i, now);
    NoteActivityIds(c, connId, i, now);
    forall pk: Pubkey, j | 0 <= j < |Range(c', SN(pk))| ensures IndexedUnder(c', pk, Range(c', SN(pk))[j]) {
      assert SameIds(Range(c, SN(pk)), Range(c', SN(pk))) && IndexedUnder(c, pk, Range(c, SN(pk))[j]);
    }
    forall id: int, j | 0 <= j < |Range(c', Remote(id))| ensures Range(c', Remote(id))[j].connId == id && id in used {
      assert SameIds(Range(c, Remote(id)), Range(c', Remote(id))) && Range(c, Remote(id))[j].connId == id;
    }
  }

  lemma DisconnectSound(c: Conns, used: set<int>, k: Key)
    requires Sound(c, used)
    ensures Sound(Disconnect(c, k), used)
  {
    var i := FirstOutgoing(Range(c, k));
    if i < |Range(c, k)| { CloseDropSound(c, used, k, i); }
  }

  lemma {:induction false} ExpireRangeSound(c: Conns, used: set<int>, k: Key, i: nat, now: int)
    requires Sound(c, used)
    ensures Sound(ExpireRange(c, k, i, now), used)
    decreases |Range(c, k)| - i
  {
    var range := Range(c, k);
    if i < |range| {
      if IsIdle(range[i], now) {
        CloseDropSound(c, used, k, i);
        ExpireRangeSound(SetRange(Close(c, range[i].connId), k, Without(range, i)), used, k, i, now);
      } else {
        ExpireRangeSound(c, used, k, i + 1, now);
      }
    }
  }

  lemma {:induction false} ExpireIdleSound(c: Conns, used: set<int>, keys: seq<Key>, now: int)
    requires Sound(c, used)
    ensures Sound(ExpireIdle(c, keys, now), used)
    decreases |keys|
  {
    if keys != [] {
      ExpireRangeSound(c, used, keys[0], 0, now);
      ExpireIdleSound(ExpireRange(c, keys[0], 0, now), used, keys[1..], now);
    }
  }

  lemma AbandonSound(c: Conns, used: set<int>, id: int)
    requires Sound(c, used) && id in used
    ensures Sound(Abandon(c, id), used)
  {
    AbandonInv(c, id);
    SameIndex(c, Abandon(c, id), Remote(id));
    RemotesKept(c, Abandon(c, id), used);
  }

  lemma {:induction false} TimeOutConnectsSound(b: Book, used: set<int>, i: nat, now: int)
    requires Sound(b.conns, used) && forall k | 0 <= k < |b.connects| :: b.connects[k].id in used
    ensures Sound(TimeOutConnects(b, i, now).conns, used)
    decreases |b.connects| - i
  {
    if i < |b.connects| {
      if b.connects[i].deadline < now {
        var id := b.connects[i].id;
        AbandonSound(b.conns, used, id);
        var b' := Settled(b.(connects := Without(b.connects, i), conns := Abandon(b.conns, id)), id, false);
        forall k | 0 <= k < |b'.connects| ensures b'.connects[k].id in used {
          assert b'.connects[k] == b.connects[if k < i then k else k + 1];
        }
        TimeOutConnectsSound(b', used, i, now);
      } else {
        TimeOutConnectsSound(b, used, i + 1, now);
      }
    }
  }

  lemma ActiveSound(c: Conns, used: set<int>, active: set<Pubkey>)
    requires Sound(c, used)
    ensures Sound(c.(active := active), used)
  {
    ActiveInv(c, active);
    SameIndex(c, c.(active := active), Remote(0));
    RemotesKept(c, c.(active := active), used);
  }

  lemma DropFirstSound(c: Conns, used: set<int>, pk: Pubkey)
    requires Sound(c, used) && Range(c, SN(pk)) != []
    ensures var range, c' := Range(c, SN(pk)), SetRange(c, SN(pk), Range(c, SN(pk))[1..]);
      Sound(if IsOutgoing(range[0]) then Close(c', range[0].connId) else c', used)
  {
    var range := Range(c, SN(pk));
    assert Without(range, 0) == range[1..];
    if IsOutgoing(range[0]) {
      CloseDropSound(c, used, SN(pk), 0);
    } else {
      DropEntry(c, SN(pk), 0);
      SameIndex(c, SetRange(c, SN(pk), range[1..]), SN(pk));
      RemotesKept(c, SetRange(c, SN(pk), range[1..]), used);
    }
  }

  lemma {:induction false} RemoveEntriesSound(c: Conns, used: set<int>, pk: Pubkey)
    requires Sound(c, used)
    ensures Sound(RemoveEntries(c, pk), used)
    decreases |Range(c, SN(pk))|
  {
    var range := Range(c, SN(pk));
    if range != [] {
      var c' := SetRange(c, SN(pk), range[1..]);
      DropFirstSound(c, used, pk);
      RemoveEntriesSound(if IsOutgoing(range[0]) then Close(c', range[0].connId) else c', used, pk);
    }
  }

  lemma {:induction false} RemoveSNsSound(c: Conns, used: set<int>, removed: seq<Pubkey>)
    requires Sound(c, used)
    ensures Sound(RemoveSNs(c, removed), used)
    decreases |removed|
  {
    if removed != [] {
      ActiveSound(c, used, c.active - {removed[0]});
      RemoveEntriesSound(c.(active := c.active - {removed[0]}), used, removed[0]);
      RemoveSNsSound(RemoveSN(c, removed[0]), used, removed[1..]);
    }
  }

  lemma ConnectSound(c: Conns, used: set<int>, r: Request)
    requires Sound(c, used) && forall id | id in used :: id < c.nextConn
    ensures Sound(Connect(c, r).conns, used)
  {
    ConnectSNInv(c, r.pk, r.options, r.reachable, r.keepAlive, r.now, r.at);
    ConnectIndexed(c, r);
    RemotesKept(c, Connect(c, r).conns, used);
  }

  lemma {:induction false} SendSound(c: Conns, used: set<int>, r: Request, results: nat -> SendResult, tried: seq<Link>)
    requires Sound(c, used) && (forall id | id in used :: id < c.nextConn) && SendSN(c, r, results, tried).Ended?
    ensures Sound(SendSN(c, r, results, tried).conns, used)
    decreases CountIncoming(Range(c, SN(r.pk)))
  {
    if Retries(c, r, results, |tried|) {
      RetryInv(c, r, results, tried);
      RoutedLink(c, r);
      var c1 := Connect(c, r).conns;
      var c' := SetRange(c1, SN(r.pk), Range(c, SN(r.pk))[1..]);
      ConnectSound(c, used, r);
      SameIndex(c1, c', SN(r.pk));
      RemotesKept(c1, c', used);
      SendSound(c', used, r, results, tried + [Connect(c, r).link]);
    } else {
      LastAttempt(c, r, results, tried);
      ConnectSound(c, used, r);
    }
  }

  lemma NoteSound(c: Conns, used: set<int>, pk: Pubkey, connId: int, route: string, at: nat)
    requires Sound(c, used) && route != ""
    ensures Sound(NoteIncoming(c, pk, connId, route, at), used)
  {
    NoteIncomingInv(c, pk, connId, route, at);
    NoteIndexed(c, pk, connId, route, at);
    RemotesKept(c, NoteIncoming(c, pk, connId, route, at), used);
  }

  lemma OpenRemoteSound(c: Conns, used: set<int>, id: int, now: int)
    requires Sound(c, used) && id in used
    ensures Sound(OpenRemote(c, id, now), used)
  {
    var c' := OpenRemote(c, id, now);
    OpenRemoteInv(c, id, now);
    SameIndex(c, c', Remote(id));
    forall k: int, i | 0 <= i < |Range(c', Remote(k))| ensures Range(c', Remote(k))[i].connId == k && k in used {
      if k == id && i < |Range(c, Remote(id))| { assert Range(c', Remote(k))[i] == Range(c, Remote(id))[i]; }
      if k != id { assert Range(c', Remote(k)) == Range(c, Remote(k)); }
    }
  }

  lemma ReserveSound(c: Conns, used: set<int>)
    requires Sound(c, used) && TablesInv(Reserve(c))
    ensures Sound(Reserve(c), used + {c.nextConn})
  {
    SameIndex(c, Reserve(c), Remote(0));
    RemotesKept(c, Reserve(c), used);
  }

  // ----- every step -----

  /** BYE on the outgoing connection of a service node. */
  predicate ByeFromSN(b: Book, s: Step) {
    s.Message? && MessageEffect(s.incoming, s.parts).Hangup? && s.connId in b.conns.outgoing
  }

  function Used(b: Book): set<int> { b.reserved + b.attempted }

  ghost predicate SoundBook(b: Book) {
    Inv(b) && Sound(b.conns, Used(b))
  }

  lemma CleanupSound(b: Book, keys: seq<Key>, idleNow: int, now: int)
    requires ConnectsInv(b) && Sound(b.conns, Used(b))
    ensures Sound(Cleanup(b, keys, idleNow, now).conns, Used(b))
  {
    var b1 := b.(conns := ExpireIdle(b.conns, keys, idleNow));
    ExpireIdleSound(b.conns, Used(b), keys, idleNow);
    forall k | 0 <= k < |b1.connects| ensures b1.connects[k].id in Used(b) {
      assert Waiting(b, b.connects[k].id);
      assert b.settled[b.connects[k].id] + 1 == if b.connects[k].id in b.attempted then 1 else 0;
    }
    TimeOutConnectsSound(b1, Used(b), 0, now);
  }

  /** Whether the tables stay sound after a message. */
  lemma MessageSoundIff(b: Book, s: Step)
    requires SoundBook(b) && s.Message?
    ensures EntriesIndexed(Next(b, s).conns) <==> !ByeFromSN(b, s)
    ensures !ByeFromSN(b, s) ==> Sound(Next(b, s).conns, Used(b))
  {
    if MessageEffect(s.incoming, s.parts).Hangup? {
      CloseIndexedIff(b.conns, s.connId);
      CloseInv(b.conns, s.connId);
      RemotesKept(b.conns, Close(b.conns, s.connId), Used(b));
    }
  }

  lemma NextSound(b: Book, s: Step)
    requires SoundBook(b) && Enabled(b, s) && !s.Message?
    ensures Sound(Next(b, s).conns, Used(Next(b, s)))
  {
    match s
    case ConnectStep(r) => ConnectSound(b.conns, Used(b), r);
    case SendToSN(r, results, t) => SendSound(b.conns, Used(b), r, results, []);
    case SendToRemote(_, _) =>
    case NewId => NewIdSound(b);
    case OpenRemoteStep(id, ok, now, deadline) => OpenStepSound(b, s);
    case FromSN(pk, connId, route, at) => NoteSound(b.conns, Used(b), pk, connId, route, at);
    case Received(connId, i, at) => ActivitySound(b.conns, Used(b), connId, i, at);
    case DisconnectStep(key) => DisconnectSound(b.conns, Used(b), key);
    case CleanupStep(keys, idleNow, now) =>
      CleanupSound(b, keys, idleNow, now);
      CleanupUsed(b, keys, idleNow, now);
    case UpdateSNs(added, removed) => UpdateSound(b, added, removed);
  }

  lemma NewIdSound(b: Book)
    requires SoundBook(b)
    ensures Sound(Next(b, NewId).conns, Used(Next(b, NewId)))
  {
    NextInv(b, NewId);
    ReserveSound(b.conns, Used(b));
    assert Used(Next(b, NewId)) == Used(b) + {b.conns.nextConn};
  }

  lemma OpenStepSound(b: Book, s: Step)
    requires SoundBook(b) && Enabled(b, s) && s.OpenRemoteStep?
    ensures Sound(Next(b, s).conns, Used(Next(b, s)))
  {
    OpenRemoteSound(b.conns, Used(b), s.id, s.now);
    assert Used(Next(b, s)) == Used(b);
  }

  lemma UpdateSound(b: Book, added: set<Pubkey>, removed: seq<Pubkey>)
    requires SoundBook(b)
    ensures Sound(Next(b, UpdateSNs(added, removed)).conns, Used(b))
  {
    RemoveSNsSound(b.conns, Used(b), removed);
    ActiveSound(RemoveSNs(b.conns, removed), Used(b), RemoveSNs(b.conns, removed).active + added);
  }

  lemma CleanupUsed(b: Book, keys: seq<Key>, idleNow: int, now: int)
    ensures Used(Cleanup(b, keys, idleNow, now)) == Used(b)
  {
    TimeOutConnectsUsed(b.(conns := ExpireIdle(b.conns, keys, idleNow)), 0, now);
  }

  lemma {:induction false} TimeOutConnectsUsed(b: Book, i: nat, now: int)
    ensures TimeOutConnects(b, i, now).reserved == b.reserved && TimeOutConnects(b, i, now).attempted == b.attempted
    decreases |b.connects| - i
  {
    if i < |b.connects| {
      if b.connects[i].deadline < now {
        var id := b.connects[i].id;
        TimeOutConnectsUsed(Settled(b.(connects := Without(b.connects, i), conns := Abandon(b.conns, id)), id, false),
                            i, now);
      } else {
        TimeOutConnectsUsed(b, i + 1, now);
      }
    }
  }

  /** A step keeps every outgoing entry of a service node indexed exactly if it is no BYE from one. */
  lemma StaysIndexedIff(b: Book, s: Step)
    requires SoundBook(b) && Enabled(b, s)
    ensures EntriesIndexed(Next(b, s).conns) <==> !ByeFromSN(b, s)
    ensures !ByeFromSN(b, s) ==> SoundBook(Next(b, s))
  {
    NextInv(b, s);
    if s.Message? { MessageSoundIff(b, s); MessageUsed(b, s); } else { NextSound(b, s); }
  }

  lemma MessageUsed(b: Book, s: Step)
    requires s.Message?
    ensures Used(Next(b, s)) == Used(b)
  {
  }

  // ----- runs -----

  /** No service node says BYE during the run. */
  ghost predicate NoBye(b: Book, run: seq<Step>)
    decreases |run|
  {
    run == [] || (!ByeFromSN(b, run[0]) && NoBye(Next(b, run[0]), run[1..]))
  }

  lemma {:induction false} RunSound(b: Book, run: seq<Step>)
    requires SoundBook(b) && IsRun(b, run) && NoBye(b, run)
    ensures SoundBook(After(b, run))
    decreases |run|
  {
    if run != [] {
      StaysIndexedIff(b, run[0]);
      RunSound(Next(b, run[0]), run[1..]);
    }
  }

  lemma EmptySound(active: set<Pubkey>, listeners: set<int>, nextConn: int)
    ensures SoundBook(Empty(active, listeners, nextConn))
  {
    var b := Empty(active, listeners, nextConn);
    assert Reachable(b) by { assert IsRun(b, []) && After(b, []) == b; }
    ReachableInv(b);
    assert forall k :: Range(b.conns, k) == [];
  }

  /** Over every run in which no service node says BYE, each outgoing entry of a service node has an
      open connection, indexed under its pubkey. */
  lemma EntriesAreOpen(active: set<Pubkey>, listeners: set<int>, nextConn: int, run: seq<Step>, pk: Pubkey, i: nat)
    requires IsRun(Empty(active, listeners, nextConn), run) && NoBye(Empty(active, listeners, nextConn), run)
    requires var c := After(Empty(active, listeners, nextConn), run).conns;
      i < |Range(c, SN(pk))| && IsOutgoing(Range(c, SN(pk))[i])
    ensures var c := After(Empty(active, listeners, nextConn), run).conns;
      var id := Range(c, SN(pk))[i].connId;
      id in c.connections && id in c.outgoing && c.outgoing[id] == pk
  {
    EmptySound(active, listeners, nextConn);
    RunSound(Empty(active, listeners, nextConn), run);
    var c := After(Empty(active, listeners, nextConn), run).conns;
    assert IndexedUnder(c, pk, Range(c, SN(pk))[i]);
  }

  /** With a BYE it fails: connect to a service node, and let it say BYE. */
  lemma ByeLeavesEntry()
    ensures var b := Empty({}, {}, 1);
      var run := [ConnectStep(Request("k", Options(false, false, false), true, 0, 0, 0)), Message(1, false, ["BYE"])];
      && IsRun(b, run)
      && var c := After(b, run).conns;
         Range(c, SN("k")) == [Peer(1, "", 0, 0)] && 1 !in c.connections && 1 !in c.outgoing
  {
    var b := Empty({}, {}, 1);
    var connect := ConnectStep(Request("k", Options(false, false, false), true, 0, 0, 0));
    var bye := Message(1, false, ["BYE"]);
    var b1 := Next(b, connect);
    assert Range(b.conns, SN("k")) == [] && Range(b1.conns, SN("k")) == [Peer(1, "", 0, 0)];
    assert b1.conns.outgoing == map[1 := "k"] && b1.conns.connections == {1};
    assert MessageEffect(false, ["BYE"]) == Hangup;
    var b2 := Next(b1, bye);
    assert After(b1, [bye]) == After(b2, []) == b2 && IsRun(b2, []);
    assert [connect, bye][1..] == [bye] && [bye][1..] == [];
  }

  // ----- connecting -----

  /** The entry that `proxy_connect_sn` uses, if it does not open a connection. */
  predicate Reuses(c: Conns, r: Request, i: nat) {
    i == FirstUsable(Range(c, SN(r.pk)), r.options) < |Range(c, SN(r.pk))|
  }

  /** After such a run, a connect that gets an outgoing connection gets one with an open socket: that of
      the entry it found, indexed under the pubkey, or a new one. */
  lemma LinksAreOpen(active: set<Pubkey>, listeners: set<int>, nextConn: int, run: seq<Step>, r: Request)
    requires IsRun(Empty(active, listeners, nextConn), run) && NoBye(Empty(active, listeners, nextConn), run)
    ensures var c := After(Empty(active, listeners, nextConn), run).conns;
      var found := Connect(c, r);
      found.link.Link? && found.link.route == "" ==>
        if exists i :: Reuses(c, r, i)
        then && found.link.connId in c.outgoing && c.outgoing[found.link.connId] == r.pk
             && found.link.connId in c.connections && found.conns.connections == c.connections
        else found.link.connId == c.nextConn && found.conns.connections == c.connections + {c.nextConn}
  {
    var c := After(Empty(active, listeners, nextConn), run).conns;
    var range := Range(c, SN(r.pk));
    var i := FirstUsable(range, r.options);
    if i < |range| {
      assert Reuses(c, r, i);
      if IsOutgoing(range[i]) {
        EntriesAreOpen(active, listeners, nextConn, run, r.pk, i);
        assert c.connections + {range[i].connId} == c.connections;
      }
    }
  }

  /** With a BYE it fails: the next connect takes the entry left over, and looking up its socket, which
      is not there, creates an empty one. */
  lemma ReusesClosed()
    ensures var b := Empty({}, {}, 1);
      var r := Request("k", Options(false, false, false), true, 0, 0, 0);
      var run := [ConnectStep(r), Message(1, false, ["BYE"])];
      && IsRun(b, run)
      && var c := After(b, run).conns;
         Connect(c, r).link == Link(1, "") && 1 !in c.connections && 1 in Connect(c, r).conns.connections
  {
    ByeLeavesEntry();
    var r := Request("k", Options(false, false, false), true, 0, 0, 0);
    var c := After(Empty({}, {}, 1), [ConnectStep(r), Message(1, false, ["BYE"])]).conns;
    assert Usable(Range(c, SN("k"))[0], r.options);
  }
}
