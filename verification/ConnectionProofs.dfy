/** Every operation keeps the connection tables consistent. */
module ConnectionProofs {
  import opened Sequences
  import opened Connections

  /** Replacing the entries of one key is harmless if it keeps every indexed connection of that key
      listed and introduces no second outgoing entry. */
  lemma ReplaceRange(c: Conns, k: Key, range: seq<Peer>)
    requires TablesInv(c) && (k.SN? ==> AtMostOneOutgoing(range))
    requires forall id | id in c.outgoing && SN(c.outgoing[id]) == k ::
      exists i | 0 <= i < |range| :: IsOutgoing(range[i]) && range[i].connId == id
    ensures TablesInv(SetRange(c, k, range))
  {
    var c' := SetRange(c, k, range);
    forall id | id in c'.outgoing ensures id in c'.connections && id < c'.nextConn && Listed(c', id, c'.outgoing[id]) {
      assert Listed(c, id, c.outgoing[id]);
      if SN(c.outgoing[id]) != k {
        assert Range(c', SN(c.outgoing[id])) == Range(c, SN(c.outgoing[id]));
      } else {
        assert Range(c', k) == range;
      }
    }
    forall pk: Pubkey ensures AtMostOneOutgoing(Range(c', SN(pk))) {
      if SN(pk) != k { assert Range(c', SN(pk)) == Range(c, SN(pk)); }
    }
  }

  lemma CloseInv(c: Conns, id: int)
    requires TablesInv(c)
    ensures TablesInv(Close(c, id)) && id !in Close(c, id).outgoing && Close(c, id).peers == c.peers
  {
    var c' := Close(c, id);
    assert forall k :: Range(c', k) == Range(c, k);
    assert id in c.outgoing ==> id in c.connections;
    forall i | i in c'.outgoing ensures i in c'.connections && i < c'.nextConn && Listed(c', i, c'.outgoing[i]) {
      assert Listed(c, i, c.outgoing[i]);
    }
  }

  /** Entry `i` may go if it is incoming, or if its connection is no longer indexed. */
  lemma DropEntry(c: Conns, k: Key, i: nat)
    requires TablesInv(c) && i < |Range(c, k)|
    requires IsOutgoing(Range(c, k)[i]) ==> Range(c, k)[i].connId !in c.outgoing
    ensures TablesInv(SetRange(c, k, Without(Range(c, k), i)))
  {
    var range := Range(c, k);
    var range' := Without(range, i);
    assert forall j | 0 <= j < |range'| :: range'[j] == range[if j < i then j else j + 1];
    if k.SN? { assert AtMostOneOutgoing(range); }
    forall id | id in c.outgoing && SN(c.outgoing[id]) == k
      ensures exists j | 0 <= j < |range'| :: IsOutgoing(range'[j]) && range'[j].connId == id
    {
      assert Listed(c, id, c.outgoing[id]);
      var j :| 0 <= j < |range| && IsOutgoing(range[j]) && range[j].connId == id;
      assert range'[if j < i then j else j - 1] == range[j];
    }
    ReplaceRange(c, k, range');
  }

  /** Close an outgoing entry's connection, then drop the entry. */
  lemma CloseAndDrop(c: Conns, k: Key, i: nat)
    requires TablesInv(c) && i < |Range(c, k)|
    ensures TablesInv(SetRange(Close(c, Range(c, k)[i].connId), k, Without(Range(c, k), i)))
  {
    CloseInv(c, Range(c, k)[i].connId);
    assert Range(Close(c, Range(c, k)[i].connId), k) == Range(c, k);
    DropEntry(Close(c, Range(c, k)[i].connId), k, i);
  }

  // ----- operations -----

  /** The same connections, in the same order. */
  predicate SameIds(range: seq<Peer>, range': seq<Peer>) {
    && |range'| == |range|
    && (forall j | 0 <= j < |range| :: range'[j].connId == range[j].connId && range'[j].route == range[j].route)
  }

  lemma SameIdsInv(c: Conns, k: Key, range: seq<Peer>)
    requires TablesInv(c) && SameIds(Range(c, k), range)
    ensures TablesInv(SetRange(c, k, range))
  {
    var before := Range(c, k);
    if k.SN? { assert AtMostOneOutgoing(Range(c, SN(k.pk))); }
    forall id | id in c.outgoing && SN(c.outgoing[id]) == k
      ensures exists j | 0 <= j < |range| :: IsOutgoing(range[j]) && range[j].connId == id
    {
      assert Listed(c, id, c.outgoing[id]);
      var j :| 0 <= j < |before| && IsOutgoing(before[j]) && before[j].connId == id;
      assert IsOutgoing(range[j]);
    }
    ReplaceRange(c, k, range);
  }

  lemma NoteActivityIds(c: Conns, connId: int, i: nat, now: int)
    ensures forall k :: SameIds(Range(c, k), Range(NoteActivity(c, connId, i, now), k))
  {
  }

  lemma NoteActivityInv(c: Conns, connId: int, i: nat, now: int)
    requires TablesInv(c)
    ensures TablesInv(NoteActivity(c, connId, i, now))
  {
    NoteActivityIds(c, connId, i, now);
    var k := KeyOf(c, connId);
    if i < |Range(c, k)| { SameIdsInv(c, k, Range(NoteActivity(c, connId, i, now), k)); }
  }

  lemma ReuseInv(c: Conns, pk: Pubkey, i: nat, keepAlive: int, now: int)
    requires TablesInv(c) && i < |Range(c, SN(pk))|
    ensures var range := Range(c, SN(pk));
      TablesInv(SetRange(c, SN(pk), range[i := Touch(range[i], keepAlive, now)])
                .(connections := c.connections + {range[i].connId}))
  {
    var range := Range(c, SN(pk));
    var range' := range[i := Touch(range[i], keepAlive, now)];
    SameIdsInv(c, SN(pk), range');
    MoreConnections(SetRange(c, SN(pk), range'), c.connections + {range[i].connId});
  }

  lemma MoreConnections(c: Conns, connections: set<int>)
    requires TablesInv(c) && c.connections <= connections
    ensures TablesInv(c.(connections := connections))
  {
    var c' := c.(connections := connections);
    assert forall k :: Range(c', k) == Range(c, k);
    forall id | id in c'.outgoing ensures Listed(c', id, c'.outgoing[id]) {
      assert Listed(c, id, c.outgoing[id]);
    }
  }

  lemma InsertedAt<T>(xs: seq<T>, at: nat, x: T)
    ensures |Inserted(xs, at, x)| == |xs| + 1 && x in Inserted(xs, at, x)
    ensures forall j | 0 <= j < |xs| :: xs[j] in Inserted(xs, at, x)
    ensures forall y | y in Inserted(xs, at, x) :: y == x || y in xs
  {
    var ys := Inserted(xs, at, x);
    assert ys[if at <= |xs| then at else |xs|] == x;
    forall j | 0 <= j < |xs| ensures xs[j] in ys {
      assert ys[if at <= |xs| && j >= at then j + 1 else j] == xs[j];
    }
  }

  lemma InsertOneOutgoing(range: seq<Peer>, at: nat, p: Peer)
    requires AtMostOneOutgoing(range) && (IsOutgoing(p) ==> forall i | 0 <= i < |range| :: !IsOutgoing(range[i]))
    ensures AtMostOneOutgoing(Inserted(range, at, p))
  {
    var n := if at <= |range| then at else |range|;
    var ys := Inserted(range, at, p);
    assert forall j | 0 <= j < |ys| :: ys[j] == if j < n then range[j] else if j == n then p else range[j - 1];
  }

  /** A new incoming entry. */
  lemma InsertIncoming(c: Conns, pk: Pubkey, at: nat, p: Peer)
    requires TablesInv(c) && !IsOutgoing(p)
    ensures TablesInv(SetRange(c, SN(pk), Inserted(Range(c, SN(pk)), at, p)))
  {
    var range := Range(c, SN(pk));
    InsertedAt(range, at, p);
    assert AtMostOneOutgoing(range);
    InsertOneOutgoing(range, at, p);
    forall id | id in c.outgoing && SN(c.outgoing[id]) == SN(pk)
      ensures exists j | 0 <= j < |Inserted(range, at, p)| ::
        IsOutgoing(Inserted(range, at, p)[j]) && Inserted(range, at, p)[j].connId == id
    {
      assert Listed(c, id, c.outgoing[id]);
      var j :| 0 <= j < |range| && IsOutgoing(range[j]) && range[j].connId == id;
      assert range[j] in Inserted(range, at, p);
    }
    ReplaceRange(c, SN(pk), Inserted(range, at, p));
  }

  /** A new outgoing entry, opened and indexed, where there was none. */
  lemma InsertOutgoing(c: Conns, pk: Pubkey, at: nat, now: int, keepAlive: int)
    requires TablesInv(c) && forall i | 0 <= i < |Range(c, SN(pk))| :: !IsOutgoing(Range(c, SN(pk))[i])
    ensures var id := c.nextConn;
      TablesInv(SetRange(c, SN(pk), Inserted(Range(c, SN(pk)), at, Peer(id, "", now, keepAlive)))
                  .(connections := c.connections + {id}, outgoing := c.outgoing[id := pk], nextConn := id + 1))
  {
    var id, range := c.nextConn, Range(c, SN(pk));
    var p := Peer(id, "", now, keepAlive);
    var range' := Inserted(range, at, p);
    InsertedAt(range, at, p);
    assert AtMostOneOutgoing(range);
    InsertOneOutgoing(range, at, p);
    var c' := SetRange(c, SN(pk), range')
              .(connections := c.connections + {id}, outgoing := c.outgoing[id := pk], nextConn := id + 1);
    assert Range(c', SN(pk)) == range';
    assert forall k | k != SN(pk) :: Range(c', k) == Range(c, k);
    forall i | i in c'.outgoing ensures i in c'.connections && i < c'.nextConn && Listed(c', i, c'.outgoing[i]) {
      if i == id {
        var j :| 0 <= j < |range'| && range'[j] == p;
      } else {
        assert Listed(c, i, c.outgoing[i]);
      }
    }
  }

  lemma ConnectSNInv(c: Conns, pk: Pubkey, o: Options, reachable: bool, keepAlive: int, now: int, at: nat)
    requires TablesInv(c)
    ensures TablesInv(ConnectSN(c, pk, o, reachable, keepAlive, now, at).conns)
  {
    var range := Range(c, SN(pk));
    var i := FirstUsable(range, o);
    if i < |range| {
      ReuseInv(c, pk, i, keepAlive, now);
    } else if !(o.optional || o.incomingOnly || !reachable) {
      assert forall k | 0 <= k < |range| :: !Usable(range[k], o);
      InsertOutgoing(c, pk, at, now, keepAlive);
    }
  }

  lemma OpenRemoteInv(c: Conns, id: int, now: int)
    requires TablesInv(c)
    ensures TablesInv(OpenRemote(c, id, now))
  {
    var range := Range(c, Remote(id)) + [Peer(id, "", now, FOREVER)];
    ReplaceRange(c, Remote(id), range);
    MoreConnections(SetRange(c, Remote(id), range), c.connections + {id});
  }

  lemma NoteIncomingInv(c: Conns, pk: Pubkey, connId: int, route: string, at: nat)
    requires TablesInv(c) && route != ""
    ensures TablesInv(NoteIncoming(c, pk, connId, route, at))
  {
    InsertIncoming(c, pk, at, Peer(connId, route, 0, 0));
  }

  lemma DisconnectInv(c: Conns, k: Key)
    requires TablesInv(c)
    ensures TablesInv(Disconnect(c, k))
  {
    var i := FirstOutgoing(Range(c, k));
    if i < |Range(c, k)| { CloseAndDrop(c, k, i); }
  }

  lemma {:induction false} ExpireRangeInv(c: Conns, k: Key, i: nat, now: int)
    requires TablesInv(c)
    ensures TablesInv(ExpireRange(c, k, i, now))
    decreases |Range(c, k)| - i
  {
    var range := Range(c, k);
    if i < |range| {
      if IsIdle(range[i], now) {
        CloseAndDrop(c, k, i);
        ExpireRangeInv(SetRange(Close(c, range[i].connId), k, Without(range, i)), k, i, now);
      } else {
        ExpireRangeInv(c, k, i + 1, now);
      }
    }
  }

  lemma {:induction false} ExpireIdleInv(c: Conns, keys: seq<Key>, now: int)
    requires TablesInv(c)
    ensures TablesInv(ExpireIdle(c, keys, now))
    decreases |keys|
  {
    if keys != [] {
      ExpireRangeInv(c, keys[0], 0, now);
      ExpireIdleInv(ExpireRange(c, keys[0], 0, now), keys[1..], now);
    }
  }

  lemma AbandonInv(c: Conns, id: int)
    requires TablesInv(c)
    ensures TablesInv(Abandon(c, id))
  {
    CloseInv(c, id);
    ReplaceRange(Close(c, id), Remote(id), []);
  }

  lemma {:induction false} RemoveEntriesInv(c: Conns, pk: Pubkey)
    requires TablesInv(c)
    ensures TablesInv(RemoveEntries(c, pk))
    decreases |Range(c, SN(pk))|
  {
    var range := Range(c, SN(pk));
    if range != [] {
      var c' := SetRange(c, SN(pk), range[1..]);
      assert Without(range, 0) == range[1..];
      if IsOutgoing(range[0]) {
        CloseAndDrop(c, SN(pk), 0);
        assert SetRange(Close(c, range[0].connId), SN(pk), range[1..]) == Close(c', range[0].connId);
        RemoveEntriesInv(Close(c', range[0].connId), pk);
      } else {
        DropEntry(c, SN(pk), 0);
        RemoveEntriesInv(c', pk);
      }
    }
  }

  lemma ActiveInv(c: Conns, active: set<Pubkey>)
    requires TablesInv(c)
    ensures TablesInv(c.(active := active))
  {
    var c' := c.(active := active);
    assert forall k :: Range(c', k) == Range(c, k);
    forall id | id in c'.outgoing ensures Listed(c', id, c'.outgoing[id]) {
      assert Listed(c, id, c.outgoing[id]);
    }
  }

  lemma {:induction false} RemoveSNsInv(c: Conns, removed: seq<Pubkey>)
    requires TablesInv(c)
    ensures TablesInv(RemoveSNs(c, removed))
    decreases |removed|
  {
    if removed != [] {
      ActiveInv(c, c.active - {removed[0]});
      RemoveEntriesInv(c.(active := c.active - {removed[0]}), removed[0]);
      RemoveSNsInv(RemoveSN(c, removed[0]), removed[1..]);
    }
  }

  lemma UpdateCleanInv(c: Conns, added: set<Pubkey>, removed: seq<Pubkey>)
    requires TablesInv(c)
    ensures TablesInv(UpdateClean(c, added, removed))
  {
    RemoveSNsInv(c, removed);
    ActiveInv(RemoveSNs(c, removed), RemoveSNs(c, removed).active + added);
  }

  // ----- what the removing operations leave -----

  function NotIdle(range: seq<Peer>, now: int): seq<Peer> {
    if range == [] then []
    else (if IsIdle(range[0], now) then [] else [range[0]]) + NotIdle(range[1..], now)
  }

  /** Expiry removes exactly the idle outgoing entries and keeps the order of the others. */
  lemma {:induction false} ExpireRangeKeeps(c: Conns, k: Key, i: nat, now: int)
    requires i <= |Range(c, k)|
    ensures Range(ExpireRange(c, k, i, now), k) == Range(c, k)[..i] + NotIdle(Range(c, k)[i..], now)
    decreases |Range(c, k)| - i
  {
    var range := Range(c, k);
    if i == |range| {
      assert range[..i] + [] == range;
    } else if IsIdle(range[i], now) {
      var c', rest := SetRange(Close(c, range[i].connId), k, Without(range, i)), Without(range, i);
      assert Range(c', k) == rest && rest[..i] == range[..i] && rest[i..] == range[i..][1..];
      ExpireRangeKeeps(c', k, i, now);
      assert NotIdle(range[i..], now) == NotIdle(rest[i..], now);
    } else {
      assert range[..i + 1] == range[..i] + [range[i]] && range[i + 1..] == range[i..][1..];
      ExpireRangeKeeps(c, k, i + 1, now);
      assert NotIdle(range[i..], now) == [range[i]] + NotIdle(range[i + 1..], now);
    }
  }

  lemma {:induction false} ExpireRangeOthers(c: Conns, k: Key, i: nat, now: int, k': Key)
    requires k' != k
    ensures Range(ExpireRange(c, k, i, now), k') == Range(c, k')
    decreases |Range(c, k)| - i
  {
    var range := Range(c, k);
    if i < |range| {
      if IsIdle(range[i], now) {
        ExpireRangeOthers(SetRange(Close(c, range[i].connId), k, Without(range, i)), k, i, now, k');
      } else {
        ExpireRangeOthers(c, k, i + 1, now, k');
      }
    }
  }

  lemma {:induction false} ExpireIdleKeeps(c: Conns, keys: seq<Key>, now: int, k: Key)
    requires forall i, j | 0 <= i < j < |keys| :: keys[i] != keys[j]
    ensures Range(ExpireIdle(c, keys, now), k) == if k in keys then NotIdle(Range(c, k), now) else Range(c, k)
    decreases |keys|
  {
    if keys != [] {
      var range := Range(c, keys[0]);
      ExpireRangeKeeps(c, keys[0], 0, now);
      assert range[..0] + NotIdle(range[0..], now) == NotIdle(range, now) && range[0..] == range;
      if k != keys[0] { ExpireRangeOthers(c, keys[0], 0, now, k); }
      assert keys == [keys[0]] + keys[1..];
      ExpireIdleKeeps(ExpireRange(c, keys[0], 0, now), keys[1..], now, k);
    }
  }

  lemma {:induction false} NotIdleKeeps(range: seq<Peer>, now: int, p: Peer)
    ensures p in NotIdle(range, now) <==> p in range && !IsIdle(p, now)
  {
    if range != [] {
      assert range == [range[0]] + range[1..];
      NotIdleKeeps(range[1..], now, p);
    }
  }

  lemma {:induction false} ExpireRangeActive(c: Conns, k: Key, i: nat, now: int)
    ensures ExpireRange(c, k, i, now).active == c.active && ExpireRange(c, k, i, now).nextConn == c.nextConn
    decreases |Range(c, k)| - i
  {
    var range := Range(c, k);
    if i < |range| {
      if IsIdle(range[i], now) {
        ExpireRangeActive(SetRange(Close(c, range[i].connId), k, Without(range, i)), k, i, now);
      } else {
        ExpireRangeActive(c, k, i + 1, now);
      }
    }
  }

  lemma {:induction false} ExpireIdleActive(c: Conns, keys: seq<Key>, now: int)
    ensures ExpireIdle(c, keys, now).active == c.active && ExpireIdle(c, keys, now).nextConn == c.nextConn
    decreases |keys|
  {
    if keys != [] {
      ExpireRangeActive(c, keys[0], 0, now);
      ExpireIdleActive(ExpireRange(c, keys[0], 0, now), keys[1..], now);
    }
  }

  lemma {:induction false} RemoveEntriesEmpties(c: Conns, pk: Pubkey)
    ensures Range(RemoveEntries(c, pk), SN(pk)) == [] && RemoveEntries(c, pk).active == c.active
    ensures forall k | k != SN(pk) :: Range(RemoveEntries(c, pk), k) == Range(c, k)
    decreases |Range(c, SN(pk))|
  {
    var range := Range(c, SN(pk));
    if range != [] {
      var c' := SetRange(c, SN(pk), range[1..]);
      RemoveEntriesEmpties(if IsOutgoing(range[0]) then Close(c', range[0].connId) else c', pk);
    }
  }

  /** No entry survives for a removed service node; no other entry is touched. */
  lemma {:induction false} RemoveSNsEmpties(c: Conns, removed: seq<Pubkey>)
    ensures RemoveSNs(c, removed).active == c.active - (set pk | pk in removed)
    ensures forall pk | pk in removed :: Range(RemoveSNs(c, removed), SN(pk)) == []
    ensures forall k: Key | !(k.SN? && k.pk in removed) :: Range(RemoveSNs(c, removed), k) == Range(c, k)
    decreases |removed|
  {
    if removed != [] {
      RemoveEntriesEmpties(c.(active := c.active - {removed[0]}), removed[0]);
      RemoveSNsEmpties(RemoveSN(c, removed[0]), removed[1..]);
      assert removed == [removed[0]] + removed[1..];
    }
  }
}
