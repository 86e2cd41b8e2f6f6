/** The proxy's connection, request and service-node tables as they are updated in place. */
module Registry {
  import opened Sequences
  import opened Connections
  import opened ConnectionProofs
  import opened SendRetry
  import opened Outcomes

  const PUBKEY_LENGTH: nat := 32

  function Valid(pubkeys: set<Pubkey>): set<Pubkey> {
    set pk | pk in pubkeys && |pk| == PUBKEY_LENGTH
  }

  // ----- facts about the loops -----

  lemma {:induction false} ExpireIdleSnoc(c: Conns, keys: seq<Key>, k: Key, now: int)
    ensures ExpireIdle(c, keys + [k], now) == ExpireRange(ExpireIdle(c, keys, now), k, 0, now)
    decreases |keys|
  {
    if keys != [] {
      assert (keys + [k])[1..] == keys[1..] + [k];
      ExpireIdleSnoc(ExpireRange(c, keys[0], 0, now), keys[1..], k, now);
    }
  }

  lemma {:induction false} RemoveSNsSnoc(c: Conns, removed: seq<Pubkey>, pk: Pubkey)
    ensures RemoveSNs(c, removed + [pk]) == RemoveSN(RemoveSNs(c, removed), pk)
    decreases |removed|
  {
    if removed != [] {
      assert (removed + [pk])[1..] == removed[1..] + [pk];
      RemoveSNsSnoc(RemoveSN(c, removed[0]), removed[1..], pk);
    }
  }

  lemma Cardinality<T>(a: set<T>, b: set<T>)
    ensures |a + b| + |a * b| == |a| + |b| && |a - b| + |a * b| == |a|
  {
    assert a == (a - b) + (a * b) && a + b == (a - b) + b;
  }

  /** Counting is enough to tell that an unchanged set was passed. */
  lemma SameSizeIsSame(active: set<Pubkey>, wanted: set<Pubkey>)
    requires wanted <= active && |active| == |wanted|
    ensures active == wanted
  {
    Cardinality(active, wanted);
    assert active * wanted == wanted && active - wanted == {};
  }

  /** Counting is enough to tell that all removed keys were found. */
  lemma AllRemovedFound(active: set<Pubkey>, wanted: set<Pubkey>, removed: set<Pubkey>)
    requires removed <= active - wanted && |active| + |wanted - active| - |removed| == |wanted|
    ensures removed == active - wanted
  {
    Cardinality(active, wanted);
    Cardinality(wanted, active);
    assert active * wanted == wanted * active;
    SameSizeIsSame(active - wanted, removed);
  }

  lemma TimeOutNone(b: Book)
    ensures TimeOut(b, {}) == b
  {
    assert b.requests - {} == b.requests && b.answered + multiset({}) == b.answered;
    assert b.answers + map[] == b.answers;
  }

  lemma OneMoreAnswer(answers: map<Tag, Answer>, late: set<Tag>, t: Tag)
    ensures answers + TimeoutAnswers(late + {t}) == (answers + TimeoutAnswers(late))[t := Answer(false, ["TIMEOUT"])]
  {
  }

  lemma OneMoreCount(late: set<Tag>, t: Tag)
    requires t !in late
    ensures multiset(late + {t}) == multiset(late) + multiset{t}
  {
  }

  lemma TimeOutOneMore(b: Book, late: set<Tag>, t: Tag)
    requires t !in late
    ensures var b' := TimeOut(b, late);
      TimeOut(b, late + {t}) == Answered(b'.(requests := b'.requests - {t}), t, Answer(false, ["TIMEOUT"]))
  {
    OneMoreAnswer(b.answers, late, t);
    OneMoreCount(late, t);
    assert b.requests - (late + {t}) == (b.requests - late) - {t};
    assert b.answered + (multiset(late) + multiset{t}) == (b.answered + multiset(late)) + multiset{t};
  }

  class Registry {
    var connections: set<int>
    var peers: map<Key, seq<Peer>>
    var outgoing: map<int, Pubkey>
    var active: set<Pubkey>
    var nextConn: int
    var requests: map<Tag, int>
    var connects: seq<Attempt>
    /** The jobs scheduled so far and the other histories of `Book`. */
    ghost var past: Book

    ghost function Tables(): Conns reads this { Conns(connections, peers, outgoing, active, nextConn) }

    ghost function View(): Book reads this { past.(conns := Tables(), requests := requests, connects := connects) }

    constructor (listeners: set<int>, sns: set<Pubkey>, next: int)
      ensures View() == Empty(sns, listeners, next)
    {
      connections, peers, outgoing, active, nextConn := listeners, map[], map[], sns, next;
      requests, connects := map[], [];
      past := Empty(sns, listeners, next);
    }

    method RangeOf(k: Key) returns (range: seq<Peer>)
      ensures range == Range(Tables(), k)
    {
      range := if k in peers then peers[k] else [];
    }

    /** `proxy_close_connection`. */
    method CloseConnection(id: int)
      modifies this
      ensures View() == old(View()).(conns := Close(old(Tables()), id))
    {
      if id in connections {
        connections := connections - {id};
        outgoing := outgoing - {id};
      }
    }

    /** The scan at the start of `proxy_connect_sn`. */
    method FindUsable(range: seq<Peer>, o: Options) returns (i: nat)
      ensures i == FirstUsable(range, o)
    {
      i := 0;
      while i < |range|
        invariant i <= |range| && forall k | 0 <= k < i :: !Usable(range[k], o)
      {
        if (!o.incomingOnly || !IsOutgoing(range[i])) && (!o.outgoingOnly || IsOutgoing(range[i])) { break; }
        i := i + 1;
      }
    }

    /** `proxy_connect_sn`. */
    method ConnectToSN(r: Request) returns (link: Link)
      modifies this
      ensures Connect(old(Tables()), r) == Connected(Tables(), link)
      ensures View() == old(View()).(conns := Tables())
    {
      var key := SN(r.pk);
      var range := RangeOf(key);
      var i := FindUsable(range, r.options);
      if i < |range| {
        if IsOutgoing(range[i]) {
          var idle := if range[i].idleExpiry < r.keepAlive then r.keepAlive else range[i].idleExpiry;
          range := range[i := range[i].(idleExpiry := idle, lastActivity := r.now)];
        } else {
          assert range == range[i := range[i]];
        }
        peers := peers[key := range];
        connections := connections + {range[i].connId};
        return Link(range[i].connId, range[i].route);
      }
      if r.options.optional || r.options.incomingOnly || !r.reachable { return NoLink; }
      var p := Peer(nextConn, "", r.now, r.keepAlive);
      peers := peers[key := Inserted(range, r.at, p)];
      nextConn := nextConn + 1;
      outgoing := outgoing[p.connId := r.pk];
      connections := connections + {p.connId};
      link := Link(p.connId, "");
    }

    /** The retry loop of `proxy_send` to a service node; `results(n)` is what the socket does with
        attempt `n`.  It stops with `stuck` where the scan for the failed entry would not move on. */
    method SendToNode(r: Request, results: nat -> SendResult) returns (sent: bool, stuck: bool, tried: seq<Link>)
      modifies this
      ensures View() == old(View()).(conns := Tables())
      ensures SendSN(old(Tables()), r, results, []) == if stuck then Stuck else Ended(Tables(), sent, tried)
    {
      tried := [];
      while true
        invariant View() == old(View()).(conns := Tables())
        invariant SendSN(Tables(), r, results, tried) == SendSN(old(Tables()), r, results, [])
        decreases CountIncoming(Range(Tables(), SN(r.pk)))
      {
        ghost var before := Tables();
        var link := ConnectToSN(r);
        if link.NoLink? { return false, false, tried; }
        var result := results(|tried|);
        tried := tried + [link];
        if result != Unreachable || link.route == "" { return result == Sent, false, tried; }
        RoutedLink(before, r);
        var range := RangeOf(SN(r.pk));
        if range[0].route != link.route { return false, true, tried; }
        peers := peers[SN(r.pk) := range[1..]];
      }
    }

    /** The end of `proxy_send` for a request: wait for the reply, or fail at once. */
    method TrackRequest(tag: Tag, sent: bool, deadline: int)
      modifies this
      ensures View() == Issue(old(View()), tag, sent, deadline)
    {
      past := past.(issued := past.issued + {tag});
      if !sent {
        past := Answered(past, tag, Answer(false, ["TIMEOUT"]));
      } else if tag !in requests {
        requests := requests[tag := deadline];
      }
    }

    /** `proxy_connect_remote`; `ok` is whether the socket calls succeed. */
    method ConnectRemote(id: int, ok: bool, now: int, deadline: int)
      modifies this
      ensures View() == OpenAttempt(old(View()), id, ok, now, deadline)
    {
      past := past.(reserved := past.reserved - {id}, attempted := past.attempted + {id});
      if !ok {
        past := Settled(past, id, false);
        return;
      }
      connections := connections + {id};
      connects := connects + [Attempt(id, deadline)];
      var range := RangeOf(Remote(id));
      peers := peers[Remote(id) := range + [Peer(id, "", now, FOREVER)]];
    }

    /** The peer lookup of `proxy_to_worker` for a message from a service node. */
    method NoteMessage(pk: Pubkey, connId: int, route: string, at: nat)
      modifies this
      ensures View() == old(View()).(conns := NoteIncoming(old(Tables()), pk, connId, route, at))
    {
      var range := RangeOf(SN(pk));
      var i := 0;
      while i < |range|
        invariant i <= |range| && forall k | 0 <= k < i :: !(range[k].connId == connId && range[k].route == route)
      {
        if range[i].connId == connId && range[i].route == route {
          assert range[i] in range;
          return;
        }
        i := i + 1;
      }
      peers := peers[SN(pk) := Inserted(range, at, Peer(connId, route, 0, 0))];
    }

    /** A command that arrived on an outgoing connection was given to a worker; `peers.find` gives the
        first entry of its key. */
    method PumpActivity(connId: int, now: int)
      modifies this
      ensures View() == old(View()).(conns := NoteActivity(old(Tables()), connId, 0, now))
    {
      var k := if connId in outgoing then SN(outgoing[connId]) else Remote(connId);
      var range := RangeOf(k);
      if range != [] { peers := peers[k := range[0 := range[0].(lastActivity := now)]]; }
    }

    /** `proxy_disconnect`. */
    method DisconnectPeer(k: Key)
      modifies this
      ensures View() == old(View()).(conns := Disconnect(old(Tables()), k))
    {
      var range := RangeOf(k);
      var i := 0;
      while i < |range|
        invariant i <= |range| && forall j | 0 <= j < i :: !IsOutgoing(range[j])
        invariant View() == old(View()) && Tables() == old(Tables())
      {
        if IsOutgoing(range[i]) {
          assert i == FirstOutgoing(range);
          CloseConnection(range[i].connId);
          peers := peers[k := Without(range, i)];
          return;
        }
        i := i + 1;
      }
      assert FirstOutgoing(range) == |range|;
    }

    method ExpirePeers(k: Key, now: int)
      modifies this
      ensures View() == old(View()).(conns := ExpireRange(old(Tables()), k, 0, now))
    {
      var range := RangeOf(k);
      var i := 0;
      while i < |range|
        invariant i <= |range| && range == Range(Tables(), k)
        invariant ExpireRange(Tables(), k, i, now) == ExpireRange(old(Tables()), k, 0, now)
        invariant View() == old(View()).(conns := Tables())
        decreases |range| - i
      {
        if IsOutgoing(range[i]) && now - range[i].lastActivity > range[i].idleExpiry {
          CloseConnection(range[i].connId);
          range := Without(range, i);
          peers := peers[k := range];
        } else {
          i := i + 1;
        }
      }
    }

    /** `proxy_expire_idle_peers`. */
    method ExpireIdlePeers(now: int) returns (ghost keys: seq<Key>)
      modifies this
      ensures View() == old(View()).(conns := ExpireIdle(old(Tables()), keys, now))
      ensures forall k :: k in keys <==> k in old(peers)
      ensures forall i, j | 0 <= i < j < |keys| :: keys[i] != keys[j]
    {
      var todo := peers.Keys;
      keys := [];
      while todo != {}
        invariant View() == old(View()).(conns := ExpireIdle(old(Tables()), keys, now))
        invariant forall k :: k in todo || k in keys <==> k in old(peers)
        invariant forall k | k in keys :: k !in todo
        invariant forall i, j | 0 <= i < j < |keys| :: keys[i] != keys[j]
        decreases |todo|
      {
        var k :| k in todo;
        ExpireIdleSnoc(old(Tables()), keys, k, now);
        ExpirePeers(k, now);
        todo := todo - {k};
        keys := keys + [k];
      }
    }

    method TimeOutAttempts(now: int)
      modifies this
      ensures View() == TimeOutConnects(old(View()), 0, now)
    {
      var i := 0;
      while i < |connects|
        invariant i <= |connects| && TimeOutConnects(View(), i, now) == TimeOutConnects(old(View()), 0, now)
        decreases |connects| - i
      {
        if connects[i].deadline < now {
          var id := connects[i].id;
          connects := Without(connects, i);
          past := Settled(past, id, false);
          CloseConnection(id);
          peers := peers[Remote(id) := []];
        } else {
          i := i + 1;
        }
      }
    }

    method FailRequest(t: Tag)
      modifies this
      ensures View() == Answered(old(View()).(requests := old(requests) - {t}), t, Answer(false, ["TIMEOUT"]))
    {
      past := Answered(past, t, Answer(false, ["TIMEOUT"]));
      requests := requests - {t};
    }

    method TimeOutWaiting(now: int)
      modifies this
      ensures View() == TimeOutRequests(old(View()), now)
    {
      ghost var start, late: set<Tag> := View(), {};
      TimeOutNone(start);
      var todo := requests.Keys;
      while todo != {}
        invariant todo <= start.requests.Keys && todo !! late
        invariant forall t | t in start.requests && t !in todo :: t in late <==> start.requests[t] < now
        invariant late <= start.requests.Keys && View() == TimeOut(start, late)
        decreases |todo|
      {
        var t :| t in todo;
        assert requests == start.requests - late && t in requests && requests[t] == start.requests[t];
        if requests[t] < now {
          TimeOutOneMore(start, late, t);
          FailRequest(t);
          late := late + {t};
        }
        todo := todo - {t};
      }
      assert late == Overdue(start.requests, now);
    }

    /** `proxy_conn_cleanup`. */
    method CleanUp(idleNow: int, now: int) returns (ghost keys: seq<Key>)
      modifies this
      ensures View() == Cleanup(old(View()), keys, idleNow, now)
      ensures forall k :: k in keys <==> k in old(peers)
      ensures forall i, j | 0 <= i < j < |keys| :: keys[i] != keys[j]
    {
      keys := ExpireIdlePeers(idleNow);
      TimeOutAttempts(now);
      TimeOutWaiting(now);
    }

    method FindPending(id: int) returns (i: nat)
      ensures i == FindAttempt(connects, id)
    {
      i := 0;
      while i < |connects| && connects[i].id != id
        invariant i <= |connects| && forall k | 0 <= k < i :: connects[k].id != id
      {
        i := i + 1;
      }
    }

    method Resolve(tag: Tag, answer: Answer)
      modifies this
      ensures View() == Finish(old(View()), tag, answer)
    {
      if tag in requests {
        past := Answered(past, tag, answer);
        requests := requests - {tag};
      }
    }

    /** The parts of a reply after its tag. */
    method CopyParts(parts: seq<string>, from: nat) returns (data: seq<string>)
      requires from <= |parts|
      ensures data == parts[from..]
    {
      data := [];
      var j := from;
      while j < |parts|
        invariant from <= j <= |parts| && data == parts[from..j]
      {
        data := data + [parts[j]];
        j := j + 1;
      }
    }

    /** HELLO on an outgoing connection. */
    method SettleConnect(connId: int)
      modifies this
      ensures View() == Hello(old(View()), connId)
    {
      var i := FindPending(connId);
      if i == |connects| { return; }
      var range := RangeOf(Remote(connId));
      if range == [] { return; }
      past := Settled(past, connId, true);
      connects := Without(connects, i);
    }

    /** `proxy_handle_builtin`. */
    method HandleMessage(connId: int, incoming: bool, parts: seq<string>) returns (handled: bool)
      modifies this
      ensures handled == IsBuiltin(incoming, parts)
      ensures View() == HandleBuiltin(old(View()), connId, incoming, parts)
    {
      var off := if incoming then 1 else 0;
      if |parts| < 1 + off { return true; }
      var cmd := parts[off];
      if cmd == "REPLY" {
        var tagPos := 1 + off;
        if |parts| <= tagPos { return true; }
        var data := CopyParts(parts, tagPos + 1);
        assert data == parts[off + 1..][1..];
        Resolve(parts[tagPos], Answer(true, data));
        return true;
      } else if cmd == "HI" {
        return true;
      } else if cmd == "HELLO" {
        if !incoming { SettleConnect(connId); }
        return true;
      } else if cmd == "BYE" {
        if !incoming { CloseConnection(connId); }
        return true;
      } else if IsErrorResponse(cmd) {
        if |parts| == 1 + off && cmd == "UNKNOWNCOMMAND" { return true; }
        if |parts| == 3 + off && parts[1 + off] == "REPLY" {
          Resolve(parts[2 + off], Answer(false, [cmd]));
        }
        return true;
      }
      return false;
    }

    // ----- service nodes -----

    method RemoveNode(pk: Pubkey)
      modifies this
      ensures View() == old(View()).(conns := RemoveSN(old(Tables()), pk))
    {
      active := active - {pk};
      var range := RangeOf(SN(pk));
      while range != []
        invariant range == Range(Tables(), SN(pk))
        invariant RemoveEntries(Tables(), pk) == RemoveSN(old(Tables()), pk)
        invariant View() == old(View()).(conns := Tables())
        decreases |range|
      {
        var first := range[0];
        range := range[1..];
        peers := peers[SN(pk) := range];
        if IsOutgoing(first) { CloseConnection(first.connId); }
      }
    }

    /** `proxy_update_active_sns_clean`. */
    method UpdateNodes(added: set<Pubkey>, removed: set<Pubkey>) returns (ghost order: seq<Pubkey>)
      modifies this
      ensures View() == old(View()).(conns := UpdateClean(old(Tables()), added, order))
      ensures forall pk :: pk in order <==> pk in removed
    {
      var todo := removed;
      order := [];
      while todo != {}
        invariant View() == old(View()).(conns := RemoveSNs(old(Tables()), order))
        invariant forall pk :: pk in todo || pk in order <==> pk in removed
        decreases |todo|
      {
        var pk :| pk in todo;
        RemoveSNsSnoc(old(Tables()), order, pk);
        RemoveNode(pk);
        todo := todo - {pk};
        order := order + [pk];
      }
      active := active + added;
    }

    /** The entries that remain when the service nodes `removed` are dropped. */
    ghost predicate Dropped(was: Conns, removed: set<Pubkey>)
      reads this
    {
      forall k: Key :: Range(Tables(), k) == if k.SN? && k.pk in removed then [] else Range(was, k)
    }

    /** `proxy_set_active_sns`: afterwards exactly the well-formed keys passed are active, and the
        entries of those that were dropped, and no others, are gone. */
    method SetActiveNodes(pubkeys: set<Pubkey>)
      modifies this
      ensures active == Valid(pubkeys)
      ensures Dropped(old(Tables()), old(active) - Valid(pubkeys))
      ensures View() == old(View()).(conns := Tables())
    {
      var wanted, added := Sift(pubkeys);
      if added == {} && |active| == |wanted| {
        assert forall pk | pk in wanted && pk !in active :: pk in added;
        SameSizeIsSame(active, wanted);
        return;
      }
      var removed := FindRemoved(wanted, added);
      ghost var order := UpdateNodes(added, removed);
      RemoveSNsEmpties(old(Tables()), order);
    }

    /** The scan of `proxy_set_active_sns`, which stops as soon as the numbers agree. */
    method FindRemoved(wanted: set<Pubkey>, added: set<Pubkey>) returns (removed: set<Pubkey>)
      requires added == wanted - active
      ensures removed == active - wanted
    {
      removed := {};
      var todo := active;
      while todo != {}
        invariant todo <= active && removed == active - todo - wanted
        decreases |todo|
      {
        var pk :| pk in todo;
        todo := todo - {pk};
        if pk !in wanted { removed := removed + {pk}; }
        if |active| + |added| - |removed| == |wanted| {
          AllRemovedFound(active, wanted, removed);
          break;
        }
      }
    }

    /** The filter of `proxy_set_active_sns`. */
    method Sift(pubkeys: set<Pubkey>) returns (wanted: set<Pubkey>, added: set<Pubkey>)
      ensures wanted == Valid(pubkeys) && added == wanted - active
    {
      var todo := pubkeys;
      wanted, added := pubkeys, {};
      while todo != {}
        invariant todo <= pubkeys && wanted == Valid(pubkeys) + todo && added == Valid(pubkeys) - todo - active
        decreases |todo|
      {
        var pk :| pk in todo;
        todo := todo - {pk};
        if |pk| != PUBKEY_LENGTH {
          wanted := wanted - {pk};
        } else if pk !in active {
          added := added + {pk};
        }
      }
    }

    method Filter(pubkeys: set<Pubkey>, excluded: set<Pubkey>, within: bool) returns (kept: set<Pubkey>)
      ensures kept == set pk | pk in Valid(pubkeys) && pk !in excluded && (pk in active) == within
    {
      var todo := pubkeys;
      kept := pubkeys;
      while todo != {}
        invariant todo <= pubkeys
        invariant kept == todo + set pk | pk in Valid(pubkeys) && pk !in excluded && (pk in active) == within
        decreases |todo|
      {
        var pk :| pk in todo;
        todo := todo - {pk};
        if |pk| != PUBKEY_LENGTH || (pk in active) != within || pk in excluded { kept := kept - {pk}; }
      }
    }

    /** `proxy_update_active_sns`: a key that is both added and removed stays. */
    method UpdateActiveNodes(added: set<Pubkey>, removed: set<Pubkey>)
      modifies this
      ensures active == (old(active) - (Valid(removed) - added)) + Valid(added)
      ensures Dropped(old(Tables()), (old(active) * Valid(removed)) - added)
      ensures View() == old(View()).(conns := Tables())
    {
      var gone := Filter(removed, added, true);
      var new_ := Filter(added, {}, false);
      ghost var order := UpdateNodes(new_, gone);
      RemoveSNsEmpties(old(Tables()), order);
    }
  }
}
