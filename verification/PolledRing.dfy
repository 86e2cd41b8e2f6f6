/** Which sockets a step closes, and what that means for the ring of sockets that is filled when the
    loop polls and read after control messages and timers have been handled. */
module PolledRing {
  import opened Sequences
  import opened Connections
  import opened ConnectionProofs
  import opened SendRetry
  import opened Outcomes

  // ----- which sockets a step closes -----

  /** Sockets of the expired connections among the entries of a range. */
  function IdleIds(range: seq<Peer>, now: int): set<int> {
    set i | 0 <= i < |range| && IsIdle(range[i], now) :: range[i].connId
  }

  function IdleOf(c: Conns, keys: seq<Key>, now: int): set<int> {
    if keys == [] then {} else IdleIds(Range(c, keys[0]), now) + IdleOf(c, keys[1..], now)
  }

  function OutgoingIds(range: seq<Peer>): set<int> {
    set i | 0 <= i < |range| && IsOutgoing(range[i]) :: range[i].connId
  }

  function OutgoingOf(c: Conns, pks: seq<Pubkey>): set<int> {
    if pks == [] then {} else OutgoingIds(Range(c, SN(pks[0]))) + OutgoingOf(c, pks[1..])
  }

  function LateIds(connects: seq<Attempt>, i: nat, now: int): set<int> {
    set k | i <= k < |connects| && connects[k].deadline < now :: connects[k].id
  }

  function Closes(b: Book, s: Step): set<int> {
    match s
    case DisconnectStep(k) =>
      var range := Range(b.conns, k);
      if FirstOutgoing(range) < |range| then {range[FirstOutgoing(range)].connId} else {}
    case Message(connId, incoming, parts) => if MessageEffect(incoming, parts).Hangup? then {connId} else {}
    case CleanupStep(keys, idleNow, now) => IdleOf(b.conns, keys, idleNow) + LateIds(b.connects, 0, now)
    case UpdateSNs(_, removed) => OutgoingOf(b.conns, removed)
    case _ => {}
  }

  lemma {:induction false} ExpireRangeCloses(c: Conns, k: Key, i: nat, now: int)
    requires i <= |Range(c, k)|
    ensures ExpireRange(c, k, i, now).connections == c.connections - IdleIds(Range(c, k)[i..], now)
    decreases |Range(c, k)| - i
  {
    var range := Range(c, k);
    if i == |range| {
      assert IdleIds(range[i..], now) == {};
    } else {
      var rest := range[i..];
      FirstIdle(rest, now);
      if IsIdle(range[i], now) {
        var c' := SetRange(Close(c, range[i].connId), k, Without(range, i));
        assert Range(c', k)[i..] == rest[1..];
        ExpireRangeCloses(c', k, i, now);
      } else {
        assert range[i + 1..] == rest[1..];
        ExpireRangeCloses(c, k, i + 1, now);
      }
    }
  }

  lemma FirstIdle(range: seq<Peer>, now: int)
    requires range != []
    ensures IdleIds(range, now) == (if IsIdle(range[0], now) then {range[0].connId} else {}) + IdleIds(range[1..], now)
  {
    forall id | id in IdleIds(range, now)
      ensures id in (if IsIdle(range[0], now) then {range[0].connId} else {}) + IdleIds(range[1..], now)
    {
      var i :| 0 <= i < |range| && IsIdle(range[i], now) && range[i].connId == id;
      if i > 0 { assert range[1..][i - 1] == range[i]; }
    }
    forall id | id in IdleIds(range[1..], now) ensures id in IdleIds(range, now) {
      var i :| 0 <= i < |range[1..]| && IsIdle(range[1..][i], now) && range[1..][i].connId == id;
      assert range[i + 1] == range[1..][i];
    }
  }

  lemma {:induction false} SameIdle(c: Conns, c': Conns, keys: seq<Key>, now: int)
    requires forall k | k in keys :: Range(c', k) == Range(c, k)
    ensures IdleOf(c', keys, now) == IdleOf(c, keys, now)
  {
    if keys != [] { SameIdle(c, c', keys[1..], now); }
  }

  lemma {:induction false} ExpireIdleCloses(c: Conns, keys: seq<Key>, now: int)
    requires forall i, j | 0 <= i < j < |keys| :: keys[i] != keys[j]
    ensures ExpireIdle(c, keys, now).connections == c.connections - IdleOf(c, keys, now)
    decreases |keys|
  {
    if keys != [] {
      var c', tail := ExpireRange(c, keys[0], 0, now), keys[1..];
      ExpireRangeCloses(c, keys[0], 0, now);
      assert Range(c, keys[0])[0..] == Range(c, keys[0]);
      forall k | k in tail ensures Range(c', k) == Range(c, k) {
        var i :| 0 <= i < |tail| && tail[i] == k;
        assert keys[0] != keys[i + 1];
        ExpireRangeOthers(c, keys[0], 0, now, k);
      }
      SameIdle(c, c', tail, now);
      ExpireIdleCloses(c', tail, now);
    }
  }

  lemma {:induction false} TimeOutConnectsCloses(b: Book, i: nat, now: int)
    requires i <= |b.connects|
    ensures TimeOutConnects(b, i, now).conns.connections == b.conns.connections - LateIds(b.connects, i, now)
    decreases |b.connects| - i
  {
    if i < |b.connects| {
      var cs := b.connects;
      if cs[i].deadline < now {
        var b' := Settled(b.(connects := Without(cs, i), conns := Abandon(b.conns, cs[i].id)), cs[i].id, false);
        LaterIds(cs, i, now);
        TimeOutConnectsCloses(b', i, now);
      } else {
        assert LateIds(cs, i, now) == LateIds(cs, i + 1, now);
        TimeOutConnectsCloses(b, i + 1, now);
      }
    }
  }

  lemma LaterIds(cs: seq<Attempt>, i: nat, now: int)
    requires i < |cs| && cs[i].deadline < now
    ensures LateIds(cs, i, now) == {cs[i].id} + LateIds(Without(cs, i), i, now)
  {
    var rest := Without(cs, i);
    forall id | id in LateIds(cs, i, now) ensures id in {cs[i].id} + LateIds(rest, i, now) {
      var k :| i <= k < |cs| && cs[k].deadline < now && cs[k].id == id;
      if k > i { assert rest[k - 1] == cs[k]; }
    }
    forall id | id in LateIds(rest, i, now) ensures id in LateIds(cs, i, now) {
      var k :| i <= k < |rest| && rest[k].deadline < now && rest[k].id == id;
      assert cs[k + 1] == rest[k];
    }
  }

  lemma FirstOutgoingId(range: seq<Peer>)
    requires range != []
    ensures OutgoingIds(range) == (if IsOutgoing(range[0]) then {range[0].connId} else {}) + OutgoingIds(range[1..])
  {
    forall id | id in OutgoingIds(range)
      ensures id in (if IsOutgoing(range[0]) then {range[0].connId} else {}) + OutgoingIds(range[1..])
    {
      var i :| 0 <= i < |range| && IsOutgoing(range[i]) && range[i].connId == id;
      if i > 0 { assert range[1..][i - 1] == range[i]; }
    }
    forall id | id in OutgoingIds(range[1..]) ensures id in OutgoingIds(range) {
      var i :| 0 <= i < |range[1..]| && IsOutgoing(range[1..][i]) && range[1..][i].connId == id;
      assert range[i + 1] == range[1..][i];
    }
  }

  lemma {:induction false} RemoveEntriesCloses(c: Conns, pk: Pubkey)
    ensures RemoveEntries(c, pk).connections == c.connections - OutgoingIds(Range(c, SN(pk)))
    decreases |Range(c, SN(pk))|
  {
    var range := Range(c, SN(pk));
    if range != [] {
      var c' := SetRange(c, SN(pk), range[1..]);
      FirstOutgoingId(range);
      RemoveEntriesCloses(if IsOutgoing(range[0]) then Close(c', range[0].connId) else c', pk);
    }
  }

  lemma {:induction false} SameOutgoing(c: Conns, c': Conns, pks: seq<Pubkey>, gone: Pubkey, closed: set<int>)
    requires forall pk | pk in pks && pk != gone :: Range(c', SN(pk)) == Range(c, SN(pk))
    requires Range(c', SN(gone)) == [] && closed == OutgoingIds(Range(c, SN(gone)))
    ensures closed + OutgoingOf(c', pks) == closed + OutgoingOf(c, pks)
  {
    if pks != [] {
      SameOutgoing(c, c', pks[1..], gone, closed);
      if pks[0] == gone { assert OutgoingIds(Range(c', SN(gone))) == {}; }
    }
  }

  lemma {:induction false} RemoveSNsCloses(c: Conns, removed: seq<Pubkey>)
    ensures RemoveSNs(c, removed).connections == c.connections - OutgoingOf(c, removed)
    decreases |removed|
  {
    if removed != [] {
      var pk, tail := removed[0], removed[1..];
      var c1, c' := c.(active := c.active - {pk}), RemoveSN(c, pk);
      RemoveEntriesCloses(c1, pk);
      RemoveEntriesEmpties(c1, pk);
      assert Range(c1, SN(pk)) == Range(c, SN(pk));
      forall k | k in tail && k != pk ensures Range(c', SN(k)) == Range(c, SN(k)) {
        assert Range(c1, SN(k)) == Range(c, SN(k));
      }
      SameOutgoing(c, c', tail, pk, OutgoingIds(Range(c, SN(pk))));
      RemoveSNsCloses(c', tail);
    }
  }

  lemma {:induction false} SendCloses(c: Conns, r: Request, results: nat -> SendResult, tried: seq<Link>)
    requires SendSN(c, r, results, tried).Ended?
    ensures c.connections <= SendSN(c, r, results, tried).conns.connections
    decreases CountIncoming(Range(c, SN(r.pk)))
  {
    if Retries(c, r, results, |tried|) {
      var p := Range(c, SN(r.pk))[0];
      var c' := RetryStep(c, r, results, tried);
      SendCloses(c', r, results, tried + [Link(p.connId, p.route)]);
    } else {
      LastAttempt(c, r, results, tried);
    }
  }

  lemma CleanupCloses(b: Book, keys: seq<Key>, idleNow: int, now: int)
    requires forall i, j | 0 <= i < j < |keys| :: keys[i] != keys[j]
    ensures Cleanup(b, keys, idleNow, now).conns.connections
         == b.conns.connections - (IdleOf(b.conns, keys, idleNow) + LateIds(b.connects, 0, now))
  {
    ExpireIdleCloses(b.conns, keys, idleNow);
    TimeOutConnectsCloses(b.(conns := ExpireIdle(b.conns, keys, idleNow)), 0, now);
  }

  /** A step closes exactly the sockets in `Closes`, which can be read off the tables before it. */
  lemma ClosesExactly(b: Book, s: Step)
    requires Enabled(b, s)
    ensures b.conns.connections - Next(b, s).conns.connections == b.conns.connections * Closes(b, s)
  {
    match s
    case SendToSN(r, results, t) => SendCloses(b.conns, r, results, []);
    case CleanupStep(keys, idleNow, now) => CleanupCloses(b, keys, idleNow, now);
    case UpdateSNs(added, removed) => RemoveSNsCloses(b.conns, removed);
    case _ =>
  }

  // ----- the ring -----

  /** The sockets in `polled` are open now and after every step of the run: a pointer taken before the
      run still points to its socket afterwards. */
  ghost predicate StayOpen(b: Book, run: seq<Step>, polled: set<int>)
    decreases |run|
  {
    polled <= b.conns.connections && (run == [] || StayOpen(Next(b, run[0]), run[1..], polled))
  }

  /** No step of the run closes one of them. */
  ghost predicate NoneClosed(b: Book, run: seq<Step>, polled: set<int>)
    decreases |run|
  {
    run == [] || (Closes(b, run[0]) !! polled && NoneClosed(Next(b, run[0]), run[1..], polled))
  }

  /** With epoll the ring holds pointers taken when the loop polled.  They are all still good when the
      incoming messages are read exactly if nothing handled in between closed one of those sockets.
      (A ring that is filled anew after that handling holds open sockets only.) */
  lemma {:induction false} PolledStayOpenIff(b: Book, run: seq<Step>, polled: set<int>)
    requires IsRun(b, run) && polled <= b.conns.connections
    ensures StayOpen(b, run, polled) <==> NoneClosed(b, run, polled)
    decreases |run|
  {
    if run != [] {
      var b' := Next(b, run[0]);
      ClosesExactly(b, run[0]);
      KeptIff(b.conns.connections, b'.conns.connections, Closes(b, run[0]), polled);
      if polled <= b'.conns.connections { PolledStayOpenIff(b', run[1..], polled); }
    }
  }

  lemma KeptIff(before: set<int>, after: set<int>, closed: set<int>, polled: set<int>)
    requires before - after == before * closed && polled <= before
    ensures polled <= after <==> closed !! polled
  {
    forall id | id in polled ensures id in after <==> id !in closed {
      assert id in before - after <==> id in before * closed;
    }
  }

  /** A socket that is polled and then disconnected by a control message. */
  lemma PolledThenClosed()
    ensures var b := Next(Empty({}, {}, 1), ConnectStep(Request("k", Options(false, false, false), true, 0, 0, 0)));
      && 1 in b.conns.connections && IsRun(b, [DisconnectStep(SN("k"))])
      && !StayOpen(b, [DisconnectStep(SN("k"))], {1})
  {
    var b := Next(Empty({}, {}, 1), ConnectStep(Request("k", Options(false, false, false), true, 0, 0, 0)));
    assert Range(b.conns, SN("k")) == [Peer(1, "", 0, 0)] && b.conns.connections == {1};
    var b' := Next(b, DisconnectStep(SN("k")));
    assert FirstOutgoing(Range(b.conns, SN("k"))) == 0;
    assert 1 !in b'.conns.connections && IsRun(b', []);
    assert [DisconnectStep(SN("k"))][1..] == [];
  }
}
