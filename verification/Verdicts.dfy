/** Which callback a connection attempt or a request gets: success and failure are told apart, and
    what is not decided waits with the deadline it was given. */
module Verdicts {
  import opened Sequences
  import opened Connections
  import opened SendRetry
  import opened Outcomes
  import opened OutcomeProofs

  // ----- attempts -----

  /** Nothing about requests and their answers changed. */
  predicate SameRequests(b: Book, b': Book) {
    b'.requests == b.requests && b'.answered == b.answered && b'.answers == b.answers
  }

  /** The attempt has had its one callback, with `ok`; every other attempt is as before. */
  ghost predicate OnlySettles(b: Book, b': Book, id: int, ok: bool) {
    && !Waiting(b', id) && b'.settled[id] == 1 && id in b'.results && b'.results[id] == ok
    && (forall other: int | other != id :: SameResult(b, b', other))
    && (forall a: Attempt | a.id != id :: a in b'.connects <==> a in b.connects)
    && SameRequests(b, b')
  }

  lemma WaitingMeans(b: Book, id: int)
    ensures Waiting(b, id) <==> exists a :: a in b.connects && a.id == id
  {
    if a :| a in b.connects && a.id == id {
      var k :| 0 <= k < |b.connects| && b.connects[k] == a;
    } else if Waiting(b, id) {
      assert b.connects[FindAttempt(b.connects, id)] in b.connects;
    }
  }

  /** Dropping the attempt of `id` leaves the others. */
  lemma OthersWait(connects: seq<Attempt>, i: nat)
    requires DistinctAttempts(connects) && i < |connects|
    ensures forall a: Attempt | a.id != connects[i].id :: a in Without(connects, i) <==> a in connects
    ensures forall a: Attempt | a in Without(connects, i) :: a.id != connects[i].id
  {
    var rest := Without(connects, i);
    assert forall k | 0 <= k < |rest| :: rest[k] == connects[if k < i then k else k + 1];
    forall a: Attempt | a.id != connects[i].id && a in connects ensures a in rest {
      var k :| 0 <= k < |connects| && connects[k] == a;
      assert rest[if k < i then k else k - 1] == a;
    }
  }

  lemma HelloSettles(b: Book, id: int)
    requires ConnectsInv(b) && Waiting(b, id) && Range(b.conns, Remote(id)) != []
    ensures OnlySettles(b, Hello(b, id), id, true) && Hello(b, id).conns == b.conns
  {
    var i, b' := FindAttempt(b.connects, id), Hello(b, id);
    OthersWait(b.connects, i);
    WaitingMeans(b', id);
    assert b.settled[id] + 1 == if id in b.attempted then 1 else 0;
  }

  /** HELLO on the outgoing connection of a remote that waits for it calls the success callback, its only
      one; nothing else changes, and neither does anything when HELLO comes again, or from somebody who
      is not waited for, or on an incoming connection. */
  lemma HelloReachesItsAttempt(b: Book, connId: int, route: string, rest: seq<string>)
    requires Reachable(b)
    ensures var b' := HandleBuiltin(b, connId, false, ["HELLO"] + rest);
      && (if Waiting(b, connId) && Range(b.conns, Remote(connId)) != []
          then OnlySettles(b, b', connId, true) && b'.conns == b.conns else b' == b)
      && HandleBuiltin(b', connId, false, ["HELLO"] + rest) == b'
    ensures HandleBuiltin(b, connId, true, [route, "HELLO"] + rest) == b
  {
    ReachableInv(b);
    assert MessageEffect(false, ["HELLO"] + rest) == Greet;
    assert MessageEffect(true, [route, "HELLO"] + rest) == Outcomes.Nothing;
    if Waiting(b, connId) && Range(b.conns, Remote(connId)) != [] { HelloSettles(b, connId); }
  }

  /** `connect_remote`: if the socket calls succeed the connection is open and listed, and waits for HELLO
      until the deadline; otherwise the failure callback is called at once. */
  lemma OpenDecided(b: Book, id: int, ok: bool, now: int, deadline: int)
    requires Reachable(b) && Enabled(b, OpenRemoteStep(id, ok, now, deadline))
    ensures var b' := Next(b, OpenRemoteStep(id, ok, now, deadline));
      if ok then
        && b'.connects == b.connects + [Attempt(id, deadline)] && SameRequests(b, b')
        && (forall other: int :: SameResult(b, b', other)) && b'.settled[id] == 0
        && b'.conns.connections == b.conns.connections + {id}
        && Peer(id, "", now, 315360000000) in Range(b'.conns, Remote(id))
        && (forall k | k != Remote(id) :: Range(b'.conns, k) == Range(b.conns, k))
      else OnlySettles(b, b', id, false) && b'.conns == b.conns
  {
    ReachableInv(b);
    assert b.settled[id] + (if Waiting(b, id) then 1 else 0) == if id in b.attempted then 1 else 0;
  }

  // ----- requests -----

  /** A request that was sent waits until its deadline; one that was not has failed.  Nothing else about
      requests changed. */
  ghost predicate Tracks(b: Book, b': Book, tag: Tag, sent: bool, deadline: int) {
    && (if sent then
          && b'.requests == b.requests[tag := deadline] && tag !in b.requests
          && b'.answered == b.answered && b'.answers == b.answers && b'.answered[tag] == 0
        else
          && b'.requests == b.requests && tag !in b.requests && b'.answered[tag] == 1
          && tag in b'.answers && !b'.answers[tag].ok
          && (forall t: Tag | t != tag :: SameAnswer(b, b', t)))
    && b'.connects == b.connects && b'.settled == b.settled && b'.results == b.results
  }

  lemma IssueTracks(b: Book, tag: Tag, sent: bool, deadline: int)
    requires RequestsInv(b) && tag !in b.issued
    ensures Tracks(b, Issue(b, tag, sent, deadline), tag, sent, deadline)
  {
    assert b.answered[tag] + (if tag in b.requests then 1 else 0) == if tag in b.issued then 1 else 0;
  }

  /** The message left the process. */
  predicate WasSent(e: Ending, results: nat -> SendResult) {
    e.Ended? && e.tried != [] && results(|e.tried| - 1) == Sent
  }

  lemma SentMeans(c: Conns, r: Request, results: nat -> SendResult)
    requires SendSN(c, r, results, []).Ended?
    ensures SendSN(c, r, results, []).sent <==> WasSent(SendSN(c, r, results, []), results)
  {
    var e := SendSN(c, r, results, []);
    var m, last := ErasesWhatFailed(c, r, results, [], e);
    if Connect(last, r).link.NoLink? && m > 0 {
      assert !IsOutgoing(Range(c, SN(r.pk))[m - 1]) && results(0 + (m - 1)) == Unreachable;
    }
  }

  /** A request to a service node waits exactly if some connection took the message. */
  lemma RequestDecided(b: Book, r: Request, results: nat -> SendResult, tag: Tag, deadline: int)
    requires Reachable(b) && Enabled(b, SendToSN(r, results, Track(tag, deadline)))
    ensures var e := SendSN(b.conns, r, results, []);
      Tracks(b, Next(b, SendToSN(r, results, Track(tag, deadline))), tag, WasSent(e, results), deadline)
  {
    ReachableInv(b);
    SentMeans(b.conns, r, results);
    SendTracks(b, SendSN(b.conns, r, results, []), tag, deadline);
  }

  lemma SendTracks(b: Book, e: Ending, tag: Tag, deadline: int)
    requires RequestsInv(b) && tag !in b.issued && e.Ended?
    ensures Tracks(b, MaybeIssue(b.(conns := e.conns), Track(tag, deadline), e.sent), tag, e.sent, deadline)
  {
    IssueTracks(b.(conns := e.conns), tag, e.sent, deadline);
  }

  /** Likewise for one to any other remote. */
  lemma RemoteRequestDecided(b: Book, sent: bool, tag: Tag, deadline: int)
    requires Reachable(b) && Enabled(b, SendToRemote(sent, Track(tag, deadline)))
    ensures Tracks(b, Next(b, SendToRemote(sent, Track(tag, deadline))), tag, sent, deadline)
    ensures Next(b, SendToRemote(sent, Track(tag, deadline))).conns == b.conns
  {
    ReachableInv(b);
    IssueTracks(b, tag, sent, deadline);
  }

  // ----- messages that are kept from the workers -----

  /** Exactly these commands are handled by the proxy itself. */
  lemma KeptFromWorkers(incoming: bool, route: string, cmd: string, rest: seq<string>)
    ensures IsBuiltin(incoming, (if incoming then [route] else []) + [cmd] + rest)
       <==> cmd in {"REPLY", "HI", "HELLO", "BYE", "FORBIDDEN", "FORBIDDEN_SN", "NOT_A_SERVICE_NODE",
                    "UNKNOWNCOMMAND", "NO_REPLY_TAG"}
  {
    var parts := (if incoming then [route] else []) + [cmd] + rest;
    assert parts[if incoming then 1 else 0] == cmd;
  }

  /** BYE closes the outgoing connection it came on and changes nothing else but the index. */
  lemma ByeCloses(b: Book, connId: int, route: string, rest: seq<string>)
    ensures var b' := HandleBuiltin(b, connId, false, ["BYE"] + rest);
      && b'.conns.connections == b.conns.connections - {connId} && b'.conns.peers == b.conns.peers
      && b'.conns.active == b.conns.active && b'.conns.nextConn == b.conns.nextConn && b'.connects == b.connects
      && (connId in b.conns.connections ==> b'.conns.outgoing == b.conns.outgoing - {connId})
      && SameRequests(b, b') && b'.settled == b.settled && b'.results == b.results
    ensures HandleBuiltin(b, connId, true, [route, "BYE"] + rest) == b
  {
    assert MessageEffect(false, ["BYE"] + rest) == Hangup;
    assert MessageEffect(true, [route, "BYE"] + rest) == Outcomes.Nothing;
  }
}
