/** Sending to a service node: an incoming connection that turns out to be gone is removed and the
    send is retried on the next one. */
module SendRetry {
  import opened Connections

  datatype SendResult = Sent | WouldBlock | Unreachable | OtherError

  /** How a send ends; `Stuck` stands for the scan that looks for the failed entry and does not move
      past an entry that is not it. */
  datatype Ending = Stuck | Ended(conns: Conns, sent: bool, tried: seq<Link>)

  /** The parameters of one send that stay the same for every attempt. */
  datatype Request = Request(pk: Pubkey, options: Options, reachable: bool, keepAlive: int, now: int, at: nat)

  function Connect(c: Conns, r: Request): Connected {
    ConnectSN(c, r.pk, r.options, r.reachable, r.keepAlive, r.now, r.at)
  }

  function CountIncoming(range: seq<Peer>): nat {
    if range == [] then 0 else (if IsOutgoing(range[0]) then 0 else 1) + CountIncoming(range[1..])
  }

  /** A link with a route is an existing incoming entry, and connecting changed no entry. */
  lemma RoutedLink(c: Conns, r: Request)
    requires Connect(c, r).link.Link? && Connect(c, r).link.route != ""
    ensures var range, i := Range(c, SN(r.pk)), FirstUsable(Range(c, SN(r.pk)), r.options);
      && i < |range| && Range(Connect(c, r).conns, SN(r.pk)) == range
      && Connect(c, r).link == Link(range[i].connId, range[i].route) && !IsOutgoing(range[i])
  {
  }

  /** The loop of `proxy_send`; `results(n)` is what the socket does with attempt `n`. */
  function SendSN(c: Conns, r: Request, results: nat -> SendResult, tried: seq<Link>): Ending
    decreases CountIncoming(Range(c, SN(r.pk)))
  {
    var found := Connect(c, r);
    if found.link.NoLink? then Ended(found.conns, false, tried)
    else
      var log := tried + [found.link];
      if results(|tried|) == Unreachable && found.link.route != "" then
        RoutedLink(c, r);
        var range := Range(found.conns, SN(r.pk));
        if range[0].route == found.link.route then
          SendSN(SetRange(found.conns, SN(r.pk), range[1..]), r, results, log)
        else Stuck
      else Ended(found.conns, results(|tried|) == Sent, log)
  }

  /** At most one attempt per incoming entry, plus one. */
  lemma {:induction false} AttemptsBounded(c: Conns, r: Request, results: nat -> SendResult, tried: seq<Link>)
    ensures SendSN(c, r, results, tried).Ended? ==>
      |SendSN(c, r, results, tried).tried| <= |tried| + CountIncoming(Range(c, SN(r.pk))) + 1
    decreases CountIncoming(Range(c, SN(r.pk)))
  {
    var found := Connect(c, r);
    if found.link.Link? && results(|tried|) == Unreachable && found.link.route != "" {
      RoutedLink(c, r);
      var range := Range(found.conns, SN(r.pk));
      if range[0].route == found.link.route {
        AttemptsBounded(SetRange(found.conns, SN(r.pk), range[1..]), r, results, tried + [found.link]);
      }
    }
  }

  /** The send is restricted to incoming connections and one of those sits behind the outgoing entry. */
  predicate MayHang(range: seq<Peer>, o: Options) {
    && o.incomingOnly && !o.outgoingOnly
    && exists i, j | 0 <= i < j < |range| :: IsOutgoing(range[i]) && !IsOutgoing(range[j])
  }

  lemma MayHangLater(range: seq<Peer>, o: Options)
    requires range != [] && !IsOutgoing(range[0])
    ensures MayHang(range[1..], o) == MayHang(range, o)
  {
    if MayHang(range[1..], o) {
      var k, l :| 0 <= k < l < |range[1..]| && IsOutgoing(range[1..][k]) && !IsOutgoing(range[1..][l]);
      assert IsOutgoing(range[k + 1]) && !IsOutgoing(range[l + 1]);
    }
    if MayHang(range, o) {
      var k, l :| 0 <= k < l < |range| && IsOutgoing(range[k]) && !IsOutgoing(range[l]);
      assert IsOutgoing(range[1..][k - 1]) && !IsOutgoing(range[1..][l - 1]);
    }
  }

  /** An incoming entry that is used is the first of its range, unless the send may hang. */
  lemma FirstIsUsed(range: seq<Peer>, o: Options)
    requires FirstUsable(range, o) < |range| && !IsOutgoing(range[FirstUsable(range, o)])
    ensures FirstUsable(range, o) == 0 || (MayHang(range, o) && IsOutgoing(range[0]))
  {
    assert FirstUsable(range, o) > 0 ==> !Usable(range[0], o);
  }

  /** The send cannot get stuck otherwise. */
  lemma {:induction false} NotStuck(c: Conns, r: Request, results: nat -> SendResult, tried: seq<Link>)
    requires !MayHang(Range(c, SN(r.pk)), r.options)
    ensures SendSN(c, r, results, tried).Ended?
    decreases CountIncoming(Range(c, SN(r.pk)))
  {
    var found := Connect(c, r);
    if found.link.Link? && results(|tried|) == Unreachable && found.link.route != "" {
      RoutedLink(c, r);
      var range := Range(c, SN(r.pk));
      FirstIsUsed(range, r.options);
      MayHangLater(range, r.options);
      NotStuck(SetRange(found.conns, SN(r.pk), range[1..]), r, results, tried + [found.link]);
    }
  }

  /** It does get stuck then if nobody can be reached. */
  lemma {:induction false} StuckIfUnreachable(c: Conns, r: Request, results: nat -> SendResult, tried: seq<Link>)
    requires MayHang(Range(c, SN(r.pk)), r.options)
    requires forall n :: results(n) == Unreachable
    ensures SendSN(c, r, results, tried) == Stuck
    decreases CountIncoming(Range(c, SN(r.pk)))
  {
    var range := Range(c, SN(r.pk));
    var k, l :| 0 <= k < l < |range| && IsOutgoing(range[k]) && !IsOutgoing(range[l]);
    assert Usable(range[l], r.options);
    RoutedLink(c, r);
    if FirstUsable(range, r.options) == 0 {
      MayHangLater(range, r.options);
      StuckIfUnreachable(SetRange(Connect(c, r).conns, SN(r.pk), range[1..]), r, results, tried + [Connect(c, r).link]);
    } else {
      FirstIsUsed(range, r.options);
    }
  }

  /** Exactly when a send is sure to end, whatever the sockets do. */
  lemma AlwaysEndsIff(c: Conns, r: Request)
    ensures (forall results: nat -> SendResult :: SendSN(c, r, results, []).Ended?)
        <==> !MayHang(Range(c, SN(r.pk)), r.options)
  {
    if MayHang(Range(c, SN(r.pk)), r.options) {
      var nobody := (n: nat) => Unreachable;
      StuckIfUnreachable(c, r, nobody, []);
      assert !SendSN(c, r, nobody, []).Ended?;
    } else {
      forall results: nat -> SendResult ensures SendSN(c, r, results, []).Ended? {
        NotStuck(c, r, results, []);
      }
    }
  }

  /** The first `m` entries of a range, all incoming, were tried in order from attempt `n` on and
      could not be reached. */
  predicate Failed(range: seq<Peer>, results: nat -> SendResult, m: nat, tried: seq<Link>, n: nat) {
    && m <= |range| && n + m <= |tried|
    && (forall k | 0 <= k < m ::
          && !IsOutgoing(range[k]) && results(n + k) == Unreachable
          && tried[n + k] == Link(range[k].connId, range[k].route))
  }

  lemma FailedEarlier(range: seq<Peer>, results: nat -> SendResult, m: nat, tried: seq<Link>, n: nat)
    requires range != [] && n < |tried| && Failed(range[1..], results, m, tried, n + 1)
    requires !IsOutgoing(range[0]) && results(n) == Unreachable && tried[n] == Link(range[0].connId, range[0].route)
    ensures Failed(range, results, m + 1, tried, n)
  {
    forall k | 0 <= k < m + 1
      ensures !IsOutgoing(range[k]) && results(n + k) == Unreachable
      ensures tried[n + k] == Link(range[k].connId, range[k].route)
    {
      if k > 0 { assert range[1..][k - 1] == range[k] && n + 1 + (k - 1) == n + k; }
    }
  }

  /** The tables differ at most in the entries of `pk`, and by sockets that were opened again. */
  predicate SameButFor(c: Conns, c': Conns, pk: Pubkey) {
    && c'.peers - {SN(pk)} == c.peers - {SN(pk)}
    && c'.outgoing == c.outgoing && c'.active == c.active && c'.nextConn == c.nextConn
    && c.connections <= c'.connections
  }

  predicate Retries(c: Conns, r: Request, results: nat -> SendResult, n: nat) {
    Connect(c, r).link.Link? && results(n) == Unreachable && Connect(c, r).link.route != ""
  }

  /** One retry that does not get stuck erases the first entry. */
  lemma RetryStep(c: Conns, r: Request, results: nat -> SendResult, tried: seq<Link>) returns (c': Conns)
    requires Retries(c, r, results, |tried|) && SendSN(c, r, results, tried).Ended?
    ensures var range := Range(c, SN(r.pk));
      && range != [] && !IsOutgoing(range[0]) && Range(c', SN(r.pk)) == range[1..] && SameButFor(c, c', r.pk)
      && SendSN(c, r, results, tried) == SendSN(c', r, results, tried + [Link(range[0].connId, range[0].route)])
  {
    RoutedLink(c, r);
    FirstIsUsed(Range(c, SN(r.pk)), r.options);
    c' := SetRange(Connect(c, r).conns, SN(r.pk), Range(c, SN(r.pk))[1..]);
  }

  lemma LastAttempt(c: Conns, r: Request, results: nat -> SendResult, tried: seq<Link>)
    requires !Retries(c, r, results, |tried|)
    ensures tried <= SendSN(c, r, results, tried).tried
    ensures EndsWith(SendSN(c, r, results, tried), Connect(c, r), results)
    ensures |SendSN(c, r, results, tried).tried| == |tried| + Attempts(Connect(c, r).link)
  {
  }

  predicate ErasedPrefix(c: Conns, last: Conns, pk: Pubkey, m: nat) {
    m <= |Range(c, SN(pk))| && Range(last, SN(pk)) == Range(c, SN(pk))[m..] && SameButFor(c, last, pk)
  }

  lemma ErasedOneMore(c: Conns, c': Conns, last: Conns, pk: Pubkey, m: nat)
    requires ErasedPrefix(c, c', pk, 1) && ErasedPrefix(c', last, pk, m)
    ensures ErasedPrefix(c, last, pk, m + 1)
  {
    assert Range(c, SN(pk))[1..][m..] == Range(c, SN(pk))[m + 1..];
  }

  lemma LogExtends(tried: seq<Link>, link: Link, log: seq<Link>)
    requires tried + [link] <= log
    ensures tried <= log && |tried| < |log| && log[|tried|] == link
  {
    assert log[|tried|] == (tried + [link])[|tried|];
  }

  /** What a send amounts to: the first `m` entries were tried in order, found dead and erased,
      nothing else was, and the result is that of one last connect on what was left. */
  lemma {:induction false} ErasesWhatFailed(c: Conns, r: Request, results: nat -> SendResult, tried: seq<Link>,
                                            e: Ending)
    returns (m: nat, last: Conns)
    requires e == SendSN(c, r, results, tried) && e.Ended?
    ensures tried <= e.tried && Failed(Range(c, SN(r.pk)), results, m, e.tried, |tried|)
    ensures ErasedPrefix(c, last, r.pk, m)
    ensures EndsWith(e, Connect(last, r), results) && |e.tried| == |tried| + m + Attempts(Connect(last, r).link)
    decreases CountIncoming(Range(c, SN(r.pk)))
  {
    if Retries(c, r, results, |tried|) {
      var range := Range(c, SN(r.pk));
      var c' := RetryStep(c, r, results, tried);
      var log := tried + [Link(range[0].connId, range[0].route)];
      m, last := ErasesWhatFailed(c', r, results, log, e);
      LogExtends(tried, Link(range[0].connId, range[0].route), e.tried);
      FailedEarlier(range, results, m, e.tried, |tried|);
      ErasedOneMore(c, c', last, r.pk, m);
      m := m + 1;
    } else {
      LastAttempt(c, r, results, tried);
      m, last := 0, c;
    }
  }

  function Attempts(link: Link): nat { if link.Link? then 1 else 0 }

  /** A send ended with an attempt on the connection found, or without one; it did not give up on an
      incoming connection that could not be reached. */
  predicate EndsWith(e: Ending, found: Connected, results: nat -> SendResult) {
    && e.Ended? && e.conns == found.conns
    && (found.link.NoLink? ==> !e.sent)
    && (found.link.Link? ==>
          && e.tried != [] && e.tried[|e.tried| - 1] == found.link && e.sent == (results(|e.tried| - 1) == Sent)
          && (results(|e.tried| - 1) == Unreachable ==> found.link.route == ""))
  }
}
