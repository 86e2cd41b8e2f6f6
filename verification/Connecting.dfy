/** Which connection a connect gets, and what a disconnect takes away. */
module Connecting {
  import opened Sequences
  import opened Connections
  import opened ConnectionProofs
  import opened SendRetry

  /** What the options of a send allow: incoming connections have a route, outgoing ones have none. */
  predicate Allowed(p: Peer, incomingOnly: bool, outgoingOnly: bool) {
    (incomingOnly ==> p.route != "") && (outgoingOnly ==> p.route == "")
  }

  predicate FirstAllowed(range: seq<Peer>, i: nat, o: Options) {
    && i < |range| && Allowed(range[i], o.incomingOnly, o.outgoingOnly)
    && (forall j | 0 <= j < i :: !Allowed(range[j], o.incomingOnly, o.outgoingOnly))
  }

  /** The first connection that the options allow is used, and only its own entry may change.  If there is
      none, a new one is opened exactly if it may be outgoing, is not just optional, and can be made. */
  lemma ConnectDecided(c: Conns, r: Request)
    ensures var range, found := Range(c, SN(r.pk)), Connect(c, r);
      && (forall i: nat | FirstAllowed(range, i, r.options) ::
            && found.link == Link(range[i].connId, range[i].route) && found.conns.nextConn == c.nextConn
            && |Range(found.conns, SN(r.pk))| == |range|
            && (forall j | 0 <= j < |range| && j != i :: Range(found.conns, SN(r.pk))[j] == range[j]))
      && ((forall p | p in range :: !Allowed(p, r.options.incomingOnly, r.options.outgoingOnly)) ==>
            if r.options.optional || r.options.incomingOnly || !r.reachable then found == Connected(c, NoLink)
            else
              && found.link == Link(c.nextConn, "") && c.nextConn in found.conns.connections
              && c.nextConn in found.conns.outgoing && found.conns.outgoing[c.nextConn] == r.pk
              && Peer(c.nextConn, "", r.now, r.keepAlive) in Range(found.conns, SN(r.pk))
              && |Range(found.conns, SN(r.pk))| == |range| + 1
              && (forall p | p in range :: p in Range(found.conns, SN(r.pk))))
      && (forall k | k != SN(r.pk) :: Range(found.conns, k) == Range(c, k))
  {
    var range, o := Range(c, SN(r.pk)), r.options;
    var n := FirstUsable(range, o);
    UsableMeans(range, o);
    forall i: nat | FirstAllowed(range, i, o) ensures i == n {
      assert Usable(range[i], o);
    }
    if n == |range| { InsertedAt(range, r.at, Peer(c.nextConn, "", r.now, r.keepAlive)); }
    if forall p | p in range :: !Allowed(p, o.incomingOnly, o.outgoingOnly) { NoneUsable(range, o); }
  }

  lemma UsableMeans(range: seq<Peer>, o: Options)
    ensures forall j | 0 <= j < |range| :: Usable(range[j], o) <==> Allowed(range[j], o.incomingOnly, o.outgoingOnly)
  {
  }

  lemma NoneUsable(range: seq<Peer>, o: Options)
    requires forall p | p in range :: !Allowed(p, o.incomingOnly, o.outgoingOnly)
    ensures FirstUsable(range, o) == |range|
  {
    UsableMeans(range, o);
    assert forall j | 0 <= j < |range| :: range[j] in range;
  }

  // ----- disconnecting -----

  /** The incoming entries, in order. */
  function IncomingOf(range: seq<Peer>): seq<Peer> {
    if range == [] then []
    else
      var p := range[|range| - 1];
      IncomingOf(range[..|range| - 1]) + (if IsOutgoing(p) then [] else [p])
  }

  lemma {:induction false} AllIncoming(range: seq<Peer>)
    requires forall i | 0 <= i < |range| :: !IsOutgoing(range[i])
    ensures IncomingOf(range) == range
  {
    if range != [] {
      AllIncoming(range[..|range| - 1]);
      assert range == range[..|range| - 1] + [range[|range| - 1]];
    }
  }

  lemma {:induction false} OneDropped(range: seq<Peer>, i: nat)
    requires AtMostOneOutgoing(range) && i < |range| && IsOutgoing(range[i])
    ensures IncomingOf(range) == Without(range, i)
  {
    var n := |range| - 1;
    if i == n {
      AllIncoming(range[..n]);
      assert Without(range, i) == range[..n];
    } else {
      WithoutLast(range, i);
      OneDropped(range[..n], i);
    }
  }

  /** Disconnecting from a service node drops its outgoing entry, closes that connection, and leaves its
      incoming entries, all other entries and all other connections alone. */
  lemma DisconnectDrops(c: Conns, pk: Pubkey)
    requires TablesInv(c)
    ensures var c', range := Disconnect(c, SN(pk)), Range(c, SN(pk));
      && Range(c', SN(pk)) == IncomingOf(range)
      && (forall k | k != SN(pk) :: Range(c', k) == Range(c, k))
      && (forall id :: id in c'.connections <==>
            id in c.connections && !exists p :: p in range && IsOutgoing(p) && p.connId == id)
      && c'.active == c.active && c'.nextConn == c.nextConn
  {
    var range, i := Range(c, SN(pk)), FirstOutgoing(Range(c, SN(pk)));
    assert AtMostOneOutgoing(range);
    if i < |range| {
      OneDropped(range, i);
      assert range[i] in range;
      forall p | p in range && IsOutgoing(p) ensures p == range[i] {
        var j :| 0 <= j < |range| && range[j] == p;
      }
    } else {
      AllIncoming(range);
    }
  }
}
