/** Connections to and from remotes: the open sockets, the multimap of peers, and the index of
    outgoing service-node (SN) connections. */
module Connections {
  import opened Sequences

  type Pubkey = string

  /** A `ConnectionID` as used for a key of `peers`: service nodes are identified by their pubkey,
      other remotes by the number of their connection. */
  datatype Key = SN(pk: Pubkey) | Remote(id: int)

  /** An entry of `peers`; incoming connections have a non-empty route. */
  datatype Peer = Peer(connId: int, route: string, lastActivity: int, idleExpiry: int)

  predicate IsOutgoing(p: Peer) { p.route == "" }

  /** `peers` maps a key to its entries in the order of `equal_range`; `nextConn` is larger than any
      connection number handed out so far. */
  datatype Conns = Conns(
    connections: set<int>, peers: map<Key, seq<Peer>>, outgoing: map<int, Pubkey>,
    active: set<Pubkey>, nextConn: int)

  function Range(c: Conns, k: Key): seq<Peer> {
    if k in c.peers then c.peers[k] else []
  }

  function SetRange(c: Conns, k: Key, range: seq<Peer>): Conns {
    c.(peers := c.peers[k := range])
  }

  function Inserted<T>(xs: seq<T>, i: nat, x: T): seq<T> {
    if i <= |xs| then xs[..i] + [x] + xs[i..] else xs + [x]
  }

  /** `proxy_close_connection`: nothing happens for a connection that is not open. */
  function Close(c: Conns, id: int): Conns {
    if id in c.connections then c.(connections := c.connections - {id}, outgoing := c.outgoing - {id}) else c
  }

  // ----- connecting to a service node -----

  datatype Options = Options(optional: bool, incomingOnly: bool, outgoingOnly: bool)

  predicate Usable(p: Peer, o: Options) {
    !(o.incomingOnly && IsOutgoing(p)) && !(o.outgoingOnly && !IsOutgoing(p))
  }

  /** Index of the first usable entry, or the length of the range. */
  function FirstUsable(range: seq<Peer>, o: Options): (i: nat)
    ensures i <= |range|
    ensures forall k | 0 <= k < i :: !Usable(range[k], o)
    ensures i < |range| ==> Usable(range[i], o)
  {
    if range == [] || Usable(range[0], o) then 0 else 1 + FirstUsable(range[1..], o)
  }

  /** The connection to use: its number and, for an incoming one, its route. */
  datatype Link = NoLink | Link(connId: int, route: string)

  datatype Connected = Connected(conns: Conns, link: Link)

  function Touch(p: Peer, keepAlive: int, now: int): Peer {
    if IsOutgoing(p) then
      p.(idleExpiry := if p.idleExpiry < keepAlive then keepAlive else p.idleExpiry, lastActivity := now)
    else p
  }

  /** `proxy_connect_sn`.  `reachable` stands for the address lookup and the socket calls; a new
      entry goes to an arbitrary place `at` among the entries of its key. */
  function ConnectSN(c: Conns, pk: Pubkey, o: Options, reachable: bool, keepAlive: int, now: int, at: nat): Connected {
    var range := Range(c, SN(pk));
    var i := FirstUsable(range, o);
    if i < |range| then
      Connected(SetRange(c, SN(pk), range[i := Touch(range[i], keepAlive, now)])
                .(connections := c.connections + {range[i].connId}),
                Link(range[i].connId, range[i].route))
    else if o.optional || o.incomingOnly || !reachable then
      Connected(c, NoLink)
    else
      var id := c.nextConn;
      Connected(SetRange(c, SN(pk), Inserted(range, at, Peer(id, "", now, keepAlive)))
                  .(connections := c.connections + {id}, outgoing := c.outgoing[id := pk], nextConn := id + 1),
                Link(id, ""))
  }

  // ----- other ways in and out of the tables -----

  /** A connection number given to a caller of `connect_remote` (or to a listener). */
  function Reserve(c: Conns): Conns { c.(nextConn := c.nextConn + 1) }

  /** The proxy opens the connection for `connect_remote`. */
  function OpenRemote(c: Conns, id: int, now: int): Conns {
    SetRange(c, Remote(id), Range(c, Remote(id)) + [Peer(id, "", now, FOREVER)]).(connections := c.connections + {id})
  }

  const FOREVER: int := 24 * 10 * 365 * 3600 * 1000

  /** A message from a service node that has no entry for its connection and route yet. */
  function NoteIncoming(c: Conns, pk: Pubkey, connId: int, route: string, at: nat): Conns {
    if exists p :: p in Range(c, SN(pk)) && p.connId == connId && p.route == route then c
    else SetRange(c, SN(pk), Inserted(Range(c, SN(pk)), at, Peer(connId, route, 0, 0)))
  }

  /** The key under which the entry of an outgoing connection is looked up. */
  function KeyOf(c: Conns, connId: int): Key {
    if connId in c.outgoing then SN(c.outgoing[connId]) else Remote(connId)
  }

  /** A command that came in on an outgoing connection was given to a worker: the entry found for the
      connection, which is the `i`-th under its key, has been active. */
  function NoteActivity(c: Conns, connId: int, i: nat, now: int): Conns {
    var range := Range(c, KeyOf(c, connId));
    if i < |range| then SetRange(c, KeyOf(c, connId), range[i := range[i].(lastActivity := now)]) else c
  }

  function FirstOutgoing(range: seq<Peer>): (i: nat)
    ensures i <= |range|
    ensures forall k | 0 <= k < i :: !IsOutgoing(range[k])
    ensures i < |range| ==> IsOutgoing(range[i])
  {
    if range == [] || IsOutgoing(range[0]) then 0 else 1 + FirstOutgoing(range[1..])
  }

  /** `proxy_disconnect`. */
  function Disconnect(c: Conns, k: Key): Conns {
    var range := Range(c, k);
    var i := FirstOutgoing(range);
    if i < |range| then SetRange(Close(c, range[i].connId), k, Without(range, i)) else c
  }

  predicate IsIdle(p: Peer, now: int) {
    IsOutgoing(p) && now - p.lastActivity > p.idleExpiry
  }

  /** Close every expired connection of a range, front to back, and drop its entry. */
  function ExpireRange(c: Conns, k: Key, i: nat, now: int): Conns
    decreases |Range(c, k)| - i
  {
    var range := Range(c, k);
    if i >= |range| then c
    else if IsIdle(range[i], now) then
      ExpireRange(SetRange(Close(c, range[i].connId), k, Without(range, i)), k, i, now)
    else ExpireRange(c, k, i + 1, now)
  }

  /** `proxy_expire_idle_peers`, in some order of the keys. */
  function ExpireIdle(c: Conns, keys: seq<Key>, now: int): Conns
    decreases |keys|
  {
    if keys == [] then c else ExpireIdle(ExpireRange(c, keys[0], 0, now), keys[1..], now)
  }

  /** A connect attempt that timed out. */
  function Abandon(c: Conns, id: int): Conns {
    SetRange(Close(c, id), Remote(id), [])
  }

  /** Drop all entries of a service node, closing its outgoing connections. */
  function RemoveEntries(c: Conns, pk: Pubkey): Conns
    decreases |Range(c, SN(pk))|
  {
    var range := Range(c, SN(pk));
    if range == [] then c
    else
      var c' := SetRange(c, SN(pk), range[1..]);
      RemoveEntries(if IsOutgoing(range[0]) then Close(c', range[0].connId) else c', pk)
  }

  function RemoveSN(c: Conns, pk: Pubkey): Conns {
    RemoveEntries(c.(active := c.active - {pk}), pk)
  }

  function RemoveSNs(c: Conns, removed: seq<Pubkey>): Conns
    decreases |removed|
  {
    if removed == [] then c else RemoveSNs(RemoveSN(c, removed[0]), removed[1..])
  }

  /** `proxy_update_active_sns_clean`, with the removed keys in some order. */
  function UpdateClean(c: Conns, added: set<Pubkey>, removed: seq<Pubkey>): Conns {
    var c' := RemoveSNs(c, removed);
    c'.(active := c'.active + added)
  }

  // ----- invariant -----

  /** The outgoing connection `id` to `pk` is listed among the entries of `pk`. */
  predicate Listed(c: Conns, id: int, pk: Pubkey) {
    exists i | 0 <= i < |Range(c, SN(pk))| :: IsOutgoing(Range(c, SN(pk))[i]) && Range(c, SN(pk))[i].connId == id
  }

  predicate AtMostOneOutgoing(range: seq<Peer>) {
    forall i, j | 0 <= i < j < |range| :: !(IsOutgoing(range[i]) && IsOutgoing(range[j]))
  }

  /** Every indexed outgoing SN connection is open and listed, under a number older than the next
      one; a service node has at most one outgoing entry. */
  ghost predicate TablesInv(c: Conns) {
    && (forall id | id in c.outgoing :: id in c.connections && id < c.nextConn && Listed(c, id, c.outgoing[id]))
    && (forall pk: Pubkey :: AtMostOneOutgoing(Range(c, SN(pk))))
  }
}
