/** Requests waiting for their replies and remotes waiting for their HELLO, on top of the
    connection tables: each gets one callback, whatever happens first. */
module Outcomes {
  import opened Sequences
  import opened Connections
  import opened SendRetry

  type Tag = string

  /** What a request callback is called with. */
  datatype Answer = Answer(ok: bool, data: seq<string>)

  /** An entry of `pending_connects`. */
  datatype Attempt = Attempt(id: int, deadline: int)

  /** The proxy's tables and, as history, which requests and connection attempts were made and which
      callbacks were scheduled for them (how often, and with what). */
  datatype Book = Book(
    conns: Conns, requests: map<Tag, int>, connects: seq<Attempt>,
    issued: set<Tag>, answered: multiset<Tag>, answers: map<Tag, Answer>,
    reserved: set<int>, attempted: set<int>, settled: multiset<int>, results: map<int, bool>)

  // ----- requests -----

  function Answered(b: Book, tag: Tag, a: Answer): Book {
    b.(answered := b.answered + multiset{tag}, answers := b.answers[tag := a])
  }

  /** The end of `proxy_send` for a request. */
  function Issue(b: Book, tag: Tag, sent: bool, deadline: int): Book {
    var b' := b.(issued := b.issued + {tag});
    if !sent then Answered(b', tag, Answer(false, ["TIMEOUT"]))
    else if tag in b.requests then b'
    else b'.(requests := b.requests[tag := deadline])
  }

  /** A reply or an error for `tag`; ignored if no such request is waiting. */
  function Finish(b: Book, tag: Tag, a: Answer): Book {
    if tag in b.requests then Answered(b.(requests := b.requests - {tag}), tag, a) else b
  }

  function Overdue(requests: map<Tag, int>, now: int): set<Tag> {
    set t | t in requests && requests[t] < now
  }

  /** The requests `late` fail with a timeout. */
  function TimeOut(b: Book, late: set<Tag>): Book {
    b.(requests := b.requests - late, answered := b.answered + multiset(late),
       answers := b.answers + TimeoutAnswers(late))
  }

  function TimeoutAnswers(late: set<Tag>): map<Tag, Answer> {
    map t | t in late :: Answer(false, ["TIMEOUT"])
  }

  function TimeOutRequests(b: Book, now: int): Book { TimeOut(b, Overdue(b.requests, now)) }

  // ----- connections to remotes -----

  function Settled(b: Book, id: int, ok: bool): Book {
    b.(settled := b.settled + multiset{id}, results := b.results[id := ok])
  }

  /** `connect_remote` hands out a connection number. */
  function ReserveId(b: Book): Book {
    b.(conns := Reserve(b.conns), reserved := b.reserved + {b.conns.nextConn})
  }

  /** `proxy_connect_remote`; `ok` is whether the socket calls succeed. */
  function OpenAttempt(b: Book, id: int, ok: bool, now: int, deadline: int): Book {
    var b' := b.(reserved := b.reserved - {id}, attempted := b.attempted + {id});
    if ok then b'.(conns := OpenRemote(b.conns, id, now), connects := b.connects + [Attempt(id, deadline)])
    else Settled(b', id, false)
  }

  /** Index of the attempt for `id`, or the number of attempts. */
  function FindAttempt(connects: seq<Attempt>, id: int): (i: nat)
    ensures i <= |connects|
    ensures forall k | 0 <= k < i :: connects[k].id != id
    ensures i < |connects| ==> connects[i].id == id
  {
    if connects == [] || connects[0].id == id then 0 else 1 + FindAttempt(connects[1..], id)
  }

  /** HELLO on an outgoing connection. */
  function Hello(b: Book, id: int): Book {
    var i := FindAttempt(b.connects, id);
    if i == |b.connects| || Range(b.conns, Remote(id)) == [] then b
    else Settled(b.(connects := Without(b.connects, i)), id, true)
  }

  /** The timeouts of `pending_connects`, from entry `i` on. */
  function TimeOutConnects(b: Book, i: nat, now: int): Book
    decreases |b.connects| - i
  {
    if i >= |b.connects| then b
    else if b.connects[i].deadline < now then
      var id := b.connects[i].id;
      TimeOutConnects(Settled(b.(connects := Without(b.connects, i), conns := Abandon(b.conns, id)), id, false), i, now)
    else TimeOutConnects(b, i + 1, now)
  }

  /** `proxy_conn_cleanup`; it reads the clock once for the idle peers and once for the rest. */
  function Cleanup(b: Book, keys: seq<Key>, idleNow: int, now: int): Book {
    TimeOutRequests(TimeOutConnects(b.(conns := ExpireIdle(b.conns, keys, idleNow)), 0, now), now)
  }

  // ----- messages -----

  predicate IsErrorResponse(cmd: string) {
    cmd in {"FORBIDDEN", "FORBIDDEN_SN", "NOT_A_SERVICE_NODE", "UNKNOWNCOMMAND", "NO_REPLY_TAG"}
  }

  /** The messages that `proxy_handle_builtin` keeps from the workers. */
  predicate IsBuiltin(incoming: bool, parts: seq<string>) {
    var off := if incoming then 1 else 0;
    |parts| <= off || parts[off] in {"REPLY", "HI", "HELLO", "BYE"} || IsErrorResponse(parts[off])
  }

  /** What a message asks of the tables. */
  datatype Effect = Nothing | Resolve(tag: Tag, answer: Answer) | Greet | Hangup

  function MessageEffect(incoming: bool, parts: seq<string>): Effect {
    var off := if incoming then 1 else 0;
    if |parts| <= off then Nothing
    else
      var cmd, args := parts[off], parts[off + 1..];
      if cmd == "REPLY" then (if args == [] then Nothing else Resolve(args[0], Answer(true, args[1..])))
      else if cmd == "HELLO" then (if incoming then Nothing else Greet)
      else if cmd == "BYE" then (if incoming then Nothing else Hangup)
      else if IsErrorResponse(cmd) && |args| == 2 && args[0] == "REPLY" then Resolve(args[1], Answer(false, [cmd]))
      else Nothing
  }

  /** `proxy_handle_builtin`. */
  function HandleBuiltin(b: Book, connId: int, incoming: bool, parts: seq<string>): Book {
    Apply(b, connId, MessageEffect(incoming, parts))
  }

  function Apply(b: Book, connId: int, effect: Effect): Book {
    match effect
    case Nothing => b
    case Resolve(tag, answer) => Finish(b, tag, answer)
    case Greet => Hello(b, connId)
    case Hangup => b.(conns := Close(b.conns, connId))
  }

  // ----- the machine -----

  datatype Tracked = NoRequest | Track(tag: Tag, deadline: int)

  function MaybeIssue(b: Book, t: Tracked, sent: bool): Book {
    if t.Track? then Issue(b, t.tag, sent, t.deadline) else b
  }

  datatype Step =
    | ConnectStep(r: Request)
    | SendToSN(r: Request, results: nat -> SendResult, t: Tracked)
    | SendToRemote(sent: bool, t: Tracked)
    | NewId
    | OpenRemoteStep(id: int, ok: bool, now: int, deadline: int)
    | FromSN(pk: Pubkey, connId: int, route: string, place: nat)
    | Received(connId: int, i: nat, at: int)
    | Message(connId: int, incoming: bool, parts: seq<string>)
    | DisconnectStep(key: Key)
    | CleanupStep(keys: seq<Key>, idleNow: int, now: int)
    | UpdateSNs(added: set<Pubkey>, removed: seq<Pubkey>)

  ghost predicate Enabled(b: Book, s: Step) {
    match s
    case SendToSN(r, results, t) =>
      && (t.Track? ==> t.tag !in b.issued)
      && SendSN(b.conns, r, results, []).Ended?
    case SendToRemote(_, t) => t.Track? ==> t.tag !in b.issued
    case OpenRemoteStep(id, _, _, _) => id in b.reserved
    case FromSN(pk, _, route, _) => pk in b.conns.active && route != ""
    case CleanupStep(keys, _, _) => forall i, j | 0 <= i < j < |keys| :: keys[i] != keys[j]
    case _ => true
  }

  function Next(b: Book, s: Step): Book {
    match s
    case ConnectStep(r) => b.(conns := Connect(b.conns, r).conns)
    case SendToSN(r, results, t) =>
      var e := SendSN(b.conns, r, results, []);
      if e.Stuck? then b else MaybeIssue(b.(conns := e.conns), t, e.sent)
    case SendToRemote(sent, t) => MaybeIssue(b, t, sent)
    case NewId => ReserveId(b)
    case OpenRemoteStep(id, ok, now, deadline) => OpenAttempt(b, id, ok, now, deadline)
    case FromSN(pk, connId, route, at) => b.(conns := NoteIncoming(b.conns, pk, connId, route, at))
    case Received(connId, i, at) => b.(conns := NoteActivity(b.conns, connId, i, at))
    case Message(connId, incoming, parts) => HandleBuiltin(b, connId, incoming, parts)
    case DisconnectStep(key) => b.(conns := Disconnect(b.conns, key))
    case CleanupStep(keys, idleNow, now) => Cleanup(b, keys, idleNow, now)
    case UpdateSNs(added, removed) => b.(conns := UpdateClean(b.conns, added, removed))
  }

  /** The proxy starts with its listening sockets and no peers. */
  function Empty(active: set<Pubkey>, listeners: set<int>, nextConn: int): Book {
    Book(Conns(listeners, map[], map[], active, nextConn),
         map[], [], {}, multiset{}, map[], {}, {}, multiset{}, map[])
  }

  ghost predicate IsRun(b: Book, run: seq<Step>)
    decreases |run|
  {
    run == [] || (Enabled(b, run[0]) && IsRun(Next(b, run[0]), run[1..]))
  }

  function After(b: Book, run: seq<Step>): Book
    decreases |run|
  {
    if run == [] then b else After(Next(b, run[0]), run[1..])
  }

  // ----- invariants -----

  predicate Waiting(b: Book, id: int) { FindAttempt(b.connects, id) < |b.connects| }

  /** Every request made so far was answered once or is still waiting, and not both. */
  ghost predicate RequestsInv(b: Book) {
    forall t: Tag :: b.answered[t] + (if t in b.requests then 1 else 0) == if t in b.issued then 1 else 0
  }

  predicate DistinctAttempts(connects: seq<Attempt>) {
    forall i, j | 0 <= i < j < |connects| :: connects[i].id != connects[j].id
  }

  /** Likewise for every connection attempt. */
  ghost predicate ConnectsInv(b: Book) {
    && DistinctAttempts(b.connects)
    && (forall id: int :: b.settled[id] + (if Waiting(b, id) then 1 else 0) == if id in b.attempted then 1 else 0)
    && b.reserved !! b.attempted
    && (forall id | id in b.reserved || id in b.attempted :: id < b.conns.nextConn)
  }

  /** Incoming connections are listed under the keys of active service nodes only. */
  ghost predicate IncomingInv(c: Conns) {
    forall pk: Pubkey, i | 0 <= i < |Range(c, SN(pk))| && !IsOutgoing(Range(c, SN(pk))[i]) :: pk in c.active
  }
}
