/** Subscriptions with a lease: who a publish reaches, whatever happens between its two locks. */
module Pubsub {

  type Conn = string

  datatype Sub<D> = Sub(expiry: int, data: D)

  datatype Option<T> = None | Some(value: T)

  // ----- the operations on the table -----

  /** `subscribe`: a refresh with equal data keeps the stored data. */
  function Subscribed<D>(subs: map<Conn, Sub<D>>, conn: Conn, data: D, expiry: int): map<Conn, Sub<D>> {
    subs[conn := Sub(expiry, data)]
  }

  function Unexpired<D>(subs: map<Conn, Sub<D>>, now: int): map<Conn, Sub<D>> {
    map c | c in subs && subs[c].expiry >= now :: subs[c]
  }

  /** The second lock of `publish`: of the connections found expired, drop those that still are. */
  function Swept<D>(subs: map<Conn, Sub<D>>, found: set<Conn>, now: int): map<Conn, Sub<D>> {
    map c | c in subs && (c in found ==> subs[c].expiry >= now) :: subs[c]
  }

  function Expired<D>(subs: map<Conn, Sub<D>>, now: int): set<Conn> {
    set c | c in subs && subs[c].expiry < now
  }

  // ----- concurrent use -----

  /** One critical section, with the clock reading it makes; a publish has two, and any number of
      publishes, told apart by a number, may be between them. */
  datatype Event<D> =
    | Subscribe(conn: Conn, data: D, at: int)
    | Unsubscribe(conn: Conn, at: int)
    | RemoveExpired(at: int)
    | Scan(publish: nat, at: int)
    | Sweep(publish: nat, at: int)

  datatype State<D> = State(subs: map<Conn, Sub<D>>, found: map<nat, set<Conn>>, clock: int)

  predicate Enabled<D>(s: State<D>, e: Event<D>) {
    s.clock <= e.at && (e.Sweep? ==> e.publish in s.found)
  }

  function Next<D>(s: State<D>, e: Event<D>, duration: int): State<D>
    requires Enabled(s, e)
  {
    var s' := s.(clock := e.at);
    match e
    case Subscribe(conn, data, at) => s'.(subs := Subscribed(s.subs, conn, data, at + duration))
    case Unsubscribe(conn, _) => s'.(subs := s.subs - {conn})
    case RemoveExpired(at) => s'.(subs := Unexpired(s.subs, at))
    case Scan(p, at) => s'.(found := s.found[p := Expired(s.subs, at)])
    case Sweep(p, at) => s'.(subs := Swept(s.subs, s.found[p], at), found := s.found - {p})
  }

  predicate IsRun<D>(s: State<D>, run: seq<Event<D>>, duration: int)
    decreases |run|
  {
    run == [] || (Enabled(s, run[0]) && IsRun(Next(s, run[0], duration), run[1..], duration))
  }

  function After<D>(s: State<D>, run: seq<Event<D>>, duration: int): State<D>
    requires IsRun(s, run, duration)
    decreases |run|
  {
    if run == [] then s else After(Next(s, run[0], duration), run[1..], duration)
  }

  // ----- what subscribers are promised -----

  /** The last thing `conn` itself did: its lease if that was to subscribe, nothing otherwise. */
  function Lease<D>(run: seq<Event<D>>, conn: Conn, duration: int): Option<Sub<D>> {
    if run == [] then None
    else
      var e := run[|run| - 1];
      if e.Subscribe? && e.conn == conn then Some(Sub(e.at + duration, e.data))
      else if e.Unsubscribe? && e.conn == conn then None
      else Lease(run[..|run| - 1], conn, duration)
  }

  /** The table holds leases only, and every lease that has not run out. */
  ghost predicate HoldsLeases<D(!new)>(s: State<D>, run: seq<Event<D>>, duration: int) {
    forall c: Conn {:trigger Lease(run, c, duration)} ::
      && (c in s.subs ==> Lease(run, c, duration) == Some(s.subs[c]))
      && (Lease(run, c, duration).Some? && Lease(run, c, duration).value.expiry >= s.clock ==> c in s.subs)
  }

  lemma StepHoldsLeases<D(!new)>(s: State<D>, run: seq<Event<D>>, e: Event<D>, duration: int)
    requires HoldsLeases(s, run, duration) && Enabled(s, e)
    ensures HoldsLeases(Next(s, e, duration), run + [e], duration)
  {
    var s', run' := Next(s, e, duration), run + [e];
    assert run'[..|run|] == run && run'[|run|] == e;
    forall c: Conn
      ensures c in s'.subs ==> Lease(run', c, duration) == Some(s'.subs[c])
      ensures Lease(run', c, duration).Some? && Lease(run', c, duration).value.expiry >= s'.clock ==> c in s'.subs
    {
      var lease, own := Lease(run, c, duration), (e.Subscribe? || e.Unsubscribe?) && e.conn == c;
      assert !own ==> Lease(run', c, duration) == lease;
      assert c in s.subs ==> lease == Some(s.subs[c]);
      assert lease.Some? && lease.value.expiry >= s.clock ==> c in s.subs;
    }
  }

  lemma {:induction false} RunHoldsLeases<D(!new)>(s: State<D>, past: seq<Event<D>>, run: seq<Event<D>>, duration: int)
    requires HoldsLeases(s, past, duration) && IsRun(s, run, duration)
    ensures HoldsLeases(After(s, run, duration), past + run, duration)
    decreases |run|
  {
    if run == [] {
      assert past + run == past;
    } else {
      StepHoldsLeases(s, past, run[0], duration);
      RunHoldsLeases(Next(s, run[0], duration), past + [run[0]], run[1..], duration);
      assert past + [run[0]] + run[1..] == past + run;
    }
  }

  function Fresh<D>(clock: int): State<D> { State(map[], map[], clock) }

  /** Whatever happened before, a publish that reads the clock `at` calls back for exactly the
      connections whose own last action was to subscribe, at most `duration` ago, and with the data
      they subscribed with then. */
  lemma PublishReachesExactly<D(!new)>(clock: int, run: seq<Event<D>>, at: int, duration: int, conn: Conn, data: D)
    requires IsRun(Fresh(clock), run, duration) && After(Fresh(clock), run, duration).clock <= at
    ensures var reached := Unexpired(After(Fresh(clock), run, duration).subs, at);
      (conn in reached && reached[conn].data == data)
      <==> (Lease(run, conn, duration).Some? && Lease(run, conn, duration).value.expiry >= at
            && Lease(run, conn, duration).value.data == data)
  {
    RunHoldsLeases(Fresh(clock), [], run, duration);
    assert [] + run == run;
    assert Lease(run, conn, duration).Some? || Lease(run, conn, duration).None?;
  }

  /** `remove_expired` leaves exactly the leases that have not run out. */
  lemma ExpiredAreGone<D(!new)>(clock: int, run: seq<Event<D>>, at: int, duration: int, conn: Conn)
    requires IsRun(Fresh(clock), run, duration) && After(Fresh(clock), run, duration).clock <= at
    ensures var subs := Next(After(Fresh(clock), run, duration), RemoveExpired(at), duration).subs;
      && (conn in subs <==> Lease(run, conn, duration).Some? && Lease(run, conn, duration).value.expiry >= at)
      && (conn in subs ==> Some(subs[conn]) == Lease(run, conn, duration))
  {
    RunHoldsLeases(Fresh(clock), [], run, duration);
    assert [] + run == run;
    assert Lease(run, conn, duration).Some? || Lease(run, conn, duration).None?;
  }

  /** Nothing in the run renews the subscription of `conn` or belongs to publish `p`. */
  predicate Undisturbed<D(!new)>(run: seq<Event<D>>, conn: Conn, p: nat) {
    forall i | 0 <= i < |run| ::
      && !(run[i].Subscribe? && run[i].conn == conn)
      && !((run[i].Scan? || run[i].Sweep?) && run[i].publish == p)
  }

  predicate Doomed<D>(s: State<D>, conn: Conn, p: nat) {
    p in s.found && conn in s.found[p] && (conn in s.subs ==> s.subs[conn].expiry < s.clock)
  }

  lemma {:induction false} StaysDoomed<D(!new)>(s: State<D>, run: seq<Event<D>>, duration: int, conn: Conn, p: nat)
    requires IsRun(s, run, duration) && Undisturbed(run, conn, p) && Doomed(s, conn, p)
    ensures Doomed(After(s, run, duration), conn, p)
    decreases |run|
  {
    if run != [] {
      assert run == [run[0]] + run[1..];
      StaysDoomed(Next(s, run[0], duration), run[1..], duration, conn, p);
    }
  }

  /** When a publish is over, every subscription it found expired is gone unless it was renewed
      between its two locks, whatever else happened there. */
  lemma PublishClears<D(!new)>(s: State<D>, p: nat, scanned: int, run: seq<Event<D>>, swept: int, duration: int,
                               conn: Conn)
    requires Enabled(s, Scan(p, scanned)) && conn in s.subs && s.subs[conn].expiry < scanned
    requires IsRun(Next(s, Scan(p, scanned), duration), run, duration) && Undisturbed(run, conn, p)
    requires After(Next(s, Scan(p, scanned), duration), run, duration).clock <= swept
    ensures var s' := After(Next(s, Scan(p, scanned), duration), run, duration);
      Enabled(s', Sweep(p, swept)) && conn !in Next(s', Sweep(p, swept), duration).subs
  {
    StaysDoomed(Next(s, Scan(p, scanned), duration), run, duration, conn, p);
  }

  // ----- the class -----

  class Subscription<D(==, !new)> {
    var subs: map<Conn, Sub<D>>
    const subDuration: int

    constructor (duration: int)
      ensures subs == map[] && subDuration == duration
    {
      subs, subDuration := map[], duration;
    }

    /** Whether this is a new subscription or one with new data. */
    method Subscribe(conn: Conn, data: D, now: int) returns (isNew: bool)
      modifies this
      ensures subs == Subscribed(old(subs), conn, data, now + subDuration)
      ensures isNew == (conn !in old(subs) || old(subs)[conn].data != data)
    {
      var expiry := now + subDuration;
      if conn !in subs {
        subs := subs[conn := Sub(expiry, data)];
        return true;
      }
      subs := subs[conn := subs[conn].(expiry := expiry)];
      if subs[conn].data != data {
        subs := subs[conn := subs[conn].(data := data)];
        return true;
      }
      return false;
    }

    method Unsubscribe(conn: Conn) returns (data: Option<D>)
      modifies this
      ensures subs == old(subs) - {conn}
      ensures data == if conn in old(subs) then Some(old(subs)[conn].data) else None
    {
      data := None;
      if conn in subs {
        data := Some(subs[conn].data);
        subs := subs - {conn};
      }
    }

    method RemoveExpired(now: int)
      modifies this
      ensures subs == Unexpired(old(subs), now)
    {
      var todo := subs.Keys;
      while todo != {}
        invariant todo <= subs.Keys
        invariant subs == map c | c in old(subs) && (c in todo || old(subs)[c].expiry >= now) :: old(subs)[c]
        decreases |todo|
      {
        var c :| c in todo;
        todo := todo - {c};
        if subs[c].expiry < now { subs := subs - {c}; }
      }
    }

    /** The first lock of `publish`: `calls` are the calls of the callback, in order. */
    method PublishScan(now: int) returns (calls: seq<(Conn, D)>, toRemove: seq<Conn>)
      ensures forall c: Conn, d: D :: (c, d) in calls <==> c in subs && subs[c].expiry >= now && subs[c].data == d
      ensures forall i, j | 0 <= i < j < |calls| :: calls[i].0 != calls[j].0
      ensures forall c: Conn :: c in toRemove <==> c in subs && subs[c].expiry < now
    {
      calls, toRemove := [], [];
      var todo := subs.Keys;
      while todo != {}
        invariant todo <= subs.Keys
        invariant forall c: Conn, d: D ::
          (c, d) in calls <==> c in subs && c !in todo && subs[c].expiry >= now && subs[c].data == d
        invariant forall i, j | 0 <= i < j < |calls| :: calls[i].0 != calls[j].0
        invariant forall c: Conn :: c in toRemove <==> c in Expired(subs, now) && c !in todo
        decreases |todo|
      {
        var c :| c in todo;
        if subs[c].expiry < now {
          toRemove := toRemove + [c];
        } else {
          assert forall i | 0 <= i < |calls| :: (calls[i].0, calls[i].1) in calls;
          calls := calls + [(c, subs[c].data)];
        }
        todo := todo - {c};
      }
    }

    /** The second lock of `publish`. */
    method PublishSweep(toRemove: seq<Conn>, now: int)
      modifies this
      ensures subs == Swept(old(subs), (set c | c in toRemove), now)
    {
      var i := 0;
      while i < |toRemove|
        invariant i <= |toRemove| && subs == Swept(old(subs), (set c | c in toRemove[..i]), now)
      {
        if toRemove[i] in subs && subs[toRemove[i]].expiry < now {
          subs := subs - {toRemove[i]};
        }
        assert toRemove[..i + 1] == toRemove[..i] + [toRemove[i]];
        i := i + 1;
      }
      assert toRemove[..i] == toRemove;
    }
  }
}
