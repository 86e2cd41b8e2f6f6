/** The incoming-message loop of the proxy: connections with waiting messages are kept in a circular
    buffer with one spare slot, and one message at a time is taken from the connection in front. */
module Ring {

  datatype Delivery<M> = Delivery(socket: nat, msg: M)

  datatype Slot = Null | Socket(id: nat)

  /** Messages still to be taken; `supply[s]` is what socket `s` yields before it first reports that
      nothing is waiting. */
  function Total<M>(supply: seq<seq<M>>): nat {
    if supply == [] then 0 else |supply[0]| + Total(supply[1..])
  }

  lemma {:induction false} TotalTake<M>(supply: seq<seq<M>>, s: nat)
    requires s < |supply| && supply[s] != []
    ensures Total(supply[s := supply[s][1..]]) == Total(supply) - 1
  {
    if s == 0 {
      assert supply[s := supply[s][1..]][1..] == supply[1..];
    } else {
      assert supply[s := supply[s][1..]][1..] == supply[1..][s - 1 := supply[1..][s - 1][1..]];
      TotalTake(supply[1..], s - 1);
    }
  }

  predicate InRange(queue: seq<nat>, n: nat) {
    forall k | 0 <= k < |queue| :: queue[k] < n
  }

  /** The intended order, on a plain queue: the connection in front leaves if it has nothing left,
      otherwise it gives one message and goes to the back. */
  function Rounds<M>(queue: seq<nat>, supply: seq<seq<M>>): seq<Delivery<M>>
    requires InRange(queue, |supply|)
    decreases Total(supply), |queue|
  {
    if queue == [] then []
    else
      var s := queue[0];
      if supply[s] == [] then Rounds(queue[1..], supply)
      else
        TotalTake(supply, s);
        [Delivery(s, supply[s][0])] + Rounds(queue[1..] + [s], supply[s := supply[s][1..]])
  }

  /** The k-th place after `pos` in an array of `n` slots. */
  function Place(pos: nat, k: nat, n: nat): (place: nat)
    requires pos < n && k <= n
    ensures place < n
  {
    if pos + k < n then pos + k else pos + k - n
  }

  lemma NextIndex(pos: nat, n: nat)
    requires pos < n
    ensures (pos + 1) % n == Place(pos, 1, n)
  {
  }

  /** `slots` holds `queue`, in order, from `pos` on around the end of the array. */
  predicate Holds(slots: seq<Slot>, pos: nat, queue: seq<nat>) {
    && |queue| < |slots| && pos < |slots|
    && (forall k | 0 <= k < |queue| :: slots[Place(pos, k, |slots|)] == Socket(queue[k]))
  }

  /** Stepping past the first place shifts the others by one. */
  lemma NextPlace(pos: nat, k: nat, n: nat)
    requires pos < n && 0 < k <= n
    ensures Place(Place(pos, 1, n), k - 1, n) == Place(pos, k, n)
    ensures k < n ==> Place(pos, k, n) != pos
  {
  }

  lemma PlacesDiffer(pos: nat, j: nat, k: nat, n: nat)
    requires pos < n && j < k < n
    ensures Place(pos, j, n) != Place(pos, k, n)
  {
  }

  lemma DropFront(slots: seq<Slot>, pos: nat, queue: seq<nat>)
    requires Holds(slots, pos, queue) && queue != []
    ensures slots[pos] == Socket(queue[0])
    ensures Holds(slots, Place(pos, 1, |slots|), queue[1..])
    ensures Place(Place(pos, 1, |slots|), |queue| - 1, |slots|) == Place(pos, |queue|, |slots|)
  {
    NextPlace(pos, |queue|, |slots|);
    forall k | 0 <= k < |queue| - 1 ensures slots[Place(Place(pos, 1, |slots|), k, |slots|)] == Socket(queue[k + 1]) {
      NextPlace(pos, k + 1, |slots|);
    }
  }

  /** The place behind the last one is the slot that is not in use. */
  lemma AddBack(slots: seq<Slot>, pos: nat, queue: seq<nat>, s: nat)
    requires Holds(slots, pos, queue) && |queue| + 1 < |slots|
    ensures var end := Place(pos, |queue|, |slots|);
      && end < |slots| && Holds(slots[end := Socket(s)], pos, queue + [s])
      && Place(end, 1, |slots|) == Place(pos, |queue| + 1, |slots|)
  {
    var n, end := |slots|, Place(pos, |queue|, |slots|);
    forall k | 0 <= k < |queue| + 1 ensures slots[end := Socket(s)][Place(pos, k, n)] == Socket((queue + [s])[k]) {
      if k < |queue| { PlacesDiffer(pos, k, |queue|, n); }
    }
  }

  /** Take the front and, with `again`, put it at the back: the write goes to the one slot that is
      not in use, so no connection is lost. */
  method Rotate(slots: array<Slot>, pos: nat, end: nat, ghost queue: seq<nat>, again: bool)
    returns (pos': nat, end': nat)
    requires Holds(slots[..], pos, queue) && queue != [] && end == Place(pos, |queue|, slots.Length)
    modifies slots
    ensures Holds(slots[..], pos', if again then queue[1..] + [queue[0]] else queue[1..])
    ensures end' == Place(pos', if again then |queue| else |queue| - 1, slots.Length)
  {
    ghost var was := slots[..];
    DropFront(was, pos, queue);
    end' := end;
    if again {
      AddBack(was, Place(pos, 1, slots.Length), queue[1..], queue[0]);
      slots[end] := slots[pos];
      assert slots[..] == was[end := Socket(queue[0])];
      NextIndex(end, slots.Length);
      end' := (end + 1) % slots.Length;
    }
    NextIndex(pos, slots.Length);
    pos' := (pos + 1) % slots.Length;
  }

  /** The loop between two iterations: who is in the ring, what each connection still has, what was delivered. */
  datatype State<M> = State(queue: seq<nat>, left: seq<seq<M>>, log: seq<Delivery<M>>)

  predicate Ok<M>(r: State<M>) { InRange(r.queue, |r.left|) }

  /** One iteration: the connection in front gives a message and goes to the back, or leaves. */
  function Iterate<M>(r: State<M>): (r': State<M>)
    requires Ok(r) && r.queue != []
    ensures Ok(r') && |r'.left| == |r.left|
  {
    var s := r.queue[0];
    if r.left[s] == [] then r.(queue := r.queue[1..])
    else State(r.queue[1..] + [s], r.left[s := r.left[s][1..]], r.log + [Delivery(s, r.left[s][0])])
  }

  /** The state after `n` iterations, or when the ring is empty. */
  function Iterations<M>(r: State<M>, n: nat): (r': State<M>)
    requires Ok(r)
    ensures Ok(r') && |r'.left| == |r.left|
    decreases n
  {
    if n == 0 || r.queue == [] then r else Iterations(Iterate(r), n - 1)
  }

  /** One more iteration at the end. */
  lemma {:induction false} OneMore<M>(r: State<M>, n: nat)
    requires Ok(r) && Iterations(r, n).queue != []
    ensures Iterations(r, n + 1) == Iterate(Iterations(r, n))
    decreases n
  {
    if n > 0 { OneMore(Iterate(r), n - 1); }
  }

  /** What was delivered and, in the rounds to come, will be. */
  function AllOf<M>(r: State<M>): (all: seq<Delivery<M>>)
    requires Ok(r)
    ensures r.log <= all && (r.queue == [] ==> all == r.log)
  {
    r.log + Rounds(r.queue, r.left)
  }

  /** That does not change; and the loop ends. */
  lemma IterateRounds<M>(r: State<M>)
    requires Ok(r) && r.queue != []
    ensures var r' := Iterate(r);
      && AllOf(r') == AllOf(r)
      && if r.left[r.queue[0]] == [] then r'.left == r.left && r'.log == r.log && |r'.queue| < |r.queue|
         else Total(r'.left) < Total(r.left) && |r'.log| == |r.log| + 1
  {
    var s := r.queue[0];
    if r.left[s] != [] {
      TotalTake(r.left, s);
      var d, rest := [Delivery(s, r.left[s][0])], Rounds(r.queue[1..] + [s], r.left[s := r.left[s][1..]]);
      assert Rounds(r.queue, r.left) == d + rest;
      assert r.log + (d + rest) == (r.log + d) + rest;
    }
  }

  /** The ring holds the connections of `r`. */
  ghost predicate Going<M>(slots: seq<Slot>, pos: nat, end: nat, r: State<M>) {
    Holds(slots, pos, r.queue) && end == Place(pos, |r.queue|, |slots|) && Ok(r)
  }

  /** An iteration, in place. */
  method Serve<M>(slots: array<Slot>, pos: nat, end: nat, left: seq<seq<M>>, log: seq<Delivery<M>>, ghost r: State<M>)
    returns (pos': nat, end': nat, left': seq<seq<M>>, log': seq<Delivery<M>>, ghost r': State<M>, served: bool)
    requires Going(slots[..], pos, end, r) && r.queue != [] && r.left == left && r.log == log
    modifies slots
    ensures |log'| == |log| + (if served then 1 else 0)
    ensures r' == Iterate(r) && Going(slots[..], pos', end', r') && r'.left == left' && r'.log == log'
  {
    DropFront(slots[..], pos, r.queue);
    var s := slots[pos].id;
    r', served := Iterate(r), left[s] != [];
    if !served {
      pos', end' := Rotate(slots, pos, end, r.queue, false);
      left', log' := left, log;
    } else {
      pos', end' := Rotate(slots, pos, end, r.queue, true);
      left', log' := left[s := left[s][1..]], log + [Delivery(s, left[s][0])];
    }
  }

  lemma StartOfRing(slots: seq<Slot>, sockets: seq<nat>)
    requires |slots| == |sockets| + 1 && forall i | 0 <= i < |sockets| :: slots[i] == Socket(sockets[i])
    ensures Holds(slots, 0, sockets) && Place(0, |sockets|, |slots|) == |sockets|
  {
    forall k | 0 <= k <= |sockets| ensures Place(0, k, |slots|) == k {
      }
  }

  /** The loop over a ring that has been filled; it runs for `n` iterations. */
  method Run<M>(slots: array<Slot>, start: nat, supply: seq<seq<M>>, stop: nat -> bool, ghost first: State<M>)
    returns (log: seq<Delivery<M>>, ghost n: nat)
    requires Going(slots[..], 0, start, first) && first.left == supply && first.log == []
    modifies slots
    ensures log <= AllOf(first)
    ensures log == AllOf(first) || (log != [] && stop(|log| - 1))
    ensures log != [] ==> NoStop(stop, |log| - 1)
    ensures log == Iterations(first, n).log
  {
    var pos: nat, end: nat, left := 0, start, supply;
    ghost var r := first;
    log, n := [], 0;
    while pos != end
      invariant Going(slots[..], pos, end, r) && r.left == left && r.log == log
      invariant r == Iterations(first, n)
      invariant AllOf(r) == AllOf(first)
      invariant NoStop(stop, |log|)
      decreases Total(r.left), |r.queue|
    {
      EmptyMeansEqual(pos, |r.queue|, slots.Length);
      IterateRounds(r);
      OneMore(first, n);
      n := n + 1;
      var served;
      pos, end, left, log, r, served := Serve(slots, pos, end, left, log, r);
      if served && stop(|log| - 1) { return; }
    }
    EmptyMeansEqual(pos, |r.queue|, slots.Length);
  }

  /** Filling the ring and running the loop, for `n` iterations.  `stop(k)` says whether handling the
      k-th message changed the set of connections; the loop is abandoned at the first such message. */
  method Deliver<M>(sockets: seq<nat>, supply: seq<seq<M>>, stop: nat -> bool)
    returns (log: seq<Delivery<M>>, ghost n: nat)
    requires InRange(sockets, |supply|)
    ensures log <= Rounds(sockets, supply)
    ensures log == Rounds(sockets, supply) || (log != [] && stop(|log| - 1))
    ensures log != [] ==> NoStop(stop, |log| - 1)
    ensures log == Iterations(State(sockets, supply, []), n).log
  {
    var slots := new Slot[|sockets| + 1](i => if 0 <= i < |sockets| then Socket(sockets[i]) else Null);
    StartOfRing(slots[..], sockets);
    ghost var first := State(sockets, supply, []);
    assert AllOf(first) == Rounds(sockets, supply);
    log, n := Run(slots, |sockets|, supply, stop, first);
  }

  predicate NoStop(stop: nat -> bool, n: nat) {
    forall k | 0 <= k < n :: !stop(k)
  }

  lemma EmptyMeansEqual(pos: nat, len: nat, n: nat)
    requires 0 <= len < n && pos < n
    ensures pos == Place(pos, len, n) <==> len == 0
  {
  }

  // ----- what the order guarantees -----

  /** The messages of one connection, in the order delivered. */
  function From<M>(log: seq<Delivery<M>>, s: nat): seq<M> {
    if log == [] then []
    else (if log[0].socket == s then [log[0].msg] else []) + From(log[1..], s)
  }

  predicate Distinct(queue: seq<nat>) {
    forall i, j | 0 <= i < j < |queue| :: queue[i] != queue[j]
  }

  lemma RotateDistinct(queue: seq<nat>)
    requires queue != [] && Distinct(queue)
    ensures Distinct(queue[1..]) && Distinct(queue[1..] + [queue[0]]) && queue[0] !in queue[1..]
    ensures forall s :: s in queue <==> s in queue[1..] + [queue[0]]
  {
    assert queue == [queue[0]] + queue[1..];
  }

  /** Every message is delivered exactly once, in the order of its connection, and nothing else is. */
  lemma {:induction false} DeliversEverything<M>(queue: seq<nat>, supply: seq<seq<M>>, s: nat)
    requires Distinct(queue) && InRange(queue, |supply|)
    ensures From(Rounds(queue, supply), s) == if s in queue then supply[s] else []
    decreases Total(supply), |queue|
  {
    if queue != [] {
      var t := queue[0];
      RotateDistinct(queue);
      if supply[t] == [] {
        DeliversEverything(queue[1..], supply, s);
      } else {
        TotalTake(supply, t);
        var rest := Rounds(queue[1..] + [t], supply[t := supply[t][1..]]);
        DeliversEverything(queue[1..] + [t], supply[t := supply[t][1..]], s);
        assert Rounds(queue, supply)[1..] == rest;
        assert supply[t] == [supply[t][0]] + supply[t][1..];
      }
    }
  }

  function Taken<M>(log: seq<Delivery<M>>, s: nat): nat { |From(log, s)| }

  lemma {:induction false} TakenAppend<M>(log: seq<Delivery<M>>, d: Delivery<M>, s: nat)
    ensures Taken(log + [d], s) == Taken(log, s) + (if d.socket == s then 1 else 0)
  {
    if log == [] {
      assert log + [d] == [d] && [d][1..] == [];
    } else {
      assert (log + [d])[1..] == log[1..] + [d];
      TakenAppend(log[1..], d, s);
    }
  }

  /** In each round everybody still in the ring is served once: the first `k` have been served `c`
      times and the others once more. */
  predicate Balanced<M>(r: State<M>, k: nat, c: nat) {
    && k <= |r.queue| && Distinct(r.queue)
    && (forall i | 0 <= i < k :: Taken(r.log, r.queue[i]) == c)
    && (forall i | k <= i < |r.queue| :: Taken(r.log, r.queue[i]) == c + 1)
  }

  lemma IterateBalanced<M>(r: State<M>, k: nat, c: nat)
    requires Ok(r) && r.queue != [] && Balanced(r, k, c) && k > 0
    ensures Balanced(Iterate(r), k - 1, c)
  {
    var r', s := Iterate(r), r.queue[0];
    RotateDistinct(r.queue);
    forall i | 0 <= i < |r'.queue| ensures Taken(r'.log, r'.queue[i]) == if i < k - 1 then c else c + 1 {
      if r.left[s] != [] { TakenAppend(r.log, Delivery(s, r.left[s][0]), r'.queue[i]); }
      if i < |r.queue| - 1 {
        assert r'.queue[i] == r.queue[i + 1] && r.queue[1..][i] == r.queue[i + 1];
      }
    }
  }

  lemma {:induction false} IterationsBalanced<M>(r: State<M>, k: nat, c: nat, n: nat) returns (k': nat, c': nat)
    requires Ok(r) && Balanced(r, k, c)
    ensures Balanced(Iterations(r, n), k', c')
    decreases n
  {
    k', c' := k, c;
    if n > 0 && r.queue != [] {
      if k == 0 { k', c' := |r.queue|, c + 1; }
      IterateBalanced(r, k', c');
      k', c' := IterationsBalanced(Iterate(r), k' - 1, c', n - 1);
    }
  }

  /** After any number of iterations, any two connections still in the ring, whether or not they have
      more messages, have been served equally often, give or take one. */
  lemma Fair<M>(sockets: seq<nat>, supply: seq<seq<M>>, n: nat, i: nat, j: nat)
    requires Distinct(sockets) && InRange(sockets, |supply|)
    requires var r := Iterations(State(sockets, supply, []), n); i in r.queue && j in r.queue
    ensures var log := Iterations(State(sockets, supply, []), n).log; -1 <= Taken(log, i) - Taken(log, j) <= 1
  {
    var k, c := IterationsBalanced(State(sockets, supply, []), |sockets|, 0, n);
  }
}
