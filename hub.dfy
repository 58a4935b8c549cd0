/**
 * The room's state as a value and the three arms of its run loop as
 * functions on it. `K` stands for the identity of a `*client`; every
 * client known to the room has an entry in `queues` (its `send` channel),
 * and `members` is the key set of the room's `clients` map.
 */
module Hub {
  import opened Chan

  datatype State<K> = State(members: set<K>, queues: map<K, Queue>)

  /** Every member has a channel and it is still open, so sending to it cannot panic. */
  predicate Sendable<K>(s: State<K>)
  {
    && s.members <= s.queues.Keys
    && forall k :: k in s.members ==> !s.queues[k].closed
  }

  /** The room's invariant: members' channels are open and no channel is over capacity. */
  ghost predicate Valid<K>(s: State<K>)
  {
    && Sendable(s)
    && forall k :: k in s.queues ==> WithinCap(s.queues[k])
  }

  /**
   * In every state the connection adapter can reach, a known client that
   * is not a member has had its channel closed (it left or was evicted).
   */
  ghost predicate Settled<K>(s: State<K>)
  {
    && Valid(s)
    && forall k :: k in s.queues && k !in s.members ==> s.queues[k].closed
  }

  /** `newRoom`: nobody is in the room yet. */
  function NewRoom<K>(): (s: State<K>)
    ensures s.members == {}
    ensures Settled(s)
  {
    State({}, map[])
  }

  /** The join arm: `r.clients[client] = true`. */
  function Join<K>(s: State<K>, c: K): (r: State<K>)
    requires c in s.queues
    ensures c in r.members
    ensures r.members - {c} == s.members - {c}
    ensures r.queues == s.queues
    ensures c in s.members ==> r == s
    ensures Valid(s) && !s.queues[c].closed ==> Valid(r)
  {
    State(s.members + {c}, s.queues)
  }

  /**
   * The leave arm as written: `delete(r.clients, client)` then
   * `close(client.send)`, whether or not the client was a member.
   */
  function Leave<K>(s: State<K>, c: K): (r: State<K>)
    requires c in s.queues && !s.queues[c].closed
    ensures c !in r.members
    ensures r.queues.Keys == s.queues.Keys
    ensures r.queues[c].closed && r.queues[c].buf == s.queues[c].buf && r.queues[c].cap == s.queues[c].cap
    ensures r.members - {c} == s.members - {c}
    ensures forall k :: k in s.queues && k != c ==> r.queues[k] == s.queues[k]
    ensures c !in s.members ==> r.members == s.members
    ensures Valid(s) ==> Valid(r)
  {
    State(s.members - {c}, s.queues[c := Close(s.queues[c])])
  }

  /**
   * The leave arm with the usual guard: remove and close only a client
   * that is still a member, so a client that was already removed (and
   * whose channel is therefore already closed) is left alone.
   */
  function LeaveIfMember<K>(s: State<K>, c: K): (r: State<K>)
    requires c in s.queues && Sendable(s)
    ensures c !in r.members
    ensures Sendable(r)
    ensures Valid(s) ==> Valid(r)
    ensures c in s.members ==> r == Leave(s, c)
    ensures c !in s.members ==> r == s
    ensures Settled(s) ==> Settled(r) && r.queues[c].closed && r.queues[c].buf == s.queues[c].buf
  {
    if c in s.members then Leave(s, c) else s
  }

  /** What one member's non-blocking send does to its channel. */
  function Outcome(q: Queue, m: Message): (r: Queue)
    requires !q.closed
    ensures r.cap == q.cap
    ensures HasRoom(q) ==> !r.closed && r.buf == q.buf + [m]
    ensures !HasRoom(q) ==> r.closed && r.buf == q.buf
  {
    if HasRoom(q) then Send(q, m) else Close(q)
  }

  /**
   * One iteration of the fan-out loop, for member `c`: send if the
   * channel has room, otherwise delete `c` and close its channel.
   */
  function Deliver<K>(s: State<K>, c: K, m: Message): (r: State<K>)
    requires Sendable(s) && c in s.members
    ensures Sendable(r)
    ensures r.queues.Keys == s.queues.Keys
    ensures r.members - {c} == s.members - {c}
    ensures forall k :: k in s.queues && k != c ==> r.queues[k] == s.queues[k]
    ensures HasRoom(s.queues[c]) ==> c in r.members && r.queues[c] == Send(s.queues[c], m)
    ensures !HasRoom(s.queues[c]) ==> c !in r.members && r.queues[c] == Close(s.queues[c])
  {
    var q := s.queues[c];
    if HasRoom(q) then State(s.members, s.queues[c := Send(q, m)])
    else State(s.members - {c}, s.queues[c := Close(q)])
  }

  /** The fan-out applied at once to every client of `targets`, each on its own channel. */
  function DeliverTo<K>(s: State<K>, targets: set<K>, m: Message): (r: State<K>)
    requires Sendable(s) && targets <= s.members
    ensures Sendable(r)
    ensures r.queues.Keys == s.queues.Keys
    ensures r.members <= s.members
    ensures forall k :: k in s.members && k !in targets ==> k in r.members
    ensures forall k :: k in s.queues && k !in targets ==> r.queues[k] == s.queues[k]
  {
    State(s.members - (set k | k in targets && !HasRoom(s.queues[k])),
          map k | k in s.queues :: if k in targets then Outcome(s.queues[k], m) else s.queues[k])
  }

  /**
   * The forward arm: every member either gets `m` appended to its channel
   * or, when its channel is full, is evicted with its channel closed.
   */
  function Forward<K>(s: State<K>, m: Message): (r: State<K>)
    requires Sendable(s)
    ensures r.members <= s.members
    ensures r.queues.Keys == s.queues.Keys
    ensures forall k :: k in s.members && HasRoom(s.queues[k]) ==>
      k in r.members && r.queues[k] == Send(s.queues[k], m)
    ensures forall k :: k in s.members && !HasRoom(s.queues[k]) ==>
      k !in r.members && r.queues[k] == Close(s.queues[k])
    ensures forall k :: k in s.queues && k !in s.members ==> r.queues[k] == s.queues[k]
    ensures s.members == {} ==> r == s
    ensures Valid(s) ==> Valid(r)
    ensures Settled(s) ==> Settled(r)
  {
    DeliverTo(s, s.members, m)
  }

  /** No element occurs twice. */
  ghost predicate Distinct<K>(order: seq<K>)
  {
    forall i, j :: 0 <= i < j < |order| ==> order[i] != order[j]
  }

  /** The set of elements of a sequence. */
  ghost function Elems<K>(order: seq<K>): set<K>
  {
    set i | 0 <= i < |order| :: order[i]
  }

  /** The fan-out loop run member by member in the order `order` (one possible map iteration order). */
  function ForwardInOrder<K>(s: State<K>, order: seq<K>, m: Message): (r: State<K>)
    requires Sendable(s) && Distinct(order)
    requires forall i :: 0 <= i < |order| ==> order[i] in s.members
    ensures Sendable(r)
    ensures r.members <= s.members
    ensures r.queues.Keys == s.queues.Keys
    ensures forall k :: k in s.queues && k !in Elems(order) ==> r.queues[k] == s.queues[k]
    decreases |order|
  {
    if order == [] then s
    else
      var s' := Deliver(s, order[0], m);
      assert forall i :: 1 <= i < |order| ==> order[i] != order[0];
      ForwardInOrder(s', order[1..], m)
  }

  /** One iteration of the loop is the fan-out to that member alone. */
  lemma DeliverIsSingleton<K>(s: State<K>, c: K, m: Message)
    requires Sendable(s) && c in s.members
    ensures Deliver(s, c, m) == DeliverTo(s, {c}, m)
  {
    var r, t := Deliver(s, c, m), DeliverTo(s, {c}, m);
    assert r.members == t.members;
    assert r.queues == t.queues;
  }

  /** Delivering to `a` and then to a disjoint `b` is delivering to `a + b`. */
  lemma DeliverToCompose<K>(s: State<K>, a: set<K>, b: set<K>, m: Message)
    requires Sendable(s) && a <= s.members && b <= s.members && a !! b
    ensures b <= DeliverTo(s, a, m).members
    ensures DeliverTo(DeliverTo(s, a, m), b, m) == DeliverTo(s, a + b, m)
  {
    var t := DeliverTo(s, a, m);
    assert forall k :: k in b ==> t.queues[k] == s.queues[k];
    var r, u := DeliverTo(t, b, m), DeliverTo(s, a + b, m);
    assert r.members == u.members;
    assert r.queues == u.queues;
  }

  /** The loop in any order delivers to exactly the members it visits. */
  lemma {:induction false} ForwardInOrderIsDeliverTo<K>(s: State<K>, order: seq<K>, m: Message)
    requires Sendable(s) && Distinct(order)
    requires forall i :: 0 <= i < |order| ==> order[i] in s.members
    ensures Elems(order) <= s.members
    ensures ForwardInOrder(s, order, m) == DeliverTo(s, Elems(order), m)
    decreases |order|
  {
    if order == [] {
      var r := DeliverTo(s, {}, m);
      assert r.members == s.members;
      assert r.queues == s.queues;
    } else {
      var c, rest := order[0], order[1..];
      assert forall i :: 1 <= i < |order| ==> order[i] != c;
      var s' := Deliver(s, c, m);
      ForwardInOrderIsDeliverTo(s', rest, m);
      DeliverIsSingleton(s, c, m);
      assert Elems(order) == {c} + Elems(rest) by {
        forall x | x in Elems(order) ensures x in {c} + Elems(rest) {
          var i :| 0 <= i < |order| && order[i] == x;
          if i > 0 { assert rest[i - 1] == x; }
        }
      }
      assert c !in Elems(rest);
      DeliverToCompose(s, {c}, Elems(rest), m);
    }
  }

  /**
   * Fan-out is independent of the map's iteration order: visiting the
   * members one at a time, in any order that lists each exactly once,
   * yields the `Forward` state.
   */
  lemma ForwardOrderIndependent<K>(s: State<K>, order: seq<K>, m: Message)
    requires Sendable(s) && Distinct(order) && Elems(order) == s.members
    ensures forall i :: 0 <= i < |order| ==> order[i] in s.members
    ensures ForwardInOrder(s, order, m) == Forward(s, m)
  {
    assert forall i :: 0 <= i < |order| ==> order[i] in Elems(order);
    ForwardInOrderIsDeliverTo(s, order, m);
  }
}
