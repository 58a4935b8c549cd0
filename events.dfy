/**
 * Runs of the room: the events the connection adapter and the pumps feed
 * the run loop, processed one at a time. A Go panic (closing a closed
 * channel, sending on a closed channel) ends the run as `Panicked`.
 */
module Events {
  import opened Chan
  import opened Hub

  /**
   * `Connect(c)`: a new client with a fresh channel of capacity
   * `MessageBufferSize` is sent on `join`. `Disconnect(c)`: its deferred
   * send on `leave`. `Broadcast(m)`: a message read by some client and
   * sent on `forward`. `Drain(c)`: one receive by `c`'s write pump.
   */
  datatype Event<K> = Connect(c: K) | Disconnect(c: K) | Broadcast(m: Message) | Drain(c: K)

  /** `Impossible` marks an event the adapter never produces (a reused or unknown client). */
  datatype RunResult<K> = Running(state: State<K>) | Panicked | Impossible

  /** Which leave arm the loop runs: the one in the source, or the guarded one. */
  datatype Policy = AsWritten | MemberOnly

  /** A value-suffix of a channel buffer: nothing was added, only the oldest values taken. */
  ghost predicate IsSuffix(t: seq<Message>, u: seq<Message>)
  {
    |t| <= |u| && t == u[|u| - |t|..]
  }

  /**
   * A client that is not a member stays out, keeps its channel, and is
   * sent nothing: its buffer can only lose its oldest values, and a closed
   * channel stays closed.
   */
  ghost predicate KeepsRemovedOut<K>(s: State<K>, o: RunResult<K>)
  {
    o.Running? ==>
      && s.queues.Keys <= o.state.queues.Keys
      && forall k :: k in s.queues && k !in s.members ==>
        && k in o.state.queues && k !in o.state.members
        && IsSuffix(o.state.queues[k].buf, s.queues[k].buf)
        && (s.queues[k].closed ==> o.state.queues[k].closed)
  }

  /** The join arm for a client the adapter has just built (chat/room.go:78-83). */
  function ConnectStep<K>(s: State<K>, c: K): (o: RunResult<K>)
    ensures o != Panicked
    ensures c !in s.queues ==> o.Running? && o.state.queues.Keys == s.queues.Keys + {c}
    ensures o.Running? ==> c in o.state.members && c in o.state.queues && o.state.queues[c] == Make(MessageBufferSize)
    ensures o.Running? ==> o.state.members == s.members + {c} && forall k :: k in s.queues ==> k in o.state.queues && o.state.queues[k] == s.queues[k]
    ensures KeepsRemovedOut(s, o)
    ensures Settled(s) && o.Running? ==> Settled(o.state)
  {
    if c in s.queues then Impossible
    else Running(Join(State(s.members, s.queues[c := Make(MessageBufferSize)]), c))
  }

  /** The leave arm: as written it panics on a channel that is already closed. */
  function DisconnectStep<K>(p: Policy, s: State<K>, c: K): (o: RunResult<K>)
    ensures o.Running? ==> c !in o.state.members && o.state.queues.Keys == s.queues.Keys
    ensures Settled(s) && c in s.queues && p == MemberOnly ==> o.Running?
    ensures Settled(s) && c in s.members ==> o.Running?
    ensures o.Running? ==> o.state.members == s.members - {c} && forall k :: k in s.queues && k != c ==> o.state.queues[k] == s.queues[k]
    ensures Settled(s) && o.Running? ==> c in s.queues && o.state.queues[c].closed && o.state.queues[c].buf == s.queues[c].buf
    ensures KeepsRemovedOut(s, o)
    ensures Settled(s) && o.Running? ==> Settled(o.state)
    ensures Settled(s) && p == MemberOnly ==> o != Panicked
    ensures Settled(s) && p == AsWritten ==> (o == Panicked <==> c in s.queues && c !in s.members)
  {
    if c !in s.queues then Impossible
    else if p == AsWritten then
      (if s.queues[c].closed then Panicked else Running(Leave(s, c)))
    else if c in s.members then
      (if s.queues[c].closed then Panicked else Running(Leave(s, c)))
    else Running(s)
  }

  /** The forward arm: it panics if some member's channel is closed. */
  function BroadcastStep<K>(s: State<K>, m: Message): (o: RunResult<K>)
    ensures o == Panicked <==> s.members <= s.queues.Keys && !Sendable(s)
    ensures Settled(s) ==> o == Running(Forward(s, m))
    ensures KeepsRemovedOut(s, o)
    ensures Settled(s) && o.Running? ==> Settled(o.state)
  {
    if !(s.members <= s.queues.Keys) then Impossible
    else if !Sendable(s) then Panicked
    else Running(Forward(s, m))
  }

  /** One receive by the client's write pump (chat/client.go:28). */
  function DrainStep<K>(s: State<K>, c: K): (o: RunResult<K>)
    ensures o != Panicked
    ensures c in s.queues ==> o.Running? && o.state.queues.Keys == s.queues.Keys
    ensures o.Running? ==> o.state.members == s.members
    ensures o.Running? ==> c in s.queues && o.state.queues == s.queues[c := Receive(s.queues[c]).1]
    ensures KeepsRemovedOut(s, o)
    ensures Settled(s) && o.Running? ==> Settled(o.state)
  {
    if c !in s.queues then Impossible
    else Running(State(s.members, s.queues[c := Receive(s.queues[c]).1]))
  }

  /**
   * An event the adapter can produce given the clients it has built so
   * far: a new client is fresh, and only a built client leaves or drains.
   */
  ghost predicate Fits<K>(known: set<K>, e: Event<K>)
  {
    match e
    case Connect(c) => c !in known
    case Disconnect(c) => c in known
    case Broadcast(_) => true
    case Drain(c) => c in known
  }

  /** One event: an arm of the run loop, or one receive by a write pump. */
  function Step<K>(p: Policy, s: State<K>, e: Event<K>): (o: RunResult<K>)
    ensures o.Running? ==> o.state.queues.Keys == s.queues.Keys + (if e.Connect? then {e.c} else {})
    ensures Settled(s) && p == MemberOnly && Fits(s.queues.Keys, e) ==> o.Running?
    ensures Settled(s) && Fits(s.queues.Keys, e) ==> o.Running? || o == Panicked
    ensures KeepsRemovedOut(s, o)
    ensures Settled(s) ==> (o.Running? ==> Settled(o.state))
    ensures Settled(s) && p == MemberOnly ==> o != Panicked
    ensures Settled(s) && p == AsWritten ==>
      (o == Panicked <==> e.Disconnect? && e.c in s.queues && e.c !in s.members)
  {
    match e
    case Connect(c) => ConnectStep(s, c)
    case Disconnect(c) => DisconnectStep(p, s, c)
    case Broadcast(m) => BroadcastStep(s, m)
    case Drain(c) => DrainStep(s, c)
  }

  /** The events handled in order, starting from `s`; a panic or an impossible event ends the run. */
  function Run<K>(p: Policy, s: State<K>, es: seq<Event<K>>): (r: RunResult<K>)
    ensures r.Running? ==> s.queues.Keys <= r.state.queues.Keys
    decreases |es|
  {
    if es == [] then Running(s)
    else
      match Run(p, s, es[..|es| - 1])
      case Running(t) => Step(p, t, es[|es| - 1])
      case other => other
  }

  /**
   * With the guarded leave, no sequence of events from a new room ever
   * panics, and every state it reaches is settled: members' channels are
   * open, removed clients' channels are closed, and none is over capacity.
   */
  lemma {:induction false} GuardedRunNeverPanics<K>(es: seq<Event<K>>)
    ensures Run(MemberOnly, NewRoom(), es) != Panicked
    ensures Run(MemberOnly, NewRoom(), es).Running? ==> Settled(Run(MemberOnly, NewRoom(), es).state)
    decreases |es|
  {
    if es != [] {
      GuardedRunNeverPanics(es[..|es| - 1]);
    }
  }

  /** The clients the adapter has built in the course of `es`. */
  ghost function Known<K>(es: seq<Event<K>>): set<K>
    decreases |es|
  {
    if es == [] then {}
    else Known(es[..|es| - 1]) + (if es[|es| - 1].Connect? then {es[|es| - 1].c} else {})
  }

  /** Every event of `es` fits the clients built before it. */
  ghost predicate WellFormed<K>(es: seq<Event<K>>)
    decreases |es|
  {
    es == [] || (WellFormed(es[..|es| - 1]) && Fits(Known(es[..|es| - 1]), es[|es| - 1]))
  }

  /**
   * With the guarded leave, every event sequence the adapter can produce
   * from a new room runs to the end: no step panics or is refused, and the
   * channels known are exactly those of the clients built.
   */
  lemma {:induction false} GuardedWellFormedRunRuns<K>(es: seq<Event<K>>)
    requires WellFormed(es)
    ensures Run(MemberOnly, NewRoom(), es).Running?
    ensures Run(MemberOnly, NewRoom(), es).state.queues.Keys == Known(es)
    ensures Settled(Run(MemberOnly, NewRoom(), es).state)
    decreases |es|
  {
    if es != [] {
      GuardedWellFormedRunRuns(es[..|es| - 1]);
    }
  }

  /**
   * With either leave arm, a client that is no longer a member stays out
   * for the rest of the run and is sent nothing more: its channel only
   * loses its oldest values to its own write pump.
   */
  lemma {:induction false} RemovedStaysOut<K>(p: Policy, s: State<K>, es: seq<Event<K>>, k: K)
    requires k in s.queues && k !in s.members
    ensures Run(p, s, es).Running? ==>
      var t := Run(p, s, es).state;
      k in t.queues && k !in t.members && IsSuffix(t.queues[k].buf, s.queues[k].buf) &&
      (s.queues[k].closed ==> t.queues[k].closed)
    decreases |es|
  {
    if es != [] {
      RemovedStaysOut(p, s, es[..|es| - 1], k);
    }
  }

  /** `n` copies of the same broadcast. */
  function Broadcasts<K>(m: Message, n: nat): (es: seq<Event<K>>)
    ensures |es| == n && forall i :: 0 <= i < n ==> es[i] == Broadcast(m)
  {
    seq(n, _ => Broadcast(m))
  }

  /** A broadcast to a sole member whose channel has room appends to that channel. */
  lemma BroadcastToSole<K>(p: Policy, c: K, m: Message, buf: seq<Message>)
    requires |buf| < MessageBufferSize
    ensures Step(p, State({c}, map[c := Queue(buf, MessageBufferSize, false)]), Broadcast(m))
      == Running(State({c}, map[c := Queue(buf + [m], MessageBufferSize, false)]))
  {
    var s := State({c}, map[c := Queue(buf, MessageBufferSize, false)]);
    var r := Forward(s, m);
    assert c in r.members && r.queues[c] == Queue(buf + [m], MessageBufferSize, false);
    assert r.members == {c};
    assert r.queues == map[c := Queue(buf + [m], MessageBufferSize, false)];
  }

  /** A sole member that never drains holds every message sent so far. */
  lemma {:induction false} SoleMemberFills<K>(p: Policy, c: K, m: Message, n: nat)
    requires n <= MessageBufferSize
    ensures Run(p, NewRoom(), [Connect(c)] + Broadcasts(m, n))
      == Running(State({c}, map[c := Queue(seq(n, _ => m), MessageBufferSize, false)]))
    decreases n
  {
    var es := [Connect(c)] + Broadcasts(m, n);
    if n == 0 {
      assert es == [] + [Connect(c)];
      assert es[..|es| - 1] == [];
    } else {
      SoleMemberFills(p, c, m, n - 1);
      assert es[..|es| - 1] == [Connect(c)] + Broadcasts(m, n - 1);
      var buf := seq(n - 1, _ => m);
      assert seq(n, _ => m) == buf + [m];
      assert es[|es| - 1] == Broadcast(m);
      BroadcastToSole(p, c, m, buf);
    }
  }

  /**
   * The eviction scenario: one client joins and never drains; 257
   * messages are broadcast; then its deferred leave arrives.
   */
  function EvictThenLeave<K>(c: K, m: Message): (es: seq<Event<K>>)
    ensures |es| == MessageBufferSize + 3 && es[0] == Connect(c) && es[|es| - 1] == Disconnect(c)
  {
    [Connect(c)] + Broadcasts(m, MessageBufferSize + 1) + [Disconnect(c)]
  }

  /**
   * As written, the run of the eviction scenario panics: the 257th
   * broadcast evicts the client and closes its channel, and the deferred
   * leave closes that channel again.
   */
  lemma AsWrittenEvictThenLeavePanics<K>(c: K, m: Message)
    ensures Run(AsWritten, NewRoom(), EvictThenLeave(c, m)) == Panicked
  {
    var es := EvictThenLeave(c, m);
    var full := [Connect(c)] + Broadcasts(m, MessageBufferSize);
    SoleMemberFills(AsWritten, c, m, MessageBufferSize);
    assert es[..|es| - 1] == full + [Broadcast(m)];
    assert (full + [Broadcast(m)])[..|full|] == full;
    var evicted := Run(AsWritten, NewRoom(), full + [Broadcast(m)]);
    assert evicted.Running? && c !in evicted.state.members && evicted.state.queues[c].closed;
  }

  /** With the guarded leave, the same scenario runs to completion with the client gone. */
  lemma GuardedEvictThenLeaveRuns<K>(c: K, m: Message)
    ensures Run(MemberOnly, NewRoom(), EvictThenLeave(c, m)).Running?
    ensures Run(MemberOnly, NewRoom(), EvictThenLeave(c, m)).state.members == {}
  {
    var es := EvictThenLeave(c, m);
    var full := [Connect(c)] + Broadcasts(m, MessageBufferSize);
    SoleMemberFills(MemberOnly, c, m, MessageBufferSize);
    assert es[..|es| - 1] == full + [Broadcast(m)];
    assert (full + [Broadcast(m)])[..|full|] == full;
    var evicted := Run(MemberOnly, NewRoom(), full + [Broadcast(m)]);
    assert evicted.Running? && evicted.state.members == {};
  }
}
