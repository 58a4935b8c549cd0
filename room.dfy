/**
 * The room and its clients as objects, with the run loop's three arms as
 * methods that update them in place. Each method's new state is tied to
 * the transition of the same name in module Hub.
 */
module ChatRoom {
  import opened Chan
  import Hub

  /** A connected client; only its outbound channel `send` is modelled. */
  class Client {
    var send: Queue

    /** The client built for a new connection, with a fresh channel of `messageBufferSize`. */
    constructor ()
      ensures send == Make(MessageBufferSize)
    {
      send := Make(MessageBufferSize);
    }

    /** One receive of the write pump's `for msg := range c.send`. */
    method Receive() returns (r: Received)
      modifies this
      ensures (r, send) == Chan.Receive(old(send))
      ensures r.Got? ==> r.m == old(send).buf[0] && send.buf == old(send).buf[1..]
      ensures send.closed == old(send).closed
    {
      var res := Chan.Receive(send);
      r, send := res.0, res.1;
    }
  }

  class Room {
    /** The clients currently in the room (the key set of `clients`). */
    var clients: set<Client>

    /** The room's state as seen by module Hub, with the channels of the clients in `known`. */
    ghost function View(known: set<Client>): Hub.State<Client>
      reads this, known
    {
      Hub.State(clients, map c | c in known :: c.send)
    }

    /** Members' channels are open and within capacity. */
    ghost predicate Valid()
      reads this, clients
    {
      forall c :: c in clients ==> !c.send.closed && WithinCap(c.send)
    }

    /** The room's invariant is `Hub.Valid` of its view. */
    lemma ValidIsHubValid()
      ensures Valid() <==> Hub.Valid(View(clients))
    {
    }

    /** `newRoom`: a room with nobody in it. */
    constructor ()
      ensures clients == {}
      ensures Valid()
    {
      clients := {};
    }

    /** The join arm: the client becomes a member and no channel changes. */
    method Join(c: Client)
      modifies this
      ensures clients == old(clients) + {c}
      ensures View(clients) == Hub.Join(old(View(clients + {c})), c)
      ensures old(Valid()) && !c.send.closed && WithinCap(c.send) ==> Valid()
    {
      clients := clients + {c};
    }

    /**
     * The leave arm as written: remove the client, member or not, and
     * close its channel, which must still be open.
     */
    method Leave(c: Client)
      requires !c.send.closed
      modifies this, c
      ensures clients == old(clients) - {c}
      ensures c.send == Close(old(c.send))
      ensures View(old(clients) + {c}) == Hub.Leave(old(View(clients + {c})), c)
      ensures old(Valid()) ==> Valid()
    {
      clients := clients - {c};
      c.send := Close(c.send);
    }

    /** The guarded leave arm: only a member is removed and has its channel closed. */
    method LeaveIfMember(c: Client)
      requires Valid()
      modifies this, c
      ensures Valid()
      ensures clients == old(clients) - {c}
      ensures c.send == if c in old(clients) then Close(old(c.send)) else old(c.send)
      ensures View(old(clients) + {c}) == Hub.LeaveIfMember(old(View(clients + {c})), c)
    {
      if c in clients {
        Leave(c);
      }
    }

    /**
     * The forward arm: a non-blocking send to every member, in whatever
     * order the iteration picks; a member whose channel is full is
     * removed and its channel closed.
     */
    method Forward(m: Message)
      requires forall c :: c in clients ==> !c.send.closed
      modifies this, clients
      ensures clients <= old(clients)
      ensures View(old(clients)) == Hub.Forward(old(View(clients)), m)
      ensures forall c :: c in old(clients) && HasRoom(old(c.send)) ==>
        c in clients && c.send == Send(old(c.send), m)
      ensures forall c :: c in old(clients) && !HasRoom(old(c.send)) ==>
        c !in clients && c.send == Close(old(c.send))
      ensures old(Valid()) ==> Valid()
    {
      ghost var before := View(clients);
      ghost var done: set<Client> := {};
      var todo := clients;
      while todo != {}
        invariant todo + done == old(clients) && todo !! done
        invariant clients == old(clients) - (set d | d in done && !HasRoom(old(d.send)))
        invariant forall d :: d in todo ==> d.send == old(d.send)
        invariant forall d :: d in done ==> d.send == Hub.Outcome(old(d.send), m)
        decreases todo
      {
        var c :| c in todo;
        if HasRoom(c.send) {
          c.send := Send(c.send, m);
        } else {
          clients := clients - {c};
          c.send := Close(c.send);
        }
        todo, done := todo - {c}, done + {c};
      }
      ghost var after := Hub.Forward(before, m);
      assert View(old(clients)).members == after.members;
      assert View(old(clients)).queues == after.queues;
    }
  }

  /** Two clients join, one message is broadcast to both, and one leaves. */
  method BroadcastScenario(hi: Message)
  {
    var room := new Room();
    var a := new Client();
    var b := new Client();
    room.Join(a);
    room.Join(b);
    assert room.clients == {a, b};
    assert HasRoom(a.send) && HasRoom(b.send);
    room.Forward(hi);
    assert a in room.clients && a.send.buf == [hi];
    assert b in room.clients && b.send.buf == [hi];
    room.Leave(a);
    assert room.clients == {b} && a.send.closed && a.send.buf == [hi];
    var r := a.Receive();
    assert r == Got(hi);
    r := a.Receive();
    assert r == Ended;
  }
}
