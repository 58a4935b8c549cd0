/**
 * A client's outbound queue: a buffered Go channel of messages
 * (`make(chan []byte, messageBufferSize)`), seen as a value.
 * Sending on a closed channel and closing a closed channel both panic
 * in Go; here they are preconditions.
 */
module Chan {

  /** A chat message: an opaque byte string (Go's `[]byte`). */
  type Message = seq<bv8>

  /** Capacity of every client's outbound queue (`messageBufferSize`). */
  const MessageBufferSize: nat := 256

  /** Buffered values in FIFO order, the channel's capacity, and whether it was closed. */
  datatype Queue = Queue(buf: seq<Message>, cap: nat, closed: bool)

  /** A channel never buffers more values than its capacity. */
  predicate WithinCap(q: Queue)
  {
    |q.buf| <= q.cap
  }

  /** For a buffered channel, a non-blocking send succeeds exactly when there is room in the buffer. */
  predicate HasRoom(q: Queue)
  {
    |q.buf| < q.cap
  }

  /** A freshly made buffered channel. */
  function Make(cap: nat): (q: Queue)
    ensures WithinCap(q) && !q.closed && q.buf == [] && q.cap == cap
  {
    Queue([], cap, false)
  }

  /** The send arm of a non-blocking `select`, taken when the channel has room. */
  function Send(q: Queue, m: Message): (r: Queue)
    requires !q.closed && HasRoom(q)
    ensures WithinCap(r) && !r.closed && r.cap == q.cap
    ensures |r.buf| == |q.buf| + 1 && r.buf[..|q.buf|] == q.buf && r.buf[|q.buf|] == m
  {
    q.(buf := q.buf + [m])
  }

  /** `close(ch)`: the buffered values stay available to the receiver. */
  function Close(q: Queue): (r: Queue)
    requires !q.closed
    ensures r.closed && r.buf == q.buf && r.cap == q.cap
    ensures WithinCap(q) ==> WithinCap(r)
  {
    q.(closed := true)
  }

  /** What one receive of `for msg := range ch` observes. */
  datatype Received = Got(m: Message) | Ended | Blocked

  /**
   * One receive: the oldest buffered value if there is one (also after
   * close), the end of the range loop on a closed and drained channel,
   * and otherwise a receive that would block.
   */
  function Receive(q: Queue): (res: (Received, Queue))
    ensures res.0.Got? <==> q.buf != []
    ensures res.0.Ended? <==> q.buf == [] && q.closed
    ensures res.0.Got? ==> res.0.m == q.buf[0] && res.1.buf == q.buf[1..]
    ensures !res.0.Got? ==> res.1 == q
    ensures res.1.closed == q.closed && res.1.cap == q.cap
    ensures WithinCap(q) ==> WithinCap(res.1)
  {
    if q.buf != [] then (Got(q.buf[0]), q.(buf := q.buf[1..]))
    else if q.closed then (Ended, q)
    else (Blocked, q)
  }
}
