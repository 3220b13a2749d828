/**
 * One physical link of a Fusion session: the Connection object of connection.go
 * with its lazily started drain task ("writeloop"), its bounded outbound queue
 * ("outChan", capacity 4) and its latched termination cause ("closed").
 *
 * Every mutex-protected body of the source is one atomic method here, and one
 * iteration of the writeloop goroutine is the method DrainStep.  The transport
 * (a net.Conn) is abstract: the buffers it has accepted, in order, and how often
 * it has been closed.  Its replies (write errors, read results) are parameters.
 */
module Connections {
  import opened Wrappers

  newtype byte = x: int | 0 <= x < 256

  /** Go's uint64, the type of the interface identifier. */
  newtype u64 = x: int | 0 <= x < 0x1_0000_0000_0000_0000

  /** A Go `[]byte`; the nil slice and the empty slice are both []. */
  type Buffer = seq<byte>

  /** The buffer size of outChan, `make(chan []byte, 4)`. */
  const QueueCapacity: nat := 4

  /** The bytes of "goodbye", the wake-up buffer that Close offers to the queue. */
  const Goodbye: Buffer := [103, 111, 111, 100, 98, 121, 101]

  /** The causes a connection can latch. */
  datatype Error =
    | CloseRequested                 // errors.New("close requested")
    | TransportFailure(reason: string) // an error returned by the transport

  /** What the transport's Read would answer, were it asked. */
  datatype ReadReply = ReadReply(n: nat, err: Option<Error>)

  /** The answer of Connection.Read, and whether the transport was consulted. */
  datatype ReadResult = ReadResult(n: nat, err: Option<Error>, touchedTransport: bool)

  /** The answer of Connection.ReadFull, and whether the transport was consulted. */
  datatype ReadFullResult = ReadFullResult(err: Option<Error>, touchedTransport: bool)

  class Connection {
    /** The interface label ("" on the accepting side) and identifier. */
    const iface: string
    const ifaceID: u64

    /** outChan: its buffered contents, whether make() has run, whether close() has run. */
    var queue: seq<Buffer>
    var queueCreated: bool
    var queueClosed: bool

    var running: bool
    /** The latched cause; None is Go's nil. */
    var closed: Option<Error>

    /** The abstract transport: the buffers it has fully written, and its Close calls. */
    var transportLog: seq<Buffer>
    var transportCloses: nat

    /** Whether a writeloop goroutine is alive. */
    ghost var drainActive: bool
    /** How many times start() has run, and how many `go conn.Close()` the drain task has spawned. */
    ghost var starts: nat
    ghost var spawnedCloses: nat
    /**
     * Since the last start(): every buffer put into the current queue, every
     * buffer the drain task has received from it, and the transport log at start.
     */
    ghost var enqueued: seq<Buffer>
    ghost var taken: seq<Buffer>
    ghost var epochLog: seq<Buffer>

    /** The invariant every atomic section keeps. */
    ghost predicate Valid()
      reads this
    {
      && |queue| <= QueueCapacity
      && (!queueCreated ==> queue == [] && !queueClosed && !drainActive && starts == 0)
      // running: an open queue, a live drain task, nothing latched
      && (running ==> queueCreated && !queueClosed && drainActive && closed.None?)
      && (drainActive ==> queueCreated && starts >= 1)
      // a drain task that outlives `running` was stopped by Close
      && (drainActive && !running ==> queueClosed && closed.Some? && transportCloses > 0)
      // FIFO: the current queue is what was put in, minus what the drain task took
      && (queueCreated ==> enqueued == taken + queue)
      && (drainActive ==> transportLog == epochLog + taken)
    }

    /**
     * The drain task is started at most once, provided that every drain
     * iteration whose `running` test follows a Close had a failing write.  A
     * DrainStep is a whole iteration, so its last ensures states this as "a step
     * taken after the transport was closed has a write error".
     */
    ghost predicate StartsAtMostOnce()
      reads this
    {
      && starts <= 1
      && (starts == 1 && !running ==> closed.Some?)
      && (transportCloses > 0 ==> closed.Some?)
    }

    /** A new, not yet started connection over an established transport. */
    constructor (iface: string, ifaceID: u64)
      ensures Valid() && StartsAtMostOnce()
      ensures this.iface == iface && this.ifaceID == ifaceID
      ensures !running && closed.None? && !queueCreated && !queueClosed && queue == []
      ensures transportLog == [] && transportCloses == 0 && !drainActive && starts == 0
    {
      this.iface := iface;
      this.ifaceID := ifaceID;
      queue, queueCreated, queueClosed := [], false, false;
      running, closed := false, None;
      transportLog, transportCloses := [], 0;
      drainActive, starts, spawnedCloses := false, 0, 0;
      enqueued, taken, epochLog := [], [], [];
    }

    /**
     * Read: the latched cause, without asking the transport, once terminated;
     * otherwise whatever the transport's Read answers.
     */
    function Read(reply: ReadReply): (r: ReadResult)
      reads this
      ensures r.touchedTransport <==> closed.None?
      ensures !r.touchedTransport ==> r.n == 0 && r.err == closed && r.err.Some?
      ensures r.touchedTransport ==> r.n == reply.n && r.err == reply.err
    {
      if closed.Some? then ReadResult(0, closed, false) else ReadResult(reply.n, reply.err, true)
    }

    /** ReadFull: as Read, with io.ReadFull's error as the transport's answer. */
    function ReadFull(reply: Option<Error>): (r: ReadFullResult)
      reads this
      ensures r.touchedTransport <==> closed.None?
      ensures !r.touchedTransport ==> r.err == closed && r.err.Some?
      ensures r.touchedTransport ==> r.err == reply
    {
      if closed.Some? then ReadFullResult(closed, false) else ReadFullResult(reply, true)
    }

    /** The interface label; the source panics on the accepting side, where it is "". */
    function GetInterfaceName(): (name: string)
      requires iface != ""
      ensures name == iface && |name| > 0
    {
      iface
    }

    /** The interface identifier given at construction. */
    function GetInterfaceID(): (id: u64)
      ensures id == ifaceID
    {
      ifaceID
    }

    /**
     * A `select` send with a `default` case on outChan.  Go panics when the
     * channel is closed; the precondition says that never happens.
     */
    method TrySend(data: Buffer) returns (sent: bool)
      requires queueCreated && !queueClosed
      modifies this`queue, this`enqueued
      ensures sent == (|old(queue)| < QueueCapacity)
      ensures queue == if sent then old(queue) + [data] else old(queue)
      ensures enqueued == if sent then old(enqueued) + [data] else old(enqueued)
    {
      sent := |queue| < QueueCapacity;
      if sent {
        queue := queue + [data];
        enqueued := enqueued + [data];
      }
    }

    /**
     * A receive on outChan: the front buffer, or the nil buffer once the channel
     * is closed and empty.  On an open, empty channel the receive blocks, so the
     * precondition excludes that case.
     */
    method Receive() returns (data: Buffer)
      requires queueCreated && (queue != [] || queueClosed)
      modifies this`queue, this`taken
      ensures old(queue) != [] ==> data == old(queue)[0] && queue == old(queue)[1..] && taken == old(taken) + [data]
      ensures old(queue) == [] ==> data == [] && queue == [] && taken == old(taken)
    {
      if queue != [] {
        data := queue[0];
        queue := queue[1..];
        taken := taken + [data];
      } else {
        data := [];
      }
    }

    /** close(outChan).  Go panics on a nil or already closed channel; the precondition says that never happens. */
    method CloseQueue()
      requires queueCreated && !queueClosed
      modifies this`queueClosed
      ensures queueClosed
    {
      queueClosed := true;
    }

    /** start(): a fresh queue of capacity 4, `running`, and a new drain task. */
    method Start()
      requires Valid() && !running && closed.None?
      modifies this
      ensures Valid()
      ensures queueCreated && !queueClosed && queue == [] && running && drainActive
      ensures starts == old(starts) + 1 && enqueued == [] && taken == [] && epochLog == transportLog
      ensures closed == old(closed) && transportLog == old(transportLog) && transportCloses == old(transportCloses)
      ensures spawnedCloses == old(spawnedCloses)
      ensures old(StartsAtMostOnce()) ==> StartsAtMostOnce()
    {
      queue, queueCreated, queueClosed := [], true, false;
      running := true;
      drainActive := true;  // go conn.writeloop()
      starts := starts + 1;
      enqueued, taken, epochLog := [], [], transportLog;
    }

    /**
     * WriteNonBlocking: once terminated, the latched cause and no change at all.
     * Otherwise it starts the drain task if it is not running, then appends
     * `data` to the queue when fewer than 4 buffers wait, and reports a full
     * queue as (false, nil).
     */
    method WriteNonBlocking(data: Buffer) returns (accepted: bool, err: Option<Error>)
      requires Valid()
      modifies this
      ensures Valid()
      ensures old(closed).Some? ==> !accepted && err == old(closed) && unchanged(this)
      ensures old(closed).None? ==> err.None? && closed.None? && running && drainActive
      ensures old(closed).None? ==> queueCreated && !queueClosed
      ensures old(closed).None? ==> starts == old(starts) + (if old(running) then 0 else 1)
      ensures old(closed).None? ==>
        var before := if old(running) then old(queue) else [];
        && accepted == (|before| < QueueCapacity)
        && queue == (if accepted then before + [data] else before)
      ensures old(closed).None? ==>
        var before := if old(running) then old(enqueued) else [];
        enqueued == if accepted then before + [data] else before
      ensures old(running) ==> taken == old(taken) && epochLog == old(epochLog)
      ensures old(closed).None? && !old(running) ==> taken == [] && epochLog == transportLog
      ensures transportLog == old(transportLog) && transportCloses == old(transportCloses)
      ensures spawnedCloses == old(spawnedCloses)
      ensures old(StartsAtMostOnce()) ==> StartsAtMostOnce()
    {
      if closed.Some? {
        return false, closed;
      }
      if !running {
        Start();
      }
      accepted := TrySend(data);
      err := None;
    }

    /**
     * Write, without its blocking fallback: the non-blocking attempt, and
     * `wouldBlock` when the queue was full, where the source would block.
     */
    method Write(data: Buffer) returns (err: Option<Error>, wouldBlock: bool)
      requires Valid()
      modifies this
      ensures Valid()
      ensures old(closed).Some? ==> err == old(closed) && !wouldBlock && unchanged(this)
      ensures old(closed).None? ==> err.None? && closed.None? && running
      ensures old(closed).None? ==>
        var before := if old(running) then old(queue) else [];
        && wouldBlock == (|before| == QueueCapacity)
        && queue == (if wouldBlock then before else before + [data])
      ensures transportLog == old(transportLog) && transportCloses == old(transportCloses)
      ensures old(StartsAtMostOnce()) ==> StartsAtMostOnce()
    {
      var ok;
      ok, err := WriteNonBlocking(data);
      wouldBlock := err.None? && !ok;
    }

    /**
     * One iteration of writeloop: receive the front buffer (nil from a closed,
     * empty queue), hand it to the transport, whose outcome is `writeErr`, and
     * on an error or on `!running` latch `writeErr` (nil included), close the
     * queue if it was still running, stop, spawn a Close and exit.
     */
    method DrainStep(writeErr: Option<Error>) returns (exited: bool)
      requires Valid() && drainActive && (queue != [] || queueClosed)
      modifies this
      ensures Valid()
      ensures var data := if old(queue) != [] then old(queue)[0] else [];
        transportLog == old(transportLog) + (if writeErr.None? then [data] else [])
      ensures queue == if old(queue) != [] then old(queue)[1..] else []
      ensures taken == old(taken) + (if old(queue) != [] then [old(queue)[0]] else [])
      ensures exited == (writeErr.Some? || !old(running))
      ensures exited ==> closed == writeErr && !running && !drainActive && queueClosed
      ensures exited ==> spawnedCloses == old(spawnedCloses) + 1
      ensures exited && !old(running) ==> old(queueClosed)
      ensures !exited ==> closed == old(closed) && running == old(running) && drainActive
      ensures !exited ==> queueClosed == old(queueClosed) && spawnedCloses == old(spawnedCloses)
      ensures queueCreated && transportCloses == old(transportCloses) && starts == old(starts)
      ensures enqueued == old(enqueued) && epochLog == old(epochLog)
      ensures old(StartsAtMostOnce()) && (old(transportCloses) > 0 ==> writeErr.Some?) ==> StartsAtMostOnce()
    {
      var data := Receive();
      if writeErr.None? {
        transportLog := transportLog + [data];
      }
      exited := writeErr.Some? || !running;
      if exited {
        closed := writeErr;
        if running {
          CloseQueue();
        }
        running := false;
        spawnedCloses := spawnedCloses + 1;  // go conn.Close()
        drainActive := false;                // return
      }
    }

    /**
     * Close: always closes the transport; latches "close requested" unless a
     * cause is latched; if running, stops, offers "goodbye" to the queue when it
     * has room and closes the queue.
     */
    method Close()
      requires Valid()
      modifies this
      ensures Valid()
      ensures transportCloses == old(transportCloses) + 1
      ensures closed == if old(closed).None? then Some(CloseRequested) else old(closed)
      ensures !running
      ensures old(running) ==> queueClosed
      ensures old(running) ==>
        queue == if |old(queue)| < QueueCapacity then old(queue) + [Goodbye] else old(queue)
      ensures !old(running) ==> queue == old(queue) && queueClosed == old(queueClosed) && enqueued == old(enqueued)
      ensures queueCreated == old(queueCreated) && transportLog == old(transportLog)
      ensures drainActive == old(drainActive) && starts == old(starts) && spawnedCloses == old(spawnedCloses)
      ensures taken == old(taken) && epochLog == old(epochLog)
      ensures old(StartsAtMostOnce()) ==> StartsAtMostOnce()
    {
      transportCloses := transportCloses + 1;  // conn.conn.Close()
      if closed.None? {
        closed := Some(CloseRequested);
      }
      if running {
        running := false;
        var _ := TrySend(Goodbye);
        CloseQueue();
      }
    }
  }
}
