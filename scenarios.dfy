/**
 * What callers of a Connection can prove from its contracts alone: each method
 * here runs a fresh connection through a sequence of calls, in one of the
 * orders the goroutines of the source can take.
 */
module Scenarios {
  import opened Wrappers
  import opened Connections

  /** One step of a single-link schedule: a producer's WriteNonBlocking, or a drain-task iteration. */
  datatype Event = Produce(data: Buffer) | Drain

  /**
   * Back-to-back WriteNonBlocking calls with no drain step in between: the
   * first four are accepted, every later one is refused with (false, nil), and
   * the queue holds the first four in call order.
   */
  method BackToBackWrites(bufs: seq<Buffer>) returns (results: seq<bool>, queued: seq<Buffer>)
    ensures |results| == |bufs|
    ensures forall i :: 0 <= i < |bufs| ==> results[i] == (i < QueueCapacity)
    ensures queued == if |bufs| <= QueueCapacity then bufs else bufs[..QueueCapacity]
  {
    var c := new Connection("eth0", 0);
    results := [];
    for i := 0 to |bufs|
      invariant c.Valid() && c.closed.None?
      invariant i > 0 ==> c.running
      invariant |results| == i
      invariant forall k :: 0 <= k < i ==> results[k] == (k < QueueCapacity)
      invariant c.queue == if i <= QueueCapacity then bufs[..i] else bufs[..QueueCapacity]
    {
      var ok, err := c.WriteNonBlocking(bufs[i]);
      results := results + [ok];
    }
    queued := c.queue;
    assert bufs[..|bufs|] == bufs;
  }

  /**
   * Write with its blocking fallback over a working transport, sequentialised:
   * when the queue is full the producer waits while the drain task runs one
   * iteration, which frees a slot, and then the producer's send goes through.
   */
  method WriteWaitingForDrain(c: Connection, data: Buffer)
    requires c.Valid() && c.closed.None? && (c.running || c.queue == [])
    modifies c
    ensures c.Valid() && c.closed.None? && c.running
    ensures c.transportLog + c.queue == old(c.transportLog) + old(c.queue) + [data]
  {
    ghost var before := c.transportLog + c.queue;
    var err, wouldBlock := c.Write(data);
    if wouldBlock {
      // the queue is full, so one drain step frees the slot the waiting send takes
      ghost var log0, queue0 := c.transportLog, c.queue;
      var exited := c.DrainStep(None);
      assert |c.queue| == QueueCapacity - 1;
      assert c.transportLog + c.queue == before by {
        assert queue0 == [queue0[0]] + queue0[1..];
      }
      var ok;
      ok, err := c.WriteNonBlocking(data);
    }
  }

  /** The drain task on a working transport, run until the queue is empty. */
  method DrainUntilEmpty(c: Connection)
    requires c.Valid() && c.closed.None? && (c.running || c.queue == [])
    modifies c
    ensures c.Valid() && c.closed.None? && c.queue == []
    ensures c.transportLog == old(c.transportLog) + old(c.queue)
  {
    while c.queue != []
      invariant c.Valid() && c.closed.None?
      invariant c.queue != [] ==> c.running
      invariant c.transportLog + c.queue == old(c.transportLog) + old(c.queue)
      decreases |c.queue|
    {
      var exited := c.DrainStep(None);
    }
  }

  /**
   * A producer issuing blocking Writes over a working transport, then the drain
   * task emptying the queue: every buffer reaches the transport, in the order
   * written.
   */
  method BlockingWritesDeliverInOrder(bufs: seq<Buffer>) returns (delivered: seq<Buffer>)
    ensures delivered == bufs
  {
    var c := new Connection("eth0", 0);
    for i := 0 to |bufs|
      invariant c.Valid() && c.closed.None? && (c.running || c.queue == [])
      invariant c.transportLog + c.queue == bufs[..i]
    {
      WriteWaitingForDrain(c, bufs[i]);
      assert bufs[..i + 1] == bufs[..i] + [bufs[i]];
    }
    DrainUntilEmpty(c);
    delivered := c.transportLog;
    assert bufs[..|bufs|] == bufs;
  }

  /**
   * The data of the Produce events whose WriteNonBlocking returned true, in
   * schedule order (empty when there is not one result per event).
   */
  function AcceptedData(events: seq<Event>, results: seq<bool>): seq<Buffer>
  {
    if events == [] || |results| != |events| then []
    else
      var n := |events| - 1;
      AcceptedData(events[..n], results[..n])
        + (if events[n].Produce? && results[n] then [events[n].data] else [])
  }

  /**
   * The number of buffers waiting in the queue after a schedule that started on
   * an empty queue: an accepted write adds one, a drain step takes one if any
   * (0 when there is not one result per event).
   */
  function Pending(events: seq<Event>, results: seq<bool>): nat
  {
    if events == [] || |results| != |events| then 0
    else
      var n := |events| - 1;
      var p := Pending(events[..n], results[..n]);
      if events[n].Produce? then (if results[n] then p + 1 else p)
      else if p > 0 then p - 1 else 0
  }

  /**
   * Backpressure along a schedule: each write returned true exactly when fewer
   * than 4 buffers were waiting at that point, and each drain step reports false.
   */
  predicate ResultsFollowQueue(events: seq<Event>, results: seq<bool>)
  {
    if |results| != |events| then false
    else if events == [] then true
    else
      var n := |events| - 1;
      && ResultsFollowQueue(events[..n], results[..n])
      && (if events[n].Produce? then results[n] == (Pending(events[..n], results[..n]) < QueueCapacity)
          else !results[n])
  }

  /** Extending a schedule by one event: how AcceptedData, Pending and ResultsFollowQueue unfold. */
  lemma {:induction false} ReplayStep(events: seq<Event>, results: seq<bool>, i: nat, ok: bool)
    requires i < |events| && |results| == i
    ensures AcceptedData(events[..i + 1], results + [ok])
         == AcceptedData(events[..i], results) + (if events[i].Produce? && ok then [events[i].data] else [])
    ensures var p := Pending(events[..i], results);
      Pending(events[..i + 1], results + [ok])
        == if events[i].Produce? then (if ok then p + 1 else p) else if p > 0 then p - 1 else 0
    ensures ResultsFollowQueue(events[..i + 1], results + [ok])
        == (&& ResultsFollowQueue(events[..i], results)
            && (if events[i].Produce? then ok == (Pending(events[..i], results) < QueueCapacity) else !ok))
  {
    assert events[..i + 1][..i] == events[..i];
    assert (results + [ok])[..i] == results;
  }

  /**
   * One schedule step over a working transport: a producer's WriteNonBlocking
   * (`ok` is its answer: whether fewer than 4 buffers were waiting), or a
   * drain-task iteration, skipped when the queue is empty because the receive
   * would block.
   */
  method RunEvent(c: Connection, e: Event) returns (ok: bool)
    requires c.Valid() && c.closed.None? && (c.running || c.queue == [])
    modifies c
    ensures c.Valid() && c.closed.None? && (c.running || c.queue == [])
    ensures ok ==> e.Produce?
    ensures e.Produce? ==> ok == (|old(c.queue)| < QueueCapacity)
    ensures |c.queue| == if e.Produce? then (if ok then |old(c.queue)| + 1 else |old(c.queue)|)
                         else if |old(c.queue)| > 0 then |old(c.queue)| - 1 else 0
    ensures c.transportLog + c.queue == old(c.transportLog) + old(c.queue) + (if ok then [e.data] else [])
  {
    ok := false;
    match e {
      case Produce(data) =>
        var err;
        ok, err := c.WriteNonBlocking(data);
      case Drain =>
        if c.queue != [] {
          var exited := c.DrainStep(None);
        }
    }
  }

  /**
   * Any schedule of producers' WriteNonBlocking calls and drain-task iterations
   * over a working transport (a drain step finding the queue empty blocks, so it
   * is skipped): each write is accepted exactly when fewer than 4 buffers wait,
   * what reached the transport is a prefix of what was accepted, in acceptance
   * order, and at most 4 accepted buffers are still waiting.
   */
  method ScheduleDeliversPrefix(events: seq<Event>)
    returns (results: seq<bool>, accepted: seq<Buffer>, delivered: seq<Buffer>)
    ensures |results| == |events|
    ensures forall i :: 0 <= i < |events| && events[i].Drain? ==> !results[i]
    ensures ResultsFollowQueue(events, results)
    ensures accepted == AcceptedData(events, results)
    ensures delivered <= accepted
    ensures |accepted| - |delivered| <= QueueCapacity
  {
    var c := new Connection("eth0", 0);
    results, accepted := RunSchedule(c, events);
    assert c.transportLog + c.queue == accepted;
    delivered := c.transportLog;
    assert accepted[..|delivered|] == delivered;
  }

  /**
   * Runs a schedule on a working connection whose queue is empty (running, or
   * idle): writes meet backpressure as ResultsFollowQueue says, and the
   * accepted buffers are appended, in schedule order, after everything already
   * logged.
   */
  method RunSchedule(c: Connection, events: seq<Event>) returns (results: seq<bool>, accepted: seq<Buffer>)
    requires c.Valid() && c.closed.None? && c.queue == []
    modifies c
    ensures c.Valid() && c.closed.None?
    ensures |results| == |events|
    ensures forall i :: 0 <= i < |events| && events[i].Drain? ==> !results[i]
    ensures ResultsFollowQueue(events, results)
    ensures accepted == AcceptedData(events, results)
    ensures |c.queue| == Pending(events, results)
    ensures c.transportLog + c.queue == old(c.transportLog) + accepted
  {
    results, accepted := [], [];
    for i := 0 to |events|
      invariant c.Valid() && c.closed.None? && (c.running || c.queue == [])
      invariant c.transportLog + c.queue == old(c.transportLog) + accepted
      invariant |results| == i
      invariant forall k :: 0 <= k < i && events[k].Drain? ==> !results[k]
      invariant accepted == AcceptedData(events[..i], results)
      invariant |c.queue| == Pending(events[..i], results)
      invariant ResultsFollowQueue(events[..i], results)
    {
      ghost var before := c.transportLog + c.queue;
      var ok := RunEvent(c, events[i]);
      ReplayStep(events, results, i, ok);
      assert c.transportLog + c.queue == before + (if ok then [events[i].data] else []);
      if ok {
        accepted := accepted + [events[i].data];
      }
      results := results + [ok];
    }
    assert events[..|events|] == events;
  }

  /**
   * A transport write that fails with `reason`: the drain task latches that
   * error and exits; the Close it spawns closes the transport and keeps the
   * latched error; later writes and reads return it without touching the
   * transport, and a further Close changes nothing but the transport.
   */
  method TransportFailureLatches(first: Buffer, next: Buffer, reason: string, reply: ReadReply)
    returns (accepted: bool, err: Option<Error>, read: ReadResult, closes: nat)
    ensures !accepted && err == Some(TransportFailure(reason))
    ensures !read.touchedTransport && read.err == err
    ensures closes == 2
  {
    var c := new Connection("eth0", 7);
    var ok, e := c.WriteNonBlocking(first);
    var exited := c.DrainStep(Some(TransportFailure(reason)));
    c.Close();  // the spawned `go conn.Close()`
    accepted, err := c.WriteNonBlocking(next);
    read := c.Read(reply);
    c.Close();
    closes := c.transportCloses;
  }

  /**
   * Close on a running connection, whose drain task's next write fails (the
   * transport is closed): the drain task replaces the latched "close requested"
   * with the write error, the connection stays terminated, and WriteNonBlocking
   * returns that error and does not start a second drain task.
   */
  method WriteErrorReplacesCloseCause(first: Buffer, next: Buffer, reason: string)
    returns (accepted: bool, err: Option<Error>, running: bool)
    ensures !accepted && err == Some(TransportFailure(reason)) && !running
  {
    var c := new Connection("eth0", 0);
    var ok, e := c.WriteNonBlocking(first);
    c.Close();
    var exited := c.DrainStep(Some(TransportFailure(reason)));
    c.Close();  // the spawned `go conn.Close()`
    accepted, err := c.WriteNonBlocking(next);
    running := c.running;
    assert c.StartsAtMostOnce() && c.starts == 1;
  }

  /**
   * Close on a running connection whose drain task's next write still
   * succeeds: the drain task overwrites the latched cause with nil, so before
   * the spawned Close runs, WriteNonBlocking finds the connection "not started",
   * starts a second drain task and accepts the buffer.
   */
  method CauseOverwrittenAfterClose(first: Buffer, next: Buffer)
    returns (cause: Option<Error>, accepted: bool, err: Option<Error>)
    ensures cause.None? && accepted && err.None?
  {
    var c := new Connection("eth0", 0);
    var ok, e := c.WriteNonBlocking(first);
    c.Close();
    assert c.closed == Some(CloseRequested);
    var exited := c.DrainStep(None);
    cause := c.closed;
    accepted, err := c.WriteNonBlocking(next);
    assert c.starts == 2;
  }
}
