# Fusion connection lifecycle, in Dafny

A model of the single-link `Connection` of Fusion, a multipath tunnelling tool:
one byte-stream transport, a non-blocking write API that lazily starts a
background drain task, a bounded FIFO queue of capacity 4 between producers and
that task, a latched termination cause, and an idempotent `Close`.

- `wrappers.dfy` — `Option`, standing for Go's nilable `error`.
- `connection.dfy` — module `Connections`: the `Connection` class. Its fields
  are those of the Go struct: `queue`/`queueCreated`/`queueClosed` for
  `outChan` (nil, open or closed), `running`, and `closed` (the latched cause).
  The transport is abstract: the buffers it wrote in full (`transportLog`) and
  how often it was closed (`transportCloses`). Ghost fields say whether a drain
  goroutine is alive, how often `start` ran, how many `go conn.Close()` the
  drain task spawned, and what entered and left the current queue.
  `Valid()` is the invariant every atomic section keeps. It says:
  - the queue holds at most 4 buffers;
  - `running` implies an open queue, a live drain task and no latched cause;
  - a drain task that outlives `running` was stopped by `Close`;
  - the current queue is everything put into it minus what the drain task
    took (FIFO);
  - while a drain task is alive, the transport received exactly what that task
    took, counting from the last `start` (`epochLog` is the transport log at
    that `start`).
- `scenarios.dfy` — module `Scenarios`: client methods that run a fresh
  connection through call sequences the goroutines of the source can produce.
  They are proved from the class's contracts alone.

Each mutex-protected body is one atomic method. One iteration of `writeloop`
is `DrainStep(writeErr)`, where `writeErr` is the transport's write outcome.
The goroutine spawned by `go conn.Close()` is a later `Close` call. Other
calls may run before it.

Go panics become preconditions that verification shows are never violated:
- `TrySend` demands an open channel (send on a closed channel);
- `CloseQueue` demands a created, open channel (close of a nil or closed
  channel), so the queue is closed at most once per creation.

A receive on an open, empty channel blocks rather than panics. `Receive`
therefore demands a non-empty or closed queue: the drain task takes a step only
when its receive can complete.

The comment at connection.go:45 reads `closed == nil && !running` as "the
drain task has not started yet". On that reading, a connection whose cause was
set once never looks unstarted again. The code does not keep to that reading,
and the model follows the code. In `writeloop`, `conn.closed = err` is
assigned unconditionally (connection.go:90). When the drain task exits because
`Close` cleared `running`, and its last write succeeded, `err` is nil. The
"close requested" cause is then reset to nil, so `WriteNonBlocking` finds a
"not started" connection and starts a second drain task
(connection.go:45-47). `Scenarios.CauseOverwrittenAfterClose` exhibits this.
When that last write fails, its error replaces "close requested"
(`Scenarios.WriteErrorReplacesCloseCause`). "Latched at most once" holds only
for `Close` (connection.go:106-108).

The predicate `StartsAtMostOnce` (at most one `start`) is preserved by every
method only under one assumption: every drain iteration whose `running` test
follows a `Close` had a failing write. In the model a whole iteration is one
atomic `DrainStep`, so this is `DrainStep`'s last ensures: a step taken after
the transport was closed has a write error. In the Go program the assumption
can fail even when the transport fails every write made after its close. The
receive, the write and the `running` test (connection.go:81-87) run outside
the lock. A write can therefore finish before a concurrent `Close`, while the
test that follows still sees `!running`.

The schedule scenarios use three reference functions over a schedule of
events and the results of its calls: `AcceptedData` (the accepted buffers),
`Pending` (the queue length) and `ResultsFollowQueue` (each write is accepted
exactly when fewer than 4 buffers wait). The lemma `ReplayStep` unfolds them
by one event.

## Model

| member | source | states |
|---|---|---|
| Connections.Connection.constructor | connection.go:13-21 | a new connection is not started: no queue, not running, nothing latched, transport untouched |
| Connections.Connection.Read | connection.go:23-29 | the transport is consulted exactly when nothing is latched; otherwise the result is (0, latched cause) |
| Connections.Connection.ReadFull | connection.go:31-37 | the transport is consulted exactly when nothing is latched; otherwise the latched cause is returned |
| Connections.Connection.WriteNonBlocking | connection.go:39-54 | once latched, it returns (false, cause) and changes nothing; otherwise it starts the drain task exactly when not running, then appends at the back with (true, nil) when fewer than 4 wait, or returns (false, nil) with the queue unchanged; the invariant and at-most-one-start are kept |
| Connections.Connection.Write | connection.go:56-61 | the non-blocking attempt; once latched it returns the cause and changes nothing; otherwise no error, and `wouldBlock` exactly when the queue was full |
| Connections.Connection.Start | connection.go:73-77 | a fresh empty open queue, running, one more drain task, cause and transport unchanged |
| Connections.Connection.TrySend | connection.go:48-53 | a send with a default case: succeeds exactly when fewer than 4 wait, appending at the back; only on an open channel |
| Connections.Connection.Receive | connection.go:81 | takes the front buffer, or the nil buffer from a closed empty queue; never blocks |
| Connections.Connection.CloseQueue | connection.go:91-93 | closes the queue, allowed only on a created queue not yet closed |
| Connections.Connection.DrainStep | connection.go:79-99 | removes the front buffer and appends it to the transport log when the write succeeds; on a write error or not running it latches the write outcome (nil included), closes the queue only if it was running, stops, spawns Close and exits; otherwise nothing else changes |
| Connections.Connection.Close | connection.go:102-117 | always closes the transport; latches "close requested" only if nothing was latched; if running, stops, appends "goodbye" only when fewer than 4 wait, and closes the queue; otherwise the queue is unchanged |
| Connections.Connection.GetInterfaceID | connection.go:123-125 | the interface identifier given at construction |
| Connections.Connection.GetInterfaceName | connection.go:127-132 | the interface label, demanded non-empty (the source panics on "") |
| Scenarios.BackToBackWrites | connection.go:48-53 | without drain steps, exactly the first 4 writes are accepted and the queue holds them in call order |
| Scenarios.WriteWaitingForDrain | connection.go:56-71 | a blocking write over a working transport, with one drain step freeing a slot while the producer waits, appends the buffer after everything already written or queued |
| Scenarios.DrainUntilEmpty | connection.go:79-99 | the drain task over a working transport moves the whole queue, in order, onto the transport |
| Scenarios.BlockingWritesDeliverInOrder | connection.go:79-83 | any sequence of blocking writes reaches the transport complete and in write order |
| Scenarios.RunEvent | connection.go:39-99 | one schedule step: a producer's write is accepted exactly when fewer than 4 buffers wait, and then appends its buffer after everything logged or queued; a drain step takes one buffer off the queue if any, keeping log-plus-queue unchanged |
| Scenarios.RunSchedule | connection.go:39-99 | on a working connection with an empty queue, every write of the schedule is accepted exactly when fewer than 4 buffers wait at that point; `accepted` is the data of the writes that returned true, appended in schedule order after everything already logged; the queue length is `Pending` |
| Scenarios.ScheduleDeliversPrefix | connection.go:39-99 | for any interleaving of non-blocking writes and drain steps, each write is accepted exactly when fewer than 4 buffers wait; `accepted` is the data of the writes that returned true, in schedule order; the transport log is a prefix of it, at most 4 behind |
| Scenarios.TransportFailureLatches | connection.go:87-108 | a write error is latched; the spawned Close keeps it; later writes and reads return it without touching the transport; each Close closes the transport |
| Scenarios.WriteErrorReplacesCloseCause | connection.go:87-97 | after Close, a failing final write replaces the cause with the write error, and the connection is not started again |
| Scenarios.CauseOverwrittenAfterClose | connection.go:39-99 | after Close, a successful final write resets the cause to nil, and WriteNonBlocking starts a second drain task and accepts |

## Left out

- Connections.Connection.Write: the blocking fallback `conn.outChan <- data` and its `recover` from a send on a channel closed concurrently are not modelled. The method stops at "would block". `Scenarios.WriteWaitingForDrain` shows the single-threaded case, where the drain task frees a slot.
- Goroutine scheduling and `sync.Mutex`: each locked section is one atomic method, and interleavings inside a section are not modelled.
- One writeloop iteration is one atomic step (`DrainStep`), although its receive, transport write and `running` test (connection.go:81-87) run outside the lock. A write that finished before a concurrent `Close` is therefore represented as a write after it. The model does not capture a `Close` that runs between the write and the `running` test.
- The 15-second write deadline (`SetWriteDeadline`, `time.Now`): wall-clock time.
- The short-write panic: the transport is assumed to write fully or return an error.
- Logging through logrus.
- `LocalAddr`, and the bytes that `net.Conn.Read` and `io.ReadFull` deliver: foreign calls. Their answers are the `reply` parameters of `Read` and `ReadFull`.
- Buffer aliasing: buffers are values in the model. In the source, the queue holds the producer's own slice (connection.go:49), and the drain task writes it later (connection.go:81-83). A producer that changes a buffer after an accepted `WriteNonBlocking` therefore changes what reaches the transport. The ordering results (`Valid()`'s queue bookkeeping, `Scenarios.ScheduleDeliversPrefix`, `Scenarios.BlockingWritesDeliverInOrder`) hold for the source only when producers do not reuse a buffer before the drain task has written it.
- A write that fails is not put in `transportLog`. Partial delivery of a failed write is not modelled.
- main.go (flag parsing, listening, accepting, dialing, interface enumeration, the session functions it calls) is not part of this model.
