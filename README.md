# ReconnectingSocketOutputStream, modelled in Dafny

A model of `com.timgroup.io.ReconnectingSocketOutputStream` from simple-zmtp1, with proofs about it.
This is an `OutputStream` over a non-blocking socket channel:
- Every write is retried up to `tryCount` times. After each failure the stream closes the channel quietly; the next attempt reconnects, and after the last one nothing does.
- Before every write the stream reads and throws away whatever the peer sent. When the channel accepts nothing, the stream blocks in `select()`.
- When replay is enabled, the first payload ever written is copied. That copy is written again as a preamble on a later reconnect.

The model has three layers:

- **Oracle** (`oracle.dfy`) stands in for the socket layer and the selector: `SocketChannel`, `Selector`, `SelectionKey` and `Thread.sleep`.
  - Every call consumes one reply of a finite script: a connect succeeds, is refused or fails; a write accepts `k` bytes with `-1 <= k <= remaining`; a read returns a count; selection reports a count and a ready set; a sleep may be interrupted.
  - A reply of the wrong kind means the call fails with an `IOException`.
  - An exhausted script is a network where nothing answers: connecting is refused, closing succeeds, every other call fails, and sleeping returns at once.
  - `sessions` records, for each physical connection, the bytes the peer received on it. The model's delivery properties are stated over this record.
- **Reference functions** give the stream's behaviour as values:
  - `Engine` has `writeFully`, `checkForRead`, `blockForWrite` and `drain` over an `Io` value (`engine.dfy`).
  - `Retry` has `write(ByteBuffer)` with its retry loop, `ensureOpen`, `reconnect`, `replayFirstWrite`, `connect`, `close`, `closeQuietly`, `recordFirstWrite` and the constructor over a `State` value (`retry.dfy`).
  - Java's recursion `write -> ensureOpen -> reconnect -> replayFirstWrite -> write` has no bound, and neither has the `select()` loop of `blockForWrite` (`ReconnectingSocketOutputStream.java:165-173`). The model's versions terminate because each round trip through a reconnect, and each select, uses up a reply of the script.
  - The `read` loop of `drain` (`ReconnectingSocketOutputStream.java:178`) is bounded in Java by the 32-byte drain buffer, which is never cleared. The model's version also uses up a reply per read, and that is its termination measure.
- **The class** `Stream.ReconnectingSocketOutputStream` (`stream.dfy`) keeps the Java fields: `channel`, the mutable `firstWrite` buffer, the never-cleared 32-byte `drainBuffer`, and the empty sentinel.
  - `ByteBuffer` is a class over an array with position, limit and mark (`buffers.dfy`).
  - Every method is proved to take the stream's abstract state exactly where the reference function of the same name takes it. The loops of `write`, `writeFully`, `blockForWrite` and `drain` are `while` loops with invariants.
  - `firstWrite` is updated in place. When it is replayed, it is the very object the nested `write` moves; the reference functions model this with `Target.Cached`.

`scenarios.dfy` runs whole sequences of calls on scripted networks. Three of the repository's tests are replayed there, and a fourth is a clause of the constructor's contract:
- `canReplayTheFirstWriteOnReconnect`, with its payloads "hello ", "world\n" and "kitty\n" (`Scenarios.HelloKitty`);
- `reconnectsIfNecessaryOnWrite`: the peer closes its end before the first write (`Scenarios.ReconnectsIfNecessaryOnWrite`);
- `blocksIfNecessaryOnReconnect`: the peer closes and stops listening, so a connect is refused before one is accepted after the back-off (`Scenarios.BlocksIfNecessaryOnReconnect`);
- `reportsFailureToConnect` is not a scenario: `Retry.Init` states that a refused connect fails the constructor with `ConnectException`.

Three things the code does are easy to misread:

- **A replay that succeeds is never repeated; one that fails part-way is resumed.** A stream built with `replayFirstWrite` might be expected to resend the first write on every reconnect. It does not.
  - `replayFirstWrite()` sends only while `firstWrite.remaining() > 0`. It sends through `write(firstWrite)`, which marks the cached buffer at its current position and moves that position towards the limit.
  - A replay that goes through leaves nothing remaining, so every later reconnect sends no preamble (`Retry.ReplayFirstWrite`, `Scenarios.ReopensWithoutReplay`).
  - A replay that fails after some of its bytes went out leaves the rest remaining. With no tries left it throws, and the next reconnect replays again from there, so that connection gets only the tail of the first write (`Scenarios.PartialReplay`, `Scenarios.PartialReplayResumes`).
  - With tries left, the replay's own retry reconnects instead. That reconnect replays the tail through a nested `write`, which marks the cache after the bytes that went out. The retry then resets to that new mark and sends the tail again. The new connection therefore receives the tail twice, and the replay succeeds (`Scenarios.TailTwice`).
- **A first write that fails goes out twice.** The cache is filled before any I/O. When the first attempt of the very first write fails:
  - the reconnect replays that copy;
  - the retry then sends the caller's buffer again;
  - so the new connection receives the payload twice (`Scenarios.FirstWriteSentTwiceAfterReconnect`).
- **The drain buffer is never cleared.** After 32 bytes have been drained, every read returns 0 without consulting the socket, so `drain` returns at once.

## Model

| member | source | states |
|---|---|---|
| Bytes.ToByteLowBits | src/main/java/com/timgroup/io/ReconnectingSocketOutputStream.java:69-72 | `(byte) b` in `write(int)` differs from `b` by a multiple of 256, i.e. keeps its low eight bits |
| Bytes.ToByteKeepsBytes | src/main/java/com/timgroup/io/ReconnectingSocketOutputStream.java:69-72 | a value that already fits in a signed byte is sent unchanged |
| Bytes.ToByteModulo | src/main/java/com/timgroup/io/ReconnectingSocketOutputStream.java:69-72 | ints congruent modulo 256 are sent as the same byte |
| Bytes.Ascii | src/test/java/com/timgroup/io/ReconnectingSocketOutputStreamTest.java:142-147 | `getBytes()` of ASCII text has one byte per character, equal to its code |
| Bytes.AsciiAppend | src/test/java/com/timgroup/io/ReconnectingSocketOutputStreamTest.java:142-147 | the bytes of a concatenation are the concatenation of the bytes |
| Buffers.Cursor.Remaining | src/main/java/com/timgroup/io/ReconnectingSocketOutputStream.java:189 | `remaining()` is the distance from position to limit |
| Buffers.Cursor.Marked | src/main/java/com/timgroup/io/ReconnectingSocketOutputStream.java:88 | `mark()` sets the mark to the position and changes nothing else |
| Buffers.Cursor.Rewound | src/main/java/com/timgroup/io/ReconnectingSocketOutputStream.java:94 | `reset()` moves the position back to the mark and keeps limit and mark |
| Buffers.Buf.Pending | src/main/java/com/timgroup/io/ReconnectingSocketOutputStream.java:116 | the pending bytes number exactly `remaining()` |
| Buffers.CopyOf | src/main/java/com/timgroup/io/ReconnectingSocketOutputStream.java:115-120 | `copy` holds exactly the source's bytes from position to limit, at position 0, with its limit equal to the source's `remaining()` and no mark |
| Buffers.Wrapped | src/main/java/com/timgroup/io/ReconnectingSocketOutputStream.java:76 | `ByteBuffer.wrap(b, off, len)` keeps the array and has the slice `off..off+len` pending, with no mark |
| Buffers.ByteBuffer.Remaining | src/main/java/com/timgroup/io/ReconnectingSocketOutputStream.java:116 | returns `remaining()` of the cursor |
| Buffers.ByteBuffer.HasRemaining | src/main/java/com/timgroup/io/ReconnectingSocketOutputStream.java:144 | true exactly when bytes remain |
| Buffers.ByteBuffer.Mark | src/main/java/com/timgroup/io/ReconnectingSocketOutputStream.java:88 | the cursor becomes the marked cursor |
| Buffers.ByteBuffer.Reset | src/main/java/com/timgroup/io/ReconnectingSocketOutputStream.java:94 | the cursor becomes the rewound cursor |
| Buffers.ByteBuffer.Flip | src/main/java/com/timgroup/io/ReconnectingSocketOutputStream.java:118 | the limit becomes the old position, the position 0, and the mark is discarded |
| Buffers.ByteBuffer.AsReadOnlyBuffer | src/main/java/com/timgroup/io/ReconnectingSocketOutputStream.java:117 | a new buffer object over the same array with the same cursor |
| Buffers.ByteBuffer.Put | src/main/java/com/timgroup/io/ReconnectingSocketOutputStream.java:117 | the source's pending bytes are copied in at the position and the rest of the array is untouched; both positions advance by that count |
| Oracle.ConnectStep | src/main/java/com/timgroup/io/ReconnectingSocketOutputStream.java:60 | a connect succeeds exactly on a `Done` reply, and is refused with `ConnectException` on `Refused` or an exhausted script |
| Oracle.CloseStep | src/main/java/com/timgroup/io/ReconnectingSocketOutputStream.java:206 | a close succeeds on `Done` or an exhausted script and otherwise fails with an I/O error |
| Oracle.CountStep | src/main/java/com/timgroup/io/ReconnectingSocketOutputStream.java:146 | a count reply in `[-1, bound]` is returned; anything else is an I/O error |
| Oracle.WriteStep | src/main/java/com/timgroup/io/ReconnectingSocketOutputStream.java:146 | `channel.write` accepts between -1 and `remaining()` bytes |
| Oracle.ReadStep | src/main/java/com/timgroup/io/ReconnectingSocketOutputStream.java:178 | a read into a full buffer returns 0 without using a reply; otherwise it returns between -1 and the room left |
| Oracle.PollStep | src/main/java/com/timgroup/io/ReconnectingSocketOutputStream.java:156-157 | `register` + `selectNow()` yield the key's ready set from a `Polled` reply |
| Oracle.SelectStep | src/main/java/com/timgroup/io/ReconnectingSocketOutputStream.java:166 | `select()` yields a non-negative count and a ready set from a `Selected` reply |
| Oracle.SleepStep | src/main/java/com/timgroup/io/ReconnectingSocketOutputStream.java:133-141 | `sleep` raises `InterruptedIOException` exactly on an `Interrupt` reply, and otherwise uses no reply |
| Oracle.Deliver | src/main/java/com/timgroup/io/ReconnectingSocketOutputStream.java:146 | accepted bytes are appended to the current connection only; earlier connections are unchanged |
| Oracle.DeliverTwice | src/main/java/com/timgroup/io/ReconnectingSocketOutputStream.java:144-152 | delivering two pieces in turn is delivering their concatenation |
| Oracle.DeliverExtends | src/main/java/com/timgroup/io/ReconnectingSocketOutputStream.java:146 | a delivery leaves every earlier connection's bytes as they were and only extends the last one's |
| Oracle.OpenExtends | src/main/java/com/timgroup/io/ReconnectingSocketOutputStream.java:60 | opening a connection leaves every earlier connection's bytes as they were |
| Oracle.ExtendsTrans | src/main/java/com/timgroup/io/ReconnectingSocketOutputStream.java:143-153 | two such extensions in turn are one |
| Oracle.Network.Connect | src/main/java/com/timgroup/io/ReconnectingSocketOutputStream.java:60 | a successful connect opens a new, empty connection with nothing ready; a failed one changes nothing |
| Oracle.Network.Close | src/main/java/com/timgroup/io/ReconnectingSocketOutputStream.java:206 | the outcome and script are those of `CloseStep` |
| Oracle.Network.Write | src/main/java/com/timgroup/io/ReconnectingSocketOutputStream.java:146 | the accepted bytes, exactly those between the old and new position, go to the current connection |
| Oracle.Network.Read | src/main/java/com/timgroup/io/ReconnectingSocketOutputStream.java:178 | the buffer's position advances by a positive count read |
| Oracle.Network.SelectNow | src/main/java/com/timgroup/io/ReconnectingSocketOutputStream.java:156-157 | the key's ready set is the polled one, or unchanged on failure |
| Oracle.Network.Select | src/main/java/com/timgroup/io/ReconnectingSocketOutputStream.java:166 | returns the selected count; a select of 0 keys leaves the ready set unchanged |
| Oracle.Network.Sleep | src/main/java/com/timgroup/io/ReconnectingSocketOutputStream.java:135 | the outcome and script are those of `SleepStep` |
| Failures.Cause | src/main/java/com/timgroup/io/ReconnectingSocketOutputStream.java:106 | the aggregate error's cause is the first collected exception |
| Engine.Drain | src/main/java/com/timgroup/io/ReconnectingSocketOutputStream.java:176-180 | `drain` changes no connection or ready set; the drain buffer only fills; it fails only with end of stream or an I/O error; on a full drain buffer it returns at once |
| Engine.DrainGoesOn | src/main/java/com/timgroup/io/ReconnectingSocketOutputStream.java:178 | after a positive read, `drain` continues from the next reply with the drain buffer that much fuller |
| Engine.DrainStops | src/main/java/com/timgroup/io/ReconnectingSocketOutputStream.java:178-179 | any other read ends `drain`: a failure is rethrown, -1 is `EOFException`, 0 returns normally |
| Engine.DrainReadsWhilePositive | src/main/java/com/timgroup/io/ReconnectingSocketOutputStream.java:176-180 | `drain` uses replies from the front; every reply but the last is a positive read; it raises `EOFException` exactly when the last reply was a read of -1 |
| Engine.DrainAfterPositiveRead | src/main/java/com/timgroup/io/ReconnectingSocketOutputStream.java:178 | the same three facts when the first read was positive |
| Engine.CheckForRead | src/main/java/com/timgroup/io/ReconnectingSocketOutputStream.java:155-161 | the key takes the polled ready set; an unreadable key uses only the poll; failures are end of stream or I/O errors |
| Engine.BlockForWrite | src/main/java/com/timgroup/io/ReconnectingSocketOutputStream.java:163-174 | returns at once on a writable key, and normally only once the key is writable; a select of 0 fails with "failed to select" |
| Engine.BlockForWriteFailsOnEmptySelect | src/main/java/com/timgroup/io/ReconnectingSocketOutputStream.java:165-169 | conversely, a "failed to select" failure means the last reply used was a select of 0 |
| Engine.BlockAfterDrain | src/main/java/com/timgroup/io/ReconnectingSocketOutputStream.java:170-172 | the same fact when the select found the channel readable and `drain` ran |
| Engine.WriteFully | src/main/java/com/timgroup/io/ReconnectingSocketOutputStream.java:143-153 | `writeFully` moves only the position, forward and never past the limit, and returns normally only with nothing remaining |
| Engine.WritePass | src/main/java/com/timgroup/io/ReconnectingSocketOutputStream.java:146-151 | one write delivers exactly the bytes it moved past to the current connection; a normal return uses a reply; a failure leaves the buffer alone |
| Engine.WritePassOutcomes | src/main/java/com/timgroup/io/ReconnectingSocketOutputStream.java:146-151 | a write count of -1 raises `EOFException`, 0 enters `blockForWrite`, a positive count advances the position by it, and any other reply is an I/O failure |
| Engine.WriteFullyDeliversInOrder | src/main/java/com/timgroup/io/ReconnectingSocketOutputStream.java:143-153 | the current connection receives exactly the buffer's bytes from its old position to its new one, in order; it returns normally exactly when all were written; otherwise it fails with an I/O error, end of stream or a failed select |
| Retry.EvolvesTrans | src/main/java/com/timgroup/io/ReconnectingSocketOutputStream.java:90-104 | the facts no operation undoes compose across successive operations: same configuration, a script that only shrinks, earlier connections left as they were and the last one only extended, a cache that keeps its bytes, and a spent cache never touched again |
| Retry.GrowsTrans | src/main/java/com/timgroup/io/ReconnectingSocketOutputStream.java:90-104 | the same facts without the one about the spent cache compose too |
| Retry.Init | src/main/java/com/timgroup/io/ReconnectingSocketOutputStream.java:30-41 | `tryCount < 1` is refused with `IllegalArgumentException`; disabled replay puts the sentinel in the cache, enabled leaves it unset; success is exactly an accepted connect, which leaves an open channel on a new connection; a refusal is `ConnectException` |
| Retry.Connect | src/main/java/com/timgroup/io/ReconnectingSocketOutputStream.java:55-67 | with a channel present it throws `IllegalStateException` and changes nothing; otherwise it succeeds exactly on an accepted connect, with an open channel on a new empty connection |
| Retry.Close | src/main/java/com/timgroup/io/ReconnectingSocketOutputStream.java:200-210 | a no-op without a channel; otherwise the channel is gone afterwards even when closing it fails, and nothing else changes |
| Retry.CloseQuietly | src/main/java/com/timgroup/io/ReconnectingSocketOutputStream.java:194-198 | never fails, always leaves no channel, and is a no-op without one |
| Retry.CloseQuietlyIdempotent | src/main/java/com/timgroup/io/ReconnectingSocketOutputStream.java:194-198 | calling `closeQuietly` twice is calling it once |
| Retry.RecordFirstWrite | src/main/java/com/timgroup/io/ReconnectingSocketOutputStream.java:109-113 | only an unset cache takes the copy; a disabled or captured cache is left alone |
| Retry.Write | src/main/java/com/timgroup/io/ReconnectingSocketOutputStream.java:87-107 | a normal return leaves nothing remaining and the bytes from the mark (the initial position) to the limit at the end of the current connection; earlier connections keep their bytes and the one that was current is only extended; a failure carries exactly `tryCount` exceptions and leaves no channel; the first write of a replay-enabled stream is captured |
| Retry.Loop | src/main/java/com/timgroup/io/ReconnectingSocketOutputStream.java:90-106 | each turn returns or records one exception and closes; once all turns have failed, the error has exactly `tryCount` causes and no channel is left |
| Retry.LoopEnds | src/main/java/com/timgroup/io/ReconnectingSocketOutputStream.java:105-106 | once every turn has failed, the loop ends in the aggregate failure of the collected exceptions, changing nothing |
| Retry.LoopReturns | src/main/java/com/timgroup/io/ReconnectingSocketOutputStream.java:93-96 | a turn whose attempt succeeds returns its outcome |
| Retry.LoopRetries | src/main/java/com/timgroup/io/ReconnectingSocketOutputStream.java:97-103 | a failed turn appends its exception, closes quietly and goes on to the next turn |
| Retry.ClosedAfterFailure | src/main/java/com/timgroup/io/ReconnectingSocketOutputStream.java:97-102 | a failed attempt's exception is an `IOException`, and after `closeQuietly` the loop can go on with the same cache |
| Retry.LoopKeepsEarlierFailures | src/main/java/com/timgroup/io/ReconnectingSocketOutputStream.java:98-106 | the exceptions of earlier turns stay, in order, at the front of the aggregate's causes |
| Retry.FirstFailureIsTheCause | src/main/java/com/timgroup/io/ReconnectingSocketOutputStream.java:106 | for every state and buffer, a failed write's cause is the exception of its first attempt |
| Retry.Attempt | src/main/java/com/timgroup/io/ReconnectingSocketOutputStream.java:92-96 | `ensureOpen`, `reset`, `writeFully`; success means everything from the mark onwards was delivered; on a channel that was already open, a success appends exactly those bytes to the current connection and nothing else; only `IOException`s escape |
| Retry.WriteFromMark | src/main/java/com/timgroup/io/ReconnectingSocketOutputStream.java:94-95 | on an open channel, `reset` and `writeFully` append exactly the bytes from the mark to the limit to the current connection on success, keep the mark, and fail only with an `IOException` |
| Retry.AttemptAfterEnsureOpen | src/main/java/com/timgroup/io/ReconnectingSocketOutputStream.java:92-96 | an attempt that succeeds had `ensureOpen` succeed, and then appended exactly the bytes from the mark to the limit to the connection `ensureOpen` left |
| Retry.EnsureOpen | src/main/java/com/timgroup/io/ReconnectingSocketOutputStream.java:122-131 | an open channel is left alone; a failure leaves no channel and is an `IOException` |
| Retry.EnsureOpenReconnects | src/main/java/com/timgroup/io/ReconnectingSocketOutputStream.java:122-131 | without a channel, `ensureOpen` is `reconnect` unless that throws `ConnectException`; then the back-off follows and the `ConnectException` is rethrown, or `InterruptedIOException` is raised exactly when the back-off is interrupted |
| Retry.Reconnect | src/main/java/com/timgroup/io/ReconnectingSocketOutputStream.java:182-186 | success opens a new connection; with nothing to replay the new connection is empty and the cache unchanged; a `ConnectException` adds no connection and leaves the cache alone; a failure leaves no channel |
| Retry.ReconnectRefused | src/main/java/com/timgroup/io/ReconnectingSocketOutputStream.java:55-67 | `reconnect` throws `ConnectException` exactly when the connect after the quiet close is refused or nothing answers, and then it has used one reply and changed nothing else |
| Retry.ReplayFirstWrite | src/main/java/com/timgroup/io/ReconnectingSocketOutputStream.java:188-192 | a no-op unless the cache is captured with bytes remaining; a successful replay leaves it spent, so it never replays again, and leaves a channel whose connection ends with the cached bytes |
| Retry.ReplayWithoutReconnect | src/main/java/com/timgroup/io/ReconnectingSocketOutputStream.java:188-192 | a replay that opened no further connection appended exactly the cached bytes still to be sent |
| Retry.ReconnectReplaysOnce | src/main/java/com/timgroup/io/ReconnectingSocketOutputStream.java:182-192 | a reconnect whose replay needed no further connection leaves a new connection holding exactly the cached bytes still to be sent |
| Retry.LoopWithoutReconnect | src/main/java/com/timgroup/io/ReconnectingSocketOutputStream.java:90-96 | a loop that returns normally without opening a connection appended exactly the bytes from the mark to the limit to the connection it started on |
| Retry.WriteWithoutReconnect | src/main/java/com/timgroup/io/ReconnectingSocketOutputStream.java:87-96 | a write that returns normally without opening a connection appended exactly its pending bytes to the connection that was open |
| Retry.LoopWithoutReplay | src/main/java/com/timgroup/io/ReconnectingSocketOutputStream.java:90-103 | with nothing to replay, a loop that returns normally on a connection it opened left exactly the bytes from the mark to the limit on it |
| Retry.RetryWithoutReplay | src/main/java/com/timgroup/io/ReconnectingSocketOutputStream.java:97-103 | the same for a turn that fails: what a later turn leaves on a new connection holds for the whole loop |
| Retry.AttemptWithoutReplay | src/main/java/com/timgroup/io/ReconnectingSocketOutputStream.java:92-96 | the same for a turn that succeeds: a reconnect without replay opens an empty connection, which then holds exactly those bytes |
| Retry.WriteWithoutReplay | src/main/java/com/timgroup/io/ReconnectingSocketOutputStream.java:87-107 | with nothing to replay, a write that returns normally sent exactly the caller's pending bytes: appended to the connection that was open, or as the whole of the connection it opened |
| Scenarios.QuickWriteFully | src/main/java/com/timgroup/io/ReconnectingSocketOutputStream.java:143-153 | on a quiet connection that takes everything, `writeFully` delivers the pending bytes in one pass |
| Scenarios.QuickPass | src/main/java/com/timgroup/io/ReconnectingSocketOutputStream.java:144-151 | that pass: nothing to read, every pending byte accepted |
| Scenarios.QuickUserWrite | src/main/java/com/timgroup/io/ReconnectingSocketOutputStream.java:87-107 | `write(buffer)` on an open, quiet connection delivers the pending bytes and leaves the buffer at its limit, marked at its initial position |
| Scenarios.QuickUserAttempt | src/main/java/com/timgroup/io/ReconnectingSocketOutputStream.java:92-96 | its first attempt goes through |
| Scenarios.QuickReplay | src/main/java/com/timgroup/io/ReconnectingSocketOutputStream.java:188-192 | a replay on a quiet connection delivers the cached bytes and leaves the cache spent |
| Scenarios.CachedAttempt | src/main/java/com/timgroup/io/ReconnectingSocketOutputStream.java:92-96 | the one attempt of that replay goes through |
| Scenarios.ReplaysTheFirstWriteOnReconnect | src/test/java/com/timgroup/io/ReconnectingSocketOutputStreamTest.java:135-151 | three writes where the peer hangs up after the second: the first connection reads first + second, the second reads first + third, and the script is used up |
| Scenarios.FirstTwoWrites | src/test/java/com/timgroup/io/ReconnectingSocketOutputStreamTest.java:142-143 | the first two writes go through on the first connection, and the first is cached whole |
| Scenarios.InitConnects | src/main/java/com/timgroup/io/ReconnectingSocketOutputStream.java:30-41 | the constructor on an accepting network yields the connected state |
| Scenarios.FirstWrite | src/main/java/com/timgroup/io/ReconnectingSocketOutputStream.java:87-113 | the first write of a replay-enabled stream on a quiet connection is delivered and cached whole |
| Scenarios.AttemptMeetsEndOfStream | src/main/java/com/timgroup/io/ReconnectingSocketOutputStream.java:155-161 | a readable key whose read is -1 makes the attempt fail with `EOFException` before anything is written |
| Scenarios.ReconnectReplays | src/main/java/com/timgroup/io/ReconnectingSocketOutputStream.java:182-192 | a reconnect with a captured first write that has bytes left opens a new connection holding exactly those bytes, from the cache's position to its limit, and leaves the cache spent |
| Scenarios.EndOfStreamTurn | src/main/java/com/timgroup/io/ReconnectingSocketOutputStream.java:97-103 | after end of stream in the first attempt, the loop goes on to turn 1 with the channel closed and `EOFException` recorded |
| Scenarios.ReplayingTurn | src/main/java/com/timgroup/io/ReconnectingSocketOutputStream.java:93-96 | turn 1 reconnects, replays the cached write and then writes the caller's bytes on the new connection |
| Scenarios.EndOfStreamThenReplay | src/main/java/com/timgroup/io/ReconnectingSocketOutputStream.java:87-107 | a write that finds the peer gone ends normally, with the new connection holding the cached first write followed by the caller's bytes |
| Scenarios.SecondTurnReplays | src/main/java/com/timgroup/io/ReconnectingSocketOutputStream.java:91-96 | after the end of stream the second turn reconnects, replays the cached first write and then writes the caller's bytes, using up the script |
| Scenarios.EndOfStreamReplies | src/main/java/com/timgroup/io/ReconnectingSocketOutputStream.java:97-102 | the state after that first failed attempt and the close: no channel, same cache and connections |
| Scenarios.QuickAttempt | src/main/java/com/timgroup/io/ReconnectingSocketOutputStream.java:92-96 | once `ensureOpen` has an open channel, the attempt delivers the pending bytes in one pass |
| Scenarios.FirstWriteSentTwiceAfterReconnect | src/main/java/com/timgroup/io/ReconnectingSocketOutputStream.java:109-113 | a first write that meets end of stream reaches the new connection twice: once as the replayed copy and once as the retry |
| Scenarios.ReopensWithoutReplay | src/main/java/com/timgroup/io/ReconnectingSocketOutputStream.java:188-192 | with replay disabled or already done, a reconnect opens an empty connection and sends no preamble |
| Scenarios.PartialWriteFully | src/main/java/com/timgroup/io/ReconnectingSocketOutputStream.java:143-153 | a connection that takes one byte and then reads end of stream receives exactly the first pending byte, and `writeFully` throws `EOFException` with the position one byte on |
| Scenarios.PartialAttempt | src/main/java/com/timgroup/io/ReconnectingSocketOutputStream.java:92-96 | the attempt of a replay on such a connection sends one cached byte and fails with `EOFException`, the cache keeping its mark |
| Scenarios.PartialLoop | src/main/java/com/timgroup/io/ReconnectingSocketOutputStream.java:91-106 | with one try, that replay's loop closes the channel and throws the aggregate of the one `EOFException` |
| Scenarios.PartialReplay | src/main/java/com/timgroup/io/ReconnectingSocketOutputStream.java:188-192 | a replay that fails after one byte leaves that byte on the connection, no channel, and the cache one byte on from its old position, so not spent |
| Scenarios.PartialReplayResumes | src/main/java/com/timgroup/io/ReconnectingSocketOutputStream.java:182-192 | the next reconnect after that replay resumes it: the new connection holds only the rest of the first write, and the cache ends spent |
| Scenarios.PartialFirstTurn | src/main/java/com/timgroup/io/ReconnectingSocketOutputStream.java:91-103 | with any number of tries, the first turn of that replay's loop delivers one byte, closes the channel, and goes on to the next turn with `EOFException` recorded |
| Scenarios.AfterPartialTurn | src/main/java/com/timgroup/io/ReconnectingSocketOutputStream.java:98-102 | the state that first turn leaves is valid again, with the cache still captured |
| Scenarios.NestedTurn | src/main/java/com/timgroup/io/ReconnectingSocketOutputStream.java:93-95 | a later turn of that loop reconnects, the reconnect's nested replay sends the tail of the cache and marks it where the tail began, and the turn resets to that mark and sends the tail again, so the new connection holds the tail twice and the turn succeeds |
| Scenarios.NestedLoopTurn | src/main/java/com/timgroup/io/ReconnectingSocketOutputStream.java:91-96 | that successful later turn ends the loop normally with the state `NestedTurn` states |
| Scenarios.TailTwiceLoop | src/main/java/com/timgroup/io/ReconnectingSocketOutputStream.java:91-103 | with at least two tries, the replay's loop gets one byte out, fails, and then succeeds on its second turn with the tail sent twice on one new connection |
| Scenarios.TailTwiceOnAfter | src/main/java/com/timgroup/io/ReconnectingSocketOutputStream.java:93-95 | after those two turns the channel is open, the cache is spent, and the sessions are the old one plus one byte, then a new one holding the tail twice |
| Scenarios.TailTwiceReplay | src/main/java/com/timgroup/io/ReconnectingSocketOutputStream.java:188-192 | `replayFirstWrite()` with at least two tries on such a connection is that loop, started on the cache marked where it stands |
| Scenarios.TailTwice | src/main/java/com/timgroup/io/ReconnectingSocketOutputStream.java:87-103 | a replay with tries left whose first try gets one byte out succeeds, and one new connection receives the rest of the first write twice |
| Scenarios.WriteAfterCloseReconnects | src/main/java/com/timgroup/io/ReconnectingSocketOutputStream.java:122-131 | a write after `close()` silently reconnects and delivers the bytes whole on the new connection |
| Scenarios.ReopeningTurn | src/main/java/com/timgroup/io/ReconnectingSocketOutputStream.java:92-103 | a later turn with no channel and nothing to replay reconnects and delivers the caller's bytes as the whole of the new connection |
| Scenarios.RefusedTurn | src/main/java/com/timgroup/io/ReconnectingSocketOutputStream.java:122-131 | a turn whose connect is refused sleeps, rethrows `ConnectException` and goes on to the next turn with the script one reply shorter |
| Scenarios.RefusedThenReopens | src/main/java/com/timgroup/io/ReconnectingSocketOutputStream.java:90-131 | a refused turn followed by an accepted one delivers the bytes on the connection the second opens |
| Scenarios.EndOfStreamWithoutReplay | src/main/java/com/timgroup/io/ReconnectingSocketOutputStream.java:97-103 | without replay, end of stream in the first turn leads to turn 1 with the channel closed, the transcript unchanged and `EOFException` recorded |
| Scenarios.PeerGoneReconnects | src/main/java/com/timgroup/io/ReconnectingSocketOutputStream.java:87-107 | a write without replay whose peer has gone ends normally with its bytes as the whole of a new connection |
| Scenarios.ReconnectsIfNecessaryOnWrite | src/test/java/com/timgroup/io/ReconnectingSocketOutputStreamTest.java:64-79 | the test's run: the second connection reads the written bytes and the first reads nothing |
| Scenarios.PeerGoneThenRefused | src/main/java/com/timgroup/io/ReconnectingSocketOutputStream.java:87-131 | the same when the first reconnect is refused and the next, after the back-off, accepted |
| Scenarios.BlocksIfNecessaryOnReconnect | src/test/java/com/timgroup/io/ReconnectingSocketOutputStreamTest.java:99-115 | the test's run: after end of stream, a refused connect and the back-off, the second connection reads the written bytes |
| Scenarios.LoopOnDeadNetwork | src/main/java/com/timgroup/io/ReconnectingSocketOutputStream.java:122-131 | on a network that refuses every connection, each remaining turn records one `ConnectException` |
| Scenarios.WriteOnDeadNetwork | src/main/java/com/timgroup/io/ReconnectingSocketOutputStream.java:87-107 | such a write fails after exactly `tryCount` refusals, and its cause is `ConnectException` |
| Scenarios.TestPayloads | src/test/java/com/timgroup/io/ReconnectingSocketOutputStreamTest.java:142-148 | the test's payload bytes, and that the peer's lines are "hello world" and "hello kitty" |
| Scenarios.HelloKitty | src/test/java/com/timgroup/io/ReconnectingSocketOutputStreamTest.java:135-151 | the replay test with its own payloads and the default try count: the connections read "hello world\n" and "hello kitty\n" |
| Stream.ReconnectingSocketOutputStream.Unconnected | src/main/java/com/timgroup/io/ReconnectingSocketOutputStream.java:30-39 | the fields before `connect()`: no channel, an empty 32-byte drain buffer, and the sentinel when replay is disabled |
| Stream.ReconnectingSocketOutputStream.Create | src/main/java/com/timgroup/io/ReconnectingSocketOutputStream.java:30-53 | the constructors, whose defaults are 180 tries and no replay: the new stream's state is exactly `Retry.Init`'s, failure included |
| Stream.ReconnectingSocketOutputStream.Connect | src/main/java/com/timgroup/io/ReconnectingSocketOutputStream.java:55-67 | does to the stream what `Retry.Connect` does |
| Stream.ReconnectingSocketOutputStream.Close | src/main/java/com/timgroup/io/ReconnectingSocketOutputStream.java:200-210 | does to the stream what `Retry.Close` does |
| Stream.ReconnectingSocketOutputStream.CloseQuietly | src/main/java/com/timgroup/io/ReconnectingSocketOutputStream.java:194-198 | does to the stream what `Retry.CloseQuietly` does |
| Stream.ReconnectingSocketOutputStream.Copy | src/main/java/com/timgroup/io/ReconnectingSocketOutputStream.java:115-120 | a fresh buffer whose value is `CopyOf` of the source, which keeps its cursor |
| Stream.ReconnectingSocketOutputStream.RecordFirstWrite | src/main/java/com/timgroup/io/ReconnectingSocketOutputStream.java:109-113 | does to the stream what `Retry.RecordFirstWrite` does; a fresh copy only when `firstWrite` was null |
| Stream.ReconnectingSocketOutputStream.WriteByte | src/main/java/com/timgroup/io/ReconnectingSocketOutputStream.java:69-72 | is `write` of the one byte `(byte) b` |
| Stream.ReconnectingSocketOutputStream.WriteBytes | src/main/java/com/timgroup/io/ReconnectingSocketOutputStream.java:74-77 | is `write` of the wrapped slice; a range outside the array throws `IndexOutOfBoundsException` and changes nothing |
| Stream.ReconnectingSocketOutputStream.Write | src/main/java/com/timgroup/io/ReconnectingSocketOutputStream.java:87-107 | does to the stream and the buffer what `Retry.Write` does, for a caller's buffer and for `firstWrite` itself |
| Stream.ReconnectingSocketOutputStream.Tries | src/main/java/com/timgroup/io/ReconnectingSocketOutputStream.java:90-106 | the `for` loop ends where `Retry.Loop` does |
| Stream.ReconnectingSocketOutputStream.Turn | src/main/java/com/timgroup/io/ReconnectingSocketOutputStream.java:92-103 | given where the loop ends from this turn, one turn either returns exactly that outcome or leaves the state from which the next turn ends there |
| Stream.ReconnectingSocketOutputStream.Attempt | src/main/java/com/timgroup/io/ReconnectingSocketOutputStream.java:92-96 | does what `Retry.Attempt` does |
| Stream.ReconnectingSocketOutputStream.EnsureOpen | src/main/java/com/timgroup/io/ReconnectingSocketOutputStream.java:122-131 | does what `Retry.EnsureOpen` does |
| Stream.ReconnectingSocketOutputStream.Reconnect | src/main/java/com/timgroup/io/ReconnectingSocketOutputStream.java:182-186 | does what `Retry.Reconnect` does |
| Stream.ReconnectingSocketOutputStream.ReplayFirstWrite | src/main/java/com/timgroup/io/ReconnectingSocketOutputStream.java:188-192 | does what `Retry.ReplayFirstWrite` does |
| Stream.ReconnectingSocketOutputStream.Drain | src/main/java/com/timgroup/io/ReconnectingSocketOutputStream.java:176-180 | the `while` loop does what `Engine.Drain` does |
| Stream.ReconnectingSocketOutputStream.CheckForRead | src/main/java/com/timgroup/io/ReconnectingSocketOutputStream.java:155-161 | does what `Engine.CheckForRead` does |
| Stream.ReconnectingSocketOutputStream.BlockForWrite | src/main/java/com/timgroup/io/ReconnectingSocketOutputStream.java:163-174 | the `while` loop does what `Engine.BlockForWrite` does |
| Stream.ReconnectingSocketOutputStream.WriteFully | src/main/java/com/timgroup/io/ReconnectingSocketOutputStream.java:143-153 | the `while` loop does what `Engine.WriteFully` does to the socket layer and the buffer |
| Stream.ReconnectingSocketOutputStream.WritePass | src/main/java/com/timgroup/io/ReconnectingSocketOutputStream.java:146-151 | one pass of that loop does what `Engine.WritePass` does |

## Left out

- Real NIO is replaced by the oracle script: `SocketChannel.open`, `configureBlocking`, `Selector.open`, `register`, and the socket options `setKeepAlive` and `setTcpNoDelay`. Which replies a real network would give is outside the model.
- Address resolution is left out. `host` and `port` are stored but play no part, since the script decides every connect.
- The length of the one-second back-off is left out. `Thread.sleep` is a step that returns at once or, on an `Interrupt` reply, raises `InterruptedIOException`. The `initCause` of that exception is not modelled.
- Exception messages are left out, as is the Java `assert` at line 105. An exception is its kind, and the aggregate failure is its list of causes.
- The bytes the drain buffer receives are not modelled, only how many there are: the stream throws them away.
- `EMPTY_BUFFER` is one static object shared by all streams. Here each stream has its own empty sentinel. No stream can tell the difference, because the sentinel is never written.
- `InvalidMarkException`, `BufferOverflowException` and `ReadOnlyBufferException` of `ByteBuffer` are left out. The stream never triggers them, and the buffer methods' preconditions say why.
- The three shorter constructors are not modelled one by one. They are the default parameters of `Stream.ReconnectingSocketOutputStream.Create`.
- `OutputStream.write(byte[])` is handled by `Stream.ReconnectingSocketOutputStream.WriteBytes`, called with offset 0 and the array's length. `flush` is inherited and does nothing.
- Concurrency and thread-safety are not modelled. The stream is used by one thread.
- Three tests are not replayed as runs. `writesBytesToASocket` is one quiet write on a new connection; `Scenarios.QuickUserWrite` states that for any open, quiet connection. `blocksIfNecessaryOnWrite` and `reconnectsEvenIfBlockedOnWrite` fill the socket's send buffer with 100 MB and 10 MB of stuffing, so a script would have to spell out every partial write and select. Their steps are stated in general but not run end to end: a write that waits in `select()` until the channel is writable (`Engine.BlockForWrite`, `Engine.WriteFullyDeliversInOrder`), the drain while waiting, which raises `EOFException` on end of stream (`Engine.BlockForWrite`, `Engine.DrainReadsWhilePositive`), and a retry on a new connection (`Retry.WriteWithoutReplay`).
- Retry.Write: when the write opened a connection and a replay of the first write went out on it, the contract states only that the connection ends with the bytes from the mark to the limit, not what comes before them. A replay that fails part-way moves the mark of the cached buffer, and nested replays can open further connections, so those leading bytes depend on the whole script. The exact contents are stated where they have a closed form: without a new connection (`Retry.WriteWithoutReconnect`), with nothing to replay (`Retry.WriteWithoutReplay`), for a replay that needs no further connection (`Retry.ReconnectReplaysOnce`), and in the scenarios.
- Stream.ReconnectingSocketOutputStream.Write: its precondition excludes the drain buffer and the empty sentinel. Both are private, so no caller can pass them. It also requires a `firstWrite` passed in to have bytes remaining, which `replayFirstWrite` checks before calling.
