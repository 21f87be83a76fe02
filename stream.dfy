/** The class `ReconnectingSocketOutputStream` itself: its fields, updated in place by its
    methods, each of which is proved to do to the abstract state what the function of the same
    name in `Retry` or `Engine` does. */
module Stream {
  import opened Bytes
  import opened Failures
  import opened Buffers
  import opened Oracle
  import opened Engine
  import opened Retry

  class ReconnectingSocketOutputStream {
    const host: string
    const port: int
    const tryCount: int
    /** The socket layer and the selector. */
    const net: Network
    const drainBuffer: ByteBuffer
    /** The shared `EMPTY_BUFFER` that marks replay as disabled. */
    const emptyBuffer: ByteBuffer
    var channel: Option<Channel>
    var firstWrite: ByteBuffer?

    /** The constructor up to `connect()`: no channel yet, a 32-byte drain buffer, and the empty
        sentinel in the cache when replay is disabled. */
    constructor Unconnected(host: string, port: int, tryCount: int, net: Network, replayFirstWrite: bool)
      requires tryCount >= 1
      ensures Valid() && fresh(drainBuffer) && fresh(emptyBuffer)
      ensures this.host == host && this.port == port && this.tryCount == tryCount && this.net == net
      ensures channel.None? && drainBuffer.position == 0
      ensures CacheOf() == if replayFirstWrite then Unset else Disabled
    {
      this.host, this.port, this.tryCount, this.net := host, port, tryCount, net;
      drainBuffer := new ByteBuffer.Allocate(DRAIN_CAPACITY);
      var empty := new ByteBuffer.Allocate(0);
      emptyBuffer := empty;
      channel := None;
      firstWrite := if replayFirstWrite then null else empty;
    }

    /** The drain buffer is a 32-byte buffer whose limit stays at its capacity. */
    ghost predicate DrainReady()
      reads drainBuffer
    {
      drainBuffer.Valid() && drainBuffer.data.Length == DRAIN_CAPACITY && drainBuffer.limit == DRAIN_CAPACITY
    }

    /** The objects `firstWrite` brings into the state: the buffer and its backing array. */
    ghost function FirstWriteRepr(): set<object>
      reads this
    {
      if firstWrite == null then {} else {firstWrite, firstWrite.data}
    }

    ghost predicate Valid()
      reads this, net, drainBuffer, emptyBuffer, FirstWriteRepr()
    {
      && tryCount >= 1
      && DrainReady()
      && emptyBuffer.Valid() && emptyBuffer.data.Length == 0 && emptyBuffer != drainBuffer
      && (firstWrite != null ==> firstWrite.Valid() && firstWrite != drainBuffer)
      && (channel.Some? ==> channel.value.open && |net.sessions| > 0)
    }

    /** The state of the socket layer as the write engine sees it. */
    ghost function IoOf(): (io: Io)
      reads net, drainBuffer
      ensures io.script == net.script && io.sessions == net.sessions
    {
      Io(net.script, net.sessions, KeyReady(net.readable, net.writable), drainBuffer.position)
    }

    /** `firstWrite` as a value. */
    ghost function CacheOf(): Cache
      reads this, FirstWriteRepr()
    {
      if firstWrite == null then Unset
      else if firstWrite == emptyBuffer then Disabled
      else Captured(firstWrite.View())
    }

    /** The whole stream as a value. */
    ghost function Abs(): State
      reads this, net, drainBuffer, FirstWriteRepr()
    {
      State(IoOf(), channel, CacheOf(), tryCount)
    }

    /** `connect()`. */
    method Connect() returns (s: Status)
      requires Valid()
      modifies this, net
      ensures Valid() && firstWrite == old(firstWrite)
      ensures (s, Abs()) == Retry.Connect(old(Abs()))
    {
      if channel.Some? {
        return Threw(IllegalStateException);
      }
      s := net.Connect();
      if s.Normal? {
        channel := Some(Channel(true));
      }
    }

    /** `close()`. */
    method Close() returns (s: Status)
      requires Valid()
      modifies this, net
      ensures Valid() && firstWrite == old(firstWrite)
      ensures (s, Abs()) == Retry.Close(old(Abs()))
    {
      if channel.None? {
        return Normal;
      }
      s := net.Close();
      channel := None;
    }

    /** `closeQuietly()`. */
    method CloseQuietly()
      requires Valid()
      modifies this, net
      ensures Valid() && firstWrite == old(firstWrite)
      ensures Abs() == Retry.CloseQuietly(old(Abs()))
    {
      var _ := Close();
    }

    /** `copy(buffer)`: a new buffer holding the pending bytes of `buffer`; `buffer` itself is
        read through a read-only view and so keeps its cursor. */
    static method Copy(buffer: ByteBuffer) returns (copy: ByteBuffer)
      requires buffer.Valid()
      ensures fresh(copy) && fresh(copy.data) && copy.Valid()
      ensures copy.View() == CopyOf(buffer.View())
    {
      var n := buffer.Remaining();
      ghost var pending := buffer.View().Pending();
      copy := new ByteBuffer.Allocate(n);
      var view := buffer.AsReadOnlyBuffer();
      assert view.View().Pending() == pending;
      ghost var blank := copy.data[..];
      assert blank[..0] == [] && blank[n..] == [];
      copy.Put(view);
      assert copy.data[..] == pending;
      copy.Flip();
    }

    /** `recordFirstWrite(buffer)`. */
    method RecordFirstWrite(buffer: ByteBuffer)
      requires Valid() && buffer.Valid()
      modifies this
      ensures Valid() && firstWrite != null
      ensures old(firstWrite) != null ==> firstWrite == old(firstWrite)
      ensures old(firstWrite) == null ==> fresh(firstWrite) && fresh(firstWrite.data)
      ensures Abs() == Retry.RecordFirstWrite(old(Abs()), buffer.View())
    {
      if firstWrite == null {
        firstWrite := Copy(buffer);
      }
    }

    /** The public constructors: a try count below one is refused with `IllegalArgumentException`,
        and the new stream connects at once; a failure to connect fails the construction. The
        defaults are those of the shorter constructors: `DEFAULT_TRY_COUNT` tries, no replay. */
    static method Create(host: string, port: int, net: Network, tryCount: int := DEFAULT_TRY_COUNT, replayFirstWrite: bool := false)
        returns (r: Result<ReconnectingSocketOutputStream>)
      modifies net
      ensures var init := Retry.Init(old(net.script), old(net.sessions), tryCount, replayFirstWrite);
              && (r.Ok? <==> init.Ok?) && (r.Err? ==> r.error == init.error)
              && (r.Ok? ==> fresh(r.value) && r.value.Valid() && r.value.Abs() == init.value)
      ensures r.Ok? ==> r.value.host == host && r.value.port == port && r.value.net == net
    {
      if tryCount < 1 {
        return Err(IllegalArgumentException);
      }
      var stream := new ReconnectingSocketOutputStream.Unconnected(host, port, tryCount, net, replayFirstWrite);
      var s := stream.Connect();
      if s.Threw? {
        return Err(s.error);
      }
      r := Ok(stream);
    }

    /** `write(int)`: the low eight bits of `b`, as a one-byte array. */
    method WriteByte(b: int) returns (s: Status)
      requires Valid()
      modifies this, net, drainBuffer, firstWrite
      ensures Valid()
      ensures var w := Retry.WriteOne(old(Abs()), ToByte(b));
              s == w.0 && Abs() == w.1
    {
      ghost var st := Abs();
      var bytes := new byte[1](_ => ToByte(b));
      assert bytes[..] == [ToByte(b)];
      assert Abs() == st;
      s := WriteBytes(bytes, 0, 1);
    }

    /** `write(bytes, off, len)`: the bytes `off` to `off + len` of the array, wrapped without a
        copy; `ByteBuffer.wrap` refuses a range outside the array. */
    method WriteBytes(bytes: array<byte>, off: int, len: int) returns (s: Status)
      requires Valid()
      modifies this, net, drainBuffer, firstWrite
      ensures Valid()
      ensures off < 0 || len < 0 || off + len > bytes.Length ==>
                s == Threw(IndexOutOfBoundsException) && Abs() == old(Abs())
      ensures 0 <= off && 0 <= len && off + len <= bytes.Length ==>
                var w := Retry.Write(old(Abs()), User, Wrapped(old(bytes[..]), off, len));
                s == w.0 && Abs() == w.1
    {
      if off < 0 || len < 0 || off + len > bytes.Length {
        return Threw(IndexOutOfBoundsException);
      }
      var buffer := new ByteBuffer.Wrap(bytes, off, len);
      s := Write(buffer);
    }

    /** `write(buffer)`, both for a caller's buffer and for the replay of `firstWrite` itself. The
        buffer is never the drain buffer or the empty sentinel, which are private; a replayed
        `firstWrite` still has bytes remaining, as `replayFirstWrite` checks. */
    method Write(buffer: ByteBuffer) returns (s: Status)
      requires Valid() && buffer.Valid() && buffer != drainBuffer && buffer != emptyBuffer
      requires buffer == firstWrite ==> buffer.position < buffer.limit
      modifies this, net, drainBuffer, buffer, firstWrite
      decreases |net.script|, 6
      ensures Valid() && firstWrite != null
      ensures old(firstWrite) != null ==> firstWrite == old(firstWrite)
      ensures old(firstWrite) == null ==> fresh(firstWrite)
      ensures buffer != old(firstWrite) ==>
                (s, Abs(), buffer.View()) == Retry.Write(old(Abs()), User, old(buffer.View()))
      ensures buffer == old(firstWrite) ==>
                var w := Retry.Write(old(Abs()), Cached, old(buffer.View()));
                s == w.0 && Abs() == w.1
    {
      ghost var t := if buffer == firstWrite then Cached else User;
      ghost var st := Abs();
      ghost var m := SetCursor(st, t, buffer.View(), Active(st, t, buffer.View()).cur.Marked());
      buffer.Mark();
      assert Abs() == m.0 && Active(m.0, t, m.1) == buffer.View();
      RecordFirstWrite(buffer);
      s := Tries(buffer, t, m.1, Abs());
    }

    /** The `for` loop of `write`: up to `tryCount` attempts, each failure recorded and followed by
        `closeQuietly()`, and after the last failure an `IOException` carrying them all. */
    method Tries(buffer: ByteBuffer, ghost t: Target, ghost u: Buf, ghost st: State) returns (s: Status)
      requires Valid() && st == Abs() && buffer.Valid() && u.Valid() && buffer != drainBuffer && buffer != emptyBuffer
      requires firstWrite == buffer <==> t == Cached
      requires t == Cached ==> st.cache.Captured? && !Spent(st.cache)
      requires Active(st, t, u) == buffer.View() && buffer.mark >= 0
      modifies this, net, drainBuffer, buffer, firstWrite
      decreases |net.script|, 5
      ensures Valid() && firstWrite == old(firstWrite)
      ensures var w := Retry.Loop(st, t, u, 0, []);
              s == w.0 && Abs() == w.1 && Active(w.1, t, w.2) == buffer.View()
    {
      ghost var goal := Retry.Loop(st, t, u, 0, []);
      ghost var cur, arg := st, u;
      var exceptions: seq<Exception> := [];
      var i := 0;
      while i < tryCount
        invariant Valid() && buffer.Valid() && firstWrite == old(firstWrite) && cur == Abs()
        invariant 0 <= i <= tryCount && |exceptions| == i && |net.script| <= old(|net.script|)
        invariant arg.Valid() && (t == Cached ==> cur.cache.Captured? && !Spent(cur.cache))
        invariant Active(cur, t, arg) == buffer.View() && buffer.mark >= 0
        invariant i > 0 ==> cur.channel.None?
        invariant Retry.Loop(cur, t, arg, i, exceptions) == goal
        decreases tryCount - i
      {
        s, cur, arg := Turn(buffer, t, arg, cur, i, exceptions, goal);
        if s.Normal? {
          return;
        }
        exceptions := exceptions + [s.error];
        i := i + 1;
      }
      LoopEnds(cur, t, arg, exceptions);
      s := Threw(WriteFailed(exceptions));
    }

    /** One turn of the loop of `write`: the attempt, and after a failure (always an I/O
        exception, the only kind caught) `closeQuietly()`. `goal` is where the function of the
        loop ends from this turn; `next` and `u2` are the state and the buffer argument it goes
        on with. */
    method Turn(buffer: ByteBuffer, ghost t: Target, ghost u: Buf, ghost st: State, ghost i: int, ghost exceptions: seq<Exception>,
                ghost goal: (Status, State, Buf))
        returns (s: Status, ghost next: State, ghost u2: Buf)
      requires Valid() && st == Abs() && buffer.Valid() && u.Valid() && buffer != drainBuffer && buffer != emptyBuffer
      requires firstWrite == buffer <==> t == Cached
      requires t == Cached ==> st.cache.Captured? && !Spent(st.cache)
      requires Active(st, t, u) == buffer.View() && buffer.mark >= 0
      requires 0 <= i < st.tryCount && |exceptions| == i && (i > 0 ==> st.channel.None?)
      requires Retry.Loop(st, t, u, i, exceptions) == goal
      modifies this, net, drainBuffer, buffer, firstWrite
      decreases |net.script|, 4
      ensures Valid() && buffer.Valid() && firstWrite == old(firstWrite) && next == Abs()
      ensures |net.script| <= old(|net.script|) && u2.Valid()
      ensures Active(next, t, u2) == buffer.View() && buffer.mark >= 0
      ensures s.Normal? ==> goal == (Normal, next, u2)
      ensures s.Threw? ==> && next.channel.None? && next.tryCount == st.tryCount
                           && (t == Cached ==> next.cache.Captured? && !Spent(next.cache))
                           && Retry.Loop(next, t, u2, i + 1, exceptions + [s.error]) == goal
    {
      s := Attempt(buffer, t, u, st);
      ghost var a := Retry.Attempt(st, t, u);
      if s.Normal? {
        LoopReturns(st, t, u, i, exceptions, a.1, a.2);
        return s, a.1, a.2;
      }
      LoopRetries(st, t, u, i, exceptions, s.error, a.1, a.2);
      CloseQuietly();
      next, u2 := Retry.CloseQuietly(a.1), a.2;
    }

    /** The body of the `try` block of `write`: `ensureOpen()`, `buffer.reset()`,
        `writeFully(buffer)`. `t` says whether `buffer` is `firstWrite`, `u` is what the function
        of the same name is given for it, and `st` is the stream's state. */
    method Attempt(buffer: ByteBuffer, ghost t: Target, ghost u: Buf, ghost st: State) returns (s: Status)
      requires Valid() && st == Abs() && buffer.Valid() && u.Valid() && buffer != drainBuffer && buffer != emptyBuffer
      requires firstWrite == buffer <==> t == Cached
      requires t == Cached ==> st.cache.Captured? && !Spent(st.cache)
      requires Active(st, t, u) == buffer.View() && buffer.mark >= 0
      modifies this, net, drainBuffer, buffer, firstWrite
      decreases |net.script|, 3
      ensures Valid() && buffer.Valid() && firstWrite == old(firstWrite)
      ensures var a := Retry.Attempt(st, t, u);
              s == a.0 && Abs() == a.1 && Active(a.1, t, a.2) == buffer.View()
    {
      s := EnsureOpen();
      if s.Threw? {
        return;
      }
      buffer.Reset();
      s := WriteFully(buffer);
    }

    /** `ensureOpen()`. */
    method EnsureOpen() returns (s: Status)
      requires Valid()
      modifies this, net, drainBuffer, firstWrite
      decreases |net.script|, 2
      ensures Valid() && firstWrite == old(firstWrite)
      ensures (s, Abs()) == Retry.EnsureOpen(old(Abs()))
    {
      if channel.None? || !channel.value.open {
        ghost var st := Abs();
        s := Reconnect();
        if s == Threw(ConnectException) {
          ghost var c := Abs();
          assert (s, c) == Retry.Reconnect(st);
          var slept := net.Sleep(1000);
          assert Abs() == c.(io := c.io.(script := SleepStep(c.io.script).rest));
          if slept.Threw? {
            s := slept;
          }
        }
      } else {
        s := Normal;
      }
    }

    /** `reconnect()`. */
    method Reconnect() returns (s: Status)
      requires Valid()
      modifies this, net, drainBuffer, firstWrite
      decreases |net.script|, 1
      ensures Valid() && firstWrite == old(firstWrite)
      ensures (s, Abs()) == Retry.Reconnect(old(Abs()))
    {
      CloseQuietly();
      s := Connect();
      if s.Threw? {
        return;
      }
      s := ReplayFirstWrite();
    }

    /** `replayFirstWrite()`. */
    method ReplayFirstWrite() returns (s: Status)
      requires Valid()
      modifies this, net, drainBuffer, firstWrite
      decreases |net.script|, 7
      ensures Valid() && firstWrite == old(firstWrite)
      ensures (s, Abs()) == Retry.ReplayFirstWrite(old(Abs()))
    {
      s := Normal;
      if firstWrite != null {
        var n := firstWrite.Remaining();
        if n > 0 {
          s := Write(firstWrite);
        }
      }
    }

    /** `drain()`. */
    method Drain() returns (s: Status)
      requires DrainReady()
      modifies net`script, drainBuffer`position
      ensures DrainReady()
      ensures (s, IoOf()) == Engine.Drain(old(IoOf()))
    {
      ghost var goal := Engine.Drain(IoOf());
      var read: Result<int>;
      while true
        invariant DrainReady() && net.sessions == old(net.sessions)
        invariant net.readable == old(net.readable) && net.writable == old(net.writable)
        invariant Engine.Drain(IoOf()) == goal
        decreases |net.script|
      {
        ghost var io := IoOf();
        read := net.Read(drainBuffer);
        if read.Ok? && read.value > 0 {
          DrainGoesOn(io, read.value, IoOf());
        } else {
          DrainStops(io);
          if read.Err? {
            return Threw(read.error);
          } else if read.value < 0 {
            return Threw(EOFException);
          }
          return Normal;
        }
      }
    }

    /** `checkForRead()`. */
    method CheckForRead() returns (s: Status)
      requires DrainReady()
      modifies net`script, net`readable, net`writable, drainBuffer`position
      ensures DrainReady() && net.sessions == old(net.sessions)
      ensures (s, IoOf()) == Engine.CheckForRead(old(IoOf()))
    {
      s := net.SelectNow();
      if s.Normal? && net.readable {
        s := Drain();
      }
    }

    /** `blockForWrite()`. */
    method BlockForWrite() returns (s: Status)
      requires DrainReady()
      modifies net`script, net`readable, net`writable, drainBuffer`position
      ensures DrainReady() && net.sessions == old(net.sessions)
      ensures (s, IoOf()) == Engine.BlockForWrite(old(IoOf()))
    {
      ghost var goal := Engine.BlockForWrite(IoOf());
      while !net.writable
        invariant DrainReady() && net.sessions == old(net.sessions)
        invariant Engine.BlockForWrite(IoOf()) == goal
        decreases |net.script|
      {
        var selected := net.Select();
        if selected.Err? {
          return Threw(selected.error);
        }
        if selected.value == 0 {
          return Threw(SelectFailed);
        }
        if net.readable {
          s := Drain();
          if s.Threw? {
            return;
          }
        }
      }
      s := Normal;
    }

    /** `writeFully(buffer)`. */
    method WriteFully(buffer: ByteBuffer) returns (s: Status)
      requires DrainReady() && buffer.Valid() && buffer != drainBuffer && |net.sessions| > 0
      modifies net, drainBuffer`position, buffer`position
      ensures DrainReady() && buffer.Valid() && |net.sessions| > 0
      ensures (s, IoOf(), buffer.View()) == Engine.WriteFully(old(IoOf()), old(buffer.View()))
    {
      ghost var goal := Engine.WriteFully(IoOf(), buffer.View());
      var more := buffer.HasRemaining();
      while more
        invariant DrainReady() && buffer.Valid() && |net.sessions| > 0
        invariant more <==> buffer.position < buffer.limit
        invariant Engine.WriteFully(IoOf(), buffer.View()) == goal
        decreases |net.script|
      {
        s := CheckForRead();
        if s.Threw? {
          return;
        }
        s := WritePass(buffer);
        if s.Threw? {
          return;
        }
        more := buffer.HasRemaining();
      }
      s := Normal;
    }

    /** One pass of the loop of `writeFully` after `checkForRead()`: `channel.write(buffer)`, and
        `blockForWrite()` when it accepted nothing. */
    method WritePass(buffer: ByteBuffer) returns (s: Status)
      requires DrainReady() && buffer.Valid() && buffer != drainBuffer && |net.sessions| > 0
      requires buffer.position < buffer.limit
      modifies net, drainBuffer`position, buffer`position
      ensures DrainReady() && buffer.Valid() && |net.sessions| > 0 && |net.script| <= old(|net.script|)
      ensures (s, IoOf(), buffer.View()) == Engine.WritePass(old(IoOf()), old(buffer.View()))
    {
      ghost var io := IoOf();
      ghost var b := buffer.View();
      ghost var step := WriteStep(io.script, b.cur.Remaining());
      ghost var p := buffer.position;
      var written := net.Write(buffer);
      ghost var k := if written.Ok? && written.value > 0 then written.value else 0;
      assert buffer.data[p..buffer.position] == b.data[p..p + k];
      ghost var io1 := io.(script := step.rest, sessions := Deliver(io.sessions, b.data[p..p + k]));
      assert IoOf() == io1;
      assert buffer.View() == b.(cur := b.cur.(position := p + k));
      if written.Err? {
        DeliverNothing(io.sessions);
        return Threw(written.error);
      }
      if written.value == 0 {
        DeliverNothing(io.sessions);
        s := BlockForWrite();
      } else if written.value < 0 {
        DeliverNothing(io.sessions);
        s := Threw(EOFException);
      } else {
        s := Normal;
      }
    }
  }

}
