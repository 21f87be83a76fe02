/** The stream as a function of its state: the retry loop of `write(ByteBuffer)`, `ensureOpen`,
    `reconnect`, `replayFirstWrite`, `connect`, `close` and the first-write cache. The recursion
    `write -> ensureOpen -> reconnect -> replayFirstWrite -> write` terminates because every
    reconnect that goes on to replay has used up a reply of the script. */
module Retry {
  import opened Bytes
  import opened Failures
  import opened Buffers
  import opened Oracle
  import opened Engine

  const DEFAULT_TRY_COUNT: int := 3 * 60

  /** A present `SocketChannel`; `open` is `channel.isOpen()`. The stream forgets a channel as it
      closes it, so a present channel is always open (`State.Valid`) and the `!open` test of
      `ensureOpen` never succeeds; it is kept because the Java code makes it. */
  datatype Channel = Channel(open: bool)

  /** The field `firstWrite`: not captured yet (`null`), replay disabled (`EMPTY_BUFFER`), or the
      copy of the first payload with its own cursor. */
  datatype Cache = Unset | Disabled | Captured(buf: Buf)

  /** Which buffer a `write` works on: the caller's, or the cached first write being replayed.
      In the second case the buffer is the one held by the state, so that nested replays see and
      move the same cursor, as they do on the one `firstWrite` object. */
  datatype Target = User | Cached

  datatype State = State(io: Io, channel: Option<Channel>, cache: Cache, tryCount: int) {
    predicate Valid()
    {
      && io.Valid()
      && tryCount >= 1
      && (channel.Some? ==> channel.value.open && |io.sessions| > 0)
      && (cache.Captured? ==> cache.buf.Valid())
    }
  }

  /** The cached first write has been written out to its limit: `remaining() == 0`. */
  predicate Spent(c: Cache)
  {
    c.Captured? && c.buf.cur.position >= c.buf.cur.limit
  }

  /** What no operation of the stream undoes: `Grows`, and a spent cache is never touched again. */
  ghost predicate Evolves(st: State, st2: State)
  {
    Grows(st, st2) && (Spent(st.cache) ==> st2.cache == st.cache)
  }

  /** The configuration, the validity of the state, the script only shrinks, the drain buffer
      only fills, the transcript only grows at its current connection and by new connections
      (and only a connect makes a channel present), and the cache keeps its bytes, its limit and
      its mark once set. */
  ghost predicate Grows(st: State, st2: State)
  {
    && st2.Valid() && st2.tryCount == st.tryCount
    && |st2.io.script| <= |st.io.script|
    && st.io.drained <= st2.io.drained
    && Extends(st.io.sessions, st2.io.sessions)
    && (st.channel.None? && st2.channel.Some? ==> |st.io.sessions| < |st2.io.sessions|)
    && (st.cache.Disabled? ==> st2.cache.Disabled?)
    && (st.cache.Captured? ==>
          && st2.cache.Captured? && st2.cache.buf.data == st.cache.buf.data
          && st2.cache.buf.cur.limit == st.cache.buf.cur.limit
          && (st.cache.buf.cur.mark >= 0 ==> st2.cache.buf.cur.mark >= 0))
  }

  /** The buffer a write with target `t` works on. */
  function Active(st: State, t: Target, u: Buf): Buf
    requires t == Cached ==> st.cache.Captured?
  {
    if t == User then u else st.cache.buf
  }

  /** Give the buffer a write works on the cursor `c`. */
  function SetCursor(st: State, t: Target, u: Buf, c: Cursor): (r: (State, Buf))
    requires t == Cached ==> st.cache.Captured?
    ensures t == User ==> r == (st, u.(cur := c))
    ensures t == Cached ==> r == (st.(cache := Captured(st.cache.buf.(cur := c))), u)
  {
    if t == User then (st, u.(cur := c)) else (st.(cache := Captured(st.cache.buf.(cur := c))), u)
  }

  /** The last connection ends with the bytes between the buffer's mark and its limit, the buffer
      has nothing left, and a channel is present: what a write that returns normally leaves behind. */
  ghost predicate Delivered(st: State, t: Target, u: Buf)
    requires t == Cached ==> st.cache.Captured?
  {
    var a := Active(st, t, u);
    && st.channel.Some? && |st.io.sessions| > 0 && a.Valid()
    && a.cur.position == a.cur.limit && 0 <= a.cur.mark
    && EndsWith(st.io.sessions[|st.io.sessions| - 1], FromMark(a))
  }

  /** The bytes of `b` from its mark to its limit: what `reset()` followed by `writeFully` sends. */
  function FromMark(b: Buf): seq<byte>
    requires b.Valid() && 0 <= b.cur.mark
  {
    b.data[b.cur.mark..b.cur.limit]
  }

  /** The cached first write still has bytes to replay. */
  predicate ToReplay(c: Cache)
  {
    c.Captured? && c.buf.cur.position < c.buf.cur.limit
  }

  /** `s` ends with `tail`. */
  predicate EndsWith<T(==)>(s: seq<T>, tail: seq<T>)
  {
    |tail| <= |s| && s[|s| - |tail|..] == tail
  }

  lemma EvolvesTrans(a: State, b: State, c: State)
    requires Evolves(a, b) && Evolves(b, c)
    ensures Evolves(a, c)
  {
    GrowsTrans(a, b, c);
  }

  lemma GrowsTrans(a: State, b: State, c: State)
    requires Grows(a, b) && Grows(b, c)
    ensures Grows(a, c)
  {
    ExtendsTrans(a.io.sessions, b.io.sessions, c.io.sessions);
  }

  /** The constructor, on a network whose earlier connections carried `sessions`: a try count
      below one is refused; replay disabled puts the empty sentinel in the cache; then the stream
      connects, and a failure to connect fails the constructor. */
  function Init(script: seq<Reply>, sessions: seq<seq<byte>>, tryCount: int, replayFirstWrite: bool): (r: Result<State>)
    ensures tryCount < 1 ==> r == Err(IllegalArgumentException)
    ensures r.Ok? ==> r.value.Valid() && r.value.channel == Some(Channel(true)) && r.value.io.sessions == sessions + [[]]
    ensures r.Ok? ==> r.value.tryCount == tryCount && r.value.io.drained == 0
    ensures r.Ok? ==> (r.value.cache.Disabled? <==> !replayFirstWrite) && (r.value.cache.Unset? <==> replayFirstWrite)
    ensures tryCount >= 1 ==> (r.Ok? <==> script != [] && script[0] == Done)
    ensures r.Err? && tryCount >= 1 ==> (r.error == ConnectException || r.error == IOFailure)
    ensures tryCount >= 1 && (script == [] || script[0] == Refused) ==> r == Err(ConnectException)
  {
    if tryCount < 1 then Err(IllegalArgumentException)
    else
      var st := State(Io(script, sessions, KeyReady(false, false), 0), None, if replayFirstWrite then Unset else Disabled, tryCount);
      var c := Connect(st);
      if c.0.Threw? then Err(c.0.error) else Ok(c.1)
  }

  /** `connect()`: refused with `IllegalStateException` while a channel is present; otherwise a new
      connection, which starts an empty transcript and is open. */
  function Connect(st: State): (r: (Status, State))
    requires st.Valid()
    ensures r.1.Valid() && r.1.cache == st.cache && r.1.tryCount == st.tryCount
    ensures |r.1.io.script| <= |st.io.script| && r.1.io.drained == st.io.drained
    ensures st.channel.Some? ==> r == (Threw(IllegalStateException), st)
    ensures st.channel.None? ==> (r.0.Normal? <==> st.io.script != [] && st.io.script[0] == Done)
    ensures r.0.Normal? ==> r.1.channel == Some(Channel(true)) && r.1.io.sessions == st.io.sessions + [[]]
    ensures r.0.Normal? ==> |r.1.io.script| < |st.io.script|
    ensures r.0.Threw? ==> r.1.channel == st.channel && r.1.io.sessions == st.io.sessions
    ensures st.channel.None? && r.0.Threw? ==> (r.0.error == ConnectException || r.0.error == IOFailure)
  {
    if st.channel.Some? then (Threw(IllegalStateException), st)
    else
      var step := ConnectStep(st.io.script);
      if step.result.Normal? then
        (Normal, st.(io := st.io.(script := step.rest, sessions := st.io.sessions + [[]], ready := KeyReady(false, false)),
                     channel := Some(Channel(true))))
      else (step.result, st.(io := st.io.(script := step.rest)))
  }

  /** `close()`: nothing to do without a channel; otherwise the channel is closed and, because of
      the `finally`, forgotten even when closing it fails. */
  function Close(st: State): (r: (Status, State))
    requires st.Valid()
    ensures r.1.Valid() && r.1.channel.None?
    ensures r.1 == st.(io := st.io.(script := r.1.io.script), channel := None)
    ensures IsSuffix(r.1.io.script, st.io.script)
    ensures st.channel.None? ==> r == (Normal, st)
    ensures r.0.Threw? ==> r.0.error == IOFailure
  {
    if st.channel.None? then (Normal, st)
    else
      var step := CloseStep(st.io.script);
      (step.result, st.(io := st.io.(script := step.rest), channel := None))
  }

  /** `closeQuietly()`: `close()` with its failure swallowed. */
  function CloseQuietly(st: State): (r: State)
    requires st.Valid()
    ensures r.Valid() && r.channel.None? && Evolves(st, r)
    ensures r == st.(io := st.io.(script := r.io.script), channel := None)
    ensures st.channel.None? ==> r == st
  {
    Close(st).1
  }

  /** `closeQuietly()` twice is `closeQuietly()` once; on a stream without a channel it does nothing. */
  lemma CloseQuietlyIdempotent(st: State)
    requires st.Valid()
    ensures CloseQuietly(CloseQuietly(st)) == CloseQuietly(st)
  {
  }

  /** `recordFirstWrite(buffer)`: only a cache that is not captured yet takes a copy. */
  function RecordFirstWrite(st: State, b: Buf): (r: State)
    requires b.Valid()
    ensures st.cache.Unset? ==> r == st.(cache := Captured(CopyOf(b)))
    ensures !st.cache.Unset? ==> r == st
  {
    if st.cache.Unset? then st.(cache := Captured(CopyOf(b))) else st
  }

  /** `write(buffer)`: mark the buffer, record the first write, then try up to `tryCount` times.
      A normal return leaves the buffer empty, a channel present, and the bytes from the mark to
      the limit at the end of the current connection; a failure carries one exception per
      attempt and leaves no channel. For the caller's buffer the mark is its initial position. */
  function Write(st: State, t: Target, u: Buf): (r: (Status, State, Buf))
    requires st.Valid() && u.Valid()
    requires t == Cached ==> st.cache.Captured? && !Spent(st.cache)
    decreases |st.io.script|, 5, 0
    ensures Evolves(st, r.1)
    ensures t == Cached ==> r.2 == u && r.1.cache.Captured? && r.1.cache.buf.cur.mark >= 0
    ensures t == Cached ==> (st.cache.Unset? ==> r.1.cache.Unset?)
    ensures t == User ==> r.2.data == u.data && r.2.cur.limit == u.cur.limit && r.2.cur.mark == u.cur.position && r.2.Valid()
    ensures t == User && st.cache.Unset? ==> r.1.cache.Captured? && r.1.cache.buf.data == u.Pending()
    ensures r.0.Normal? ==> (t == Cached ==> r.1.cache.Captured?) && Delivered(r.1, t, r.2)
    ensures r.0.Threw? ==> r.0.error.WriteFailed? && |r.0.error.causes| == st.tryCount && r.1.channel.None?
    ensures r.0.Threw? && t == Cached ==> !Spent(r.1.cache)
  {
    var m := SetCursor(st, t, u, Active(st, t, u).cur.Marked());
    var st1 := RecordFirstWrite(m.0, Active(m.0, t, m.1));
    Loop(st1, t, m.1, 0, [])
  }

  /** `write(int)` as the call it makes: `write(byte[])` of the single byte, wrapped. */
  function WriteOne(st: State, x: byte): (r: (Status, State, Buf))
    requires st.Valid()
  {
    Write(st, User, Buf([x], Cursor(0, 1, -1)))
  }

  /** The `for` loop of `write`: attempt `tryCount - i` more times, collecting one exception per
      failed attempt and closing the channel after each. */
  function Loop(st: State, t: Target, u: Buf, i: int, exceptions: seq<Exception>): (r: (Status, State, Buf))
    requires st.Valid() && u.Valid() && 0 <= i <= st.tryCount && |exceptions| == i
    requires t == Cached ==> st.cache.Captured? && !Spent(st.cache)
    requires Active(st, t, u).cur.mark >= 0
    requires i > 0 ==> st.channel.None?
    decreases |st.io.script|, 4, st.tryCount - i
    ensures Evolves(st, r.1) && (st.cache.Unset? ==> r.1.cache.Unset?)
    ensures t == Cached ==> r.2 == u && r.1.cache.buf.cur.mark >= 0
    ensures t == User ==> r.2.data == u.data && r.2.cur.limit == u.cur.limit && r.2.cur.mark == u.cur.mark && r.2.Valid()
    ensures r.0.Normal? ==> Delivered(r.1, t, r.2)
    ensures r.0.Threw? ==> r.0.error.WriteFailed? && |r.0.error.causes| == st.tryCount && r.1.channel.None?
    ensures r.0.Threw? && t == Cached ==> !Spent(r.1.cache)
  {
    if i == st.tryCount then (Threw(WriteFailed(exceptions)), st, u)
    else
      var a := Attempt(st, t, u);
      if a.0.Normal? then a
      else if IsIOException(a.0.error) then
        var closed := CloseQuietly(a.1);
        EvolvesTrans(st, a.1, closed);
        var rest := Loop(closed, t, a.2, i + 1, exceptions + [a.0.error]);
        EvolvesTrans(st, closed, rest.1);
        rest
      else
        // `catch (IOException e)` sees every failure: an attempt raises nothing else
        assert false; a
  }

  /** Once every turn has failed, the loop ends in the aggregate failure of the exceptions collected. */
  lemma LoopEnds(st: State, t: Target, u: Buf, exceptions: seq<Exception>)
    requires st.Valid() && u.Valid() && |exceptions| == st.tryCount >= 0
    requires t == Cached ==> st.cache.Captured? && !Spent(st.cache)
    requires Active(st, t, u).cur.mark >= 0
    requires st.tryCount > 0 ==> st.channel.None?
    ensures Loop(st, t, u, st.tryCount, exceptions) == (Threw(WriteFailed(exceptions)), st, u)
  {
  }

  /** A turn of the loop of `write` whose attempt succeeds returns that attempt's outcome. */
  lemma LoopReturns(st: State, t: Target, u: Buf, i: int, exceptions: seq<Exception>, done: State, u2: Buf)
    requires st.Valid() && u.Valid() && 0 <= i < st.tryCount && |exceptions| == i
    requires t == Cached ==> st.cache.Captured? && !Spent(st.cache)
    requires Active(st, t, u).cur.mark >= 0
    requires i > 0 ==> st.channel.None?
    requires Attempt(st, t, u) == (Normal, done, u2)
    ensures Loop(st, t, u, i, exceptions) == (Normal, done, u2)
  {
  }

  /** A turn of the loop of `write` whose attempt fails records the exception, closes quietly and
      goes on to the next turn. */
  lemma LoopRetries(st: State, t: Target, u: Buf, i: int, exceptions: seq<Exception>, e: Exception, failed: State, u2: Buf)
    requires st.Valid() && u.Valid() && 0 <= i < st.tryCount && |exceptions| == i
    requires t == Cached ==> st.cache.Captured? && !Spent(st.cache)
    requires Active(st, t, u).cur.mark >= 0
    requires i > 0 ==> st.channel.None?
    requires Attempt(st, t, u) == (Threw(e), failed, u2)
    ensures failed.Valid() && u2.Valid() && |failed.io.script| <= |st.io.script|
    ensures var closed := CloseQuietly(failed);
            && closed.Valid() && closed.channel.None? && closed.cache == failed.cache && closed.tryCount == st.tryCount
            && (t == Cached ==> closed.cache.Captured? && !Spent(closed.cache))
            && Active(closed, t, u2) == Active(failed, t, u2) && Active(closed, t, u2).cur.mark >= 0
            && Loop(st, t, u, i, exceptions) == Loop(closed, t, u2, i + 1, exceptions + [e])
  {
    ClosedAfterFailure(st, t, u, e, failed, u2);
    var closed := CloseQuietly(failed);
    assert Loop(st, t, u, i, exceptions) == Loop(closed, t, u2, i + 1, exceptions + [e]);
  }

  /** The loop keeps the failures of the earlier turns: when it fails, the exceptions it was given
      are the first causes of the aggregate, in order. */
  lemma {:induction false} LoopKeepsEarlierFailures(st: State, t: Target, u: Buf, i: int, exceptions: seq<Exception>)
    requires st.Valid() && u.Valid() && 0 <= i <= st.tryCount && |exceptions| == i
    requires t == Cached ==> st.cache.Captured? && !Spent(st.cache)
    requires Active(st, t, u).cur.mark >= 0
    requires i > 0 ==> st.channel.None?
    decreases st.tryCount - i
    ensures var r := Loop(st, t, u, i, exceptions);
            r.0.Threw? ==> exceptions <= r.0.error.causes
  {
    if i < st.tryCount {
      var a := Attempt(st, t, u);
      if a.0.Threw? {
        LoopRetries(st, t, u, i, exceptions, a.0.error, a.1, a.2);
        var closed := CloseQuietly(a.1);
        LoopKeepsEarlierFailures(closed, t, a.2, i + 1, exceptions + [a.0.error]);
      }
    }
  }

  /** A write that fails reports as its cause the failure of its first attempt (`exceptions.get(0)`). */
  lemma FirstFailureIsTheCause(st: State, u: Buf)
    requires st.Valid() && u.Valid()
    ensures var w := Write(st, User, u);
            var a := Attempt(RecordFirstWrite(st, u), User, u.(cur := u.cur.Marked()));
            w.0.Threw? ==> a.0.Threw? && Cause(w.0.error) == Some(a.0.error)
  {
    var st1 := RecordFirstWrite(st, u);
    var m := u.(cur := u.cur.Marked());
    assert RecordFirstWrite(st, m) == st1;
    assert Write(st, User, u) == Loop(st1, User, m, 0, []);
    var a := Attempt(st1, User, m);
    if a.0.Normal? {
      LoopReturns(st1, User, m, 0, [], a.1, a.2);
    } else {
      LoopRetries(st1, User, m, 0, [], a.0.error, a.1, a.2);
      assert [] + [a.0.error] == [a.0.error];
      LoopKeepsEarlierFailures(CloseQuietly(a.1), User, a.2, 1, [a.0.error]);
    }
  }

  /** After a failed attempt the channel is closed quietly; the loop can go on from there. */
  lemma ClosedAfterFailure(st: State, t: Target, u: Buf, e: Exception, failed: State, u2: Buf)
    requires st.Valid() && u.Valid()
    requires t == Cached ==> st.cache.Captured? && !Spent(st.cache)
    requires Active(st, t, u).cur.mark >= 0
    requires Attempt(st, t, u) == (Threw(e), failed, u2)
    ensures IsIOException(e) && failed.Valid() && u2.Valid() && |failed.io.script| <= |st.io.script|
    ensures var closed := CloseQuietly(failed);
            && closed.Valid() && closed.channel.None? && closed.cache == failed.cache && closed.tryCount == st.tryCount
            && (t == Cached ==> closed.cache.Captured? && !Spent(closed.cache))
            && Active(closed, t, u2) == Active(failed, t, u2) && Active(closed, t, u2).cur.mark >= 0
  {
    var closed := CloseQuietly(failed);
    assert Evolves(st, failed);
    if t == User {
      assert u2.Valid() && u2.cur.mark == u.cur.mark;
    } else {
      assert u2 == u && failed.cache.buf.cur.mark >= 0 && !Spent(failed.cache);
    }
  }

  /** The body of the `try` block: `ensureOpen()`, `buffer.reset()`, `writeFully(buffer)`. */
  function Attempt(st: State, t: Target, u: Buf): (r: (Status, State, Buf))
    requires st.Valid() && u.Valid()
    requires t == Cached ==> st.cache.Captured? && !Spent(st.cache)
    requires Active(st, t, u).cur.mark >= 0
    decreases |st.io.script|, 3, 0
    ensures Evolves(st, r.1) && (st.cache.Unset? ==> r.1.cache.Unset?)
    ensures t == Cached ==> r.2 == u && r.1.cache.buf.cur.mark >= 0
    ensures t == User ==> r.2.data == u.data && r.2.cur.limit == u.cur.limit && r.2.cur.mark == u.cur.mark && r.2.Valid()
    ensures r.0.Normal? ==> Delivered(r.1, t, r.2)
    ensures r.0.Normal? && st.channel.Some? ==> r.1.io.sessions == Deliver(st.io.sessions, FromMark(Active(st, t, u)))
    ensures r.0.Threw? ==> IsIOException(r.0.error)
    ensures r.0.Threw? && t == Cached ==> !Spent(r.1.cache)
  {
    var e := EnsureOpen(st);
    if e.0.Threw? then (e.0, e.1, u)
    else
      var w := WriteFromMark(e.1, t, u);
      GrowsTrans(st, e.1, w.1);
      w
  }

  /** `buffer.reset(); writeFully(buffer)` on the open channel of `st`: a normal return has sent
      exactly the bytes from the mark to the limit on the current connection; the mark stays. */
  function WriteFromMark(st: State, t: Target, u: Buf): (r: (Status, State, Buf))
    requires st.Valid() && u.Valid() && st.channel.Some?
    requires t == Cached ==> st.cache.Captured?
    requires Active(st, t, u).cur.mark >= 0
    ensures Grows(st, r.1) && r.1.cache.Unset? == st.cache.Unset?
    ensures t == User ==> r.1.cache == st.cache
    ensures t == Cached ==> r.2 == u && r.1.cache.Captured? && r.1.cache.buf.cur.mark == st.cache.buf.cur.mark
    ensures t == User ==> r.2.data == u.data && r.2.cur.limit == u.cur.limit && r.2.cur.mark == u.cur.mark && r.2.Valid()
    ensures r.0.Normal? ==> Delivered(r.1, t, r.2) && r.1.io.sessions == Deliver(st.io.sessions, FromMark(Active(st, t, u)))
    ensures r.0.Threw? ==> IsIOException(r.0.error)
    ensures r.0.Threw? && t == Cached ==> !Spent(r.1.cache)
  {
    var b := Active(st, t, u);
    var a := b.(cur := b.cur.Rewound());
    WriteFullyDeliversInOrder(st.io, a);
    var w := WriteFully(st.io, a);
    DeliverExtends(st.io.sessions, a.data[a.cur.position..w.2.cur.position]);
    DeliverEndsWith(st.io.sessions, a.data[a.cur.position..w.2.cur.position]);
    if t == User then
      var r := (w.0, st.(io := w.1), u.(cur := w.2.cur));
      assert r.2 == w.2;
      r
    else
      var r := (w.0, st.(io := w.1, cache := Captured(w.2)), u);
      assert r.1.cache.buf == w.2;
      r
  }

  /** The last connection ends with what `Deliver` appended to it. */
  lemma DeliverEndsWith(sessions: seq<seq<byte>>, bytes: seq<byte>)
    requires |sessions| > 0
    ensures EndsWith(Deliver(sessions, bytes)[|sessions| - 1], bytes)
  {
  }


  /** `ensureOpen()`: reconnect when there is no open channel; a `ConnectException` from the
      reconnect is rethrown after the one-second back-off (unless the back-off is interrupted). */
  function EnsureOpen(st: State): (r: (Status, State))
    requires st.Valid()
    decreases |st.io.script|, 2, 0
    ensures Evolves(st, r.1) && (st.cache.Unset? ==> r.1.cache.Unset?)
    ensures st.channel.Some? && st.channel.value.open ==> r == (Normal, st)
    ensures r.0.Normal? ==> r.1.channel.Some?
    ensures r.0.Threw? ==> IsIOException(r.0.error) && r.1.channel.None? && (!Spent(st.cache) ==> !Spent(r.1.cache))
  {
    if st.channel.None? || !st.channel.value.open then
      var c := Reconnect(st);
      if c.0 == Threw(ConnectException) then
        var sleep := SleepStep(c.1.io.script);
        var st1 := c.1.(io := c.1.io.(script := sleep.rest));
        if sleep.result.Threw? then (sleep.result, st1) else (c.0, st1)
      else c
    else (Normal, st)
  }

  /** `reconnect()`: close quietly, connect, replay the first write. */
  function Reconnect(st: State): (r: (Status, State))
    requires st.Valid()
    decreases |st.io.script|, 1, 0
    ensures Evolves(st, r.1) && (st.cache.Unset? ==> r.1.cache.Unset?)
    ensures r.0.Normal? ==> r.1.channel.Some? && |st.io.sessions| < |r.1.io.sessions|
    ensures r.0.Normal? && !ToReplay(st.cache) ==> r.1.io.sessions == st.io.sessions + [[]] && r.1.cache == st.cache
    ensures r.0 == Threw(ConnectException) ==> r.1.io.sessions == st.io.sessions && r.1.cache == st.cache
    ensures r.0.Threw? ==> IsIOException(r.0.error) && r.1.channel.None? && (!Spent(st.cache) ==> !Spent(r.1.cache))
  {
    var st1 := CloseQuietly(st);
    var c := Connect(st1);
    if c.0.Threw? then c
    else
      OpenExtends(st.io.sessions);
      var w := ReplayFirstWrite(c.1);
      EvolvesTrans(st, c.1, w.1);
      w
  }


  /** `replayFirstWrite()`: write the cached first write through `write` when it has bytes
      remaining. A replay that succeeds leaves it spent, so it is replayed at most once. */
  function ReplayFirstWrite(st: State): (r: (Status, State))
    requires st.Valid()
    decreases |st.io.script|, 6, 0
    ensures Evolves(st, r.1) && (st.cache.Unset? ==> r.1.cache.Unset?)
    ensures !ToReplay(st.cache) ==> r == (Normal, st)
    ensures ToReplay(st.cache) && r.0.Normal? ==>
              Spent(r.1.cache) && r.1.channel.Some? && Delivered(r.1, Cached, r.1.cache.buf)
    ensures r.0.Threw? ==> r.0.error.WriteFailed? && r.1.channel.None? && (!Spent(st.cache) ==> !Spent(r.1.cache))
  {
    if ToReplay(st.cache) then
      var w := Write(st, Cached, st.cache.buf);
      (w.0, w.1)
    else (Normal, st)
  }

  /** An attempt that returns normally sent exactly the bytes from the mark to the limit, after
      whatever `ensureOpen` left on the connection. */
  lemma AttemptAfterEnsureOpen(st: State, t: Target, u: Buf)
    requires st.Valid() && u.Valid()
    requires t == Cached ==> st.cache.Captured? && !Spent(st.cache)
    requires Active(st, t, u).cur.mark >= 0
    ensures var r := Attempt(st, t, u);
            var e := EnsureOpen(st);
            r.0.Normal? ==>
              && e.0.Normal? && (t == Cached ==> e.1.cache.Captured?)
              && r.1.io.sessions == Deliver(e.1.io.sessions, FromMark(Active(e.1, t, u)))
  {
    var e := EnsureOpen(st);
    if e.0.Normal? {
      assert Attempt(st, t, u) == WriteFromMark(e.1, t, u);
    }
  }

  /** A loop that returns normally without having opened a connection sent exactly the bytes
      from the mark to the limit on the connection it started with: it returned in its first
      turn, on the channel that was already open, because every later turn reconnects. */
  lemma LoopWithoutReconnect(st: State, t: Target, u: Buf, i: int, exceptions: seq<Exception>)
    requires st.Valid() && u.Valid() && 0 <= i <= st.tryCount && |exceptions| == i
    requires t == Cached ==> st.cache.Captured? && !Spent(st.cache)
    requires Active(st, t, u).cur.mark >= 0
    requires i > 0 ==> st.channel.None?
    ensures var r := Loop(st, t, u, i, exceptions);
            r.0.Normal? && |r.1.io.sessions| == |st.io.sessions| ==>
              r.1.io.sessions == Deliver(st.io.sessions, FromMark(Active(st, t, u)))
  {
    if i < st.tryCount {
      var a := Attempt(st, t, u);
      if a.0.Normal? {
        LoopReturns(st, t, u, i, exceptions, a.1, a.2);
        assert st.channel.None? ==> |st.io.sessions| < |a.1.io.sessions|;
      } else {
        LoopRetries(st, t, u, i, exceptions, a.0.error, a.1, a.2);
        var closed := CloseQuietly(a.1);
        var rest := Loop(closed, t, a.2, i + 1, exceptions + [a.0.error]);
        assert rest.0.Normal? ==> |st.io.sessions| <= |closed.io.sessions| < |rest.1.io.sessions|;
      }
    }
  }

  /** A write that returns normally without having opened a connection sent exactly its
      pending bytes on the connection that was open. */
  lemma WriteWithoutReconnect(st: State, t: Target, u: Buf)
    requires st.Valid() && u.Valid()
    requires t == Cached ==> st.cache.Captured? && !Spent(st.cache)
    ensures var r := Write(st, t, u);
            r.0.Normal? && |r.1.io.sessions| == |st.io.sessions| ==>
              r.1.io.sessions == Deliver(st.io.sessions, Active(st, t, u).Pending())
  {
    var m := SetCursor(st, t, u, Active(st, t, u).cur.Marked());
    var st1 := RecordFirstWrite(m.0, Active(m.0, t, m.1));
    assert Write(st, t, u) == Loop(st1, t, m.1, 0, []);
    assert st1.io == st.io && FromMark(Active(st1, t, m.1)) == Active(st, t, u).Pending();
    LoopWithoutReconnect(st1, t, m.1, 0, []);
  }

  /** A normal outcome `r` that opened a connection beyond those of `st` left exactly the bytes
      of `u` from its mark to its limit on it. */
  ghost predicate NewConnectionHolds(st: State, r: (Status, State, Buf), u: Buf)
    requires u.Valid() && u.cur.mark >= 0
  {
    r.0.Normal? && |st.io.sessions| < |r.1.io.sessions| ==> r.1.io.sessions[|r.1.io.sessions| - 1] == FromMark(u)
  }

  /** With nothing left to replay (replay disabled, or the first write already replayed), a loop
      that returns normally on a connection it opened left exactly the bytes from the mark to the
      limit on that connection. */
  lemma {:induction false} LoopWithoutReplay(st: State, u: Buf, i: int, exceptions: seq<Exception>)
    requires st.Valid() && u.Valid() && 0 <= i <= st.tryCount && |exceptions| == i
    requires u.cur.mark >= 0 && (i > 0 ==> st.channel.None?)
    requires st.cache.Disabled? || Spent(st.cache)
    decreases st.tryCount - i, 1
    ensures NewConnectionHolds(st, Loop(st, User, u, i, exceptions), u)
  {
    if i < st.tryCount {
      var a := Attempt(st, User, u);
      if a.0.Normal? {
        LoopReturns(st, User, u, i, exceptions, a.1, a.2);
        AttemptWithoutReplay(st, u);
      } else {
        RetryWithoutReplay(st, u, i, exceptions, a.0.error, a.1, a.2);
      }
    } else {
      assert Loop(st, User, u, i, exceptions).0.Threw?;
    }
  }

  /** The turn of `LoopWithoutReplay` whose attempt fails: the next turns reconnect. */
  lemma {:induction false} RetryWithoutReplay(st: State, u: Buf, i: int, exceptions: seq<Exception>, e: Exception, failed: State, u2: Buf)
    requires st.Valid() && u.Valid() && 0 <= i < st.tryCount && |exceptions| == i
    requires u.cur.mark >= 0 && (i > 0 ==> st.channel.None?)
    requires st.cache.Disabled? || Spent(st.cache)
    requires Attempt(st, User, u) == (Threw(e), failed, u2)
    decreases st.tryCount - i, 0
    ensures NewConnectionHolds(st, Loop(st, User, u, i, exceptions), u)
  {
    LoopRetries(st, User, u, i, exceptions, e, failed, u2);
    var closed := CloseQuietly(failed);
    assert closed.cache.Disabled? || Spent(closed.cache);
    LoopWithoutReplay(closed, u2, i + 1, exceptions + [e]);
    var rest := Loop(closed, User, u2, i + 1, exceptions + [e]);
    HoldsAfterReconnect(st, closed, rest, u, u2);
  }

  /** What a later turn of the loop left on a new connection holds for the whole loop. */
  lemma HoldsAfterReconnect(st: State, closed: State, rest: (Status, State, Buf), u: Buf, u2: Buf)
    requires u.Valid() && u.cur.mark >= 0 && u2.Valid() && u2.cur.mark >= 0 && FromMark(u2) == FromMark(u)
    requires |st.io.sessions| <= |closed.io.sessions|
    requires rest.0.Normal? ==> |closed.io.sessions| < |rest.1.io.sessions|
    requires NewConnectionHolds(closed, rest, u2)
    ensures NewConnectionHolds(st, rest, u)
  {
  }

  /** The turn of `LoopWithoutReplay` whose attempt returns normally. */
  lemma AttemptWithoutReplay(st: State, u: Buf)
    requires st.Valid() && u.Valid() && u.cur.mark >= 0
    requires st.cache.Disabled? || Spent(st.cache)
    ensures NewConnectionHolds(st, Attempt(st, User, u), u)
  {
    AttemptAfterEnsureOpen(st, User, u);
    if st.channel.None? {
      EnsureOpenReconnects(st);
      var c := Reconnect(st);
      if c.0.Normal? {
        assert EnsureOpen(st) == c && c.1.io.sessions == st.io.sessions + [[]];
      }
    }
  }

  /** With nothing left to replay, a write that returns normally sent exactly the caller's pending
      bytes: appended to the connection that was open, or as the whole of a connection it opened. */
  lemma WriteWithoutReplay(st: State, u: Buf)
    requires st.Valid() && u.Valid()
    requires st.cache.Disabled? || Spent(st.cache)
    ensures var r := Write(st, User, u);
            r.0.Normal? ==>
              if |r.1.io.sessions| == |st.io.sessions| then r.1.io.sessions == Deliver(st.io.sessions, u.Pending())
              else r.1.io.sessions[|r.1.io.sessions| - 1] == u.Pending()
  {
    var m := u.(cur := u.cur.Marked());
    assert Write(st, User, u) == Loop(st, User, m, 0, []);
    assert FromMark(m) == u.Pending();
    WriteWithoutReconnect(st, User, u);
    LoopWithoutReplay(st, m, 0, []);
  }

  /** A replay that did not need another connection sent exactly the remaining cached bytes. */
  lemma ReplayWithoutReconnect(st: State)
    requires st.Valid()
    ensures var r := ReplayFirstWrite(st);
            ToReplay(st.cache) && r.0.Normal? && |r.1.io.sessions| == |st.io.sessions| ==>
              r.1.io.sessions == Deliver(st.io.sessions, st.cache.buf.Pending())
  {
    if ToReplay(st.cache) {
      WriteWithoutReconnect(st, Cached, st.cache.buf);
    }
  }

  /** A reconnect whose replay needed no further connection leaves the new connection holding
      exactly the cached bytes that were still to be sent. */
  lemma ReconnectReplaysOnce(st: State)
    requires st.Valid()
    ensures var r := Reconnect(st);
            r.0.Normal? && ToReplay(st.cache) && |r.1.io.sessions| == |st.io.sessions| + 1 ==>
              r.1.io.sessions == st.io.sessions + [st.cache.buf.Pending()]
  {
    var c := Connect(CloseQuietly(st));
    if c.0.Normal? {
      var r := ReplayFirstWrite(c.1);
      assert Reconnect(st) == r;
      ReplayWithoutReconnect(c.1);
      if r.0.Normal? && ToReplay(st.cache) && |r.1.io.sessions| == |st.io.sessions| + 1 {
        var after := r.1.io.sessions;
        assert after == Deliver(st.io.sessions + [[]], st.cache.buf.Pending());
        assert after[..|after| - 1] == st.io.sessions && after[|after| - 1] == st.cache.buf.Pending();
        assert after == after[..|after| - 1] + [after[|after| - 1]];
      }
    }
  }

  /** `ensureOpen()` without a channel is `reconnect()`, except that a `ConnectException` is
      rethrown after the back-off, and an interrupted back-off raises `InterruptedIOException`
      instead. */
  lemma EnsureOpenReconnects(st: State)
    requires st.Valid()
    ensures var c := Reconnect(st);
            var r := EnsureOpen(st);
            && (st.channel.None? && c.0 != Threw(ConnectException) ==> r == c)
            && (st.channel.None? && c.0 == Threw(ConnectException) ==>
                  && (r.0 == Threw(InterruptedIOException) <==> c.1.io.script != [] && c.1.io.script[0] == Interrupt)
                  && (r.0 == Threw(InterruptedIOException) ==> r.1 == c.1.(io := c.1.io.(script := c.1.io.script[1..])))
                  && (r.0 != Threw(InterruptedIOException) ==> r == (Threw(ConnectException), c.1)))
  {
  }

  /** `reconnect()` throws `ConnectException` exactly when the connect after the quiet close is
      refused (or nothing answers); it then uses one reply and opens no connection. */
  lemma ReconnectRefused(st: State)
    requires st.Valid()
    ensures var closed := CloseQuietly(st);
            var r := Reconnect(st);
            && (r.0 == Threw(ConnectException) <==> closed.io.script == [] || closed.io.script[0] == Refused)
            && (r.0 == Threw(ConnectException) ==>
                  r.1 == closed.(io := closed.io.(script := Rest(closed.io.script))))
  {
    var closed := CloseQuietly(st);
    var c := Connect(closed);
    if c.0.Normal? {
      assert Reconnect(st) == ReplayFirstWrite(c.1);
    }
  }
}
