/** Whole runs of the stream against a scripted network, replaying the repository's own test of
    first-write replay and the corner cases of `replayFirstWrite`. */
module Scenarios {
  import opened Bytes
  import opened Failures
  import opened Buffers
  import opened Oracle
  import opened Engine
  import opened Retry

  /** The replies of a write that does not have to wait: nothing to read, then all `n` bytes taken. */
  function Quick(n: int): seq<Reply>
  {
    [Polled(false, false), Count(n)]
  }

  /** `writeFully` on a quiet connection that takes the whole payload at once. */
  lemma QuickWriteFully(io: Io, b: Buf, rest: seq<Reply>)
    requires io.Valid() && |io.sessions| > 0 && b.Valid() && b.cur.position < b.cur.limit
    requires io.script == Quick(b.cur.limit - b.cur.position) + rest
    ensures WriteFully(io, b) ==
              (Normal,
               io.(script := rest, ready := KeyReady(false, false), sessions := Deliver(io.sessions, b.Pending())),
               b.(cur := b.cur.(position := b.cur.limit)))
  {
    QuickPass(io, b, rest);
    var io1 := io.(script := io.script[1..], ready := KeyReady(false, false));
    var w := WritePass(io1, b);
    assert WriteFully(io, b) == WriteFully(w.1, w.2);
  }

  /** The one pass of `QuickWriteFully`: nothing to read, then every pending byte accepted. */
  lemma QuickPass(io: Io, b: Buf, rest: seq<Reply>)
    requires io.Valid() && |io.sessions| > 0 && b.Valid() && b.cur.position < b.cur.limit
    requires io.script == Quick(b.cur.limit - b.cur.position) + rest
    ensures var io1 := io.(script := io.script[1..], ready := KeyReady(false, false));
            && CheckForRead(io) == (Normal, io1)
            && WritePass(io1, b) ==
                 (Normal, io1.(script := rest, sessions := Deliver(io.sessions, b.Pending())),
                  b.(cur := b.cur.(position := b.cur.limit)))
  {
    var n := b.cur.limit - b.cur.position;
    var io1 := io.(script := io.script[1..], ready := KeyReady(false, false));
    assert io1.script == [Count(n)] + rest;
    assert WriteStep(io1.script, b.cur.Remaining()) == Step(Ok(n), rest);
  }

  /** `write(buffer)` of the caller's buffer on an open, quiet connection. */
  lemma QuickUserWrite(st: State, u: Buf, rest: seq<Reply>)
    requires st.Valid() && u.Valid() && st.channel == Some(Channel(true))
    requires u.cur.position < u.cur.limit
    requires st.io.script == Quick(u.cur.limit - u.cur.position) + rest
    ensures Write(st, User, u) ==
              (Normal,
               RecordFirstWrite(st, u).(io := st.io.(script := rest, ready := KeyReady(false, false),
                                                      sessions := Deliver(st.io.sessions, u.Pending()))),
               u.(cur := Cursor(u.cur.limit, u.cur.limit, u.cur.position)))
  {
    QuickUserAttempt(st, u, rest);
    UserWriteReturns(st, u, RecordFirstWrite(st, u).(io := st.io.(script := rest, ready := KeyReady(false, false),
                                                                 sessions := Deliver(st.io.sessions, u.Pending()))),
                     u.(cur := Cursor(u.cur.limit, u.cur.limit, u.cur.position)));
  }

  /** The first attempt of `QuickUserWrite`. */
  lemma QuickUserAttempt(st: State, u: Buf, rest: seq<Reply>)
    requires st.Valid() && u.Valid() && st.channel == Some(Channel(true))
    requires u.cur.position < u.cur.limit
    requires st.io.script == Quick(u.cur.limit - u.cur.position) + rest
    ensures Attempt(RecordFirstWrite(st, u), User, u.(cur := u.cur.Marked())) ==
              (Normal,
               RecordFirstWrite(st, u).(io := st.io.(script := rest, ready := KeyReady(false, false),
                                                      sessions := Deliver(st.io.sessions, u.Pending()))),
               u.(cur := Cursor(u.cur.limit, u.cur.limit, u.cur.position)))
  {
    var m := u.(cur := u.cur.Marked());
    var st1 := RecordFirstWrite(st, u);
    assert EnsureOpen(st1) == (Normal, st1);
    assert st1.io == st.io;
    assert m.cur.limit - m.cur.position == u.cur.limit - u.cur.position;
    assert m.Pending() == u.Pending();
    QuickAttempt(st1, st1, m, rest);
  }

  /** A write on the caller's buffer whose first attempt goes through returns what that attempt returns. */
  lemma UserWriteReturns(st: State, u: Buf, done: State, u2: Buf)
    requires st.Valid() && u.Valid()
    requires Attempt(RecordFirstWrite(st, u), User, u.(cur := u.cur.Marked())) == (Normal, done, u2)
    ensures Write(st, User, u) == (Normal, done, u2)
  {
    WriteStartsLoop(st, u);
    LoopReturns(RecordFirstWrite(st, u), User, u.(cur := u.cur.Marked()), 0, [], done, u2);
  }

  /** `replayFirstWrite()` of a cached first write with bytes left, on an open, quiet connection. */
  lemma QuickReplay(st: State, rest: seq<Reply>)
    requires st.Valid() && st.channel == Some(Channel(true))
    requires st.cache.Captured? && st.cache.buf.cur.position < st.cache.buf.cur.limit
    requires st.io.script == Quick(st.cache.buf.cur.limit - st.cache.buf.cur.position) + rest
    ensures var c := st.cache.buf;
            ReplayFirstWrite(st) ==
              (Normal,
               st.(io := st.io.(script := rest, ready := KeyReady(false, false), sessions := Deliver(st.io.sessions, c.Pending())),
                   cache := Captured(c.(cur := Cursor(c.cur.limit, c.cur.limit, c.cur.position)))))
  {
    var c := st.cache.buf;
    CachedAttempt(st, rest);
    ReplayReturns(st, st.(io := st.io.(script := rest, ready := KeyReady(false, false), sessions := Deliver(st.io.sessions, c.Pending())),
                          cache := Captured(c.(cur := Cursor(c.cur.limit, c.cur.limit, c.cur.position)))));
  }

  /** The one attempt of `QuickReplay`, on the cached buffer with its mark set. */
  lemma CachedAttempt(st: State, rest: seq<Reply>)
    requires st.Valid() && st.channel == Some(Channel(true))
    requires st.cache.Captured? && st.cache.buf.cur.position < st.cache.buf.cur.limit
    requires st.io.script == Quick(st.cache.buf.cur.limit - st.cache.buf.cur.position) + rest
    ensures var c := st.cache.buf;
            Attempt(st.(cache := Captured(c.(cur := c.cur.Marked()))), Cached, c) ==
              (Normal,
               st.(io := st.io.(script := rest, ready := KeyReady(false, false), sessions := Deliver(st.io.sessions, c.Pending())),
                   cache := Captured(c.(cur := Cursor(c.cur.limit, c.cur.limit, c.cur.position)))),
               c)
  {
    var c := st.cache.buf;
    var m := c.(cur := c.cur.Marked());
    var st1 := st.(cache := Captured(m));
    assert EnsureOpen(st1) == (Normal, st1);
    assert m.cur.Rewound() == m.cur;
    assert m.Pending() == c.Pending();
    QuickWriteFully(st1.io, m, rest);
  }

  /** A replay whose first attempt goes through returns the state that attempt leaves. */
  lemma ReplayReturns(st: State, done: State)
    requires st.Valid() && st.cache.Captured? && st.cache.buf.cur.position < st.cache.buf.cur.limit
    requires var c := st.cache.buf;
             Attempt(st.(cache := Captured(c.(cur := c.cur.Marked()))), Cached, c) == (Normal, done, c)
    ensures ReplayFirstWrite(st) == (Normal, done)
  {
    CachedWriteReturns(st, st.cache.buf, done);
  }

  /** A write of the cached buffer whose first attempt goes through returns what that attempt returns. */
  lemma CachedWriteReturns(st: State, c: Buf, done: State)
    requires st.Valid() && st.cache == Captured(c) && c.cur.position < c.cur.limit
    requires Attempt(st.(cache := Captured(c.(cur := c.cur.Marked()))), Cached, c) == (Normal, done, c)
    ensures Write(st, Cached, c) == (Normal, done, c)
  {
    var st1 := st.(cache := Captured(c.(cur := c.cur.Marked())));
    assert Write(st, Cached, c) == Loop(st1, Cached, c, 0, []);
    LoopReturns(st1, Cached, c, 0, [], done, c);
  }

  /** The script of the repository's replay test: connect; two writes that go through; a third
      write finds the peer gone (the socket is readable and reads end of stream), closes, and on
      the second attempt reconnects, replays the first write and writes again. */
  function ReplayTestScript(first: nat, second: nat, third: nat): seq<Reply>
  {
    [Done] + Quick(first) + Quick(second) + [Polled(true, false), Count(-1), Done, Done] + Quick(first) + Quick(third)
  }

  /** A stream with replay enabled writes `first` and `second`, then the peer hangs up; the
      next write `third` lands on a new connection after a replay of `first`. With the test's
      payloads "hello ", "world\n" and "kitty\n" the peer reads "hello world" and then "hello kitty". */
  lemma ReplaysTheFirstWriteOnReconnect(first: seq<byte>, second: seq<byte>, third: seq<byte>, tryCount: int)
    requires first != [] && second != [] && third != [] && tryCount >= 2
    ensures var i := Init(ReplayTestScript(|first|, |second|, |third|), [], tryCount, true);
            && i.Ok?
            && var w1 := Write(i.value, User, Wrapped(first, 0, |first|));
            && w1.0.Normal?
            && var w2 := Write(w1.1, User, Wrapped(second, 0, |second|));
            && w2.0.Normal?
            && var w3 := Write(w2.1, User, Wrapped(third, 0, |third|));
            && w3.0.Normal?
            && w3.1.io.sessions == [first + second, first + third]
            && w3.1.io.script == []
  {
    var rest := [Polled(true, false), Count(-1), Done, Done] + Quick(|first|) + Quick(|third|);
    assert ReplayTestScript(|first|, |second|, |third|) == [Done] + Quick(|first|) + Quick(|second|) + rest;
    FirstTwoWrites(first, second, tryCount, rest);
    var st0 := Init(ReplayTestScript(|first|, |second|, |third|), [], tryCount, true).value;
    var w1 := Write(st0, User, Wrapped(first, 0, |first|));
    var w2 := Write(w1.1, User, Wrapped(second, 0, |second|));
    EndOfStreamThenReplay(w2.1, first, third);
  }

  /** The state after connecting. */
  function Connected(script: seq<Reply>, tryCount: int, cache: Cache): State
  {
    State(Io(script, [[]], KeyReady(false, false), 0), Some(Channel(true)), cache, tryCount)
  }

  /** The first two writes of the replay test: both go through on the first connection, and the
      first is cached whole. */
  lemma FirstTwoWrites(first: seq<byte>, second: seq<byte>, tryCount: int, rest: seq<Reply>)
    requires first != [] && second != [] && tryCount >= 1
    ensures var i := Init([Done] + Quick(|first|) + Quick(|second|) + rest, [], tryCount, true);
            && i.Ok?
            && var w1 := Write(i.value, User, Wrapped(first, 0, |first|));
            && w1.0.Normal?
            && var w2 := Write(w1.1, User, Wrapped(second, 0, |second|));
            && w2.0.Normal?
            && w2.1 == State(Io(rest, [first + second], KeyReady(false, false), 0), Some(Channel(true)),
                             Captured(Buf(first, Cursor(0, |first|, -1))), tryCount)
  {
    var script := [Done] + Quick(|first|) + Quick(|second|) + rest;
    assert script[1..] == Quick(|first|) + (Quick(|second|) + rest);
    InitConnects(script, tryCount, true);
    FirstWrite(first, tryCount, Quick(|second|) + rest);
    var w1 := Write(Connected(script[1..], tryCount, Unset), User, Wrapped(first, 0, |first|));
    var u2 := Wrapped(second, 0, |second|);
    assert second[0..|second|] == second;
    QuickUserWrite(w1.1, u2, rest);
  }

  /** The constructor on a network that accepts the connection. */
  lemma InitConnects(script: seq<Reply>, tryCount: int, replayFirstWrite: bool)
    requires tryCount >= 1 && script != [] && script[0] == Done
    ensures Init(script, [], tryCount, replayFirstWrite) ==
              Ok(Connected(script[1..], tryCount, if replayFirstWrite then Unset else Disabled))
  {
    var none: seq<seq<byte>> := [];
    assert none + [[]] == [[]];
  }

  /** The first write on a stream with replay enabled and a quiet connection: it goes through and
      is cached whole. */
  lemma FirstWrite(first: seq<byte>, tryCount: int, rest: seq<Reply>)
    requires first != [] && tryCount >= 1
    ensures var w := Write(Connected(Quick(|first|) + rest, tryCount, Unset), User, Wrapped(first, 0, |first|));
            && w.0.Normal?
            && w.1 == State(Io(rest, [first], KeyReady(false, false), 0), Some(Channel(true)),
                            Captured(Buf(first, Cursor(0, |first|, -1))), tryCount)
  {
    var st0 := Connected(Quick(|first|) + rest, tryCount, Unset);
    var u := Wrapped(first, 0, |first|);
    assert first[0..|first|] == first;
    assert CopyOf(u) == Buf(first, Cursor(0, |first|, -1));
    var none: seq<byte> := [];
    assert none + first == first;
    assert Deliver([none], first) == [first];
    var after := RecordFirstWrite(st0, u).(io := st0.io.(script := rest, ready := KeyReady(false, false),
                                                        sessions := Deliver(st0.io.sessions, u.Pending())));
    assert after == State(Io(rest, [first], KeyReady(false, false), 0), Some(Channel(true)),
                          Captured(Buf(first, Cursor(0, |first|, -1))), tryCount);
    QuickUserWrite(st0, u, rest);
  }

  /** `write` on the caller's buffer is the loop, started from the marked buffer once the first
      write has been recorded. */
  lemma WriteStartsLoop(st: State, u: Buf)
    requires st.Valid() && u.Valid()
    ensures Write(st, User, u) == Loop(RecordFirstWrite(st, u), User, u.(cur := u.cur.Marked()), 0, [])
  {
    assert RecordFirstWrite(st, u.(cur := u.cur.Marked())) == RecordFirstWrite(st, u);
  }

  /** An attempt on a connection whose peer has gone: the drain before the write reads end of stream. */
  lemma AttemptMeetsEndOfStream(st: State, m: Buf)
    requires st.Valid() && st.channel == Some(Channel(true)) && st.io.drained < DRAIN_CAPACITY
    requires m.Valid() && m.cur.position < m.cur.limit && m.cur.mark == m.cur.position
    requires |st.io.script| >= 2 && st.io.script[0] == Polled(true, false) && st.io.script[1] == Count(-1)
    ensures Attempt(st, User, m) ==
              (Threw(EOFException), st.(io := st.io.(script := st.io.script[2..], ready := KeyReady(true, false))), m)
  {
    assert st.io.script[1..][1..] == st.io.script[2..];
    assert EnsureOpen(st) == (Normal, st);
    assert m.cur.Rewound() == m.cur;
    var eof := st.io.(script := st.io.script[2..], ready := KeyReady(true, false));
    assert Drain(st.io.(script := st.io.script[1..], ready := KeyReady(true, false))) == (Threw(EOFException), eof);
    assert CheckForRead(st.io) == (Threw(EOFException), eof);
    assert WriteFully(st.io, m) == (Threw(EOFException), eof, m);
  }

  /** A reconnect with a captured first write that still has bytes left: close nothing, connect,
      and the new connection starts with exactly those bytes, from the cache's position on. In the
      replay test that is the whole first write; after a replay that failed part-way it is the
      tail the failed replay did not get out. */
  lemma ReconnectReplays(st: State, rest: seq<Reply>)
    requires st.Valid() && st.channel.None?
    requires st.cache.Captured? && st.cache.buf.cur.position < st.cache.buf.cur.limit
    requires st.io.script == [Done] + Quick(st.cache.buf.cur.limit - st.cache.buf.cur.position) + rest
    ensures var c := st.cache.buf;
            EnsureOpen(st) ==
              (Normal,
               st.(io := st.io.(script := rest, ready := KeyReady(false, false),
                                sessions := st.io.sessions + [c.Pending()]),
                   channel := Some(Channel(true)),
                   cache := Captured(c.(cur := Cursor(c.cur.limit, c.cur.limit, c.cur.position)))))
  {
    var connected := st.(io := st.io.(script := st.io.script[1..], sessions := st.io.sessions + [[]],
                                      ready := KeyReady(false, false)),
                         channel := Some(Channel(true)));
    assert CloseQuietly(st) == st;
    assert Connect(st) == (Normal, connected);
    assert connected.io.script == Quick(st.cache.buf.cur.limit - st.cache.buf.cur.position) + rest;
    QuickReplay(connected, rest);
    assert Deliver(st.io.sessions + [[]], st.cache.buf.Pending()) == st.io.sessions + [st.cache.buf.Pending()];
  }

  /** The state after the first attempt of the third write failed and the channel was closed. */
  function AfterEndOfStream(st: State): (r: State)
    requires |st.io.script| >= 3
  {
    st.(io := st.io.(script := st.io.script[3..], ready := KeyReady(true, false)), channel := None)
  }

  /** A write whose first attempt meets end of stream: the loop goes on to its second turn with
      the channel closed. */
  lemma EndOfStreamTurn(st: State, u: Buf, recorded: State)
    requires st.Valid() && st.channel == Some(Channel(true)) && st.tryCount >= 2 && st.io.drained == 0
    requires u.Valid() && u.cur.position < u.cur.limit
    requires |st.io.script| >= 3
    requires st.io.script[0] == Polled(true, false) && st.io.script[1] == Count(-1) && st.io.script[2] == Done
    requires recorded == RecordFirstWrite(st, u)
    ensures Write(st, User, u) == Loop(AfterEndOfStream(recorded), User, u.(cur := u.cur.Marked()), 1, [EOFException])
  {
    var st1 := recorded;
    var eof := st1.(io := st1.io.(script := st1.io.script[2..], ready := KeyReady(true, false)));
    assert eof.io.script[0] == Done && eof.io.script[1..] == st1.io.script[3..];
    assert CloseQuietly(eof) == AfterEndOfStream(st1);
    var m := u.(cur := u.cur.Marked());
    assert [] + [EOFException] == [EOFException];
    WriteStartsLoop(st, u);
    AttemptMeetsEndOfStream(st1, m);
    LoopRetries(st1, User, m, 0, [], EOFException, eof, m);
  }

  /** A second turn that reconnects, replays the whole cached first write and then writes the
      caller's buffer. */
  lemma ReplayingTurn(st: State, m: Buf, first: seq<byte>)
    requires st.Valid() && st.channel.None? && st.tryCount >= 2
    requires m.Valid() && m.cur.mark == m.cur.position < m.cur.limit
    requires first != [] && st.cache == Captured(Buf(first, Cursor(0, |first|, -1)))
    requires st.io.script == [Done] + Quick(|first|) + Quick(m.cur.limit - m.cur.position)
    ensures var w := Loop(st, User, m, 1, [EOFException]);
            && w.0.Normal?
            && w.1.io.sessions == st.io.sessions + [first + m.Pending()]
            && w.1.io.script == []
  {
    ReconnectReplays(st, Quick(m.cur.limit - m.cur.position));
    var reopened := EnsureOpen(st).1;
    assert first[0..|first|] == first;
    assert reopened.io.sessions == st.io.sessions + [first];
    assert reopened.io.script == Quick(m.cur.limit - m.cur.position) + [];
    QuickAttempt(st, reopened, m, []);
    var w := Attempt(st, User, m);
    LoopReturns(st, User, m, 1, [EOFException], w.1, w.2);
  }

  /** A write on an open connection whose peer has gone (the key is readable, the read returns
      -1, the close succeeds): the second turn reconnects, the reconnect replays the cached first
      write `first` whole, and the retry then writes the caller's bytes `bytes` on the new
      connection. The cache is the first write captured earlier, or the copy of this one. */
  lemma EndOfStreamThenReplay(st: State, first: seq<byte>, bytes: seq<byte>)
    requires st.Valid() && st.channel == Some(Channel(true)) && st.tryCount >= 2 && st.io.drained == 0
    requires first != [] && bytes != [] && |st.io.sessions| > 0
    requires RecordFirstWrite(st, Wrapped(bytes, 0, |bytes|)).cache == Captured(Buf(first, Cursor(0, |first|, -1)))
    requires st.io.script == [Polled(true, false), Count(-1), Done, Done] + Quick(|first|) + Quick(|bytes|)
    ensures var w := Write(st, User, Wrapped(bytes, 0, |bytes|));
            && w.0.Normal?
            && w.1.io.sessions == st.io.sessions + [first + bytes]
            && w.1.io.script == []
  {
    var u := Wrapped(bytes, 0, |bytes|);
    assert u.Pending() == bytes[0..|bytes|] == bytes;
    var recorded := RecordFirstWrite(st, u);
    EndOfStreamReplies(st, u, recorded, first);
    EndOfStreamTurn(st, u, recorded);
    SecondTurnReplays(st, u, recorded, first);
  }

  /** The second turn of `EndOfStreamThenReplay`, from the state the failed first turn left. */
  lemma SecondTurnReplays(st: State, u: Buf, recorded: State, first: seq<byte>)
    requires st.Valid() && st.tryCount >= 2 && first != [] && u.Valid() && u.cur.position < u.cur.limit
    requires recorded == RecordFirstWrite(st, u) && recorded.cache == Captured(Buf(first, Cursor(0, |first|, -1)))
    requires st.io.script == [Polled(true, false), Count(-1), Done, Done] + Quick(|first|) + Quick(u.cur.limit - u.cur.position)
    ensures |recorded.io.script| >= 3 && AfterEndOfStream(recorded).Valid() && AfterEndOfStream(recorded).channel.None?
    ensures var w := Loop(AfterEndOfStream(recorded), User, u.(cur := u.cur.Marked()), 1, [EOFException]);
            && w.0.Normal?
            && w.1.io.sessions == st.io.sessions + [first + u.Pending()]
            && w.1.io.script == []
  {
    EndOfStreamReplies(st, u, recorded, first);
    var m := u.(cur := u.cur.Marked());
    assert m.cur.limit - m.cur.position == u.cur.limit - u.cur.position;
    assert m.Pending() == u.Pending();
    ReplayingTurn(AfterEndOfStream(recorded), m, first);
  }

  /** The states of `EndOfStreamThenReplay`: the replies are a readable key, end of stream and a
      close, then the reconnect and two quick writes; once closed, the stream is ready for
      `ReplayingTurn`. */
  lemma EndOfStreamReplies(st: State, u: Buf, recorded: State, first: seq<byte>)
    requires st.Valid() && st.tryCount >= 2 && first != [] && u.Valid()
    requires recorded == RecordFirstWrite(st, u) && recorded.cache == Captured(Buf(first, Cursor(0, |first|, -1)))
    requires st.io.script == [Polled(true, false), Count(-1), Done, Done] + Quick(|first|) + Quick(u.cur.limit - u.cur.position)
    ensures |st.io.script| >= 3 && st.io.script[0] == Polled(true, false) && st.io.script[1] == Count(-1) && st.io.script[2] == Done
    ensures var closed := AfterEndOfStream(recorded);
            && closed.Valid() && closed.channel.None? && closed.tryCount >= 2 && closed.cache == recorded.cache
            && closed.io.sessions == st.io.sessions
            && closed.io.script == [Done] + Quick(|first|) + Quick(u.cur.limit - u.cur.position)
  {
    var s := st.io.script;
    assert s == [Polled(true, false), Count(-1), Done] + ([Done] + Quick(|first|) + Quick(u.cur.limit - u.cur.position));
    assert recorded == st.(cache := recorded.cache);
  }

  /** Once `ensureOpen` has an open channel, the caller's buffer goes out in one write. */
  lemma QuickAttempt(st: State, reopened: State, m: Buf, rest: seq<Reply>)
    requires st.Valid() && m.Valid() && m.cur.mark == m.cur.position < m.cur.limit
    requires EnsureOpen(st) == (Normal, reopened)
    requires reopened.io.script == Quick(m.cur.limit - m.cur.position) + rest
    ensures Attempt(st, User, m) ==
              (Normal,
               reopened.(io := reopened.io.(script := rest, ready := KeyReady(false, false),
                                            sessions := Deliver(reopened.io.sessions, m.Pending()))),
               m.(cur := m.cur.(position := m.cur.limit)))
  {
    assert m.cur.Rewound() == m.cur;
    QuickWriteFully(reopened.io, m, rest);
  }

  /** Connect; the peer has gone before the first write of `n` bytes, so the key is readable
      and the read is end of stream; close; reconnect; two writes of `n` bytes that go through. */
  function SentTwiceScript(n: nat): seq<Reply>
  {
    [Done, Polled(true, false), Count(-1), Done, Done] + Quick(n) + Quick(n)
  }

  /** On a stream with replay enabled, a first write that finds the peer gone is sent twice on
      the new connection: the reconnect replays the copy recorded moments before, and the retry
      then writes the caller's buffer again. */
  lemma FirstWriteSentTwiceAfterReconnect(first: seq<byte>, tryCount: int)
    requires first != [] && tryCount >= 2
    ensures var i := Init(SentTwiceScript(|first|), [], tryCount, true);
            && i.Ok?
            && var w := Write(i.value, User, Wrapped(first, 0, |first|));
            && w.0.Normal?
            && w.1.io.sessions == [[], first + first]
  {
    var script := SentTwiceScript(|first|);
    InitConnects(script, tryCount, true);
    var st := Init(script, [], tryCount, true).value;
    assert st.io.script == [Polled(true, false), Count(-1), Done, Done] + Quick(|first|) + Quick(|first|);
    assert first[0..|first|] == first;
    assert CopyOf(Wrapped(first, 0, |first|)) == Buf(first, Cursor(0, |first|, -1));
    assert st.io.sessions + [first + first] == [[], first + first];
    EndOfStreamThenReplay(st, first, first);
  }

  /** `ensureOpen()` without a channel when there is nothing to replay (replay disabled, or the
      first write already replayed): close nothing, connect, and go on. */
  lemma ReopensWithoutReplay(st: State)
    requires st.Valid() && st.channel.None? && (st.cache.Disabled? || Spent(st.cache))
    requires st.io.script != [] && st.io.script[0] == Done
    ensures EnsureOpen(st) ==
              (Normal, st.(io := st.io.(script := st.io.script[1..], sessions := st.io.sessions + [[]],
                                        ready := KeyReady(false, false)),
                           channel := Some(Channel(true))))
  {
    var connected := st.(io := st.io.(script := st.io.script[1..], sessions := st.io.sessions + [[]],
                                      ready := KeyReady(false, false)),
                         channel := Some(Channel(true)));
    assert CloseQuietly(st) == st;
    assert Connect(st) == (Normal, connected);
    assert ReplayFirstWrite(connected) == (Normal, connected);
  }

  /** The replies of a write that gets one byte out before finding the peer gone: nothing to
      read, one byte taken, then the key is readable and the read is end of stream. */
  function OneByteThenGone(): seq<Reply>
  {
    [Polled(false, false), Count(1), Polled(true, false), Count(-1)]
  }

  /** `writeFully` on such a connection: the first pending byte reaches the peer, then end of
      stream; the position stays one byte further on. */
  lemma PartialWriteFully(io: Io, b: Buf, rest: seq<Reply>)
    requires io.Valid() && |io.sessions| > 0 && io.drained < DRAIN_CAPACITY
    requires b.Valid() && b.cur.position + 1 < b.cur.limit
    requires io.script == OneByteThenGone() + rest
    ensures WriteFully(io, b) ==
              (Threw(EOFException),
               io.(script := rest, ready := KeyReady(true, false), sessions := Deliver(io.sessions, [b.data[b.cur.position]])),
               b.(cur := b.cur.(position := b.cur.position + 1)))
  {
    var p := b.cur.position;
    var io1 := io.(script := io.script[1..], ready := KeyReady(false, false));
    assert io1.script == [Count(1)] + io.script[2..];
    assert WriteStep(io1.script, b.cur.Remaining()) == Step(Ok(1), io.script[2..]);
    assert b.data[p..p + 1] == [b.data[p]];
    var io2 := io1.(script := io.script[2..], sessions := Deliver(io.sessions, [b.data[p]]));
    var b2 := b.(cur := b.cur.(position := p + 1));
    assert WritePass(io1, b) == (Normal, io2, b2);
    assert io2.script[1..] == [Count(-1)] + rest;
    var eof := io2.(script := rest, ready := KeyReady(true, false));
    assert Drain(io2.(script := io2.script[1..], ready := KeyReady(true, false))) == (Threw(EOFException), eof);
    assert CheckForRead(io2) == (Threw(EOFException), eof);
    assert WriteFully(io2, b2) == (Threw(EOFException), eof, b2);
    assert CheckForRead(io) == (Normal, io1);
    assert WriteFully(io, b) == WriteFully(io2, b2);
  }

  /** The one attempt of a replay that fails part-way: one cached byte goes out, then end of
      stream. The cache keeps its mark and its position stays one past it. */
  lemma PartialAttempt(st: State, c: Buf, u: Buf, rest: seq<Reply>)
    requires st.Valid() && st.channel == Some(Channel(true)) && st.io.drained < DRAIN_CAPACITY
    requires st.cache == Captured(c) && c.Valid() && c.cur.mark == c.cur.position && c.cur.position + 1 < c.cur.limit
    requires u.Valid() && st.io.script == OneByteThenGone() + rest
    ensures Attempt(st, Cached, u) ==
              (Threw(EOFException),
               st.(io := st.io.(script := rest, ready := KeyReady(true, false),
                                sessions := Deliver(st.io.sessions, [c.data[c.cur.position]])),
                   cache := Captured(c.(cur := c.cur.(position := c.cur.position + 1)))),
               u)
  {
    assert EnsureOpen(st) == (Normal, st);
    assert c.cur.Rewound() == c.cur;
    PartialWriteFully(st.io, c, rest);
  }

  /** The state after the first turn of that replay: one cached byte delivered, the channel
      closed with the reply after the end of stream, the cache one byte on from its mark. */
  function AfterPartialTurn(st: State, m: Buf, later: seq<Reply>): (closed: State)
    requires st.Valid() && st.channel.Some? && m.Valid() && m.cur.position < m.cur.limit
    ensures closed.Valid() && closed.cache.Captured?
  {
    st.(io := st.io.(script := later, ready := KeyReady(true, false),
                     sessions := Deliver(st.io.sessions, [m.data[m.cur.position]])),
        channel := None,
        cache := Captured(m.(cur := m.cur.(position := m.cur.position + 1))))
  }

  /** The first turn of the loop of that replay: the attempt fails, the channel is closed, and
      the loop goes on to its next turn from `AfterPartialTurn`. */
  lemma PartialFirstTurn(st: State, m: Buf, u: Buf, later: seq<Reply>)
    requires st.Valid() && st.channel == Some(Channel(true)) && st.io.drained < DRAIN_CAPACITY
    requires st.cache == Captured(m) && m.Valid() && m.cur.mark == m.cur.position && m.cur.position + 1 < m.cur.limit
    requires u.Valid() && st.io.script == OneByteThenGone() + [Done] + later
    ensures Loop(st, Cached, u, 0, []) == Loop(AfterPartialTurn(st, m, later), Cached, u, 1, [EOFException])
  {
    assert st.io.script == OneByteThenGone() + ([Done] + later);
    var failed := st.(io := st.io.(script := [Done] + later, ready := KeyReady(true, false),
                                   sessions := Deliver(st.io.sessions, [m.data[m.cur.position]])),
                      cache := Captured(m.(cur := m.cur.(position := m.cur.position + 1))));
    assert [] + [EOFException] == [EOFException];
    assert CloseQuietly(failed) == AfterPartialTurn(st, m, later);
    PartialAttempt(st, m, u, [Done] + later);
    LoopRetries(st, Cached, u, 0, [], EOFException, failed, u);
  }

  /** The loop of that replay with one try: the attempt fails, the channel is closed, and the
      loop ends in the aggregate failure of that one exception. */
  lemma PartialLoop(st: State, m: Buf, u: Buf, rest: seq<Reply>)
    requires st.Valid() && st.channel == Some(Channel(true)) && st.io.drained < DRAIN_CAPACITY && st.tryCount == 1
    requires st.cache == Captured(m) && m.Valid() && m.cur.mark == m.cur.position && m.cur.position + 1 < m.cur.limit
    requires u.Valid() && st.io.script == OneByteThenGone() + [Done] + rest
    ensures Loop(st, Cached, u, 0, []) ==
              (Threw(WriteFailed([EOFException])),
               st.(io := st.io.(script := rest, ready := KeyReady(true, false),
                                sessions := Deliver(st.io.sessions, [m.data[m.cur.position]])),
                   channel := None,
                   cache := Captured(m.(cur := m.cur.(position := m.cur.position + 1)))),
               u)
  {
    PartialFirstTurn(st, m, u, rest);
    LoopEnds(AfterPartialTurn(st, m, rest), Cached, u, [EOFException]);
  }

  /** `replayFirstWrite()` with one try, on a connection whose peer goes away after one byte: the
      aggregate failure is thrown, the channel is gone, and the cache is left at the byte after
      the one that went out, so that it is not spent and a later reconnect replays again. */
  lemma PartialReplay(st: State, rest: seq<Reply>)
    requires st.Valid() && st.channel == Some(Channel(true)) && st.io.drained < DRAIN_CAPACITY && st.tryCount == 1
    requires st.cache.Captured? && st.cache.buf.cur.position + 1 < st.cache.buf.cur.limit
    requires st.io.script == OneByteThenGone() + [Done] + rest
    ensures var c := st.cache.buf;
            ReplayFirstWrite(st) ==
              (Threw(WriteFailed([EOFException])),
               st.(io := st.io.(script := rest, ready := KeyReady(true, false),
                                sessions := Deliver(st.io.sessions, [c.data[c.cur.position]])),
                   channel := None,
                   cache := Captured(c.(cur := Cursor(c.cur.position + 1, c.cur.limit, c.cur.position)))))
  {
    var c := st.cache.buf;
    var m := c.(cur := c.cur.Marked());
    var st1 := st.(cache := Captured(m));
    assert m.(cur := m.cur.(position := c.cur.position + 1)) == c.(cur := Cursor(c.cur.position + 1, c.cur.limit, c.cur.position));
    ReplayStartsLoop(st);
    PartialLoop(st1, m, c, rest);
  }

  /** A replay is the loop of `write` on the cached buffer, marked at its position. */
  lemma ReplayStartsLoop(st: State)
    requires st.Valid() && st.cache.Captured? && st.cache.buf.cur.position < st.cache.buf.cur.limit
    ensures var c := st.cache.buf;
            var r := Loop(st.(cache := Captured(c.(cur := c.cur.Marked()))), Cached, c, 0, []);
            ReplayFirstWrite(st) == (r.0, r.1)
  {
    var c := st.cache.buf;
    assert Write(st, Cached, c) == Loop(st.(cache := Captured(c.(cur := c.cur.Marked()))), Cached, c, 0, []);
  }

  /** A replay that fails part-way is taken up again on the next reconnect from where it stopped:
      the byte that got out stays on the old connection, and the new one starts with only the
      rest of the first write. */
  lemma PartialReplayResumes(st: State, rest: seq<Reply>)
    requires st.Valid() && st.channel == Some(Channel(true)) && st.io.drained < DRAIN_CAPACITY && st.tryCount == 1
    requires st.cache.Captured? && st.cache.buf.cur.position + 1 < st.cache.buf.cur.limit
    requires var c := st.cache.buf;
             st.io.script == OneByteThenGone() + [Done, Done] + Quick(c.cur.limit - c.cur.position - 1) + rest
    ensures var c := st.cache.buf;
            var failed := ReplayFirstWrite(st);
            var resumed := EnsureOpen(failed.1);
            && failed.0.Threw? && failed.1.channel.None? && !Spent(failed.1.cache)
            && resumed.0.Normal? && resumed.1.io.script == rest && Spent(resumed.1.cache)
            && resumed.1.io.sessions ==
                 Deliver(st.io.sessions, [c.data[c.cur.position]]) + [c.data[c.cur.position + 1..c.cur.limit]]
  {
    var c := st.cache.buf;
    var later := [Done] + Quick(c.cur.limit - c.cur.position - 1) + rest;
    assert st.io.script == OneByteThenGone() + [Done] + later;
    PartialReplay(st, later);
    var failed := ReplayFirstWrite(st).1;
    assert failed.cache.buf.Pending() == c.data[c.cur.position + 1..c.cur.limit];
    ReconnectReplays(failed, rest);
  }

  /** The state after the cache tail `t` of a closed stream went out twice on one new
      connection: the connection holds `t + t` and stays open, and the cache is spent with its
      mark where the tail began. */
  function TailTwiceOn(closed: State, rest: seq<Reply>): State
    requires closed.cache.Captured? && closed.cache.buf.Valid()
  {
    var c := closed.cache.buf;
    var t := c.Pending();
    closed.(io := closed.io.(script := rest, ready := KeyReady(false, false),
                             sessions := closed.io.sessions + [t + t]),
            channel := Some(Channel(true)),
            cache := Captured(c.(cur := Cursor(c.cur.limit, c.cur.limit, c.cur.position))))
  }

  /** The second turn of a replay whose first turn got one byte out: the turn's reconnect finds
      the rest of the cache still to send and replays it through a nested `write`, which marks
      the cache where it stands; the turn itself then resets to that mark and sends the same
      tail again. The new connection holds the tail twice. */
  lemma NestedTurn(closed: State, u: Buf, rest: seq<Reply>)
    requires closed.Valid() && closed.channel.None? && u.Valid()
    requires closed.cache.Captured? && closed.cache.buf.cur.mark >= 0
    requires closed.cache.buf.cur.position < closed.cache.buf.cur.limit
    requires var c := closed.cache.buf;
             closed.io.script == [Done] + Quick(c.cur.limit - c.cur.position) + Quick(c.cur.limit - c.cur.position) + rest
    ensures Attempt(closed, Cached, u) == (Normal, TailTwiceOn(closed, rest), u)
  {
    var c := closed.cache.buf;
    var n := c.cur.limit - c.cur.position;
    var t := c.Pending();
    assert closed.io.script == [Done] + Quick(n) + (Quick(n) + rest);
    ReconnectReplays(closed, Quick(n) + rest);
    var reopened := EnsureOpen(closed).1;
    var a := c.(cur := Cursor(c.cur.position, c.cur.limit, c.cur.position));
    assert reopened.cache.buf.cur.Rewound() == a.cur && a.Pending() == t;
    QuickWriteFully(reopened.io, a, rest);
    assert Deliver(closed.io.sessions + [t], t) == closed.io.sessions + [t + t];
  }

  /** The loop of such a replay: the first turn gets one byte out and fails, the channel is
      closed, and the second turn is `NestedTurn`. */
  lemma TailTwiceLoop(st: State, m: Buf, u: Buf, rest: seq<Reply>)
    requires st.Valid() && st.channel == Some(Channel(true)) && st.io.drained < DRAIN_CAPACITY && st.tryCount >= 2
    requires st.cache == Captured(m) && m.Valid() && m.cur.mark == m.cur.position && m.cur.position + 1 < m.cur.limit
    requires var n := m.cur.limit - m.cur.position - 1;
             u.Valid() && st.io.script == OneByteThenGone() + [Done, Done] + Quick(n) + Quick(n) + rest
    ensures var n := m.cur.limit - m.cur.position - 1;
            Loop(st, Cached, u, 0, []) ==
              (Normal, TailTwiceOn(AfterPartialTurn(st, m, [Done] + Quick(n) + Quick(n) + rest), rest), u)
  {
    var n := m.cur.limit - m.cur.position - 1;
    var later := [Done] + Quick(n) + Quick(n) + rest;
    assert st.io.script == OneByteThenGone() + [Done] + later;
    var closed := AfterPartialTurn(st, m, later);
    assert closed.cache.buf.cur.limit - closed.cache.buf.cur.position == n && closed.io.script == later;
    assert closed.tryCount > 1;
    NestedLoopTurn(closed, u, 1, [EOFException], rest);
    PartialFirstTurn(st, m, u, later);
  }

  /** `NestedTurn` as a later turn of the loop: its success is the loop's outcome. */
  lemma NestedLoopTurn(closed: State, u: Buf, i: int, exceptions: seq<Exception>, rest: seq<Reply>)
    requires closed.Valid() && closed.channel.None? && u.Valid() && 0 < i < closed.tryCount && |exceptions| == i
    requires closed.cache.Captured? && closed.cache.buf.cur.mark >= 0
    requires closed.cache.buf.cur.position < closed.cache.buf.cur.limit
    requires var c := closed.cache.buf;
             closed.io.script == [Done] + Quick(c.cur.limit - c.cur.position) + Quick(c.cur.limit - c.cur.position) + rest
    ensures Loop(closed, Cached, u, i, exceptions) == (Normal, TailTwiceOn(closed, rest), u)
  {
    NestedTurn(closed, u, rest);
    var done := Attempt(closed, Cached, u);
    LoopReturns(closed, Cached, u, i, exceptions, done.1, u);
  }

  /** What `TailTwiceOn` leaves after `AfterPartialTurn`: an open channel, a spent cache, and one
      byte on the old connection followed by a new connection holding the rest twice. */
  lemma TailTwiceOnAfter(st: State, m: Buf, later: seq<Reply>, rest: seq<Reply>)
    requires st.Valid() && st.channel.Some? && m.Valid() && m.cur.position < m.cur.limit
    ensures var t := m.data[m.cur.position + 1..m.cur.limit];
            var done := TailTwiceOn(AfterPartialTurn(st, m, later), rest);
            && done.channel.Some? && Spent(done.cache) && done.io.script == rest
            && done.io.sessions == Deliver(st.io.sessions, [m.data[m.cur.position]]) + [t + t]
  {
    var closed := AfterPartialTurn(st, m, later);
    assert closed.cache.buf.Pending() == m.data[m.cur.position + 1..m.cur.limit];
  }

  /** A replay with tries left whose first turn gets one byte out before the peer goes: its own
      retry reconnects, and the new connection receives the rest of the first write twice, once
      from the nested replay and once from the retry that resets to the mark that replay set. The
      replay then reports success with the cache spent. */
  lemma TailTwice(st: State, rest: seq<Reply>)
    requires st.Valid() && st.channel == Some(Channel(true)) && st.io.drained < DRAIN_CAPACITY && st.tryCount >= 2
    requires st.cache.Captured? && st.cache.buf.cur.position + 1 < st.cache.buf.cur.limit
    requires var c := st.cache.buf;
             var n := c.cur.limit - c.cur.position - 1;
             st.io.script == OneByteThenGone() + [Done, Done] + Quick(n) + Quick(n) + rest
    ensures var c := st.cache.buf;
            var t := c.data[c.cur.position + 1..c.cur.limit];
            var r := ReplayFirstWrite(st);
            && r.0.Normal? && r.1.channel.Some? && Spent(r.1.cache) && r.1.io.script == rest
            && r.1.io.sessions == Deliver(st.io.sessions, [c.data[c.cur.position]]) + [t + t]
  {
    var c := st.cache.buf;
    var m := c.(cur := c.cur.Marked());
    var n := c.cur.limit - c.cur.position - 1;
    TailTwiceReplay(st, rest);
    TailTwiceOnAfter(st.(cache := Captured(m)), m, [Done] + Quick(n) + Quick(n) + rest, rest);
  }

  /** `TailTwiceLoop` as the outcome of `replayFirstWrite()`, whose loop starts on the cache
      marked where it stands. */
  lemma TailTwiceReplay(st: State, rest: seq<Reply>)
    requires st.Valid() && st.channel == Some(Channel(true)) && st.io.drained < DRAIN_CAPACITY && st.tryCount >= 2
    requires st.cache.Captured? && st.cache.buf.cur.position + 1 < st.cache.buf.cur.limit
    requires var c := st.cache.buf;
             var n := c.cur.limit - c.cur.position - 1;
             st.io.script == OneByteThenGone() + [Done, Done] + Quick(n) + Quick(n) + rest
    ensures var c := st.cache.buf;
            var m := c.(cur := c.cur.Marked());
            var n := c.cur.limit - c.cur.position - 1;
            ReplayFirstWrite(st) ==
              (Normal, TailTwiceOn(AfterPartialTurn(st.(cache := Captured(m)), m, [Done] + Quick(n) + Quick(n) + rest), rest))
  {
    var c := st.cache.buf;
    ReplayStartsLoop(st);
    TailTwiceLoop(st.(cache := Captured(c.(cur := c.cur.Marked()))), c.(cur := c.cur.Marked()), c, rest);
  }

  /** A write after `close()` reconnects without telling the caller: the bytes go out whole on a
      new connection. */
  lemma WriteAfterCloseReconnects(st: State, bytes: seq<byte>, rest: seq<Reply>)
    requires st.Valid() && st.channel.None? && (st.cache.Disabled? || Spent(st.cache))
    requires bytes != [] && st.io.script == [Done] + Quick(|bytes|) + rest
    ensures var w := Write(st, User, Wrapped(bytes, 0, |bytes|));
            && w.0.Normal? && w.1.channel.Some?
            && w.1.io.sessions == st.io.sessions + [bytes]
            && w.1.io.script == rest
  {
    var u := Wrapped(bytes, 0, |bytes|);
    assert u.Pending() == bytes[0..|bytes|] == bytes;
    var m := u.(cur := u.cur.Marked());
    assert m.cur.limit - m.cur.position == |bytes|;
    assert m.Pending() == bytes;
    assert RecordFirstWrite(st, u) == st;
    ReopensWithoutReplay(st);
    var reopened := EnsureOpen(st).1;
    assert reopened.io.script == Quick(m.cur.limit - m.cur.position) + rest;
    QuickAttempt(st, reopened, m, rest);
    var a := Attempt(st, User, m);
    UserWriteReturns(st, u, a.1, a.2);
    assert Deliver(st.io.sessions + [[]], bytes) == st.io.sessions + [bytes];
  }

  /** A later turn of the loop that finds no channel and nothing to replay: it reconnects and the
      caller's bytes go out whole on the new connection. */
  lemma ReopeningTurn(st: State, m: Buf, i: int, exceptions: seq<Exception>, rest: seq<Reply>)
    requires st.Valid() && st.channel.None? && (st.cache.Disabled? || Spent(st.cache))
    requires 0 < i < st.tryCount && |exceptions| == i
    requires m.Valid() && m.cur.mark == m.cur.position < m.cur.limit
    requires st.io.script == [Done] + Quick(m.cur.limit - m.cur.position) + rest
    ensures var w := Loop(st, User, m, i, exceptions);
            && w.0.Normal? && w.1.channel.Some?
            && w.1.io.sessions == st.io.sessions + [m.Pending()]
            && w.1.io.script == rest
  {
    ReopensWithoutReplay(st);
    var reopened := EnsureOpen(st).1;
    assert reopened.io.script == Quick(m.cur.limit - m.cur.position) + rest;
    QuickAttempt(st, reopened, m, rest);
    var a := Attempt(st, User, m);
    LoopReturns(st, User, m, i, exceptions, a.1, a.2);
    assert Deliver(st.io.sessions + [[]], m.Pending()) == st.io.sessions + [m.Pending()];
  }

  /** A turn of the loop without a channel whose connect is refused: `ensureOpen` sleeps (the sleep
      is not interrupted) and rethrows `ConnectException`, which the loop records before the next turn. */
  lemma RefusedTurn(st: State, m: Buf, i: int, exceptions: seq<Exception>, rest: seq<Reply>)
    requires st.Valid() && st.channel.None? && 0 <= i < st.tryCount && |exceptions| == i
    requires m.Valid() && m.cur.mark >= 0
    requires st.io.script == [Refused] + rest && rest != [] && rest[0] != Interrupt
    ensures var after := st.(io := st.io.(script := rest));
            && after.Valid() && after.channel.None?
            && Loop(st, User, m, i, exceptions) == Loop(after, User, m, i + 1, exceptions + [ConnectException])
  {
    var after := st.(io := st.io.(script := rest));
    assert st.io.script[1..] == rest;
    assert CloseQuietly(st) == st;
    assert Connect(st) == (Threw(ConnectException), after);
    ReconnectRefused(st);
    assert EnsureOpen(st) == (Threw(ConnectException), after);
    assert Attempt(st, User, m) == (Threw(ConnectException), after, m);
    LoopRetries(st, User, m, i, exceptions, ConnectException, after, m);
    assert CloseQuietly(after) == after;
  }

  /** A write without replay on a connection whose peer has gone: after the end of stream and the
      close, the loop goes on to turn 1 with no channel. */
  lemma EndOfStreamWithoutReplay(st: State, u: Buf, rest: seq<Reply>)
    requires st.Valid() && st.channel == Some(Channel(true)) && st.cache.Disabled?
    requires st.tryCount >= 2 && st.io.drained == 0 && u.Valid() && u.cur.position < u.cur.limit
    requires st.io.script == [Polled(true, false), Count(-1), Done] + rest
    ensures var closed := AfterEndOfStream(st);
            && closed.Valid() && closed.channel.None? && closed.cache.Disabled?
            && closed.io.sessions == st.io.sessions && closed.io.script == rest
            && Write(st, User, u) == Loop(closed, User, u.(cur := u.cur.Marked()), 1, [EOFException])
  {
    assert st.io.script[3..] == rest;
    EndOfStreamTurn(st, u, st);
  }

  /** A write without replay on a connection whose peer has gone: the first turn meets end of
      stream and closes, and the second reconnects and delivers the bytes whole. */
  lemma PeerGoneReconnects(st: State, bytes: seq<byte>, rest: seq<Reply>)
    requires st.Valid() && st.channel == Some(Channel(true)) && st.cache.Disabled?
    requires st.tryCount >= 2 && st.io.drained == 0 && bytes != []
    requires st.io.script == [Polled(true, false), Count(-1), Done] + rest && rest == [Done] + Quick(|bytes|)
    ensures var w := Write(st, User, Wrapped(bytes, 0, |bytes|));
            && w.0.Normal?
            && w.1.io.sessions == st.io.sessions + [bytes]
            && w.1.io.script == []
  {
    var u := Wrapped(bytes, 0, |bytes|);
    assert u.Pending() == bytes[0..|bytes|] == bytes;
    var m := u.(cur := u.cur.Marked());
    assert m.Pending() == bytes && m.cur.limit - m.cur.position == |bytes|;
    assert rest == [Done] + Quick(m.cur.limit - m.cur.position) + [];
    EndOfStreamWithoutReplay(st, u, rest);
    var closed := AfterEndOfStream(st);
    ReopeningTurn(closed, m, 1, [EOFException], []);
  }

  /** The script of `reconnectsIfNecessaryOnWrite`: connect; the peer has gone, so the key is
      readable and the read is end of stream; close; reconnect; a write of `n` bytes that goes through. */
  function PeerGoneScript(n: nat): seq<Reply>
  {
    [Done, Polled(true, false), Count(-1), Done, Done] + Quick(n)
  }

  /** The script of `blocksIfNecessaryOnReconnect`: as `PeerGoneScript`, but the first reconnect
      is refused and the one after the back-off is accepted. */
  function RefusedOnceScript(n: nat): seq<Reply>
  {
    [Done, Polled(true, false), Count(-1), Done, Refused, Done] + Quick(n)
  }

  /** The repository's test `reconnectsIfNecessaryOnWrite`: the server closes the accepted socket
      before the first write, which then finds end of stream, reconnects and is read whole on the
      second connection. */
  lemma ReconnectsIfNecessaryOnWrite(bytes: seq<byte>, tryCount: int)
    requires bytes != [] && tryCount >= 2
    ensures var i := Init(PeerGoneScript(|bytes|), [], tryCount, false);
            && i.Ok?
            && var w := Write(i.value, User, Wrapped(bytes, 0, |bytes|));
            && w.0.Normal?
            && w.1.io.sessions == [[], bytes]
            && w.1.io.script == []
  {
    var script := PeerGoneScript(|bytes|);
    InitConnects(script, tryCount, false);
    var st := Init(script, [], tryCount, false).value;
    var rest := [Done] + Quick(|bytes|);
    assert st.io.script == [Polled(true, false), Count(-1), Done] + rest;
    assert st.io.sessions + [bytes] == [[], bytes];
    PeerGoneReconnects(st, bytes, rest);
  }

  /** Two turns of the loop without a channel: the connect is refused, and after the back-off
      the next turn connects and writes the caller's bytes. */
  lemma RefusedThenReopens(closed: State, m: Buf, i: int, exceptions: seq<Exception>, rest: seq<Reply>)
    requires closed.Valid() && closed.channel.None? && (closed.cache.Disabled? || Spent(closed.cache))
    requires 0 <= i && i + 1 < closed.tryCount && |exceptions| == i
    requires m.Valid() && m.cur.mark == m.cur.position < m.cur.limit
    requires closed.io.script == [Refused] + rest && rest == [Done] + Quick(m.cur.limit - m.cur.position)
    ensures var w := Loop(closed, User, m, i, exceptions);
            && w.0.Normal?
            && w.1.io.sessions == closed.io.sessions + [m.Pending()]
            && w.1.io.script == []
  {
    RefusedTurn(closed, m, i, exceptions, rest);
    assert rest == [Done] + Quick(m.cur.limit - m.cur.position) + [];
    ReopeningTurn(closed.(io := closed.io.(script := rest)), m, i + 1, exceptions + [ConnectException], []);
  }

  /** A write without replay on a connection whose peer has gone and which no longer accepts
      connections at once: end of stream, a refused connect and its back-off, then a connect that
      is accepted and the bytes delivered whole. */
  lemma PeerGoneThenRefused(st: State, bytes: seq<byte>, rest: seq<Reply>, later: seq<Reply>)
    requires st.Valid() && st.channel == Some(Channel(true)) && st.cache.Disabled?
    requires st.tryCount >= 3 && st.io.drained == 0 && bytes != []
    requires st.io.script == [Polled(true, false), Count(-1), Done] + rest
    requires rest == [Refused] + later && later == [Done] + Quick(|bytes|)
    ensures var w := Write(st, User, Wrapped(bytes, 0, |bytes|));
            && w.0.Normal?
            && w.1.io.sessions == st.io.sessions + [bytes]
            && w.1.io.script == []
  {
    var u := Wrapped(bytes, 0, |bytes|);
    assert u.Pending() == bytes[0..|bytes|] == bytes;
    EndOfStreamWithoutReplay(st, u, rest);
    var m := u.(cur := u.cur.Marked());
    assert m.Pending() == bytes && m.cur.limit - m.cur.position == |bytes|;
    assert later == [Done] + Quick(m.cur.limit - m.cur.position);
    RefusedThenReopens(AfterEndOfStream(st), m, 1, [EOFException], later);
  }

  /** The repository's test `blocksIfNecessaryOnReconnect`: the server closes the accepted socket
      and stops listening, so the write finds end of stream and the next connect is refused; after
      the back-off the next turn connects and the bytes are read whole on the second connection. */
  lemma BlocksIfNecessaryOnReconnect(bytes: seq<byte>, tryCount: int)
    requires bytes != [] && tryCount >= 3
    ensures var i := Init(RefusedOnceScript(|bytes|), [], tryCount, false);
            && i.Ok?
            && var w := Write(i.value, User, Wrapped(bytes, 0, |bytes|));
            && w.0.Normal?
            && w.1.io.sessions == [[], bytes]
            && w.1.io.script == []
  {
    var script := RefusedOnceScript(|bytes|);
    InitConnects(script, tryCount, false);
    var st := Init(script, [], tryCount, false).value;
    var later := [Done] + Quick(|bytes|);
    var rest := [Refused] + later;
    assert st.io.script == [Polled(true, false), Count(-1), Done] + rest;
    assert st.io.sessions + [bytes] == [[], bytes];
    PeerGoneThenRefused(st, bytes, rest, later);
  }

  /** A run of `n` copies of `e`. */
  function Repeat(e: Exception, n: nat): (r: seq<Exception>)
    ensures |r| == n && forall k :: 0 <= k < n ==> r[k] == e
  {
    seq(n, _ => e)
  }

  /** On a network that refuses every connection, each remaining turn of the loop fails with
      `ConnectException` (after its back-off), and the loop ends in the aggregate failure. */
  lemma {:induction false} LoopOnDeadNetwork(st: State, t: Target, u: Buf, i: int, exceptions: seq<Exception>)
    requires st.Valid() && u.Valid() && 0 <= i <= st.tryCount && |exceptions| == i
    requires t == Cached ==> st.cache.Captured? && !Spent(st.cache)
    requires Active(st, t, u).cur.mark >= 0
    requires st.channel.None? && st.io.script == []
    decreases st.tryCount - i
    ensures Loop(st, t, u, i, exceptions) ==
              (Threw(WriteFailed(exceptions + Repeat(ConnectException, st.tryCount - i))), st, u)
  {
    if i < st.tryCount {
      assert Connect(st) == (Threw(ConnectException), st);
      assert EnsureOpen(st) == (Threw(ConnectException), st);
      LoopRetries(st, t, u, i, exceptions, ConnectException, st, u);
      LoopOnDeadNetwork(st, t, u, i + 1, exceptions + [ConnectException]);
      assert exceptions + [ConnectException] + Repeat(ConnectException, st.tryCount - i - 1)
          == exceptions + Repeat(ConnectException, st.tryCount - i);
    } else {
      assert exceptions + Repeat(ConnectException, 0) == exceptions;
    }
  }

  /** A write with no channel (after `close()`, say) on a network that refuses every connection
      fails after exactly `tryCount` refused connects, and the first refusal is its cause. */
  lemma WriteOnDeadNetwork(st: State, u: Buf)
    requires st.Valid() && u.Valid() && st.channel.None? && st.io.script == []
    ensures var w := Write(st, User, u);
            && w.0 == Threw(WriteFailed(Repeat(ConnectException, st.tryCount)))
            && Cause(w.0.error) == Some(ConnectException)
            && w.1.io == st.io
  {
    WriteStartsLoop(st, u);
    var st1 := RecordFirstWrite(st, u);
    LoopOnDeadNetwork(st1, User, u.(cur := u.cur.Marked()), 0, []);
    assert [] + Repeat(ConnectException, st.tryCount) == Repeat(ConnectException, st.tryCount);
  }

  /** The payloads of the repository's replay test, as bytes: "hello ", "world\n", "kitty\n". */
  const HELLO: seq<byte> := [104, 101, 108, 108, 111, 32]
  const WORLD: seq<byte> := [119, 111, 114, 108, 100, 10]
  const KITTY: seq<byte> := [107, 105, 116, 116, 121, 10]

  /** They are what `getBytes()` gives for the test's strings, and the lines the test's server
      reads are "hello world" and "hello kitty". */
  lemma TestPayloads()
    ensures HELLO == Ascii("hello ") && WORLD == Ascii("world\n") && KITTY == Ascii("kitty\n")
    ensures HELLO + WORLD == Ascii("hello world\n") && HELLO + KITTY == Ascii("hello kitty\n")
  {
    AsciiAppend("hello ", "world\n");
    AsciiAppend("hello ", "kitty\n");
    assert "hello " + "world\n" == "hello world\n";
    assert "hello " + "kitty\n" == "hello kitty\n";
  }

  /** The repository's test `canReplayTheFirstWriteOnReconnect` with its own payloads and the default
      try count: the first connection reads "hello world\n", the second "hello kitty\n". */
  lemma HelloKitty(hello: seq<byte>, world: seq<byte>, kitty: seq<byte>)
    requires hello == HELLO && world == WORLD && kitty == KITTY
    ensures var i := Init(ReplayTestScript(|hello|, |world|, |kitty|), [], DEFAULT_TRY_COUNT, true);
            && i.Ok?
            && var w1 := Write(i.value, User, Wrapped(hello, 0, |hello|));
            && w1.0.Normal?
            && var w2 := Write(w1.1, User, Wrapped(world, 0, |world|));
            && w2.0.Normal?
            && var w3 := Write(w2.1, User, Wrapped(kitty, 0, |kitty|));
            && w3.0.Normal?
            && w3.1.io.sessions == [hello + world, hello + kitty]
  {
    ReplaysTheFirstWriteOnReconnect(hello, world, kitty, DEFAULT_TRY_COUNT);
  }
}
