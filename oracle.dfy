/** The socket layer under the stream (`SocketChannel`, `Selector`, `SelectionKey`, `Thread.sleep`),
    replaced by an oracle: a finite script of replies, one consumed by every call into the channel
    or the selector. A reply of the wrong kind for the call is read as that call failing with an
    `IOException`. An exhausted script stands for a network where nothing answers any more:
    connecting is refused, closing succeeds and every other call fails. */
module Oracle {
  import opened Bytes
  import opened Failures
  import opened Buffers

  datatype Reply =
    | Done                                              // a connect or a close succeeds
    | Refused                                           // a connect raises `ConnectException`
    | Fail                                              // the call raises an `IOException`
    | Count(n: int)                                     // a read or a write returns `n`
    | Polled(readable: bool, writable: bool)            // `register` + `selectNow()`: the key's ready set
    | Selected(count: int, readable: bool, writable: bool) // `select()` returns `count`; the key's ready set
    | Interrupt                                         // the thread is interrupted while it sleeps

  /** The ready set of the channel's selection key, as the last select reported it. */
  datatype KeyReady = KeyReady(readable: bool, writable: bool)

  datatype Selection = Selection(count: nat, ready: KeyReady)

  /** What a call returns and the script left after it. */
  datatype Step<T> = Step(result: T, rest: seq<Reply>)

  /** The script after one call: its first reply is used up, if there is one. */
  function Rest(s: seq<Reply>): (r: seq<Reply>)
    ensures s != [] ==> |r| == |s| - 1 && r == s[1..]
    ensures s == [] ==> r == []
  {
    if s == [] then [] else s[1..]
  }

  /** `SocketChannel.open(address)`. */
  function ConnectStep(s: seq<Reply>): (r: Step<Status>)
    ensures r.rest == Rest(s)
    ensures r.result.Normal? <==> s != [] && s[0] == Done
    ensures r.result == Threw(ConnectException) <==> s == [] || s[0] == Refused
    ensures r.result.Threw? ==> (r.result.error == ConnectException || r.result.error == IOFailure)
  {
    if s == [] then Step(Threw(ConnectException), [])
    else match s[0]
      case Done => Step(Normal, s[1..])
      case Refused => Step(Threw(ConnectException), s[1..])
      case _ => Step(Threw(IOFailure), s[1..])
  }

  /** `channel.close()`. */
  function CloseStep(s: seq<Reply>): (r: Step<Status>)
    ensures r.rest == Rest(s)
    ensures r.result.Normal? <==> s == [] || s[0] == Done
    ensures r.result.Threw? ==> r.result.error == IOFailure
  {
    if s == [] || s[0] == Done then Step(Normal, Rest(s)) else Step(Threw(IOFailure), s[1..])
  }

  /** A call that returns a count between -1 and `bound`. */
  function CountStep(s: seq<Reply>, bound: nat): (r: Step<Result<int>>)
    ensures r.rest == Rest(s)
    ensures r.result.Ok? <==> s != [] && s[0].Count? && -1 <= s[0].n <= bound
    ensures r.result.Ok? ==> r.result.value == s[0].n
    ensures r.result.Err? ==> r.result.error == IOFailure
  {
    if s != [] && s[0].Count? && -1 <= s[0].n <= bound then Step(Ok(s[0].n), s[1..])
    else Step(Err(IOFailure), Rest(s))
  }

  /** `channel.write(buffer)` with `remaining` bytes pending: accepts `k` of them, or -1 at end of stream. */
  function WriteStep(s: seq<Reply>, remaining: nat): (r: Step<Result<int>>)
    ensures r == CountStep(s, remaining)
    ensures r.result.Ok? ==> -1 <= r.result.value <= remaining
  {
    CountStep(s, remaining)
  }

  /** `channel.read(buffer)` with `room` bytes free in the buffer. A full buffer reads 0 bytes
      without asking the socket; otherwise the reply gives `r`, -1 at end of stream. */
  function ReadStep(s: seq<Reply>, room: nat): (r: Step<Result<int>>)
    ensures room == 0 ==> r == Step(Ok(0), s)
    ensures room > 0 ==> r == CountStep(s, room)
    ensures r.result.Ok? ==> -1 <= r.result.value <= room
  {
    if room == 0 then Step(Ok(0), s) else CountStep(s, room)
  }

  /** `channel.register(selector, OP_READ)` followed by `selector.selectNow()`. */
  function PollStep(s: seq<Reply>): (r: Step<Result<KeyReady>>)
    ensures r.rest == Rest(s)
    ensures r.result.Ok? <==> s != [] && s[0].Polled?
    ensures r.result.Ok? ==> r.result.value == KeyReady(s[0].readable, s[0].writable)
    ensures r.result.Err? ==> r.result.error == IOFailure
  {
    if s != [] && s[0].Polled? then Step(Ok(KeyReady(s[0].readable, s[0].writable)), s[1..])
    else Step(Err(IOFailure), Rest(s))
  }

  /** `selector.select()`: the number of keys selected and the key's ready set. */
  function SelectStep(s: seq<Reply>): (r: Step<Result<Selection>>)
    ensures r.rest == Rest(s)
    ensures r.result.Ok? <==> s != [] && s[0].Selected? && s[0].count >= 0
    ensures r.result.Ok? ==> r.result.value == Selection(s[0].count, KeyReady(s[0].readable, s[0].writable))
    ensures r.result.Err? ==> r.result.error == IOFailure
  {
    if s != [] && s[0].Selected? && s[0].count >= 0 then
      Step(Ok(Selection(s[0].count, KeyReady(s[0].readable, s[0].writable))), s[1..])
    else Step(Err(IOFailure), Rest(s))
  }

  /** `Thread.sleep(millis)`: returns at once unless the script interrupts the thread here, in which
      case `sleep` raises `InterruptedIOException`. Only an interruption is consumed. */
  function SleepStep(s: seq<Reply>): (r: Step<Status>)
    ensures r.result.Threw? <==> s != [] && s[0] == Interrupt
    ensures r.result.Threw? ==> r.result.error == InterruptedIOException && r.rest == s[1..]
    ensures r.result.Normal? ==> r.rest == s
  {
    if s != [] && s[0] == Interrupt then Step(Threw(InterruptedIOException), s[1..]) else Step(Normal, s)
  }

  /** The transcript after the current (last) connection accepted `bytes`. */
  function Deliver(sessions: seq<seq<byte>>, bytes: seq<byte>): (r: seq<seq<byte>>)
    requires |sessions| > 0
    ensures |r| == |sessions| && r[..|r| - 1] == sessions[..|sessions| - 1]
    ensures r[|r| - 1] == sessions[|sessions| - 1] + bytes
  {
    sessions[..|sessions| - 1] + [sessions[|sessions| - 1] + bytes]
  }

  /** Delivering in two pieces is delivering their concatenation. */
  lemma DeliverTwice(sessions: seq<seq<byte>>, a: seq<byte>, b: seq<byte>)
    requires |sessions| > 0
    ensures Deliver(Deliver(sessions, a), b) == Deliver(sessions, a + b)
  {
    var once := Deliver(sessions, a);
    assert once[..|once| - 1] == sessions[..|sessions| - 1];
    assert once[|once| - 1] + b == sessions[|sessions| - 1] + (a + b);
  }

  /** `s2` is what the transcript `s` can become: connections before the current one are never
      touched again, the current one only receives more bytes, and later connections may follow. */
  predicate Extends(s: seq<seq<byte>>, s2: seq<seq<byte>>)
  {
    && |s| <= |s2|
    && (|s| > 0 ==> s[..|s| - 1] == s2[..|s| - 1] && s[|s| - 1] <= s2[|s| - 1])
  }

  /** Delivering bytes extends the transcript. */
  lemma DeliverExtends(sessions: seq<seq<byte>>, bytes: seq<byte>)
    requires |sessions| > 0
    ensures Extends(sessions, Deliver(sessions, bytes))
  {
  }

  /** Opening a new connection extends the transcript. */
  lemma OpenExtends(sessions: seq<seq<byte>>)
    ensures Extends(sessions, sessions + [[]])
  {
    var n := |sessions|;
    if n > 0 {
      assert (sessions + [[]])[..n - 1] == sessions[..n - 1];
      assert (sessions + [[]])[n - 1] == sessions[n - 1];
    }
  }

  /** Extending twice is extending once. */
  lemma ExtendsTrans(a: seq<seq<byte>>, b: seq<seq<byte>>, c: seq<seq<byte>>)
    requires Extends(a, b) && Extends(b, c)
    ensures Extends(a, c)
  {
    var n, m := |a|, |b|;
    if n > 0 {
      assert a[..n - 1] == b[..m - 1][..n - 1] == c[..m - 1][..n - 1] == c[..n - 1];
      if n < m {
        assert b[n - 1] == b[..m - 1][n - 1] == c[..m - 1][n - 1] == c[n - 1];
      }
    }
  }

  /** The socket layer and the selector. `sessions` records, per physical connection in the order
      they were opened, the bytes the peer received on it; the last one is the current connection.
      `readable` and `writable` are the ready set of the current channel's key. */
  class Network {
    var script: seq<Reply>
    var sessions: seq<seq<byte>>
    var readable: bool
    var writable: bool

    constructor (script: seq<Reply>)
      ensures this.script == script && sessions == [] && !readable && !writable
    {
      this.script := script;
      sessions := [];
      readable, writable := false, false;
    }

    /** Open a connection; a new connection starts an empty transcript and a key with nothing ready. */
    method Connect() returns (s: Status)
      modifies this
      ensures s == ConnectStep(old(script)).result && script == ConnectStep(old(script)).rest
      ensures s.Normal? ==> sessions == old(sessions) + [[]] && !readable && !writable
      ensures s.Threw? ==> sessions == old(sessions) && readable == old(readable) && writable == old(writable)
    {
      var step := ConnectStep(script);
      s, script := step.result, step.rest;
      if s.Normal? {
        sessions := sessions + [[]];
        readable, writable := false, false;
      }
    }

    method Close() returns (s: Status)
      modifies this`script
      ensures s == CloseStep(old(script)).result && script == CloseStep(old(script)).rest
    {
      var step := CloseStep(script);
      s, script := step.result, step.rest;
    }

    /** `channel.write(b)`: the accepted bytes go to the current connection and `b`'s position
        moves past them. */
    method Write(b: ByteBuffer) returns (r: Result<int>)
      requires b.Valid() && |sessions| > 0
      modifies this`script, this`sessions, b`position
      ensures var step := WriteStep(old(script), old(b.Cur().Remaining()));
              r == step.result && script == step.rest
      ensures var k := if r.Ok? && r.value > 0 then r.value else 0;
              b.position == old(b.position) + k && b.Valid() &&
              sessions == Deliver(old(sessions), b.data[old(b.position)..b.position])
    {
      var step := WriteStep(script, b.limit - b.position);
      r, script := step.result, step.rest;
      var k := if r.Ok? && r.value > 0 then r.value else 0;
      sessions := Deliver(sessions, b.data[b.position..b.position + k]);
      b.position := b.position + k;
    }

    /** `channel.read(b)`: the position of `b` moves past the bytes read. What those bytes are is
        not modelled: the stream throws them away. */
    method Read(b: ByteBuffer) returns (r: Result<int>)
      requires b.Valid()
      modifies this`script, b`position
      ensures var step := ReadStep(old(script), old(b.Cur().Remaining()));
              r == step.result && script == step.rest
      ensures b.position == old(b.position) + (if r.Ok? && r.value > 0 then r.value else 0) && b.Valid()
    {
      var step := ReadStep(script, b.limit - b.position);
      r, script := step.result, step.rest;
      if r.Ok? && r.value > 0 {
        b.position := b.position + r.value;
      }
    }

    /** `channel.register(selector, OP_READ); selector.selectNow()`. */
    method SelectNow() returns (s: Status)
      modifies this`script, this`readable, this`writable
      ensures var step := PollStep(old(script));
              script == step.rest && s.Normal? == step.result.Ok? &&
              (s.Threw? ==> s.error == step.result.error && readable == old(readable) && writable == old(writable)) &&
              (s.Normal? ==> KeyReady(readable, writable) == step.result.value)
    {
      var step := PollStep(script);
      script := step.rest;
      if step.result.Ok? {
        s := Normal;
        readable, writable := step.result.value.readable, step.result.value.writable;
      } else {
        s := Threw(step.result.error);
      }
    }

    /** `selector.select()`. A select that selects nothing leaves the key's ready set as it was. */
    method Select() returns (r: Result<nat>)
      modifies this`script, this`readable, this`writable
      ensures var step := SelectStep(old(script));
              script == step.rest && r.Ok? == step.result.Ok? &&
              (r.Err? ==> r.error == step.result.error && readable == old(readable) && writable == old(writable)) &&
              (r.Ok? ==> r.value == step.result.value.count) &&
              (r.Ok? && r.value > 0 ==> KeyReady(readable, writable) == step.result.value.ready) &&
              (r.Ok? && r.value == 0 ==> readable == old(readable) && writable == old(writable))
    {
      var step := SelectStep(script);
      script := step.rest;
      if step.result.Ok? {
        r := Ok(step.result.value.count);
        if r.value > 0 {
          readable, writable := step.result.value.ready.readable, step.result.value.ready.writable;
        }
      } else {
        r := Err(step.result.error);
      }
    }

    /** `Thread.sleep(millis)`; the delay itself is not modelled. */
    method Sleep(millis: nat) returns (s: Status)
      modifies this`script
      ensures s == SleepStep(old(script)).result && script == SleepStep(old(script)).rest
    {
      var step := SleepStep(script);
      s, script := step.result, step.rest;
    }
  }
}
