/** The write engine of the stream as a function of the state of the socket layer: `writeFully`
    with its drain-while-writing helpers `checkForRead`, `blockForWrite` and `drain`. */
module Engine {
  import opened Bytes
  import opened Failures
  import opened Buffers
  import opened Oracle

  /** The capacity of the drain buffer, allocated once by the constructor and never cleared. */
  const DRAIN_CAPACITY: nat := 32

  /** What the write engine sees and changes: the oracle's script, the transcript of the
      connections, the ready set of the channel's key and the position of the drain buffer. */
  datatype Io = Io(script: seq<Reply>, sessions: seq<seq<byte>>, ready: KeyReady, drained: nat) {
    predicate Valid()
    {
      drained <= DRAIN_CAPACITY
    }

    /** `drainBuffer.remaining()`. */
    function Room(): nat
      requires Valid()
    {
      DRAIN_CAPACITY - drained
    }
  }

  /** `rest` is what is left of `s` after some replies were used up from its front. */
  predicate IsSuffix(rest: seq<Reply>, s: seq<Reply>)
  {
    |rest| <= |s| && s[|s| - |rest|..] == rest
  }

  /** The last reply used up in going from `s` to `rest`. */
  function LastUsed(s: seq<Reply>, rest: seq<Reply>): Option<Reply>
    requires |rest| <= |s|
  {
    if |rest| < |s| then Some(s[|s| - |rest| - 1]) else None
  }

  predicate SelectedNothing(r: Option<Reply>)
  {
    r.Some? && r.value.Selected? && r.value.count == 0
  }

  lemma SuffixTrans(a: seq<Reply>, b: seq<Reply>, c: seq<Reply>)
    requires IsSuffix(a, b) && IsSuffix(b, c)
    ensures IsSuffix(a, c)
  {
    assert c[|c| - |a|..] == c[|c| - |b|..][|b| - |a|..];
  }

  lemma SlicesJoin<T>(s: seq<T>, i: nat, j: nat, k: nat)
    requires i <= j <= k <= |s|
    ensures s[i..j] + s[j..k] == s[i..k]
  {
    assert s[i..k] == s[i..j] + s[i..k][j - i..];
  }

  lemma DeliverNothing(sessions: seq<seq<byte>>)
    requires |sessions| > 0
    ensures Deliver(sessions, []) == sessions
  {
    assert sessions[|sessions| - 1] + [] == sessions[|sessions| - 1];
  }

  /** `drain()`: read into the drain buffer while reads return a positive count; a final read of
      -1 is `EOFException`. The drain buffer is never cleared, so once it is full every read
      returns 0 and `drain` returns at once without asking the socket. */
  function Drain(io: Io): (r: (Status, Io))
    requires io.Valid()
    decreases |io.script|
    ensures r.1.Valid() && r.1.sessions == io.sessions && r.1.ready == io.ready
    ensures io.drained <= r.1.drained && |r.1.script| <= |io.script|
    ensures r.0.Threw? ==> (r.0.error == EOFException || r.0.error == IOFailure)
    ensures io.drained == DRAIN_CAPACITY ==> r == (Normal, io)
  {
    var step := ReadStep(io.script, io.Room());
    var io1 := io.(script := step.rest);
    match step.result
    case Err(e) => (Threw(e), io1)
    case Ok(n) =>
      if n > 0 then
        var r := Drain(io1.(drained := io.drained + n));
        r
      else if n < 0 then (Threw(EOFException), io1)
      else (Normal, io1)
  }

  /** A read of a positive count: `drain` goes on reading. */
  lemma DrainGoesOn(io: Io, n: int, next: Io)
    requires io.Valid() && ReadStep(io.script, io.Room()).result == Ok(n) && n > 0
    requires next == io.(script := Rest(io.script), drained := io.drained + n)
    ensures io.script != [] && io.drained + n <= DRAIN_CAPACITY && next.Valid()
    ensures Drain(io) == Drain(next)
  {
    PositiveReadFits(io, n);
    var step := ReadStep(io.script, io.Room());
    assert next == io.(script := step.rest).(drained := io.drained + n);
  }

  /** A positive count fits in the room the drain buffer has left, and consumed one reply. */
  lemma PositiveReadFits(io: Io, n: int)
    requires io.Valid() && ReadStep(io.script, io.Room()).result == Ok(n) && n > 0
    ensures io.script != [] && io.drained + n <= DRAIN_CAPACITY && io.Room() > 0
    ensures ReadStep(io.script, io.Room()).rest == Rest(io.script)
  {
  }

  /** Any other read ends `drain`: a failure, an end of stream, or nothing to read. */
  lemma DrainStops(io: Io)
    requires io.Valid() && !(ReadStep(io.script, io.Room()).result.Ok? && ReadStep(io.script, io.Room()).result.value > 0)
    ensures var step := ReadStep(io.script, io.Room());
            var rest := io.(script := step.rest);
            Drain(io) == match step.result
                         case Err(e) => (Threw(e), rest)
                         case Ok(n) => if n < 0 then (Threw(EOFException), rest) else (Normal, rest)
  {
  }

  /** `checkForRead()`: ask the selector, without blocking, whether the channel is readable, and
      drain it if so. */
  function CheckForRead(io: Io): (r: (Status, Io))
    requires io.Valid()
    ensures r.1.Valid() && r.1.sessions == io.sessions
    ensures io.drained <= r.1.drained && |r.1.script| <= |io.script|
    ensures r.0.Normal? ==> |r.1.script| < |io.script|
    ensures r.0.Threw? ==> (r.0.error == EOFException || r.0.error == IOFailure)
    ensures !(io.script != [] && io.script[0].Polled?) ==> r.0 == Threw(IOFailure)
    ensures io.script != [] && io.script[0].Polled? ==>
              r.1.ready == KeyReady(io.script[0].readable, io.script[0].writable) &&
              (!io.script[0].readable ==> r == (Normal, io.(script := io.script[1..], ready := r.1.ready)))
  {
    var step := PollStep(io.script);
    match step.result
    case Err(e) => (Threw(e), io.(script := step.rest))
    case Ok(key) =>
      var io1 := io.(script := step.rest, ready := key);
      if key.readable then
        var r := Drain(io1);
        r
      else (Normal, io1)
  }

  /** `blockForWrite()`: until the key reports the channel writable, block in `select()`, draining
      whenever the channel is readable; a `select()` that selects nothing is a failure. */
  function BlockForWrite(io: Io): (r: (Status, Io))
    requires io.Valid()
    decreases |io.script|
    ensures r.1.Valid() && r.1.sessions == io.sessions
    ensures io.drained <= r.1.drained && |r.1.script| <= |io.script|
    ensures io.ready.writable ==> r == (Normal, io)
    ensures r.0.Normal? ==> r.1.ready.writable
    ensures r.0.Threw? ==> (r.0.error == SelectFailed || r.0.error == EOFException || r.0.error == IOFailure)
    ensures !io.ready.writable && io.script != [] && io.script[0].Selected? && io.script[0].count == 0 ==>
              r == (Threw(SelectFailed), io.(script := io.script[1..]))
  {
    if io.ready.writable then (Normal, io)
    else
      var step := SelectStep(io.script);
      match step.result
      case Err(e) => (Threw(e), io.(script := step.rest))
      case Ok(sel) =>
        if sel.count == 0 then (Threw(SelectFailed), io.(script := step.rest))
        else
          var io1 := io.(script := step.rest, ready := sel.ready);
          if sel.ready.readable then
            var d := Drain(io1);
            if d.0.Threw? then d
            else
              var r := BlockForWrite(d.1);
              r
          else
            var r := BlockForWrite(io1);
            r
  }

  /** `writeFully(buffer)`: write until nothing remains, draining inbound bytes before every write
      and blocking whenever a write accepts nothing. */
  function WriteFully(io: Io, b: Buf): (r: (Status, Io, Buf))
    requires io.Valid() && |io.sessions| > 0 && b.Valid()
    decreases |io.script|
    ensures r.1.Valid() && |r.1.script| <= |io.script| && io.drained <= r.1.drained
    ensures r.2.data == b.data && r.2.cur == b.cur.(position := r.2.cur.position)
    ensures b.cur.position <= r.2.cur.position <= b.cur.limit
    ensures r.0.Normal? ==> r.2.cur.position == b.cur.limit
    ensures b.cur.position == b.cur.limit ==> r == (Normal, io, b)
  {
    if b.cur.position == b.cur.limit then (Normal, io, b)
    else
      var c := CheckForRead(io);
      if c.0.Threw? then (c.0, c.1, b)
      else
        var w := WritePass(c.1, b);
        if w.0.Threw? then w else WriteFully(w.1, w.2)
  }

  /** One pass of the loop of `writeFully` after `checkForRead`: `channel.write(buffer)`; nothing
      accepted blocks for writability, -1 is `EOFException`. The bytes the channel accepted, and
      only those, reach the current connection; a normal return has used up a reply. */
  function WritePass(io: Io, b: Buf): (r: (Status, Io, Buf))
    requires io.Valid() && |io.sessions| > 0 && b.Valid() && b.cur.position < b.cur.limit
    ensures r.1.Valid() && |r.1.script| <= |io.script| && io.drained <= r.1.drained
    ensures r.0.Normal? ==> |r.1.script| < |io.script|
    ensures r.2.data == b.data && r.2.cur == b.cur.(position := r.2.cur.position)
    ensures b.cur.position <= r.2.cur.position <= b.cur.limit
    ensures r.1.sessions == Deliver(io.sessions, b.data[b.cur.position..r.2.cur.position])
    ensures r.0.Threw? ==> r.2 == b && (r.0.error == IOFailure || r.0.error == EOFException || r.0.error == SelectFailed)
  {
    var step := WriteStep(io.script, b.cur.Remaining());
    var io1 := io.(script := step.rest);
    var p := b.cur.position;
    DeliverNothing(io.sessions);
    assert b.data[p..p] == [];
    match step.result
    case Err(e) => (Threw(e), io1, b)
    case Ok(k) =>
      if k == 0 then
        var w := BlockForWrite(io1);
        (w.0, w.1, b)
      else if k < 0 then (Threw(EOFException), io1, b)
      else (Normal, io1.(sessions := Deliver(io1.sessions, b.data[p..p + k])), b.(cur := b.cur.(position := p + k)))
  }

  /** The outcomes of one write: a count of -1 is `EOFException`, a count of 0 blocks for
      writability, a positive count moves the position past that many bytes, and any other reply
      is an I/O failure. */
  lemma WritePassOutcomes(io: Io, b: Buf)
    requires io.Valid() && |io.sessions| > 0 && b.Valid() && b.cur.position < b.cur.limit
    ensures var r := WritePass(io, b);
            && (io.script != [] && io.script[0] == Count(-1) ==>
                  r == (Threw(EOFException), io.(script := io.script[1..]), b))
            && (io.script != [] && io.script[0] == Count(0) ==>
                  r.2 == b && (r.0, r.1) == BlockForWrite(io.(script := io.script[1..])))
            && (io.script != [] && io.script[0].Count? && 0 < io.script[0].n <= b.cur.Remaining() ==>
                  r.0.Normal? && r.2.cur.position == b.cur.position + io.script[0].n)
            && (!(io.script != [] && io.script[0].Count? && -1 <= io.script[0].n <= b.cur.Remaining()) ==>
                  r == (Threw(IOFailure), io.(script := Rest(io.script)), b))
  {
    var step := WriteStep(io.script, b.cur.Remaining());
    assert step.rest == Rest(io.script);
  }

  /** `drain` uses up replies from the front of the script: every one but the last is a read of a
      positive count, and it raises `EOFException` exactly when the last reply it used was a read
      of -1. */
  lemma {:induction false} DrainReadsWhilePositive(io: Io)
    requires io.Valid()
    decreases |io.script|, 1
    ensures var r := Drain(io);
            IsSuffix(r.1.script, io.script) &&
            (r.0 == Threw(EOFException) <==> LastUsed(io.script, r.1.script) == Some(Count(-1))) &&
            (forall i :: 0 <= i < |io.script| - |r.1.script| - 1 ==> io.script[i].Count? && io.script[i].n > 0)
  {
    var step := ReadStep(io.script, io.Room());
    if io.Room() == 0 {
      assert Drain(io) == (Normal, io);
    } else if step.result.Ok? && step.result.value > 0 {
      DrainAfterPositiveRead(io);
    } else {
      assert step.rest == Rest(io.script);
      assert io.script != [] ==> LastUsed(io.script, step.rest) == Some(io.script[0]);
    }
  }

  /** The case of `DrainReadsWhilePositive` where the first read returned a positive count. */
  lemma {:induction false} DrainAfterPositiveRead(io: Io)
    requires io.Valid() && io.Room() > 0
    requires ReadStep(io.script, io.Room()).result.Ok? && ReadStep(io.script, io.Room()).result.value > 0
    decreases |io.script|, 0
    ensures var r := Drain(io);
            IsSuffix(r.1.script, io.script) &&
            (r.0 == Threw(EOFException) <==> LastUsed(io.script, r.1.script) == Some(Count(-1))) &&
            (forall i :: 0 <= i < |io.script| - |r.1.script| - 1 ==> io.script[i].Count? && io.script[i].n > 0)
  {
    var n := io.script[0].n;
    DrainGoesOn(io, n, io.(script := io.script[1..], drained := io.drained + n));
    var io1 := io.(script := io.script[1..], drained := io.drained + n);
    DrainReadsWhilePositive(io1);
    PositiveReadThen(io.script, Drain(io1).1.script);
  }

  /** Putting a positive read in front of a run of replies used up by `drain`. */
  lemma PositiveReadThen(s: seq<Reply>, rest: seq<Reply>)
    requires s != [] && s[0].Count? && s[0].n > 0 && IsSuffix(rest, s[1..])
    requires forall i :: 0 <= i < |s[1..]| - |rest| - 1 ==> s[1..][i].Count? && s[1..][i].n > 0
    ensures IsSuffix(rest, s)
    ensures LastUsed(s, rest) == Some(Count(-1)) <==> LastUsed(s[1..], rest) == Some(Count(-1))
    ensures forall i :: 0 <= i < |s| - |rest| - 1 ==> s[i].Count? && s[i].n > 0
  {
    PositivePrefix(s, |s| - |rest| - 2);
    SuffixTrans(rest, s[1..], s);
    var j := |s| - |rest| - 2;
    if j >= 0 {
      assert LastUsed(s, rest) == Some(s[j + 1]);
      assert LastUsed(s[1..], rest) == Some(s[1..][j]);
      assert s[1..][j] == s[j + 1];
    } else {
      assert LastUsed(s, rest) == Some(s[0]);
      assert LastUsed(s[1..], rest) == None;
    }
  }

  /** If `s` starts with a positive read and the `k` replies after it are positive reads, its
      first `k + 1` replies are. */
  lemma PositivePrefix(s: seq<Reply>, k: int)
    requires s != [] && s[0].Count? && s[0].n > 0 && k < |s|
    requires forall i :: 0 <= i < k ==> s[1..][i].Count? && s[1..][i].n > 0
    ensures forall i :: 0 <= i < k + 1 ==> s[i].Count? && s[i].n > 0
  {
    forall i | 1 <= i < k + 1
      ensures s[i].Count? && s[i].n > 0
    {
      assert s[i] == s[1..][i - 1];
    }
  }

  /** `blockForWrite` uses up replies from the front of the script, and when it fails with
      "failed to select" the last reply it used was a `select()` of 0. */
  lemma {:induction false} BlockForWriteFailsOnEmptySelect(io: Io)
    requires io.Valid()
    decreases |io.script|, 1
    ensures var r := BlockForWrite(io);
            IsSuffix(r.1.script, io.script) &&
            (r.0 == Threw(SelectFailed) ==> SelectedNothing(LastUsed(io.script, r.1.script)))
  {
    if !io.ready.writable {
      var step := SelectStep(io.script);
      if step.result.Ok? && step.result.value.count != 0 {
        var io1 := io.(script := step.rest, ready := step.result.value.ready);
        if step.result.value.ready.readable {
          BlockAfterDrain(io, io1);
        } else {
          assert BlockForWrite(io) == BlockForWrite(io1);
          BlockForWriteFailsOnEmptySelect(io1);
          LastUsedAfterHead(io.script, BlockForWrite(io1).1.script);
        }
      }
    }
  }

  /** Going from `s` to a suffix of `s[1..]`, the last reply used is the last one used after the
      first, or the first itself when nothing else was used. */
  lemma LastUsedAfterHead(s: seq<Reply>, rest: seq<Reply>)
    requires s != [] && IsSuffix(rest, s[1..])
    ensures IsSuffix(rest, s)
    ensures LastUsed(s, rest) == if |rest| < |s| - 1 then LastUsed(s[1..], rest) else Some(s[0])
  {
    SuffixTrans(rest, s[1..], s);
  }

  /** The case of `BlockForWriteFailsOnEmptySelect` where a non-empty select found the channel readable. */
  lemma {:induction false} BlockAfterDrain(io: Io, io1: Io)
    requires io.Valid() && !io.ready.writable
    requires SelectStep(io.script).result.Ok? && SelectStep(io.script).result.value.count != 0
    requires io1 == io.(script := SelectStep(io.script).rest, ready := SelectStep(io.script).result.value.ready)
    requires io1.ready.readable
    decreases |io.script|, 0
    ensures var r := BlockForWrite(io);
            IsSuffix(r.1.script, io.script) &&
            (r.0 == Threw(SelectFailed) ==> SelectedNothing(LastUsed(io.script, r.1.script)))
  {
    assert io1.script == io.script[1..];
    DrainReadsWhilePositive(io1);
    var d := Drain(io1);
    LastUsedAfterHead(io.script, d.1.script);
    if d.0.Normal? {
      assert BlockForWrite(io) == BlockForWrite(d.1);
      BlockForWriteFailsOnEmptySelect(d.1);
      var r := BlockForWrite(d.1);
      SuffixTrans(r.1.script, d.1.script, io1.script);
      LastUsedAfterHead(io.script, r.1.script);
      if |r.1.script| < |d.1.script| {
        assert LastUsed(io1.script, r.1.script) == LastUsed(d.1.script, r.1.script);
      }
    }
  }

  ghost predicate WriteFullyDelivered(io: Io, b: Buf, r: (Status, Io, Buf))
    requires |io.sessions| > 0 && b.Valid() && b.cur.position <= r.2.cur.position <= |b.data|
  {
    && r.1.sessions == Deliver(io.sessions, b.data[b.cur.position..r.2.cur.position])
    && (r.0.Normal? <==> r.2.cur.position == b.cur.limit)
    && (r.0.Threw? ==> (r.0.error == IOFailure || r.0.error == EOFException || r.0.error == SelectFailed))
  }

  /** What `writeFully` does to the connection: the bytes the channel accepted reach the current
      connection in order and nothing else is sent; `writeFully` returns normally exactly when
      every pending byte was accepted; otherwise it fails with an I/O error, an end of stream or a
      failed select. */
  lemma {:induction false} WriteFullyDeliversInOrder(io: Io, b: Buf)
    requires io.Valid() && |io.sessions| > 0 && b.Valid()
    decreases |io.script|
    ensures WriteFullyDelivered(io, b, WriteFully(io, b))
  {
    var p := b.cur.position;
    DeliverNothing(io.sessions);
    assert b.data[p..p] == [];
    if p < b.cur.limit {
      var c := CheckForRead(io);
      if c.0.Normal? {
        var w := WritePass(c.1, b);
        if w.0.Normal? {
          WriteFullyDeliversInOrder(w.1, w.2);
          var q := w.2.cur.position;
          var r := WriteFully(w.1, w.2);
          DeliverTwice(io.sessions, b.data[p..q], b.data[q..r.2.cur.position]);
          SlicesJoin(b.data, p, q, r.2.cur.position);
        }
      }
    }
  }
}
