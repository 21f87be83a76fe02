/** The part of `java.nio.ByteBuffer` the stream relies on: a fixed backing array with a
    position, a limit and a mark that can be set, reset and copied. */
module Buffers {
  import opened Bytes

  /** The cursor of a buffer. `mark == -1` means no mark is set. */
  datatype Cursor = Cursor(position: nat, limit: nat, mark: int) {

    /** Java's buffer invariant `-1 <= mark <= position <= limit <= capacity`. */
    predicate Valid(capacity: nat)
    {
      -1 <= mark <= position <= limit <= capacity
    }

    function Remaining(): (n: nat)
      requires position <= limit
      ensures position + n == limit
    {
      limit - position
    }

    /** `mark()`: remember the current position. */
    function Marked(): (c: Cursor)
      ensures c.position == position && c.limit == limit && c.mark == position
    {
      this.(mark := position)
    }

    /** `reset()`: go back to the mark. */
    function Rewound(): (c: Cursor)
      requires 0 <= mark
      ensures c.position == mark && c.limit == limit && c.mark == mark
    {
      this.(position := mark)
    }
  }

  /** The value of a buffer: its bytes and its cursor. */
  datatype Buf = Buf(data: seq<byte>, cur: Cursor) {
    predicate Valid()
    {
      cur.Valid(|data|)
    }

    /** The bytes between the position and the limit. */
    function Pending(): (s: seq<byte>)
      requires Valid()
      ensures |s| == cur.Remaining()
    {
      data[cur.position..cur.limit]
    }
  }

  /** `ByteBuffer.copy` of the stream: a fresh buffer holding exactly the pending bytes of `b`,
      positioned at 0 with nothing beyond them and no mark. */
  function CopyOf(b: Buf): (c: Buf)
    requires b.Valid()
    ensures c.Valid() && c.cur.position == 0 && c.cur.mark == -1
    ensures c.cur.limit == |c.data| == b.cur.Remaining()
    ensures forall i :: 0 <= i < |c.data| ==> c.data[i] == b.data[b.cur.position + i]
  {
    Buf(b.Pending(), Cursor(0, b.cur.Remaining(), -1))
  }

  /** `ByteBuffer.wrap(array, offset, length)` as a value: the pending bytes are the given slice. */
  function Wrapped(data: seq<byte>, offset: nat, length: nat): (b: Buf)
    requires offset + length <= |data|
    ensures b.Valid() && b.data == data && b.cur.mark == -1
    ensures b.Pending() == data[offset..offset + length]
  {
    Buf(data, Cursor(offset, offset + length, -1))
  }

  class ByteBuffer {
    const data: array<byte>
    var position: nat
    var limit: nat
    var mark: int

    ghost predicate Valid()
      reads this
    {
      Cur().Valid(data.Length)
    }

    function Cur(): Cursor
      reads this
    {
      Cursor(position, limit, mark)
    }

    /** The buffer as a value. */
    function View(): (b: Buf)
      reads this, data
      ensures b.cur == Cur() && b.data == data[..]
    {
      Buf(data[..], Cur())
    }

    /** `ByteBuffer.allocate(capacity)`. */
    constructor Allocate(capacity: nat)
      ensures fresh(data) && data.Length == capacity
      ensures Cur() == Cursor(0, capacity, -1) && Valid()
    {
      data := new byte[capacity](_ => 0);
      position, limit, mark := 0, capacity, -1;
    }

    /** `ByteBuffer.wrap(array, offset, length)`: a buffer over `a` itself, not a copy. */
    constructor Wrap(a: array<byte>, offset: nat, length: nat)
      requires offset + length <= a.Length
      ensures data == a && Cur() == Cursor(offset, offset + length, -1) && Valid()
    {
      data := a;
      position, limit, mark := offset, offset + length, -1;
    }

    method Remaining() returns (n: nat)
      requires Valid()
      ensures n == Cur().Remaining()
    {
      n := limit - position;
    }

    method HasRemaining() returns (b: bool)
      requires Valid()
      ensures b <==> Cur().Remaining() > 0
    {
      b := position < limit;
    }

    method Mark()
      requires Valid()
      modifies this
      ensures Valid() && Cur() == old(Cur()).Marked()
    {
      mark := position;
    }

    /** `reset()`. Java throws `InvalidMarkException` when no mark is set; every caller here has set one. */
    method Reset()
      requires Valid() && 0 <= mark
      modifies this
      ensures Valid() && Cur() == old(Cur()).Rewound()
    {
      position := mark;
    }

    /** `flip()`: the limit becomes the position, the position 0, and the mark is discarded. */
    method Flip()
      requires Valid()
      modifies this
      ensures Valid() && Cur() == Cursor(0, old(position), -1)
    {
      limit, position, mark := position, 0, -1;
    }

    /** `asReadOnlyBuffer()`: a new buffer object over the same bytes with its own cursor, so that
        reading through it leaves this buffer's cursor alone. */
    method AsReadOnlyBuffer() returns (view: ByteBuffer)
      requires Valid()
      ensures fresh(view) && view.data == data && view.Cur() == Cur() && view.Valid()
    {
      view := new ByteBuffer.Wrap(data, 0, data.Length);
      view.position, view.limit, view.mark := position, limit, mark;
    }

    /** `put(src)`: copy the pending bytes of `src` into this buffer at its position; both positions
        advance by that many bytes. Java throws when `src` does not fit; the stream never lets that happen. */
    method Put(src: ByteBuffer)
      requires Valid() && src.Valid() && src != this && src.data != data
      requires src.Cur().Remaining() <= Cur().Remaining()
      modifies this, data, src
      ensures Valid() && src.Valid()
      ensures data[..] == old(data[..position]) + old(src.View().Pending()) + old(data[position + src.Cur().Remaining()..])
      ensures position == old(position + src.Cur().Remaining()) && limit == old(limit) && mark == old(mark)
      ensures src.Cur() == old(src.Cur().(position := src.limit))
    {
      ghost var before := data[..];
      ghost var pending := src.View().Pending();
      var n := src.limit - src.position;
      var start := position;
      for k := 0 to n
        invariant position == start + k && src.position == old(src.position) + k
        invariant src.limit == old(src.limit) && src.mark == old(src.mark) && limit == old(limit) && mark == old(mark)
        invariant forall j :: 0 <= j < data.Length ==>
                    data[j] == if start <= j < start + k then pending[j - start] else before[j]
      {
        data[position] := src.data[src.position];
        position := position + 1;
        src.position := src.position + 1;
      }
      assert data[..] == before[..start] + pending + before[start + n..];
    }
  }
}
