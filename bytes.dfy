/** Java's signed 8-bit `byte` and the narrowing cast `(byte) i` of `write(int)`. */
module Bytes {

  /** A Java `byte`: a signed 8-bit value. */
  newtype byte = b: int | -128 <= b < 128

  /** The narrowing conversion `(byte) i`: the low eight bits of `i`, read as a signed value. */
  function ToByte(i: int): byte
  {
    var low := i % 256;
    if low < 128 then low as byte else (low - 256) as byte
  }

  /** Narrowing keeps the low eight bits: the byte differs from `i` by a multiple of 256. */
  lemma ToByteLowBits(i: int)
    ensures (ToByte(i) as int - i) % 256 == 0
  {
    var low := i % 256;
    assert i == 256 * (i / 256) + low;
  }

  /** Narrowing is the identity on values that already fit in a byte, so `write(b)` for such a `b`
      sends exactly `b`. */
  lemma ToByteKeepsBytes(i: int)
    requires -128 <= i < 128
    ensures ToByte(i) as int == i
  {
    ToByteLowBits(i);
    var b := ToByte(i);
    assert -256 < b as int - i < 256;
  }

  /** Narrowing only looks at `i` modulo 256: every int congruent to `i` is sent as the same byte. */
  lemma ToByteModulo(i: int, k: int)
    ensures ToByte(i + 256 * k) == ToByte(i)
  {
    assert (i + 256 * k) % 256 == i % 256;
  }

  /** Text made only of ASCII characters. */
  predicate IsAscii(text: string)
  {
    forall i :: 0 <= i < |text| ==> text[i] as int < 128
  }

  /** `String.getBytes()` on ASCII text: one byte per character, its code. */
  function Ascii(s: string): (r: seq<byte>)
    requires IsAscii(s)
    ensures |r| == |s| && forall i :: 0 <= i < |s| ==> r[i] as int == s[i] as int
  {
    seq(|s|, i requires 0 <= i < |s| => s[i] as int as byte)
  }

  /** The bytes of a text are the bytes of its pieces, in order. */
  lemma AsciiAppend(a: string, b: string)
    requires IsAscii(a) && IsAscii(b)
    ensures IsAscii(a + b) && Ascii(a + b) == Ascii(a) + Ascii(b)
  {
    assert forall i :: 0 <= i < |a + b| ==> (a + b)[i] == if i < |a| then a[i] else b[i - |a|];
  }
}
