/** Byte buffers (`const_shared_buffer`, `byte_vec`) as immutable sequences, and their concatenation. */
module Bytes {

  newtype Byte = x: int | 0 <= x < 256

  type Buf = seq<Byte>

  datatype Option<+T> = None | Some(value: T)

  /** The byte stream made by sending the buffers one after the other. */
  function Concat(bufs: seq<Buf>): Buf {
    if |bufs| == 0 then [] else bufs[0] + Concat(bufs[1..])
  }

  lemma Assoc<T>(a: seq<T>, b: seq<T>, c: seq<T>)
    ensures (a + b) + c == a + (b + c)
  {
  }

  lemma {:induction false} ConcatAppend(a: seq<Buf>, b: seq<Buf>)
    ensures Concat(a + b) == Concat(a) + Concat(b)
  {
    if |a| == 0 {
      assert a + b == b;
    } else {
      assert (a + b)[1..] == a[1..] + b;
      ConcatAppend(a[1..], b);
    }
  }

  lemma ConcatLast(a: seq<Buf>, x: Buf)
    ensures Concat(a + [x]) == Concat(a) + x
  {
    ConcatAppend(a, [x]);
    assert Concat([x]) == x;
  }

  lemma ConcatPrefix(a: seq<Buf>, b: seq<Buf>)
    requires a <= b
    ensures Concat(a) <= Concat(b)
  {
    ConcatAppend(a, b[|a|..]);
    assert b == a + b[|a|..];
  }
}
