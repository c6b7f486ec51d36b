/** Bytes, optional values, little-endian words and the packet size, shared by every module. */
module Bytes {
  datatype Option<+T> = None | Some(value: T)

  type Byte = b: int | 0 <= b < 256
  type Bytes = seq<Byte>

  const MAX_PAYLOAD: nat := 4096

  function Bit(b: bool): nat { if b then 1 else 0 }

  function Concat(bs: seq<Bytes>): Bytes {
    if bs == [] then [] else bs[0] + Concat(bs[1..])
  }

  lemma {:induction false} ConcatAppend(a: seq<Bytes>, b: seq<Bytes>)
    ensures Concat(a + b) == Concat(a) + Concat(b)
  {
    if a == [] {
      assert a + b == b;
    } else {
      assert (a + b)[1..] == a[1..] + b;
      ConcatAppend(a[1..], b);
      assert Concat(a + b) == a[0] + (Concat(a[1..]) + Concat(b));
    }
  }

  // ---------- 32-bit words, little-endian ----------

  const TWO32 := 0x1_0000_0000

  type Word = w: int | 0 <= w < TWO32

  function PutWord(w: Word): (b: Bytes)
    ensures |b| == 4
  {
    [w % 256, w / 256 % 256, w / 256 / 256 % 256, w / 256 / 256 / 256]
  }

  function GetWord(b: Bytes): (w: Word)
    requires |b| == 4
  {
    var b0: int, b1: int, b2: int, b3: int := b[0], b[1], b[2], b[3];
    b0 + 256 * b1 + 65536 * b2 + 16777216 * b3
  }

  lemma GetPut(w: Word)
    ensures GetWord(PutWord(w)) == w
  {
  }

  lemma PutGet(b: Bytes)
    requires |b| == 4
    ensures PutWord(GetWord(b)) == b
  {
    var b0: int, b1: int, b2: int, b3: int := b[0], b[1], b[2], b[3];
    var q1 := b1 + 256 * (b2 + 256 * b3);
    assert GetWord(b) == 256 * q1 + b0;
    Shift(q1, b0);
    Shift(b2 + 256 * b3, b1);
    Shift(b3, b2);
  }

  lemma Shift(q: nat, r: nat)
    requires r < 256
    ensures (256 * q + r) / 256 == q && (256 * q + r) % 256 == r
  {
  }

  /** The word changes when any one of its bytes does. */
  lemma WordChanges(b: Bytes, k: nat, x: Byte)
    requires |b| == 4 && k < 4 && x != b[k]
    ensures GetWord(b[k := x]) != GetWord(b)
  {
  }
}
