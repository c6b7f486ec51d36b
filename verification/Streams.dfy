/** Byte streams behind a descriptor, and the loops that transfer whole buffers over short reads and
    writes. */
module Streams {
  import opened Bytes

  /** What a descriptor still has to deliver and what was written to it.  On a healthy one a read fails
      only at the end of the data and a write never fails. */
  class Fd {
    var input: Bytes
    var output: Bytes
    var healthy: bool

    constructor (data: Bytes, ok: bool)
      ensures input == data && output == [] && healthy == ok
    {
      input, output, healthy := data, [], ok;
    }

    /** adb_read: any non-empty prefix of at most len bytes, 0 at the end, -1 on an error. */
    method Read(len: nat) returns (r: int, got: Bytes)
      requires len > 0
      modifies this`input
      ensures -1 <= r <= len && |got| == (if r > 0 then r else 0) && old(input) == got + input
      ensures r == 0 ==> input == []
      ensures healthy && old(input) != [] ==> r > 0
      ensures healthy ==> r >= 0
    {
      var k: nat, broken: bool := *, *;
      if broken && !healthy { return -1, []; }
      if input == [] { return 0, []; }
      if !(1 <= k <= len && k <= |input|) { k := 1; }
      r, got := k, input[..k];
      input := input[k..];
    }

    /** adb_write: takes any non-empty prefix, or fails. */
    method Write(data: Bytes) returns (r: int)
      requires data != []
      modifies this`output
      ensures -1 <= r <= |data|
      ensures output == old(output) + (if r > 0 then data[..r] else [])
      ensures healthy ==> r > 0
    {
      var k: nat, broken: bool := *, *;
      if broken && !healthy { return -1; }
      if !(1 <= k <= |data|) { k := 1; }
      r := k;
      output := output + data[..k];
    }
  }

  /** readx. */
  method Readx(fd: Fd, len: nat) returns (ok: bool, got: Bytes)
    modifies fd`input
    ensures old(fd.input) == got + fd.input && |got| <= len
    ensures ok <==> |got| == len
    ensures fd.healthy ==> (ok <==> len <= |old(fd.input)|)
  {
    ok, got := true, [];
    while |got| < len
      invariant |got| <= len && old(fd.input) == got + fd.input
    {
      var r, part := fd.Read(len - |got|);
      if r <= 0 { return false, got; }
      got := got + part;
    }
  }

  /** writex. */
  method Writex(fd: Fd, data: Bytes) returns (ok: bool)
    modifies fd`output
    ensures ok ==> fd.output == old(fd.output) + data
    ensures !ok ==> exists n :: 0 <= n < |data| && fd.output == old(fd.output) + data[..n]
    ensures fd.healthy ==> ok
  {
    var n := 0;
    assert data[..0] == [];
    while n < |data|
      invariant 0 <= n <= |data| && fd.output == old(fd.output) + data[..n]
    {
      var r := fd.Write(data[n..]);
      if r <= 0 { return false; }
      assert data[..n] + data[n..][..r] == data[..n + r];
      n := n + r;
    }
    assert data[..n] == data;
    ok := true;
  }
}
