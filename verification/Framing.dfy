/** Packets on a byte stream: the header with its magic and checksum, and the loops that send and
    receive them. */
module Framing {
  import opened Bytes
  import opened Streams

  const HEADER := 24

  /** A packet; the length word of its header is the length of its data. */
  datatype Packet = Packet(command: Word, arg0: Word, arg1: Word, check: Word, magic: Word, data: Bytes)

  // ---------- the magic ----------

  /** Exclusive or, bit by bit. */
  function Xor(a: nat, b: nat): (c: nat)
    decreases a + b
  {
    if a == 0 && b == 0 then 0 else 2 * Xor(a / 2, b / 2) + if a % 2 != b % 2 then 1 else 0
  }

  function Power2(n: nat): (p: nat)
    ensures p > 0
  {
    if n == 0 then 1 else 2 * Power2(n - 1)
  }

  lemma EightMore(n: nat)
    ensures Power2(n + 8) == 256 * Power2(n)
  {
    assert Power2(n + 4) == 16 * Power2(n) by { assert Power2(n + 2) == 4 * Power2(n); }
    assert Power2(n + 6) == 4 * Power2(n + 4);
  }

  lemma Power2Of32()
    ensures Power2(32) == TWO32
  {
    EightMore(0);
    EightMore(8);
    EightMore(16);
    EightMore(24);
  }

  /** Exclusive or with n ones is the complement in n bits. */
  lemma {:induction false} XorOnes(c: nat, n: nat)
    requires c < Power2(n)
    ensures Xor(c, Power2(n) - 1) == Power2(n) - 1 - c
  {
    if n > 0 { XorOnes(c / 2, n - 1); }
  }

  /** command ^ 0xffffffff. */
  function Magic(command: Word): (m: Word)
    ensures m == 0xffff_ffff - command
  {
    Power2Of32();
    XorOnes(command, 32);
    Xor(command, 0xffff_ffff)
  }

  // ---------- the checksum ----------

  function Total(data: Bytes): (n: nat)
    ensures n <= 255 * |data|
  {
    if data == [] then 0 else Total(data[..|data| - 1]) + data[|data| - 1]
  }

  /** The summing loop of send_packet and check_data, in 32-bit arithmetic. */
  method Checksum(data: Bytes) returns (sum: Word)
    ensures sum == Total(data) % TWO32
  {
    sum := 0;
    var i := 0;
    while i < |data|
      invariant 0 <= i <= |data| && sum == Total(data[..i]) % TWO32
    {
      assert data[..i + 1][..i] == data[..i];
      sum := (sum + data[i]) % TWO32;
      i := i + 1;
    }
    assert data[..i] == data;
  }

  /** The checksum of a payload never wraps. */
  lemma ChecksumIsTotal(data: Bytes)
    requires |data| <= MAX_PAYLOAD
    ensures Total(data) % TWO32 == Total(data)
  {
  }

  lemma {:induction false} TotalUpdate(data: Bytes, i: nat, x: Byte)
    requires i < |data|
    ensures Total(data[i := x]) == Total(data) - data[i] + x
  {
    var n := |data| - 1;
    var now := data[i := x];
    if i == n {
      assert now[..n] == data[..n];
    } else {
      TotalUpdate(data[..n], i, x);
      assert now[..n] == data[..n][i := x];
    }
  }

  // ---------- frames ----------

  function Header(p: Packet): (h: Bytes)
    requires |p.data| <= MAX_PAYLOAD
    ensures |h| == HEADER
  {
    PutWord(p.command) + PutWord(p.arg0) + PutWord(p.arg1) + PutWord(|p.data|) + PutWord(p.check) + PutWord(p.magic)
  }

  function Frame(p: Packet): (f: Bytes)
    requires |p.data| <= MAX_PAYLOAD
    ensures |f| == HEADER + |p.data|
  {
    Header(p) + p.data
  }

  /** What send_packet makes of a packet. */
  function Stamped(p: Packet): (q: Packet) {
    p.(check := Total(p.data) % TWO32, magic := Magic(p.command))
  }

  datatype Parsed = Got(p: Packet, rest: Bytes) | Bad

  /** Word i of a header. */
  function Field(s: Bytes, i: nat): (w: Word)
    requires i < 6 && |s| >= HEADER
  {
    GetWord(s[4 * i..4 * i + 4])
  }

  /** The first packet of a stream. */
  function Parse(s: Bytes): (r: Parsed)
    ensures r.Got? ==> |r.rest| < |s|
  {
    if |s| < HEADER then Bad
    else if Field(s, 5) != Magic(Field(s, 0)) then Bad
    else
      var n := Field(s, 3);
      if n > MAX_PAYLOAD || |s| < HEADER + n then Bad
      else
        var data := s[HEADER..HEADER + n];
        if Field(s, 4) != Total(data) % TWO32 then Bad
        else Got(Packet(Field(s, 0), Field(s, 1), Field(s, 2), Field(s, 4), Field(s, 5), data), s[HEADER + n..])
  }

  function ParseAll(s: Bytes): seq<Packet>
    decreases |s|
  {
    match Parse(s) case Bad => [] case Got(p, rest) => [p] + ParseAll(rest)
  }

  lemma FieldOfHeader(p: Packet, tail: Bytes)
    requires |p.data| <= MAX_PAYLOAD
    ensures Field(Header(p) + tail, 0) == p.command
    ensures Field(Header(p) + tail, 1) == p.arg0
    ensures Field(Header(p) + tail, 2) == p.arg1
    ensures Field(Header(p) + tail, 3) == |p.data|
    ensures Field(Header(p) + tail, 4) == p.check
    ensures Field(Header(p) + tail, 5) == p.magic
  {
    hide GetWord, PutWord;
    var s := Header(p) + tail;
    assert s[0..4] == PutWord(p.command);
    assert s[4..8] == PutWord(p.arg0);
    assert s[8..12] == PutWord(p.arg1);
    assert s[12..16] == PutWord(|p.data|);
    assert s[16..20] == PutWord(p.check);
    assert s[20..24] == PutWord(p.magic);
    GetPut(p.command);
    GetPut(p.arg0);
    GetPut(p.arg1);
    GetPut(|p.data|);
    GetPut(p.check);
    GetPut(p.magic);
  }

  /** A frame is accepted, whatever follows it, exactly when its magic and checksum are right. */
  lemma ParseFrame(p: Packet, rest: Bytes)
    requires |p.data| <= MAX_PAYLOAD
    ensures Parse(Frame(p) + rest) == if Stamped(p) == p then Got(p, rest) else Bad
  {
    hide Field, Header, Total;
    var s := Frame(p) + rest;
    assert s == Header(p) + (p.data + rest);
    FieldOfHeader(p, p.data + rest);
    assert s[HEADER..HEADER + |p.data|] == p.data && s[HEADER + |p.data|..] == rest;
  }

  /** An OKAY from id 1 to id 7, byte by byte. */
  lemma OkayOnTheWire()
    ensures Frame(Stamped(Packet(0x59414b4f, 1, 7, 0, 0, []))) ==
              [0x4f, 0x4b, 0x41, 0x59, 1, 0, 0, 0, 7, 0, 0, 0, 0, 0, 0, 0, 0, 0, 0, 0, 0xb0, 0xb4, 0xbe, 0xa6]
  {
    hide PutWord, Xor, Power2;
    WireWords();
    var p := Stamped(Packet(0x59414b4f, 1, 7, 0, 0, []));
    assert p.magic == 0xa6beb4b0 && p.check == 0;
    assert Frame(p) == Header(p);
  }

  lemma WireWords()
    ensures PutWord(0x59414b4f) == [0x4f, 0x4b, 0x41, 0x59]
    ensures PutWord(0xa6beb4b0) == [0xb0, 0xb4, 0xbe, 0xa6]
    ensures PutWord(0) == [0, 0, 0, 0] && PutWord(1) == [1, 0, 0, 0] && PutWord(7) == [7, 0, 0, 0]
  {
  }

  function Frames(ps: seq<Packet>): Bytes
    requires forall i :: 0 <= i < |ps| ==> |ps[i].data| <= MAX_PAYLOAD
  {
    if ps == [] then [] else Frame(ps[0]) + Frames(ps[1..])
  }

  function StampedAll(ps: seq<Packet>): (qs: seq<Packet>)
    ensures |qs| == |ps| && forall i :: 0 <= i < |ps| ==> qs[i] == Stamped(ps[i])
  {
    seq(|ps|, i requires 0 <= i < |ps| => Stamped(ps[i]))
  }

  /** Packets stamped and written one after the other are all recovered, in order. */
  lemma {:induction false} FramesRoundTrip(ps: seq<Packet>)
    requires forall i :: 0 <= i < |ps| ==> |ps[i].data| <= MAX_PAYLOAD
    ensures ParseAll(Frames(StampedAll(ps))) == StampedAll(ps)
  {
    hide Frame, Parse, Total;
    var qs := StampedAll(ps);
    if ps == [] {
      assert Parse([]) == Bad by { NothingToParse(); }
    } else {
      assert qs[1..] == StampedAll(ps[1..]);
      StampTwice(ps[0]);
      ParseFrame(qs[0], Frames(qs[1..]));
      FramesRoundTrip(ps[1..]);
    }
  }

  lemma NothingToParse()
    ensures Parse([]) == Bad
  {
  }

  lemma StampTwice(p: Packet)
    ensures Stamped(Stamped(p)) == Stamped(p) && Stamped(p).data == p.data
  {
  }

  // ---------- damage ----------

  /** A payload replaced by another of the same length passes exactly when the byte totals agree. */
  lemma PayloadAccepted(p: Packet, data: Bytes, rest: Bytes)
    requires Stamped(p) == p && |data| == |p.data| <= MAX_PAYLOAD
    ensures Parse(Header(p) + data + rest) == if Total(data) == Total(p.data) then Got(p.(data := data), rest) else Bad
  {
    hide Total, Header, Parse;
    SameHeader(p, data);
    ChecksumIsTotal(data);
    ChecksumIsTotal(p.data);
    ParseFrame(p.(data := data), rest);
  }

  lemma SameHeader(p: Packet, data: Bytes)
    requires |data| == |p.data| <= MAX_PAYLOAD
    ensures Header(p) == Header(p.(data := data))
  {
  }

  /** Word i of the header of p. */
  function WordOf(p: Packet, i: nat): (w: Word)
    requires |p.data| <= MAX_PAYLOAD
  {
    match i case 0 => p.command case 1 => p.arg0 case 2 => p.arg1 case 3 => |p.data| case 4 => p.check case _ => p.magic
  }

  /** The packet with word i of its header replaced; the length word has no field of its own. */
  function WithWord(p: Packet, i: nat, w: Word): (q: Packet)
    requires |p.data| <= MAX_PAYLOAD
    ensures q.data == p.data
  {
    match i
    case 0 => p.(command := w)
    case 1 => p.(arg0 := w)
    case 2 => p.(arg1 := w)
    case 3 => p
    case 4 => p.(check := w)
    case _ => p.(magic := w)
  }

  /** Damaging a byte of a header word is sending another word. */
  lemma DamagedWord(p: Packet, i: nat, j: nat, x: Byte)
    requires |p.data| <= MAX_PAYLOAD && i < 6 && i != 3 && j < 4 && x != Header(p)[4 * i + j]
    ensures exists w: Word :: w != WordOf(p, i) && Header(p)[4 * i + j := x] == Header(WithWord(p, i, w))
  {
    hide GetWord, PutWord, Total;
    var b := PutWord(WordOf(p, i));
    var w := GetWord(b[j := x]);
    assert Header(p)[4 * i + j] == b[j];
    PutGet(b[j := x]);
    GetPut(WordOf(p, i));
    WordChanges(b, j, x);
    assert Header(p)[4 * i + j := x] == Header(WithWord(p, i, w));
  }

  /** One damaged byte anywhere but in the length word: the frame still passes exactly when the byte is
      in one of the two argument words, which nothing protects. */
  lemma OneByteDamaged(p: Packet, k: nat, x: Byte, rest: Bytes)
    requires Stamped(p) == p && |p.data| <= MAX_PAYLOAD
    requires k < HEADER + |p.data| && !(12 <= k < 16) && x != Frame(p)[k]
    ensures Parse(Frame(p)[k := x] + rest).Got? <==> 4 <= k < 12
  {
    hide Header, Total, Parse;
    if k >= HEADER {
      var data := p.data[k - HEADER := x];
      assert Frame(p)[k := x] == Header(p) + data;
      TotalUpdate(p.data, k - HEADER, x);
      PayloadAccepted(p, data, rest);
    } else {
      DamagedWord(p, k / 4, k % 4, x);
      var w: Word :| w != WordOf(p, k / 4) && Header(p)[k := x] == Header(WithWord(p, k / 4, w));
      var q := WithWord(p, k / 4, w);
      assert Frame(p)[k := x] == Frame(q);
      ParseFrame(q, rest);
    }
  }

  // ---------- sending and receiving ----------

  /** send_packet up to the queueing. */
  method Stamp(p: Packet) returns (q: Packet)
    ensures q == Stamped(p)
  {
    var sum := Checksum(p.data);
    q := p.(magic := Magic(p.command), check := sum);
  }

  /** remote_write of a local transport. */
  method RemoteWrite(p: Packet, fd: Fd) returns (ok: bool)
    requires |p.data| <= MAX_PAYLOAD
    modifies fd`output
    ensures ok ==> fd.output == old(fd.output) + Frame(p)
    ensures !ok ==> exists n :: 0 <= n < |Frame(p)| && fd.output == old(fd.output) + Frame(p)[..n]
    ensures fd.healthy ==> ok
  {
    ok := Writex(fd, Frame(p));
  }

  /** remote_read of a local transport, with check_header and check_data. */
  method RemoteRead(fd: Fd) returns (r: Option<Packet>)
    modifies fd`input
    ensures r.Some? ==> Parse(old(fd.input)) == Got(r.value, fd.input)
    ensures r.None? && fd.healthy ==> Parse(old(fd.input)) == Bad
  {
    hide Field, Total;
    ghost var s := fd.input;
    var ok, h := Readx(fd, HEADER);
    if !ok { return None; }
    FieldsOfPrefix(s, h);
    if Field(h, 5) != Magic(Field(h, 0)) || Field(h, 3) > MAX_PAYLOAD { return None; }
    ghost var s1 := fd.input;
    var ok1, data := Readx(fd, Field(h, 3));
    if !ok1 { return None; }
    assert s[HEADER..HEADER + |data|] == data && s[HEADER + |data|..] == fd.input;
    var sum := Checksum(data);
    if sum != Field(h, 4) { return None; }
    r := Some(Packet(Field(h, 0), Field(h, 1), Field(h, 2), Field(h, 4), Field(h, 5), data));
  }

  lemma FieldsOfPrefix(s: Bytes, h: Bytes)
    requires |h| == HEADER && h <= s
    ensures forall i :: 0 <= i < 6 ==> Field(s, i) == Field(h, i)
  {
    hide GetWord;
    forall i | 0 <= i < 6 ensures Field(s, i) == Field(h, i) {
      assert s[4 * i..4 * i + 4] == h[4 * i..4 * i + 4];
    }
  }

  /** The receiving loop of the output thread: packets are read until one cannot be. */
  method ReceiveAll(fd: Fd) returns (ps: seq<Packet>)
    modifies fd`input
    ensures ps <= ParseAll(old(fd.input))
    ensures fd.healthy ==> ps == ParseAll(old(fd.input))
  {
    hide Parse;
    ps := [];
    while true
      invariant ParseAll(old(fd.input)) == ps + ParseAll(fd.input)
      decreases |fd.input|
    {
      ghost var s := fd.input;
      var r := RemoteRead(fd);
      if r.None? { return; }
      assert ParseAll(s) == [r.value] + ParseAll(fd.input);
      ps := ps + [r.value];
    }
  }

  /** The sending side: each packet is stamped and written. */
  method SendAll(ps: seq<Packet>, fd: Fd) returns (ok: bool)
    requires forall i :: 0 <= i < |ps| ==> |ps[i].data| <= MAX_PAYLOAD
    modifies fd`output
    ensures ok ==> fd.output == old(fd.output) + Frames(StampedAll(ps))
    ensures fd.healthy ==> ok
  {
    hide Frame, Total;
    var i := 0;
    while i < |ps|
      invariant 0 <= i <= |ps|
      invariant fd.output == old(fd.output) + Frames(StampedAll(ps)[..i])
    {
      var q := Stamp(ps[i]);
      var sent := RemoteWrite(q, fd);
      if !sent { return false; }
      FramesAppend(StampedAll(ps)[..i], q);
      assert StampedAll(ps)[..i + 1] == StampedAll(ps)[..i] + [q];
      i := i + 1;
    }
    assert StampedAll(ps)[..i] == StampedAll(ps);
    ok := true;
  }

  lemma {:induction false} FramesAppend(ps: seq<Packet>, q: Packet)
    requires forall i :: 0 <= i < |ps| ==> |ps[i].data| <= MAX_PAYLOAD
    requires |q.data| <= MAX_PAYLOAD
    ensures Frames(ps + [q]) == Frames(ps) + Frame(q)
  {
    hide Frame;
    if ps == [] {
      assert ps + [q] == [q];
    } else {
      FramesAppend(ps[1..], q);
      assert (ps + [q])[1..] == ps[1..] + [q];
    }
  }

  /** Over a healthy stream, cut into reads and writes in any way, the packets sent are the packets
      received. */
  method Transfer(ps: seq<Packet>, from: Fd, to: Fd) returns (qs: seq<Packet>)
    requires forall i :: 0 <= i < |ps| ==> |ps[i].data| <= MAX_PAYLOAD
    requires from != to && from.healthy && to.healthy && from.output == []
    modifies from, to
    ensures qs == StampedAll(ps)
  {
    hide Frame, Parse, Total;
    var ok := SendAll(ps, from);
    to.input := from.output;
    FramesRoundTrip(ps);
    assert from.output == Frames(StampedAll(ps));
    qs := ReceiveAll(to);
  }
}
