/** The smart socket: it reassembles a hex-length-prefixed service request from whatever pieces the
    client's bytes arrive in, and opens that service on the remote side. */
module SmartSocket {
  import opened Bytes

  // ---------- hex lengths ----------

  function Digit(c: Byte): (d: Option<int>)
    ensures d.Some? ==> 0 <= d.value < 16
  {
    if '0' as int <= c <= '9' as int then Some(c - '0' as int)
    else if 'a' as int <= c <= 'f' as int then Some(c - 'a' as int + 10)
    else if 'A' as int <= c <= 'F' as int then Some(c - 'A' as int + 10)
    else None
  }

  /** Upper and lower case mean the same; anything but the 22 digits means nothing. */
  lemma DigitCases(c: Byte)
    ensures 'A' as int <= c <= 'F' as int ==> Digit(c) == Digit(c + 32)
    ensures Digit(c).Some? <==> (exists d :: 0 <= d < 16 && c == DigitOf(d)) || 'A' as int <= c <= 'F' as int
  {
    if Digit(c).Some? && !('A' as int <= c <= 'F' as int) { assert c == DigitOf(Digit(c).value); }
  }

  ghost predicate AllDigits(s: Bytes) { forall i :: 0 <= i < |s| ==> Digit(s[i]).Some? }

  /** The number a digit string writes. */
  ghost function HexValue(s: Bytes): (n: nat)
    requires AllDigits(s)
  {
    if s == [] then 0 else 16 * HexValue(s[..|s| - 1]) + Digit(s[|s| - 1]).value
  }

  /** unhex, in 32-bit arithmetic. */
  method Unhex(s: Bytes) returns (n: Word)
    ensures n == if AllDigits(s) then HexValue(s) % TWO32 else 0xffff_ffff
  {
    n := 0;
    var i := 0;
    while i < |s|
      invariant 0 <= i <= |s| && AllDigits(s[..i]) && n == HexValue(s[..i]) % TWO32
    {
      var d := Digit(s[i]);
      if d.None? { return 0xffff_ffff; }
      assert s[..i + 1][..i] == s[..i];
      assert AllDigits(s[..i + 1]);
      ShiftIn(HexValue(s[..i]), d.value);
      n := (n * 16) % TWO32 + d.value;
      i := i + 1;
    }
    assert s[..i] == s;
  }

  /** Shifting in a digit after wrapping is shifting it in before. */
  lemma ShiftIn(v: nat, d: nat)
    requires d < 16
    ensures ((v % TWO32) * 16) % TWO32 + d < TWO32
    ensures (16 * v + d) % TWO32 == ((v % TWO32) * 16) % TWO32 + d
  {
    var q, r, top := v / TWO32, v % TWO32, v % TWO32 / 0x1000_0000;
    assert r * 16 == top * TWO32 + (r - top * 0x1000_0000) * 16;
    assert 16 * v + d == (16 * q + top) * TWO32 + ((r - top * 0x1000_0000) * 16 + d);
  }

  function DigitOf(d: nat): (c: Byte)
    requires d < 16
    ensures Digit(c) == Some(d)
  {
    if d < 10 then '0' as int + d else 'a' as int + d - 10
  }

  /** What "%04x" prints. */
  function Hex4(n: nat): (s: Bytes)
    requires n < 0x1_0000
  {
    [DigitOf(n / 16 / 16 / 16), DigitOf(n / 16 / 16 % 16), DigitOf(n / 16 % 16), DigitOf(n % 16)]
  }

  /** The value of four digits. */
  lemma FourDigits(s: Bytes)
    requires |s| == 4 && AllDigits(s)
    ensures HexValue(s) ==
              4096 * Digit(s[0]).value + 256 * Digit(s[1]).value + 16 * Digit(s[2]).value + Digit(s[3]).value
  {
    hide Digit;
    assert s[..3][..2] == s[..2] && s[..2][..1] == s[..1] && s[..1][..0] == [];
    assert HexValue(s[..1]) == Digit(s[0]).value;
    assert HexValue(s[..2]) == 16 * HexValue(s[..1]) + Digit(s[1]).value;
  }

  lemma UnhexInvertsHex4(n: nat)
    requires n < 0x1_0000
    ensures AllDigits(Hex4(n)) && HexValue(Hex4(n)) % TWO32 == n
  {
    hide Digit, DigitOf;
    FourDigits(Hex4(n));
    Nibbles(n);
  }

  lemma Nibbles(n: nat)
    ensures n == 4096 * (n / 16 / 16 / 16) + 256 * (n / 16 / 16 % 16) + 16 * (n / 16 % 16) + n % 16
  {
    var n1, n2 := n / 16, n / 16 / 16;
    assert n == 16 * n1 + n % 16 && n1 == 16 * n2 + n1 % 16 && n2 == 16 * (n2 / 16) + n2 % 16;
  }

  // ---------- requests ----------

  /** What acquiring the transport gives. */
  datatype Lookup = Found | Missing(error: string) | Offline

  /** Waiting for more bytes; closed, with or without a failure message to the client; or one OPEN. */
  datatype Outcome = Waiting | Failed(message: Option<string>) | Opened(destination: Bytes)

  /** The bytes before the first NUL. */
  function CString(s: Bytes): (r: Bytes)
    ensures r <= s && 0 !in r && (|r| < |s| ==> s[|r|] == 0)
  {
    if s == [] || s[0] == 0 then [] else [s[0]] + CString(s[1..])
  }

  ghost function Declared(b: Bytes): (n: nat)
    requires |b| >= 4
  {
    if AllDigits(b[..4]) then HexValue(b[..4]) else 0xffff_ffff
  }

  /** Four bytes that do not write a length from 1 to 1024. */
  ghost predicate BadHeader(b: Bytes) {
    |b| >= 4 && !(1 <= Declared(b) <= 1024)
  }

  /** What a byte stream asks for, taken as a whole. */
  ghost function Judge(b: Bytes, lookup: Lookup): (o: Outcome) {
    if |b| < 4 then Waiting
    else if BadHeader(b) then Failed(None)
    else if |b| < Declared(b) + 4 then Waiting
    else Served(lookup, b[4..4 + Declared(b)])
  }

  /** A complete request. */
  function Served(lookup: Lookup, service: Bytes): (o: Outcome) {
    match lookup
    case Missing(error) => Failed(Some(error))
    case Offline => Failed(Some("device offline(x)"))
    case Found => Opened(CString(service))
  }

  lemma ServedIsDecided(lookup: Lookup, service: Bytes)
    ensures !Served(lookup, service).Waiting? && Served(lookup, service) != Failed(None)
  {
  }

  lemma JudgeCases(b: Bytes, lookup: Lookup)
    ensures |b| < 4 ==> Judge(b, lookup) == Waiting
    ensures |b| >= 4 && !(1 <= Declared(b) <= 1024) ==> Judge(b, lookup) == Failed(None)
    ensures |b| >= 4 && 1 <= Declared(b) <= 1024 && |b| < Declared(b) + 4 ==> Judge(b, lookup) == Waiting
    ensures |b| >= 4 && 1 <= Declared(b) <= 1024 && |b| >= Declared(b) + 4 ==>
              Judge(b, lookup) == Served(lookup, b[4..4 + Declared(b)])
  {
  }

  /** One more piece: it must fit in the packet that collects them. */
  ghost function Fed(b: Bytes, p: Bytes, lookup: Lookup): Outcome {
    if |b| + |p| > MAX_PAYLOAD then Failed(None) else Judge(b + p, lookup)
  }

  /** The pieces in turn, until the request is decided. */
  ghost function Run(b: Bytes, chunks: seq<Bytes>, lookup: Lookup): Outcome
    decreases |chunks|
  {
    if chunks == [] then Waiting
    else
      var o := Fed(b, chunks[0], lookup);
      if o.Waiting? then Run(b + chunks[0], chunks[1..], lookup) else o
  }

  class Reassembler {
    var data: array<Byte>
    var len: nat
    var started: bool
    var outcome: Outcome

    ghost predicate Valid()
      reads this
    {
      data.Length == MAX_PAYLOAD && len <= MAX_PAYLOAD && (!started ==> len == 0)
    }

    ghost function Buffered(): Bytes
      requires Valid()
      reads this, data
    {
      data[..len]
    }

    constructor ()
      ensures Valid() && Buffered() == [] && outcome == Waiting && fresh(data)
    {
      data := new Byte[MAX_PAYLOAD](_ => 0);
      len, started, outcome := 0, false, Waiting;
    }

    /** The first packet is kept, later ones are copied behind it. */
    method Append(p: Bytes)
      requires Valid() && len + |p| <= MAX_PAYLOAD
      modifies this`len, this`started, data
      ensures Valid() && Buffered() == old(Buffered()) + p && started
    {
      ghost var was := data[..len];
      var i := 0;
      while i < |p|
        invariant 0 <= i <= |p|
        invariant data[..len] == was && data[len..len + i] == p[..i]
        modifies data
      {
        data[len + i] := p[i];
        i := i + 1;
      }
      len, started := len + |p|, true;
      assert data[..len] == was + p;
    }

    /** strlen and the copy made by connect_to_remote, on a buffer holding a NUL at position `end`. */
    method Destination(start: nat, end: nat) returns (d: Bytes)
      requires start <= end < data.Length && data[end] == 0
      ensures d == CString(data[start..end])
    {
      var n := start;
      while data[n] != 0
        invariant start <= n <= end && forall k :: start <= k < n ==> data[k] != 0
        decreases end - n
      {
        n := n + 1;
      }
      d := data[start..n];
      CStringIs(data[start..end], n - start);
    }

    /** The request is complete: its text is ended with a NUL, and goes out if the transport is there. */
    method Serve(n: nat, lookup: Lookup)
      requires Valid() && 1 <= n <= 1024 && n + 4 <= len
      modifies this`outcome, data
      ensures outcome == Served(lookup, old(data[4..n + 4]))
    {
      ghost var service := data[4..n + 4];
      data[n + 4] := 0;
      assert data[4..n + 4] == service;
      match lookup {
        case Missing(error) =>
          outcome := Failed(Some(error));
        case Offline =>
          outcome := Failed(Some("device offline(x)"));
        case Found =>
          var d := Destination(4, n + 4);
          // The oversize exit of connect_to_remote cannot be reached.
          assert |d| + 1 <= MAX_PAYLOAD - 1;
          outcome := Opened(d);
      }
    }

    /** smart_socket_enqueue. */
    method Enqueue(p: Bytes, lookup: Lookup) returns (r: int)
      requires Valid() && |p| <= MAX_PAYLOAD && outcome.Waiting?
      modifies this`len, this`started, this`outcome, data
      ensures Valid()
      ensures outcome == Fed(old(Buffered()), p, lookup)
      ensures outcome.Waiting? ==> Buffered() == old(Buffered()) + p
      ensures r == match outcome case Waiting => 0 case Failed(_) => -1 case Opened(_) => 1
    {
      hide Judge, HexValue, AllDigits, Digit, CString, Served;
      if started && len + |p| > MAX_PAYLOAD {
        outcome := Failed(None);
        return -1;
      }
      Append(p);
      ghost var b := Buffered();
      JudgeCases(b, lookup);
      if len < 4 { return 0; }
      var n := Unhex(data[..4]);
      assert data[..4] == b[..4];
      HeaderWord(b);
      if n < 1 || n > 1024 {
        outcome := Failed(None);
        return -1;
      }
      if n + 4 > len { return 0; }
      assert data[4..n + 4] == b[4..n + 4];
      Serve(n, lookup);
      ServedIsDecided(lookup, b[4..n + 4]);
      r := if outcome.Failed? then -1 else 1;
    }

    /** The pieces as the local socket reads them; a decided request takes no more. */
    method EnqueueAll(chunks: seq<Bytes>, lookup: Lookup)
      requires Valid() && outcome.Waiting? && Pieces(chunks)
      modifies this`len, this`started, this`outcome, data
      ensures Valid() && outcome == Run(old(Buffered()), chunks, lookup)
    {
      var i := 0;
      while i < |chunks| && outcome.Waiting?
        invariant 0 <= i <= |chunks| && Valid()
        invariant outcome.Waiting? ==> Run(old(Buffered()), chunks, lookup) == Run(Buffered(), chunks[i..], lookup)
        invariant !outcome.Waiting? ==> Run(old(Buffered()), chunks, lookup) == outcome
      {
        assert chunks[i..][1..] == chunks[i + 1..];
        var r := Enqueue(chunks[i], lookup);
        i := i + 1;
      }
    }
  }

  /** smart_socket_enqueue for a smart socket that has collected these bytes. */
  method EnqueueOnto(pending: Bytes, p: Bytes, lookup: Lookup) returns (o: Outcome)
    requires |p| <= MAX_PAYLOAD
    ensures o == Fed(pending, p, lookup)
  {
    hide Judge;
    assert [] + pending == pending;
    if |pending| + |p| > MAX_PAYLOAD { return Failed(None); }
    var s := new Reassembler();
    if pending != [] { s.Append(pending); }
    assert s.Buffered() == pending;
    var r := s.Enqueue(p, lookup);
    o := s.outcome;
  }

  lemma {:induction false} CStringIs(s: Bytes, n: nat)
    requires n <= |s| && (forall k :: 0 <= k < n ==> s[k] != 0) && (n < |s| ==> s[n] == 0)
    ensures CString(s) == s[..n]
  {
    if n > 0 { CStringIs(s[1..], n - 1); }
  }

  lemma HeaderWord(b: Bytes)
    requires |b| >= 4
    ensures Declared(b) == if AllDigits(b[..4]) then HexValue(b[..4]) % TWO32 else 0xffff_ffff
  {
    if AllDigits(b[..4]) { FourDigits(b[..4]); }
  }

  // ---------- independence from the pieces ----------

  ghost predicate Pieces(chunks: seq<Bytes>) {
    forall i :: 0 <= i < |chunks| ==> 1 <= |chunks[i]| <= MAX_PAYLOAD
  }

  ghost predicate SplitOf(chunks: seq<Bytes>, b: Bytes) { Pieces(chunks) && Concat(chunks) == b }

  /** Once decided, more bytes change nothing. */
  lemma Decided(b: Bytes, more: Bytes, lookup: Lookup)
    requires !Judge(b, lookup).Waiting?
    ensures Judge(b + more, lookup) == Judge(b, lookup)
  {
    assert (b + more)[..4] == b[..4];
    if !BadHeader(b) { assert (b + more)[4..4 + Declared(b)] == b[4..4 + Declared(b)]; }
  }

  /** Within the packet size, every way of cutting the stream gives what the whole stream asks for. */
  lemma {:induction false} RunIsJudge(b: Bytes, chunks: seq<Bytes>, lookup: Lookup)
    requires Judge(b, lookup).Waiting? && |b| + |Concat(chunks)| <= MAX_PAYLOAD
    ensures Run(b, chunks, lookup) == Judge(b + Concat(chunks), lookup)
    decreases |chunks|
  {
    hide Judge;
    if chunks == [] {
      assert b + Concat(chunks) == b;
    } else {
      var b1 := b + chunks[0];
      assert b + Concat(chunks) == b1 + Concat(chunks[1..]);
      if Judge(b1, lookup).Waiting? {
        RunIsJudge(b1, chunks[1..], lookup);
      } else {
        Decided(b1, Concat(chunks[1..]), lookup);
      }
    }
  }

  /** Waiting does not depend on the transport. */
  lemma WaitingForAnyone(b: Bytes, p: Bytes, lookup: Lookup, lookup': Lookup)
    requires Fed(b, p, lookup).Waiting?
    ensures Fed(b, p, lookup').Waiting?
  {
    hide Declared, CString;
  }

  /** Pieces that leave the request undecided only collect; the next one is judged with all of them. */
  lemma {:induction false} RunAppend(b: Bytes, chunks: seq<Bytes>, p: Bytes, lookup: Lookup, lookup': Lookup)
    requires Run(b, chunks, lookup).Waiting?
    ensures Run(b, chunks + [p], lookup') == Fed(b + Concat(chunks), p, lookup')
    decreases |chunks|
  {
    hide Fed;
    if chunks == [] {
      assert chunks + [p] == [p] && [p][1..] == [] && b + Concat(chunks) == b;
    } else {
      var b1 := b + chunks[0];
      WaitingForAnyone(b, chunks[0], lookup, lookup');
      RunAppend(b1, chunks[1..], p, lookup, lookup');
      assert (chunks + [p])[1..] == chunks[1..] + [p];
      assert b + Concat(chunks) == b1 + Concat(chunks[1..]);
    }
  }

  /** A bad header fails silently however the stream is cut, even when a piece does not fit. */
  lemma {:induction false} BadHeaderFails(b: Bytes, chunks: seq<Bytes>, lookup: Lookup)
    requires BadHeader(b + Concat(chunks)) && |b| < 4
    ensures Run(b, chunks, lookup) == Failed(None)
    decreases |chunks|
  {
    hide Declared;
    if chunks != [] {
      var b1 := b + chunks[0];
      assert b + Concat(chunks) == b1 + Concat(chunks[1..]);
      if |b1| < 4 {
        BadHeaderFails(b1, chunks[1..], lookup);
      } else {
        SameHeader(b1, Concat(chunks[1..]));
      }
    }
  }

  lemma SameHeader(b: Bytes, more: Bytes)
    requires |b| >= 4
    ensures Declared(b + more) == Declared(b)
  {
    assert (b + more)[..4] == b[..4];
  }

  function Singles(b: Bytes): (cs: seq<Bytes>)
    ensures Concat(cs) == b && forall i :: 0 <= i < |cs| ==> |cs[i]| == 1
  {
    if b == [] then [] else [[b[0]]] + Singles(b[1..])
  }

  /** A full packet at once decides, and not with a silent failure. */
  lemma CutAtOnce(b: Bytes, lookup: Lookup) returns (c: seq<Bytes>)
    requires |b| > MAX_PAYLOAD && !BadHeader(b)
    ensures SplitOf(c, b) && Run([], c, lookup) != Failed(None)
  {
    hide Declared, Judge, CString, Served;
    var a, rest := b[..MAX_PAYLOAD], b[MAX_PAYLOAD..];
    c := [a] + Singles(rest);
    assert c[1..] == Singles(rest) && a + rest == b;
    SameHeader(a, rest);
    JudgeCases(a, lookup);
    ServedIsDecided(lookup, a[4..4 + Declared(a)]);
    assert [] + a == a;
    assert Fed([], c[0], lookup) == Judge(a, lookup);
  }

  /** One byte and then a full packet is refused silently. */
  lemma CutBadly(b: Bytes, lookup: Lookup) returns (c: seq<Bytes>)
    requires |b| > MAX_PAYLOAD
    ensures SplitOf(c, b) && Run([], c, lookup) == Failed(None)
  {
    hide Judge;
    var one, full, rest := b[..1], b[1..MAX_PAYLOAD + 1], b[MAX_PAYLOAD + 1..];
    var tail := [full] + Singles(rest);
    c := [one] + tail;
    assert tail[1..] == Singles(rest) && c[1..] == tail;
    assert Concat(tail) == full + rest == b[1..];
    assert one + b[1..] == b;
    assert [] + one == one;
    JudgeCases(one, lookup);
    assert Run(one, tail, lookup) == Failed(None);
  }

  /** Longer than a packet and with a good header: one first byte and then 4096 more is refused, although
      4096 bytes at once are enough to decide. */
  lemma LongStreamDisagrees(b: Bytes, lookup: Lookup)
    requires |b| > MAX_PAYLOAD && !BadHeader(b)
    ensures exists c1, c2 :: SplitOf(c1, b) && SplitOf(c2, b) && Run([], c1, lookup) != Run([], c2, lookup)
  {
    hide Run, SplitOf, BadHeader;
    var c1 := CutAtOnce(b, lookup);
    var c2 := CutBadly(b, lookup);
  }

  ghost predicate AllSplitsAgree(b: Bytes, lookup: Lookup) {
    forall c1, c2 :: SplitOf(c1, b) && SplitOf(c2, b) ==> Run([], c1, lookup) == Run([], c2, lookup)
  }

  /** The outcome does not depend on the pieces exactly for streams that fit in one packet or that do not
      start with a valid length. */
  lemma ChunkingDoesNotMatter(b: Bytes, lookup: Lookup)
    ensures AllSplitsAgree(b, lookup) <==> |b| <= MAX_PAYLOAD || BadHeader(b)
    ensures |b| <= MAX_PAYLOAD || BadHeader(b) ==> forall c :: SplitOf(c, b) ==> Run([], c, lookup) == Judge(b, lookup)
  {
    hide Run, Declared;
    if |b| <= MAX_PAYLOAD || BadHeader(b) {
      forall c | SplitOf(c, b) ensures Run([], c, lookup) == Judge(b, lookup) {
        assert [] + Concat(c) == b;
        if |b| <= MAX_PAYLOAD { RunIsJudge([], c, lookup); } else { BadHeaderFails([], c, lookup); }
      }
    } else {
      LongStreamDisagrees(b, lookup);
    }
  }
}
