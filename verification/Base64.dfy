/** The base64 decoder used for authentication keys (section 4 of RFC 4648), on a caller's buffer. */
module Base64 {
  import opened Bytes

  const UPPER: string := "ABCDEFGHIJKLMNOPQRSTUVWXYZ"
  const LOWER: string := "abcdefghijklmnopqrstuvwxyz"
  const DIGITS: string := "0123456789"
  const ALPHABET: string := UPPER + LOWER + DIGITS + "+/"
  const PAD := '='

  /** isspace in the C locale. */
  predicate IsSpace(c: char) { c == ' ' || '\t' <= c <= '\r' }

  function Strip(s: string): (r: string)
    ensures |r| <= |s|
  {
    if s == "" then "" else if IsSpace(s[0]) then Strip(s[1..]) else [s[0]] + Strip(s[1..])
  }

  // ---------- the alphabet ----------

  /** strchr(Base64, c): the position of c, or -1. */
  function Position(c: char): (p: int)
    ensures -1 <= p < 64
    ensures p >= 0 ==> ALPHABET[p] == c
  {
    if 'A' <= c <= 'Z' then c as int - 'A' as int
    else if 'a' <= c <= 'z' then c as int - 'a' as int + 26
    else if '0' <= c <= '9' then c as int - '0' as int + 52
    else if c == '+' then 62
    else if c == '/' then 63
    else -1
  }

  /** Every letter of the alphabet is found where it stands; hence nothing else is found. */
  lemma PositionOfLetter(p: nat)
    requires p < 64
    ensures Position(ALPHABET[p]) == p && ALPHABET[p] != PAD && !IsSpace(ALPHABET[p])
  {
    if p < 26 { UpperAt(p); } else if p < 52 { LowerAt(p - 26); } else if p < 62 { DigitAt(p - 52); }
  }

  lemma UpperAt(p: nat)
    requires p < 26
    ensures ALPHABET[p] as int == 'A' as int + p
  {
    assert ALPHABET[p] == UPPER[p];
  }

  lemma LowerAt(p: nat)
    requires p < 26
    ensures ALPHABET[26 + p] as int == 'a' as int + p
  {
    assert ALPHABET[26 + p] == LOWER[p];
  }

  lemma DigitAt(p: nat)
    requires p < 10
    ensures ALPHABET[52 + p] as int == '0' as int + p
  {
    assert ALPHABET[52 + p] == DIGITS[p];
  }

  predicate IsLetter(c: char) { Position(c) >= 0 }

  function Sextet(c: char): (v: bv8)
    requires IsLetter(c)
  {
    Position(c) as bv8
  }

  function Letter(v: bv8): (c: char)
    requires v < 64
  {
    ALPHABET[v as int]
  }

  lemma SextetOfLetter(v: bv8)
    requires v < 64
    ensures IsLetter(Letter(v)) && Sextet(Letter(v)) == v && Letter(v) != PAD && !IsSpace(Letter(v))
  {
    PositionOfLetter(v as int);
  }

  lemma LetterOfSextet(c: char)
    requires IsLetter(c)
    ensures Sextet(c) < 64 && Letter(Sextet(c)) == c
  {
    hide Position;
    SmallWord(Position(c));
    SextetIsSmall(Position(c));
  }

  lemma SmallWord(p: nat)
    requires p < 64
    ensures p as bv8 as int == p
  {
  }

  lemma SextetIsSmall(p: nat)
    requires p < 64
    ensures p as bv8 < 64
  {
  }

  // ---------- the encoding ----------

  /** The four sextets of three bytes. */
  function S0(a: bv8): bv8 { a >> 2 }
  function S1(a: bv8, b: bv8): bv8 { ((a & 3) << 4) | (b >> 4) }
  function S2(b: bv8, c: bv8): bv8 { ((b & 15) << 2) | (c >> 6) }
  function S3(c: bv8): bv8 { c & 63 }

  /** What a letter starts in a byte, and what the next letter adds to that byte. */
  function Start0(v: bv8): bv8 { v << 2 }
  function Start1(v: bv8): bv8 { (v & 0x0f) << 4 }
  function Start2(v: bv8): bv8 { (v & 0x03) << 6 }
  function Finish0(b: bv8, v: bv8): bv8 { b | (v >> 4) }
  function Finish1(b: bv8, v: bv8): bv8 { b | (v >> 2) }
  function Finish2(b: bv8, v: bv8): bv8 { b | v }

  /** The bytes as the decoder puts them together. */
  function B0(v0: bv8, v1: bv8): bv8 { Finish0(Start0(v0), v1) }
  function B1(v1: bv8, v2: bv8): bv8 { Finish1(Start1(v1), v2) }
  function B2(v2: bv8, v3: bv8): bv8 { Finish2(Start2(v2), v3) }

  lemma Small(a: bv8, b: bv8, c: bv8)
    ensures S0(a) < 64 && S1(a, b) < 64 && S2(b, c) < 64 && S3(c) < 64
  {
  }

  lemma BytesOfSextets(a: bv8, b: bv8, c: bv8)
    ensures B0(S0(a), S1(a, b)) == a && B1(S1(a, b), S2(b, c)) == b && B2(S2(b, c), S3(c)) == c
  {
  }

  lemma SextetsOfBytes(v0: bv8, v1: bv8, v2: bv8, v3: bv8)
    requires v0 < 64 && v1 < 64 && v2 < 64 && v3 < 64
    ensures S0(B0(v0, v1)) == v0
    ensures S1(B0(v0, v1), B1(v1, v2)) == v1
    ensures S2(B1(v1, v2), B2(v2, v3)) == v2
    ensures S3(B2(v2, v3)) == v3
  {
  }

  /** Section 4 of RFC 4648, with zero pad bits. */
  function Encode(d: seq<bv8>): (t: string) {
    if |d| == 0 then ""
    else if |d| == 1 then
      Small(d[0], 0, 0);
      [Letter(S0(d[0])), Letter(S1(d[0], 0)), PAD, PAD]
    else if |d| == 2 then
      Small(d[0], d[1], 0);
      [Letter(S0(d[0])), Letter(S1(d[0], d[1])), Letter(S2(d[1], 0)), PAD]
    else
      Small(d[0], d[1], d[2]);
      [Letter(S0(d[0])), Letter(S1(d[0], d[1])), Letter(S2(d[1], d[2])), Letter(S3(d[2]))] + Encode(d[3..])
  }

  /** Decoding by groups of four; None when the text is not a canonical encoding. */
  function Decode(t: string): (r: Option<seq<bv8>>) {
    if |t| == 0 then Some([])
    else if |t| < 4 || !IsLetter(t[0]) || !IsLetter(t[1]) then None
    else if IsLetter(t[2]) && IsLetter(t[3]) then
      Join([B0(Sextet(t[0]), Sextet(t[1])), B1(Sextet(t[1]), Sextet(t[2])), B2(Sextet(t[2]), Sextet(t[3]))],
           Decode(t[4..]))
    else if |t| != 4 || t[3] != PAD then None
    else if IsLetter(t[2]) then
      if B2(Sextet(t[2]), 0) != 0 then None
      else Some([B0(Sextet(t[0]), Sextet(t[1])), B1(Sextet(t[1]), Sextet(t[2]))])
    else if t[2] != PAD || B1(Sextet(t[1]), 0) != 0 then None
    else Some([B0(Sextet(t[0]), Sextet(t[1]))])
  }

  function Join(done: seq<bv8>, rest: Option<seq<bv8>>): Option<seq<bv8>> {
    match rest case None => None case Some(d) => Some(done + d)
  }

  lemma {:induction false} DecodeEncode(d: seq<bv8>)
    ensures Decode(Encode(d)) == Some(d)
  {
    hide Position, IsLetter, Letter, Sextet, S0, S1, S2, S3, B0, B1, B2;
    if |d| > 0 {
      var a, b, c := d[0], if |d| > 1 then d[1] else 0, if |d| > 2 then d[2] else 0;
      Small(a, b, c);
      BytesOfSextets(a, b, c);
      SextetOfLetter(S0(a));
      SextetOfLetter(S1(a, b));
      SextetOfLetter(S2(b, c));
      SextetOfLetter(S3(c));
      PadIsNoLetter();
      if |d| > 2 {
        DecodeEncode(d[3..]);
        assert Encode(d)[4..] == Encode(d[3..]);
        assert d == [a, b, c] + d[3..];
      } else if |d| == 2 {
        PadBits2(b);
        assert Encode(d)[2..] == [Letter(S2(b, 0)), PAD];
        assert d == [a, b];
      } else {
        PadBits1(a);
        assert d == [a];
      }
    }
  }

  lemma PadIsNoLetter()
    ensures !IsLetter(PAD)
  {
  }

  lemma PadBits1(a: bv8)
    ensures B1(S1(a, 0), 0) == 0
  {
  }

  lemma PadBits2(b: bv8)
    ensures B2(S2(b, 0), 0) == 0
  {
  }

  lemma EncodeQuad(v0: bv8, v1: bv8, v2: bv8, v3: bv8, d: seq<bv8>)
    requires v0 < 64 && v1 < 64 && v2 < 64 && v3 < 64
    ensures Encode([B0(v0, v1), B1(v1, v2), B2(v2, v3)] + d) ==
              [Letter(v0), Letter(v1), Letter(v2), Letter(v3)] + Encode(d)
  {
    hide Letter, S0, S1, S2, S3, B0, B1, B2;
    SextetsOfBytes(v0, v1, v2, v3);
    assert ([B0(v0, v1), B1(v1, v2), B2(v2, v3)] + d)[3..] == d;
  }

  lemma {:induction false} EncodeDecode(t: string)
    requires Decode(t).Some?
    ensures Encode(Decode(t).value) == t
  {
    hide Position, IsLetter, Letter, Sextet, S0, S1, S2, S3, B0, B1, B2;
    if |t| > 0 {
      LetterOfSextet(t[0]);
      LetterOfSextet(t[1]);
      if IsLetter(t[2]) && IsLetter(t[3]) {
        LetterOfSextet(t[2]);
        LetterOfSextet(t[3]);
        EncodeDecode(t[4..]);
        EncodeQuad(Sextet(t[0]), Sextet(t[1]), Sextet(t[2]), Sextet(t[3]), Decode(t[4..]).value);
        assert t == [t[0], t[1], t[2], t[3]] + t[4..];
      } else {
        EncodeLast(t);
      }
    }
  }

  lemma EncodeLast(t: string)
    requires |t| == 4 && Decode(t).Some? && !(IsLetter(t[2]) && IsLetter(t[3]))
    ensures Encode(Decode(t).value) == t
  {
    hide Position, IsLetter, Letter, Sextet, S0, S1, S2, S3, B0, B1, B2;
    LetterOfSextet(t[0]);
    LetterOfSextet(t[1]);
    if IsLetter(t[2]) {
      LetterOfSextet(t[2]);
      SextetsOfBytes(Sextet(t[0]), Sextet(t[1]), Sextet(t[2]), 0);
    } else {
      SextetsOfBytes(Sextet(t[0]), Sextet(t[1]), 0, 0);
    }
  }

  /** No two byte strings share an encoding. */
  lemma EncodeInjective(d: seq<bv8>, e: seq<bv8>)
    requires Encode(d) == Encode(e)
    ensures d == e
  {
    hide Encode, Decode;
    DecodeEncode(d);
    DecodeEncode(e);
  }

  // ---------- b64_pton ----------

  /** Bytes of buffer the decoder needs for n decoded bytes: a padded last group uses one more. */
  function Room(n: nat): nat { if n % 3 == 0 then n else n + 1 }

  ghost predicate Letters(part: string) { forall i :: 0 <= i < |part| ==> IsLetter(part[i]) }

  /** The letters of a group read so far leave these bytes in the buffer at m. */
  ghost predicate Partial(part: string, b: seq<bv8>, m: nat)
    requires |part| <= 3 && Letters(part)
  {
    && (|part| > 0 ==> m + |part| <= |b|)
    && (|part| == 1 ==> b[m] == Start0(Sextet(part[0])))
    && (|part| >= 2 ==> b[m] == B0(Sextet(part[0]), Sextet(part[1])))
    && (|part| == 2 ==> b[m + 1] == Start1(Sextet(part[1])))
    && (|part| == 3 ==> b[m + 1] == B1(Sextet(part[1]), Sextet(part[2])))
    && (|part| == 3 ==> b[m + 2] == Start2(Sextet(part[2])))
  }

  ghost function Group(q: string): (d: seq<bv8>)
    requires |q| == 4 && Letters(q)
  {
    [B0(Sextet(q[0]), Sextet(q[1])), B1(Sextet(q[1]), Sextet(q[2])), B2(Sextet(q[2]), Sextet(q[3]))]
  }

  lemma PartialRoom(part: string, b: seq<bv8>, m: nat)
    requires |part| <= 3 && Letters(part) && Partial(part, b, m)
    ensures |part| > 0 ==> m + |part| <= |b|
  {
  }

  lemma Partial1(c: char, b: seq<bv8>, m: nat)
    requires IsLetter(c) && m < |b| && b[m] == Start0(Sextet(c))
    ensures Letters([c]) && Partial([c], b, m)
  {
  }

  lemma Partial2(part: string, c: char, b: seq<bv8>, m: nat, b': seq<bv8>)
    requires IsLetter(c) && |part| == 1 && Letters(part) && Partial(part, b, m) && m + 1 < |b| == |b'|
    requires b'[m] == Finish0(b[m], Sextet(c)) && b'[m + 1] == Start1(Sextet(c))
    ensures Letters(part + [c]) && Partial(part + [c], b', m)
  {
    hide Sextet, Position, Start0, Start1, Start2, Finish0, Finish1, Finish2;
  }

  lemma Partial3(part: string, c: char, b: seq<bv8>, m: nat, b': seq<bv8>)
    requires IsLetter(c) && |part| == 2 && Letters(part) && Partial(part, b, m) && m + 2 < |b| == |b'|
    requires b'[m] == b[m] && b'[m + 1] == Finish1(b[m + 1], Sextet(c)) && b'[m + 2] == Start2(Sextet(c))
    ensures Letters(part + [c]) && Partial(part + [c], b', m)
  {
    hide Sextet, Position, Start0, Start1, Start2, Finish0, Finish1, Finish2;
  }

  lemma Partial4(part: string, c: char, b: seq<bv8>, m: nat, b': seq<bv8>)
    requires IsLetter(c) && |part| == 3 && Letters(part) && Partial(part, b, m) && |b| == |b'|
    requires b'[m] == b[m] && b'[m + 1] == b[m + 1] && b'[m + 2] == Finish2(b[m + 2], Sextet(c))
    ensures Letters(part + [c]) && b'[m..m + 3] == Group(part + [c])
  {
    hide Sextet, Position, Start0, Start1, Start2, Finish0, Finish1, Finish2;
  }

  /** The switch on the state: one more letter.  It fails exactly when the buffer is too small. */
  method PutLetter(c: char, state: nat, tarindex: nat, target: array<bv8>, ghost m: nat, ghost part: string)
    returns (ok: bool, state': nat, tarindex': nat)
    requires IsLetter(c) && state == |part| <= 3 && Letters(part) && Partial(part, target[..], m)
    requires m <= target.Length && tarindex == if state == 0 then m else m + state - 1
    modifies target
    ensures target[..m] == old(target[..m])
    ensures ok <==> state == 3 || m + state < target.Length
    ensures ok && state < 3 ==> state' == state + 1 && tarindex' == m + state
    ensures ok && state < 3 ==> Letters(part + [c]) && Partial(part + [c], target[..], m)
    ensures ok && state == 3 ==> state' == 0 && tarindex' == m + 3 <= target.Length
    ensures ok && state == 3 ==> Letters(part + [c]) && target[m..m + 3] == Group(part + [c])
  {
    hide Position, IsLetter, Sextet, B0, B1, B2, Start0, Start1, Start2, Finish0, Finish1, Finish2;
    hide Group, Partial, Letters;
    PartialRoom(part, target[..], m);
    var v := Sextet(c);
    ghost var was := target[..];
    ok, state', tarindex' := true, state + 1, tarindex;
    if state == 0 {
      if tarindex >= target.Length { return false, state, tarindex; }
      target[tarindex] := Start0(v);
      Partial1(c, target[..], m);
      assert part + [c] == [c];
    } else if state == 1 {
      if tarindex + 1 >= target.Length { return false, state, tarindex; }
      target[tarindex] := Finish0(target[tarindex], v);
      target[tarindex + 1] := Start1(v);
      tarindex' := tarindex + 1;
      Partial2(part, c, was, m, target[..]);
    } else if state == 2 {
      if tarindex + 1 >= target.Length { return false, state, tarindex; }
      target[tarindex] := Finish1(target[tarindex], v);
      target[tarindex + 1] := Start2(v);
      tarindex' := tarindex + 1;
      Partial3(part, c, was, m, target[..]);
    } else {
      // The size test of this case cannot fail: the previous letter already wrote here.
      target[tarindex] := Finish2(target[tarindex], v);
      tarindex' := tarindex + 1;
      state' := 0;
      Partial4(part, c, was, m, target[..]);
      assert target[..][m..m + 3] == target[m..m + 3];
    }
  }

  /** Between characters: m bytes are decoded, `part` holds the letters of the group being read, and
      `rest` is still to come. */
  ghost predicate Mid(all: string, rest: string, b: seq<bv8>, m: nat, part: string) {
    && |part| <= 3 && Letters(part) && m <= |b| && m % 3 == 0 && Partial(part, b, m)
    && Decode(all) == Join(b[..m], Decode(part + rest))
  }

  ghost predicate TooSmall(all: string, size: nat) {
    Decode(all).Some? ==> size < Room(|Decode(all).value|)
  }

  lemma MidLetter(all: string, c: char, rest: string, b: seq<bv8>, m: nat, part: string, b': seq<bv8>)
    requires Mid(all, [c] + rest, b, m, part) && |part| < 3 && |b| == |b'| && b[..m] == b'[..m]
    requires Letters(part + [c]) && Partial(part + [c], b', m)
    ensures Mid(all, rest, b', m, part + [c])
  {
    hide Partial, Decode, Letters;
    assert part + ([c] + rest) == part + [c] + rest;
  }

  lemma MidGroup(all: string, c: char, rest: string, b: seq<bv8>, m: nat, part: string, b': seq<bv8>)
    requires Mid(all, [c] + rest, b, m, part) && |part| == 3 && |b| == |b'| && b[..m] == b'[..m]
    requires m + 3 <= |b| && Letters(part + [c]) && b'[m..m + 3] == Group(part + [c])
    ensures Mid(all, rest, b', m + 3, "")
  {
    hide Position, IsLetter, Sextet, B0, B1, B2, Start1, Start2;
    assert part + ([c] + rest) == part + [c] + rest;
    var t := part + [c] + rest;
    assert t[..4] == part + [c] && t[4..] == rest;
    assert (part + [c])[0] == t[0] && (part + [c])[1] == t[1] && (part + [c])[2] == t[2] && (part + [c])[3] == t[3];
    assert Decode(t) == Join(Group(part + [c]), Decode(rest));
    assert b'[..m + 3] == b'[..m] + b'[m..m + 3];
    assert "" + rest == rest;
    if Decode(rest).Some? { JoinTwice(b[..m], Group(part + [c]), Decode(rest)); }
  }

  lemma JoinTwice(a: seq<bv8>, b: seq<bv8>, r: Option<seq<bv8>>)
    ensures Join(a, Join(b, r)) == Join(a + b, r)
  {
    if r.Some? { assert a + (b + r.value) == a + b + r.value; }
  }

  lemma NoRoom(all: string, c: char, rest: string, b: seq<bv8>, m: nat, part: string)
    requires Mid(all, [c] + rest, b, m, part) && IsLetter(c) && |part| < 3 && |b| <= m + |part|
    ensures TooSmall(all, |b|)
  {
    hide Position, IsLetter, Sextet, B0, B1, B2, Start1, Start2;
    var t := part + ([c] + rest);
    assert t[|part|] == c;
    if Decode(t).Some? {
      PadIsNoLetter();
      assert Room(|Decode(t).value|) > |part|;
    }
  }

  lemma NotALetter(all: string, c: char, rest: string, b: seq<bv8>, m: nat, part: string)
    requires Mid(all, [c] + rest, b, m, part) && !IsLetter(c) && (c == PAD ==> |part| < 2)
    ensures Decode(all) == None
  {
    hide Position, IsLetter, Sextet, B0, B1, B2, Start1, Start2;
    var t := part + ([c] + rest);
    assert t[|part|] == c;
    assert forall i :: 0 <= i < |part| ==> t[i] == part[i];
  }

  lemma AtEnd(all: string, b: seq<bv8>, m: nat, part: string)
    requires Mid(all, "", b, m, part)
    ensures Decode(all) == if part == "" then Some(b[..m]) else None
  {
    hide Position, IsLetter, Sextet, B0, B1, B2, Start1, Start2;
    assert part + "" == part && b[..m] + [] == b[..m];
  }

  lemma Pad2(all: string, rest: string, b: seq<bv8>, m: nat, part: string)
    requires Mid(all, [PAD] + rest, b, m, part) && |part| == 2
    ensures m + 2 <= |b| && Decode(all) == if rest == [PAD] && b[m + 1] == 0 then Some(b[..m + 1]) else None
  {
    hide Position, IsLetter, Sextet, B0, B1, B2, Start1, Start2;
    PadIsNoLetter();
    var t := part + ([PAD] + rest);
    assert t[0] == part[0] && t[1] == part[1] && t[2] == PAD;
    OnlyStart1(Sextet(t[1]));
    assert b[..m] + [b[m]] == b[..m + 1];
    if |rest| == 1 { assert t[3] == rest[0]; assert rest == [PAD] <==> rest[0] == PAD; }
  }

  lemma Pad3(all: string, rest: string, b: seq<bv8>, m: nat, part: string)
    requires Mid(all, [PAD] + rest, b, m, part) && |part| == 3
    ensures m + 3 <= |b| && Decode(all) == if rest == "" && b[m + 2] == 0 then Some(b[..m + 2]) else None
  {
    hide Position, IsLetter, Sextet, B0, B1, B2, Start1, Start2;
    PadIsNoLetter();
    var t := part + ([PAD] + rest);
    assert t[0] == part[0] && t[1] == part[1] && t[2] == part[2] && t[3] == PAD;
    OnlyStart2(Sextet(t[2]));
    assert b[..m] + [b[m], b[m + 1]] == b[..m + 2];
  }

  lemma OnlyStart1(v: bv8)
    ensures B1(v, 0) == Start1(v)
  {
  }

  lemma OnlyStart2(v: bv8)
    ensures B2(v, 0) == Start2(v)
  {
  }

  lemma StripFirst(s: string, i: nat)
    requires i < |s|
    ensures Strip(s[i..]) == if IsSpace(s[i]) then Strip(s[i + 1..]) else [s[i]] + Strip(s[i + 1..])
  {
    assert s[i..][1..] == s[i + 1..];
  }

  /** The loops that skip white space. */
  method SkipSpace(src: string, from: nat) returns (i: nat)
    requires from <= |src|
    ensures from <= i <= |src| && Strip(src[i..]) == Strip(src[from..])
    ensures i < |src| ==> !IsSpace(src[i])
    ensures i == |src| <==> Strip(src[from..]) == ""
  {
    i := from;
    while i < |src| && IsSpace(src[i])
      invariant from <= i <= |src| && Strip(src[i..]) == Strip(src[from..])
    {
      StripFirst(src, i);
      i := i + 1;
    }
    if i < |src| { StripFirst(src, i); } else { assert src[i..] == ""; }
  }

  /** After the first pad character: the rest of the padding and the pad bits. */
  method Padding(src: string, from: nat, state: nat, tarindex: nat, target: array<bv8>,
                 ghost m: nat, ghost part: string)
    returns (ok: bool)
    requires from <= |src| && Mid(Strip(src), [PAD] + Strip(src[from..]), target[..], m, part)
    requires state == |part| <= 3 && tarindex == if state == 0 then m else m + state - 1
    ensures ok ==> tarindex < target.Length && Decode(Strip(src)) == Some(target[..tarindex])
    ensures ok ==> state >= 2
    ensures !ok ==> Decode(Strip(src)) == None
  {
    hide Position, IsLetter, Sextet, B0, B1, B2, Decode, Strip, Partial, Mid, Letters;
    PadIsNoLetter();
    if state < 2 {
      NotALetter(Strip(src), PAD, Strip(src[from..]), target[..], m, part);
      return false;
    }
    var i := from;
    if state == 2 {
      Pad2(Strip(src), Strip(src[from..]), target[..], m, part);
      i := SkipSpace(src, i);
      if i == |src| { return false; }
      StripFirst(src, i);
      assert Strip(src[from..])[0] == src[i] && Strip(src[from..])[1..] == Strip(src[i + 1..]);
      if src[i] != PAD { return false; }
      i := i + 1;
    } else {
      Pad3(Strip(src), Strip(src[from..]), target[..], m, part);
    }
    var j := SkipSpace(src, i);
    if j < |src| { return false; }
    ok := target[tarindex] == 0;
  }

  /** b64_pton; src is the text up to its NUL.  A result n >= 0 is returned exactly when the text without
      white space is the canonical encoding of some data for which there is room. */
  method B64Pton(src: string, target: array<bv8>) returns (n: int)
    modifies target
    ensures n == -1 || (0 <= n <= target.Length && Encode(target[..n]) == Strip(src) && Room(n) <= target.Length)
    ensures n == -1 ==> forall d :: Encode(d) == Strip(src) ==> target.Length < Room(|d|)
  {
    hide Position, IsLetter, Letter, Sextet, S0, S1, S2, S3, B0, B1, B2, Decode, Encode, Strip, Mid, Partial, Letters;
    n := Decoded(src, target);
    if n == -1 {
      forall d | Encode(d) == Strip(src) ensures target.Length < Room(|d|) { DecodeEncode(d); }
    } else {
      EncodeDecode(Strip(src));
    }
  }

  method Decoded(src: string, target: array<bv8>) returns (n: int)
    modifies target
    ensures n == -1 || (0 <= n <= target.Length && Decode(Strip(src)) == Some(target[..n]) && Room(n) <= target.Length)
    ensures n == -1 ==> TooSmall(Strip(src), target.Length)
  {
    hide Position, IsLetter, Letter, Sextet, S0, S1, S2, S3, B0, B1, B2, Decode, Strip, Partial, Letters, Mid, Group;
    var i, state, tarindex := 0, 0, 0;
    ghost var m, part := 0, "";
    Start(src, target[..]);
    while i < |src| && src[i] != PAD
      invariant 0 <= i <= |src| && state == |part| <= 3 && m % 3 == 0 && m <= target.Length
      invariant tarindex == if state == 0 then m else m + state - 1
      invariant Mid(Strip(src), Strip(src[i..]), target[..], m, part)
    {
      var c := src[i];
      StripFirst(src, i);
      i := i + 1;
      if IsSpace(c) { continue; }
      if !IsLetter(c) {
        NotALetter(Strip(src), c, Strip(src[i..]), target[..], m, part);
        return -1;
      }
      MidParts(Strip(src), [c] + Strip(src[i..]), target[..], m, part);
      ghost var was := target[..];
      var ok, state', tarindex' := PutLetter(c, state, tarindex, target, m, part);
      assert was[..m] == target[..][..m];
      if !ok {
        NoRoom(Strip(src), c, Strip(src[i..]), was, m, part);
        return -1;
      }
      if state < 3 {
        MidLetter(Strip(src), c, Strip(src[i..]), was, m, part, target[..]);
        part := part + [c];
      } else {
        assert target[..][m..m + 3] == target[m..m + 3];
        MidGroup(Strip(src), c, Strip(src[i..]), was, m, part, target[..]);
        m, part := m + 3, "";
      }
      state, tarindex := state', tarindex';
    }
    if i < |src| {
      StripFirst(src, i);
      var ok := Padding(src, i + 1, state, tarindex, target, m, part);
      return if ok then tarindex else -1;
    }
    assert src[i..] == "";
    AtEnd(Strip(src), target[..], m, part);
    n := if state != 0 then -1 else tarindex;
  }

  lemma Start(src: string, b: seq<bv8>)
    ensures Mid(Strip(src), Strip(src[0..]), b, 0, "")
  {
    hide Decode, Strip;
    assert src[0..] == src;
    assert "" + Strip(src) == Strip(src);
    if Decode(Strip(src)).Some? { assert b[..0] + Decode(Strip(src)).value == Decode(Strip(src)).value; }
  }

  lemma MidParts(all: string, rest: string, b: seq<bv8>, m: nat, part: string)
    requires Mid(all, rest, b, m, part)
    ensures |part| <= 3 && Letters(part) && Partial(part, b, m)
  {
  }
}
