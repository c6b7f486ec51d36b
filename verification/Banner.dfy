/** The connection banner: what fill_connect_data prints and what parse_banner makes of it, in place. */
module Banner {
  import opened Bytes
  import SocketModel

  const NUL := '\0'
  const KEYS: seq<string> := ["ro.product.name", "ro.product.model", "ro.product.device"]

  datatype Props = Props(product: Option<string>, model: Option<string>, device: Option<string>)

  // ---------- meaning ----------

  /** Where c first occurs in s, or the length of s. */
  function IndexOf(s: string, c: char): (i: nat)
    ensures i <= |s| && c !in s[..i] && (i < |s| ==> s[i] == c)
  {
    if s == "" || s[0] == c then 0 else 1 + IndexOf(s[1..], c)
  }

  function After(s: string, c: char): string { if IndexOf(s, c) < |s| then s[IndexOf(s, c) + 1..] else "" }

  function Skip(s: string): (t: string)
    ensures |t| <= |s| && (t == "" || t[0] != ';')
  {
    if s == "" || s[0] != ';' then s else Skip(s[1..])
  }

  /** An empty value clears the property. */
  function Qual(v: string): Option<string> { if v == "" then None else Some(v) }

  function Set(p: Props, key: string, v: string): Props {
    if key == KEYS[0] then p.(product := Qual(v))
    else if key == KEYS[1] then p.(model := Qual(v))
    else if key == KEYS[2] then p.(device := Qual(v))
    else p
  }

  /** One token: a key and a value around the first '='. */
  function SetToken(p: Props, token: string): Props {
    if '=' in token then Set(p, token[..IndexOf(token, '=')], After(token, '=')) else p
  }

  /** The tokens between the semicolons, in order. */
  function SetAll(p: Props, s: string): Props
    decreases |s|
  {
    var t := Skip(s);
    if t == "" then p else SetAll(SetToken(p, t[..IndexOf(t, ';')]), After(t, ';'))
  }

  function ParsedProps(p: Props, text: string): Props {
    var rest := After(text, ':');
    if ':' in text && ':' in rest then SetAll(p, After(rest, ':')) else p
  }

  /** Whatever the name, the transport counts as connected. */
  function StateNamed(name: string): (st: SocketModel.ConnState)
    ensures st != SocketModel.Offline && st != SocketModel.NoPerm
  {
    if name == "bootloader" then SocketModel.Bootloader
    else if name == "device" then SocketModel.Device
    else if name == "recovery" then SocketModel.Recovery
    else if name == "sideload" then SocketModel.Sideload
    else SocketModel.Host
  }

  function ParsedState(text: string): SocketModel.ConnState { StateNamed(text[..IndexOf(text, ':')]) }

  function Entry(i: nat, v: string): string
    requires i < 3
  {
    KEYS[i] + "=" + v + ";"
  }

  function BannerText(banner: string, v: seq<string>): string
    requires |v| == 3
  {
    banner + "::" + Entry(0, v[0]) + Entry(1, v[1]) + Entry(2, v[2])
  }

  // ---------- the round trip ----------

  lemma {:induction false} IndexAfter(a: string, c: char, b: string)
    requires c !in a
    ensures IndexOf(a + [c] + b, c) == |a| && After(a + [c] + b, c) == b
  {
    var s := a + [c] + b;
    if a != "" {
      assert s[1..] == a[1..] + [c] + b;
      IndexAfter(a[1..], c, b);
    }
    assert s[|a| + 1..] == b;
  }

  /** An entry whose value has no semicolon sets its property, and parsing goes on behind it. */
  lemma EntrySets(p: Props, i: nat, v: string, rest: string)
    requires i < 3 && ';' !in v
    ensures SetAll(p, Entry(i, v) + rest) == SetAll(Set(p, KEYS[i], v), rest)
  {
    hide Set, IndexOf, After;
    var s := Entry(i, v) + rest;
    var token := KEYS[i] + "=" + v;
    KeysArePlain(i);
    assert s == token + ";" + rest;
    assert s[0] == KEYS[i][0];
    IndexAfter(token, ';', rest);
    IndexAfter(KEYS[i], '=', v);
    assert s[..|token|] == token && token[..|KEYS[i]|] == KEYS[i];
    assert token[|KEYS[i]|] == '=';
  }

  /** A token without '=', or with a key that is none of the three, changes nothing. */
  lemma OtherTokensAreSkipped(p: Props, token: string, rest: string)
    requires token != "" && token[0] != ';' && ';' !in token
    requires '=' in token ==> token[..IndexOf(token, '=')] !in KEYS
    ensures SetAll(p, token + ";" + rest) == SetAll(p, rest)
  {
    hide IndexOf, After, Qual;
    var s := token + ";" + rest;
    IndexAfter(token, ';', rest);
    assert s[0] == token[0] && s[..|token|] == token;
    assert KEYS[0] in KEYS && KEYS[1] in KEYS && KEYS[2] in KEYS;
  }

  lemma KeysArePlain(i: nat)
    requires i < 3
    ensures KEYS[i] != "" && ';' !in KEYS[i] && '=' !in KEYS[i]
  {
  }

  /** Parsing a printed banner recovers every property, empty ones as absent, whatever was known before,
      and the state the banner names.  Values may hold any character but the semicolon. */
  lemma BannerRoundTrip(p: Props, banner: string, v: seq<string>)
    requires |v| == 3 && ':' !in banner && forall i :: 0 <= i < 3 ==> ';' !in v[i]
    ensures var q := ParsedProps(p, BannerText(banner, v));
      && q.product == (if v[0] == "" then None else Some(v[0]))
      && q.model == (if v[1] == "" then None else Some(v[1]))
      && q.device == (if v[2] == "" then None else Some(v[2]))
    ensures ParsedState(BannerText(banner, v)) == StateNamed(banner)
  {
    hide SetAll, IndexOf, After, StateNamed, Entry;
    var e0, e1, e2 := Entry(0, v[0]), Entry(1, v[1]), Entry(2, v[2]);
    var body := e0 + (e1 + (e2 + ""));
    var text := BannerText(banner, v);
    assert text == banner + ":" + (":" + body);
    IndexAfter(banner, ':', ":" + body);
    assert text[..|banner|] == banner && text[|banner|] == ':';
    assert ":" + body == "" + ":" + body;
    IndexAfter("", ':', body);
    EntrySets(p, 0, v[0], e1 + (e2 + ""));
    EntrySets(Set(p, KEYS[0], v[0]), 1, v[1], e2 + "");
    EntrySets(Set(Set(p, KEYS[0], v[0]), KEYS[1], v[1]), 2, v[2], "");
    assert SetAll(p, body) == SetAll(Set(Set(Set(p, KEYS[0], v[0]), KEYS[1], v[1]), KEYS[2], v[2]), "");
    NothingSets(Set(Set(Set(p, KEYS[0], v[0]), KEYS[1], v[1]), KEYS[2], v[2]));
    KeysDiffer();
  }

  lemma NothingSets(p: Props)
    ensures SetAll(p, "") == p
  {
  }

  lemma KeysDiffer()
    ensures KEYS[0] != KEYS[1] && KEYS[0] != KEYS[2] && KEYS[1] != KEYS[2]
  {
    assert KEYS[0][11] != KEYS[1][11] && |KEYS[2]| != |KEYS[0]|;
    assert KEYS[1][11] != KEYS[2][11];
  }

  /** The banner sets exactly the state it names, CS_HOST for any other name. */
  lemma BannerSetsState(banner: string, v: seq<string>)
    requires |v| == 3 && ':' !in banner && forall i :: 0 <= i < 3 ==> ';' !in v[i]
    ensures var st := ParsedState(BannerText(banner, v));
      && (st == SocketModel.Bootloader <==> banner == "bootloader")
      && (st == SocketModel.Device <==> banner == "device")
      && (st == SocketModel.Recovery <==> banner == "recovery")
      && (st == SocketModel.Sideload <==> banner == "sideload")
      && (st == SocketModel.Host <==> banner !in {"bootloader", "device", "recovery", "sideload"})
  {
    hide ParsedState, BannerText, IndexOf;
    BannerRoundTrip(Props(None, None, None), banner, v);
  }

  /** connection_state_name. */
  function ConnectionStateName(st: SocketModel.ConnState): string {
    match st
    case Bootloader => "bootloader"
    case Device => "device"
    case Offline => "offline"
    case _ => "unknown"
  }

  /** A state is read back from the name printed for it exactly when it is one of these three. */
  lemma StateNameRoundTrip(st: SocketModel.ConnState)
    ensures StateNamed(ConnectionStateName(st)) == st <==> st.Bootloader? || st.Device? || st.Host?
  {
    assert "unknown"[0] == 'u' && "offline"[0] == 'o';
  }

  // ---------- C strings in a buffer ----------

  /** The C string at i ends with the NUL at n. */
  ghost predicate IsStr(s: seq<char>, i: nat, n: nat) {
    i <= n < |s| && s[n] == NUL && forall k :: i <= k < n ==> s[k] != NUL
  }

  lemma {:induction false} IndexIs(s: string, c: char, k: nat)
    requires k <= |s| && (forall j :: 0 <= j < k ==> s[j] != c) && (k < |s| ==> s[k] == c)
    ensures IndexOf(s, c) == k
  {
    if k > 0 { IndexIs(s[1..], c, k - 1); }
  }

  /** strchr. */
  method Strchr(b: array<char>, i: nat, c: char, ghost n: nat) returns (p: int)
    requires IsStr(b[..], i, n) && c != NUL
    ensures c in b[i..n] ==> i <= p < n && p == i + IndexOf(b[i..n], c) && b[p] == c
    ensures c !in b[i..n] ==> p == -1
  {
    var k := i;
    while b[k] != NUL && b[k] != c
      invariant i <= k <= n && forall j :: i <= j < k ==> b[j] != c
      decreases n - k
    {
      k := k + 1;
    }
    IndexIs(b[i..n], c, k - i);
    p := if b[k] == c then k else -1;
  }

  /** The string at i, as strcmp and strdup read it. */
  method StringAt(b: array<char>, i: nat, ghost n: nat) returns (s: string)
    requires IsStr(b[..], i, n)
    ensures s == b[i..n]
  {
    var k := i;
    while b[k] != NUL
      invariant i <= k <= n
      decreases n - k
    {
      k := k + 1;
    }
    s := b[i..k];
  }

  lemma SkipOne(s: string)
    requires s != "" && s[0] == ';'
    ensures Skip(s) == Skip(s[1..])
  {
  }

  /** The separators before a token. */
  method SkipSeparators(b: array<char>, start: nat, ghost n: nat) returns (k: nat)
    requires IsStr(b[..], start, n)
    ensures start <= k <= n && b[k..n] == Skip(b[start..n])
  {
    k := start;
    while b[k] == ';'
      invariant start <= k <= n && Skip(b[start..n]) == Skip(b[k..n])
      decreases n - k
    {
      assert b[k..n][1..] == b[k + 1..n];
      SkipOne(b[k..n]);
      k := k + 1;
    }
  }

  /** The end of a token. */
  method TokenEnd(b: array<char>, key: nat, ghost n: nat) returns (k: nat)
    requires IsStr(b[..], key, n)
    ensures key <= k <= n && k - key == IndexOf(b[key..n], ';') && (k < n ==> b[k] == ';')
  {
    k := key;
    while b[k] != NUL && b[k] != ';'
      invariant key <= k <= n && forall j :: key <= j < k ==> b[j] != ';'
      decreases n - k
    {
      k := k + 1;
    }
    IndexIs(b[key..n], ';', k - key);
  }

  /** adb_strtok_r with ";": the next token is ended in place; save is where the rest begins. */
  method Strtok(b: array<char>, start: nat, ghost n: nat) returns (key: int, save: nat, ghost end: nat)
    requires IsStr(b[..], start, n)
    modifies b
    ensures key == -1 <==> Skip(old(b[start..n])) == ""
    ensures forall j :: 0 <= j < start ==> b[j] == old(b[j])
    ensures key != -1 ==> start <= key <= end && IsStr(b[..], key, end)
    ensures key != -1 ==> var t := Skip(old(b[start..n])); b[key..end] == t[..IndexOf(t, ';')]
    ensures key != -1 ==> start < save && end <= save && IsStr(b[..], save, n) &&
                          b[save..n] == After(Skip(old(b[start..n])), ';')
  {
    hide Skip, IndexOf;
    var k := SkipSeparators(b, start, n);
    ghost var t := b[k..n];
    if b[k] == NUL { return -1, k, k; }
    key := k;
    k := TokenEnd(b, key, n);
    end, save := k, k;
    assert b[key..end] == t[..k - key];
    if b[k] == ';' {
      assert t[k - key] == ';';
      b[k] := NUL;
      save := k + 1;
      assert b[key..end] == t[..k - key] && b[save..n] == t[k - key + 1..];
    }
  }

  lemma SetTokenIs(p: Props, token: string)
    ensures '=' !in token ==> SetToken(p, token) == p
    ensures '=' in token ==>
              IndexOf(token, '=') < |token| &&
              SetToken(p, token) == Set(p, token[..IndexOf(token, '=')], token[IndexOf(token, '=') + 1..])
  {
    hide Set;
  }

  class Peer {
    var props: Props
    var state: SocketModel.ConnState

    constructor (p: Props, st: SocketModel.ConnState)
      ensures props == p && state == st
    {
      props, state := p, st;
    }

    /** The body of the token loop: the token is split at its first '=' in place. */
    method TakeToken(b: array<char>, key: nat, ghost end: nat)
      requires IsStr(b[..], key, end)
      modifies this`props, b
      ensures props == SetToken(old(props), old(b[key..end]))
      ensures forall j :: 0 <= j < b.Length && !(key <= j < end) ==> b[j] == old(b[j])
    {
      hide Set, SetToken, IndexOf;
      ghost var token := b[key..end];
      SetTokenIs(props, token);
      var eq := Strchr(b, key, '=', end);
      if eq != -1 {
        b[eq] := NUL;
        var name := StringAt(b, key, eq);
        var value := StringAt(b, eq + 1, end);
        assert name == token[..eq - key] && value == token[eq - key + 1..];
        props := Set(props, name, value);
      }
    }

    /** The token loop. */
    method TakeAll(b: array<char>, from: nat, ghost n: nat)
      requires IsStr(b[..], from, n)
      modifies this`props, b
      ensures props == SetAll(old(props), old(b[from..n]))
      ensures forall j :: 0 <= j < from ==> b[j] == old(b[j])
    {
      hide SetToken, IndexOf, After, Skip;
      ghost var rest := b[from..n];
      ghost var end;
      var key, save;
      key, save, end := Strtok(b, from, n);
      while key != -1
        invariant key != -1 ==> from <= key <= end <= save && IsStr(b[..], key, end) && IsStr(b[..], save, n)
        invariant key != -1 ==> SetAll(old(props), rest) == SetAll(SetToken(props, b[key..end]), b[save..n])
        invariant key == -1 ==> SetAll(old(props), rest) == props
        invariant forall j :: 0 <= j < from ==> b[j] == old(b[j])
        decreases if key == -1 then 0 else 1 + n - save
      {
        ghost var after := b[save..n];
        TakeToken(b, key, end);
        assert b[save..n] == after;
        key, save, end := Strtok(b, save, n);
      }
    }

    /** The part of parse_banner behind the first colon. */
    method TakeProps(b: array<char>, from: nat, ghost n: nat)
      requires IsStr(b[..], from, n)
      modifies this`props, b
      ensures props == if ':' in old(b[from..n]) then SetAll(old(props), After(old(b[from..n]), ':')) else old(props)
      ensures forall j :: 0 <= j < from ==> b[j] == old(b[j])
    {
      hide SetAll, IndexOf;
      ghost var rest := b[from..n];
      var cp := Strchr(b, from, ':', n);
      if cp != -1 {
        assert b[cp + 1..n] == rest[cp - from + 1..];
        TakeAll(b, cp + 1, n);
      }
    }

    /** parse_banner, which overwrites separators in its buffer. */
    method ParseBanner(b: array<char>, ghost n: nat)
      requires IsStr(b[..], 0, n)
      modifies this, b
      ensures props == ParsedProps(old(props), old(b[..n]))
      ensures state == ParsedState(old(b[..n]))
    {
      hide SetAll, StateNamed, IndexOf, After, ParsedProps, ParsedState;
      ghost var text := b[..n];
      assert b[0..n] == text;
      ParsedIs(props, text);
      ghost var typeEnd := IndexOf(text, ':');
      var cp := Strchr(b, 0, ':', n);
      if cp != -1 {
        b[cp] := NUL;
        assert b[cp + 1..n] == text[cp + 1..];
        TakeProps(b, cp + 1, n);
      } else {
        IndexIs(text, ':', n);
      }
      var name := StringAt(b, 0, typeEnd);
      assert name == text[..typeEnd];
      state := StateNamed(name);
    }
  }

  lemma ParsedIs(p: Props, text: string)
    ensures IndexOf(text, ':') <= |text| && ParsedState(text) == StateNamed(text[..IndexOf(text, ':')])
    ensures ':' !in text ==> ParsedProps(p, text) == p
    ensures ':' in text ==>
              IndexOf(text, ':') < |text| &&
              var rest := text[IndexOf(text, ':') + 1..];
              ParsedProps(p, text) == if ':' in rest then SetAll(p, After(rest, ':')) else p
  {
    hide SetAll, StateNamed;
  }

  // ---------- printing ----------

  function Min(a: int, b: int): int { if a <= b then a else b }

  /** snprintf with a non-zero size: as much of the text as fits, and a NUL; it returns the whole length. */
  method Put(buf: array<char>, at: nat, remaining: nat, text: string) returns (len: nat)
    requires at + remaining == buf.Length && remaining > 0
    modifies buf
    ensures len == |text|
    ensures var n := Min(|text|, remaining - 1); buf[at..at + n] == text[..n] && buf[at + n] == NUL
    ensures buf[..at] == old(buf[..at])
  {
    ghost var before := buf[..at];
    var i := 0;
    while i < |text| && i < remaining - 1
      invariant 0 <= i <= Min(|text|, remaining - 1) && buf[..at] == before && buf[at..at + i] == text[..i]
    {
      buf[at + i] := text[i];
      i := i + 1;
    }
    buf[at + i] := NUL;
    len := |text|;
  }

  /** The text after the banner and i properties. */
  function Printed(banner: string, v: seq<string>, i: nat): string
    requires i <= 3 == |v|
  {
    if i == 0 then banner + "::" else Printed(banner, v, i - 1) + Entry(i - 1, v[i - 1])
  }

  lemma PrintedIsText(banner: string, v: seq<string>)
    requires |v| == 3
    ensures Printed(banner, v, 3) == BannerText(banner, v)
  {
    hide Entry;
    assert Printed(banner, v, 2) == Printed(banner, v, 1) + Entry(1, v[1]);
    assert Printed(banner, v, 1) == Printed(banner, v, 0) + Entry(0, v[0]);
  }

  lemma PrintedIsPrefix(banner: string, v: seq<string>, i: nat)
    requires i <= 2 && |v| == 3
    ensures |Printed(banner, v, i)| <= |Printed(banner, v, 2)|
    decreases 2 - i
  {
    hide Entry;
    if i < 2 { PrintedIsPrefix(banner, v, i + 1); }
  }

  /** fill_connect_data: the size is that of the banner text and its NUL, and the buffer holds as much of the
      text as it can, then a NUL.  All but the last property must fit. */
  method FillConnectData(buf: array<char>, banner: string, v: seq<string>) returns (size: nat)
    requires |v| == 3 && |Printed(banner, v, 2)| < buf.Length
    modifies buf
    ensures size == |BannerText(banner, v)| + 1
    ensures Shows(buf[..], BannerText(banner, v))
  {
    hide Entry, BannerText, Shows;
    PrintedIsText(banner, v);
    PrintedIsPrefix(banner, v, 0);
    var remaining: int := buf.Length;
    var at := 0;
    var len := PutBehind(buf, "", at, remaining, banner + "::");
    assert "" + (banner + "::") == Printed(banner, v, 0);
    remaining, at := remaining - len, at + len;
    var i := 0;
    while i < 3
      invariant 0 <= i <= 3 && at == |Printed(banner, v, i)| && at + remaining == buf.Length
      invariant Shows(buf[..], Printed(banner, v, i))
    {
      PrintedIsPrefix(banner, v, i);
      len := PutBehind(buf, Printed(banner, v, i), at, remaining, Entry(i, v[i]));
      remaining, at := remaining - len, at + len;
      i := i + 1;
    }
    size := buf.Length - remaining + 1;
  }

  /** The buffer holds as much of the text as it can, and a NUL. */
  ghost predicate Shows(buf: seq<char>, text: string) {
    buf != [] && var n := Min(|text|, |buf| - 1); buf[..n + 1] == text[..n] + [NUL]
  }

  /** Printing behind a text that fits. */
  method PutBehind(buf: array<char>, ghost first: string, at: nat, remaining: nat, text: string) returns (len: nat)
    requires at + remaining == buf.Length && remaining > 0 && at == |first|
    requires Shows(buf[..], first) || first == ""
    modifies buf
    ensures len == |text| && Shows(buf[..], first + text)
  {
    assert buf[..at] == first;
    len := Put(buf, at, remaining, text);
    ghost var n := Min(len, remaining - 1);
    LastPrinted(first, text, buf[..at + n + 1], n);
  }

  lemma LastPrinted(first: string, last: string, b: string, n: nat)
    requires n <= |last| && |b| == |first| + n + 1 && b[..|first|] == first
    requires b[|first|..|first| + n] == last[..n] && b[|first| + n] == NUL
    ensures b == (first + last)[..|first| + n] + [NUL]
  {
    assert (first + last)[..|first| + n] == first + last[..n];
    assert b == b[..|first|] + b[|first|..|first| + n] + [b[|first| + n]];
  }

  /** Printing into a buffer and parsing it there. */
  method Greet(buf: array<char>, banner: string, v: seq<string>, peer: Peer)
    requires |v| == 3 && |BannerText(banner, v)| < buf.Length
    requires ':' !in banner && NUL !in banner && forall i :: 0 <= i < 3 ==> ';' !in v[i] && NUL !in v[i]
    modifies buf, peer
    ensures peer.props.product == if v[0] == "" then None else Some(v[0])
    ensures peer.props.model == if v[1] == "" then None else Some(v[1])
    ensures peer.props.device == if v[2] == "" then None else Some(v[2])
    ensures peer.state == StateNamed(banner)
  {
    hide ParsedProps, ParsedState, StateNamed, Qual, BannerText, Shows, IsStr;
    BannerRoundTrip(peer.props, banner, v);
    PrintedFits(banner, v);
    var size := FillConnectData(buf, banner, v);
    NoNul(banner, v);
    ShownIsString(buf[..], BannerText(banner, v));
    peer.ParseBanner(buf, size - 1);
  }

  lemma PrintedFits(banner: string, v: seq<string>)
    requires |v| == 3
    ensures |Printed(banner, v, 2)| <= |BannerText(banner, v)|
  {
    hide BannerText, Entry;
    PrintedIsText(banner, v);
  }

  lemma ShownIsString(b: seq<char>, text: string)
    requires Shows(b, text) && |text| < |b| && NUL !in text
    ensures IsStr(b, 0, |text|) && b[..|text|] == text
  {
    assert b[..|text|] == b[..|text| + 1][..|text|];
    assert b[|text|] == b[..|text| + 1][|text|];
    forall k | 0 <= k < |text| ensures b[k] != NUL { assert b[k] == text[k]; }
  }

  lemma NoNul(banner: string, v: seq<string>)
    requires |v| == 3 && NUL !in banner && forall i :: 0 <= i < 3 ==> NUL !in v[i]
    ensures NUL !in BannerText(banner, v)
  {
    assert forall i :: 0 <= i < 3 ==> NUL !in KEYS[i];
  }
}
