/** The callbacks of the multiplexer, one transition each, and the proof that every one of them
    keeps the invariant. */
module SocketSteps {
  import opened Bytes
  import opened Rings
  import opened SocketModel
  import opened SocketInvariant
  import SmartSocket

  // ---------- changing one socket ----------

  function Update(st: State, a: Addr, s: LocalSock, l: StreamLog): State {
    st.(socks := st.socks[a := Local(s)], logs := st.logs[a := l])
  }

  function Told(l: StreamLog, m: Msg): StreamLog {
    l.(sent := l.sent + [m])
  }

  predicate SameOrigin(l: StreamLog, l': StreamLog) { l.serial == l'.serial && l.byRemote == l'.byRemote }

  lemma UpdateKeepsPeers(st: State, a: Addr, s: LocalSock, l: StreamLog)
    requires PeersOk(st) && SmartsOk(st) && IsLocal(st, a) && a in st.logs
    requires s.peer == st.socks[a].l.peer && SameOrigin(l, st.logs[a])
    requires HasSmartPeer(st, a) ==> s.queue == []
    ensures PeersOk(Update(st, a, s, l)) && SmartsOk(Update(st, a, s, l))
  {
    var st' := Update(st, a, s, l);
    forall b | b in st'.socks ensures Paired(st', b) { assert Paired(st, b); }
    forall b | HasSmartPeer(st', b) ensures HasSmartPeer(st, b) { assert Paired(st, b); }
  }

  lemma UpdateKeepsRings(st: State, a: Addr, s: LocalSock, l: StreamLog)
    requires RingsOk(st) && TransportsOk(st) && HomesOk(st) && NamesOk(st) && IsLocal(st, a) && a in st.logs
    requires SameOrigin(l, st.logs[a])
    ensures RingsOk(Update(st, a, s, l)) && NamesOk(Update(st, a, s, l))
    ensures TransportsOk(Update(st, a, s, l)) && HomesOk(Update(st, a, s, l))
  {
    var st' := Update(st, a, s, l);
    forall t | t in st'.trans ensures TransportOk(st', t) { assert TransportOk(st, t); }
  }

  lemma UpdateKeepsGraph(st: State, a: Addr, s: LocalSock, l: StreamLog)
    requires GraphOk(st) && IsLocal(st, a) && a in st.logs
    requires s.peer == st.socks[a].l.peer && SameOrigin(l, st.logs[a])
    requires HasSmartPeer(st, a) ==> s.queue == []
    ensures GraphOk(Update(st, a, s, l))
  {
    UpdateKeepsPeers(st, a, s, l);
    UpdateKeepsRings(st, a, s, l);
  }

  lemma UpdateKeepsRest(st: State, a: Addr, s: LocalSock, l: StreamLog)
    requires InvBut(st, a)
    requires s.peer == st.socks[a].l.peer && SameOrigin(l, st.logs[a])
    requires HasSmartPeer(st, a) ==> s.queue == []
    ensures InvBut(Update(st, a, s, l), a)
    ensures StreamOk(Update(st, a, s, l), a) ==> Inv(Update(st, a, s, l))
  {
    var st' := Update(st, a, s, l);
    UpdateKeepsGraph(st, a, s, l);
    forall b | b in st'.logs && b != a ensures StreamOk(st', b) { assert StreamOk(st, b); }
  }

  lemma InvSplits(st: State, a: Addr)
    requires Inv(st) && IsLocal(st, a)
    ensures InvBut(st, a) && StreamOk(st, a) && PeerUsable(st, a)
    ensures a in st.live ==> LiveOk(st.socks[a].l, st.logs[a]) && Closable(st.socks[a].l, st.logs[a])
    ensures a !in st.live ==> ParkedOk(st.socks[a].l, st.logs[a])
  {
    assert StreamOk(st, a);
    PeerIsUsable(st, a);
  }

  // ---------- closing several sockets ----------

  lemma CloseLive(st: State, a: Addr, announce: bool)
    requires Inv(st) && a in st.live
    ensures IsLocal(st, a) && PeerUsable(st, a) && Inv(Close(st, a, announce))
    ensures Closed(st, Close(st, a, announce), a)
    ensures forall b :: b in Close(st, a, announce).live <==> b in st.live && b != a
  {
    InvSplits(st, a);
    CloseKeepsInv(st, a, announce);
    CloseShape(st, a, announce);
    WithoutFacts(st.live, a);
  }

  ghost predicate AllLive(st: State, victims: seq<Addr>) {
    NoDup(victims) && forall a :: a in victims ==> a in st.live
  }

  lemma AllLiveTail(st: State, victims: seq<Addr>)
    requires Inv(st) && AllLive(st, victims) && victims != []
    ensures IsLocal(st, victims[0]) && PeerUsable(st, victims[0]) && Inv(Close(st, victims[0], true))
    ensures AllLive(Close(st, victims[0], true), victims[1..])
  {
    CloseLive(st, victims[0], true);
    assert forall a :: a in victims[1..] ==> a in st.live && a != victims[0];
  }

  /** Close these live sockets, in order. */
  function CloseEach(st: State, victims: seq<Addr>): (st': State)
    requires Inv(st) && AllLive(st, victims)
    ensures Inv(st')
    decreases |victims|
  {
    if victims == [] then st
    else
      AllLiveTail(st, victims);
      CloseEach(Close(st, victims[0], true), victims[1..])
  }

  /** The condition under which close_all_sockets(t) picks a socket of the live ring. */
  predicate Picks(socks: map<Addr, Sock>, a: Addr, t: Tid) {
    && a in socks && socks[a].Local?
    && var s := socks[a].l;
       || s.transport == Some(t)
       || (s.peer.Some? && s.peer.value in socks && socks[s.peer.value].Remote? &&
           socks[s.peer.value].r.transport == t)
  }

  predicate Touches(st: State, a: Addr, t: Tid) {
    Picks(st.socks, a, t)
  }

  function Touching(st: State, ring: seq<Addr>, t: Tid): (v: seq<Addr>)
    ensures forall a :: a in v <==> a in ring && Touches(st, a, t)
    ensures NoDup(ring) ==> NoDup(v)
  {
    if ring == [] then []
    else
      assert ring == [ring[0]] + ring[1..];
      assert NoDup(ring) ==> NoDup(ring[1..]) && ring[0] !in ring[1..];
      if Touches(st, ring[0], t) then [ring[0]] + Touching(st, ring[1..], t)
      else Touching(st, ring[1..], t)
  }

  lemma RemoteHasLivePeer(st: State, r: Addr)
    requires Inv(st) && r in st.socks && st.socks[r].Remote?
    ensures st.socks[r].r.peer.Some? && st.socks[r].r.peer.value in st.live
    ensures IsLocal(st, st.socks[r].r.peer.value) && st.socks[st.socks[r].r.peer.value].l.peer == Some(r)
  {
    assert Paired(st, r);
    InvSplits(st, st.socks[r].r.peer.value);
  }

  /** Same transports, in the same connection states. */
  ghost predicate SameLinks(st: State, st': State) {
    && st'.trans.Keys == st.trans.Keys
    && forall t :: t in st.trans ==> st'.trans[t].conn == st.trans[t].conn && st'.trans[t].online == st.trans[t].online
  }

  ghost predicate SameRemotesBut(st: State, st': State, gone: seq<Addr>) {
    && (forall q :: q in st.socks && st.socks[q].Remote? && q !in gone ==>
          q in st'.socks && st'.socks[q] == st.socks[q])
    && (forall q :: q in st'.socks && st'.socks[q].Remote? ==>
          q in st.socks && st'.socks[q] == st.socks[q] && q !in gone)
  }

  /** remote_socket_disconnect: the local peer is closed with no CLSE and the remote socket goes. */
  function Disconnect(st: State, r: Addr): (st': State)
    requires Inv(st) && r in st.socks && st.socks[r].Remote?
    ensures Inv(st')
  {
    RemoteHasLivePeer(st, r);
    CloseLive(st, st.socks[r].r.peer.value, false);
    Close(st, st.socks[r].r.peer.value, false)
  }

  lemma ClosedSpares(st: State, st': State, a: Addr, r: Addr)
    requires IsLocal(st, a) && Closed(st, st', a) && st.socks[a].l.peer == Some(r)
    ensures SameLinks(st, st') && SameRemotesBut(st, st', [r])
  {
  }

  lemma DisconnectEffect(st: State, r: Addr)
    requires Inv(st) && r in st.socks && st.socks[r].Remote?
    ensures SameLinks(st, Disconnect(st, r)) && SameRemotesBut(st, Disconnect(st, r), [r])
  {
    RemoteHasLivePeer(st, r);
    var a := st.socks[r].r.peer.value;
    CloseLive(st, a, false);
    ClosedSpares(st, Disconnect(st, r), a, r);
  }

  lemma SameRemotesChain(st: State, st1: State, st2: State, r: Addr, rest: seq<Addr>)
    requires SameRemotesBut(st, st1, [r]) && SameRemotesBut(st1, st2, rest)
    ensures SameRemotesBut(st, st2, [r] + rest)
  {
  }

  ghost predicate AllRemote(st: State, rs: seq<Addr>) {
    NoDup(rs) && forall r :: r in rs ==> r in st.socks && st.socks[r].Remote?
  }

  lemma AllRemoteTail(st: State, st1: State, rs: seq<Addr>)
    requires rs != [] && AllRemote(st, rs) && SameRemotesBut(st, st1, [rs[0]])
    ensures AllRemote(st1, rs[1..])
  {
    assert forall r :: r in rs[1..] ==> r in rs && r !in [rs[0]];
  }

  function DisconnectEach(st: State, remotes: seq<Addr>): (st': State)
    requires Inv(st) && AllRemote(st, remotes)
    ensures Inv(st')
    decreases |remotes|
  {
    if remotes == [] then st
    else
      DisconnectEffect(st, remotes[0]);
      AllRemoteTail(st, Disconnect(st, remotes[0]), remotes);
      DisconnectEach(Disconnect(st, remotes[0]), remotes[1..])
  }

  lemma {:induction false} DisconnectEachEffect(st: State, remotes: seq<Addr>)
    requires Inv(st) && AllRemote(st, remotes)
    ensures SameLinks(st, DisconnectEach(st, remotes))
    ensures SameRemotesBut(st, DisconnectEach(st, remotes), remotes)
    decreases |remotes|
  {
    hide GraphOk, StreamsOk;
    if remotes != [] {
      var st1 := Disconnect(st, remotes[0]);
      DisconnectEffect(st, remotes[0]);
      AllRemoteTail(st, st1, remotes);
      DisconnectEachEffect(st1, remotes[1..]);
      SameRemotesChain(st, st1, DisconnectEach(st1, remotes[1..]), remotes[0], remotes[1..]);
      assert remotes == [remotes[0]] + remotes[1..];
    }
  }

  function SetLink(st: State, t: Tid, conn: ConnState, online: bool): State
    requires t in st.trans
  {
    st.(trans := st.trans[t := st.trans[t].(conn := conn, online := online)])
  }

  /** run_transport_disconnects over the whole ring of t. */
  function RunDisconnects(st: State, t: Tid): (st': State)
    requires Inv(st) && t in st.trans
    ensures Inv(st') && SameLinks(st, st') && SameRemotesBut(st, st', st.trans[t].ring)
    ensures st'.trans[t].ring == []
  {
    assert TransportOk(st, t);
    DisconnectEachEffect(st, st.trans[t].ring);
    RingEmptied(st, DisconnectEach(st, st.trans[t].ring), t);
    DisconnectEach(st, st.trans[t].ring)
  }

  /** Remote sockets that are unchanged are on the same ring as before. */
  lemma RingOnlyShrinks(st: State, st': State, t: Tid, gone: seq<Addr>)
    requires HomesOk(st) && TransportsOk(st') && t in st'.trans
    requires SameRemotesBut(st, st', gone)
    ensures forall r :: r in st'.trans[t].ring ==> t in st.trans && r in st.trans[t].ring && r !in gone
  {
    assert TransportOk(st', t);
  }

  lemma RingEmptied(st: State, st': State, t: Tid)
    requires Inv(st) && Inv(st') && t in st.trans && t in st'.trans
    requires SameRemotesBut(st, st', st.trans[t].ring)
    ensures st'.trans[t].ring == []
  {
    RingOnlyShrinks(st, st', t, st.trans[t].ring);
    NonEmptyHasMember(st'.trans[t].ring);
  }

  lemma NonEmptyHasMember(s: seq<Addr>)
    ensures s == [] || exists x :: x in s
  {
    if s != [] { assert s[0] in s; }
  }

  function GoOffline(st: State, t: Tid): (st': State)
    requires Inv(st) && t in st.trans
    ensures Inv(st') && t in st'.trans && st'.trans[t] == Transport(Offline, false, [])
  {
    var st1 := RunDisconnects(st, t);
    LinkKeepsInv(st1, t, Offline, false);
    SetLink(st1, t, Offline, false)
  }

  /** A change to the transports alone. */
  lemma TransportsOnlyKeepInv(st: State, st': State)
    requires Inv(st) && HomesOk(st') && TransportsOk(st')
    requires st' == st.(trans := st'.trans, refusals := st'.refusals)
    ensures Inv(st')
  {
    forall b | b in st'.socks ensures Paired(st', b) { assert Paired(st, b); }
    forall b | b in st'.logs ensures StreamOk(st', b) { assert StreamOk(st, b); }
    assert forall b :: HasSmartPeer(st', b) ==> HasSmartPeer(st, b);
  }

  lemma LinkKeepsInv(st: State, t: Tid, conn: ConnState, online: bool)
    requires Inv(st) && t in st.trans
    requires online <==> Up(conn)
    requires !online ==> st.trans[t].ring == []
    ensures Inv(SetLink(st, t, conn, online))
  {
    var st' := SetLink(st, t, conn, online);
    forall u | u in st'.trans ensures TransportOk(st', u) { assert TransportOk(st, u); }
    TransportsOnlyKeepInv(st, st');
  }

  // ---------- creating sockets ----------

  function NextId(st: State): nat { (st.installs + 1) % ID_SPACE }

  /** A_OPEN for a service that exists: a local and a remote socket, peers of each other; the first
      OKAY goes out and the local socket starts reading. */
  function OpenStream(st: State, t: Tid, rid: nat): State
    requires t in st.trans
  {
    var a, r := st.nextAddr, st.nextAddr + 1;
    var id := NextId(st);
    st.(socks := st.socks[a := Local(LocalSock(id, false, Some(r), [], true, false, None, false))]
                         [r := Remote(RemoteSock(rid, Some(a), t))],
        live := st.live + [a],
        installs := st.installs + 1,
        nextAddr := st.nextAddr + 2,
        trans := st.trans[t := st.trans[t].(ring := st.trans[t].ring + [r])],
        logs := st.logs[a := StreamLog(st.installs + 1, true, [Msg(OKAY, id, rid, [], t)], 0, 0, [], [], false)])
  }

  /** A connection accepted on the host-side listener: a local socket whose peer is a smart socket. */
  function AcceptStream(st: State): State {
    var a, p := st.nextAddr, st.nextAddr + 1;
    st.(socks := st.socks[a := Local(LocalSock(NextId(st), false, Some(p), [], true, false, None, false))]
                         [p := Smart(Some(a), [])],
        live := st.live + [a],
        installs := st.installs + 1,
        nextAddr := st.nextAddr + 2,
        logs := st.logs[a := StreamLog(st.installs + 1, false, [], 0, 0, [], [], false)])
  }

  /** create_remote_socket for a local socket that has no peer yet. */
  function AdoptRemote(st: State, a: Addr, t: Tid, rid: nat): State
    requires t in st.trans && IsLocal(st, a)
  {
    var r := st.nextAddr;
    st.(socks := st.socks[a := Local(st.socks[a].l.(peer := Some(r)))][r := Remote(RemoteSock(rid, Some(a), t))],
        nextAddr := st.nextAddr + 1,
        trans := st.trans[t := st.trans[t].(ring := st.trans[t].ring + [r])])
  }

  lemma FreshAppends(st: State, s: seq<Addr>, x: Addr)
    requires NamesOk(st) && NoDup(s) && st.nextAddr <= x && forall b :: b in s ==> b in st.socks
    ensures NoDup(s + [x])
  {
    forall i | 0 <= i < |s| ensures s[i] != x { assert s[i] in s; }
  }

  /** A new local socket a and its new peer p, with a log for a; nothing else but the disconnect
      rings may differ. */
  ghost predicate Grown(st: State, st': State, a: Addr, p: Addr) {
    && a == st.nextAddr && p == a + 1 && st'.nextAddr == a + 2
    && st'.socks.Keys == st.socks.Keys + {a, p}
    && (forall b :: b in st.socks && b != a && b != p ==> st'.socks[b] == st.socks[b])
    && st'.socks[a].Local? && !st'.socks[p].Local?
    && st'.socks[a].Peer() == Some(p) && st'.socks[p].Peer() == Some(a)
    && st'.live == st.live + [a] && st'.closing == st.closing
    && st'.installs == st.installs + 1
    && st'.logs.Keys == st.logs.Keys + {a}
    && (forall b :: b in st.logs && b != a ==> st'.logs[b] == st.logs[b])
    && st'.logs[a].serial == st'.installs
  }

  lemma GrownKeepsNames(st: State, st': State, a: Addr, p: Addr)
    requires NamesOk(st) && Grown(st, st', a, p)
    ensures NamesOk(st')
  {
  }

  lemma GrownKeepsRings(st: State, st': State, a: Addr, p: Addr)
    requires RingsOk(st) && NamesOk(st) && Grown(st, st', a, p)
    ensures RingsOk(st')
  {
    FreshAppends(st, st.live, a);
    assert forall b :: b in st'.live <==> b in st.live || b == a;
    assert forall b :: IsLocal(st', b) <==> IsLocal(st, b) || b == a;
  }

  lemma GrownKeepsPeers(st: State, st': State, a: Addr, p: Addr)
    requires Inv(st) && Grown(st, st', a, p) && st'.socks[a].l.queue == []
    requires st'.socks[p].Smart? ==> !st'.logs[a].byRemote
    ensures PeersOk(st') && SmartsOk(st')
  {
    forall b | b in st'.socks ensures Paired(st', b) {
      if b in st.socks { assert Paired(st, b); }
    }
    forall b | HasSmartPeer(st', b) && b != a ensures HasSmartPeer(st, b) { assert Paired(st, b); }
  }

  lemma GrownKeepsStreams(st: State, st': State, a: Addr, p: Addr)
    requires Inv(st) && Grown(st, st', a, p)
    requires LogOk(st'.logs[a]) && LiveOk(st'.socks[a].l, st'.logs[a])
    ensures StreamsOk(st')
  {
    forall b | b in st'.logs ensures StreamOk(st', b) {
      if b != a {
        assert StreamOk(st, b);
        assert b < st.nextAddr;
        assert b in st'.live <==> b in st.live;
      }
    }
  }

  lemma OpenKeepsTransports(st: State, t: Tid, rid: nat)
    requires Inv(st) && t in st.trans && st.trans[t].online
    ensures TransportsOk(OpenStream(st, t, rid)) && HomesOk(OpenStream(st, t, rid))
  {
    var st' := OpenStream(st, t, rid);
    forall u | u in st'.trans ensures TransportOk(st', u) {
      assert TransportOk(st, u);
      FreshAppends(st, st.trans[u].ring, st.nextAddr + 1);
    }
  }

  lemma OpenGrows(st: State, t: Tid, rid: nat)
    requires t in st.trans
    ensures Grown(st, OpenStream(st, t, rid), st.nextAddr, st.nextAddr + 1)
    ensures OpenStream(st, t, rid).logs[st.nextAddr].byRemote
    ensures OpenStream(st, t, rid).socks[st.nextAddr + 1].Remote?
    ensures OpenStream(st, t, rid).socks[st.nextAddr].l.queue == []
    ensures LogOk(OpenStream(st, t, rid).logs[st.nextAddr])
    ensures LiveOk(OpenStream(st, t, rid).socks[st.nextAddr].l, OpenStream(st, t, rid).logs[st.nextAddr])
  {
  }

  lemma OpenKeepsInv(st: State, t: Tid, rid: nat)
    requires Inv(st) && t in st.trans && st.trans[t].online
    ensures Inv(OpenStream(st, t, rid))
  {
    OpenKeepsTransports(st, t, rid);
    OpenGrows(st, t, rid);
    GrownKeepsInv(st, OpenStream(st, t, rid), st.nextAddr, st.nextAddr + 1);
  }

  lemma GrownKeepsInv(st: State, st': State, a: Addr, p: Addr)
    requires Inv(st) && Grown(st, st', a, p) && st'.socks[a].l.queue == []
    requires st'.socks[p].Smart? ==> !st'.logs[a].byRemote
    requires LogOk(st'.logs[a]) && LiveOk(st'.socks[a].l, st'.logs[a])
    requires TransportsOk(st') && HomesOk(st')
    ensures Inv(st')
  {
    GrownKeepsNames(st, st', a, p);
    GrownKeepsRings(st, st', a, p);
    GrownKeepsPeers(st, st', a, p);
    GrownKeepsStreams(st, st', a, p);
  }

  lemma AcceptKeepsTransports(st: State)
    requires Inv(st)
    ensures TransportsOk(AcceptStream(st)) && HomesOk(AcceptStream(st))
  {
    var st' := AcceptStream(st);
    forall u | u in st'.trans ensures TransportOk(st', u) { assert TransportOk(st, u); }
  }

  lemma AcceptKeepsInv(st: State)
    requires Inv(st)
    ensures Inv(AcceptStream(st))
  {
    AcceptKeepsTransports(st);
    GrownKeepsInv(st, AcceptStream(st), st.nextAddr, st.nextAddr + 1);
  }

  lemma AdoptKeepsTransports(st: State, a: Addr, t: Tid, rid: nat)
    requires Inv(st) && t in st.trans && st.trans[t].online && IsLocal(st, a)
    ensures TransportsOk(AdoptRemote(st, a, t, rid)) && HomesOk(AdoptRemote(st, a, t, rid))
  {
    hide StreamsOk, PeersOk, SmartsOk, RingsOk;
    var st' := AdoptRemote(st, a, t, rid);
    forall u | u in st'.trans ensures TransportOk(st', u) {
      assert TransportOk(st, u);
      FreshAppends(st, st.trans[u].ring, st.nextAddr);
    }
  }

  lemma AdoptKeepsPeers(st: State, a: Addr, t: Tid, rid: nat)
    requires PeersOk(st) && SmartsOk(st) && NamesOk(st)
    requires t in st.trans && IsLocal(st, a) && st.socks[a].l.peer.None?
    ensures PeersOk(AdoptRemote(st, a, t, rid)) && SmartsOk(AdoptRemote(st, a, t, rid))
  {
    var st' := AdoptRemote(st, a, t, rid);
    assert Paired(st, a);
    forall b | b in st'.socks ensures Paired(st', b) { if b in st.socks && b != a { assert Paired(st, b); } }
    forall b | HasSmartPeer(st', b) ensures HasSmartPeer(st, b) { if b != a { assert Paired(st, b); } }
  }

  lemma AdoptKeepsRings(st: State, a: Addr, t: Tid, rid: nat)
    requires RingsOk(st) && NamesOk(st) && t in st.trans && IsLocal(st, a)
    ensures RingsOk(AdoptRemote(st, a, t, rid)) && NamesOk(AdoptRemote(st, a, t, rid))
  {
    assert forall b :: IsLocal(AdoptRemote(st, a, t, rid), b) <==> IsLocal(st, b);
  }

  lemma AdoptKeepsRest(st: State, a: Addr, t: Tid, rid: nat)
    requires Inv(st) && t in st.trans && st.trans[t].online && a in st.live && st.socks[a].l.peer.None?
    ensures InvBut(AdoptRemote(st, a, t, rid), a)
  {
    var st' := AdoptRemote(st, a, t, rid);
    AdoptKeepsTransports(st, a, t, rid);
    AdoptKeepsPeers(st, a, t, rid);
    AdoptKeepsRings(st, a, t, rid);
    forall b | b in st'.logs && b != a ensures StreamOk(st', b) { assert StreamOk(st, b); }
  }

  // ---------- packets ----------

  predicate HasRemotePeer(st: State, a: Addr) {
    && IsLocal(st, a) && st.socks[a].l.peer.Some?
    && st.socks[a].l.peer.value in st.socks && st.socks[st.socks[a].l.peer.value].Remote?
  }

  /** The socket a packet names, if it is on the live ring. */
  function Target(st: State, id: nat): Option<Addr> {
    FindFrom(st, st.live, id)
  }

  /** local_socket_ready (and local_socket_ready_notify) on an OKAY. */
  function StartReading(st: State, a: Addr): State
    requires IsLocal(st, a) && a in st.logs
  {
    Update(st, a, st.socks[a].l.(wantRead := true, notify := false),
           st.logs[a].(okaysIn := st.logs[a].okaysIn + 1))
  }

  /** A_OKAY: a local socket without a peer gets its remote socket now; either way it starts reading. */
  function OnOkay(st: State, t: Tid, rid: nat, lid: nat): State
    requires t in st.trans && Inv(st)
  {
    var found := Target(st, lid);
    if !st.trans[t].online || found.None? then st
    else
      InvSplits(st, found.value);
      if st.socks[found.value].l.peer.None? then
        StartReading(AdoptRemote(st, found.value, t, rid), found.value)
      else StartReading(st, found.value)
  }

  /** A_CLSE. */
  function OnClose(st: State, t: Tid, lid: nat): State
    requires t in st.trans && Inv(st)
  {
    var found := Target(st, lid);
    if !st.trans[t].online || found.None? then st
    else InvSplits(st, found.value); Close(st, found.value, true)
  }

  /** The socket and its log change, and then s->close(s) runs. */
  function UpdateClose(st: State, a: Addr, s: LocalSock, l: StreamLog): State
    requires IsLocal(st, a) && a in st.logs && s.peer == st.socks[a].l.peer && PeerUsable(st, a)
  {
    Close(Update(st, a, s, l), a, true)
  }

  /** local_socket_enqueue for a live socket, and the OKAY that handle_packet sends when it took
      everything at once.  With an empty queue the descriptor takes the first `wrote` bytes; if that is
      not all of them it would block, or the write failed (`broke`). */
  function Enqueue(st: State, a: Addr, t: Tid, rid: nat, payload: Bytes, wrote: nat, broke: bool): State
    requires IsLocal(st, a) && PeerUsable(st, a) && wrote <= |payload|
  {
    var s := st.socks[a].l;
    var l := st.logs[a].(writesIn := st.logs[a].writesIn + 1, accepted := st.logs[a].accepted + payload);
    var l1 := l.(written := l.written + payload[..wrote]);
    if s.queue != [] then Update(st, a, s.(queue := s.queue + [payload], wantWrite := true), l)
    else if wrote == |payload| then Update(st, a, s, Told(l1, Msg(OKAY, s.id, rid, [], t)))
    else if !broke then Update(st, a, s.(queue := [payload[wrote..]], wantWrite := true), l1)
    else UpdateClose(st, a, s, l1.(failed := true))
  }

  /** A_WRTE. */
  function OnWrite(st: State, t: Tid, rid: nat, lid: nat, payload: Bytes, wrote: nat, broke: bool): State
    requires t in st.trans && Inv(st) && wrote <= |payload|
  {
    var found := Target(st, lid);
    if !st.trans[t].online || found.None? then st
    else InvSplits(st, found.value); Enqueue(st, found.value, t, rid, payload, wrote, broke)
  }

  /** A_CNXN: any previous connection goes offline first; then the banner names the new state. */
  function OnConnect(st: State, t: Tid, conn: ConnState): State
    requires t in st.trans && Inv(st)
  {
    var st1 := if st.trans[t].conn != Offline then GoOffline(st, t) else st;
    SetLink(st1, t, conn, true)
  }

  ghost predicate MayStartReading(st: State, a: Addr) {
    && IsLocal(st, a) && a in st.logs && a in st.live && st.socks[a].l.peer.Some?
    && LogOk(st.logs[a]) && LiveOk(st.socks[a].l.(notify := false), st.logs[a])
  }

  lemma ReadingOk(s: LocalSock, l: StreamLog)
    requires LogOk(l) && LiveOk(s.(notify := false), l) && s.peer.Some?
    ensures LogOk(l.(okaysIn := l.okaysIn + 1))
    ensures LiveOk(s.(wantRead := true, notify := false), l.(okaysIn := l.okaysIn + 1))
  {
  }

  lemma StartReadingKeepsInv(st: State, a: Addr)
    requires InvBut(st, a) && MayStartReading(st, a)
    ensures Inv(StartReading(st, a))
  {
    hide StreamOk, PeersOk, HomesOk, TransportsOk, NamesOk, RingsOk;
    var s, l := st.socks[a].l, st.logs[a];
    ReadingOk(s, l);
    var s', l' := s.(wantRead := true, notify := false), l.(okaysIn := l.okaysIn + 1);
    LiveUpdateKeepsInv(st, a, s', l');
    assert StartReading(st, a) == Update(st, a, s', l');
  }

  lemma LiveUpdateKeepsInv(st: State, a: Addr, s: LocalSock, l: StreamLog)
    requires InvBut(st, a) && a in st.live
    requires s.peer == st.socks[a].l.peer && SameOrigin(l, st.logs[a])
    requires HasSmartPeer(st, a) ==> s.queue == []
    requires LogOk(l) && LiveOk(s, l)
    ensures Inv(Update(st, a, s, l))
  {
    assert StreamOk(Update(st, a, s, l), a);
    UpdateKeepsRest(st, a, s, l);
  }

  lemma AdoptedMayRead(st: State, a: Addr, t: Tid, rid: nat)
    requires t in st.trans && a in st.live && IsLocal(st, a) && st.socks[a].l.peer.None?
    requires a in st.logs && a < st.nextAddr
    requires LogOk(st.logs[a]) && LiveOk(st.socks[a].l, st.logs[a])
    ensures MayStartReading(AdoptRemote(st, a, t, rid), a)
  {
  }

  lemma OkayFoundKeepsInv(st: State, t: Tid, rid: nat, a: Addr)
    requires t in st.trans && Inv(st) && a in st.live && st.trans[t].online
    ensures IsLocal(st, a) && a in st.logs
    ensures st.socks[a].l.peer.Some? ==> Inv(StartReading(st, a))
    ensures st.socks[a].l.peer.None? ==>
              MayStartReading(AdoptRemote(st, a, t, rid), a) && InvBut(AdoptRemote(st, a, t, rid), a)
  {
    InvSplits(st, a);
    if st.socks[a].l.peer.None? {
      AdoptKeepsRest(st, a, t, rid);
      AdoptedMayRead(st, a, t, rid);
    } else {
      StartReadingKeepsInv(st, a);
    }
  }

  lemma OnOkayKeepsInv(st: State, t: Tid, rid: nat, lid: nat)
    requires t in st.trans && Inv(st)
    ensures Inv(OnOkay(st, t, rid, lid))
  {
    var found := Target(st, lid);
    if st.trans[t].online && found.Some? {
      OkayFoundKeepsInv(st, t, rid, found.value);
      if st.socks[found.value].l.peer.None? {
        StartReadingKeepsInv(AdoptRemote(st, found.value, t, rid), found.value);
      }
    }
  }

  lemma OnCloseKeepsInv(st: State, t: Tid, lid: nat)
    requires t in st.trans && Inv(st)
    ensures Inv(OnClose(st, t, lid))
  {
    var found := Target(st, lid);
    if st.trans[t].online && found.Some? { CloseLive(st, found.value, true); }
  }

  /** A queue that takes another packet. */
  lemma QueueKeepsInv(st: State, a: Addr, s: LocalSock, l: StreamLog)
    requires Inv(st) && a in st.live && st.socks[a].l.peer.Some? && !HasSmartPeer(st, a)
    requires s == st.socks[a].l.(queue := s.queue, wantWrite := true) && s.queue != []
    requires l == st.logs[a].(writesIn := st.logs[a].writesIn + 1, accepted := l.accepted, written := l.written)
    requires l.accepted == l.written + Concat(s.queue) && |s.queue| <= |st.socks[a].l.queue| + 1
    ensures Inv(Update(st, a, s, l))
  {
    InvSplits(st, a);
    UpdateKeepsRest(st, a, s, l);
  }

  lemma AnswerOk(s: LocalSock, l: StreamLog, l1: StreamLog, m: Msg)
    requires LogOk(l) && LiveOk(s, l) && s.queue == [] && m.command == OKAY
    requires l1 == l.(writesIn := l.writesIn + 1, accepted := l1.accepted, written := l1.written)
    requires l1.accepted == l1.written
    ensures LogOk(Told(l1, m)) && LiveOk(s, Told(l1, m))
  {
    CountAppend(l.sent, m, OKAY);
    CountAppend(l.sent, m, WRTE);
  }

  /** A packet written whole and answered with OKAY. */
  lemma AnswerKeepsInv(st: State, a: Addr, l1: StreamLog, m: Msg)
    requires Inv(st) && a in st.live && IsLocal(st, a) && a in st.logs
    requires st.socks[a].l.queue == [] && m.command == OKAY
    requires l1 == st.logs[a].(writesIn := st.logs[a].writesIn + 1, accepted := l1.accepted, written := l1.written)
    requires l1.accepted == l1.written
    ensures Inv(Update(st, a, st.socks[a].l, Told(l1, m)))
  {
    InvSplits(st, a);
    AnswerOk(st.socks[a].l, st.logs[a], l1, m);
    LiveUpdateKeepsInv(st, a, st.socks[a].l, Told(l1, m));
  }

  lemma UpdateCloseKeepsInv(st: State, a: Addr, s: LocalSock, l: StreamLog)
    requires Inv(st) && IsLocal(st, a) && a in st.logs && s.peer == st.socks[a].l.peer && SameOrigin(l, st.logs[a])
    requires HasSmartPeer(st, a) ==> s.queue == []
    requires Closable(s, l)
    ensures PeerUsable(st, a) && Inv(UpdateClose(st, a, s, l))
  {
    InvSplits(st, a);
    UpdateKeepsRest(st, a, s, l);
    CloseKeepsInv(Update(st, a, s, l), a, true);
  }

  lemma AppendKeepsInv(st: State, a: Addr, payload: Bytes)
    requires Inv(st) && a in st.live && HasRemotePeer(st, a) && a in st.logs && st.socks[a].l.queue != []
    ensures var s, l := st.socks[a].l, st.logs[a];
      Inv(Update(st, a, s.(queue := s.queue + [payload], wantWrite := true),
                 l.(writesIn := l.writesIn + 1, accepted := l.accepted + payload)))
  {
    InvSplits(st, a);
    var s, l := st.socks[a].l, st.logs[a];
    ConcatAppend(s.queue, [payload]);
    assert Concat([payload]) == payload;
    QueueKeepsInv(st, a, s.(queue := s.queue + [payload], wantWrite := true),
                  l.(writesIn := l.writesIn + 1, accepted := l.accepted + payload));
  }

  lemma PartialKeepsInv(st: State, a: Addr, payload: Bytes, wrote: nat)
    requires Inv(st) && a in st.live && HasRemotePeer(st, a) && a in st.logs && st.socks[a].l.queue == []
    requires wrote < |payload|
    ensures var s, l := st.socks[a].l, st.logs[a];
      Inv(Update(st, a, s.(queue := [payload[wrote..]], wantWrite := true),
                 l.(writesIn := l.writesIn + 1, accepted := l.accepted + payload,
                    written := l.written + payload[..wrote])))
  {
    InvSplits(st, a);
    var s, l := st.socks[a].l, st.logs[a];
    assert payload == payload[..wrote] + payload[wrote..];
    assert Concat([payload[wrote..]]) == payload[wrote..];
    QueueKeepsInv(st, a, s.(queue := [payload[wrote..]], wantWrite := true),
                  l.(writesIn := l.writesIn + 1, accepted := l.accepted + payload,
                     written := l.written + payload[..wrote]));
  }

  lemma RefusedOk(s: LocalSock, l: StreamLog, payload: Bytes, wrote: nat)
    requires LogOk(l) && LiveOk(s, l) && s.queue == [] && wrote <= |payload|
    ensures Closable(s, l.(writesIn := l.writesIn + 1, accepted := l.accepted + payload,
                           written := l.written + payload[..wrote], failed := true))
  {
    assert l.accepted == l.written;
  }

  lemma EnqueueKeepsInv(st: State, a: Addr, t: Tid, rid: nat, payload: Bytes, wrote: nat, broke: bool)
    requires Inv(st) && a in st.live && wrote <= |payload| && HasRemotePeer(st, a)
    ensures PeerUsable(st, a) && Inv(Enqueue(st, a, t, rid, payload, wrote, broke))
  {
    InvSplits(st, a);
    var s, l := st.socks[a].l, st.logs[a];
    if s.queue != [] {
      AppendKeepsInv(st, a, payload);
    } else if wrote == |payload| {
      AnswerKeepsInv(st, a, l.(writesIn := l.writesIn + 1, accepted := l.accepted + payload,
                               written := l.written + payload[..wrote]), Msg(OKAY, s.id, rid, [], t));
    } else if !broke {
      PartialKeepsInv(st, a, payload, wrote);
    } else {
      RefusedOk(s, l, payload, wrote);
      UpdateCloseKeepsInv(st, a, s, l.(writesIn := l.writesIn + 1, accepted := l.accepted + payload,
                                       written := l.written + payload[..wrote], failed := true));
    }
  }

  lemma OnWriteKeepsInv(st: State, t: Tid, rid: nat, lid: nat, payload: Bytes, wrote: nat, broke: bool)
    requires t in st.trans && Inv(st) && wrote <= |payload|
    requires Target(st, lid).Some? ==> HasRemotePeer(st, Target(st, lid).value)
    ensures Inv(OnWrite(st, t, rid, lid, payload, wrote, broke))
  {
    var found := Target(st, lid);
    if st.trans[t].online && found.Some? {
      EnqueueKeepsInv(st, found.value, t, rid, payload, wrote, broke);
    }
  }

  lemma OnConnectKeepsInv(st: State, t: Tid, conn: ConnState)
    requires t in st.trans && Inv(st) && Up(conn)
    ensures Inv(OnConnect(st, t, conn))
  {
    var st1 := if st.trans[t].conn != Offline then GoOffline(st, t) else st;
    LinkKeepsInv(st1, t, conn, true);
  }

  // ---------- descriptor events ----------

  /** The WRITE half of local_socket_event_func: the descriptor takes `wrote` more bytes of the queue.
      Short of the whole queue it would block, or the write failed (`broke`).  A drained parked socket
      is destroyed; a drained live one stops watching WRITE and tells its peer it is ready.
      The second result says whether the callback goes on to its READ half. */
  function OnWritable(st: State, a: Addr, wrote: nat, broke: bool): (State, bool)
    requires IsLocal(st, a) && PeerUsable(st, a) && wrote <= |Concat(st.socks[a].l.queue)|
  {
    var s := st.socks[a].l;
    var s1 := s.(queue := AfterWriting(s.queue, wrote));
    var l1 := st.logs[a].(written := st.logs[a].written + Concat(s.queue)[..wrote]);
    if wrote < |Concat(s.queue)| then
      if broke then (UpdateClose(st, a, s1, l1.(failed := true)), false)
      else (Update(st, a, s1, l1), false)
    else if s.closing then (UpdateClose(st, a, s1, l1), false)
    else (Update(st, a, s1.(wantWrite := false), Readied(st, s, l1)), true)
  }

  /** What the peer's ready callback sends: a remote peer sends OKAY, a smart one nothing. */
  function Readied(st: State, s: LocalSock, l: StreamLog): StreamLog {
    if s.peer.Some? && s.peer.value in st.socks && st.socks[s.peer.value].Remote? then
      Told(l, Msg(OKAY, s.id, st.socks[s.peer.value].r.id, [], st.socks[s.peer.value].r.transport))
    else l
  }

  /** smart_socket_enqueue accepting a service: the local socket loses its smart peer, is bound to
      transport t, stops reading and waits for the OKAY; OPEN goes out. */
  function ForwardOpen(st: State, a: Addr, t: Tid, service: Bytes): State
    requires IsLocal(st, a) && a in st.logs && st.socks[a].l.peer.Some?
  {
    var s := st.socks[a].l;
    var st1 := st.(socks := st.socks - {s.peer.value});
    Update(st1, a, s.(peer := None, transport := Some(t), notify := true, wantRead := false),
           Told(st.logs[a], Msg(OPEN, s.id, 0, service, t)))
  }

  // ---------- queues ----------

  lemma {:induction false} AfterWritingBytes(queue: seq<Bytes>, n: nat)
    requires n <= |Concat(queue)|
    ensures Concat(AfterWriting(queue, n)) == Concat(queue)[n..]
  {
    if queue != [] {
      var q, rest := queue[0], queue[1..];
      if n >= |q| {
        AfterWritingBytes(rest, n - |q|);
        assert (q + Concat(rest))[n..] == Concat(rest)[n - |q|..];
      } else {
        var after := [q[n..]] + rest;
        assert after[0] == q[n..] && after[1..] == rest;
        assert (q + Concat(rest))[n..] == q[n..] + Concat(rest);
      }
    }
  }

  lemma {:induction false} AfterWritingLength(queue: seq<Bytes>, n: nat)
    requires n <= |Concat(queue)|
    ensures AfterWriting(queue, n) == [] <==> n == |Concat(queue)|
    ensures |AfterWriting(queue, n)| <= |queue|
  {
    if queue != [] && n >= |queue[0]| { AfterWritingLength(queue[1..], n - |queue[0]|); }
  }

  lemma AfterWritingFacts(queue: seq<Bytes>, n: nat)
    requires n <= |Concat(queue)|
    ensures Concat(AfterWriting(queue, n)) == Concat(queue)[n..]
    ensures AfterWriting(queue, n) == [] <==> n == |Concat(queue)|
    ensures |AfterWriting(queue, n)| <= |queue|
  {
    AfterWritingBytes(queue, n);
    AfterWritingLength(queue, n);
  }

  /** Writing n queued bytes moves them from the queue to the descriptor and loses none. */
  lemma WritingConserves(accepted: Bytes, written: Bytes, queue: seq<Bytes>, n: nat)
    requires accepted == written + Concat(queue) && n <= |Concat(queue)|
    ensures accepted == written + Concat(queue)[..n] + Concat(AfterWriting(queue, n))
  {
    AfterWritingFacts(queue, n);
    assert Concat(queue) == Concat(queue)[..n] + Concat(queue)[n..];
  }

  // ---------- events keep the invariant ----------

  lemma DrainedOk(s: LocalSock, l: StreamLog, l1: StreamLog, sent: seq<Msg>)
    requires LogOk(l) && LiveOk(s, l) && s.queue != []
    requires l1 == l.(written := l1.written, sent := sent) && l1.accepted == l1.written
    requires sent == l.sent ||
             (|sent| == |l.sent| + 1 && sent == l.sent + [sent[|l.sent|]] && sent[|l.sent|].command == OKAY)
    ensures LogOk(l1) && LiveOk(s.(queue := [], wantWrite := false), l1)
  {
    if sent != l.sent {
      CountAppend(l.sent, sent[|l.sent|], OKAY);
      CountAppend(l.sent, sent[|l.sent|], WRTE);
    }
  }

  /** Part of the queue went out and the rest would block. */
  lemma BlockedKeepsInv(st: State, a: Addr, s1: LocalSock, l1: StreamLog)
    requires Inv(st) && IsLocal(st, a) && a in st.logs && st.socks[a].l.wantWrite
    requires s1 == st.socks[a].l.(queue := s1.queue) && s1.queue != [] && |s1.queue| <= |st.socks[a].l.queue|
    requires l1 == st.logs[a].(written := l1.written) && l1.accepted == l1.written + Concat(s1.queue)
    ensures Inv(Update(st, a, s1, l1))
  {
    InvSplits(st, a);
    assert StreamOk(Update(st, a, s1, l1), a);
    UpdateKeepsRest(st, a, s1, l1);
  }

  lemma OnWritableKeepsInv(st: State, a: Addr, wrote: nat, broke: bool)
    requires Inv(st) && IsLocal(st, a) && wrote <= |Concat(st.socks[a].l.queue)|
    requires st.socks[a].l.wantWrite
    ensures PeerUsable(st, a) && Inv(OnWritable(st, a, wrote, broke).0)
  {
    InvSplits(st, a);
    var s, l := st.socks[a].l, st.logs[a];
    WritingConserves(l.accepted, l.written, s.queue, wrote);
    AfterWritingFacts(s.queue, wrote);
    var s1 := s.(queue := AfterWriting(s.queue, wrote));
    var l1 := l.(written := l.written + Concat(s.queue)[..wrote]);
    if wrote < |Concat(s.queue)| {
      if broke {
        UpdateCloseKeepsInv(st, a, s1, l1.(failed := true));
      } else {
        BlockedKeepsInv(st, a, s1, l1);
      }
    } else if s.closing {
      UpdateCloseKeepsInv(st, a, s1, l1);
    } else {
      DrainedKeepsInv(st, a, l1);
    }
  }

  lemma DrainedKeepsInv(st: State, a: Addr, l1: StreamLog)
    requires Inv(st) && a in st.live && IsLocal(st, a) && a in st.logs && st.socks[a].l.wantWrite
    requires l1 == st.logs[a].(written := l1.written) && l1.accepted == l1.written
    ensures Inv(Update(st, a, st.socks[a].l.(queue := [], wantWrite := false), Readied(st, st.socks[a].l, l1)))
  {
    InvSplits(st, a);
    var s, l2 := st.socks[a].l, Readied(st, st.socks[a].l, l1);
    DrainedOk(s, st.logs[a], l2, l2.sent);
    LiveUpdateKeepsInv(st, a, s.(queue := [], wantWrite := false), l2);
  }

  ghost predicate Talks(st: State, a: Addr) {
    && a in st.live && IsLocal(st, a) && st.socks[a].l.wantRead
  }

  lemma WroteOk(s: LocalSock, l: StreamLog, m: Msg)
    requires LogOk(l) && LiveOk(s, l) && s.wantRead && m.command == WRTE
    ensures LogOk(Told(l, m)) && LiveOk(s.(wantRead := false), Told(l, m))
  {
    CountAppend(l.sent, m, OKAY);
    CountAppend(l.sent, m, WRTE);
  }

  lemma ForwardedOk(s: LocalSock, l: StreamLog, s': LocalSock, m: Msg)
    requires LogOk(l) && LiveOk(s, l) && s.queue == [] && !l.byRemote && m.command == OPEN
    requires s' == s.(peer := None, transport := s'.transport, notify := true, wantRead := false)
    ensures LogOk(Told(l, m)) && LiveOk(s', Told(l, m))
  {
  }

  lemma ForwardKeepsGraph(st: State, a: Addr, t: Tid, service: Bytes)
    requires Inv(st) && a in st.live && IsLocal(st, a) && a in st.logs
    requires HasSmartPeer(st, a)
    ensures GraphOk(ForwardOpen(st, a, t, service))
  {
    var st' := ForwardOpen(st, a, t, service);
    assert Paired(st, a);
    forall b | b in st'.socks ensures Paired(st', b) { assert Paired(st, b); }
    forall u | u in st'.trans ensures TransportOk(st', u) { assert TransportOk(st, u); }
    assert forall b :: IsLocal(st', b) <==> IsLocal(st, b);
    forall b | HasSmartPeer(st', b) ensures HasSmartPeer(st, b) { if b != a { assert Paired(st, b); } }
  }

  lemma ForwardKeepsInv(st: State, a: Addr, t: Tid, service: Bytes)
    requires Inv(st) && a in st.live && IsLocal(st, a) && a in st.logs
    requires HasSmartPeer(st, a)
    ensures Inv(ForwardOpen(st, a, t, service))
  {
    InvSplits(st, a);
    ForwardKeepsGraph(st, a, t, service);
    var s, l := st.socks[a].l, st.logs[a];
    var st' := ForwardOpen(st, a, t, service);
    assert Paired(st, a);
    ForwardedOk(s, l, st'.socks[a].l, Msg(OPEN, s.id, 0, service, t));
    forall b | b in st'.logs ensures StreamOk(st', b) { assert StreamOk(st, b); }
  }

  lemma TalkKeepsInv(st: State, a: Addr, m: Msg)
    requires Inv(st) && Talks(st, a) && a in st.logs && m.command == WRTE
    ensures Inv(Update(st, a, st.socks[a].l.(wantRead := false), Told(st.logs[a], m)))
  {
    InvSplits(st, a);
    var s, l := st.socks[a].l, st.logs[a];
    WroteOk(s, l, m);
    LiveUpdateKeepsInv(st, a, s.(wantRead := false), Told(l, m));
  }

  /** The peer of a as a smart socket with these bytes collected. */
  function Collect(st: State, p: Addr, bytes: Bytes): State
    requires p in st.socks && st.socks[p].Smart?
  {
    st.(socks := st.socks[p := Smart(st.socks[p].owner, bytes)])
  }

  lemma CollectKeepsInv(st: State, p: Addr, bytes: Bytes)
    requires Inv(st) && p in st.socks && st.socks[p].Smart?
    ensures Inv(Collect(st, p, bytes))
  {
    hide LogOk, LiveOk, ParkedOk, GoneOk;
    var st' := Collect(st, p, bytes);
    forall b | b in st'.socks ensures Paired(st', b) { assert Paired(st, b); }
    forall u | u in st'.trans ensures TransportOk(st', u) { assert TransportOk(st, u); }
    assert forall b :: IsLocal(st', b) <==> IsLocal(st, b);
    forall b | HasSmartPeer(st', b) ensures HasSmartPeer(st, b) { assert Paired(st, b); }
    forall b | b in st'.logs ensures StreamOk(st', b) { assert StreamOk(st, b); }
  }

  /** What the peer's enqueue does with the bytes just read: a remote peer sends them; a smart peer adds
      them to the request and waits, refuses, or asks the transport for the service.  The second result
      is what enqueue returns. */
  ghost function PassOn(st: State, a: Addr, data: Bytes, found: Acquired): (r: (State, int))
    requires Inv(st) && Talks(st, a)
    ensures Inv(r.0)
    ensures r.1 >= 0 ==> a in r.0.live && IsLocal(r.0, a)
  {
    InvSplits(st, a);
    var s := st.socks[a].l;
    assert Paired(st, a);
    match st.socks[s.peer.value]
    case Remote(r) =>
      var m := Msg(WRTE, s.id, r.id, data, r.transport);
      TalkKeepsInv(st, a, m);
      (Update(st, a, s.(wantRead := false), Told(st.logs[a], m)), 1)
    case Smart(_, pending) =>
      match SmartSocket.Fed(pending, data, found.lookup)
      case Waiting => CollectKeepsInv(st, s.peer.value, pending + data); (Collect(st, s.peer.value, pending + data), 0)
      case Failed(_) => CloseLive(st, a, true); (Close(st, a, true), -1)
      case Opened(service) =>
        ForwardKeepsInv(st, a, found.t, service + [0]);
        (ForwardOpen(st, a, found.t, service + [0]), 1)
  }

  /** The READ half: the bytes read, if any, go to the peer; at end of file or on an error the socket
      is closed, and so it is when end of file is forced and the peer returned 0. */
  ghost function OnReadable(st: State, a: Addr, data: Bytes, eof: bool, forced: bool, found: Acquired): (st': State)
    requires Inv(st) && Talks(st, a)
    ensures Inv(st')
  {
    var (st1, r) := if data == [] then (st, 1) else PassOn(st, a, data, found);
    if r >= 0 && (eof || (forced && r == 0)) then CloseLive(st1, a, true); Close(st1, a, true) else st1
  }
}
