/** What every step of the multiplexer keeps. */
module SocketInvariant {
  import opened Bytes
  import opened Rings
  import opened SocketModel

  // ---------- the traffic of one stream ----------

  function Count(sent: seq<Msg>, c: Command): nat {
    if sent == [] then 0
    else Count(sent[..|sent| - 1], c) + if sent[|sent| - 1].command == c then 1 else 0
  }

  /** Nothing follows a CLSE. */
  ghost predicate ClosesLast(sent: seq<Msg>) {
    forall i :: 0 <= i < |sent| && sent[i].command == CLSE ==> i == |sent| - 1
  }

  ghost predicate NoClose(sent: seq<Msg>) {
    forall i :: 0 <= i < |sent| ==> sent[i].command != CLSE
  }

  /** The shape the protocol promises for a stream the remote side opened: OKAY first, then OKAY and
      WRTE in any order, then at most one CLSE and nothing after it. */
  ghost predicate AnswersOpen(sent: seq<Msg>) {
    && |sent| > 0 && sent[0].command == OKAY
    && (forall i :: 0 <= i < |sent| ==> sent[i].command != OPEN)
    && ClosesLast(sent)
  }

  ghost predicate LogOk(l: StreamLog) {
    && ClosesLast(l.sent)
    && (l.byRemote ==>
          && AnswersOpen(l.sent)
          && Count(l.sent, OKAY) <= l.writesIn + 1
          && Count(l.sent, WRTE) <= l.okaysIn + 1)
  }

  /** A socket on the live ring and its log. */
  ghost predicate LiveOk(s: LocalSock, l: StreamLog) {
    && !s.closing
    && s.id == l.serial % ID_SPACE
    && NoClose(l.sent)
    && (s.wantWrite <==> s.queue != [])
    && (s.notify <==> s.peer.None?)
    && (s.notify ==> s.queue == [] && !s.wantRead && !l.byRemote)
    && l.accepted == l.written + Concat(s.queue)
    && (l.byRemote ==>
          && Count(l.sent, OKAY) + |s.queue| <= l.writesIn + 1
          && Count(l.sent, WRTE) + Bit(s.wantRead) <= l.okaysIn + 1)
  }

  /** A socket on the closing ring and its log. */
  ghost predicate ParkedOk(s: LocalSock, l: StreamLog) {
    && s.closing && s.id == 0 && s.peer.None? && !s.notify
    && s.wantWrite && !s.wantRead && s.queue != []
    && l.accepted == l.written + Concat(s.queue)
    && (l.byRemote ==> Count(l.sent, OKAY) + |s.queue| <= l.writesIn + 1)
  }

  /** A stream whose socket is gone: every accepted byte was written, unless a write failed. */
  ghost predicate GoneOk(l: StreamLog) {
    && l.written <= l.accepted
    && (l.failed || l.written == l.accepted)
  }

  // ---------- the whole state ----------

  /** Each local socket is on exactly one of the two rings, once. */
  ghost predicate RingsOk(st: State) {
    && NoDup(st.live) && NoDup(st.closing)
    && (forall a :: a in st.live ==> IsLocal(st, a) && a !in st.closing)
    && (forall a :: a in st.closing ==> IsLocal(st, a))
    && (forall a :: IsLocal(st, a) ==> a in st.live || a in st.closing)
  }

  /** The peer of a local socket is a remote or smart socket; the peer of one of those is local. */
  ghost predicate Paired(st: State, a: Addr)
    requires a in st.socks
  {
    var p := st.socks[a].Peer();
    && (p.None? ==> st.socks[a].Local?)
    && (p.Some? ==>
          && p.value in st.socks
          && st.socks[p.value].Peer() == Some(a)
          && (st.socks[a].Local? <==> !st.socks[p.value].Local?))
  }

  ghost predicate PeersOk(st: State) {
    forall a :: a in st.socks ==> Paired(st, a)
  }

  predicate Up(c: ConnState) { c != Offline && c != NoPerm }

  ghost predicate HomesOk(st: State) {
    forall a :: a in st.socks && st.socks[a].Remote? ==>
      st.socks[a].r.transport in st.trans && a in st.trans[st.socks[a].r.transport].ring
  }

  ghost predicate TransportOk(st: State, t: Tid)
    requires t in st.trans
  {
    var tr := st.trans[t];
    && NoDup(tr.ring)
    && (forall r :: r in tr.ring ==> r in st.socks && st.socks[r].Remote? && st.socks[r].r.transport == t)
    && (tr.online <==> Up(tr.conn))
    && (!tr.online ==> tr.ring == [])
  }

  ghost predicate TransportsOk(st: State) {
    forall t :: t in st.trans ==> TransportOk(st, t)
  }

  /** A stream is live, parked or gone, and its log says so. */
  ghost predicate StreamOk(st: State, a: Addr)
    requires a in st.logs
  {
    && LogOk(st.logs[a])
    && (if !IsLocal(st, a) then GoneOk(st.logs[a])
        else if a in st.live then LiveOk(st.socks[a].l, st.logs[a])
        else ParkedOk(st.socks[a].l, st.logs[a]))
  }

  ghost predicate StreamsOk(st: State) {
    && (forall a :: IsLocal(st, a) ==> a in st.logs)
    && (forall a :: a in st.logs ==> StreamOk(st, a))
  }

  ghost predicate NamesOk(st: State) {
    && (forall a :: a in st.socks || a in st.logs ==> a < st.nextAddr)
    && (forall a :: a in st.logs ==> 0 < st.logs[a].serial <= st.installs)
    && (forall a, b :: a in st.logs && b in st.logs && a != b ==> st.logs[a].serial != st.logs[b].serial)
  }

  predicate HasSmartPeer(st: State, a: Addr) {
    && IsLocal(st, a) && st.socks[a].l.peer.Some?
    && st.socks[a].l.peer.value in st.socks && st.socks[st.socks[a].l.peer.value].Smart?
  }

  /** A socket still being matched to a service holds no data, and no remote OPEN made it. */
  ghost predicate SmartsOk(st: State) {
    forall a :: HasSmartPeer(st, a) ==> st.socks[a].l.queue == [] && (a in st.logs ==> !st.logs[a].byRemote)
  }

  ghost predicate GraphOk(st: State) {
    RingsOk(st) && PeersOk(st) && HomesOk(st) && TransportsOk(st) && NamesOk(st) && SmartsOk(st)
  }

  ghost predicate Inv(st: State) {
    GraphOk(st) && StreamsOk(st)
  }

  /** The invariant, except for what it says about the stream of socket a. */
  ghost predicate InvBut(st: State, a: Addr) {
    && GraphOk(st)
    && IsLocal(st, a)
    && (forall b :: IsLocal(st, b) ==> b in st.logs)
    && (forall b :: b in st.logs && b != a ==> StreamOk(st, b))
  }

  /** A socket that local_socket_close may be called on: a parked one has drained or has just seen
      a write fail. */
  ghost predicate Closable(s: LocalSock, l: StreamLog) {
    && LogOk(l)
    && l.written <= l.accepted
    && (l.byRemote ==> Count(l.sent, OKAY) + |s.queue| <= l.writesIn + 1)
    && ((l.failed && s.queue == []) || l.accepted == l.written + Concat(s.queue))
    && (if s.closing then s.peer.None? && (s.queue == [] || l.failed)
        else NoClose(l.sent) && !(s.notify && s.queue != []) && (s.queue != [] ==> s.wantWrite))
  }

  // ---------- sequences ----------

  lemma CountAppend(sent: seq<Msg>, m: Msg, c: Command)
    ensures Count(sent + [m], c) == Count(sent, c) + if m.command == c then 1 else 0
  {
    assert (sent + [m])[..|sent|] == sent;
  }

  // ---------- closing keeps the invariant ----------

  lemma PeerIsUsable(st: State, a: Addr)
    requires GraphOk(st) && IsLocal(st, a) && a in st.logs
    ensures PeerUsable(st, a)
  {
    assert Paired(st, a);
  }

  /** A socket with a peer may add one CLSE to what it sent; nothing else is added. */
  ghost predicate MayClose(s: LocalSock, sent: seq<Msg>, sent': seq<Msg>) {
    || sent' == sent
    || (s.peer.Some? && |sent'| == |sent| + 1 && sent' == sent + [sent'[|sent|]] && sent'[|sent|].command == CLSE)
  }

  /** What Close changes: the peer of a leaves the store and its transport's ring, and a leaves the
      store or, if it still holds bytes, moves to the closing ring. */
  ghost predicate Closed(st: State, st': State, a: Addr)
    requires IsLocal(st, a)
  {
    var s := st.socks[a].l;
    var parked := !s.closing && s.queue != [];
    && (forall b :: b in st'.socks <==> b in st.socks && s.peer != Some(b) && (b != a || parked))
    && (forall b :: b in st'.socks && b != a ==> st'.socks[b] == st.socks[b])
    && (parked ==>
          a in st'.socks && st'.socks[a] == Local(s.(closing := true, wantRead := false, id := 0, peer := None)))
    && st'.live == Without(st.live, a)
    && st'.closing == Without(st.closing, a) + (if parked then [a] else [])
    && st'.installs == st.installs && st'.nextAddr == st.nextAddr && st'.refusals == st.refusals
    && st'.trans.Keys == st.trans.Keys
    && (forall t :: t in st.trans ==>
          st'.trans[t] == if s.peer.None? then st.trans[t]
                          else st.trans[t].(ring := Without(st.trans[t].ring, s.peer.value)))
    && st'.logs.Keys == st.logs.Keys
    && (forall b :: b in st.logs && b != a ==> st'.logs[b] == st.logs[b])
    && (a in st.logs ==> st'.logs[a] == st.logs[a].(sent := st'.logs[a].sent) &&
                         MayClose(s, st.logs[a].sent, st'.logs[a].sent))
  }

  /** What CutPeer changes. */
  ghost predicate Cut(st: State, st': State, a: Addr)
    requires IsLocal(st, a) && a in st.logs
  {
    var s := st.socks[a].l;
    && (forall b :: b in st'.socks <==> b in st.socks && s.peer != Some(b))
    && (forall b :: b in st'.socks && b != a ==> st'.socks[b] == st.socks[b])
    && a in st'.socks && st'.socks[a] == Local(s.(peer := None))
    && st'.live == st.live && st'.closing == st.closing
    && st'.installs == st.installs && st'.nextAddr == st.nextAddr && st'.refusals == st.refusals
    && st'.trans.Keys == st.trans.Keys
    && (forall t :: t in st.trans ==>
          st'.trans[t] == if s.peer.None? then st.trans[t]
                          else st.trans[t].(ring := Without(st.trans[t].ring, s.peer.value)))
    && st'.logs.Keys == st.logs.Keys
    && (forall b :: b in st.logs && b != a ==> st'.logs[b] == st.logs[b])
    && st'.logs[a] == st.logs[a].(sent := st'.logs[a].sent)
    && MayClose(s, st.logs[a].sent, st'.logs[a].sent)
  }

  /** The peer of a socket is on no disconnect ring but its own transport's. */
  lemma OnlyHomeRing(st: State, p: Addr)
    requires TransportsOk(st)
    ensures forall t :: t in st.trans && p in st.trans[t].ring ==>
              p in st.socks && st.socks[p].Remote? && t == st.socks[p].r.transport
    ensures forall t :: t in st.trans && p !in st.trans[t].ring ==>
              st.trans[t].(ring := Without(st.trans[t].ring, p)) == st.trans[t]
  {
    forall t | t in st.trans
      ensures p !in st.trans[t].ring ==> Without(st.trans[t].ring, p) == st.trans[t].ring
      ensures p in st.trans[t].ring ==> p in st.socks && st.socks[p].Remote? && t == st.socks[p].r.transport
    {
      WithoutFacts(st.trans[t].ring, p);
      assert TransportOk(st, t);
    }
  }

  lemma CutRemoteShape(st: State, a: Addr, announce: bool)
    requires TransportsOk(st) && IsLocal(st, a) && PeerUsable(st, a) && st.socks[a].l.peer.Some?
    requires st.socks[st.socks[a].l.peer.value].Remote?
    ensures Cut(st, CutPeer(st, a, announce), a)
  {
    hide TransportsOk, Without, CloseAlone;
    OnlyHomeRing(st, st.socks[a].l.peer.value);
  }

  lemma CutSmartShape(st: State, a: Addr, announce: bool)
    requires TransportsOk(st) && IsLocal(st, a) && PeerUsable(st, a) && st.socks[a].l.peer.Some?
    requires st.socks[st.socks[a].l.peer.value].Smart?
    ensures Cut(st, CutPeer(st, a, announce), a)
  {
    hide TransportsOk, Without, CloseAlone;
    OnlyHomeRing(st, st.socks[a].l.peer.value);
  }

  lemma CutShape(st: State, a: Addr, announce: bool)
    requires TransportsOk(st) && IsLocal(st, a) && PeerUsable(st, a) && Paired(st, a)
    ensures Cut(st, CutPeer(st, a, announce), a)
  {
    hide TransportsOk;
    var p := st.socks[a].l.peer;
    if p.Some? {
      hide Cut, CutPeer;
      if st.socks[p.value].Remote? { CutRemoteShape(st, a, announce); } else { CutSmartShape(st, a, announce); }
    }
  }

  lemma CloseShape(st: State, a: Addr, announce: bool)
    requires GraphOk(st) && IsLocal(st, a) && PeerUsable(st, a)
    ensures Closed(st, Close(st, a, announce), a)
  {
    assert Paired(st, a);
    CutShape(st, a, announce);
    AloneShape(st, CutPeer(st, a, announce), a);
  }

  lemma AloneShape(st: State, st1: State, a: Addr)
    requires IsLocal(st, a) && a in st.logs && st.socks[a].l.peer != Some(a) && Cut(st, st1, a)
    ensures Closed(st, CloseAlone(st1, a), a)
  {
  }

  /** A remote peer says CLSE on its own transport, with its own id, unless it is being dropped
      because the transport went offline. */
  lemma CloseLog(st: State, a: Addr, announce: bool)
    requires IsLocal(st, a) && PeerUsable(st, a) && Paired(st, a)
    ensures var l := st.logs[a]; var l' := Close(st, a, announce).logs[a]; var p := st.socks[a].l.peer;
      l' == if announce && p.Some? && st.socks[p.value].Remote?
            then l.(sent := l.sent + [Msg(CLSE, 0, st.socks[p.value].r.id, [], st.socks[p.value].r.transport)])
            else l
  {
  }

  lemma ClosedKeepsRings(st: State, st': State, a: Addr)
    requires GraphOk(st) && IsLocal(st, a) && Closed(st, st', a)
    ensures RingsOk(st')
  {
    WithoutFacts(st.live, a);
    WithoutFacts(st.closing, a);
    assert Paired(st, a);
    forall b ensures IsLocal(st', b) <==> IsLocal(st, b) && (b != a || b in st'.socks) {
      if b in st.socks { assert Paired(st, b); }
    }
  }

  lemma ClosedKeepsTransports(st: State, st': State, a: Addr)
    requires GraphOk(st) && IsLocal(st, a) && Closed(st, st', a)
    ensures HomesOk(st') && TransportsOk(st')
  {
    var p := st.socks[a].l.peer;
    forall t | t in st'.trans ensures TransportOk(st', t) {
      assert TransportOk(st, t);
      if p.Some? { WithoutFacts(st.trans[t].ring, p.value); }
    }
    forall b | b in st'.socks && st'.socks[b].Remote?
      ensures st'.socks[b].r.transport in st'.trans && b in st'.trans[st'.socks[b].r.transport].ring
    {
      if p.Some? { WithoutFacts(st.trans[st.socks[b].r.transport].ring, p.value); }
    }
  }

  lemma ClosedKeepsPeers(st: State, st': State, a: Addr)
    requires GraphOk(st) && IsLocal(st, a) && Closed(st, st', a)
    ensures PeersOk(st') && SmartsOk(st')
  {
    assert Paired(st, a);
    forall b | b in st'.socks ensures Paired(st', b) {
      assert Paired(st, b);
    }
    forall b | HasSmartPeer(st', b) ensures HasSmartPeer(st, b) {
      assert Paired(st, b);
    }
  }

  lemma CloseKeepsGraph(st: State, a: Addr, announce: bool)
    requires GraphOk(st) && IsLocal(st, a) && PeerUsable(st, a)
    ensures GraphOk(Close(st, a, announce))
  {
    hide Close, Closed;
    var st' := Close(st, a, announce);
    CloseShape(st, a, announce);
    ClosedKeepsRings(st, st', a);
    ClosedKeepsTransports(st, st', a);
    ClosedKeepsPeers(st, st', a);
  }

  lemma CloseKeepsInv(st: State, a: Addr, announce: bool)
    requires InvBut(st, a) && Closable(st.socks[a].l, st.logs[a])
    ensures PeerUsable(st, a) && Inv(Close(st, a, announce))
  {
    PeerIsUsable(st, a);
    CloseKeepsGraph(st, a, announce);
    CloseShape(st, a, announce);
    ClosedStreamOk(st, Close(st, a, announce), a);
    ClosedKeepsStreams(st, Close(st, a, announce), a);
  }

  /** The CLSE that Close may add leaves a well-formed trace. */
  lemma CloseTraceOk(s: LocalSock, l: StreamLog, sent: seq<Msg>)
    requires Closable(s, l) && MayClose(s, l.sent, sent)
    ensures LogOk(l.(sent := sent)) && Count(sent, OKAY) == Count(l.sent, OKAY)
  {
    if sent != l.sent {
      CountAppend(l.sent, sent[|l.sent|], OKAY);
      CountAppend(l.sent, sent[|l.sent|], WRTE);
    }
  }

  lemma ClosedStreamOk(st: State, st': State, a: Addr)
    requires InvBut(st, a) && Closable(st.socks[a].l, st.logs[a]) && Closed(st, st', a)
    ensures StreamOk(st', a)
  {
    assert Paired(st, a);
    WithoutFacts(st.live, a);
    CloseTraceOk(st.socks[a].l, st.logs[a], st'.logs[a].sent);
  }

  lemma ClosedKeepsStreams(st: State, st': State, a: Addr)
    requires InvBut(st, a) && Closed(st, st', a) && StreamOk(st', a)
    ensures StreamsOk(st')
  {
    WithoutFacts(st.live, a);
    assert Paired(st, a);
    forall b | b in st'.logs ensures StreamOk(st', b) {
      if b != a {
        assert StreamOk(st, b);
        if b in st.socks { assert Paired(st, b); }
      }
    }
  }
}
