/** What each packet and each descriptor event does, told between the state a schedule leads to and the
    state one step later. */
module SocketEffects {
  import opened Bytes
  import opened Rings
  import opened SocketModel
  import opened SocketInvariant
  import opened SocketSteps
  import opened SocketRuns
  import opened SocketTheorems
  import SmartSocket

  // ---------- what may change ----------

  /** All is as before but local socket a with its log and places, and socket p with its place. */
  ghost predicate Elsewhere(st: State, st': State, a: Addr, p: Option<Addr>) {
    && (forall b :: b != a && p != Some(b) ==> (b in st'.socks <==> b in st.socks))
    && (forall b :: b != a && p != Some(b) && b in st.socks && b in st'.socks ==> st'.socks[b] == st.socks[b])
    && (forall b :: b != a ==> (b in st'.live <==> b in st.live) && (b in st'.closing <==> b in st.closing))
    && SameLinks(st, st')
    && (forall t, b :: t in st.trans && p != Some(b) ==> (b in st'.trans[t].ring <==> b in st.trans[t].ring))
    && st'.logs.Keys == st.logs.Keys
    && (forall b :: b in st.logs && b != a ==> st'.logs[b] == st.logs[b])
    && st'.installs == st.installs && st'.refusals == st.refusals
  }

  /** Only local socket a and its log change: they are now s and l. */
  ghost predicate Becomes(st: State, st': State, a: Addr, s: LocalSock, l: StreamLog) {
    && Elsewhere(st, st', a, None)
    && a in st'.socks && st'.socks[a] == Local(s)
    && a in st'.logs && st'.logs[a] == l
    && (a in st'.live <==> a in st.live) && (a in st'.closing <==> a in st.closing)
  }

  /** Socket a, being s with log l, is closed: it is off the live ring, and kept on the closing ring exactly
      when it was not parked before and holds packets; its peer is in no store and no ring; a remote peer
      was told by one CLSE; nothing else changes. */
  ghost predicate Down(st: State, st': State, a: Addr, s: LocalSock, l: StreamLog) {
    var parked := !s.closing && s.queue != [];
    && Elsewhere(st, st', a, s.peer)
    && a !in st'.live && (a in st'.closing <==> parked)
    && (a in st'.socks <==> parked)
    && (parked ==> st'.socks[a] == Local(s.(closing := true, wantRead := false, id := 0, peer := None)))
    && (s.peer.Some? ==>
          && s.peer.value in st.socks && s.peer.value !in st'.socks
          && forall t :: t in st'.trans ==> s.peer.value !in st'.trans[t].ring)
    && a in st'.logs
    && st'.logs[a] ==
         if s.peer.Some? && s.peer.value in st.socks && st.socks[s.peer.value].Remote?
         then l.(sent := l.sent + [Goodbye(st.socks[s.peer.value].r)]) else l
  }

  /** The CLSE for a remote socket. */
  function Goodbye(r: RemoteSock): Msg { Msg(CLSE, 0, r.id, [], r.transport) }

  lemma ClosedRings(st: State, st': State, a: Addr)
    requires IsLocal(st, a) && Closed(st, st', a)
    ensures SameLinks(st, st')
    ensures forall t, b :: t in st.trans && st.socks[a].l.peer != Some(b) ==>
              (b in st'.trans[t].ring <==> b in st.trans[t].ring)
    ensures st.socks[a].l.peer.Some? ==> forall t :: t in st'.trans ==> st.socks[a].l.peer.value !in st'.trans[t].ring
  {
    var p := st.socks[a].l.peer;
    forall t | t in st.trans
      ensures forall b :: p != Some(b) ==> (b in st'.trans[t].ring <==> b in st.trans[t].ring)
      ensures p.Some? ==> p.value !in st'.trans[t].ring
    {
      if p.Some? { WithoutFacts(st.trans[t].ring, p.value); }
    }
  }

  lemma ClosedElsewhere(st: State, st': State, a: Addr)
    requires IsLocal(st, a) && Closed(st, st', a)
    ensures Elsewhere(st, st', a, st.socks[a].l.peer)
  {
    hide SameLinks, MayClose;
    ClosedRings(st, st', a);
    WithoutFacts(st.live, a);
    WithoutFacts(st.closing, a);
  }

  lemma CloseIsDown(st: State, a: Addr)
    requires GraphOk(st) && IsLocal(st, a) && PeerUsable(st, a)
    ensures Down(st, Close(st, a, true), a, st.socks[a].l, st.logs[a])
  {
    hide Close, Elsewhere, RingsOk, HomesOk, TransportsOk, NamesOk, SmartsOk;
    CloseShape(st, a, true);
    assert Paired(st, a);
    CloseLog(st, a, true);
    ClosedElsewhere(st, Close(st, a, true), a);
    ClosedRings(st, Close(st, a, true), a);
    WithoutFacts(st.live, a);
    WithoutFacts(st.closing, a);
  }

  lemma UpdateBecomes(st: State, a: Addr, s: LocalSock, l: StreamLog)
    requires IsLocal(st, a) && a in st.logs
    ensures Becomes(st, Update(st, a, s, l), a, s, l)
  {
  }

  lemma ElsewhereAfter(st: State, st1: State, st2: State, a: Addr, p: Option<Addr>)
    requires Elsewhere(st, st1, a, None) && Elsewhere(st1, st2, a, p)
    ensures Elsewhere(st, st2, a, p)
  {
  }

  lemma DownAfter(st: State, st1: State, st2: State, a: Addr, s: LocalSock, l: StreamLog)
    requires IsLocal(st, a) && Becomes(st, st1, a, s, l) && Down(st1, st2, a, s, l) && s.peer != Some(a)
    ensures Down(st, st2, a, s, l)
  {
    ElsewhereAfter(st, st1, st2, a, s.peer);
    if s.peer.Some? { SamePeer(st, st1, a, s.peer.value); }
    hide Elsewhere;
  }

  lemma SamePeer(st: State, st1: State, a: Addr, p: Addr)
    requires Elsewhere(st, st1, a, None) && p != a
    ensures (p in st.socks <==> p in st1.socks) && (p in st.socks ==> st1.socks[p] == st.socks[p])
  {
  }

  lemma UpdateCloseIsDown(st: State, a: Addr, s: LocalSock, l: StreamLog)
    requires Inv(st) && IsLocal(st, a) && a in st.logs && s.peer == st.socks[a].l.peer && PeerUsable(st, a)
    requires SameOrigin(l, st.logs[a]) && (HasSmartPeer(st, a) ==> s.queue == [])
    ensures Down(st, UpdateClose(st, a, s, l), a, s, l)
  {
    hide Close, Down, Becomes;
    var st1 := Update(st, a, s, l);
    InvSplits(st, a);
    UpdateKeepsRest(st, a, s, l);
    UpdateBecomes(st, a, s, l);
    CloseIsDown(st1, a);
    DownAfter(st, st1, UpdateClose(st, a, s, l), a, s, l);
  }

  // ---------- CLSE ----------

  /** Socket a is the first live one with this id. */
  ghost predicate Named(st: State, a: Addr, id: nat) {
    exists i ::
      0 <= i < |st.live| && st.live[i] == a && IsLocal(st, a) && st.socks[a].l.id == id && NoneBefore(st, i, id)
  }

  ghost predicate NoneBefore(st: State, i: nat, id: nat)
    requires i <= |st.live|
  {
    forall j :: 0 <= j < i && IsLocal(st, st.live[j]) ==> st.socks[st.live[j]].l.id != id
  }

  lemma {:induction false} FoundAt(st: State, ring: seq<Addr>, i: nat, id: nat)
    requires i < |ring| && IsLocal(st, ring[i]) && st.socks[ring[i]].l.id == id
    requires forall j :: 0 <= j < i && IsLocal(st, ring[j]) ==> st.socks[ring[j]].l.id != id
    ensures FindFrom(st, ring, id) == Some(ring[i])
  {
    if i > 0 { FoundAt(st, ring[1..], i - 1, id); }
  }

  lemma NamedIsTarget(st: State, a: Addr, id: nat)
    requires Named(st, a, id)
    ensures Target(st, id) == Some(a) && a in st.live
  {
    var i :| 0 <= i < |st.live| && st.live[i] == a && IsLocal(st, a) && st.socks[a].l.id == id && NoneBefore(st, i, id);
    FoundAt(st, st.live, i, id);
  }

  lemma NobodyNamed(st: State, id: nat)
    requires forall a :: a in st.live ==> IsLocal(st, a) && st.socks[a].l.id != id
    ensures Target(st, id) == None
  {
  }

  /** CLSE on an online transport closes the socket it names. */
  lemma CloseCloses(steps: seq<Step>, t: Tid, lid: nat, a: Addr)
    requires var st := After(steps); Running(st, t) && st.trans[t].online && Named(st, a, lid)
    ensures var st, st' := After(steps), After(steps + [RecvClose(t, lid)]);
      && IsLocal(st, a) && a in st.logs && !st.socks[a].l.closing
      && Down(st, st', a, st.socks[a].l, st.logs[a])
  {
    hide After, Inv, Close, Down;
    var st := After(steps);
    Taken(steps, RecvClose(t, lid));
    NamedIsTarget(st, a, lid);
    LiveSocket(st, a);
    CloseIsDown(st, a);
  }

  lemma LiveSocket(st: State, a: Addr)
    requires Inv(st) && a in st.live
    ensures IsLocal(st, a) && a in st.logs && PeerUsable(st, a) && !st.socks[a].l.closing && GraphOk(st)
    ensures st.logs[a].byRemote ==> HasRemotePeer(st, a)
  {
    InvSplits(st, a);
    assert Paired(st, a);
  }

  /** CLSE, OKAY or WRTE on a transport that is not online, or for an id no live socket has, does nothing. */
  lemma StrayIsIgnored(steps: seq<Step>, step: Step)
    requires step.RecvClose? || step.RecvOkay? || step.RecvWrite?
    requires var st := After(steps);
      Running(st, step.t) && st.trans[step.t].online ==>
        forall a :: a in st.live ==> IsLocal(st, a) && st.socks[a].l.id != step.lid
    ensures After(steps + [step]) == After(steps)
  {
    hide After, Inv, Close;
    var st := After(steps);
    Taken(steps, step);
    if Running(st, step.t) && st.trans[step.t].online { NobodyNamed(st, step.lid); }
  }

  // ---------- OPEN ----------

  /** An OPEN that is accepted: a live local socket with the next id that reads, a remote socket with the
      opener's id at the end of the transport's ring, peers of each other, and one OKAY to the opener. */
  lemma OpenOpens(steps: seq<Step>, t: Tid, rid: nat)
    requires Running(After(steps), t) && After(steps).trans[t].online
    ensures var st, st' := After(steps), After(steps + [RecvOpen(t, rid, true)]);
      var a, r, id := st.nextAddr, st.nextAddr + 1, (st.installs + 1) % ID_SPACE;
      && a !in st.socks && a !in st.logs && r !in st.socks
      && st'.socks == st.socks[a := Local(LocalSock(id, false, Some(r), [], true, false, None, false))]
                              [r := Remote(RemoteSock(rid, Some(a), t))]
      && st'.live == st.live + [a] && st'.closing == st.closing
      && st'.trans == st.trans[t := st.trans[t].(ring := st.trans[t].ring + [r])]
      && st'.logs == st.logs[a := StreamLog(st.installs + 1, true, [Msg(OKAY, id, rid, [], t)], 0, 0, [], [], false)]
      && st'.refusals == st.refusals
  {
    hide After, Inv;
    Taken(steps, RecvOpen(t, rid, true));
    FreshAddresses(After(steps));
  }

  lemma FreshAddresses(st: State)
    requires Inv(st)
    ensures forall a :: a >= st.nextAddr ==> a !in st.socks && a !in st.logs
  {
  }

  /** An OPEN for a service that cannot be had is answered with CLSE and nothing else; on a transport that is
      not online it is ignored. */
  lemma OpenRefused(steps: seq<Step>, t: Tid, rid: nat, found: bool)
    requires Running(After(steps), t) && !(found && After(steps).trans[t].online)
    ensures var st := After(steps);
      After(steps + [RecvOpen(t, rid, found)]) ==
        if st.trans[t].online then st.(refusals := st.refusals + [Msg(CLSE, 0, rid, [], t)]) else st
  {
    hide After, Inv;
    Taken(steps, RecvOpen(t, rid, found));
  }

  // ---------- OKAY ----------

  /** OKAY makes the socket it names read again. */
  lemma OkayResumes(steps: seq<Step>, t: Tid, rid: nat, lid: nat, a: Addr)
    requires var st := After(steps);
      Running(st, t) && st.trans[t].online && Named(st, a, lid) && st.socks[a].l.peer.Some?
    ensures var st, st' := After(steps), After(steps + [RecvOkay(t, rid, lid)]);
      && IsLocal(st, a) && a in st.logs
      && Becomes(st, st', a, st.socks[a].l.(wantRead := true, notify := false),
                 st.logs[a].(okaysIn := st.logs[a].okaysIn + 1))
  {
    hide After, Inv, Becomes;
    var st := After(steps);
    Taken(steps, RecvOkay(t, rid, lid));
    NamedIsTarget(st, a, lid);
    LiveSocket(st, a);
    UpdateBecomes(st, a, st.socks[a].l.(wantRead := true, notify := false),
                  st.logs[a].(okaysIn := st.logs[a].okaysIn + 1));
  }

  /** The OKAY that answers an OPEN also creates the remote socket, on the transport it came from. */
  lemma OkayConnects(steps: seq<Step>, t: Tid, rid: nat, lid: nat, a: Addr)
    requires var st := After(steps);
      Running(st, t) && st.trans[t].online && Named(st, a, lid) && st.socks[a].l.peer.None?
    ensures var st, st' := After(steps), After(steps + [RecvOkay(t, rid, lid)]);
      var r := st.nextAddr;
      && IsLocal(st, a) && a in st.logs && r !in st.socks
      && st'.socks == st.socks[a := Local(st.socks[a].l.(peer := Some(r), wantRead := true, notify := false))]
                              [r := Remote(RemoteSock(rid, Some(a), t))]
      && st'.trans == st.trans[t := st.trans[t].(ring := st.trans[t].ring + [r])]
      && st'.live == st.live && st'.closing == st.closing
      && st'.logs == st.logs[a := st.logs[a].(okaysIn := st.logs[a].okaysIn + 1)]
  {
    hide After, Inv, AdoptRemote, StartReading, NoneBefore;
    var st := After(steps);
    Taken(steps, RecvOkay(t, rid, lid));
    NamedIsTarget(st, a, lid);
    LiveSocket(st, a);
    FreshAddresses(st);
    ConnectShape(st, a, t, rid);
  }

  lemma ConnectShape(st: State, a: Addr, t: Tid, rid: nat)
    requires t in st.trans && IsLocal(st, a) && a in st.logs && a != st.nextAddr
    ensures var st', s, r := StartReading(AdoptRemote(st, a, t, rid), a), st.socks[a].l, st.nextAddr;
      && st'.socks == st.socks[a := Local(s.(peer := Some(r), wantRead := true, notify := false))]
                              [r := Remote(RemoteSock(rid, Some(a), t))]
      && st'.trans == st.trans[t := st.trans[t].(ring := st.trans[t].ring + [r])]
      && st'.live == st.live && st'.closing == st.closing
      && st'.logs == st.logs[a := st.logs[a].(okaysIn := st.logs[a].okaysIn + 1)]
  {
    var s, r := st.socks[a].l, st.nextAddr;
    var st1 := AdoptRemote(st, a, t, rid);
    assert st1.socks[a] == Local(s.(peer := Some(r)));
    assert StartReading(st1, a).socks == st.socks[a := Local(s.(peer := Some(r), wantRead := true, notify := false))]
                                                  [r := Remote(RemoteSock(rid, Some(a), t))];
  }

  // ---------- WRTE ----------

  /** The log of a stream that took a WRTE of which n bytes were written. */
  function Took(l: StreamLog, payload: Bytes, n: nat): StreamLog
    requires n <= |payload|
  {
    l.(writesIn := l.writesIn + 1, accepted := l.accepted + payload, written := l.written + payload[..n])
  }

  /** WRTE: behind a queue it waits; else what the descriptor takes is written, and OKAY goes back to the
      sender exactly when that is all of it; the rest is queued, or after a failed write the socket goes
      down. */
  lemma WriteIsTaken(steps: seq<Step>, t: Tid, rid: nat, lid: nat, payload: Bytes, wrote: nat, broke: bool, a: Addr)
    requires var st := After(steps);
      && Enabled(st, RecvWrite(t, rid, lid, payload, wrote, broke)) && st.trans[t].online && Named(st, a, lid)
    ensures var st, st' := After(steps), After(steps + [RecvWrite(t, rid, lid, payload, wrote, broke)]);
      && IsLocal(st, a) && a in st.logs
      && var s, l, w := st.socks[a].l, st.logs[a], Took(st.logs[a], payload, wrote);
      && (s.queue != [] ==>
            Becomes(st, st', a, s.(queue := s.queue + [payload], wantWrite := true), Took(l, payload, 0)))
      && (s.queue == [] && wrote == |payload| ==>
            Becomes(st, st', a, s, w.(sent := l.sent + [Msg(OKAY, s.id, rid, [], t)])))
      && (s.queue == [] && wrote < |payload| && !broke ==>
            Becomes(st, st', a, s.(queue := [payload[wrote..]], wantWrite := true), w))
      && (s.queue == [] && wrote < |payload| && broke ==> Down(st, st', a, s, w.(failed := true)))
  {
    hide After, Inv, Becomes, Down, Enqueue, NoneBefore;
    var st := After(steps);
    Taken(steps, RecvWrite(t, rid, lid, payload, wrote, broke));
    NamedIsTarget(st, a, lid);
    LiveSocket(st, a);
    EnqueueEffect(st, t, rid, payload, wrote, broke, a);
  }

  lemma EnqueueEffect(st: State, t: Tid, rid: nat, payload: Bytes, wrote: nat, broke: bool, a: Addr)
    requires Inv(st) && IsLocal(st, a) && a in st.logs && PeerUsable(st, a)
    requires wrote <= |payload| && HasRemotePeer(st, a)
    ensures var st', s, l, w := Enqueue(st, a, t, rid, payload, wrote, broke), st.socks[a].l, st.logs[a],
                                Took(st.logs[a], payload, wrote);
      && (s.queue != [] ==>
            Becomes(st, st', a, s.(queue := s.queue + [payload], wantWrite := true), Took(l, payload, 0)))
      && (s.queue == [] && wrote == |payload| ==>
            Becomes(st, st', a, s, w.(sent := l.sent + [Msg(OKAY, s.id, rid, [], t)])))
      && (s.queue == [] && wrote < |payload| && !broke ==>
            Becomes(st, st', a, s.(queue := [payload[wrote..]], wantWrite := true), w))
      && (s.queue == [] && wrote < |payload| && broke ==> Down(st, st', a, s, w.(failed := true)))
  {
    hide Inv, Becomes, Down, UpdateClose, Update;
    var s, l, w := st.socks[a].l, st.logs[a], Took(st.logs[a], payload, wrote);
    assert l.written + payload[..0] == l.written;
    if s.queue != [] {
      UpdateBecomes(st, a, s.(queue := s.queue + [payload], wantWrite := true), Took(l, payload, 0));
    } else if wrote == |payload| {
      UpdateBecomes(st, a, s, w.(sent := l.sent + [Msg(OKAY, s.id, rid, [], t)]));
    } else if !broke {
      UpdateBecomes(st, a, s.(queue := [payload[wrote..]], wantWrite := true), w);
    } else {
      UpdateCloseIsDown(st, a, s, w.(failed := true));
    }
  }

  // ---------- the link ----------

  /** SYNC(0): the transport is offline, its remote sockets are gone, their local peers are off the live
      ring, and nothing else is. */
  lemma OfflineDrops(steps: seq<Step>, t: Tid)
    requires Running(After(steps), t)
    ensures var st, st' := After(steps), After(steps + [RecvOffline(t)]);
      && t in st'.trans && st'.trans[t] == Transport(Offline, false, [])
      && (forall r :: r in st'.socks && st'.socks[r].Remote? ==> st'.socks[r].r.transport != t)
      && SameRemotesBut(st, st', st.trans[t].ring) && Silently(st, st', st.trans[t].ring)
  {
    hide After, Inv;
    Taken(steps, RecvOffline(t));
    OfflineDropsExactly(After(steps), t);
  }

  /** CNXN: the same, after which the transport is online in the state its banner names. */
  lemma ConnectDropsOld(steps: seq<Step>, t: Tid, conn: ConnState)
    requires Running(After(steps), t) && Up(conn)
    ensures var st, st' := After(steps), After(steps + [RecvConnect(t, conn)]);
      && t in st'.trans && st'.trans[t] == Transport(conn, true, [])
      && (forall r :: r in st'.socks && st'.socks[r].Remote? ==> st'.socks[r].r.transport != t)
      && SameRemotesBut(st, st', st.trans[t].ring) && Silently(st, st', st.trans[t].ring)
  {
    hide After, GraphOk, StreamsOk, Silently;
    var st := After(steps);
    Taken(steps, RecvConnect(t, conn));
    OfflineDropsExactly(st, t);
    if st.trans[t].conn == Offline { IdleLink(st, t); }
    var st1 := if st.trans[t].conn != Offline then GoOffline(st, t) else st;
    SilentlyLinked(st, st1, After(steps + [RecvConnect(t, conn)]), st.trans[t].ring);
  }

  lemma IdleLink(st: State, t: Tid)
    requires Inv(st) && t in st.trans && st.trans[t].conn == Offline
    ensures st.trans[t] == Transport(Offline, false, [])
    ensures forall r :: r in st.socks && st.socks[r].Remote? ==> st.socks[r].r.transport != t
    ensures Silently(st, st, [])
  {
    assert TransportOk(st, t);
  }

  /** Removing a transport: the same, and it is no longer there. */
  lemma RemovalDrops(steps: seq<Step>, t: Tid)
    requires t in After(steps).trans
    ensures var st, st' := After(steps), After(steps + [Unregister(t)]);
      && t !in st'.trans
      && (forall r :: r in st'.socks && st'.socks[r].Remote? ==> st'.socks[r].r.transport != t)
      && SameRemotesBut(st, st', st.trans[t].ring) && Silently(st, st', st.trans[t].ring)
  {
    hide After, GraphOk, StreamsOk, Silently, RunDisconnects;
    var st := After(steps);
    Taken(steps, Unregister(t));
    OfflineDropsExactly(st, t);
    SilentlyLinked(st, GoOffline(st, t), After(steps + [Unregister(t)]), st.trans[t].ring);
  }

  /** A new transport is offline, or without permission, and has no sockets. */
  lemma RegisterStarts(steps: seq<Step>, t: Tid, writable: bool)
    requires t !in After(steps).trans
    ensures var st, st' := After(steps), After(steps + [Register(t, writable)]);
      st' == st.(trans := st.trans[t := Transport(if writable then Offline else NoPerm, false, [])])
  {
    hide After, Inv;
    Taken(steps, Register(t, writable));
  }

  /** close_all_sockets in a schedule. */
  lemma CloseAllCloses(steps: seq<Step>, t: Tid)
    ensures var st, st' := After(steps), After(steps + [CloseAll(t)]);
      && (forall a :: a in st'.live <==> a in st.live && !Touches(st, a, t))
      && (forall a :: a in st'.live ==> !Touches(st', a, t) && Untouched(st, st', a))
  {
    hide After, Inv, CloseTouching, Untouched, Touches;
    Taken(steps, CloseAll(t));
    CloseAllClosesExactly(After(steps), t);
  }

  /** A new connection: a live local socket with the next id that reads, and its smart socket, which has
      collected nothing. */
  lemma AcceptConnects(steps: seq<Step>)
    ensures var st, st' := After(steps), After(steps + [Accept]);
      var a, p, id := st.nextAddr, st.nextAddr + 1, (st.installs + 1) % ID_SPACE;
      && a !in st.socks && a !in st.logs && p !in st.socks
      && st'.socks == st.socks[a := Local(LocalSock(id, false, Some(p), [], true, false, None, false))]
                              [p := Smart(Some(a), [])]
      && st'.live == st.live + [a] && st'.closing == st.closing && st'.trans == st.trans
      && st'.logs == st.logs[a := StreamLog(st.installs + 1, false, [], 0, 0, [], [], false)]
  {
    hide After, Inv;
    Taken(steps, Accept);
    FreshAddresses(After(steps));
  }

  // ---------- descriptor events ----------

  /** What the OKAY of a drained queue is: to the id and on the transport of the remote end. */
  function Ready(st: State, a: Addr): seq<Msg>
    requires IsLocal(st, a)
  {
    if HasRemotePeer(st, a) then
      var r := st.socks[st.socks[a].l.peer.value].r;
      [Msg(OKAY, st.socks[a].l.id, r.id, [], r.transport)]
    else []
  }

  /** A WRITE event: what is left is queued; a live socket whose queue is empty stops watching WRITE and tells
      its remote end; a parked one is destroyed; after a failed write the socket goes down. */
  lemma WriteEvent(steps: seq<Step>, step: Step)
    requires Enabled(After(steps), step) && step.SocketEvent? && step.write && !step.read
    ensures var st, st', a := After(steps), After(steps + [step]), step.a;
      && IsLocal(st, a) && a in st.logs
      && var s, l, bytes := st.socks[a].l, st.logs[a], Concat(st.socks[a].l.queue);
      && step.wrote <= |bytes|
      && var l1 := l.(written := l.written + bytes[..step.wrote]);
      && (step.wrote == |bytes| && !s.closing ==>
            Becomes(st, st', a, s.(queue := [], wantWrite := false), l1.(sent := l.sent + Ready(st, a))))
      && (step.wrote == |bytes| && s.closing ==> Down(st, st', a, s.(queue := []), l1))
      && (step.wrote < |bytes| ==> exists q ::
            && q != [] && Concat(q) == bytes[step.wrote..] && |q| <= |s.queue|
            && (!step.broke ==> Becomes(st, st', a, s.(queue := q), l1))
            && (step.broke ==> Down(st, st', a, s.(queue := q), l1.(failed := true))))
  {
    hide After, Inv, Becomes, Down, UpdateClose, AfterWriting;
    var st, a := After(steps), step.a;
    Taken(steps, step);
    EventSocket(st, a);
    var s, l, bytes := st.socks[a].l, st.logs[a], Concat(st.socks[a].l.queue);
    var q := AfterWriting(s.queue, step.wrote);
    AfterWritingFacts(s.queue, step.wrote);
    var s1, l1 := s.(queue := q), l.(written := l.written + bytes[..step.wrote]);
    UpdateCloseIsDown(st, a, s1, l1);
    UpdateCloseIsDown(st, a, s1, l1.(failed := true));
    UpdateBecomes(st, a, s1, l1);
    UpdateBecomes(st, a, s1.(wantWrite := false), Readied(st, s, l1));
    assert Readied(st, s, l1) == l1.(sent := l.sent + Ready(st, a));
  }

  lemma EventSocket(st: State, a: Addr)
    requires Inv(st) && IsLocal(st, a)
    ensures a in st.logs && PeerUsable(st, a)
    ensures HasSmartPeer(st, a) ==> st.socks[a].l.queue == []
  {
    InvSplits(st, a);
  }

  /** A READ event on a socket with a remote end: the bytes go out as one WRTE and the socket stops watching
      READ; at end of file the socket goes down. */
  lemma ReadEvent(steps: seq<Step>, step: Step)
    requires Enabled(After(steps), step) && step.SocketEvent? && !step.write && step.read
    requires HasRemotePeer(After(steps), step.a)
    ensures var st, st', a := After(steps), After(steps + [step]), step.a;
      && a in st.live && a in st.logs
      && var s, l, r := st.socks[a].l, st.logs[a], st.socks[st.socks[a].l.peer.value].r;
      && var s1 := if step.data == [] then s else s.(wantRead := false);
      && var l1 := if step.data == [] then l
                   else l.(sent := l.sent + [Msg(WRTE, s.id, r.id, step.data, r.transport)]);
      && (!step.eof ==> Becomes(st, st', a, s1, l1))
      && (step.eof ==> Down(st, st', a, s1, l1))
  {
    hide After, Inv, Becomes, Down, Close;
    var st, a := After(steps), step.a;
    Taken(steps, step);
    EventSocket(st, a);
    WatchingIsLive(st, a);
    var s, l, r := st.socks[a].l, st.logs[a], st.socks[st.socks[a].l.peer.value].r;
    var m := Msg(WRTE, s.id, r.id, step.data, r.transport);
    if step.data == [] {
      CloseIsDown(st, a);
      UpdateBecomes(st, a, s, l);
      assert Update(st, a, s, l) == st by { UpdateSame(st, a); }
    } else {
      UpdateBecomes(st, a, s.(wantRead := false), Told(l, m));
      UpdateCloseIsDown(st, a, s.(wantRead := false), Told(l, m));
    }
  }

  lemma UpdateSame(st: State, a: Addr)
    requires IsLocal(st, a) && a in st.logs
    ensures Update(st, a, st.socks[a].l, st.logs[a]) == st
  {
    assert Update(st, a, st.socks[a].l, st.logs[a]).socks == st.socks;
    assert Update(st, a, st.socks[a].l, st.logs[a]).logs == st.logs;
  }

  lemma WatchingIsLive(st: State, a: Addr)
    requires Inv(st) && IsLocal(st, a) && st.socks[a].l.wantRead
    ensures a in st.live && GraphOk(st)
  {
    InvSplits(st, a);
  }

  /** What the smart socket makes of one more piece: the judgement on all it has collected. */
  ghost function Judgement(st: State, step: Step): SmartSocket.Outcome
    requires step.SocketEvent? && HasSmartPeer(st, step.a)
  {
    SmartSocket.Fed(st.socks[st.socks[step.a].l.peer.value].pending, step.data, step.found.lookup)
  }

  /** Local socket a is handed to transport t: its smart peer p is gone, it waits for the OKAY, and one OPEN
      with the service and its NUL is out. */
  ghost predicate Handed(st: State, st': State, a: Addr, p: Addr, t: Tid, service: Bytes)
    requires IsLocal(st, a) && a in st.logs
  {
    var s, l := st.socks[a].l, st.logs[a];
    && Elsewhere(st, st', a, Some(p)) && p !in st'.socks
    && a in st'.socks && (a in st'.live <==> a in st.live)
    && st'.socks[a] == Local(s.(peer := None, transport := Some(t), notify := true, wantRead := false))
    && a in st'.logs && st'.logs[a] == l.(sent := l.sent + [Msg(OPEN, s.id, 0, service + [0], t)])
  }

  /** The same, and then the client hangs up. */
  ghost predicate HandedAndGone(st: State, st': State, a: Addr, p: Addr, t: Tid, service: Bytes)
    requires IsLocal(st, a) && a in st.logs
  {
    var s, l := st.socks[a].l, st.logs[a];
    && Elsewhere(st, st', a, Some(p)) && p !in st'.socks && a !in st'.socks && a !in st'.live
    && a in st'.logs && st'.logs[a] == l.(sent := l.sent + [Msg(OPEN, s.id, 0, service + [0], t)])
  }

  /** Smart socket p has collected these bytes; nothing else changes. */
  ghost predicate Collected(st: State, st': State, p: Addr, bytes: Bytes) {
    && p in st.socks && st.socks[p].Smart?
    && st' == st.(socks := st.socks[p := Smart(st.socks[p].owner, bytes)])
  }

  lemma HandOver(st: State, a: Addr, t: Tid, service: Bytes)
    requires Inv(st) && a in st.live && HasSmartPeer(st, a) && a in st.logs
    ensures Handed(st, ForwardOpen(st, a, t, service + [0]), a, st.socks[a].l.peer.value, t, service)
    ensures Inv(ForwardOpen(st, a, t, service + [0]))
    ensures HandedAndGone(st, Close(ForwardOpen(st, a, t, service + [0]), a, true), a, st.socks[a].l.peer.value,
                          t, service)
  {
    hide Inv, Close;
    ForwardKeepsInv(st, a, t, service + [0]);
    HandedShape(st, a, t, service);
    HandedQueue(st, a);
    var st1 := ForwardOpen(st, a, t, service + [0]);
    CloseLive(st1, a, true);
    InvIsGraph(st1);
    CloseIsDown(st1, a);
    GoneShape(st, st1, Close(st1, a, true), a, st.socks[a].l.peer.value, t, service);
  }

  lemma InvIsGraph(st: State)
    requires Inv(st)
    ensures GraphOk(st)
  {
  }

  lemma HandedShape(st: State, a: Addr, t: Tid, service: Bytes)
    requires a in st.live && HasSmartPeer(st, a) && a in st.logs
    ensures Handed(st, ForwardOpen(st, a, t, service + [0]), a, st.socks[a].l.peer.value, t, service)
  {
  }

  lemma HandedQueue(st: State, a: Addr)
    requires Inv(st) && HasSmartPeer(st, a)
    ensures st.socks[a].l.queue == []
  {
  }

  lemma GoneShape(st: State, st1: State, st2: State, a: Addr, p: Addr, t: Tid, service: Bytes)
    requires IsLocal(st, a) && a in st.logs && st.socks[a].l.queue == []
    requires IsLocal(st1, a) && a in st1.logs
    requires Handed(st, st1, a, p, t, service) && Down(st1, st2, a, st1.socks[a].l, st1.logs[a])
    ensures HandedAndGone(st, st2, a, p, t, service)
  {
    hide Elsewhere;
    ElsewhereTwice(st, st1, st2, a, p);
  }

  lemma ElsewhereTwice(st: State, st1: State, st2: State, a: Addr, p: Addr)
    requires Elsewhere(st, st1, a, Some(p)) && Elsewhere(st1, st2, a, None) && p !in st1.socks
    ensures Elsewhere(st, st2, a, Some(p)) && (p != a ==> p !in st2.socks)
  {
  }

  lemma CollectedThenDown(st: State, st1: State, st2: State, a: Addr, bytes: Bytes)
    requires HasSmartPeer(st, a) && a in st.logs && Collected(st, st1, st.socks[a].l.peer.value, bytes)
    requires Down(st1, st2, a, st.socks[a].l, st.logs[a])
    ensures Down(st, st2, a, st.socks[a].l, st.logs[a])
  {
  }

  /** A READ event on a socket with a smart peer.  While the request is incomplete the smart socket collects
      the bytes; a bad one, a hang-up, or a forced end of file closes both ends; a complete one goes out. */
  lemma SmartReadEvent(steps: seq<Step>, step: Step)
    requires Enabled(After(steps), step) && step.SocketEvent? && !step.write && step.read
    requires HasSmartPeer(After(steps), step.a)
    ensures var st, st', a := After(steps), After(steps + [step]), step.a;
      && a in st.live && a in st.logs
      && var p, s, l, o := st.socks[a].l.peer.value, st.socks[a].l, st.logs[a], Judgement(st, step);
      && (step.data == [] && !step.eof ==> st' == st)
      && (step.data == [] && step.eof ==> Down(st, st', a, s, l))
      && (step.data != [] && o.Waiting? && !step.eof && !step.forced ==>
            Collected(st, st', p, st.socks[p].pending + step.data))
      && (step.data != [] && o.Waiting? && (step.eof || step.forced) ==> Down(st, st', a, s, l))
      && (step.data != [] && o.Failed? ==> Down(st, st', a, s, l))
      && (step.data != [] && o.Opened? && !step.eof ==> Handed(st, st', a, p, step.found.t, o.destination))
      && (step.data != [] && o.Opened? && step.eof ==> HandedAndGone(st, st', a, p, step.found.t, o.destination))
  {
    hide After, Inv, Down, Close, Handed, HandedAndGone, ForwardOpen, SmartSocket.Fed;
    var st, a := After(steps), step.a;
    Taken(steps, step);
    EventSocket(st, a);
    WatchingIsLive(st, a);
    CloseIsDown(st, a);
    var p, o := st.socks[a].l.peer.value, Judgement(st, step);
    if step.data != [] {
      if o.Waiting? {
        var bytes := st.socks[p].pending + step.data;
        CollectKeepsInv(st, p, bytes);
        WatchingIsLive(Collect(st, p, bytes), a);
        EventSocket(Collect(st, p, bytes), a);
        CloseIsDown(Collect(st, p, bytes), a);
        if step.eof || step.forced { CollectedThenDown(st, Collect(st, p, bytes), After(steps + [step]), a, bytes); }
      } else if o.Opened? {
        HandOver(st, a, step.found.t, o.destination);
      }
    }
  }

  /** The two halves of a callback. */
  function WriteHalf(step: Step): Step
    requires step.SocketEvent?
  {
    step.(read := false, data := [], eof := false, forced := false)
  }

  function ReadHalf(step: Step): Step
    requires step.SocketEvent?
  {
    step.(write := false, wrote := 0, broke := false)
  }

  /** The queue is drained by the WRITE half and the socket stays. */
  ghost predicate Drains(st: State, step: Step)
    requires step.SocketEvent? && IsLocal(st, step.a)
  {
    step.wrote == |Concat(st.socks[step.a].l.queue)| && !st.socks[step.a].l.closing
  }

  /** A callback with both events is the WRITE event and then, if the queue is drained and the socket still
      live, the READ event. */
  lemma BothEvents(steps: seq<Step>, step: Step)
    requires Enabled(After(steps), step) && step.SocketEvent? && step.write && step.read
    ensures Enabled(After(steps), WriteHalf(step))
    ensures Drains(After(steps), step) ==>
              && Enabled(After(steps + [WriteHalf(step)]), ReadHalf(step))
              && After(steps + [step]) == After(steps + [WriteHalf(step)] + [ReadHalf(step)])
    ensures !Drains(After(steps), step) ==> After(steps + [step]) == After(steps + [WriteHalf(step)])
  {
    hide After, Inv;
    var st, a := After(steps), step.a;
    Taken(steps, step);
    Taken(steps, WriteHalf(step));
    EventSocket(st, a);
    AfterWritingFacts(st.socks[a].l.queue, step.wrote);
    if Drains(st, step) { Taken(steps + [WriteHalf(step)], ReadHalf(step)); }
  }
}
