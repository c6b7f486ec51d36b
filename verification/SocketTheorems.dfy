/** What the multiplexer promises, over every schedule of callbacks. */
module SocketTheorems {
  import opened Bytes
  import opened Rings
  import opened SocketModel
  import opened SocketInvariant
  import opened SocketSteps
  import opened SocketRuns
  import SmartSocket

  // ---------- logs only grow ----------

  ghost predicate Extends(l: StreamLog, l': StreamLog) {
    && SameOrigin(l, l')
    && l.sent <= l'.sent && l.accepted <= l'.accepted && l.written <= l'.written
    && l.okaysIn <= l'.okaysIn && l.writesIn <= l'.writesIn && (l.failed ==> l'.failed)
  }

  ghost predicate Grows(st: State, st': State) {
    forall a :: a in st.logs ==> a in st'.logs && Extends(st.logs[a], st'.logs[a])
  }

  lemma GrowsChain(st: State, st1: State, st2: State)
    requires Grows(st, st1) && Grows(st1, st2)
    ensures Grows(st, st2)
  {
    forall a | a in st.logs ensures a in st2.logs && Extends(st.logs[a], st2.logs[a]) {
      assert Extends(st.logs[a], st1.logs[a]);
      assert Extends(st1.logs[a], st2.logs[a]);
    }
  }

  lemma CloseGrows(st: State, a: Addr, announce: bool)
    requires GraphOk(st) && IsLocal(st, a) && PeerUsable(st, a)
    ensures Grows(st, Close(st, a, announce))
  {
    CloseShape(st, a, announce);
  }

  lemma UpdateGrows(st: State, a: Addr, s: LocalSock, l: StreamLog)
    requires a in st.logs && Extends(st.logs[a], l)
    ensures Grows(st, Update(st, a, s, l))
  {
  }

  lemma UpdateCloseGrows(st: State, a: Addr, s: LocalSock, l: StreamLog)
    requires Inv(st) && IsLocal(st, a) && a in st.logs && s.peer == st.socks[a].l.peer && PeerUsable(st, a)
    requires HasSmartPeer(st, a) ==> s.queue == []
    requires Extends(st.logs[a], l)
    ensures Grows(st, UpdateClose(st, a, s, l))
  {
    var st1 := Update(st, a, s, l);
    InvSplits(st, a);
    UpdateKeepsRest(st, a, s, l);
    UpdateGrows(st, a, s, l);
    CloseGrows(st1, a, true);
    GrowsChain(st, st1, UpdateClose(st, a, s, l));
  }

  lemma {:induction false} CloseEachGrows(st: State, victims: seq<Addr>)
    requires Inv(st) && AllLive(st, victims)
    ensures Grows(st, CloseEach(st, victims))
    decreases |victims|
  {
    if victims != [] {
      var st1 := Close(st, victims[0], true);
      AllLiveTail(st, victims);
      CloseGrows(st, victims[0], true);
      CloseEachGrows(st1, victims[1..]);
      GrowsChain(st, st1, CloseEach(st, victims));
    }
  }

  lemma {:induction false} DisconnectEachGrows(st: State, remotes: seq<Addr>)
    requires Inv(st) && AllRemote(st, remotes)
    ensures Grows(st, DisconnectEach(st, remotes))
    decreases |remotes|
  {
    if remotes != [] {
      var st1 := Disconnect(st, remotes[0]);
      DisconnectEffect(st, remotes[0]);
      AllRemoteTail(st, st1, remotes);
      RemoteHasLivePeer(st, remotes[0]);
      CloseLive(st, st.socks[remotes[0]].r.peer.value, false);
      CloseGrows(st, st.socks[remotes[0]].r.peer.value, false);
      DisconnectEachGrows(st1, remotes[1..]);
      GrowsChain(st, st1, DisconnectEach(st, remotes));
    }
  }

  lemma RunDisconnectsGrows(st: State, t: Tid)
    requires Inv(st) && t in st.trans
    ensures Grows(st, RunDisconnects(st, t))
  {
    assert TransportOk(st, t);
    DisconnectEachGrows(st, st.trans[t].ring);
  }

  lemma WritableGrows(st: State, a: Addr, wrote: nat, broke: bool)
    requires Inv(st) && IsLocal(st, a) && PeerUsable(st, a) && wrote <= |Concat(st.socks[a].l.queue)|
    requires st.socks[a].l.wantWrite
    ensures Grows(st, OnWritable(st, a, wrote, broke).0)
  {
    InvSplits(st, a);
    var s := st.socks[a].l;
    var s1 := s.(queue := AfterWriting(s.queue, wrote));
    var l1 := st.logs[a].(written := st.logs[a].written + Concat(s.queue)[..wrote]);
    if wrote < |Concat(s.queue)| {
      if broke { UpdateCloseGrows(st, a, s1, l1.(failed := true)); } else { UpdateGrows(st, a, s1, l1); }
    } else if s.closing {
      UpdateCloseGrows(st, a, s1, l1);
    } else {
      UpdateGrows(st, a, s1.(wantWrite := false), Readied(st, s, l1));
    }
  }

  lemma PassOnGrows(st: State, a: Addr, data: Bytes, found: Acquired)
    requires Inv(st) && Talks(st, a)
    ensures Grows(st, PassOn(st, a, data, found).0)
  {
    hide RingsOk, HomesOk, TransportsOk, NamesOk, SmartsOk, LiveOk, LogOk, Close, CloseAlone, CutPeer;
    InvSplits(st, a);
    assert Paired(st, a);
    var s, l := st.socks[a].l, st.logs[a];
    if HasSmartPeer(st, a) {
      var o := SmartSocket.Fed(st.socks[s.peer.value].pending, data, found.lookup);
      if o.Failed? {
        CloseGrows(st, a, true);
      } else if o.Opened? {
        assert Extends(l, Told(l, Msg(OPEN, s.id, 0, o.destination + [0], found.t)));
      }
    } else {
      var r := st.socks[s.peer.value].r;
      UpdateGrows(st, a, s.(wantRead := false), Told(l, Msg(WRTE, s.id, r.id, data, r.transport)));
    }
  }

  lemma ReadableGrows(st: State, a: Addr, data: Bytes, eof: bool, forced: bool, found: Acquired)
    requires Inv(st) && Talks(st, a)
    ensures Grows(st, OnReadable(st, a, data, eof, forced, found))
  {
    hide GraphOk, StreamsOk, Close;
    var (st1, r) := if data == [] then (st, 1) else PassOn(st, a, data, found);
    if data != [] { PassOnGrows(st, a, data, found); }
    if r >= 0 && (eof || (forced && r == 0)) {
      CloseLive(st1, a, true);
      CloseGrows(st1, a, true);
      GrowsChain(st, st1, Close(st1, a, true));
    }
  }

  lemma EventGrows(st: State, a: Addr, write: bool, wrote: nat, broke: bool,
                   read: bool, data: Bytes, eof: bool, forced: bool, found: Acquired)
    requires Inv(st) && Enabled(st, SocketEvent(a, write, wrote, broke, read, data, eof, forced, found))
    ensures Grows(st, OnEvent(st, a, write, wrote, broke, read, data, eof, forced, found))
  {
    InvSplits(st, a);
    if !write {
      if read { ReadableGrows(st, a, data, eof, forced, found); }
    } else {
      WritableGrows(st, a, wrote, broke);
      if read && OnWritable(st, a, wrote, broke).1 {
        EventReady(st, a, wrote, broke);
        var st1 := OnWritable(st, a, wrote, broke).0;
        ReadableGrows(st1, a, data, eof, forced, found);
        GrowsChain(st, st1, OnReadable(st1, a, data, eof, forced, found));
      }
    }
  }

  lemma EnqueueGrows(st: State, a: Addr, t: Tid, rid: nat, payload: Bytes, wrote: nat, broke: bool)
    requires Inv(st) && a in st.live && wrote <= |payload| && HasRemotePeer(st, a) && PeerUsable(st, a)
    ensures Grows(st, Enqueue(st, a, t, rid, payload, wrote, broke))
  {
    InvSplits(st, a);
    var s, l := st.socks[a].l, st.logs[a];
    var l1 := l.(writesIn := l.writesIn + 1, accepted := l.accepted + payload, written := l.written + payload[..wrote]);
    if s.queue != [] {
      UpdateGrows(st, a, s.(queue := s.queue + [payload], wantWrite := true),
                  l.(writesIn := l.writesIn + 1, accepted := l.accepted + payload));
    } else if wrote == |payload| {
      UpdateGrows(st, a, s, Told(l1, Msg(OKAY, s.id, rid, [], t)));
    } else if !broke {
      UpdateGrows(st, a, s.(queue := [payload[wrote..]], wantWrite := true), l1);
    } else {
      UpdateCloseGrows(st, a, s, l1.(failed := true));
    }
  }

  lemma FreshGrows(st: State, st': State)
    requires NamesOk(st) && st'.logs.Keys >= st.logs.Keys
    requires forall a :: a in st.logs ==> a in st'.logs && st'.logs[a] == st.logs[a]
    ensures Grows(st, st')
  {
  }

  lemma OkayGrows(st: State, t: Tid, rid: nat, lid: nat)
    requires t in st.trans && Inv(st)
    ensures Grows(st, OnOkay(st, t, rid, lid))
  {
    var found := Target(st, lid);
    if st.trans[t].online && found.Some? {
      var a := found.value;
      InvSplits(st, a);
      var st1 := if st.socks[a].l.peer.None? then AdoptRemote(st, a, t, rid) else st;
      assert st1.logs == st.logs;
      assert OnOkay(st, t, rid, lid) == StartReading(st1, a);
    }
  }

  lemma CloseFoundGrows(st: State, t: Tid, lid: nat)
    requires t in st.trans && Inv(st)
    ensures Grows(st, OnClose(st, t, lid))
  {
    if st.trans[t].online && Target(st, lid).Some? {
      CloseLive(st, Target(st, lid).value, true);
      CloseGrows(st, Target(st, lid).value, true);
    }
  }

  lemma StepGrows(st: State, step: Step)
    requires Inv(st) && Enabled(st, step)
    ensures Grows(st, Do(st, step))
  {
    hide StreamsOk, Close, OnReadable, OnWritable, Enqueue, OnWrite, PeersOk, HomesOk, SmartsOk, RingsOk, CloseTouching;
    match step
    case Register(t, writable) =>
    case Accept => FreshGrows(st, AcceptStream(st));
    case RecvOpen(t, rid, found) =>
      if st.trans[t].online && found { FreshGrows(st, OpenStream(st, t, rid)); }
    case RecvOkay(t, rid, lid) => OkayGrows(st, t, rid, lid);
    case RecvClose(t, lid) => CloseFoundGrows(st, t, lid);
    case RecvWrite(t, rid, lid, payload, wrote, broke) => WriteGrows(st, t, rid, lid, payload, wrote, broke);
    case RecvOffline(t) => RunDisconnectsGrows(st, t);
    case RecvConnect(t, conn) => RunDisconnectsGrows(st, t);
    case SocketEvent(a, write, wrote, broke, read, data, eof, forced, found) =>
      EventGrows(st, a, write, wrote, broke, read, data, eof, forced, found);
    case CloseAll(t) => CloseAllGrows(st, t);
    case Unregister(t) => RunDisconnectsGrows(st, t);
  }

  lemma WriteGrows(st: State, t: Tid, rid: nat, lid: nat, payload: Bytes, wrote: nat, broke: bool)
    requires Inv(st) && Enabled(st, RecvWrite(t, rid, lid, payload, wrote, broke))
    ensures Grows(st, OnWrite(st, t, rid, lid, payload, wrote, broke))
  {
    if st.trans[t].online && Target(st, lid).Some? {
      InvSplits(st, Target(st, lid).value);
      EnqueueGrows(st, Target(st, lid).value, t, rid, payload, wrote, broke);
    }
  }

  lemma CloseAllGrows(st: State, t: Tid)
    requires Inv(st)
    ensures Grows(st, CloseTouching(st, t))
  {
    CloseEachGrows(st, Touching(st, st.live, t));
  }

  lemma ApplyGrows(st: State, step: Step)
    requires Inv(st)
    ensures Grows(st, Apply(st, step))
  {
    if Enabled(st, step) { StepGrows(st, step); }
  }

  lemma AfterLast(steps: seq<Step>)
    requires steps != []
    ensures After(steps) == Apply(After(steps[..|steps| - 1]), steps[|steps| - 1])
  {
    hide Apply, Inv, Enabled, Do;
  }

  lemma AfterSnoc(steps: seq<Step>, more: seq<Step>)
    requires more != []
    ensures After(steps + more) == Apply(After(steps + more[..|more| - 1]), more[|more| - 1])
  {
    hide After, Apply, Inv, Enabled, Do;
    AfterLast(steps + more);
    assert (steps + more)[..|steps + more| - 1] == steps + more[..|more| - 1];
  }

  /** What a stream has sent, accepted and written is never taken back. */
  lemma {:induction false} RunGrows(steps: seq<Step>, more: seq<Step>)
    ensures Grows(After(steps), After(steps + more))
    decreases |more|
  {
    if more == [] {
      assert steps + more == steps;
    } else {
      var most := more[..|more| - 1];
      RunGrows(steps, most);
      RunKeepsInv(steps + most);
      AfterSnoc(steps, more);
      ApplyGrows(After(steps + most), more[|more| - 1]);
      GrowsChain(After(steps), After(steps + most), After(steps + more));
    }
  }

  // ---------- one stream ----------

  /** A stream that a remote OPEN created: OKAY first, then OKAY and WRTE in any order, then at most
      one CLSE; and once the CLSE is out, nothing is ever added. */
  lemma StreamAnswersOpen(steps: seq<Step>, more: seq<Step>, a: Addr)
    requires a in After(steps).logs && After(steps).logs[a].byRemote
    ensures AnswersOpen(After(steps).logs[a].sent)
    ensures a in After(steps + more).logs
    ensures After(steps).logs[a].sent <= After(steps + more).logs[a].sent
    ensures (exists i :: 0 <= i < |After(steps).logs[a].sent| && After(steps).logs[a].sent[i].command == CLSE) ==>
              After(steps + more).logs[a].sent == After(steps).logs[a].sent
  {
    RunKeepsInv(steps);
    RunKeepsInv(steps + more);
    RunGrows(steps, more);
    assert StreamOk(After(steps), a);
    assert Extends(After(steps).logs[a], After(steps + more).logs[a]);
    assert StreamOk(After(steps + more), a);
  }

  /** Credit on a stream that a remote OPEN created, while its socket exists.  Write side: the OKAYs
      sent, plus one while the socket waits for its descriptor, never exceed the WRTEs received plus
      one, and queued bytes mean it is waiting.  Read side: the WRTEs sent, plus one while it watches
      for bytes, never exceed the OKAYs received plus one, so at most one WRTE is unacknowledged. */
  lemma Credit(steps: seq<Step>, a: Addr)
    requires IsLocal(After(steps), a)
    ensures a in After(steps).logs
    ensures var s, l := After(steps).socks[a].l, After(steps).logs[a];
      && (s.queue != [] <==> s.wantWrite)
      && (l.byRemote ==>
            && Count(l.sent, OKAY) + Bit(s.wantWrite) <= l.writesIn + 1
            && Count(l.sent, OKAY) + |s.queue| <= l.writesIn + 1
            && Count(l.sent, WRTE) + Bit(s.wantRead) <= l.okaysIn + 1)
  {
    RunKeepsInv(steps);
    assert StreamOk(After(steps), a);
  }

  /** With a remote side that never has more WRTEs out than OKAYs received, at most one packet is ever
      queued. */
  lemma PoliteSideNeedsOneSlot(steps: seq<Step>, a: Addr)
    requires IsLocal(After(steps), a) && a in After(steps).logs && After(steps).logs[a].byRemote
    requires After(steps).logs[a].writesIn <= Count(After(steps).logs[a].sent, OKAY)
    ensures |After(steps).socks[a].l.queue| <= 1
  {
    Credit(steps, a);
  }

  /** Byte conservation: while a socket exists, what its descriptor took followed by what is queued is
      exactly what the stream accepted; once it is gone, everything accepted was written, unless a
      write on it failed. */
  lemma NoByteIsLost(steps: seq<Step>, a: Addr)
    requires a in After(steps).logs
    ensures IsLocal(After(steps), a) ==>
              After(steps).logs[a].accepted == After(steps).logs[a].written + Concat(After(steps).socks[a].l.queue)
    ensures !IsLocal(After(steps), a) && !After(steps).logs[a].failed ==>
              After(steps).logs[a].accepted == After(steps).logs[a].written
    ensures After(steps).logs[a].written <= After(steps).logs[a].accepted
  {
    RunKeepsInv(steps);
    assert StreamOk(After(steps), a);
  }

  // ---------- the graph ----------

  /** The peer graph: links are mutual; a remote socket has a live local peer and sits in the ring of
      its transport and of no other; a local socket is on exactly one of the two rings; a parked one
      has no peer and id 0. */
  lemma PeerGraphIsSound(steps: seq<Step>, a: Addr)
    requires a in After(steps).socks
    ensures var st := After(steps); var s := st.socks[a];
      && (s.Peer().Some? ==> s.Peer().value in st.socks && st.socks[s.Peer().value].Peer() == Some(a))
      && (s.Remote? ==> s.r.peer.Some? && s.r.peer.value in st.live)
      && (s.Remote? ==> forall t :: t in st.trans ==> (a in st.trans[t].ring <==> t == s.r.transport))
      && (s.Remote? ==> s.r.transport in st.trans)
      && (s.Local? ==> (a in st.live <==> a !in st.closing))
      && (a in st.closing ==> s.Local? && s.l.peer.None? && s.l.id == 0)
  {
    RunKeepsInv(steps);
    var st := After(steps);
    assert Paired(st, a);
    if IsLocal(st, a) { assert StreamOk(st, a); }
    if st.socks[a].Remote? {
      RemoteHasLivePeer(st, a);
      OnlyHomeRing(st, a);
    }
  }

  lemma IdOf(st: State, a: Addr)
    requires Inv(st) && a in st.live
    ensures IsLocal(st, a) && a in st.logs
    ensures st.socks[a].l.id == st.logs[a].serial % ID_SPACE && 0 < st.logs[a].serial <= st.installs
  {
    assert StreamOk(st, a);
  }

  lemma SmallIsItself(n: nat)
    requires n < ID_SPACE
    ensures n % ID_SPACE == n
  {
  }

  /** The n-th local socket ever installed gets id n modulo 2^32.  So two live sockets share an id
      exactly when their install numbers agree modulo 2^32, a live socket has the reserved id 0
      exactly when its number is a multiple of it, and before the 2^32-th install neither happens. */
  lemma IdsFollowInstalls(steps: seq<Step>, a: Addr, b: Addr)
    requires a in After(steps).live && b in After(steps).live
    ensures IsLocal(After(steps), a) && IsLocal(After(steps), b) && a in After(steps).logs && b in After(steps).logs
    ensures var st := After(steps); var ia, ib := st.socks[a].l.id, st.socks[b].l.id;
      && (ia == 0 <==> st.logs[a].serial % ID_SPACE == 0)
      && (ia == ib <==> st.logs[a].serial % ID_SPACE == st.logs[b].serial % ID_SPACE)
      && (st.installs < ID_SPACE ==> ia != 0 && (ia == ib ==> a == b))
  {
    RunKeepsInv(steps);
    var st := After(steps);
    IdOf(st, a);
    IdOf(st, b);
    if st.installs < ID_SPACE {
      SmallIsItself(st.logs[a].serial);
      SmallIsItself(st.logs[b].serial);
    }
  }

  // ---------- close_all_sockets ----------

  /** Closing these live sockets leaves every other pair of sockets alone. */
  ghost predicate Spares(st: State, st': State, victims: seq<Addr>) {
    && (forall b :: b in st'.live <==> b in st.live && b !in victims)
    && (forall b :: b in st.socks && b !in victims ==>
          (st.socks[b].Peer().None? || st.socks[b].Peer().value !in victims) ==>
          b in st'.socks)
    && (forall b :: b in st'.socks && b !in victims ==> b in st.socks && st'.socks[b] == st.socks[b])
    && st'.logs.Keys == st.logs.Keys
    && (forall b :: b in st.logs && b !in victims ==> st'.logs[b] == st.logs[b])
  }

  lemma CloseSpares(st: State, a: Addr)
    requires Inv(st) && a in st.live
    ensures IsLocal(st, a) && PeerUsable(st, a) && Inv(Close(st, a, true))
    ensures Spares(st, Close(st, a, true), [a])
  {
    CloseLive(st, a, true);
    assert Paired(st, a);
  }

  lemma SparesChain(st: State, st1: State, st2: State, a: Addr, rest: seq<Addr>)
    requires Spares(st, st1, [a]) && Spares(st1, st2, rest)
    ensures Spares(st, st2, [a] + rest)
  {
    forall b | b in st.socks && b !in [a] + rest &&
               (st.socks[b].Peer().None? || st.socks[b].Peer().value !in [a] + rest)
      ensures b in st2.socks
    {
      assert b in st1.socks && st1.socks[b] == st.socks[b];
    }
  }

  lemma {:induction false} CloseEachSpares(st: State, victims: seq<Addr>)
    requires Inv(st) && AllLive(st, victims)
    ensures Spares(st, CloseEach(st, victims), victims)
    decreases |victims|
  {
    hide GraphOk, StreamsOk, Close;
    if victims != [] {
      var a, rest := victims[0], victims[1..];
      AllLiveTail(st, victims);
      CloseSpares(st, a);
      CloseEachSpares(Close(st, a, true), rest);
      SparesChain(st, Close(st, a, true), CloseEach(Close(st, a, true), rest), a, rest);
      assert victims == [a] + rest;
    }
  }

  /** close_all_sockets(t): afterwards no live socket is bound to t or has a peer on t, and every live
      socket that was neither is still live and unchanged, with its peer and its history. */
  lemma CloseAllClosesExactly(st: State, t: Tid)
    requires Inv(st)
    ensures var st' := CloseTouching(st, t);
      && (forall a :: a in st'.live ==> !Touches(st', a, t))
      && (forall a :: a in st'.live <==> a in st.live && !Touches(st, a, t))
      && (forall a :: a in st'.live ==> Untouched(st, st', a))
  {
    var victims := Touching(st, st.live, t);
    var st' := CloseTouching(st, t);
    CloseEachSpares(st, victims);
    forall a | a in st'.live ensures !Touches(st', a, t) && Untouched(st, st', a) {
      assert StreamOk(st, a);
      assert Paired(st, a);
      if st.socks[a].Peer().Some? { assert st.socks[a].Peer().value !in victims; }
    }
  }

  /** Socket a, its peer and its log are what they were. */
  ghost predicate Untouched(st: State, st': State, a: Addr) {
    SamePair(st, st', a) && a in st.logs && a in st'.logs && st'.logs[a] == st.logs[a]
  }

  // ---------- going offline ----------

  /** A transport is online exactly when its state is neither offline nor without permission; so online
      agrees with "not offline" exactly for transports with permission. */
  lemma RemoteIsOnline(steps: seq<Step>, t: Tid)
    requires t in After(steps).trans
    ensures var st := After(steps);
      && (st.trans[t].online <==> Up(st.trans[t].conn))
      && ((st.trans[t].online <==> st.trans[t].conn != Offline) <==> st.trans[t].conn != NoPerm)
      && (!st.trans[t].online ==> forall r :: r in st.socks && st.socks[r].Remote? ==> st.socks[r].r.transport != t)
  {
    RunKeepsInv(steps);
    assert TransportOk(After(steps), t);
  }

  ghost predicate SameSent(st: State, st': State) {
    forall a :: a in st.logs ==> a in st'.logs && st'.logs[a] == st.logs[a]
  }

  predicate PeerIn(st: State, a: Addr, gone: seq<Addr>) {
    IsLocal(st, a) && st.socks[a].l.peer.Some? && st.socks[a].l.peer.value in gone
  }

  /** Every log is as it was, and the live sockets are those whose peer is not among `gone`. */
  ghost predicate Silently(st: State, st': State, gone: seq<Addr>) {
    && SameSent(st, st')
    && (forall a :: a in st'.live <==> a in st.live && !PeerIn(st, a, gone))
    && (forall a :: a in st'.live ==> SamePair(st, st', a))
  }

  /** Socket a and its peer are what they were. */
  ghost predicate SamePair(st: State, st': State, a: Addr) {
    && a in st.socks && a in st'.socks && st'.socks[a] == st.socks[a]
    && (st.socks[a].Peer().Some? ==>
          && st.socks[a].Peer().value in st.socks && st.socks[a].Peer().value in st'.socks
          && st'.socks[st.socks[a].Peer().value] == st.socks[st.socks[a].Peer().value])
  }

  lemma SilentlyChain(st: State, st1: State, st2: State, r: Addr, rest: seq<Addr>)
    requires Silently(st, st1, [r]) && Silently(st1, st2, rest)
    ensures Silently(st, st2, [r] + rest)
  {
    forall a ensures a in st2.live <==> a in st.live && !PeerIn(st, a, [r] + rest) {
      if a in st1.live { assert PeerIn(st1, a, rest) <==> PeerIn(st, a, rest); }
    }
  }

  lemma SilentlySame(st: State)
    requires RingsOk(st) && PeersOk(st)
    ensures Silently(st, st, [])
  {
    forall a | a in st.live ensures SamePair(st, st, a) { assert Paired(st, a); }
  }

  lemma ClosedSilently(st: State, st': State, a: Addr, r: Addr)
    requires PeersOk(st) && RingsOk(st) && IsLocal(st, a) && Closed(st, st', a)
    requires st.socks[a].l.peer == Some(r) && a in st.logs && st'.logs[a] == st.logs[a]
    ensures Silently(st, st', [r])
  {
    WithoutFacts(st.live, a);
    forall b | PeerIn(st, b, [r]) ensures b == a { assert Paired(st, a); assert Paired(st, b); }
    assert PeerIn(st, a, [r]);
    forall b | b in st'.live ensures SamePair(st, st', b) {
      assert Paired(st, a);
      assert Paired(st, b);
    }
  }

  lemma DisconnectIsSilent(st: State, r: Addr)
    requires Inv(st) && r in st.socks && st.socks[r].Remote?
    ensures Silently(st, Disconnect(st, r), [r])
  {
    hide Silently;
    RemoteHasLivePeer(st, r);
    var a := st.socks[r].r.peer.value;
    CloseLive(st, a, false);
    assert Paired(st, a);
    CloseLog(st, a, false);
    ClosedSilently(st, Disconnect(st, r), a, r);
  }

  lemma {:induction false} DisconnectEachIsSilent(st: State, remotes: seq<Addr>)
    requires Inv(st) && AllRemote(st, remotes)
    ensures Silently(st, DisconnectEach(st, remotes), remotes)
    decreases |remotes|
  {
    hide RingsOk, PeersOk, HomesOk, TransportsOk, NamesOk, SmartsOk, StreamsOk, SameLinks, Silently;
    if remotes == [] {
      SilentlySame(st);
    } else {
      var st1 := Disconnect(st, remotes[0]);
      DisconnectEffect(st, remotes[0]);
      AllRemoteTail(st, st1, remotes);
      DisconnectIsSilent(st, remotes[0]);
      DisconnectEachIsSilent(st1, remotes[1..]);
      SilentlyChain(st, st1, DisconnectEach(st1, remotes[1..]), remotes[0], remotes[1..]);
      assert remotes == [remotes[0]] + remotes[1..];
    }
  }

  lemma SilentlyLinked(st: State, st1: State, st2: State, gone: seq<Addr>)
    requires Silently(st, st1, gone) && st2.socks == st1.socks && st2.live == st1.live && st2.logs == st1.logs
    ensures Silently(st, st2, gone)
  {
  }

  /** SYNC(0), or CNXN on a transport that is up: every disconnect registered on the transport runs
      once and only those do.  Afterwards its ring is empty, no remote socket is left on it, the local
      peers are off the live ring, every other remote and live local socket is still there, and
      nothing was sent on any stream. */
  lemma OfflineDropsExactly(st: State, t: Tid)
    requires Inv(st) && t in st.trans
    ensures NoDup(st.trans[t].ring)
    ensures forall r :: r in st.trans[t].ring <==> r in st.socks && st.socks[r].Remote? && st.socks[r].r.transport == t
    ensures var st' := GoOffline(st, t);
      && st'.trans[t] == Transport(Offline, false, [])
      && SameRemotesBut(st, st', st.trans[t].ring)
      && (forall r :: r in st'.socks && st'.socks[r].Remote? ==> st'.socks[r].r.transport != t)
      && Silently(st, st', st.trans[t].ring)
  {
    hide Silently, SameLinks, RingsOk, PeersOk, NamesOk, SmartsOk, StreamsOk;
    assert TransportOk(st, t);
    DisconnectEachEffect(st, st.trans[t].ring);
    DisconnectEachIsSilent(st, st.trans[t].ring);
    SilentlyLinked(st, DisconnectEach(st, st.trans[t].ring), GoOffline(st, t), st.trans[t].ring);
  }
}
