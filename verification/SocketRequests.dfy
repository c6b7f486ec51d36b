/** The request of an accepted connection, told from the schedule: whatever pieces its bytes arrive in, its
    fate is what the reassembler says of those pieces. */
module SocketRequests {
  import opened Bytes
  import opened Rings
  import opened SocketModel
  import opened SocketInvariant
  import opened SocketSteps
  import opened SocketRuns
  import opened SocketTheorems
  import opened SocketEffects
  import SmartSocket
  import SocketTraffic

  // ---------- steps that deliver nothing to a smart socket ----------

  function Pending(st: State, a: Addr): Bytes
    requires HasSmartPeer(st, a)
  {
    st.socks[st.socks[a].l.peer.value].pending
  }

  /** Stream a sends no OPEN; it keeps its smart peer and that peer its bytes, or it is gone unheard; gone is
      gone. */
  ghost predicate CalmAt(st: State, st': State, a: Addr) {
    && a in st.logs && a in st'.logs && SameOrigin(st.logs[a], st'.logs[a])
    && var sent, sent' := st.logs[a].sent, st'.logs[a].sent;
    && sent <= sent' && (forall i :: |sent| <= i < |sent'| ==> sent'[i].command != OPEN)
    && (HasSmartPeer(st', a) ==> HasSmartPeer(st, a) && Pending(st', a) == Pending(st, a))
    && (HasSmartPeer(st, a) ==> sent' == sent && (HasSmartPeer(st', a) || !IsLocal(st', a)))
    && (!IsLocal(st, a) ==> !IsLocal(st', a) && sent' == sent)
  }

  ghost predicate Calm(st: State, st': State) {
    forall a :: a in st.logs ==> CalmAt(st, st', a)
  }

  lemma CalmTwice(st: State, st1: State, st2: State)
    requires Calm(st, st1) && Calm(st1, st2)
    ensures Calm(st, st2)
  {
    hide HasSmartPeer, Pending;
    forall a | a in st.logs ensures CalmAt(st, st2, a) {
      assert CalmAt(st, st1, a);
      assert CalmAt(st1, st2, a);
    }
  }

  /** Nothing about a and its peer changes. */
  lemma SameIsCalm(st: State, st': State, a: Addr)
    requires a in st.logs && a in st'.logs && st'.logs[a] == st.logs[a] && (IsLocal(st, a) <==> IsLocal(st', a))
    requires IsLocal(st, a) ==> SamePair(st, st', a)
    ensures CalmAt(st, st', a)
  {
  }

  lemma StandingStill(st: State, st': State)
    requires PeersOk(st) && st'.socks == st.socks && st'.logs == st.logs
    ensures Calm(st, st')
  {
    forall a | a in st.logs ensures CalmAt(st, st', a) {
      if a in st.socks { assert Paired(st, a); }
      SameIsCalm(st, st', a);
    }
  }

  lemma CloseIsCalm(st: State, a: Addr, announce: bool)
    requires GraphOk(st) && IsLocal(st, a) && PeerUsable(st, a)
    ensures Calm(st, Close(st, a, announce))
  {
    hide Close;
    var st' := Close(st, a, announce);
    CloseShape(st, a, announce);
    CloseLog(st, a, announce);
    assert Paired(st, a);
    forall b | b in st.logs ensures CalmAt(st, st', b) {
      if b != a {
        if b in st.socks { assert Paired(st, b); }
        SameIsCalm(st, st', b);
      }
    }
  }

  lemma UpdateIsCalm(st: State, a: Addr, s: LocalSock, l: StreamLog)
    requires PeersOk(st) && IsLocal(st, a) && a in st.logs && s.peer == st.socks[a].l.peer && SameOrigin(l, st.logs[a])
    requires st.logs[a].sent <= l.sent
    requires forall i :: |st.logs[a].sent| <= i < |l.sent| ==> l.sent[i].command != OPEN
    requires HasSmartPeer(st, a) ==> l.sent == st.logs[a].sent
    ensures Calm(st, Update(st, a, s, l))
  {
    var st' := Update(st, a, s, l);
    assert Paired(st, a);
    forall b | b in st.logs ensures CalmAt(st, st', b) {
      if b != a {
        if b in st.socks { assert Paired(st, b); }
        SameIsCalm(st, st', b);
      }
    }
  }

  lemma UpdateCloseIsCalm(st: State, a: Addr, s: LocalSock, l: StreamLog)
    requires Inv(st) && IsLocal(st, a) && a in st.logs && s.peer == st.socks[a].l.peer && PeerUsable(st, a)
    requires SameOrigin(l, st.logs[a]) && (HasSmartPeer(st, a) ==> s.queue == []) && l.sent == st.logs[a].sent
    ensures Calm(st, UpdateClose(st, a, s, l))
  {
    hide Close, Calm;
    InvSplits(st, a);
    UpdateKeepsRest(st, a, s, l);
    UpdateIsCalm(st, a, s, l);
    CloseIsCalm(Update(st, a, s, l), a, true);
    CalmTwice(st, Update(st, a, s, l), UpdateClose(st, a, s, l));
  }

  lemma {:induction false} CloseEachIsCalm(st: State, victims: seq<Addr>)
    requires Inv(st) && AllLive(st, victims)
    ensures Calm(st, CloseEach(st, victims))
    decreases |victims|
  {
    hide GraphOk, StreamsOk, Close, Calm;
    InvIsGraph(st);
    if victims == [] {
      GraphStandsStill(st);
    } else {
      AllLiveTail(st, victims);
      var st1 := Close(st, victims[0], true);
      CloseIsCalm(st, victims[0], true);
      CloseEachIsCalm(st1, victims[1..]);
      CalmTwice(st, st1, CloseEach(st, victims));
    }
  }

  lemma GraphStandsStill(st: State)
    requires GraphOk(st)
    ensures Calm(st, st)
  {
    StandingStill(st, st);
  }

  lemma {:induction false} DisconnectEachIsCalm(st: State, remotes: seq<Addr>)
    requires Inv(st) && AllRemote(st, remotes)
    ensures Calm(st, DisconnectEach(st, remotes))
    decreases |remotes|
  {
    hide GraphOk, StreamsOk, Close, Calm;
    InvIsGraph(st);
    if remotes == [] {
      GraphStandsStill(st);
    } else {
      var st1 := Disconnect(st, remotes[0]);
      DisconnectEffect(st, remotes[0]);
      AllRemoteTail(st, st1, remotes);
      RemoteHasLivePeer(st, remotes[0]);
      CloseLive(st, st.socks[remotes[0]].r.peer.value, false);
      CloseIsCalm(st, st.socks[remotes[0]].r.peer.value, false);
      DisconnectEachIsCalm(st1, remotes[1..]);
      CalmTwice(st, st1, DisconnectEach(st, remotes));
    }
  }

  lemma OfflineIsCalm(st: State, st': State, t: Tid)
    requires Inv(st) && t in st.trans
    requires st'.socks == RunDisconnects(st, t).socks && st'.logs == RunDisconnects(st, t).logs
    ensures Calm(st, st')
  {
    hide Calm;
    assert TransportOk(st, t);
    DisconnectEachIsCalm(st, st.trans[t].ring);
    StandingStill(RunDisconnects(st, t), st');
    CalmTwice(st, RunDisconnects(st, t), st');
  }

  lemma WritableIsCalm(st: State, a: Addr, wrote: nat, broke: bool)
    requires Inv(st) && IsLocal(st, a) && PeerUsable(st, a) && wrote <= |Concat(st.socks[a].l.queue)|
    requires st.socks[a].l.wantWrite
    ensures Calm(st, OnWritable(st, a, wrote, broke).0)
  {
    hide Close, Calm, RingsOk, HomesOk, TransportsOk, NamesOk;
    InvSplits(st, a);
    AfterWritingFacts(st.socks[a].l.queue, wrote);
    var s := st.socks[a].l;
    var s1 := s.(queue := AfterWriting(s.queue, wrote));
    var l1 := st.logs[a].(written := st.logs[a].written + Concat(s.queue)[..wrote]);
    if wrote < |Concat(s.queue)| {
      if broke { UpdateCloseIsCalm(st, a, s1, l1.(failed := true)); } else { UpdateIsCalm(st, a, s1, l1); }
    } else if s.closing {
      UpdateCloseIsCalm(st, a, s1, l1);
    } else {
      UpdateIsCalm(st, a, s1.(wantWrite := false), Readied(st, s, l1));
    }
  }

  /** Reading when there is no smart peer, or nothing came. */
  lemma ReadableIsCalm(st: State, a: Addr, data: Bytes, eof: bool, forced: bool, found: Acquired)
    requires Inv(st) && Talks(st, a) && (data == [] || HasRemotePeer(st, a))
    ensures Calm(st, OnReadable(st, a, data, eof, forced, found))
  {
    hide Close, Calm, RingsOk, HomesOk, TransportsOk, NamesOk;
    InvSplits(st, a);
    var (st1, r) := if data == [] then (st, 1) else PassOn(st, a, data, found);
    if data != [] {
      var m := Msg(WRTE, st.socks[a].l.id, st.socks[st.socks[a].l.peer.value].r.id, data,
                   st.socks[st.socks[a].l.peer.value].r.transport);
      UpdateIsCalm(st, a, st.socks[a].l.(wantRead := false), Told(st.logs[a], m));
    } else {
      StandingStill(st, st);
    }
    if r >= 0 && (eof || (forced && r == 0)) {
      InvSplits(st1, a);
      CloseIsCalm(st1, a, true);
      CalmTwice(st, st1, Close(st1, a, true));
    }
  }

  /** Bytes reach the smart peer of a. */
  ghost predicate Delivers(st: State, step: Step, a: Addr) {
    step.SocketEvent? && step.a == a && Enabled(st, step) && HasSmartPeer(st, a) && step.read && step.data != []
  }

  lemma EventIsCalm(st: State, step: Step)
    requires Inv(st) && step.SocketEvent? && Enabled(st, step) && !Delivers(st, step, step.a)
    ensures Calm(st, Do(st, step))
  {
    hide Calm, GraphOk, StreamsOk, OnWritable, OnReadable, StreamOk;
    var a := step.a;
    InvSplits(st, a);
    InvIsGraph(st);
    if !step.write {
      if step.read {
        OnePeer(st, a);
        ReadableIsCalm(st, a, step.data, step.eof, step.forced, step.found);
      } else {
        GraphStandsStill(st);
      }
    } else {
      WritableIsCalm(st, a, step.wrote, step.broke);
      if step.read && OnWritable(st, a, step.wrote, step.broke).1 {
        EventReady(st, a, step.wrote, step.broke);
        var st1 := OnWritable(st, a, step.wrote, step.broke).0;
        OnePeer(st, a);
        WritableKeepsPeer(st, a, step.wrote, step.broke);
        ReadableIsCalm(st1, a, step.data, step.eof, step.forced, step.found);
        CalmTwice(st, st1, OnReadable(st1, a, step.data, step.eof, step.forced, step.found));
      }
    }
  }

  lemma OnePeer(st: State, a: Addr)
    requires Inv(st) && IsLocal(st, a) && st.socks[a].l.wantRead
    ensures HasSmartPeer(st, a) || HasRemotePeer(st, a)
    ensures HasSmartPeer(st, a) ==> !st.socks[a].l.wantWrite
    ensures Talks(st, a)
  {
    InvSplits(st, a);
    assert Paired(st, a);
  }

  lemma WritableKeepsPeer(st: State, a: Addr, wrote: nat, broke: bool)
    requires IsLocal(st, a) && PeerUsable(st, a) && wrote <= |Concat(st.socks[a].l.queue)|
    requires HasRemotePeer(st, a) && OnWritable(st, a, wrote, broke).1
    ensures HasRemotePeer(OnWritable(st, a, wrote, broke).0, a)
  {
  }

  lemma EnqueueIsCalm(st: State, a: Addr, t: Tid, rid: nat, payload: Bytes, wrote: nat, broke: bool)
    requires Inv(st) && a in st.live && wrote <= |payload| && HasRemotePeer(st, a) && PeerUsable(st, a)
    ensures Calm(st, Enqueue(st, a, t, rid, payload, wrote, broke))
  {
    hide Close, Calm, RingsOk, HomesOk, TransportsOk, NamesOk;
    InvSplits(st, a);
    var s, l := st.socks[a].l, st.logs[a];
    var l0 := l.(writesIn := l.writesIn + 1, accepted := l.accepted + payload);
    var l1 := l0.(written := l.written + payload[..wrote]);
    if s.queue != [] {
      UpdateIsCalm(st, a, s.(queue := s.queue + [payload], wantWrite := true), l0);
    } else if wrote == |payload| {
      UpdateIsCalm(st, a, s, Told(l1, Msg(OKAY, s.id, rid, [], t)));
    } else if !broke {
      UpdateIsCalm(st, a, s.(queue := [payload[wrote..]], wantWrite := true), l1);
    } else {
      UpdateCloseIsCalm(st, a, s, l1.(failed := true));
    }
  }

  lemma AdoptIsCalm(st: State, a: Addr, t: Tid, rid: nat)
    requires Inv(st) && IsLocal(st, a) && a in st.logs && t in st.trans && st.socks[a].l.peer.None?
    ensures Calm(st, AdoptRemote(st, a, t, rid)) && PeersOk(AdoptRemote(st, a, t, rid))
    ensures IsLocal(AdoptRemote(st, a, t, rid), a)
  {
    AdoptKeepsPeers(st, a, t, rid);
    var st' := AdoptRemote(st, a, t, rid);
    forall b | b in st.logs ensures CalmAt(st, st', b) {
      if b in st.socks { assert Paired(st, b); }
      if b != a { SameIsCalm(st, st', b); }
    }
  }

  lemma OkayIsCalm(st: State, t: Tid, rid: nat, a: Addr)
    requires Inv(st) && IsLocal(st, a) && a in st.logs && t in st.trans
    ensures st.socks[a].l.peer.Some? ==> Calm(st, StartReading(st, a))
    ensures st.socks[a].l.peer.None? ==> Calm(st, StartReading(AdoptRemote(st, a, t, rid), a))
  {
    hide Calm, RingsOk, HomesOk, TransportsOk, NamesOk, SmartsOk, StreamsOk;
    var st1 := if st.socks[a].l.peer.None? then AdoptRemote(st, a, t, rid) else st;
    if st.socks[a].l.peer.None? { AdoptIsCalm(st, a, t, rid); } else { StandingStill(st, st); }
    UpdateIsCalm(st1, a, st1.socks[a].l.(wantRead := true, notify := false),
                 st1.logs[a].(okaysIn := st1.logs[a].okaysIn + 1));
    CalmTwice(st, st1, StartReading(st1, a));
  }

  lemma PacketIsCalm(st: State, step: Step)
    requires Inv(st) && Enabled(st, step) && (step.RecvOkay? || step.RecvClose? || step.RecvWrite?)
    ensures Calm(st, Do(st, step))
  {
    hide Calm, Close, Enqueue, StartReading, AdoptRemote, RingsOk, PeersOk, HomesOk, TransportsOk, NamesOk, SmartsOk;
    var found := Target(st, step.lid);
    InvIsGraph(st);
    GraphStandsStill(st);
    if st.trans[step.t].online && found.Some? {
      InvSplits(st, found.value);
      match step
      case RecvOkay(t, rid, _) => OkayIsCalm(st, t, rid, found.value);
      case RecvClose(_, _) => CloseIsCalm(st, found.value, true);
      case RecvWrite(t, rid, _, payload, wrote, broke) =>
        EnqueueIsCalm(st, found.value, t, rid, payload, wrote, broke);
    }
  }

  lemma NewIsCalm(st: State, st': State)
    requires Inv(st) && Grown(st, st', st.nextAddr, st.nextAddr + 1)
    ensures Calm(st, st')
  {
    hide StreamsOk, HomesOk, TransportsOk, SmartsOk;
    forall a | a in st.logs ensures CalmAt(st, st', a) {
      if a in st.socks { assert Paired(st, a); }
      SameIsCalm(st, st', a);
    }
  }

  lemma OpenIsCalm(st: State, step: Step)
    requires Inv(st) && Enabled(st, step) && (step.RecvOpen? || step.Accept?)
    ensures Calm(st, Do(st, step))
  {
    hide Calm, GraphOk, StreamsOk, Grown, OpenStream;
    InvIsGraph(st);
    GraphStandsStill(st);
    if step.Accept? {
      AcceptGrows(st);
      NewIsCalm(st, AcceptStream(st));
    } else if st.trans[step.t].online && step.serviceFound {
      OpenGrows(st, step.t, step.rid);
      NewIsCalm(st, OpenStream(st, step.t, step.rid));
    } else {
      GraphIsPaired(st);
      StandingStill(st, Do(st, step));
    }
  }

  lemma GraphIsPaired(st: State)
    requires GraphOk(st)
    ensures PeersOk(st)
  {
  }

  lemma AcceptGrows(st: State)
    ensures Grown(st, AcceptStream(st), st.nextAddr, st.nextAddr + 1)
  {
  }

  lemma ConnectIsCalm(st: State, t: Tid, conn: ConnState)
    requires Inv(st) && t in st.trans
    ensures Calm(st, OnConnect(st, t, conn))
  {
    hide Calm, RunDisconnects, StreamsOk;
    if st.trans[t].conn != Offline {
      OfflineIsCalm(st, OnConnect(st, t, conn), t);
    } else {
      StandingStill(st, OnConnect(st, t, conn));
    }
  }

  lemma TouchingAreLive(st: State, t: Tid)
    requires Inv(st)
    ensures AllLive(st, Touching(st, st.live, t)) && PeersOk(st)
  {
  }

  lemma StepIsCalm(st: State, step: Step)
    requires Inv(st) && Enabled(st, step) && (step.SocketEvent? ==> !Delivers(st, step, step.a))
    ensures Calm(st, Do(st, step))
  {
    hide Calm, GraphOk, StreamsOk, RunDisconnects, Close, OnEvent, OnConnect, Delivers, Enabled;
    match step
    case SocketEvent(_, _, _, _, _, _, _, _, _) => EventIsCalm(st, step);
    case RecvOkay(_, _, _) => PacketIsCalm(st, step);
    case RecvClose(_, _) => PacketIsCalm(st, step);
    case RecvWrite(_, _, _, _, _, _) => PacketIsCalm(st, step);
    case RecvOpen(_, _, _) => OpenIsCalm(st, step);
    case Accept => OpenIsCalm(st, step);
    case _ => LinkIsCalm(st, step);
  }

  lemma LinkIsCalm(st: State, step: Step)
    requires Inv(st) && Enabled(st, step)
    requires step.RecvOffline? || step.RecvConnect? || step.CloseAll? || step.Register? || step.Unregister?
    ensures Calm(st, Do(st, step))
  {
    hide Calm, GraphOk, StreamsOk, RunDisconnects, Close, OnEvent, OnConnect;
    match step
    case RecvOffline(t) => OfflineIsCalm(st, GoOffline(st, t), t);
    case RecvConnect(t, conn) => ConnectIsCalm(st, t, conn);
    case CloseAll(t) => TouchingAreLive(st, t); CloseEachIsCalm(st, Touching(st, st.live, t));
    case Unregister(t) => OfflineIsCalm(st, Remove(st, t), t);
    case Register(t, writable) => TouchingAreLive(st, t); StandingStill(st, Add(st, t, writable));
  }

  // ---------- the fate of a request ----------

  /** The pieces that reached the smart peer of a, in order. */
  ghost function Pieces(steps: seq<Step>, a: Addr): seq<Bytes> {
    if steps == [] then []
    else
      var most, step := steps[..|steps| - 1], steps[|steps| - 1];
      Pieces(most, a) + if Delivers(After(most), step, a) then [step.data] else []
  }

  /** What looking for a transport gave when the last of them came. */
  ghost function LastFound(steps: seq<Step>, a: Addr): Acquired {
    if steps == [] then Acquired(SmartSocket.Offline, 0)
    else
      var most, step := steps[..|steps| - 1], steps[|steps| - 1];
      if Delivers(After(most), step, a) then step.found else LastFound(most, a)
  }

  /** The reassembler's outcome o for these pieces is the fate of stream a.  While it waits, the smart socket
      has collected just the pieces, or both ends are gone; a failure ended both ends; neither asked for
      anything.  A complete request was sent, as the first packet of the stream and its only OPEN. */
  ghost predicate Fate(st: State, a: Addr, pieces: seq<Bytes>, found: Acquired) {
    && a in st.logs
    && var l, o := st.logs[a], SmartSocket.Run([], pieces, found.lookup);
    && (HasSmartPeer(st, a) ==> o.Waiting? && Pending(st, a) == Concat(pieces) && l.sent == [])
    && (!HasSmartPeer(st, a) && (o.Waiting? || o.Failed?) ==> !IsLocal(st, a) && l.sent == [])
    && (o.Opened? ==>
          && l.sent != []
          && l.sent[0] == Msg(OPEN, l.serial % ID_SPACE, 0, o.destination + [0], found.t)
          && forall i :: 0 < i < |l.sent| ==> l.sent[i].command != OPEN)
  }

  lemma CalmKeepsFate(st: State, st': State, a: Addr, pieces: seq<Bytes>, found: Acquired)
    requires Fate(st, a, pieces, found) && CalmAt(st, st', a)
    ensures Fate(st', a, pieces, found)
  {
    hide SmartSocket.Run, HasSmartPeer, Pending;
  }

  lemma ElsewhereIsCalm(st: State, st': State, a: Addr, b: Addr)
    requires PeersOk(st) && IsLocal(st, a) && Elsewhere(st, st', a, st.socks[a].l.peer) && b in st.logs && b != a
    requires st.socks[a].l.peer == Some(b) ==> !IsLocal(st', b)
    ensures CalmAt(st, st', b)
  {
    assert Paired(st, a);
    if b in st.socks { assert Paired(st, b); }
    SameIsCalm(st, st', b);
  }

  lemma CollectedElsewhere(st: State, st': State, a: Addr, bytes: Bytes)
    requires HasSmartPeer(st, a) && Collected(st, st', st.socks[a].l.peer.value, bytes)
    ensures Elsewhere(st, st', a, st.socks[a].l.peer)
  {
  }

  /** A piece for another connection. */
  lemma DeliveryIsCalmForOthers(steps: seq<Step>, step: Step, b: Addr)
    requires step.SocketEvent? && Delivers(After(steps), step, step.a) && b in After(steps).logs && b != step.a
    ensures CalmAt(After(steps), After(steps + [step]), b)
  {
    hide After, Inv, Elsewhere, CalmAt, SmartSocket.Fed;
    var st, st', a := After(steps), After(steps + [step]), step.a;
    Taken(steps, step);
    OnePeer(st, a);
    SmartReadEvent(steps, step);
    InvIsGraph(st);
    GraphIsPaired(st);
    var p := st.socks[a].l.peer.value;
    if Collected(st, st', p, st.socks[p].pending + step.data) {
      CollectedElsewhere(st, st', a, st.socks[p].pending + step.data);
    }
    ElsewhereIsCalm(st, st', a, b);
  }

  /** A piece for a. */
  lemma DeliveryDecides(steps: seq<Step>, step: Step, a: Addr, pieces: seq<Bytes>, found: Acquired)
    requires Delivers(After(steps), step, a) && Fate(After(steps), a, pieces, found)
    ensures Fate(After(steps + [step]), a, pieces + [step.data], step.found)
  {
    hide After, Inv, Elsewhere, SmartSocket.Fed, SmartSocket.Run;
    var st, st' := After(steps), After(steps + [step]);
    Taken(steps, step);
    OnePeer(st, a);
    SmartQueue(st, a);
    SmartReadEvent(steps, step);
    SmartSocket.RunAppend([], pieces, step.data, found.lookup, step.found.lookup);
    assert [] + Concat(pieces) == Concat(pieces);
    ConcatAppend(pieces, [step.data]);
    assert Concat([step.data]) == step.data;
    PeerOfSmart(st, a);
  }

  lemma SmartQueue(st: State, a: Addr)
    requires Inv(st) && HasSmartPeer(st, a) && a in st.live
    ensures st.socks[a].l.queue == [] && a in st.logs && st.socks[a].l.id == st.logs[a].serial % ID_SPACE
  {
    InvSplits(st, a);
  }

  lemma PeerOfSmart(st: State, a: Addr)
    requires Inv(st) && HasSmartPeer(st, a)
    ensures st.socks[a].l.peer.value != a && st.socks[st.socks[a].l.peer.value].owner == Some(a)
  {
    assert Paired(st, a);
  }

  lemma {:induction false} NoPiecesBeforeBirth(steps: seq<Step>, a: Addr)
    requires a !in After(steps).logs
    ensures Pieces(steps, a) == []
  {
    hide After, Enabled, Extends;
    if steps != [] {
      var most, step := steps[..|steps| - 1], steps[|steps| - 1];
      RunGrows(most, [step]);
      assert most + [step] == steps;
      NoPiecesBeforeBirth(most, a);
      RunKeepsInv(most);
      LocalsAreLogged(After(most));
    }
  }

  lemma LocalsAreLogged(st: State)
    requires Inv(st)
    ensures forall a :: IsLocal(st, a) ==> a in st.logs
  {
  }

  /** A stream that no remote OPEN made was accepted, with a smart peer that has nothing yet. */
  lemma BornAccepted(steps: seq<Step>, step: Step, a: Addr)
    requires a in After(steps + [step]).logs && a !in After(steps).logs && !After(steps + [step]).logs[a].byRemote
    ensures HasSmartPeer(After(steps + [step]), a) && Pending(After(steps + [step]), a) == []
    ensures After(steps + [step]).logs[a].sent == [] && !Delivers(After(steps), step, a)
  {
    hide After, Inv, Do, Enabled;
    var st := After(steps);
    Taken(steps, step);
    LocalsAreLogged(st);
    if step.Accept? {
      AcceptConnects(steps);
    } else if step.RecvOpen? && OpensHere(st, step) {
      OpenOpens(steps, step.t, step.rid);
    } else if Enabled(st, step) {
      OtherStepsMakeNone(steps, step);
    }
  }

  lemma OtherStepsMakeNone(steps: seq<Step>, step: Step)
    requires Enabled(After(steps), step) && !step.Accept? && (step.RecvOpen? ==> !OpensHere(After(steps), step))
    ensures After(steps + [step]).logs.Keys == After(steps).logs.Keys
  {
    hide After, Inv, Do, SocketTraffic.Moves;
    Taken(steps, step);
    if step.RecvOpen? {
      OpenRefused(steps, step.t, step.rid, step.serviceFound);
    } else {
      SocketTraffic.OldStepFlows(After(steps), step);
    }
  }

  ghost predicate OpensHere(st: State, step: Step)
    requires step.RecvOpen?
  {
    Running(st, step.t) && st.trans[step.t].online && step.serviceFound
  }

  lemma StepKeepsFate(steps: seq<Step>, step: Step, a: Addr, pieces: seq<Bytes>, found: Acquired)
    requires Fate(After(steps), a, pieces, found) && !Delivers(After(steps), step, a)
    ensures Fate(After(steps + [step]), a, pieces, found)
  {
    hide After, Inv, Do, Fate, CalmAt, Delivers, Enabled;
    var st, st' := After(steps), After(steps + [step]);
    Taken(steps, step);
    FateIsLogged(st, a, pieces, found);
    if !Enabled(st, step) {
    } else if step.SocketEvent? && Delivers(st, step, step.a) {
      DeliveryIsCalmForOthers(steps, step, a);
      CalmKeepsFate(st, st', a, pieces, found);
    } else {
      StepIsCalm(st, step);
      assert CalmAt(st, st', a);
      CalmKeepsFate(st, st', a, pieces, found);
    }
  }

  lemma FateIsLogged(st: State, a: Addr, pieces: seq<Bytes>, found: Acquired)
    requires Fate(st, a, pieces, found)
    ensures a in st.logs
  {
  }

  lemma ExtendsKeepsSide(l: StreamLog, l': StreamLog)
    requires Extends(l, l')
    ensures l'.byRemote == l.byRemote
  {
  }

  lemma BornWaiting(st: State, a: Addr, found: Acquired)
    requires a in st.logs && HasSmartPeer(st, a) && Pending(st, a) == [] && st.logs[a].sent == []
    ensures Fate(st, a, [], found)
  {
  }

  /** The fate of every accepted connection is what the reassembler says of the pieces its client sent: still
      waiting with exactly those bytes collected, both ends closed, or exactly one OPEN for the declared
      service. */
  lemma {:induction false} RequestIsJudged(steps: seq<Step>, a: Addr)
    requires a in After(steps).logs && !After(steps).logs[a].byRemote
    ensures Fate(After(steps), a, Pieces(steps, a), LastFound(steps, a))
  {
    hide Fate, Delivers, Apply, Extends, Inv, Pieces, LastFound;
    if steps != [] {
      var most, step := steps[..|steps| - 1], steps[|steps| - 1];
      assert most + [step] == steps;
      PiecesAfter(most, step, a);
      if a !in After(most).logs {
        NoPiecesBeforeBirth(most, a);
        BornAccepted(most, step, a);
        BornWaiting(After(steps), a, LastFound(steps, a));
      } else {
        RunGrows(most, [step]);
        assert Extends(After(most).logs[a], After(steps).logs[a]);
        ExtendsKeepsSide(After(most).logs[a], After(steps).logs[a]);
        RequestIsJudged(most, a);
        if Delivers(After(most), step, a) {
          DeliveryDecides(most, step, a, Pieces(most, a), LastFound(most, a));
        } else {
          StepKeepsFate(most, step, a, Pieces(most, a), LastFound(most, a));
        }
      }
    }
  }

  lemma PiecesAfter(most: seq<Step>, step: Step, a: Addr)
    ensures Delivers(After(most), step, a) ==>
              Pieces(most + [step], a) == Pieces(most, a) + [step.data] && LastFound(most + [step], a) == step.found
    ensures !Delivers(After(most), step, a) ==>
              Pieces(most + [step], a) == Pieces(most, a) && LastFound(most + [step], a) == LastFound(most, a)
  {
    hide Delivers, After;
    assert (most + [step])[..|most|] == most;
    assert Pieces(most, a) + [] == Pieces(most, a);
  }

  /** Within the size of a packet, only the bytes matter: the outcome is that of the whole request. */
  lemma CutsPlayNoPart(steps: seq<Step>, a: Addr)
    requires |Concat(Pieces(steps, a))| <= MAX_PAYLOAD
    ensures var pieces, lookup := Pieces(steps, a), LastFound(steps, a).lookup;
      SmartSocket.Run([], pieces, lookup) == SmartSocket.Judge(Concat(pieces), lookup)
  {
    hide Pieces, LastFound, SmartSocket.Run;
    var pieces, lookup := Pieces(steps, a), LastFound(steps, a).lookup;
    SmartSocket.RunIsJudge([], pieces, lookup);
    assert [] + Concat(pieces) == Concat(pieces);
  }
}
