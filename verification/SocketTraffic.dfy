/** What travels on a stream, told from the schedule alone: which bytes were read from the descriptor and
    sent, which arrived and were taken, and to whom each packet is addressed. */
module SocketTraffic {
  import opened Bytes
  import opened Rings
  import opened SocketModel
  import opened SocketInvariant
  import opened SocketSteps
  import opened SocketRuns
  import opened SocketTheorems
  import opened SocketEffects
  import SmartSocket

  // ---------- what a step adds to a stream ----------

  /** The payloads of the WRTE packets, in order. */
  function Payloads(sent: seq<Msg>): Bytes {
    if sent == [] then []
    else Payloads(sent[..|sent| - 1]) + if sent[|sent| - 1].command == WRTE then sent[|sent| - 1].data else []
  }

  lemma PayloadsAppend(sent: seq<Msg>, m: Msg)
    ensures Payloads(sent + [m]) == Payloads(sent) + if m.command == WRTE then m.data else []
  {
    assert (sent + [m])[..|sent|] == sent;
  }

  /** Bytes read from the descriptor, payload bytes received, OKAYs and WRTEs received. */
  datatype Delta = Delta(read: Bytes, received: Bytes, okays: nat, writes: nat)

  const NOTHING := Delta([], [], 0, 0)

  function Plus(d: Delta, e: Delta): Delta {
    Delta(d.read + e.read, d.received + e.received, d.okays + e.okays, d.writes + e.writes)
  }

  lemma PlusNothing(d: Delta)
    ensures Plus(d, NOTHING) == d && Plus(NOTHING, d) == d
  {
  }

  ghost predicate Adds(l: StreamLog, l': StreamLog, d: Delta) {
    && SameOrigin(l, l')
    && Payloads(l'.sent) == Payloads(l.sent) + d.read
    && l'.accepted == l.accepted + d.received
    && l'.okaysIn == l.okaysIn + d.okays
    && l'.writesIn == l.writesIn + d.writes
  }

  function Far(st: State, a: Addr): RemoteSock
    requires HasRemotePeer(st, a)
  {
    st.socks[st.socks[a].l.peer.value].r
  }

  /** A packet that socket a may send: WRTE and CLSE go to its remote end. */
  ghost predicate From(st: State, a: Addr, m: Msg) {
    && HasRemotePeer(st, a)
    && (match m.command
        case OPEN => false
        case OKAY => m.arg0 == st.socks[a].l.id
        case WRTE => m.arg0 == st.socks[a].l.id && m.arg1 == Far(st, a).id && m.via == Far(st, a).transport
        case CLSE => m.arg0 == 0 && m.arg1 == Far(st, a).id && m.via == Far(st, a).transport)
  }

  ghost predicate Speaks(st: State, a: Addr, sent: seq<Msg>, sent': seq<Msg>) {
    sent <= sent' && forall i :: |sent| <= i < |sent'| ==> From(st, a, sent'[i])
  }

  /** A remote end is never replaced. */
  ghost predicate SameEnds(st: State, st': State, a: Addr) {
    HasRemotePeer(st', a) ==>
      HasRemotePeer(st, a) && st'.socks[a].l.id == st.socks[a].l.id && Far(st', a) == Far(st, a)
  }

  ghost predicate FlowAt(st: State, st': State, a: Addr, d: Delta) {
    && a in st.logs && a in st'.logs
    && Adds(st.logs[a], st'.logs[a], d)
    && Speaks(st, a, st.logs[a].sent, st'.logs[a].sent)
    && SameEnds(st, st', a)
  }

  /** No stream is new; see Moves. */
  ghost predicate Flow(st: State, st': State, who: Addr, d: Delta) {
    st'.logs.Keys == st.logs.Keys && Moves(st, st', who, d)
  }

  /** The remotely opened streams go from st to st', stream `who` by d and the others by nothing. */
  ghost predicate Moves(st: State, st': State, who: Addr, d: Delta) {
    forall a :: a in st.logs && st.logs[a].byRemote ==> FlowAt(st, st', a, if a == who then d else NOTHING)
  }

  lemma FlowAtChain(st: State, st1: State, st2: State, a: Addr, d: Delta, e: Delta)
    requires FlowAt(st, st1, a, d) && FlowAt(st1, st2, a, e)
    ensures FlowAt(st, st2, a, Plus(d, e))
  {
    hide Payloads, HasRemotePeer;
    var s1, s2 := st1.logs[a].sent, st2.logs[a].sent;
    forall i | |st.logs[a].sent| <= i < |s2| ensures From(st, a, s2[i]) {
      if i < |s1| {
        assert s2[i] == s1[i];
        assert From(st, a, s1[i]);
      } else {
        assert From(st1, a, s2[i]);
      }
    }
  }

  lemma FlowChain(st: State, st1: State, st2: State, who: Addr, d: Delta, e: Delta)
    requires Flow(st, st1, who, d) && Flow(st1, st2, who, e)
    ensures Flow(st, st2, who, Plus(d, e))
  {
    hide FlowAt, Plus;
    PlusNothing(NOTHING);
    forall a | a in st.logs && st.logs[a].byRemote
      ensures FlowAt(st, st2, a, if a == who then Plus(d, e) else NOTHING) {
      var d1, e1 := if a == who then d else NOTHING, if a == who then e else NOTHING;
      assert FlowAt(st, st1, a, d1);
      StillByRemote(st, st1, a, d1);
      FlowAtChain(st, st1, st2, a, d1, e1);
    }
  }

  lemma StillByRemote(st: State, st1: State, a: Addr, d: Delta)
    requires FlowAt(st, st1, a, d)
    ensures a in st1.logs && st1.logs[a].byRemote == st.logs[a].byRemote
  {
  }

  // ---------- the steps ----------

  lemma Silent(st: State, st': State, a: Addr)
    requires a in st.logs && a in st'.logs && st'.logs[a] == st.logs[a] && SameEnds(st, st', a)
    ensures FlowAt(st, st', a, NOTHING)
  {
  }

  lemma CloseFlows(st: State, a: Addr, announce: bool, who: Addr)
    requires GraphOk(st) && IsLocal(st, a) && PeerUsable(st, a)
    ensures Flow(st, Close(st, a, announce), who, NOTHING)
  {
    hide Close, Payloads;
    var st' := Close(st, a, announce);
    CloseShape(st, a, announce);
    assert Paired(st, a);
    CloseLog(st, a, announce);
    forall b | b in st.logs && st.logs[b].byRemote ensures FlowAt(st, st', b, NOTHING) {
      if b in st.socks { assert Paired(st, b); }
      if b != a || st'.logs[a] == st.logs[a] {
        Silent(st, st', b);
      } else {
        var r := st.socks[st.socks[a].l.peer.value].r;
        PayloadsAppend(st.logs[a].sent, Msg(CLSE, 0, r.id, [], r.transport));
      }
    }
  }

  lemma UpdateFlows(st: State, a: Addr, s: LocalSock, l: StreamLog, d: Delta)
    requires IsLocal(st, a) && a in st.logs && s.peer == st.socks[a].l.peer && s.id == st.socks[a].l.id
    requires st.logs[a].byRemote ==> Adds(st.logs[a], l, d) && Speaks(st, a, st.logs[a].sent, l.sent)
    ensures Flow(st, Update(st, a, s, l), a, d)
  {
    hide Payloads, Adds, Speaks;
    var st' := Update(st, a, s, l);
    forall b | b in st.logs && st.logs[b].byRemote ensures FlowAt(st, st', b, if b == a then d else NOTHING) {
      if b != a { Silent(st, st', b); }
    }
  }

  lemma UpdateCloseFlows(st: State, a: Addr, s: LocalSock, l: StreamLog, d: Delta)
    requires Inv(st) && IsLocal(st, a) && a in st.logs && s.peer == st.socks[a].l.peer && PeerUsable(st, a)
    requires s.id == st.socks[a].l.id && (HasSmartPeer(st, a) ==> s.queue == [])
    requires SameOrigin(l, st.logs[a])
    requires st.logs[a].byRemote ==> Adds(st.logs[a], l, d) && Speaks(st, a, st.logs[a].sent, l.sent)
    ensures Flow(st, UpdateClose(st, a, s, l), a, d)
  {
    hide GraphOk, StreamOk, Close, Flow, Plus;
    var st1 := Update(st, a, s, l);
    InvSplits(st, a);
    UpdateKeepsRest(st, a, s, l);
    UpdateFlows(st, a, s, l, d);
    CloseFlows(st1, a, true, a);
    FlowChain(st, st1, UpdateClose(st, a, s, l), a, d, NOTHING);
    PlusNothing(d);
  }

  lemma {:induction false} CloseEachFlows(st: State, victims: seq<Addr>, who: Addr)
    requires Inv(st) && AllLive(st, victims)
    ensures Flow(st, CloseEach(st, victims), who, NOTHING)
    decreases |victims|
  {
    hide GraphOk, StreamsOk, Close, Plus, Flow;
    if victims == [] {
      NoFlow(st, who);
    } else {
      AllLiveTail(st, victims);
      var st1 := Close(st, victims[0], true);
      InvHasGraph(st);
      CloseFlows(st, victims[0], true, who);
      CloseEachFlows(st1, victims[1..], who);
      FlowChain(st, st1, CloseEach(st, victims), who, NOTHING, NOTHING);
      PlusNothing(NOTHING);
    }
  }

  lemma InvHasGraph(st: State)
    requires Inv(st)
    ensures GraphOk(st)
  {
  }

  lemma NoFlow(st: State, who: Addr)
    ensures Flow(st, st, who, NOTHING)
  {
    forall a | a in st.logs && st.logs[a].byRemote ensures FlowAt(st, st, a, NOTHING) { Silent(st, st, a); }
  }

  lemma {:induction false} DisconnectEachFlows(st: State, remotes: seq<Addr>, who: Addr)
    requires Inv(st) && AllRemote(st, remotes)
    ensures Flow(st, DisconnectEach(st, remotes), who, NOTHING)
    decreases |remotes|
  {
    hide GraphOk, StreamsOk, Close, Plus, Flow;
    if remotes == [] {
      NoFlow(st, who);
    } else {
      var st1 := Disconnect(st, remotes[0]);
      DisconnectEffect(st, remotes[0]);
      AllRemoteTail(st, st1, remotes);
      RemoteHasLivePeer(st, remotes[0]);
      CloseLive(st, st.socks[remotes[0]].r.peer.value, false);
      InvHasGraph(st);
      CloseFlows(st, st.socks[remotes[0]].r.peer.value, false, who);
      DisconnectEachFlows(st1, remotes[1..], who);
      FlowChain(st, st1, DisconnectEach(st, remotes), who, NOTHING, NOTHING);
      PlusNothing(NOTHING);
    }
  }

  /** New sockets and streams beside the old ones. */
  lemma SameSocketsMove(st: State, st': State, who: Addr)
    requires forall a :: a in st.socks ==> a in st'.socks && st'.socks[a] == st.socks[a]
    requires forall a :: a in st.logs ==> a in st'.logs && st'.logs[a] == st.logs[a]
    requires forall a :: a in st.logs && a !in st.socks ==> a !in st'.socks
    requires PeersOk(st)
    ensures Moves(st, st', who, NOTHING)
  {
    forall a | a in st.logs && st.logs[a].byRemote ensures FlowAt(st, st', a, NOTHING) {
      if a in st.socks { assert Paired(st, a); }
      Silent(st, st', a);
    }
  }

  lemma RunDisconnectsFlows(st: State, t: Tid, who: Addr)
    requires Inv(st) && t in st.trans
    ensures Flow(st, RunDisconnects(st, t), who, NOTHING)
  {
    hide Flow;
    assert TransportOk(st, t);
    DisconnectEachFlows(st, st.trans[t].ring, who);
  }

  /** Flow looks only at sockets and logs. */
  lemma FlowIgnoresLinks(st: State, st1: State, st2: State, who: Addr, d: Delta)
    requires Flow(st, st1, who, d) && st2.socks == st1.socks && st2.logs == st1.logs
    ensures Flow(st, st2, who, d)
  {
    forall a | a in st.logs && st.logs[a].byRemote ensures FlowAt(st, st2, a, if a == who then d else NOTHING) {
      assert FlowAt(st, st1, a, if a == who then d else NOTHING);
    }
  }

  lemma WritableFlows(st: State, a: Addr, wrote: nat, broke: bool)
    requires Inv(st) && IsLocal(st, a) && PeerUsable(st, a) && wrote <= |Concat(st.socks[a].l.queue)|
    requires st.socks[a].l.wantWrite
    ensures Flow(st, OnWritable(st, a, wrote, broke).0, a, NOTHING)
  {
    hide Flow, Close, RingsOk, PeersOk, HomesOk, TransportsOk, NamesOk, SmartsOk, Payloads;
    InvSplits(st, a);
    AfterWritingFacts(st.socks[a].l.queue, wrote);
    SmartQueueIsEmpty(st, a);
    var s := st.socks[a].l;
    var s1 := s.(queue := AfterWriting(s.queue, wrote));
    var l1 := st.logs[a].(written := st.logs[a].written + Concat(s.queue)[..wrote]);
    if wrote < |Concat(s.queue)| {
      if broke {
        UpdateCloseFlows(st, a, s1, l1.(failed := true), NOTHING);
      } else {
        UpdateFlows(st, a, s1, l1, NOTHING);
      }
    } else if s.closing {
      UpdateCloseFlows(st, a, s1, l1, NOTHING);
    } else {
      var l2 := Readied(st, s, l1);
      if l2 != l1 { PayloadsAppend(l1.sent, l2.sent[|l1.sent|]); }
      UpdateFlows(st, a, s1.(wantWrite := false), l2, NOTHING);
    }
  }

  lemma SmartQueueIsEmpty(st: State, a: Addr)
    requires Inv(st)
    ensures HasSmartPeer(st, a) ==> st.socks[a].l.queue == [] && (a in st.logs ==> !st.logs[a].byRemote)
  {
  }

  lemma ForwardFlows(st: State, a: Addr, t: Tid, service: Bytes, d: Delta)
    requires Inv(st) && HasSmartPeer(st, a) && a in st.logs
    ensures Flow(st, ForwardOpen(st, a, t, service), a, d)
  {
    hide Payloads;
    var st' := ForwardOpen(st, a, t, service);
    forall b | b in st.logs && st.logs[b].byRemote ensures b != a && FlowAt(st, st', b, NOTHING) {
      if b in st.socks { assert Paired(st, b); }
      Silent(st, st', b);
    }
  }

  lemma CollectFlows(st: State, p: Addr, bytes: Bytes, who: Addr)
    requires Inv(st) && p in st.socks && st.socks[p].Smart?
    ensures Flow(st, Collect(st, p, bytes), who, NOTHING)
  {
    hide Payloads;
    var st' := Collect(st, p, bytes);
    forall b | b in st.logs && st.logs[b].byRemote ensures FlowAt(st, st', b, NOTHING) {
      if b in st.socks { assert Paired(st, b); }
      Silent(st, st', b);
    }
  }

  /** Only the flow of streams that a remote OPEN made is told, so a smart peer may eat bytes. */
  lemma SmartFlow(st: State, st': State, a: Addr, d: Delta)
    requires Flow(st, st', a, NOTHING) && a in st.logs && !st.logs[a].byRemote
    ensures Flow(st, st', a, d)
  {
    hide FlowAt;
    forall b | b in st.logs && st.logs[b].byRemote ensures FlowAt(st, st', b, if b == a then d else NOTHING) {
      assert FlowAt(st, st', b, if b == a then NOTHING else NOTHING);
    }
  }

  lemma PassOnFlows(st: State, a: Addr, data: Bytes, found: Acquired)
    requires Inv(st) && Talks(st, a)
    ensures Flow(st, PassOn(st, a, data, found).0, a, Delta(data, [], 0, 0))
  {
    hide Flow, RingsOk, HomesOk, TransportsOk, NamesOk, SmartsOk, LiveOk, LogOk, Close, Payloads;
    InvSplits(st, a);
    assert Paired(st, a);
    SmartQueueIsEmpty(st, a);
    var s, l := st.socks[a].l, st.logs[a];
    var d := Delta(data, [], 0, 0);
    if HasSmartPeer(st, a) {
      var p := s.peer.value;
      var o := SmartSocket.Fed(st.socks[p].pending, data, found.lookup);
      if o.Failed? {
        CloseFlows(st, a, true, a);
        SmartFlow(st, Close(st, a, true), a, d);
      } else if o.Opened? {
        ForwardFlows(st, a, found.t, o.destination + [0], d);
      } else {
        CollectFlows(st, p, st.socks[p].pending + data, a);
        SmartFlow(st, Collect(st, p, st.socks[p].pending + data), a, d);
      }
    } else {
      var r := st.socks[s.peer.value].r;
      var m := Msg(WRTE, s.id, r.id, data, r.transport);
      PayloadsAppend(l.sent, m);
      UpdateFlows(st, a, s.(wantRead := false), Told(l, m), d);
    }
  }

  lemma ReadableFlows(st: State, a: Addr, data: Bytes, eof: bool, forced: bool, found: Acquired)
    requires Inv(st) && Talks(st, a)
    ensures Flow(st, OnReadable(st, a, data, eof, forced, found), a, Delta(data, [], 0, 0))
  {
    hide Flow, GraphOk, StreamsOk, Close, Plus;
    var d := Delta(data, [], 0, 0);
    var (st1, r) := if data == [] then (st, 1) else PassOn(st, a, data, found);
    if data != [] { PassOnFlows(st, a, data, found); } else { NoFlow(st, a); }
    if r >= 0 && (eof || (forced && r == 0)) {
      CloseLive(st1, a, true);
      InvHasGraph(st1);
      CloseFlows(st1, a, true, a);
      FlowChain(st, st1, Close(st1, a, true), a, d, NOTHING);
      PlusNothing(d);
    }
  }

  /** The READ half of the callback is reached. */
  ghost predicate Reads(st: State, step: Step)
    requires step.SocketEvent? && IsLocal(st, step.a)
  {
    step.read && (step.write ==> Drains(st, step))
  }

  lemma DrainingLeadsOn(st: State, step: Step)
    requires step.SocketEvent? && IsLocal(st, step.a) && PeerUsable(st, step.a)
    requires step.wrote <= |Concat(st.socks[step.a].l.queue)|
    ensures OnWritable(st, step.a, step.wrote, step.broke).1 <==> Drains(st, step)
  {
    hide AfterWriting, UpdateClose, Update;
  }

  lemma EventFlows(st: State, step: Step)
    requires Inv(st) && step.SocketEvent? && Enabled(st, step)
    ensures Flow(st, Do(st, step), step.a, if Reads(st, step) then Delta(step.data, [], 0, 0) else NOTHING)
  {
    hide Flow, GraphOk, StreamsOk, OnWritable, OnReadable, Plus;
    var a := step.a;
    InvSplits(st, a);
    if !step.write {
      if step.read { ReadableFlows(st, a, step.data, step.eof, step.forced, step.found); } else { NoFlow(st, a); }
    } else {
      WritableFlows(st, a, step.wrote, step.broke);
      DrainingLeadsOn(st, step);
      if step.read && OnWritable(st, a, step.wrote, step.broke).1 {
        EventReady(st, a, step.wrote, step.broke);
        var st1 := OnWritable(st, a, step.wrote, step.broke).0;
        ReadableFlows(st1, a, step.data, step.eof, step.forced, step.found);
        FlowChain(st, st1, OnReadable(st1, a, step.data, step.eof, step.forced, step.found), a,
                  NOTHING, Delta(step.data, [], 0, 0));
        PlusNothing(Delta(step.data, [], 0, 0));
      }
    }
  }

  lemma EnqueueFlows(st: State, a: Addr, t: Tid, rid: nat, payload: Bytes, wrote: nat, broke: bool)
    requires Inv(st) && a in st.live && wrote <= |payload| && HasRemotePeer(st, a) && PeerUsable(st, a)
    ensures Flow(st, Enqueue(st, a, t, rid, payload, wrote, broke), a, Delta([], payload, 0, 1))
  {
    hide Flow, Close, RingsOk, PeersOk, HomesOk, TransportsOk, NamesOk, SmartsOk, Payloads;
    InvSplits(st, a);
    var s, l := st.socks[a].l, st.logs[a];
    var d := Delta([], payload, 0, 1);
    var l0 := l.(writesIn := l.writesIn + 1, accepted := l.accepted + payload);
    var l1 := l0.(written := l.written + payload[..wrote]);
    if s.queue != [] {
      UpdateFlows(st, a, s.(queue := s.queue + [payload], wantWrite := true), l0, d);
    } else if wrote == |payload| {
      PayloadsAppend(l1.sent, Msg(OKAY, s.id, rid, [], t));
      UpdateFlows(st, a, s, Told(l1, Msg(OKAY, s.id, rid, [], t)), d);
    } else if !broke {
      UpdateFlows(st, a, s.(queue := [payload[wrote..]], wantWrite := true), l1, d);
    } else {
      UpdateCloseFlows(st, a, s, l1.(failed := true), d);
    }
  }

  lemma AdoptFlows(st: State, a: Addr, t: Tid, rid: nat)
    requires Inv(st) && a in st.live && IsLocal(st, a) && a in st.logs && t in st.trans && st.socks[a].l.peer.None?
    ensures !st.logs[a].byRemote && Flow(st, AdoptRemote(st, a, t, rid), a, NOTHING)
    ensures IsLocal(AdoptRemote(st, a, t, rid), a)
  {
    hide Payloads;
    InvSplits(st, a);
    var st' := AdoptRemote(st, a, t, rid);
    forall b | b in st.logs && st.logs[b].byRemote ensures b != a && FlowAt(st, st', b, NOTHING) {
      if b in st.socks { assert Paired(st, b); }
      Silent(st, st', b);
    }
  }

  lemma OkayFlows(st: State, t: Tid, rid: nat, a: Addr)
    requires Inv(st) && a in st.live && IsLocal(st, a) && a in st.logs && t in st.trans
    ensures st.socks[a].l.peer.Some? ==> Flow(st, StartReading(st, a), a, Delta([], [], 1, 0))
    ensures st.socks[a].l.peer.None? ==> Flow(st, StartReading(AdoptRemote(st, a, t, rid), a), a, Delta([], [], 1, 0))
  {
    hide Flow, RingsOk, PeersOk, HomesOk, TransportsOk, NamesOk, SmartsOk, Payloads, Plus;
    var d := Delta([], [], 1, 0);
    var st1 := if st.socks[a].l.peer.None? then AdoptRemote(st, a, t, rid) else st;
    if st.socks[a].l.peer.None? { AdoptFlows(st, a, t, rid); } else { NoFlow(st, a); }
    UpdateFlows(st1, a, st1.socks[a].l.(wantRead := true, notify := false),
                st1.logs[a].(okaysIn := st1.logs[a].okaysIn + 1), d);
    FlowChain(st, st1, StartReading(st1, a), a, NOTHING, d);
    PlusNothing(d);
  }

  // ---------- over a schedule ----------

  /** Which stream a step brings something, and what. */
  ghost function Brought(st: State, step: Step): (Addr, Delta)
    requires Inv(st) && Enabled(st, step)
  {
    match step
    case SocketEvent(a, _, _, _, _, data, _, _, _) => (a, if Reads(st, step) then Delta(data, [], 0, 0) else NOTHING)
    case RecvOkay(t, _, lid) =>
      if st.trans[t].online && Target(st, lid).Some? then (Target(st, lid).value, Delta([], [], 1, 0)) else (0, NOTHING)
    case RecvWrite(t, _, lid, payload, _, _) =>
      if st.trans[t].online && Target(st, lid).Some? then (Target(st, lid).value, Delta([], payload, 0, 1))
      else (0, NOTHING)
    case _ => (0, NOTHING)
  }

  lemma StreamStepFlows(st: State, step: Step)
    requires Inv(st) && Enabled(st, step) && (step.RecvOkay? || step.RecvClose? || step.RecvWrite?)
    ensures Flow(st, Do(st, step), Brought(st, step).0, Brought(st, step).1)
  {
    hide Flow, Close, Enqueue, StartReading, AdoptRemote, RingsOk, PeersOk, HomesOk, TransportsOk, NamesOk, SmartsOk;
    var found := Target(st, step.lid);
    if st.trans[step.t].online && found.Some? {
      InvSplits(st, found.value);
      match step
      case RecvOkay(t, rid, _) => OkayFlows(st, t, rid, found.value);
      case RecvClose(_, _) => CloseFlows(st, found.value, true, 0);
      case RecvWrite(t, rid, _, payload, wrote, broke) => EnqueueFlows(st, found.value, t, rid, payload, wrote, broke);
    } else {
      NoFlow(st, 0);
    }
  }

  lemma OfflineFlows(st: State, st': State, t: Tid)
    requires Inv(st) && t in st.trans
    requires st'.socks == RunDisconnects(st, t).socks && st'.logs == RunDisconnects(st, t).logs
    ensures Flow(st, st', 0, NOTHING)
  {
    hide Flow, RunDisconnects;
    RunDisconnectsFlows(st, t, 0);
    FlowIgnoresLinks(st, RunDisconnects(st, t), st', 0, NOTHING);
  }

  lemma ConnectFlows(st: State, t: Tid, conn: ConnState)
    requires Inv(st) && t in st.trans
    ensures Flow(st, OnConnect(st, t, conn), 0, NOTHING)
  {
    hide Flow, RunDisconnects, GraphOk, StreamsOk;
    if st.trans[t].conn != Offline {
      OfflineFlows(st, OnConnect(st, t, conn), t);
    } else {
      NoFlow(st, 0);
      FlowIgnoresLinks(st, st, OnConnect(st, t, conn), 0, NOTHING);
    }
  }

  lemma NewStreamFlows(st: State, st': State)
    requires Inv(st) && Grown(st, st', st.nextAddr, st.nextAddr + 1)
    ensures Moves(st, st', 0, NOTHING)
  {
    hide Moves;
    SameSocketsMove(st, st', 0);
  }

  /** The log of a stream that a remote OPEN just made. */
  ghost predicate Newborn(st: State, a: Addr) {
    && a in st.logs && HasRemotePeer(st, a)
    && var l := st.logs[a]; var m := Msg(OKAY, l.serial % ID_SPACE, Far(st, a).id, [], Far(st, a).transport);
       l == StreamLog(l.serial, true, [m], 0, 0, [], [], false)
  }

  /** At most one stream is new, and if a remote OPEN made it, it is just that. */
  ghost predicate Births(st: State, st': State) {
    forall a :: a in st'.logs && a !in st.logs && st'.logs[a].byRemote ==> Newborn(st', a)
  }

  lemma FlowHasNoBirths(st: State, st': State, who: Addr, d: Delta)
    requires Flow(st, st', who, d)
    ensures Births(st, st') && Moves(st, st', who, d)
  {
  }

  lemma OpenBirths(st: State, t: Tid, rid: nat)
    requires Inv(st) && t in st.trans
    ensures Births(st, OpenStream(st, t, rid)) && Moves(st, OpenStream(st, t, rid), 0, NOTHING)
  {
    hide Moves;
    OpenGrows(st, t, rid);
    NewStreamFlows(st, OpenStream(st, t, rid));
  }

  lemma AcceptBirths(st: State)
    requires Inv(st)
    ensures Births(st, AcceptStream(st)) && Moves(st, AcceptStream(st), 0, NOTHING)
  {
    hide Moves;
    NewStreamFlows(st, AcceptStream(st));
  }

  lemma OldStepFlows(st: State, step: Step)
    requires Inv(st) && Enabled(st, step) && !step.Accept? && !step.RecvOpen?
    ensures Flow(st, Do(st, step), Brought(st, step).0, Brought(st, step).1)
  {
    hide Flow, StreamsOk, RunDisconnects, Close, Reads, OnEvent, OnConnect, PeersOk, HomesOk, NamesOk, SmartsOk;
    match step
    case Register(t, writable) =>
      NoFlow(st, 0);
      FlowIgnoresLinks(st, st, Add(st, t, writable), 0, NOTHING);
    case RecvOkay(_, _, _) => StreamStepFlows(st, step);
    case RecvClose(_, _) => StreamStepFlows(st, step);
    case RecvWrite(_, _, _, _, _, _) => StreamStepFlows(st, step);
    case RecvOffline(t) => OfflineFlows(st, GoOffline(st, t), t);
    case RecvConnect(t, conn) => ConnectFlows(st, t, conn);
    case SocketEvent(_, _, _, _, _, _, _, _, _) => EventFlows(st, step);
    case CloseAll(t) => CloseEachFlows(st, Touching(st, st.live, t), 0);
    case Unregister(t) => OfflineFlows(st, Remove(st, t), t);
  }

  lemma StepMoves(st: State, step: Step)
    requires Inv(st) && Enabled(st, step)
    ensures Births(st, Do(st, step)) && Moves(st, Do(st, step), Brought(st, step).0, Brought(st, step).1)
  {
    hide Flow, Moves, Births, GraphOk, StreamsOk, Reads, OpenStream, AcceptStream;
    if step.Accept? {
      AcceptBirths(st);
    } else if step.RecvOpen? {
      if st.trans[step.t].online && step.serviceFound {
        OpenBirths(st, step.t, step.rid);
      } else {
        NoFlow(st, 0);
        FlowIgnoresLinks(st, st, Do(st, step), 0, NOTHING);
        FlowHasNoBirths(st, Do(st, step), 0, NOTHING);
      }
    } else {
      OldStepFlows(st, step);
      FlowHasNoBirths(st, Do(st, step), Brought(st, step).0, Brought(st, step).1);
    }
  }

  /** Everything the steps of a schedule brought stream a. */
  ghost function History(steps: seq<Step>, a: Addr): Delta {
    if steps == [] then NOTHING
    else Plus(History(steps[..|steps| - 1], a), Gain(After(steps[..|steps| - 1]), steps[|steps| - 1], a))
  }

  ghost function Gain(st: State, step: Step, a: Addr): Delta {
    if Inv(st) && Enabled(st, step) && Brought(st, step).0 == a then Brought(st, step).1 else NOTHING
  }

  lemma GainersAreKnown(st: State, step: Step)
    requires Inv(st) && Enabled(st, step)
    ensures Brought(st, step).1 == NOTHING || Brought(st, step).0 in st.logs
  {
  }

  lemma OnlyKnownStreamsGain(st: State, step: Step, a: Addr)
    requires a !in st.logs
    ensures Gain(st, step, a) == NOTHING
  {
    hide Brought;
    if Inv(st) && Enabled(st, step) { GainersAreKnown(st, step); }
  }

  lemma {:induction false} NoHistoryBeforeBirth(steps: seq<Step>, a: Addr)
    requires a !in After(steps).logs
    ensures History(steps, a) == NOTHING
  {
    hide Gain, After, Extends;
    if steps != [] {
      var most := steps[..|steps| - 1];
      RunGrows(most, [steps[|steps| - 1]]);
      assert most + [steps[|steps| - 1]] == steps;
      NoHistoryBeforeBirth(most, a);
      OnlyKnownStreamsGain(After(most), steps[|steps| - 1], a);
      PlusNothing(NOTHING);
    }
  }

  lemma ApplyMoves(st: State, step: Step, a: Addr)
    requires Inv(st) && a in Apply(st, step).logs && Apply(st, step).logs[a].byRemote
    ensures a in st.logs && st.logs[a].byRemote ==> FlowAt(st, Apply(st, step), a, Gain(st, step, a))
    ensures a !in st.logs ==> Newborn(Apply(st, step), a)
    ensures a in st.logs ==> st.logs[a].byRemote
  {
    hide Do, Brought, FlowAt, Newborn, Enabled, GraphOk, StreamsOk;
    if Enabled(st, step) {
      StepMoves(st, step);
      ApplyGrows(st, step);
      if a in st.logs { assert Extends(st.logs[a], Apply(st, step).logs[a]); }
    } else if a in st.logs {
      Silent(st, st, a);
    }
  }

  ghost predicate Tells(l: StreamLog, h: Delta) {
    Payloads(l.sent) == h.read && l.accepted == h.received && l.okaysIn == h.okays && l.writesIn == h.writes
  }

  lemma TellsMore(l: StreamLog, l': StreamLog, h: Delta, d: Delta)
    requires Tells(l, h) && Adds(l, l', d)
    ensures Tells(l', Plus(h, d))
  {
  }

  /** For a stream that a remote OPEN made, the log is the history: the WRTE payloads sent are the bytes
      its descriptor delivered, in order; the bytes it accepted are the payloads of the WRTEs that
      arrived for it; and the counts are of the OKAYs and WRTEs that arrived for it. */
  lemma {:induction false} LogIsHistory(steps: seq<Step>, a: Addr)
    requires a in After(steps).logs && After(steps).logs[a].byRemote
    ensures Tells(After(steps).logs[a], History(steps, a))
  {
    hide Gain, Apply, Inv, FlowAt, Newborn, Tells, Plus, Adds;
    if steps != [] {
      var most, step := steps[..|steps| - 1], steps[|steps| - 1];
      var st := After(most);
      RunKeepsInv(most);
      ApplyMoves(st, step, a);
      if a in st.logs {
        LogIsHistory(most, a);
        FlowAdds(st, After(steps), a, Gain(st, step, a));
        TellsMore(st.logs[a], After(steps).logs[a], History(most, a), Gain(st, step, a));
      } else {
        NoHistoryBeforeBirth(most, a);
        OnlyKnownStreamsGain(st, step, a);
        NewbornIsEmpty(After(steps), a);
        PlusNothing(NOTHING);
      }
    }
  }

  lemma FlowAdds(st: State, st': State, a: Addr, d: Delta)
    requires FlowAt(st, st', a, d)
    ensures a in st.logs && a in st'.logs && Adds(st.logs[a], st'.logs[a], d)
  {
  }

  lemma NewbornIsEmpty(st: State, a: Addr)
    requires Newborn(st, a)
    ensures Tells(st.logs[a], NOTHING)
  {
    PayloadsAppend([], st.logs[a].sent[0]);
    assert [] + st.logs[a].sent == st.logs[a].sent;
  }

  // ---------- addresses ----------

  /** OKAY and WRTE carry the stream's own id, CLSE carries 0, and WRTE and CLSE go to the id and transport
      whose OPEN the first OKAY answered. */
  ghost predicate ToOpener(l: StreamLog, m: Msg) {
    && l.sent != []
    && m.command != OPEN
    && m.arg0 == (if m.command == CLSE then 0 else l.serial % ID_SPACE)
    && (m.command != OKAY ==> m.arg1 == l.sent[0].arg1 && m.via == l.sent[0].via)
  }

  ghost predicate Addressed(st: State, a: Addr) {
    && a in st.logs && st.logs[a].sent != []
    && (forall i :: 0 <= i < |st.logs[a].sent| ==> ToOpener(st.logs[a], st.logs[a].sent[i]))
    && (HasRemotePeer(st, a) ==>
          Far(st, a).id == st.logs[a].sent[0].arg1 && Far(st, a).transport == st.logs[a].sent[0].via)
  }

  lemma FlowKeepsAddresses(st: State, st': State, a: Addr, d: Delta)
    requires Inv(st) && Addressed(st, a) && FlowAt(st, st', a, d)
    ensures Addressed(st', a)
  {
    hide Payloads, GraphOk, LogOk;
    var l, l' := st.logs[a], st'.logs[a];
    assert l'.sent[0] == l.sent[0];
    if HasRemotePeer(st, a) { OwnId(st, a); }
    forall i | 0 <= i < |l'.sent| ensures ToOpener(l', l'.sent[i]) {
      if i < |l.sent| {
        assert l'.sent[i] == l.sent[i];
        assert ToOpener(l, l.sent[i]);
      } else {
        assert From(st, a, l'.sent[i]);
      }
    }
  }

  lemma OwnId(st: State, a: Addr)
    requires Inv(st) && HasRemotePeer(st, a)
    ensures a in st.logs && st.socks[a].l.id == st.logs[a].serial % ID_SPACE
  {
    InvSplits(st, a);
  }

  /** Every packet of a stream that a remote OPEN made is addressed as above. */
  lemma {:induction false} PacketsAreAddressed(steps: seq<Step>, a: Addr)
    requires a in After(steps).logs && After(steps).logs[a].byRemote
    ensures Addressed(After(steps), a)
  {
    hide Gain, Apply, Inv, FlowAt, Newborn, Addressed;
    if steps != [] {
      var most, step := steps[..|steps| - 1], steps[|steps| - 1];
      var st := After(most);
      RunKeepsInv(most);
      ApplyMoves(st, step, a);
      if a in st.logs {
        PacketsAreAddressed(most, a);
        FlowKeepsAddresses(st, After(steps), a, Gain(st, step, a));
      } else {
        NewbornIsAddressed(After(steps), a);
      }
    }
  }

  lemma NewbornIsAddressed(st: State, a: Addr)
    requires Newborn(st, a)
    ensures Addressed(st, a)
  {
  }

  /** Both directions of a stream that a remote OPEN made, from the schedule alone: what was sent is what
      was read; what the descriptor took, followed by what is queued, is what arrived; and neither side
      is ever more than one packet ahead of the acknowledgements. */
  lemma NothingIsLostEitherWay(steps: seq<Step>, a: Addr)
    requires a in After(steps).logs && After(steps).logs[a].byRemote
    ensures var st, h := After(steps), History(steps, a); var l := st.logs[a];
      && Payloads(l.sent) == h.read
      && (!IsLocal(st, a) && !l.failed ==> l.written == h.received)
      && (IsLocal(st, a) ==>
            var s := st.socks[a].l;
            && l.written + Concat(s.queue) == h.received
            && Count(l.sent, OKAY) + Bit(s.wantWrite) <= h.writes + 1
            && Count(l.sent, WRTE) + Bit(s.wantRead) <= h.okays + 1)
  {
    hide After, History, Count, Payloads;
    LogIsHistory(steps, a);
    NoByteIsLost(steps, a);
    if IsLocal(After(steps), a) { Credit(steps, a); }
  }
}
