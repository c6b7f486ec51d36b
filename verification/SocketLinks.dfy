/** Which transports are there and which of them may ever come online, told from the schedule alone. */
module SocketLinks {
  import opened Bytes
  import opened Rings
  import opened SocketModel
  import opened SocketInvariant
  import opened SocketSteps
  import opened SocketRuns
  import opened SocketTheorems
  import SmartSocket

  /** The same transports, with the same permission. */
  ghost predicate SamePermission(st: State, st': State) {
    && st'.trans.Keys == st.trans.Keys
    && forall t :: t in st.trans ==> (st'.trans[t].conn == NoPerm <==> st.trans[t].conn == NoPerm)
  }

  lemma SameLinksPermit(st: State, st': State)
    requires SameLinks(st, st')
    ensures SamePermission(st, st')
  {
  }

  lemma CloseKeepsLinks(st: State, a: Addr, announce: bool)
    requires GraphOk(st) && IsLocal(st, a) && PeerUsable(st, a)
    ensures SameLinks(st, Close(st, a, announce))
  {
    hide Close;
    CloseShape(st, a, announce);
  }

  lemma UpdateCloseKeepsLinks(st: State, a: Addr, s: LocalSock, l: StreamLog)
    requires Inv(st) && IsLocal(st, a) && a in st.logs && s.peer == st.socks[a].l.peer && PeerUsable(st, a)
    requires SameOrigin(l, st.logs[a]) && (HasSmartPeer(st, a) ==> s.queue == [])
    ensures SameLinks(st, UpdateClose(st, a, s, l))
  {
    hide Close;
    InvSplits(st, a);
    UpdateKeepsRest(st, a, s, l);
    CloseKeepsLinks(Update(st, a, s, l), a, true);
  }

  lemma {:induction false} CloseEachKeepsLinks(st: State, victims: seq<Addr>)
    requires Inv(st) && AllLive(st, victims)
    ensures SameLinks(st, CloseEach(st, victims))
    decreases |victims|
  {
    if victims != [] {
      AllLiveTail(st, victims);
      CloseKeepsLinks(st, victims[0], true);
      CloseEachKeepsLinks(Close(st, victims[0], true), victims[1..]);
    }
  }

  lemma WritableKeepsLinks(st: State, a: Addr, wrote: nat, broke: bool)
    requires Inv(st) && IsLocal(st, a) && PeerUsable(st, a) && wrote <= |Concat(st.socks[a].l.queue)|
    requires st.socks[a].l.wantWrite
    ensures SameLinks(st, OnWritable(st, a, wrote, broke).0)
  {
    hide Close;
    InvSplits(st, a);
    AfterWritingFacts(st.socks[a].l.queue, wrote);
    var s := st.socks[a].l;
    var s1 := s.(queue := AfterWriting(s.queue, wrote));
    var l1 := st.logs[a].(written := st.logs[a].written + Concat(s.queue)[..wrote]);
    UpdateCloseKeepsLinks(st, a, s1, l1);
    UpdateCloseKeepsLinks(st, a, s1, l1.(failed := true));
  }

  lemma ReadableKeepsLinks(st: State, a: Addr, data: Bytes, eof: bool, forced: bool, found: Acquired)
    requires Inv(st) && Talks(st, a)
    ensures SameLinks(st, OnReadable(st, a, data, eof, forced, found))
  {
    hide GraphOk, StreamsOk, Close;
    InvSplits(st, a);
    var (st1, r) := if data == [] then (st, 1) else PassOn(st, a, data, found);
    if data != [] { PassOnKeepsLinks(st, a, data, found); }
    if r >= 0 && (eof || (forced && r == 0)) {
      InvSplits(st1, a);
      CloseKeepsLinks(st1, a, true);
    }
  }

  lemma PassOnKeepsLinks(st: State, a: Addr, data: Bytes, found: Acquired)
    requires Inv(st) && Talks(st, a)
    ensures SameLinks(st, PassOn(st, a, data, found).0)
  {
    hide RingsOk, HomesOk, TransportsOk, NamesOk, SmartsOk, LiveOk, LogOk, Close;
    InvSplits(st, a);
    assert Paired(st, a);
    CloseKeepsLinks(st, a, true);
  }

  lemma EventKeepsLinks(st: State, step: Step)
    requires Inv(st) && step.SocketEvent? && Enabled(st, step)
    ensures SameLinks(st, Do(st, step))
  {
    hide GraphOk, StreamsOk, OnWritable, OnReadable;
    var a := step.a;
    InvSplits(st, a);
    if !step.write {
      if step.read { ReadableKeepsLinks(st, a, step.data, step.eof, step.forced, step.found); }
    } else {
      WritableKeepsLinks(st, a, step.wrote, step.broke);
      if step.read && OnWritable(st, a, step.wrote, step.broke).1 {
        EventReady(st, a, step.wrote, step.broke);
        var st1 := OnWritable(st, a, step.wrote, step.broke).0;
        ReadableKeepsLinks(st1, a, step.data, step.eof, step.forced, step.found);
      }
    }
  }

  lemma EnqueueKeepsLinks(st: State, a: Addr, t: Tid, rid: nat, payload: Bytes, wrote: nat, broke: bool)
    requires Inv(st) && a in st.live && wrote <= |payload| && HasRemotePeer(st, a) && PeerUsable(st, a)
    ensures SameLinks(st, Enqueue(st, a, t, rid, payload, wrote, broke))
  {
    hide Close;
    InvSplits(st, a);
    var s, l := st.socks[a].l, st.logs[a];
    var l1 := l.(writesIn := l.writesIn + 1, accepted := l.accepted + payload, written := l.written + payload[..wrote],
                 failed := true);
    UpdateCloseKeepsLinks(st, a, s, l1);
  }

  lemma StreamStepKeepsLinks(st: State, step: Step)
    requires Inv(st) && Enabled(st, step) && (step.RecvOkay? || step.RecvClose? || step.RecvWrite?)
    ensures SameLinks(st, Do(st, step))
  {
    hide Close, Enqueue, RingsOk, PeersOk, HomesOk, TransportsOk, NamesOk, SmartsOk;
    var found := Target(st, step.lid);
    if st.trans[step.t].online && found.Some? {
      InvSplits(st, found.value);
      match step
      case RecvOkay(t, rid, _) =>
      case RecvClose(_, _) => CloseKeepsLinks(st, found.value, true);
      case RecvWrite(t, rid, _, payload, wrote, broke) =>
        EnqueueKeepsLinks(st, found.value, t, rid, payload, wrote, broke);
    }
  }

  lemma OfflineKeepsPermission(st: State, t: Tid)
    requires Inv(st) && t in st.trans && st.trans[t].conn != NoPerm
    ensures SamePermission(st, GoOffline(st, t))
  {
    hide RunDisconnects;
  }

  lemma ConnectKeepsPermission(st: State, t: Tid, conn: ConnState)
    requires Inv(st) && t in st.trans && st.trans[t].conn != NoPerm && conn != NoPerm
    ensures SamePermission(st, OnConnect(st, t, conn))
  {
    hide GoOffline;
    if st.trans[t].conn != Offline { OfflineKeepsPermission(st, t); }
  }

  /** Only registration and removal change which transports there are and which have permission. */
  lemma StepKeepsPermission(st: State, step: Step)
    requires Inv(st) && Enabled(st, step) && !step.Register? && !step.Unregister?
    ensures SamePermission(st, Do(st, step))
  {
    hide GraphOk, StreamsOk, Close, GoOffline, OnEvent, OnConnect, OnOkay, OnClose, OnWrite, CloseEach;
    match step
    case Accept =>
    case RecvOpen(t, rid, _) =>
    case RecvOkay(_, _, _) => StreamStepKeepsLinks(st, step);
    case RecvClose(_, _) => StreamStepKeepsLinks(st, step);
    case RecvWrite(_, _, _, _, _, _) => StreamStepKeepsLinks(st, step);
    case RecvOffline(t) => OfflineKeepsPermission(st, t);
    case RecvConnect(t, conn) => ConnectKeepsPermission(st, t, conn);
    case SocketEvent(_, _, _, _, _, _, _, _, _) => EventKeepsLinks(st, step);
    case CloseAll(t) => TouchingAreLive(st, t); CloseEachKeepsLinks(st, Touching(st, st.live, t));
  }

  lemma TouchingAreLive(st: State, t: Tid)
    requires Inv(st)
    ensures AllLive(st, Touching(st, st.live, t))
  {
  }

  /** Whether the schedule has registered t, and with what permission, since it last removed it. */
  ghost function Registered(steps: seq<Step>, t: Tid): Option<bool> {
    if steps == [] then None
    else
      var before := Registered(steps[..|steps| - 1], t);
      match steps[|steps| - 1]
      case Register(u, writable) => if u == t && before.None? then Some(writable) else before
      case Unregister(u) => if u == t then None else before
      case _ => before
  }

  /** The transports are those registered, and the ones without permission are those registered so. */
  lemma {:induction false} TransportsAreRegistered(steps: seq<Step>, t: Tid)
    ensures t in After(steps).trans <==> Registered(steps, t).Some?
    ensures t in After(steps).trans ==> (After(steps).trans[t].conn == NoPerm <==> Registered(steps, t) == Some(false))
  {
    hide Inv, Close, GoOffline, OnEvent, OnConnect, OnOkay, OnClose, OnWrite, CloseEach, RunDisconnects;
    if steps != [] {
      var most, step := steps[..|steps| - 1], steps[|steps| - 1];
      TransportsAreRegistered(most, t);
      RunKeepsInv(most);
      if Enabled(After(most), step) && !step.Register? && !step.Unregister? { StepKeepsPermission(After(most), step); }
    }
  }

  lemma TrueOrFalse(r: Option<bool>)
    ensures r == None || r == Some(true) || r == Some(false)
  {
    if r.Some? && r.value { assert r == Some(true); } else if r.Some? { assert r == Some(false); }
  }

  /** "Online exactly when the connection state is not CS_OFFLINE" is true of a transport exactly when it
      was registered with permission. */
  lemma OnlineAsPermitted(steps: seq<Step>, t: Tid)
    requires t in After(steps).trans
    ensures var tr := After(steps).trans[t];
      (tr.online <==> tr.conn != Offline) <==> Registered(steps, t) == Some(true)
  {
    hide After, Registered;
    TransportsAreRegistered(steps, t);
    RemoteIsOnline(steps, t);
    TrueOrFalse(Registered(steps, t));
  }

  lemma {:induction false} AllRegisteredWritable(steps: seq<Step>, t: Tid)
    requires forall i :: 0 <= i < |steps| && steps[i].Register? ==> steps[i].writable
    ensures Registered(steps, t) != Some(false)
  {
    if steps != [] { AllRegisteredWritable(steps[..|steps| - 1], t); }
  }

  /** So it is true of every transport after every schedule that registers with permission only, as both
      callers of the registration in the source do. */
  lemma OnlineUnlessOffline(steps: seq<Step>, t: Tid)
    requires forall i :: 0 <= i < |steps| && steps[i].Register? ==> steps[i].writable
    requires t in After(steps).trans
    ensures After(steps).trans[t].online <==> After(steps).trans[t].conn != Offline
  {
    hide After, Registered;
    AllRegisteredWritable(steps, t);
    TransportsAreRegistered(steps, t);
    OnlineAsPermitted(steps, t);
    TrueOrFalse(Registered(steps, t));
  }

  /** And it fails right after one registration without. */
  lemma NoPermissionNeverOnline(t: Tid)
    ensures var st := After([Register(t, false)]); t in st.trans && !st.trans[t].online && st.trans[t].conn != Offline
  {
    hide Inv;
    RunKeepsInv([]);
    var steps := [Register(t, false)];
    assert steps[..0] == [];
    assert After(steps) == Add(INIT, t, false);
  }
}
