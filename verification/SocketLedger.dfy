/** Exact accounts of a stream: every OKAY and WRTE a remotely opened stream owes is sent, no more and no
    fewer, told from the schedule. */
module SocketLedger {
  import opened Bytes
  import opened Rings
  import opened SocketModel
  import opened SocketInvariant
  import opened SocketSteps
  import opened SocketRuns
  import opened SocketTheorems
  import opened SocketEffects
  import SocketTraffic
  import SmartSocket

  // ---------- bystanders ----------

  /** The local socket a step acts upon, if it acts upon one. */
  ghost function Subject(st: State, step: Step): Option<Addr> {
    match step
    case SocketEvent(a, _, _, _, _, _, _, _, _) => Some(a)
    case RecvOkay(t, _, lid) => if t in st.trans && st.trans[t].online then Target(st, lid) else None
    case RecvClose(t, lid) => if t in st.trans && st.trans[t].online then Target(st, lid) else None
    case RecvWrite(t, _, lid, _, _, _) => if t in st.trans && st.trans[t].online then Target(st, lid) else None
    case _ => None
  }

  /** Socket b is as live as it was, with the same peer and log. */
  ghost predicate Kept(st: State, st': State, b: Addr) {
    Untouched(st, st', b) && (b in st'.live <==> b in st.live)
  }

  lemma ElsewhereKeeps(st: State, st': State, a: Addr, b: Addr)
    requires Inv(st) && IsLocal(st, a) && Elsewhere(st, st', a, st.socks[a].l.peer) && b in st.live && b != a
    ensures Kept(st, st', b)
  {
    hide StreamOk;
    assert Paired(st, a);
    assert Paired(st, b);
  }

  lemma NarrowerElsewhere(st: State, st': State, a: Addr)
    requires IsLocal(st, a) && Elsewhere(st, st', a, None)
    ensures Elsewhere(st, st', a, st.socks[a].l.peer)
  {
  }

  lemma BecomesKeeps(st: State, st': State, a: Addr, s: LocalSock, l: StreamLog, b: Addr)
    requires Inv(st) && IsLocal(st, a) && Becomes(st, st', a, s, l) && b in st.live && b != a
    ensures Kept(st, st', b)
  {
    hide Inv, Elsewhere, Kept;
    NarrowerElsewhere(st, st', a);
    ElsewhereKeeps(st, st', a, b);
  }

  lemma DownKeeps(st: State, st': State, a: Addr, s: LocalSock, l: StreamLog, b: Addr)
    requires Inv(st) && IsLocal(st, a) && s.peer == st.socks[a].l.peer && Down(st, st', a, s, l)
    requires b in st.live && b != a
    ensures Kept(st, st', b)
  {
    hide Inv, Elsewhere, Kept;
    ElsewhereKeeps(st, st', a, b);
  }

  lemma CollectedKeeps(st: State, st': State, a: Addr, bytes: Bytes, b: Addr)
    requires Inv(st) && HasSmartPeer(st, a) && Collected(st, st', st.socks[a].l.peer.value, bytes)
    requires b in st.live && b != a
    ensures Kept(st, st', b)
  {
    hide StreamOk;
    assert StreamOk(st, b);
    assert Paired(st, a);
    assert Paired(st, b);
  }

  lemma SameKeeps(st: State, b: Addr)
    requires Inv(st) && b in st.live
    ensures Kept(st, st, b)
  {
    assert Paired(st, b);
  }

  lemma SameStoreKeeps(st: State, st': State, b: Addr)
    requires Inv(st) && b in st.live && st'.socks == st.socks && st'.live == st.live && st'.logs == st.logs
    ensures Kept(st, st', b)
  {
    assert Paired(st, b);
  }

  /** Socket a keeps its peer or goes down. */
  ghost predicate Acts(st: State, st': State, a: Addr, s: LocalSock, l: StreamLog)
    requires IsLocal(st, a)
  {
    s.peer == st.socks[a].l.peer && (Becomes(st, st', a, s, l) || Down(st, st', a, s, l))
  }

  lemma WriteActs(steps: seq<Step>, step: Step)
    requires Enabled(After(steps), step) && step.SocketEvent? && step.write && !step.read
    ensures exists s, l :: Acts(After(steps), After(steps + [step]), step.a, s, l)
  {
    hide After, Inv, Becomes, Down;
    WriteEvent(steps, step);
    var st, st', a := After(steps), After(steps + [step]), step.a;
    var s, l, bytes := st.socks[a].l, st.logs[a], Concat(st.socks[a].l.queue);
    var l1 := l.(written := l.written + bytes[..step.wrote]);
    if step.wrote < |bytes| {
      var q :| q != [] && Concat(q) == bytes[step.wrote..] && |q| <= |s.queue|
        && (!step.broke ==> Becomes(st, st', a, s.(queue := q), l1))
        && (step.broke ==> Down(st, st', a, s.(queue := q), l1.(failed := true)));
      assert Acts(st, st', a, s.(queue := q), if step.broke then l1.(failed := true) else l1);
    } else if s.closing {
      assert Acts(st, st', a, s.(queue := []), l1);
    } else {
      assert Acts(st, st', a, s.(queue := [], wantWrite := false), l1.(sent := l.sent + Ready(st, a)));
    }
  }

  lemma ReadActs(steps: seq<Step>, step: Step)
    requires Enabled(After(steps), step) && step.SocketEvent? && !step.write && step.read
    requires HasRemotePeer(After(steps), step.a)
    ensures exists s, l :: Acts(After(steps), After(steps + [step]), step.a, s, l)
  {
    hide After, Inv, Becomes, Down;
    ReadEvent(steps, step);
    var st, st', a := After(steps), After(steps + [step]), step.a;
    var s, l, r := st.socks[a].l, st.logs[a], st.socks[st.socks[a].l.peer.value].r;
    var s1 := if step.data == [] then s else s.(wantRead := false);
    var l1 := if step.data == [] then l else l.(sent := l.sent + [Msg(WRTE, s.id, r.id, step.data, r.transport)]);
    assert Acts(st, st', a, s1, l1);
  }

  /** A socket event on another socket. */
  lemma EventKeeps(steps: seq<Step>, step: Step, b: Addr)
    requires Enabled(After(steps), step) && step.SocketEvent? && !(step.write && step.read)
    requires b in After(steps).live && b != step.a
    ensures Kept(After(steps), After(steps + [step]), b)
  {
    hide After, Inv, Kept, Elsewhere, Becomes, Down, Handed, HandedAndGone, Collected;
    var st, st', a := After(steps), After(steps + [step]), step.a;
    Taken(steps, step);
    if step.write {
      WriteActs(steps, step);
      ActKeeps(st, st', step, b);
    } else if step.read && HasSmartPeer(st, a) {
      SmartReadEvent(steps, step);
      SmartReadKeeps(st, st', step, b);
    } else if step.read {
      HasEitherPeer(st, a);
      ReadActs(steps, step);
      ActKeeps(st, st', step, b);
    } else {
      SameKeeps(st, b);
    }
  }

  lemma HasEitherPeer(st: State, a: Addr)
    requires Inv(st) && IsLocal(st, a) && st.socks[a].l.wantRead && !HasSmartPeer(st, a)
    ensures HasRemotePeer(st, a)
  {
    InvSplits(st, a);
    assert Paired(st, a);
  }

  lemma ActKeeps(st: State, st': State, step: Step, b: Addr)
    requires Inv(st) && step.SocketEvent? && b in st.live && b != step.a
    requires IsLocal(st, step.a)
    requires exists s, l :: Acts(st, st', step.a, s, l)
    ensures Kept(st, st', b)
  {
    hide Inv, Becomes, Down, Kept;
    var s, l :| Acts(st, st', step.a, s, l);
    if Becomes(st, st', step.a, s, l) {
      BecomesKeeps(st, st', step.a, s, l, b);
    } else {
      DownKeeps(st, st', step.a, s, l, b);
    }
  }

  lemma SmartReadKeeps(st: State, st': State, step: Step, b: Addr)
    requires Inv(st) && step.SocketEvent? && b in st.live && b != step.a
    requires HasSmartPeer(st, step.a) && step.a in st.logs
    requires var a := step.a; var p, s := st.socks[a].l.peer.value, st.socks[a].l;
      || st' == st
      || Down(st, st', a, s, st.logs[a])
      || Collected(st, st', p, st.socks[p].pending + step.data)
      || (exists t, d :: Handed(st, st', a, p, t, d) || HandedAndGone(st, st', a, p, t, d))
    ensures Kept(st, st', b)
  {
    hide Inv, Kept, Down, Collected;
    var a := step.a;
    var p, s := st.socks[a].l.peer.value, st.socks[a].l;
    if st' == st {
      SameKeeps(st, b);
    } else if Down(st, st', a, s, st.logs[a]) {
      DownKeeps(st, st', a, s, st.logs[a], b);
    } else if Collected(st, st', p, st.socks[p].pending + step.data) {
      CollectedKeeps(st, st', a, st.socks[p].pending + step.data, b);
    } else {
      ElsewhereKeeps(st, st', a, b);
    }
  }

  lemma TargetIsNamed(st: State, id: nat)
    requires Inv(st) && Target(st, id).Some?
    ensures Named(st, Target(st, id).value, id)
  {
    FirstNamed(st, st.live, id);
  }

  lemma {:induction false} FirstNamed(st: State, ring: seq<Addr>, id: nat)
    requires FindFrom(st, ring, id).Some?
    ensures exists i :: 0 <= i < |ring| && ring[i] == FindFrom(st, ring, id).value && FirstAt(st, ring, i, id)
  {
    if IsLocal(st, ring[0]) && st.socks[ring[0]].l.id == id {
      assert FirstAt(st, ring, 0, id);
    } else {
      FirstNamed(st, ring[1..], id);
      var i :|
        0 <= i < |ring[1..]| && ring[1..][i] == FindFrom(st, ring[1..], id).value && FirstAt(st, ring[1..], i, id);
      assert ring[i + 1] == ring[1..][i];
      forall j | 0 <= j < i + 1 && IsLocal(st, ring[j]) ensures st.socks[ring[j]].l.id != id {
        if j > 0 { assert ring[1..][j - 1] == ring[j]; }
      }
      assert FirstAt(st, ring, i + 1, id);
    }
  }

  ghost predicate FirstAt(st: State, ring: seq<Addr>, i: nat, id: nat)
    requires i < |ring|
  {
    && IsLocal(st, ring[i]) && st.socks[ring[i]].l.id == id
    && forall j :: 0 <= j < i && IsLocal(st, ring[j]) ==> st.socks[ring[j]].l.id != id
  }

  lemma LiveAreLocal(st: State)
    requires Inv(st)
    ensures forall a :: a in st.live ==> IsLocal(st, a)
  {
  }

  lemma CloseKeeps(steps: seq<Step>, t: Tid, lid: nat, a: Addr, b: Addr)
    requires var st := After(steps); Running(st, t) && st.trans[t].online && Named(st, a, lid)
    requires b in After(steps).live && b != a
    ensures Kept(After(steps), After(steps + [RecvClose(t, lid)]), b)
  {
    hide After, Inv, Kept, Down, Named;
    var st := After(steps);
    RunKeepsInv(steps);
    CloseCloses(steps, t, lid, a);
    DownKeeps(st, After(steps + [RecvClose(t, lid)]), a, st.socks[a].l, st.logs[a], b);
  }

  lemma WriteKeeps(steps: seq<Step>, step: Step, a: Addr, b: Addr)
    requires Enabled(After(steps), step) && step.RecvWrite?
    requires After(steps).trans[step.t].online && Named(After(steps), a, step.lid)
    requires b in After(steps).live && b != a
    ensures Kept(After(steps), After(steps + [step]), b)
  {
    hide After, Inv, Kept, Becomes, Down, Named;
    RunKeepsInv(steps);
    WriteIsTaken(steps, step.t, step.rid, step.lid, step.payload, step.wrote, step.broke, a);
    var st, st' := After(steps), After(steps + [step]);
    var s, l, w := st.socks[a].l, st.logs[a], Took(st.logs[a], step.payload, step.wrote);
    if s.queue != [] {
      BecomesKeeps(st, st', a, s.(queue := s.queue + [step.payload], wantWrite := true), Took(l, step.payload, 0), b);
    } else if step.wrote == |step.payload| {
      BecomesKeeps(st, st', a, s, w.(sent := l.sent + [Msg(OKAY, s.id, step.rid, [], step.t)]), b);
    } else if !step.broke {
      BecomesKeeps(st, st', a, s.(queue := [step.payload[step.wrote..]], wantWrite := true), w, b);
    } else {
      DownKeeps(st, st', a, s, w.(failed := true), b);
    }
  }

  lemma OkayKeeps(steps: seq<Step>, t: Tid, rid: nat, lid: nat, a: Addr, b: Addr)
    requires var st := After(steps); Running(st, t) && st.trans[t].online && Named(st, a, lid)
    requires b in After(steps).live && b != a
    ensures Kept(After(steps), After(steps + [RecvOkay(t, rid, lid)]), b)
  {
    hide After, Inv, Kept, Becomes, Named;
    var st, st' := After(steps), After(steps + [RecvOkay(t, rid, lid)]);
    RunKeepsInv(steps);
    NamedIsLive(st, a, lid);
    if st.socks[a].l.peer.Some? {
      OkayResumes(steps, t, rid, lid, a);
      BecomesKeeps(st, st', a, st.socks[a].l.(wantRead := true, notify := false),
                   st.logs[a].(okaysIn := st.logs[a].okaysIn + 1), b);
    } else {
      OkayConnects(steps, t, rid, lid, a);
      ConnectKeeps(st, st', a, st'.socks[a], st'.socks[st.nextAddr], b);
    }
  }

  lemma NamedIsLive(st: State, a: Addr, id: nat)
    requires Named(st, a, id)
    ensures a in st.live && IsLocal(st, a)
  {
  }

  /** A packet for another socket. */
  lemma PacketKeeps(steps: seq<Step>, step: Step, b: Addr)
    requires Enabled(After(steps), step) && (step.RecvOkay? || step.RecvClose? || step.RecvWrite?)
    requires b in After(steps).live && Subject(After(steps), step) != Some(b)
    ensures Kept(After(steps), After(steps + [step]), b)
  {
    hide After, Inv, Kept, Named, Do;
    var st := After(steps);
    RunKeepsInv(steps);
    if !st.trans[step.t].online || Target(st, step.lid).None? {
      SameKeeps(st, b);
      LiveAreLocal(st);
      StrayIsIgnored(steps, step);
    } else {
      var a := Target(st, step.lid).value;
      TargetIsNamed(st, step.lid);
      match step
      case RecvClose(t, lid) => CloseKeeps(steps, t, lid, a, b);
      case RecvWrite(_, _, _, _, _, _) => WriteKeeps(steps, step, a, b);
      case RecvOkay(t, rid, lid) => OkayKeeps(steps, t, rid, lid, a, b);
    }
  }

  lemma ConnectKeeps(st: State, st': State, a: Addr, s: Sock, r: Sock, b: Addr)
    requires Inv(st) && IsLocal(st, a) && st.socks[a].l.peer.None? && b in st.live && b != a && a in st.logs
    requires st'.socks == st.socks[a := s][st.nextAddr := r]
    requires st'.live == st.live && st'.logs == st.logs[a := st.logs[a].(okaysIn := st.logs[a].okaysIn + 1)]
    ensures Kept(st, st', b)
  {
    hide StreamOk;
    assert Paired(st, b);
    assert StreamOk(st, b);
  }

  /** Old sockets when new ones join. */
  lemma JoinedKeeps(st: State, st': State, s: Sock, r: Sock, b: Addr)
    requires Inv(st) && b in st.live
    requires st'.socks == st.socks[st.nextAddr := s][st.nextAddr + 1 := r]
    requires st'.live == st.live + [st.nextAddr] && st.nextAddr in st'.logs
    requires st'.logs == st.logs[st.nextAddr := st'.logs[st.nextAddr]]
    ensures Kept(st, st', b)
    ensures forall a :: a in st'.live && a !in st.live ==> a == st.nextAddr
  {
    hide StreamOk;
    assert Paired(st, b);
    assert StreamOk(st, b);
  }

  lemma OpenKeeps(steps: seq<Step>, step: Step, b: Addr)
    requires Enabled(After(steps), step) && (step.RecvOpen? || step.Accept?) && b in After(steps).live
    ensures Kept(After(steps), After(steps + [step]), b)
    ensures forall a :: a in After(steps + [step]).live && a !in After(steps).live ==> a == After(steps).nextAddr
  {
    hide After, Inv, Kept, Do;
    var st, st' := After(steps), After(steps + [step]);
    RunKeepsInv(steps);
    SameKeeps(st, b);
    if step.Accept? {
      AcceptConnects(steps);
      JoinedKeeps(st, st', st'.socks[st.nextAddr], st'.socks[st.nextAddr + 1], b);
    } else if step.serviceFound && st.trans[step.t].online {
      OpenOpens(steps, step.t, step.rid);
      JoinedKeeps(st, st', st'.socks[st.nextAddr], st'.socks[st.nextAddr + 1], b);
    } else {
      OpenRefused(steps, step.t, step.rid, step.serviceFound);
      SameStoreKeeps(st, st', b);
    }
  }

  /** SYNC(0), CNXN and removal: what stays live is kept, and nothing becomes live. */
  lemma SilentKeeps(st: State, st': State, gone: seq<Addr>, b: Addr)
    requires Inv(st) && Silently(st, st', gone) && b in st.live && b in st'.live
    ensures Kept(st, st', b)
  {
    hide StreamOk;
    assert StreamOk(st, b);
  }

  lemma LinkKeeps(steps: seq<Step>, step: Step, b: Addr)
    requires Enabled(After(steps), step) && b in After(steps).live && b in After(steps + [step]).live
    requires step.RecvOffline? || step.RecvConnect? || step.CloseAll? || step.Register? || step.Unregister?
    ensures Kept(After(steps), After(steps + [step]), b)
  {
    hide After, Inv, Kept, Silently, GoOffline, OnConnect, CloseTouching, RunDisconnects;
    var st, st' := After(steps), After(steps + [step]);
    Taken(steps, step);
    match step
    case RecvOffline(t) =>
      OfflineDrops(steps, t);
      SilentKeeps(st, st', st.trans[t].ring, b);
    case RecvConnect(t, conn) =>
      ConnectDropsOld(steps, t, conn);
      SilentKeeps(st, st', st.trans[t].ring, b);
    case Unregister(t) =>
      RemovalDrops(steps, t);
      SilentKeeps(st, st', st.trans[t].ring, b);
    case CloseAll(t) =>
      CloseAllCloses(steps, t);
      UntouchedIsKept(st, st', b);
    case Register(t, writable) =>
      SameStoreKeeps(st, st', b);
  }

  lemma UntouchedIsKept(st: State, st': State, b: Addr)
    requires Untouched(st, st', b) && b in st.live && b in st'.live
    ensures Kept(st, st', b)
  {
  }

  /** Whoever a step does not act upon, and does not close, is as before. */
  lemma BystanderKept(steps: seq<Step>, step: Step, b: Addr)
    requires b in After(steps).live && b in After(steps + [step]).live && Subject(After(steps), step) != Some(b)
    ensures Kept(After(steps), After(steps + [step]), b)
  {
    hide After, Inv, Kept, Do;
    Taken(steps, step);
    if !Enabled(After(steps), step) {
      SameKeeps(After(steps), b);
    } else if step.SocketEvent? {
      EveryEventKeeps(steps, step, b);
    } else if step.RecvOkay? || step.RecvClose? || step.RecvWrite? {
      PacketKeeps(steps, step, b);
    } else if step.RecvOpen? || step.Accept? {
      OpenKeeps(steps, step, b);
    } else {
      LinkKeeps(steps, step, b);
    }
  }

  lemma EveryEventKeeps(steps: seq<Step>, step: Step, b: Addr)
    requires Enabled(After(steps), step) && step.SocketEvent? && b in After(steps).live && b != step.a
    ensures Kept(After(steps), After(steps + [step]), b)
  {
    hide After, Inv, Kept, Do;
    if step.write && step.read {
      var most := steps + [WriteHalf(step)];
      BothEvents(steps, step);
      EventKeeps(steps, WriteHalf(step), b);
      if Drains(After(steps), step) {
        KeptIsLive(After(steps), After(most), b);
        EventKeeps(most, ReadHalf(step), b);
        KeptTwice(After(steps), After(most), After(steps + [step]), b);
      }
    } else {
      EventKeeps(steps, step, b);
    }
  }

  lemma KeptIsLive(st: State, st1: State, b: Addr)
    requires Kept(st, st1, b) && b in st.live
    ensures b in st1.live
  {
  }

  lemma KeptTwice(st: State, st1: State, st2: State, b: Addr)
    requires Kept(st, st1, b) && Kept(st1, st2, b)
    ensures Kept(st, st2, b)
  {
  }

  // ---------- who is live ----------

  ghost predicate NoneJoins(st: State, st': State) { forall b :: b in st'.live ==> b in st.live }

  lemma BecomesAddsNone(st: State, st': State, a: Addr, s: LocalSock, l: StreamLog)
    requires Becomes(st, st', a, s, l)
    ensures NoneJoins(st, st')
  {
  }

  lemma DownAddsNone(st: State, st': State, a: Addr, s: LocalSock, l: StreamLog)
    requires Down(st, st', a, s, l)
    ensures NoneJoins(st, st')
  {
  }

  lemma ActAddsNone(st: State, st': State, a: Addr)
    requires IsLocal(st, a) && exists s, l :: Acts(st, st', a, s, l)
    ensures NoneJoins(st, st')
  {
    hide Becomes, Down, NoneJoins;
    var s, l :| Acts(st, st', a, s, l);
    if Becomes(st, st', a, s, l) { BecomesAddsNone(st, st', a, s, l); } else { DownAddsNone(st, st', a, s, l); }
  }

  lemma SmartReadAddsNone(steps: seq<Step>, step: Step)
    requires Enabled(After(steps), step) && step.SocketEvent? && !step.write && step.read
    requires HasSmartPeer(After(steps), step.a)
    ensures NoneJoins(After(steps), After(steps + [step]))
  {
    hide After, Inv, Down, SmartSocket.Fed;
    SmartReadEvent(steps, step);
    var st, st', a := After(steps), After(steps + [step]), step.a;
    if Down(st, st', a, st.socks[a].l, st.logs[a]) { DownAddsNone(st, st', a, st.socks[a].l, st.logs[a]); }
  }

  lemma HalfEventAddsNone(steps: seq<Step>, step: Step)
    requires Enabled(After(steps), step) && step.SocketEvent? && !(step.write && step.read)
    ensures NoneJoins(After(steps), After(steps + [step]))
  {
    hide After, Inv, Elsewhere, Acts, NoneJoins;
    var st, st', a := After(steps), After(steps + [step]), step.a;
    Taken(steps, step);
    if step.write {
      WriteActs(steps, step);
      ActAddsNone(st, st', a);
    } else if step.read && HasSmartPeer(st, a) {
      SmartReadAddsNone(steps, step);
    } else if step.read {
      HasEitherPeer(st, a);
      ReadActs(steps, step);
      ActAddsNone(st, st', a);
    } else {
      SameAddsNone(st);
    }
  }

  lemma SameAddsNone(st: State)
    ensures NoneJoins(st, st)
  {
  }

  lemma EventAddsNone(steps: seq<Step>, step: Step)
    requires Enabled(After(steps), step) && step.SocketEvent?
    ensures NoneJoins(After(steps), After(steps + [step]))
  {
    hide After, Inv, Do;
    if step.write && step.read {
      BothEvents(steps, step);
      HalfEventAddsNone(steps, WriteHalf(step));
      if Drains(After(steps), step) { HalfEventAddsNone(steps + [WriteHalf(step)], ReadHalf(step)); }
    } else {
      HalfEventAddsNone(steps, step);
    }
  }

  lemma PacketAddsNone(steps: seq<Step>, step: Step)
    requires Enabled(After(steps), step) && (step.RecvOkay? || step.RecvClose? || step.RecvWrite?)
    ensures NoneJoins(After(steps), After(steps + [step]))
  {
    hide After, Inv, Becomes, Down, Named, Do, NoneJoins;
    var st, st' := After(steps), After(steps + [step]);
    RunKeepsInv(steps);
    SameAddsNone(st);
    if !st.trans[step.t].online || Target(st, step.lid).None? {
      LiveAreLocal(st);
      StrayIsIgnored(steps, step);
    } else {
      var a := Target(st, step.lid).value;
      TargetIsNamed(st, step.lid);
      NamedIsLive(st, a, step.lid);
      match step
      case RecvClose(t, lid) =>
        CloseCloses(steps, t, lid, a);
        DownAddsNone(st, st', a, st.socks[a].l, st.logs[a]);
      case RecvWrite(t, rid, lid, payload, wrote, broke) =>
        WriteActsToo(steps, step, a);
        ActAddsNone(st, st', a);
      case RecvOkay(t, rid, lid) =>
        if st.socks[a].l.peer.Some? {
          OkayResumes(steps, t, rid, lid, a);
          BecomesAddsNone(st, st', a, st.socks[a].l.(wantRead := true, notify := false),
                          st.logs[a].(okaysIn := st.logs[a].okaysIn + 1));
        } else {
          OkayConnects(steps, t, rid, lid, a);
          SameRingAddsNone(st, st');
        }
    }
  }

  lemma SameRingAddsNone(st: State, st': State)
    requires st'.live == st.live
    ensures NoneJoins(st, st')
  {
  }

  lemma WriteActsToo(steps: seq<Step>, step: Step, a: Addr)
    requires Enabled(After(steps), step) && step.RecvWrite?
    requires After(steps).trans[step.t].online && Named(After(steps), a, step.lid)
    ensures IsLocal(After(steps), a) && exists s, l :: Acts(After(steps), After(steps + [step]), a, s, l)
  {
    hide After, Inv, Becomes, Down, Named;
    WriteIsTaken(steps, step.t, step.rid, step.lid, step.payload, step.wrote, step.broke, a);
    var st, st' := After(steps), After(steps + [step]);
    var s, l, w := st.socks[a].l, st.logs[a], Took(st.logs[a], step.payload, step.wrote);
    if s.queue != [] {
      assert Acts(st, st', a, s.(queue := s.queue + [step.payload], wantWrite := true), Took(l, step.payload, 0));
    } else if step.wrote == |step.payload| {
      assert Acts(st, st', a, s, w.(sent := l.sent + [Msg(OKAY, s.id, step.rid, [], step.t)]));
    } else if !step.broke {
      assert Acts(st, st', a, s.(queue := [step.payload[step.wrote..]], wantWrite := true), w);
    } else {
      assert Acts(st, st', a, s, w.(failed := true));
    }
  }

  lemma LinkAddsNone(steps: seq<Step>, step: Step)
    requires Enabled(After(steps), step)
    requires step.RecvOffline? || step.RecvConnect? || step.CloseAll? || step.Register? || step.Unregister?
    ensures NoneJoins(After(steps), After(steps + [step]))
  {
    hide After, Inv, GoOffline, OnConnect, CloseTouching, RunDisconnects;
    Taken(steps, step);
    match step
    case RecvOffline(t) => OfflineDrops(steps, t);
    case RecvConnect(t, conn) => ConnectDropsOld(steps, t, conn);
    case Unregister(t) => RemovalDrops(steps, t);
    case CloseAll(t) => CloseAllCloses(steps, t);
    case Register(t, writable) =>
  }

  /** Only an accepted OPEN or connection makes a socket live. */
  lemma NewlyLive(steps: seq<Step>, step: Step, b: Addr)
    requires b in After(steps + [step]).live && b !in After(steps).live
    ensures Enabled(After(steps), step) && b == After(steps).nextAddr
    ensures step.Accept? || (step.RecvOpen? && step.serviceFound && After(steps).trans[step.t].online)
  {
    hide After, Inv, Do;
    var st := After(steps);
    Taken(steps, step);
    if Enabled(st, step) {
      if step.Accept? {
        AcceptConnects(steps);
      } else if step.RecvOpen? {
        if step.serviceFound && st.trans[step.t].online {
          OpenOpens(steps, step.t, step.rid);
        } else {
          OpenRefused(steps, step.t, step.rid, step.serviceFound);
        }
      } else if step.SocketEvent? {
        EventAddsNone(steps, step);
      } else if step.RecvOkay? || step.RecvClose? || step.RecvWrite? {
        PacketAddsNone(steps, step);
      } else {
        LinkAddsNone(steps, step);
      }
    }
  }

  // ---------- the accounts ----------

  /** A WRTE arrives for a while packets are queued; it will be answered together with them. */
  ghost predicate Joins(st: State, step: Step, a: Addr) {
    && step.RecvWrite? && Enabled(st, step) && st.trans[step.t].online && Target(st, step.lid) == Some(a)
    && IsLocal(st, a) && st.socks[a].l.queue != []
  }

  /** An OKAY arrives for a while it is reading already. */
  ghost predicate Idles(st: State, step: Step, a: Addr) {
    && step.RecvOkay? && Enabled(st, step) && st.trans[step.t].online && Target(st, step.lid) == Some(a)
    && IsLocal(st, a) && st.socks[a].l.wantRead
  }

  ghost function Joined(steps: seq<Step>, a: Addr): nat {
    if steps == [] then 0
    else Joined(steps[..|steps| - 1], a) + Bit(Joins(After(steps[..|steps| - 1]), steps[|steps| - 1], a))
  }

  ghost function Idled(steps: seq<Step>, a: Addr): nat {
    if steps == [] then 0
    else Idled(steps[..|steps| - 1], a) + Bit(Idles(After(steps[..|steps| - 1]), steps[|steps| - 1], a))
  }

  /** With these many WRTEs joined and OKAYs idle, the accounts of live stream a are even. */
  ghost predicate Even(st: State, a: Addr, joined: nat, idle: nat) {
    && IsLocal(st, a) && a in st.logs
    && var s, l := st.socks[a].l, st.logs[a];
    && Count(l.sent, OKAY) + Bit(s.wantWrite) + joined == l.writesIn + 1
    && Count(l.sent, WRTE) + Bit(s.wantRead) + idle == l.okaysIn + 1
  }

  lemma CountEnds(sent: seq<Msg>, m: Msg)
    ensures Count(sent + [m], OKAY) == Count(sent, OKAY) + Bit(m.command == OKAY)
    ensures Count(sent + [m], WRTE) == Count(sent, WRTE) + Bit(m.command == WRTE)
  {
    CountAppend(sent, m, OKAY);
    CountAppend(sent, m, WRTE);
  }

  lemma WriteEventStaysEven(steps: seq<Step>, step: Step, joined: nat, idle: nat)
    requires Enabled(After(steps), step) && step.SocketEvent? && step.write && !step.read
    requires step.a in After(steps).live && step.a in After(steps).logs && After(steps).logs[step.a].byRemote
    requires Even(After(steps), step.a, joined, idle) && step.a in After(steps + [step]).live
    ensures Even(After(steps + [step]), step.a, joined, idle)
  {
    hide After, Inv, Elsewhere, Count;
    var st, a := After(steps), step.a;
    Taken(steps, step);
    LiveSocket(st, a);
    var s, r := st.socks[a].l, st.socks[st.socks[a].l.peer.value].r;
    WriteEvent(steps, step);
    CountEnds(st.logs[a].sent, Msg(OKAY, s.id, r.id, [], r.transport));
  }

  lemma ReadEventStaysEven(steps: seq<Step>, step: Step, joined: nat, idle: nat)
    requires Enabled(After(steps), step) && step.SocketEvent? && !step.write && step.read
    requires step.a in After(steps).live && step.a in After(steps).logs && After(steps).logs[step.a].byRemote
    requires Even(After(steps), step.a, joined, idle) && step.a in After(steps + [step]).live
    ensures Even(After(steps + [step]), step.a, joined, idle)
  {
    hide After, Inv, Elsewhere, Count;
    var st, a := After(steps), step.a;
    Taken(steps, step);
    LiveSocket(st, a);
    var s, r := st.socks[a].l, st.socks[st.socks[a].l.peer.value].r;
    ReadEvent(steps, step);
    CountEnds(st.logs[a].sent, Msg(WRTE, s.id, r.id, step.data, r.transport));
  }

  lemma HalfEventStaysEven(steps: seq<Step>, step: Step, joined: nat, idle: nat)
    requires Enabled(After(steps), step) && step.SocketEvent? && !(step.write && step.read)
    requires step.a in After(steps).live && step.a in After(steps).logs && After(steps).logs[step.a].byRemote
    requires Even(After(steps), step.a, joined, idle) && step.a in After(steps + [step]).live
    ensures Even(After(steps + [step]), step.a, joined, idle)
  {
    hide After, Inv, Even, Enabled;
    if step.write {
      WriteEventStaysEven(steps, step, joined, idle);
    } else if step.read {
      ReadEventStaysEven(steps, step, joined, idle);
    } else {
      NoEvent(steps, step);
    }
  }

  lemma NoEvent(steps: seq<Step>, step: Step)
    requires step.SocketEvent? && !step.write && !step.read
    ensures After(steps + [step]) == After(steps)
  {
    hide After, Inv, Enabled;
    Taken(steps, step);
  }

  lemma EventStaysEven(steps: seq<Step>, step: Step, joined: nat, idle: nat)
    requires Enabled(After(steps), step) && step.SocketEvent?
    requires step.a in After(steps).live && step.a in After(steps).logs && After(steps).logs[step.a].byRemote
    requires Even(After(steps), step.a, joined, idle) && step.a in After(steps + [step]).live
    ensures Even(After(steps + [step]), step.a, joined, idle)
  {
    hide After, Inv, Even, Do;
    if step.write && step.read {
      var most := steps + [WriteHalf(step)];
      BothEvents(steps, step);
      if Drains(After(steps), step) {
        HalfEventAddsNone(most, ReadHalf(step));
        StillByRemote(steps, WriteHalf(step), step.a);
        HalfEventStaysEven(steps, WriteHalf(step), joined, idle);
        HalfEventStaysEven(most, ReadHalf(step), joined, idle);
      } else {
        HalfEventStaysEven(steps, WriteHalf(step), joined, idle);
      }
    } else {
      HalfEventStaysEven(steps, step, joined, idle);
    }
  }

  lemma StillByRemote(steps: seq<Step>, step: Step, a: Addr)
    requires a in After(steps).logs
    ensures a in After(steps + [step]).logs && After(steps + [step]).logs[a].byRemote == After(steps).logs[a].byRemote
  {
    hide After;
    RunGrows(steps, [step]);
    assert Extends(After(steps).logs[a], After(steps + [step]).logs[a]);
  }

  lemma OkayStaysEven(steps: seq<Step>, step: Step, a: Addr, joined: nat, idle: nat)
    requires Enabled(After(steps), step) && step.RecvOkay? && Subject(After(steps), step) == Some(a)
    requires a in After(steps).live && a in After(steps).logs && After(steps).logs[a].byRemote
    requires Even(After(steps), a, joined, idle)
    ensures Even(After(steps + [step]), a, joined, idle + Bit(Idles(After(steps), step, a)))
  {
    hide After, Inv, Elsewhere, Count, Named;
    RunKeepsInv(steps);
    TargetIsNamed(After(steps), step.lid);
    LiveSocket(After(steps), a);
    OkayResumes(steps, step.t, step.rid, step.lid, a);
  }

  lemma WriteStaysEven(steps: seq<Step>, step: Step, a: Addr, joined: nat, idle: nat)
    requires Enabled(After(steps), step) && step.RecvWrite? && Subject(After(steps), step) == Some(a)
    requires a in After(steps).live && a in After(steps).logs && After(steps).logs[a].byRemote
    requires Even(After(steps), a, joined, idle) && a in After(steps + [step]).live
    ensures Even(After(steps + [step]), a, joined + Bit(Joins(After(steps), step, a)), idle)
  {
    hide After, Inv, Elsewhere, Count, Named;
    RunKeepsInv(steps);
    var st := After(steps);
    TargetIsNamed(st, step.lid);
    LiveQueue(st, a);
    WriteIsTaken(steps, step.t, step.rid, step.lid, step.payload, step.wrote, step.broke, a);
    CountEnds(st.logs[a].sent, Msg(OKAY, st.socks[a].l.id, step.rid, [], step.t));
  }

  lemma LiveQueue(st: State, a: Addr)
    requires Inv(st) && a in st.live
    ensures IsLocal(st, a) && (st.socks[a].l.wantWrite <==> st.socks[a].l.queue != [])
  {
    InvSplits(st, a);
  }

  lemma CloseEndsIt(steps: seq<Step>, step: Step, a: Addr)
    requires Enabled(After(steps), step) && step.RecvClose? && Subject(After(steps), step) == Some(a)
    ensures a !in After(steps + [step]).live
  {
    hide After, Inv, Elsewhere, Named;
    RunKeepsInv(steps);
    TargetIsNamed(After(steps), step.lid);
    CloseCloses(steps, step.t, step.lid, a);
  }

  lemma KeptStaysEven(st: State, st': State, a: Addr, joined: nat, idle: nat)
    requires Kept(st, st', a) && Even(st, a, joined, idle)
    ensures Even(st', a, joined, idle)
  {
  }

  lemma OthersDoNotCount(st: State, step: Step, a: Addr)
    ensures Joins(st, step, a) ==> step.RecvWrite? && Enabled(st, step) && Subject(st, step) == Some(a) && a in st.live
    ensures Idles(st, step, a) ==> step.RecvOkay? && Enabled(st, step) && Subject(st, step) == Some(a) && a in st.live
  {
  }

  lemma OneStepStaysEven(steps: seq<Step>, step: Step, a: Addr, joined: nat, idle: nat)
    requires a in After(steps).live && a in After(steps).logs && After(steps).logs[a].byRemote
    requires Even(After(steps), a, joined, idle) && a in After(steps + [step]).live
    ensures Even(After(steps + [step]), a, joined + Bit(Joins(After(steps), step, a)),
                 idle + Bit(Idles(After(steps), step, a)))
  {
    hide After, Inv, Even, Do, Joins, Idles, Kept;
    var st := After(steps);
    Taken(steps, step);
    OthersDoNotCount(st, step, a);
    if !Enabled(st, step) {
      assert After(steps + [step]) == st;
    } else if Subject(st, step) != Some(a) {
      BystanderKept(steps, step, a);
      KeptStaysEven(st, After(steps + [step]), a, joined, idle);
    } else {
      match step
      case SocketEvent(_, _, _, _, _, _, _, _, _) => EventStaysEven(steps, step, joined, idle);
      case RecvOkay(_, _, _) => OkayStaysEven(steps, step, a, joined, idle);
      case RecvWrite(_, _, _, _, _, _) => WriteStaysEven(steps, step, a, joined, idle);
      case RecvClose(_, _) => CloseEndsIt(steps, step, a);
    }
  }

  lemma {:induction false} NothingBeforeBirth(steps: seq<Step>, a: Addr)
    requires a !in After(steps).logs
    ensures Joined(steps, a) == 0 && Idled(steps, a) == 0
  {
    hide After, Joins, Idles, Extends;
    if steps != [] {
      var most, step := steps[..|steps| - 1], steps[|steps| - 1];
      RunGrows(most, [step]);
      assert most + [step] == steps;
      NothingBeforeBirth(most, a);
      OthersDoNotCount(After(most), step, a);
      LiveAreLogged(most);
    }
  }

  lemma LiveAreLogged(steps: seq<Step>)
    ensures forall a :: a in After(steps).live ==> a in After(steps).logs
  {
    RunKeepsInv(steps);
  }

  lemma NewbornIsEven(steps: seq<Step>, step: Step, a: Addr)
    requires a in After(steps + [step]).live && a !in After(steps).live
    requires a in After(steps + [step]).logs && After(steps + [step]).logs[a].byRemote
    ensures a !in After(steps).logs && Even(After(steps + [step]), a, 0, 0)
    ensures !Joins(After(steps), step, a) && !Idles(After(steps), step, a)
  {
    hide After, Inv, Do, Joins, Idles, Count;
    OthersDoNotCount(After(steps), step, a);
    NewlyLive(steps, step, a);
    if step.Accept? {
      AcceptConnects(steps);
    } else {
      OpenOpens(steps, step.t, step.rid);
      CountEnds([], After(steps + [step]).logs[a].sent[0]);
      NoCounts();
      assert [] + After(steps + [step]).logs[a].sent == After(steps + [step]).logs[a].sent;
    }
  }

  lemma NoCounts()
    ensures Count([], OKAY) == 0 && Count([], WRTE) == 0
  {
  }

  /** For a live stream that a remote OPEN made: the OKAYs sent, plus one while bytes are queued, plus the
      WRTEs that joined a queue, are the WRTEs that arrived and one for the OPEN; and the WRTEs sent, plus
      one while it reads, plus the OKAYs that came while it was reading, are the OKAYs that arrived and
      one.  So every OKAY that is owed has been sent, and reading resumes with every OKAY. */
  lemma {:induction false} AccountsAreEven(steps: seq<Step>, a: Addr)
    requires a in After(steps).live && a in After(steps).logs && After(steps).logs[a].byRemote
    ensures IsLocal(After(steps), a)
    ensures var s, l, h := After(steps).socks[a].l, After(steps).logs[a], SocketTraffic.History(steps, a);
      && Count(l.sent, OKAY) + Bit(s.wantWrite) + Joined(steps, a) == h.writes + 1
      && Count(l.sent, WRTE) + Bit(s.wantRead) + Idled(steps, a) == h.okays + 1
  {
    hide After, Count, Joined, Idled, SocketTraffic.History;
    EvenAfter(steps, a);
    SocketTraffic.LogIsHistory(steps, a);
  }

  lemma {:induction false} EvenAfter(steps: seq<Step>, a: Addr)
    requires a in After(steps).live && a in After(steps).logs && After(steps).logs[a].byRemote
    ensures Even(After(steps), a, Joined(steps, a), Idled(steps, a))
  {
    hide Even, Joins, Idles, Apply, Extends;
    if steps != [] {
      var most, step := steps[..|steps| - 1], steps[|steps| - 1];
      assert most + [step] == steps;
      if a in After(most).live {
        LiveAreLogged(most);
        StillByRemote(most, step, a);
        EvenAfter(most, a);
        OneStepStaysEven(most, step, a, Joined(most, a), Idled(most, a));
      } else {
        NewbornIsEven(most, step, a);
        NothingBeforeBirth(most, a);
      }
    }
  }
}
