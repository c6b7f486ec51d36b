/** Whole runs of the multiplexer: any schedule of callbacks, from the empty daemon. */
module SocketRuns {
  import opened Bytes
  import opened Rings
  import opened SocketModel
  import opened SocketInvariant
  import opened SocketSteps

  datatype Step =
    | Register(t: Tid, writable: bool)
    | Accept
    | RecvOpen(t: Tid, rid: nat, serviceFound: bool)
    | RecvOkay(t: Tid, rid: nat, lid: nat)
    | RecvClose(t: Tid, lid: nat)
    | RecvWrite(t: Tid, rid: nat, lid: nat, payload: Bytes, wrote: nat, broke: bool)
    | RecvOffline(t: Tid)
    | RecvConnect(t: Tid, conn: ConnState)
    | SocketEvent(a: Addr, write: bool, wrote: nat, broke: bool,
                  read: bool, data: Bytes, eof: bool, forced: bool, found: Acquired)
    | CloseAll(t: Tid)
    | Unregister(t: Tid)

  /** Transport t has its two threads, so packets can arrive on it. */
  predicate Running(st: State, t: Tid) {
    t in st.trans && st.trans[t].conn != NoPerm
  }

  /** The environment: which step may happen.  A descriptor event is delivered only for what the socket
      watches; data arrives only on a stream that has its remote end. */
  ghost predicate Enabled(st: State, step: Step) {
    match step
    case Register(t, _) => t !in st.trans
    case Accept => true
    case RecvOpen(t, _, _) => Running(st, t)
    case RecvOkay(t, _, _) => Running(st, t)
    case RecvClose(t, _) => Running(st, t)
    case RecvWrite(t, _, lid, payload, wrote, _) =>
      && Running(st, t)
      && |payload| <= MAX_PAYLOAD && wrote <= |payload|
      && (Target(st, lid).Some? ==> HasRemotePeer(st, Target(st, lid).value))
    case RecvOffline(t) => Running(st, t)
    case RecvConnect(t, conn) => Running(st, t) && Up(conn)
    case SocketEvent(a, write, wrote, _, read, data, _, _, found) =>
      && IsLocal(st, a)
      && (write ==> st.socks[a].l.wantWrite && wrote <= |Concat(st.socks[a].l.queue)|)
      && (read ==> st.socks[a].l.wantRead && |data| <= MAX_PAYLOAD)
      && (found.lookup.Found? ==> found.t in st.trans && Up(st.trans[found.t].conn))
    case CloseAll(_) => true
    case Unregister(t) => t in st.trans
  }

  lemma EventReady(st: State, a: Addr, wrote: nat, broke: bool)
    requires Inv(st) && IsLocal(st, a) && PeerUsable(st, a) && wrote <= |Concat(st.socks[a].l.queue)|
    requires st.socks[a].l.wantWrite && st.socks[a].l.wantRead && OnWritable(st, a, wrote, broke).1
    ensures Inv(OnWritable(st, a, wrote, broke).0) && Talks(OnWritable(st, a, wrote, broke).0, a)
  {
    OnWritableKeepsInv(st, a, wrote, broke);
    InvSplits(st, a);
  }

  /** local_socket_event_func. */
  ghost function OnEvent(st: State, a: Addr, write: bool, wrote: nat, broke: bool,
                         read: bool, data: Bytes, eof: bool, forced: bool, found: Acquired): (st': State)
    requires Inv(st) && Enabled(st, SocketEvent(a, write, wrote, broke, read, data, eof, forced, found))
    ensures Inv(st')
  {
    InvSplits(st, a);
    if !write then (if read then OnReadable(st, a, data, eof, forced, found) else st)
    else
      OnWritableKeepsInv(st, a, wrote, broke);
      if read && OnWritable(st, a, wrote, broke).1 then
        EventReady(st, a, wrote, broke);
        OnReadable(OnWritable(st, a, wrote, broke).0, a, data, eof, forced, found)
      else OnWritable(st, a, wrote, broke).0
  }

  /** A transport goes away: its disconnects run and it leaves the list. */
  function Remove(st: State, t: Tid): State
    requires Inv(st) && t in st.trans
  {
    var st1 := RunDisconnects(st, t);
    st1.(trans := st1.trans - {t})
  }

  lemma RemoveKeepsInv(st: State, t: Tid)
    requires Inv(st) && t in st.trans
    ensures Inv(Remove(st, t))
  {
    RemovedTransportsOk(RunDisconnects(st, t), t);
    TransportsOnlyKeepInv(RunDisconnects(st, t), Remove(st, t));
  }

  lemma RemovedTransportsOk(st: State, t: Tid)
    requires Inv(st) && t in st.trans && st.trans[t].ring == []
    ensures TransportsOk(st.(trans := st.trans - {t})) && HomesOk(st.(trans := st.trans - {t}))
  {
    var st' := st.(trans := st.trans - {t});
    forall u | u in st'.trans ensures TransportOk(st', u) { assert TransportOk(st, u); }
  }

  function Add(st: State, t: Tid, writable: bool): State {
    st.(trans := st.trans[t := Transport(if writable then Offline else NoPerm, false, [])])
  }

  lemma AddKeepsInv(st: State, t: Tid, writable: bool)
    requires Inv(st) && t !in st.trans
    ensures Inv(Add(st, t, writable))
  {
    var st' := Add(st, t, writable);
    forall u | u in st'.trans ensures TransportOk(st', u) { if u != t { assert TransportOk(st, u); } }
    TransportsOnlyKeepInv(st, st');
  }

  function Refuse(st: State, t: Tid, rid: nat): State {
    st.(refusals := st.refusals + [Msg(CLSE, 0, rid, [], t)])
  }

  lemma RefuseKeepsInv(st: State, t: Tid, rid: nat)
    requires Inv(st)
    ensures Inv(Refuse(st, t, rid))
  {
    var st' := Refuse(st, t, rid);
    forall u | u in st'.trans ensures TransportOk(st', u) { assert TransportOk(st, u); }
    TransportsOnlyKeepInv(st, st');
  }

  /** close_all_sockets, seen as one pass over the live ring. */
  function CloseTouching(st: State, t: Tid): State
    requires Inv(st)
  {
    CloseEach(st, Touching(st, st.live, t))
  }

  ghost function Do(st: State, step: Step): State
    requires Inv(st) && Enabled(st, step)
  {
    match step
    case Register(t, writable) => Add(st, t, writable)
    case Accept => AcceptStream(st)
    case RecvOpen(t, rid, found) =>
      if !st.trans[t].online then st else if found then OpenStream(st, t, rid) else Refuse(st, t, rid)
    case RecvOkay(t, rid, lid) => OnOkay(st, t, rid, lid)
    case RecvClose(t, lid) => OnClose(st, t, lid)
    case RecvWrite(t, rid, lid, payload, wrote, broke) => OnWrite(st, t, rid, lid, payload, wrote, broke)
    case RecvOffline(t) => GoOffline(st, t)
    case RecvConnect(t, conn) => OnConnect(st, t, conn)
    case SocketEvent(a, write, wrote, broke, read, data, eof, forced, found) =>
      OnEvent(st, a, write, wrote, broke, read, data, eof, forced, found)
    case CloseAll(t) => CloseTouching(st, t)
    case Unregister(t) => Remove(st, t)
  }

  lemma StepKeepsInv(st: State, step: Step)
    requires Inv(st) && Enabled(st, step)
    ensures Inv(Do(st, step))
  {
    match step
    case Register(t, writable) => AddKeepsInv(st, t, writable);
    case Accept => AcceptKeepsInv(st);
    case RecvOpen(t, rid, found) =>
      if st.trans[t].online { if found { OpenKeepsInv(st, t, rid); } else { RefuseKeepsInv(st, t, rid); } }
    case RecvOkay(t, rid, lid) => OnOkayKeepsInv(st, t, rid, lid);
    case RecvClose(t, lid) => OnCloseKeepsInv(st, t, lid);
    case RecvWrite(t, rid, lid, payload, wrote, broke) =>
      OnWriteKeepsInv(st, t, rid, lid, payload, wrote, broke);
    case RecvOffline(t) =>
    case RecvConnect(t, conn) => OnConnectKeepsInv(st, t, conn);
    case SocketEvent(_, _, _, _, _, _, _, _, _) =>
    case CloseAll(t) =>
    case Unregister(t) => RemoveKeepsInv(st, t);
  }

  /** One step of a schedule; a step that is not enabled does nothing. */
  ghost function Apply(st: State, step: Step): State {
    if Inv(st) && Enabled(st, step) then Do(st, step) else st
  }

  /** The state after a schedule. */
  ghost function After(steps: seq<Step>): State {
    if steps == [] then INIT else Apply(After(steps[..|steps| - 1]), steps[|steps| - 1])
  }

  /** A step that may happen is taken. */
  lemma Taken(steps: seq<Step>, step: Step)
    ensures Inv(After(steps))
    ensures Enabled(After(steps), step) ==> After(steps + [step]) == Do(After(steps), step)
    ensures !Enabled(After(steps), step) ==> After(steps + [step]) == After(steps)
  {
    hide Inv, Enabled, Do;
    RunKeepsInv(steps);
    assert (steps + [step])[..|steps|] == steps;
  }

  lemma InitOk()
    ensures Inv(INIT)
  {
  }

  /** The invariant holds after every schedule, so every enabled step of a schedule is taken. */
  lemma {:induction false} RunKeepsInv(steps: seq<Step>)
    ensures Inv(After(steps))
  {
    if steps == [] {
      InitOk();
    } else {
      var st, step := After(steps[..|steps| - 1]), steps[|steps| - 1];
      RunKeepsInv(steps[..|steps| - 1]);
      if Enabled(st, step) { StepKeepsInv(st, step); }
    }
  }
}
