/** A READ that reaches a socket which no longer watches for it: recorded before fdevent_del, or forced.
    Schedules leave such calls out; here is what they do, and when they do harm. */
module SocketLateReads {
  import opened Bytes
  import opened SocketModel
  import opened SocketInvariant
  import opened SocketSteps

  /** The READ half on a socket with no peer or a remote one.  Without a peer the bytes are dropped. */
  function LateRead(st: State, a: Addr, data: Bytes, eof: bool): State
    requires IsLocal(st, a) && PeerUsable(st, a) && !HasSmartPeer(st, a)
  {
    var s := st.socks[a].l;
    if data != [] && HasRemotePeer(st, a) then
      var r := st.socks[s.peer.value].r;
      var st1 := Update(st, a, s.(wantRead := false), Told(st.logs[a], Msg(WRTE, s.id, r.id, data, r.transport)));
      if eof then Close(st1, a, true) else st1
    else if eof then Close(st, a, true)
    else st
  }

  /** A parked socket: at end of file it is destroyed with its queue, and exactly the queued bytes are lost.
      So the promise that a closed socket drains first holds exactly when the read does not end or the
      queue holds no byte. */
  lemma LateReadOfParked(st: State, a: Addr, data: Bytes, eof: bool)
    requires Inv(st) && a in st.closing && !st.logs[a].failed
    ensures IsLocal(st, a) && PeerUsable(st, a) && !HasSmartPeer(st, a)
    ensures var st', queued := LateRead(st, a, data, eof), Concat(st.socks[a].l.queue);
      && (!eof ==> st' == st)
      && (eof ==> !IsLocal(st', a) && a in st'.logs && st'.logs[a].accepted == st'.logs[a].written + queued)
      && (StreamOk(st', a) <==> !eof || queued == [])
  {
    InvSplits(st, a);
    CloseLog(st, a, true);
    if StreamOk(LateRead(st, a, data, eof), a) && eof {
      assert st.logs[a].written == st.logs[a].written + Concat(st.socks[a].l.queue);
    }
  }

  /** A stream that a remote OPEN made, waiting for an OKAY: the bytes go out at once, and the credit bound
      survives exactly when the socket had credit to spare. */
  lemma LateReadOfLive(st: State, a: Addr, data: Bytes)
    requires Inv(st) && HasRemotePeer(st, a) && !st.socks[a].l.wantRead && data != []
    ensures IsLocal(st, a) && PeerUsable(st, a) && a in st.logs
    ensures var st', l := LateRead(st, a, data, false), st.logs[a];
      && a in st'.logs && IsLocal(st', a)
      && Count(st'.logs[a].sent, WRTE) == Count(l.sent, WRTE) + 1
      && (Count(st'.logs[a].sent, WRTE) + Bit(st'.socks[a].l.wantRead) <= st'.logs[a].okaysIn + 1 <==>
            Count(l.sent, WRTE) <= l.okaysIn)
  {
    InvSplits(st, a);
    var s := st.socks[a].l;
    var r := st.socks[s.peer.value].r;
    CountAppend(st.logs[a].sent, Msg(WRTE, s.id, r.id, data, r.transport), WRTE);
  }
}
