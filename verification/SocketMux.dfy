/** The multiplexer itself: fields updated in place by the callbacks of sockets.c and handle_packet,
    each proved to take exactly one step of the transition system. */
module SocketMux {
  import opened Bytes
  import opened Rings
  import opened SocketModel
  import opened SocketInvariant
  import opened SocketSteps
  import opened SocketRuns
  import opened SocketTheorems
  import opened SocketLateReads
  import SmartSocket
  import SocketTraffic
  import SocketLedger
  import SocketRequests

  const A_SYNC: nat := 0x434e5953
  const A_CNXN: nat := 0x4e584e43
  const A_OPEN: nat := 0x4e45504f
  const A_OKAY: nat := 0x59414b4f
  const A_CLSE: nat := 0x45534c43
  const A_WRTE: nat := 0x45545257

  datatype Packet = Packet(command: nat, arg0: nat, arg1: nat, data: Bytes)

  /** What one adb_write or adb_read did: moved some bytes, would block, or failed (or hit the end). */
  datatype Written = Took(n: nat) | WriteBlocks | WriteFails
  datatype ReadIn = Got(data: Bytes) | ReadBlocks | ReadEnds

  method AdbWrite(len: nat) returns (w: Written)
    requires len > 0
    ensures w.Took? ==> 1 <= w.n <= len
  {
    var choice: int := *;
    if choice == 0 {
      w := WriteBlocks;
    } else if choice == 1 {
      w := WriteFails;
    } else {
      var n: nat :| 1 <= n <= len;
      w := Took(n);
    }
  }

  method AdbRead(len: nat) returns (r: ReadIn)
    requires len > 0
    ensures r.Got? ==> 1 <= |r.data| <= len
  {
    var choice: int := *;
    if choice == 0 {
      r := ReadBlocks;
    } else if choice == 1 {
      r := ReadEnds;
    } else {
      var n: nat :| 1 <= n <= len;
      var data: Bytes := seq(n, _ => 0);
      var other: Bytes := *;
      r := Got(if |other| == n then other else data);
    }
  }

  class Daemon {
    var socks: map<Addr, Sock>
    var live: seq<Addr>
    var closing: seq<Addr>
    var nextId: nat
    var nextAddr: Addr
    var trans: map<Tid, Transport>
    ghost var installs: nat
    ghost var logs: map<Addr, StreamLog>
    ghost var refusals: seq<Msg>
    ghost var steps: seq<Step>

    ghost function St(): State
      reads this
    {
      State(socks, live, closing, installs, nextAddr, trans, logs, refusals)
    }

    /** The fields are where the schedule run so far leads. */
    ghost predicate Valid()
      reads this
    {
      St() == After(steps) && nextId == NextId(St())
    }

    constructor ()
      ensures Valid() && St() == INIT && steps == []
    {
      socks, live, closing, nextId, nextAddr, trans := map[], [], [], 1, 0, map[];
      installs, logs, refusals, steps := 0, map[], [], [];
    }

    // ---------- rings ----------

    /** find_local_socket. */
    method FindLocalSocket(id: nat) returns (found: Option<Addr>)
      requires forall a :: a in live ==> IsLocal(St(), a)
      ensures found == Target(St(), id)
    {
      var i := 0;
      while i < |live|
        invariant 0 <= i <= |live|
        invariant FindFrom(St(), live, id) == FindFrom(St(), live[i..], id)
      {
        assert live[i..][1..] == live[i + 1..];
        if socks[live[i]].l.id == id { return Some(live[i]); }
        i := i + 1;
      }
      return None;
    }

    /** Unlinking a node from a ring. */
    method Unlink(ring: seq<Addr>, a: Addr) returns (rest: seq<Addr>)
      ensures rest == Without(ring, a)
    {
      rest := [];
      var i := 0;
      while i < |ring|
        invariant 0 <= i <= |ring|
        invariant Without(ring, a) == rest + Without(ring[i..], a)
      {
        assert ring[i..][1..] == ring[i + 1..];
        if ring[i] != a { rest := rest + [ring[i]]; }
        i := i + 1;
      }
    }

    // ---------- close ----------

    /** remove_transport_disconnect, then free. */
    method FreeRemote(p: Addr)
      requires p in socks && socks[p].Remote? && socks[p].r.transport in trans
      modifies this`socks, this`trans
      ensures St() == DropRemote(old(St()), p)
    {
      var t := socks[p].r.transport;
      var ring := Unlink(trans[t].ring, p);
      trans := trans[t := trans[t].(ring := ring)];
      socks := socks - {p};
    }

    /** remote_socket_close for a remote socket whose peer link is already cut: CLSE, then gone. */
    method RemoteSocketClose(p: Addr, ghost stream: Addr)
      requires p in socks && socks[p].Remote? && socks[p].r.transport in trans && stream in logs
      modifies this`socks, this`trans, this`logs
      ensures St() == DropRemote(Emit(old(St()), stream,
                                      Msg(CLSE, 0, old(socks[p].r.id), [], old(socks[p].r.transport))), p)
    {
      logs := Emit(St(), stream, Msg(CLSE, 0, socks[p].r.id, [], socks[p].r.transport)).logs;
      FreeRemote(p);
    }

    /** local_socket_destroy. */
    method LocalSocketDestroy(a: Addr)
      requires IsLocal(St(), a)
      modifies this`socks, this`live, this`closing
      ensures St() == old(St()).(socks := old(socks) - {a}, live := Without(old(live), a),
                                 closing := Without(old(closing), a))
    {
      live := Unlink(live, a);
      closing := Unlink(closing, a);
      socks := socks - {a};
    }

    /** local_socket_close_locked. */
    method CloseLocked(a: Addr)
      requires IsLocal(St(), a) && PeerUsable(St(), a)
      modifies this`socks, this`live, this`closing, this`trans, this`logs
      ensures St() == Close(old(St()), a, true)
      decreases if socks[a].l.peer.Some? then 1 else 0, 2
    {
      if socks[a].l.peer.Some? { ClosePeer(a); }
      CloseUnpaired(a);
    }

    /** The peer's half of local_socket_close_locked. */
    method ClosePeer(a: Addr)
      requires IsLocal(St(), a) && PeerUsable(St(), a) && socks[a].l.peer.Some?
      modifies this`socks, this`live, this`closing, this`trans, this`logs
      ensures St() == CutPeer(old(St()), a, true)
      decreases 1, 1
    {
      ghost var st0 := St();
      var p := socks[a].l.peer.value;
      if socks[p].Remote? {
        CloseRemotePeer(a, p);
      } else if socks[p].Local? {
        CloseLocalPeer(a, p);
      } else {
        socks := socks - {p};
        socks := socks[a := Local(socks[a].l.(peer := None))];
        assert socks == CutPeer(st0, a, true).socks;
      }
    }

    method CloseLocalPeer(a: Addr, p: Addr)
      requires IsLocal(St(), a) && PeerUsable(St(), a) && socks[a].l.peer == Some(p) && socks[p].Local?
      modifies this`socks, this`live, this`closing, this`trans, this`logs
      ensures St() == CutPeer(old(St()), a, true)
      decreases 1, 0
    {
      ghost var st0 := St();
      hide CutPeer, CloseAlone;
      socks := socks[p := Local(socks[p].l.(peer := None))];
      LonelyClose(St(), p);
      CloseLocked(p);
      CutLocalPeer(st0, a, p);
      socks := socks[a := Local(socks[a].l.(peer := None))];
    }

    method CloseRemotePeer(a: Addr, p: Addr)
      requires IsLocal(St(), a) && PeerUsable(St(), a) && socks[a].l.peer == Some(p) && socks[p].Remote?
      modifies this`socks, this`trans, this`logs
      ensures St() == CutPeer(old(St()), a, true)
    {
      ghost var st0 := St();
      socks := socks[p := Remote(socks[p].r.(peer := None))];
      RemoteSocketClose(p, a);
      socks := socks[a := Local(socks[a].l.(peer := None))];
      assert socks == CutPeer(st0, a, true).socks;
    }

    /** The rest of local_socket_close_locked: destroy the socket, or park it while it has bytes. */
    method CloseUnpaired(a: Addr)
      requires IsLocal(St(), a)
      modifies this`socks, this`live, this`closing
      ensures St() == CloseAlone(old(St()), a)
    {
      if socks[a].l.closing || socks[a].l.queue == [] {
        LocalSocketDestroy(a);
        return;
      }
      socks := socks[a := Local(socks[a].l.(closing := true, wantRead := false, id := 0))];
      live := Unlink(live, a);
      closing := Unlink(closing, a);
      closing := closing + [a];
    }

    /** close_all_sockets: find a live socket bound to t or with a peer on t, close it, start over. */
    method CloseAllSockets(t: Tid)
      requires Inv(St())
      modifies this`socks, this`live, this`closing, this`trans, this`logs
      ensures St() == CloseTouching(old(St()), t)
    {
      ghost var goal := CloseTouching(St(), t);
      var i := 0;
      while i < |live|
        invariant StillToClose(St(), t, goal)
        invariant 0 <= i <= |live|
        invariant forall j :: 0 <= j < i ==> !Picks(socks, live[j], t)
        decreases |live|, |live| - i
      {
        if Picks(socks, live[i], t) {
          ClosePicked(i, t, goal);
          i := 0;
        } else {
          i := i + 1;
        }
      }
      NothingTouches(St(), t, goal);
    }

    method ClosePicked(i: nat, t: Tid, ghost goal: State)
      requires i < |live| && Picks(socks, live[i], t) && StillToClose(St(), t, goal)
      requires forall j :: 0 <= j < i ==> !Picks(socks, live[j], t)
      modifies this`socks, this`live, this`closing, this`trans, this`logs
      ensures StillToClose(St(), t, goal) && |live| < |old(live)|
    {
      CloseFirstTouching(St(), i, t);
      CloseLocked(live[i]);
    }

    // ---------- disconnects ----------

    /** remote_socket_disconnect. */
    method RemoteSocketDisconnect(r: Addr)
      requires r in socks && socks[r].Remote? && socks[r].r.transport in trans && socks[r].r.peer.Some?
      requires IsLocal(St(), socks[r].r.peer.value) && socks[socks[r].r.peer.value].l.peer == Some(r)
      requires PeerUsable(St(), socks[r].r.peer.value)
      modifies this`socks, this`live, this`closing, this`trans
      ensures St() == Close(old(St()), old(socks[r].r.peer.value), false)
    {
      ghost var st0 := St();
      var a := socks[r].r.peer.value;
      socks := socks[a := Local(socks[a].l.(peer := None))];
      CloseUnpaired(a);
      FreeRemote(r);
      assert socks == Close(st0, a, false).socks;
    }

    /** run_transport_disconnects: walk the ring, reading each successor before the callback runs.  The
        transport's own connection fields may already say offline; `base` is the state before that. */
    method RunTransportDisconnects(t: Tid, ghost base: State)
      requires Inv(base) && t in base.trans && t in trans
      requires St() == SetLink(base, t, trans[t].conn, trans[t].online)
      modifies this`socks, this`live, this`closing, this`trans
      ensures t in trans && St() == SetLink(RunDisconnects(base, t), t, old(trans[t].conn), old(trans[t].online))
    {
      hide GraphOk, StreamsOk, RunDisconnects;
      ghost var conn, online := trans[t].conn, trans[t].online;
      ghost var goal := RunDisconnects(base, t);
      ghost var now := base;
      var dis := if trans[t].ring == [] then None else Some(trans[t].ring[0]);
      while dis.Some?
        invariant t in trans && t in now.trans && St() == SetLink(now, t, conn, online)
        invariant Walking(now, t, goal)
        invariant dis == if trans[t].ring == [] then None else Some(trans[t].ring[0])
        decreases |trans[t].ring|
      {
        var next := if |trans[t].ring| > 1 then Some(trans[t].ring[1]) else None;
        now := RunOneDisconnect(t, dis.value, now, goal);
        dis := next;
      }
      NothingLeft(now, t, goal);
    }

    method RunOneDisconnect(t: Tid, r: Addr, ghost now: State, ghost goal: State) returns (ghost now': State)
      requires t in trans && t in now.trans && St() == SetLink(now, t, trans[t].conn, trans[t].online)
      requires Walking(now, t, goal) && trans[t].ring != [] && r == trans[t].ring[0]
      modifies this`socks, this`live, this`closing, this`trans
      ensures Walking(now', t, goal) && t in trans && t in now'.trans
      ensures St() == SetLink(now', t, old(trans[t].conn), old(trans[t].online))
      ensures trans[t].ring == old(trans[t].ring)[1..]
    {
      DisconnectHead(now, t, goal, trans[t].conn, trans[t].online);
      now' := Disconnect(now, r);
      RemoteSocketDisconnect(r);
    }

    /** handle_offline, after connection_state has been set to CS_OFFLINE. */
    method GoesOffline(t: Tid)
      requires Inv(St()) && t in trans
      modifies this`socks, this`live, this`closing, this`trans
      ensures St() == GoOffline(old(St()), t)
    {
      ghost var base := St();
      trans := trans[t := trans[t].(conn := Offline)];
      trans := trans[t := trans[t].(online := false)];
      LinkTwice(base, St(), t, Offline, false);
      RunTransportDisconnects(t, base);
    }

    // ---------- data from the remote side ----------

    /** The write loop of local_socket_enqueue. */
    method WriteNow(a: Addr, payload: Bytes) returns (ptr: nat, failed: bool)
      requires IsLocal(St(), a) && a in logs
      modifies this`logs
      ensures ptr <= |payload| && (failed ==> ptr < |payload|)
      ensures St() == Update(old(St()), a, socks[a].l, Received(old(logs[a]), payload, ptr))
    {
      ghost var st0, l0 := St(), logs[a];
      ptr, failed := 0, false;
      logs := logs[a := Received(l0, payload, 0)];
      assert socks == socks[a := Local(socks[a].l)];
      while ptr < |payload|
        invariant 0 <= ptr <= |payload| && !failed
        invariant St() == Update(st0, a, socks[a].l, Received(l0, payload, ptr))
      {
        var w := AdbWrite(|payload| - ptr);
        if w.Took? {
          ptr := ptr + w.n;
          logs := logs[a := Received(l0, payload, ptr)];
        } else if w.WriteFails? {
          failed := true;
          return;
        } else {
          return;
        }
      }
    }

    /** local_socket_enqueue.  Behind a queue the packet just joins it.  Otherwise result 0 means
        everything was written at once; result 1 that the rest is queued, or that the write failed and
        the socket was closed. */
    method LocalSocketEnqueue(a: Addr, payload: Bytes, ghost t: Tid, ghost rid: nat)
      returns (r: int, wrote: nat, broke: bool)
      requires IsLocal(St(), a) && PeerUsable(St(), a)
      modifies this`socks, this`live, this`closing, this`trans, this`logs
      ensures wrote <= |payload|
      ensures r == 0 <==> old(socks[a].l.queue) == [] && wrote == |payload|
      ensures r == 0 ==> St() == Update(old(St()), a, old(socks[a].l), Received(old(logs[a]), payload, wrote))
      ensures r != 0 ==> St() == Enqueue(old(St()), a, t, rid, payload, wrote, broke)
    {
      ghost var st0 := St();
      r, wrote, broke := 1, 0, false;
      if socks[a].l.queue == [] {
        wrote, broke := WriteNow(a, payload);
        if wrote == |payload| { r := 0; return; }
        if broke {
          logs := logs[a := logs[a].(failed := true)];
          assert St() == Update(st0, a, st0.socks[a].l, Received(st0.logs[a], payload, wrote).(failed := true));
          CloseLocked(a);
          return;
        }
        socks := socks[a := Local(socks[a].l.(queue := [payload[wrote..]], wantWrite := true))];
      } else {
        logs := logs[a := logs[a].(writesIn := logs[a].writesIn + 1, accepted := logs[a].accepted + payload)];
        socks := socks[a := Local(socks[a].l.(queue := socks[a].l.queue + [payload], wantWrite := true))];
      }
    }

    // ---------- descriptor events ----------

    /** The outer write loop of local_socket_event_func: packets leave the queue as the descriptor takes
        their bytes, until the queue is empty, the descriptor would block, or a write fails. */
    method DrainQueue(a: Addr) returns (wrote: nat, failed: bool)
      requires IsLocal(St(), a) && a in logs
      modifies this`socks, this`logs
      ensures wrote <= |Concat(old(socks[a].l.queue))|
      ensures failed ==> wrote < |Concat(old(socks[a].l.queue))|
      ensures St() == Drained(old(St()), a, wrote)
    {
      ghost var st0 := St();
      wrote, failed := 0, false;
      DrainStarts(st0, a);
      while socks[a].l.queue != []
        invariant MidDrain(st0, St(), a, wrote) && !failed
        decreases |socks[a].l.queue|
      {
        var stuck;
        wrote, stuck, failed := WriteHead(a, wrote, st0);
        if stuck { return; }
        HeadPops(st0.socks[a].l.queue, socks[a].l.queue, wrote);
        socks := socks[a := Local(socks[a].l.(queue := socks[a].l.queue[1..]))];
      }
      QueueIsDone(st0.socks[a].l.queue, wrote);
    }

    /** The inner write loop: the packet at the head of the queue. */
    method WriteHead(a: Addr, before: nat, ghost st0: State) returns (wrote: nat, stuck: bool, failed: bool)
      requires MidDrain(st0, St(), a, before) && socks[a].l.queue != []
      modifies this`socks, this`logs
      ensures MidDrain(st0, St(), a, wrote) && |socks[a].l.queue| == |old(socks[a].l.queue)|
      ensures !stuck ==> socks[a].l.queue[0] == []
      ensures stuck ==> St() == Drained(st0, a, wrote) && wrote < |Concat(st0.socks[a].l.queue)|
      ensures failed ==> stuck
    {
      wrote, stuck, failed := before, false, false;
      while |socks[a].l.queue[0]| > 0
        invariant MidDrain(st0, St(), a, wrote) && |socks[a].l.queue| == |old(socks[a].l.queue)|
        decreases |socks[a].l.queue[0]|
      {
        ghost var was := St();
        var q := socks[a].l.queue;
        var w := AdbWrite(|q[0]|);
        if w.Took? {
          socks := socks[a := Local(socks[a].l.(queue := [q[0][w.n..]] + q[1..]))];
          logs := logs[a := logs[a].(written := logs[a].written + q[0][..w.n])];
          DrainAdvances(st0, was, St(), a, wrote, w.n);
          wrote := wrote + w.n;
        } else {
          HeadIsStuck(st0.socks[a].l.queue, q, wrote);
          stuck, failed := true, w.WriteFails?;
          return;
        }
      }
    }

    /** The WRITE half of local_socket_event_func. */
    method OnSocketWritable(a: Addr) returns (go: bool, wrote: nat, failed: bool)
      requires IsLocal(St(), a) && PeerUsable(St(), a) && (!socks[a].l.closing ==> socks[a].l.peer.Some?)
      modifies this`socks, this`live, this`closing, this`trans, this`logs
      ensures wrote <= |Concat(old(socks[a].l.queue))|
      ensures OnWritable(old(St()), a, wrote, failed) == (St(), go)
    {
      ghost var st0 := St();
      wrote, failed := DrainQueue(a);
      AfterWritingFacts(st0.socks[a].l.queue, wrote);
      if failed {
        logs := logs[a := logs[a].(failed := true)];
        assert St() == Update(st0, a, socks[a].l, logs[a]);
        CloseLocked(a);
        return false, wrote, failed;
      }
      if socks[a].l.queue != [] { return false, wrote, failed; }
      if socks[a].l.closing {
        CloseLocked(a);
        return false, wrote, failed;
      }
      socks := socks[a := Local(socks[a].l.(wantWrite := false))];
      var p := socks[a].l.peer.value;
      if socks[p].Remote? {
        logs := Emit(St(), a, Msg(OKAY, socks[a].l.id, socks[p].r.id, [], socks[p].r.transport)).logs;
      }
      assert St() == Update(st0, a, socks[a].l, logs[a]);
      go := true;
    }

    /** The read loop of local_socket_event_func. */
    method ReadSome() returns (data: Bytes, hangup: bool)
      ensures |data| <= MAX_PAYLOAD
    {
      data, hangup := [], false;
      while |data| < MAX_PAYLOAD
        invariant |data| <= MAX_PAYLOAD
        decreases MAX_PAYLOAD - |data|
      {
        var r := AdbRead(MAX_PAYLOAD - |data|);
        if r.Got? {
          data := data + r.data;
        } else {
          hangup := r.ReadEnds?;
          break;
        }
      }
    }

    /** The peer's enqueue: remote_socket_enqueue sends WRTE; smart_socket_enqueue waits, refuses by
        closing both ends, or lets go of the local socket and asks for the service. */
    method EnqueueToPeer(a: Addr, data: Bytes, found: Acquired) returns (r: int)
      requires Inv(St()) && Talks(St(), a) && |data| <= MAX_PAYLOAD
      modifies this`socks, this`live, this`closing, this`trans, this`logs
      ensures PassOn(old(St()), a, data, found) == (St(), r)
    {
      InvSplits(St(), a);
      assert Paired(St(), a);
      var p := socks[a].l.peer.value;
      if socks[p].Remote? {
        logs := Emit(St(), a, Msg(WRTE, socks[a].l.id, socks[p].r.id, data, socks[p].r.transport)).logs;
        socks := socks[a := Local(socks[a].l.(wantRead := false))];
        r := 1;
      } else {
        r := EnqueueToSmart(a, p, data, found);
      }
    }

    /** smart_socket_enqueue. */
    method EnqueueToSmart(a: Addr, p: Addr, data: Bytes, found: Acquired) returns (r: int)
      requires Inv(St()) && Talks(St(), a) && |data| <= MAX_PAYLOAD
      requires socks[a].l.peer == Some(p) && p in socks && socks[p].Smart?
      modifies this`socks, this`live, this`closing, this`trans, this`logs
      ensures PassOn(old(St()), a, data, found) == (St(), r)
    {
      hide SmartSocket.Fed, GraphOk, StreamsOk;
      InvSplits(St(), a);
      var o := SmartSocket.EnqueueOnto(socks[p].pending, data, found.lookup);
      match o
      case Waiting =>
        socks := socks[p := Smart(socks[p].owner, socks[p].pending + data)];
        r := 0;
      case Failed(_) =>
        CloseLocked(a);
        r := -1;
      case Opened(service) =>
        ForwardToRemote(a, p, found.t, service);
        r := 1;
    }

    /** connect_to_remote: OPEN with the service and its NUL, for a socket its smart peer lets go. */
    method ForwardToRemote(a: Addr, p: Addr, t: Tid, service: Bytes)
      requires IsLocal(St(), a) && a in logs && socks[a].l.peer == Some(p) && p != a
      modifies this`socks, this`logs
      ensures St() == ForwardOpen(old(St()), a, t, service + [0])
    {
      ghost var st0 := St();
      logs := Emit(St(), a, Msg(OPEN, socks[a].l.id, 0, service + [0], t)).logs;
      var s := socks[a].l.(peer := None, transport := Some(t), notify := true, wantRead := false);
      socks := socks[a := Local(s)];
      socks := socks - {p};
      assert socks == ForwardOpen(st0, a, t, service + [0]).socks;
    }

    /** The READ half of local_socket_event_func; `forced` is fde.force_eof. */
    method OnSocketReadable(a: Addr, forced: bool, found: Acquired) returns (data: Bytes, eof: bool)
      requires Inv(St()) && Talks(St(), a)
      modifies this`socks, this`live, this`closing, this`trans, this`logs
      ensures |data| <= MAX_PAYLOAD
      ensures St() == OnReadable(old(St()), a, data, eof, forced, found)
    {
      data, eof := ReadSome();
      var r := 1;
      if data != [] { r := EnqueueToPeer(a, data, found); }
      if r >= 0 && (eof || (forced && r == 0)) {
        CloseLive(St(), a, true);
        CloseLocked(a);
      }
    }

    method OnSocketEvent(a: Addr, write: bool, read: bool, forced: bool, found: Acquired)
      returns (ghost wrote: nat, ghost failed: bool, ghost data: Bytes, ghost eof: bool)
      requires Inv(St()) && Enabled(St(), SocketEvent(a, write, 0, false, read, [], false, forced, found))
      modifies this`socks, this`live, this`closing, this`trans, this`logs
      ensures Enabled(old(St()), SocketEvent(a, write, wrote, failed, read, data, eof, forced, found))
      ensures St() == OnEvent(old(St()), a, write, wrote, failed, read, data, eof, forced, found)
    {
      wrote, failed, data, eof := 0, false, [], false;
      InvSplits(St(), a);
      var go := true;
      if write {
        ghost var st0 := St();
        var n, f;
        go, n, f := OnSocketWritable(a);
        wrote, failed := n, f;
        WritableLeadsOn(st0, a, n, f);
      }
      if read && go {
        var d, h := OnSocketReadable(a, forced, found);
        data, eof := d, h;
      }
    }

    // ---------- packets and connections ----------

    /** install_local_socket: the next id, at the end of the live ring. */
    method CreateLocalSocket(a: Addr, peer: Addr, ghost byRemote: bool)
      requires nextId == NextId(St())
      modifies this`socks, this`live, this`nextId, this`installs, this`logs
      ensures nextId == NextId(St())
      ensures St() == old(St()).(
                socks := old(socks)[
                  a := Local(LocalSock(NextId(old(St())), false, Some(peer), [], true, false, None, false))],
                live := old(live) + [a], installs := old(installs) + 1,
                logs := old(logs)[a := StreamLog(old(installs) + 1, byRemote, [], 0, 0, [], [], false)])
    {
      socks := socks[a := Local(LocalSock(nextId, false, Some(peer), [], true, false, None, false))];
      live := live + [a];
      nextId := (nextId + 1) % ID_SPACE;
      installs := installs + 1;
      logs := logs[a := StreamLog(installs, byRemote, [], 0, 0, [], [], false)];
    }

    /** create_remote_socket and add_transport_disconnect. */
    method CreateRemoteSocket(r: Addr, rid: nat, peer: Addr, t: Tid)
      requires t in trans
      modifies this`socks, this`trans
      ensures St() == old(St()).(socks := old(socks)[r := Remote(RemoteSock(rid, Some(peer), t))],
                                 trans := old(trans)[t := old(trans[t]).(ring := old(trans[t]).ring + [r])])
    {
      socks := socks[r := Remote(RemoteSock(rid, Some(peer), t))];
      trans := trans[t := trans[t].(ring := trans[t].ring + [r])];
    }

    /** A_OPEN. */
    method HandleOpen(t: Tid, rid: nat, serviceFound: bool)
      requires Inv(St()) && nextId == NextId(St()) && t in trans
      modifies this`socks, this`live, this`nextId, this`nextAddr, this`trans, this`installs, this`logs, this`refusals
      ensures nextId == NextId(St())
      ensures St() == if !old(trans[t].online) then old(St())
                      else if serviceFound then OpenStream(old(St()), t, rid) else Refuse(old(St()), t, rid)
    {
      if !trans[t].online { return; }
      if !serviceFound {
        refusals := refusals + [Msg(CLSE, 0, rid, [], t)];
        return;
      }
      ghost var st0 := St();
      var a, r := nextAddr, nextAddr + 1;
      nextAddr := nextAddr + 2;
      var id := nextId;
      CreateLocalSocket(a, r, true);
      CreateRemoteSocket(r, rid, a, t);
      logs := logs[a := logs[a].(sent := logs[a].sent + [Msg(OKAY, id, rid, [], t)])];
      assert [] + [Msg(OKAY, id, rid, [], t)] == [Msg(OKAY, id, rid, [], t)];
      assert logs == OpenStream(st0, t, rid).logs;
    }

    /** A_OKAY for socket a: create_remote_socket if it has no peer yet, then s->ready(s). */
    method OkayTo(a: Addr, t: Tid, rid: nat)
      requires IsLocal(St(), a) && a in logs && t in trans && a != nextAddr
      modifies this`socks, this`trans, this`nextAddr, this`logs
      ensures St() == if old(socks[a].l.peer).None? then StartReading(AdoptRemote(old(St()), a, t, rid), a)
                      else StartReading(old(St()), a)
    {
      ghost var st0 := St();
      if socks[a].l.peer.None? {
        var r := nextAddr;
        nextAddr := nextAddr + 1;
        CreateRemoteSocket(r, rid, a, t);
        socks := socks[a := Local(socks[a].l.(peer := Some(r)))];
        assert socks == AdoptRemote(st0, a, t, rid).socks;
      }
      socks := socks[a := Local(socks[a].l.(wantRead := true, notify := false))];
      logs := logs[a := logs[a].(okaysIn := logs[a].okaysIn + 1)];
    }

    /** A_OKAY. */
    method HandleOkay(t: Tid, rid: nat, lid: nat)
      requires Inv(St()) && t in trans
      modifies this`socks, this`trans, this`nextAddr, this`logs
      ensures St() == OnOkay(old(St()), t, rid, lid)
    {
      if !trans[t].online { return; }
      var found := FindLocalSocket(lid);
      if found.None? { return; }
      InvSplits(St(), found.value);
      OkayTo(found.value, t, rid);
    }

    /** A_CLSE. */
    method HandleClose(t: Tid, lid: nat)
      requires Inv(St()) && t in trans
      modifies this`socks, this`live, this`closing, this`trans, this`logs
      ensures St() == OnClose(old(St()), t, lid)
    {
      if !trans[t].online { return; }
      var found := FindLocalSocket(lid);
      if found.None? { return; }
      InvSplits(St(), found.value);
      CloseLocked(found.value);
    }

    /** A_WRTE for socket a: s->enqueue(s, p), and send_ready if it took everything. */
    method WriteTo(a: Addr, t: Tid, rid: nat, payload: Bytes) returns (wrote: nat, broke: bool)
      requires IsLocal(St(), a) && PeerUsable(St(), a)
      modifies this`socks, this`live, this`closing, this`trans, this`logs
      ensures wrote <= |payload|
      ensures St() == Enqueue(old(St()), a, t, rid, payload, wrote, broke)
    {
      var r;
      r, wrote, broke := LocalSocketEnqueue(a, payload, t, rid);
      if r == 0 {
        logs := logs[a := logs[a].(sent := logs[a].sent + [Msg(OKAY, socks[a].l.id, rid, [], t)])];
      }
    }

    /** A_WRTE. */
    method HandleWrite(t: Tid, rid: nat, lid: nat, payload: Bytes) returns (wrote: nat, broke: bool)
      requires Inv(St()) && t in trans
      modifies this`socks, this`live, this`closing, this`trans, this`logs
      ensures wrote <= |payload|
      ensures St() == OnWrite(old(St()), t, rid, lid, payload, wrote, broke)
    {
      wrote, broke := 0, false;
      if !trans[t].online { return; }
      var found := FindLocalSocket(lid);
      if found.None? { return; }
      InvSplits(St(), found.value);
      wrote, broke := WriteTo(found.value, t, rid, payload);
    }

    /** A_CNXN, with authentication off; `conn` is what parse_banner reads from the banner. */
    method HandleConnect(t: Tid, conn: ConnState)
      requires Inv(St()) && t in trans
      modifies this`socks, this`live, this`closing, this`trans
      ensures St() == OnConnect(old(St()), t, conn)
    {
      if trans[t].conn != Offline { GoesOffline(t); }
      SetConnected(t, conn);
    }

    /** parse_banner's connection state, then handle_online. */
    method SetConnected(t: Tid, conn: ConnState)
      requires t in trans
      modifies this`trans
      ensures St() == SetLink(old(St()), t, conn, true)
    {
      trans := trans[t := trans[t].(conn := conn)];
      trans := trans[t := trans[t].(online := true)];
      LinkTwice(old(St()), St(), t, conn, true);
    }

    /** The part of handle_packet that acts on the link itself: SYNC(0) and CNXN. */
    method HandleLinkPacket(p: Packet, t: Tid, conn: ConnState)
      requires Inv(St()) && t in trans
      modifies this`socks, this`live, this`closing, this`trans
      ensures St() == if p.command == A_SYNC then GoOffline(old(St()), t) else OnConnect(old(St()), t, conn)
    {
      if p.command == A_SYNC { GoesOffline(t); } else { HandleConnect(t, conn); }
    }

    /** The part that acts on a stream: OKAY, CLSE and WRTE. */
    method HandleStreamPacket(p: Packet, t: Tid) returns (ghost wrote: nat, ghost broke: bool)
      requires Inv(St()) && t in trans
      modifies this`socks, this`live, this`closing, this`trans, this`nextAddr, this`logs
      ensures wrote <= |p.data|
      ensures St() == if p.command == A_OKAY then OnOkay(old(St()), t, p.arg0, p.arg1)
                      else if p.command == A_CLSE then OnClose(old(St()), t, p.arg1)
                      else OnWrite(old(St()), t, p.arg0, p.arg1, p.data, wrote, broke)
    {
      wrote, broke := 0, false;
      if p.command == A_OKAY {
        HandleOkay(t, p.arg0, p.arg1);
      } else if p.command == A_CLSE {
        HandleClose(t, p.arg1);
      } else {
        var w, b := HandleWrite(t, p.arg0, p.arg1, p.data);
        wrote, broke := w, b;
      }
    }

    /** The switch of handle_packet, as far as it concerns the sockets. */
    method OnPacket(p: Packet, t: Tid, serviceFound: bool, conn: ConnState)
      returns (ghost wrote: nat, ghost broke: bool)
      requires Inv(St()) && nextId == NextId(St()) && t in trans
      requires Expected(St(), PacketStep(p, t, serviceFound, conn, 0, false))
      modifies this`socks, this`live, this`closing, this`nextId, this`nextAddr, this`trans, this`installs
      modifies this`logs, this`refusals
      ensures nextId == NextId(St())
      ensures var step := PacketStep(p, t, serviceFound, conn, wrote, broke);
        if step.None? then St() == old(St())
        else Enabled(old(St()), step.value) && St() == Do(old(St()), step.value)
    {
      hide GraphOk, StreamsOk, OnOkay, OnClose, OnWrite, GoOffline, OnConnect, OpenStream, Refuse;
      wrote, broke := 0, false;
      if p.command == A_CNXN || (p.command == A_SYNC && p.arg0 == 0) {
        HandleLinkPacket(p, t, conn);
      } else if p.command == A_OPEN {
        HandleOpen(t, p.arg0, serviceFound);
      } else if p.command == A_OKAY || p.command == A_CLSE || p.command == A_WRTE {
        wrote, broke := HandleStreamPacket(p, t);
      }
    }

    /** The READ half on a parked socket, which no longer watches for it: the bytes are dropped. */
    method OnLateRead(a: Addr) returns (data: Bytes, eof: bool)
      requires Inv(St()) && a in closing
      modifies this`socks, this`live, this`closing, this`trans, this`logs
      ensures old(IsLocal(St(), a) && PeerUsable(St(), a) && !HasSmartPeer(St(), a))
      ensures St() == LateRead(old(St()), a, data, eof)
    {
      InvSplits(St(), a);
      data, eof := ReadSome();
      if eof { CloseLocked(a); }
    }

    // ---------- the callbacks, as steps of a schedule ----------

    /** handle_packet, with authentication off and HOST 0: a packet that concerns the sockets is the next
        step of the schedule, any other leaves them alone. */
    method HandlePacket(p: Packet, t: Tid, serviceFound: bool, conn: ConnState)
      returns (ghost wrote: nat, ghost broke: bool)
      requires Valid() && t in trans
      requires Expected(St(), PacketStep(p, t, serviceFound, conn, 0, false))
      modifies this
      ensures Valid()
      ensures var step := PacketStep(p, t, serviceFound, conn, wrote, broke);
        if step.None? then St() == old(St()) && steps == old(steps)
        else Enabled(old(St()), step.value) && steps == old(steps) + [step.value]
    {
      hide Do, Inv, After, Enabled;
      RunKeepsInv(steps);
      ghost var st0 := St();
      wrote, broke := OnPacket(p, t, serviceFound, conn);
      ghost var step := PacketStep(p, t, serviceFound, conn, wrote, broke);
      if step.Some? {
        Taken(steps, step.value);
        steps := steps + [step.value];
      }
    }

    /** local_socket_event_func, called with events the socket watches. */
    method LocalSocketEventFunc(a: Addr, write: bool, read: bool, forced: bool, found: Acquired)
      returns (ghost wrote: nat, ghost failed: bool, ghost data: Bytes, ghost eof: bool)
      requires Valid() && Enabled(St(), SocketEvent(a, write, 0, false, read, [], false, forced, found))
      modifies this
      ensures Valid() && Enabled(old(St()), SocketEvent(a, write, wrote, failed, read, data, eof, forced, found))
      ensures steps == old(steps) + [SocketEvent(a, write, wrote, failed, read, data, eof, forced, found)]
    {
      hide Inv, After, Enabled, OnEvent;
      RunKeepsInv(steps);
      wrote, failed, data, eof := OnSocketEvent(a, write, read, forced, found);
      ghost var step := SocketEvent(a, write, wrote, failed, read, data, eof, forced, found);
      Taken(steps, step);
      steps := steps + [step];
    }

    /** ss_listener_event_func and connect_to_smartsocket. */
    method AcceptConnection()
      requires Valid()
      modifies this
      ensures Valid() && steps == old(steps) + [Accept]
    {
      hide Inv, After;
      RunKeepsInv(steps);
      var a, p := nextAddr, nextAddr + 1;
      nextAddr := nextAddr + 2;
      CreateLocalSocket(a, p, false);
      socks := socks[p := Smart(Some(a), [])];
      assert St() == AcceptStream(old(St()));
      Taken(steps, Accept);
      steps := steps + [Accept];
    }

    /** input_thread's call of close_all_sockets. */
    method CloseTransportSockets(t: Tid)
      requires Valid()
      modifies this
      ensures Valid() && steps == old(steps) + [CloseAll(t)]
    {
      hide Inv, After, CloseTouching;
      RunKeepsInv(steps);
      CloseAllSockets(t);
      Taken(steps, CloseAll(t));
      steps := steps + [CloseAll(t)];
    }

    /** transport_registration_func for a new transport; without permission it gets no threads. */
    method RegisterTransport(t: Tid, writable: bool)
      requires Valid() && t !in trans
      modifies this
      ensures Valid() && steps == old(steps) + [Register(t, writable)] && t in trans
    {
      hide Inv, After;
      RunKeepsInv(steps);
      trans := trans[t := Transport(if writable then Offline else NoPerm, false, [])];
      Taken(steps, Register(t, writable));
      steps := steps + [Register(t, writable)];
    }

    /** transport_registration_func for a removal: the remaining disconnects run and the transport goes. */
    method UnregisterTransport(t: Tid)
      requires Valid() && t in trans
      modifies this
      ensures Valid() && steps == old(steps) + [Unregister(t)] && t !in trans
    {
      hide Inv, After, RunDisconnects;
      RunKeepsInv(steps);
      ghost var st0 := St();
      SameLink(st0, t);
      RunTransportDisconnects(t, st0);
      SameLink(RunDisconnects(st0, t), t);
      trans := trans - {t};
      Taken(steps, Unregister(t));
      steps := steps + [Unregister(t)];
    }

    /** An accepted connection's request has the fate the reassembler gives it. */
    lemma RequestPromise(a: Addr)
      requires Valid() && a in logs && !logs[a].byRemote
      ensures SocketRequests.Fate(St(), a, SocketRequests.Pieces(steps, a), SocketRequests.LastFound(steps, a))
    {
      SocketRequests.RequestIsJudged(steps, a);
    }

    /** What the run theorems say of the object itself. */
    lemma Promises(a: Addr)
      requires Valid() && a in logs && logs[a].byRemote
      ensures AnswersOpen(logs[a].sent)
      ensures IsLocal(St(), a) ==>
        var s := socks[a].l;
        && Count(logs[a].sent, OKAY) + Bit(s.wantWrite) <= logs[a].writesIn + 1
        && Count(logs[a].sent, WRTE) + Bit(s.wantRead) <= logs[a].okaysIn + 1
        && logs[a].accepted == logs[a].written + Concat(s.queue)
      ensures !IsLocal(St(), a) && !logs[a].failed ==> logs[a].accepted == logs[a].written
      ensures a in live ==> IsLocal(St(), a)
      ensures a in live ==>
        var s, h := socks[a].l, SocketTraffic.History(steps, a);
        && Count(logs[a].sent, OKAY) + Bit(s.wantWrite) + SocketLedger.Joined(steps, a) == h.writes + 1
        && Count(logs[a].sent, WRTE) + Bit(s.wantRead) + SocketLedger.Idled(steps, a) == h.okays + 1
    {
      hide After, Count, SocketTraffic.History, SocketLedger.Joined, SocketLedger.Idled;
      if a in live { SocketLedger.AccountsAreEven(steps, a); }
      StreamAnswersOpen(steps, [], a);
      NoByteIsLost(steps, a);
      if IsLocal(St(), a) { Credit(steps, a); }
    }
  }

  lemma SameLink(st: State, t: Tid)
    requires t in st.trans
    ensures SetLink(st, t, st.trans[t].conn, st.trans[t].online) == st
  {
    assert SetLink(st, t, st.trans[t].conn, st.trans[t].online).trans == st.trans;
  }

  ghost predicate Expected(st: State, step: Option<Step>) { step.Some? ==> Enabled(st, step.value) }

  /** The step a packet causes.  SYNC with a non-zero arg0 is echoed, AUTH is answered and anything else
      is dropped without touching a socket. */
  function PacketStep(p: Packet, t: Tid, serviceFound: bool, conn: ConnState, wrote: nat, broke: bool): Option<Step> {
    if p.command == A_SYNC then (if p.arg0 == 0 then Some(RecvOffline(t)) else None)
    else if p.command == A_CNXN then Some(RecvConnect(t, conn))
    else if p.command == A_OPEN then Some(RecvOpen(t, p.arg0, serviceFound))
    else if p.command == A_OKAY then Some(RecvOkay(t, p.arg0, p.arg1))
    else if p.command == A_CLSE then Some(RecvClose(t, p.arg1))
    else if p.command == A_WRTE then Some(RecvWrite(t, p.arg0, p.arg1, p.data, wrote, broke))
    else None
  }

  lemma WritableLeadsOn(st: State, a: Addr, wrote: nat, failed: bool)
    requires Inv(st) && IsLocal(st, a) && PeerUsable(st, a) && wrote <= |Concat(st.socks[a].l.queue)|
    requires st.socks[a].l.wantWrite
    ensures st.socks[a].l.wantRead && OnWritable(st, a, wrote, failed).1 ==>
              Inv(OnWritable(st, a, wrote, failed).0) && Talks(OnWritable(st, a, wrote, failed).0, a)
  {
    if st.socks[a].l.wantRead && OnWritable(st, a, wrote, failed).1 { EventReady(st, a, wrote, failed); }
  }

  ghost predicate MidDrain(st0: State, st: State, a: Addr, wrote: nat) {
    && IsLocal(st0, a) && a in st0.logs && IsLocal(st, a) && a in st.logs
    && Progress(st0.socks[a].l.queue, st.socks[a].l.queue, wrote)
    && st == Draining(st0, a, st.socks[a].l.queue, wrote)
  }

  lemma DrainAdvances(st0: State, st: State, st': State, a: Addr, wrote: nat, n: nat)
    requires MidDrain(st0, st, a, wrote) && st.socks[a].l.queue != [] && n <= |st.socks[a].l.queue[0]|
    requires var q := st.socks[a].l.queue;
      st' == Update(st, a, st.socks[a].l.(queue := [q[0][n..]] + q[1..]),
                    st.logs[a].(written := st.logs[a].written + q[0][..n]))
    ensures MidDrain(st0, st', a, wrote + n)
  {
    HeadAdvances(st0.socks[a].l.queue, st.socks[a].l.queue, wrote, n);
    var q0, q := st0.socks[a].l.queue, st.socks[a].l.queue;
    assert st'.logs[a].written == st0.logs[a].written + Concat(q0)[..wrote + n];
    assert st'.socks == Draining(st0, a, st'.socks[a].l.queue, wrote + n).socks;
    assert st'.logs == Draining(st0, a, st'.socks[a].l.queue, wrote + n).logs;
  }

  /** Part way through a drain: `wrote` bytes are out and the queue is q. */
  ghost function Draining(st: State, a: Addr, q: seq<Bytes>, wrote: nat): State
    requires IsLocal(st, a) && a in st.logs && wrote <= |Concat(st.socks[a].l.queue)|
  {
    Update(st, a, st.socks[a].l.(queue := q),
           st.logs[a].(written := st.logs[a].written + Concat(st.socks[a].l.queue)[..wrote]))
  }

  ghost function Drained(st: State, a: Addr, wrote: nat): State
    requires IsLocal(st, a) && a in st.logs && wrote <= |Concat(st.socks[a].l.queue)|
  {
    Draining(st, a, AfterWriting(st.socks[a].l.queue, wrote), wrote)
  }

  ghost predicate Progress(q0: seq<Bytes>, q: seq<Bytes>, wrote: nat) {
    && wrote <= |Concat(q0)|
    && Concat(q) == Concat(q0)[wrote..]
    && AfterWriting(q, 0) == AfterWriting(q0, wrote)
  }

  lemma DrainStarts(st: State, a: Addr)
    requires IsLocal(st, a) && a in st.logs
    ensures Progress(st.socks[a].l.queue, st.socks[a].l.queue, 0)
    ensures st == Draining(st, a, st.socks[a].l.queue, 0)
  {
    assert st.logs[a].written + Concat(st.socks[a].l.queue)[..0] == st.logs[a].written;
    assert st.socks == st.socks[a := Local(st.socks[a].l)];
    assert st.logs == st.logs[a := st.logs[a]];
  }

  lemma {:induction false} WritingComposes(q: seq<Bytes>, n: nat, m: nat)
    requires n + m <= |Concat(q)|
    ensures AfterWriting(AfterWriting(q, n), m) == AfterWriting(q, n + m)
  {
    if q != [] {
      if n >= |q[0]| {
        WritingComposes(q[1..], n - |q[0]|, m);
      } else {
        var q1 := AfterWriting(q, n);
        assert q1[0] == q[0][n..] && q1[1..] == q[1..];
        assert m < |q1[0]| ==> q[0][n..][m..] == q[0][n + m..];
      }
    }
  }

  lemma HeadAdvances(q0: seq<Bytes>, q: seq<Bytes>, wrote: nat, n: nat)
    requires Progress(q0, q, wrote) && q != [] && n <= |q[0]|
    ensures Progress(q0, [q[0][n..]] + q[1..], wrote + n)
    ensures Concat(q0)[..wrote + n] == Concat(q0)[..wrote] + q[0][..n]
  {
    var q1 := [q[0][n..]] + q[1..];
    assert q1[0] == q[0][n..] && q1[1..] == q[1..];
    assert Concat(q) == q[0] + Concat(q[1..]);
    assert Concat(q1) == q[0][n..] + Concat(q[1..]);
    assert Concat(q1) == Concat(q)[n..];
    assert Concat(q0)[wrote..][n..] == Concat(q0)[wrote + n..];
    assert Concat(q0)[wrote..wrote + n] == Concat(q)[..n];
    WritingComposes(q0, wrote, n);
    WritingComposes(q, 0, n);
  }

  lemma HeadPops(q0: seq<Bytes>, q: seq<Bytes>, wrote: nat)
    requires Progress(q0, q, wrote) && q != [] && q[0] == []
    ensures Progress(q0, q[1..], wrote)
  {
    assert Concat(q) == Concat(q[1..]);
  }

  lemma HeadIsStuck(q0: seq<Bytes>, q: seq<Bytes>, wrote: nat)
    requires Progress(q0, q, wrote) && q != [] && q[0] != []
    ensures q == AfterWriting(q0, wrote) && wrote < |Concat(q0)|
  {
    assert q == [q[0][0..]] + q[1..];
    assert |Concat(q)| > 0;
  }

  lemma QueueIsDone(q0: seq<Bytes>, wrote: nat)
    requires Progress(q0, [], wrote)
    ensures AfterWriting(q0, wrote) == [] && wrote == |Concat(q0)|
  {
  }

  /** The log of a stream that took a WRTE of which the descriptor has taken the first n bytes. */
  ghost function Received(l: StreamLog, payload: Bytes, n: nat): StreamLog
    requires n <= |payload|
  {
    l.(writesIn := l.writesIn + 1, accepted := l.accepted + payload, written := l.written + payload[..n])
  }

  lemma LinkTwice(st: State, st': State, t: Tid, conn: ConnState, online: bool)
    requires t in st.trans
    requires st' == st.(trans := st.trans[t := st.trans[t].(conn := conn)]
                                         [t := st.trans[t].(conn := conn, online := online)])
    ensures t in st'.trans && st' == SetLink(st, t, conn, online)
    ensures st'.trans[t].conn == conn && st'.trans[t].online == online
  {
    assert st'.trans == SetLink(st, t, conn, online).trans;
  }

  ghost predicate Walking(st: State, t: Tid, goal: State) {
    Inv(st) && t in st.trans && RunDisconnects(st, t) == goal
  }

  lemma NothingLeft(st: State, t: Tid, goal: State)
    requires Walking(st, t, goal) && st.trans[t].ring == []
    ensures st == goal
  {
  }

  lemma CloseCommutesWithLink(st: State, a: Addr, t: Tid, conn: ConnState, online: bool)
    requires IsLocal(st, a) && PeerUsable(st, a) && t in st.trans
    requires st.socks[a].l.peer.Some? && st.socks[st.socks[a].l.peer.value].Remote?
    ensures var st1 := SetLink(st, t, conn, online);
      && IsLocal(st1, a) && PeerUsable(st1, a) && t in Close(st, a, false).trans
      && Close(st1, a, false) == SetLink(Close(st, a, false), t, conn, online)
  {
    var st1 := SetLink(st, t, conn, online);
    assert Close(st1, a, false).trans == SetLink(Close(st, a, false), t, conn, online).trans;
  }

  /** Running the first disconnect of the ring removes it from the ring and leaves the rest to run. */
  lemma DisconnectHead(st: State, t: Tid, goal: State, conn: ConnState, online: bool)
    requires Walking(st, t, goal) && st.trans[t].ring != []
    ensures var r := st.trans[t].ring[0];
      && r in st.socks && st.socks[r].Remote? && st.socks[r].r.transport in st.trans && st.socks[r].r.peer.Some?
      && var a := st.socks[r].r.peer.value;
      && IsLocal(st, a) && st.socks[a].l.peer == Some(r) && PeerUsable(SetLink(st, t, conn, online), a)
      && Walking(Disconnect(st, r), t, goal)
      && Disconnect(st, r).trans[t].ring == st.trans[t].ring[1..]
      && Close(SetLink(st, t, conn, online), a, false) == SetLink(Disconnect(st, r), t, conn, online)
  {
    assert TransportOk(st, t);
    var r := st.trans[t].ring[0];
    assert r in st.trans[t].ring;
    RemoteHasLivePeer(st, r);
    var a := st.socks[r].r.peer.value;
    CloseLive(st, a, false);
    WithoutHead(st.trans[t].ring, r);
    CloseCommutesWithLink(st, a, t, conn, online);
  }

  lemma LonelyClose(st: State, p: Addr)
    requires IsLocal(st, p) && PeerUsable(st, p) && st.socks[p].l.peer.None?
    ensures Close(st, p, true) == CloseAlone(st, p)
  {
  }

  /** Closing a local peer before or after the link to it is cleared comes to the same. */
  lemma CutLocalPeer(st: State, a: Addr, p: Addr)
    requires IsLocal(st, a) && PeerUsable(st, a) && st.socks[a].l.peer == Some(p) && st.socks[p].Local?
    ensures var st1 := CloseAlone(SetLocal(st, p, st.socks[p].l.(peer := None)), p);
      IsLocal(st1, a) && st1.socks[a] == st.socks[a] &&
      SetLocal(st1, a, st.socks[a].l.(peer := None)) == CutPeer(st, a, true)
  {
    var st1 := CloseAlone(SetLocal(st, p, st.socks[p].l.(peer := None)), p);
    assert SetLocal(st1, a, st.socks[a].l.(peer := None)).socks == CutPeer(st, a, true).socks;
  }

  /** What remains to be closed leads to the goal. */
  ghost predicate StillToClose(st: State, t: Tid, goal: State) {
    Inv(st) && CloseTouching(st, t) == goal
  }

  lemma NothingTouches(st: State, t: Tid, goal: State)
    requires StillToClose(st, t, goal)
    requires forall j :: 0 <= j < |st.live| ==> !Picks(st.socks, st.live[j], t)
    ensures st == goal
  {
    NoneTouching(st, st.live, t);
  }

  /** Closing one socket does not change whether another is bound to t. */
  lemma OthersStillTouch(st: State, st1: State, a: Addr, t: Tid)
    requires Inv(st) && IsLocal(st, a) && Spares(st, st1, [a])
    ensures forall b :: b in st.live && b != a ==> Touches(st1, b, t) == Touches(st, b, t)
  {
    forall b | b in st.live && b != a ensures Touches(st1, b, t) == Touches(st, b, t) {
      assert Paired(st, b);
      assert b in st1.live && b !in [a];
      assert b in st1.socks && st1.socks[b] == st.socks[b];
    }
  }

  /** Closing the first touching socket leaves exactly the others to close. */
  lemma CloseFirstTouching(st: State, i: nat, t: Tid)
    requires Inv(st) && i < |st.live| && Touches(st, st.live[i], t)
    requires forall j :: 0 <= j < i ==> !Touches(st, st.live[j], t)
    ensures var a := st.live[i];
      && IsLocal(st, a) && PeerUsable(st, a) && Inv(Close(st, a, true))
      && CloseTouching(Close(st, a, true), t) == CloseTouching(st, t)
      && |Close(st, a, true).live| < |st.live|
  {
    var a := st.live[i];
    assert a in st.live;
    CloseSpares(st, a);
    CloseShape(st, a, true);
    TouchingAfterClose(st, Close(st, a, true), i, t);
  }

  lemma TouchingAfterClose(st: State, st1: State, i: nat, t: Tid)
    requires Inv(st) && i < |st.live| && Touches(st, st.live[i], t)
    requires forall j :: 0 <= j < i ==> !Touches(st, st.live[j], t)
    requires Spares(st, st1, [st.live[i]]) && st1.live == Without(st.live, st.live[i])
    ensures Touching(st, st.live, t) == [st.live[i]] + Touching(st1, st1.live, t)
    ensures |st1.live| < |st.live|
  {
    var a := st.live[i];
    assert a in st.live;
    WithoutShorter(st.live, a);
    WithoutFacts(st.live, a);
    OthersStillTouch(st, st1, a, t);
    TouchingFirst(st, st.live, i, t);
    TouchingSame(st, st1, Without(st.live, a), t);
    TouchingWithout(st, st.live, a, t);
    WithoutHead(Touching(st, st.live, t), a);
  }

  lemma {:induction false} WithoutShorter(s: seq<Addr>, x: Addr)
    requires x in s
    ensures |Without(s, x)| < |s|
  {
    WithoutFacts(s[1..], x);
    if s[0] != x { WithoutShorter(s[1..], x); }
  }

  lemma {:induction false} TouchingFirst(st: State, ring: seq<Addr>, i: nat, t: Tid)
    requires i < |ring| && Touches(st, ring[i], t)
    requires forall j :: 0 <= j < i ==> !Touches(st, ring[j], t)
    ensures Touching(st, ring, t) != [] && Touching(st, ring, t)[0] == ring[i]
  {
    if i > 0 { TouchingFirst(st, ring[1..], i - 1, t); }
  }

  lemma {:induction false} TouchingSame(st: State, st1: State, ring: seq<Addr>, t: Tid)
    requires forall b :: b in ring ==> Touches(st1, b, t) == Touches(st, b, t)
    ensures Touching(st1, ring, t) == Touching(st, ring, t)
  {
    if ring != [] {
      assert forall b :: b in ring[1..] ==> b in ring;
      TouchingSame(st, st1, ring[1..], t);
    }
  }

  lemma {:induction false} TouchingWithout(st: State, ring: seq<Addr>, a: Addr, t: Tid)
    ensures Touching(st, Without(ring, a), t) == Without(Touching(st, ring, t), a)
  {
    if ring != [] { TouchingWithout(st, ring[1..], a, t); }
  }

  lemma WithoutHead(s: seq<Addr>, a: Addr)
    requires NoDup(s) && s != [] && s[0] == a
    ensures Without(s, a) == s[1..]
  {
    WithoutFacts(s[1..], a);
  }

  lemma {:induction false} NoneTouching(st: State, ring: seq<Addr>, t: Tid)
    requires forall j :: 0 <= j < |ring| ==> !Touches(st, ring[j], t)
    ensures Touching(st, ring, t) == []
  {
    if ring != [] { NoneTouching(st, ring[1..], t); }
  }
}
