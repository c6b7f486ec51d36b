/** The stream multiplexer as a transition system: the socket store, the two rings of local
    sockets, the transports with their disconnect rings, and one step per callback. */
module SocketModel {
  import opened Bytes
  import opened Rings
  import SmartSocket

  const ID_SPACE: nat := 0x1_0000_0000

  /** Where an asocket lives.  Addresses are never handed out twice, so an address also names
      a stream after the socket itself is gone. */
  type Addr = nat
  type Tid = nat

  datatype Command = OPEN | OKAY | WRTE | CLSE

  /** A packet handed to send_packet on behalf of a stream. */
  datatype Msg = Msg(command: Command, arg0: nat, arg1: nat, data: Bytes, via: Tid)

  datatype LocalSock = LocalSock(id: nat, closing: bool, peer: Option<Addr>, queue: seq<Bytes>,
                                 wantRead: bool, wantWrite: bool, transport: Option<Tid>,
                                 notify: bool)
  datatype RemoteSock = RemoteSock(id: nat, peer: Option<Addr>, transport: Tid)
  datatype Sock = Local(l: LocalSock) | Remote(r: RemoteSock) | Smart(owner: Option<Addr>, pending: Bytes)
  {
    function Peer(): Option<Addr> {
      match this
      case Local(l) => l.peer
      case Remote(r) => r.peer
      case Smart(o, _) => o
    }
  }

  datatype ConnState = Offline | Bootloader | Device | Host | Recovery | NoPerm | Sideload

  datatype Transport = Transport(conn: ConnState, online: bool, ring: seq<Addr>)

  /** What has happened on a stream so far: its install number, whether a remote OPEN created it,
      the packets sent for it, the OKAY and WRTE packets handled for it, the payload bytes it took
      and the payload bytes its descriptor took, and whether a write on it ever failed. */
  datatype StreamLog = StreamLog(serial: nat, byRemote: bool, sent: seq<Msg>, okaysIn: nat,
                                 writesIn: nat, accepted: Bytes, written: Bytes, failed: bool)

  datatype State = State(socks: map<Addr, Sock>, live: seq<Addr>, closing: seq<Addr>,
                         installs: nat, nextAddr: Addr, trans: map<Tid, Transport>,
                         logs: map<Addr, StreamLog>, refusals: seq<Msg>)

  /** What looking for a transport gives: the answer, and which transport if one was found. */
  datatype Acquired = Acquired(lookup: SmartSocket.Lookup, t: Tid)

  const INIT := State(map[], [], [], 0, 0, map[], map[], [])

  // ---------- small helpers ----------

  predicate IsLocal(st: State, a: Addr) {
    a in st.socks && st.socks[a].Local?
  }

  /** The queue once its first n bytes are written: finished packets are popped, and so are the
      empty packets behind them. */
  function AfterWriting(queue: seq<Bytes>, n: nat): seq<Bytes> {
    if queue == [] then []
    else if n >= |queue[0]| then AfterWriting(queue[1..], n - |queue[0]|)
    else [queue[0][n..]] + queue[1..]
  }

  function FindFrom(st: State, ring: seq<Addr>, id: nat): (found: Option<Addr>)
    ensures found.Some? ==> found.value in ring && IsLocal(st, found.value) && st.socks[found.value].l.id == id
    ensures found.None? ==> forall a :: a in ring && IsLocal(st, a) ==> st.socks[a].l.id != id
  {
    if ring == [] then None
    else if IsLocal(st, ring[0]) && st.socks[ring[0]].l.id == id then Some(ring[0])
    else FindFrom(st, ring[1..], id)
  }

  function SetLocal(st: State, a: Addr, s: LocalSock): State {
    st.(socks := st.socks[a := Local(s)])
  }

  function SetLog(st: State, a: Addr, l: StreamLog): State {
    st.(logs := st.logs[a := l])
  }

  function Emit(st: State, a: Addr, m: Msg): State
    requires a in st.logs
  {
    SetLog(st, a, st.logs[a].(sent := st.logs[a].sent + [m]))
  }

  // ---------- closing ----------

  /** remove_transport_disconnect and free, for a remote socket. */
  function DropRemote(st: State, p: Addr): State
    requires p in st.socks && st.socks[p].Remote? && st.socks[p].r.transport in st.trans
  {
    var t := st.socks[p].r.transport;
    st.(socks := st.socks - {p},
        trans := st.trans[t := st.trans[t].(ring := Without(st.trans[t].ring, p))])
  }

  /** Second half of local_socket_close_locked, once the socket has no peer: destroy it, or park
      it on the closing ring while bytes are still queued. */
  function CloseAlone(st: State, a: Addr): State
    requires IsLocal(st, a)
  {
    var s := st.socks[a].l;
    if s.closing || s.queue == [] then
      st.(socks := st.socks - {a}, live := Without(st.live, a), closing := Without(st.closing, a))
    else
      st.(socks := st.socks[a := Local(s.(closing := true, wantRead := false, id := 0))],
          live := Without(st.live, a), closing := Without(st.closing, a) + [a])
  }

  predicate PeerUsable(st: State, a: Addr)
    requires IsLocal(st, a)
  {
    var s := st.socks[a].l;
    && a in st.logs
    && (s.peer.Some? ==>
          && s.peer.value in st.socks
          && s.peer.value != a
          && (st.socks[s.peer.value].Remote? ==> st.socks[s.peer.value].r.transport in st.trans)
          && (st.socks[s.peer.value].Local? ==> s.peer.value in st.logs))
  }

  /** First half of local_socket_close_locked: the peer is cut off and closed.  A remote peer sends
      CLSE; its own peer field is already clear, so arg0 is 0. */
  function CutPeer(st: State, a: Addr, announce: bool): State
    requires IsLocal(st, a) && PeerUsable(st, a)
  {
    var s := st.socks[a].l;
    if s.peer.None? then st
    else
      var p := s.peer.value;
      var st1 := SetLocal(st, a, s.(peer := None));
      match st.socks[p]
      case Remote(r) =>
        DropRemote(if announce then Emit(st1, a, Msg(CLSE, 0, r.id, [], r.transport)) else st1, p)
      case Smart(_, _) => st1.(socks := st1.socks - {p})
      case Local(l) => CloseAlone(SetLocal(st1, p, l.(peer := None)), p)
  }

  /** local_socket_close_locked when `announce`; with `announce` false, what remote_socket_disconnect
      does to its local peer and itself: the same, with no CLSE. */
  function Close(st: State, a: Addr, announce: bool): State
    requires IsLocal(st, a) && PeerUsable(st, a)
  {
    CloseAlone(CutPeer(st, a, announce), a)
  }
}
