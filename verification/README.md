# adbd: multiplexer, transports, event loop and codecs

A Dafny model of the core of a small Android Debug Bridge daemon. It covers five parts:

- **Stream multiplexer** (`sockets.c`, `handle_packet`). `SocketModel` and `SocketSteps` give the state and the
  effect of every callback as functions; `SocketInvariant` says what each keeps; `SocketRuns` runs any schedule of
  callbacks from the empty daemon; `SocketEffects` states what each packet and event does between a schedule and the
  schedule one step longer; `SocketTheorems`, `SocketTraffic`, `SocketLedger`, `SocketRequests` and `SocketLinks` state
  what holds after every schedule, and `SocketLateReads` what calls outside a schedule would do. `SocketMux` holds the
  imperative form: a class whose methods change the rings, queues, peers and disconnect rings in place, with the source's loops. Its
  validity says that its fields are where the schedule of its calls leads, and every callback appends one step.
- **Transport lifecycle** (`transport.c`). `TransportThreads` interleaves the output thread, the input thread and the
  main loop, one step for each locked region, channel operation or call.
- **Event loop** (`fdevent.c`). `FdBits` says what the arithmetic on packed words does to masks and flags;
  `FdEvents` is the loop, on events that hold those words: the pending ring, the epoll set, the descriptor table,
  and callbacks that may do anything to any event.
- **Codecs and framing**. `Base64` (decoder on a buffer), `Framing` over `Streams` (packets over short reads and
  writes), `SmartSocket` (request reassembly) and `Banner` (printing and parsing in place).
- **File sync** (`file_sync_service.c`). `FileSync` models the DATA/DONE loops on both sides.

`adb_read` and `adb_write` may transfer any part of what is asked, block, fail, or find the end of the data.
Sockets carry a log of everything that happened on their stream; it is specification only. A schedule may contain
any step at any point; steps that the state does not allow have no effect.

Three promises turned out to need a condition, which is proved to be exact:

- *online exactly when the connection state is not CS_OFFLINE*: true for every transport except one registered
  without permission, which stays in CS_NOPERM and is never online (`SocketLinks.OnlineAsPermitted`,
  `SocketLinks.NoPermissionNeverOnline`). Both callers in the source register with permission, and then it is true
  of every transport (`SocketLinks.OnlineUnlessOffline`).
- *a request is reassembled the same way however it is cut*: true exactly for streams of at most 4096 bytes or without
  a valid length. One byte followed by 4096 more is refused, while the first 4096 at once would be served
  (`SmartSocket.ChunkingDoesNotMatter`, `SmartSocket.LongStreamDisagrees`).
- *an upload reproduces the file*: `handle_send_file` does not truncate a file that already exists, so the result is
  the upload exactly when the old file was no longer (`FileSync.HandleSendFile`, `FileSync.UploadOverLongerFile`).
  `do_send` removes the old file first, and then the result is always the upload (`FileSync.DoSend`).

`isspace` and `strchr` in `b64_pton` see a plain `char` after the first pad character; a value above 127 is taken to be
neither white space nor a pad there, which gives the -1 the decoder returns for it anywhere else.

## Model

| member | source | states |
|---|---|---|
| SocketTheorems.StreamAnswersOpen | src/adbd/adb.c:244-270 | after every schedule, a stream created by a remote OPEN has sent OKAY first, then OKAY and WRTE only, then at most one CLSE; once the CLSE is out no later schedule adds anything |
| SocketTheorems.RunGrows | src/adbd/sockets.c:62-226 | continuing a schedule only extends what each stream has sent, accepted and written |
| SocketTheorems.Credit | src/adbd/sockets.c:62-83 | write side: OKAYs sent, plus one while WRITE is watched (or plus the queue length), never exceed WRTEs received plus one, and the queue is non-empty exactly when WRITE is watched; read side: WRTEs sent, plus one while READ is watched, never exceed OKAYs received plus one |
| SocketTheorems.PoliteSideNeedsOneSlot | src/adbd/sockets.c:111-138 | with a remote side that waits for an OKAY per WRTE, at most one packet is queued |
| SocketTheorems.NoByteIsLost | src/adbd/sockets.c:62-138 | bytes written followed by bytes queued are the bytes accepted, for any short writes; a socket that is gone wrote everything it accepted unless a write failed |
| SocketTheorems.PeerGraphIsSound | src/adbd/sockets.c:84-110 | peers point at each other; a remote socket has a live local peer and is in its own transport's ring only; a local socket is on exactly one ring; one on the closing ring has no peer and id 0 |
| SocketTheorems.IdsFollowInstalls | src/adbd/sockets.c:21-51 | live ids collide exactly when install numbers agree modulo 2^32, an id is 0 exactly when the number is a multiple of it, and before the 2^32-th install ids are distinct and non-zero |
| SocketTheorems.CloseAllClosesExactly | src/adbd/sockets.c:52-61 | afterwards no live socket has the transport or a peer on it, exactly the unrelated live sockets remain, and they, their peers and their histories are unchanged |
| SocketTheorems.RemoteIsOnline | src/adbd/adb.c:204-228 | after every schedule a transport is online exactly when its state is neither CS_OFFLINE nor CS_NOPERM; a transport that is not online has no remote socket |
| SocketLinks.TransportsAreRegistered | src/adbd/transport.c:159-204 | after every schedule, the transports are exactly those registered and not removed since, and one is in CS_NOPERM exactly when it was registered without permission |
| SocketLinks.OnlineAsPermitted | src/adbd/adb.c:62-63 | "online exactly when not CS_OFFLINE" is true of a transport exactly when it was registered with permission |
| SocketLinks.OnlineUnlessOffline | src/adbd/usb_linux_client.c:123-123 | so it is true of every transport after every schedule that registers with permission only |
| SocketLinks.NoPermissionNeverOnline | src/adbd/transport.c:361-363 | and it fails right after one registration without permission |
| SocketLinks.StepKeepsPermission | src/adbd/adb.c:204-274 | no step but registration and removal changes which transports there are or which have permission |
| SocketLateReads.LateReadOfParked | src/adbd/sockets.c:139-165 | a READ that reaches a parked socket loses exactly its queued bytes, and only at end of file |
| SocketLateReads.LateReadOfLive | src/adbd/sockets.c:157-163 | a READ that reaches a socket waiting for OKAY keeps the credit bound exactly when there was credit to spare |
| SocketTheorems.OfflineDropsExactly | src/adbd/transport.c:22-29 | going offline runs each registered disconnect once: the ring is empty, no remote socket is left on the transport, every other remote socket and every local socket without a peer there is unchanged, nothing is sent |
| SocketTraffic.LogIsHistory | src/adbd/sockets.c:139-201 | for a remotely opened stream and every schedule, the WRTE payloads sent are the bytes its descriptor delivered, in order; the bytes accepted are the payloads of the WRTEs that arrived; the counters count the OKAYs and WRTEs that arrived |
| SocketTraffic.PacketsAreAddressed | src/adbd/sockets.c:194-217 | its OKAY and WRTE packets carry its own id, CLSE carries 0, and WRTE and CLSE go to the id and transport whose OPEN the first OKAY answered |
| SocketTraffic.NothingIsLostEitherWay | src/adbd/sockets.c:62-201 | conservation in both directions and both credit bounds, measured against what the schedule delivered |
| SocketTraffic.StepMoves | src/adbd/adb.c:244-270 | every step adds to each remotely opened stream exactly what it brought that stream, from its own two ends, and never replaces its remote end |
| SocketLedger.AccountsAreEven | src/adbd/sockets.c:62-165 | exact accounts of a live remotely opened stream, from the schedule: OKAYs sent, plus one while bytes are queued, plus WRTEs that joined a queue, equal WRTEs arrived plus one; WRTEs sent, plus one while reading, plus OKAYs that came while reading, equal OKAYs arrived plus one |
| SocketLedger.BystanderKept | src/adbd/sockets.c:24-165 | a live socket that a step neither acts upon nor closes keeps its state, its peer and its log |
| SocketLedger.NewlyLive | src/adbd/sockets.c:168-181 | only an accepted OPEN or connection makes a socket live |
| SocketRequests.RequestIsJudged | src/adbd/sockets.c:301-340 | after every schedule the fate of an accepted connection is what the reassembler says of the pieces its client sent: waiting with exactly those bytes collected, both ends closed with nothing sent, or exactly one OPEN with its id, arg1 0, the declared service and its NUL, via the transport found |
| SocketRequests.CutsPlayNoPart | src/adbd/sockets.c:301-316 | and within 4096 bytes that outcome depends on the bytes alone |
| SocketRequests.StepIsCalm | src/adbd/sockets.c:52-243 | a step that delivers nothing to a smart socket changes no collected bytes and sends no OPEN |
| SocketRequests.DeliveryDecides | src/adbd/sockets.c:301-340 | one more piece gives the connection the fate of all pieces so far |
| SocketEffects.OpenOpens | src/adbd/adb.c:244-255 | an accepted OPEN adds exactly a live reading local socket with the next id, a remote socket with the opener's id on that transport, and one OKAY to the opener |
| SocketEffects.OpenRefused | src/adbd/adb.c:245-248 | an OPEN without a service is answered with CLSE only; offline it is ignored |
| SocketEffects.OkayResumes | src/adbd/adb.c:256-263 | OKAY makes the socket it names read again and changes nothing else |
| SocketEffects.OkayConnects | src/adbd/adb.c:258-262 | the first OKAY also creates the remote socket, with the sender's id on the sender's transport |
| SocketEffects.CloseCloses | src/adbd/adb.c:264-264 | CLSE takes the socket it names off the live ring, parks it exactly when packets are queued, removes its peer from store and ring, sends exactly one CLSE to a remote peer, and changes nothing else |
| SocketEffects.StrayIsIgnored | src/adbd/adb.c:256-266 | OKAY, CLSE and WRTE offline or for an id no live socket has change nothing |
| SocketEffects.WriteIsTaken | src/adbd/adb.c:265-270 | WRTE waits behind a queue, or is written and answered with OKAY exactly when written whole, or its rest is queued, or after a failed write the socket goes down |
| SocketEffects.WriteEvent | src/adbd/sockets.c:113-138 | a WRITE event leaves exactly the unwritten bytes queued; a drained live socket stops watching WRITE and sends one OKAY to its remote end's id and transport; a drained parked one is destroyed; after a failed write the socket goes down |
| SocketEffects.ReadEvent | src/adbd/sockets.c:139-165 | a READ event sends the bytes as one WRTE to the remote end and stops reading; at end of file the socket goes down |
| SocketEffects.SmartReadEvent | src/adbd/sockets.c:139-165 | a READ event with a smart peer collects, refuses, or hands the request over, as the bytes so far say |
| SocketEffects.BothEvents | src/adbd/sockets.c:111-167 | a callback with both events is the WRITE event, then the READ event if the queue is drained and the socket stays |
| SocketEffects.OfflineDrops | src/adbd/adb.c:213-215 | SYNC(0) leaves the transport offline and bare, and drops exactly its remote sockets and their local peers, silently |
| SocketEffects.ConnectDropsOld | src/adbd/adb.c:218-226 | CNXN drops exactly the old remote sockets and their local peers, silently, and brings the transport online in the banner's state |
| SocketEffects.RemovalDrops | src/adbd/transport.c:168-184 | removing a transport drops exactly its remote sockets and their local peers, and it is gone |
| SocketEffects.RegisterStarts | src/adbd/transport.c:186-203 | a new transport is offline, or without permission, and has no sockets |
| SocketEffects.CloseAllCloses | src/adbd/sockets.c:52-61 | close_all_sockets in a schedule ends exactly the sockets bound to the transport |
| SocketEffects.AcceptConnects | src/adbd/adb.c:279-293 | an accepted connection adds exactly a live reading local socket with the next id and its empty smart peer |
| SocketRuns.RunKeepsInv | src/adbd/sockets.c:1-345 | the whole invariant (rings, peers, homes, transports, names, per-stream logs and credit) holds after every schedule |
| SocketRuns.StepKeepsInv | src/adbd/adb.c:204-274 | every packet, descriptor event, registration and removal keeps that invariant |
| SocketInvariant.CloseKeepsInv | src/adbd/sockets.c:98-110 | closing a socket that may be closed keeps the invariant, with or without a CLSE |
| SocketInvariant.CloseShape | src/adbd/sockets.c:98-110 | exactly what a close changes: the peer leaves the store and every ring, the socket leaves the store or is parked with id 0 and no peer, at most one CLSE is sent, all else is equal |
| SocketSteps.OpenKeepsInv | src/adbd/adb.c:244-255 | an accepted OPEN keeps the invariant |
| SocketSteps.OnOkayKeepsInv | src/adbd/adb.c:256-263 | OKAY, including the one that creates the remote socket, keeps the invariant |
| SocketSteps.OnCloseKeepsInv | src/adbd/adb.c:264-264 | CLSE keeps the invariant |
| SocketSteps.OnWriteKeepsInv | src/adbd/adb.c:265-270 | WRTE keeps the invariant for every short, blocked or failed write |
| SocketSteps.OnConnectKeepsInv | src/adbd/adb.c:218-228 | CNXN keeps the invariant |
| SocketSteps.OnWritableKeepsInv | src/adbd/sockets.c:113-138 | draining any number of queued bytes, a failed write, and destroying a drained parked socket keep the invariant |
| SocketSteps.OnReadable | src/adbd/sockets.c:139-165 | reading and passing on, refusing, forwarding or hanging up keeps the invariant |
| SocketSteps.ForwardKeepsInv | src/adbd/sockets.c:329-336 | handing a request over to a transport keeps the invariant |
| SocketSteps.RunDisconnects | src/adbd/transport.c:22-29 | all disconnects of a transport leave its ring empty, links unchanged and only its own remote sockets gone |
| SocketSteps.GoOffline | src/adbd/adb.c:213-214 | the transport ends offline with an empty ring and the invariant holds |
| SocketSteps.WritingConserves | src/adbd/sockets.c:115-134 | writing any number of queued bytes moves them from queue to descriptor and loses none |
| SocketMux.Daemon.FindLocalSocket | src/adbd/sockets.c:24-31 | the ring walk finds the first live socket with the id, or none |
| SocketMux.Daemon.CloseLocked | src/adbd/sockets.c:98-110 | the in-place close, recursive on a local peer, is the model's close |
| SocketMux.Daemon.CloseAllSockets | src/adbd/sockets.c:52-61 | the restart loop ends (measured by the live ring) in the state that one pass over the ring gives |
| SocketMux.Daemon.RemoteSocketDisconnect | src/adbd/sockets.c:218-226 | the local peer closes silently and the remote socket is gone |
| SocketMux.Daemon.RunTransportDisconnects | src/adbd/transport.c:22-29 | the walk with a saved successor runs each disconnect once although each removes itself from the ring |
| SocketMux.Daemon.GoesOffline | src/adbd/adb.c:63-63 | setting the state, clearing online and running the disconnects is the model's offline step |
| SocketMux.Daemon.LocalSocketEnqueue | src/adbd/sockets.c:62-82 | result 0 exactly when the queue was empty and everything was written; otherwise the rest is queued or the socket closed |
| SocketMux.Daemon.DrainQueue | src/adbd/sockets.c:115-134 | the nested write loops take a prefix of the queued bytes and leave exactly the rest |
| SocketMux.Daemon.OnSocketWritable | src/adbd/sockets.c:113-138 | the WRITE half is the model's step for the bytes written |
| SocketMux.Daemon.EnqueueToPeer | src/adbd/sockets.c:157-163 | a remote peer sends WRTE and stops the reading; a smart peer does what reassembling all bytes so far says; the result is that of enqueue |
| SocketMux.Daemon.EnqueueToSmart | src/adbd/sockets.c:301-340 | the collected bytes and the new ones are judged by the reassembler: wait, close both ends, or send one OPEN for the declared service |
| SocketMux.Daemon.OnSocketReadable | src/adbd/sockets.c:139-165 | the READ half is the model's step for the bytes read, at most 4096, with the close at end of file and at a forced end of file |
| SocketMux.Daemon.OnLateRead | src/adbd/sockets.c:139-165 | a READ on a parked socket is the late read described above |
| SocketMux.Daemon.LocalSocketEventFunc | src/adbd/sockets.c:111-167 | one callback is the next step of the schedule, and the fields are again where the schedule leads |
| SocketMux.Daemon.CreateLocalSocket | src/adbd/sockets.c:38-43 | a new socket takes the next 32-bit id and the end of the live ring |
| SocketMux.Daemon.HandleOpen | src/adbd/adb.c:244-255 | OPEN is ignored offline, refused with CLSE without a service, else opens a stream |
| SocketMux.Daemon.HandleOkay | src/adbd/adb.c:256-263 | OKAY is the model's step, including all ignored cases |
| SocketMux.Daemon.HandleClose | src/adbd/adb.c:264-264 | CLSE is the model's step, including all ignored cases |
| SocketMux.Daemon.HandleWrite | src/adbd/adb.c:265-270 | WRTE is the model's step, answered with OKAY exactly when everything was written |
| SocketMux.Daemon.HandleConnect | src/adbd/adb.c:218-228 | CNXN drops an old connection first, then the transport is online |
| SocketMux.Daemon.AcceptConnection | src/adbd/adb.c:279-293 | an accepted connection, with a local socket and a smart peer, is the next step of the schedule |
| SocketMux.Daemon.CloseTransportSockets | src/adbd/transport.c:125-125 | the input thread's close_all_sockets is the next step of the schedule |
| SocketMux.Daemon.RegisterTransport | src/adbd/transport.c:186-203 | registering a transport is the next step of the schedule |
| SocketMux.Daemon.UnregisterTransport | src/adbd/transport.c:168-184 | running the remaining disconnects and removing the transport is the next step of the schedule |
| SocketMux.Daemon.Promises | src/adbd/sockets.c:62-226 | packet order, both credit bounds, the exact accounts and byte conservation hold of the fields after any calls |
| SocketMux.Daemon.RequestPromise | src/adbd/sockets.c:301-340 | the request of every accepted connection has the fate the reassembler gives its pieces, after any calls |
| SocketMux.Daemon.HandlePacket | src/adbd/adb.c:204-274 | every packet is the next step of the schedule, or leaves the sockets alone; the fields are again where the schedule leads |
| TransportThreads.ClosedOnceAfterBothThreads | src/adbd/transport.c:225-241 | in every interleaving kick runs at most once; close and removal happen once, exactly when both threads have released their reference, and no thread can step afterwards |
| TransportThreads.GoodbyeIsNotLost | src/adbd/transport.c:77-129 | once the final SYNC(0) is written, that packet is the last one to the main loop and unhandled, or its own echo is in the other channel and unread, or the input thread has stopped reading |
| TransportThreads.NothingIsDropped | src/adbd/transport.c:111-129 | the first packet the input thread reads is the SYNC with the current token, and every non-SYNC packet it reads is handed to write_to_remote in send order |
| TransportThreads.ChannelsAreTold | src/adbd/transport.c:77-129 | in every interleaving the main loop's channel holds the greeting if written, then every packet read from the remote side in order, then SYNC(0) exactly when the farewell was written, and a prefix of it is handled in order; the input thread's channel holds what was sent to it in order; the connection is up exactly when the packets handled say so |
| TransportThreads.ThreadsGoOn | src/adbd/transport.c:89-124 | the input thread reads exactly until a read fails or gives SYNC(0); the output thread copies exactly until it cannot write or the remote side ends |
| TransportThreads.SilentBeforeHandshake | src/adbd/adb.c:208-217 | until the main loop has echoed that SYNC nothing is sent and no remote socket exists |
| TransportThreads.RunKeepsInv | src/adbd/transport.c:12-241 | reference count, kick, handshake and goodbye invariants hold in every interleaving |
| TransportThreads.StepKeepsLife | src/adbd/transport.c:12-21 | each step keeps the count of references, kicks, closes and removals consistent with where the threads stand |
| TransportThreads.StepKeepsHandshake | src/adbd/transport.c:77-129 | each step keeps the SYNC first in both channels and the active flag in agreement with what was read |
| TransportThreads.StepKeepsGoodbye | src/adbd/transport.c:100-129 | each step keeps every handled SYNC echoed where its answers begin, and a reading input thread short of any SYNC(0) |
| FdBits.UpdateIsLegal | src/adbd/fdevent.c:61-79 | a request to epoll_ctl is legal exactly when the old interest was empty or had a READ, WRITE or ERROR bit |
| FdBits.ReplacedInterest | src/adbd/fdevent.c:70-70 | the word expression sets the interest bits |
| FdBits.ReplacedPending | src/adbd/fdevent.c:70-70 | and keeps the pending flag |
| FdBits.OrIsPlus | src/adbd/fdevent.c:93-95 | or-ing event words is the union of masks |
| FdBits.AndNotIsMinus | src/adbd/fdevent.c:224-232 | and-not of event words is the difference of masks |
| FdEvents.FdEvent.Watch | src/adbd/fdevent.c:70-70 | on the packed state word, the interest is replaced and both flags stay |
| FdEvents.FdEvent.Gather | src/adbd/fdevent.c:93-96 | on the event word, events are added, and the word is zero exactly when none is recorded |
| FdEvents.FdEvent.Discard | src/adbd/fdevent.c:224-225 | on the event word, events are dropped, and the word is zero exactly when none is left |
| FdEvents.EventLoop.Register | src/adbd/fdevent.c:103-118 | capacity doubles from 256 up to 32768 and exceeds the descriptor; other old entries are kept and the new one set |
| FdEvents.EventLoop.Install | src/adbd/fdevent.c:192-204 | succeeds exactly for an acceptable descriptor; the loop stays valid and a new event has no interest and nothing pending |
| FdEvents.EventLoop.Update | src/adbd/fdevent.c:61-79 | the epoll entry follows the interest; ADD only when absent, MOD and DEL only when present |
| FdEvents.EventLoop.Set | src/adbd/fdevent.c:215-230 | the new interest, which recorded events stay (those outside it), and when the event leaves the ring; validity (pending flag, ring membership and a non-zero event word agree; epoll agrees with interest) is kept |
| FdEvents.EventLoop.Add | src/adbd/fdevent.c:231-231 | interest grows, the ring only shrinks, validity kept |
| FdEvents.EventLoop.Del | src/adbd/fdevent.c:232-232 | interest shrinks, a READ already recorded always survives its deletion, the ring only shrinks, validity kept |
| FdEvents.EventLoop.Remove | src/adbd/fdevent.c:205-214 | the event leaves ring, epoll set and table; validity kept |
| FdEvents.EventLoop.Process | src/adbd/fdevent.c:80-102 | every installed event records the union of what was reported for it, interests are unchanged, and events with a report join the end of the ring once |
| FdEvents.EventLoop.Record | src/adbd/fdevent.c:93-99 | exactly the reported events are added to the recorded ones |
| FdEvents.EventLoop.Force | src/adbd/fdevent.c:170-177 | a forced READ runs the callback at once unless the event is pending already; validity kept |
| FdEvents.EventLoop.Callback | src/adbd/fdevent.c:151-158 | any list of operations keeps validity and only shrinks the ring; whatever leaves it was delivered, removed or withdrawn; whatever is not operated upon keeps what is recorded for it |
| FdEvents.EventLoop.Dequeue | src/adbd/fdevent.c:141-158 | the head of the ring is dispatched with its events, word and flag cleared first |
| FdEvents.EventLoop.Dispatch | src/adbd/fdevent.c:241-248 | with any callbacks the drain ends with an empty ring; each event that was in it was delivered, removed or withdrawn; the first delivery of one no earlier callback operated upon bears exactly what was recorded; no callback ran for an event removed and not installed again, or with nothing to report |
| FdEvents.EventLoop.Turn | src/adbd/fdevent.c:241-248 | one turn of the loop: every event with something recorded or reported is delivered, removed or withdrawn, and one no earlier callback operated upon gets exactly what was recorded and reported for it |
| FdEvents.NoteAdded | src/adbd/fdevent.c:141-158 | a callback of an event that is still installed keeps the history free of calls to removed events |
| Base64.B64Pton | src/adbd/base64.c:16-82 | for every input and buffer size: n >= 0 exactly when the text without white space is the canonical padded encoding (sections 3.5 and 4 of RFC 4648) of target[..n] and there is room; every access is in bounds |
| Base64.Decoded | src/adbd/base64.c:23-81 | the state machine computes the group-wise decoding, and fails exactly when there is none or no room |
| Base64.PutLetter | src/adbd/base64.c:29-64 | one letter advances the state, and fails exactly when the buffer is too small |
| Base64.Padding | src/adbd/base64.c:66-79 | padding is accepted exactly when the group is complete, nothing follows and the pad bits are zero |
| Base64.DecodeEncode | src/adbd/base64.c:16-82 | decoding an encoding gives the data back |
| Base64.EncodeDecode | src/adbd/base64.c:16-82 | whatever decodes is the encoding of its result |
| Base64.EncodeInjective | src/adbd/base64.c:16-82 | no two byte strings share an encoding |
| Base64.PositionOfLetter | src/adbd/base64.c:14-15 | every letter is found where it stands in the alphabet and is neither pad nor space |
| Streams.Readx | src/adbd/transport.c:380-391 | over any short reads, success means exactly the next len bytes were consumed, and on a healthy descriptor it succeeds exactly when they are there |
| Streams.Writex | src/adbd/transport.c:392-403 | over any short writes, success means exactly the data was appended, failure a proper prefix of it |
| Framing.Checksum | src/adbd/transport.c:64-73 | the 32-bit sum of the bytes |
| Framing.ChecksumIsTotal | src/adbd/transport.c:409-417 | the checksum of a payload never wraps |
| Framing.ParseFrame | src/adbd/transport.c:404-417 | a frame followed by anything is accepted exactly when its magic and checksum are right, and then gives back the packet and the rest |
| Framing.FramesRoundTrip | src/adbd/transport_local.c:9-20 | any list of stamped packets written in a row is recovered exactly |
| Framing.PayloadAccepted | src/adbd/transport.c:409-417 | another payload of the same length is accepted exactly when the byte totals agree |
| Framing.OneByteDamaged | src/adbd/transport.c:404-417 | one damaged byte outside the length word is accepted exactly when it is in an argument word; so every damaged payload byte is rejected |
| Framing.OkayOnTheWire | src/adbd/adb.h:27-27 | the wire layout of the header: an OKAY from id 1 to id 7, byte by byte |
| Framing.XorOnes | src/adbd/transport.c:68-68 | exclusive or with n ones, bit by bit, is the complement in n bits |
| Framing.Magic | src/adbd/transport.c:68-68 | the exclusive or used for the magic is the complement |
| Framing.Stamp | src/adbd/transport.c:64-73 | the checksum loop and the magic give the stamped packet |
| Framing.RemoteRead | src/adbd/transport_local.c:9-15 | a packet is returned only if the stream starts with it, and exactly its bytes are consumed; on a healthy stream it fails only if there is none |
| Framing.RemoteWrite | src/adbd/transport_local.c:16-20 | exactly the frame is written, or a proper prefix of it on failure |
| Framing.ReceiveAll | src/adbd/transport.c:89-99 | the receiving loop yields the packets of the stream in order, all of them on a healthy one |
| Framing.Transfer | src/adbd/transport_local.c:9-20 | packets sent are the packets received, however reads and writes are cut |
| SmartSocket.Unhex | src/adbd/sockets.c:266-278 | the value of the digits modulo 2^32, or 0xffffffff for anything else |
| SmartSocket.DigitCases | src/adbd/sockets.c:269-274 | upper and lower case digits mean the same, and nothing else is a digit |
| SmartSocket.UnhexInvertsHex4 | src/adbd/sockets.c:266-278 | four-digit hex printing is inverted |
| SmartSocket.Reassembler.Enqueue | src/adbd/sockets.c:301-340 | one more piece gives the verdict on all bytes so far, or a refusal if it does not fit |
| SmartSocket.Reassembler.Serve | src/adbd/sockets.c:317-333 | a complete request is refused as the lookup says or opens its service; the NUL is written in bounds and the oversize exit cannot be reached |
| SmartSocket.Reassembler.Destination | src/adbd/sockets.c:244-253 | the destination is the declared service up to its first NUL |
| SmartSocket.Reassembler.EnqueueAll | src/adbd/sockets.c:301-340 | feeding pieces one by one gives the model's run |
| SmartSocket.RunIsJudge | src/adbd/sockets.c:301-340 | within 4096 bytes every cutting gives what the whole stream asks for: incomplete, fail, or one OPEN for the declared service |
| SmartSocket.Decided | src/adbd/sockets.c:313-316 | once decided, more bytes change nothing |
| SmartSocket.BadHeaderFails | src/adbd/sockets.c:314-315 | an invalid length fails silently however the stream is cut |
| SmartSocket.LongStreamDisagrees | src/adbd/sockets.c:307-307 | a longer stream with a valid length has two cuttings with different results |
| SmartSocket.CutAtOnce | src/adbd/sockets.c:313-316 | a full first packet decides, and never with a silent failure when the length is valid |
| SmartSocket.CutBadly | src/adbd/sockets.c:307-307 | one byte and then a full packet is refused silently |
| SmartSocket.ChunkingDoesNotMatter | src/adbd/sockets.c:301-340 | all cuttings agree exactly when the stream fits in 4096 bytes or has no valid length, and then the result is that of the whole stream |
| FileSync.HandleSendFile | src/adbd/file_sync_service.c:91-141 | result 0 only after reading exactly through DONE and sending exactly one status, OKAY or FAIL; after OKAY the file is the upload over the old contents, and equals the upload exactly when the old file was no longer; the time stamp is the upload's; on a healthy connection result 0 exactly for a complete upload, even when open or write failed |
| FileSync.UploadOverLongerFile | src/adbd/file_sync_service.c:100-100 | one byte uploaded over a file of three leaves the tail of the old file |
| FileSync.ReadItem | src/adbd/file_sync_service.c:105-115 | one message is read and what is left of the upload is what follows it |
| FileSync.IdsSpellNames | src/adbd/file_sync_service.h:5-15 | the message ids are their names in little-endian order |
| FileSync.Store | src/adbd/file_sync_service.c:116-124 | a block is appended, or, where unlink works, the file is gone and one FAIL sent |
| FileSync.Finish | src/adbd/file_sync_service.c:126-135 | the file is closed and stamped, and OKAY sent |
| FileSync.Abandon | src/adbd/file_sync_service.c:137-140 | a broken transfer removes the path |
| FileSync.Path.Open | src/adbd/file_sync_service.c:94-100 | the three attempts open a new or the old file, untruncated, and fail only if a system call fails |
| FileSync.FailMessage | src/adbd/file_sync_service.c:82-89 | exactly one FAIL message with the reason |
| FileSync.DoSend | src/adbd/file_sync_service.c:163-184 | on a healthy path the file ends up as the upload whatever it held before |
| FileSync.DoRecv | src/adbd/file_sync_service.c:185-212 | result 0 means the whole file as DATA blocks closed by DONE, or a FAIL after a prefix of it |
| FileSync.UploadRoundTrip | src/adbd/file_sync_service.c:185-212 | any cutting of a file into DATA messages closed by DONE uploads that file and leaves what follows |
| FileSync.Copy | src/adbd/file_sync_service.c:91-212 | what do_recv sends and do_send receives is the same file, for any read and write sizes |
| Banner.FillConnectData | src/adbd/adb.c:78-91 | the size is that of the whole text and its NUL, and the buffer holds as much of the text as fits, then a NUL |
| Banner.Peer.ParseBanner | src/adbd/adb.c:160-203 | the in-place parser gives the properties and state of the text it was given |
| Banner.Peer.TakeAll | src/adbd/adb.c:168-175 | the token loop sets the properties of all tokens in order and touches nothing before them |
| Banner.Peer.TakeToken | src/adbd/adb.c:169-174 | a token is split at its first '='; one without '=' is ignored |
| Banner.Strtok | src/adbd/adb.c:168-175 | separators are skipped, the token is ended in place, and the rest is what follows it |
| Banner.EntrySets | src/adbd/adb.c:86-86 | a printed property with no semicolon in its value is parsed back, and parsing goes on behind it |
| Banner.OtherTokensAreSkipped | src/adbd/adb.c:168-175 | a token without '=' or with another key changes nothing |
| Banner.BannerRoundTrip | src/adbd/adb.c:160-203 | parsing a printed banner recovers all three properties, empty ones as absent, and the named state, CS_HOST for any other name |
| Banner.BannerSetsState | src/adbd/adb.c:178-203 | a printed banner sets each of the four named states exactly for its name, CS_HOST exactly for all others |
| Banner.StateNameRoundTrip | src/adbd/adb.c:144-152 | a state is read back from its printed name exactly when it is CS_BOOTLOADER, CS_DEVICE or CS_HOST |
| Banner.Greet | src/adbd/adb.c:78-203 | the round trip on one buffer, printed and parsed in place |

## Left out

- USB endpoints, functionfs, libcutils, option parsing, logging, framebuffer, remount, reboot and subprocess services: system calls with little logic of their own.
- Authentication: `auth_enabled` is taken as off, so AUTH packets and RSA keys do not appear.
- jdwp sockets and trackers: they have their own rules on the same live ring and put FDE_DONT_CLOSE into the event mask.
- `exit_on_close`, which ends the process when certain sockets are destroyed.
- Ownership and freeing of packets; a packet is a value.
- `handle_host_request`, listeners' formatting, directory listing, `stat`, symbolic links (`handle_send_link`) and file modes: easy members.
- The OKAY and FAIL texts that a socket waiting for its service writes to its client (`local_socket_ready_notify`, `local_socket_close_notify`) are not counted among the bytes of the stream.
- SocketMux.Daemon: sockets are records in a store keyed by address, and rings are sequences of addresses; the pointer surgery of the intrusive rings is not modelled.
- SocketMux.Daemon.HandlePacket: requires a remote side that sends WRTE only on a stream that has its remote socket. The service lookup and the parsed banner state are parameters.
- SocketSteps.OnWriteKeepsInv: the same requirement on the remote side.
- SocketMux.Daemon.LocalSocketEventFunc: requires that events are delivered only for what the socket watches. A READ recorded earlier survives `fdevent_del` (FdEvents.EventLoop.Del), and what it then does is told by SocketLateReads, outside the schedules.
- SocketSteps.OnReadable: the same requirement on delivery.
- SocketMux.Daemon.EnqueueToSmart: which transport is found, and whether it is online, is a parameter.
- TransportThreads.RunKeepsInv: each locked region, channel read or write, and call of kick is one atomic step; how often a raw descriptor number is closed is not counted, and a removed transport is only marked as freed.
- Data races between `close_all_sockets` on the input thread and callbacks of the main loop: each is one step.
- FdEvents.EventLoop.Register: entries of a grown table other than the new one are arbitrary, since the source clears only part of them.
- FdEvents.EventLoop.Install: the descriptor must not belong to another installed event, as the kernel guarantees for open descriptors.
- FdEvents.EventLoop.Perform: operations on events that are not installed are skipped; masks lie inside READ, WRITE and ERROR.
- Base64.B64Pton: null pointers are not modelled; the text is taken up to its NUL.
- Banner.FillConnectData: all but the last property must fit, since otherwise the unsigned space left wraps around.
- Banner.Peer.ParseBanner: the buffer must hold a NUL-terminated string, as strchr and strtok demand.
- FileSync.HandleSendFile: the strings of strerror are arbitrary, and the time stamp is set on the closed file without failing.
- Framing.Transfer: the bytes written at one end are the bytes read at the other.
