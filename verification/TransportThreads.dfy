/** The life of one transport: its output thread, its input thread and the main loop, interleaved step
    by step, with the two packet channels of the socket pair between them. */
module TransportThreads {
  import opened Bytes

  /** A packet as far as the threads look at it: SYNC with its two arguments, or anything else. */
  datatype Packet = Sync(arg0: nat, arg1: nat) | Other(kind: Kind, tag: nat)
  datatype Kind = Cnxn | Auth | Open | Okay | Clse | Wrte

  /** Where a thread stands.  The shared tail is kick_transport's unlocked test, its locked
      test-and-set, the call of t->kick, transport_unref, and the end. */
  datatype OutAt = Hello | Copying | Goodbye | OutTail(tail: Tail)
  datatype InAt = Reading | Closing | InTail(tail: Tail)
  datatype Tail = TestKicked | TakeLock | CallKick | Unref | Done

  /** The fields that decide how long the transport lives, with counts of the kick, close and removal
      calls. */
  datatype Life = Life(refCount: int, kicked: bool, kicks: nat, closes: nat, removals: nat, freed: bool)

  /** Everything written for the main loop and how much of it is handled; everything sent back to the
      input thread and how much of it is read; for each handled packet, where in `down` what was sent
      after it begins; what went to write_to_remote; the connection. */
  datatype Link = Link(up: seq<Packet>, handled: nat, down: seq<Packet>, taken: nat, answers: seq<nat>,
                       token: nat, active: bool, passed: seq<Packet>,
                       connected: bool, online: bool, remotes: nat)

  datatype State = State(out: OutAt, inp: InAt, life: Life, link: Link, farewell: bool)

  const TOKEN_SPACE: nat := 0x1_0000_0000

  /** Just registered: two references, sync_token 1, CS_OFFLINE, both threads created. */
  const INIT := State(Hello, Reading, Life(2, false, 0, 0, 0, false),
                      Link([], 0, [], 0, [], 1, false, [], false, false, 0), false)

  datatype Step =
    | OutHello(ok: bool)
    | OutCopy(p: Packet, ok: bool)
    | OutEnd
    | OutGoodbye(ok: bool)
    | OutTailStep
    | InRead
    | InReadFails
    | InCloseSockets(sent: seq<Packet>)
    | InTailStep
    | MainHandle(reply: seq<Packet>, made: bool, shut: nat)
    | MainSends(p: Packet, shut: nat)
    | MainRemoves

  predicate AllOther(ps: seq<Packet>) {
    forall i :: 0 <= i < |ps| ==> ps[i].Other?
  }

  function Minus(a: nat, b: nat): nat { if a >= b then a - b else 0 }

  // ---------- the shared tail ----------

  /** One step of kick_transport or transport_unref; each locked region is a single step. */
  function TailStep(life: Life, at: Tail): (Life, Tail)
    requires at != Done
  {
    match at
    case TestKicked => (life, if life.kicked then Unref else TakeLock)
    case TakeLock => if life.kicked then (life, Unref) else (life.(kicked := true), CallKick)
    case CallKick => (life.(kicks := life.kicks + 1), Unref)
    case Unref =>
      var life1 := life.(refCount := life.refCount - 1);
      if life1.refCount != 0 then (life1, Done)
      else
        var life2 := if life1.kicked then life1 else life1.(kicked := true, kicks := life1.kicks + 1);
        (life2.(closes := life2.closes + 1, removals := life2.removals + 1), Done)
  }

  // ---------- the link ----------

  function SendUp(k: Link, p: Packet): Link { k.(up := k.up + [p]) }

  /** output_thread's first packet. */
  function Greet(k: Link, ok: bool): Link {
    var k1 := k.(token := (k.token + 1) % TOKEN_SPACE);
    if ok then SendUp(k1, Sync(1, k1.token)) else k1
  }

  /** What input_thread does with the next packet, other than stopping on SYNC(0). */
  function Take(k: Link): Link
    requires k.taken < |k.down|
  {
    var k1 := k.(taken := k.taken + 1);
    match k.down[k.taken]
    case Sync(arg0, arg1) => if arg0 != 0 && arg1 == k.token then k1.(active := true) else k1
    case Other(_, _) => if k.active then k1.(passed := k1.passed + [k.down[k.taken]]) else k1
  }

  function SendDown(k: Link, ps: seq<Packet>, remotes: nat): Link {
    k.(down := k.down + ps, remotes := remotes)
  }

  function GoOffline(k: Link): Link {
    k.(connected := false, online := false, remotes := 0)
  }

  /** handle_packet for this transport, with authentication off.  `reply` is what it sends in answer,
      `made` says a remote socket was created, `shut` how many were closed. */
  function Handle(k: Link, reply: seq<Packet>, made: bool, shut: nat): Link
    requires k.handled < |k.up|
  {
    var p := k.up[k.handled];
    var k1 := k.(handled := k.handled + 1, answers := k.answers + [|k.down|]);
    match p
    case Sync(arg0, _) => SendDown(if arg0 == 0 then GoOffline(k1) else k1, [p], if arg0 == 0 then 0 else k.remotes)
    case Other(kind, _) =>
      if kind == Cnxn then SendDown(GoOffline(k1).(connected := true, online := true), reply, 0)
      else SendDown(k1, reply, Minus(k.remotes, shut) + if made then 1 else 0)
  }

  /** Which answers handle_packet can give: OPEN, OKAY, CLSE and WRTE do nothing while the transport is
      not online; only OPEN and OKAY create a remote socket. */
  predicate MayAnswer(k: Link, p: Packet, reply: seq<Packet>, made: bool, shut: nat) {
    && AllOther(reply)
    && (p.Other? && p.kind !in {Cnxn, Auth} && !k.online ==> reply == [] && !made && shut == 0)
    && (made ==> p.Other? && p.kind in {Open, Okay})
  }

  // ---------- steps ----------

  predicate Enabled(st: State, step: Step) {
    var k := st.link;
    match step
    case OutHello(_) => st.out == Hello
    case OutCopy(_, _) => st.out == Copying
    case OutEnd => st.out == Copying
    case OutGoodbye(_) => st.out == Goodbye
    case OutTailStep => st.out.OutTail? && st.out.tail != Done
    case InRead => st.inp == Reading && k.taken < |k.down|
    case InReadFails => st.inp == Reading
    case InCloseSockets(sent) => st.inp == Closing && AllOther(sent) && (sent != [] ==> k.remotes > 0)
    case InTailStep => st.inp.InTail? && st.inp.tail != Done
    case MainHandle(reply, made, shut) =>
      !st.life.freed && k.handled < |k.up| && MayAnswer(k, k.up[k.handled], reply, made, shut)
    case MainSends(p, _) =>
      // a remote socket on this transport speaks, or a host-side request passes the offline gate
      !st.life.freed && p.Other? && (k.remotes > 0 || (p.kind == Open && k.connected))
    case MainRemoves => !st.life.freed && st.life.removals == 1
  }

  function NextOut(st: State, step: Step): OutAt {
    match step
    case OutHello(ok) => if ok then Copying else OutTail(TestKicked)
    case OutCopy(_, ok) => if ok then Copying else OutTail(TestKicked)
    case OutEnd => Goodbye
    case OutGoodbye(_) => OutTail(TestKicked)
    case OutTailStep => if Enabled(st, step) then OutTail(TailStep(st.life, st.out.tail).1) else st.out
    case _ => st.out
  }

  function NextIn(st: State, step: Step): InAt {
    match step
    case InRead => if Enabled(st, step) && st.link.down[st.link.taken].Sync? && st.link.down[st.link.taken].arg0 == 0
                   then Closing else st.inp
    case InReadFails => Closing
    case InCloseSockets(_) => InTail(TestKicked)
    case InTailStep => if Enabled(st, step) then InTail(TailStep(st.life, st.inp.tail).1) else st.inp
    case _ => st.inp
  }

  function NextLife(st: State, step: Step): Life {
    if step.OutTailStep? && Enabled(st, step) then TailStep(st.life, st.out.tail).0
    else if step.InTailStep? && Enabled(st, step) then TailStep(st.life, st.inp.tail).0
    else if step.MainRemoves? then st.life.(freed := true)
    else st.life
  }

  function NextLink(st: State, step: Step): Link
    requires Enabled(st, step)
  {
    var k := st.link;
    match step
    case OutHello(ok) => Greet(k, ok)
    case OutCopy(p, ok) => if ok then SendUp(k, p) else k
    case OutGoodbye(ok) => if ok then SendUp(k, Sync(0, 0)) else k
    case InRead => Take(k)
    case InCloseSockets(sent) => SendDown(k, sent, 0)
    case MainHandle(reply, made, shut) => Handle(k, reply, made, shut)
    case MainSends(p, shut) => SendDown(k, [p], Minus(k.remotes, shut))
    case MainRemoves => GoOffline(k)
    case _ => k
  }

  function Do(st: State, step: Step): State
    requires Enabled(st, step)
  {
    State(NextOut(st, step), NextIn(st, step), NextLife(st, step), NextLink(st, step),
          st.farewell || (step.OutGoodbye? && step.ok))
  }

  function Apply(st: State, step: Step): State {
    if Enabled(st, step) then Do(st, step) else st
  }

  /** The state after a schedule; a step that is not enabled does nothing. */
  function After(steps: seq<Step>): State {
    if steps == [] then INIT else Apply(After(steps[..|steps| - 1]), steps[|steps| - 1])
  }

  // ---------- reference count, kick, close, removal ----------

  function Holds(at: Tail): nat { if at == Done then 0 else 1 }

  function OutHolds(out: OutAt): nat { if out.OutTail? then Holds(out.tail) else 1 }

  function InHolds(inp: InAt): nat { if inp.InTail? then Holds(inp.tail) else 1 }

  predicate PastKick(at: Tail) { at == Unref || at == Done }

  predicate LifeOk(out: OutAt, inp: InAt, life: Life) {
    && life.refCount == OutHolds(out) + InHolds(inp)
    && (out.OutTail? && PastKick(out.tail) ==> life.kicked)
    && (inp.InTail? && PastKick(inp.tail) ==> life.kicked)
    && life.kicks + Bit(out == OutTail(CallKick)) + Bit(inp == InTail(CallKick)) == Bit(life.kicked)
    && life.closes == life.removals == Bit(life.refCount == 0)
    && (life.freed ==> life.removals == 1)
  }

  lemma OutTailKeepsLife(at: Tail, inp: InAt, life: Life)
    requires LifeOk(OutTail(at), inp, life) && at != Done
    ensures LifeOk(OutTail(TailStep(life, at).1), inp, TailStep(life, at).0)
  {
  }

  lemma InTailKeepsLife(out: OutAt, at: Tail, life: Life)
    requires LifeOk(out, InTail(at), life) && at != Done
    ensures LifeOk(out, InTail(TailStep(life, at).1), TailStep(life, at).0)
  {
  }

  lemma StepKeepsLife(st: State, step: Step)
    requires LifeOk(st.out, st.inp, st.life) && Enabled(st, step)
    ensures LifeOk(NextOut(st, step), NextIn(st, step), NextLife(st, step))
  {
    hide TailStep, MayAnswer, AllOther;
    if step.OutTailStep? { OutTailKeepsLife(st.out.tail, st.inp, st.life); }
    if step.InTailStep? { InTailKeepsLife(st.out, st.inp.tail, st.life); }
  }

  // ---------- the handshake ----------

  function NonSync(ps: seq<Packet>): seq<Packet> {
    if ps == [] then []
    else NonSync(ps[..|ps| - 1]) + if ps[|ps| - 1].Other? then [ps[|ps| - 1]] else []
  }

  /** The first packet each way is the SYNC that carries the token; until the main loop has seen it the
      transport is offline and silent; the input thread is active from its first packet on. */
  predicate HandshakeOk(out: OutAt, k: Link) {
    && k.handled <= |k.up| && k.taken <= |k.down|
    && (out == Hello ==> k.up == [])
    && (out == Copying || out == Goodbye ==> k.up != [])
    && (k.up != [] ==> k.up[0] == Sync(1, k.token))
    && (k.handled == 0 ==> !k.online && k.down == [])
    && (k.handled > 0 ==> k.down != [] && k.down[0] == Sync(1, k.token))
    && (k.online <==> k.connected)
    && (k.remotes > 0 ==> k.online)
    && (k.active <==> k.taken > 0)
    && k.passed == NonSync(k.down[..k.taken])
  }

  lemma NonSyncAppend(ps: seq<Packet>, p: Packet)
    ensures NonSync(ps + [p]) == NonSync(ps) + if p.Other? then [p] else []
  {
    assert (ps + [p])[..|ps|] == ps;
  }

  lemma TakeKeepsHandshake(out: OutAt, k: Link)
    requires HandshakeOk(out, k) && k.taken < |k.down|
    ensures HandshakeOk(out, Take(k))
  {
    NonSyncAppend(k.down[..k.taken], k.down[k.taken]);
    assert k.down[..k.taken + 1] == k.down[..k.taken] + [k.down[k.taken]];
  }

  lemma SendDownKeepsHandshake(out: OutAt, k: Link, ps: seq<Packet>, remotes: nat)
    requires HandshakeOk(out, k) && (ps != [] ==> k.handled > 0) && (remotes > 0 ==> k.online)
    ensures HandshakeOk(out, SendDown(k, ps, remotes))
  {
    assert (k.down + ps)[..k.taken] == k.down[..k.taken];
  }

  lemma HandleKeepsHandshake(out: OutAt, k: Link, reply: seq<Packet>, made: bool, shut: nat)
    requires HandshakeOk(out, k) && k.handled < |k.up| && MayAnswer(k, k.up[k.handled], reply, made, shut)
    ensures HandshakeOk(out, Handle(k, reply, made, shut))
  {
    var k' := Handle(k, reply, made, shut);
    assert k.down <= k'.down;
    assert k'.down[..k.taken] == k.down[..k.taken];
  }

  lemma SendUpKeepsHandshake(out: OutAt, out': OutAt, k: Link, p: Packet)
    requires HandshakeOk(out, k) && k.up != [] && out' != Hello
    ensures HandshakeOk(out', SendUp(k, p)) && HandshakeOk(out', k)
  {
  }

  lemma GreetKeepsHandshake(k: Link, ok: bool)
    requires HandshakeOk(Hello, k)
    ensures HandshakeOk(if ok then Copying else OutTail(TestKicked), Greet(k, ok))
  {
  }

  lemma PositionOnly(out: OutAt, out': OutAt, k: Link)
    requires HandshakeOk(out, k) && out.OutTail? && out'.OutTail?
    ensures HandshakeOk(out', k)
  {
  }

  lemma StepKeepsHandshake(st: State, step: Step)
    requires HandshakeOk(st.out, st.link) && Enabled(st, step)
    ensures HandshakeOk(NextOut(st, step), NextLink(st, step))
  {
    hide TailStep, MayAnswer, AllOther, Take, Greet, Handle, NonSync;
    var k := st.link;
    match step
    case OutHello(ok) => GreetKeepsHandshake(k, ok);
    case OutCopy(p, ok) => SendUpKeepsHandshake(st.out, NextOut(st, step), k, p);
    case OutEnd => SendUpKeepsHandshake(st.out, Goodbye, k, Sync(0, 0));
    case OutGoodbye(ok) => SendUpKeepsHandshake(st.out, NextOut(st, step), k, Sync(0, 0));
    case OutTailStep => PositionOnly(st.out, NextOut(st, step), k);
    case InRead => TakeKeepsHandshake(st.out, k);
    case InCloseSockets(sent) => SendDownKeepsHandshake(st.out, k, sent, 0);
    case MainHandle(reply, made, shut) => HandleKeepsHandshake(st.out, k, reply, made, shut);
    case MainSends(p, shut) => SendDownKeepsHandshake(st.out, k, [p], Minus(k.remotes, shut));
    case _ =>
  }

  // ---------- the goodbye ----------

  predicate Stops(p: Packet) { p.Sync? && p.arg0 == 0 }

  /** Every SYNC the main loop has handled is echoed, at the position where its answers begin. */
  predicate EchoOk(k: Link) {
    && k.handled <= |k.up| && |k.answers| == k.handled
    && forall i :: 0 <= i < k.handled && k.up[i].Sync? ==> k.answers[i] < |k.down| && k.down[k.answers[i]] == k.up[i]
  }

  /** The input thread reads no further than a SYNC(0); once the final SYNC(0) is written, it is the last
      packet from the output thread. */
  predicate GoodbyeOk(st: State) {
    && EchoOk(st.link)
    && st.link.taken <= |st.link.down|
    && (st.inp == Reading ==> forall j :: 0 <= j < st.link.taken ==> !Stops(st.link.down[j]))
    && (st.farewell ==> st.out.OutTail? && st.link.up != [] && st.link.up[|st.link.up| - 1] == Sync(0, 0))
  }

  /** What was handled stays handled, and so stay its echoes. */
  lemma EchoStays(k: Link, k': Link)
    requires EchoOk(k) && k.up <= k'.up && k.down <= k'.down && k'.handled == k.handled && k'.answers == k.answers
    ensures EchoOk(k')
  {
  }

  lemma HandleShape(k: Link, reply: seq<Packet>, made: bool, shut: nat)
    requires k.handled < |k.up|
    ensures var k' := Handle(k, reply, made, shut); var p := k.up[k.handled];
      && k'.up == k.up && k'.taken == k.taken && k.down <= k'.down
      && k'.handled == k.handled + 1 && k'.answers == k.answers + [|k.down|]
      && (p.Sync? ==> |k.down| < |k'.down| && k'.down[|k.down|] == p)
  {
  }

  lemma HandleEchoes(k: Link, reply: seq<Packet>, made: bool, shut: nat)
    requires EchoOk(k) && k.handled < |k.up|
    ensures EchoOk(Handle(k, reply, made, shut))
  {
    hide Handle;
    HandleShape(k, reply, made, shut);
  }

  /** Reading on changes neither channel. */
  lemma TakeAdvances(k: Link)
    requires k.taken < |k.down|
    ensures Take(k).up == k.up && Take(k).down == k.down && Take(k).taken == k.taken + 1
    ensures Take(k).handled == k.handled && Take(k).answers == k.answers
    ensures Take(k).token == k.token && Take(k).connected == k.connected
  {
  }

  lemma StepKeepsGoodbye(st: State, step: Step)
    requires GoodbyeOk(st) && Enabled(st, step)
    ensures GoodbyeOk(Do(st, step))
  {
    hide TailStep, MayAnswer, AllOther, Take, Handle, NonSync, EchoOk, NextLife;
    var k, k' := st.link, NextLink(st, step);
    match step
    case InRead =>
      TakeAdvances(k);
      EchoStays(k, k');
    case MainHandle(reply, made, shut) =>
      HandleShape(k, reply, made, shut);
      HandleEchoes(k, reply, made, shut);
    case _ =>
      EchoStays(k, k');
  }

  // ---------- over every interleaving ----------

  predicate Inv(st: State) {
    LifeOk(st.out, st.inp, st.life) && HandshakeOk(st.out, st.link) && GoodbyeOk(st)
  }

  lemma ApplyKeepsInv(st: State, step: Step)
    requires Inv(st)
    ensures Inv(Apply(st, step))
  {
    hide LifeOk, HandshakeOk, GoodbyeOk, NextOut, NextIn, NextLife, NextLink;
    if Enabled(st, step) {
      StepKeepsLife(st, step);
      StepKeepsHandshake(st, step);
      StepKeepsGoodbye(st, step);
    }
  }

  lemma InitOk()
    ensures Inv(INIT)
  {
  }

  lemma {:induction false} RunKeepsInv(steps: seq<Step>)
    ensures Inv(After(steps))
  {
    hide Apply, Inv;
    if steps == [] {
      InitOk();
    } else {
      RunKeepsInv(steps[..|steps| - 1]);
      ApplyKeepsInv(After(steps[..|steps| - 1]), steps[|steps| - 1]);
    }
  }

  predicate ThreadStep(step: Step) {
    !(step.MainHandle? || step.MainSends? || step.MainRemoves?)
  }

  /** t->kick runs at most once.  t->close and the removal message happen together, once, and exactly
      when both threads have released their reference; by then the kick has run, no step of either
      thread is possible any more, and the transport is freed only after that. */
  lemma ClosedOnceAfterBothThreads(steps: seq<Step>)
    ensures var st := After(steps);
      && st.life.kicks <= 1 && st.life.closes <= 1 && st.life.removals == st.life.closes
      && (st.life.closes == 1 <==> st.out == OutTail(Done) && st.inp == InTail(Done))
      && (st.life.closes == 1 ==> st.life.kicks == 1)
      && (st.life.closes == 1 ==> forall step :: ThreadStep(step) ==> !Enabled(st, step))
      && (st.life.freed ==> st.life.closes == 1)
  {
    RunKeepsInv(steps);
    hide After;
  }

  /** Once the output thread has written its final SYNC(0), that very packet is the last one in its channel
      and still unhandled, or its echo is in the other channel and not yet read, or the input thread has
      stopped reading. */
  lemma GoodbyeIsNotLost(steps: seq<Step>)
    requires After(steps).farewell && After(steps).inp == Reading
    ensures var k := After(steps).link;
      && k.up != [] && k.up[|k.up| - 1] == Sync(0, 0)
      && |k.answers| == k.handled <= |k.up|
      && (k.handled == |k.up| ==>
            var echo := k.answers[|k.up| - 1]; k.taken <= echo < |k.down| && k.down[echo] == Sync(0, 0))
  {
    hide After, LifeOk, HandshakeOk;
    RunKeepsInv(steps);
  }

  /** The first packet the input thread reads is the SYNC with the current token, so it is active from
      then on: of the packets sent to it, every one it reads that is not a SYNC goes to
      write_to_remote, in the order they were sent. */
  lemma NothingIsDropped(steps: seq<Step>)
    ensures var k := After(steps).link;
      && k.taken <= |k.down|
      && (k.taken > 0 ==> k.down[0] == Sync(1, k.token) && k.active)
      && k.passed == NonSync(k.down[..k.taken])
  {
    RunKeepsInv(steps);
  }

  /** Until the main loop has answered that SYNC, nothing at all is sent on the transport. */
  lemma SilentBeforeHandshake(steps: seq<Step>)
    requires After(steps).link.handled == 0
    ensures After(steps).link.down == [] && !After(steps).link.online && After(steps).link.remotes == 0
  {
    RunKeepsInv(steps);
  }

  // ---------- told from the schedule ----------

  /** The packets the output thread read from the remote side and wrote to the main loop. */
  function Copied(steps: seq<Step>): seq<Packet> {
    if steps == [] then []
    else
      var most, step := steps[..|steps| - 1], steps[|steps| - 1];
      Copied(most) + if Enabled(After(most), step) && step.OutCopy? && step.ok then [step.p] else []
  }

  predicate Greeted(steps: seq<Step>) {
    steps != [] &&
    var most, step := steps[..|steps| - 1], steps[|steps| - 1];
    Greeted(most) || (Enabled(After(most), step) && step.OutHello? && step.ok)
  }

  predicate Parted(steps: seq<Step>) {
    steps != [] &&
    var most, step := steps[..|steps| - 1], steps[|steps| - 1];
    Parted(most) || (Enabled(After(most), step) && step.OutGoodbye? && step.ok)
  }

  /** The packets the main loop handled, in order. */
  function Seen(steps: seq<Step>): seq<Packet> {
    if steps == [] then []
    else
      var most, step := steps[..|steps| - 1], steps[|steps| - 1];
      Seen(most) +
      if Enabled(After(most), step) && step.MainHandle? then [After(most).link.up[After(most).link.handled]] else []
  }

  /** The packets sent to the input thread: echoes and answers, what sockets and requests send, and what
      closing the sockets sends. */
  function Sent(steps: seq<Step>): seq<Packet> {
    if steps == [] then []
    else
      var most, step := steps[..|steps| - 1], steps[|steps| - 1];
      Sent(most) + if Enabled(After(most), step) then Sends(After(most), step) else []
  }

  function Sends(st: State, step: Step): seq<Packet>
    requires Enabled(st, step)
  {
    match step
    case MainHandle(reply, _, _) => if st.link.up[st.link.handled].Sync? then [st.link.up[st.link.handled]] else reply
    case MainSends(p, _) => [p]
    case InCloseSockets(sent) => sent
    case _ => []
  }

  function ReadCount(steps: seq<Step>): nat {
    if steps == [] then 0
    else
      var most, step := steps[..|steps| - 1], steps[|steps| - 1];
      ReadCount(most) + Bit(Enabled(After(most), step) && step.InRead?)
  }

  /** What the packets handled make of the connection: CNXN brings it up, SYNC(0) takes it down. */
  predicate UpAfter(seen: seq<Packet>) {
    seen != [] &&
    var p := seen[|seen| - 1];
    if Stops(p) then false else if p.Other? && p.kind == Cnxn then true else UpAfter(seen[..|seen| - 1])
  }

  /** The two channels and the connection, given what the steps did. */
  predicate Told(st: State, greeted: bool, copied: seq<Packet>, parted: bool, seen: seq<Packet>, sent: seq<Packet>,
                 taken: nat)
  {
    var k := st.link;
    && (st.out == Hello ==> !greeted && copied == [] && !parted)
    && (st.out == Copying || st.out == Goodbye ==> greeted && !parted)
    && k.up == (if greeted then [Sync(1, k.token)] else []) + copied + (if parted then [Sync(0, 0)] else [])
    && st.farewell == parted
    && k.handled <= |k.up| && seen == k.up[..k.handled]
    && k.down == sent
    && k.taken == taken
    && (k.connected <==> UpAfter(seen) && !st.life.freed)
  }

  lemma UpAppend(seen: seq<Packet>, p: Packet)
    ensures UpAfter(seen + [p]) <==> !Stops(p) && ((p.Other? && p.kind == Cnxn) || UpAfter(seen))
  {
    assert (seen + [p])[..|seen|] == seen;
  }

  lemma OutStepIsTold(st: State, step: Step, greeted: bool, copied: seq<Packet>, parted: bool,
                      seen: seq<Packet>, sent: seq<Packet>, taken: nat)
    requires Told(st, greeted, copied, parted, seen, sent, taken) && Enabled(st, step)
    requires step.OutHello? || step.OutCopy? || step.OutEnd? || step.OutGoodbye? || step.OutTailStep?
    ensures Told(Do(st, step), greeted || (step.OutHello? && step.ok),
                 copied + (if step.OutCopy? && step.ok then [step.p] else []),
                 parted || (step.OutGoodbye? && step.ok), seen, sent, taken)
  {
    hide UpAfter, TailStep;
    var k, k' := st.link, Do(st, step).link;
    assert k.up <= k'.up;
    assert copied + [] == copied;
    OutKeepsFreed(st, step);
  }

  lemma OutKeepsFreed(st: State, step: Step)
    requires Enabled(st, step) && !step.MainRemoves?
    ensures NextLife(st, step).freed == st.life.freed
  {
  }

  lemma HandleSends(k: Link, reply: seq<Packet>, made: bool, shut: nat)
    requires k.handled < |k.up|
    ensures var k', p := Handle(k, reply, made, shut), k.up[k.handled];
      && k'.up == k.up && k'.handled == k.handled + 1 && k'.taken == k.taken && k'.token == k.token
      && k'.down == k.down + (if p.Sync? then [p] else reply)
      && (k'.connected <==> !Stops(p) && ((p.Other? && p.kind == Cnxn) || k.connected))
  {
  }

  lemma HandleIsTold(st: State, step: Step, greeted: bool, copied: seq<Packet>, parted: bool,
                     seen: seq<Packet>, sent: seq<Packet>, taken: nat)
    requires Told(st, greeted, copied, parted, seen, sent, taken) && Enabled(st, step) && step.MainHandle?
    ensures Told(Do(st, step), greeted, copied, parted, seen + [st.link.up[st.link.handled]],
                 sent + Sends(st, step), taken)
  {
    hide UpAfter, TailStep, MayAnswer, AllOther, Handle, Stops;
    var k := st.link;
    HandleSends(k, step.reply, step.made, step.shut);
    UpAppend(seen, k.up[k.handled]);
    assert k.up[..k.handled + 1] == k.up[..k.handled] + [k.up[k.handled]];
  }

  lemma OtherStepIsTold(st: State, step: Step, greeted: bool, copied: seq<Packet>, parted: bool,
                        seen: seq<Packet>, sent: seq<Packet>, taken: nat)
    requires Told(st, greeted, copied, parted, seen, sent, taken) && Enabled(st, step)
    requires st.link.taken <= |st.link.down|
    requires step.InRead? || step.InReadFails? || step.InCloseSockets? || step.InTailStep? || step.MainSends? ||
             step.MainRemoves?
    ensures Told(Do(st, step), greeted, copied, parted, seen, sent + Sends(st, step), taken + Bit(step.InRead?))
  {
    hide UpAfter, TailStep, MayAnswer, AllOther, Take;
    if step.InRead? { TakeAdvances(st.link); }
    assert sent + [] == sent;
    if !step.MainRemoves? { OutKeepsFreed(st, step); }
  }

  /** In every interleaving: what the output thread wrote for the main loop is its greeting, if that was
      written, then every packet it read from the remote side, in order, then SYNC(0) exactly when the
      farewell was written; the main loop has handled exactly a prefix of that, in order; what waits for
      the input thread is what was sent to it, in order, and it has read as much of it as it says; and
      the connection is up exactly when the packets handled say so and the transport is not removed. */
  lemma {:induction false} ChannelsAreTold(steps: seq<Step>)
    ensures Told(After(steps), Greeted(steps), Copied(steps), Parted(steps), Seen(steps), Sent(steps), ReadCount(steps))
  {
    hide Told, Enabled, Do, Sends, Inv;
    if steps == [] {
      NothingIsTold();
    } else {
      var most, step := steps[..|steps| - 1], steps[|steps| - 1];
      ChannelsAreTold(most);
      if Enabled(After(most), step) {
        if step.OutHello? || step.OutCopy? || step.OutEnd? || step.OutGoodbye? || step.OutTailStep? {
          OutStepIsTold(After(most), step, Greeted(most), Copied(most), Parted(most), Seen(most), Sent(most),
                        ReadCount(most));
          OutSendsNothing(After(most), step);
        } else if step.MainHandle? {
          HandleIsTold(After(most), step, Greeted(most), Copied(most), Parted(most), Seen(most), Sent(most),
                       ReadCount(most));
        } else {
          ReadsAreThere(most);
          OtherStepIsTold(After(most), step, Greeted(most), Copied(most), Parted(most), Seen(most), Sent(most),
                          ReadCount(most));
        }
      }
      assert Copied(most) + [] == Copied(most) && Seen(most) + [] == Seen(most) && Sent(most) + [] == Sent(most);
    }
  }

  lemma NothingIsTold()
    ensures Told(INIT, false, [], false, [], [], 0)
  {
  }

  lemma OutSendsNothing(st: State, step: Step)
    requires Enabled(st, step)
    requires step.OutHello? || step.OutCopy? || step.OutEnd? || step.OutGoodbye? || step.OutTailStep?
    ensures Sends(st, step) == []
  {
  }

  lemma ReadsAreThere(steps: seq<Step>)
    ensures After(steps).link.taken <= |After(steps).link.down|
  {
    RunKeepsInv(steps);
  }

  /** A read of the input thread failed, or it read a SYNC(0). */
  predicate StoppedReading(steps: seq<Step>) {
    steps != [] &&
    var most, step := steps[..|steps| - 1], steps[|steps| - 1];
    || StoppedReading(most)
    || (Enabled(After(most), step) &&
        (step.InReadFails? || (step.InRead? && Stops(After(most).link.down[After(most).link.taken]))))
  }

  /** The output thread could not write, or the remote side gave no more packets. */
  predicate StoppedCopying(steps: seq<Step>) {
    steps != [] &&
    var most, step := steps[..|steps| - 1], steps[|steps| - 1];
    || StoppedCopying(most)
    || (Enabled(After(most), step) &&
        (step.OutEnd? || ((step.OutHello? || step.OutCopy?) && !step.ok)))
  }

  lemma PositionsAfter(st: State, step: Step)
    requires Enabled(st, step)
    ensures Do(st, step).inp == Reading <==>
              st.inp == Reading && !step.InReadFails? && !(step.InRead? && Stops(st.link.down[st.link.taken]))
    ensures Do(st, step).out == Copying <==>
              (st.out == Copying && !step.OutEnd? && !(step.OutCopy? && !step.ok)) || (step.OutHello? && step.ok)
    ensures Do(st, step).out == Hello <==> st.out == Hello && !step.OutHello?
  {
    hide TailStep, MayAnswer, AllOther, Handle, Take, Greet;
  }

  /** The input thread reads on exactly until a read fails or gives it a SYNC(0); the output thread copies
      from its greeting exactly until it cannot write or the remote side gives no more. */
  lemma {:induction false} ThreadsGoOn(steps: seq<Step>)
    ensures After(steps).inp == Reading <==> !StoppedReading(steps)
    ensures After(steps).out == Copying <==> Greeted(steps) && !StoppedCopying(steps)
    ensures After(steps).out == Hello ==> !Greeted(steps) && !StoppedCopying(steps)
    ensures After(steps).out != Hello ==> Greeted(steps) || StoppedCopying(steps)
  {
    hide Enabled, Do, Stops;
    if steps != [] {
      var most, step := steps[..|steps| - 1], steps[|steps| - 1];
      ThreadsGoOn(most);
      if Enabled(After(most), step) {
        PositionsAfter(After(most), step);
        PositionsBefore(After(most), step);
      }
    }
  }

  lemma PositionsBefore(st: State, step: Step)
    requires Enabled(st, step)
    ensures step.OutHello? ==> st.out == Hello
    ensures step.OutCopy? || step.OutEnd? ==> st.out == Copying
  {
  }
}
