/** The event loop: the pending ring, the kernel's epoll set and the table from descriptors to events,
    all updated in place.  Events keep the packed words of the source. */
module FdEvents {
  import opened FdBits
  import opened Rings

  class FdEvent {
    var fd: int
    var state: bv16
    var events: bv16

    predicate Active()
      reads this`state
    {
      IsActive(state)
    }

    predicate Pending()
      reads this`state
    {
      IsPending(state)
    }

    /** What the event watches. */
    function Watched(): Mask
      reads this`state
    {
      MaskOf(Interest(state))
    }

    /** What has been recorded for it and not yet delivered. */
    function Recorded(): Mask
      reads this`events
    {
      MaskOf(events)
    }

    /** Both words hold READ, WRITE and ERROR bits only. */
    predicate Plain()
      reads this
    {
      Watchable(events) && Watchable(Interest(state))
    }

    constructor ()
      ensures Plain() && !Active() && !Pending()
    {
      fd, state, events := -1, 0, 0;
      new;
      FreshState();
    }

    /** memset and the first assignments of fdevent_install. */
    method Reset(fd': int)
      modifies this
      ensures fd == fd' && Plain() && Active() && !Pending() && Watched() == NONE && Recorded() == NONE
    {
      fd, state, events := fd', FDE_ACTIVE, 0;
      FreshState();
    }

    /** The end of fdevent_remove. */
    method Retire()
      modifies this`state, this`events
      ensures Plain() && !Active() && !Pending() && Watched() == NONE && Recorded() == NONE
    {
      state, events := 0, 0;
      FreshState();
    }

    method Watch(w: bv16)
      requires Plain() && Watchable(w)
      modifies this`state
      ensures Plain() && Watched() == MaskOf(w) && Interest(state) == w
      ensures Active() == old(Active()) && Pending() == old(Pending())
    {
      hide Watchable, MaskOf, Interest, IsActive, IsPending;
      ReplacedInterest(state, w);
      ReplacedActive(state, w);
      ReplacedPending(state, w);
      state := Replaced(state, w);
    }

    method Raise()
      requires Plain()
      modifies this`state
      ensures Plain() && Pending() && Watched() == old(Watched()) && Active() == old(Active())
    {
      hide Watchable, MaskOf, Interest, IsActive, IsPending;
      RaisePending(state);
      state := state | FDE_PENDING;
    }

    method Lower()
      requires Plain()
      modifies this`state
      ensures Plain() && !Pending() && Watched() == old(Watched()) && Active() == old(Active())
    {
      hide Watchable, MaskOf, Interest, IsActive, IsPending;
      ClearPending(state);
      state := state & !FDE_PENDING;
    }

    method Gather(w: bv16)
      requires Plain() && Watchable(w)
      modifies this`events
      ensures Plain() && Recorded() == old(Recorded()).Plus(MaskOf(w)) && (events == 0 <==> Recorded().Empty())
    {
      hide Watchable, MaskOf, Interest;
      OrIsPlus(events, w);
      events := events | w;
      ZeroIsEmpty(events);
    }

    method Discard(w: bv16)
      requires Plain()
      modifies this`events
      ensures Plain() && Recorded() == old(Recorded()).Minus(MaskOf(w)) && (events == 0 <==> Recorded().Empty())
    {
      hide Watchable, MaskOf, Interest, Cleared;
      AndNotIsMinus(events, w);
      events := Cleared(events, w);
      ZeroIsEmpty(events);
    }

    /** Reading the event word and clearing it. */
    method Collect() returns (w: bv16)
      requires Plain()
      modifies this`events
      ensures Plain() && MaskOf(w) == old(Recorded()) && Recorded() == NONE
    {
      w := events;
      events := 0;
      FreshState();
    }
  }

  /** What happened to events: one was installed, operated upon, removed, withdrawn from the ring by a new
      interest, or its callback ran. */
  datatype Note =
    | Installed(f: FdEvent)
    | Touched(f: FdEvent)
    | Removed(f: FdEvent)
    | Withdrawn(f: FdEvent)
    | Ran(f: FdEvent, events: Mask)

  /** Operations a callback can perform, on any event; Force is what the shell-exit handler does to an
      event whose process has ended. */
  datatype Op =
    | DoSet(f: FdEvent, w: bv16)
    | DoAdd(f: FdEvent, w: bv16)
    | DoDel(f: FdEvent, w: bv16)
    | DoRemove(f: FdEvent)
    | DoInstall(f: FdEvent, fd: int)
    | DoForce(f: FdEvent)

  // ---------- logs ----------

  /** The last time the log mentions installing or removing f, it was removed. */
  ghost predicate Gone(log: seq<Note>, f: FdEvent) {
    |log| > 0 &&
    var last := log[|log| - 1];
    if last == Removed(f) then true
    else if last == Installed(f) then false
    else Gone(log[..|log| - 1], f)
  }

  /** No callback ran for an event that had been removed and not installed again, nor with nothing to
      report. */
  ghost predicate NoGhostCalls(log: seq<Note>) {
    forall i :: 0 <= i < |log| && log[i].Ran? ==> !Gone(log[..i], log[i].f) && !log[i].events.Empty()
  }

  lemma NoteAdded(log: seq<Note>, n: Note)
    requires NoGhostCalls(log) && (n.Ran? ==> !Gone(log, n.f) && !n.events.Empty())
    ensures NoGhostCalls(log + [n])
    ensures forall g :: Gone(log + [n], g) <==> n == Removed(g) || (n != Installed(g) && Gone(log, g))
  {
    var all := log + [n];
    assert all[..|log|] == log;
    forall i | 0 <= i < |all| && all[i].Ran? ensures !Gone(all[..i], all[i].f) && !all[i].events.Empty() {
      if i < |log| { assert all[..i] == log[..i]; }
    }
  }

  /** From position n on, the log says that f was delivered, removed or withdrawn. */
  ghost predicate Noted(log: seq<Note>, n: nat, f: FdEvent) {
    exists i :: n <= i < |log| && log[i].f == f && (log[i].Ran? || log[i].Removed? || log[i].Withdrawn?)
  }

  /** Whatever was in the ring still is, or the log since n says why not. */
  ghost predicate Accounted(was: seq<FdEvent>, n: nat, now: seq<FdEvent>, log: seq<Note>) {
    forall f :: f in was ==> f in now || Noted(log, n, f)
  }

  lemma AccountedChain(r0: seq<FdEvent>, n: nat, r1: seq<FdEvent>, log1: seq<Note>, r2: seq<FdEvent>, log2: seq<Note>)
    requires n <= |log1| && log1 <= log2
    requires Accounted(r0, n, r1, log1) && Accounted(r1, |log1|, r2, log2)
    ensures Accounted(r0, n, r2, log2)
  {
    forall f | f in r0 && f !in r2 ensures Noted(log2, n, f) {
      if Noted(log1, n, f) {
        var i :| n <= i < |log1| && log1[i].f == f && (log1[i].Ran? || log1[i].Removed? || log1[i].Withdrawn?);
        assert log2[i] == log1[i];
      } else {
        assert Noted(log2, |log1|, f);
        var i :| |log1| <= i < |log2| && log2[i].f == f && (log2[i].Ran? || log2[i].Removed? || log2[i].Withdrawn?);
      }
    }
  }

  lemma LeavesWithNote(was: seq<FdEvent>, log: seq<Note>, n: Note)
    requires n.Ran? || n.Removed? || n.Withdrawn?
    ensures Accounted(was, |log|, Without(was, n.f), log + [n])
  {
    WithoutFacts(was, n.f);
    assert (log + [n])[|log|] == n;
  }

  /** From position n on, the log says nothing about f. */
  ghost predicate Untold(log: seq<Note>, n: nat, f: FdEvent) {
    forall i :: n <= i < |log| ==> log[i].f != f
  }

  /** From position n on, the first note about an event with a mark, if its callback ran, bears that mark. */
  ghost predicate FirstRuns(log: seq<Note>, n: nat, marks: map<FdEvent, Mask>) {
    forall i :: n <= i < |log| && log[i].Ran? && log[i].f in marks && Untold(log[..i], n, log[i].f) ==>
      log[i].events == marks[log[i].f]
  }

  /** What one operation adds to the log concerns one event and does not begin with its callback. */
  ghost predicate OnlyAbout(log: seq<Note>, n: nat, f: FdEvent) {
    (forall i :: n <= i < |log| ==> log[i].f == f) && (n < |log| ==> !log[n].Ran?)
  }

  lemma OperationRunsNoneFirst(log: seq<Note>, log': seq<Note>, n: nat, f: FdEvent, marks: map<FdEvent, Mask>)
    requires n <= |log| && log <= log' && OnlyAbout(log', |log|, f) && FirstRuns(log, n, marks)
    ensures FirstRuns(log', n, marks)
  {
    forall i | |log| < i < |log'| ensures !Untold(log'[..i], n, f) {
      assert log'[..i][|log|].f == f;
    }
    forall i | n <= i < |log'| && log'[i].Ran? && log'[i].f in marks && Untold(log'[..i], n, log'[i].f)
      ensures log'[i].events == marks[log'[i].f]
    {
      if i < |log| { assert log'[..i] == log[..i]; }
    }
  }

  lemma DeliveryRunsFirst(log: seq<Note>, n: nat, f: FdEvent, m: Mask, marks: map<FdEvent, Mask>)
    requires n <= |log| && FirstRuns(log, n, marks) && (Untold(log, n, f) && f in marks ==> m == marks[f])
    ensures FirstRuns(log + [Ran(f, m)], n, marks)
  {
    var all := log + [Ran(f, m)];
    forall i | n <= i < |all| && all[i].Ran? && all[i].f in marks && Untold(all[..i], n, all[i].f)
      ensures all[i].events == marks[all[i].f]
    {
      assert all[..i] == log[..i];
      if i == |log| { assert log[..i] == log; }
    }
  }

  /** The union of what the first n reports say of f. */
  function Union(reports: seq<(FdEvent, Mask)>, n: nat, f: FdEvent): Mask
    requires n <= |reports|
  {
    if n == 0 then NONE
    else if reports[n - 1].0 == f then Union(reports, n - 1, f).Plus(reports[n - 1].1)
    else Union(reports, n - 1, f)
  }

  /** A table size the doubling can reach. */
  predicate TableSize(n: nat) {
    n in {0, 256, 512, 1024, 2048, 4096, 8192, 16384, 32768}
  }

  class EventLoop {
    var ring: seq<FdEvent>
    var table: seq<FdEvent?>
    var epoll: map<int, Mask>
    var installed: set<FdEvent>
    ghost var log: seq<Note>

    /** An installed event: it owns its table slot; the epoll set watches its descriptor exactly when its
        interest is not empty, and for that interest. */
    ghost predicate WatchOk(f: FdEvent)
      reads this`table, this`epoll, f
    {
      && f.Plain() && f.Active()
      && 0 <= f.fd < |table| && table[f.fd] == f
      && (f.fd in epoll <==> !f.Watched().Empty())
      && (f.fd in epoll ==> epoll[f.fd] == f.Watched())
    }

    /** It is flagged pending exactly when it is in the ring and exactly when its event word is not zero. */
    ghost predicate RingOk(f: FdEvent)
      reads this`ring, f
    {
      (f.Pending() <==> f in ring) && (f.Pending() <==> !f.Recorded().Empty())
    }

    ghost predicate EventOk(f: FdEvent)
      reads this`table, this`epoll, this`ring, f
    {
      WatchOk(f) && RingOk(f)
    }

    ghost predicate Valid()
      reads this, installed
    {
      && (forall f :: f in installed ==> EventOk(f))
      && NoDup(ring)
      && (forall f :: f in ring ==> f in installed)
      && (forall d :: d in epoll ==> exists f :: f in installed && f.fd == d)
      && TableSize(|table|)
      && NoGhostCalls(log)
      && (forall f :: f in installed ==> !Gone(log, f))
    }

    constructor ()
      ensures Valid() && installed == {} && ring == []
    {
      ring, table, epoll, installed, log := [], [], map[], {}, [];
    }

    /** fdevent_register, when the descriptor is acceptable: the table doubles until it has the slot. */
    method Register(f: FdEvent, fd: nat)
      requires TableSize(|table|) && (fd < |table| || fd <= 32000)
      modifies this`table
      ensures TableSize(|table|) && fd < |table| && table[fd] == f && |old(table)| <= |table|
      ensures forall d :: 0 <= d < |old(table)| && d != fd ==> table[d] == old(table)[d]
    {
      if fd >= |table| {
        var max := |table|;
        if max == 0 { max := 256; }
        while max <= fd
          invariant TableSize(max) && max > 0 && max <= 32768 && |table| <= max
          decreases 32768 - max
        {
          max := max * 2;
        }
        var rest: seq<FdEvent?> := *;
        if |rest| != max - |table| { rest := seq(max - |table|, _ => null); }
        table := table + rest;
      }
      table := table[fd := f];
    }

    /** fdevent_install.  False stands for the fatal exits: a negative descriptor, or one too large for a
        table that does not hold it yet. */
    method Install(f: FdEvent, fd: int) returns (ok: bool)
      requires Valid() && f !in installed
      requires forall g :: g in installed ==> g.fd != fd
      modifies this`table, this`installed, this`log, f
      ensures ok <==> 0 <= fd && (fd < |old(table)| || fd <= 32000)
      ensures Valid()
      ensures installed == if ok then old(installed) + {f} else old(installed)
      ensures ok ==> f.fd == fd && f.Watched() == NONE && f.Recorded() == NONE && !f.Pending()
      ensures log == if ok then old(log) + [Installed(f)] else old(log)
    {
      hide MaskOf, Interest, IsActive, IsPending, Watchable, Gone, NoGhostCalls, TableSize, NoDup;
      if fd < 0 || (fd >= |table| && fd > 32000) { return false; }
      f.Reset(fd);
      Register(f, fd);
      installed := installed + {f};
      NoteAdded(log, Installed(f));
      log := log + [Installed(f)];
      ok := true;
    }

    /** fdevent_update: the interest and the epoll set change together.  The request is legal, so epoll_ctl
        cannot fail. */
    method Update(f: FdEvent, w: bv16)
      requires f.Plain() && Watchable(w) && (f.fd in epoll <==> !f.Watched().Empty())
      modifies this`epoll, f`state
      ensures f.Plain() && f.Watched() == MaskOf(w) && Interest(f.state) == w
      ensures f.Active() == old(f.Active()) && f.Pending() == old(f.Pending())
      ensures epoll == if MaskOf(w).Empty() then old(epoll) - {f.fd} else old(epoll)[f.fd := MaskOf(w)]
    {
      hide MaskOf, Interest, IsActive, IsPending, Watchable, UpdateOp;
      var was := Interest(f.state);
      ZeroIsEmpty(was);
      WatchableBits(was);
      UpdateIsLegal(was, w);
      f.Watch(w);
      var op := UpdateOp(was, w);
      assert Legal(op, f.fd in epoll);
      UpdateOpIs(was, w);
      match op
      case Add => epoll := epoll[f.fd := MaskOf(w)];
      case Mod => epoll := epoll[f.fd := MaskOf(w)];
      case Del => epoll := epoll - {f.fd};
      case Keep => assert epoll - {f.fd} == epoll;
    }

    method Retarget(f: FdEvent, w: bv16)
      requires Valid() && f in installed && Watchable(w)
      modifies this`epoll, f`state
      ensures Valid() && f.Watched() == MaskOf(w) && Interest(f.state) == w && f.Pending() == old(f.Pending())
    {
      hide MaskOf, Interest, IsActive, IsPending, Watchable, Gone, NoGhostCalls, TableSize, NoDup;
      Update(f, w);
      forall d | d in epoll ensures exists g :: g in installed && g.fd == d {
        if d != f.fd { assert d in old(epoll); }
      }
      assert forall g :: g in installed && g != f ==> EventOk(g);
    }

    /** The end of fdevent_set: of the recorded events only those outside the new mask stay. */
    method Trim(f: FdEvent, w: bv16)
      requires Valid() && f in installed && f.Pending()
      modifies this`ring, this`log, f`events, f`state
      ensures Valid() && f.Recorded() == old(f.Recorded()).Minus(MaskOf(w)) && f.Watched() == old(f.Watched())
      ensures f.Pending() <==> !f.Recorded().Empty()
      ensures ring == if f.Pending() then old(ring) else Without(old(ring), f)
      ensures log == if f.Pending() then old(log) else old(log) + [Withdrawn(f)]
    {
      hide MaskOf, Interest, IsActive, IsPending, Watchable, Gone, NoGhostCalls, TableSize, Without, NoDup;
      f.Discard(w);
      if f.events == 0 { Withdraw(f); }
      assert forall g :: g in installed && g != f ==> EventOk(g);
    }

    /** fdevent_plist_remove, and the flag. */
    method Withdraw(f: FdEvent)
      requires f in installed && WatchOk(f) && f.Recorded().Empty()
      requires forall g :: g in installed && g != f ==> EventOk(g)
      requires NoDup(ring) && (forall g :: g in ring ==> g in installed)
      requires forall d :: d in epoll ==> exists g :: g in installed && g.fd == d
      requires TableSize(|table|) && NoGhostCalls(log) && forall g :: g in installed ==> !Gone(log, g)
      modifies this`ring, this`log, f`state
      ensures Valid() && !f.Pending() && f.Watched() == old(f.Watched())
      ensures ring == Without(old(ring), f) && log == old(log) + [Withdrawn(f)]
    {
      hide MaskOf, Interest, IsActive, IsPending, Watchable, Gone, NoGhostCalls, TableSize, Without, NoDup;
      WithoutFacts(ring, f);
      ring := Without(ring, f);
      f.Lower();
      NoteAdded(log, Withdrawn(f));
      log := log + [Withdrawn(f)];
      assert forall g :: g in installed && g != f ==> EventOk(g);
    }

    /** fdevent_set. */
    method Set(f: FdEvent, events: bv16)
      requires Valid() && f in installed && Watchable(Interest(events))
      modifies this`ring, this`epoll, this`log, f`state, f`events
      ensures Valid()
      ensures f.Watched() == MaskOf(events)
      ensures f.Recorded() == if old(f.Pending()) && MaskOf(events) != old(f.Watched())
                              then old(f.Recorded()).Minus(MaskOf(events)) else old(f.Recorded())
      ensures f.Pending() <==> old(f.Pending()) && !f.Recorded().Empty()
      ensures ring == if old(f.Pending()) && !f.Pending() then Without(old(ring), f) else old(ring)
      ensures log == if old(f.Pending()) && !f.Pending() then old(log) + [Withdrawn(f)] else old(log)
    {
      hide MaskOf, Interest, IsActive, IsPending, Watchable, Gone, NoGhostCalls, TableSize, Without, NoDup;
      var w := Interest(events);
      InterestTwice(events);
      SameMask(Interest(f.state), w);
      if Interest(f.state) == w { return; }
      Retarget(f, w);
      if f.Pending() { Trim(f, w); }
    }

    /** fdevent_add. */
    method Add(f: FdEvent, events: bv16)
      requires Valid() && f in installed && Watchable(Interest(events))
      modifies this`ring, this`epoll, this`log, f`state, f`events
      ensures Valid() && f.Watched() == old(f.Watched()).Plus(MaskOf(events))
      ensures Shrunk(old(ring), old(log)) && (log == old(log) || log == old(log) + [Withdrawn(f)])
    {
      hide MaskOf, Interest, IsActive, IsPending, Watchable, Gone, NoGhostCalls, TableSize, Without, NoDup;
      InterestTwice(events);
      OrIsPlus(Interest(f.state), Interest(events));
      var w := Interest(f.state) | Interest(events);
      WatchableIsInterest(w);
      ghost var was, before := ring, log;
      Set(f, w);
      ShrunkBySet(f, was, before);
    }

    /** fdevent_del.  A READ already recorded survives its deletion. */
    method Del(f: FdEvent, events: bv16)
      requires Valid() && f in installed && Watchable(Interest(events))
      modifies this`ring, this`epoll, this`log, f`state, f`events
      ensures Valid() && f.Watched() == old(f.Watched()).Minus(MaskOf(events))
      ensures MaskOf(events).read ==> f.Recorded().read == old(f.Recorded()).read
      ensures Shrunk(old(ring), old(log)) && (log == old(log) || log == old(log) + [Withdrawn(f)])
    {
      hide MaskOf, Interest, IsActive, IsPending, Watchable, Gone, NoGhostCalls, TableSize, Without, NoDup, Cleared;
      InterestTwice(events);
      AndNotIsMinus(Interest(f.state), Interest(events));
      var w := Cleared(Interest(f.state), Interest(events));
      WatchableIsInterest(w);
      ghost var was, before := ring, log;
      Set(f, w);
      ShrunkBySet(f, was, before);
    }

    /** Nothing joined the ring, and whatever left it is accounted for. */
    ghost predicate Shrunk(was: seq<FdEvent>, before: seq<Note>)
      reads this
    {
      && |ring| <= |was| && (forall g :: g in ring ==> g in was)
      && before <= log && Accounted(was, |before|, ring, log)
    }

    lemma ShrunkBySet(f: FdEvent, was: seq<FdEvent>, before: seq<Note>)
      requires (ring == was && log == before) || (ring == Without(was, f) && log == before + [Withdrawn(f)])
      ensures Shrunk(was, before)
    {
      WithoutFacts(was, f);
      LeavesWithNote(was, before, Withdrawn(f));
    }

    /** fdevent_remove. */
    method Remove(f: FdEvent)
      requires Valid() && f in installed
      modifies this`ring, this`epoll, this`table, this`installed, this`log, f`state, f`events
      ensures Valid() && installed == old(installed) - {f}
      ensures ring == Without(old(ring), f) && epoll == old(epoll) - {f.fd}
      ensures log == old(log) + [Removed(f)] && |table| == |old(table)|
    {
      hide MaskOf, Interest, IsActive, IsPending, Watchable, Gone, NoGhostCalls, TableSize, Without, NoDup;
      Unlink(f);
      Forget(f);
      NoteAdded(log, Removed(f));
      log := log + [Removed(f)];
    }

    /** The first line of fdevent_remove. */
    method Unlink(f: FdEvent)
      requires Valid() && f in installed
      modifies this`ring
      ensures ring == Without(old(ring), f) && f !in ring && NoDup(ring) && forall g :: g in ring ==> g in installed
      ensures WatchOk(f) && forall g :: g in installed && g != f ==> EventOk(g)
    {
      hide MaskOf, Interest, IsActive, IsPending, Watchable, Gone, NoGhostCalls, TableSize, Without, NoDup;
      WithoutFacts(ring, f);
      if f.Pending() { ring := Without(ring, f); }
      assert forall g :: g in installed && g != f ==> EventOk(g);
    }

    /** fdevent_disconnect and fdevent_unregister, on an event that has left the ring. */
    method Forget(f: FdEvent)
      requires f in installed && WatchOk(f) && f !in ring
      requires forall g :: g in installed && g != f ==> EventOk(g)
      requires (forall g :: g in ring ==> g in installed)
      requires forall d :: d in epoll ==> exists g :: g in installed && g.fd == d
      modifies this`epoll, this`table, this`installed, f`state, f`events
      ensures installed == old(installed) - {f} && epoll == old(epoll) - {f.fd} && |table| == |old(table)|
      ensures forall g :: g in installed ==> EventOk(g)
      ensures forall d :: d in epoll ==> exists g :: g in installed && g.fd == d
    {
      hide MaskOf, Interest, IsActive, IsPending, Watchable;
      epoll := epoll - {f.fd};
      table := table[f.fd := null];
      installed := installed - {f};
      assert forall g :: g in installed ==> g.fd != f.fd;
      f.Retire();
    }

    // ---------- dispatch ----------

    /** The loop of fdevent_process over what epoll_wait reported: each event records what was reported for
        it, and an event not yet pending joins the end of the ring. */
    method Process(reports: seq<(FdEvent, Mask)>)
      requires Valid() && forall i :: 0 <= i < |reports| ==> reports[i].0 in installed
      modifies this`ring, installed`events, installed`state
      ensures Valid() && old(ring) <= ring
      ensures forall f :: f in ring <==> f in old(ring) || Reported(reports, |reports|, f)
      ensures forall f :: f in installed ==> f.Recorded() == old(f.Recorded()).Plus(Union(reports, |reports|, f))
      ensures forall f :: f in installed ==> f.Watched() == old(f.Watched())
    {
      hide MaskOf, Interest, IsActive, IsPending, Watchable, Gone, NoGhostCalls, TableSize, NoDup, EventOk;
      var i := 0;
      while i < |reports|
        invariant 0 <= i <= |reports| && Valid() && old(ring) <= ring
        invariant forall f :: f in ring <==> f in old(ring) || Reported(reports, i, f)
        invariant forall f :: f in installed ==> f.Recorded() == old(f.Recorded()).Plus(Union(reports, i, f))
        invariant forall f :: f in installed ==> f.Watched() == old(f.Watched())
      {
        Record(reports[i].0, reports[i].1);
        i := i + 1;
      }
    }

    method Record(f: FdEvent, m: Mask)
      requires Valid() && f in installed
      modifies this`ring, f`events, f`state
      ensures Valid() && old(ring) <= ring
      ensures forall g :: g in ring <==> g in old(ring) || (g == f && !m.Empty())
      ensures f.Recorded() == old(f.Recorded()).Plus(m) && f.Watched() == old(f.Watched())
    {
      hide MaskOf, Interest, IsActive, IsPending, Watchable, Gone, NoGhostCalls, TableSize;
      MaskOfBits(m);
      f.Gather(Bits(m));
      if f.events != 0 && !f.Pending() {
        f.Raise();
        ring := ring + [f];
      }
      assert forall g :: g in installed && g != f ==> EventOk(g);
      assert EventOk(f);
    }

    /** fdevent_call_fdfunc up to the call: the event is no longer in the ring; its word and its flag are
        cleared before the callback runs. */
    method Begin(f: FdEvent) returns (events: bv16)
      requires f in installed && f.Pending() && !f.Recorded().Empty() && f !in ring && WatchOk(f)
      requires forall g :: g in installed && g != f ==> EventOk(g)
      requires NoDup(ring) && (forall g :: g in ring ==> g in installed)
      requires forall d :: d in epoll ==> exists g :: g in installed && g.fd == d
      requires TableSize(|table|) && NoGhostCalls(log) && forall g :: g in installed ==> !Gone(log, g)
      modifies this`log, f`events, f`state
      ensures Valid() && MaskOf(events) == old(f.Recorded()) && log == old(log) + [Ran(f, old(f.Recorded()))]
      ensures f.Recorded() == NONE && !f.Pending() && f.Watched() == old(f.Watched())
    {
      hide MaskOf, Interest, IsActive, IsPending, Watchable, Gone, NoGhostCalls, TableSize, NoDup;
      NoteAdded(log, Ran(f, f.Recorded()));
      log := log + [Ran(f, f.Recorded())];
      events := f.Collect();
      f.Lower();
      assert forall g :: g in installed && g != f ==> EventOk(g);
      assert EventOk(f);
    }

    /** fdevent_subproc_event_func on the event of an ended process: READ is added; if the event was not
        pending its callback runs at once, without passing through the ring. */
    method Force(f: FdEvent)
      requires Valid() && f in installed
      modifies this`log, f`events, f`state
      ensures Valid()
      ensures old(f.Pending()) ==> f.Recorded() == old(f.Recorded()).Plus(READ) && log == old(log)
      ensures !old(f.Pending()) ==> f.Recorded() == NONE && log == old(log) + [Ran(f, READ)]
    {
      hide MaskOf, Interest, IsActive, IsPending, Watchable, Gone, NoGhostCalls, TableSize, NoDup;
      assert !f.Pending() ==> f.Recorded() == NONE;
      ReadWord();
      f.Gather(FDE_READ);
      if f.Pending() {
        assert forall g :: g in installed && g != f ==> EventOk(g);
        assert EventOk(f);
        return;
      }
      assert f.Recorded() == READ;
      f.Raise();
      assert forall g :: g in installed && g != f ==> EventOk(g);
      var ev := Begin(f);
    }

    /** A note that a callback operates on f. */
    ghost method Touch(f: FdEvent)
      requires Valid() && f in installed
      modifies this`log
      ensures Valid() && log == old(log) + [Touched(f)]
    {
      hide MaskOf, Interest, IsActive, IsPending, Watchable, Gone, NoGhostCalls, TableSize, NoDup;
      NoteAdded(log, Touched(f));
      log := log + [Touched(f)];
    }

    /** An operation on an installed event; masks outside READ, WRITE and ERROR are skipped. */
    method Operate(op: Op)
      requires Valid() && op.f in installed && !op.DoInstall?
      modifies this`ring, this`epoll, this`table, this`installed, this`log, op.f`state, op.f`events
      ensures Valid() && installed <= old(installed) && Shrunk(old(ring), old(log))
      ensures forall i :: |old(log)| <= i < |log| ==> log[i].f == op.f
      ensures op.DoSet? && Watchable(Interest(op.w)) ==> op.f.Watched() == MaskOf(op.w)
      ensures op.DoAdd? && Watchable(Interest(op.w)) ==> op.f.Watched() == old(op.f.Watched()).Plus(MaskOf(op.w))
      ensures op.DoDel? && Watchable(Interest(op.w)) ==> op.f.Watched() == old(op.f.Watched()).Minus(MaskOf(op.w))
      ensures op.f !in installed <==> op.DoRemove?
    {
      hide MaskOf, Interest, IsActive, IsPending, Watchable, Gone, NoGhostCalls, TableSize, NoDup, Without;
      ghost var was, before := ring, log;
      SameIsAccounted(ring, log);
      match op
      case DoSet(f, w) =>
        if Watchable(Interest(w)) { Set(f, w); ShrunkBySet(f, was, before); }
      case DoAdd(f, w) =>
        if Watchable(Interest(w)) { Add(f, w); }
      case DoDel(f, w) =>
        if Watchable(Interest(w)) { Del(f, w); }
      case DoRemove(f) =>
        Remove(f);
        WithoutFacts(was, f);
        LeavesWithNote(was, before, Removed(f));
      case DoForce(f) => Force(f);
    }

    /** Any one operation of a callback.  Operations on events that are not installed, and installs that
        the kernel or the caller would never ask for, are skipped. */
    method Perform(op: Op, universe: set<FdEvent>)
      requires Valid() && installed <= universe && op.f in universe
      modifies this, universe
      ensures Valid() && installed <= universe && Shrunk(old(ring), old(log))
      ensures OnlyAbout(log, |old(log)|, op.f)
      ensures forall g :: g in old(ring) && Untold(log, |old(log)|, g) ==> g.Recorded() == old(g.Recorded())
    {
      hide MaskOf, Interest, IsActive, IsPending, Watchable, Gone, NoGhostCalls, TableSize, NoDup, Without, Accounted;
      ghost var was, before := ring, log;
      SameIsAccounted(ring, log);
      if op.DoInstall? {
        if op.f !in installed && forall g :: g in installed ==> g.fd != op.fd {
          var ok := Install(op.f, op.fd);
          LongerIsAccounted(was, before, log);
        }
      } else if op.f in installed {
        Touch(op.f);
        ghost var touched := log;
        assert touched[|before|].f == op.f;
        LongerIsAccounted(was, before, touched);
        Operate(op);
        AccountedChain(was, |before|, was, touched, ring, log);
        assert log[|before|] == touched[|before|];
      }
    }

    /** A callback: any list of operations.  It can only shrink the ring; what it does not operate upon keeps
        what is recorded for it; and it delivers nothing that it has not operated upon. */
    method Callback(script: seq<Op>, universe: set<FdEvent>, ghost n: nat, ghost marks: map<FdEvent, Mask>)
      requires Valid() && installed <= universe && forall i :: 0 <= i < |script| ==> script[i].f in universe
      requires n <= |log| && FirstRuns(log, n, marks)
      modifies this, universe
      ensures Valid() && installed <= universe && Shrunk(old(ring), old(log)) && FirstRuns(log, n, marks)
      ensures forall g :: g in old(ring) && Untold(log, |old(log)|, g) ==> g.Recorded() == old(g.Recorded())
    {
      hide Gone, NoGhostCalls, TableSize, NoDup, EventOk, Accounted, FirstRuns, OnlyAbout;
      SameIsAccounted(ring, log);
      var i := 0;
      while i < |script|
        invariant 0 <= i <= |script| && Valid() && installed <= universe && Shrunk(old(ring), old(log))
        invariant FirstRuns(log, n, marks)
        invariant forall g :: g in old(ring) && Untold(log, |old(log)|, g) ==> g.Recorded() == old(g.Recorded())
      {
        ghost var ring1, log1 := ring, log;
        Perform(script[i], universe);
        OperationRunsNoneFirst(log1, log, n, script[i].f, marks);
        UntoldStays(old(ring), ring1, log1, log, |old(log)|);
        AccountedChain(old(ring), |old(log)|, ring1, log1, ring, log);
        i := i + 1;
      }
    }

    /** fdevent_plist_dequeue and fdevent_call_fdfunc up to the call. */
    method Dequeue() returns (f: FdEvent, events: bv16)
      requires Valid() && ring != []
      modifies this`ring, this`log, installed`events, installed`state
      ensures Valid() && f == old(ring)[0] && ring == old(ring)[1..] && MaskOf(events) == old(f.Recorded())
      ensures log == old(log) + [Ran(f, MaskOf(events))] && !f.Pending() && f.Recorded() == NONE
      ensures forall g :: g in installed && g != f ==> g.Recorded() == old(g.Recorded())
    {
      hide MaskOf, Interest, IsActive, IsPending, Watchable, Gone, NoGhostCalls, TableSize;
      f := ring[0];
      assert f in ring;
      assert forall g :: g in ring[1..] <==> g in ring && g != f;
      ring := ring[1..];
      assert forall g :: g in installed && g != f ==> EventOk(g);
      events := Begin(f);
    }

    /** What is recorded for the events of the ring. */
    ghost function Marks(): map<FdEvent, Mask>
      reads this, ring
    {
      map f | f in ring :: f.Recorded()
    }

    /** The dispatch loop of fdevent_loop, with any behaviour of the callbacks: it ends because the ring
        only shrinks; whatever was pending has been delivered, removed or withdrawn; and an event that no
        earlier callback operated upon is delivered with exactly what was recorded for it. */
    method Dispatch(scripts: seq<seq<Op>>, universe: set<FdEvent>)
      requires Valid() && installed <= universe
      requires forall i, j :: 0 <= i < |scripts| && 0 <= j < |scripts[i]| ==> scripts[i][j].f in universe
      modifies this, universe
      ensures Valid() && ring == [] && old(log) <= log
      ensures forall f :: f in old(ring) ==> Noted(log, |old(log)|, f)
      ensures FirstRuns(log, |old(log)|, old(Marks()))
    {
      hide Gone, NoGhostCalls, TableSize, NoDup, EventOk, Accounted, Without, FirstRuns;
      SameIsAccounted(ring, log);
      ghost var marks := Marks();
      NoRunsYet(log, marks);
      var n := 0;
      while ring != []
        invariant Valid() && installed <= universe && old(log) <= log && 0 <= n
        invariant Accounted(old(ring), |old(log)|, ring, log)
        invariant FirstRuns(log, |old(log)|, marks)
        invariant forall g :: g in ring && Untold(log, |old(log)|, g) ==> g in marks && g.Recorded() == marks[g]
        decreases |ring|
      {
        ghost var ring1, log1 := ring, log;
        ghost var f0 := ring[0];
        assert f0 in ring;
        DeliveryRunsFirst(log, |old(log)|, f0, f0.Recorded(), marks);
        NotTwice(ring);
        var f, events := Dequeue();
        DeliveredFirst(ring1, log1, ring, log);
        AccountedChain(old(ring), |old(log)|, ring1, log1, ring, log);
        UntoldBefore(log1, log, |old(log)|);
        if n < |scripts| {
          ghost var ring2, log2 := ring, log;
          Callback(scripts[n], universe, |old(log)|, marks);
          AccountedChain(old(ring), |old(log)|, ring2, log2, ring, log);
          UntoldBefore(log2, log, |old(log)|);
        }
        n := n + 1;
      }
      AllAccounted(old(ring), |old(log)|, log);
    }

    /** One turn of fdevent_loop.  Every event for which something was recorded or is reported is delivered,
        removed or withdrawn; and one that no earlier callback operated upon gets exactly what was recorded
        and reported for it. */
    method Turn(reports: seq<(FdEvent, Mask)>, scripts: seq<seq<Op>>, universe: set<FdEvent>)
      requires Valid() && installed <= universe && forall i :: 0 <= i < |reports| ==> reports[i].0 in installed
      requires forall i, j :: 0 <= i < |scripts| && 0 <= j < |scripts[i]| ==> scripts[i][j].f in universe
      modifies this, universe
      ensures Valid() && ring == []
      ensures forall f :: f in old(installed) && !old(f.Recorded()).Plus(Union(reports, |reports|, f)).Empty() ==>
                Noted(log, |old(log)|, f)
      ensures FirstRuns(log, |old(log)|, old(Due(reports)))
    {
      hide MaskOf, Interest, IsActive, IsPending, Watchable, Gone, NoGhostCalls, TableSize, NoDup, FirstRuns, Noted;
      ghost var due := Due(reports);
      Process(reports);
      PendingIsMarked(due);
      Dispatch(scripts, universe);
    }

    /** What an installed event is due, given these reports. */
    ghost function Due(reports: seq<(FdEvent, Mask)>): map<FdEvent, Mask>
      reads this, installed
    {
      map f | f in installed && !f.Recorded().Plus(Union(reports, |reports|, f)).Empty() ::
        f.Recorded().Plus(Union(reports, |reports|, f))
    }

    /** What is due is what the ring has marked. */
    lemma PendingIsMarked(due: map<FdEvent, Mask>)
      requires Valid()
      requires forall f :: f in due <==> f in installed && !f.Recorded().Empty()
      requires forall f :: f in due ==> due[f] == f.Recorded()
      ensures Marks() == due
      ensures forall f :: f in installed && !f.Recorded().Empty() ==> f in ring
    {
    }
  }

  lemma LongerIsAccounted(ring: seq<FdEvent>, before: seq<Note>, log: seq<Note>)
    ensures Accounted(ring, |before|, ring, log)
  {
  }

  lemma NoRunsYet(log: seq<Note>, marks: map<FdEvent, Mask>)
    ensures FirstRuns(log, |log|, marks)
  {
  }

  lemma UntoldBefore(log: seq<Note>, log': seq<Note>, n: nat)
    requires log <= log' && n <= |log|
    ensures forall f :: Untold(log', n, f) ==> Untold(log, n, f) && Untold(log', |log|, f)
  {
    forall f, i | Untold(log', n, f) && n <= i < |log| ensures log[i].f != f { assert log'[i] == log[i]; }
  }

  /** What was in the ring at first and is told nothing about was in it all the time. */
  lemma UntoldStays(was: seq<FdEvent>, ring: seq<FdEvent>, log: seq<Note>, log': seq<Note>, n: nat)
    requires log <= log' && n <= |log| && Accounted(was, n, ring, log)
    ensures forall f :: f in was && Untold(log', n, f) ==>
              f in ring && Untold(log, n, f) && Untold(log', |log|, f)
  {
    UntoldBefore(log, log', n);
  }

  lemma NotTwice(ring: seq<FdEvent>)
    requires NoDup(ring) && ring != []
    ensures forall g :: g in ring[1..] ==> g in ring && g != ring[0]
  {
  }

  /** One of the first n reports says something happened to f. */
  ghost predicate Reported(reports: seq<(FdEvent, Mask)>, n: nat, f: FdEvent)
    requires n <= |reports|
  {
    exists i :: 0 <= i < n && reports[i].0 == f && !reports[i].1.Empty()
  }

  lemma SameIsAccounted(ring: seq<FdEvent>, log: seq<Note>)
    ensures Accounted(ring, |log|, ring, log)
  {
  }

  lemma DeliveredFirst(was: seq<FdEvent>, before: seq<Note>, now: seq<FdEvent>, log: seq<Note>)
    requires was != [] && now == was[1..] && |log| == |before| + 1 && before <= log
    requires log[|before|].Ran? && log[|before|].f == was[0]
    ensures Accounted(was, |before|, now, log)
  {
    forall f | f in was && f !in now ensures Noted(log, |before|, f) {
      assert f == was[0];
      assert log[|before|].f == f;
    }
  }

  lemma AllAccounted(was: seq<FdEvent>, n: nat, log: seq<Note>)
    requires Accounted(was, n, [], log)
    ensures forall f :: f in was ==> Noted(log, n, f)
  {
  }

  lemma ReadWord()
    ensures Watchable(FDE_READ) && MaskOf(FDE_READ) == READ
  {
  }

  lemma UpdateOpIs(was: bv16, now: bv16)
    requires Watchable(now)
    ensures UpdateOp(was, now).Add? || UpdateOp(was, now).Mod? <==> !MaskOf(now).Empty()
    ensures UpdateOp(was, now).Keep? <==> MaskOf(now).Empty() && was == 0
  {
    WatchableBits(now);
    ZeroIsEmpty(now);
  }
}
