/** The words of an fdevent.  An event word is a set of bits; the state word packs such a word with the
    ACTIVE and PENDING flags.  A mask is what a word says about READ, WRITE and ERROR; the lemmas show what
    the word arithmetic of the event loop does to masks and flags. */
module FdBits {

  const FDE_READ: bv16 := 0x0001
  const FDE_WRITE: bv16 := 0x0002
  const FDE_ERROR: bv16 := 0x0004
  const FDE_EVENTMASK: bv16 := 0x00ff
  const FDE_STATEMASK: bv16 := 0xff00
  const FDE_ACTIVE: bv16 := 0x0100
  const FDE_PENDING: bv16 := 0x0200
  const WATCHABLE: bv16 := 0x0007

  datatype Mask = Mask(read: bool, write: bool, error: bool) {
    predicate Empty() { !read && !write && !error }

    function Plus(m: Mask): Mask { Mask(read || m.read, write || m.write, error || m.error) }

    function Minus(m: Mask): Mask { Mask(read && !m.read, write && !m.write, error && !m.error) }
  }

  const NONE := Mask(false, false, false)
  const READ := Mask(true, false, false)

  function MaskOf(w: bv16): Mask { Mask(w & FDE_READ != 0, w & FDE_WRITE != 0, w & FDE_ERROR != 0) }

  /** A word inside READ|WRITE|ERROR. */
  predicate Watchable(w: bv16) { w & !WATCHABLE == 0 }

  /** The three ifs that turn a report of the kernel into event bits. */
  function Bits(m: Mask): bv16 {
    (if m.read then FDE_READ else 0) | (if m.write then FDE_WRITE else 0) | (if m.error then FDE_ERROR else 0)
  }

  function Interest(state: bv16): bv16 { state & FDE_EVENTMASK }

  predicate IsActive(state: bv16) { state & FDE_ACTIVE != 0 }

  predicate IsPending(state: bv16) { state & FDE_PENDING != 0 }

  // ---------- event words ----------

  lemma MaskOfBits(m: Mask)
    ensures Watchable(Bits(m)) && MaskOf(Bits(m)) == m
  {
  }

  /** A watchable word is its mask. */
  lemma SameMask(v: bv16, w: bv16)
    requires Watchable(v) && Watchable(w)
    ensures v == w <==> MaskOf(v) == MaskOf(w)
  {
  }

  lemma ZeroIsEmpty(w: bv16)
    requires Watchable(w)
    ensures w == 0 <==> MaskOf(w).Empty()
  {
  }

  lemma OrIsPlus(v: bv16, w: bv16)
    requires Watchable(v) && Watchable(w)
    ensures Watchable(v | w) && MaskOf(v | w) == MaskOf(v).Plus(MaskOf(w))
  {
  }

  /** v & ~w. */
  function Cleared(v: bv16, w: bv16): bv16 { v & !w }

  lemma AndNotIsMinus(v: bv16, w: bv16)
    requires Watchable(v)
    ensures Watchable(Cleared(v, w)) && MaskOf(Cleared(v, w)) == MaskOf(v).Minus(MaskOf(w))
  {
  }

  lemma InterestTwice(w: bv16)
    ensures Interest(Interest(w)) == Interest(w) && MaskOf(Interest(w)) == MaskOf(w)
  {
  }

  lemma WatchableIsInterest(w: bv16)
    requires Watchable(w)
    ensures Interest(w) == w
  {
  }

  // ---------- state words ----------

  /** The state word with its interest replaced. */
  function Replaced(state: bv16, events: bv16): bv16 { (state & FDE_STATEMASK) | events }

  lemma ReplacedInterest(state: bv16, events: bv16)
    requires Watchable(events)
    ensures Interest(Replaced(state, events)) == events
  {
  }

  lemma ReplacedActive(state: bv16, events: bv16)
    requires Watchable(events)
    ensures IsActive(Replaced(state, events)) <==> IsActive(state)
  {
  }

  lemma ReplacedPending(state: bv16, events: bv16)
    requires Watchable(events)
    ensures IsPending(Replaced(state, events)) <==> IsPending(state)
  {
  }

  lemma RaisePending(state: bv16)
    ensures var s := state | FDE_PENDING;
      Interest(s) == Interest(state) && (IsActive(s) <==> IsActive(state)) && IsPending(s)
  {
  }

  lemma ClearPending(state: bv16)
    ensures var s := state & !FDE_PENDING;
      Interest(s) == Interest(state) && (IsActive(s) <==> IsActive(state)) && !IsPending(s)
  {
  }

  lemma FreshState()
    ensures Interest(FDE_ACTIVE) == 0 && IsActive(FDE_ACTIVE) && !IsPending(FDE_ACTIVE) && Watchable(0)
    ensures Interest(0) == 0 && !IsActive(0) && !IsPending(0) && MaskOf(0) == NONE
  {
  }

  // ---------- epoll requests ----------

  datatype EpollOp = Add | Mod | Del | Keep

  /** What fdevent_update asks of epoll_ctl when the interest bits go from `was` to `now`. */
  function UpdateOp(was: bv16, now: bv16): EpollOp {
    if now & WATCHABLE != 0 then (if was != 0 then Mod else Add)
    else if was != 0 then Del else Keep
  }

  predicate Legal(op: EpollOp, present: bool) {
    match op
    case Add => !present
    case Mod => present
    case Del => present
    case Keep => true
  }

  /** With an epoll entry present exactly when a watchable bit was set, the request is legal exactly when
      the old interest was empty or had such a bit.  A mask such as FDE_TIMEOUT alone breaks it: the
      next change asks to modify or delete an absent entry. */
  lemma UpdateIsLegal(was: bv16, now: bv16)
    ensures Legal(UpdateOp(was, now), was & WATCHABLE != 0) <==> (was == 0 || was & WATCHABLE != 0)
  {
  }

  lemma WatchableBits(w: bv16)
    requires Watchable(w)
    ensures w & WATCHABLE == w
  {
  }
}
