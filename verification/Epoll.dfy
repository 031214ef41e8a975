/** The poller and the kernel interest set it drives, as values.

    `Poller` holds what net/poller/epoll_poller.cc keeps (`channels_` and, in each
    channel, `events_` and `idx_`) next to the interest set the kernel keeps behind
    the epoll descriptor.  The type of channels is a parameter: the classes of
    module Polling use channel objects, the server protocol uses connection ids.
 */
module Epoll {

  /** The bits of an epoll event mask that this library reads or sets. */
  datatype Mask = Mask(input: bool, priority: bool, output: bool, error: bool, hangUp: bool) {
    /** this | m */
    function Or(m: Mask): Mask {
      Mask(input || m.input, priority || m.priority, output || m.output, error || m.error, hangUp || m.hangUp)
    }

    /** this & ~m */
    function Without(m: Mask): Mask {
      Mask(input && !m.input, priority && !m.priority, output && !m.output, error && !m.error, hangUp && !m.hangUp)
    }

    /** (this & m) != 0 */
    predicate Meets(m: Mask) {
      || (input && m.input) || (priority && m.priority) || (output && m.output)
      || (error && m.error) || (hangUp && m.hangUp)
    }
  }

  const NONE_EVENT := Mask(false, false, false, false, false)
  const EPOLLIN := NONE_EVENT.(input := true)
  const EPOLLOUT := NONE_EVENT.(output := true)

  /** EPOLLIN | EPOLLPRI */
  const READ_EVENT := EPOLLIN.(priority := true)
  const WRITE_EVENT := EPOLLOUT

  /** The named values of `idx_`: k_new, k_added and k_deleted. */
  datatype Index = New | Added | Deleted

  datatype CtlOp = Add | Mod | Del

  datatype Interest<C> = Interest(mask: Mask, target: C)

  /** What epoll_poller::update does with the result of epoll_ctl: nothing, an error
      line for a failed DEL, or the end of the process for a failed ADD or MOD. */
  datatype Outcome = Done | Logged | Fatal

  /** The two readings of channel::is_none_event: `events_ & k_none_event_`, as it is
      written, and the comparison with k_none_event_ that its name suggests. */
  datatype NoneTest = AsWritten | AgainstZero

  predicate IsNoneEvent(events: Mask, test: NoneTest) {
    match test
    case AsWritten => events.Meets(NONE_EVENT)
    case AgainstZero => events == NONE_EVENT
  }

  /** epoll_ctl(2): ADD needs an absent descriptor, MOD and DEL a present one. */
  function EpollCtl<C>(kernel: map<int, Interest<C>>, op: CtlOp, fd: int, ev: Interest<C>)
    : (map<int, Interest<C>>, bool)
  {
    match op
    case Add => if fd in kernel then (kernel, false) else (kernel[fd := ev], true)
    case Mod => if fd in kernel then (kernel[fd := ev], true) else (kernel, false)
    case Del => if fd in kernel then (kernel - {fd}, true) else (kernel, false)
  }

  datatype Chan = Chan(fd: int, events: Mask, idx: Index)

  datatype Poller<C(==)> = Poller(chans: map<C, Chan>, channels: map<int, C>, kernel: map<int, Interest<C>>)

  function Control<C>(p: Poller<C>, op: CtlOp, c: C): (Poller<C>, Outcome)
    requires c in p.chans
  {
    var ch := p.chans[c];
    var (kernel, ok) := EpollCtl(p.kernel, op, ch.fd, Interest(ch.events, c));
    (p.(kernel := kernel), if ok then Done else if op == Del then Logged else Fatal)
  }

  function WithIndex<C>(p: Poller<C>, c: C, idx: Index): Poller<C>
    requires c in p.chans
  {
    p.(chans := p.chans[c := p.chans[c].(idx := idx)])
  }

  function UpdateChannel<C>(p: Poller<C>, c: C, test: NoneTest): (Poller<C>, Outcome)
    requires c in p.chans
  {
    var ch := p.chans[c];
    if ch.idx != Added then
      var p1 := if ch.idx == New then p.(channels := p.channels[ch.fd := c]) else p;
      Control(WithIndex(p1, c, Added), Add, c)
    else if IsNoneEvent(ch.events, test) then
      var (p1, outcome) := Control(p, Del, c);
      (WithIndex(p1, c, Deleted), outcome)
    else
      Control(p, Mod, c)
  }

  function RemoveChannel<C>(p: Poller<C>, c: C): (Poller<C>, Outcome)
    requires c in p.chans
  {
    var ch := p.chans[c];
    var p1 := p.(channels := p.channels - {ch.fd});
    var (p2, outcome) := if ch.idx == Added then Control(p1, Del, c) else (p1, Done);
    (WithIndex(p2, c, New), outcome)
  }

  /** The enable_* and disable_* operations of a channel: set the mask, then update. */
  function SetEvents<C>(p: Poller<C>, c: C, events: Mask, test: NoneTest): (Poller<C>, Outcome)
    requires c in p.chans
  {
    UpdateChannel(p.(chans := p.chans[c := p.chans[c].(events := events)]), c, test)
  }

  /** `idx_` after a mask operation. */
  function IndexAfter(idx: Index, events: Mask, test: NoneTest): Index {
    if idx == Added && IsNoneEvent(events, test) then Deleted else Added
  }

  /** The kernel mirror.  `idx_` says k_added exactly when the kernel holds the
      descriptor for this channel, and then with the channel's own mask; `channels_`
      holds exactly the channels whose `idx_` is not k_new. */
  ghost predicate Mirror<C>(p: Poller<C>) {
    && (forall c | c in p.chans ::
          p.chans[c].idx == Added ==>
            p.chans[c].fd in p.kernel && p.kernel[p.chans[c].fd] == Interest(p.chans[c].events, c))
    && (forall c | c in p.chans ::
          p.chans[c].idx != New ==> p.chans[c].fd in p.channels && p.channels[p.chans[c].fd] == c)
    && (forall fd | fd in p.kernel ::
          var c := p.kernel[fd].target;
          c in p.chans && p.chans[c].fd == fd && p.chans[c].idx == Added)
    && (forall fd | fd in p.channels ::
          var c := p.channels[fd];
          c in p.chans && p.chans[c].fd == fd && p.chans[c].idx != New)
  }

  /** No other channel that the poller knows has the descriptor of `c`. */
  ghost predicate Exclusive<C>(p: Poller<C>, c: C)
    requires c in p.chans
  {
    forall d | d in p.chans && d != c :: p.chans[d].idx != New ==> p.chans[d].fd != p.chans[c].fd
  }

  /** What is done to channel `a`, if it or channel `b` has been registered, leaves `b` alone
      with its descriptor. */
  lemma StillExclusive<C>(p: Poller<C>, p': Poller<C>, a: C, b: C)
    requires a in p.chans && b in p.chans && a != b && p'.chans.Keys == p.chans.Keys
    requires forall d | d in p.chans && d != a :: p'.chans[d] == p.chans[d]
    requires p'.chans[a].fd == p.chans[a].fd && (p.chans[a].idx != New || p.chans[b].idx != New)
    requires Exclusive(p, b) && Exclusive(p', a)
    ensures Exclusive(p', b)
  {
    forall d | d in p'.chans && d != b
      ensures p'.chans[d].idx != New ==> p'.chans[d].fd != p'.chans[b].fd
    {
      assert d == a || p'.chans[d] == p.chans[d];
    }
  }

  lemma EnterMirror<C>(p: Poller<C>, c: C, ch: Chan)
    requires Mirror(p) && c in p.chans && Exclusive(p, c)
    requires ch.fd == p.chans[c].fd && ch.idx == Added
    ensures Mirror(Poller(p.chans[c := ch], p.channels[ch.fd := c], p.kernel[ch.fd := Interest(ch.events, c)]))
  {
  }

  lemma LeaveMirror<C>(p: Poller<C>, c: C, ch: Chan)
    requires Mirror(p) && c in p.chans && Exclusive(p, c)
    requires ch.fd == p.chans[c].fd && ch.idx == Deleted
    ensures Mirror(Poller(p.chans[c := ch], p.channels[ch.fd := c], p.kernel - {ch.fd}))
  {
  }

  lemma ForgetMirror<C>(p: Poller<C>, c: C, ch: Chan)
    requires Mirror(p) && c in p.chans && Exclusive(p, c)
    requires ch.fd == p.chans[c].fd && ch.idx == New
    ensures Mirror(Poller(p.chans[c := ch], p.channels - {ch.fd}, p.kernel - {ch.fd}))
  {
  }

  lemma SetEventsExclusive<C>(p: Poller<C>, c: C, events: Mask, test: NoneTest)
    requires Mirror(p) && c in p.chans && Exclusive(p, c)
    ensures var (p', outcome) := SetEvents(p, c, events, test); outcome == Done && Mirror(p')
  {
    var was := p.chans[c];
    var (p', outcome) := SetEvents(p, c, events, test);
    assert was.fd in p.kernel <==> was.idx == Added;
    assert was.idx != New ==> p.channels[was.fd := c] == p.channels;
    if was.idx == Added && IsNoneEvent(events, test) {
      var ch := Chan(was.fd, events, Deleted);
      LeaveMirror(p, c, ch);
      assert p' == Poller(p.chans[c := ch], p.channels[ch.fd := c], p.kernel - {ch.fd});
    } else {
      var ch := Chan(was.fd, events, Added);
      EnterMirror(p, c, ch);
      assert p' == Poller(p.chans[c := ch], p.channels[ch.fd := c], p.kernel[ch.fd := Interest(events, c)]);
    }
  }

  lemma SetEventsShared<C>(p: Poller<C>, c: C, d: C, events: Mask, test: NoneTest)
    requires Mirror(p) && c in p.chans && d in p.chans && d != c
    requires p.chans[d].idx != New && p.chans[d].fd == p.chans[c].fd
    ensures var (p', outcome) := SetEvents(p, c, events, test); outcome == Done ==> !Mirror(p')
  {
    var (p', outcome) := SetEvents(p, c, events, test);
    assert p.chans[c].idx == New;
    assert p'.chans[d] == p.chans[d];
    assert p'.channels[p.chans[c].fd] == c;
  }

  /** A mask operation is accepted by the kernel and keeps the mirror if and only if
      no other known channel has the descriptor; for either reading of is_none_event. */
  lemma SetEventsMirror<C>(p: Poller<C>, c: C, events: Mask, test: NoneTest)
    requires Mirror(p) && c in p.chans
    ensures var (p', outcome) := SetEvents(p, c, events, test);
            (outcome == Done && Mirror(p')) <==> Exclusive(p, c)
  {
    if Exclusive(p, c) {
      SetEventsExclusive(p, c, events, test);
    } else {
      var d :| d in p.chans && d != c && p.chans[d].idx != New && p.chans[d].fd == p.chans[c].fd;
      SetEventsShared(p, c, d, events, test);
    }
  }

  /** Removing never draws an error from the kernel, registered or not, once or twice;
      it keeps the mirror if and only if no other known channel has the descriptor. */
  lemma RemoveMirror<C>(p: Poller<C>, c: C)
    requires Mirror(p) && c in p.chans
    ensures var (p', outcome) := RemoveChannel(p, c);
            outcome == Done && (Mirror(p') <==> Exclusive(p, c))
  {
    var (p', outcome) := RemoveChannel(p, c);
    var fd := p.chans[c].fd;
    if Exclusive(p, c) {
      assert fd in p.kernel <==> p.chans[c].idx == Added;
      var ch := p.chans[c].(idx := New);
      ForgetMirror(p, c, ch);
      assert p' == Poller(p.chans[c := ch], p.channels - {fd}, p.kernel - {fd});
    } else {
      var d :| d in p.chans && d != c && p.chans[d].idx != New && p.chans[d].fd == fd;
      assert p'.chans[d] == p.chans[d];
    }
  }

  // ---- runs of operations ----

  datatype Op<C> = Set(c: C, events: Mask) | Remove(c: C)

  function Perform<C>(p: Poller<C>, op: Op<C>, test: NoneTest): (Poller<C>, Outcome)
    requires op.c in p.chans
  {
    match op
    case Set(c, events) => SetEvents(p, c, events, test)
    case Remove(c) => RemoveChannel(p, c)
  }

  /** Every operation names a channel of the poller. */
  predicate Known<C>(p: Poller<C>, ops: seq<Op<C>>) {
    forall i | 0 <= i < |ops| :: ops[i].c in p.chans
  }

  /** Descriptors of distinct channels are distinct: every socket behind them is open. */
  ghost predicate DistinctFds<C>(p: Poller<C>) {
    forall c, d | c in p.chans && d in p.chans && c != d :: p.chans[c].fd != p.chans[d].fd
  }

  /** The state after a run and whether the process got through it. */
  function PerformAll<C>(p: Poller<C>, ops: seq<Op<C>>, test: NoneTest): (r: (Poller<C>, bool))
    requires Known(p, ops)
    ensures r.0.chans.Keys == p.chans.Keys
    decreases |ops|
  {
    if ops == [] then (p, true)
    else
      var (p1, clean) := PerformAll(p, ops[..|ops| - 1], test);
      var (p2, outcome) := Perform(p1, ops[|ops| - 1], test);
      (p2, clean && outcome == Done)
  }

  lemma PerformMirrors<C>(p: Poller<C>, op: Op<C>, test: NoneTest)
    requires Mirror(p) && DistinctFds(p) && op.c in p.chans
    ensures var (p', outcome) := Perform(p, op, test);
            outcome == Done && Mirror(p') && p'.chans.Keys == p.chans.Keys
            && (forall c | c in p.chans :: p'.chans[c].fd == p.chans[c].fd)
  {
    match op
    case Set(c, events) => SetEventsMirror(p, c, events, test);
    case Remove(c) => RemoveMirror(p, c);
  }

  /** After any run of mask operations and removals, in any order and however often
      repeated, the mirror holds and no epoll_ctl call has failed. */
  lemma {:induction false} RunMirrors<C>(p: Poller<C>, ops: seq<Op<C>>, test: NoneTest)
    requires Mirror(p) && DistinctFds(p) && Known(p, ops)
    ensures var (p', clean) := PerformAll(p, ops, test);
            clean && Mirror(p') && (forall c | c in p.chans :: p'.chans[c].fd == p.chans[c].fd)
    decreases |ops|
  {
    if ops == [] {
    } else {
      RunMirrors(p, ops[..|ops| - 1], test);
      PerformMirrors(PerformAll(p, ops[..|ops| - 1], test).0, ops[|ops| - 1], test);
    }
  }

  lemma NoneNeverHolds<C>(op: Op<C>)
    ensures op.Set? ==> !IsNoneEvent(op.events, AsWritten)
  {
  }

  /** As it is written, is_none_event is false for every mask, so no run ever leaves a
      channel k_deleted: disable_all keeps the descriptor in the kernel with an empty mask. */
  lemma {:induction false} NeverDeleted<C>(p: Poller<C>, ops: seq<Op<C>>)
    requires Known(p, ops) && forall c | c in p.chans :: p.chans[c].idx != Deleted
    ensures forall c | c in p.chans :: PerformAll(p, ops, AsWritten).0.chans[c].idx != Deleted
    decreases |ops|
  {
    if ops == [] {
    } else {
      NeverDeleted(p, ops[..|ops| - 1]);
      NoneNeverHolds(ops[|ops| - 1]);
    }
  }

  /** So disable_all on a registered channel takes its descriptor out of the kernel's set
      exactly when the test compares with k_none_event_; as it is written it does not, and
      the kernel goes on reporting errors and hang-ups for an empty mask. */
  lemma DisableAllLeavesKernel<C>(p: Poller<C>, c: C, test: NoneTest)
    requires Mirror(p) && c in p.chans && p.chans[c].idx == Added
    ensures var (p', _) := SetEvents(p, c, NONE_EVENT, test);
            && (p.chans[c].fd !in p'.kernel <==> test == AgainstZero)
            && (test == AsWritten ==> p'.kernel[p.chans[c].fd] == Interest(NONE_EVENT, c))
  {
    var (p', _) := SetEvents(p, c, NONE_EVENT, test);
    assert p'.kernel == if test == AgainstZero then p.kernel - {p.chans[c].fd}
                        else p.kernel[p.chans[c].fd := Interest(NONE_EVENT, c)];
  }
}
