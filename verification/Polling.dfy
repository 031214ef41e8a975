/** net/channel and net/poller as objects.  Each method is specified by the value model of
    module Epoll, whose lemmas then give the kernel mirror. */
module Polling {
  import opened Epoll

  class Channel {
    const loop: EpollPoller
    const fd: int
    const noneTest: NoneTest
    var events: Mask
    var revents: Mask
    var idx: Index

    constructor (loop: EpollPoller, fd: int, noneTest: NoneTest)
      ensures this.loop == loop && this.fd == fd && this.noneTest == noneTest
      ensures events == NONE_EVENT && revents == NONE_EVENT && idx == New
    {
      this.loop, this.fd, this.noneTest := loop, fd, noneTest;
      events, revents, idx := NONE_EVENT, NONE_EVENT, New;
    }

    predicate IsWriting()
      reads this
    {
      events.Meets(WRITE_EVENT)
    }

    /** What the mask operations ask of their caller: the channel is one of its poller's,
        whose mirror holds, and no other channel there has its open descriptor. */
    ghost predicate Ready()
      reads this, loop, loop.managed`events, loop.managed`idx
    {
      this in loop.managed && loop.Valid() && Exclusive(loop.View(), this)
    }

    // The contracts of the five mask operations fix the mask and the index of this channel
    // and leave every other channel alone; the mirror, which Ready() carries, then leaves
    // one possibility for `channels` and one for the kernel's set.

    method EnableReading()
      requires Ready()
      modifies loop, this
      ensures Ready() && events == old(events).Or(READ_EVENT) && idx == IndexAfter(old(idx), events, noneTest)
      ensures events.input && events.priority && events.output == old(events).output
      ensures revents == old(revents) && loop.managed == old(loop.managed)
    {
      SetMask(events.Or(READ_EVENT));
    }

    method DisableReading()
      requires Ready()
      modifies loop, this
      ensures Ready() && events == old(events).Without(READ_EVENT) && idx == IndexAfter(old(idx), events, noneTest)
      ensures !events.input && !events.priority && events.output == old(events).output
      ensures revents == old(revents) && loop.managed == old(loop.managed)
    {
      SetMask(events.Without(READ_EVENT));
    }

    method EnableWriting()
      requires Ready()
      modifies loop, this
      ensures Ready() && events == old(events).Or(WRITE_EVENT) && idx == IndexAfter(old(idx), events, noneTest)
      ensures events == old(events).(output := true)
      ensures revents == old(revents) && loop.managed == old(loop.managed)
    {
      SetMask(events.Or(WRITE_EVENT));
    }

    method DisableWriting()
      requires Ready()
      modifies loop, this
      ensures Ready() && events == old(events).Without(WRITE_EVENT) && idx == IndexAfter(old(idx), events, noneTest)
      ensures events == old(events).(output := false)
      ensures revents == old(revents) && loop.managed == old(loop.managed)
    {
      SetMask(events.Without(WRITE_EVENT));
    }

    method DisableAll()
      requires Ready()
      modifies loop, this
      ensures Ready() && events == NONE_EVENT && idx == IndexAfter(old(idx), events, noneTest)
      ensures events == Mask(false, false, false, false, false)
      ensures revents == old(revents) && loop.managed == old(loop.managed)
    {
      SetMask(NONE_EVENT);
    }

    /** Set the mask, then channel::update: the common shape of the five above. */
    method SetMask(m: Mask)
      requires Ready()
      modifies loop, this
      ensures Ready() && loop.Did(old(loop.View()), this, m)
      ensures revents == old(revents) && loop.managed == old(loop.managed)
    {
      ghost var before := loop.View();
      SetEventsMirror(before, this, m, noneTest);
      events := m;
      assert loop.View().chans == before.chans[this := before.chans[this].(events := m)];
      var outcome := loop.UpdateChannel(this);
      assert (loop.View(), outcome) == SetEvents(before, this, m, noneTest);
      FdsStay(before, m);
    }

    lemma FdsStay(before: Poller<Channel>, m: Mask)
      requires this in before.chans && Exclusive(before, this)
      ensures Exclusive(SetEvents(before, this, m, noneTest).0, this)
    {
    }

    method Remove()
      requires Ready()
      modifies loop, this
      ensures Ready() && loop.View() == RemoveChannel(old(loop.View()), this).0
      ensures idx == New && fd !in loop.kernel && events == old(events) && revents == old(revents)
      ensures loop.managed == old(loop.managed)
    {
      RemoveMirror(loop.View(), this);
      var outcome := loop.RemoveChannel(this);
      assert outcome == Done;
    }
  }

  class EpollPoller {
    var channels: map<int, Channel>
    /** The interest set behind epoll_fd_: the kernel's state, not the program's. */
    var kernel: map<int, Interest<Channel>>
    /** The channels constructed for this poller's loop. */
    ghost var managed: set<Channel>

    ghost function View(): Poller<Channel>
      reads this, managed`events, managed`idx
    {
      Poller(map c | c in managed :: Chan(c.fd, c.events, c.idx), channels, kernel)
    }

    ghost predicate Valid()
      reads this, managed`events, managed`idx
    {
      Mirror(View())
    }

    /** The poller is in the state that setting the mask of `c` to `events` produces from
        `before`, with the mirror intact and every epoll_ctl call accepted. */
    ghost predicate Did(before: Poller<Channel>, c: Channel, events: Mask)
      requires c in before.chans
      reads this, managed`events, managed`idx
    {
      && (View(), Done) == SetEvents(before, c, events, c.noneTest)
      && Valid()
      && c in managed && c.events == events
      && c.idx == IndexAfter(before.chans[c].idx, events, c.noneTest)
    }

    constructor ()
      ensures Valid() && managed == {} && channels == map[] && kernel == map[]
    {
      channels, kernel, managed := map[], map[], {};
    }

    /** A channel constructed for this poller's loop is known to it, not yet registered. */
    ghost method Manage(c: Channel)
      requires Valid() && c.loop == this && c.idx == New && c !in managed
      requires forall d | d in managed && d.idx != New :: d.fd != c.fd
      modifies this`managed
      ensures c.Ready() && managed == old(managed) + {c}
    {
      managed := managed + {c};
      assert forall d | d in old(managed) :: View().chans[d] == old(View()).chans[d];
    }

    /** epoll_poller::update */
    method Control(op: CtlOp, c: Channel) returns (outcome: Outcome)
      requires c in managed
      modifies this`kernel
      ensures (View(), outcome) == Epoll.Control(old(View()), op, c)
    {
      var (after, ok) := EpollCtl(kernel, op, c.fd, Interest(c.events, c));
      kernel := after;
      outcome := if ok then Done else if op == Del then Logged else Fatal;
      assert View().chans == old(View()).chans;
    }

    method UpdateChannel(c: Channel) returns (outcome: Outcome)
      requires c in managed
      modifies this`channels, this`kernel, c`idx
      ensures managed == old(managed)
      ensures (View(), outcome) == Epoll.UpdateChannel(old(View()), c, c.noneTest)
    {
      if c.idx == New || c.idx == Deleted {
        if c.idx == New {
          channels := channels[c.fd := c];
        }
        c.idx := Added;
        assert View().chans == WithIndex(old(View()), c, Added).chans;
        outcome := Control(Add, c);
      } else if IsNoneEvent(c.events, c.noneTest) {
        outcome := Control(Del, c);
        ghost var mid := View();
        c.idx := Deleted;
        assert View().chans == WithIndex(mid, c, Deleted).chans;
      } else {
        outcome := Control(Mod, c);
      }
    }

    method RemoveChannel(c: Channel) returns (outcome: Outcome)
      requires c in managed
      modifies this`channels, this`kernel, c`idx
      ensures managed == old(managed)
      ensures (View(), outcome) == Epoll.RemoveChannel(old(View()), c)
    {
      channels := channels - {c.fd};
      assert View().chans == old(View()).chans;
      outcome := Done;
      if c.idx == Added {
        outcome := Control(Del, c);
      }
      ghost var mid := View();
      c.idx := New;
      assert View().chans == WithIndex(mid, c, New).chans;
    }

    predicate HasChannel(c: Channel)
      reads this
    {
      c.fd in channels && channels[c.fd] == c
    }

    /** What epoll_wait may report: distinct descriptors of the interest set, each with
        the channel stored for it. */
    ghost predicate Reported(evs: seq<Interest<Channel>>)
      reads this
    {
      && (forall i | 0 <= i < |evs| :: exists fd | fd in kernel :: kernel[fd].target == evs[i].target)
      && (forall i, j | 0 <= i < j < |evs| :: evs[i].target != evs[j].target)
    }

    /** The loop of fill_active_channels: the reported channels, in order, follow those
        already listed, each carrying its own reported mask; and since the mirror holds
        every one of them is registered, with has_channel true. */
    method FillActiveChannels(evs: seq<Interest<Channel>>, active: seq<Channel>) returns (filled: seq<Channel>)
      requires Valid() && Reported(evs)
      modifies set i | 0 <= i < |evs| :: evs[i].target`revents
      ensures |filled| == |active| + |evs| && filled[..|active|] == active
      ensures forall i | 0 <= i < |evs| :: filled[|active| + i] == evs[i].target
      ensures forall i | 0 <= i < |evs| ::
                evs[i].target in managed && evs[i].target.idx == Added && HasChannel(evs[i].target)
                && evs[i].target.revents == evs[i].mask
      ensures View() == old(View())
    {
      filled := active;
      for i := 0 to |evs|
        invariant |filled| == |active| + i && filled[..|active|] == active
        invariant forall k | 0 <= k < i :: filled[|active| + k] == evs[k].target
        invariant forall k | 0 <= k < i :: evs[k].target.revents == evs[k].mask
        invariant View() == old(View())
      {
        var c := evs[i].target;
        c.revents := evs[i].mask;
        filled := filled + [c];
      }
    }
  }
}
