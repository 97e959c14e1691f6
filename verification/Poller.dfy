/**
 Channel and EPollPoller as objects updated in place, with the kernel's interest set beside
 them. Each method is proved against its function in PollerSpec.dfy.
 */
module PollerObjects {
  import opened Events
  import Spec = PollerSpec
  import opened PollerSpec

  const INIT_EVENT_ARRAY_SIZE := 16

  class Channel {
    const id: nat           // stands for the address of this object
    const fd: nat
    const poller: EPollPoller
    var events: Mask
    var revents: Mask
    var index: Index

    constructor (id: nat, fd: nat, poller: EPollPoller)
      ensures this.id == id && this.poller == poller && revents == NONE
      ensures View() == Chan(fd, NONE, New)
    {
      this.id, this.fd, this.poller := id, fd, poller;
      events, revents, index := NONE, NONE, New;
    }

    function View(): Chan
      reads this
    {
      Chan(fd, events, index)
    }

    /** The asserts of updateChannel, and that the index agrees with the kernel. */
    ghost predicate Registered()
      reads this, poller
    {
      match index
      case New => fd !in poller.channels && fd !in poller.interest
      case Added => poller.Has(this) && fd in poller.interest && poller.interest[fd].channel == this && poller.interest[fd].mask == events
      case Deleted => poller.Has(this) && fd !in poller.interest
    }

    /** Sets the mask and tells the poller: the common body of the enable and disable calls. */
    method SetMask(mask: Mask)
      requires Registered()
      modifies this`events, this`index, poller`channels, poller`interest
      ensures Registered() && (poller.View(), View()) == Spec.SetEvents(old(poller.View()), id, old(View()), mask)
    {
      events := mask;
      poller.UpdateChannel(this);
    }

    method EnableReading()
      requires Registered()
      modifies this`events, this`index, poller`channels, poller`interest
      ensures Registered() && (poller.View(), View()) == Spec.SetEvents(old(poller.View()), id, old(View()), old(events) + READ)
    {
      SetMask(events + READ);
    }

    method DisableReading()
      requires Registered()
      modifies this`events, this`index, poller`channels, poller`interest
      ensures Registered() && (poller.View(), View()) == Spec.SetEvents(old(poller.View()), id, old(View()), old(events) - READ)
    {
      SetMask(events - READ);
    }

    method EnableWriting()
      requires Registered()
      modifies this`events, this`index, poller`channels, poller`interest
      ensures Registered() && (poller.View(), View()) == Spec.SetEvents(old(poller.View()), id, old(View()), old(events) + WRITE)
    {
      SetMask(events + WRITE);
    }

    method DisableWriting()
      requires Registered()
      modifies this`events, this`index, poller`channels, poller`interest
      ensures Registered() && (poller.View(), View()) == Spec.SetEvents(old(poller.View()), id, old(View()), old(events) - WRITE)
    {
      SetMask(events - WRITE);
    }

    method DisableAll()
      requires Registered()
      modifies this`events, this`index, poller`channels, poller`interest
      ensures Registered() && (poller.View(), View()) == Spec.SetEvents(old(poller.View()), id, old(View()), NONE)
    {
      SetMask(NONE);
    }

    method Remove()
      requires Registered() && events == NONE && index != New
      modifies this`index, poller`channels, poller`interest
      ensures Registered() && (poller.View(), View()) == Spec.RemoveChannel(old(poller.View()), id, old(View()))
    {
      poller.RemoveChannel(this);
    }
  }

  /** A kernel registration: data.ptr and the mask. */
  datatype Registration = Registration(channel: Channel, mask: Mask)

  /** One filled element of the array given to epoll_wait. */
  datatype EpollEvent = EpollEvent(channel: Channel, events: Mask)

  class EPollPoller {
    var channels: map<nat, Channel>
    var interest: map<nat, Registration>    // the kernel's
    var eventArraySize: nat

    constructor ()
      ensures View() == Poller(map[], map[], {}) && eventArraySize == INIT_EVENT_ARRAY_SIZE
    {
      channels, interest, eventArraySize := map[], map[], INIT_EVENT_ARRAY_SIZE;
    }

    /** No fault is ever raised by an object whose callers respect the asserts. */
    ghost function View(): Poller
      reads this
    {
      Poller(map fd | fd in channels :: channels[fd].id,
             map fd | fd in interest :: Reg(interest[fd].channel.id, interest[fd].mask), {})
    }

    ghost predicate Has(ch: Channel)
      reads this
    {
      ch.fd in channels && channels[ch.fd] == ch
    }

    /** epoll_ctl, legal here by the caller's precondition. */
    method Update(op: Ctl, ch: Channel)
      requires op == ADD <==> ch.fd !in interest
      modifies `interest
      ensures View() == EpollCtl(old(View()), op, ch.id, ch.View())
      ensures interest == if op == DEL then old(interest) - {ch.fd} else old(interest)[ch.fd := Registration(ch, ch.events)]
    {
      interest := if op == DEL then interest - {ch.fd} else interest[ch.fd := Registration(ch, ch.events)];
    }

    method UpdateChannel(ch: Channel)
      requires ch.poller == this
      requires ch.index == New ==> ch.fd !in channels       // epollpoller.cpp:101
      requires ch.index != New ==> Has(ch)                  // epollpoller.cpp:106, 107, 117, 118
      requires ch.index == Added <==> ch.fd in interest
      modifies ch`index, `channels, `interest
      ensures (View(), ch.View()) == Spec.UpdateChannel(old(View()), ch.id, old(ch.View()))
      ensures ch.Registered()
    {
      if ch.index == New || ch.index == Deleted {
        if ch.index == New {
          channels := channels[ch.fd := ch];
          assert View().channels == old(View()).channels[ch.fd := ch.id] && View().interest == old(View()).interest;
        }
        ch.index := Added;
        Update(ADD, ch);
      } else if ch.events == NONE {
        Update(DEL, ch);
        ch.index := Deleted;
      } else {
        Update(MOD, ch);
      }
    }

    method RemoveChannel(ch: Channel)
      requires ch.poller == this
      requires Has(ch) && ch.events == NONE && ch.index != New   // epollpoller.cpp:137-141
      requires ch.index == Added <==> ch.fd in interest
      modifies ch`index, `channels, `interest
      ensures (View(), ch.View()) == Spec.RemoveChannel(old(View()), ch.id, old(ch.View()))
      ensures ch.Registered()
    {
      channels := channels - {ch.fd};
      assert View().channels == old(View()).channels - {ch.fd} && View().interest == old(View()).interest;
      if ch.index == Added {
        Update(DEL, ch);
      }
      ch.index := New;
    }

    method HasChannel(ch: Channel) returns (has: bool)
      ensures has <==> Has(ch)
    {
      has := ch.fd in channels && channels[ch.fd] == ch;
    }

    /** What agreement with the kernel means for any set of events it may report. */
    ghost predicate Reportable(reports: seq<EpollEvent>)
      reads this
    {
      && (forall i :: 0 <= i < |reports| ==>
            Has(reports[i].channel) && reports[i].channel.fd in interest && interest[reports[i].channel.fd].channel == reports[i].channel)
      && (forall i, j :: 0 <= i < j < |reports| ==> reports[i].channel != reports[j].channel)
    }

    /** fillActiveChannels: its lookup asserts hold, and each channel gets its own bits. */
    method FillActiveChannels(reports: seq<EpollEvent>) returns (active: seq<Channel>)
      requires Reportable(reports) && |reports| <= eventArraySize
      modifies (set e | e in reports :: e.channel)`revents
      ensures |active| == |reports|
      ensures forall i :: 0 <= i < |reports| ==> active[i] == reports[i].channel && active[i].revents == reports[i].events
    {
      active := [];
      for i := 0 to |reports|
        invariant |active| == i
        invariant forall k :: 0 <= k < i ==> active[k] == reports[k].channel && active[k].revents == reports[k].events
      {
        var ch := reports[i].channel;
        assert ch.fd in channels && channels[ch.fd] == ch;   // epollpoller.cpp:80, 81
        ch.revents := reports[i].events;
        active := active + [ch];
      }
    }

    /** poll: the active list for what epoll_wait returned; the array doubles when it came back full. */
    method Poll(reports: seq<EpollEvent>) returns (active: seq<Channel>)
      requires Reportable(reports) && |reports| <= eventArraySize
      modifies (set e | e in reports :: e.channel)`revents, `eventArraySize
      ensures |active| == |reports|
      ensures forall i :: 0 <= i < |reports| ==> active[i] == reports[i].channel && active[i].revents == reports[i].events
      ensures eventArraySize == if reports != [] && |reports| == old(eventArraySize) then 2 * old(eventArraySize) else old(eventArraySize)
    {
      active := [];
      if |reports| > 0 {
        active := FillActiveChannels(reports);
        if |reports| == eventArraySize {
          eventArraySize := eventArraySize * 2;
        }
      }
    }
  }
}
