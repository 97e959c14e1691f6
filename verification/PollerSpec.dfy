/**
 What the poller and the kernel's epoll instance know about channels, on values.

 A channel is named by a number that stands for its address: `m_channels` and the
 `data.ptr` of a registration hold that number. Every C++ `assert` and every refused
 `epoll_ctl` leaves a fault behind, so "the asserts hold" reads `faults == {}`.
 */
module PollerSpec {
  import opened Events

  datatype Index = New | Added | Deleted

  datatype Chan = Chan(fd: nat, events: Mask, index: Index)

  /** A kernel registration: the channel its `data.ptr` names and the mask it asked for. */
  datatype Reg = Reg(owner: nat, mask: Mask)

  datatype Site =
    | FreshFd            // epollpoller.cpp:101
    | KnownChannel       // epollpoller.cpp:106, 107, 117, 118
    | RemoveKnown        // epollpoller.cpp:137, 138
    | RemoveIdle         // epollpoller.cpp:139
    | RemoveIndexed      // epollpoller.cpp:141
    | ActiveKnown        // epollpoller.cpp:80, 81
    | CloseOpen          // tcpconnection.cpp:325
    | EstablishFresh     // tcpconnection.cpp:247
    | DestructorClosed   // tcpconnection.cpp:51

  datatype Fault =
    | AssertFailed(site: Site)
    | CtlRefused
    | Dangling
    | ClosedWhileRegistered

  datatype Poller = Poller(channels: map<nat, nat>, interest: map<nat, Reg>, faults: set<Fault>) {

    function Check(condition: bool, site: Site): Poller {
      if condition then this else this.(faults := faults + {AssertFailed(site)})
    }

    function Fail(fault: Fault): Poller {
      this.(faults := faults + {fault})
    }

    /** `m_channels` has `fd`, and it is the channel `id`. */
    predicate Knows(fd: nat, id: nat) {
      fd in channels && channels[fd] == id
    }
  }

  datatype Ctl = ADD | MOD | DEL

  /** epoll_ctl(2): ADD needs an absent descriptor, MOD and DEL a present one. */
  function EpollCtl(p: Poller, op: Ctl, id: nat, ch: Chan): Poller {
    match op
    case ADD => if ch.fd in p.interest then p.Fail(CtlRefused) else p.(interest := p.interest[ch.fd := Reg(id, ch.events)])
    case MOD => if ch.fd in p.interest then p.(interest := p.interest[ch.fd := Reg(id, ch.events)]) else p.Fail(CtlRefused)
    case DEL => if ch.fd in p.interest then p.(interest := p.interest - {ch.fd}) else p.Fail(CtlRefused)
  }

  function UpdateChannel(p: Poller, id: nat, ch: Chan): (Poller, Chan) {
    match ch.index
    case New =>
      var p1 := p.Check(ch.fd !in p.channels, FreshFd);
      var p2 := p1.(channels := p1.channels[ch.fd := id]);
      (EpollCtl(p2, ADD, id, ch), ch.(index := Added))
    case Deleted =>
      (EpollCtl(p.Check(p.Knows(ch.fd, id), KnownChannel), ADD, id, ch), ch.(index := Added))
    case Added =>
      var p1 := p.Check(p.Knows(ch.fd, id), KnownChannel);
      if ch.events == NONE then
        (EpollCtl(p1, DEL, id, ch), ch.(index := Deleted))
      else
        (EpollCtl(p1, MOD, id, ch), ch)
  }

  function RemoveChannel(p: Poller, id: nat, ch: Chan): (Poller, Chan) {
    var p1 := p.Check(p.Knows(ch.fd, id), RemoveKnown)
               .Check(ch.events == NONE, RemoveIdle)
               .Check(ch.index != New, RemoveIndexed);
    var p2 := p1.(channels := p1.channels - {ch.fd});
    var p3 := if ch.index == Added then EpollCtl(p2, DEL, id, ch) else p2;
    (p3, ch.(index := New))
  }

  /** The channel's mask changes first, then `update()` tells the poller (channel.h:34-40). */
  function SetEvents(p: Poller, id: nat, ch: Chan, events: Mask): (Poller, Chan) {
    UpdateChannel(p, id, ch.(events := events))
  }

  // -------------------------------------------------------------------------------------------
  // Agreement of one channel with the poller and the kernel

  /** The three-valued index says exactly where the channel is registered. */
  ghost predicate Agrees(id: nat, ch: Chan, p: Poller) {
    match ch.index
    case New => ch.fd !in p.channels && ch.fd !in p.interest
    case Added => p.Knows(ch.fd, id) && ch.fd in p.interest && p.interest[ch.fd] == Reg(id, ch.events)
    case Deleted => p.Knows(ch.fd, id) && ch.fd !in p.interest
  }

  /** The two pollers differ at `fd` at most, and raised the same faults. */
  ghost predicate SameElsewhere(p: Poller, q: Poller, fd: nat) {
    && q.faults == p.faults
    && (forall g :: g != fd ==> (g in p.channels <==> g in q.channels))
    && (forall g :: g != fd && g in p.channels ==> q.channels[g] == p.channels[g])
    && (forall g :: g != fd ==> (g in p.interest <==> g in q.interest))
    && (forall g :: g != fd && g in p.interest ==> q.interest[g] == p.interest[g])
  }

  /** Any change of mask, in any index state, is accepted by every assert and by the kernel. */
  lemma SetEventsAgrees(p: Poller, id: nat, ch: Chan, events: Mask)
    requires Agrees(id, ch, p)
    ensures var (q, ch') := SetEvents(p, id, ch, events);
      && Agrees(id, ch', q) && SameElsewhere(p, q, ch.fd)
      && ch'.fd == ch.fd && ch'.events == events
      && (ch'.index == Deleted <==> ch.index == Added && events == NONE)
      && (ch'.index != Deleted ==> ch'.index == Added)
  {
  }

  lemma RemoveAgrees(p: Poller, id: nat, ch: Chan)
    requires Agrees(id, ch, p) && ch.events == NONE && ch.index != New
    ensures var (q, ch') := RemoveChannel(p, id, ch);
      Agrees(id, ch', q) && SameElsewhere(p, q, ch.fd) && ch' == ch.(index := New)
  {
  }

  /** A change at another descriptor leaves the agreement alone. */
  lemma AgreesElsewhere(id: nat, ch: Chan, p: Poller, q: Poller, fd: nat)
    requires Agrees(id, ch, p) && SameElsewhere(p, q, fd) && ch.fd != fd
    ensures Agrees(id, ch, q)
  {
  }

  /** Precondition of removeChannel as the code asserts it; without it an assert fails, and conversely. */
  lemma RemoveFaultsExactly(p: Poller, id: nat, ch: Chan)
    requires Agrees(id, ch, p) && p.faults == {}
    ensures RemoveChannel(p, id, ch).0.faults == {} <==> ch.events == NONE && ch.index != New
  {
    var q := p.Check(p.Knows(ch.fd, id), RemoveKnown);
    if ch.index == New {
      assert AssertFailed(RemoveKnown) in RemoveChannel(p, id, ch).0.faults;
    } else if ch.events != NONE {
      assert AssertFailed(RemoveIdle) in RemoveChannel(p, id, ch).0.faults;
    }
  }

  /**
   disableAll() drops the kernel registration only from the Added state. On a channel whose
   mask is already empty and that is Deleted (or New) the same call registers it with an empty
   mask, and the kernel then still reports ERR and HUP for it.
   */
  lemma DisableAllUnregistersExactly(p: Poller, id: nat, ch: Chan)
    requires Agrees(id, ch, p)
    ensures ch.fd !in SetEvents(p, id, ch, NONE).0.interest <==> ch.index == Added
    ensures var (q, once) := SetEvents(p, id, ch, NONE);
      ch.index == Added ==>
        SetEvents(q, id, once, NONE).0.interest == p.interest[ch.fd := Reg(id, NONE)]
  {
  }
}
