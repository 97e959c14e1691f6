/** Arbitrary runs of channel calls against one poller. */
module Registry {
  import opened Events
  import opened PollerSpec

  /** Every live channel object, and the poller they share. */
  datatype Registry = Registry(chans: map<nat, Chan>, poller: Poller)

  datatype Call =
    | Create(id: nat, fd: nat)
    | EnableReading(id: nat)
    | DisableReading(id: nat)
    | EnableWriting(id: nat)
    | DisableWriting(id: nat)
    | DisableAll(id: nat)
    | Remove(id: nat)
    | Destroy(id: nat)

  const EMPTY := Registry(map[], Poller(map[], map[], {}))

  /**
   What a caller must respect: a new channel has a descriptor no live channel has, a
   channel is used while it lives, and `remove` and destruction keep the asserted preconditions.
   Enable and disable calls are unrestricted.
   */
  predicate Legal(r: Registry, call: Call) {
    match call
    case Create(id, fd) => id !in r.chans && forall other :: other in r.chans ==> r.chans[other].fd != fd
    case Remove(id) => id in r.chans && r.chans[id].events == NONE && r.chans[id].index != New
    case Destroy(id) => id in r.chans && r.chans[id].index == New
    case _ => call.id in r.chans
  }

  function Mutate(r: Registry, id: nat, after: (Poller, Chan)): Registry {
    Registry(r.chans[id := after.1], after.0)
  }

  function Apply(r: Registry, call: Call): Registry
    requires Legal(r, call)
  {
    match call
    case Create(id, fd) => r.(chans := r.chans[id := Chan(fd, NONE, New)])
    case EnableReading(id) => Mutate(r, id, SetEvents(r.poller, id, r.chans[id], r.chans[id].events + READ))
    case DisableReading(id) => Mutate(r, id, SetEvents(r.poller, id, r.chans[id], r.chans[id].events - READ))
    case EnableWriting(id) => Mutate(r, id, SetEvents(r.poller, id, r.chans[id], r.chans[id].events + WRITE))
    case DisableWriting(id) => Mutate(r, id, SetEvents(r.poller, id, r.chans[id], r.chans[id].events - WRITE))
    case DisableAll(id) => Mutate(r, id, SetEvents(r.poller, id, r.chans[id], NONE))
    case Remove(id) => Mutate(r, id, RemoveChannel(r.poller, id, r.chans[id]))
    case Destroy(id) => r.(chans := r.chans - {id})
  }

  ghost predicate LegalRun(r: Registry, calls: seq<Call>)
    decreases |calls|
  {
    calls == [] || (Legal(r, calls[0]) && LegalRun(Apply(r, calls[0]), calls[1..]))
  }

  ghost function Run(r: Registry, calls: seq<Call>): Registry
    requires LegalRun(r, calls)
    decreases |calls|
  {
    if calls == [] then r else Run(Apply(r, calls[0]), calls[1..])
  }

  /**
   The kernel's interest map and `m_channels` hold exactly the channels whose index says so,
   each with its own number and current mask, and nothing was ever refused or asserted wrongly.
   */
  ghost predicate Agreement(r: Registry) {
    && r.poller.faults == {}
    && (forall id :: id in r.chans ==> Agrees(id, r.chans[id], r.poller))
    && (forall a, b :: a in r.chans && b in r.chans && a != b ==> r.chans[a].fd != r.chans[b].fd)
    && (forall fd :: fd in r.poller.channels ==>
          r.poller.channels[fd] in r.chans && r.chans[r.poller.channels[fd]].fd == fd)
    && (forall fd :: fd in r.poller.interest ==> fd in r.poller.channels)
  }

  /** What each call does to its channel's mask and index; other channels are left alone. */
  lemma ApplyEffect(r: Registry, call: Call, id: nat)
    requires Legal(r, call) && id in r.chans && call != Destroy(id)
    ensures var ch, chans := r.chans[id], Apply(r, call).chans;
      && id in chans
      && chans[id].fd == ch.fd
      && chans[id].events == (match call
           case EnableReading(c) => if c == id then ch.events + {IN, PRI} else ch.events
           case DisableReading(c) => if c == id then ch.events - {IN, PRI} else ch.events
           case EnableWriting(c) => if c == id then ch.events + {OUT} else ch.events
           case DisableWriting(c) => if c == id then ch.events - {OUT} else ch.events
           case DisableAll(c) => if c == id then {} else ch.events
           case _ => ch.events)
      && chans[id].index == (match call
           case Create(_, _) => ch.index
           case Destroy(_) => ch.index
           case Remove(c) => if c == id then New else ch.index
           case _ => if call.id != id then ch.index
                     else if ch.index == Added && chans[id].events == {} then Deleted
                     else Added)
  {
  }

  lemma MutateKeepsAgreement(r: Registry, id: nat, after: (Poller, Chan))
    requires Agreement(r) && id in r.chans
    requires Agrees(id, after.1, after.0) && SameElsewhere(r.poller, after.0, r.chans[id].fd)
    requires after.1.fd == r.chans[id].fd
    ensures Agreement(Mutate(r, id, after))
  {
    var r' := Mutate(r, id, after);
    forall other | other in r'.chans
      ensures Agrees(other, r'.chans[other], r'.poller)
    {
      if other != id {
        AgreesElsewhere(other, r.chans[other], r.poller, after.0, r.chans[id].fd);
      }
    }
  }

  lemma ApplyKeepsAgreement(r: Registry, call: Call)
    requires Agreement(r) && Legal(r, call)
    ensures Agreement(Apply(r, call))
  {
    match call
    case Create(id, fd) =>
      assert fd !in r.poller.channels;
    case Remove(id) =>
      RemoveAgrees(r.poller, id, r.chans[id]);
      MutateKeepsAgreement(r, id, RemoveChannel(r.poller, id, r.chans[id]));
    case Destroy(id) =>
    case _ =>
      var id, ch := call.id, r.chans[call.id];
      var events := match call
        case EnableReading(_) => ch.events + READ
        case DisableReading(_) => ch.events - READ
        case EnableWriting(_) => ch.events + WRITE
        case DisableWriting(_) => ch.events - WRITE
        case _ => NONE;
      SetEventsAgrees(r.poller, id, ch, events);
      MutateKeepsAgreement(r, id, SetEvents(r.poller, id, ch, events));
  }

  /** Poller/kernel agreement after every legal sequence of calls. */
  lemma {:induction false} AgreementOverRuns(r: Registry, calls: seq<Call>)
    requires Agreement(r) && LegalRun(r, calls)
    ensures Agreement(Run(r, calls))
    decreases |calls|
  {
    if calls != [] {
      ApplyKeepsAgreement(r, calls[0]);
      AgreementOverRuns(Apply(r, calls[0]), calls[1..]);
    }
  }

  /**
   Started empty, the interest map is the function of the channel table one would write down:
   the descriptors of the Added channels, each with that channel's number and mask.
   */
  lemma InterestIsAddedChannels(calls: seq<Call>, fd: nat)
    requires LegalRun(EMPTY, calls)
    ensures var r := Run(EMPTY, calls);
      && r.poller.faults == {}
      && (fd in r.poller.interest <==>
            exists id :: id in r.chans && r.chans[id].fd == fd && r.chans[id].index == Added)
      && (fd in r.poller.channels <==>
            exists id :: id in r.chans && r.chans[id].fd == fd && r.chans[id].index != New)
      && (forall id :: id in r.chans && r.chans[id].fd == fd && r.chans[id].index == Added ==>
            r.poller.interest[fd] == Reg(id, r.chans[id].events) && r.poller.channels[fd] == id)
  {
    AgreementOverRuns(EMPTY, calls);
    var r := Run(EMPTY, calls);
    if fd in r.poller.channels {
      var id := r.poller.channels[fd];
      assert Agrees(id, r.chans[id], r.poller);
    }
  }
}
