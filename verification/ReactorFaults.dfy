/**
 That faults are seen: a step leaves one behind exactly when an assert of the source fails, epoll_ctl
 refuses, a registered descriptor is closed, or something destroyed is touched.
 */
module ReactorFaults {
  import opened Events
  import opened PollerSpec
  import opened ConnectionSpec
  import opened Reactor

  /** updateChannel, whatever the tables hold. */
  lemma UpdateFaultsExactly(p: Poller, id: nat, ch: Chan, events: Mask)
    requires p.faults == {}
    ensures SetEvents(p, id, ch, events).0.faults == {} <==>
      && (ch.fd in p.interest <==> ch.index == Added)
      && (if ch.index == New then ch.fd !in p.channels else ch.fd in p.channels && p.channels[ch.fd] == id)
  {
    var faults := SetEvents(p, id, ch, events).0.faults;
    if ch.index == New && ch.fd in p.channels {
      assert AssertFailed(FreshFd) in faults;
    } else if ch.index != New && !p.Knows(ch.fd, id) {
      assert AssertFailed(KnownChannel) in faults;
    } else if ch.fd in p.interest <==> ch.index != Added {
      assert CtlRefused in faults;
    }
  }

  lemma EstablishFaultsExactly(id: nat, v: View)
    requires Agrees(id, v.conn.chan, v.poller) && v.poller.faults == {}
    ensures Establish(id, v).poller.faults == {} <==> v.conn.state == Connecting
  {
    var p := v.poller.Check(v.conn.state == Connecting, EstablishFresh);
    SetEventsAgrees(p, id, v.conn.chan, v.conn.chan.events + READ);
    assert v.conn.state != Connecting ==> AssertFailed(EstablishFresh) in p.faults;
  }

  lemma CloseFaultsExactly(id: nat, v: View)
    requires Agrees(id, v.conn.chan, v.poller) && v.poller.faults == {}
    ensures BeginClose(id, v).poller.faults == {} <==> v.conn.state == Connected || v.conn.state == Disconnecting
  {
    var p := v.poller.Check(IsOpen(v.conn.state), CloseOpen);
    SetEventsAgrees(p, id, v.conn.chan, NONE);
    assert !IsOpen(v.conn.state) ==> AssertFailed(CloseOpen) in p.faults;
  }

  /** The lookup of fillActiveChannels. */
  lemma CollectFaultsExactly(w: World, fd: nat, revents: Mask)
    requires w.poller.faults == {}
    ensures Collect(w, Report(fd, revents)).poller.faults == {} <==>
      && fd in w.poller.interest && w.poller.interest[fd].owner in w.conns
      && var id := w.poller.interest[fd].owner;
         var known := w.conns[id].chan.fd;
         known in w.poller.channels && w.poller.channels[known] == id
  {
    if fd !in w.poller.interest || w.poller.interest[fd].owner !in w.conns {
      assert Dangling in Collect(w, Report(fd, revents)).poller.faults;
    } else if !w.poller.Knows(w.conns[w.poller.interest[fd].owner].chan.fd, w.poller.interest[fd].owner) {
      assert AssertFailed(ActiveKnown) in Collect(w, Report(fd, revents)).poller.faults;
    }
  }

  /** Destruction of what nothing refers to. */
  lemma DropFaultsExactly(w: World)
    requires w.poller.faults == {}
    ensures DropUnreferenced(w).poller.faults == {} <==>
      forall id :: id in w.conns && id !in Refs(w) ==>
        && w.conns[id].state == Disconnected
        && w.conns[id].chan.fd !in w.poller.channels && w.conns[id].chan.fd !in w.poller.interest
  {
    var dead := w.conns.Keys - Refs(w);
    var fds := FdsOf(w, dead);
    var known := w.poller.channels.Keys + w.poller.interest.Keys;
    var p := w.poller.Check(forall id :: id in dead ==> w.conns[id].state == Disconnected, DestructorClosed);
    if id :| id in dead && w.conns[id].state != Disconnected {
      assert AssertFailed(DestructorClosed) in p.faults;
    } else if id :| id in dead && w.conns[id].chan.fd in known {
      assert w.conns[id].chan.fd in fds * known;
      assert ClosedWhileRegistered in DropUnreferenced(w).poller.faults;
    } else {
      assert p == w.poller && fds * known == {};
    }
  }

  /** A handler or functor of a connection that is no longer there. */
  lemma DanglingIsSeen(cfg: Config, w: World, id: nat, f: Functor, io: Io)
    requires id !in w.conns && !f.Client? && f.conn == id
    ensures Dangling in CloseConnection(cfg, w, id, io.onHangup).poller.faults
    ensures Dangling in ReadConnection(cfg, w, id, io.read, io.onRead).poller.faults
    ensures Dangling in WriteConnection(cfg, w, id, io.wrote).poller.faults
    ensures Dangling in ReadError(w, id).poller.faults
    ensures Dangling in RunFunctor(cfg, w, f, io).poller.faults
  {
  }
}
