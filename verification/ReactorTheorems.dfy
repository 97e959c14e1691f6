/** The reactor's guarantees, for every legal run from the start. */
module ReactorTheorems {
  import opened Events
  import opened PollerSpec
  import opened ConnectionSpec
  import opened Reactor
  import opened ReactorInvariant
  import opened ReactorSafety

  /** A run the loop, the kernel and the clients can take, from before the first poll. */
  ghost predicate Runs(cfg: Config, base: set<nat>, run: seq<Event>) {
    |cfg.ipPort| <= 51 && LegalRun(cfg, Init(base), run)
  }

  lemma Reached(cfg: Config, base: set<nat>, run: seq<Event>)
    requires Runs(cfg, base, run)
    ensures Inv(cfg, Exec(cfg, Init(base), run), {})
  {
    InitHolds(cfg, base);
    RunKeeps(cfg, Init(base), run);
  }

  /**
   Safety. No C++ assert fails, epoll_ctl is never refused, no destroyed connection is
   touched, and no descriptor is closed while m_channels or the kernel still knows it; so every
   known descriptor is open and belongs to a live connection.
   */
  lemma NoFaultInAnyRun(cfg: Config, base: set<nat>, run: seq<Event>)
    requires Runs(cfg, base, run)
    ensures var w := Exec(cfg, Init(base), run);
      && w.poller.faults == {}
      && w.poller.interest.Keys <= w.poller.channels.Keys <= w.open
      && (forall fd :: fd in w.poller.channels ==>
            w.poller.channels[fd] in w.conns && w.conns[w.poller.channels[fd]].chan.fd == fd)
  {
    Reached(cfg, base, run);
  }

  /**
   The kernel watches exactly the open connections, each under its own descriptor with its
   own mask; a closed one stays in m_channels exactly until its connectDestroyed has run.
   */
  lemma KernelWatchesOpenConnections(cfg: Config, base: set<nat>, run: seq<Event>, id: nat)
    requires Runs(cfg, base, run) && id in Exec(cfg, Init(base), run).conns
    ensures var w := Exec(cfg, Init(base), run);
      var c := w.conns[id];
      && (IsOpen(c.state) <==> c.chan.fd in w.poller.interest)
      && (IsOpen(c.state) ==> w.poller.interest[c.chan.fd] == Reg(id, c.chan.events))
      && (w.poller.Knows(c.chan.fd, id) <==> IsOpen(c.state) || Doomed(w, id))
      && c.closes == (if IsOpen(c.state) then 0 else 1)
  {
    Reached(cfg, base, run);
    var w := Exec(cfg, Init(base), run);
    assert Good(cfg, w, {}, id);
  }

  /** m_connections holds exactly the accepted, not yet closed connections, each under its own name. */
  lemma ServerHoldsOpenConnections(cfg: Config, base: set<nat>, run: seq<Event>)
    requires Runs(cfg, base, run)
    ensures var w := Exec(cfg, Init(base), run);
      && (forall id :: id in w.conns && IsOpen(w.conns[id].state) <==> id in w.server.Values)
      && (forall name :: name in w.server ==> name == NameOf(cfg, w.server[name]))
      && (forall a, b :: a in w.server && b in w.server && a != b ==> w.server[a] != w.server[b])
  {
    Reached(cfg, base, run);
    var w := Exec(cfg, Init(base), run);
    forall id
      ensures id in w.conns && IsOpen(w.conns[id].state) <==> id in w.server.Values
    {
      if id in w.conns {
        assert Good(cfg, w, {}, id);
      }
      if id in w.server.Values {
        assert id in Refs(w);
      }
    }
  }

  /** Nothing leaks: at a poll, what is live is in the map, held by a client, or named by a send call or a queued functor. */
  lemma LiveMeansReferenced(cfg: Config, base: set<nat>, run: seq<Event>)
    requires Runs(cfg, base, run) && Exec(cfg, Init(base), run).phase == Polling
    ensures var w := Exec(cfg, Init(base), run);
      w.conns.Keys == w.server.Values + w.held + FlightRefs(w.inFlight) + FunctorRefs(w.pending)
  {
    Reached(cfg, base, run);
    assert FunctorRefs([]) == {};
  }

  /** The open descriptors are those open before the first poll and those of live connections; none leaks. */
  lemma NoDescriptorLeaks(cfg: Config, base: set<nat>, run: seq<Event>, fd: nat)
    requires Runs(cfg, base, run)
    ensures var w := Exec(cfg, Init(base), run);
      && (fd in w.open ==> fd in base || exists id :: id in w.conns && w.conns[id].chan.fd == fd)
      && (forall id :: id in w.conns ==> w.conns[id].chan.fd in w.open)
  {
    Reached(cfg, base, run);
    InitHolds(cfg, base);
    RunKeeps(cfg, Init(base), run);
    var w := Exec(cfg, Init(base), run);
    if fd in w.open && fd !in base {
      assert !Unowned(Init(base), fd);
      assert !Unowned(w, fd);
    }
  }

  /**
   A step that dispatches an active channel removes no channel from the poller and
   destroys no registered connection, whatever its callbacks do; so the rest of the active list
   still names open connections.
   */
  lemma DispatchRemovesNothing(cfg: Config, base: set<nat>, run: seq<Event>, io: Io)
    requires Runs(cfg, base, run) && Legal(Exec(cfg, Init(base), run), Dispatch(io))
    ensures var w := Exec(cfg, Init(base), run);
      var w' := Step(cfg, w, Dispatch(io));
      && w'.active == w.active[1..]
      && (forall fd :: fd in w.poller.channels ==>
            fd in w'.poller.channels && w'.poller.channels[fd] == w.poller.channels[fd] && w.poller.channels[fd] in w'.conns)
      && (forall i :: 0 <= i < |w'.active| && w'.active[i].Ready? ==>
            w'.active[i].id in w'.conns && IsOpen(w'.conns[w'.active[i].id].state))
  {
    Reached(cfg, base, run);
    DispatchKeeps(cfg, Exec(cfg, Init(base), run), io);
  }

  lemma {:induction false} RunAppend(cfg: Config, w: World, run: seq<Event>, more: seq<Event>)
    requires LegalRun(cfg, w, run + more)
    ensures LegalRun(cfg, w, run) && LegalRun(cfg, Exec(cfg, w, run), more)
    ensures Exec(cfg, w, run + more) == Exec(cfg, Exec(cfg, w, run), more)
    decreases |run|
  {
    if run == [] {
      assert run + more == more;
    } else {
      assert (run + more)[0] == run[0] && (run + more)[1..] == run[1..] + more;
      RunAppend(cfg, Step(cfg, w, run[0]), run[1..], more);
    }
  }

  /** A run, then what follows it. */
  lemma {:induction false} RunOn(cfg: Config, w: World, run: seq<Event>, more: seq<Event>)
    requires LegalRun(cfg, w, run) && LegalRun(cfg, Exec(cfg, w, run), more)
    ensures LegalRun(cfg, w, run + more) && Exec(cfg, w, run + more) == Exec(cfg, Exec(cfg, w, run), more)
    decreases |run|
  {
    if run == [] {
      assert run + more == more;
    } else {
      assert (run + more)[0] == run[0] && (run + more)[1..] == run[1..] + more;
      RunOn(cfg, Step(cfg, w, run[0]), run[1..], more);
    }
  }

  lemma RunOne(cfg: Config, w: World, e: Event)
    requires Legal(w, e)
    ensures LegalRun(cfg, w, [e]) && Exec(cfg, w, [e]) == Step(cfg, w, e)
  {
    assert [e][1..] == [];
    assert LegalRun(cfg, Step(cfg, w, e), []);
  }

  lemma RunThen(cfg: Config, w: World, run: seq<Event>, e: Event)
    requires LegalRun(cfg, w, run) && Legal(Exec(cfg, w, run), e)
    ensures LegalRun(cfg, w, run + [e]) && Exec(cfg, w, run + [e]) == Step(cfg, Exec(cfg, w, run), e)
  {
    RunOne(cfg, Exec(cfg, w, run), e);
    RunOn(cfg, w, run, [e]);
  }

  /**
   Between any two moments of a run a live connection's state only moves forward, what the
   socket took and what was accepted only grow, and a number is never used for a second
   connection. Read literally, line 140 also means that once something is buffered the socket
   never gets another byte.
   */
  lemma HistoryOnlyGrows(cfg: Config, base: set<nat>, run: seq<Event>, more: seq<Event>, id: nat)
    requires Runs(cfg, base, run + more)
    requires LegalRun(cfg, Init(base), run) && LegalRun(cfg, Exec(cfg, Init(base), run), more)
    requires id in Exec(cfg, Exec(cfg, Init(base), run), more).conns
    requires id < Exec(cfg, Init(base), run).nextId
    ensures var w := Exec(cfg, Init(base), run);
      var w' := Exec(cfg, w, more);
      && w' == Exec(cfg, Init(base), run + more)
      && id in w.conns
      && Rank(w.conns[id].state) <= Rank(w'.conns[id].state)
      && w.conns[id].taken <= w'.conns[id].taken && w.conns[id].log <= w'.conns[id].log
      && (cfg.enableWhen == WhileWriting && w.conns[id].out != [] ==> w'.conns[id].taken == w.conns[id].taken)
  {
    RunAppend(cfg, Init(base), run, more);
    Reached(cfg, base, run);
    RunKeeps(cfg, Exec(cfg, Init(base), run), more);
  }

  /**
   Stream conservation, under either reading of the guards: what the socket took, followed
   by what is buffered, is the concatenation of the accepted messages in the order of acceptance.
   */
  lemma StreamConserved(cfg: Config, base: set<nat>, run: seq<Event>, id: nat)
    requires Runs(cfg, base, run) && id in Exec(cfg, Init(base), run).conns
    ensures var c := Exec(cfg, Init(base), run).conns[id];
      c.taken + c.out == Flatten(c.log)
  {
    Reached(cfg, base, run);
    var w := Exec(cfg, Init(base), run);
    assert Good(cfg, w, {}, id);
  }

  /** Write interest: corrected, it is on exactly while something is buffered; literal, it is never on. */
  lemma WriteInterest(cfg: Config, base: set<nat>, run: seq<Event>, id: nat)
    requires Runs(cfg, base, run) && id in Exec(cfg, Init(base), run).conns
    ensures var c := Exec(cfg, Init(base), run).conns[id];
      && (cfg.enableWhen == WhileNotWriting && c.state != Disconnected ==> (IsWriting(c.chan.events) <==> c.out != []))
      && (cfg.enableWhen == WhileWriting ==> !IsWriting(c.chan.events))
  {
    Reached(cfg, base, run);
    var w := Exec(cfg, Init(base), run);
    assert Good(cfg, w, {}, id);
  }

  /**
   shutdownWrite runs once at most, and only for a connection that has left Connected; what was unsent
   then stays unsent. That is nothing once both guards are corrected, something if only line 140 is, and
   with line 161 corrected alone whatever was buffered; as written shutdownWrite never runs.
   */
  lemma HalfCloses(cfg: Config, base: set<nat>, run: seq<Event>, id: nat)
    requires Runs(cfg, base, run) && id in Exec(cfg, Init(base), run).conns
    ensures var c := Exec(cfg, Init(base), run).conns[id];
      var unsent := c.halfCloses;
      && |unsent| <= (if Rank(c.state) >= Rank(Disconnecting) then 1 else 0)
      && (forall n :: n in unsent ==> n <= |c.out|)
      && (cfg.enableWhen == WhileNotWriting && cfg.halfCloseWhen == WhileNotWriting ==> forall n :: n in unsent ==> n == 0)
      && (cfg.enableWhen == WhileNotWriting && cfg.halfCloseWhen == WhileWriting ==> forall n :: n in unsent ==> n > 0)
      && (cfg.enableWhen == WhileWriting && cfg.halfCloseWhen == WhileWriting ==> unsent == [])
  {
    Reached(cfg, base, run);
    var w := Exec(cfg, Init(base), run);
    assert Good(cfg, w, {}, id);
  }

  /** Once the socket is shut for writing, no run gets it to take another byte. */
  lemma TakenIsFinal(cfg: Config, w: World, more: seq<Event>, id: nat)
    requires Inv(cfg, w, {}) && id in w.conns && w.conns[id].halfCloses != []
    requires LegalRun(cfg, w, more) && id in Exec(cfg, w, more).conns
    ensures Exec(cfg, w, more).conns[id].taken == w.conns[id].taken
    ensures w.conns[id].log <= Exec(cfg, w, more).conns[id].log
  {
    RunKeeps(cfg, w, more);
  }

  /** forceClose takes effect: when its functor has run, the connection is closed, whatever happened meanwhile. */
  lemma ForcedCloseTakesEffect(cfg: Config, w: World, io: Io)
    requires Inv(cfg, w, {}) && Legal(w, RunNext(io)) && w.batch[0].RunForceClose?
    ensures var id, w' := w.batch[0].conn, Step(cfg, w, RunNext(io));
      id in w'.conns && w'.conns[id].state == Disconnected && id !in w'.server.Values
  {
    var id, w1, w' := w.batch[0].conn, Popped(w), Step(cfg, w, RunNext(io));
    PopKeeps(cfg, w);
    OpenOrClosed(cfg, w1, id, {});
    RunNextKeeps(cfg, w, io);
    if IsOpen(w1.conns[id].state) {
      CloseKeeps(cfg, w1, id, io.onRead);
    }
    assert Good(cfg, w', {}, id);
    ServedOnly(cfg, w', id);
  }

  /** An entry of the map can only be under its connection's own name. */
  lemma ServedOnly(cfg: Config, w: World, id: nat)
    requires ServerOk(cfg, w)
    ensures id in w.server.Values <==> Served(cfg, w, id)
  {
  }

  // -------------------------------------------------------------------------------------------
  // The one report that breaks handleClose

  lemma ActFaultsGrow(cfg: Config, w: World, a: Action)
    ensures w.poller.faults <= Act(cfg, w, a).poller.faults
  {
  }

  lemma {:induction false} FaultsGrow(cfg: Config, w: World, script: seq<Action>)
    ensures w.poller.faults <= Acts(cfg, w, script).poller.faults
    decreases |script|
  {
    if script != [] {
      ActFaultsGrow(cfg, w, script[0]);
      FaultsGrow(cfg, Act(cfg, w, script[0]), script[1..]);
    }
  }

  /** handleClose on a connection that is not open fails its assert, and the failure is not forgotten. */
  lemma SecondCloseFails(cfg: Config, w: World, id: nat, callback: seq<Action>)
    requires id in w.conns && !IsOpen(w.conns[id].state)
    ensures AssertFailed(CloseOpen) in CloseConnection(cfg, w, id, callback).poller.faults
  {
    FaultsGrow(cfg, Put(w, id, BeginClose(id, At(w, id))), callback);
  }

  lemma WriteFaultsGrow(cfg: Config, w: World, id: nat, revents: Mask, io: Io)
    ensures w.poller.faults <= WriteBranch(cfg, w, id, revents, io).poller.faults
  {
  }

  /**
   Dispatching one report on an open connection keeps every assert exactly unless the report
   has HUP without IN together with PRI (or RDHUP) and the read then returns 0: the hang-up
   branch has closed the connection and the read branch closes it again.
   */
  lemma DispatchFaultsExactly(cfg: Config, w: World, id: nat, revents: Mask, io: Io)
    requires Inv(cfg, w, {}) && id in w.conns && IsOpen(w.conns[id].state) && NotActive(w, id)
    ensures HandleEvent(cfg, w, id, revents, io).poller.faults == {} <==> !ClosesTwice(revents, io.read)
  {
    if ClosesTwice(revents, io.read) {
      var w1 := HangupBranches(cfg, w, id, revents, io);
      HangupKeeps(cfg, w, id, revents, io);
      ClosesTwiceSplit(revents, io.read);
      SecondCloseFails(cfg, w1, id, io.onRead);
      WriteFaultsGrow(cfg, CloseConnection(cfg, w1, id, io.onRead), id, revents, io);
    } else {
      HandleEventKeeps(cfg, w, id, revents, io);
    }
  }
}
