/** What a turn of the loop brings about: a connection is accepted, a forced close closes, and a closed connection is collected. */
module ReactorCollection {
  import opened Events
  import opened PollerSpec
  import opened ConnectionSpec
  import opened ConnectionNames
  import opened Reactor
  import opened ReactorInvariant
  import opened ReactorSafety
  import opened ReactorTheorems
  import opened ReactorLeaving

  /** Callbacks that do nothing, a read that returns 0, no accepted descriptor. */
  const QUIET := Io([], 0, [], Took(0), -1)

  /** A world in the middle of dispatch, with nothing active any more. */
  function AfterDispatch(w: World): World {
    w.(phase := Dispatching, active := [])
  }

  lemma AfterDispatchKeeps(cfg: Config, w: World)
    requires Inv(cfg, w, {}) && w.phase == Polling
    ensures Inv(cfg, AfterDispatch(w), {})
  {
    PhaseIrrelevant(cfg, w, AfterDispatch(w));
  }

  lemma ListenerFilled(p: Poller)
    ensures Filled(p, [ListenerReport]) == [ListenerReady]
  {
    var active := Filled(p, [ListenerReport]);
    assert active[0] == ListenerReady;
  }

  lemma ListenerPoll(cfg: Config, w: World)
    requires w.phase == Polling
    ensures var poll := Poll([ListenerReport]);
      && Legal(w, poll) && Step(cfg, w, poll) == w.(phase := Dispatching, active := [ListenerReady])
      && Taken(Step(cfg, w, poll)) == AfterDispatch(w)
  {
    assert Legal(w, Poll([ListenerReport]));
    ListenerFilled(w.poller);
    PollIsExact(cfg, w, [ListenerReport]);
    assert [ListenerReady][1..] == [];
  }

  lemma QuietAccept(cfg: Config, w: World, fd: nat)
    requires Inv(cfg, w, {}) && fd !in w.open
    ensures var w' := NewConnection(cfg, w, fd, []);
      && w.nextId !in w.conns && w'.conns.Keys == w.conns.Keys + {w.nextId}
      && w'.conns[w.nextId].state == Connected && w'.conns[w.nextId].chan == Chan(fd, READ, Added)
      && NameOf(cfg, w.nextId) !in w.server && w'.server == w.server[NameOf(cfg, w.nextId) := w.nextId]
  {
    NewIsFresh(cfg, w, fd);
    AdmitOverwritesNothing(cfg, w, fd);
    assert NONE + READ == READ;
  }

  /** Any descriptor that is not open may be accepted, and becomes an open connection of its own. */
  lemma FreeDescriptorIsAccepted(cfg: Config, w: World, fd: nat)
    requires Inv(cfg, w, {}) && w.phase == Polling && fd !in w.open && w.nextId + 1 < INT_LIMIT
    ensures var poll, accept := Poll([ListenerReport]), Dispatch(QUIET.(accepted := fd));
      && Legal(w, poll) && Legal(Step(cfg, w, poll), accept)
      && var w' := Step(cfg, Step(cfg, w, poll), accept);
      && w.nextId !in w.conns && w'.conns.Keys == w.conns.Keys + {w.nextId}
      && w'.conns[w.nextId].state == Connected && w'.conns[w.nextId].chan == Chan(fd, READ, Added)
      && NameOf(cfg, w.nextId) !in w.server && w'.server == w.server[NameOf(cfg, w.nextId) := w.nextId]
  {
    ListenerPoll(cfg, w);
    AfterDispatchKeeps(cfg, w);
    QuietAccept(cfg, AfterDispatch(w), fd);
  }

  lemma OneReport(cfg: Config, w: World, id: nat, fd: nat)
    requires w.phase == Polling && id in w.conns && IsOpen(w.conns[id].state) && w.conns[id].chan.fd == fd
    requires fd in w.poller.interest && w.poller.interest[fd].owner == id && w.poller.Knows(fd, id)
    requires IN in w.poller.interest[fd].mask && w.poller.interest[fd].mask <= READ + WRITE
    ensures var poll := Poll([Report(fd, {IN})]);
      && Legal(w, poll) && Step(cfg, w, poll) == w.(phase := Dispatching, active := [Ready(id, {IN})])
      && Taken(Step(cfg, w, poll)) == AfterDispatch(w)
  {
    PollIsExact(cfg, w, [Report(fd, {IN})]);
    assert Filled(w.poller, [Report(fd, {IN})]) == [Ready(id, {IN})];
  }

  lemma ReportPoll(cfg: Config, w: World, id: nat)
    requires Inv(cfg, w, {}) && w.phase == Polling && id in w.conns && IsOpen(w.conns[id].state)
    ensures var poll := Poll([Report(w.conns[id].chan.fd, {IN})]);
      && Legal(w, poll) && Step(cfg, w, poll) == w.(phase := Dispatching, active := [Ready(id, {IN})])
      && Taken(Step(cfg, w, poll)) == AfterDispatch(w)
  {
    OpenConn(cfg, w, id, {});
    ReportedIsOpen(cfg, w, w.conns[id].chan.fd);
    OneReport(cfg, w, id, w.conns[id].chan.fd);
  }

  lemma QuietReadClosed(cfg: Config, w: World, id: nat)
    requires id in w.conns
    ensures HandleEvent(cfg, w, id, {IN}, QUIET) == CloseConnection(cfg, w, id, [])
  {
    assert IN in {IN} * {IN, PRI, RDHUP};
  }

  lemma QuietClose(cfg: Config, w: World, id: nat)
    requires id in w.conns
    ensures var w' := CloseConnection(cfg, w, id, []);
      && w'.pending == w.pending + [RunDestroy(id)] && w'.held == w.held && w'.inFlight == w.inFlight && w'.active == w.active && w'.phase == w.phase
      && id in w'.conns && w'.conns[id].chan.fd == w.conns[id].chan.fd
  {
  }

  /** Poll and dispatch: the connection is closed, out of the map, and owed its connectDestroyed. */
  lemma PeerCloses(cfg: Config, w: World, id: nat)
    requires Inv(cfg, w, {}) && w.phase == Polling && id in w.conns && IsOpen(w.conns[id].state)
    ensures var poll := Poll([Report(w.conns[id].chan.fd, {IN})]);
      && Legal(w, poll) && Legal(Step(cfg, w, poll), Dispatch(QUIET))
      && var w2 := Step(cfg, Step(cfg, w, poll), Dispatch(QUIET));
      && w2 == CloseConnection(cfg, AfterDispatch(w), id, []) && Inv(cfg, w2, {})
  {
    ReportPoll(cfg, w, id);
    AfterDispatchKeeps(cfg, w);
    QuietReadClosed(cfg, AfterDispatch(w), id);
    CloseKeeps(cfg, AfterDispatch(w), id, []);
  }

  // -------------------------------------------------------------------------------------------
  // Collection in every run

  /** `id` is closed; in the functor phase, only late sends are queued about it for the next batch. */
  ghost predicate Collecting(w: World, id: nat, late: bool) {
    && id < w.nextId && Settled(w, id) && (Late(w, id) ==> late)
    && (w.phase == Running ==>
          forall i :: 0 <= i < |w.pending| ==> w.pending[i].Client? || w.pending[i].conn != id || (w.pending[i].RunSend? && late))
  }

  lemma MutedStaysCollecting(w: World, w': World, id: nat, late: bool)
    requires Collecting(w, id, late) && Mutes(w, w', id) && w.nextId <= w'.nextId && w'.phase == w.phase
    ensures Collecting(w', id, late)
  {
  }

  lemma RunNextNumbers(cfg: Config, w: World, io: Io)
    requires Inv(cfg, w, {}) && Legal(w, RunNext(io))
    ensures w.nextId <= Step(cfg, w, RunNext(io)).nextId && Step(cfg, w, RunNext(io)).phase == w.phase
  {
    RunNextKeeps(cfg, w, io);
    RunNextFrame(cfg, w, io);
  }

  lemma RunNextCollecting(cfg: Config, w: World, io: Io, id: nat, late: bool)
    requires Inv(cfg, w, {}) && Legal(w, RunNext(io)) && Collecting(w, id, late)
    ensures Collecting(Step(cfg, w, RunNext(io)), id, late)
  {
    RunNextNumbers(cfg, w, io);
    RunNextMutes(cfg, w, io, id);
    PoppedCollecting(w, Step(cfg, w, RunNext(io)), id, late);
  }

  lemma PoppedCollecting(w: World, w': World, id: nat, late: bool)
    requires |w.batch| > 0 && Collecting(w, id, late)
    requires Mutes(Popped(w), w', id) && w.nextId <= w'.nextId && w'.phase == w.phase
    ensures Collecting(w', id, late)
  {
    assert Collecting(Popped(w), id, late);
    MutedStaysCollecting(Popped(w), w', id, late);
  }

  lemma StepCollecting(cfg: Config, w: World, e: Event, id: nat, late: bool)
    requires Inv(cfg, w, {}) && Legal(w, e) && Collecting(w, id, late) && e != EndBatch
    ensures Collecting(Step(cfg, w, e), id, late)
  {
    match e
    case Poll(reports) =>
      ReportsAreOpen(cfg, w, reports);
      PollIsExact(cfg, w, reports);
    case Dispatch(io) =>
      DispatchMutes(cfg, w, io, id);
      DispatchKeeps(cfg, w, io);
      MutedStaysCollecting(w, Step(cfg, w, e), id, late);
    case Swap =>
    case RunNext(io) => RunNextCollecting(cfg, w, io, id, late);
    case Foreign(a) =>
      ActMutes(cfg, w, a, id);
      ActKeeps(cfg, w, a, {});
      MutedStaysCollecting(w, Step(cfg, w, e), id, late);
    case _ =>
  }

  lemma {:induction false} RunCollecting(cfg: Config, w: World, run: seq<Event>, id: nat, late: bool)
    requires Inv(cfg, w, {}) && LegalRun(cfg, w, run) && Collecting(w, id, late) && EndBatch !in run
    ensures Collecting(Exec(cfg, w, run), id, late)
    decreases |run|
  {
    if run != [] {
      assert run[0] in run;
      StepCollecting(cfg, w, run[0], id, late);
      StepKeeps(cfg, w, run[0]);
      RunCollecting(cfg, Step(cfg, w, run[0]), run[1..], id, late);
    }
  }

  /** What is left of a closed connection at a poll: nothing, unless somebody still refers to it. */
  ghost predicate Collected(w: World, id: nat, late: bool) {
    && (id in w.conns <==> id in w.held || Late(w, id) || id in FunctorRefs(w.pending))
    && (!late ==> (id in w.conns <==> id in w.held))
    && !Doomed(w, id) && Settled(w, id) && id !in w.server.Values
    && (id in w.conns ==> w.conns[id].chan.fd !in w.poller.channels && w.conns[id].chan.fd !in w.poller.interest)
  }

  /** At the end of the batch, what refers to it is a client's pointer or a late send. */
  lemma CollectingRefs(cfg: Config, w: World, id: nat, late: bool)
    requires Inv(cfg, w, {}) && Legal(w, EndBatch) && Collecting(w, id, late)
    ensures var w1 := w.(phase := Polling, done := []);
      && (id in Refs(w1) <==> id in w.held || Late(w, id) || id in FunctorRefs(w.pending))
      && (!late ==> !Late(w, id) && id !in FunctorRefs(w.pending))
      && !Doomed(w, id) && id !in w.server.Values
  {
    var w1 := w.(phase := Polling, done := []);
    assert FunctorRefs([]) == {};
    ServedOnly(cfg, w, id);
    assert Good(cfg, w, {}, id);
    assert id in w.server.Values ==> id in Refs(w);
  }

  lemma EndCollects(cfg: Config, w: World, id: nat, late: bool)
    requires Inv(cfg, w, {}) && Legal(w, EndBatch) && Collecting(w, id, late)
    ensures Collected(Step(cfg, w, EndBatch), id, late)
  {
    var w1, w' := w.(phase := Polling, done := []), Step(cfg, w, EndBatch);
    CollectingRefs(cfg, w, id, late);
    ConnsUnmoved(cfg, w, w1, {});
    assert FunctorRefs([]) == {};
    DropIsClean(cfg, w1, {});
    EndKeeps(cfg, w);
    assert Good(cfg, w', {}, id);
  }

  /**
   From any moment of a turn before its functors, a connection that is closed by then is collected by
   the end of the turn, whatever callbacks and other threads do: its connectDestroyed has run, its
   channel is in neither table, and it is destroyed unless a client holds it or a send another thread had
   begun before it left Connected is still in flight or queued; with no such send at the
   beginning, it is destroyed unless a client holds it.
   */
  lemma ClosedIsCollected(cfg: Config, w: World, run: seq<Event>, id: nat)
    requires Inv(cfg, w, {}) && w.phase != Running && id < w.nextId && Settled(w, id)
    requires EndBatch !in run && LegalRun(cfg, w, run) && Legal(Exec(cfg, w, run), EndBatch)
    ensures LegalRun(cfg, w, run + [EndBatch])
    ensures Collected(Exec(cfg, w, run + [EndBatch]), id, Late(w, id))
  {
    RunCollecting(cfg, w, run, id, Late(w, id));
    RunKeeps(cfg, w, run);
    RunThen(cfg, w, run, EndBatch);
    EndCollects(cfg, Exec(cfg, w, run), id, Late(w, id));
  }

  // -------------------------------------------------------------------------------------------
  // Its descriptor

  /** The batch holds `id`'s connectDestroyed, run or not, and with it a pointer to the connection. */
  ghost predicate Owned(w: World, id: nat, fd: nat) {
    && w.phase == Running && id in w.conns && w.conns[id].chan.fd == fd
    && (RunDestroy(id) in w.batch || RunDestroy(id) in w.done)
  }

  lemma StaysOwned(cfg: Config, w: World, w': World, id: nat, fd: nat)
    requires Inv(cfg, w, {}) && Inv(cfg, w', {}) && Owned(w, id, fd) && Forward(cfg, w, w') && w'.phase == Running
    requires RunDestroy(id) in w'.batch || RunDestroy(id) in w'.done
    ensures Owned(w', id, fd)
  {
    assert id in FunctorRefs(w'.batch) || id in FunctorRefs(w'.done);
  }

  lemma PopLosesNothing(w: World)
    requires w.batch != []
    ensures forall f :: f in w.batch || f in w.done ==> f in Popped(w).batch || f in Popped(w).done
  {
    assert w.batch == [w.batch[0]] + w.batch[1..];
  }

  lemma RunNextOwned(cfg: Config, w: World, io: Io, id: nat, fd: nat)
    requires Inv(cfg, w, {}) && Legal(w, RunNext(io)) && Owned(w, id, fd)
    ensures Owned(Step(cfg, w, RunNext(io)), id, fd)
  {
    RunNextKeeps(cfg, w, io);
    RunNextFrame(cfg, w, io);
    PopLosesNothing(w);
    StaysOwned(cfg, w, Step(cfg, w, RunNext(io)), id, fd);
  }

  lemma StepOwned(cfg: Config, w: World, e: Event, id: nat, fd: nat)
    requires Inv(cfg, w, {}) && Legal(w, e) && Owned(w, id, fd) && e != EndBatch
    ensures Owned(Step(cfg, w, e), id, fd)
  {
    match e
    case RunNext(io) => RunNextOwned(cfg, w, io, id, fd);
    case Foreign(a) =>
      ActKeeps(cfg, w, a, {});
      StaysOwned(cfg, w, Step(cfg, w, e), id, fd);
    case _ =>
  }

  lemma {:induction false} RunOwned(cfg: Config, w: World, run: seq<Event>, id: nat, fd: nat)
    requires Inv(cfg, w, {}) && LegalRun(cfg, w, run) && Owned(w, id, fd) && EndBatch !in run
    ensures Owned(Exec(cfg, w, run), id, fd)
    decreases |run|
  {
    if run != [] {
      assert run[0] in run;
      StepOwned(cfg, w, run[0], id, fd);
      StepKeeps(cfg, w, run[0]);
      RunOwned(cfg, Step(cfg, w, run[0]), run[1..], id, fd);
    }
  }

  lemma EndFrees(cfg: Config, w: World, id: nat, fd: nat)
    requires Inv(cfg, w, {}) && Legal(w, EndBatch) && Owned(w, id, fd)
    ensures var w' := Step(cfg, w, EndBatch);
      id !in w'.conns ==> fd !in w'.open
  {
    var w1 := w.(phase := Polling, done := []);
    ConnsUnmoved(cfg, w, w1, {});
    assert FunctorRefs([]) == {};
    DropIsClean(cfg, w1, {});
    if id !in Refs(w1) {
      assert w.conns[id].chan.fd in FdsOf(w1, w1.conns.Keys - Refs(w1));
    }
  }

  /**
   Every connectDestroyed pending at a swap has run by the end of that batch; the connection is collected
   then, and if it is destroyed its descriptor is free for the next accept.
   */
  lemma DestroyedByEndOfBatch(cfg: Config, w: World, more: seq<Event>, id: nat)
    requires Inv(cfg, w, {}) && Legal(w, Swap) && RunDestroy(id) in w.pending
    requires EndBatch !in more && LegalRun(cfg, w, [Swap] + more)
    requires Legal(Exec(cfg, w, [Swap] + more), EndBatch)
    ensures id in w.conns && LegalRun(cfg, w, [Swap] + more + [EndBatch])
    ensures var fd, w' := w.conns[id].chan.fd, Exec(cfg, w, [Swap] + more + [EndBatch]);
      Collected(w', id, Late(w, id)) && (id !in w'.conns ==> fd !in w'.open)
  {
    var w1 := Step(cfg, w, Swap);
    assert ([Swap] + more)[1..] == more;
    DoomedIsClosed(cfg, w, id);
    ClosedIsCollected(cfg, w, [Swap] + more, id);
    StepKeeps(cfg, w, Swap);
    RunOwned(cfg, w1, more, id, w.conns[id].chan.fd);
    RunKeeps(cfg, w1, more);
    RunThen(cfg, w, [Swap] + more, EndBatch);
    EndFrees(cfg, Exec(cfg, w, [Swap] + more), id, w.conns[id].chan.fd);
  }

  // -------------------------------------------------------------------------------------------
  // A turn in which it happens

  /** The turn of the loop in which the peer of `fd` is found to have closed. */
  function PeerCloseTurn(fd: nat): seq<Event> {
    ([Poll([Report(fd, {IN})])] + [Dispatch(QUIET)]) + ([Swap] + [RunNext(QUIET)] + [EndBatch])
  }

  /** Swap and connectDestroyed, nothing else being queued. */
  lemma OwedDestroyRuns(cfg: Config, w: World, id: nat)
    requires Inv(cfg, w, {}) && w.phase == Dispatching && w.active == [] && w.pending == [RunDestroy(id)]
    ensures LegalRun(cfg, w, [Swap] + [RunNext(QUIET)]) && Legal(Exec(cfg, w, [Swap] + [RunNext(QUIET)]), EndBatch)
  {
    RunOne(cfg, w, Swap);
    StepKeeps(cfg, w, Swap);
    RunThen(cfg, w, [Swap], RunNext(QUIET));
    RunNextFrame(cfg, Step(cfg, w, Swap), QUIET);
  }

  /** Swap, connectDestroyed and the end of the batch collect the connection. */
  lemma OwedDestroyIsPaid(cfg: Config, w: World, id: nat)
    requires Inv(cfg, w, {}) && w.phase == Dispatching && w.active == [] && w.pending == [RunDestroy(id)]
    ensures var run := [Swap] + [RunNext(QUIET)] + [EndBatch];
      && id in w.conns && LegalRun(cfg, w, run)
      && var w' := Exec(cfg, w, run);
      Collected(w', id, Late(w, id)) && (id !in w'.conns ==> w.conns[id].chan.fd !in w'.open)
  {
    OwedDestroyRuns(cfg, w, id);
    DestroyedByEndOfBatch(cfg, w, [RunNext(QUIET)], id);
  }

  lemma PeerCloseRuns(cfg: Config, w: World, id: nat)
    requires Inv(cfg, w, {}) && w.phase == Polling && w.active == [] && w.pending == []
    requires id in w.conns && IsOpen(w.conns[id].state)
    ensures var run := [Poll([Report(w.conns[id].chan.fd, {IN})])] + [Dispatch(QUIET)];
      && LegalRun(cfg, w, run)
      && var w' := Exec(cfg, w, run);
      && Inv(cfg, w', {}) && w'.phase == Dispatching && w'.active == [] && w'.pending == [RunDestroy(id)]
      && w'.inFlight == w.inFlight && id in w'.conns && w'.conns[id].chan.fd == w.conns[id].chan.fd
  {
    var poll := Poll([Report(w.conns[id].chan.fd, {IN})]);
    PeerCloses(cfg, w, id);
    QuietClose(cfg, AfterDispatch(w), id);
    RunOne(cfg, w, poll);
    RunThen(cfg, w, [poll], Dispatch(QUIET));
  }

  /**
   From any poll with nothing queued, the turn in which a connection's peer closes is a legal run; at
   its end the connection is collected, and if it is destroyed its descriptor is free for the next accept.
   */
  lemma PeerCloseIsCollected(cfg: Config, w: World, id: nat)
    requires Inv(cfg, w, {}) && w.phase == Polling && w.pending == []
    requires id in w.conns && IsOpen(w.conns[id].state)
    ensures var fd := w.conns[id].chan.fd;
      && LegalRun(cfg, w, PeerCloseTurn(fd))
      && var w' := Exec(cfg, w, PeerCloseTurn(fd));
      Collected(w', id, Late(w, id)) && (id !in w'.conns ==> fd !in w'.open)
  {
    var front := [Poll([Report(w.conns[id].chan.fd, {IN})])] + [Dispatch(QUIET)];
    PeerCloseRuns(cfg, w, id);
    OwedDestroyIsPaid(cfg, Exec(cfg, w, front), id);
    RunOn(cfg, w, front, [Swap] + [RunNext(QUIET)] + [EndBatch]);
  }

  // -------------------------------------------------------------------------------------------
  // Forced closes

  /** The batch is running in which `id` is closed by force, or it is closed already. */
  ghost predicate Forcing(w: World, id: nat) {
    w.phase == Running && id < w.nextId && (RunForceClose(id) in w.batch || Settled(w, id))
  }

  lemma StaysSettled(cfg: Config, w: World, w': World, id: nat)
    requires Inv(cfg, w', {}) && Forward(cfg, w, w') && id < w.nextId && Settled(w, id)
    ensures Settled(w', id)
  {
    if id in w'.conns {
      OpenOrClosed(cfg, w', id, {});
    }
  }

  lemma RunNextForcing(cfg: Config, w: World, io: Io, id: nat)
    requires Inv(cfg, w, {}) && Legal(w, RunNext(io)) && Forcing(w, id)
    ensures Forcing(Step(cfg, w, RunNext(io)), id)
  {
    RunNextKeeps(cfg, w, io);
    RunNextFrame(cfg, w, io);
    if Settled(w, id) {
      StaysSettled(cfg, w, Step(cfg, w, RunNext(io)), id);
    } else if w.batch[0] == RunForceClose(id) {
      ForcedCloseTakesEffect(cfg, w, io);
    } else {
      assert w.batch == [w.batch[0]] + w.batch[1..];
    }
  }

  lemma StepForcing(cfg: Config, w: World, e: Event, id: nat)
    requires Inv(cfg, w, {}) && Legal(w, e) && Forcing(w, id) && e != EndBatch
    ensures Forcing(Step(cfg, w, e), id)
  {
    match e
    case RunNext(io) => RunNextForcing(cfg, w, io, id);
    case Foreign(a) =>
      ActKeeps(cfg, w, a, {});
      if Settled(w, id) {
        StaysSettled(cfg, w, Step(cfg, w, e), id);
      }
    case _ =>
  }

  lemma {:induction false} RunForcing(cfg: Config, w: World, run: seq<Event>, id: nat)
    requires Inv(cfg, w, {}) && LegalRun(cfg, w, run) && Forcing(w, id) && EndBatch !in run
    ensures Forcing(Exec(cfg, w, run), id)
    decreases |run|
  {
    if run != [] {
      assert run[0] in run;
      StepForcing(cfg, w, run[0], id);
      StepKeeps(cfg, w, run[0]);
      RunForcing(cfg, Step(cfg, w, run[0]), run[1..], id);
    }
  }

  /** Every forceClose pending at a swap has closed its connection by the end of that batch, in every run, */
  lemma ForcedCloseByEndOfBatch(cfg: Config, w: World, more: seq<Event>, id: nat)
    requires Inv(cfg, w, {}) && Legal(w, Swap) && RunForceClose(id) in w.pending
    requires EndBatch !in more && LegalRun(cfg, w, [Swap] + more)
    requires Legal(Exec(cfg, w, [Swap] + more), EndBatch)
    ensures LegalRun(cfg, w, [Swap] + more + [EndBatch])
    ensures var w' := Exec(cfg, w, [Swap] + more + [EndBatch]);
      Inv(cfg, w', {}) && w'.phase == Polling && id < w'.nextId && Settled(w', id) && id !in w'.server.Values
  {
    var w1 := Step(cfg, w, Swap);
    assert ([Swap] + more)[1..] == more;
    assert id in FunctorRefs(w.pending);
    StepKeeps(cfg, w, Swap);
    RunForcing(cfg, w1, more, id);
    RunKeeps(cfg, w1, more);
    var w2 := Exec(cfg, w1, more);
    RunThen(cfg, w, [Swap] + more, EndBatch);
    EndKeeps(cfg, w2);
    StaysSettled(cfg, w2, Step(cfg, w2, EndBatch), id);
    SettledIsUnserved(cfg, Step(cfg, w2, EndBatch), id);
  }

  lemma SettledIsUnserved(cfg: Config, w: World, id: nat)
    requires Inv(cfg, w, {}) && Settled(w, id)
    ensures id !in w.server.Values
  {
    ServedOnly(cfg, w, id);
    assert Good(cfg, w, {}, id);
    assert id in w.server.Values ==> id in Refs(w);
  }

  /** and by the end of the next turn the connection is collected. */
  lemma ForcedCloseIsCollected(cfg: Config, w: World, more: seq<Event>, next: seq<Event>, id: nat)
    requires Inv(cfg, w, {}) && Legal(w, Swap) && RunForceClose(id) in w.pending
    requires EndBatch !in more && LegalRun(cfg, w, [Swap] + more + [EndBatch])
    requires LegalRun(cfg, w, [Swap] + more) && Legal(Exec(cfg, w, [Swap] + more), EndBatch)
    requires var w1 := Exec(cfg, w, [Swap] + more + [EndBatch]);
      EndBatch !in next && LegalRun(cfg, w1, next) && Legal(Exec(cfg, w1, next), EndBatch)
    ensures var w1 := Exec(cfg, w, [Swap] + more + [EndBatch]);
      LegalRun(cfg, w1, next + [EndBatch]) && Collected(Exec(cfg, w1, next + [EndBatch]), id, Late(w1, id))
  {
    ForcedCloseByEndOfBatch(cfg, w, more, id);
    ClosedIsCollected(cfg, Exec(cfg, w, [Swap] + more + [EndBatch]), next, id);
  }
}
