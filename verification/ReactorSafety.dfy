/** Every legal run of the reactor keeps the invariant: no assert fails, nothing dangles, no registered descriptor is closed. */
module ReactorSafety {
  import opened Bytes
  import opened Events
  import opened PollerSpec
  import opened ConnectionSpec
  import opened ConnectionNames
  import opened Reactor
  import opened ReactorInvariant

  // -------------------------------------------------------------------------------------------
  // Client callbacks

  lemma OpenOrClosed(cfg: Config, w: World, id: nat, closing: set<nat>)
    requires Inv(cfg, w, closing) && id in w.conns
    ensures IsOpen(w.conns[id].state) || w.conns[id].state == Disconnected
    ensures id in closing ==> w.conns[id].state == Disconnected && Served(cfg, w, id)
    ensures Put(w, id, At(w, id)) == w
  {
    assert Good(cfg, w, closing, id);
    assert w.conns[id := w.conns[id]] == w.conns;
  }

  lemma OnOpenConn(cfg: Config, w: World, id: nat, v: View, closing: set<nat>)
    requires Inv(cfg, w, closing) && id in w.conns && IsOpen(w.conns[id].state)
    requires Keeps(cfg, id, At(w, id), v)
    ensures Inv(cfg, Put(w, id, v), closing) && Callback(cfg, w, Put(w, id, v))
  {
    OpenConn(cfg, w, id, closing);
    PutInv(cfg, w, id, v, closing);
    PutChange(cfg, w, id, v);
  }

  lemma TickIrrelevant(cfg: Config, w: World, closing: set<nat>)
    requires Inv(cfg, w, closing)
    ensures Inv(cfg, Tick(w), closing)
  {
    ConnsUnmoved(cfg, w, Tick(w), closing);
  }

  lemma TickChangesNothing(cfg: Config, w: World, w': World)
    requires Callback(cfg, Tick(w), w')
    ensures Callback(cfg, w, w')
  {
  }

  lemma SendActKeeps(cfg: Config, w: World, c: nat, data: seq<byte>, wr: WriteResult, closing: set<nat>)
    requires Inv(cfg, w, closing) && c in w.conns && w.conns[c].state == Connected
    ensures var w' := Act(cfg, w, Send(c, data, wr));
      Inv(cfg, w', closing) && Callback(cfg, w, w')
  {
    var v := SendInLoop(cfg, c, At(w, c), Msg(0, w.clock, data), wr);
    var w' := Put(Tick(w), c, v);
    assert Act(cfg, w, Send(c, data, wr)) == w';
    OpenConn(cfg, w, c, closing);
    SendKeeps(cfg, c, At(w, c), Msg(0, w.clock, data), wr);
    TickIrrelevant(cfg, w, closing);
    OnOpenConn(cfg, Tick(w), c, v, closing);
    TickChangesNothing(cfg, w, w');
  }

  lemma PushKeeps(cfg: Config, w: World, f: Functor, closing: set<nat>)
    requires Inv(cfg, w, closing) && !f.RunDestroy? && (f.Client? || f.conn in w.conns)
    ensures Inv(cfg, Push(w, f), closing) && Callback(cfg, w, Push(w, f))
  {
    PushInv(cfg, w, f, closing);
    PushChange(cfg, w, f);
  }

  lemma PushChange(cfg: Config, w: World, f: Functor)
    requires !f.RunDestroy?
    ensures Callback(cfg, w, Push(w, f))
  {
  }

  lemma HalfCloseKeeps(cfg: Config, w: World, c: nat, closing: set<nat>)
    requires Inv(cfg, w, closing) && c in w.conns
    ensures var w' := Act(cfg, w, HalfClose(c));
      Inv(cfg, w', closing) && Callback(cfg, w, w')
  {
    var v := Shutdown(cfg, At(w, c));
    OpenOrClosed(cfg, w, c, closing);
    assert Act(cfg, w, HalfClose(c)) == Put(w, c, v);
    if IsOpen(w.conns[c].state) {
      OpenConn(cfg, w, c, closing);
      ShutdownKeeps(cfg, c, At(w, c));
      OnOpenConn(cfg, w, c, v, closing);
    } else {
      assert v == At(w, c) && Put(w, c, v) == w;
      CallbackReflexive(cfg, w);
    }
  }

  lemma CloseActKeeps(cfg: Config, w: World, c: nat, closing: set<nat>)
    requires Inv(cfg, w, closing) && c in w.conns
    ensures var w' := Act(cfg, w, Close(c));
      Inv(cfg, w', closing) && Callback(cfg, w, w')
  {
    var v := ForceClose(c, At(w, c));
    OpenOrClosed(cfg, w, c, closing);
    assert Act(cfg, w, Close(c)) == Put(w, c, v);
    if IsOpen(w.conns[c].state) {
      OpenConn(cfg, w, c, closing);
      ForceCloseKeeps(cfg, c, At(w, c));
      OnOpenConn(cfg, w, c, v, closing);
    } else {
      assert v == At(w, c) && Put(w, c, v) == w;
      CallbackReflexive(cfg, w);
    }
  }

  lemma BeginKeeps(cfg: Config, w: World, thread: nat, f: Flight, closing: set<nat>)
    requires Inv(cfg, w, closing) && f.conn in w.conns
    ensures Inv(cfg, Begin(w, thread, f), closing) && Callback(cfg, w, Begin(w, thread, f))
  {
    if thread in w.inFlight {
      CallbackReflexive(cfg, w);
    } else {
      BeginRefs(w, thread, f);
      ConnsUnmoved(cfg, w, Begin(w, thread, f), closing);
      BeginIsCallback(cfg, w, thread, f);
    }
  }

  lemma BeginIsCallback(cfg: Config, w: World, thread: nat, f: Flight)
    ensures Callback(cfg, w, Begin(w, thread, f))
  {
  }

  lemma BeginRefs(w: World, thread: nat, f: Flight)
    requires thread !in w.inFlight
    ensures FlightRefs(Begin(w, thread, f).inFlight) == FlightRefs(w.inFlight) + {f.conn}
  {
    var w' := Begin(w, thread, f);
    assert thread in w'.inFlight && w'.inFlight[thread] == f;
    forall id | id in FlightRefs(w.inFlight)
      ensures id in FlightRefs(w'.inFlight)
    {
      var t :| t in w.inFlight && w.inFlight[t].conn == id;
      assert t in w'.inFlight && w'.inFlight[t].conn == id;
    }
  }

  /** The push of a send: its functor refers to what the call referred to. */
  lemma LandKeeps(cfg: Config, w: World, thread: nat, closing: set<nat>)
    requires Inv(cfg, w, closing) && thread in w.inFlight
    ensures Inv(cfg, Land(w, thread), closing) && Callback(cfg, w, Land(w, thread))
  {
    var f := w.inFlight[thread];
    var w1, w' := Push(w, RunSend(f.conn, f.msg)), Land(w, thread);
    assert f.conn in FlightRefs(w.inFlight);
    PushKeeps(cfg, w, RunSend(f.conn, f.msg), closing);
    LandRefs(w, thread);
    ConnsUnmoved(cfg, w1, w', closing);
  }

  lemma LandRefs(w: World, thread: nat)
    requires thread in w.inFlight
    ensures Refs(Land(w, thread)) == Refs(w) && FlightRefs(Land(w, thread).inFlight) <= FlightRefs(w.inFlight)
  {
    var f, w' := w.inFlight[thread], Land(w, thread);
    FunctorRefsAppend(w.pending, [RunSend(f.conn, f.msg)]);
    assert f.conn in FlightRefs(w.inFlight);
    forall id | id in FlightRefs(w.inFlight)
      ensures id in FlightRefs(w'.inFlight) + {f.conn}
    {
      var t :| t in w.inFlight && w.inFlight[t].conn == id;
      if t != thread {
        assert t in w'.inFlight && w'.inFlight[t].conn == id;
      }
    }
  }

  lemma HoldActKeeps(cfg: Config, w: World, a: Action, closing: set<nat>)
    requires Inv(cfg, w, closing) && (a.Hold? || a.Release?) && a.conn in w.conns
    ensures Inv(cfg, Act(cfg, w, a), closing) && Callback(cfg, w, Act(cfg, w, a))
  {
    if a.Release? {
      ReleaseKeeps(cfg, w, a.conn, closing);
    } else {
      HoldKeeps(cfg, w, a.conn, closing);
    }
  }

  lemma HoldKeeps(cfg: Config, w: World, c: nat, closing: set<nat>)
    requires Inv(cfg, w, closing) && c in w.conns
    ensures Inv(cfg, w.(held := w.held + {c}), closing) && Callback(cfg, w, w.(held := w.held + {c}))
  {
    var w' := w.(held := w.held + {c});
    HeldIrrelevant(cfg, w, w.held + {c}, closing);
    CallbackReflexive(cfg, w');
    HeldChangesNothing(cfg, w, w.held + {c}, w');
  }

  lemma ReleaseKeeps(cfg: Config, w: World, c: nat, closing: set<nat>)
    requires Inv(cfg, w, closing)
    ensures Inv(cfg, DropUnreferenced(w.(held := w.held - {c})), closing)
    ensures Callback(cfg, w, DropUnreferenced(w.(held := w.held - {c})))
  {
    var w1 := w.(held := w.held - {c});
    HeldIrrelevant(cfg, w, w1.held, closing);
    DropKeeps(cfg, w1, closing);
    HeldChangesNothing(cfg, w, w1.held, DropUnreferenced(w1));
  }

  lemma HeldChangesNothing(cfg: Config, w: World, held: set<nat>, w': World)
    requires Callback(cfg, w.(held := held), w')
    ensures Callback(cfg, w, w')
  {
  }

  lemma HeldIrrelevant(cfg: Config, w: World, held: set<nat>, closing: set<nat>)
    requires Inv(cfg, w, closing) && held <= w.conns.Keys
    ensures Core(cfg, w.(held := held), closing)
    ensures w.held <= held ==> Inv(cfg, w.(held := held), closing)
  {
    ConnsUnmoved(cfg, w, w.(held := held), closing);
  }

  lemma TestBegins(cfg: Config, w: World, thread: nat, c: nat, data: seq<byte>)
    ensures Act(cfg, w, TestFrom(thread, c, data)) ==
            if c in w.conns && w.conns[c].state == Connected then Begin(w, thread, Flight(c, Msg(thread + 1, w.clock, data))) else w
  {
  }

  lemma TestActKeeps(cfg: Config, w: World, thread: nat, c: nat, data: seq<byte>, closing: set<nat>)
    requires Inv(cfg, w, closing)
    ensures Inv(cfg, Act(cfg, w, TestFrom(thread, c, data)), closing) && Callback(cfg, w, Act(cfg, w, TestFrom(thread, c, data)))
  {
    TestBegins(cfg, w, thread, c, data);
    CallbackReflexive(cfg, w);
    if c in w.conns && w.conns[c].state == Connected {
      BeginKeeps(cfg, w, thread, Flight(c, Msg(thread + 1, w.clock, data)), closing);
    }
  }

  lemma PushActKeeps(cfg: Config, w: World, a: Action, closing: set<nat>)
    requires Inv(cfg, w, closing) && a.PushFrom?
    ensures Inv(cfg, Act(cfg, w, a), closing) && Callback(cfg, w, Act(cfg, w, a))
  {
    if a.thread in w.inFlight {
      LandKeeps(cfg, w, a.thread, closing);
    } else {
      CallbackReflexive(cfg, w);
    }
  }

  /** What other threads can do. */
  lemma ForeignKeeps(cfg: Config, w: World, a: Action, closing: set<nat>)
    requires Inv(cfg, w, closing) && ForeignAction(a)
    ensures Inv(cfg, Act(cfg, w, a), closing) && Callback(cfg, w, Act(cfg, w, a))
  {
    if a.Post? {
      PushKeeps(cfg, w, Client, closing);
    } else if a.PushFrom? {
      PushActKeeps(cfg, w, a, closing);
    } else if a.TestFrom? {
      TestActKeeps(cfg, w, a.thread, a.conn, a.data, closing);
    } else if a.conn in w.conns {
      HoldActKeeps(cfg, w, a, closing);
    } else {
      CallbackReflexive(cfg, w);
    }
  }

  lemma ActKeeps(cfg: Config, w: World, a: Action, closing: set<nat>)
    requires Inv(cfg, w, closing)
    ensures Inv(cfg, Act(cfg, w, a), closing) && Callback(cfg, w, Act(cfg, w, a))
  {
    if ForeignAction(a) {
      ForeignKeeps(cfg, w, a, closing);
    } else if a.conn in w.conns {
      match a
      case Send(c, data, wr) =>
        if w.conns[c].state == Connected {
          SendActKeeps(cfg, w, c, data, wr, closing);
        } else {
          CallbackReflexive(cfg, w);
        }
      case HalfClose(c) => HalfCloseKeeps(cfg, w, c, closing);
      case Close(c) => CloseActKeeps(cfg, w, c, closing);
    } else {
      CallbackReflexive(cfg, w);
    }
  }

  /** Whatever a client callback does, the invariant survives it and the loop's lists are untouched. */
  lemma {:induction false} ActsKeep(cfg: Config, w: World, script: seq<Action>, closing: set<nat>)
    requires Inv(cfg, w, closing)
    ensures Inv(cfg, Acts(cfg, w, script), closing) && Callback(cfg, w, Acts(cfg, w, script))
    decreases |script|
  {
    if script != [] {
      var w1 := Act(cfg, w, script[0]);
      ActKeeps(cfg, w, script[0], closing);
      ActsKeep(cfg, w1, script[1..], closing);
      CallbackTransitive(cfg, w, w1, Acts(cfg, w1, script[1..]));
    }
  }

  // -------------------------------------------------------------------------------------------
  // Handlers

  /** What a handler of connection `id` may do: anything a callback may, and close `id`. */
  ghost predicate Handled(cfg: Config, w: World, w': World, id: nat) {
    && w'.active == w.active && w'.batch == w.batch && w'.done == w.done && w'.phase == w.phase
    && w'.nextId == w.nextId && w'.conns.Keys <= w.conns.Keys && w.pending <= w'.pending
    && NothingRemoved(w, w') && Forward(cfg, w, w')
    && (forall other :: other != id && other in w.conns && IsOpen(w.conns[other].state) ==>
          other in w'.conns && IsOpen(w'.conns[other].state))
  }

  lemma HandledTransitive(cfg: Config, a: World, b: World, c: World, id: nat)
    requires Handled(cfg, a, b, id) && Handled(cfg, b, c, id)
    ensures Handled(cfg, a, c, id)
  {
  }

  /** An open connection stays live and open under callbacks: the map still refers to it. */
  lemma StaysOpen(cfg: Config, w: World, w': World, closing: set<nat>, id: nat)
    requires Inv(cfg, w, closing) && Inv(cfg, w', closing) && Callback(cfg, w, w')
    requires id in w.conns && IsOpen(w.conns[id].state)
    ensures id in w'.conns && IsOpen(w'.conns[id].state)
  {
    OpenConn(cfg, w, id, closing);
    assert id in w'.server.Values;
  }

  lemma CallbackIsHandled(cfg: Config, w: World, w': World, closing: set<nat>, id: nat)
    requires Inv(cfg, w, closing) && Inv(cfg, w', closing) && Callback(cfg, w, w')
    ensures Handled(cfg, w, w', id)
  {
    forall other | other in w.conns && IsOpen(w.conns[other].state)
      ensures other in w'.conns && IsOpen(w'.conns[other].state)
    {
      StaysOpen(cfg, w, w', closing, other);
    }
  }

  ghost predicate NotActive(w: World, id: nat) {
    forall i :: 0 <= i < |w.active| && w.active[i].Ready? ==> w.active[i].id != id
  }

  /** handleClose up to its callback: the connection is closed but still in the map. */
  lemma BeginCloseInv(cfg: Config, w: World, id: nat)
    requires Inv(cfg, w, {}) && id in w.conns && IsOpen(w.conns[id].state) && NotActive(w, id)
    ensures Inv(cfg, Put(w, id, BeginClose(id, At(w, id))), {id})
  {
    OpenConn(cfg, w, id, {});
    BeginCloseKeeps(cfg, id, At(w, id));
    var v := BeginClose(id, At(w, id));
    PutConns(cfg, w, id, v, {}, {id});
    PutRest(cfg, w, id, v);
    ClosePutActive(w, id, v);
  }

  lemma ClosePutActive(w: World, id: nat, v: View)
    requires ActiveOk(w) && NotActive(w, id) && id in w.conns
    ensures ActiveOk(Put(w, id, v))
  {
  }

  lemma BeginCloseHandled(cfg: Config, w: World, id: nat)
    requires id in w.conns && OpenOk(id, w.conns[id], w.poller) && HistoryOk(cfg, w.conns[id])
    ensures Handled(cfg, w, Put(w, id, BeginClose(id, At(w, id))), id)
  {
    BeginCloseKeeps(cfg, id, At(w, id));
    PutRemovesNothing(w, id, BeginClose(id, At(w, id)));
    PutOwns(w, id, BeginClose(id, At(w, id)));
  }

  lemma RemoveConns(cfg: Config, w: World, id: nat)
    requires Inv(cfg, w, {id}) && id in w.conns
    ensures ConnsOk(cfg, RemoveConnection(cfg, w, id), {})
  {
    var w' := RemoveConnection(cfg, w, id);
    assert Good(cfg, w, {id}, id);
    forall other | other in w'.conns
      ensures Good(cfg, w', {}, other)
    {
      if other != id {
        assert Good(cfg, w, {id}, other);
        assert Served(cfg, w', other) == Served(cfg, w, other);
        assert Doomed(w', other) == Doomed(w, other);
      } else {
        assert RunDestroy(id) in w'.pending;
      }
    }
  }

  lemma RemoveRest(cfg: Config, w: World, id: nat)
    requires QueueOk(w) && ServerOk(cfg, w) && Served(cfg, w, id) && !Doomed(w, id)
    ensures var w' := RemoveConnection(cfg, w, id);
      QueueOk(w') && ServerOk(cfg, w') && Refs(w') == Refs(w)
  {
    var w' := RemoveConnection(cfg, w, id);
    assert w'.batch + w'.pending == (w.batch + w.pending) + [RunDestroy(id)];
    FunctorRefsAppend(w.pending, [RunDestroy(id)]);
    forall other | other in w.server.Values
      ensures other in w'.server.Values + {id}
    {
      var name :| name in w.server && w.server[name] == other;
      if name != NameOf(cfg, id) {
        assert name in w'.server;
      }
    }
    assert w'.server.Values <= w.server.Values;
    assert id in w.server.Values;
  }

  /** removeConnection ends the close: out of the map, and connectDestroyed is owed. */
  lemma RemoveKeeps(cfg: Config, w: World, id: nat)
    requires Inv(cfg, w, {id})
    ensures Inv(cfg, RemoveConnection(cfg, w, id), {})
  {
    assert Good(cfg, w, {id}, id);
    RemoveConns(cfg, w, id);
    RemoveRest(cfg, w, id);
  }

  lemma RemoveHandled(cfg: Config, w: World, id: nat)
    ensures Handled(cfg, w, RemoveConnection(cfg, w, id), id)
  {
  }

  /** handleClose on an open connection: its assert holds, and it is left closed and owed one connectDestroyed. */
  lemma CloseKeeps(cfg: Config, w: World, id: nat, callback: seq<Action>)
    requires Inv(cfg, w, {}) && id in w.conns && IsOpen(w.conns[id].state) && NotActive(w, id)
    ensures var w' := CloseConnection(cfg, w, id, callback);
      && Inv(cfg, w', {}) && Handled(cfg, w, w', id)
      && id in w'.conns && w'.conns[id].state == Disconnected && w'.conns[id].chan.events == NONE
      && w'.pending != [] && w'.pending[|w'.pending| - 1] == RunDestroy(id)
  {
    var w1 := Put(w, id, BeginClose(id, At(w, id)));
    BeginCloseInv(cfg, w, id);
    OpenConn(cfg, w, id, {});
    BeginCloseHandled(cfg, w, id);
    var w2 := Acts(cfg, w1, callback);
    ActsKeep(cfg, w1, callback, {id});
    CallbackIsHandled(cfg, w1, w2, {id}, id);
    HandledTransitive(cfg, w, w1, w2, id);
    RemoveKeeps(cfg, w2, id);
    RemoveHandled(cfg, w2, id);
    HandledTransitive(cfg, w, w2, RemoveConnection(cfg, w2, id), id);
    OpenOrClosed(cfg, w2, id, {id});
    assert Good(cfg, w2, {id}, id);
  }

  /** Live for as long as nobody but the loop itself lets go of it: open, or owed its connectDestroyed. */
  ghost predicate Kept(w: World, id: nat) {
    id in w.conns && (IsOpen(w.conns[id].state) || Doomed(w, id))
  }

  lemma StaysKept(cfg: Config, w: World, w': World, id: nat)
    requires Inv(cfg, w, {}) && Inv(cfg, w', {}) && Callback(cfg, w, w') && Kept(w, id)
    ensures Kept(w', id)
  {
    if IsOpen(w.conns[id].state) {
      StaysOpen(cfg, w, w', {}, id);
    } else if RunDestroy(id) in w.batch {
      assert id in FunctorRefs(w'.batch);
    } else {
      assert RunDestroy(id) in w'.pending;
      assert id in FunctorRefs(w'.pending);
    }
  }

  lemma WriteKeeps(cfg: Config, w: World, id: nat, wr: WriteResult)
    requires Inv(cfg, w, {}) && id in w.conns
    ensures Inv(cfg, WriteConnection(cfg, w, id, wr), {})
    ensures Handled(cfg, w, WriteConnection(cfg, w, id, wr), id)
    ensures w.conns[id].state == Disconnected ==> WriteConnection(cfg, w, id, wr) == w
  {
    var v := HandleWrite(cfg, id, At(w, id), wr);
    OpenOrClosed(cfg, w, id, {});
    if IsOpen(w.conns[id].state) {
      OpenConn(cfg, w, id, {});
      HandleWriteKeeps(cfg, id, At(w, id), wr);
      OnOpenConn(cfg, w, id, v, {});
      CallbackIsHandled(cfg, w, Put(w, id, v), {}, id);
    } else {
      assert Good(cfg, w, {}, id);
      assert v == At(w, id);
    }
  }

  lemma CallbackKeeps(cfg: Config, w: World, id: nat, script: seq<Action>)
    requires Inv(cfg, w, {})
    ensures var w' := Acts(cfg, w, script);
      Inv(cfg, w', {}) && Handled(cfg, w, w', id) && (Kept(w, id) ==> Kept(w', id))
  {
    var w' := Acts(cfg, w, script);
    ActsKeep(cfg, w, script, {});
    CallbackIsHandled(cfg, w, w', {}, id);
    if Kept(w, id) {
      StaysKept(cfg, w, w', id);
    }
  }

  lemma ClosedIsKept(cfg: Config, w: World, id: nat, callback: seq<Action>)
    requires Inv(cfg, w, {}) && id in w.conns && IsOpen(w.conns[id].state) && NotActive(w, id)
    ensures Kept(CloseConnection(cfg, w, id, callback), id)
  {
    CloseKeeps(cfg, w, id, callback);
    var w' := CloseConnection(cfg, w, id, callback);
    assert w'.pending[|w'.pending| - 1] in w'.pending;
  }

  lemma ReadKeeps(cfg: Config, w: World, id: nat, n: int, callback: seq<Action>)
    requires Inv(cfg, w, {}) && Kept(w, id) && NotActive(w, id)
    requires n == 0 ==> IsOpen(w.conns[id].state)
    ensures var w' := ReadConnection(cfg, w, id, n, callback);
      Inv(cfg, w', {}) && Handled(cfg, w, w', id) && Kept(w', id)
  {
    if n > 0 {
      CallbackKeeps(cfg, w, id, callback);
    } else if n == 0 {
      CloseKeeps(cfg, w, id, callback);
      ClosedIsKept(cfg, w, id, callback);
    }
  }

  lemma HangupKeeps(cfg: Config, w: World, id: nat, revents: Mask, io: Io)
    requires Inv(cfg, w, {}) && id in w.conns && IsOpen(w.conns[id].state) && NotActive(w, id)
    ensures var w' := HangupBranches(cfg, w, id, revents, io);
      && Inv(cfg, w', {}) && Handled(cfg, w, w', id) && Kept(w', id)
      && (IsOpen(w'.conns[id].state) <==> !(HUP in revents && IN !in revents))
  {
    if HUP in revents && IN !in revents {
      CloseKeeps(cfg, w, id, io.onHangup);
      ClosedIsKept(cfg, w, id, io.onHangup);
    }
  }

  predicate ReadsClosed(revents: Mask, read: int) {
    revents * {IN, PRI, RDHUP} != {} && read == 0
  }

  lemma ClosesTwiceSplit(revents: Mask, read: int)
    ensures ClosesTwice(revents, read) <==> (HUP in revents && IN !in revents) && ReadsClosed(revents, read)
  {
    if IN !in revents {
      assert revents * {IN, PRI, RDHUP} == revents * {PRI, RDHUP};
    }
  }

  lemma ReadBranchKeeps(cfg: Config, w: World, id: nat, revents: Mask, io: Io)
    requires Inv(cfg, w, {}) && Kept(w, id) && NotActive(w, id)
    requires ReadsClosed(revents, io.read) ==> IsOpen(w.conns[id].state)
    ensures var w' := ReadBranch(cfg, w, id, revents, io);
      Inv(cfg, w', {}) && Handled(cfg, w, w', id) && Kept(w', id)
  {
    if revents * {IN, PRI, RDHUP} != {} {
      ReadKeeps(cfg, w, id, io.read, io.onRead);
    }
  }

  lemma AfterHangup(cfg: Config, w: World, id: nat, revents: Mask, io: Io)
    requires Inv(cfg, w, {}) && Kept(w, id) && NotActive(w, id)
    requires ReadsClosed(revents, io.read) ==> IsOpen(w.conns[id].state)
    ensures var w' := WriteBranch(cfg, ReadBranch(cfg, w, id, revents, io), id, revents, io);
      Inv(cfg, w', {}) && Handled(cfg, w, w', id)
  {
    var w1 := ReadBranch(cfg, w, id, revents, io);
    ReadBranchKeeps(cfg, w, id, revents, io);
    WriteBranchKeeps(cfg, w1, id, revents, io);
    HandledTransitive(cfg, w, w1, WriteBranch(cfg, w1, id, revents, io), id);
  }

  /** One dispatched event, hang-up, error, read and write branches together. */
  lemma HandleEventKeeps(cfg: Config, w: World, id: nat, revents: Mask, io: Io)
    requires Inv(cfg, w, {}) && id in w.conns && IsOpen(w.conns[id].state) && NotActive(w, id)
    requires !ClosesTwice(revents, io.read)
    ensures var w' := HandleEvent(cfg, w, id, revents, io);
      Inv(cfg, w', {}) && Handled(cfg, w, w', id)
  {
    var w1 := HangupBranches(cfg, w, id, revents, io);
    ClosesTwiceSplit(revents, io.read);
    HangupKeeps(cfg, w, id, revents, io);
    AfterHangup(cfg, w1, id, revents, io);
    HandledTransitive(cfg, w, w1, HandleEvent(cfg, w, id, revents, io), id);
  }

  lemma WriteBranchKeeps(cfg: Config, w: World, id: nat, revents: Mask, io: Io)
    requires Inv(cfg, w, {}) && id in w.conns
    ensures var w' := WriteBranch(cfg, w, id, revents, io);
      Inv(cfg, w', {}) && Handled(cfg, w, w', id)
  {
    if OUT in revents {
      WriteKeeps(cfg, w, id, io.wrote);
    }
  }

  /** After a read that closed the connection, the write branch of the same dispatch does nothing. */
  lemma CloseInReadSilencesWrite(cfg: Config, w: World, id: nat, callback: seq<Action>, wr: WriteResult)
    requires Inv(cfg, w, {}) && id in w.conns && IsOpen(w.conns[id].state) && NotActive(w, id)
    ensures var w' := ReadConnection(cfg, w, id, 0, callback);
      WriteConnection(cfg, w', id, wr) == w'
  {
    CloseKeeps(cfg, w, id, callback);
    WriteKeeps(cfg, CloseConnection(cfg, w, id, callback), id, wr);
  }

  // -------------------------------------------------------------------------------------------
  // New connections

  /** The descriptor, the number and the name of a new connection are all fresh. */
  lemma NewIsFresh(cfg: Config, w: World, fd: nat)
    requires Inv(cfg, w, {}) && fd !in w.open
    ensures w.nextId !in w.conns && w.nextId !in Refs(w) && !Doomed(w, w.nextId)
    ensures NameOf(cfg, w.nextId) !in w.server
    ensures fd !in w.poller.channels && fd !in w.poller.interest
    ensures forall id :: id in w.conns ==> w.conns[id].chan.fd != fd
  {
    var name := NameOf(cfg, w.nextId);
    if name in w.server {
      var id := w.server[name];
      assert id in Refs(w);
      FittingNamesDiffer(cfg.serverName, cfg.ipPort, id, w.nextId);
    }
    assert w.nextId !in FunctorRefs(w.batch) && w.nextId !in FunctorRefs(w.pending);
  }

  lemma DropNothing(w: World)
    requires w.conns.Keys <= Refs(w)
    ensures DropUnreferenced(w) == w
  {
    var dead := w.conns.Keys - Refs(w);
    var fds := FdsOf(w, dead);
    assert dead == {} && fds == {};
    assert w.conns - dead == w.conns && w.open - fds == w.open;
    assert w.poller.interest - fds == w.poller.interest;
  }

  lemma EntryIsAdded(server: map<string, nat>, name: string, id: nat)
    requires name !in server
    ensures server[name := id].Values == server.Values + {id}
  {
    var entered := server[name := id];
    assert name in entered && entered[name] == id;
    forall other | other in server.Values
      ensures other in entered.Values
    {
      var n :| n in server && server[n] == other;
      assert n in entered && entered[n] == other;
    }
  }

  /** So no other connection loses its map entry. */
  lemma AdmitOverwritesNothing(cfg: Config, w: World, fd: nat)
    requires Inv(cfg, w, {}) && fd !in w.open
    ensures var w1 := Admit(cfg, w, fd);
      DropUnreferenced(w1) == w1 && Refs(w1) == w1.conns.Keys
  {
    NewIsFresh(cfg, w, fd);
    EntryIsAdded(w.server, NameOf(cfg, w.nextId), w.nextId);
    AdmitRefs(cfg, w, fd);
    DropNothing(Admit(cfg, w, fd));
  }

  lemma AdmitRefs(cfg: Config, w: World, fd: nat)
    requires w.conns.Keys == Refs(w)
    requires w.server[NameOf(cfg, w.nextId) := w.nextId].Values == w.server.Values + {w.nextId}
    ensures var w1 := Admit(cfg, w, fd); Refs(w1) == w1.conns.Keys == Refs(w) + {w.nextId}
  {
  }

  /** The world with the new connection in the given shape, before its callback. */
  function Joined(cfg: Config, w: World, fd: nat, v: View): World {
    Put(Admit(cfg, w, fd), w.nextId, v)
  }

  /** A connection in good order on a descriptor of its own. */
  ghost predicate GoodNewcomer(cfg: Config, w: World, fd: nat, v: View) {
    && OpenOk(w.nextId, v.conn, v.poller) && HistoryOk(cfg, v.conn)
    && v.conn.chan.fd == fd && v.pending == w.pending && SameElsewhere(w.poller, v.poller, fd)
  }

  lemma EstablishedIsGood(cfg: Config, w: World, fd: nat)
    requires Inv(cfg, w, {}) && fd !in w.open
    ensures var w1 := Admit(cfg, w, fd);
      GoodNewcomer(cfg, w, fd, Establish(w.nextId, At(w1, w.nextId)))
  {
    NewIsFresh(cfg, w, fd);
    EstablishKeeps(cfg, w.nextId, At(Admit(cfg, w, fd), w.nextId));
  }

  lemma JoinedOther(cfg: Config, w: World, fd: nat, v: View, other: nat)
    requires NameOf(cfg, w.nextId) !in w.server && v.pending == w.pending && other != w.nextId
    ensures var w' := Joined(cfg, w, fd, v);
      Served(cfg, w', other) == Served(cfg, w, other) && Doomed(w', other) == Doomed(w, other)
  {
  }

  lemma JoinedConns(cfg: Config, w: World, fd: nat, v: View)
    requires ConnsOk(cfg, w, {}) && GoodNewcomer(cfg, w, fd, v)
    requires w.nextId !in w.conns && !Doomed(w, w.nextId) && NameOf(cfg, w.nextId) !in w.server
    requires forall id :: id in w.conns ==> w.conns[id].chan.fd != fd
    ensures ConnsOk(cfg, Joined(cfg, w, fd, v), {})
  {
    var id, w' := w.nextId, Joined(cfg, w, fd, v);
    forall other | other in w'.conns
      ensures Good(cfg, w', {}, other)
    {
      if other != id {
        assert Good(cfg, w, {}, other);
        ConnElsewhere(cfg, other, w.conns[other], w.poller, w'.poller, fd, Served(cfg, w, other), Doomed(w, other), false);
        JoinedOther(cfg, w, fd, v, other);
      }
    }
  }

  lemma JoinedFds(cfg: Config, w: World, fd: nat, v: View)
    requires FdsOk(w) && PollerOk(w) && GoodNewcomer(cfg, w, fd, v)
    requires w.nextId !in w.conns && forall id :: id in w.conns ==> w.conns[id].chan.fd != fd
    ensures FdsOk(Joined(cfg, w, fd, v)) && PollerOk(Joined(cfg, w, fd, v))
  {
  }

  lemma JoinedServer(cfg: Config, w: World, fd: nat, v: View)
    requires ServerOk(cfg, w) && QueueOk(w) && GoodNewcomer(cfg, w, fd, v) && w.nextId + 1 < INT_LIMIT
    ensures var w' := Joined(cfg, w, fd, v);
      ServerOk(cfg, w') && QueueOk(w') && Refs(w') == Refs(Admit(cfg, w, fd)) && w'.conns.Keys == Admit(cfg, w, fd).conns.Keys
  {
  }

  /** What a step of the loop does outside the functor phase. */
  ghost predicate Dispatched(cfg: Config, w: World, w': World) {
    && w'.active == w.active && w'.phase == w.phase && w'.batch == w.batch && w'.done == w.done
    && w.pending <= w'.pending
    && NothingRemoved(w, w') && Forward(cfg, w, w')
  }

  lemma JoinedDispatched(cfg: Config, w: World, fd: nat, v: View)
    requires w.nextId !in w.conns && fd !in w.poller.channels && GoodNewcomer(cfg, w, fd, v)
    ensures Dispatched(cfg, w, Joined(cfg, w, fd, v))
    ensures ActiveOk(w) ==> ActiveOk(Joined(cfg, w, fd, v))
  {
    var w' := Joined(cfg, w, fd, v);
    forall other | Unowned(w', other)
      ensures Unowned(w, other)
    {
      assert w'.conns[w.nextId].chan.fd == fd;
      assert forall id :: id in w.conns ==> w'.conns[id] == w.conns[id];
    }
  }

  lemma DispatchedThenCallback(cfg: Config, a: World, b: World, c: World)
    requires FdsOk(a) && Dispatched(cfg, a, b) && Callback(cfg, b, c)
    ensures Dispatched(cfg, a, c)
  {
  }

  lemma NewConnectionKeeps(cfg: Config, w: World, fd: nat, callback: seq<Action>)
    requires Inv(cfg, w, {}) && fd !in w.open && w.nextId + 1 < INT_LIMIT
    ensures var w' := NewConnection(cfg, w, fd, callback);
      Inv(cfg, w', {}) && Dispatched(cfg, w, w')
  {
    var v := Establish(w.nextId, At(Admit(cfg, w, fd), w.nextId));
    var w1 := Joined(cfg, w, fd, v);
    NewIsFresh(cfg, w, fd);
    AdmitOverwritesNothing(cfg, w, fd);
    EstablishedIsGood(cfg, w, fd);
    JoinedConns(cfg, w, fd, v);
    JoinedFds(cfg, w, fd, v);
    JoinedServer(cfg, w, fd, v);
    JoinedDispatched(cfg, w, fd, v);
    ActsKeep(cfg, w1, callback, {});
    DispatchedThenCallback(cfg, w, w1, NewConnection(cfg, w, fd, callback));
  }

  // -------------------------------------------------------------------------------------------
  // Functors

  /** The head functor moves from the batch to the functors already run, which still own their pointers. */
  function Popped(w: World): World
    requires w.batch != []
  {
    w.(batch := w.batch[1..], done := w.done + [w.batch[0]])
  }

  lemma PopRest(cfg: Config, w: World)
    requires w.batch != []
    ensures Refs(Popped(w)) == Refs(w)
    ensures QueueOk(w) ==> QueueOk(Popped(w))
    ensures forall id :: RunDestroy(id) != w.batch[0] ==> Doomed(Popped(w), id) == Doomed(w, id)
    ensures QueueOk(w) && w.batch[0].RunDestroy? ==> !Doomed(Popped(w), w.batch[0].conn)
  {
    var f, rest := w.batch[0], w.batch[1..];
    assert w.batch == [f] + rest;
    FunctorRefsAppend([f], rest);
    FunctorRefsAppend(w.done, [f]);
    assert w.batch + w.pending == [f] + (rest + w.pending);
    if QueueOk(w) {
      forall i, j | 0 <= i < j < |rest + w.pending| && (rest + w.pending)[i].RunDestroy?
        ensures (rest + w.pending)[i] != (rest + w.pending)[j]
      {
        assert (w.batch + w.pending)[i + 1] == (rest + w.pending)[i];
        assert (w.batch + w.pending)[j + 1] == (rest + w.pending)[j];
      }
      assert (w.batch + w.pending)[0] == f;
      forall i | 0 <= i < |rest + w.pending|
        ensures f.RunDestroy? ==> (rest + w.pending)[i] != f
      {
        assert (w.batch + w.pending)[i + 1] == (rest + w.pending)[i];
      }
      assert f.RunDestroy? ==> f !in rest + w.pending;
      assert f in rest || f in w.pending ==> f in rest + w.pending;
    }
  }

  lemma PopConns(cfg: Config, w: World)
    requires w.batch != [] && !w.batch[0].RunDestroy? && ConnsOk(cfg, w, {})
    ensures ConnsOk(cfg, Popped(w), {})
  {
    var w' := Popped(w);
    PopRest(cfg, w);
    forall id | id in w'.conns
      ensures Good(cfg, w', {}, id)
    {
      assert Good(cfg, w, {}, id);
    }
  }

  lemma PopKeeps(cfg: Config, w: World)
    requires Inv(cfg, w, {}) && w.batch != [] && !w.batch[0].RunDestroy?
    ensures Inv(cfg, Popped(w), {})
    ensures !w.batch[0].Client? ==> w.batch[0].conn in w.conns
  {
    PopConns(cfg, w);
    PopRest(cfg, w);
    if !w.batch[0].Client? {
      assert w.batch[0].conn in FunctorRefs(w.batch);
    }
  }

  /** A connectDestroyed in the queue is about a closed connection that is still in m_channels. */
  lemma DoomedIsClosed(cfg: Config, w: World, id: nat)
    requires Inv(cfg, w, {}) && Doomed(w, id)
    ensures id in w.conns && w.conns[id].state == Disconnected && w.conns[id].chan.index == Deleted
    ensures w.conns[id].chan.events == NONE && Agrees(id, w.conns[id].chan, w.poller)
    ensures HistoryOk(cfg, w.conns[id]) && w.conns[id].closes == 1 && !Served(cfg, w, id)
  {
    if RunDestroy(id) in w.batch {
      assert id in FunctorRefs(w.batch);
    } else {
      assert id in FunctorRefs(w.pending);
    }
    assert Good(cfg, w, {}, id);
  }

  /** What is left of connectDestroyed on a closed connection: the removal. */
  function Removed(w: World, id: nat): World
    requires w.batch != [] && id in w.conns
  {
    Put(Popped(w), id, FinishDestroy(id, At(w, id)))
  }

  lemma DestroyIsRemoval(cfg: Config, w: World, id: nat, io: Io)
    requires w.batch != [] && w.batch[0] == RunDestroy(id) && id in w.conns && w.conns[id].state == Disconnected
    ensures RunFunctor(cfg, Popped(w), w.batch[0], io) == Removed(w, id)
  {
    assert Popped(w).conns[id := w.conns[id]] == w.conns;
    assert DestroyConnection(cfg, Popped(w), id, io.onRead) == Removed(w, id);
  }

  lemma RemovedConns(cfg: Config, w: World, id: nat)
    requires ConnsOk(cfg, w, {}) && FdsOk(w) && QueueOk(w) && w.batch != [] && w.batch[0] == RunDestroy(id)
    requires id in w.conns && w.conns[id].state == Disconnected && w.conns[id].chan.index == Deleted
    requires Agrees(id, w.conns[id].chan, w.poller)
    ensures ConnsOk(cfg, Removed(w, id), {})
  {
    var w' := Removed(w, id);
    assert Good(cfg, w, {}, id);
    RemoveAgrees(w.poller, id, w.conns[id].chan);
    PopRest(cfg, w);
    forall other | other in w'.conns
      ensures Good(cfg, w', {}, other)
    {
      if other != id {
        assert Good(cfg, w, {}, other);
        ConnElsewhere(cfg, other, w.conns[other], w.poller, w'.poller, w.conns[id].chan.fd,
                      Served(cfg, w, other), Doomed(w, other), false);
      }
    }
  }

  lemma RemovedFds(w: World, id: nat)
    requires FdsOk(w) && PollerOk(w) && w.batch != [] && id in w.conns
    requires w.conns[id].chan.index == Deleted && w.conns[id].chan.events == NONE && Agrees(id, w.conns[id].chan, w.poller)
    ensures FdsOk(Removed(w, id)) && PollerOk(Removed(w, id))
  {
    RemoveAgrees(w.poller, id, w.conns[id].chan);
  }

  lemma RemovedLists(cfg: Config, w: World, id: nat)
    requires ServerOk(cfg, w) && QueueOk(w) && ActiveOk(w) && w.batch != [] && id in w.conns
    requires w.conns[id].state == Disconnected
    ensures var w' := Removed(w, id);
      ServerOk(cfg, w') && QueueOk(w') && ActiveOk(w') && Refs(w') == Refs(w) && w'.conns.Keys == w.conns.Keys
  {
    PopRest(cfg, w);
  }

  lemma RemovedForward(cfg: Config, w: World, id: nat)
    requires id in w.conns && w.batch != []
    ensures Forward(cfg, w, Removed(w, id))
  {
    PutOwns(Popped(w), id, FinishDestroy(id, At(w, id)));
    assert forall fd :: Unowned(Popped(w), fd) ==> Unowned(w, fd);
  }

  /** connectDestroyed: every assert of removeChannel holds, once per connection. */
  lemma DestroyKeeps(cfg: Config, w: World, io: Io)
    requires Inv(cfg, w, {}) && w.batch != [] && w.batch[0].RunDestroy?
    ensures Inv(cfg, RunFunctor(cfg, Popped(w), w.batch[0], io), {})
    ensures Forward(cfg, w, RunFunctor(cfg, Popped(w), w.batch[0], io))
  {
    var id := w.batch[0].conn;
    DoomedIsClosed(cfg, w, id);
    DestroyIsRemoval(cfg, w, id, io);
    RemovedInv(cfg, w, id);
    RemovedForward(cfg, w, id);
  }

  lemma RemovedInv(cfg: Config, w: World, id: nat)
    requires Inv(cfg, w, {}) && w.batch != [] && w.batch[0] == RunDestroy(id) && id in w.conns
    ensures Inv(cfg, Removed(w, id), {})
  {
    DoomedIsClosed(cfg, w, id);
    RemovedConns(cfg, w, id);
    RemovedFds(w, id);
    RemovedLists(cfg, w, id);
  }

  // -------------------------------------------------------------------------------------------
  // The other functors

  ghost predicate Advances(cfg: Config, w: World, w': World) {
    Inv(cfg, w', {}) && Forward(cfg, w, w')
  }

  /** A queued send: on an open connection it is sendInLoop, on a closed one it is dropped. */
  lemma QueuedSendKeeps(cfg: Config, w: World, id: nat, m: Msg, wr: WriteResult)
    requires Inv(cfg, w, {}) && id in w.conns
    ensures Advances(cfg, w, Put(w, id, SendInLoop(cfg, id, At(w, id), m, wr)))
  {
    OpenOrClosed(cfg, w, id, {});
    if IsOpen(w.conns[id].state) {
      OpenConn(cfg, w, id, {});
      SendKeeps(cfg, id, At(w, id), m, wr);
      OnOpenConn(cfg, w, id, SendInLoop(cfg, id, At(w, id), m, wr), {});
    }
  }

  lemma RunFunctorKeeps(cfg: Config, w: World, f: Functor, io: Io)
    requires Inv(cfg, w, {}) && w.active == [] && !f.RunDestroy? && (f.Client? || f.conn in w.conns)
    ensures Advances(cfg, w, RunFunctor(cfg, w, f, io))
  {
    match f
    case RunSend(id, m) =>
      QueuedSendKeeps(cfg, w, id, m, io.wrote);
    case RunForceClose(id) =>
      if IsOpen(w.conns[id].state) {
        CloseKeeps(cfg, w, id, io.onRead);
      }
    case _ =>
      ActsKeep(cfg, w, io.onRead, {});
  }

  lemma PopForward(cfg: Config, w: World, w': World)
    requires w.batch != [] && Forward(cfg, Popped(w), w')
    ensures Forward(cfg, w, w')
  {
  }

  lemma RunNextKeeps(cfg: Config, w: World, io: Io)
    requires Inv(cfg, w, {}) && Legal(w, RunNext(io))
    ensures Advances(cfg, w, Step(cfg, w, RunNext(io)))
  {
    if w.batch[0].RunDestroy? {
      DestroyKeeps(cfg, w, io);
    } else {
      PopKeeps(cfg, w);
      RunFunctorKeeps(cfg, Popped(w), w.batch[0], io);
      PopForward(cfg, w, Step(cfg, w, RunNext(io)));
    }
  }

  /** Handlers, callbacks and functors only add to the pending list, and leave the rest of the batch alone. */
  ghost predicate OnlyAdds(w: World, w': World) {
    w.pending <= w'.pending && w'.batch == w.batch && w'.done == w.done && w'.phase == w.phase
  }

  lemma FunctorFrame(cfg: Config, w: World, f: Functor, io: Io)
    requires Inv(cfg, w, {}) && w.active == [] && !f.RunDestroy? && (f.Client? || f.conn in w.conns)
    ensures OnlyAdds(w, RunFunctor(cfg, w, f, io))
  {
    match f
    case RunSend(c, m) => SendQueues(cfg, c, At(w, c), m, io.wrote);
    case RunForceClose(c) =>
      if IsOpen(w.conns[c].state) {
        CloseKeeps(cfg, w, c, io.onRead);
      }
    case _ => ActsKeep(cfg, w, io.onRead, {});
  }

  /** Running a functor leaves the batch and the functors already run, its own included, to the end of the batch. */
  lemma RunNextFrame(cfg: Config, w: World, io: Io)
    requires Inv(cfg, w, {}) && Legal(w, RunNext(io))
    ensures OnlyAdds(Popped(w), Step(cfg, w, RunNext(io)))
  {
    var f := w.batch[0];
    if f.RunDestroy? {
      DoomedIsClosed(cfg, w, f.conn);
      DestroyIsRemoval(cfg, w, f.conn, io);
    } else {
      PopKeeps(cfg, w);
      FunctorFrame(cfg, Popped(w), f, io);
    }
  }

  // -------------------------------------------------------------------------------------------
  // The loop's own steps

  /** What epoll reports names a live, open connection, by the pointer m_channels holds. */
  lemma ReportedIsOpen(cfg: Config, w: World, fd: nat)
    requires Inv(cfg, w, {}) && fd in w.poller.interest
    ensures var r := w.poller.interest[fd];
      && r.owner in w.conns && w.conns[r.owner].chan.fd == fd && w.poller.Knows(fd, r.owner)
      && IsOpen(w.conns[r.owner].state) && r.mask <= READ + WRITE
  {
    var id := w.poller.channels[fd];
    assert Good(cfg, w, {}, id);
  }

  function ReadyFor(p: Poller, report: Report): Ready {
    match report
    case ListenerReport => ListenerReady
    case Report(fd, revents) => Ready(if fd in p.interest then p.interest[fd].owner else 0, revents)
  }

  /** The active list one would write down for the reports. */
  function Filled(p: Poller, reports: seq<Report>): (active: seq<Ready>)
    ensures |active| == |reports| && forall i :: 0 <= i < |reports| ==> active[i] == ReadyFor(p, reports[i])
  {
    seq(|reports|, i requires 0 <= i < |reports| => ReadyFor(p, reports[i]))
  }

  /** The lookup asserts of fillActiveChannels hold for every set of registered descriptors epoll may report. */
  lemma {:induction false} FillIsExact(w: World, reports: seq<Report>)
    requires forall i :: 0 <= i < |reports| && reports[i].Report? ==>
      var fd := reports[i].fd;
      && fd in w.poller.interest && w.poller.interest[fd].owner in w.conns
      && w.conns[w.poller.interest[fd].owner].chan.fd == fd && w.poller.Knows(fd, w.poller.interest[fd].owner)
    ensures Fill(w, reports) == w.(active := w.active + Filled(w.poller, reports))
    decreases |reports|
  {
    if reports == [] {
      assert w.active + Filled(w.poller, reports) == w.active;
    } else {
      var front, last := reports[..|reports| - 1], reports[|reports| - 1];
      assert forall i :: 0 <= i < |front| ==> front[i] == reports[i];
      FillIsExact(w, front);
      assert Filled(w.poller, reports) == Filled(w.poller, front) + [ReadyFor(w.poller, last)];
      assert w.active + Filled(w.poller, reports) == (w.active + Filled(w.poller, front)) + [ReadyFor(w.poller, last)];
    }
  }

  /** The reports name distinct open connections by the pointers m_channels holds. */
  ghost predicate Reported(w: World, reports: seq<Report>) {
    forall i :: 0 <= i < |reports| && reports[i].Report? ==>
      var fd := reports[i].fd;
      && fd in w.poller.interest && w.poller.interest[fd].owner in w.conns
      && w.conns[w.poller.interest[fd].owner].chan.fd == fd && w.poller.Knows(fd, w.poller.interest[fd].owner)
      && IsOpen(w.conns[w.poller.interest[fd].owner].state) && w.poller.interest[fd].mask <= READ + WRITE
  }

  lemma ReportsAreOpen(cfg: Config, w: World, reports: seq<Report>)
    requires Inv(cfg, w, {}) && Legal(w, Poll(reports))
    ensures Reported(w, reports)
  {
    forall i | 0 <= i < |reports| && reports[i].Report?
      ensures var fd := reports[i].fd;
        && w.poller.interest[fd].owner in w.conns
        && w.conns[w.poller.interest[fd].owner].chan.fd == fd && w.poller.Knows(fd, w.poller.interest[fd].owner)
        && IsOpen(w.conns[w.poller.interest[fd].owner].state) && w.poller.interest[fd].mask <= READ + WRITE
    {
      ReportedIsOpen(cfg, w, reports[i].fd);
    }
  }

  lemma FilledIsActive(w: World, reports: seq<Report>)
    requires Reported(w, reports) && Legal(w, Poll(reports)) && ActiveOk(w)
    ensures ActiveOk(w.(phase := Dispatching, active := Filled(w.poller, reports)))
  {
  }

  lemma PollIsExact(cfg: Config, w: World, reports: seq<Report>)
    requires Reported(w, reports)
    ensures Step(cfg, w, Poll(reports)) == w.(phase := Dispatching, active := Filled(w.poller, reports))
  {
    FillIsExact(w.(phase := Dispatching, active := []), reports);
  }

  lemma PhaseIrrelevant(cfg: Config, w: World, w': World)
    requires Inv(cfg, w, {}) && w' == w.(phase := w'.phase, active := w'.active) && ActiveOk(w')
    ensures Advances(cfg, w, w')
  {
    ConnsUnmoved(cfg, w, w', {});
  }

  lemma PollKeeps(cfg: Config, w: World, reports: seq<Report>)
    requires Inv(cfg, w, {}) && Legal(w, Poll(reports))
    ensures Advances(cfg, w, Step(cfg, w, Poll(reports)))
  {
    ReportsAreOpen(cfg, w, reports);
    FilledIsActive(w, reports);
    PollIsExact(cfg, w, reports);
    PhaseIrrelevant(cfg, w, Step(cfg, w, Poll(reports)));
  }

  function Taken(w: World): World
    requires w.active != []
  {
    w.(active := w.active[1..])
  }

  lemma TakeKeeps(cfg: Config, w: World)
    requires Inv(cfg, w, {}) && w.active != []
    ensures Inv(cfg, Taken(w), {})
    ensures w.active[0].Ready? ==>
      w.active[0].id in w.conns && IsOpen(w.conns[w.active[0].id].state) && NotActive(Taken(w), w.active[0].id)
  {
    assert forall i :: 0 <= i < |w.active| - 1 ==> w.active[1..][i] == w.active[i + 1];
    PhaseIrrelevant(cfg, w, Taken(w));
  }

  lemma TakenDispatched(cfg: Config, w: World, w': World)
    requires w.active != [] && Dispatched(cfg, Taken(w), w')
    ensures Forward(cfg, w, w') && NothingRemoved(w, w') && w'.active == w.active[1..] && w'.phase == w.phase
    ensures OnlyAdds(w, w')
  {
  }

  lemma HandledIsDispatched(cfg: Config, w: World, w': World, id: nat)
    requires Handled(cfg, w, w', id)
    ensures Dispatched(cfg, w, w')
  {
  }

  lemma DispatchKeeps(cfg: Config, w: World, io: Io)
    requires Inv(cfg, w, {}) && Legal(w, Dispatch(io))
    ensures var w' := Step(cfg, w, Dispatch(io));
      && Advances(cfg, w, w') && NothingRemoved(w, w') && w'.active == w.active[1..] && w'.phase == Dispatching
      && OnlyAdds(w, w')
  {
    var w1, w' := Taken(w), Step(cfg, w, Dispatch(io));
    TakeKeeps(cfg, w);
    match w.active[0]
    case ListenerReady =>
      if io.accepted >= 0 {
        NewConnectionKeeps(cfg, w1, io.accepted, io.onRead);
      }
      TakenDispatched(cfg, w, w');
    case Ready(id, revents) =>
      HandleEventKeeps(cfg, w1, id, revents, io);
      HandledIsDispatched(cfg, w1, w', id);
      TakenDispatched(cfg, w, w');
  }

  lemma SwapConns(cfg: Config, w: World)
    requires ConnsOk(cfg, w, {}) && w.batch == []
    ensures ConnsOk(cfg, Step(cfg, w, Swap), {})
  {
    var w' := Step(cfg, w, Swap);
    forall id | id in w'.conns
      ensures Good(cfg, w', {}, id)
    {
      assert Good(cfg, w, {}, id);
    }
  }

  lemma SwapRest(cfg: Config, w: World)
    requires w.batch == []
    ensures var w' := Step(cfg, w, Swap);
      Refs(w') == Refs(w) && (QueueOk(w) ==> QueueOk(w'))
  {
    var w' := Step(cfg, w, Swap);
    assert w'.batch + w'.pending == w.batch + w.pending;
    assert FunctorRefs([]) == {};
  }

  lemma SwapKeeps(cfg: Config, w: World)
    requires Inv(cfg, w, {}) && Legal(w, Swap)
    ensures Advances(cfg, w, Step(cfg, w, Swap))
  {
    SwapConns(cfg, w);
    SwapRest(cfg, w);
    SwapFrame(cfg, w);
  }

  lemma SwapFrame(cfg: Config, w: World)
    requires w.active == [] && w.phase == Dispatching
    ensures var w' := Step(cfg, w, Swap);
      && Forward(cfg, w, w')
      && (FdsOk(w) ==> FdsOk(w')) && (PollerOk(w) ==> PollerOk(w')) && (ServerOk(cfg, w) ==> ServerOk(cfg, w'))
      && (ActiveOk(w) ==> ActiveOk(w'))
  {
  }

  lemma EndKeeps(cfg: Config, w: World)
    requires Inv(cfg, w, {}) && Legal(w, EndBatch)
    ensures Advances(cfg, w, Step(cfg, w, EndBatch))
  {
    var w1 := w.(phase := Polling, done := []);
    assert FunctorRefs([]) == {};
    ConnsUnmoved(cfg, w, w1, {});
    DropKeeps(cfg, w1, {});
  }

  /** One legal step keeps the invariant and only moves forward. */
  lemma StepKeeps(cfg: Config, w: World, e: Event)
    requires Inv(cfg, w, {}) && Legal(w, e)
    ensures Inv(cfg, Step(cfg, w, e), {}) && Forward(cfg, w, Step(cfg, w, e))
  {
    match e
    case Poll(reports) => PollKeeps(cfg, w, reports);
    case Dispatch(io) => DispatchKeeps(cfg, w, io);
    case Swap => SwapKeeps(cfg, w);
    case RunNext(io) => RunNextKeeps(cfg, w, io);
    case EndBatch => EndKeeps(cfg, w);
    case Foreign(a) => ActKeeps(cfg, w, a, {});
  }

  lemma InitHolds(cfg: Config, base: set<nat>)
    requires |cfg.ipPort| <= 51
    ensures Inv(cfg, Init(base), {})
  {
    var w := Init(base);
    assert FunctorRefs([]) == {};
    assert Refs(w) == {};
  }

  lemma ForwardTransitive(cfg: Config, a: World, b: World, c: World)
    requires FdsOk(a) && Forward(cfg, a, b) && Forward(cfg, b, c)
    ensures Forward(cfg, a, c)
  {
  }

  /** Every legal run keeps the invariant, from any state that has it. */
  lemma {:induction false} RunKeeps(cfg: Config, w: World, run: seq<Event>)
    requires Inv(cfg, w, {}) && LegalRun(cfg, w, run)
    ensures Inv(cfg, Exec(cfg, w, run), {}) && Forward(cfg, w, Exec(cfg, w, run))
    decreases |run|
  {
    if run != [] {
      var w1 := Step(cfg, w, run[0]);
      StepKeeps(cfg, w, run[0]);
      RunKeeps(cfg, w1, run[1..]);
      ForwardTransitive(cfg, w, w1, Exec(cfg, w1, run[1..]));
    }
  }
}
