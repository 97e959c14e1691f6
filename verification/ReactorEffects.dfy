/**
 What client actions and dispatched events do in the world, told from the state before: sends reach the
 socket or the buffer, callbacks are run, once each, and a forced close is carried out.
 */
module ReactorEffects {
  import opened Bytes
  import opened Events
  import opened ConnectionSpec
  import opened ConnectionEffects
  import opened ConnectionNames
  import opened Reactor
  import opened ReactorInvariant
  import opened ReactorSafety
  import opened ReactorTheorems
  import opened ReactorLeaving
  import opened ReactorCollection
  import opened ReactorShutdown

  // -------------------------------------------------------------------------------------------
  // Actions

  /** Nothing but `c`, the poller, the pending list and the clock is touched. */
  ghost predicate OnlyConn(w: World, w': World, c: nat) {
    && c in w.conns && c in w'.conns
    && w' == w.(conns := w.conns[c := w'.conns[c]], poller := w'.poller, pending := w'.pending, clock := w'.clock)
  }

  /**
   A send on the loop's thread: on a connected connection the message is dropped by a write error, or
   accepted, the part the socket takes leaving at once and the rest buffered; on any other nothing happens.
   */
  lemma SendActs(cfg: Config, w: World, c: nat, data: seq<byte>, wr: WriteResult)
    requires c in w.conns
    ensures var c0, w' := w.conns[c], Act(cfg, w, Send(c, data, wr));
      var d, n := w'.conns[c], SentNow(c0, |data|, wr);
      && (c0.state != Connected ==> w' == w)
      && (c0.state == Connected ==> OnlyConn(w, w', c) && w'.clock == w.clock + 1 && w.pending <= w'.pending)
      && (c0.state == Connected && Drops(c0, wr) ==> d == c0)
      && (c0.state == Connected && !Drops(c0, wr) ==>
            && d.log == c0.log + [Msg(0, w.clock, data)]
            && d.taken == c0.taken + data[..n] && d.out == c0.out + data[n..]
            && d.state == Connected && d.halfCloses == c0.halfCloses)
  {
    if w.conns[c].state == Connected {
      var m := Msg(0, w.clock, data);
      SendQueues(cfg, c, At(w, c), m, wr);
      if Drops(w.conns[c], wr) {
        DropsExactly(cfg, c, At(w, c), m, wr);
      } else {
        SendEffect(cfg, c, At(w, c), m, wr);
      }
    }
  }

  /** In particular, with nothing in the way the socket takes the first bytes itself. */
  lemma DirectSendReachesSocket(cfg: Config, w: World, c: nat, data: seq<byte>, n: nat)
    requires c in w.conns && w.conns[c].state == Connected
    requires w.conns[c].out == [] && OUT !in w.conns[c].chan.events && w.conns[c].halfCloses == []
    ensures var d := Act(cfg, w, Send(c, data, Took(n))).conns[c];
      && d.log == w.conns[c].log + [Msg(0, w.clock, data)]
      && d.taken == w.conns[c].taken + data[..Min(n, |data|)] && d.out == data[Min(n, |data|)..]
  {
    SendActs(cfg, w, c, data, Took(n));
    assert [] + data[Min(n, |data|)..] == data[Min(n, |data|)..];
  }

  lemma HalfCloseActs(cfg: Config, w: World, c: nat)
    requires c in w.conns
    ensures var c0, w' := w.conns[c], Act(cfg, w, HalfClose(c));
      var shuts := (cfg.halfCloseWhen == WhileWriting <==> OUT in c0.chan.events);
      w' == if c0.state != Connected then w
            else w.(conns := w.conns[c := c0.(state := Disconnecting, halfCloses := c0.halfCloses + if shuts then [|c0.out|] else [])])
  {
    ShutdownEffect(cfg, At(w, c));
    assert w.conns[c := w.conns[c]] == w.conns;
  }

  lemma CloseActs(cfg: Config, w: World, c: nat)
    requires c in w.conns
    ensures var c0, w' := w.conns[c], Act(cfg, w, Close(c));
      w' == if c0.state in {Connected, Disconnecting} then
              w.(conns := w.conns[c := c0.(state := Disconnecting)], pending := w.pending + [RunForceClose(c)])
            else w
  {
    ForceCloseEffect(c, At(w, c));
    assert w.conns[c := w.conns[c]] == w.conns;
  }

  /** Another thread's send call: in flight from its test on, then queued behind what is pending. */
  lemma FlightActs(cfg: Config, w: World, thread: nat, c: nat, data: seq<byte>)
    requires c in w.conns && w.conns[c].state == Connected && thread !in w.inFlight
    ensures var m := Msg(thread + 1, w.clock, data);
      var w1 := Act(cfg, w, TestFrom(thread, c, data));
      && w1 == w.(clock := w.clock + 1, inFlight := w.inFlight[thread := Flight(c, m)])
      && Act(cfg, w1, PushFrom(thread)) == w.(clock := w.clock + 1, pending := w.pending + [RunSend(c, m)])
  {
    assert w.inFlight[thread := Flight(c, Msg(thread + 1, w.clock, data))] - {thread} == w.inFlight;
  }

  /** Pointers: a client may take one, */
  lemma HoldActs(cfg: Config, w: World, c: nat)
    requires c in w.conns
    ensures Act(cfg, w, Hold(c)) == w.(held := w.held + {c})
  {
  }

  lemma ReleaseIsDrop(cfg: Config, w: World, c: nat)
    requires c in w.conns
    ensures Act(cfg, w, Release(c)) == DropUnreferenced(w.(held := w.held - {c}))
  {
  }

  /** and letting go destroys exactly the connections nothing else refers to. */
  lemma ReleaseActs(cfg: Config, w: World, c: nat)
    requires Inv(cfg, w, {}) && c in w.conns
    ensures var w1, w' := w.(held := w.held - {c}), Act(cfg, w, Release(c));
      w'.held == w1.held && w'.conns.Keys == w.conns.Keys * Refs(w1)
  {
    ReleaseIsDrop(cfg, w, c);
    HeldIrrelevant(cfg, w, w.held - {c}, {});
    DropIsClean(cfg, w.(held := w.held - {c}), {});
  }

  /** A queued send that runs does with its message what a direct one does. */
  lemma QueuedSendActs(cfg: Config, w: World, c: nat, m: Msg, io: Io)
    requires Inv(cfg, w, {}) && Legal(w, RunNext(io)) && w.batch[0] == RunSend(c, m)
    ensures c in w.conns
    ensures var c0, w' := w.conns[c], Step(cfg, w, RunNext(io));
      && OnlyConn(Popped(w), w', c) && w'.clock == w.clock
      && var d, n := w'.conns[c], SentNow(c0, |m.data|, io.wrote);
      && (Drops(c0, io.wrote) ==> d == c0)
      && (!Drops(c0, io.wrote) ==>
            d.log == c0.log + [m] && d.taken == c0.taken + m.data[..n] && d.out == c0.out + m.data[n..] && d.state == c0.state)
  {
    PopKeeps(cfg, w);
    var v := At(Popped(w), c);
    if Drops(v.conn, io.wrote) {
      DropsExactly(cfg, c, v, m, io.wrote);
    } else {
      SendEffect(cfg, c, v, m, io.wrote);
    }
  }

  // -------------------------------------------------------------------------------------------
  // A connection object's own callback

  /** What a callback does with its own connection, one action after another, is what it does in the world. */
  lemma OwnActionsAgree(cfg: Config, w: World, c: nat, data: seq<byte>, wr: WriteResult)
    requires c in w.conns
    ensures w.conns[c].state == Connected ==>
      Act(cfg, w, Send(c, data, wr)) == Put(Tick(w), c, ActOn(cfg, c, At(w, c), OwnSend(Msg(0, w.clock, data), wr)))
    ensures w.conns[c].state != Connected ==> ActOn(cfg, c, At(w, c), OwnSend(Msg(0, w.clock, data), wr)) == At(w, c)
    ensures Act(cfg, w, HalfClose(c)) == Put(w, c, ActOn(cfg, c, At(w, c), OwnShutdown))
    ensures Act(cfg, w, Close(c)) == Put(w, c, ActOn(cfg, c, At(w, c), OwnForceClose))
  {
  }

  lemma {:induction false} OwnActionsInTurn(cfg: Config, id: nat, v: View, script: seq<OwnAction>, a: OwnAction)
    ensures ActAllOn(cfg, id, v, script + [a]) == ActOn(cfg, id, ActAllOn(cfg, id, v, script), a)
    ensures ActAllOn(cfg, id, v, [a]) == ActOn(cfg, id, v, a)
    decreases |script|
  {
    assert [a][1..] == [] && ActAllOn(cfg, id, ActOn(cfg, id, v, a), []) == ActOn(cfg, id, v, a);
    if script == [] {
      assert script + [a] == [a];
    } else {
      assert (script + [a])[0] == script[0] && (script + [a])[1..] == script[1..] + [a];
      OwnActionsInTurn(cfg, id, ActOn(cfg, id, v, script[0]), script[1..], a);
    }
  }

  // -------------------------------------------------------------------------------------------
  // Which callbacks a step runs

  predicate Reads(revents: Mask) {
    IN in revents || PRI in revents || RDHUP in revents
  }

  /** The actions of the callbacks a step runs, in order: what the client gets to do. */
  function Called(w: World, e: Event): seq<Action>
    requires e.Dispatch? ==> w.active != []
    requires e.RunNext? ==> w.batch != []
  {
    match e
    case Dispatch(io) =>
      (match w.active[0]
       case ListenerReady => if io.accepted >= 0 then io.onRead else []
       case Ready(_, revents) =>
         (if HUP in revents && IN !in revents then io.onHangup else []) + (if Reads(revents) && io.read >= 0 then io.onRead else []))
    case RunNext(io) =>
      (match w.batch[0]
       case Client => io.onRead
       case WriteComplete(_) => io.onRead
       case HighWater(_, _) => io.onRead
       case RunForceClose(c) => if c in w.conns && IsOpen(w.conns[c].state) then io.onRead else []
       case _ => [])
    case Foreign(a) => [a]
    case _ => []
  }

  /** How many functors of the client's own are in a queue. */
  function Clients(q: seq<Functor>): nat {
    if q == [] then 0 else Clients(q[..|q| - 1]) + if q[|q| - 1].Client? then 1 else 0
  }

  function Posts(script: seq<Action>): nat {
    if script == [] then 0 else (if script[0].Post? then 1 else 0) + Posts(script[1..])
  }

  lemma {:induction false} PostsAppend(s: seq<Action>, t: seq<Action>)
    ensures Posts(s + t) == Posts(s) + Posts(t)
    decreases |s|
  {
    if s == [] {
      assert s + t == t;
    } else {
      assert (s + t)[0] == s[0] && (s + t)[1..] == s[1..] + t;
      PostsAppend(s[1..], t);
    }
  }

  lemma ClientsPush(q: seq<Functor>, f: Functor)
    ensures Clients(q + [f]) == Clients(q) + if f.Client? then 1 else 0
  {
    assert (q + [f])[..|q|] == q;
  }

  /** What handlers queue on their own behalf is none of the client's. */
  lemma {:induction false} ClientsQueued(id: nat, q: seq<Functor>, r: seq<Functor>)
    requires Queued(id, q, r)
    ensures Clients(r) == Clients(q)
    decreases |r|
  {
    if |r| == |q| {
      assert r == q;
    } else {
      assert Harmless(id, r[|r| - 1]);
      ClientsQueued(id, q, r[..|r| - 1]);
    }
  }

  lemma ActPosts(cfg: Config, w: World, a: Action)
    ensures Clients(Act(cfg, w, a).pending) == Clients(w.pending) + if a.Post? then 1 else 0
  {
    if a.Post? {
      ClientsPush(w.pending, Client);
    } else if a.PushFrom? {
      if a.thread in w.inFlight {
        ClientsPush(w.pending, RunSend(w.inFlight[a.thread].conn, w.inFlight[a.thread].msg));
      }
    } else if a.conn in w.conns {
      OthersQueue(cfg, a.conn, At(w, a.conn), Took(0));
      ClientsQueued(a.conn, w.pending, Shutdown(cfg, At(w, a.conn)).pending);
      ClientsQueued(a.conn, w.pending, ForceClose(a.conn, At(w, a.conn)).pending);
      if a.Send? {
        SendQueues(cfg, a.conn, At(w, a.conn), Msg(0, w.clock, a.data), a.wr);
        ClientsQueued(a.conn, w.pending, SendInLoop(cfg, a.conn, At(w, a.conn), Msg(0, w.clock, a.data), a.wr).pending);
      }
    }
  }

  lemma {:induction false} ActsPost(cfg: Config, w: World, script: seq<Action>)
    ensures Clients(Acts(cfg, w, script).pending) == Clients(w.pending) + Posts(script)
    decreases |script|
  {
    if script != [] {
      ActPosts(cfg, w, script[0]);
      ActsPost(cfg, Act(cfg, w, script[0]), script[1..]);
    }
  }

  lemma ClosePosts(cfg: Config, w: World, id: nat, callback: seq<Action>)
    requires id in w.conns
    ensures Clients(CloseConnection(cfg, w, id, callback).pending) == Clients(w.pending) + Posts(callback)
  {
    var w1 := Put(w, id, BeginClose(id, At(w, id)));
    ActsPost(cfg, w1, callback);
    ClientsPush(Acts(cfg, w1, callback).pending, RunDestroy(id));
  }

  lemma HangupPosts(cfg: Config, w: World, id: nat, revents: Mask, io: Io)
    requires id in w.conns
    ensures Clients(HangupBranches(cfg, w, id, revents, io).pending) ==
            Clients(w.pending) + Posts(if HUP in revents && IN !in revents then io.onHangup else [])
  {
    ClosePosts(cfg, w, id, io.onHangup);
  }

  lemma ReadPosts(cfg: Config, w: World, id: nat, revents: Mask, io: Io)
    requires id in w.conns
    ensures Clients(ReadBranch(cfg, w, id, revents, io).pending) ==
            Clients(w.pending) + Posts(if Reads(revents) && io.read >= 0 then io.onRead else [])
  {
    ReadBits(revents);
    ActsPost(cfg, w, io.onRead);
    ClosePosts(cfg, w, id, io.onRead);
  }

  lemma WritePosts(cfg: Config, w: World, id: nat, revents: Mask, io: Io)
    ensures Clients(WriteBranch(cfg, w, id, revents, io).pending) == Clients(w.pending)
  {
    if id in w.conns {
      OthersQueue(cfg, id, At(w, id), io.wrote);
      ClientsQueued(id, w.pending, HandleWrite(cfg, id, At(w, id), io.wrote).pending);
    }
  }

  lemma HandleEventPosts(cfg: Config, w: World, id: nat, revents: Mask, io: Io)
    requires Inv(cfg, w, {}) && id in w.conns && IsOpen(w.conns[id].state) && NotActive(w, id)
    ensures Clients(HandleEvent(cfg, w, id, revents, io).pending) == Clients(w.pending)
      + Posts(if HUP in revents && IN !in revents then io.onHangup else [])
      + Posts(if Reads(revents) && io.read >= 0 then io.onRead else [])
  {
    var w1 := HangupBranches(cfg, w, id, revents, io);
    HangupKeeps(cfg, w, id, revents, io);
    HangupPosts(cfg, w, id, revents, io);
    ReadPosts(cfg, w1, id, revents, io);
    WritePosts(cfg, ReadBranch(cfg, w1, id, revents, io), id, revents, io);
  }

  lemma NewConnectionPosts(cfg: Config, w: World, fd: nat, callback: seq<Action>)
    requires Inv(cfg, w, {}) && fd !in w.open
    ensures Clients(NewConnection(cfg, w, fd, callback).pending) == Clients(w.pending) + Posts(callback)
  {
    var w1 := Admit(cfg, w, fd);
    AdmitOverwritesNothing(cfg, w, fd);
    ActsPost(cfg, Put(w1, w.nextId, Establish(w.nextId, At(w1, w.nextId))), callback);
  }

  lemma DispatchPosts(cfg: Config, w: World, io: Io)
    requires Inv(cfg, w, {}) && Legal(w, Dispatch(io))
    ensures Clients(Step(cfg, w, Dispatch(io)).pending) == Clients(w.pending) + Posts(Called(w, Dispatch(io)))
  {
    TakeKeeps(cfg, w);
    match w.active[0]
    case ListenerReady =>
      if io.accepted >= 0 {
        NewConnectionPosts(cfg, Taken(w), io.accepted, io.onRead);
      }
    case Ready(id, revents) =>
      HandleEventPosts(cfg, Taken(w), id, revents, io);
      PostsAppend(if HUP in revents && IN !in revents then io.onHangup else [], if Reads(revents) && io.read >= 0 then io.onRead else []);
  }

  lemma RunNextPosts(cfg: Config, w: World, io: Io)
    requires Inv(cfg, w, {}) && Legal(w, RunNext(io))
    ensures Clients(Step(cfg, w, RunNext(io)).pending) == Clients(w.pending) + Posts(Called(w, RunNext(io)))
  {
    var f, w1 := w.batch[0], Popped(w);
    if f.RunDestroy? {
      DoomedIsClosed(cfg, w, f.conn);
      DestroyIsRemoval(cfg, w, f.conn, io);
    } else {
      PopKeeps(cfg, w);
      if f.RunSend? {
        SendQueues(cfg, f.conn, At(w1, f.conn), f.msg, io.wrote);
        ClientsQueued(f.conn, w1.pending, SendInLoop(cfg, f.conn, At(w1, f.conn), f.msg, io.wrote).pending);
      } else if f.RunForceClose? {
        ClosePosts(cfg, w1, f.conn, io.onRead);
      } else {
        ActsPost(cfg, w1, io.onRead);
      }
    }
  }

  /**
   Callbacks are run: in every step but the swap, the functors of the client's own that are queued are
   those its callbacks queue in that step, once each, no callback being skipped, doubled or made up.
   */
  lemma CallbacksAreRun(cfg: Config, w: World, e: Event)
    requires Inv(cfg, w, {}) && Legal(w, e) && e != Swap
    ensures Clients(Step(cfg, w, e).pending) == Clients(w.pending) + Posts(Called(w, e))
  {
    match e
    case Poll(reports) =>
      ReportsAreOpen(cfg, w, reports);
      PollIsExact(cfg, w, reports);
    case Dispatch(io) => DispatchPosts(cfg, w, io);
    case RunNext(io) => RunNextPosts(cfg, w, io);
    case EndBatch =>
    case Foreign(a) =>
      ActPosts(cfg, w, a);
      assert [a][1..] == [];
    case _ =>
  }

  // -------------------------------------------------------------------------------------------
  // A dispatched report that does not close the connection

  /** The world after the message callback, if there are readable bytes. */
  function AfterMessage(cfg: Config, w: World, revents: Mask, io: Io): World {
    if Reads(revents) && io.read > 0 then Acts(cfg, w, io.onRead) else w
  }

  lemma BranchesBeforeWrite(cfg: Config, w: World, id: nat, revents: Mask, io: Io)
    requires id in w.conns && !(HUP in revents && IN !in revents) && !(Reads(revents) && io.read == 0)
    ensures ReadBranch(cfg, HangupBranches(cfg, w, id, revents, io), id, revents, io) == AfterMessage(cfg, w, revents, io)
  {
    ReadBits(revents);
  }

  /**
   What a report does: the message callback for readable bytes, then, for EPOLLOUT, a write of what is
   buffered by then, what the callback has just buffered included. EPOLLERR alone does nothing.
   */
  lemma ReportIsServed(cfg: Config, w: World, io: Io, id: nat, revents: Mask)
    requires Inv(cfg, w, {}) && Legal(w, Dispatch(io)) && w.active[0] == Ready(id, revents)
    requires !(HUP in revents && IN !in revents) && !(Reads(revents) && io.read == 0)
    ensures var w1 := AfterMessage(cfg, Taken(w), revents, io);
      var w' := Step(cfg, w, Dispatch(io));
      && id in w1.conns && id in w'.conns
      && var c := w1.conns[id];
      && var n := if OUT in revents then Moved(c, io.wrote) else 0;
      && (n == 0 ==> w' == w1)
      && w'.conns[id].taken == c.taken + c.out[..n] && w'.conns[id].out == c.out[n..]
  {
    TakeKeeps(cfg, w);
    BranchesBeforeWrite(cfg, Taken(w), id, revents, io);
    CallbackKeeps(cfg, Taken(w), id, io.onRead);
    WriteIsServed(cfg, AfterMessage(cfg, Taken(w), revents, io), id, revents, io);
  }

  lemma ReadBits(revents: Mask)
    ensures Reads(revents) <==> revents * {IN, PRI, RDHUP} != {}
  {
    if Reads(revents) {
      assert IN in revents * {IN, PRI, RDHUP} || PRI in revents * {IN, PRI, RDHUP} || RDHUP in revents * {IN, PRI, RDHUP};
    }
  }

  lemma WriteIsServed(cfg: Config, w: World, id: nat, revents: Mask, io: Io)
    requires id in w.conns
    ensures var w', c := WriteBranch(cfg, w, id, revents, io), w.conns[id];
      var n := if OUT in revents then Moved(c, io.wrote) else 0;
      && id in w'.conns && (n == 0 ==> w' == w)
      && w'.conns[id].taken == c.taken + c.out[..n] && w'.conns[id].out == c.out[n..]
  {
    HandleWriteEffect(cfg, id, At(w, id), io.wrote);
    assert w.conns[id].taken + [] == w.conns[id].taken && w.conns[id].out[0..] == w.conns[id].out;
    assert w.conns[id := w.conns[id]] == w.conns;
  }

  lemma OneAction(cfg: Config, w: World, a: Action)
    ensures Acts(cfg, w, [a]) == Act(cfg, w, a)
  {
    assert [a][1..] == [] && Acts(cfg, Act(cfg, w, a), []) == Act(cfg, w, a);
  }

  /** A message callback that answers: the answer reaches the socket within the same dispatch. */
  lemma EchoReachesSocket(cfg: Config, w: World, id: nat, data: seq<byte>, n: nat)
    requires Inv(cfg, w, {}) && w.phase == Dispatching && w.active != [] && w.active[0] == Ready(id, {IN})
    requires w.conns[id].state == Connected && w.conns[id].out == [] && w.conns[id].halfCloses == []
    requires OUT !in w.conns[id].chan.events
    ensures var e := Dispatch(Io([], 1, [Send(id, data, Took(n))], Failed(WouldBlock), -1));
      && Legal(w, e)
      && var w' := Step(cfg, w, e);
      && id in w'.conns
      && w'.conns[id].taken == w.conns[id].taken + data[..Min(n, |data|)] && w'.conns[id].out == data[Min(n, |data|)..]
      && w'.conns[id].log == w.conns[id].log + [Msg(0, w.clock, data)]
  {
    var a, w1 := Send(id, data, Took(n)), Taken(w);
    var io := Io([], 1, [a], Failed(WouldBlock), -1);
    OneAction(cfg, w1, a);
    DirectSendReachesSocket(cfg, w1, id, data, n);
    ReportIsServed(cfg, w, io, id, {IN});
  }

  // -------------------------------------------------------------------------------------------
  // handleClose in the world

  /** No action moves a connection that is closed; it may go, if nothing refers to it. */
  lemma ClosedUnmoved(cfg: Config, w: World, a: Action, id: nat)
    requires id in w.conns ==> w.conns[id].state == Disconnected
    ensures var w' := Act(cfg, w, a); id in w'.conns ==> id in w.conns && w'.conns[id] == w.conns[id]
  {
  }

  lemma {:induction false} ClosedStaysPut(cfg: Config, w: World, script: seq<Action>, id: nat)
    requires id in w.conns ==> w.conns[id].state == Disconnected
    ensures var w' := Acts(cfg, w, script); id in w'.conns ==> id in w.conns && w'.conns[id] == w.conns[id]
    decreases |script|
  {
    if script != [] {
      ClosedUnmoved(cfg, w, script[0], id);
      ClosedStaysPut(cfg, Act(cfg, w, script[0]), script[1..], id);
    }
  }

  /**
   handleClose closes before it calls back: whatever its callback does, with this connection too, that
   one is left as it was but closed and masked out, so nothing sent from the callback is accepted.
   */
  lemma CloseEffect(cfg: Config, w: World, id: nat, callback: seq<Action>)
    requires Inv(cfg, w, {}) && id in w.conns && IsOpen(w.conns[id].state) && NotActive(w, id)
    ensures var c, w' := w.conns[id], CloseConnection(cfg, w, id, callback);
      && id in w'.conns && id !in w'.server.Values
      && w'.conns[id] == c.(state := Disconnected, closes := c.closes + 1, chan := w'.conns[id].chan)
      && w'.conns[id].chan.fd == c.chan.fd && w'.conns[id].chan.events == {}
      && w'.pending != [] && w'.pending[|w'.pending| - 1] == RunDestroy(id)
  {
    CloseKeeps(cfg, w, id, callback);
    BeginCloseEffect(id, At(w, id));
    ClosedStaysPut(cfg, Put(w, id, BeginClose(id, At(w, id))), callback, id);
    SettledIsUnserved(cfg, CloseConnection(cfg, w, id, callback), id);
  }

  // -------------------------------------------------------------------------------------------
  // A run in which a callback's send reaches the socket

  lemma FirstConnectionSends(cfg: Config, w: World, data: seq<byte>, n: nat)
    requires Inv(cfg, w, {}) && w == Init({}).(phase := Dispatching)
    ensures var w' := NewConnection(cfg, w, 0, [Send(1, data, Took(n))]);
      && 1 in w'.conns && w'.conns[1].log == [Msg(0, 0, data)]
      && w'.conns[1].taken == data[..Min(n, |data|)] && w'.conns[1].out == data[Min(n, |data|)..]
  {
    var w1 := NewConnection(cfg, w, 0, []);
    FirstConnection(cfg, w);
    OneAction(cfg, w1, Send(1, data, Took(n)));
    DirectSendReachesSocket(cfg, w1, 1, data, n);
    assert [] + data[..Min(n, |data|)] == data[..Min(n, |data|)];
  }

  lemma AcceptIsNewConnection(cfg: Config, w: World, fd: nat, callback: seq<Action>)
    requires w.active == []
    ensures Step(cfg, w.(active := [ListenerReady]), Dispatch(Io([], 1, callback, Failed(WouldBlock), fd))) == NewConnection(cfg, w, fd, callback)
  {
    assert w.(active := [ListenerReady]).(active := [ListenerReady][1..]) == w;
  }

  /** The first connection is accepted, and its connection callback sends. */
  lemma FirstSendReachesSocket(cfg: Config, data: seq<byte>, n: nat)
    requires |cfg.ipPort| <= 51
    ensures var run := [Poll([ListenerReport])] + [Dispatch(Io([], 1, [Send(1, data, Took(n))], Failed(WouldBlock), 0))];
      && Runs(cfg, {}, run)
      && var w := Exec(cfg, Init({}), run);
      && 1 in w.conns && w.conns[1].log == [Msg(0, 0, data)]
      && w.conns[1].taken == data[..Min(n, |data|)] && w.conns[1].out == data[Min(n, |data|)..]
  {
    var w0, poll := Init({}), Poll([ListenerReport]);
    var accept := Dispatch(Io([], 1, [Send(1, data, Took(n))], Failed(WouldBlock), 0));
    InitHolds(cfg, {});
    PollListener(cfg, w0);
    var w1 := w0.(phase := Dispatching);
    FirstConnectionSends(cfg, w1, data, n);
    AcceptIsNewConnection(cfg, w1, 0, [Send(1, data, Took(n))]);
    assert Step(cfg, w0, poll) == w1.(active := [ListenerReady]);
    RunOne(cfg, w0, poll);
    RunThen(cfg, w0, [poll], accept);
  }

  // -------------------------------------------------------------------------------------------
  // forceClose, from the call to its effect

  /** `id` is closed, or a forced close of it is queued. */
  ghost predicate ClosingSoon(w: World, id: nat) {
    id < w.nextId && (Settled(w, id) || RunForceClose(id) in w.batch || RunForceClose(id) in w.pending)
  }

  lemma SoonStays(cfg: Config, w: World, w': World, id: nat)
    requires ClosingSoon(w, id) && Forward(cfg, w, w') && w.pending <= w'.pending && w'.batch == w.batch
    ensures ClosingSoon(w', id)
  {
  }

  lemma ActCloses(cfg: Config, w: World, id: nat, closing: set<nat>)
    requires Inv(cfg, w, closing) && id < w.nextId
    ensures ClosingSoon(Act(cfg, w, Close(id)), id)
  {
    if id in w.conns {
      OpenOrClosed(cfg, w, id, closing);
      CloseActs(cfg, w, id);
    }
  }

  /** A callback that calls forceClose, whatever else it does. */
  lemma {:induction false} ActsClose(cfg: Config, w: World, script: seq<Action>, id: nat, closing: set<nat>)
    requires Inv(cfg, w, closing) && id < w.nextId && (ClosingSoon(w, id) || Close(id) in script)
    ensures ClosingSoon(Acts(cfg, w, script), id)
    decreases |script|
  {
    if script != [] {
      var w1 := Act(cfg, w, script[0]);
      ActKeeps(cfg, w, script[0], closing);
      if ClosingSoon(w, id) {
        SoonStays(cfg, w, w1, id);
      } else if script[0] == Close(id) {
        ActCloses(cfg, w, id, closing);
      }
      ActsClose(cfg, w1, script[1..], id, closing);
    }
  }

  lemma CloseConnectionCloses(cfg: Config, w: World, c: nat, callback: seq<Action>, id: nat)
    requires Inv(cfg, w, {}) && c in w.conns && IsOpen(w.conns[c].state) && NotActive(w, c)
    requires Close(id) in callback && id < w.nextId
    ensures ClosingSoon(CloseConnection(cfg, w, c, callback), id)
  {
    var w1 := Put(w, c, BeginClose(c, At(w, c)));
    BeginCloseInv(cfg, w, c);
    ActsClose(cfg, w1, callback, id, {c});
    var w2 := Acts(cfg, w1, callback);
    RemoveHandled(cfg, w2, c);
    SoonStays(cfg, w2, RemoveConnection(cfg, w2, c), id);
  }

  lemma HangupCloses(cfg: Config, w: World, c: nat, revents: Mask, io: Io, id: nat)
    requires Inv(cfg, w, {}) && c in w.conns && IsOpen(w.conns[c].state) && NotActive(w, c) && !ClosesTwice(revents, io.read)
    requires HUP in revents && IN !in revents && Close(id) in io.onHangup && id < w.nextId
    ensures ClosingSoon(HandleEvent(cfg, w, c, revents, io), id)
  {
    var w1 := HangupBranches(cfg, w, c, revents, io);
    CloseConnectionCloses(cfg, w, c, io.onHangup, id);
    ClosesTwiceSplit(revents, io.read);
    HangupKeeps(cfg, w, c, revents, io);
    AfterHangup(cfg, w1, c, revents, io);
    SoonStays(cfg, w1, HandleEvent(cfg, w, c, revents, io), id);
  }

  lemma ReadCloses(cfg: Config, w: World, c: nat, revents: Mask, io: Io, id: nat)
    requires Inv(cfg, w, {}) && Kept(w, c) && NotActive(w, c)
    requires ReadsClosed(revents, io.read) ==> IsOpen(w.conns[c].state)
    requires Reads(revents) && io.read >= 0 && Close(id) in io.onRead && id < w.nextId
    ensures ClosingSoon(WriteBranch(cfg, ReadBranch(cfg, w, c, revents, io), c, revents, io), id)
  {
    var w1 := ReadBranch(cfg, w, c, revents, io);
    ReadBits(revents);
    if io.read > 0 {
      ActsClose(cfg, w, io.onRead, id, {});
    } else {
      CloseConnectionCloses(cfg, w, c, io.onRead, id);
    }
    ReadBranchKeeps(cfg, w, c, revents, io);
    WriteBranchKeeps(cfg, w1, c, revents, io);
    SoonStays(cfg, w1, WriteBranch(cfg, w1, c, revents, io), id);
  }

  lemma ReportCloses(cfg: Config, w: World, c: nat, revents: Mask, io: Io, id: nat)
    requires Inv(cfg, w, {}) && c in w.conns && IsOpen(w.conns[c].state) && NotActive(w, c) && !ClosesTwice(revents, io.read)
    requires Reads(revents) && io.read >= 0 && Close(id) in io.onRead && id < w.nextId
    ensures ClosingSoon(HandleEvent(cfg, w, c, revents, io), id)
  {
    ClosesTwiceSplit(revents, io.read);
    HangupKeeps(cfg, w, c, revents, io);
    ReadCloses(cfg, HangupBranches(cfg, w, c, revents, io), c, revents, io, id);
  }

  lemma DispatchCloses(cfg: Config, w: World, io: Io, id: nat)
    requires Inv(cfg, w, {}) && Legal(w, Dispatch(io)) && Close(id) in Called(w, Dispatch(io))
    requires id < Step(cfg, w, Dispatch(io)).nextId
    ensures ClosingSoon(Step(cfg, w, Dispatch(io)), id)
  {
    var w1 := Taken(w);
    TakeKeeps(cfg, w);
    match w.active[0]
    case ListenerReady =>
      NewConnectionCloses(cfg, w1, io.accepted, io.onRead, id);
    case Ready(c, revents) =>
      HandleEventKeeps(cfg, w1, c, revents, io);
      if HUP in revents && IN !in revents && Close(id) in io.onHangup {
        HangupCloses(cfg, w1, c, revents, io, id);
      } else {
        ReportCloses(cfg, w1, c, revents, io, id);
      }
  }

  lemma NewConnectionCloses(cfg: Config, w: World, fd: nat, callback: seq<Action>, id: nat)
    requires Inv(cfg, w, {}) && fd !in w.open && w.nextId + 1 < INT_LIMIT && Close(id) in callback
    requires id < NewConnection(cfg, w, fd, callback).nextId
    ensures ClosingSoon(NewConnection(cfg, w, fd, callback), id)
  {
    var w1 := Put(Admit(cfg, w, fd), w.nextId, Establish(w.nextId, At(Admit(cfg, w, fd), w.nextId)));
    AdmitOverwritesNothing(cfg, w, fd);
    NewConnectionKeeps(cfg, w, fd, []);
    assert NewConnection(cfg, w, fd, []) == w1 && NewConnection(cfg, w, fd, callback) == Acts(cfg, w1, callback);
    ActsKeep(cfg, w1, callback, {});
    ActsClose(cfg, w1, callback, id, {});
  }

  lemma RunNextCloses(cfg: Config, w: World, io: Io, id: nat)
    requires Inv(cfg, w, {}) && Legal(w, RunNext(io)) && Close(id) in Called(w, RunNext(io)) && id < w.nextId
    ensures ClosingSoon(Step(cfg, w, RunNext(io)), id)
  {
    PopKeeps(cfg, w);
    if w.batch[0].RunForceClose? {
      CloseConnectionCloses(cfg, Popped(w), w.batch[0].conn, io.onRead, id);
    } else {
      ActsClose(cfg, Popped(w), io.onRead, id, {});
    }
  }

  /** Any step one of whose callbacks calls forceClose on `id`. */
  lemma StepCloses(cfg: Config, w: World, e: Event, id: nat)
    requires Inv(cfg, w, {}) && Legal(w, e) && Close(id) in Called(w, e) && id < w.nextId
    ensures ClosingSoon(Step(cfg, w, e), id)
  {
    match e
    case Dispatch(io) =>
      StepKeeps(cfg, w, e);
      DispatchCloses(cfg, w, io, id);
    case RunNext(io) => RunNextCloses(cfg, w, io, id);
    case _ =>
  }

  lemma RunNextSoon(cfg: Config, w: World, io: Io, id: nat)
    requires Inv(cfg, w, {}) && Legal(w, RunNext(io)) && ClosingSoon(w, id)
    ensures ClosingSoon(Step(cfg, w, RunNext(io)), id)
  {
    RunNextKeeps(cfg, w, io);
    if w.batch[0] == RunForceClose(id) {
      ForcedCloseTakesEffect(cfg, w, io);
    } else {
      RunNextFrame(cfg, w, io);
      PoppedSoon(w, id);
      SettledStays(cfg, w, Step(cfg, w, RunNext(io)), id);
    }
  }

  lemma PoppedSoon(w: World, id: nat)
    requires w.batch != [] && w.batch[0] != RunForceClose(id)
    ensures RunForceClose(id) in w.batch ==> RunForceClose(id) in Popped(w).batch
  {
    assert w.batch == [w.batch[0]] + w.batch[1..];
  }

  lemma SettledStays(cfg: Config, w: World, w': World, id: nat)
    requires Forward(cfg, w, w') && id < w.nextId
    ensures id < w'.nextId && (Settled(w, id) ==> Settled(w', id))
  {
  }

  lemma StepSoon(cfg: Config, w: World, e: Event, id: nat)
    requires Inv(cfg, w, {}) && Legal(w, e) && ClosingSoon(w, id)
    ensures ClosingSoon(Step(cfg, w, e), id)
  {
    match e
    case Poll(reports) =>
      ReportsAreOpen(cfg, w, reports);
      PollIsExact(cfg, w, reports);
    case Dispatch(io) =>
      DispatchKeeps(cfg, w, io);
      SoonStays(cfg, w, Step(cfg, w, e), id);
    case Swap =>
    case RunNext(io) => RunNextSoon(cfg, w, io, id);
    case EndBatch =>
    case Foreign(a) =>
      ActKeeps(cfg, w, a, {});
      SoonStays(cfg, w, Step(cfg, w, e), id);
  }

  lemma {:induction false} RunSoon(cfg: Config, w: World, run: seq<Event>, id: nat)
    requires Inv(cfg, w, {}) && LegalRun(cfg, w, run) && ClosingSoon(w, id)
    ensures ClosingSoon(Exec(cfg, w, run), id)
    decreases |run|
  {
    if run != [] {
      StepSoon(cfg, w, run[0], id);
      StepKeeps(cfg, w, run[0]);
      RunSoon(cfg, Step(cfg, w, run[0]), run[1..], id);
    }
  }

  /** The batch that a swap starts, when `id` is closed or about to be. */
  lemma BatchCloses(cfg: Config, w: World, batch: seq<Event>, id: nat)
    requires Inv(cfg, w, {}) && ClosingSoon(w, id) && Legal(w, Swap)
    requires EndBatch !in batch && LegalRun(cfg, Step(cfg, w, Swap), batch)
    requires Legal(Exec(cfg, Step(cfg, w, Swap), batch), EndBatch)
    ensures var w' := Step(cfg, Exec(cfg, Step(cfg, w, Swap), batch), EndBatch);
      Settled(w', id) && id !in w'.server.Values
  {
    var w1 := Step(cfg, w, Swap);
    StepKeeps(cfg, w, Swap);
    RunForcing(cfg, w1, batch, id);
    RunKeeps(cfg, w1, batch);
    EndSettled(cfg, Exec(cfg, w1, batch), id);
  }

  lemma EndSettled(cfg: Config, w: World, id: nat)
    requires Inv(cfg, w, {}) && Legal(w, EndBatch) && Forcing(w, id)
    ensures var w' := Step(cfg, w, EndBatch);
      Settled(w', id) && id !in w'.server.Values
  {
    EndKeeps(cfg, w);
    StaysSettled(cfg, w, Step(cfg, w, EndBatch), id);
    SettledIsUnserved(cfg, Step(cfg, w, EndBatch), id);
  }

  /**
   forceClose is carried out: whenever a callback of any step calls it on a connection, then at the end of
   the batch that follows the next swap, or any later one, the connection is closed and out of the map,
   whatever happens in between.
   */
  lemma ForceCloseIsCarriedOut(cfg: Config, w: World, e: Event, more: seq<Event>, batch: seq<Event>, id: nat)
    requires Inv(cfg, w, {}) && Legal(w, e) && Close(id) in Called(w, e) && id < w.nextId
    requires LegalRun(cfg, Step(cfg, w, e), more) && Legal(Exec(cfg, Step(cfg, w, e), more), Swap)
    requires var w1 := Step(cfg, Exec(cfg, Step(cfg, w, e), more), Swap);
      EndBatch !in batch && LegalRun(cfg, w1, batch) && Legal(Exec(cfg, w1, batch), EndBatch)
    ensures var w1 := Step(cfg, Exec(cfg, Step(cfg, w, e), more), Swap);
      var w' := Step(cfg, Exec(cfg, w1, batch), EndBatch);
      Settled(w', id) && id !in w'.server.Values
  {
    var w0 := Step(cfg, w, e);
    StepKeeps(cfg, w, e);
    StepCloses(cfg, w, e, id);
    RunSoon(cfg, w0, more, id);
    RunKeeps(cfg, w0, more);
    BatchCloses(cfg, Exec(cfg, w0, more), batch, id);
  }
}
