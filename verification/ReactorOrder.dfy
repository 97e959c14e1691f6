/**
 Per-sender order. The loop thread (sender 0) writes directly, other threads go through the
 functor queue, each after a send call that may last; for each connection, the messages accepted so
 far, then those queued, then those in flight keep every thread's own order of send calls.
 */
module ReactorOrder {
  import opened Bytes
  import opened Events
  import opened PollerSpec
  import opened ConnectionSpec
  import opened Reactor
  import opened ReactorInvariant
  import opened ReactorSafety
  import opened ReactorTheorems

  /** The messages queued for one connection, in queue order. */
  function SendsTo(q: seq<Functor>, id: nat): seq<Msg> {
    if q == [] then []
    else
      var f := q[|q| - 1];
      SendsTo(q[..|q| - 1], id) + (if f.RunSend? && f.conn == id then [f.msg] else [])
  }

  /** Calls are numbered below the clock, and each sender's numbers increase along the list. */
  ghost predicate InOrder(s: seq<Msg>, clock: nat) {
    && (forall i :: 0 <= i < |s| ==> s[i].ticket < clock)
    && (forall i, j :: 0 <= i < j < |s| && s[i].sender == s[j].sender ==> s[i].ticket < s[j].ticket)
  }

  function Waiting(w: World, id: nat): seq<Msg> {
    SendsTo(w.batch + w.pending, id)
  }

  function Log(w: World, id: nat): seq<Msg> {
    if id in w.conns then w.conns[id].log else []
  }

  /** The messages of the send calls in flight to one connection, by thread. */
  function FlightsTo(inFlight: map<nat, Flight>, id: nat): map<nat, Msg> {
    map t | t in inFlight && inFlight[t].conn == id :: inFlight[t].msg
  }

  /** A message in flight comes after all of its thread's that were accepted or queued. */
  ghost predicate Newest(s: seq<Msg>, thread: nat, m: Msg, clock: nat) {
    && m.sender == thread + 1 && m.ticket < clock
    && forall i :: 0 <= i < |s| && s[i].sender == m.sender ==> s[i].ticket < m.ticket
  }

  /** Only other threads' messages wait or fly, and after the accepted ones they keep every sender's order. */
  ghost predicate Trail(log: seq<Msg>, waiting: seq<Msg>, flying: map<nat, Msg>, clock: nat) {
    && InOrder(log + waiting, clock)
    && (forall i :: 0 <= i < |waiting| ==> waiting[i].sender != 0)
    && (forall t :: t in flying ==> Newest(log + waiting, t, flying[t], clock))
  }

  ghost predicate TrailOk(w: World, id: nat) {
    Trail(Log(w, id), Waiting(w, id), FlightsTo(w.inFlight, id), w.clock)
  }

  ghost predicate OrderOk(w: World) {
    forall id :: id in w.conns ==> TrailOk(w, id)
  }

  lemma {:induction false} SendsToAppend(q: seq<Functor>, r: seq<Functor>, id: nat)
    ensures SendsTo(q + r, id) == SendsTo(q, id) + SendsTo(r, id)
    decreases |r|
  {
    if r == [] {
      assert q + r == q;
    } else {
      var front := r[..|r| - 1];
      assert (q + r)[..|q + r| - 1] == q + front;
      SendsToAppend(q, front, id);
    }
  }

  lemma {:induction false} NoSends(q: seq<Functor>, id: nat)
    requires forall i :: 0 <= i < |q| ==> !(q[i].RunSend? && q[i].conn == id)
    ensures SendsTo(q, id) == []
    decreases |q|
  {
    if q != [] {
      NoSends(q[..|q| - 1], id);
    }
  }

  /** What handlers queue on their own behalf holds no sends. */
  lemma QueuedHoldsNoSends(id: nat, batch: seq<Functor>, q: seq<Functor>, r: seq<Functor>, other: nat)
    requires Queued(id, q, r)
    ensures SendsTo(batch + r, other) == SendsTo(batch + q, other)
  {
    var extra := r[|q|..];
    NoSends(extra, other);
    SendsToAppend(batch + q, extra, other);
    assert r == q + extra;
    assert batch + r == (batch + q) + extra;
  }

  // -------------------------------------------------------------------------------------------
  // The ways a trail changes

  /** The first waiting message may be dropped, */
  lemma DropKeepsOrder(log: seq<Msg>, m: Msg, rest: seq<Msg>, flying: map<nat, Msg>, clock: nat)
    requires Trail(log, [m] + rest, flying, clock)
    ensures Trail(log, rest, flying, clock)
  {
    var s, t := log + ([m] + rest), log + rest;
    assert forall i :: 0 <= i < |t| ==> t[i] == s[if i < |log| then i else i + 1];
    assert forall i :: 0 <= i < |rest| ==> rest[i] == ([m] + rest)[i + 1];
  }

  /** or accepted, */
  lemma AcceptKeepsOrder(log: seq<Msg>, m: Msg, rest: seq<Msg>, flying: map<nat, Msg>, clock: nat)
    requires Trail(log, [m] + rest, flying, clock)
    ensures Trail(log + [m], rest, flying, clock)
  {
    assert (log + [m]) + rest == log + ([m] + rest);
    assert forall i :: 0 <= i < |rest| ==> rest[i] == ([m] + rest)[i + 1];
  }

  /** another thread's send call may begin, */
  lemma BeginKeepsOrder(log: seq<Msg>, rest: seq<Msg>, flying: map<nat, Msg>, thread: nat, m: Msg, clock: nat)
    requires Trail(log, rest, flying, clock) && m.ticket == clock && m.sender == thread + 1
    ensures Trail(log, rest, flying[thread := m], clock + 1)
  {
  }

  /** and later queue its message behind those that wait, */
  lemma LandKeepsOrder(log: seq<Msg>, rest: seq<Msg>, flying: map<nat, Msg>, thread: nat, clock: nat)
    requires Trail(log, rest, flying, clock) && thread in flying
    ensures Trail(log, rest + [flying[thread]], flying - {thread}, clock)
  {
    assert log + (rest + [flying[thread]]) == (log + rest) + [flying[thread]];
  }

  /** and a direct send goes before all of them, without overtaking its own thread. */
  lemma DirectKeepsOrder(log: seq<Msg>, m: Msg, rest: seq<Msg>, flying: map<nat, Msg>, clock: nat)
    requires Trail(log, rest, flying, clock) && m.sender == 0 && m.ticket == clock
    ensures Trail(log + [m], rest, flying, clock + 1)
  {
    var s, t := log + rest, (log + [m]) + rest;
    assert forall i :: 0 <= i < |t| && i != |log| ==> t[i] == s[if i < |log| then i else i - 1];
    assert forall i :: |log| < i < |t| ==> t[i] == rest[i - |log| - 1];
  }

  /** The trail of `id` is what it was, the clock perhaps further on. */
  ghost predicate SameTrail(w: World, w': World, id: nat) {
    && Log(w', id) == Log(w, id) && Waiting(w', id) == Waiting(w, id) && w.clock <= w'.clock
    && FlightsTo(w'.inFlight, id) == FlightsTo(w.inFlight, id)
  }

  lemma SameTrailOk(w: World, w': World, id: nat)
    requires SameTrail(w, w', id) && TrailOk(w, id)
    ensures TrailOk(w', id)
  {
  }

  // -------------------------------------------------------------------------------------------
  // Order under handlers

  /** A handler that accepts nothing, put back. */
  lemma PutOrder(w: World, id: nat, v: View)
    requires OrderOk(w) && id in w.conns && Queued(id, w.pending, v.pending) && v.conn.log == w.conns[id].log
    ensures OrderOk(Put(w, id, v))
  {
    forall other | other in Put(w, id, v).conns
      ensures TrailOk(Put(w, id, v), other)
    {
      QueuedHoldsNoSends(id, w.batch, w.pending, v.pending, other);
      SameTrailOk(w, Put(w, id, v), other);
    }
  }

  /** A functor other than a send, queued. */
  lemma PushOrder(w: World, f: Functor)
    requires OrderOk(w) && !f.RunSend?
    ensures OrderOk(Push(w, f))
  {
    var w' := Push(w, f);
    forall id | id in w'.conns
      ensures TrailOk(w', id)
    {
      NoSends([f], id);
      SendsToAppend(w.batch + w.pending, [f], id);
      assert w'.batch + w'.pending == (w.batch + w.pending) + [f];
      SameTrailOk(w, w', id);
    }
  }

  /** Nothing new lives, nothing waiting changed: dropping connections, moving on in the loop. */
  lemma FewerOrder(w: World, w': World)
    requires OrderOk(w) && w.clock <= w'.clock
    requires w'.batch + w'.pending == w.batch + w.pending && w'.inFlight == w.inFlight
    requires forall id :: id in w'.conns ==> id in w.conns && w'.conns[id].log == w.conns[id].log
    ensures OrderOk(w')
  {
    forall id | id in w'.conns
      ensures TrailOk(w', id)
    {
      SameTrailOk(w, w', id);
    }
  }

  lemma SendTrail(cfg: Config, w: World, c: nat, m: Msg, wr: WriteResult, id: nat)
    requires c in w.conns && id in w.conns && TrailOk(w, id) && m.sender == 0 && m.ticket == w.clock
    ensures TrailOk(Put(Tick(w), c, SendInLoop(cfg, c, At(w, c), m, wr)), id)
  {
    var v := SendInLoop(cfg, c, At(w, c), m, wr);
    SendQueues(cfg, c, At(w, c), m, wr);
    QueuedHoldsNoSends(c, w.batch, w.pending, v.pending, id);
    if id == c && v.conn.log != w.conns[c].log {
      DirectKeepsOrder(w.conns[c].log, m, Waiting(w, c), FlightsTo(w.inFlight, c), w.clock);
    } else {
      SameTrailOk(w, Put(Tick(w), c, v), id);
    }
  }

  lemma SendOrder(cfg: Config, w: World, c: nat, data: seq<byte>, wr: WriteResult)
    requires OrderOk(w) && c in w.conns && w.conns[c].state == Connected
    ensures OrderOk(Act(cfg, w, Send(c, data, wr)))
  {
    var m := Msg(0, w.clock, data);
    var w' := Put(Tick(w), c, SendInLoop(cfg, c, At(w, c), m, wr));
    assert Act(cfg, w, Send(c, data, wr)) == w';
    forall id | id in w'.conns
      ensures TrailOk(w', id)
    {
      SendTrail(cfg, w, c, m, wr, id);
    }
  }

  lemma BeginFlights(inFlight: map<nat, Flight>, thread: nat, f: Flight, id: nat)
    requires thread !in inFlight
    ensures FlightsTo(inFlight[thread := f], id) ==
            if id == f.conn then FlightsTo(inFlight, id)[thread := f.msg] else FlightsTo(inFlight, id)
  {
  }

  lemma BeginTrail(w: World, thread: nat, f: Flight, id: nat)
    requires TrailOk(w, id) && thread !in w.inFlight && f.msg.sender == thread + 1 && f.msg.ticket == w.clock
    ensures TrailOk(Begin(w, thread, f), id)
  {
    BeginFlights(w.inFlight, thread, f, id);
    if id == f.conn {
      BeginKeepsOrder(Log(w, id), Waiting(w, id), FlightsTo(w.inFlight, id), thread, f.msg, w.clock);
    } else {
      SameTrailOk(w, Begin(w, thread, f), id);
    }
  }

  lemma BeginOrder(w: World, thread: nat, f: Flight)
    requires OrderOk(w) && f.msg.sender == thread + 1 && f.msg.ticket == w.clock
    ensures OrderOk(Begin(w, thread, f))
  {
    if thread !in w.inFlight {
      forall id | id in w.conns
        ensures TrailOk(Begin(w, thread, f), id)
      {
        BeginTrail(w, thread, f, id);
      }
    }
  }

  lemma LandOrder(w: World, thread: nat)
    requires OrderOk(w)
    ensures OrderOk(Land(w, thread))
  {
    var w' := Land(w, thread);
    if thread in w.inFlight {
      var f := w.inFlight[thread];
      forall id | id in w'.conns
        ensures TrailOk(w', id)
      {
        LandTrail(w, thread, id);
        if id == f.conn {
          LandKeepsOrder(Log(w, id), Waiting(w, id), FlightsTo(w.inFlight, id), thread, w.clock);
        } else {
          SameTrailOk(w, w', id);
        }
      }
    }
  }

  lemma LandTrail(w: World, thread: nat, id: nat)
    requires thread in w.inFlight
    ensures var f, w' := w.inFlight[thread], Land(w, thread);
      if id == f.conn then
        Waiting(w', id) == Waiting(w, id) + [f.msg] && FlightsTo(w'.inFlight, id) == FlightsTo(w.inFlight, id) - {thread}
      else
        Waiting(w', id) == Waiting(w, id) && FlightsTo(w'.inFlight, id) == FlightsTo(w.inFlight, id)
  {
    var f, w' := w.inFlight[thread], Land(w, thread);
    var send := RunSend(f.conn, f.msg);
    SendsToAppend(w.batch + w.pending, [send], id);
    assert w'.batch + w'.pending == (w.batch + w.pending) + [send];
    assert [send][..0] == [];
  }

  lemma HoldOrder(cfg: Config, w: World, a: Action)
    requires OrderOk(w) && (a.Hold? || a.Release?)
    ensures OrderOk(Act(cfg, w, a))
  {
    FewerOrder(w, Act(cfg, w, a));
  }

  /** What other threads can do. */
  lemma ForeignOrder(cfg: Config, w: World, a: Action)
    requires OrderOk(w) && ForeignAction(a)
    ensures OrderOk(Act(cfg, w, a))
  {
    if a.Post? {
      PushOrder(w, Client);
    } else if a.PushFrom? {
      LandOrder(w, a.thread);
    } else if a.TestFrom? {
      TestBegins(cfg, w, a.thread, a.conn, a.data);
      BeginOrder(w, a.thread, Flight(a.conn, Msg(a.thread + 1, w.clock, a.data)));
    } else {
      HoldOrder(cfg, w, a);
    }
  }

  lemma ActOrder(cfg: Config, w: World, a: Action)
    requires OrderOk(w)
    ensures OrderOk(Act(cfg, w, a))
  {
    if ForeignAction(a) {
      ForeignOrder(cfg, w, a);
    } else if a.conn in w.conns {
      OthersQueue(cfg, a.conn, At(w, a.conn), Took(0));
      match a
      case Send(c, data, wr) =>
        if w.conns[c].state == Connected {
          SendOrder(cfg, w, c, data, wr);
        }
      case HalfClose(c) => PutOrder(w, c, Shutdown(cfg, At(w, c)));
      case Close(c) => PutOrder(w, c, ForceClose(c, At(w, c)));
    }
  }

  lemma {:induction false} ActsOrder(cfg: Config, w: World, script: seq<Action>)
    requires OrderOk(w)
    ensures OrderOk(Acts(cfg, w, script))
    decreases |script|
  {
    if script != [] {
      ActOrder(cfg, w, script[0]);
      ActsOrder(cfg, Act(cfg, w, script[0]), script[1..]);
    }
  }

  lemma CloseOrder(cfg: Config, w: World, id: nat, callback: seq<Action>)
    requires OrderOk(w)
    ensures OrderOk(CloseConnection(cfg, w, id, callback))
  {
    if id !in w.conns {
      FewerOrder(w, Fails(w, Dangling));
    } else {
      var w1 := Put(w, id, BeginClose(id, At(w, id)));
      OthersQueue(cfg, id, At(w, id), Took(0));
      PutOrder(w, id, BeginClose(id, At(w, id)));
      ActsOrder(cfg, w1, callback);
      var w2 := Acts(cfg, w1, callback);
      var w3 := w2.(server := w2.server - {NameOf(cfg, id)});
      FewerOrder(w2, w3);
      PushOrder(w3, RunDestroy(id));
    }
  }

  lemma HandleEventOrder(cfg: Config, w: World, id: nat, revents: Mask, io: Io)
    requires OrderOk(w)
    ensures OrderOk(HandleEvent(cfg, w, id, revents, io))
  {
    CloseOrder(cfg, w, id, io.onHangup);
    var w1 := HangupBranches(cfg, w, id, revents, io);
    HangupOrder(cfg, w, id, revents, io);
    ReadOrder(cfg, w1, id, revents, io);
    WriteOrder(cfg, ReadBranch(cfg, w1, id, revents, io), id, revents, io);
  }

  lemma HangupOrder(cfg: Config, w: World, id: nat, revents: Mask, io: Io)
    requires OrderOk(w)
    ensures OrderOk(HangupBranches(cfg, w, id, revents, io))
  {
    CloseOrder(cfg, w, id, io.onHangup);
    var w1 := if HUP in revents && IN !in revents then CloseConnection(cfg, w, id, io.onHangup) else w;
    FewerOrder(w1, Fails(w1, Dangling));
  }

  lemma ReadOrder(cfg: Config, w: World, id: nat, revents: Mask, io: Io)
    requires OrderOk(w)
    ensures OrderOk(ReadBranch(cfg, w, id, revents, io))
  {
    FewerOrder(w, Fails(w, Dangling));
    ActsOrder(cfg, w, io.onRead);
    CloseOrder(cfg, w, id, io.onRead);
  }

  lemma WriteOrder(cfg: Config, w: World, id: nat, revents: Mask, io: Io)
    requires OrderOk(w)
    ensures OrderOk(WriteBranch(cfg, w, id, revents, io))
  {
    FewerOrder(w, Fails(w, Dangling));
    if id in w.conns {
      OthersQueue(cfg, id, At(w, id), io.wrote);
      PutOrder(w, id, HandleWrite(cfg, id, At(w, id), io.wrote));
    }
  }

  /** A new connection has accepted nothing and nothing waits for it. */
  lemma AdmitOrder(cfg: Config, w: World, fd: nat)
    requires OrderOk(w) && w.nextId !in FunctorRefs(w.batch) && w.nextId !in FunctorRefs(w.pending)
    requires w.nextId !in FlightRefs(w.inFlight)
    ensures OrderOk(Admit(cfg, w, fd))
  {
    var id, w1 := w.nextId, Admit(cfg, w, fd);
    NoSends(w.batch, id);
    NoSends(w.pending, id);
    SendsToAppend(w.batch, w.pending, id);
    assert FlightsTo(w.inFlight, id) == map[];
    forall other | other in w1.conns
      ensures TrailOk(w1, other)
    {
      if other != id {
        SameTrailOk(w, w1, other);
      }
    }
  }

  lemma JoinOrder(cfg: Config, w1: World, id: nat, callback: seq<Action>)
    requires OrderOk(w1) && id in w1.conns
    ensures OrderOk(Acts(cfg, Put(w1, id, Establish(id, At(w1, id))), callback))
  {
    OthersQueue(cfg, id, At(w1, id), Took(0));
    PutOrder(w1, id, Establish(id, At(w1, id)));
    ActsOrder(cfg, Put(w1, id, Establish(id, At(w1, id))), callback);
  }

  lemma NewConnectionOrder(cfg: Config, w: World, fd: nat, callback: seq<Action>)
    requires OrderOk(w) && Inv(cfg, w, {}) && fd !in w.open
    ensures OrderOk(NewConnection(cfg, w, fd, callback))
  {
    NewIsFresh(cfg, w, fd);
    AdmitOverwritesNothing(cfg, w, fd);
    AdmitOrder(cfg, w, fd);
    JoinOrder(cfg, Admit(cfg, w, fd), w.nextId, callback);
  }

  lemma PopTrail(w: World, id: nat)
    requires w.batch != []
    ensures var f := w.batch[0];
      Waiting(w, id) == (if f.RunSend? && f.conn == id then [f.msg] else []) + Waiting(Popped(w), id)
  {
    var f, rest := w.batch[0], w.batch[1..];
    assert w.batch + w.pending == [f] + (rest + w.pending);
    SendsToAppend([f], rest + w.pending, id);
    assert [f][..0] == [];
  }

  lemma PoppedTrail(w: World, id: nat)
    requires w.batch != [] && TrailOk(w, id)
    ensures TrailOk(Popped(w), id)
  {
    PopTrail(w, id);
    if w.batch[0].RunSend? && w.batch[0].conn == id {
      DropKeepsOrder(Log(w, id), w.batch[0].msg, Waiting(Popped(w), id), FlightsTo(w.inFlight, id), w.clock);
    } else {
      assert Waiting(w, id) == Waiting(Popped(w), id);
    }
  }

  lemma PoppedOrder(w: World)
    requires OrderOk(w) && w.batch != []
    ensures OrderOk(Popped(w))
  {
    forall id | id in w.conns
      ensures TrailOk(Popped(w), id)
    {
      PoppedTrail(w, id);
    }
  }

  /**
   Running a queued send: its message, the first that waits, leaves the queue, and joins the log
   unless the connection is closed or the write is a fault; every sender's order is kept.
   */
  lemma RunSendOrder(cfg: Config, w: World, c: nat, m: Msg, wr: WriteResult)
    requires OrderOk(w) && w.batch != [] && w.batch[0] == RunSend(c, m) && c in w.conns
    ensures var w' := Put(Popped(w), c, SendInLoop(cfg, c, At(Popped(w), c), m, wr));
      && OrderOk(w')
      && Waiting(w, c) == [m] + Waiting(w', c)
      && Log(w', c) == (if Drops(w.conns[c], wr) then Log(w, c) else Log(w, c) + [m])
  {
    var w1 := Popped(w);
    var v := SendInLoop(cfg, c, At(w1, c), m, wr);
    var w' := Put(w1, c, v);
    PoppedOrder(w);
    SendQueues(cfg, c, At(w1, c), m, wr);
    SendAllOrNothing(cfg, c, At(w1, c), m, wr);
    PopTrail(w, c);
    forall id | id in w'.conns
      ensures TrailOk(w', id)
    {
      QueuedHoldsNoSends(c, w1.batch, w1.pending, v.pending, id);
      if id == c && v.conn.log != w.conns[c].log {
        AcceptKeepsOrder(Log(w, c), m, Waiting(w1, c), FlightsTo(w.inFlight, c), w.clock);
      } else {
        SameTrailOk(w1, w', id);
      }
    }
    QueuedHoldsNoSends(c, w1.batch, w1.pending, v.pending, c);
  }

  lemma DestroyOrder(cfg: Config, w: World, id: nat, callback: seq<Action>)
    requires OrderOk(w)
    ensures OrderOk(DestroyConnection(cfg, w, id, callback))
  {
    FewerOrder(w, Fails(w, Dangling));
    if id in w.conns {
      OthersQueue(cfg, id, At(w, id), Took(0));
      var w1 := Put(w, id, BeginDestroy(id, At(w, id)));
      PutOrder(w, id, BeginDestroy(id, At(w, id)));
      ActsOrder(cfg, w1, callback);
      var w2 := if w.conns[id].state == Connected then Acts(cfg, w1, callback) else w1;
      FewerOrder(w2, Fails(w2, Dangling));
      if id in w2.conns {
        OthersQueue(cfg, id, At(w2, id), Took(0));
        PutOrder(w2, id, FinishDestroy(id, At(w2, id)));
      }
    }
  }

  lemma RunFunctorOrder(cfg: Config, w: World, f: Functor, io: Io)
    requires OrderOk(w) && !f.RunSend?
    ensures OrderOk(RunFunctor(cfg, w, f, io))
  {
    FewerOrder(w, Fails(w, Dangling));
    match f
    case RunForceClose(c) => CloseOrder(cfg, w, c, io.onRead);
    case RunDestroy(c) => DestroyOrder(cfg, w, c, io.onRead);
    case _ => ActsOrder(cfg, w, io.onRead);
  }

  lemma RunNextOrder(cfg: Config, w: World, io: Io)
    requires OrderOk(w) && w.batch != []
    ensures OrderOk(Step(cfg, w, RunNext(io)))
  {
    PoppedOrder(w);
    match w.batch[0]
    case RunSend(c, m) =>
      if c in w.conns {
        RunSendOrder(cfg, w, c, m, io.wrote);
      } else {
        FewerOrder(Popped(w), Fails(Popped(w), Dangling));
      }
    case _ => RunFunctorOrder(cfg, Popped(w), w.batch[0], io);
  }

  lemma StepOrder(cfg: Config, w: World, e: Event)
    requires OrderOk(w) && Inv(cfg, w, {}) && Legal(w, e)
    ensures OrderOk(Step(cfg, w, e))
  {
    match e
    case Poll(reports) =>
      ReportsAreOpen(cfg, w, reports);
      PollIsExact(cfg, w, reports);
      FewerOrder(w, Step(cfg, w, e));
    case Dispatch(io) =>
      var w1 := Taken(w);
      FewerOrder(w, w1);
      TakeKeeps(cfg, w);
      match w.active[0] {
        case ListenerReady =>
          if io.accepted >= 0 {
            NewConnectionOrder(cfg, w1, io.accepted, io.onRead);
          }
        case Ready(id, revents) => HandleEventOrder(cfg, w1, id, revents, io);
      }
    case RunNext(io) => RunNextOrder(cfg, w, io);
    case Foreign(a) => ActOrder(cfg, w, a);
    case _ =>
      assert w.batch == [] ==> w.pending + [] == w.batch + w.pending;
      FewerOrder(w, Step(cfg, w, e));
  }

  lemma {:induction false} RunOrder(cfg: Config, w: World, run: seq<Event>)
    requires OrderOk(w) && Inv(cfg, w, {}) && LegalRun(cfg, w, run)
    ensures OrderOk(Exec(cfg, w, run))
    decreases |run|
  {
    if run != [] {
      StepOrder(cfg, w, run[0]);
      StepKeeps(cfg, w, run[0]);
      RunOrder(cfg, Step(cfg, w, run[0]), run[1..]);
    }
  }

  /**
   In every run, the messages a connection has accepted from one thread are in the order of
   that thread's calls, whichever way each travelled; and the stream is made of them.
   */
  lemma SenderOrder(cfg: Config, base: set<nat>, run: seq<Event>, id: nat, i: nat, j: nat)
    requires Runs(cfg, base, run) && id in Exec(cfg, Init(base), run).conns
    requires i < j < |Exec(cfg, Init(base), run).conns[id].log|
    ensures var c := Exec(cfg, Init(base), run).conns[id];
      && (c.log[i].sender == c.log[j].sender ==> c.log[i].ticket < c.log[j].ticket)
      && c.taken + c.out == Flatten(c.log)
  {
    InitHolds(cfg, base);
    RunOrder(cfg, Init(base), run);
    StreamConserved(cfg, base, run, id);
    var w := Exec(cfg, Init(base), run);
    assert TrailOk(w, id);
    assert (Log(w, id) + Waiting(w, id))[i] == w.conns[id].log[i];
    assert (Log(w, id) + Waiting(w, id))[j] == w.conns[id].log[j];
  }
}
