/**
 What can no longer happen to a connection that has left Connected: no send call on it begins, so only
 those already in flight are pushed, and once it is closed nothing else about it is queued.
 */
module ReactorLeaving {
  import opened Events
  import opened ConnectionSpec
  import opened Reactor
  import opened ReactorInvariant
  import opened ReactorSafety

  ghost predicate Leaving(w: World, id: nat) {
    id in w.conns ==> Rank(w.conns[id].state) >= Rank(Disconnecting)
  }

  ghost predicate Settled(w: World, id: nat) {
    id in w.conns ==> w.conns[id].state == Disconnected
  }

  /** Another thread is in a send call on `id`, past its test of the state. */
  predicate Late(w: World, id: nat) {
    id in FlightRefs(w.inFlight)
  }

  /** A queue grown by sends to `id` only if one was late, and, once that is settled, by nothing else about it. */
  ghost predicate Grown(q: seq<Functor>, r: seq<Functor>, id: nat, settled: bool, late: bool) {
    && q <= r
    && (forall i :: |q| <= i < |r| && r[i].RunSend? && r[i].conn == id ==> late)
    && (settled ==> forall i :: |q| <= i < |r| ==> r[i].Client? || r[i].RunSend? || r[i].conn != id)
  }

  /** What may still happen to `id` in a handler or a callback. */
  ghost predicate Mutes(w: World, w': World, id: nat) {
    && (id in w'.conns ==>
          && id in w.conns && w'.conns[id].log == w.conns[id].log
          && Rank(w.conns[id].state) <= Rank(w'.conns[id].state))
    && w'.batch == w.batch && (Late(w', id) ==> Late(w, id))
    && Grown(w.pending, w'.pending, id, Settled(w, id), Late(w, id))
  }

  lemma GrownTransitive(p: seq<Functor>, q: seq<Functor>, r: seq<Functor>, id: nat, settled: bool, settled': bool, late: bool, late': bool)
    requires Grown(p, q, id, settled, late) && Grown(q, r, id, settled', late') && (settled ==> settled') && (late' ==> late)
    ensures Grown(p, r, id, settled, late)
  {
    assert forall i :: |p| <= i < |q| ==> r[i] == q[i];
  }

  lemma MutesTransitive(a: World, b: World, c: World, id: nat)
    requires Mutes(a, b, id) && Mutes(b, c, id)
    ensures Mutes(a, c, id) && (Leaving(a, id) ==> Leaving(b, id)) && (Settled(a, id) ==> Settled(b, id))
  {
    GrownTransitive(a.pending, b.pending, c.pending, id, Settled(a, id), Settled(b, id), Late(a, id), Late(b, id));
  }

  /** A handler of `c`, put back. */
  lemma PutMutes(w: World, c: nat, v: View, id: nat)
    requires c in w.conns && Queued(c, w.pending, v.pending)
    requires c == id ==> v.conn.log == w.conns[c].log && Rank(w.conns[c].state) <= Rank(v.conn.state)
    requires c == id && Settled(w, id) ==> v.pending == w.pending
    ensures Mutes(w, Put(w, c, v), id)
  {
  }

  lemma PushMutes(w: World, f: Functor, id: nat)
    requires f.Client? || f.conn != id || (!f.RunSend? && !Settled(w, id))
    ensures Mutes(w, Push(w, f), id)
  {
  }

  lemma BeginMutes(w: World, thread: nat, f: Flight, id: nat)
    requires f.conn != id
    ensures Mutes(w, Begin(w, thread, f), id)
  {
    if thread !in w.inFlight {
      BeginRefs(w, thread, f);
    }
  }

  lemma LandMutes(w: World, thread: nat, id: nat)
    ensures Mutes(w, Land(w, thread), id)
  {
    if thread in w.inFlight {
      LandRefs(w, thread);
      assert w.inFlight[thread].conn in FlightRefs(w.inFlight);
    }
  }

  lemma ActMutes(cfg: Config, w: World, a: Action, id: nat)
    requires Leaving(w, id)
    ensures Mutes(w, Act(cfg, w, a), id)
  {
    if a.Post? {
      PushMutes(w, Client, id);
    } else if a.PushFrom? {
      LandMutes(w, a.thread, id);
    } else if a.conn in w.conns {
      match a
      case Send(c, data, wr) =>
        if w.conns[c].state == Connected {
          SendQueues(cfg, c, At(w, c), Msg(0, w.clock, data), wr);
          PutMutes(Tick(w), c, SendInLoop(cfg, c, At(w, c), Msg(0, w.clock, data), wr), id);
        }
      case TestFrom(thread, c, data) =>
        if w.conns[c].state == Connected {
          BeginMutes(w, thread, Flight(c, Msg(thread + 1, w.clock, data)), id);
        }
      case HalfClose(c) => PutMutes(w, c, Shutdown(cfg, At(w, c)), id);
      case Close(c) => PutMutes(w, c, ForceClose(c, At(w, c)), id);
      case _ =>
    }
  }

  lemma {:induction false} ActsMute(cfg: Config, w: World, script: seq<Action>, id: nat)
    requires Leaving(w, id)
    ensures Mutes(w, Acts(cfg, w, script), id)
    decreases |script|
  {
    if script != [] {
      var w1 := Act(cfg, w, script[0]);
      ActMutes(cfg, w, script[0], id);
      ActsMute(cfg, w1, script[1..], id);
      MutesTransitive(w, w1, Acts(cfg, w1, script[1..]), id);
    }
  }

  /** The close of an open connection, `id` itself or another. */
  lemma CloseMutes(cfg: Config, w: World, c: nat, callback: seq<Action>, id: nat)
    requires Leaving(w, id) && c in w.conns && IsOpen(w.conns[c].state)
    ensures Mutes(w, CloseConnection(cfg, w, c, callback), id)
  {
    var w1 := Put(w, c, BeginClose(c, At(w, c)));
    PutMutes(w, c, BeginClose(c, At(w, c)), id);
    var w2 := Acts(cfg, w1, callback);
    ActsMute(cfg, w1, callback, id);
    MutesTransitive(w, w1, w2, id);
  }

  lemma ReadMutes(cfg: Config, w: World, c: nat, n: int, callback: seq<Action>, id: nat)
    requires Leaving(w, id) && c in w.conns && (n == 0 ==> IsOpen(w.conns[c].state))
    ensures Mutes(w, ReadConnection(cfg, w, c, n, callback), id)
  {
    if n > 0 {
      ActsMute(cfg, w, callback, id);
    } else if n == 0 {
      CloseMutes(cfg, w, c, callback, id);
    }
  }

  lemma WriteMutes(cfg: Config, w: World, c: nat, wr: WriteResult, id: nat)
    requires Inv(cfg, w, {}) && c in w.conns
    ensures Mutes(w, WriteConnection(cfg, w, c, wr), id)
  {
    WriteKeeps(cfg, w, c, wr);
    if w.conns[c].state != Disconnected {
      OthersQueue(cfg, c, At(w, c), wr);
      HandleWriteMoves(cfg, c, At(w, c), wr);
      PutMutes(w, c, HandleWrite(cfg, c, At(w, c), wr), id);
    }
  }

  /** The read and write branches of a dispatch, after its hang-up branch. */
  lemma AfterHangupMutes(cfg: Config, w: World, c: nat, revents: Mask, io: Io, id: nat)
    requires Inv(cfg, w, {}) && Leaving(w, id) && Kept(w, c) && NotActive(w, c)
    requires ReadsClosed(revents, io.read) ==> IsOpen(w.conns[c].state)
    ensures Mutes(w, WriteBranch(cfg, ReadBranch(cfg, w, c, revents, io), c, revents, io), id)
  {
    var w1 := ReadBranch(cfg, w, c, revents, io);
    ReadBranchKeeps(cfg, w, c, revents, io);
    if revents * {IN, PRI, RDHUP} != {} {
      ReadMutes(cfg, w, c, io.read, io.onRead, id);
    }
    if OUT in revents {
      WriteMutes(cfg, w1, c, io.wrote, id);
    }
    MutesTransitive(w, w1, WriteBranch(cfg, w1, c, revents, io), id);
  }

  /** Its hang-up branch, which leaves `c` closed if it closes it. */
  lemma HangupMutes(cfg: Config, w: World, c: nat, revents: Mask, io: Io, id: nat)
    requires Inv(cfg, w, {}) && Leaving(w, id)
    requires c in w.conns && IsOpen(w.conns[c].state) && NotActive(w, c)
    ensures var w' := HangupBranches(cfg, w, c, revents, io);
      && Mutes(w, w', id) && Leaving(w', id)
      && (c == id && HUP in revents && IN !in revents ==> Settled(w', id))
  {
    HangupKeeps(cfg, w, c, revents, io);
    if HUP in revents && IN !in revents {
      CloseMutes(cfg, w, c, io.onHangup, id);
    }
    OpenOrClosed(cfg, HangupBranches(cfg, w, c, revents, io), c, {});
  }

  /** The two together, seen from the hang-up branch. */
  lemma HandleEventSplits(cfg: Config, w: World, c: nat, revents: Mask, io: Io, id: nat)
    requires Inv(cfg, w, {}) && Leaving(w, id)
    requires c in w.conns && IsOpen(w.conns[c].state) && NotActive(w, c) && !ClosesTwice(revents, io.read)
    ensures Mutes(HangupBranches(cfg, w, c, revents, io), HandleEvent(cfg, w, c, revents, io), id)
  {
    HangupKeeps(cfg, w, c, revents, io);
    HangupMutes(cfg, w, c, revents, io, id);
    ClosesTwiceSplit(revents, io.read);
    AfterHangupMutes(cfg, HangupBranches(cfg, w, c, revents, io), c, revents, io, id);
  }

  lemma HandleEventMutes(cfg: Config, w: World, c: nat, revents: Mask, io: Io, id: nat)
    requires Inv(cfg, w, {}) && Leaving(w, id)
    requires c in w.conns && IsOpen(w.conns[c].state) && NotActive(w, c) && !ClosesTwice(revents, io.read)
    ensures Mutes(w, HandleEvent(cfg, w, c, revents, io), id)
    ensures c == id && HUP in revents && IN !in revents ==> Settled(HandleEvent(cfg, w, c, revents, io), id)
  {
    HangupMutes(cfg, w, c, revents, io, id);
    HandleEventSplits(cfg, w, c, revents, io, id);
    MutesTransitive(w, HangupBranches(cfg, w, c, revents, io), HandleEvent(cfg, w, c, revents, io), id);
  }

  lemma NewConnectionMutes(cfg: Config, w: World, fd: nat, callback: seq<Action>, id: nat)
    requires Inv(cfg, w, {}) && fd !in w.open && Leaving(w, id) && id < w.nextId
    ensures Mutes(w, NewConnection(cfg, w, fd, callback), id)
  {
    var w1 := Admit(cfg, w, fd);
    AdmitOverwritesNothing(cfg, w, fd);
    var w2 := Put(w1, w.nextId, Establish(w.nextId, At(w1, w.nextId)));
    ActsMute(cfg, w2, callback, id);
    MutesTransitive(w, w2, Acts(cfg, w2, callback), id);
  }

  lemma DispatchMutes(cfg: Config, w: World, io: Io, id: nat)
    requires Inv(cfg, w, {}) && Legal(w, Dispatch(io)) && Leaving(w, id) && id < w.nextId
    ensures Mutes(w, Step(cfg, w, Dispatch(io)), id)
  {
    TakeKeeps(cfg, w);
    match w.active[0]
    case ListenerReady =>
      if io.accepted >= 0 {
        NewConnectionMutes(cfg, Taken(w), io.accepted, io.onRead, id);
      }
    case Ready(c, revents) => HandleEventMutes(cfg, Taken(w), c, revents, io, id);
  }

  lemma FunctorMutes(cfg: Config, w: World, f: Functor, io: Io, id: nat)
    requires !f.RunDestroy? && (f.Client? || f.conn in w.conns) && Leaving(w, id)
    requires f.RunSend? && f.conn == id ==> Settled(w, id)
    ensures Mutes(w, RunFunctor(cfg, w, f, io), id)
  {
    match f
    case RunSend(c, m) =>
      SendQueues(cfg, c, At(w, c), m, io.wrote);
      SendMask(cfg, c, At(w, c), m, io.wrote);
      PutMutes(w, c, SendInLoop(cfg, c, At(w, c), m, io.wrote), id);
    case RunForceClose(c) =>
      if IsOpen(w.conns[c].state) {
        CloseMutes(cfg, w, c, io.onRead, id);
      }
    case _ => ActsMute(cfg, w, io.onRead, id);
  }

  /** A functor other than a queued send to `id` that it can still accept. */
  lemma RunNextMutes(cfg: Config, w: World, io: Io, id: nat)
    requires Inv(cfg, w, {}) && Legal(w, RunNext(io)) && Leaving(w, id)
    requires w.batch[0].RunSend? && w.batch[0].conn == id ==> Settled(w, id)
    ensures Mutes(Popped(w), Step(cfg, w, RunNext(io)), id)
  {
    var f := w.batch[0];
    if f.RunDestroy? {
      DoomedIsClosed(cfg, w, f.conn);
      DestroyIsRemoval(cfg, w, f.conn, io);
    } else {
      PopKeeps(cfg, w);
      FunctorMutes(cfg, Popped(w), f, io, id);
    }
  }
}
