/**
 What shutdown and forceClose end. Send calls that begin later are refused. A message another thread
 had queued, or was about to queue, may still be accepted: when, exactly, is LaterAcceptanceExactly. If
 the socket was shut for writing by then, the message is buffered and never leaves.
 */
module ReactorShutdown {
  import opened Bytes
  import opened Events
  import opened PollerSpec
  import opened ConnectionSpec
  import opened Reactor
  import opened ReactorInvariant
  import opened ReactorSafety
  import opened ReactorTheorems
  import opened ReactorLeaving

  lemma NeverConnectedAgain(cfg: Config, w: World, more: seq<Event>, id: nat)
    requires Inv(cfg, w, {}) && id in w.conns && w.conns[id].state != Connected && LegalRun(cfg, w, more)
    ensures Leaving(Exec(cfg, w, more), id)
  {
    OpenOrClosed(cfg, w, id, {});
    RunKeeps(cfg, w, more);
  }

  /** Once a connection has left Connected, no send call that begins does anything, in the whole rest of the run. */
  lemma SendsAreRefused(cfg: Config, w: World, more: seq<Event>, id: nat, send: Action)
    requires Inv(cfg, w, {}) && id in w.conns && w.conns[id].state != Connected && LegalRun(cfg, w, more)
    requires (send.Send? || send.TestFrom?) && send.conn == id
    ensures Act(cfg, Exec(cfg, w, more), send) == Exec(cfg, w, more)
  {
    NeverConnectedAgain(cfg, w, more, id);
  }

  // -------------------------------------------------------------------------------------------
  // The condition

  /** A functor that settles whether a waiting send is accepted. */
  predicate Decides(f: Functor, id: nat) {
    (f.RunSend? || f.RunForceClose?) && f.conn == id
  }

  /** Of what is queued for `id`, a send comes before any forced close; `late` is a send that would come last. */
  predicate SendComesFirst(q: seq<Functor>, id: nat, late: bool)
    decreases |q|
  {
    if q == [] then late
    else if Decides(q[0], id) then q[0].RunSend?
    else SendComesFirst(q[1..], id, late)
  }

  /** `id` is about to be dispatched with a hang-up that closes it. */
  ghost predicate HangsUp(w: World, id: nat) {
    exists i :: 0 <= i < |w.active| && w.active[i].Ready? && w.active[i].id == id && Hangup(w.active[i].revents)
  }

  predicate Hangup(revents: Mask) {
    HUP in revents && IN !in revents
  }

  /** Open, not about to hang up, and with a send queued before any forced close, or in flight with none queued. */
  ghost predicate CanAccept(w: World, id: nat) {
    && id in w.conns && IsOpen(w.conns[id].state) && !HangsUp(w, id)
    && SendComesFirst(w.batch + w.pending, id, Late(w, id))
  }

  lemma {:induction false} FirstAppend(q: seq<Functor>, r: seq<Functor>, id: nat, late: bool)
    ensures SendComesFirst(q + r, id, late) == SendComesFirst(q, id, SendComesFirst(r, id, late))
    decreases |q|
  {
    if q == [] {
      assert q + r == r;
    } else {
      assert (q + r)[0] == q[0] && (q + r)[1..] == q[1..] + r;
      FirstAppend(q[1..], r, id, late);
    }
  }

  lemma {:induction false} FirstMonotone(q: seq<Functor>, id: nat, late: bool)
    ensures SendComesFirst(q, id, false) ==> SendComesFirst(q, id, late)
    decreases |q|
  {
    if q != [] {
      FirstMonotone(q[1..], id, late);
    }
  }

  lemma {:induction false} NoSendFirst(q: seq<Functor>, id: nat)
    requires forall i :: 0 <= i < |q| ==> !(q[i].RunSend? && q[i].conn == id)
    ensures !SendComesFirst(q, id, false)
    decreases |q|
  {
    if q != [] {
      NoSendFirst(q[1..], id);
    }
  }

  /** What a muted queue grows by adds no chance of a send. */
  lemma GrownComesFirst(q: seq<Functor>, r: seq<Functor>, batch: seq<Functor>, id: nat, settled: bool, late: bool, late': bool)
    requires Grown(q, r, id, settled, late) && (late' ==> late)
    ensures SendComesFirst(batch + r, id, late') ==> SendComesFirst(batch + q, id, late)
  {
    var extra := r[|q|..];
    assert batch + r == (batch + q) + extra;
    FirstAppend(batch + q, extra, id, late');
    if !late {
      NoSendFirst(extra, id);
    } else {
      FirstMonotone(batch + q, id, true);
    }
  }

  // -------------------------------------------------------------------------------------------
  // Without it, nothing more is accepted

  /** `id` has accepted all it ever will. */
  ghost predicate Finished(w: World, id: nat, log: seq<Msg>) {
    && id < w.nextId && Leaving(w, id) && !CanAccept(w, id)
    && (id in w.conns ==> w.conns[id].log == log)
  }

  /** A change that may only mute `id`, with the functors of the batch as they were. */
  lemma MutedStaysFinished(w: World, w': World, id: nat, log: seq<Msg>)
    requires Finished(w, id, log) && Mutes(w, w', id) && w.nextId <= w'.nextId
    requires HangsUp(w, id) ==> HangsUp(w', id) || Settled(w', id)
    ensures Finished(w', id, log)
  {
    GrownComesFirst(w.pending, w'.pending, w.batch, id, Settled(w, id), Late(w, id), Late(w', id));
  }

  lemma DispatchFinished(cfg: Config, w: World, io: Io, id: nat, log: seq<Msg>)
    requires Inv(cfg, w, {}) && Legal(w, Dispatch(io)) && Finished(w, id, log)
    ensures Finished(Step(cfg, w, Dispatch(io)), id, log)
  {
    var w' := Step(cfg, w, Dispatch(io));
    DispatchMutes(cfg, w, io, id);
    DispatchKeeps(cfg, w, io);
    if HangsUp(w, id) {
      var i :| 0 <= i < |w.active| && w.active[i].Ready? && w.active[i].id == id && Hangup(w.active[i].revents);
      if i == 0 {
        HangupSettles(cfg, w, io, id);
      } else {
        assert w'.active[i - 1] == w.active[i];
      }
    }
    MutedStaysFinished(w, w', id, log);
  }

  /** Dispatching a hang-up leaves the connection closed. */
  lemma HangupSettles(cfg: Config, w: World, io: Io, id: nat)
    requires Inv(cfg, w, {}) && Legal(w, Dispatch(io)) && Leaving(w, id)
    requires w.active[0].Ready? && w.active[0].id == id && Hangup(w.active[0].revents)
    ensures Settled(Step(cfg, w, Dispatch(io)), id)
  {
    TakeKeeps(cfg, w);
    HandleEventMutes(cfg, Taken(w), id, w.active[0].revents, io, id);
  }

  /** Taking a functor off the batch, other than a forced close, changes nothing of this. */
  lemma PoppedFinished(w: World, id: nat, log: seq<Msg>)
    requires Finished(w, id, log) && w.batch != [] && w.active == [] && w.batch[0] != RunForceClose(id)
    ensures Finished(Popped(w), id, log)
  {
    assert (w.batch + w.pending)[0] == w.batch[0] && (w.batch + w.pending)[1..] == w.batch[1..] + w.pending;
  }

  /** With nothing more to accept, a send at the head of the batch finds the connection closed. */
  lemma HeadFindsClosed(cfg: Config, w: World, id: nat, log: seq<Msg>)
    requires Inv(cfg, w, {}) && Finished(w, id, log) && w.active == []
    requires w.batch != [] && w.batch[0].RunSend? && w.batch[0].conn == id
    ensures Settled(w, id)
  {
    assert (w.batch + w.pending)[0] == w.batch[0];
    if id in w.conns {
      OpenOrClosed(cfg, w, id, {});
    }
  }

  lemma ForcedCloseFinishes(cfg: Config, w: World, io: Io, id: nat, log: seq<Msg>)
    requires Inv(cfg, w, {}) && Legal(w, RunNext(io)) && Finished(w, id, log) && w.batch[0] == RunForceClose(id)
    ensures Finished(Step(cfg, w, RunNext(io)), id, log)
  {
    RunNextMutes(cfg, w, io, id);
    ForcedCloseTakesEffect(cfg, w, io);
    NumbersGrow(cfg, w, io);
  }

  lemma NumbersGrow(cfg: Config, w: World, io: Io)
    requires Inv(cfg, w, {}) && Legal(w, RunNext(io))
    ensures w.nextId <= Step(cfg, w, RunNext(io)).nextId
  {
    RunNextKeeps(cfg, w, io);
  }

  lemma RunNextFinished(cfg: Config, w: World, io: Io, id: nat, log: seq<Msg>)
    requires Inv(cfg, w, {}) && Legal(w, RunNext(io)) && Finished(w, id, log)
    ensures Finished(Step(cfg, w, RunNext(io)), id, log)
  {
    if w.batch[0] == RunForceClose(id) {
      ForcedCloseFinishes(cfg, w, io, id, log);
    } else {
      if w.batch[0].RunSend? && w.batch[0].conn == id {
        HeadFindsClosed(cfg, w, id, log);
      }
      RunNextMutes(cfg, w, io, id);
      RunNextKeeps(cfg, w, io);
      PoppedFinished(w, id, log);
      MutedStaysFinished(Popped(w), Step(cfg, w, RunNext(io)), id, log);
    }
  }

  lemma StepFinished(cfg: Config, w: World, e: Event, id: nat, log: seq<Msg>)
    requires Inv(cfg, w, {}) && Legal(w, e) && Finished(w, id, log)
    ensures Finished(Step(cfg, w, e), id, log)
  {
    match e
    case Poll(reports) =>
      ReportsAreOpen(cfg, w, reports);
      PollIsExact(cfg, w, reports);
    case Dispatch(io) => DispatchFinished(cfg, w, io, id, log);
    case Swap => assert w.pending + [] == w.batch + w.pending;
    case RunNext(io) => RunNextFinished(cfg, w, io, id, log);
    case EndBatch =>
    case Foreign(a) =>
      ActMutes(cfg, w, a, id);
      ActKeeps(cfg, w, a, {});
      MutedStaysFinished(w, Step(cfg, w, e), id, log);
  }

  lemma {:induction false} RunFinished(cfg: Config, w: World, run: seq<Event>, id: nat, log: seq<Msg>)
    requires Inv(cfg, w, {}) && LegalRun(cfg, w, run) && Finished(w, id, log)
    ensures Finished(Exec(cfg, w, run), id, log)
    decreases |run|
  {
    if run != [] {
      StepFinished(cfg, w, run[0], id, log);
      StepKeeps(cfg, w, run[0]);
      RunFinished(cfg, Step(cfg, w, run[0]), run[1..], id, log);
    }
  }

  lemma LogIsFinal(cfg: Config, w: World, more: seq<Event>, id: nat)
    requires Inv(cfg, w, {}) && id in w.conns && w.conns[id].state != Connected && !CanAccept(w, id)
    requires LegalRun(cfg, w, more) && id in Exec(cfg, w, more).conns
    ensures Exec(cfg, w, more).conns[id].log == w.conns[id].log
  {
    OpenOrClosed(cfg, w, id, {});
    RunFinished(cfg, w, more, id, w.conns[id].log);
  }

  // -------------------------------------------------------------------------------------------
  // With it, a run accepts the send

  /** Reads that find something, callbacks that do nothing, writes that would block or find the socket shut, nobody to accept. */
  const IDLE := Io([], 1, [], Failed(WouldBlock), -1)

  /** The loop goes on, with nothing else happening. */
  function Next(w: World): Event {
    match w.phase
    case Polling => Poll([])
    case Dispatching => if w.active != [] then Dispatch(IDLE) else Swap
    case Running => if w.batch != [] then RunNext(IDLE) else EndBatch
  }

  /** How far the loop is from the batch that holds the send. */
  ghost function Stage(w: World, id: nat): nat {
    match w.phase
    case Polling => 2
    case Dispatching => 1
    case Running => if SendComesFirst(w.batch, id, false) then 0 else 3
  }

  /** Open, not about to hang up, and with a send queued before any forced close. */
  ghost predicate WillAccept(w: World, id: nat) {
    && id in w.conns && IsOpen(w.conns[id].state) && !HangsUp(w, id)
    && SendComesFirst(w.batch + w.pending, id, false)
  }

  ghost predicate AboutToAccept(w: World, id: nat) {
    w.phase == Running && w.batch != [] && w.batch[0].RunSend? && w.batch[0].conn == id
  }

  /** The connection as it was, and the queue as it was or longer. */
  ghost predicate Undisturbed(w: World, w': World, id: nat) {
    && id in w.conns && id in w'.conns && w'.conns[id] == w.conns[id]
    && w.pending <= w'.pending && w'.batch == w.batch
  }

  lemma UndisturbedComesFirst(w: World, w': World, id: nat)
    requires Undisturbed(w, w', id) && SendComesFirst(w.batch + w.pending, id, false)
    ensures SendComesFirst(w'.batch + w'.pending, id, false)
  {
    var extra := w'.pending[|w.pending|..];
    assert w'.batch + w'.pending == (w.batch + w.pending) + extra;
    FirstAppend(w.batch + w.pending, extra, id, false);
    FirstMonotone(w.batch + w.pending, id, SendComesFirst(extra, id, false));
  }

  /** Closing another connection disturbs nothing here. */
  lemma IdleClose(cfg: Config, w: World, c: nat, id: nat)
    requires c in w.conns && id in w.conns && c != id
    ensures Undisturbed(w, CloseConnection(cfg, w, c, []), id)
    ensures c in CloseConnection(cfg, w, c, []).conns
  {
  }

  lemma IdleWrite(cfg: Config, w: World, c: nat)
    requires c in w.conns
    ensures WriteConnection(cfg, w, c, Failed(WouldBlock)) == w
  {
    assert w.conns[c := w.conns[c]] == w.conns;
  }

  lemma IdleEvent(cfg: Config, w: World, c: nat, revents: Mask, id: nat)
    requires c in w.conns && id in w.conns && (Hangup(revents) ==> c != id)
    ensures Undisturbed(w, HandleEvent(cfg, w, c, revents, IDLE), id)
  {
    var w1 := if Hangup(revents) then CloseConnection(cfg, w, c, []) else w;
    if Hangup(revents) {
      IdleClose(cfg, w, c, id);
    }
    assert HangupBranches(cfg, w, c, revents, IDLE) == w1;
    assert ReadBranch(cfg, w1, c, revents, IDLE) == w1;
    IdleWrite(cfg, w1, c);
  }

  lemma NoNewHangup(w: World, w': World, id: nat)
    requires !HangsUp(w, id) && w.active != [] && w'.active == w.active[1..]
    ensures !HangsUp(w', id)
  {
    assert forall i :: 0 <= i < |w'.active| ==> w'.active[i] == w.active[i + 1];
  }

  /** Dispatching the next channel disturbs nothing: it is another's, or it reports no hang-up. */
  lemma DispatchIsIdle(cfg: Config, w: World, id: nat)
    requires Inv(cfg, w, {}) && id in w.conns && !HangsUp(w, id) && w.phase == Dispatching && w.active != []
    ensures Undisturbed(w, Step(cfg, w, Dispatch(IDLE)), id)
  {
    TakeKeeps(cfg, w);
    if w.active[0].Ready? {
      IdleEvent(cfg, Taken(w), w.active[0].id, w.active[0].revents, id);
    }
  }

  lemma IdleDispatch(cfg: Config, w: World, id: nat)
    requires Inv(cfg, w, {}) && WillAccept(w, id) && w.phase == Dispatching && w.active != []
    ensures var w' := Step(cfg, w, Dispatch(IDLE));
      && Legal(w, Dispatch(IDLE)) && WillAccept(w', id)
      && w'.phase == Dispatching && Closer(w, w', id)
  {
    var w' := Step(cfg, w, Dispatch(IDLE));
    DispatchIsIdle(cfg, w, id);
    DispatchKeeps(cfg, w, IDLE);
    UndisturbedComesFirst(w, w', id);
    NoNewHangup(w, w', id);
  }

  lemma IdleSend(cfg: Config, w: World, c: nat, m: Msg, id: nat)
    requires c in w.conns && id in w.conns && c != id
    ensures Undisturbed(w, Put(w, c, SendInLoop(cfg, c, At(w, c), m, IDLE.wrote)), id)
  {
    SendQueues(cfg, c, At(w, c), m, IDLE.wrote);
  }

  /** connectDestroyed is about a closed connection, so about another. */
  lemma IdleDestroy(cfg: Config, w: World, id: nat)
    requires Inv(cfg, w, {}) && w.batch != [] && w.batch[0].RunDestroy?
    requires id in w.conns && IsOpen(w.conns[id].state)
    ensures Undisturbed(Popped(w), RunFunctor(cfg, Popped(w), w.batch[0], IDLE), id)
  {
    DoomedIsClosed(cfg, w, w.batch[0].conn);
    DestroyIsRemoval(cfg, w, w.batch[0].conn, IDLE);
  }

  lemma IdleOther(cfg: Config, w: World, f: Functor, id: nat)
    requires id in w.conns && !f.RunDestroy? && !Decides(f, id) && (f.Client? || f.conn in w.conns)
    ensures Undisturbed(w, RunFunctor(cfg, w, f, IDLE), id)
  {
    if f.RunSend? {
      IdleSend(cfg, w, f.conn, f.msg, id);
    } else if f.RunForceClose? {
      IdleClose(cfg, w, f.conn, id);
    }
  }

  /** A functor that is not about `id`'s sends or closing. */
  lemma IdleFunctor(cfg: Config, w: World, id: nat)
    requires Inv(cfg, w, {}) && w.batch != [] && id in w.conns && IsOpen(w.conns[id].state)
    requires !Decides(w.batch[0], id)
    ensures Undisturbed(Popped(w), RunFunctor(cfg, Popped(w), w.batch[0], IDLE), id)
  {
    if w.batch[0].RunDestroy? {
      IdleDestroy(cfg, w, id);
    } else {
      PopKeeps(cfg, w);
      IdleOther(cfg, Popped(w), w.batch[0], id);
    }
  }

  lemma IdleHead(w: World, id: nat)
    requires w.phase == Running && WillAccept(w, id) && w.batch != [] && !AboutToAccept(w, id)
    ensures !Decides(w.batch[0], id) && SendComesFirst(Popped(w).batch + w.pending, id, false)
    ensures SendComesFirst(w.batch[1..], id, false) == SendComesFirst(w.batch, id, false)
  {
    assert (w.batch + w.pending)[0] == w.batch[0] && (w.batch + w.pending)[1..] == w.batch[1..] + w.pending;
  }

  lemma IdleRunNext(cfg: Config, w: World, id: nat)
    requires Inv(cfg, w, {}) && WillAccept(w, id) && w.phase == Running && w.batch != [] && !AboutToAccept(w, id)
    ensures var w' := Step(cfg, w, RunNext(IDLE));
      && Legal(w, RunNext(IDLE)) && WillAccept(w', id)
      && w'.phase == Running && w'.active == [] && w'.batch == w.batch[1..] && SendComesFirst(w'.batch, id, false) == SendComesFirst(w.batch, id, false)
  {
    IdleHead(w, id);
    IdleFunctor(cfg, w, id);
    UndisturbedComesFirst(Popped(w), Step(cfg, w, RunNext(IDLE)), id);
    RunNextFrame(cfg, w, IDLE);
    RunNextKeeps(cfg, w, IDLE);
  }

  lemma IdleEnd(cfg: Config, w: World, id: nat)
    requires Inv(cfg, w, {}) && WillAccept(w, id) && w.phase == Running && w.batch == []
    ensures Legal(w, EndBatch) && WillAccept(Step(cfg, w, EndBatch), id) && Step(cfg, w, EndBatch).phase == Polling
  {
    EndKeeps(cfg, w);
    OpenConn(cfg, w, id, {});
    assert id in Refs(w.(phase := Polling, done := []));
  }

  ghost predicate Closer(w: World, w': World, id: nat) {
    || Stage(w', id) < Stage(w, id)
    || (Stage(w', id) == Stage(w, id) && |w'.batch| + |w'.active| < |w.batch| + |w.active|)
  }

  lemma IdlePoll(cfg: Config, w: World, id: nat)
    requires Inv(cfg, w, {}) && WillAccept(w, id) && w.phase == Polling
    ensures Legal(w, Poll([])) && WillAccept(Step(cfg, w, Poll([])), id) && Closer(w, Step(cfg, w, Poll([])), id)
  {
    PollIsExact(cfg, w, []);
  }

  lemma IdleSwap(cfg: Config, w: World, id: nat)
    requires Inv(cfg, w, {}) && WillAccept(w, id) && w.phase == Dispatching && w.active == []
    ensures Legal(w, Swap) && WillAccept(Step(cfg, w, Swap), id) && Closer(w, Step(cfg, w, Swap), id)
  {
    assert [] + w.pending == w.pending && w.pending + [] == w.pending;
  }

  /** One more step brings the send closer. */
  lemma IdleStep(cfg: Config, w: World, id: nat)
    requires Inv(cfg, w, {}) && WillAccept(w, id) && !AboutToAccept(w, id)
    ensures Legal(w, Next(w)) && WillAccept(Step(cfg, w, Next(w)), id) && Closer(w, Step(cfg, w, Next(w)), id)
  {
    match w.phase
    case Polling => IdlePoll(cfg, w, id);
    case Dispatching =>
      if w.active != [] {
        IdleDispatch(cfg, w, id);
      } else {
        IdleSwap(cfg, w, id);
      }
    case Running =>
      if w.batch != [] {
        IdleRunNext(cfg, w, id);
      } else {
        IdleEnd(cfg, w, id);
      }
  }

  /** The send itself: a write that would block is no fault, so the message is buffered. */
  lemma Accepts(cfg: Config, w: World, id: nat)
    requires Inv(cfg, w, {}) && WillAccept(w, id) && AboutToAccept(w, id)
    ensures var w' := Step(cfg, w, RunNext(IDLE));
      Legal(w, RunNext(IDLE)) && id in w'.conns && w'.conns[id].log == w.conns[id].log + [w.batch[0].msg]
  {
    SendAllOrNothing(cfg, id, At(Popped(w), id), w.batch[0].msg, IDLE.wrote);
  }

  lemma IdleForward(cfg: Config, w: World, e: Event, id: nat)
    requires Inv(cfg, w, {}) && Legal(w, e) && id in w.conns && id in Step(cfg, w, e).conns
    ensures Inv(cfg, Step(cfg, w, e), {}) && w.conns[id].log <= Step(cfg, w, e).conns[id].log
  {
    StepKeeps(cfg, w, e);
  }

  lemma Grows(cfg: Config, w: World, id: nat) returns (run: seq<Event>)
    requires Inv(cfg, w, {}) && WillAccept(w, id)
    ensures LegalRun(cfg, w, run) && id in Exec(cfg, w, run).conns
    ensures w.conns[id].log < Exec(cfg, w, run).conns[id].log
    decreases Stage(w, id), |w.batch| + |w.active|
  {
    if AboutToAccept(w, id) {
      Accepts(cfg, w, id);
      RunOne(cfg, w, RunNext(IDLE));
      run := [RunNext(IDLE)];
    } else {
      IdleStep(cfg, w, id);
      IdleForward(cfg, w, Next(w), id);
      var rest := Grows(cfg, Step(cfg, w, Next(w)), id);
      RunOne(cfg, w, Next(w));
      RunOn(cfg, w, [Next(w)], rest);
      run := [Next(w)] + rest;
    }
  }

  /** A send in flight, with no forced close queued, only has to be pushed. */
  lemma PushWillAccept(w: World, thread: nat, id: nat)
    requires CanAccept(w, id) && !WillAccept(w, id)
    requires thread in w.inFlight && w.inFlight[thread].conn == id
    ensures WillAccept(Land(w, thread), id) && Land(w, thread).conns == w.conns
  {
    var f := RunSend(id, w.inFlight[thread].msg);
    assert (w.batch + w.pending) + [f] == w.batch + (w.pending + [f]);
    FirstAppend(w.batch + w.pending, [f], id, false);
  }

  lemma GrowsLate(cfg: Config, w: World, id: nat) returns (run: seq<Event>)
    requires Inv(cfg, w, {}) && CanAccept(w, id)
    ensures LegalRun(cfg, w, run) && id in Exec(cfg, w, run).conns
    ensures w.conns[id].log < Exec(cfg, w, run).conns[id].log
  {
    if WillAccept(w, id) {
      run := Grows(cfg, w, id);
    } else {
      var t :| t in w.inFlight && w.inFlight[t].conn == id;
      var push := Foreign(PushFrom(t));
      var w1 := Step(cfg, w, push);
      PushWillAccept(w, t, id);
      StepKeeps(cfg, w, push);
      var rest := Grows(cfg, w1, id);
      assert ([push] + rest)[1..] == rest;
      run := [push] + rest;
    }
  }

  /**
   Exactly when a connection that has left Connected may still accept a message: it is open,
   its hang-up is not about to be dispatched, and a send is queued for it before any forced close, or
   in flight with no forced close queued. Otherwise its log is final.
   */
  lemma LaterAcceptanceExactly(cfg: Config, w: World, id: nat)
    requires Inv(cfg, w, {}) && id in w.conns && w.conns[id].state != Connected
    ensures (exists more :: LegalRun(cfg, w, more) && id in Exec(cfg, w, more).conns
                            && Exec(cfg, w, more).conns[id].log != w.conns[id].log) <==> CanAccept(w, id)
  {
    OpenOrClosed(cfg, w, id, {});
    if CanAccept(w, id) {
      var more := GrowsLate(cfg, w, id);
      assert LegalRun(cfg, w, more);
    } else {
      forall more | LegalRun(cfg, w, more) && id in Exec(cfg, w, more).conns
        ensures Exec(cfg, w, more).conns[id].log == w.conns[id].log
      {
        LogIsFinal(cfg, w, more, id);
      }
    }
  }

  lemma NothingLeft(taken: seq<byte>, taken': seq<byte>, out': seq<byte>)
    requires taken <= taken' && taken' + out' == taken
    ensures taken' == taken && out' == []
  {
    assert |taken' + out'| == |taken|;
  }

  /** With nothing buffered, a connection that can accept nothing more has its last byte on the wire. */
  lemma StreamIsFinal(cfg: Config, w: World, more: seq<Event>, id: nat)
    requires Inv(cfg, w, {}) && id in w.conns && w.conns[id].state != Connected && !CanAccept(w, id)
    requires w.conns[id].out == [] && LegalRun(cfg, w, more) && id in Exec(cfg, w, more).conns
    ensures var c, c' := w.conns[id], Exec(cfg, w, more).conns[id];
      c'.log == c.log && c'.taken == c.taken == Flatten(c.log) && c'.out == []
  {
    var w' := Exec(cfg, w, more);
    LogIsFinal(cfg, w, more, id);
    RunKeeps(cfg, w, more);
    assert Good(cfg, w, {}, id) && Good(cfg, w', {}, id);
    assert w.conns[id].taken + [] == w.conns[id].taken;
    NothingLeft(w.conns[id].taken, w'.conns[id].taken, w'.conns[id].out);
  }

  // -------------------------------------------------------------------------------------------
  // Accepted and never sent

  /**
   A send that runs after its socket was shut for writing: whatever the write would have done, EPIPE is
   no fault, so the message is accepted and buffered. No byte of it leaves, then or ever, and with
   line 140 corrected write interest stays on until the connection closes.
   */
  lemma StuckMessage(cfg: Config, w: World, id: nat, io: Io)
    requires Inv(cfg, w, {}) && AboutToAccept(w, id) && id in w.conns && IsOpen(w.conns[id].state)
    requires w.conns[id].halfCloses != []
    ensures var w', m := Step(cfg, w, RunNext(io)), w.batch[0].msg;
      && Legal(w, RunNext(io)) && id in w'.conns
      && w'.conns[id].log == w.conns[id].log + [m] && w'.conns[id].out == w.conns[id].out + m.data
      && w'.conns[id].taken == w.conns[id].taken && w'.conns[id].halfCloses == w.conns[id].halfCloses
      && (cfg.enableWhen == WhileNotWriting && m.data != [] ==> IsWriting(w'.conns[id].chan.events))
  {
    assert Good(cfg, w, {}, id);
    StuckValue(cfg, id, At(Popped(w), id), w.batch[0].msg, io.wrote);
  }

  lemma StuckWrite(cfg: Config, id: nat, v: View, m: Msg, wr: WriteResult)
    requires v.conn.halfCloses != []
    ensures DirectWrite(v.conn, |m.data|, wr) == (0, false) && AfterWrite(cfg, id, v, m, wr) == v
  {
    assert m.data[..0] == [] && v.conn.taken + [] == v.conn.taken;
  }

  lemma StuckValue(cfg: Config, id: nat, v: View, m: Msg, wr: WriteResult)
    requires IsOpen(v.conn.state) && v.conn.halfCloses != []
    ensures var c := SendInLoop(cfg, id, v, m, wr).conn;
      && c.log == v.conn.log + [m] && c.out == v.conn.out + m.data
      && c.taken == v.conn.taken && c.halfCloses == v.conn.halfCloses
      && (cfg.enableWhen == WhileNotWriting && m.data != [] ==> IsWriting(c.chan.events))
  {
    StuckWrite(cfg, id, v, m, wr);
    AcceptMoves(cfg, id, v, m, m.data[0..]);
    assert m.data[0..] == m.data;
  }

  /** In no continuation is it otherwise: accepted bytes beyond what the socket has taken stay buffered. */
  lemma StuckForever(cfg: Config, w: World, id: nat, io: Io, more: seq<Event>)
    requires Inv(cfg, w, {}) && AboutToAccept(w, id) && id in w.conns && IsOpen(w.conns[id].state)
    requires w.conns[id].halfCloses != [] && Legal(w, RunNext(io))
    requires LegalRun(cfg, Step(cfg, w, RunNext(io)), more) && id in Exec(cfg, Step(cfg, w, RunNext(io)), more).conns
    ensures var c := Exec(cfg, Step(cfg, w, RunNext(io)), more).conns[id];
      && w.conns[id].log + [w.batch[0].msg] <= c.log
      && c.taken == w.conns[id].taken && c.taken + c.out == Flatten(c.log)
  {
    var w1 := Step(cfg, w, RunNext(io));
    StuckMessage(cfg, w, id, io);
    StepKeeps(cfg, w, RunNext(io));
    TakenIsFinal(cfg, w1, more, id);
    RunKeeps(cfg, w1, more);
    assert Good(cfg, Exec(cfg, w1, more), {}, id);
  }

  // -------------------------------------------------------------------------------------------
  // A run from the start that shows it

  /** A connection is accepted, another thread begins a send on it, and a client queues a functor. */
  function Prelude(data: seq<byte>): seq<Event> {
    [Poll([ListenerReport])] + [Dispatch(IDLE.(accepted := 0))] + [Foreign(TestFrom(0, 1, data))] + [Foreign(Post)] + [Swap]
  }

  /** The functor shuts the connection down, then the thread pushes, and the next batch runs the send. */
  function LateSend(): seq<Event> {
    ([RunNext(IDLE.(onRead := [HalfClose(1)]))] + [Foreign(PushFrom(0))]) + ([EndBatch] + [Poll([])] + [Swap])
  }

  /** The first connection, as newConnection leaves it. */
  lemma FirstConnection(cfg: Config, w: World)
    requires Inv(cfg, w, {}) && w == Init({}).(phase := Dispatching)
    ensures var w' := NewConnection(cfg, w, 0, []);
      && w'.phase == Dispatching && w'.active == [] && w'.pending == [] && w'.clock == 0 && w'.inFlight == map[]
      && 1 in w'.conns && w'.conns[1] == FRESH
  {
    AdmitOverwritesNothing(cfg, w, 0);
    assert NONE + READ == READ;
  }

  const FRESH := Conn(Chan(0, READ, Added), Connected, [], [], [], [], 0)

  lemma PollListener(cfg: Config, w: World)
    requires Inv(cfg, w, {}) && w.phase == Polling
    ensures Legal(w, Poll([ListenerReport]))
    ensures Step(cfg, w, Poll([ListenerReport])) == w.(phase := Dispatching, active := [ListenerReady])
    ensures Inv(cfg, w.(phase := Dispatching), {})
  {
    PollIsExact(cfg, w, [ListenerReport]);
    assert Filled(w.poller, [ListenerReport])[0] == ListenerReady;
    assert w.active == [];
    PhaseIrrelevant(cfg, w, w.(phase := Dispatching));
  }

  lemma AcceptFirst(cfg: Config)
    requires |cfg.ipPort| <= 51
    ensures var accept := [Poll([ListenerReport])] + [Dispatch(IDLE.(accepted := 0))];
      && LegalRun(cfg, Init({}), accept)
      && var w := Exec(cfg, Init({}), accept);
      && w.phase == Dispatching && w.active == [] && w.pending == [] && w.clock == 0 && w.inFlight == map[]
      && 1 in w.conns && w.conns[1] == FRESH
  {
    var w0, poll, accept := Init({}), Poll([ListenerReport]), Dispatch(IDLE.(accepted := 0));
    InitHolds(cfg, {});
    PollListener(cfg, w0);
    var w1 := w0.(phase := Dispatching);
    FirstConnection(cfg, w1);
    assert Step(cfg, Step(cfg, w0, poll), accept) == NewConnection(cfg, w1, 0, []);
    RunOne(cfg, w0, poll);
    RunThen(cfg, w0, [poll], accept);
  }

  lemma PreludeRuns(cfg: Config, data: seq<byte>)
    requires |cfg.ipPort| <= 51
    ensures Runs(cfg, {}, Prelude(data))
    ensures var w := Exec(cfg, Init({}), Prelude(data));
      && w.phase == Running && w.batch == [Client] && w.pending == [] && w.inFlight == map[0 := Flight(1, Msg(1, 0, data))]
      && 1 in w.conns && w.conns[1] == FRESH
  {
    var w0, run := Init({}), [Poll([ListenerReport])] + [Dispatch(IDLE.(accepted := 0))];
    AcceptFirst(cfg);
    RunThen(cfg, w0, run, Foreign(TestFrom(0, 1, data)));
    var run1 := run + [Foreign(TestFrom(0, 1, data))];
    assert Exec(cfg, w0, run1).inFlight == map[0 := Flight(1, Msg(1, 0, data))];
    RunThen(cfg, w0, run1, Foreign(Post));
    var run2 := run1 + [Foreign(Post)];
    assert Exec(cfg, w0, run2).pending == [Client];
    RunThen(cfg, w0, run2, Swap);
  }

  const SHUT := FRESH.(state := Disconnecting, halfCloses := [0])

  lemma RunsCallback(cfg: Config, w: World, a: Action)
    requires w.batch != [] && w.batch[0] == Client
    ensures Step(cfg, w, RunNext(IDLE.(onRead := [a]))) == Act(cfg, Popped(w), a)
  {
    var w1 := Act(cfg, Popped(w), a);
    assert [a][1..] == [] && Acts(cfg, w1, []) == w1;
    assert Acts(cfg, Popped(w), [a]) == w1;
  }

  /** With both guards corrected, a connection with nothing buffered is shut for writing at once. */
  lemma ShutsAtOnce(cfg: Config, w: World)
    requires cfg.enableWhen == WhileNotWriting && cfg.halfCloseWhen == WhileNotWriting
    requires w.batch == [Client] && 1 in w.conns && w.conns[1] == FRESH
    ensures var w' := Step(cfg, w, RunNext(IDLE.(onRead := [HalfClose(1)])));
      w' == Popped(w).(conns := w.conns[1 := SHUT])
  {
    RunsCallback(cfg, w, HalfClose(1));
    assert !IsWriting(READ) && FRESH.halfCloses + [0] == [0];
    assert Act(cfg, Popped(w), HalfClose(1)) == Put(Popped(w), 1, Shutdown(cfg, At(Popped(w), 1)));
  }

  lemma EndsOpen(cfg: Config, w: World)
    requires Inv(cfg, w, {}) && w.phase == Running && w.batch == [] && 1 in w.conns && w.conns[1] == SHUT
    ensures var w' := Step(cfg, w, EndBatch);
      Legal(w, EndBatch) && w'.phase == Polling && w'.active == [] && w'.pending == w.pending && 1 in w'.conns && w'.conns[1] == SHUT
  {
    EndKeeps(cfg, w);
    OpenConn(cfg, w, 1, {});
    assert 1 in Refs(w.(phase := Polling, done := []));
  }

  /** From an idle poll with one functor queued to the batch that runs it. */
  lemma PollSwap(cfg: Config, w: World)
    requires Inv(cfg, w, {}) && w.phase == Polling
    ensures Legal(w, Poll([])) && Legal(Step(cfg, w, Poll([])), Swap)
    ensures var w' := Step(cfg, Step(cfg, w, Poll([])), Swap);
      w' == w.(phase := Running, batch := w.pending, pending := [])
  {
    PollIsExact(cfg, w, []);
  }

  lemma ShutThenPush(cfg: Config, w: World, m: Msg)
    requires cfg.enableWhen == WhileNotWriting && cfg.halfCloseWhen == WhileNotWriting
    requires w.phase == Running && w.batch == [Client] && w.pending == []
    requires w.inFlight == map[0 := Flight(1, m)] && 1 in w.conns && w.conns[1] == FRESH
    ensures var run := [RunNext(IDLE.(onRead := [HalfClose(1)]))] + [Foreign(PushFrom(0))];
      && LegalRun(cfg, w, run)
      && var w' := Exec(cfg, w, run);
      w'.phase == Running && w'.batch == [] && w'.pending == [RunSend(1, m)] && 1 in w'.conns && w'.conns[1] == SHUT
  {
    var shut, push := RunNext(IDLE.(onRead := [HalfClose(1)])), Foreign(PushFrom(0));
    RunOne(cfg, w, shut);
    ShutsAtOnce(cfg, w);
    RunThen(cfg, w, [shut], push);
  }

  lemma EndThenSwap(cfg: Config, w: World)
    requires Inv(cfg, w, {}) && w.phase == Running && w.batch == [] && 1 in w.conns && w.conns[1] == SHUT
    ensures var run := [EndBatch] + [Poll([])] + [Swap];
      && LegalRun(cfg, w, run)
      && var w' := Exec(cfg, w, run);
      w'.phase == Running && w'.batch == w.pending && 1 in w'.conns && w'.conns[1] == SHUT
  {
    EndsOpen(cfg, w);
    StepKeeps(cfg, w, EndBatch);
    var w1 := Step(cfg, w, EndBatch);
    PollSwap(cfg, w1);
    RunOne(cfg, w, EndBatch);
    RunThen(cfg, w, [EndBatch], Poll([]));
    RunThen(cfg, w, [EndBatch] + [Poll([])], Swap);
  }

  lemma LateSendRuns(cfg: Config, w: World, m: Msg)
    requires cfg.enableWhen == WhileNotWriting && cfg.halfCloseWhen == WhileNotWriting
    requires Inv(cfg, w, {}) && w.phase == Running && w.batch == [Client] && w.pending == []
    requires w.inFlight == map[0 := Flight(1, m)] && 1 in w.conns && w.conns[1] == FRESH
    ensures LegalRun(cfg, w, LateSend())
    ensures var w' := Exec(cfg, w, LateSend());
      w'.phase == Running && w'.batch == [RunSend(1, m)] && 1 in w'.conns && w'.conns[1] == SHUT
  {
    var front, back := [RunNext(IDLE.(onRead := [HalfClose(1)]))] + [Foreign(PushFrom(0))], [EndBatch] + [Poll([])] + [Swap];
    ShutThenPush(cfg, w, m);
    RunKeeps(cfg, w, front);
    EndThenSwap(cfg, Exec(cfg, w, front));
    RunOn(cfg, w, front, back);
  }

  lemma {:induction false} FlattenPrefix(m: Msg, log: seq<Msg>)
    requires [m] <= log
    ensures m.data <= Flatten(log)
    decreases |log|
  {
    if |log| == 1 {
      assert log == [m] && Flatten([m][..0]) + m.data == m.data;
    } else {
      FlattenPrefix(m, log[..|log| - 1]);
    }
  }

  lemma LostMessage(cfg: Config, w: World, m: Msg, io: Io, more: seq<Event>)
    requires Inv(cfg, w, {}) && w.phase == Running && w.batch == [RunSend(1, m)] && 1 in w.conns && w.conns[1] == SHUT
    requires LegalRun(cfg, Step(cfg, w, RunNext(io)), more) && 1 in Exec(cfg, Step(cfg, w, RunNext(io)), more).conns
    ensures var c := Exec(cfg, Step(cfg, w, RunNext(io)), more).conns[1];
      [m] <= c.log && c.taken == [] && m.data <= c.out
  {
    StuckForever(cfg, w, 1, io, more);
    var c := Exec(cfg, Step(cfg, w, RunNext(io)), more).conns[1];
    assert [] + [m] == [m] && c.taken + c.out == c.out;
    FlattenPrefix(m, c.log);
  }

  /**
   A run from the start, both guards corrected, in which a message is accepted after its connection was
   shut for writing with nothing unsent: it was in flight at the shutdown. However the run goes
   on, the socket never takes a byte.
   */
  lemma MessageIsLost(cfg: Config, data: seq<byte>)
    requires cfg.enableWhen == WhileNotWriting && cfg.halfCloseWhen == WhileNotWriting && |cfg.ipPort| <= 51
    ensures Runs(cfg, {}, Prelude(data) + LateSend())
    ensures var w := Exec(cfg, Init({}), Prelude(data) + LateSend());
      && 1 in w.conns && w.conns[1] == SHUT && w.batch == [RunSend(1, Msg(1, 0, data))]
      && (forall io :: Legal(w, RunNext(io)))
      && forall io, more :: LegalRun(cfg, Step(cfg, w, RunNext(io)), more) && 1 in Exec(cfg, Step(cfg, w, RunNext(io)), more).conns ==>
           var c := Exec(cfg, Step(cfg, w, RunNext(io)), more).conns[1];
           [Msg(1, 0, data)] <= c.log && c.taken == [] && data <= c.out
  {
    var w0, m := Init({}), Msg(1, 0, data);
    PreludeRuns(cfg, data);
    Reached(cfg, {}, Prelude(data));
    LateSendRuns(cfg, Exec(cfg, w0, Prelude(data)), m);
    RunOn(cfg, w0, Prelude(data), LateSend());
    var w := Exec(cfg, w0, Prelude(data) + LateSend());
    Reached(cfg, {}, Prelude(data) + LateSend());
    forall io, more | LegalRun(cfg, Step(cfg, w, RunNext(io)), more) && 1 in Exec(cfg, Step(cfg, w, RunNext(io)), more).conns
      ensures var c := Exec(cfg, Step(cfg, w, RunNext(io)), more).conns[1];
        [m] <= c.log && c.taken == [] && data <= c.out
    {
      LostMessage(cfg, w, m, io, more);
    }
  }
}
