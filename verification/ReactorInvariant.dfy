/** What every step of the reactor keeps, stated, and proved for each primitive change of the world. */
module ReactorInvariant {
  import opened Events
  import opened PollerSpec
  import opened ConnectionSpec
  import opened ConnectionNames
  import opened Reactor

  // -------------------------------------------------------------------------------------------
  // The invariant

  predicate Served(cfg: Config, w: World, id: nat) {
    NameOf(cfg, id) in w.server && w.server[NameOf(cfg, id)] == id
  }

  /** connectDestroyed for `id` is queued, in what is left of the batch or for the next. */
  predicate Doomed(w: World, id: nat) {
    RunDestroy(id) in w.batch || RunDestroy(id) in w.pending
  }

  /**
   One connection. Open: registered, in the map, not doomed. Closed: out of the kernel,
   still in m_channels exactly while its connectDestroyed is outstanding; `closing` marks the
   connection whose handleClose is on the stack, between its two callbacks.
   */
  ghost predicate ConnOk(cfg: Config, id: nat, c: Conn, p: Poller, served: bool, doomed: bool, closing: bool) {
    && HistoryOk(cfg, c)
    && if IsOpen(c.state) then
         OpenOk(id, c, p) && served && !doomed && !closing
       else
         && c.state == Disconnected && Agrees(id, c.chan, p)
         && c.chan.events == NONE && c.chan.index != Added && c.closes == 1
         && (served <==> closing)
         && (c.chan.index == Deleted <==> doomed || closing)
         && !(doomed && closing)
  }

  ghost predicate Good(cfg: Config, w: World, closing: set<nat>, id: nat) {
    id in w.conns ==>
      ConnOk(cfg, id, w.conns[id], w.poller, Served(cfg, w, id), Doomed(w, id), id in closing)
  }

  ghost predicate ConnsOk(cfg: Config, w: World, closing: set<nat>) {
    forall id :: Good(cfg, w, closing, id)
  }

  ghost predicate FdsOk(w: World) {
    && (forall id :: id in w.conns ==> id < w.nextId && w.conns[id].chan.fd in w.open)
    && (forall a, b :: a in w.conns && b in w.conns && a != b ==> w.conns[a].chan.fd != w.conns[b].chan.fd)
  }

  ghost predicate PollerOk(w: World) {
    && w.poller.faults == {}
    && (forall fd :: fd in w.poller.channels ==>
          w.poller.channels[fd] in w.conns && w.conns[w.poller.channels[fd]].chan.fd == fd)
    && (forall fd :: fd in w.poller.interest ==> fd in w.poller.channels)
  }

  ghost predicate ServerOk(cfg: Config, w: World) {
    && |cfg.ipPort| <= 51
    && 1 <= w.nextId < INT_LIMIT
    && (forall name :: name in w.server ==> NameOf(cfg, w.server[name]) == name)
  }

  ghost predicate DestroyedOnce(q: seq<Functor>) {
    forall i, j :: 0 <= i < j < |q| && q[i].RunDestroy? ==> q[i] != q[j]
  }

  ghost predicate QueueOk(w: World) {
    DestroyedOnce(w.batch + w.pending)
  }

  /** What is left of the active list: distinct open connections, with bits that can be reported. */
  ghost predicate ActiveOk(w: World) {
    && (forall i :: 0 <= i < |w.active| && w.active[i].Ready? ==>
          && w.active[i].id in w.conns && IsOpen(w.conns[w.active[i].id].state)
          && w.active[i].revents <= READ + WRITE + UNASKED)
    && (forall i, j :: 0 <= i < j < |w.active| && w.active[i].Ready? && w.active[j].Ready? ==>
          w.active[i].id != w.active[j].id)
    && (w.phase != Dispatching ==> w.active == [])
    && (w.phase != Running ==> w.batch == [] && w.done == [])
  }

  /** Everything but "nothing live is unreferenced". */
  ghost predicate Core(cfg: Config, w: World, closing: set<nat>) {
    && Refs(w) <= w.conns.Keys && closing <= w.conns.Keys
    && ConnsOk(cfg, w, closing) && FdsOk(w) && PollerOk(w)
    && ServerOk(cfg, w) && QueueOk(w) && ActiveOk(w)
  }

  ghost predicate Inv(cfg: Config, w: World, closing: set<nat>) {
    Core(cfg, w, closing) && w.conns.Keys <= Refs(w)
  }

  // -------------------------------------------------------------------------------------------
  // What a step may change

  /** An open descriptor that no live connection owns. */
  ghost predicate Unowned(w: World, fd: nat) {
    fd in w.open && forall id :: id in w.conns ==> w.conns[id].chan.fd != fd
  }

  /** History only grows, state only moves forward, numbers are not used twice, no descriptor is leaked. */
  ghost predicate Forward(cfg: Config, w: World, w': World) {
    && (forall fd :: Unowned(w', fd) ==> Unowned(w, fd))
    && w.nextId <= w'.nextId
    && (forall id :: id in w'.conns ==> id in w.conns || w.nextId <= id)
    && (forall id :: id in w.conns && id in w'.conns ==> ConnForward(cfg, w.conns[id], w'.conns[id]))
  }

  /** Nothing left m_channels, and nothing registered there was destroyed. */
  ghost predicate NothingRemoved(w: World, w': World) {
    forall fd :: fd in w.poller.channels ==>
      fd in w'.poller.channels && w'.poller.channels[fd] == w.poller.channels[fd]
  }

  /** What a client callback leaves alone: the loop's own lists, the map, and who is open. */
  ghost predicate CallbackFrame(w: World, w': World) {
    && w'.active == w.active && w'.batch == w.batch && w'.done == w.done && w'.phase == w.phase
    && w'.server == w.server && w'.nextId == w.nextId && w'.open <= w.open
    && w.pending <= w'.pending
    && (forall f :: f in w'.pending && f !in w.pending ==> !f.RunDestroy?)
    && (forall id :: id in w'.conns ==> id in w.conns && (IsOpen(w.conns[id].state) <==> IsOpen(w'.conns[id].state)))
  }

  /** All a client callback may do, as its caller sees it. */
  ghost predicate Callback(cfg: Config, w: World, w': World) {
    CallbackFrame(w, w') && NothingRemoved(w, w') && Forward(cfg, w, w')
  }

  lemma CallbackReflexive(cfg: Config, w: World)
    ensures Callback(cfg, w, w)
  {
  }

  lemma FrameTransitive(a: World, b: World, c: World)
    requires CallbackFrame(a, b) && CallbackFrame(b, c)
    ensures CallbackFrame(a, c)
  {
  }

  lemma NumbersStay(cfg: Config, a: World, b: World, c: World)
    requires Forward(cfg, a, b) && Forward(cfg, b, c) && b.nextId == a.nextId
    requires forall id :: id in b.conns ==> id in a.conns
    requires forall id :: id in c.conns ==> id in b.conns
    ensures Forward(cfg, a, c)
  {
  }

  lemma CallbackTransitive(cfg: Config, a: World, b: World, c: World)
    requires Callback(cfg, a, b) && Callback(cfg, b, c)
    ensures Callback(cfg, a, c)
  {
    FrameTransitive(a, b, c);
    NumbersStay(cfg, a, b, c);
  }

  // -------------------------------------------------------------------------------------------
  // Primitive changes

  /** Harmless functors do not change who is doomed or what else the queue refers to. */
  lemma QueuedIsHarmless(id: nat, batch: seq<Functor>, q: seq<Functor>, r: seq<Functor>)
    requires Queued(id, q, r)
    ensures FunctorRefs(q) <= FunctorRefs(r) <= FunctorRefs(q) + {id}
    ensures forall d :: RunDestroy(d) in r <==> RunDestroy(d) in q
    ensures DestroyedOnce(batch + q) ==> DestroyedOnce(batch + r)
    ensures forall f :: f in r && f !in q ==> !f.RunDestroy?
  {
    assert forall i :: 0 <= i < |q| ==> r[i] == q[i];
    if DestroyedOnce(batch + q) {
      forall i, j | 0 <= i < j < |batch + r| && (batch + r)[i].RunDestroy?
        ensures (batch + r)[i] != (batch + r)[j]
      {
        var n := |batch + q|;
        assert forall k :: 0 <= k < n ==> (batch + r)[k] == (batch + q)[k];
        assert forall k :: n <= k < |batch + r| ==> (batch + r)[k] == r[k - |batch|];
      }
    }
  }

  /** A change of the world that no connection can see. */
  lemma ConnsUnmoved(cfg: Config, w: World, w': World, closing: set<nat>)
    requires ConnsOk(cfg, w, closing)
    requires w'.conns == w.conns && w'.poller == w.poller && w'.server == w.server
    requires forall id :: Doomed(w', id) == Doomed(w, id)
    ensures ConnsOk(cfg, w', closing)
  {
    forall id
      ensures Good(cfg, w', closing, id)
    {
      assert Good(cfg, w, closing, id);
    }
  }

  lemma ConnElsewhere(cfg: Config, id: nat, c: Conn, p: Poller, q: Poller, fd: nat, served: bool, doomed: bool, closing: bool)
    requires ConnOk(cfg, id, c, p, served, doomed, closing) && SameElsewhere(p, q, fd) && c.chan.fd != fd
    ensures ConnOk(cfg, id, c, q, served, doomed, closing)
  {
    AgreesElsewhere(id, c.chan, p, q, fd);
  }

  /** The connections after a change of `id` that left it in order. */
  lemma PutConns(cfg: Config, w: World, id: nat, v: View, closing: set<nat>, closing': set<nat>)
    requires ConnsOk(cfg, w, closing) && FdsOk(w) && id in w.conns
    requires Local(id, At(w, id), v)
    requires forall other :: other != id ==> (other in closing <==> other in closing')
    requires ConnOk(cfg, id, v.conn, v.poller, Served(cfg, w, id), Doomed(w, id), id in closing')
    ensures ConnsOk(cfg, Put(w, id, v), closing')
  {
    var w' := Put(w, id, v);
    QueuedIsHarmless(id, w.batch, w.pending, v.pending);
    forall other | other in w'.conns
      ensures Good(cfg, w', closing', other)
    {
      if other != id {
        assert Good(cfg, w, closing, other);
        ConnElsewhere(cfg, other, w.conns[other], w.poller, v.poller, w.conns[id].chan.fd,
                      Served(cfg, w, other), Doomed(w, other), other in closing);
      }
    }
  }

  lemma PutRest(cfg: Config, w: World, id: nat, v: View)
    requires id in w.conns && id in Refs(w)
    requires FdsOk(w) && PollerOk(w) && ServerOk(cfg, w) && QueueOk(w)
    requires Local(id, At(w, id), v)
    requires v.conn.chan.fd in v.poller.interest ==> v.conn.chan.fd in v.poller.channels
    requires v.conn.chan.fd in v.poller.channels ==> v.poller.channels[v.conn.chan.fd] == id
    ensures var w' := Put(w, id, v);
      FdsOk(w') && PollerOk(w') && ServerOk(cfg, w') && QueueOk(w') && Refs(w') == Refs(w)
  {
    QueuedIsHarmless(id, w.batch, w.pending, v.pending);
  }

  lemma PutFrame(w: World, id: nat, v: View)
    requires id in w.conns && IsOpen(w.conns[id].state) && IsOpen(v.conn.state)
    requires Queued(id, w.pending, v.pending)
    ensures ActiveOk(w) ==> ActiveOk(Put(w, id, v))
    ensures CallbackFrame(w, Put(w, id, v))
  {
    QueuedIsHarmless(id, w.batch, w.pending, v.pending);
  }

  lemma PutRemovesNothing(w: World, id: nat, v: View)
    requires id in w.conns && SameElsewhere(w.poller, v.poller, w.conns[id].chan.fd)
    requires w.poller.Knows(w.conns[id].chan.fd, id) ==> v.poller.Knows(w.conns[id].chan.fd, id)
    requires w.conns[id].chan.fd in w.poller.channels ==> w.poller.channels[w.conns[id].chan.fd] == id
    ensures NothingRemoved(w, Put(w, id, v))
  {
  }

  lemma PutOwns(w: World, id: nat, v: View)
    requires id in w.conns && v.conn.chan.fd == w.conns[id].chan.fd
    ensures forall fd :: Unowned(Put(w, id, v), fd) ==> Unowned(w, fd)
  {
    var w' := Put(w, id, v);
    forall fd | Unowned(w', fd)
      ensures Unowned(w, fd)
    {
      assert forall other :: other in w.conns ==> w'.conns[other].chan.fd == w.conns[other].chan.fd;
    }
  }

  lemma OpenConn(cfg: Config, w: World, id: nat, closing: set<nat>)
    requires Inv(cfg, w, closing) && id in w.conns && IsOpen(w.conns[id].state)
    ensures OpenOk(id, w.conns[id], w.poller) && HistoryOk(cfg, w.conns[id])
    ensures Served(cfg, w, id) && !Doomed(w, id) && id !in closing && id in Refs(w)
  {
    assert Good(cfg, w, closing, id);
  }

  /** An open connection's handler put back: the others do not notice. */
  lemma PutInv(cfg: Config, w: World, id: nat, v: View, closing: set<nat>)
    requires Inv(cfg, w, closing) && id in w.conns && IsOpen(w.conns[id].state)
    requires Keeps(cfg, id, At(w, id), v)
    ensures Inv(cfg, Put(w, id, v), closing)
  {
    OpenConn(cfg, w, id, closing);
    PutConns(cfg, w, id, v, closing, closing);
    PutRest(cfg, w, id, v);
    PutFrame(w, id, v);
  }

  lemma PutChange(cfg: Config, w: World, id: nat, v: View)
    requires id in w.conns && OpenOk(id, w.conns[id], w.poller)
    requires Keeps(cfg, id, At(w, id), v)
    ensures Callback(cfg, w, Put(w, id, v))
  {
    PutFrame(w, id, v);
    PutRemovesNothing(w, id, v);
  }

  // -------------------------------------------------------------------------------------------
  // Dropping pointers

  /** What nothing refers to was closed and had left the poller and the kernel. */
  lemma UnreferencedIsGone(cfg: Config, w: World, closing: set<nat>, id: nat)
    requires Core(cfg, w, closing) && id in w.conns && id !in Refs(w)
    ensures w.conns[id].state == Disconnected && w.conns[id].chan.index == New
    ensures w.conns[id].chan.fd !in w.poller.channels && w.conns[id].chan.fd !in w.poller.interest
    ensures id !in closing
  {
    assert Good(cfg, w, closing, id);
  }

  /** So destroying it asserts nothing false and closes no registered descriptor. */
  lemma DropIsClean(cfg: Config, w: World, closing: set<nat>)
    requires Core(cfg, w, closing)
    ensures var dead := w.conns.Keys - Refs(w);
      DropUnreferenced(w) == w.(conns := w.conns - dead, open := w.open - FdsOf(w, dead))
  {
    var dead := w.conns.Keys - Refs(w);
    forall id | id in dead
      ensures w.conns[id].state == Disconnected
      ensures w.conns[id].chan.fd !in w.poller.channels && w.conns[id].chan.fd !in w.poller.interest
    {
      UnreferencedIsGone(cfg, w, closing, id);
    }
    var fds := FdsOf(w, dead);
    assert fds * (w.poller.channels.Keys + w.poller.interest.Keys) == {};
    assert w.poller.interest - fds == w.poller.interest;
  }

  lemma DropConns(cfg: Config, w: World, closing: set<nat>)
    requires Core(cfg, w, closing)
    ensures ConnsOk(cfg, DropUnreferenced(w), closing) && closing <= DropUnreferenced(w).conns.Keys
  {
    var w' := DropUnreferenced(w);
    DropIsClean(cfg, w, closing);
    forall id | id in w'.conns
      ensures Good(cfg, w', closing, id)
    {
      assert Good(cfg, w, closing, id);
    }
    forall id | id in closing
      ensures id in w'.conns
    {
      if id !in Refs(w) {
        UnreferencedIsGone(cfg, w, closing, id);
      }
    }
  }

  lemma DropRest(cfg: Config, w: World, closing: set<nat>)
    requires Core(cfg, w, closing)
    ensures var w' := DropUnreferenced(w);
      FdsOk(w') && PollerOk(w') && ServerOk(cfg, w') && QueueOk(w') && Refs(w') == w'.conns.Keys
  {
    DropIsClean(cfg, w, closing);
    var w' := DropUnreferenced(w);
    assert w'.conns.Keys == w.conns.Keys - (w.conns.Keys - Refs(w));
    forall fd | fd in w.poller.channels
      ensures w.poller.channels[fd] in w'.conns
    {
      if w.poller.channels[fd] !in Refs(w) {
        UnreferencedIsGone(cfg, w, closing, w.poller.channels[fd]);
      }
    }
    forall id | id in w'.conns
      ensures w'.conns[id].chan.fd in w'.open
    {
      assert id in w.conns && w'.conns[id] == w.conns[id];
    }
  }

  lemma DropActive(cfg: Config, w: World, closing: set<nat>)
    requires Core(cfg, w, closing)
    ensures ActiveOk(DropUnreferenced(w))
  {
    DropIsClean(cfg, w, closing);
    forall i | 0 <= i < |w.active| && w.active[i].Ready?
      ensures w.active[i].id in Refs(w)
    {
      if w.active[i].id !in Refs(w) {
        UnreferencedIsGone(cfg, w, closing, w.active[i].id);
      }
    }
  }

  lemma DropKeeps(cfg: Config, w: World, closing: set<nat>)
    requires Core(cfg, w, closing)
    ensures Inv(cfg, DropUnreferenced(w), closing)
    ensures Callback(cfg, w, DropUnreferenced(w))
  {
    DropConns(cfg, w, closing);
    DropRest(cfg, w, closing);
    DropActive(cfg, w, closing);
    DropIsClean(cfg, w, closing);
    DropCallback(cfg, w);
  }

  /** Dropping connections that are not open is something a callback may do. */
  lemma DropCallback(cfg: Config, w: World)
    requires var dead := w.conns.Keys - Refs(w);
      DropUnreferenced(w) == w.(conns := w.conns - dead, open := w.open - FdsOf(w, dead))
    ensures Callback(cfg, w, DropUnreferenced(w))
  {
  }

  // -------------------------------------------------------------------------------------------
  // Queueing

  /** Any functor about a live connection, destruction apart, may be queued at any time. */
  lemma PushInv(cfg: Config, w: World, f: Functor, closing: set<nat>)
    requires Inv(cfg, w, closing) && !f.RunDestroy? && (f.Client? || f.conn in w.conns)
    ensures Inv(cfg, Push(w, f), closing)
  {
    PushConns(cfg, w, f, closing);
    PushRest(w, f);
  }

  lemma PushRest(w: World, f: Functor)
    requires QueueOk(w) && !f.RunDestroy? && (f.Client? || f.conn in Refs(w))
    ensures var w' := Push(w, f);
      QueueOk(w') && Refs(w') == Refs(w)
  {
    var w' := Push(w, f);
    FunctorRefsAppend(w.pending, [f]);
    assert w'.batch + w'.pending == (w.batch + w.pending) + [f];
  }

  lemma PushConns(cfg: Config, w: World, f: Functor, closing: set<nat>)
    requires ConnsOk(cfg, w, closing) && !f.RunDestroy?
    ensures ConnsOk(cfg, Push(w, f), closing)
  {
    var w' := Push(w, f);
    forall id | id in w'.conns
      ensures Good(cfg, w', closing, id)
    {
      assert Good(cfg, w, closing, id);
      assert Doomed(w', id) == Doomed(w, id);
    }
  }

  lemma FunctorRefsAppend(q: seq<Functor>, r: seq<Functor>)
    ensures FunctorRefs(q + r) == FunctorRefs(q) + FunctorRefs(r)
  {
  }
}
