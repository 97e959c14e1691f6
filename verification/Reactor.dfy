/**
 The reactor as a step system over one loop: TcpServer, its connections, the loop's
 poller and functor queue, a small kernel, and client callbacks.

 One step is one poll, the dispatch of one entry of the active list, the swap of the
 functor queue, one functor, or the end of the batch; another thread may act between
 steps. A client callback is an arbitrary finite list of actions on any live connection,
 given with the event together with the outcome of each system call.
 */
module Reactor {
  import opened Bytes
  import opened Events
  import opened PollerSpec
  import opened ConnectionSpec
  import opened ConnectionNames

  datatype Phase = Polling | Dispatching | Running

  datatype Ready = Ready(id: nat, revents: Mask) | ListenerReady

  /** A send call of another thread that has seen the connection connected and has yet to push. */
  datatype Flight = Flight(conn: nat, msg: Msg)

  /**
   conns holds the live TcpConnection objects under the number in their name, server is
   m_connections, open the kernel's open descriptors, held the connections clients keep a
   pointer to, inFlight the send calls other threads are in, by thread. active is what is left of the active list, batch what is left of the swapped
   functors, and done the functors of the batch already run, which still own their pointers.
   */
  datatype World = World(
    conns: map<nat, Conn>, poller: Poller, pending: seq<Functor>,
    server: map<string, nat>, nextId: nat,
    open: set<nat>, held: set<nat>, inFlight: map<nat, Flight>, clock: nat,
    phase: Phase, active: seq<Ready>, batch: seq<Functor>, done: seq<Functor>)

  /** Before the first poll, with the descriptors the process and the loop itself own. */
  function Init(base: set<nat>): World {
    World(map[], Poller(map[], map[], {}), [], map[], 1, base, {}, map[], 0, Polling, [], [], [])
  }

  function At(w: World, id: nat): View
    requires id in w.conns
  {
    View(w.conns[id], w.poller, w.pending)
  }

  function Put(w: World, id: nat, v: View): World {
    w.(conns := w.conns[id := v.conn], poller := v.poller, pending := v.pending)
  }

  /** queueInLoop. */
  function Push(w: World, f: Functor): World {
    w.(pending := w.pending + [f])
  }

  /** One more send call in the global order of calls. */
  function Tick(w: World): World {
    w.(clock := w.clock + 1)
  }

  function Fails(w: World, fault: Fault): World {
    w.(poller := w.poller.Fail(fault))
  }

  function NameOf(cfg: Config, id: nat): string {
    ConnName(cfg.serverName, cfg.ipPort, id)
  }

  // -------------------------------------------------------------------------------------------
  // Shared pointers: a connection lives as long as something refers to it

  function FunctorRefs(q: seq<Functor>): set<nat> {
    set f | f in q && !f.Client? :: f.conn
  }

  function FlightRefs(inFlight: map<nat, Flight>): set<nat> {
    set t | t in inFlight :: inFlight[t].conn
  }

  function Refs(w: World): set<nat> {
    w.server.Values + w.held + FlightRefs(w.inFlight) + FunctorRefs(w.pending) + FunctorRefs(w.batch) + FunctorRefs(w.done)
  }

  function FdsOf(w: World, ids: set<nat>): set<nat>
    requires ids <= w.conns.Keys
  {
    set id | id in ids :: w.conns[id].chan.fd
  }

  /** Destroy what nothing refers to: the destructor's assert, then close(fd). */
  function DropUnreferenced(w: World): World {
    var dead := w.conns.Keys - Refs(w);
    var fds := FdsOf(w, dead);
    var p := w.poller.Check(forall id :: id in dead ==> w.conns[id].state == Disconnected, DestructorClosed);
    var p' := if fds * (p.channels.Keys + p.interest.Keys) == {} then p else p.Fail(ClosedWhileRegistered);
    w.(conns := w.conns - dead, open := w.open - fds, poller := p'.(interest := p'.interest - fds))
  }

  // -------------------------------------------------------------------------------------------
  // Client actions

  datatype Action =
    | Send(conn: nat, data: seq<byte>, wr: WriteResult)
    | HalfClose(conn: nat)
    | Close(conn: nat)
    | Hold(conn: nat)
    | Release(conn: nat)
    | Post
    | TestFrom(thread: nat, conn: nat, data: seq<byte>)   // another thread calls send, up to its test of m_state
    | PushFrom(thread: nat)                               // and then pushes, under the queue's lock

  /** Actions another thread can take by itself between two steps of the loop. */
  predicate ForeignAction(a: Action) {
    a.TestFrom? || a.PushFrom? || a.Hold? || a.Release? || a.Post?
  }

  /** Another thread is in a send call; it is in one at a time. */
  function Begin(w: World, thread: nat, f: Flight): World {
    if thread in w.inFlight then w else Tick(w).(inFlight := w.inFlight[thread := f])
  }

  /** The push of a send call: its functor takes over the reference. */
  function Land(w: World, thread: nat): World {
    if thread in w.inFlight then
      var f := w.inFlight[thread];
      Push(w, RunSend(f.conn, f.msg)).(inFlight := w.inFlight - {thread})
    else w
  }

  /** A client can only act on a connection it can name, that is a live one. */
  function Act(cfg: Config, w: World, a: Action): World {
    if a.Post? then Push(w, Client)
    else if a.PushFrom? then Land(w, a.thread)
    else if a.conn !in w.conns then w
    else match a
      case Send(c, data, wr) =>
        if w.conns[c].state == Connected then
          Put(Tick(w), c, SendInLoop(cfg, c, At(w, c), Msg(0, w.clock, data), wr))
        else w
      case TestFrom(thread, c, data) =>
        if w.conns[c].state == Connected then Begin(w, thread, Flight(c, Msg(thread + 1, w.clock, data))) else w
      case HalfClose(c) => Put(w, c, Shutdown(cfg, At(w, c)))
      case Close(c) => Put(w, c, ForceClose(c, At(w, c)))
      case Hold(c) => w.(held := w.held + {c})
      case Release(c) => DropUnreferenced(w.(held := w.held - {c}))
      case PushFrom(_) => w
      case Post => w
  }

  function Acts(cfg: Config, w: World, script: seq<Action>): World
    decreases |script|
  {
    if script == [] then w else Acts(cfg, Act(cfg, w, script[0]), script[1..])
  }

  // -------------------------------------------------------------------------------------------
  // Handlers that call back

  /** removeConnection, run in the loop at once: out of the map, connectDestroyed queued. */
  function RemoveConnection(cfg: Config, w: World, id: nat): World {
    Push(w.(server := w.server - {NameOf(cfg, id)}), RunDestroy(id))
  }

  function CloseConnection(cfg: Config, w: World, id: nat, callback: seq<Action>): World {
    if id !in w.conns then Fails(w, Dangling)
    else RemoveConnection(cfg, Acts(cfg, Put(w, id, BeginClose(id, At(w, id))), callback), id)
  }

  /** n is what readFd returned; the callback is the message or the connection callback. */
  function ReadConnection(cfg: Config, w: World, id: nat, n: int, callback: seq<Action>): World {
    if id !in w.conns then Fails(w, Dangling)
    else if n > 0 then Acts(cfg, w, callback)
    else if n == 0 then CloseConnection(cfg, w, id, callback)
    else w
  }

  function WriteConnection(cfg: Config, w: World, id: nat, wr: WriteResult): World {
    if id !in w.conns then Fails(w, Dangling) else Put(w, id, HandleWrite(cfg, id, At(w, id), wr))
  }

  /** handleError only asks the socket for its error. */
  function ReadError(w: World, id: nat): World {
    if id !in w.conns then Fails(w, Dangling) else w
  }

  /** The outcomes one dispatched entry or functor may need. */
  datatype Io = Io(onHangup: seq<Action>, read: int, onRead: seq<Action>, wrote: WriteResult, accepted: int)

  /** Channel::handleEvent up to the read branch: hang-up and error. */
  function HangupBranches(cfg: Config, w: World, id: nat, revents: Mask, io: Io): World {
    var w1 := if HUP in revents && IN !in revents then CloseConnection(cfg, w, id, io.onHangup) else w;
    if ERR in revents then ReadError(w1, id) else w1
  }

  function ReadBranch(cfg: Config, w: World, id: nat, revents: Mask, io: Io): World {
    if revents * {IN, PRI, RDHUP} != {} then ReadConnection(cfg, w, id, io.read, io.onRead) else w
  }

  function WriteBranch(cfg: Config, w: World, id: nat, revents: Mask, io: Io): World {
    if OUT in revents then WriteConnection(cfg, w, id, io.wrote) else w
  }

  function HandleEvent(cfg: Config, w: World, id: nat, revents: Mask, io: Io): World {
    WriteBranch(cfg, ReadBranch(cfg, HangupBranches(cfg, w, id, revents, io), id, revents, io), id, revents, io)
  }

  /** newConnection on an accepted descriptor, up to runInLoop(connectEstablished). */
  function Admit(cfg: Config, w: World, fd: nat): World {
    var id := w.nextId;
    w.(nextId := id + 1, open := w.open + {fd},
       conns := w.conns[id := Conn(Chan(fd, NONE, New), Connecting, [], [], [], [], 0)],
       server := w.server[NameOf(cfg, id) := id])
  }

  /** Assigning the map entry may drop another connection's last pointer; then connectEstablished runs at once. */
  function NewConnection(cfg: Config, w: World, fd: nat, callback: seq<Action>): World {
    var id, w1 := w.nextId, DropUnreferenced(Admit(cfg, w, fd));
    if id !in w1.conns then Fails(w1, Dangling)
    else Acts(cfg, Put(w1, id, Establish(id, At(w1, id))), callback)
  }

  function DestroyConnection(cfg: Config, w: World, id: nat, callback: seq<Action>): World {
    if id !in w.conns then Fails(w, Dangling)
    else
      var w1 := Put(w, id, BeginDestroy(id, At(w, id)));
      var w2 := if w.conns[id].state == Connected then Acts(cfg, w1, callback) else w1;
      if id !in w2.conns then Fails(w2, Dangling) else Put(w2, id, FinishDestroy(id, At(w2, id)))
  }

  function RunFunctor(cfg: Config, w: World, f: Functor, io: Io): World {
    if f.Client? then Acts(cfg, w, io.onRead)
    else if f.conn !in w.conns then Fails(w, Dangling)
    else match f
      case RunSend(c, m) => Put(w, c, SendInLoop(cfg, c, At(w, c), m, io.wrote))
      case RunForceClose(c) => if IsOpen(w.conns[c].state) then CloseConnection(cfg, w, c, io.onRead) else w
      case RunDestroy(c) => DestroyConnection(cfg, w, c, io.onRead)
      case WriteComplete(c) => Acts(cfg, w, io.onRead)
      case HighWater(c, n) => Acts(cfg, w, io.onRead)
      case Client => w
  }

  // -------------------------------------------------------------------------------------------
  // Steps

  /** What epoll_wait hands back: a descriptor of the interest set, or the listening socket. */
  datatype Report = Report(fd: nat, revents: Mask) | ListenerReport

  datatype Event =
    | Poll(reports: seq<Report>)
    | Dispatch(io: Io)
    | Swap
    | RunNext(io: Io)
    | EndBatch
    | Foreign(action: Action)

  /** One iteration of fillActiveChannels, its lookup asserts included. */
  function Collect(w: World, report: Report): World {
    match report
    case ListenerReport => w.(active := w.active + [ListenerReady])
    case Report(fd, revents) =>
      if fd !in w.poller.interest || w.poller.interest[fd].owner !in w.conns then Fails(w, Dangling)
      else
        var id := w.poller.interest[fd].owner;
        w.(poller := w.poller.Check(w.poller.Knows(w.conns[id].chan.fd, id), ActiveKnown),
           active := w.active + [Ready(id, revents)])
  }

  function Fill(w: World, reports: seq<Report>): World {
    if reports == [] then w else Collect(Fill(w, reports[..|reports| - 1]), reports[|reports| - 1])
  }

  function Step(cfg: Config, w: World, e: Event): World
    requires e.Dispatch? ==> w.active != []
    requires e.RunNext? ==> w.batch != []
  {
    match e
    case Poll(reports) => Fill(w.(phase := Dispatching, active := []), reports)
    case Dispatch(io) =>
      var w1 := w.(active := w.active[1..]);
      (match w.active[0]
       case ListenerReady => if io.accepted < 0 then w1 else NewConnection(cfg, w1, io.accepted, io.onRead)
       case Ready(id, revents) => HandleEvent(cfg, w1, id, revents, io))
    case Swap => w.(phase := Running, batch := w.pending, pending := [])
    case RunNext(io) => RunFunctor(cfg, w.(batch := w.batch[1..], done := w.done + [w.batch[0]]), w.batch[0], io)
    case EndBatch => DropUnreferenced(w.(phase := Polling, done := []))
    case Foreign(a) => Act(cfg, w, a)
  }

  /** The one report the handlers cannot take: closed by the hang-up branch, then read as closed again. */
  predicate ClosesTwice(revents: Mask, read: int) {
    HUP in revents && IN !in revents && revents * {PRI, RDHUP} != {} && read == 0
  }

  /**
   When a step may be taken: the loop's own order of phases, and what the kernel promises.
   epoll_wait reports each descriptor once, with bits that were asked for, ERR or HUP; accept
   returns a descriptor that is not open; and no report closes twice.
   */
  ghost predicate Legal(w: World, e: Event) {
    match e
    case Poll(reports) =>
      && w.phase == Polling
      && (forall i :: 0 <= i < |reports| && reports[i].Report? ==>
            reports[i].fd in w.poller.interest && reports[i].revents <= w.poller.interest[reports[i].fd].mask + UNASKED)
      && (forall i, j :: 0 <= i < j < |reports| && reports[i].Report? && reports[j].Report? ==>
            reports[i].fd != reports[j].fd)
    case Dispatch(io) =>
      && w.phase == Dispatching && w.active != []
      && (w.active[0].ListenerReady? && io.accepted >= 0 ==> io.accepted !in w.open && w.nextId + 1 < INT_LIMIT)
      && (w.active[0].Ready? ==> !ClosesTwice(w.active[0].revents, io.read))
    case Swap => w.phase == Dispatching && w.active == []
    case RunNext(io) => w.phase == Running && w.batch != []
    case EndBatch => w.phase == Running && w.batch == []
    case Foreign(a) => ForeignAction(a)
  }

  ghost predicate LegalRun(cfg: Config, w: World, run: seq<Event>)
    decreases |run|
  {
    run == [] || (Legal(w, run[0]) && LegalRun(cfg, Step(cfg, w, run[0]), run[1..]))
  }

  ghost function Exec(cfg: Config, w: World, run: seq<Event>): World
    requires LegalRun(cfg, w, run)
    decreases |run|
  {
    if run == [] then w else Exec(cfg, Step(cfg, w, run[0]), run[1..])
  }
}
