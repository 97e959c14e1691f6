/**
 One connection's handlers, on values: the part of a TcpConnection the reactor depends on,
 together with the poller and the pending queue its loop owns.

 A system call's outcome is an argument: `Took(n)` stands for a write that returned
 min(n, length) and `Failed(errno)` for one that returned -1. User callbacks are not run
 here: each function stops where the source calls one, and Reactor.dfy goes on from there.
 */
module ConnectionSpec {
  import opened Bytes
  import opened Events
  import opened PollerSpec

  datatype State = Connecting | Connected | Disconnecting | Disconnected

  /** A message one `send` call passed, with the calling thread and a global order of calls. */
  datatype Msg = Msg(sender: nat, ticket: nat, data: seq<byte>)

  datatype Functor =
    | RunSend(conn: nat, msg: Msg)              // sendInLoop, queued by another thread
    | RunForceClose(conn: nat)                  // forceCloseInLoop
    | RunDestroy(conn: nat)                     // connectDestroyed
    | WriteComplete(conn: nat)                  // m_writeCompleteCallback
    | HighWater(conn: nat, size: nat)           // m_highWateMarkCallback
    | Client                                    // anything else a client queues

  datatype Errno = WouldBlock | BrokenPipe | ConnReset | OtherError

  datatype WriteResult = Took(n: nat) | Failed(errno: Errno)

  /** Two guards read inverted in the source; each is a parameter here. */
  datatype Guard = WhileWriting | WhileNotWriting

  predicate Holds(g: Guard, writing: bool) {
    g.WhileWriting? == writing
  }

  /**
   enableWhen is the guard of tcpconnection.cpp:140, halfCloseWhen that of
   tcpconnection.cpp:161. The source has WhileWriting in both places.
   */
  datatype Config = Config(
    enableWhen: Guard, halfCloseWhen: Guard,
    hasWriteComplete: bool, hasHighWater: bool, highWaterMark: nat,
    serverName: string, ipPort: string)

  /**
   out is m_outputBuffer's readable bytes. The last four fields are history: the bytes
   the socket took, the messages accepted, how much was still buffered at each shutdownWrite,
   and how often handleClose ran.
   */
  datatype Conn = Conn(
    chan: Chan, state: State, out: seq<byte>,
    taken: seq<byte>, log: seq<Msg>, halfCloses: seq<nat>, closes: nat)

  /** A connection with what it shares with the others of its loop. */
  datatype View = View(conn: Conn, poller: Poller, pending: seq<Functor>) {

    function Queue(f: Functor): View {
      this.(pending := pending + [f])
    }

    function Events(id: nat, events: Mask): (w: View)
      ensures w.conn == conn.(chan := w.conn.chan) && w.pending == pending
      ensures w.conn.chan.fd == conn.chan.fd && w.conn.chan.events == events
      ensures poller.faults <= w.poller.faults
    {
      var (p, ch) := SetEvents(poller, id, conn.chan, events);
      View(conn.(chan := ch), p, pending)
    }
  }

  predicate IsOpen(s: State) {
    s.Connected? || s.Disconnecting?
  }

  function Rank(s: State): nat {
    match s
    case Connecting => 0
    case Connected => 1
    case Disconnecting => 2
    case Disconnected => 3
  }

  /** The stream a list of messages denotes. */
  function Flatten(log: seq<Msg>): seq<byte> {
    if log == [] then [] else Flatten(log[..|log| - 1]) + log[|log| - 1].data
  }

  predicate IsFault(errno: Errno) {
    errno != WouldBlock && (errno != BrokenPipe || errno == ConnReset)
  }

  /** After shutdown(2) for writing every write(2) fails with EPIPE, whatever the socket would have taken. */
  function Outcome(c: Conn, wr: WriteResult): WriteResult {
    if c.halfCloses != [] then Failed(BrokenPipe) else wr
  }

  /** What the direct write of sendInLoop moves: bytes written, and whether it was a fault. */
  function DirectWrite(c: Conn, len: nat, wr: WriteResult): (nat, bool) {
    if IsWriting(c.chan.events) || c.out != [] then
      (0, false)
    else match Outcome(c, wr)
      case Took(n) => (Min(n, len), false)
      case Failed(errno) => (0, IsFault(errno))
  }

  /** The write of sendInLoop, if it is made, and the write-complete notice if it took everything. */
  function AfterWrite(cfg: Config, id: nat, v: View, m: Msg, wr: WriteResult): View {
    var direct := !IsWriting(v.conn.chan.events) && v.conn.out == [];
    var nwrote := DirectWrite(v.conn, |m.data|, wr).0;
    var v1 := v.(conn := v.conn.(taken := v.conn.taken + m.data[..nwrote]));
    if direct && Outcome(v.conn, wr).Took? && nwrote == |m.data| && cfg.hasWriteComplete then v1.Queue(WriteComplete(id)) else v1
  }

  /** The rest of an accepted message is buffered; then the guard of line 140 decides. */
  function Accept(cfg: Config, id: nat, v: View, m: Msg, rest: seq<byte>): View {
    var size := |v.conn.out| + |rest|;
    var v1 := if rest != [] && size >= cfg.highWaterMark && cfg.hasHighWater then v.Queue(HighWater(id, size)) else v;
    var v2 := v1.(conn := v1.conn.(out := v1.conn.out + rest, log := v1.conn.log + [m]));
    if rest != [] && Holds(cfg.enableWhen, IsWriting(v2.conn.chan.events)) then
      v2.Events(id, v2.conn.chan.events + WRITE)
    else v2
  }

  function SendInLoop(cfg: Config, id: nat, v: View, m: Msg, wr: WriteResult): View {
    if v.conn.state == Disconnected then v
    else
      var (nwrote, fault) := DirectWrite(v.conn, |m.data|, wr);
      var v1 := AfterWrite(cfg, id, v, m, wr);
      if fault then v1 else Accept(cfg, id, v1, m, m.data[nwrote..])
  }

  function ShutdownInLoop(cfg: Config, v: View): View {
    if Holds(cfg.halfCloseWhen, IsWriting(v.conn.chan.events)) then
      v.(conn := v.conn.(halfCloses := v.conn.halfCloses + [|v.conn.out|]))
    else v
  }

  function Shutdown(cfg: Config, v: View): View {
    if v.conn.state == Connected then
      ShutdownInLoop(cfg, v.(conn := v.conn.(state := Disconnecting)))
    else v
  }

  function ForceClose(id: nat, v: View): View {
    if IsOpen(v.conn.state) then
      v.(conn := v.conn.(state := Disconnecting)).Queue(RunForceClose(id))
    else v
  }

  /** What handleWrite does once the socket has taken everything. */
  function Drained(cfg: Config, id: nat, v: View): View {
    var v1 := v.Events(id, v.conn.chan.events - WRITE);
    var v2 := if cfg.hasWriteComplete then v1.Queue(WriteComplete(id)) else v1;
    if v2.conn.state == Disconnecting then ShutdownInLoop(cfg, v2) else v2
  }

  function HandleWrite(cfg: Config, id: nat, v: View, wr: WriteResult): View {
    if !IsWriting(v.conn.chan.events) || Outcome(v.conn, wr).Failed? then v
    else
      var n := Min(wr.n, |v.conn.out|);
      if n == 0 then v
      else
        var v1 := v.(conn := v.conn.(out := v.conn.out[n..], taken := v.conn.taken + v.conn.out[..n]));
        if v1.conn.out != [] then v1 else Drained(cfg, id, v1)
  }

  /** handleClose up to the connection callback. */
  function BeginClose(id: nat, v: View): View {
    var v1 := v.(poller := v.poller.Check(IsOpen(v.conn.state), CloseOpen),
                 conn := v.conn.(state := Disconnected, closes := v.conn.closes + 1));
    v1.Events(id, NONE)
  }

  /** connectEstablished up to the connection callback. */
  function Establish(id: nat, v: View): View {
    var v1 := v.(poller := v.poller.Check(v.conn.state == Connecting, EstablishFresh),
                 conn := v.conn.(state := Connected));
    v1.Events(id, v1.conn.chan.events + READ)
  }

  /** connectDestroyed up to its connection callback; it only calls one if still connected. */
  function BeginDestroy(id: nat, v: View): View {
    if v.conn.state == Connected then v.(conn := v.conn.(state := Disconnected)).Events(id, NONE) else v
  }

  /** The rest of connectDestroyed: the channel leaves the poller. */
  function FinishDestroy(id: nat, v: View): View {
    var (p, ch) := RemoveChannel(v.poller, id, v.conn.chan);
    View(v.conn.(chan := ch), p, v.pending)
  }

  // -------------------------------------------------------------------------------------------
  // A callback that acts on its own connection

  datatype OwnAction = OwnSend(msg: Msg, wr: WriteResult) | OwnShutdown | OwnForceClose

  function ActOn(cfg: Config, id: nat, v: View, a: OwnAction): View {
    match a
    case OwnSend(m, wr) => if v.conn.state == Connected then SendInLoop(cfg, id, v, m, wr) else v
    case OwnShutdown => Shutdown(cfg, v)
    case OwnForceClose => ForceClose(id, v)
  }

  function ActAllOn(cfg: Config, id: nat, v: View, script: seq<OwnAction>): View
    decreases |script|
  {
    if script == [] then v else ActAllOn(cfg, id, ActOn(cfg, id, v, script[0]), script[1..])
  }

  /** connectDestroyed as a whole: only a connection that is still connected gets its callback. */
  function Destroy(cfg: Config, id: nat, v: View, callback: seq<OwnAction>): View {
    var v1 := BeginDestroy(id, v);
    FinishDestroy(id, if v.conn.state == Connected then ActAllOn(cfg, id, v1, callback) else v1)
  }

  /** On a closed connection a callback can do nothing. */
  lemma {:induction false} ClosedIgnoresActions(cfg: Config, id: nat, v: View, script: seq<OwnAction>)
    requires v.conn.state == Disconnected
    ensures ActAllOn(cfg, id, v, script) == v
    decreases |script|
  {
    if script != [] {
      ClosedIgnoresActions(cfg, id, v, script[1..]);
    }
  }

  // -------------------------------------------------------------------------------------------
  // What every handler keeps

  /** Bytes taken by the socket, then those buffered, are the accepted messages in order. */
  ghost predicate StreamOk(c: Conn) {
    c.taken + c.out == Flatten(c.log)
  }

  /** When write interest is on, for either reading of the guard at line 140. */
  ghost predicate InterestOk(cfg: Config, c: Conn) {
    if cfg.enableWhen == WhileNotWriting then
      c.state != Disconnected ==> (IsWriting(c.chan.events) <==> c.out != [])
    else
      !IsWriting(c.chan.events)
  }

  /**
   A connection is shut for writing at most once, after it has left Connected, and what was unsent
   then still is. How much that was depends on the readings of the two guards.
   */
  ghost predicate HalfCloseOk(cfg: Config, c: Conn) {
    && |c.halfCloses| <= (if Rank(c.state) >= Rank(Disconnecting) then 1 else 0)
    && (forall n :: n in c.halfCloses ==> n <= |c.out|)
    && match (cfg.enableWhen, cfg.halfCloseWhen)
    case (WhileNotWriting, WhileNotWriting) => forall n :: n in c.halfCloses ==> n == 0
    case (WhileNotWriting, WhileWriting) => forall n :: n in c.halfCloses ==> n > 0
    case (WhileWriting, WhileWriting) => c.halfCloses == []
    case (WhileWriting, WhileNotWriting) => true
  }

  ghost predicate HistoryOk(cfg: Config, c: Conn) {
    StreamOk(c) && InterestOk(cfg, c) && HalfCloseOk(cfg, c)
  }

  /** An open connection is registered for reading at least, and for nothing but reading and writing. */
  ghost predicate OpenOk(id: nat, c: Conn, p: Poller) {
    && IsOpen(c.state) && Agrees(id, c.chan, p)
    && c.chan.index == Added && READ <= c.chan.events <= READ + WRITE
    && c.closes == 0
  }

  /** What a handler that does not close may do to the rest of the loop. */
  ghost predicate Local(id: nat, v: View, w: View) {
    && w.conn.chan.fd == v.conn.chan.fd
    && SameElsewhere(v.poller, w.poller, v.conn.chan.fd)
    && Queued(id, v.pending, w.pending)
  }

  /** The functors a handler of `id` may queue: neither a send nor a destruction, and about `id`. */
  predicate Harmless(id: nat, f: Functor) {
    (f.WriteComplete? || f.RunForceClose? || f.HighWater?) && f.conn == id
  }

  ghost predicate Queued(id: nat, q: seq<Functor>, r: seq<Functor>) {
    q <= r && forall i :: |q| <= i < |r| ==> Harmless(id, r[i])
  }

  /** State only moves forward and history only grows. */
  ghost predicate ConnForward(cfg: Config, c: Conn, d: Conn) {
    && Rank(c.state) <= Rank(d.state) && c.chan.fd == d.chan.fd
    && c.taken <= d.taken && c.log <= d.log && c.halfCloses <= d.halfCloses
    // once it is shut for writing, the socket takes nothing more
    && (c.halfCloses != [] ==> d.taken == c.taken)
    // read literally, line 140 never turns write interest on: what is buffered stays buffered
    && (cfg.enableWhen == WhileWriting && c.out != [] ==> d.taken == c.taken && c.out <= d.out)
  }

  /** v is an open connection in good order, w what a handler made of it. */
  ghost predicate Keeps(cfg: Config, id: nat, v: View, w: View) {
    && Local(id, v, w) && HistoryOk(cfg, w.conn)
    && OpenOk(id, w.conn, w.poller)
    && ConnForward(cfg, v.conn, w.conn)
  }

  lemma FlattenAppend(log: seq<Msg>, m: Msg)
    ensures Flatten(log + [m]) == Flatten(log) + m.data
  {
    assert (log + [m])[..|log|] == log;
  }

  lemma QueuedTransitive(id: nat, p: seq<Functor>, q: seq<Functor>, r: seq<Functor>)
    requires Queued(id, p, q) && Queued(id, q, r)
    ensures Queued(id, p, r)
  {
    assert forall i :: |p| <= i < |q| ==> r[i] == q[i];
  }

  lemma AfterWriteMoves(cfg: Config, id: nat, v: View, m: Msg, wr: WriteResult)
    ensures var w := AfterWrite(cfg, id, v, m, wr);
      && w.conn == v.conn.(taken := v.conn.taken + m.data[..DirectWrite(v.conn, |m.data|, wr).0])
      && Queued(id, v.pending, w.pending) && w.poller == v.poller
  {
  }

  lemma AcceptMoves(cfg: Config, id: nat, v: View, m: Msg, rest: seq<byte>)
    ensures var w := Accept(cfg, id, v, m, rest);
      && w.conn == v.conn.(chan := w.conn.chan, out := v.conn.out + rest, log := v.conn.log + [m])
      && w.conn.chan.fd == v.conn.chan.fd
      && (IsWriting(w.conn.chan.events) <==>
            IsWriting(v.conn.chan.events) || (cfg.enableWhen == WhileNotWriting && rest != []))
      && Queued(id, v.pending, w.pending)
  {
  }

  /**
   A message is dropped if the connection is closed, or if it is to be written at once, nothing being
   buffered and write interest being off, and the write fails with an error other than EWOULDBLOCK and EPIPE.
   After a half-close it can only fail with EPIPE.
   */
  predicate Drops(c: Conn, wr: WriteResult) {
    || c.state == Disconnected
    || (c.out == [] && OUT !in c.chan.events && c.halfCloses == [] && wr in {Failed(ConnReset), Failed(OtherError)})
  }

  /** How many bytes of a message leave at once. */
  function SentNow(c: Conn, len: nat, wr: WriteResult): nat {
    if c.out == [] && OUT !in c.chan.events && c.halfCloses == [] && wr.Took? then Min(wr.n, len) else 0
  }

  lemma DirectWriteIs(c: Conn, len: nat, wr: WriteResult)
    requires c.state != Disconnected
    ensures DirectWrite(c, len, wr) == (SentNow(c, len, wr), Drops(c, wr))
  {
  }

  /**
   sendInLoop accepts a message whole or drops it whole: a drop leaves the stream and the mask as
   they were.
   */
  lemma SendAllOrNothing(cfg: Config, id: nat, v: View, m: Msg, wr: WriteResult)
    ensures var w := SendInLoop(cfg, id, v, m, wr);
      if Drops(v.conn, wr) then
        w.conn == v.conn && w.poller == v.poller
      else
        && w.conn.log == v.conn.log + [m]
        && w.conn.taken + w.conn.out == (v.conn.taken + v.conn.out) + m.data
        && v.conn.taken <= w.conn.taken
  {
    var (n, fault) := DirectWrite(v.conn, |m.data|, wr);
    var front, rest := m.data[..n], m.data[n..];
    AfterWriteMoves(cfg, id, v, m, wr);
    AcceptMoves(cfg, id, AfterWrite(cfg, id, v, m, wr), m, rest);
    assert front + rest == m.data && (v.conn.out == [] || front == []) && (fault ==> front == []);
    assert (v.conn.taken + front) + (v.conn.out + rest) == (v.conn.taken + v.conn.out) + (front + rest);
    assert v.conn.taken + [] == v.conn.taken;
  }

  /** What an accepted message and its write do to the history and the mask. */
  lemma SendHistory(cfg: Config, id: nat, v: View, m: Msg, wr: WriteResult)
    requires HistoryOk(cfg, v.conn)
    ensures var w := SendInLoop(cfg, id, v, m, wr);
      && HistoryOk(cfg, w.conn) && ConnForward(cfg, v.conn, w.conn) && w.conn.state == v.conn.state
  {
    SendAllOrNothing(cfg, id, v, m, wr);
    FlattenAppend(v.conn.log, m);
    SendMask(cfg, id, v, m, wr);
  }

  /** sendInLoop turns write interest on, if at all, when it leaves something buffered. */
  lemma SendMask(cfg: Config, id: nat, v: View, m: Msg, wr: WriteResult)
    ensures var w := SendInLoop(cfg, id, v, m, wr);
      && w.conn == v.conn.(chan := w.conn.chan, out := w.conn.out, taken := w.conn.taken, log := w.conn.log)
      && w.conn.chan.fd == v.conn.chan.fd
      && (IsWriting(w.conn.chan.events) <==>
            IsWriting(v.conn.chan.events) || (cfg.enableWhen == WhileNotWriting && |w.conn.out| > |v.conn.out|))
      && (cfg.enableWhen == WhileWriting && v.conn.out != [] ==> w.conn.taken == v.conn.taken && v.conn.out <= w.conn.out)
      && |w.conn.out| >= |v.conn.out|
  {
    var (n, fault) := DirectWrite(v.conn, |m.data|, wr);
    AfterWriteMoves(cfg, id, v, m, wr);
    AcceptMoves(cfg, id, AfterWrite(cfg, id, v, m, wr), m, m.data[n..]);
    assert fault || v.conn.out != [] ==> m.data[..n] == [];
    assert v.conn.taken + [] == v.conn.taken;
  }

  lemma AcceptLocal(cfg: Config, id: nat, v: View, m: Msg, rest: seq<byte>)
    requires OpenOk(id, v.conn, v.poller)
    ensures var w := Accept(cfg, id, v, m, rest);
      Local(id, v, w) && OpenOk(id, w.conn, w.poller)
  {
    SetEventsAgrees(v.poller, id, v.conn.chan, v.conn.chan.events + WRITE);
  }

  lemma SendLocal(cfg: Config, id: nat, v: View, m: Msg, wr: WriteResult)
    requires OpenOk(id, v.conn, v.poller)
    ensures var w := SendInLoop(cfg, id, v, m, wr);
      Local(id, v, w) && OpenOk(id, w.conn, w.poller)
  {
    var n, v1 := DirectWrite(v.conn, |m.data|, wr).0, AfterWrite(cfg, id, v, m, wr);
    AfterWriteMoves(cfg, id, v, m, wr);
    AcceptLocal(cfg, id, v1, m, m.data[n..]);
    QueuedTransitive(id, v.pending, v1.pending, SendInLoop(cfg, id, v, m, wr).pending);
  }

  lemma SendKeeps(cfg: Config, id: nat, v: View, m: Msg, wr: WriteResult)
    requires OpenOk(id, v.conn, v.poller) && HistoryOk(cfg, v.conn)
    ensures Keeps(cfg, id, v, SendInLoop(cfg, id, v, m, wr))
  {
    SendHistory(cfg, id, v, m, wr);
    SendLocal(cfg, id, v, m, wr);
  }

  lemma ShutdownKeeps(cfg: Config, id: nat, v: View)
    requires OpenOk(id, v.conn, v.poller) && HistoryOk(cfg, v.conn)
    ensures Keeps(cfg, id, v, Shutdown(cfg, v))
  {
  }

  lemma ForceCloseKeeps(cfg: Config, id: nat, v: View)
    requires OpenOk(id, v.conn, v.poller) && HistoryOk(cfg, v.conn)
    ensures Keeps(cfg, id, v, ForceClose(id, v))
  {
  }

  /** handleWrite moves bytes from the buffer to the socket, and only that. */
  lemma HandleWriteMoves(cfg: Config, id: nat, v: View, wr: WriteResult)
    ensures var w := HandleWrite(cfg, id, v, wr);
      && w.conn.taken + w.conn.out == v.conn.taken + v.conn.out
      && v.conn.taken <= w.conn.taken && w.conn.log == v.conn.log && w.conn.state == v.conn.state
      && (!IsWriting(v.conn.chan.events) ==> w == v)
  {
    if wr.Took? {
      var n := Min(wr.n, |v.conn.out|);
      assert v.conn.out[..n] + v.conn.out[n..] == v.conn.out;
      assert (v.conn.taken + v.conn.out[..n]) + v.conn.out[n..] == v.conn.taken + v.conn.out;
    }
  }

  lemma HandleWriteHistory(cfg: Config, id: nat, v: View, wr: WriteResult)
    requires HistoryOk(cfg, v.conn)
    ensures var w := HandleWrite(cfg, id, v, wr);
      HistoryOk(cfg, w.conn) && ConnForward(cfg, v.conn, w.conn)
  {
    HandleWriteMoves(cfg, id, v, wr);
  }

  lemma HandleWriteLocal(cfg: Config, id: nat, v: View, wr: WriteResult)
    requires OpenOk(id, v.conn, v.poller)
    ensures var w := HandleWrite(cfg, id, v, wr);
      Local(id, v, w) && OpenOk(id, w.conn, w.poller)
  {
    SetEventsAgrees(v.poller, id, v.conn.chan, v.conn.chan.events - WRITE);
  }

  lemma HandleWriteKeeps(cfg: Config, id: nat, v: View, wr: WriteResult)
    requires OpenOk(id, v.conn, v.poller) && HistoryOk(cfg, v.conn)
    ensures Keeps(cfg, id, v, HandleWrite(cfg, id, v, wr))
  {
    HandleWriteHistory(cfg, id, v, wr);
    HandleWriteLocal(cfg, id, v, wr);
  }

  /**
   What sendInLoop announces, told from its effect on an open connection: write-complete when a
   write was made and nothing is buffered after it, then high-water when it buffered something and
   the buffer has reached the mark.
   */
  lemma SendNotices(cfg: Config, id: nat, v: View, m: Msg, wr: WriteResult)
    requires v.conn.state != Disconnected
    ensures var w := SendInLoop(cfg, id, v, m, wr);
      var wrote := !IsWriting(v.conn.chan.events) && v.conn.out == [] && v.conn.halfCloses == [] && wr.Took?;
      var complete := cfg.hasWriteComplete && wrote && w.conn.out == [];
      var high := cfg.hasHighWater && |w.conn.out| > |v.conn.out| && |w.conn.out| >= cfg.highWaterMark;
      && w.pending == v.pending + (if complete then [WriteComplete(id)] else []) + (if high then [HighWater(id, |w.conn.out|)] else [])
      && (wrote ==> |w.conn.taken| == |v.conn.taken| + Min(wr.n, |m.data|))
      && (!wrote ==> w.conn.taken == v.conn.taken)
  {
    var (n, fault) := DirectWrite(v.conn, |m.data|, wr);
    AcceptMoves(cfg, id, AfterWrite(cfg, id, v, m, wr), m, m.data[n..]);
    assert n == 0 ==> m.data[..n] == [];
    assert v.conn.taken + [] == v.conn.taken;
  }

  /**
   handleWrite with write interest moves what the kernel takes, nothing once the socket is shut for
   writing; it queues a write-complete
   notice and turns write interest off exactly when that empties the buffer.
   */
  lemma HandleWriteDrains(cfg: Config, id: nat, v: View, wr: WriteResult)
    requires IsWriting(v.conn.chan.events) && v.conn.out != []
    ensures var w := HandleWrite(cfg, id, v, wr);
      && |w.conn.taken| == |v.conn.taken| + (if wr.Took? && v.conn.halfCloses == [] then Min(wr.n, |v.conn.out|) else 0)
      && w.pending == v.pending + (if cfg.hasWriteComplete && w.conn.out == [] then [WriteComplete(id)] else [])
      && (IsWriting(w.conn.chan.events) <==> w.conn.out != [])
      && w.conn.chan.events == (if w.conn.out == [] then v.conn.chan.events - WRITE else v.conn.chan.events)
  {
  }

  /** A connection that becomes writable again and again. */
  function HandleWrites(cfg: Config, id: nat, v: View, writes: seq<WriteResult>): View
    decreases |writes|
  {
    if writes == [] then v else HandleWrites(cfg, id, HandleWrite(cfg, id, v, writes[0]), writes[1..])
  }

  lemma {:induction false} NothingMoves(cfg: Config, id: nat, v: View, writes: seq<WriteResult>)
    requires !IsWriting(v.conn.chan.events) || v.conn.halfCloses != []
    ensures HandleWrites(cfg, id, v, writes) == v
    decreases |writes|
  {
    if writes != [] {
      NothingMoves(cfg, id, v, writes[1..]);
    }
  }

  /**
   With line 140 corrected, as many writes as there are buffered bytes, each taking at least
   one, put the whole accepted stream on the wire, unless the socket was shut for writing before: then,
   as with line 140 read literally, no number of writes moves a byte.
   */
  lemma {:induction false} WritesDrain(cfg: Config, id: nat, v: View, writes: seq<WriteResult>)
    requires HistoryOk(cfg, v.conn) && v.conn.state != Disconnected
    requires forall i :: 0 <= i < |writes| ==> writes[i].Took? && writes[i].n > 0
    ensures var w := HandleWrites(cfg, id, v, writes);
      && (cfg.enableWhen == WhileNotWriting && v.conn.halfCloses == [] && |writes| >= |v.conn.out| ==>
            w.conn.out == [] && w.conn.taken == Flatten(v.conn.log))
      && (cfg.enableWhen == WhileWriting || v.conn.halfCloses != [] ==> w == v)
    decreases |writes|
  {
    if !IsWriting(v.conn.chan.events) || v.conn.halfCloses != [] {
      NothingMoves(cfg, id, v, writes);
      assert v.conn.taken + [] == v.conn.taken;
    } else if writes != [] {
      var v1 := HandleWrite(cfg, id, v, writes[0]);
      HandleWriteHistory(cfg, id, v, writes[0]);
      HandleWriteMoves(cfg, id, v, writes[0]);
      HandleWriteDrains(cfg, id, v, writes[0]);
      assert |v1.conn.taken + v1.conn.out| == |v.conn.taken + v.conn.out|;
      if v1.conn.out == [] {
        NothingMoves(cfg, id, v1, writes[1..]);
        assert v1.conn.taken + [] == v1.conn.taken;
      } else {
        WritesDrain(cfg, id, v1, writes[1..]);
      }
    }
  }

  lemma BeginCloseKeeps(cfg: Config, id: nat, v: View)
    requires OpenOk(id, v.conn, v.poller) && HistoryOk(cfg, v.conn)
    ensures var w := BeginClose(id, v);
      && Local(id, v, w) && HistoryOk(cfg, w.conn)
      && Agrees(id, w.conn.chan, w.poller)
      && w.conn.state == Disconnected && w.conn.chan.index == Deleted && w.conn.chan.events == NONE
      && w.conn.closes == 1 && w.pending == v.pending && w.conn.log == v.conn.log
      && ConnForward(cfg, v.conn, w.conn)
  {
    SetEventsAgrees(v.poller, id, v.conn.chan, NONE);
  }

  lemma EstablishKeeps(cfg: Config, id: nat, v: View)
    requires v.conn.state == Connecting && v.conn.chan.events == NONE && v.conn.chan.index == New
    requires Agrees(id, v.conn.chan, v.poller) && HistoryOk(cfg, v.conn) && v.conn.closes == 0 && v.conn.out == []
    ensures Keeps(cfg, id, v, Establish(id, v)) && Establish(id, v).pending == v.pending
    ensures Establish(id, v).conn.log == v.conn.log
  {
    SetEventsAgrees(v.poller, id, v.conn.chan, READ);
  }

  // -------------------------------------------------------------------------------------------
  // Queueing by handlers, whatever state the connection is in

  lemma SendQueues(cfg: Config, id: nat, v: View, m: Msg, wr: WriteResult)
    ensures Queued(id, v.pending, SendInLoop(cfg, id, v, m, wr).pending)
    ensures var log := SendInLoop(cfg, id, v, m, wr).conn.log;
      log == v.conn.log || log == v.conn.log + [m]
  {
    var n, v1 := DirectWrite(v.conn, |m.data|, wr).0, AfterWrite(cfg, id, v, m, wr);
    AfterWriteMoves(cfg, id, v, m, wr);
    AcceptMoves(cfg, id, v1, m, m.data[n..]);
    QueuedTransitive(id, v.pending, v1.pending, Accept(cfg, id, v1, m, m.data[n..]).pending);
  }

  lemma OthersQueue(cfg: Config, id: nat, v: View, wr: WriteResult)
    ensures Queued(id, v.pending, Shutdown(cfg, v).pending) && Shutdown(cfg, v).conn.log == v.conn.log
    ensures Queued(id, v.pending, ForceClose(id, v).pending) && ForceClose(id, v).conn.log == v.conn.log
    ensures Queued(id, v.pending, HandleWrite(cfg, id, v, wr).pending) && HandleWrite(cfg, id, v, wr).conn.log == v.conn.log
    ensures BeginClose(id, v).pending == v.pending && BeginClose(id, v).conn.log == v.conn.log
    ensures FinishDestroy(id, v).pending == v.pending && FinishDestroy(id, v).conn.log == v.conn.log
    ensures BeginDestroy(id, v).pending == v.pending && BeginDestroy(id, v).conn.log == v.conn.log
    ensures Establish(id, v).pending == v.pending && Establish(id, v).conn.log == v.conn.log
  {
  }
}
