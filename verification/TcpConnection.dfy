/**
 TcpConnection as the object it is: its state, its channel, its output buffer and its loop,
 updated in place. Each method is proved against its function in ConnectionSpec.dfy. A system
 call's outcome is an argument, and so is what a user callback does with the connection itself;
 callbacks that act on other connections are in Reactor.dfy.
 */
module TcpConnectionObject {
  import opened Bytes
  import opened Events
  import opened PollerSpec
  import opened PollerObjects
  import opened BufferObject
  import BufferSpec
  import opened EventLoopObject
  import Spec = ConnectionSpec
  import opened ConnectionSpec

  class TcpConnection {
    const cfg: Config
    const id: nat
    const loop: EventLoop
    const channel: Channel
    const input: Buffer
    const output: Buffer
    var state: ConnectionSpec.State

    ghost var taken: seq<byte>          // what the socket took
    ghost var log: seq<Msg>             // the accepted messages
    var halfCloses: seq<nat>            // the socket's: what was unsent when it was shut for writing
    ghost var closes: nat

    ghost predicate Valid()
      reads this, channel, channel.poller, input, output
    {
      && channel.id == id && channel.poller == loop.poller && channel.Registered()
      && input.Valid() && output.Valid() && input != output && input.buff != output.buff
    }

    /** Only the loop's own thread runs these methods, in a handler or in a functor. */
    ghost predicate InLoop()
      reads loop
    {
      (loop.pc.Handling? || loop.pc == Wakeup.Executing) && !loop.owesWakeup
    }

    ghost function Value(): Conn
      requires Valid()
      reads this, channel, channel.poller, input, output, output.buff
    {
      Conn(channel.View(), state, output.Contents(), taken, log, halfCloses, closes)
    }

    ghost function Here(): View
      requires Valid()
      reads this, channel, channel.poller, input, output, output.buff, loop
    {
      View(Value(), channel.poller.View(), loop.pending)
    }

    constructor (cfg: Config, id: nat, fd: nat, loop: EventLoop)
      requires fd !in loop.poller.channels && fd !in loop.poller.interest
      ensures Valid() && fresh(channel) && fresh(input) && fresh(output) && fresh(output.buff)
      ensures this.cfg == cfg && this.id == id && this.loop == loop
      ensures Value() == Conn(Chan(fd, NONE, New), Connecting, [], [], [], [], 0)
    {
      this.cfg, this.id, this.loop := cfg, id, loop;
      state := Connecting;
      channel := new Channel(id, fd, loop.poller);
      input := new Buffer(BufferSpec.INITIAL_SIZE);
      output := new Buffer(BufferSpec.INITIAL_SIZE);
      taken, log, halfCloses, closes := [], [], [], 0;
    }

    /** write(2) on the connection's socket: how many bytes it took, or -1 and errno. */
    method Write(data: seq<byte>, wr: WriteResult) returns (n: int, errno: Errno)
      requires Valid()
      modifies `taken
      ensures var result := Outcome(Value(), wr);
        && n == (if result.Took? then Min(result.n, |data|) else -1)
        && (result.Failed? ==> errno == result.errno)
        && Value() == old(Value()).(taken := if result.Took? then old(taken) + data[..n] else old(taken))
    {
      n, errno := -1, BrokenPipe;
      if halfCloses == [] {
        match wr
        case Took(k) =>
          n := Min(k, |data|);
          taken := taken + data[..n];
        case Failed(e) =>
          errno := e;
      }
    }

    /** The direct write of sendInLoop, and whether its failure is a fault. */
    method WriteDirectly(m: Msg, wr: WriteResult) returns (nwrote: nat, fault: bool)
      requires Valid() && InLoop()
      modifies `taken, loop`pending, loop`pushed, loop`counter
      ensures Valid() && (nwrote, fault) == DirectWrite(old(Value()), |m.data|, wr)
      ensures nwrote <= |m.data| && Here() == AfterWrite(cfg, id, old(Here()), m, wr)
    {
      nwrote, fault := 0, false;
      if !IsWriting(channel.events) && output.ReadableBytes() == 0 {
        var n, errno := Write(m.data, wr);
        if n >= 0 {
          nwrote := n;
          if |m.data| - nwrote == 0 && cfg.hasWriteComplete {
            ghost var _ := loop.QueueInLoop(WriteComplete(id));
          }
        } else if errno != WouldBlock {
          if errno != BrokenPipe || errno == ConnReset {
            fault := true;
          }
        }
      }
    }

    /** Lines 133-138: the high-water notice, then the bytes. */
    method BufferBytes(m: Msg, rest: seq<byte>)
      requires Valid() && InLoop()
      modifies `log, output, output.buff, loop`pending, loop`pushed, loop`counter
      ensures output.buff == old(output.buff) || fresh(output.buff)
      ensures Valid() && channel.poller.View() == old(channel.poller.View())
      ensures Value() == old(Value()).(out := old(Value()).out + rest, log := old(log) + [m])
      ensures var size := |old(Value()).out| + |rest|;
        loop.pending == old(loop.pending) +
          if rest != [] && size >= cfg.highWaterMark && cfg.hasHighWater then [HighWater(id, size)] else []
    {
      log := log + [m];
      if |rest| > 0 {
        var oldLen := output.ReadableBytes();
        if oldLen + |rest| >= cfg.highWaterMark && cfg.hasHighWater {
          ghost var _ := loop.QueueInLoop(HighWater(id, oldLen + |rest|));
        }
        output.Append(rest);
      }
    }

    /** The part of sendInLoop after the write, for a message that was not dropped. */
    method BufferRest(m: Msg, rest: seq<byte>)
      requires Valid() && InLoop()
      modifies `log, output, output.buff, channel`events, channel`index
      modifies channel.poller`channels, channel.poller`interest, loop`pending, loop`pushed, loop`counter
      ensures output.buff == old(output.buff) || fresh(output.buff)
      ensures Valid() && Here() == Accept(cfg, id, old(Here()), m, rest)
    {
      BufferBytes(m, rest);
      if |rest| > 0 && Holds(cfg.enableWhen, IsWriting(channel.events)) {
        channel.EnableWriting();
      }
    }

    method SendInLoop(m: Msg, wr: WriteResult)
      requires Valid() && InLoop()
      modifies `taken, `log, output, output.buff, channel`events, channel`index
      modifies channel.poller`channels, channel.poller`interest, loop`pending, loop`pushed, loop`counter
      ensures output.buff == old(output.buff) || fresh(output.buff)
      ensures Valid() && Here() == Spec.SendInLoop(cfg, id, old(Here()), m, wr)
    {
      if state == Disconnected {
        return;
      }
      var nwrote, fault := WriteDirectly(m, wr);
      if !fault {
        BufferRest(m, m.data[nwrote..]);
      }
    }

    method ShutdownInLoop()
      requires Valid()
      modifies `halfCloses
      ensures Valid() && Here() == Spec.ShutdownInLoop(cfg, old(Here()))
    {
      if Holds(cfg.halfCloseWhen, IsWriting(channel.events)) {
        halfCloses := halfCloses + [output.ReadableBytes()];   // m_socket->shutdownWrite()
      }
    }

    method Shutdown()
      requires Valid()
      modifies `state, `halfCloses
      ensures Valid() && Here() == Spec.Shutdown(cfg, old(Here()))
    {
      if state == Connected {
        state := Disconnecting;
        ShutdownInLoop();
      }
    }

    method ForceClose()
      requires Valid() && InLoop()
      modifies `state, loop`pending, loop`pushed, loop`counter
      ensures Valid() && Here() == Spec.ForceClose(id, old(Here()))
    {
      if state == Connected || state == Disconnecting {
        state := Disconnecting;
        ghost var _ := loop.QueueInLoop(RunForceClose(id));
      }
    }

    /** What handleWrite does once the socket has taken everything. */
    method Drained()
      requires Valid() && InLoop()
      modifies `halfCloses, channel`events, channel`index
      modifies channel.poller`channels, channel.poller`interest, loop`pending, loop`pushed, loop`counter
      ensures Valid() && Here() == Spec.Drained(cfg, id, old(Here()))
    {
      channel.DisableWriting();
      if cfg.hasWriteComplete {
        ghost var _ := loop.QueueInLoop(WriteComplete(id));
      }
      if state == Disconnecting {
        ShutdownInLoop();
      }
    }

    method HandleWrite(wr: WriteResult)
      requires Valid() && InLoop()
      modifies `taken, `halfCloses, output, channel`events, channel`index
      modifies channel.poller`channels, channel.poller`interest, loop`pending, loop`pushed, loop`counter
      ensures Valid() && Here() == Spec.HandleWrite(cfg, id, old(Here()), wr)
    {
      if IsWriting(channel.events) {
        var buffered := output.Peek();
        var n, _ := Write(buffered, wr);
        if n > 0 {
          output.Retrieve(n);
          if output.ReadableBytes() == 0 {
            Drained();
          }
        }
      }
    }

    /** One action of a client callback on this connection. */
    method Act(a: OwnAction)
      requires Valid() && InLoop()
      modifies `state, `taken, `log, `halfCloses, output, output.buff, channel`events, channel`index
      modifies channel.poller`channels, channel.poller`interest, loop`pending, loop`pushed, loop`counter
      ensures output.buff == old(output.buff) || fresh(output.buff)
      ensures Valid() && Here() == ActOn(cfg, id, old(Here()), a)
    {
      match a
      case OwnSend(m, wr) =>
        if state == Connected {
          SendInLoop(m, wr);
        }
      case OwnShutdown => Shutdown();
      case OwnForceClose => ForceClose();
    }

    /** A client callback. */
    method Callback(script: seq<OwnAction>)
      requires Valid() && InLoop()
      modifies `state, `taken, `log, `halfCloses, output, output.buff, channel`events, channel`index
      modifies channel.poller`channels, channel.poller`interest, loop`pending, loop`pushed, loop`counter
      ensures output.buff == old(output.buff) || fresh(output.buff)
      ensures Valid() && Here() == ActAllOn(cfg, id, old(Here()), script)
      decreases |script|
    {
      if script != [] {
        Act(script[0]);
        Callback(script[1..]);
      }
    }

    /**
     handleClose, up to m_closeCallback, which is TcpServer.RemoveConnection. The connection
     callback finds the connection closed, so nothing it does with it has an effect.
     */
    method HandleClose(callback: seq<OwnAction>)
      requires Valid() && InLoop() && (state == Connected || state == Disconnecting)   // tcpconnection.cpp:325
      modifies `state, `closes, `taken, `log, `halfCloses, output, output.buff, channel`events, channel`index
      modifies channel.poller`channels, channel.poller`interest, loop`pending, loop`pushed, loop`counter
      ensures output.buff == old(output.buff) || fresh(output.buff)
      ensures Valid() && Here() == BeginClose(id, old(Here()))
    {
      state, closes := Disconnected, closes + 1;
      channel.DisableAll();
      ClosedIgnoresActions(cfg, id, Here(), callback);
      Callback(callback);
    }

    method ConnectEstablished(callback: seq<OwnAction>)
      requires Valid() && InLoop() && state == Connecting                              // tcpconnection.cpp:247
      modifies `state, `taken, `log, `halfCloses, output, output.buff, channel`events, channel`index
      modifies channel.poller`channels, channel.poller`interest, loop`pending, loop`pushed, loop`counter
      ensures output.buff == old(output.buff) || fresh(output.buff)
      ensures Valid() && Here() == ActAllOn(cfg, id, Establish(id, old(Here())), callback)
    {
      state := Connected;
      channel.EnableReading();
      Callback(callback);
    }

    /**
     handleRead: received bytes end up behind what the input buffer already held, and the message
     callback runs; end of file is handleClose; an error changes nothing.
     */
    method HandleRead(result: BufferSpec.ReadResult, callback: seq<OwnAction>) returns (n: int)
      requires Valid() && InLoop() && (result.Received? ==> |result.bytes| <= input.Storage().Offered())
      requires result == BufferSpec.Received([]) ==> state == Connected || state == Disconnecting
      modifies `state, `closes, `taken, `log, `halfCloses, input, input.buff, output, output.buff, channel`events, channel`index
      modifies channel.poller`channels, channel.poller`interest, loop`pending, loop`pushed, loop`counter
      ensures Valid()
      ensures n == if result.Received? then |result.bytes| else -1
      ensures input.Contents() == old(input.Contents()) + if result.Received? then result.bytes else []
      ensures Here() == if n > 0 then ActAllOn(cfg, id, old(Here()), callback)
                        else if n == 0 then BeginClose(id, old(Here()))
                        else old(Here())
    {
      var savedErrno;
      n, savedErrno := input.ReadFd(result);
      if n > 0 {
        Callback(callback);
      } else if n == 0 {
        HandleClose(callback);
      }
    }

    /** The first part of connectDestroyed: a connection that is still connected is closed and told so. */
    method Disconnect(callback: seq<OwnAction>)
      requires Valid() && InLoop() && state == Connected
      modifies `state, `taken, `log, `halfCloses, output, output.buff, channel`events, channel`index
      modifies channel.poller`channels, channel.poller`interest, loop`pending, loop`pushed, loop`counter
      ensures Valid() && Here() == BeginDestroy(id, old(Here()))
      ensures channel.events == NONE && channel.index != New
    {
      state := Disconnected;
      channel.DisableAll();
      ClosedIgnoresActions(cfg, id, Here(), callback);
      ghost var here := Here();
      assert here.conn.chan.events == NONE && here.conn.chan.index != New;
      Callback(callback);
      assert channel.View() == Here().conn.chan;
    }

    /** The rest: the channel leaves the poller. */
    method RemoveChannel()
      requires Valid() && channel.events == NONE && channel.index != New               // epollpoller.cpp:137-141
      modifies channel`index, channel.poller`channels, channel.poller`interest
      ensures Valid() && Here() == FinishDestroy(id, old(Here()))
    {
      channel.Remove();
    }

    /** connectDestroyed; only a connection that is still connected gets its callback. */
    method ConnectDestroyed(callback: seq<OwnAction>)
      requires Valid() && InLoop()
      requires state != Connected ==> channel.events == NONE && channel.index != New   // epollpoller.cpp:137-141
      modifies `state, `taken, `log, `halfCloses, output, output.buff, channel`events, channel`index
      modifies channel.poller`channels, channel.poller`interest, loop`pending, loop`pushed, loop`counter
      ensures Valid() && Here() == Destroy(cfg, id, old(Here()), callback)
    {
      if state == Connected {
        ClosedIgnoresActions(cfg, id, BeginDestroy(id, Here()), callback);
        Disconnect(callback);
      }
      RemoveChannel();
    }
  }
}
