/** TcpServer's connection table as the object it is, for a server whose connections share its loop. */
module TcpServerObject {
  import opened Events
  import opened PollerSpec
  import opened ConnectionSpec
  import opened ConnectionNames
  import opened EventLoopObject
  import opened TcpConnectionObject

  class TcpServer {
    const cfg: Config
    const loop: EventLoop
    var connections: map<string, TcpConnection>
    var nextConnID: nat

    constructor (cfg: Config, loop: EventLoop)
      ensures this.cfg == cfg && this.loop == loop && connections == map[] && nextConnID == 1
    {
      this.cfg, this.loop, connections, nextConnID := cfg, loop, map[], 1;
    }

    function NameOf(number: nat): string {
      ConnName(cfg.serverName, cfg.ipPort, number)
    }

    /** Every entry is under its connection's own name, and the numbers in use are below the next. */
    ghost predicate Valid()
      reads this
    {
      && |cfg.ipPort| <= 51 && 1 <= nextConnID < INT_LIMIT
      && (forall name :: name in connections ==> connections[name].id < nextConnID && name == NameOf(connections[name].id))
    }

    /**
     newConnection with connectEstablished and its callback. The name is new, so no entry is
     overwritten, and the connection starts out established and registered.
     */
    method NewConnection(fd: nat, callback: seq<OwnAction>) returns (conn: TcpConnection)
      requires Valid() && nextConnID + 1 < INT_LIMIT && loop.MayQueue()
      requires fd !in loop.poller.channels && fd !in loop.poller.interest
      modifies this, loop.poller, loop`pending, loop`pushed, loop`counter
      ensures Valid() && nextConnID == old(nextConnID) + 1
      ensures fresh(conn) && conn.Valid() && conn.loop == loop && conn.id == old(nextConnID)
      ensures var name := NameOf(old(nextConnID));
        name !in old(connections) && connections == old(connections)[name := conn]
      ensures conn.Here() == ActAllOn(cfg, conn.id, Establish(conn.id,
        View(Conn(Chan(fd, NONE, New), Connecting, [], [], [], [], 0), old(loop.poller.View()), old(loop.pending))), callback)
    {
      var name := NameOf(nextConnID);
      if name in connections {
        FittingNamesDiffer(cfg.serverName, cfg.ipPort, connections[name].id, nextConnID);
      }
      conn := new TcpConnection(cfg, nextConnID, fd, loop);
      nextConnID := nextConnID + 1;
      connections := connections[name := conn];
      conn.ConnectEstablished(callback);
    }

    /** removeConnection on the loop's thread: the entry goes, and connectDestroyed is queued. */
    method RemoveConnection(conn: TcpConnection)
      requires Valid() && conn.loop == loop && conn.InLoop()
      modifies `connections, loop`pending, loop`pushed, loop`counter
      ensures Valid() && connections == old(connections) - {NameOf(conn.id)}
      ensures loop.pending == old(loop.pending) + [RunDestroy(conn.id)]
      ensures forall name :: name in connections ==> connections[name].id != conn.id
    {
      connections := connections - {NameOf(conn.id)};
      ghost var _ := loop.QueueInLoop(RunDestroy(conn.id));
    }

    /** A connection's handleClose with the close callback this server gave it. */
    method CloseConnection(conn: TcpConnection, callback: seq<OwnAction>)
      requires Valid() && conn.Valid() && conn.loop == loop && conn.InLoop() && conn.cfg == cfg
      requires conn.state == Connected || conn.state == Disconnecting
      modifies `connections, conn, conn.output, conn.output.buff, conn.channel
      modifies loop.poller`channels, loop.poller`interest, loop`pending, loop`pushed, loop`counter
      ensures Valid() && conn.Valid() && connections == old(connections) - {NameOf(conn.id)}
      ensures conn.Here() == BeginClose(conn.id, old(conn.Here())).Queue(RunDestroy(conn.id))
      ensures forall name :: name in connections ==> connections[name].id != conn.id
    {
      conn.HandleClose(callback);
      RemoveConnection(conn);
    }
  }
}
