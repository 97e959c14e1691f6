/**
 What one connection's operations do, told case by case from the state before and not from the
 functions they are made of.
 */
module ConnectionEffects {
  import opened Bytes
  import opened Events
  import opened PollerSpec
  import opened ConnectionSpec

  /** Which messages sendInLoop drops, exactly. */
  lemma DropsExactly(cfg: Config, id: nat, v: View, m: Msg, wr: WriteResult)
    ensures SendInLoop(cfg, id, v, m, wr).conn.log == v.conn.log <==> Drops(v.conn, wr)
    ensures Drops(v.conn, wr) ==> SendInLoop(cfg, id, v, m, wr) == v
  {
    SendAllOrNothing(cfg, id, v, m, wr);
    if v.conn.state != Disconnected {
      DirectWriteIs(v.conn, |m.data|, wr);
    }
    assert v.conn.taken + [] == v.conn.taken;
  }

  /** And what it does with the others: a part may leave at once, the rest is buffered. */
  lemma SendEffect(cfg: Config, id: nat, v: View, m: Msg, wr: WriteResult)
    requires !Drops(v.conn, wr)
    ensures var c, d, n := v.conn, SendInLoop(cfg, id, v, m, wr).conn, SentNow(v.conn, |m.data|, wr);
      && d == c.(taken := c.taken + m.data[..n], out := c.out + m.data[n..], log := c.log + [m], chan := d.chan)
      && d.chan.fd == c.chan.fd
      && d.chan.events == c.chan.events + (if cfg.enableWhen == WhileNotWriting && n < |m.data| then {OUT} else {})
  {
    var n := SentNow(v.conn, |m.data|, wr);
    DirectWriteIs(v.conn, |m.data|, wr);
    AfterWriteMoves(cfg, id, v, m, wr);
    AcceptMoves(cfg, id, AfterWrite(cfg, id, v, m, wr), m, m.data[n..]);
  }

  lemma ShutdownEffect(cfg: Config, v: View)
    ensures v.conn.state != Connected ==> Shutdown(cfg, v) == v
    ensures var c := v.conn;
      var shuts := (cfg.halfCloseWhen == WhileWriting <==> OUT in c.chan.events);
      c.state == Connected ==>
        Shutdown(cfg, v) == v.(conn := c.(state := Disconnecting, halfCloses := c.halfCloses + if shuts then [|c.out|] else []))
  {
    assert v.conn.halfCloses + [] == v.conn.halfCloses;
  }

  lemma ForceCloseEffect(id: nat, v: View)
    ensures v.conn.state in {Connected, Disconnecting} ==>
      ForceClose(id, v) == v.(conn := v.conn.(state := Disconnecting), pending := v.pending + [RunForceClose(id)])
    ensures v.conn.state !in {Connected, Disconnecting} ==> ForceClose(id, v) == v
  {
  }

  /** How many bytes a writable connection gets rid of. */
  function Moved(c: Conn, wr: WriteResult): nat {
    if OUT in c.chan.events && c.halfCloses == [] && wr.Took? then Min(wr.n, |c.out|) else 0
  }

  /** The emptied buffer ends write interest, and a shutdown that waited for it. */
  lemma HandleWriteEffect(cfg: Config, id: nat, v: View, wr: WriteResult)
    ensures var c, d, n := v.conn, HandleWrite(cfg, id, v, wr).conn, Moved(v.conn, wr);
      var drained := n > 0 && n == |c.out|;
      var shuts := drained && c.state == Disconnecting && cfg.halfCloseWhen == WhileNotWriting;
      && (n == 0 ==> HandleWrite(cfg, id, v, wr) == v)
      && d == c.(taken := c.taken + c.out[..n], out := c.out[n..], chan := d.chan,
                 halfCloses := if shuts then c.halfCloses + [0] else c.halfCloses)
      && d.chan.fd == c.chan.fd
      && d.chan.events == (if drained then c.chan.events - {OUT} else c.chan.events)
  {
    assert v.conn.taken + [] == v.conn.taken && v.conn.out[0..] == v.conn.out;
  }

  lemma BeginCloseEffect(id: nat, v: View)
    ensures var c, w := v.conn, BeginClose(id, v);
      && w.conn == c.(state := Disconnected, closes := c.closes + 1, chan := w.conn.chan)
      && w.conn.chan.fd == c.chan.fd && w.conn.chan.events == {} && w.pending == v.pending
  {
  }

  lemma EstablishEffect(id: nat, v: View)
    ensures var c, w := v.conn, Establish(id, v);
      && w.conn == c.(state := Connected, chan := w.conn.chan)
      && w.conn.chan.fd == c.chan.fd && w.conn.chan.events == c.chan.events + {IN, PRI} && w.pending == v.pending
  {
  }

  /** connectDestroyed leaves the channel in neither table, and breaks no assert. */
  lemma DestroyEffect(cfg: Config, id: nat, v: View, callback: seq<OwnAction>)
    requires Agrees(id, v.conn.chan, v.poller)
    requires if v.conn.state == Connected then v.conn.chan.index == Added else v.conn.chan.events == NONE && v.conn.chan.index != New
    ensures var c, w := v.conn, Destroy(cfg, id, v, callback);
      && w.conn == c.(state := (if c.state == Connected then Disconnected else c.state), chan := Chan(c.chan.fd, {}, New))
      && c.chan.fd !in w.poller.channels && c.chan.fd !in w.poller.interest
      && w.poller.faults == v.poller.faults && w.pending == v.pending
  {
    if v.conn.state == Connected {
      SetEventsAgrees(v.poller, id, v.conn.chan, NONE);
      ClosedIgnoresActions(cfg, id, BeginDestroy(id, v), callback);
    }
    RemoveAgrees(BeginDestroy(id, v).poller, id, BeginDestroy(id, v).conn.chan);
  }

  // -------------------------------------------------------------------------------------------
  // Shutdown as a whole

  /** A connection that waits to be shut for writing until its buffer is empty. */
  lemma {:induction false} DrainsThenShuts(cfg: Config, id: nat, v: View, writes: seq<WriteResult>)
    requires cfg.enableWhen == WhileNotWriting && cfg.halfCloseWhen == WhileNotWriting
    requires v.conn.state == Disconnecting && v.conn.halfCloses == [] && v.conn.out != [] && OUT in v.conn.chan.events
    requires forall i :: 0 <= i < |writes| ==> writes[i].Took? && writes[i].n > 0
    requires |writes| >= |v.conn.out|
    ensures var d := HandleWrites(cfg, id, v, writes).conn;
      d.taken == v.conn.taken + v.conn.out && d.out == [] && d.halfCloses == [0] && d.state == Disconnecting && d.log == v.conn.log
    decreases |writes|
  {
    var v1, n := HandleWrite(cfg, id, v, writes[0]), Moved(v.conn, writes[0]);
    HandleWriteEffect(cfg, id, v, writes[0]);
    if n == |v.conn.out| {
      assert v.conn.out[..n] == v.conn.out;
      NothingMoves(cfg, id, v1, writes[1..]);
    } else {
      assert (v.conn.taken + v.conn.out[..n]) + v.conn.out[n..] == v.conn.taken + v.conn.out;
      DrainsThenShuts(cfg, id, v1, writes[1..]);
    }
  }

  /**
   With both guards corrected, shutdown means what it says: as many writes as there are buffered bytes,
   each taking at least one, and the socket has taken the whole accepted stream and is shut for
   writing with nothing unsent.
   */
  lemma GracefulShutdown(cfg: Config, id: nat, v: View, writes: seq<WriteResult>)
    requires cfg.enableWhen == WhileNotWriting && cfg.halfCloseWhen == WhileNotWriting
    requires HistoryOk(cfg, v.conn) && v.conn.state == Connected
    requires forall i :: 0 <= i < |writes| ==> writes[i].Took? && writes[i].n > 0
    requires |writes| >= |v.conn.out|
    ensures var d := HandleWrites(cfg, id, Shutdown(cfg, v), writes).conn;
      d.taken == Flatten(v.conn.log) && d.out == [] && d.halfCloses == [0] && d.state == Disconnecting
  {
    ShutdownEffect(cfg, v);
    if v.conn.out == [] {
      assert v.conn.taken + [] == v.conn.taken;
      NothingMoves(cfg, id, Shutdown(cfg, v), writes);
    } else {
      DrainsThenShuts(cfg, id, Shutdown(cfg, v), writes);
    }
  }

  /** As written, shutdown leaves Connected and never shuts an orderly connection for writing, then or later. */
  lemma LiteralShutdownShutsNothing(cfg: Config, id: nat, v: View, writes: seq<WriteResult>)
    requires cfg.enableWhen == WhileWriting && cfg.halfCloseWhen == WhileWriting
    requires HistoryOk(cfg, v.conn) && v.conn.state == Connected
    ensures HandleWrites(cfg, id, Shutdown(cfg, v), writes).conn == v.conn.(state := Disconnecting)
  {
    ShutdownEffect(cfg, v);
    assert v.conn.halfCloses + [] == v.conn.halfCloses;
    NothingMoves(cfg, id, Shutdown(cfg, v), writes);
  }
}
