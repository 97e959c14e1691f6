/** Whole sequences of calls on Buffer objects, against the values of BufferSpec.dfy. */
module BufferRuns {
  import opened Bytes
  import opened Endian
  import opened BufferSpec
  import opened BufferObject

  method Do(b: Buffer, op: Op)
    requires b.Valid() && Allowed(b.Storage(), op)
    modifies b, b.buff
    ensures b.Valid() && (b.buff == old(b.buff) || fresh(b.buff))
    ensures b.View() == Apply(old(b.View()), op)
  {
    match op
    case Append(data) => b.Append(data);
    case EnsureWritable(len) => b.EnsureWritableBytes(len);
    case ReadFd(result) => var _, _ := b.ReadFd(result);
    case Shrink(reserve) => var _ := b.Shrink(reserve);
    case Fill(data) => FillTail(b, data);
    case _ => DoInPlace(b, op);
  }

  /** What a client does with beginWrite() and hasWritten. */
  method FillTail(b: Buffer, data: seq<byte>)
    requires b.Valid() && |data| <= b.WritableBytes()
    modifies b`writer, b.buff
    ensures b.Valid() && b.View() == Apply(old(b.View()), Fill(data))
  {
    b.Store(b.writer, data);
    assert b.buff[b.reader..b.writer] == b.buff[..b.writer][b.reader..];
    assert old(b.buff[b.reader..b.writer]) == old(b.buff[..b.writer])[b.reader..];
    b.HasWritten(|data|);
  }

  method DoInPlace(b: Buffer, op: Op)
    requires b.Valid() && Allowed(b.Storage(), op)
    requires op.Prepend? || op.Retrieve? || op.Unwrite? || op.RetrieveAll?
    modifies b`reader, b`writer, b.buff
    ensures b.Valid() && b.View() == Apply(old(b.View()), op)
  {
    if op.Prepend? {
      b.Prepend(op.data);
    } else if op.Retrieve? {
      b.Retrieve(op.len);
    } else if op.Unwrite? {
      b.Unwrite(op.len);
    } else {
      b.RetrieveAll();
    }
  }

  ghost predicate Apart(a: Buffer, b: Buffer)
    reads a, b
  {
    a.Valid() && b.Valid() && a != b && a.buff != b.buff
  }

  ghost function Both(a: Buffer, b: Buffer): (p: Pair)
    requires Apart(a, b)
    reads a, b, a.buff, b.buff
    ensures p.Valid()
  {
    Pair(a.View(), b.View())
  }

  /** The storage of two buffers, perhaps traded or new. */
  twostate predicate StorageOf(a: Buffer, b: Buffer)
    reads a, b
  {
    && (a.buff in {old(a.buff), old(b.buff)} || fresh(a.buff))
    && (b.buff in {old(a.buff), old(b.buff)} || fresh(b.buff))
  }

  /** Makes the call, unless the source would stop at it. */
  method Try(a: Buffer, b: Buffer, call: Call) returns (ok: bool)
    requires Apart(a, b)
    modifies a, b, a.buff, b.buff
    ensures Apart(a, b) && StorageOf(a, b)
    ensures ok <==> MayCall(old(Both(a, b)), call)
    ensures Both(a, b) == if ok then Perform(old(Both(a, b)), call) else old(Both(a, b))
  {
    match call
    case First(op) =>
      ok := Allowed(a.Storage(), op);
      if ok {
        Do(a, op);
      }
    case Second(op) =>
      ok := Allowed(b.Storage(), op);
      if ok {
        Do(b, op);
      }
    case Trade =>
      ok := true;
      a.Swap(b);
  }

  /**
   Any sequence of calls on two buffers, trades of their storage included, up to the first call the
   source would stop at: readable bytes and storage are those of the plain sequences and layouts.
   */
  method Replay(a: Buffer, b: Buffer, calls: seq<Call>) returns (done: nat)
    requires Apart(a, b)
    modifies a, b, a.buff, b.buff
    ensures Apart(a, b) && done <= |calls|
    ensures MayCallAll(old(Both(a, b)), calls[..done])
    ensures Both(a, b) == PerformAll(old(Both(a, b)), calls[..done])
    ensures done < |calls| ==> !MayCall(Both(a, b), calls[done])
    decreases |calls|
  {
    done := 0;
    if calls != [] {
      var ok := Try(a, b, calls[0]);
      if ok {
        done := Replay(a, b, calls[1..]);
        assert calls[..done + 1][1..] == calls[1..][..done];
        done := done + 1;
      }
    }
  }

  // -------------------------------------------------------------------------------------------
  // Integers through a buffer

  /** Appends a list of integers, one appendIntN after another. */
  method WriteAll(b: Buffer, order: HostOrder, items: seq<Item>)
    requires b.Valid() && Wellformed(items)
    modifies b, b.buff
    ensures b.Valid() && (b.buff == old(b.buff) || fresh(b.buff))
    ensures b.Contents() == old(b.Contents()) + StoredAll(order, items)
    decreases |items|
  {
    if items != [] {
      StoredIsNetworkOrder(order, items[0].width, items[0].value);
      b.AppendInt(order, items[0].width, items[0].value);
      WriteAll(b, order, items[1..]);
    }
  }

  /** Reads integers of the given widths, one readIntN after another, until a peek would fail its assert. */
  method ReadAll(b: Buffer, order: HostOrder, widths: seq<nat>) returns (values: Option<seq<int>>)
    requires b.Valid()
    modifies b`reader, b`writer
    ensures b.Valid() && values == LoadAll(order, widths, old(b.Contents()))
    decreases |widths|
  {
    if widths == [] {
      return Some([]);
    }
    if b.ReadableBytes() <= widths[0] {
      return None;
    }
    LoadedIsNetworkOrder(order, b.Contents()[..widths[0]]);
    var x := b.ReadInt(order, widths[0]);
    var rest := ReadAll(b, order, widths[1..]);
    values := match rest
      case None => None
      case Some(xs) => Some([x] + xs);
  }

  /**
   Written into any empty buffer by one host and followed by any further bytes, a list of
   integers of any widths is read by any host as it was, exactly when there are further bytes.
   */
  method PassThrough(b: Buffer, writer: HostOrder, reader: HostOrder, items: seq<Item>, rest: seq<byte>) returns (values: Option<seq<int>>)
    requires b.Valid() && b.Contents() == [] && Wellformed(items)
    modifies b, b.buff
    ensures b.Valid()
    ensures values == if items == [] || rest != [] then Some(Values(items)) else None
  {
    WriteAll(b, writer, items);
    b.Append(rest);
    assert [] + StoredAll(writer, items) == StoredAll(writer, items);
    ListRoundTrip(writer, reader, items, rest);
    values := ReadAll(b, reader, Widths(items));
  }

  /** An integer prepended on one host is what any host peeks, given a further readable byte. */
  method PrependThenPeek(b: Buffer, writer: HostOrder, reader: HostOrder, item: Item) returns (x: int)
    requires b.Valid() && Fits(item.width, item.value) && item.width <= b.reader && b.ReadableBytes() > 0
    modifies b`reader, b.buff
    ensures b.Valid() && x == item.value
    ensures b.Contents() == Stored(writer, item.width, item.value) + old(b.Contents())
  {
    ghost var before := b.Contents();
    StoredIsNetworkOrder(writer, item.width, item.value);
    b.PrependInt(writer, item.width, item.value);
    ghost var bytes := NetworkBytes(item.width, Unsigned(item.width, item.value));
    assert (bytes + before)[..item.width] == bytes && (bytes + before)[item.width..] == before;
    NetworkRoundTrip(item.width, Unsigned(item.width, item.value));
    x := b.PeekInt(reader, item.width);
  }
}
