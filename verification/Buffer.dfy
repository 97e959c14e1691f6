/**
 Buffer: a growable array with some bytes in front for prepending, compacted in place.
 What a client sees is the plain byte sequence Contents().
 */
module BufferObject {
  import opened Bytes
  import opened BufferSpec
  import opened Endian

  const CR: byte := 13
  const LF: byte := 10

  class Buffer {
    var buff: array<byte>
    var reader: nat
    var writer: nat

    ghost predicate Valid()
      reads this
    {
      reader <= writer <= buff.Length && CHEAP_PREPEND <= buff.Length
    }

    ghost function Contents(): (s: seq<byte>)
      requires Valid()
      reads this, buff
      ensures |s| == writer - reader
    {
      buff[reader..writer]
    }

    function Storage(): (l: Layout)
      reads this
    {
      Layout(buff.Length, reader, writer)
    }

    ghost function View(): (i: Image)
      requires Valid()
      reads this, buff
      ensures i.Valid()
    {
      Image(Contents(), Storage())
    }

    constructor (initialSize: nat)
      ensures Valid() && fresh(buff)
      ensures View() == Image([], Fresh(initialSize))
      ensures buff.Length == 8 + initialSize && reader == 8 && writer == 8
    {
      buff := new byte[CHEAP_PREPEND + initialSize](_ => 0);
      reader, writer := CHEAP_PREPEND, CHEAP_PREPEND;
    }

    function ReadableBytes(): (n: nat)
      requires Valid()
      reads this, buff
      ensures n == |Contents()|
    {
      writer - reader
    }

    function WritableBytes(): (n: nat)
      requires Valid()
      reads this
    {
      buff.Length - writer
    }

    // -----------------------------------------------------------------------------------------
    // Room

    /** vector::resize to a larger size: the bytes move to new storage. */
    method Resize(size: nat)
      requires Valid() && size > buff.Length
      modifies this`buff
      ensures Valid() && fresh(buff) && buff.Length == size
      ensures Contents() == old(Contents())
    {
      var bigger := new byte[size](_ => 0);
      for i := 0 to buff.Length
        modifies bigger
        invariant bigger[..i] == buff[..i]
      {
        bigger[i] := buff[i];
      }
      assert bigger[..buff.Length] == buff[..buff.Length];
      assert bigger[reader..writer] == bigger[..buff.Length][reader..writer];
      buff := bigger;
    }

    /** The overlapping forward copy of makeSpace: readable bytes move to the front, byte by byte. */
    method Compact()
      requires Valid() && CHEAP_PREPEND < reader   // buffer.h:338
      modifies this`reader, this`writer, buff
      ensures Valid() && Contents() == old(Contents())
      ensures reader == CHEAP_PREPEND
    {
      var readable := writer - reader;
      ghost var before := buff[reader..writer];
      for i := 0 to readable
        modifies buff
        invariant forall k :: 0 <= k < i ==> buff[CHEAP_PREPEND + k] == before[k]
        invariant forall k :: i <= k < readable ==> buff[reader + k] == before[k]
      {
        buff[CHEAP_PREPEND + i] := buff[reader + i];
      }
      reader, writer := CHEAP_PREPEND, CHEAP_PREPEND + readable;
    }

    method MakeSpace(len: nat)
      requires Valid() && WritableBytes() < len
      modifies this`buff, this`reader, this`writer, buff
      ensures Valid() && (buff == old(buff) || fresh(buff))
      ensures Contents() == old(Contents())
      ensures WritableBytes() >= len
      ensures Storage() == old(Storage()).MakeSpace(len)
      ensures buff.Length > old(buff.Length) <==> |old(Contents())| + len + 8 > old(buff.Length)
      ensures if |old(Contents())| + len + 8 > old(buff.Length)
              then fresh(buff) && buff.Length == old(writer) + len && reader == old(reader) && writer == old(writer)
              else buff == old(buff) && reader == 8 && writer == 8 + |old(Contents())|
    {
      if buff.Length - writer + reader < len + CHEAP_PREPEND {
        Resize(writer + len);
      } else {
        Compact();
      }
    }

    method EnsureWritableBytes(len: nat)
      requires Valid()
      modifies this`buff, this`reader, this`writer, buff
      ensures Valid() && (buff == old(buff) || fresh(buff))
      ensures Contents() == old(Contents())
      ensures WritableBytes() >= len
      ensures Storage() == old(Storage()).EnsureWritable(len)
      ensures old(buff.Length - writer) >= len ==> buff == old(buff) && reader == old(reader) && writer == old(writer)
      ensures buff.Length > old(buff.Length) <==> old(buff.Length - writer) < len && |old(Contents())| + len + 8 > old(buff.Length)
    {
      if WritableBytes() < len {
        MakeSpace(len);
      }
    }

    method HasWritten(len: nat)
      requires Valid() && len <= WritableBytes()
      modifies this`writer
      ensures Valid() && writer == old(writer) + len
      ensures Contents() == old(Contents()) + buff[old(writer)..writer]
    {
      writer := writer + len;
    }

    // -----------------------------------------------------------------------------------------
    // Adding and taking

    /** Copies bytes over the storage from `at` on: std::copy into this buffer. */
    method Store(at: nat, data: seq<byte>)
      requires at + |data| <= buff.Length
      modifies buff
      ensures buff[at..at + |data|] == data
      ensures buff[..at] == old(buff[..at]) && buff[at + |data|..] == old(buff[at + |data|..])
    {
      for i := 0 to |data|
        invariant buff[at..at + i] == data[..i]
        invariant buff[..at] == old(buff[..at]) && buff[at + |data|..] == old(buff[at + |data|..])
      {
        buff[at + i] := data[i];
      }
      assert data[..|data|] == data;
    }

    method Append(data: seq<byte>)
      requires Valid()
      modifies this`buff, this`reader, this`writer, buff
      ensures Valid() && (buff == old(buff) || fresh(buff))
      ensures Contents() == old(Contents()) + data
      ensures Storage() == old(Storage()).Append(|data|)
      ensures buff.Length > old(buff.Length) <==>
              old(buff.Length - writer) < |data| && |old(Contents())| + |data| + 8 > old(buff.Length)
    {
      EnsureWritableBytes(|data|);
      label Room:
      Store(writer, data);
      assert buff[reader..writer] == buff[..writer][reader..];
      assert old@Room(buff[reader..writer]) == old@Room(buff[..writer])[reader..];
      HasWritten(|data|);
    }

    method Prepend(data: seq<byte>)
      requires Valid() && |data| <= reader
      modifies this`reader, buff
      ensures Valid() && Contents() == data + old(Contents())
      ensures Storage() == old(Storage()).(reader := old(reader) - |data|)
    {
      reader := reader - |data|;
      Store(reader, data);
      assert buff[reader + |data|..writer] == buff[reader + |data|..][..writer - reader - |data|];
      assert old(buff[reader..writer]) == old(buff[reader..])[..writer - reader - |data|];
      assert buff[reader..writer] == buff[reader..reader + |data|] + buff[reader + |data|..writer];
    }

    method RetrieveAll()
      requires Valid()
      modifies this`reader, this`writer
      ensures Valid() && View() == Image([], Layout(buff.Length, CHEAP_PREPEND, CHEAP_PREPEND))
    {
      reader, writer := CHEAP_PREPEND, CHEAP_PREPEND;
    }

    method Retrieve(len: nat)
      requires Valid() && len <= ReadableBytes()
      modifies this`reader, this`writer
      ensures Valid() && Contents() == old(Contents())[len..]
      ensures Storage() == old(Storage()).Retrieve(len)
      ensures if len < |old(Contents())| then reader == old(reader) + len && writer == old(writer) else reader == 8 && writer == 8
    {
      if len < ReadableBytes() {
        reader := reader + len;
      } else {
        RetrieveAll();
      }
    }

    method Peek() returns (s: seq<byte>)
      requires Valid()
      ensures s == Contents()
    {
      s := buff[reader..writer];
    }

    method RetrieveAllAsString(len: nat) returns (s: seq<byte>)
      requires Valid() && len <= ReadableBytes()
      modifies this`reader, this`writer
      ensures Valid() && s == old(Contents())[..len] && Contents() == old(Contents())[len..]
    {
      s := buff[reader..reader + len];
      Retrieve(len);
    }

    method Unwrite(len: nat)
      requires Valid() && len <= ReadableBytes()
      modifies this`writer
      ensures Valid() && Contents() == old(Contents())[..|old(Contents())| - len]
      ensures Storage() == old(Storage()).(writer := old(writer) - len)
    {
      writer := writer - len;
    }

    method Swap(rhs: Buffer)
      requires Valid() && rhs.Valid()
      modifies this, rhs
      ensures Valid() && rhs.Valid()
      ensures buff == old(rhs.buff) && reader == old(rhs.reader) && writer == old(rhs.writer)
      ensures rhs.buff == old(buff) && rhs.reader == old(reader) && rhs.writer == old(writer)
      ensures View() == old(rhs.View()) && rhs.View() == old(View())
    {
      buff, rhs.buff := rhs.buff, buff;
      reader, rhs.reader := rhs.reader, reader;
      writer, rhs.writer := rhs.writer, writer;
    }

    /** A view of the readable bytes, whose length goes through an int; None if that made it negative. */
    method ToStringView() returns (s: Option<seq<byte>>)
      requires Valid()
      ensures KeptByInt(|Contents()|).None? ==> s == None
      ensures KeptByInt(|Contents()|).Some? ==> s == Some(Contents()[..KeptByInt(|Contents()|).value])
    {
      s := None;
      var kept := KeptByInt(ReadableBytes());
      if kept.Some? {
        assert buff[reader..reader + kept.value] == Contents()[..kept.value];
        s := Some(buff[reader..reader + kept.value]);
      }
    }

    /** The new buffer of shrink, with room for `len` bytes and holding `view`. */
    static method Copied(len: nat, view: seq<byte>) returns (other: Buffer)
      requires |view| <= len
      ensures fresh(other) && fresh(other.buff) && other.Valid()
      ensures other.View() == Image(view, Layout(CHEAP_PREPEND + Max(INITIAL_SIZE, len), CHEAP_PREPEND, CHEAP_PREPEND + |view|))
    {
      other := new Buffer(INITIAL_SIZE);
      other.EnsureWritableBytes(len);
      other.Append(view);
      assert [] + view == view;
    }

    /**
     Moves the readable bytes to storage of the default size or what they and the reserve need.
     They all survive exactly when there are fewer than 2^31 of them. When the int is negative the
     append to the new buffer does not return, and this buffer is as it was.
     */
    method Shrink(reserve: nat) returns (ok: bool)
      requires Valid()
      modifies this
      ensures Valid() && (ok <==> KeptByInt(|old(Contents())|).Some?)
      ensures ok ==> fresh(buff) && View() == Apply(old(View()), BufferSpec.Shrink(reserve))
      ensures !ok ==> buff == old(buff) && View() == old(View())
      ensures ok && Contents() == old(Contents()) <==> |old(Contents())| < 0x8000_0000
      ensures ok ==> buff.Length == 8 + Max(1024, |old(Contents())| + reserve) && reader == 8
    {
      var view := ToStringView();
      ok := view.Some?;
      if ok {
        var other := Copied(ReadableBytes() + reserve, view.value);
        Swap(other);
      }
    }

    // -----------------------------------------------------------------------------------------
    // Scatter read

    static method CopyInto(a: array<byte>, data: seq<byte>)
      requires |data| <= a.Length
      modifies a
      ensures a[..|data|] == data
    {
      for i := 0 to |data|
        invariant a[..i] == data[..i]
      {
        a[i] := data[i];
      }
      assert data[..|data|] == data;
    }

    /** The kernel's part of readv: fills the tail first, then the second area. */
    method Scatter(bytes: seq<byte>, extra: array<byte>)
      requires Valid() && extra != buff
      requires |bytes| <= WritableBytes() || |bytes| - WritableBytes() <= extra.Length
      modifies buff, extra
      ensures Contents() == old(Contents())
      ensures var n := Min(|bytes|, WritableBytes());
        buff[writer..writer + n] == bytes[..n] && (n < |bytes| ==> extra[..|bytes| - n] == bytes[n..])
    {
      var n := Min(|bytes|, WritableBytes());
      Store(writer, bytes[..n]);
      assert buff[reader..writer] == buff[..writer][reader..];
      assert old(buff[reader..writer]) == old(buff[..writer])[reader..];
      if n < |bytes| {
        CopyInto(extra, bytes[n..]);
      }
    }

    /** The tail is full: what it holds becomes readable, and the rest is appended. */
    method TakeOverflow(rest: seq<byte>)
      requires Valid()
      modifies this`buff, this`reader, this`writer, buff
      ensures Valid() && (buff == old(buff) || fresh(buff))
      ensures Contents() == old(Contents()) + old(buff[writer..]) + rest
      ensures Storage() == old(Storage()).(writer := old(buff.Length)).Append(|rest|)
    {
      HasWritten(WritableBytes());
      assert buff[old(writer)..writer] == old(buff[writer..]);
      Append(rest);
    }

    /** The received bytes, scattered over the tail and the second area, become readable. */
    method TakeReceived(bytes: seq<byte>)
      requires Valid() && |bytes| <= Storage().Offered()
      modifies this`buff, this`reader, this`writer, buff
      ensures Valid() && (buff == old(buff) || fresh(buff))
      ensures Contents() == old(Contents()) + bytes
      ensures Storage() == old(Storage()).Receive(|bytes|)
      ensures buff.Length > old(buff.Length) <==>
              old(buff.Length - writer) < |bytes| && |old(Contents())| + |bytes| + 8 > old(buff.Length)
    {
      var extra := new byte[EXTRA_SIZE](_ => 0);
      var writable := WritableBytes();
      Scatter(bytes, extra);
      if |bytes| <= writable {
        HasWritten(|bytes|);
      } else {
        var rest := extra[..|bytes| - writable];
        assert buff[writer..] == bytes[..writable] && rest == bytes[writable..];
        assert bytes == bytes[..writable] + bytes[writable..];
        TakeOverflow(rest);
      }
    }

    /** readFd: the readable bytes, then exactly the received ones, however much fitted in the tail. */
    method ReadFd(result: ReadResult) returns (n: int, savedErrno: int)
      requires Valid() && (result.Received? ==> |result.bytes| <= Storage().Offered())
      modifies this`buff, this`reader, this`writer, buff
      ensures Valid() && (buff == old(buff) || fresh(buff))
      ensures result.Received? ==> n == |result.bytes| && Contents() == old(Contents()) + result.bytes
      ensures result.Received? ==> Storage() == old(Storage()).Receive(|result.bytes|)
      ensures result.Received? ==> (buff.Length > old(buff.Length) <==>
              old(buff.Length - writer) < |result.bytes| && |old(Contents())| + |result.bytes| + 8 > old(buff.Length))
      ensures result.ReadFailed? ==> n == -1 && savedErrno == result.errno && View() == old(View())
    {
      savedErrno := 0;
      match result
      case ReadFailed(errno) =>
        n, savedErrno := -1, errno;
      case Received(bytes) =>
        n := |bytes|;
        TakeReceived(bytes);
    }

    // -----------------------------------------------------------------------------------------
    // Integers, of `width` bytes

    method AppendInt(order: HostOrder, width: nat, x: int)
      requires Valid() && Fits(width, x)
      modifies this`buff, this`reader, this`writer, buff
      ensures Valid() && (buff == old(buff) || fresh(buff))
      ensures Contents() == old(Contents()) + NetworkBytes(width, Unsigned(width, x))
    {
      StoredIsNetworkOrder(order, width, x);
      Append(Stored(order, width, x));
    }

    method PrependInt(order: HostOrder, width: nat, x: int)
      requires Valid() && Fits(width, x) && width <= reader
      modifies this`reader, buff
      ensures Valid() && Contents() == NetworkBytes(width, Unsigned(width, x)) + old(Contents())
    {
      StoredIsNetworkOrder(order, width, x);
      Prepend(Stored(order, width, x));
    }

    /** One byte more than the integer must be readable: the asserts at buffer.h:256-280 are strict. */
    method PeekInt(order: HostOrder, width: nat) returns (x: int)
      requires Valid() && ReadableBytes() > width
      ensures x == Signed(width, FromNetwork(Contents()[..width]))
    {
      var s := buff[reader..reader + width];
      assert s == Contents()[..width];
      LoadedIsNetworkOrder(order, s);
      x := Loaded(order, s);
    }

    method ReadInt(order: HostOrder, width: nat) returns (x: int)
      requires Valid() && ReadableBytes() > width
      modifies this`reader, this`writer
      ensures Valid() && x == Signed(width, FromNetwork(old(Contents())[..width]))
      ensures Contents() == old(Contents())[width..]
    {
      x := PeekInt(order, width);
      Retrieve(width);
    }

    // -----------------------------------------------------------------------------------------
    // Searching

    ghost predicate CrlfAt(s: seq<byte>, i: int) {
      0 <= i < |s| - 1 && s[i] == CR && s[i + 1] == LF
    }

    /** The first CR LF at or after `start`, an offset into the readable bytes. */
    method FindCRLFFrom(start: nat) returns (at: Option<nat>)
      requires Valid() && start <= ReadableBytes()
      ensures at.Some? ==> start <= at.value && CrlfAt(Contents(), at.value) && forall i :: start <= i < at.value ==> !CrlfAt(Contents(), i)
      ensures at.None? ==> forall i :: start <= i ==> !CrlfAt(Contents(), i)
    {
      var i := start;
      while i + 1 < ReadableBytes()
        invariant start <= i <= ReadableBytes()
        invariant forall k :: start <= k < i ==> !CrlfAt(Contents(), k)
      {
        if buff[reader + i] == CR && buff[reader + i + 1] == LF {
          return Some(i);
        }
        i := i + 1;
      }
      at := None;
    }

    method FindCRLF() returns (at: Option<nat>)
      requires Valid()
      ensures at.Some? ==> CrlfAt(Contents(), at.value) && forall i :: 0 <= i < at.value ==> !CrlfAt(Contents(), i)
      ensures at.None? ==> forall i :: !CrlfAt(Contents(), i)
    {
      at := FindCRLFFrom(0);
    }

    /** memchr for the line feed. Given a start, the source asserts that it is peek() itself. */
    method FindEOL() returns (at: Option<nat>)
      requires Valid()
      ensures at.Some? ==> at.value < |Contents()| && Contents()[at.value] == LF && LF !in Contents()[..at.value]
      ensures at.None? ==> LF !in Contents()
    {
      for i := 0 to ReadableBytes()
        invariant LF !in Contents()[..i]
      {
        if buff[reader + i] == LF {
          return Some(i);
        }
        assert Contents()[..i + 1] == Contents()[..i] + [Contents()[i]];
      }
      assert Contents()[..|Contents()|] == Contents();
      at := None;
    }
  }
}
