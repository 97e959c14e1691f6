/** Integers as bytes: host memory, network order, and the conversions between them. */
module Endian {
  import opened Bytes

  /** How the host lays out an integer in memory. */
  datatype HostOrder = LittleFirst | BigFirst

  function Power256(width: nat): nat {
    if width == 0 then 1 else 256 * Power256(width - 1)
  }

  /** The bytes of u, most significant first: network order (RFC 791, Appendix B). */
  function NetworkBytes(width: nat, u: nat): (s: seq<byte>)
    ensures |s| == width
  {
    if width == 0 then [] else NetworkBytes(width - 1, u / 256) + [u % 256]
  }

  function FromNetwork(s: seq<byte>): (u: nat)
    ensures u < Power256(|s|)
  {
    if s == [] then 0 else FromNetwork(s[..|s| - 1]) * 256 + s[|s| - 1]
  }

  function Reversed(s: seq<byte>): (r: seq<byte>)
    ensures |r| == |s|
  {
    seq(|s|, i requires 0 <= i < |s| => s[|s| - 1 - i])
  }

  /** What an integer object holds in memory. */
  function Memory(order: HostOrder, width: nat, u: nat): (s: seq<byte>)
    ensures |s| == width
  {
    if order.BigFirst? then NetworkBytes(width, u) else Reversed(NetworkBytes(width, u))
  }

  /** The integer some memory holds. */
  function FromMemory(order: HostOrder, s: seq<byte>): nat {
    if order.BigFirst? then FromNetwork(s) else FromNetwork(Reversed(s))
  }

  /** htobe16, htobe32 and htobe64, and be16toh, be32toh and be64toh, which do the same. */
  function SwapToNetwork(order: HostOrder, width: nat, u: nat): nat {
    if order.BigFirst? then u else FromNetwork(Reversed(NetworkBytes(width, u)))
  }

  /** The values of a two's-complement integer of that many bytes. */
  predicate Fits(width: nat, x: int) {
    0 - Power256(width) <= 2 * x < Power256(width)
  }

  /** A two's-complement integer as the unsigned one of the same bits, and back. */
  function Unsigned(width: nat, x: int): nat
    requires Fits(width, x)
  {
    if x < 0 then x + Power256(width) else x
  }

  function Signed(width: nat, u: nat): int {
    if 2 * u < Power256(width) then u else u - Power256(width)
  }

  /** What appendIntN puts into the buffer. */
  function Stored(order: HostOrder, width: nat, x: int): (s: seq<byte>)
    requires Fits(width, x)
    ensures |s| == width
  {
    Memory(order, width, SwapToNetwork(order, width, Unsigned(width, x)))
  }

  /** What peekIntN makes of the first bytes of the buffer. */
  function Loaded(order: HostOrder, s: seq<byte>): int {
    Signed(|s|, SwapToNetwork(order, |s|, FromMemory(order, s)))
  }

  // -------------------------------------------------------------------------------------------

  lemma {:induction false} NetworkRoundTrip(width: nat, u: nat)
    requires u < Power256(width)
    ensures FromNetwork(NetworkBytes(width, u)) == u
  {
    if width > 0 {
      NetworkRoundTrip(width - 1, u / 256);
      assert NetworkBytes(width, u)[..width - 1] == NetworkBytes(width - 1, u / 256);
    }
  }

  lemma {:induction false} BytesRoundTrip(s: seq<byte>)
    ensures NetworkBytes(|s|, FromNetwork(s)) == s
  {
    if s != [] {
      var front, last := s[..|s| - 1], s[|s| - 1];
      BytesRoundTrip(front);
      assert FromNetwork(s) / 256 == FromNetwork(front) && FromNetwork(s) % 256 == last;
      assert s == front + [last];
    }
  }

  lemma PowerSplits(width: nat)
    requires width > 0
    ensures Power256(width) == 256 * Power256(width - 1) && Power256(width - 1) > 0
  {
    if width > 1 {
      PowerSplits(width - 1);
    }
  }

  /** Dividing by 256 and then by a power is dividing by the next power. */
  lemma DivideAgain(u: nat, p: nat)
    requires p > 0
    ensures u / 256 / p == u / (256 * p)
  {
    var q := u / (256 * p);
    var r := u % (256 * p);
    assert u == q * (256 * p) + r && r < 256 * p;
    assert q * (256 * p) == 256 * (q * p);
    assert u / 256 == q * p + r / 256;
    assert r / 256 < p;
    Unique(q, r / 256, u / 256 / p, u / 256 % p, p);
  }

  /** Network order: byte i, counted from the front, holds the bits of weight 256^(width-1-i). */
  lemma {:induction false} ByteOfNetworkOrder(width: nat, u: nat, i: nat)
    requires i < width
    ensures Power256(width - 1 - i) > 0 && NetworkBytes(width, u)[i] == u / Power256(width - 1 - i) % 256
  {
    if i == width - 1 {
      assert Power256(0) == 1;
    } else {
      ByteOfNetworkOrder(width - 1, u / 256, i);
      PowerSplits(width - 1 - i);
      DivideAgain(u, Power256(width - 2 - i));
    }
  }

  /** Two's complement: the same residue modulo 256^width, one way and the other. */
  lemma TwosComplement(width: nat, x: int)
    requires Fits(width, x)
    ensures 0 <= Unsigned(width, x) < Power256(width)
    ensures Unsigned(width, x) == x || Unsigned(width, x) == x + Power256(width)
    ensures Signed(width, Unsigned(width, x)) == x
  {
  }

  lemma ReversedTwice(s: seq<byte>)
    ensures Reversed(Reversed(s)) == s
  {
  }

  /** Whatever the host's own order, the bytes stored are the value's in network order. */
  lemma StoredIsNetworkOrder(order: HostOrder, width: nat, x: int)
    requires Fits(width, x)
    ensures Stored(order, width, x) == NetworkBytes(width, Unsigned(width, x))
  {
    if order.LittleFirst? {
      var bytes := NetworkBytes(width, Unsigned(width, x));
      BytesRoundTrip(Reversed(bytes));
      ReversedTwice(bytes);
    }
  }

  lemma LoadedIsNetworkOrder(order: HostOrder, s: seq<byte>)
    ensures Loaded(order, s) == Signed(|s|, FromNetwork(s))
  {
    if order.LittleFirst? {
      BytesRoundTrip(Reversed(s));
      ReversedTwice(s);
    }
  }

  /** A value written on one host reads back on any other. */
  lemma IntegerRoundTrip(writer: HostOrder, reader: HostOrder, width: nat, x: int)
    requires Fits(width, x)
    ensures Loaded(reader, Stored(writer, width, x)) == x
  {
    StoredIsNetworkOrder(writer, width, x);
    LoadedIsNetworkOrder(reader, Stored(writer, width, x));
    NetworkRoundTrip(width, Unsigned(width, x));
  }

  // -------------------------------------------------------------------------------------------
  // Lists of integers

  datatype Item = Item(width: nat, value: int)

  predicate Wellformed(items: seq<Item>) {
    forall i :: 0 <= i < |items| ==> items[i].width > 0 && Fits(items[i].width, items[i].value)
  }

  function StoredAll(order: HostOrder, items: seq<Item>): seq<byte>
    requires Wellformed(items)
  {
    if items == [] then [] else Stored(order, items[0].width, items[0].value) + StoredAll(order, items[1..])
  }

  /**
   Reading one integer after another. peekIntN asserts strictly more readable bytes than the
   integer has; None is that assert failing.
   */
  function LoadAll(order: HostOrder, widths: seq<nat>, bytes: seq<byte>): Option<seq<int>> {
    if widths == [] then Some([])
    else if |bytes| <= widths[0] then None
    else
      match LoadAll(order, widths[1..], bytes[widths[0]..])
      case None => None
      case Some(values) => Some([Loaded(order, bytes[..widths[0]])] + values)
  }

  function Widths(items: seq<Item>): seq<nat> {
    seq(|items|, i requires 0 <= i < |items| => items[i].width)
  }

  function Values(items: seq<Item>): seq<int> {
    seq(|items|, i requires 0 <= i < |items| => items[i].value)
  }

  /**
   Any list of integers of any widths reads back as it was written, and the reads succeed,
   exactly when something follows the last of them.
   */
  lemma {:induction false} ListRoundTrip(writer: HostOrder, reader: HostOrder, items: seq<Item>, rest: seq<byte>)
    requires Wellformed(items)
    ensures LoadAll(reader, Widths(items), StoredAll(writer, items) + rest) ==
            if items == [] || rest != [] then Some(Values(items)) else None
    decreases |items|
  {
    if items != [] {
      var first, others := items[0], items[1..];
      var head, tail := Stored(writer, first.width, first.value), StoredAll(writer, others) + rest;
      assert StoredAll(writer, items) + rest == head + tail;
      assert (head + tail)[..first.width] == head && (head + tail)[first.width..] == tail;
      IntegerRoundTrip(writer, reader, first.width, first.value);
      ListRoundTrip(writer, reader, others, rest);
      assert Widths(items)[1..] == Widths(others);
      assert Values(items) == [first.value] + Values(others);
      if rest == [] && others == [] {
        assert tail == [];
      }
      StoredAllLength(writer, others);
    }
  }

  lemma {:induction false} StoredAllLength(order: HostOrder, items: seq<Item>)
    requires Wellformed(items)
    ensures |StoredAll(order, items)| >= |items|
    decreases |items|
  {
    if items != [] {
      StoredAllLength(order, items[1..]);
    }
  }
}
