/**
 What a Buffer does, on values: the bytes a client reads, and where the indexes and the end of the
 storage go. The two are independent, but for the lengths that both depend on.
 */
module BufferSpec {
  import opened Bytes

  const CHEAP_PREPEND := 8
  const INITIAL_SIZE := 1024
  const EXTRA_SIZE := 65536

  /** What readv delivered, or the error it set. */
  datatype ReadResult = Received(bytes: seq<byte>) | ReadFailed(errno: int)

  /** The size of the storage and the two indexes. */
  datatype Layout = Layout(size: nat, reader: nat, writer: nat) {

    predicate Valid() {
      reader <= writer <= size && CHEAP_PREPEND <= size
    }

    function Readable(): nat
      requires Valid()
    {
      writer - reader
    }

    function Writable(): nat
      requires Valid()
    {
      size - writer
    }

    /** How much readFd offers the kernel: the tail, and 64 KiB more unless the tail is that large. */
    function Offered(): nat
      requires Valid()
    {
      Writable() + if Writable() < EXTRA_SIZE then EXTRA_SIZE else 0
    }

    /** makeSpace grows the storage when the free bytes on both sides do not suffice, else it compacts. */
    predicate MustGrow(len: nat)
      requires Valid()
    {
      Writable() + reader < len + CHEAP_PREPEND
    }

    function MakeSpace(len: nat): (l: Layout)
      requires Valid() && Writable() < len
      ensures l.Valid() && l.Readable() == Readable() && l.Writable() >= len
    {
      if MustGrow(len) then this.(size := writer + len) else Layout(size, CHEAP_PREPEND, CHEAP_PREPEND + Readable())
    }

    function EnsureWritable(len: nat): (l: Layout)
      requires Valid()
      ensures l.Valid() && l.Readable() == Readable() && l.Writable() >= len
    {
      if Writable() < len then MakeSpace(len) else this
    }

    /** hasWritten, for bytes the tail has room for. */
    function Written(len: nat): Layout
      requires Valid() && len <= Writable()
    {
      this.(writer := writer + len)
    }

    function Append(len: nat): (l: Layout)
      requires Valid()
      ensures l.Valid() && l.Readable() == Readable() + len
    {
      EnsureWritable(len).Written(len)
    }

    /** readFd of len bytes; what does not fit in the tail is appended from the second area. */
    function Receive(len: nat): (l: Layout)
      requires Valid()
      ensures l.Valid() && l.Readable() == Readable() + len
    {
      if len <= Writable() then Written(len) else this.(writer := size).Append(len - Writable())
    }

    function Retrieve(len: nat): Layout
      requires Valid() && len <= Readable()
    {
      if len < Readable() then this.(reader := reader + len) else Layout(size, CHEAP_PREPEND, CHEAP_PREPEND)
    }

    function Shrink(reserve: nat): (l: Layout)
      requires Valid() && KeptByInt(Readable()).Some?
      ensures l.Valid() && l.Readable() == KeptByInt(Readable()).value && l.Writable() >= reserve
    {
      Layout(CHEAP_PREPEND + Max(INITIAL_SIZE, Readable() + reserve), CHEAP_PREPEND, CHEAP_PREPEND + KeptByInt(Readable()).value)
    }
  }

  /** A fresh buffer. */
  function Fresh(initialSize: nat): Layout {
    Layout(CHEAP_PREPEND + initialSize, CHEAP_PREPEND, CHEAP_PREPEND)
  }

  /**
   A length cast to int and used as one again: its low 32 bits, or, when they are negative, a
   length near 2^64 that no vector can hold.
   */
  function KeptByInt(n: nat): (kept: Option<nat>)
    ensures n < 0x8000_0000 <==> kept == Some(n)
    ensures kept.Some? ==> kept.value <= n
  {
    if n % 0x1_0000_0000 < 0x8000_0000 then Some(n % 0x1_0000_0000) else None
  }

  /** Storage grows exactly when the readable bytes, the room asked for and the eight bytes in front exceed it. */
  lemma GrowsExactly(l: Layout, len: nat)
    requires l.Valid() && l.Writable() < len
    ensures var grows := l.writer - l.reader + len + 8 > l.size;
      && (l.MustGrow(len) <==> grows) && (l.MakeSpace(len).size > l.size <==> grows)
      && l.MakeSpace(len) == if grows then Layout(l.writer + len, l.reader, l.writer) else Layout(l.size, 8, 8 + l.writer - l.reader)
  {
  }

  /** What is kept is the one number below 2^31 that differs from n by a multiple of 2^32, if there is one. */
  lemma KeptExactly(n: nat, k: nat)
    ensures KeptByInt(n) == Some(k) <==> k < 0x8000_0000 && exists q: nat :: n == q * 0x1_0000_0000 + k
  {
    var q, r := n / 0x1_0000_0000, n % 0x1_0000_0000;
    assert n == q * 0x1_0000_0000 + r;
    if p: nat :| n == p * 0x1_0000_0000 + k && k < 0x8000_0000 {
      assert p == q && k == r;
    }
  }

  // -------------------------------------------------------------------------------------------
  // Calls

  datatype Op =
    | Append(data: seq<byte>)
    | Prepend(data: seq<byte>)
    | Retrieve(len: nat)
    | RetrieveAll
    | Unwrite(len: nat)
    | EnsureWritable(len: nat)
    | Fill(data: seq<byte>)            // a client writes at beginWrite() and calls hasWritten
    | ReadFd(result: ReadResult)
    | Shrink(reserve: nat)

  /** The assert the source makes of the call, or, for shrink and readFd, what vector and readv can do. */
  predicate Allowed(l: Layout, op: Op)
    requires l.Valid()
  {
    match op
    case Prepend(data) => |data| <= l.reader
    case Retrieve(len) => len <= l.Readable()
    case Unwrite(len) => len <= l.Readable()
    case Fill(data) => |data| <= l.Writable()
    case ReadFd(result) => result.Received? ==> |result.bytes| <= l.Offered()
    case Shrink(_) => KeptByInt(l.Readable()).Some?
    case _ => true
  }

  /** What a call does to a plain byte sequence. */
  function Text(s: seq<byte>, op: Op): seq<byte>
    requires (op.Retrieve? || op.Unwrite?) ==> op.len <= |s|
  {
    match op
    case Append(data) => s + data
    case Prepend(data) => data + s
    case Retrieve(len) => s[len..]
    case RetrieveAll => []
    case Unwrite(len) => s[..|s| - len]
    case EnsureWritable(_) => s
    case Fill(data) => s + data
    case ReadFd(result) => if result.Received? then s + result.bytes else s
    case Shrink(_) => if KeptByInt(|s|).Some? then s[..KeptByInt(|s|).value] else s
  }

  /** And to the storage. */
  function Shape(l: Layout, op: Op): (l': Layout)
    requires l.Valid() && Allowed(l, op)
    ensures l'.Valid()
  {
    match op
    case Append(data) => l.Append(|data|)
    case Prepend(data) => l.(reader := l.reader - |data|)
    case Retrieve(len) => l.Retrieve(len)
    case RetrieveAll => Layout(l.size, CHEAP_PREPEND, CHEAP_PREPEND)
    case Unwrite(len) => l.(writer := l.writer - len)
    case EnsureWritable(len) => l.EnsureWritable(len)
    case Fill(data) => l.Written(|data|)
    case ReadFd(result) => if result.Received? then l.Receive(|result.bytes|) else l
    case Shrink(reserve) => l.Shrink(reserve)
  }

  /** The readable bytes and the storage of one buffer. */
  datatype Image = Image(text: seq<byte>, shape: Layout) {

    predicate Valid() {
      shape.Valid() && |text| == shape.Readable()
    }
  }

  function Apply(i: Image, op: Op): (i': Image)
    requires i.Valid() && Allowed(i.shape, op)
    ensures i'.Valid()
  {
    Image(Text(i.text, op), Shape(i.shape, op))
  }

  // -------------------------------------------------------------------------------------------
  // Runs of calls on one buffer, and how large its storage gets

  ghost predicate AllowedAll(l: Layout, ops: seq<Op>)
    requires l.Valid()
    decreases |ops|
  {
    ops == [] || (Allowed(l, ops[0]) && AllowedAll(Shape(l, ops[0]), ops[1..]))
  }

  ghost function ShapeAll(l: Layout, ops: seq<Op>): (l': Layout)
    requires l.Valid() && AllowedAll(l, ops)
    ensures l'.Valid()
    decreases |ops|
  {
    if ops == [] then l else ShapeAll(Shape(l, ops[0]), ops[1..])
  }

  /** What a call needs in all if it reaches makeSpace: the readable bytes, and the room asked for. */
  function Need(l: Layout, len: nat): nat
    requires l.Valid()
  {
    if l.Writable() < len then l.Readable() + len else 0
  }

  /** The need of a call that reaches makeSpace, and 0 for any other. */
  function Needed(l: Layout, op: Op): nat
    requires l.Valid() && Allowed(l, op)
  {
    match op
    case Append(data) => Need(l, |data|)
    case EnsureWritable(len) => Need(l, len)
    case ReadFd(result) =>
      if result.Received? && |result.bytes| > l.Writable() then
        Need(l.(writer := l.size), |result.bytes| - l.Writable())
      else 0
    case _ => 0
  }

  /** That is what is readable and what is asked for, of any call that asks for more than the tail has. */
  lemma NeededExactly(l: Layout, op: Op)
    requires l.Valid() && Allowed(l, op)
    ensures var asked := (match op
        case Append(data) => |data|
        case EnsureWritable(len) => len
        case ReadFd(result) => if result.Received? then |result.bytes| else 0
        case _ => 0);
      Needed(l, op) == if asked > l.size - l.writer then l.writer - l.reader + asked else 0
  {
  }

  /** The largest need a makeSpace call of the run ever met. */
  ghost function Peak(l: Layout, ops: seq<Op>): nat
    requires l.Valid() && AllowedAll(l, ops)
    decreases |ops|
  {
    if ops == [] then 0 else Max(Needed(l, ops[0]), Peak(Shape(l, ops[0]), ops[1..]))
  }

  /** Storage has not shrunk, and is no larger than it was or than twice the peak and seven bytes. */
  ghost predicate Within(before: nat, after: nat, peak: nat) {
    before <= after <= Max(before, 2 * peak + 7)
  }

  /** One call: storage never shrinks, and grows only as far as twice the need and seven bytes. */
  lemma OneCallBound(l: Layout, op: Op)
    requires l.Valid() && Allowed(l, op) && !op.Shrink?
    ensures var size := Shape(l, op).size;
      l.size <= size && (size > l.size ==> size <= 2 * Needed(l, op) + 7)
  {
  }

  /**
   The storage bound. Over any run of calls other than shrink, storage never shrinks, and
   exceeds what it was only up to twice the largest need of a makeSpace call, and seven bytes.
   */
  lemma {:induction false} StorageBound(l: Layout, ops: seq<Op>)
    requires l.Valid() && AllowedAll(l, ops)
    requires forall op :: op in ops ==> !op.Shrink?
    ensures Within(l.size, ShapeAll(l, ops).size, Peak(l, ops))
    decreases |ops|
  {
    if ops != [] {
      assert ops[0] in ops;
      OneCallBound(l, ops[0]);
      StorageBound(Shape(l, ops[0]), ops[1..]);
    }
  }

  /** No smaller bound of that form holds: a buffer without room of its own reaches it with one byte. */
  lemma StorageBoundIsReached(b: byte)
    ensures var l, op := Fresh(0), Append([b]);
      Shape(l, op).size == 2 * Needed(l, op) + 7 && Shape(l, op).size > l.size
  {
  }

  // -------------------------------------------------------------------------------------------
  // Runs of calls on two buffers, which may trade their storage

  datatype Call = First(op: Op) | Second(op: Op) | Trade

  datatype Pair = Pair(first: Image, second: Image) {

    predicate Valid() {
      first.Valid() && second.Valid()
    }
  }

  predicate MayCall(p: Pair, call: Call)
    requires p.Valid()
  {
    match call
    case First(op) => Allowed(p.first.shape, op)
    case Second(op) => Allowed(p.second.shape, op)
    case Trade => true
  }

  function Perform(p: Pair, call: Call): (p': Pair)
    requires p.Valid() && MayCall(p, call)
    ensures p'.Valid()
  {
    match call
    case First(op) => p.(first := Apply(p.first, op))
    case Second(op) => p.(second := Apply(p.second, op))
    case Trade => Pair(p.second, p.first)
  }

  ghost predicate MayCallAll(p: Pair, calls: seq<Call>)
    requires p.Valid()
    decreases |calls|
  {
    calls == [] || (MayCall(p, calls[0]) && MayCallAll(Perform(p, calls[0]), calls[1..]))
  }

  ghost function PerformAll(p: Pair, calls: seq<Call>): (p': Pair)
    requires p.Valid() && MayCallAll(p, calls)
    ensures p'.Valid()
    decreases |calls|
  {
    if calls == [] then p else PerformAll(Perform(p, calls[0]), calls[1..])
  }

  /** The calls on the first buffer. */
  function OnFirst(calls: seq<Call>): seq<Op> {
    if calls == [] then []
    else (if calls[0].First? then [calls[0].op] else []) + OnFirst(calls[1..])
  }

  /** Without trades a buffer's storage is what its own calls make of it. */
  lemma {:induction false} FirstAlone(p: Pair, calls: seq<Call>)
    requires p.Valid() && MayCallAll(p, calls) && Trade !in calls
    ensures AllowedAll(p.first.shape, OnFirst(calls))
    ensures PerformAll(p, calls).first.shape == ShapeAll(p.first.shape, OnFirst(calls))
    decreases |calls|
  {
    if calls != [] {
      FirstAlone(Perform(p, calls[0]), calls[1..]);
      if calls[0].First? {
        assert OnFirst(calls)[1..] == OnFirst(calls[1..]);
      } else {
        assert OnFirst(calls) == OnFirst(calls[1..]);
      }
    }
  }

  /** So, without trades and shrinks, the storage bound holds of it with the peak of its own calls. */
  lemma FirstStorageBound(p: Pair, calls: seq<Call>)
    requires p.Valid() && MayCallAll(p, calls) && Trade !in calls
    requires forall op :: op in OnFirst(calls) ==> !op.Shrink?
    ensures AllowedAll(p.first.shape, OnFirst(calls))
    ensures Within(p.first.shape.size, PerformAll(p, calls).first.shape.size, Peak(p.first.shape, OnFirst(calls)))
  {
    FirstAlone(p, calls);
    StorageBound(p.first.shape, OnFirst(calls));
  }
}
