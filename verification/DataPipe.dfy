/**
 A data pipe: a producer and a consumer share a ring buffer.  Each keeps only its own offset and
 its own count, and tells the other through control messages how many bytes it has written or read.
 */
module DataPipes {
  import opened PortState

  /** `CheckFailed` stands for a failed CHECK, which ends the program. */
  datatype MojoResult = OK | InvalidArgument | FailedPrecondition | OutOfRange | ShouldWait | Busy | CheckFailed

  datatype ControlMessage = DataWasWritten(numBytes: nat) | DataWasRead(numBytes: nat)

  datatype ReadFlags = ReadFlags(allOrNone: bool, discard: bool, query: bool, peek: bool) {
    /** A read in two steps takes none of these. */
    predicate Lendable() { !discard && !query && !peek }
  }

  /** Sums of 32-bit numbers wrap around. */
  const TWO_TO_THE_32: nat := 0x1_0000_0000
  const MAX_CAPACITY: nat := 0x8000_0000

  function Add32(x: nat, y: nat): nat { (x + y) % TWO_TO_THE_32 }

  function Min(x: nat, y: nat): nat { if x < y then x else y }

  /** No sum of an offset and a count wraps exactly when the capacity is at most 2^31. */
  lemma OffsetsFit(capacity: nat)
    requires 0 < capacity < TWO_TO_THE_32
    ensures capacity <= MAX_CAPACITY <==>
            forall offset: nat, n: nat :: offset < capacity && n <= capacity ==> Add32(offset, n) == offset + n
  {
    if capacity > MAX_CAPACITY {
      assert Add32(capacity - 1, capacity) != capacity - 1 + capacity;
    }
  }

  function Sum(ms: seq<ControlMessage>): nat {
    if ms == [] then 0 else ms[0].numBytes + Sum(ms[1..])
  }

  lemma {:induction false} SumOfConcat(xs: seq<ControlMessage>, ys: seq<ControlMessage>)
    ensures Sum(xs + ys) == Sum(xs) + Sum(ys)
    decreases |xs|
  {
    if xs == [] {
      assert xs + ys == ys;
    } else {
      assert (xs + ys)[1..] == xs[1..] + ys;
      SumOfConcat(xs[1..], ys);
    }
  }

  // ----- Positions in the ring -----

  /** Where byte number j of the stream lies. */
  function At(j: nat, capacity: nat): (r: nat)
    requires capacity > 0
    ensures r < capacity
  {
    j % capacity
  }

  lemma AtNext(j: nat, n: nat, capacity: nat)
    requires 0 < capacity && n <= capacity
    ensures At(j + n, capacity) == (At(j, capacity) + n) % capacity
    ensures At(j, capacity) + n < capacity ==> At(j + n, capacity) == At(j, capacity) + n
    ensures At(j, capacity) + n >= capacity ==> At(j + n, capacity) == At(j, capacity) + n - capacity
  {
    var q, r := j / capacity, j % capacity;
    assert j == q * capacity + r;
    if r + n < capacity {
      Residue(j + n, q, r + n, capacity);
      Residue(r + n, 0, r + n, capacity);
    } else {
      assert (q + 1) * capacity == q * capacity + capacity;
      if r + n - capacity < capacity {
        Residue(j + n, q + 1, r + n - capacity, capacity);
        Residue(r + n, 1, r + n - capacity, capacity);
      }
    }
  }

  lemma Residue(j: nat, q: nat, r: nat, capacity: nat)
    requires j == q * capacity + r && r < capacity
    ensures j % capacity == r
  {
    SameResidue(q, r, j / capacity, j % capacity, capacity);
  }

  lemma SameResidue(q: nat, r: nat, q': nat, r': nat, capacity: nat)
    requires q * capacity + r == q' * capacity + r' && r < capacity && r' < capacity
    ensures r == r'
  {
    if q < q' { Above(q, r, q', r', capacity); }
    if q' < q { Above(q', r', q, r, capacity); }
  }

  lemma {:induction false} Above(q: nat, r: nat, q': nat, r': nat, capacity: nat)
    requires q < q' && r < capacity
    ensures q * capacity + r < q' * capacity + r'
    decreases q'
  {
    assert q' * capacity == (q' - 1) * capacity + capacity;
    if q < q' - 1 { Above(q, r, q' - 1, 0, capacity); }
  }

  /** Bytes less than a capacity apart lie in different places. */
  lemma AtDistinct(i: nat, j: nat, capacity: nat)
    requires 0 < capacity && i < j < i + capacity
    ensures At(i, capacity) != At(j, capacity)
  {
    AtNext(i, j - i, capacity);
  }

  /** The ring holds the bytes of the stream from number `from` on. */
  ghost predicate Holds(ring: seq<Byte>, stream: seq<Byte>, from: nat) {
    |ring| > 0 && from <= |stream| <= from + |ring| &&
    forall j :: from <= j < |stream| ==> ring[At(j, |ring|)] == stream[j]
  }

  /** The bytes are laid into the ring from an offset on, and go on at the front. */
  function Laid(ring: seq<Byte>, offset: nat, bytes: seq<Byte>): (r: seq<Byte>)
    requires offset < |ring| && |bytes| <= |ring|
    ensures |r| == |ring|
  {
    var tail := Min(|ring| - offset, |bytes|);
    var r := ring[..offset] + bytes[..tail] + ring[offset + tail..];
    bytes[tail..] + r[|bytes| - tail..]
  }

  lemma LaidAt(ring: seq<Byte>, offset: nat, bytes: seq<Byte>, i: nat)
    requires offset < |ring| && |bytes| <= |ring| && i < |ring|
    ensures var k := if offset + i < |ring| then offset + i else offset + i - |ring|;
            Laid(ring, offset, bytes)[k] == if i < |bytes| then bytes[i] else ring[k]
  {
  }

  /** Writing behind what is held leaves it alone and adds the new bytes. */
  lemma LaidHolds(ring: seq<Byte>, stream: seq<Byte>, from: nat, bytes: seq<Byte>)
    requires Holds(ring, stream, from) && |stream| + |bytes| <= from + |ring|
    ensures Holds(Laid(ring, At(|stream|, |ring|), bytes), stream + bytes, from)
  {
    var n, r := |ring|, Laid(ring, At(|stream|, |ring|), bytes);
    forall j | from <= j < |stream| + |bytes|
      ensures r[At(j, n)] == (stream + bytes)[j]
    {
      if j < |stream| {
        AtNext(|stream|, j + n - |stream|, n);
        AtNext(j, n, n);
        LaidAt(ring, At(|stream|, n), bytes, j + n - |stream|);
      } else {
        AtNext(|stream|, j - |stream|, n);
        LaidAt(ring, At(|stream|, n), bytes, j - |stream|);
      }
    }
  }

  /** The bytes in the ring from an offset on. */
  function Lifted(ring: seq<Byte>, offset: nat, n: nat): (r: seq<Byte>)
    requires offset < |ring| && n <= |ring|
    ensures |r| == n
  {
    var tail := Min(|ring| - offset, n);
    ring[offset..offset + tail] + ring[..n - tail]
  }

  lemma HeldFit(ring: seq<Byte>, stream: seq<Byte>, from: nat)
    requires Holds(ring, stream, from)
    ensures |stream| - from <= |ring|
  {
  }

  /** Reading from where the held bytes start gives them in order. */
  lemma LiftedHolds(ring: seq<Byte>, stream: seq<Byte>, from: nat, n: nat)
    requires Holds(ring, stream, from) && from + n <= |stream|
    ensures Lifted(ring, At(from, |ring|), n) == stream[from..from + n]
    ensures Holds(ring, stream, from + n)
  {
    var r := Lifted(ring, At(from, |ring|), n);
    forall i | 0 <= i < n
      ensures r[i] == stream[from + i]
    {
      AtNext(from, i, |ring|);
    }
  }

  lemma InOnePiece(ring: seq<Byte>, stream: seq<Byte>, from: nat, n: nat)
    requires Holds(ring, stream, from) && from + n <= |stream| && At(from, |ring|) + n <= |ring|
    ensures ring[At(from, |ring|)..At(from, |ring|) + n] == stream[from..from + n]
  {
    LiftedHolds(ring, stream, from, n);
    assert Lifted(ring, At(from, |ring|), n) == ring[At(from, |ring|)..At(from, |ring|) + n];
  }

  // ----- What the two ends agree on -----

  ghost predicate Typed(toConsumer: seq<ControlMessage>, toProducer: seq<ControlMessage>) {
    (forall m :: m in toConsumer ==> m.DataWasWritten?) && (forall m :: m in toProducer ==> m.DataWasRead?)
  }

  /** The producer's count, what it has not been told of, and the unread bytes make up the ring. */
  ghost predicate Room(capacity: nat, available: nat, toProducer: seq<ControlMessage>, sent: nat, taken: nat) {
    available + Sum(toProducer) + (sent - taken) == capacity
  }

  /** The consumer's count and what it has not been told of are the unread bytes. */
  ghost predicate Unread(available: nat, toConsumer: seq<ControlMessage>, sent: nat, taken: nat) {
    Sum(toConsumer) + available == sent - taken
  }

  lemma AddedLast(ms: seq<ControlMessage>, m: ControlMessage)
    ensures Sum(ms + [m]) == Sum(ms) + m.numBytes
  {
    SumOfConcat(ms, [m]);
  }

  lemma TakenFirst(ms: seq<ControlMessage>, k: nat)
    requires k <= |ms|
    ensures Sum(ms) == Sum(ms[..k]) + Sum(ms[k..])
  {
    SumOfConcat(ms[..k], ms[k..]);
    assert ms == ms[..k] + ms[k..];
  }

  // ----- What the two ends share -----

  /** The two control ports, as queues of messages sent and not yet taken out, and the shared
      memory.  `sent` is all that was ever committed, `taken` all that was ever read or discarded. */
  class Shared {
    const ring: array<Byte>
    var toConsumer: seq<ControlMessage>
    var toProducer: seq<ControlMessage>
    var producerClosed: bool
    var consumerClosed: bool
    ghost var sent: seq<Byte>
    ghost var taken: seq<Byte>

    constructor (capacity: nat)
      ensures fresh(ring) && ring.Length == capacity && toConsumer == toProducer == [] && !producerClosed
      ensures !consumerClosed
      ensures sent == taken == []
    {
      ring := new Byte[capacity](_ => 0);
      toConsumer, toProducer, producerClosed, consumerClosed := [], [], false, false;
      sent, taken := [], [];
    }

    /** What was read or discarded is a prefix of what was written, and the ring holds the rest. */
    ghost predicate Faithful()
      reads this, ring
    {
      0 < ring.Length <= MAX_CAPACITY && taken <= sent && Holds(ring[..], sent, |taken|) && Typed(toConsumer,
          toProducer)
    }
  }

  /** The sequence with a part of it replaced. */
  function Over(dst: seq<Byte>, at: nat, src: seq<Byte>): (r: seq<Byte>)
    requires at + |src| <= |dst|
    ensures |r| == |dst|
  {
    dst[..at] + src + dst[at + |src|..]
  }

  lemma OverAt(dst: seq<Byte>, at: nat, src: seq<Byte>)
    requires at + |src| <= |dst|
    ensures forall k :: 0 <= k < |dst| ==> Over(dst, at, src)[k] == if at <= k < at + |src| then src[k - at] else dst[k]
  {
  }

  /** std::memcpy into shared memory. */
  method Memcpy(dst: array<Byte>, at: nat, src: seq<Byte>)
    requires at + |src| <= dst.Length
    modifies dst
    ensures dst[..] == Over(old(dst[..]), at, src)
  {
    for i := 0 to |src|
      invariant forall k :: at <= k < at + i ==> dst[k] == src[k - at]
      invariant forall k :: 0 <= k < at || at + i <= k < dst.Length ==> dst[k] == old(dst[k])
    {
      dst[at + i] := src[i];
    }
    OverAt(old(dst[..]), at, src);
  }

  class Producer {
    const shared: Shared
    const elementSize: nat
    var writeOffset: nat
    var availableCapacity: nat
    var peerClosed: bool
    var isClosed: bool
    var inTwoPhaseWrite: bool
    /** What BeginWriteData lent: the user knows it. */
    var lent: nat
    var inTransit: bool

    /** The producer's side of the agreement. */
    ghost predicate Valid()
      reads this, shared, shared.ring
    {
      shared.Faithful() && elementSize > 0 && isClosed == shared.producerClosed &&
      writeOffset == At(|shared.sent|, shared.ring.Length) &&
      (!isClosed ==> Room(shared.ring.Length, availableCapacity, shared.toProducer, |shared.sent|, |shared.taken|)) &&
      (peerClosed ==> shared.consumerClosed) && !(inTransit && inTwoPhaseWrite) &&
      (!isClosed && inTwoPhaseWrite ==> lent <= availableCapacity && writeOffset + lent <= shared.ring.Length)
    }

    constructor (shared: Shared, elementSize: nat)
      requires elementSize > 0 && 0 < shared.ring.Length <= MAX_CAPACITY && shared.sent == shared.taken == []
      requires shared.toConsumer == shared.toProducer == [] && !shared.producerClosed
      ensures Valid() && this.shared == shared && this.elementSize == elementSize
      ensures availableCapacity == shared.ring.Length
      ensures !isClosed && !peerClosed && !inTwoPhaseWrite && !inTransit
    {
      this.shared, this.elementSize := shared, elementSize;
      writeOffset, availableCapacity, lent := 0, shared.ring.Length, 0;
      peerClosed, isClosed, inTwoPhaseWrite, inTransit := false, false, false, false;
    }

    /** Commits bytes that are in the ring, and tells the consumer. */
    method Commit(n: nat, ghost bytes: seq<Byte>, ghost c: Consumer)
      requires n == |bytes| <= availableCapacity && !isClosed && elementSize > 0 && isClosed == shared.producerClosed
      requires 0 < shared.ring.Length <= MAX_CAPACITY && shared.taken <= shared.sent
      requires Typed(shared.toConsumer, shared.toProducer) && writeOffset == At(|shared.sent|, shared.ring.Length)
      requires Room(shared.ring.Length, availableCapacity, shared.toProducer, |shared.sent|, |shared.taken|)
      requires Holds(shared.ring[..], shared.sent + bytes, |shared.taken|) && (peerClosed ==> shared.consumerClosed)
      requires c.shared == shared && c.Agrees()
      modifies this`availableCapacity, this`writeOffset, shared`toConsumer, shared`sent
      ensures availableCapacity == old(availableCapacity) - n && shared.sent == old(shared.sent) + bytes
      ensures writeOffset == At(|shared.sent|, shared.ring.Length)
      ensures shared.Faithful()
      ensures Room(shared.ring.Length, availableCapacity, shared.toProducer, |shared.sent|, |shared.taken|)
      ensures shared.toConsumer == old(shared.toConsumer) + if shared.consumerClosed then [] else [DataWasWritten(n)]
      ensures c.Agrees()
    {
      OffsetsFit(shared.ring.Length);
      AtNext(|shared.sent|, n, shared.ring.Length);
      availableCapacity := availableCapacity - n;
      writeOffset := Add32(writeOffset, n) % shared.ring.Length;
      shared.sent := shared.sent + bytes;
      if !shared.consumerClosed {
        AddedLast(shared.toConsumer, DataWasWritten(n));
        shared.toConsumer := shared.toConsumer + [DataWasWritten(n)];
      }
    }

    predicate MayWrite()
      reads this
    {
      !isClosed && !inTransit && !inTwoPhaseWrite && !peerClosed
    }

    method WriteData(elements: seq<Byte>, allOrNone: bool, ghost c: Consumer) returns (r: MojoResult, n: nat)
      requires Consistent(this, c) && |elements| < TWO_TO_THE_32
      modifies this`availableCapacity, this`writeOffset, shared`toConsumer, shared`sent, shared.ring
      ensures Consistent(this, c)
      ensures r.Busy? <==> !isClosed && !inTransit && inTwoPhaseWrite
      ensures r.FailedPrecondition? <==> !isClosed && !inTransit && !inTwoPhaseWrite && peerClosed
      ensures r.InvalidArgument? <==>
                isClosed || inTransit || (!inTwoPhaseWrite && !peerClosed && |elements| % elementSize != 0)
      ensures MayWrite() && |elements| % elementSize == 0 ==>
                r == if |elements| == 0 then OK
                     else if allOrNone && |elements| > shared.ring.Length then OutOfRange
                     else if old(availableCapacity) == 0 then ShouldWait else OK
      ensures n == if r.OK? then Min(|elements|, old(availableCapacity)) else 0
      ensures shared.sent == old(shared.sent) + elements[..n] && availableCapacity == old(availableCapacity) - n
      ensures shared.toConsumer == old(shared.toConsumer) +
                                   if n == 0 || shared.consumerClosed then [] else [DataWasWritten(n)]
    {
      hide Laid, Holds, At;
      n := 0;
      if isClosed || inTransit { return InvalidArgument, 0; }
      if inTwoPhaseWrite { return Busy, 0; }
      if peerClosed { return FailedPrecondition, 0; }
      if |elements| % elementSize != 0 { return InvalidArgument, 0; }
      if |elements| == 0 { return OK, 0; }
      var minimum := if allOrNone then |elements| else 0;
      if minimum > shared.ring.Length { return OutOfRange, 0; }
      n := Min(|elements|, availableCapacity);
      if n == 0 { return ShouldWait, 0; }
      CopyIn(elements[..n]);
      LaidHolds(old(shared.ring[..]), shared.sent, |shared.taken|, elements[..n]);
      Commit(n, elements[..n], c);
      r := OK;
    }

    /** Copies up to the end of the ring, and the rest to its front. */
    method CopyIn(bytes: seq<Byte>)
      requires writeOffset < shared.ring.Length && |bytes| <= shared.ring.Length
      modifies shared.ring
      ensures shared.ring[..] == Laid(old(shared.ring[..]), writeOffset, bytes)
    {
      var tail := Min(shared.ring.Length - writeOffset, |bytes|);
      Memcpy(shared.ring, writeOffset, bytes[..tail]);
      if |bytes| - tail > 0 { Memcpy(shared.ring, 0, bytes[tail..]); }
    }

    method BeginWriteData(ghost c: Consumer) returns (r: MojoResult, numBytes: nat)
      requires Consistent(this, c)
      modifies this`inTwoPhaseWrite, this`lent
      ensures Consistent(this, c)
      ensures r.OK? <==> old(MayWrite()) && availableCapacity > 0
      ensures old(MayWrite()) && availableCapacity == 0 ==> r == ShouldWait
      ensures !old(MayWrite()) ==> r == if isClosed || inTransit then InvalidArgument
                                        else if old(inTwoPhaseWrite) then Busy else FailedPrecondition
      ensures r.OK? ==>
                  inTwoPhaseWrite && 0 < numBytes == lent == Min(shared.ring.Length - writeOffset, availableCapacity)
      ensures !r.OK? ==> inTwoPhaseWrite == old(inTwoPhaseWrite) && lent == old(lent)
    {
      numBytes := 0;
      if isClosed || inTransit { return InvalidArgument, 0; }
      if inTwoPhaseWrite { return Busy, 0; }
      if peerClosed { return FailedPrecondition, 0; }
      if availableCapacity == 0 { return if peerClosed then FailedPrecondition else ShouldWait, 0; }
      inTwoPhaseWrite := true;
      numBytes := Min(shared.ring.Length - writeOffset, availableCapacity);
      lent := numBytes;
      r := OK;
    }

    /** The user writes into the memory that was lent: no unread byte changes. */
    method WriteLent(i: nat, b: Byte, ghost c: Consumer)
      requires Consistent(this, c) && !isClosed && inTwoPhaseWrite && i < lent
      modifies shared.ring
      ensures Consistent(this, c) && shared.ring[..] == old(shared.ring[..])[writeOffset + i := b]
    {
      shared.ring[writeOffset + i] := b;
      LentIsFree(old(shared.ring[..]), shared.sent, |shared.taken|, i, b);
    }

    static lemma LentIsFree(ring: seq<Byte>, stream: seq<Byte>, from: nat, i: nat, b: Byte)
      requires Holds(ring, stream, from) && |stream| + i < from + |ring| && At(|stream|, |ring|) + i < |ring|
      ensures Holds(ring[At(|stream|, |ring|) + i := b], stream, from)
    {
      AtNext(|stream|, i, |ring|);
      forall j | from <= j < |stream|
        ensures At(j, |ring|) != At(|stream|, |ring|) + i
      {
        AtDistinct(j, |stream| + i, |ring|);
      }
    }

    method EndWriteData(numBytesWritten: nat, ghost c: Consumer) returns (r: MojoResult)
      requires Consistent(this, c) && numBytesWritten < TWO_TO_THE_32
      modifies this`availableCapacity, this`writeOffset, this`inTwoPhaseWrite, shared`toConsumer, shared`sent
      ensures Consistent(this, c)
      ensures r.FailedPrecondition? <==> !isClosed && !inTransit && !old(inTwoPhaseWrite)
      ensures r.OK? <==> !isClosed && !inTransit && old(inTwoPhaseWrite) && numBytesWritten <= old(availableCapacity) &&
                         numBytesWritten % elementSize == 0 && old(writeOffset) + numBytesWritten <= shared.ring.Length
      ensures r.OK? || r.FailedPrecondition? || r.InvalidArgument?
      ensures inTwoPhaseWrite == (old(inTwoPhaseWrite) && (isClosed || inTransit))
      ensures r.OK? ==>
                  shared.sent == old(shared.sent) + shared.ring[old(writeOffset)..old(writeOffset) + numBytesWritten]
      ensures r.OK? ==> availableCapacity == old(availableCapacity) - numBytesWritten
      ensures !r.OK? ==> shared.sent == old(shared.sent) && availableCapacity == old(availableCapacity) &&
                         shared.toConsumer == old(shared.toConsumer)
    {
      if isClosed || inTransit { return InvalidArgument; }
      if !inTwoPhaseWrite { return FailedPrecondition; }
      OffsetsFit(shared.ring.Length);
      if numBytesWritten > availableCapacity || numBytesWritten % elementSize != 0 ||
         Add32(writeOffset, numBytesWritten) > shared.ring.Length
      {
        r := InvalidArgument;
      } else {
        r := OK;
        ghost var bytes := shared.ring[writeOffset..writeOffset + numBytesWritten];
        InPlace(shared.ring[..], shared.sent, |shared.taken|, numBytesWritten);
        Commit(numBytesWritten, bytes, c);
      }
      inTwoPhaseWrite := false;
    }

    /** Bytes that are committed where they lie are held from then on. */
    static lemma InPlace(ring: seq<Byte>, stream: seq<Byte>, from: nat, n: nat)
      requires Holds(ring, stream, from) && |stream| + n <= from + |ring| && At(|stream|, |ring|) + n <= |ring|
      ensures var offset := At(|stream|, |ring|);
              Holds(ring, stream + ring[offset..offset + n], from)
    {
      var offset := At(|stream|, |ring|);
      LaidHolds(ring, stream, from, ring[offset..offset + n]);
      assert Laid(ring, offset, ring[offset..offset + n]) == ring;
    }

    /** Takes in the control messages that have arrived.  `arrived` says how many have, and
        `closureKnown` whether the control port has been told that its peer closed. */
    method UpdateSignalsState(arrived: nat, closureKnown: bool, ghost c: Consumer)
      requires Consistent(this, c) && !isClosed
      requires arrived <= |shared.toProducer| && (closureKnown ==> shared.consumerClosed)
      modifies this`peerClosed, this`availableCapacity, shared`toProducer
      ensures Consistent(this, c)
      ensures inTransit ==> shared.toProducer == old(shared.toProducer) && availableCapacity == old(availableCapacity)
      ensures !inTransit ==> shared.toProducer == old(shared.toProducer)[arrived..] &&
                             availableCapacity == old(availableCapacity) + Sum(old(shared.toProducer)[..arrived])
      ensures peerClosed <==> old(peerClosed) || (closureKnown && shared.toProducer == [])
    {
      if closureKnown && shared.toProducer == [] { peerClosed := true; }
      if arrived > 0 && !inTransit {
        ghost var was := shared.toProducer;
        var done := 0;
        var more := true;
        while more
          invariant done <= arrived && shared.toProducer == was[done..]
          invariant availableCapacity == old(availableCapacity) + Sum(was[..done])
          invariant peerClosed <==> old(peerClosed) || (closureKnown && !more && done == |was|)
          invariant !more ==> done == arrived
          decreases more, arrived - done
        {
          if closureKnown && shared.toProducer == [] {
            peerClosed := true;
            more := false;
          } else if done == arrived {
            more := false;
          } else {
            var m := shared.toProducer[0];
            TakenFirst(was, done);
            assert m in was && m.DataWasRead?;
            // The consumer never claims to have read too many bytes.
            assert availableCapacity + m.numBytes <= shared.ring.Length;
            availableCapacity := availableCapacity + m.numBytes;
            assert was[..done + 1] == was[..done] + [m];
            AddedLast(was[..done], m);
            shared.toProducer := shared.toProducer[1..];
            done := done + 1;
          }
        }
        TakenFirst(was, arrived);
      }
    }

    // ----- Moving the producer to another node -----

    method BeginTransit() returns (ok: bool)
      modifies this`inTransit
      ensures ok <==> !old(inTransit) && !inTwoPhaseWrite
      ensures inTransit == (old(inTransit) || ok)
    {
      if inTransit { return false; }
      inTransit := !inTwoPhaseWrite;
      return inTransit;
    }

    method CancelTransit()
      requires inTransit
      modifies this`inTransit
      ensures !inTransit
    {
      inTransit := false;
    }

    function EndSerialize(): SerializedProducer
      requires inTransit
      reads this
    {
      SerializedProducer(elementSize, peerClosed, writeOffset, availableCapacity)
    }

    constructor Deserialize(state: SerializedProducer, shared: Shared)
      ensures this.shared == shared && elementSize == state.elementSize && peerClosed == state.peerClosed
      ensures writeOffset == state.writeOffset && availableCapacity == state.availableCapacity
      ensures !isClosed && !inTwoPhaseWrite && !inTransit
    {
      this.shared, elementSize, peerClosed := shared, state.elementSize, state.peerClosed;
      writeOffset, availableCapacity, lent := state.writeOffset, state.availableCapacity, 0;
      isClosed, inTwoPhaseWrite, inTransit := false, false, false;
    }

    /** The control port and the memory live on in the new producer. */
    method CompleteTransitAndClose()
      requires inTransit
      modifies this`inTransit, this`isClosed
      ensures !inTransit && isClosed
    {
      inTransit := false;
      isClosed := true;
    }

    method Close(ghost c: Consumer) returns (r: MojoResult)
      requires Consistent(this, c)
      modifies this`isClosed, shared`producerClosed
      ensures Consistent(this, c)
      ensures r == if !old(isClosed) && !inTransit then OK else InvalidArgument
      ensures isClosed == (old(isClosed) || r.OK?)
    {
      if isClosed || inTransit { return InvalidArgument; }
      isClosed := true;
      shared.producerClosed := true;
      return OK;
    }
  }

  datatype SerializedProducer = SerializedProducer(
    elementSize: nat, peerClosed: bool, writeOffset: nat, availableCapacity: nat)

  datatype SerializedConsumer = SerializedConsumer(
    elementSize: nat, peerClosed: bool, readOffset: nat, bytesAvailable: nat)

  ghost predicate Consistent(p: Producer, c: Consumer)
    reads p, c, p.shared, p.shared.ring
  {
    p.shared == c.shared && p.Valid() && c.Agrees()
  }

  /** With both ends open, the producer's room, the unread bytes, and what either has yet to be
      told of always make up the capacity; and the offsets are that far apart. */
  lemma Conservation(p: Producer, c: Consumer)
    requires Consistent(p, c) && !p.isClosed && !c.isClosed
    ensures var s := p.shared;
            p.availableCapacity + Sum(s.toConsumer) + c.bytesAvailable + Sum(s.toProducer) == s.ring.Length &&
            p.writeOffset == (c.readOffset + Sum(s.toConsumer) + c.bytesAvailable) % s.ring.Length
  {
    AtNext(|p.shared.taken|, |p.shared.sent| - |p.shared.taken|, p.shared.ring.Length);
  }

  /** When the consumer has recorded that the producer closed, what it has taken and what it has
      left is all that the producer ever wrote. */
  lemma ClosureComesLast(p: Producer, c: Consumer)
    requires Consistent(p, c) && c.peerClosed && !c.isClosed
    ensures p.shared.producerClosed && |p.shared.taken| + c.bytesAvailable == |p.shared.sent|
  {
  }

  class Consumer {
    const shared: Shared
    const elementSize: nat
    var readOffset: nat
    var bytesAvailable: nat
    var peerClosed: bool
    var isClosed: bool
    var inTwoPhaseRead: bool
    var twoPhaseMaxBytesRead: nat
    var inTransit: bool

    /** The consumer's side of the agreement. */
    ghost predicate Agrees()
      reads this, shared
    {
      shared.ring.Length > 0 && |shared.taken| <= |shared.sent| && elementSize > 0 &&
          isClosed == shared.consumerClosed &&
      readOffset == At(|shared.taken|, shared.ring.Length) &&
      (!isClosed ==> Unread(bytesAvailable, shared.toConsumer, |shared.sent|, |shared.taken|)) &&
      (peerClosed ==> shared.producerClosed && shared.toConsumer == []) && !(inTransit && inTwoPhaseRead) &&
      (!isClosed && inTwoPhaseRead ==> twoPhaseMaxBytesRead <= bytesAvailable &&
                                       readOffset + twoPhaseMaxBytesRead <= shared.ring.Length)
    }

    constructor (shared: Shared, elementSize: nat)
      requires elementSize > 0 && 0 < shared.ring.Length && shared.sent == shared.taken == []
      requires shared.toConsumer == [] && !shared.consumerClosed
      ensures Agrees() && this.shared == shared && this.elementSize == elementSize && bytesAvailable == 0
      ensures !isClosed && !peerClosed && !inTwoPhaseRead && !inTransit
    {
      this.shared, this.elementSize := shared, elementSize;
      readOffset, bytesAvailable, twoPhaseMaxBytesRead := 0, 0, 0;
      peerClosed, isClosed, inTwoPhaseRead, inTransit := false, false, false, false;
    }

    /** The bytes the consumer has not read: the rest of what was written. */
    ghost function Rest(): seq<Byte>
      requires |shared.taken| <= |shared.sent|
      reads shared
    {
      shared.sent[|shared.taken|..]
    }

    /** Moves past bytes, and tells the producer. */
    method Consume(n: nat, ghost p: Producer)
      requires Consistent(p, this) && !isClosed && n <= bytesAvailable && (inTwoPhaseRead ==> n <= twoPhaseMaxBytesRead)
      modifies this`readOffset, this`bytesAvailable, this`inTwoPhaseRead, this`twoPhaseMaxBytesRead
      modifies shared`toProducer, shared`taken
      ensures Consistent(p, this) && !inTwoPhaseRead
      ensures bytesAvailable == old(bytesAvailable) - n && n <= |old(Rest())|
      ensures shared.taken == old(shared.taken) + old(Rest())[..n]
      ensures shared.toProducer == old(shared.toProducer) + if shared.producerClosed then [] else [DataWasRead(n)]
    {
      hide Holds, At, Lifted;
      OffsetsFit(shared.ring.Length);
      HeldFit(shared.ring[..], shared.sent, |shared.taken|);
      AtNext(|shared.taken|, n, shared.ring.Length);
      readOffset := Add32(readOffset, n) % shared.ring.Length;
      bytesAvailable := bytesAvailable - n;
      LiftedHolds(shared.ring[..], shared.sent, |shared.taken|, n);
      shared.taken := shared.taken + Rest()[..n];
      assert shared.taken == shared.sent[..|shared.taken|];
      if !shared.producerClosed {
        AddedLast(shared.toProducer, DataWasRead(n));
        shared.toProducer := shared.toProducer + [DataWasRead(n)];
      }
      inTwoPhaseRead, twoPhaseMaxBytesRead := false, 0;
    }

    /** Copies up to the end of the ring, and the rest from its front. */
    method CopyOut(elements: array<Byte>, n: nat)
      requires readOffset < shared.ring.Length && n <= shared.ring.Length && n <= elements.Length
      requires elements != shared.ring
      modifies elements
      ensures elements[..n] == Lifted(shared.ring[..], readOffset, n) && elements[n..] == old(elements[n..])
    {
      hide Lifted, Over;
      var tail := Min(shared.ring.Length - readOffset, n);
      ghost var was, ring := elements[..], shared.ring[..];
      if tail > 0 { Memcpy(elements, 0, shared.ring[readOffset..readOffset + tail]); }
      ghost var mid := elements[..];
      NothingOver(was, 0);
      assert mid == Over(was, 0, ring[readOffset..readOffset + tail]);
      if n - tail > 0 { Memcpy(elements, tail, shared.ring[..n - tail]); }
      NothingOver(mid, tail);
      assert elements[..] == Over(mid, tail, ring[..n - tail]);
      TwoCopies(was, ring, readOffset, n);
      assert elements[..n] == elements[..][..n] && elements[n..] == elements[..][n..];
    }

    static lemma NothingOver(dst: seq<Byte>, at: nat)
      requires at <= |dst|
      ensures Over(dst, at, []) == dst
    {
    }

    static lemma TwoCopies(was: seq<Byte>, ring: seq<Byte>, offset: nat, n: nat)
      requires offset < |ring| && n <= |ring| && n <= |was|
      ensures var tail := Min(|ring| - offset, n);
              var r := Over(Over(was, 0, ring[offset..offset + tail]), tail, ring[..n - tail]);
              r[..n] == Lifted(ring, offset, n) && r[n..] == was[n..]
    {
    }

    predicate MayRead()
      reads this
    {
      !isClosed && !inTransit && !inTwoPhaseRead
    }

    method ReadData(elements: array<Byte>, numBytes: nat, flags: ReadFlags,
        ghost p: Producer) returns (r: MojoResult, n: nat)
      requires Consistent(p, this) && numBytes < TWO_TO_THE_32 && elements != shared.ring && elements.Length >= numBytes
      modifies this`readOffset, this`bytesAvailable, this`inTwoPhaseRead, this`twoPhaseMaxBytesRead
      modifies shared`toProducer, shared`taken, elements
      ensures Consistent(p, this)
      ensures r.Busy? <==> !isClosed && !inTransit && old(inTwoPhaseRead)
      ensures r.InvalidArgument? <==>
                isClosed || inTransit ||
                (!old(inTwoPhaseRead) && flags.query && (flags.peek || flags.discard)) ||
                (!old(inTwoPhaseRead) && !flags.query && ((flags.discard && flags.peek) || numBytes % elementSize != 0))
      ensures old(MayRead()) && flags.query && !flags.peek && !flags.discard ==> r == OK
      ensures old(MayRead()) && !flags.query && !(flags.discard && flags.peek) && numBytes % elementSize == 0 ==>
                r == if flags.allOrNone && numBytes > old(bytesAvailable)
                     then if peerClosed then FailedPrecondition else OutOfRange
                     else if numBytes == 0 || old(bytesAvailable) == 0
                     then if peerClosed then FailedPrecondition else ShouldWait
                     else OK
      ensures r.OK? && flags.query ==> n == bytesAvailable
      ensures r.OK? && !flags.query ==> 0 < n == Min(numBytes, old(bytesAvailable)) <= |old(Rest())|
      ensures r.OK? && !flags.query && flags.allOrNone ==> n == numBytes
      ensures r.OK? && !flags.query && !flags.discard ==>
                  elements[..n] == old(Rest())[..n] && elements[n..] == old(elements[n..])
      ensures !r.OK? || flags.query || flags.discard ==> elements[..] == old(elements[..])
      ensures r.OK? && !flags.query && !flags.peek ==> shared.taken == old(shared.taken) + old(Rest())[..n]
      ensures !r.OK? || flags.query || flags.peek ==>
                  shared.taken == old(shared.taken) && bytesAvailable == old(bytesAvailable)
      ensures inTwoPhaseRead == old(inTwoPhaseRead)
      ensures old(inTwoPhaseRead) || !r.OK? ==> twoPhaseMaxBytesRead == old(twoPhaseMaxBytesRead)
      ensures !r.OK? ==> readOffset == old(readOffset) && n == 0
    {
      hide Holds, At, Room, Unread, Typed;
      n := 0;
      if isClosed || inTransit { return InvalidArgument, 0; }
      if inTwoPhaseRead { return Busy, 0; }
      if flags.query {
        if flags.peek || flags.discard { return InvalidArgument, 0; }
        return OK, bytesAvailable;
      }
      if flags.discard && flags.peek { return InvalidArgument, 0; }
      if numBytes % elementSize != 0 { return InvalidArgument, 0; }
      var minimum := if flags.allOrNone then numBytes else 0;
      if minimum > bytesAvailable { return if peerClosed then FailedPrecondition else OutOfRange, 0; }
      n := Min(numBytes, bytesAvailable);
      if n == 0 { return if peerClosed then FailedPrecondition else ShouldWait, 0; }
      if !flags.discard { CopyUnread(elements, n, p); }
      if flags.discard || !flags.peek { Consume(n, p); }
      r := OK;
    }

    method CopyUnread(elements: array<Byte>, n: nat, ghost p: Producer)
      requires Consistent(p, this) && !isClosed && n <= bytesAvailable && n <= elements.Length
      requires elements != shared.ring
      modifies elements
      ensures Consistent(p, this) && n <= |Rest()| && elements[..n] == Rest()[..n]
      ensures elements[n..] == old(elements[n..])
    {
      LiftedHolds(shared.ring[..], shared.sent, |shared.taken|, n);
      HeldFit(shared.ring[..], shared.sent, |shared.taken|);
      CopyOut(elements, n);
    }

    /** Lends the first unread bytes, as far as they lie in one piece. */
    method BeginReadData(flags: ReadFlags, ghost p: Producer) returns (r: MojoResult, n: nat)
      requires Consistent(p, this)
      modifies this`inTwoPhaseRead, this`twoPhaseMaxBytesRead
      ensures Consistent(p, this)
      ensures r.OK? <==> old(MayRead()) && flags.Lendable() && bytesAvailable > 0
      ensures !r.OK? ==> r == if isClosed || inTransit then InvalidArgument
                              else if old(inTwoPhaseRead) then Busy
                              else if !flags.Lendable() then InvalidArgument
                              else if peerClosed then FailedPrecondition else ShouldWait
      ensures r.OK? ==>
                  inTwoPhaseRead && 0 < n == twoPhaseMaxBytesRead <= |Rest()| &&
                  readOffset + n <= shared.ring.Length &&
                        shared.ring[readOffset..readOffset + n] == Rest()[..n]
      ensures !r.OK? ==> inTwoPhaseRead == old(inTwoPhaseRead) && twoPhaseMaxBytesRead == old(twoPhaseMaxBytesRead)
    {
      n := 0;
      if isClosed || inTransit { return InvalidArgument, 0; }
      if inTwoPhaseRead { return Busy, 0; }
      if flags.discard || flags.query || flags.peek { return InvalidArgument, 0; }
      if bytesAvailable == 0 { return if peerClosed then FailedPrecondition else ShouldWait, 0; }
      n := Min(bytesAvailable, shared.ring.Length - readOffset);
      LentIs(n, p);
      inTwoPhaseRead, twoPhaseMaxBytesRead := true, n;
      r := OK;
    }

    lemma LentIs(n: nat, p: Producer)
      requires Consistent(p, this) && !isClosed && n <= bytesAvailable && readOffset + n <= shared.ring.Length
      ensures n <= |Rest()| && shared.ring[readOffset..readOffset + n] == Rest()[..n]
    {
      hide Holds, At;
      assert shared.ring[readOffset..readOffset + n] == shared.ring[..][readOffset..readOffset + n];
      InOnePiece(shared.ring[..], shared.sent, |shared.taken|, n);
      assert Rest()[..n] == shared.sent[|shared.taken|..|shared.taken| + n];
    }

    /** While bytes are lent, they are what they were, whatever the producer has done since. */
    lemma LentStays(p: Producer)
      requires Consistent(p, this) && !isClosed && inTwoPhaseRead
      ensures twoPhaseMaxBytesRead <= |Rest()| && readOffset + twoPhaseMaxBytesRead <= shared.ring.Length
      ensures shared.ring[readOffset..readOffset + twoPhaseMaxBytesRead] == Rest()[..twoPhaseMaxBytesRead]
    {
      LentIs(twoPhaseMaxBytesRead, p);
    }

    /** A consumer that was closed while it lent bytes fails a check here. */
    method EndReadData(numBytesRead: nat, ghost p: Producer) returns (r: MojoResult)
      requires Consistent(p, this) && numBytesRead < TWO_TO_THE_32
      modifies this`readOffset, this`bytesAvailable, this`inTwoPhaseRead, this`twoPhaseMaxBytesRead
      modifies shared`toProducer, shared`taken
      ensures Consistent(p, this) && (inTwoPhaseRead <==> r.CheckFailed?)
      ensures r.CheckFailed? <==> old(inTwoPhaseRead) && isClosed
      ensures r.FailedPrecondition? <==> !old(inTwoPhaseRead)
      ensures r.OK? <==> old(inTwoPhaseRead) && !isClosed && numBytesRead <= old(twoPhaseMaxBytesRead) &&
                         numBytesRead % elementSize == 0
      ensures r.OK? || r.FailedPrecondition? || r.InvalidArgument? || r.CheckFailed?
      ensures r.OK? ==> numBytesRead <= |old(Rest())| && shared.taken == old(shared.taken) + old(Rest())[..numBytesRead]
      ensures r.OK? ==> bytesAvailable == old(bytesAvailable) - numBytesRead
      ensures !r.OK? ==> shared.taken == old(shared.taken) && bytesAvailable == old(bytesAvailable)
    {
      if !inTwoPhaseRead { return FailedPrecondition; }
      if inTransit { return InvalidArgument; }
      if isClosed { return CheckFailed; }
      if numBytesRead > twoPhaseMaxBytesRead || numBytesRead % elementSize != 0 {
        r := InvalidArgument;
      } else {
        r := OK;
        Consume(numBytesRead, p);
      }
      inTwoPhaseRead, twoPhaseMaxBytesRead := false, 0;
    }

    /** Takes in the control messages that have arrived; closure is only recorded after the last. */
    method UpdateSignalsState(arrived: nat, closureKnown: bool, ghost p: Producer)
      requires Consistent(p, this) && !isClosed
      requires arrived <= |shared.toConsumer| && (closureKnown ==> shared.producerClosed)
      modifies this`peerClosed, this`bytesAvailable, shared`toConsumer
      ensures Consistent(p, this)
      ensures inTransit ==> shared.toConsumer == old(shared.toConsumer) && bytesAvailable == old(bytesAvailable)
      ensures !inTransit ==> shared.toConsumer == old(shared.toConsumer)[arrived..] &&
                             bytesAvailable == old(bytesAvailable) + Sum(old(shared.toConsumer)[..arrived])
      ensures peerClosed <==> old(peerClosed) || (closureKnown && shared.toConsumer == [])
    {
      if closureKnown && shared.toConsumer == [] { peerClosed := true; }
      if arrived > 0 && !inTransit {
        ghost var was := shared.toConsumer;
        var done := 0;
        var more := true;
        while more
          invariant done <= arrived && shared.toConsumer == was[done..]
          invariant bytesAvailable == old(bytesAvailable) + Sum(was[..done])
          invariant peerClosed <==> old(peerClosed) || (closureKnown && !more && done == |was|)
          invariant !more ==> done == arrived
          decreases more, arrived - done
        {
          if closureKnown && shared.toConsumer == [] {
            peerClosed := true;
            more := false;
          } else if done == arrived {
            more := false;
          } else {
            var m := shared.toConsumer[0];
            TakenFirst(was, done);
            assert m in was && m.DataWasWritten?;
            // The producer never claims to have written too many bytes.
            assert bytesAvailable + m.numBytes <= shared.ring.Length;
            bytesAvailable := bytesAvailable + m.numBytes;
            assert was[..done + 1] == was[..done] + [m];
            AddedLast(was[..done], m);
            shared.toConsumer := shared.toConsumer[1..];
            done := done + 1;
          }
        }
        TakenFirst(was, arrived);
      }
    }

    // ----- Moving the consumer to another node -----

    method BeginTransit() returns (ok: bool)
      modifies this`inTransit
      ensures ok <==> !old(inTransit) && !inTwoPhaseRead
      ensures inTransit == (old(inTransit) || ok)
    {
      if inTransit { return false; }
      inTransit := !inTwoPhaseRead;
      return inTransit;
    }

    method CancelTransit(arrived: nat, closureKnown: bool, ghost p: Producer)
      requires Consistent(p, this) && inTransit && !isClosed
      requires arrived <= |shared.toConsumer| && (closureKnown ==> shared.producerClosed)
      modifies this`inTransit, this`peerClosed, this`bytesAvailable, shared`toConsumer
      ensures Consistent(p, this) && !inTransit && shared.toConsumer == old(shared.toConsumer)[arrived..]
      ensures bytesAvailable == old(bytesAvailable) + Sum(old(shared.toConsumer)[..arrived])
      ensures peerClosed <==> old(peerClosed) || (closureKnown && shared.toConsumer == [])
    {
      inTransit := false;
      UpdateSignalsState(arrived, closureKnown, p);
    }

    function EndSerialize(): SerializedConsumer
      requires inTransit
      reads this
    {
      SerializedConsumer(elementSize, peerClosed, readOffset, bytesAvailable)
    }

    constructor Deserialize(state: SerializedConsumer, shared: Shared)
      ensures this.shared == shared && elementSize == state.elementSize && peerClosed == state.peerClosed
      ensures readOffset == state.readOffset && bytesAvailable == state.bytesAvailable
      ensures !isClosed && !inTwoPhaseRead && !inTransit
    {
      this.shared, elementSize, peerClosed := shared, state.elementSize, state.peerClosed;
      readOffset, bytesAvailable, twoPhaseMaxBytesRead := state.readOffset, state.bytesAvailable, 0;
      isClosed, inTwoPhaseRead, inTransit := false, false, false;
    }

    method CompleteTransitAndClose()
      requires inTransit
      modifies this`inTransit, this`isClosed
      ensures !inTransit && isClosed
    {
      inTransit := false;
      isClosed := true;
    }

    method Close(ghost p: Producer) returns (r: MojoResult)
      requires Consistent(p, this)
      modifies this`isClosed, shared`consumerClosed
      ensures Consistent(p, this)
      ensures r == if !old(isClosed) && !inTransit then OK else InvalidArgument
      ensures isClosed == (old(isClosed) || r.OK?)
    {
      if isClosed || inTransit { return InvalidArgument; }
      isClosed := true;
      shared.consumerClosed := true;
      return OK;
    }
  }

  // ----- The hand-over in the middle of a stream -----

  method Create(capacity: nat, elementSize: nat) returns (p: Producer, c: Consumer)
    requires 0 < capacity <= MAX_CAPACITY && elementSize > 0
    ensures fresh(p) && fresh(c) && Consistent(p, c) && !p.isClosed && !c.isClosed && p.shared.ring.Length == capacity
    ensures p.shared.sent == p.shared.taken == [] && p.elementSize == c.elementSize == elementSize
  {
    var shared := new Shared(capacity);
    p := new Producer(shared, elementSize);
    c := new Consumer(shared, elementSize);
  }

  /** What a producer in transit wrote down of itself still holds. */
  ghost predicate ProducerNote(p: Producer, state: SerializedProducer)
    reads p
  {
    p.inTransit && !p.isClosed && state.elementSize == p.elementSize && (state.peerClosed ==> p.peerClosed) &&
    state.writeOffset == p.writeOffset && state.availableCapacity == p.availableCapacity
  }

  ghost predicate ConsumerNote(c: Consumer, state: SerializedConsumer)
    reads c
  {
    c.inTransit && !c.isClosed && state.elementSize == c.elementSize && (state.peerClosed ==> c.peerClosed) &&
    state.readOffset == c.readOffset && state.bytesAvailable == c.bytesAvailable
  }

  /** A producer arrives from what was written down, and the one that was in transit is done with: the
      agreement with the consumer carries over. */
  method LandProducer(p: Producer, state: SerializedProducer, ghost c: Consumer) returns (q: Producer)
    requires Consistent(p, c) && ProducerNote(p, state)
    modifies p`inTransit, p`isClosed
    ensures Consistent(q, c) && q.shared == p.shared && !q.isClosed && !q.inTransit && fresh(q)
    ensures q.availableCapacity == p.availableCapacity && q.writeOffset == p.writeOffset && !q.inTwoPhaseWrite
    ensures q.peerClosed == state.peerClosed && q.elementSize == p.elementSize
  {
    q := new Producer.Deserialize(state, p.shared);
    p.CompleteTransitAndClose();
  }

  method LandConsumer(ghost p: Producer, c: Consumer, state: SerializedConsumer) returns (d: Consumer)
    requires Consistent(p, c) && ConsumerNote(c, state)
    modifies c`inTransit, c`isClosed
    ensures Consistent(p, d) && d.shared == c.shared && !d.isClosed && !d.inTransit && fresh(d)
    ensures d.bytesAvailable == c.bytesAvailable && d.readOffset == c.readOffset && !d.inTwoPhaseRead
    ensures d.peerClosed == state.peerClosed && d.elementSize == c.elementSize
  {
    d := new Consumer.Deserialize(state, c.shared);
    c.CompleteTransitAndClose();
  }

  // ----- Every interleaving -----

  /** What the users of the two ends, and the nodes they are on, may do next. */
  datatype Op =
    | Write(elements: seq<Byte>, allOrNone: bool)
    | BeginWrite
    | WriteInPlace(i: nat, b: Byte)
    | EndWrite(n: nat)
    | HearConsumer(arrived: nat, closureKnown: bool)
    | CloseProducer
    | SendProducer
    | NoteProducer
    | KeepProducer
    | ArriveProducer
    | Read(n: nat, flags: ReadFlags)
    | BeginRead(flags: ReadFlags)
    | EndRead(n: nat)
    | HearProducer(arrived: nat, closureKnown: bool)
    | CloseConsumer
    | SendConsumer
    | NoteConsumer
    | KeepConsumer(arrived: nat, closureKnown: bool)
    | ArriveConsumer

  predicate ForProducer(op: Op) {
    op.Write? || op.BeginWrite? || op.WriteInPlace? || op.EndWrite? || op.HearConsumer? || op.CloseProducer?
  }

  predicate ForConsumer(op: Op) {
    op.Read? || op.BeginRead? || op.EndRead? || op.HearProducer? || op.CloseConsumer?
  }

  predicate MovesProducer(op: Op) { op.SendProducer? || op.NoteProducer? || op.KeepProducer? || op.ArriveProducer? }

  predicate MovesConsumer(op: Op) { op.SendConsumer? || op.NoteConsumer? || op.KeepConsumer? || op.ArriveConsumer? }

  /** Numbers that fit their 32 bits. */
  predicate Fits(op: Op) {
    match op
    case Write(elements, _) => |elements| < TWO_TO_THE_32
    case EndWrite(n) => n < TWO_TO_THE_32
    case Read(n, _) => n < TWO_TO_THE_32
    case EndRead(n) => n < TWO_TO_THE_32
    case _ => true
  }

  /** The two ends, and what each has written down of itself while it is being moved. */
  datatype Ends = Ends(
    producer: Producer, consumer: Consumer, noteP: Option<SerializedProducer>, noteC: Option<SerializedConsumer>)

  ghost predicate Sound(e: Ends)
    reads e.producer, e.consumer, e.producer.shared, e.producer.shared.ring
  {
    e.producer.elementSize > 0 && e.consumer.elementSize > 0 &&
    Consistent(e.producer, e.consumer) && (e.noteP.Some? ==> ProducerNote(e.producer, e.noteP.value)) &&
    (e.noteC.Some? ==> ConsumerNote(e.consumer, e.noteC.value))
  }

  /** The consumer lends bytes. */
  predicate Lends(c: Consumer)
    reads c
  {
    c.inTwoPhaseRead && !c.isClosed
  }

  /** How many bytes the operation adds to what was written. */
  function Adds(p: Producer, op: Op): nat
    requires p.elementSize > 0
    reads p
  {
    match op
    case Write(elements, allOrNone) =>
      if p.MayWrite() && |elements| % p.elementSize == 0 && !(allOrNone && |elements| > p.shared.ring.Length)
      then Min(|elements|, p.availableCapacity) else 0
    case EndWrite(n) =>
      if !p.isClosed && !p.inTransit && p.inTwoPhaseWrite && n <= p.availableCapacity && n % p.elementSize == 0 &&
         p.writeOffset + n <= p.shared.ring.Length
      then n else 0
    case _ => 0
  }

  /** How many bytes the operation takes. */
  function Takes(c: Consumer, op: Op): nat
    requires c.elementSize > 0
    reads c
  {
    match op
    case Read(n, flags) =>
      if c.MayRead() && !flags.query && !flags.peek && n % c.elementSize == 0 && !(flags.allOrNone &&
          n > c.bytesAvailable)
      then Min(n, c.bytesAvailable) else 0
    case EndRead(n) =>
      if Lends(c) && n <= c.twoPhaseMaxBytesRead && n % c.elementSize == 0 then n else 0
    case _ => 0
  }

  /** However the operations of the two ends are mixed, the ends agree, what was read or discarded
      is a prefix of what was written, and neither is ever taken back. */
  method Interleave(start: Ends, ops: seq<Op>) returns (e: Ends)
    requires Sound(start) && forall op :: op in ops ==> Fits(op)
    modifies start.producer, start.consumer, start.producer.shared, start.producer.shared.ring
    ensures Sound(e) && e.producer.shared == start.producer.shared && e.producer.shared.taken <= e.producer.shared.sent
    ensures old(start.producer.shared.taken) <= e.producer.shared.taken
    ensures old(start.producer.shared.sent) <= e.producer.shared.sent
  {
    e := start;
    for i := 0 to |ops|
      invariant Sound(e) && e.producer.shared == start.producer.shared
      invariant (e.producer == start.producer || fresh(e.producer))
      invariant (e.consumer == start.consumer || fresh(e.consumer))
      invariant old(start.producer.shared.taken) <= e.producer.shared.taken
      invariant old(start.producer.shared.sent) <= e.producer.shared.sent
    {
      hide Sound;
      assert ops[i] in ops;
      SoundShares(e);
      e := Perform(e, ops[i]);
    }
    SoundShares(e);
  }

  /** From BeginReadData until EndReadData the bytes that are lent do not change, whatever else is done
      at either end. */
  method InterleaveWhileLent(start: Ends, ops: seq<Op>) returns (e: Ends)
    requires Sound(start) && Lends(start.consumer)
    requires forall op :: op in ops ==> Fits(op) && !op.EndRead? && !op.CloseConsumer?
    modifies start.producer, start.consumer, start.producer.shared, start.producer.shared.ring
    ensures Sound(e) && e.producer.shared == start.producer.shared && e.consumer == start.consumer && Lends(e.consumer)
    ensures var c, ring := e.consumer, e.producer.shared.ring;
            c.readOffset == old(c.readOffset) && c.twoPhaseMaxBytesRead == old(c.twoPhaseMaxBytesRead) &&
            c.readOffset + c.twoPhaseMaxBytesRead <= ring.Length &&
            ring[c.readOffset..c.readOffset + c.twoPhaseMaxBytesRead] ==
            old(ring[c.readOffset..c.readOffset + c.twoPhaseMaxBytesRead])
  {
    hide Sound, Consistent, Holds, At;
    var c, s := start.consumer, start.producer.shared;
    SoundShares(start);
    c.LentStays(start.producer);
    ghost var n, rest := c.twoPhaseMaxBytesRead, c.Rest();
    e := start;
    for i := 0 to |ops|
      invariant Sound(e) && e.producer.shared == s && e.consumer == c
      invariant (e.producer == start.producer || fresh(e.producer))
      invariant Lends(c) && c.readOffset == old(c.readOffset) && c.twoPhaseMaxBytesRead == old(c.twoPhaseMaxBytesRead)
      invariant s.taken == old(s.taken) && old(s.sent) <= s.sent
    {
      assert ops[i] in ops;
      SoundShares(e);
      e := Perform(e, ops[i]);
    }
    SoundShares(e);
    c.LentStays(e.producer);
    assert c.Rest()[..n] == rest[..n];
  }

  /** While a consumer that was written down is on its way, nothing the producer does changes it. */
  method WhileConsumerTravels(start: Ends, ops: seq<Op>) returns (e: Ends)
    requires Sound(start) && forall op :: op in ops ==> Fits(op) && (ForProducer(op) || MovesProducer(op))
    modifies start.producer, start.consumer, start.producer.shared, start.producer.shared.ring
    ensures Sound(e) && e.producer.shared == start.producer.shared && e.consumer == start.consumer
    ensures e.noteC == start.noteC
    ensures e.producer == start.producer || fresh(e.producer)
    ensures unchanged(start.consumer) && e.producer.shared.taken == old(start.producer.shared.taken)
  {
    hide Sound, Consistent, Adds, Takes, ProducerMoved, ConsumerMoved;
    e := start;
    SoundShares(start);
    for i := 0 to |ops|
      invariant Sound(e) && e.producer.shared == start.producer.shared && e.consumer == start.consumer
      invariant e.noteC == start.noteC && (e.producer == start.producer || fresh(e.producer))
      invariant unchanged(start.consumer) && e.producer.shared.taken == old(start.producer.shared.taken)
    {
      assert ops[i] in ops;
      SoundShares(e);
      TakesNothing(e, ops[i]);
      e := Perform(e, ops[i]);
      SoundShares(e);
    }
  }

  method WhileProducerTravels(start: Ends, ops: seq<Op>) returns (e: Ends)
    requires Sound(start) && forall op :: op in ops ==> Fits(op) && (ForConsumer(op) || MovesConsumer(op))
    modifies start.producer, start.consumer, start.producer.shared, start.producer.shared.ring
    ensures Sound(e) && e.producer == start.producer && e.noteP == start.noteP
    ensures e.consumer == start.consumer || fresh(e.consumer)
    ensures unchanged(start.producer) && e.producer.shared.sent == old(start.producer.shared.sent)
  {
    hide Sound, Consistent, Adds, Takes, ProducerMoved, ConsumerMoved;
    e := start;
    SoundShares(start);
    for i := 0 to |ops|
      invariant Sound(e) && e.producer == start.producer && e.noteP == start.noteP
      invariant e.consumer == start.consumer || fresh(e.consumer)
      invariant unchanged(start.producer) && e.producer.shared.sent == old(start.producer.shared.sent)
    {
      assert ops[i] in ops;
      SoundShares(e);
      TakesNothing(e, ops[i]);
      e := Perform(e, ops[i]);
      SoundShares(e);
    }
  }

  /** A consumer that is sent away, written down, and arrives, knows what it knew: a closure that it had
      recorded is recorded where it arrives, and none other, whatever the producer does in between.  Its
      offset, its bytes and its element size stay, so its calls answer as they did. */
  method MoveConsumerAcross(start: Ends, ops: seq<Op>) returns (e: Ends)
    requires Sound(start) && start.consumer.MayRead()
    requires forall op :: op in ops ==> Fits(op) && (ForProducer(op) || MovesProducer(op))
    modifies start.producer, start.consumer, start.producer.shared, start.producer.shared.ring
    ensures Sound(e) && e.producer.shared == start.producer.shared && fresh(e.consumer) && e.consumer.MayRead()
    ensures e.consumer.peerClosed == old(start.consumer.peerClosed)
    ensures e.consumer.elementSize == start.consumer.elementSize
    ensures e.consumer.bytesAvailable == old(start.consumer.bytesAvailable)
    ensures e.consumer.readOffset == old(start.consumer.readOffset)
    ensures e.producer.shared.taken == old(start.producer.shared.taken)
  {
    hide Holds, At, Room, Unread, Typed;
    e := MoveConsumer(start, SendConsumer);
    e := MoveConsumer(e, NoteConsumer);
    e := WhileConsumerTravels(e, ops);
    e := MoveConsumer(e, ArriveConsumer);
  }

  /** The same for a producer, whatever the consumer does in between. */
  method MoveProducerAcross(start: Ends, ops: seq<Op>) returns (e: Ends)
    requires Sound(start) && !start.producer.isClosed && !start.producer.inTransit && !start.producer.inTwoPhaseWrite
    requires forall op :: op in ops ==> Fits(op) && (ForConsumer(op) || MovesConsumer(op))
    modifies start.producer, start.consumer, start.producer.shared, start.producer.shared.ring
    ensures Sound(e) && e.producer.shared == start.producer.shared && fresh(e.producer)
    ensures !e.producer.isClosed && !e.producer.inTransit && !e.producer.inTwoPhaseWrite
    ensures e.producer.peerClosed == old(start.producer.peerClosed)
    ensures e.producer.elementSize == start.producer.elementSize
    ensures e.producer.availableCapacity == old(start.producer.availableCapacity)
    ensures e.producer.writeOffset == old(start.producer.writeOffset)
    ensures e.producer.shared.sent == old(start.producer.shared.sent)
  {
    hide Holds, At, Room, Unread, Typed;
    e := MoveProducer(start, SendProducer);
    e := MoveProducer(e, NoteProducer);
    e := WhileProducerTravels(e, ops);
    e := MoveProducer(e, ArriveProducer);
  }

  lemma SoundShares(e: Ends)
    requires Sound(e)
    ensures Consistent(e.producer, e.consumer) && e.consumer.shared == e.producer.shared
    ensures e.producer.shared.taken <= e.producer.shared.sent && e.producer.elementSize > 0
    ensures e.consumer.elementSize > 0
  {
  }

  /** What each step of a move does, if the producer was in transit, or closed, as said. */
  ghost predicate ProducerMoved(e: Ends, f: Ends, op: Op, inTransit: bool, isClosed: bool)
    reads e.producer, f.producer
  {
    (op.SendProducer? ==> f.producer == e.producer && f.noteP == e.noteP &&
                          (!isClosed && !e.producer.inTwoPhaseWrite ==> e.producer.inTransit)) &&
    (op.NoteProducer? && inTransit && !isClosed ==>
       f.producer == e.producer && f.noteP.Some? && f.noteP.value.peerClosed == e.producer.peerClosed) &&
    (op.KeepProducer? && inTransit ==> f.producer == e.producer && !f.producer.inTransit && f.noteP.None?) &&
    (op.ArriveProducer? && e.noteP.Some? ==>
       f.producer != e.producer && f.noteP.None? && !f.producer.inTransit && !f.producer.isClosed &&
       !f.producer.inTwoPhaseWrite && f.producer.peerClosed == e.noteP.value.peerClosed &&
       f.producer.elementSize == e.producer.elementSize && f.producer.writeOffset == e.producer.writeOffset &&
       f.producer.availableCapacity == e.producer.availableCapacity)
  }

  ghost predicate ConsumerMoved(e: Ends, f: Ends, op: Op, inTransit: bool, isClosed: bool)
    reads e.consumer, f.consumer
  {
    (op.SendConsumer? ==> f.consumer == e.consumer && f.noteC == e.noteC &&
                          (!isClosed && !e.consumer.inTwoPhaseRead ==> e.consumer.inTransit)) &&
    (op.NoteConsumer? && inTransit && !isClosed ==>
       f.consumer == e.consumer && f.noteC.Some? && f.noteC.value.peerClosed == e.consumer.peerClosed) &&
    (op.ArriveConsumer? && e.noteC.Some? ==>
       f.consumer != e.consumer && f.noteC.None? && !f.consumer.inTransit && !f.consumer.isClosed &&
       !f.consumer.inTwoPhaseRead && f.consumer.peerClosed == e.noteC.value.peerClosed &&
       f.consumer.elementSize == e.consumer.elementSize && f.consumer.readOffset == e.consumer.readOffset &&
       f.consumer.bytesAvailable == e.consumer.bytesAvailable)
  }

  method Perform(e: Ends, op: Op) returns (f: Ends)
    requires Sound(e) && Fits(op)
    modifies e.producer, e.consumer, e.producer.shared, e.producer.shared.ring
    ensures Sound(f) && f.producer.shared == e.producer.shared
    ensures (f.producer == e.producer || fresh(f.producer)) && (f.consumer == e.consumer || fresh(f.consumer))
    ensures old(e.producer.shared.taken) <= f.producer.shared.taken
    ensures old(e.producer.shared.sent) <= f.producer.shared.sent
    ensures |f.producer.shared.sent| == old(|e.producer.shared.sent| + Adds(e.producer, op))
    ensures op.Write? ==> f.producer.shared.sent == old(e.producer.shared.sent + op.elements[..Adds(e.producer, op)])
    ensures |f.producer.shared.taken| == old(|e.producer.shared.taken| + Takes(e.consumer, op))
    ensures MovesProducer(op) ==> ProducerMoved(e, f, op, old(e.producer.inTransit), old(e.producer.isClosed))
    ensures MovesConsumer(op) ==> ConsumerMoved(e, f, op, old(e.consumer.inTransit), old(e.consumer.isClosed))
    ensures ForProducer(op) || MovesProducer(op) ==>
                f.consumer == e.consumer && f.noteC == e.noteC && unchanged(e.consumer)
    ensures ForConsumer(op) || MovesConsumer(op) ==>
                f.producer == e.producer && f.noteP == e.noteP && unchanged(e.producer)
    ensures old(Lends(e.consumer)) && !op.EndRead? && !op.CloseConsumer? ==>
              f.consumer == e.consumer && Lends(f.consumer) && f.consumer.readOffset == old(e.consumer.readOffset) &&
              f.consumer.twoPhaseMaxBytesRead == old(e.consumer.twoPhaseMaxBytesRead) &&
              f.producer.shared.taken == old(e.producer.shared.taken)
  {
    hide Adds, Takes, ProducerMoved, ConsumerMoved, Consistent, Fits;
    TakesNothing(e, op);
    if ForProducer(op) {
      ProducerStep(e.producer, e.consumer, op);
      f := e;
    } else if ForConsumer(op) {
      ConsumerStep(e.producer, e.consumer, op);
      f := e;
    } else if MovesProducer(op) {
      f := MoveProducer(e, op);
    } else {
      f := MoveConsumer(e, op);
    }
  }

  /** Operations of one end add nothing, or take nothing, at the other. */
  lemma TakesNothing(e: Ends, op: Op)
    requires Sound(e)
    ensures e.producer.elementSize > 0 && e.consumer.elementSize > 0
    ensures !ForProducer(op) ==> Adds(e.producer, op) == 0
    ensures !ForConsumer(op) ==> Takes(e.consumer, op) == 0
  {
  }

  method ProducerStep(p: Producer, c: Consumer, op: Op)
    requires Consistent(p, c) && Fits(op) && ForProducer(op)
    modifies p, p.shared, p.shared.ring
    ensures Consistent(p, c) && p.shared.taken == old(p.shared.taken) && old(p.shared.sent) <= p.shared.sent
    ensures |p.shared.sent| == old(|p.shared.sent| + Adds(p, op))
    ensures op.Write? ==> p.shared.sent == old(p.shared.sent + op.elements[..Adds(p, op)])
    ensures op.BeginWrite? && old(p.MayWrite() && p.availableCapacity > 0) ==> p.inTwoPhaseWrite
    ensures op.HearConsumer? && !p.isClosed && !p.inTransit && op.arrived <= old(|p.shared.toProducer|) ==>
              p.shared.toProducer == old(p.shared.toProducer)[op.arrived..]
    ensures op.WriteInPlace? && old(!p.isClosed && p.inTwoPhaseWrite && op.i < p.lent) ==>
              p.shared.ring[..] == old(p.shared.ring[..][p.writeOffset + op.i := op.b])
    ensures op.CloseProducer? && !p.inTransit ==> p.isClosed
    ensures old(p.inTransit) ==> p.inTransit && p.isClosed == old(p.isClosed) && (old(p.peerClosed) ==> p.peerClosed) &&
                                 p.writeOffset == old(p.writeOffset) && p.availableCapacity == old(p.availableCapacity)
  {
    hide Holds, At, Room, Unread, Typed;
    match op {
      case Write(elements, allOrNone) => var r, n := p.WriteData(elements, allOrNone, c);
      case BeginWrite => var r, n := p.BeginWriteData(c);
      case WriteInPlace(i, b) => if !p.isClosed && p.inTwoPhaseWrite && i < p.lent { p.WriteLent(i, b, c); }
      case EndWrite(n) => var r := p.EndWriteData(n, c);
      case HearConsumer(arrived, known) =>
        if !p.isClosed && arrived <= |p.shared.toProducer| {
          p.UpdateSignalsState(arrived, known && p.shared.consumerClosed, c);
        }
      case CloseProducer => var r := p.Close(c);
    }
  }

  lemma BeforeStep(p: Producer, c: Consumer, op: Op)
    requires Consistent(p, c)
    ensures p.shared == c.shared && (c.inTransit ==> !Lends(c)) && (!op.Read? && !op.EndRead? ==> Takes(c, op) == 0)
  {
  }

  method ReadStep(p: Producer, c: Consumer, n: nat, flags: ReadFlags)
    requires Consistent(p, c) && n < TWO_TO_THE_32
    modifies c`readOffset, c`bytesAvailable, c`inTwoPhaseRead, c`twoPhaseMaxBytesRead, p.shared`toProducer,
        p.shared`taken
    ensures Consistent(p, c) && old(p.shared.taken) <= p.shared.taken && c.inTwoPhaseRead == old(c.inTwoPhaseRead)
    ensures |p.shared.taken| == old(|p.shared.taken| + Takes(c, Op.Read(n, flags)))
    ensures old(!c.MayRead()) ==> p.shared.taken == old(p.shared.taken) && c.readOffset == old(c.readOffset) &&
                                  c.twoPhaseMaxBytesRead == old(c.twoPhaseMaxBytesRead) &&
                                  c.bytesAvailable == old(c.bytesAvailable)
  {
    hide Holds, At, Room, Unread, Typed;
    var elements := new Byte[n](_ => 0);
    var r, got := c.ReadData(elements, n, flags, p);
  }

  method EndReadStep(p: Producer, c: Consumer, n: nat)
    requires Consistent(p, c) && n < TWO_TO_THE_32
    modifies c`readOffset, c`bytesAvailable, c`inTwoPhaseRead, c`twoPhaseMaxBytesRead, p.shared`toProducer,
        p.shared`taken
    ensures Consistent(p, c) && old(p.shared.taken) <= p.shared.taken
    ensures |p.shared.taken| == old(|p.shared.taken| + Takes(c, Op.EndRead(n)))
    ensures old(!Lends(c)) ==> c.readOffset == old(c.readOffset) && c.bytesAvailable == old(c.bytesAvailable)
  {
    hide Holds, Room, Unread, Typed;
    var r := c.EndReadData(n, p);
  }

  method ConsumerStep(p: Producer, c: Consumer, op: Op)
    requires Consistent(p, c) && Fits(op) && ForConsumer(op)
    modifies c, p.shared
    ensures Consistent(p, c) && p.shared.sent == old(p.shared.sent) && old(p.shared.taken) <= p.shared.taken
    ensures |p.shared.taken| == old(|p.shared.taken| + Takes(c, op))
    ensures op.BeginRead? && op.flags.Lendable() && old(c.MayRead() && c.bytesAvailable > 0) ==> c.inTwoPhaseRead
    ensures op.HearProducer? && !c.isClosed && !c.inTransit && op.arrived <= old(|p.shared.toConsumer|) ==>
              p.shared.toConsumer == old(p.shared.toConsumer)[op.arrived..]
    ensures op.CloseConsumer? && !c.inTransit ==> c.isClosed
    ensures old(c.inTransit) ==> c.inTransit && c.isClosed == old(c.isClosed) && (old(c.peerClosed) ==> c.peerClosed) &&
                                 c.readOffset == old(c.readOffset) && c.bytesAvailable == old(c.bytesAvailable)
    ensures old(Lends(c)) && !op.EndRead? && !op.CloseConsumer? ==>
              Lends(c) && c.readOffset == old(c.readOffset) && c.twoPhaseMaxBytesRead == old(c.twoPhaseMaxBytesRead) &&
              p.shared.taken == old(p.shared.taken)
  {
    hide Consistent, Takes;
    BeforeStep(p, c, op);
    match op {
      case Read(n, flags) => ReadStep(p, c, n, flags);
      case BeginRead(flags) => var r, n := c.BeginReadData(flags, p);
      case EndRead(n) => EndReadStep(p, c, n);
      case HearProducer(arrived, known) =>
        if !c.isClosed && arrived <= |p.shared.toConsumer| {
          c.UpdateSignalsState(arrived, known && p.shared.producerClosed, p);
        }
      case CloseConsumer => var r := c.Close(p);
    }
  }

  /** A move begins, is written down, is given up, or is completed where the producer arrives. */
  method MoveProducer(e: Ends, op: Op) returns (f: Ends)
    requires Sound(e) && MovesProducer(op)
    modifies e.producer`inTransit, e.producer`isClosed
    ensures Sound(f) && f.consumer == e.consumer && f.noteC == e.noteC && f.producer.shared == e.producer.shared
    ensures ProducerMoved(e, f, op, old(e.producer.inTransit), old(e.producer.isClosed))
    ensures f.producer == e.producer || fresh(f.producer)
    ensures op.SendProducer? || op.NoteProducer? ==> e.producer.isClosed == old(e.producer.isClosed)
    ensures op.NoteProducer? ==> e.producer.inTransit == old(e.producer.inTransit)
  {
    var p := e.producer;
    f := e;
    if op.SendProducer? && !p.isClosed {
      var ok := p.BeginTransit();
    } else if op.NoteProducer? && p.inTransit && !p.isClosed {
      f := e.(noteP := Some(p.EndSerialize()));
    } else if op.KeepProducer? && p.inTransit {
      p.CancelTransit();
      f := e.(noteP := None);
    } else if op.ArriveProducer? && e.noteP.Some? {
      var q := LandProducer(p, e.noteP.value, e.consumer);
      f := e.(producer := q, noteP := None);
    }
  }

  method MoveConsumer(e: Ends, op: Op) returns (f: Ends)
    requires Sound(e) && MovesConsumer(op)
    modifies e.consumer, e.producer.shared`toConsumer
    ensures Sound(f) && f.producer == e.producer && f.noteP == e.noteP
    ensures (f.consumer == e.consumer || fresh(f.consumer))
    ensures ConsumerMoved(e, f, op, old(e.consumer.inTransit), old(e.consumer.isClosed))
    ensures !op.KeepConsumer? ==> e.consumer.peerClosed == old(e.consumer.peerClosed) &&
                                  e.consumer.bytesAvailable == old(e.consumer.bytesAvailable) &&
                                  e.consumer.readOffset == old(e.consumer.readOffset)
    ensures op.ArriveConsumer? && e.noteC.Some? ==> fresh(f.consumer)
    ensures op.KeepConsumer? && op.arrived <= old(|e.producer.shared.toConsumer|) ==>
              old(e.consumer.inTransit && !e.consumer.isClosed) ==> !f.consumer.inTransit && f.noteC.None?
    ensures op.SendConsumer? || op.NoteConsumer? ==> e.consumer.isClosed == old(e.consumer.isClosed) &&
                                                     e.consumer.inTwoPhaseRead == old(e.consumer.inTwoPhaseRead)
    ensures op.NoteConsumer? ==> e.consumer.inTransit == old(e.consumer.inTransit)
    ensures old(Lends(e.consumer)) ==>
              f.consumer == e.consumer && Lends(f.consumer) && f.consumer.readOffset == old(e.consumer.readOffset) &&
              f.consumer.twoPhaseMaxBytesRead == old(e.consumer.twoPhaseMaxBytesRead)
  {
    var p, c := e.producer, e.consumer;
    f := e;
    if op.SendConsumer? && !c.isClosed {
      var ok := c.BeginTransit();
    } else if op.NoteConsumer? && c.inTransit && !c.isClosed {
      f := e.(noteC := Some(c.EndSerialize()));
    } else if op.KeepConsumer? && c.inTransit && !c.isClosed && op.arrived <= |p.shared.toConsumer| {
      c.CancelTransit(op.arrived, op.closureKnown && p.shared.producerClosed, p);
      f := e.(noteC := None);
    } else if op.ArriveConsumer? && e.noteC.Some? {
      var d := LandConsumer(p, c, e.noteC.value);
      f := e.(consumer := d, noteC := None);
    }
  }
}
