/**
 A channel carries messages over a byte stream.  The reader cuts the stream into messages however
 it arrives; the writer puts messages on the wire however much of them the system takes at a time.
 */
module Channels {
  import opened PortState

  const HEADER_SIZE: nat := 8
  const READ_BUFFER_SIZE: nat := 4096
  const MAX_UNUSED_READ_BUFFER_CAPACITY: nat := 256 * 1024
  const MAX_CHANNEL_MESSAGE_SIZE: nat := 256 * 1024 * 1024

  /** A platform handle; the number stands for what the system gives out. */
  type Handle = nat

  datatype Delivery = Delivery(payload: seq<Byte>, handles: seq<Handle>)

  // ----- The header -----

  function Little16(n: nat): (b: seq<Byte>)
    requires n < 0x1_0000
    ensures |b| == 2
  {
    [(n % 256) as Byte, (n / 256) as Byte]
  }

  function Little32(n: nat): (b: seq<Byte>)
    requires n < 0x1_0000_0000
    ensures |b| == 4
  {
    Little16(n % 0x1_0000) + Little16(n / 0x1_0000)
  }

  function From16(b: seq<Byte>): (n: nat)
    requires |b| == 2
    ensures n < 0x1_0000
  {
    b[0] as nat + 256 * b[1] as nat
  }

  function From32(b: seq<Byte>): (n: nat)
    requires |b| == 4
    ensures n < 0x1_0000_0000
  {
    From16(b[..2]) + 0x1_0000 * From16(b[2..])
  }

  lemma LittleRoundTrip(n: nat)
    ensures n < 0x1_0000 ==> From16(Little16(n)) == n
    ensures n < 0x1_0000_0000 ==> From32(Little32(n)) == n
  {
    if n < 0x1_0000_0000 {
      var low, high := Little16(n % 0x1_0000), Little16(n / 0x1_0000);
      assert (low + high)[..2] == low && (low + high)[2..] == high;
    }
  }

  /** The message size in bytes, with the header. */
  function NumBytes(b: seq<Byte>): nat
    requires |b| >= HEADER_SIZE
  {
    From32(b[..4])
  }

  function NumHandles(b: seq<Byte>): nat
    requires |b| >= HEADER_SIZE
  {
    From16(b[4..6])
  }

  // ----- What a stream means -----

  /** The messages in a stream, the bytes and handles left over, and whether all headers were good. */
  datatype Parsed = Parsed(messages: seq<Delivery>, rest: seq<Byte>, handles: seq<Handle>, ok: bool)

  predicate GoodHeader(b: seq<Byte>)
    requires |b| >= HEADER_SIZE
  {
    HEADER_SIZE <= NumBytes(b) <= MAX_CHANNEL_MESSAGE_SIZE
  }

  /** The first message is there in full, with its handles. */
  predicate HasMessage(b: seq<Byte>, handles: seq<Handle>) {
    |b| >= HEADER_SIZE && GoodHeader(b) && |b| >= NumBytes(b) && |handles| >= NumHandles(b)
  }

  function Parse(b: seq<Byte>, handles: seq<Handle>): Parsed
    decreases |b|
  {
    if !HasMessage(b, handles) then Parsed([], b, handles, |b| < HEADER_SIZE || GoodHeader(b)) else
    var n, k := NumBytes(b), NumHandles(b);
    var p := Parse(b[n..], handles[k..]);
    p.(messages := [Delivery(b[HEADER_SIZE..n], handles[..k])] + p.messages)
  }

  lemma MoreKeepsHeader(b: seq<Byte>, more: seq<Byte>)
    requires |b| >= HEADER_SIZE
    ensures NumBytes(b + more) == NumBytes(b) && NumHandles(b + more) == NumHandles(b)
  {
    assert (b + more)[..4] == b[..4] && (b + more)[4..6] == b[4..6];
  }

  /** The first message and what follows it. */
  function First(b: seq<Byte>, handles: seq<Handle>): Delivery
    requires HasMessage(b, handles)
  {
    Delivery(b[HEADER_SIZE..NumBytes(b)], handles[..NumHandles(b)])
  }

  function Before(m: Delivery, p: Parsed): Parsed {
    p.(messages := [m] + p.messages)
  }

  lemma FirstStays(b: seq<Byte>, handles: seq<Handle>, more: seq<Byte>, moreHandles: seq<Handle>)
    requires HasMessage(b, handles)
    ensures HasMessage(b + more, handles + moreHandles) && First(b + more, handles + moreHandles) == First(b, handles)
    ensures NumBytes(b + more) == NumBytes(b) && (b + more)[NumBytes(b)..] == b[NumBytes(b)..] + more
    ensures NumHandles(b + more) == NumHandles(b) &&
            (handles + moreHandles)[NumHandles(b)..] == handles[NumHandles(b)..] + moreHandles
  {
    MoreKeepsHeader(b, more);
    var n, k := NumBytes(b), NumHandles(b);
    assert (b + more)[HEADER_SIZE..n] == b[HEADER_SIZE..n] && (handles + moreHandles)[..k] == handles[..k];
  }

  lemma ParseFirst(b: seq<Byte>, handles: seq<Handle>)
    requires HasMessage(b, handles)
    ensures Parse(b, handles) == Before(First(b, handles), Parse(b[NumBytes(b)..], handles[NumHandles(b)..]))
  {
  }

  lemma ParseNone(b: seq<Byte>, handles: seq<Handle>, more: seq<Byte>, moreHandles: seq<Handle>)
    requires !HasMessage(b, handles)
    ensures Parse(b, handles) == Parsed([], b, handles, |b| < HEADER_SIZE || GoodHeader(b))
    ensures !Parse(b, handles).ok ==>
              Parse(b + more, handles + moreHandles).messages == [] && !Parse(b + more, handles + moreHandles).ok
  {
    if |b| >= HEADER_SIZE { MoreKeepsHeader(b, more); }
  }

  /** What follows the messages of p in a longer stream. */
  predicate GoesOn(p: Parsed, q: Parsed, r: Parsed) {
    if p.ok then q == r.(messages := p.messages + r.messages) else q.messages == p.messages && !q.ok
  }

  lemma BeforeGoesOn(m: Delivery, p: Parsed, q: Parsed, r: Parsed)
    requires GoesOn(p, q, r)
    ensures GoesOn(Before(m, p), Before(m, q), r)
  {
    assert [m] + p.messages + r.messages == [m] + (p.messages + r.messages);
  }

  /** What has been parsed stays parsed when more arrives, and parsing goes on with what was left. */
  lemma {:induction false} ParseGoesOn(b: seq<Byte>, handles: seq<Handle>, more: seq<Byte>, moreHandles: seq<Handle>)
    ensures var p := Parse(b, handles);
            GoesOn(p, Parse(b + more, handles + moreHandles), Parse(p.rest + more, p.handles + moreHandles))
    decreases |b|
  {
    var p := Parse(b, handles);
    if HasMessage(b, handles) {
      hide First, GoesOn, Parse;
      var n, k := NumBytes(b), NumHandles(b);
      FirstStays(b, handles, more, moreHandles);
      ParseFirst(b, handles);
      ParseFirst(b + more, handles + moreHandles);
      ParseGoesOn(b[n..], handles[k..], more, moreHandles);
      BeforeGoesOn(First(b, handles), Parse(b[n..], handles[k..]), Parse(b[n..] + more, handles[k..] + moreHandles),
                   Parse(p.rest + more, p.handles + moreHandles));
    } else {
      ParseNone(b, handles, more, moreHandles);
      var r := Parse(b + more, handles + moreHandles);
      assert [] + r.messages == r.messages;
    }
  }

  /** A header starts with the size of the message and the number of handles, low bytes first. */
  lemma HeaderLayout(b: seq<Byte>)
    requires |b| >= 8
    ensures NumBytes(b) == b[0] as nat + 0x100 * b[1] as nat + 0x1_0000 * b[2] as nat + 0x100_0000 * b[3] as nat
    ensures NumHandles(b) == b[4] as nat + 0x100 * b[5] as nat
  {
    assert b[..4][2..] == b[2..4];
  }

  /** Parsing stops only where it must.  Less than a header is left; or a header whose size is below 8
      bytes or above 256 MB, and then, and only then, the stream is bad; or a message that has not
      arrived in full, or whose handles have not. */
  lemma {:induction false} ParseStops(b: seq<Byte>, handles: seq<Handle>)
    ensures var p := Parse(b, handles);
            p.ok <==> |p.rest| < 8 || 8 <= NumBytes(p.rest) <= 256 * 1024 * 1024
    ensures var p := Parse(b, handles);
            p.ok ==> |p.rest| < 8 || |p.rest| < NumBytes(p.rest) || |p.handles| < NumHandles(p.rest)
    decreases |b|
  {
    if HasMessage(b, handles) { ParseStops(b[NumBytes(b)..], handles[NumHandles(b)..]); }
  }

  /** One arrival: bytes, and the handles that came with them. */
  datatype Arrival = Arrival(bytes: seq<Byte>, handles: seq<Handle>)

  function Bytes(arrivals: seq<Arrival>): seq<Byte> {
    if arrivals == [] then [] else arrivals[0].bytes + Bytes(arrivals[1..])
  }

  function Handles(arrivals: seq<Arrival>): seq<Handle> {
    if arrivals == [] then [] else arrivals[0].handles + Handles(arrivals[1..])
  }

  /** Parsing piece by piece, as long as the headers are good. */
  function ParsePieces(p: Parsed, arrivals: seq<Arrival>): Parsed
    decreases |arrivals|
  {
    if arrivals == [] || !p.ok then p else
    var q := Parse(p.rest + arrivals[0].bytes, p.handles + arrivals[0].handles);
    ParsePieces(q.(messages := p.messages + q.messages), arrivals[1..])
  }

  /** However a stream is cut, the messages are those of one parse of the whole. */
  lemma {:induction false} AnyCutting(b: seq<Byte>, handles: seq<Handle>, arrivals: seq<Arrival>)
    ensures var p, q := ParsePieces(Parse(b, handles), arrivals), Parse(b + Bytes(arrivals),
        handles + Handles(arrivals));
            p.messages == q.messages && p.ok == q.ok && (p.ok ==> p == q)
    decreases |arrivals|
  {
    hide GoesOn, HasMessage;
    if arrivals == [] {
      assert b + [] == b && handles + [] == handles;
    } else {
      var a := arrivals[0];
      WholeIsPieces(b, handles, arrivals);
      AnyCutting(b + a.bytes, handles + a.handles, arrivals[1..]);
      ParseGoesOn(b, handles, a.bytes, a.handles);
      ParseGoesOn(b, handles, Bytes(arrivals), Handles(arrivals));
      OnePiece(Parse(b, handles), Parse(b + a.bytes, handles + a.handles), a, arrivals);
      Stops(Parse(b, handles), Parse(b + Bytes(arrivals), handles + Handles(arrivals)),
            Parse(Parse(b, handles).rest + Bytes(arrivals), Parse(b, handles).handles + Handles(arrivals)));
    }
  }

  lemma WholeIsPieces(b: seq<Byte>, handles: seq<Handle>, arrivals: seq<Arrival>)
    requires arrivals != []
    ensures b + Bytes(arrivals) == (b + arrivals[0].bytes) + Bytes(arrivals[1..])
    ensures handles + Handles(arrivals) == (handles + arrivals[0].handles) + Handles(arrivals[1..])
  {
  }

  lemma OnePiece(p: Parsed, q: Parsed, a: Arrival, arrivals: seq<Arrival>)
    requires arrivals != [] && arrivals[0] == a && GoesOn(p, q, Parse(p.rest + a.bytes, p.handles + a.handles))
    ensures p.ok ==> ParsePieces(p, arrivals) == ParsePieces(q, arrivals[1..])
    ensures !p.ok ==> ParsePieces(p, arrivals) == p
  {
  }

  lemma Stops(p: Parsed, q: Parsed, r: Parsed)
    requires GoesOn(p, q, r)
    ensures !p.ok ==> q.messages == p.messages && !q.ok
  {
  }

  /** How many bytes the next read should ask for. */
  function Hint(p: Parsed): nat {
    if |p.rest| >= HEADER_SIZE && NumBytes(p.rest) > |p.rest| then NumBytes(p.rest) - |p.rest|
    else if p.messages != [] then 0 else READ_BUFFER_SIZE
  }

  function Capacity(hint: nat): nat { if hint == 0 then READ_BUFFER_SIZE else hint }

  /** When a message has arrived in part, that many bytes complete it and no fewer do. */
  lemma HintCompletes(b: seq<Byte>, handles: seq<Handle>, more: seq<Byte>)
    requires var p := Parse(b, handles); p.ok && |p.rest| >= HEADER_SIZE && NumBytes(p.rest) > |p.rest|
    ensures var p := Parse(b, handles);
            NumBytes(p.rest + more) <= |p.rest + more| <==> |more| >= Hint(p)
  {
    MoreKeepsHeader(Parse(b, handles).rest, more);
  }

  // ----- ReadBuffer -----

  function Max(x: nat, y: nat): nat { if x < y then y else x }

  /** One contiguous buffer: discarded bytes, occupied bytes, unoccupied bytes. */
  class ReadBuffer {
    var data: array<Byte>
    var numDiscardedBytes: nat
    var numOccupiedBytes: nat

    ghost predicate Valid()
      reads this
    {
      numDiscardedBytes <= numOccupiedBytes <= data.Length && READ_BUFFER_SIZE <= data.Length &&
      numDiscardedBytes <= MAX_UNUSED_READ_BUFFER_CAPACITY &&
          (numDiscardedBytes == 0 || numDiscardedBytes < numOccupiedBytes)
    }

    function Occupied(): seq<Byte>
      requires numDiscardedBytes <= numOccupiedBytes <= data.Length
      reads this, data
    {
      data[numDiscardedBytes..numOccupiedBytes]
    }

    constructor ()
      ensures Valid() && Occupied() == [] && fresh(data)
    {
      data := new Byte[READ_BUFFER_SIZE](_ => 0);
      numDiscardedBytes, numOccupiedBytes := 0, 0;
    }

    /** Makes room for more bytes; what is occupied stays. */
    method Reserve(numBytes: nat)
      requires Valid()
      modifies this`data
      ensures Valid() && Occupied() == old(Occupied()) && numOccupiedBytes + numBytes <= data.Length
      ensures data == old(data) || (fresh(data) && data.Length >= 2 * old(data.Length))
      ensures data != old(data) <==> numOccupiedBytes + numBytes > old(data.Length)
    {
      if numOccupiedBytes + numBytes > data.Length {
        var larger := new Byte[Max(data.Length * 2, numOccupiedBytes + numBytes)](_ => 0);
        Copy(larger, data, 0, numOccupiedBytes);
        data := larger;
      }
    }

    /** std::memcpy of n bytes to the front of a new buffer. */
    static method Copy(dst: array<Byte>, src: array<Byte>, from: nat, n: nat)
      requires dst != src && n <= dst.Length && from + n <= src.Length
      modifies dst
      ensures dst[..n] == src[from..from + n]
    {
      for i := 0 to n
        invariant dst[..i] == src[from..from + i]
      {
        dst[i] := src[from + i];
      }
    }

    method Claim(numBytes: nat)
      requires Valid() && numOccupiedBytes + numBytes <= data.Length
      modifies this`numOccupiedBytes
      ensures Valid() && Occupied() == old(Occupied()) + data[old(numOccupiedBytes)..old(numOccupiedBytes) + numBytes]
    {
      numOccupiedBytes := numOccupiedBytes + numBytes;
    }

    /** Forgets the first occupied bytes.  The buffer is reused from its start when it is empty, and
        replaced by a small one when too much in front is unused. */
    method Discard(numBytes: nat)
      requires Valid() && numBytes <= |Occupied()|
      modifies this
      ensures Valid() && Occupied() == old(Occupied())[numBytes..]
      ensures Occupied() == [] ==> numDiscardedBytes == numOccupiedBytes == 0
      ensures data != old(data) ==>
                  fresh(data) && numDiscardedBytes == 0 && data.Length == Max(|Occupied()|, READ_BUFFER_SIZE)
    {
      numDiscardedBytes := numDiscardedBytes + numBytes;
      if numDiscardedBytes == numOccupiedBytes {
        numDiscardedBytes, numOccupiedBytes := 0, 0;
      }
      if numDiscardedBytes > MAX_UNUSED_READ_BUFFER_CAPACITY {
        var numPreservedBytes := numOccupiedBytes - numDiscardedBytes;
        var smaller := new Byte[Max(numPreservedBytes, READ_BUFFER_SIZE)](_ => 0);
        Copy(smaller, data, numDiscardedBytes, numPreservedBytes);
        data := smaller;
        numDiscardedBytes, numOccupiedBytes := 0, numPreservedBytes;
      }
    }
  }

  // ----- The reading side -----

  class Reader {
    const readBuffer: ReadBuffer
    var incomingHandles: seq<Handle>
    /** What was given to the delegate. */
    var dispatched: seq<Delivery>
    /** Reading has stopped after a bad header. */
    var failed: bool
    /** All that has arrived. */
    ghost var stream: seq<Byte>
    ghost var streamHandles: seq<Handle>

    /** What was dispatched is what one parse of all that has arrived gives, and the buffer holds
        exactly what that parse leaves. */
    ghost predicate Valid()
      reads this, readBuffer, readBuffer.data
    {
      readBuffer.Valid() &&
      var p := Parse(stream, streamHandles);
      dispatched == p.messages && failed == !p.ok && readBuffer.Occupied() == p.rest && incomingHandles == p.handles
    }

    constructor ()
      ensures Valid() && stream == [] && streamHandles == [] && fresh(readBuffer) && fresh(readBuffer.data)
    {
      readBuffer := new ReadBuffer();
      incomingHandles, dispatched, failed, stream, streamHandles := [], [], false, [], [];
    }

    /** The next handles, in the order they came, if there are enough. */
    method GetReadPlatformHandles(numHandles: nat) returns (handles: Option<seq<Handle>>)
      modifies this`incomingHandles
      ensures handles.Some? <==> |old(incomingHandles)| >= numHandles
      ensures handles.Some? ==> handles.value == old(incomingHandles)[..numHandles] &&
                                incomingHandles == old(incomingHandles)[numHandles..]
      ensures handles.None? ==> incomingHandles == old(incomingHandles)
    {
      if |incomingHandles| < numHandles { return None; }
      var taken: seq<Handle> := [];
      for i := 0 to numHandles
        invariant taken == old(incomingHandles)[..i] && incomingHandles == old(incomingHandles)[i..]
      {
        taken := taken + [incomingHandles[0]];
        incomingHandles := incomingHandles[1..];
      }
      return Some(taken);
    }

    /** Makes room for as many bytes as the hint says. */
    method GetReadBuffer(hint: nat) returns (capacity: nat)
      requires readBuffer.Valid()
      modifies readBuffer`data
      ensures readBuffer.Valid() && readBuffer.Occupied() == old(readBuffer.Occupied())
      ensures capacity == Capacity(hint) && readBuffer.numOccupiedBytes + capacity <= readBuffer.data.Length
      ensures readBuffer.data == old(readBuffer.data) || fresh(readBuffer.data)
    {
      capacity := Capacity(hint);
      readBuffer.Reserve(capacity);
    }

    /** One read into a buffer sized by a hint: the bytes that fit, and the handles that came with them. */
    method Receive(hint: nat, bytes: seq<Byte>, handles: seq<Handle>) returns (ok: bool, nextHint: nat)
      requires Valid() && !failed && |bytes| <= Capacity(hint)
      modifies this`incomingHandles, this`dispatched, this`failed, this`stream, this`streamHandles
      modifies readBuffer, readBuffer.data
      ensures Valid() && stream == old(stream) + bytes && streamHandles == old(streamHandles) + handles
      ensures old(dispatched) <= dispatched && ok == !failed
      ensures ok ==> nextHint == Hint(Parse(old(readBuffer.Occupied()) + bytes, old(incomingHandles) + handles))
      ensures readBuffer.data == old(readBuffer.data) || fresh(readBuffer.data)
    {
      hide Parse;
      ghost var p := Parse(stream, streamHandles);
      var capacity := GetReadBuffer(hint);
      Fill(bytes);
      incomingHandles := incomingHandles + handles;
      ParseGoesOn(stream, streamHandles, bytes, handles);
      stream, streamHandles := stream + bytes, streamHandles + handles;
      ok, nextHint := OnReadComplete(|bytes|, p.rest + bytes);
    }

    /** The system puts the bytes behind the occupied ones. */
    method Fill(bytes: seq<Byte>)
      requires readBuffer.Valid() && readBuffer.numOccupiedBytes + |bytes| <= readBuffer.data.Length
      modifies readBuffer.data
      ensures readBuffer.Valid() && readBuffer.Occupied() == old(readBuffer.Occupied())
      ensures readBuffer.data[readBuffer.numOccupiedBytes..readBuffer.numOccupiedBytes + |bytes|] == bytes
    {
      var at := readBuffer.numOccupiedBytes;
      for i := 0 to |bytes|
        invariant readBuffer.data[at..at + i] == bytes[..i] && readBuffer.Occupied() == old(readBuffer.Occupied())
      {
        readBuffer.data[at + i] := bytes[i];
      }
    }

    method OnReadComplete(bytesRead: nat, ghost all: seq<Byte>) returns (ok: bool, nextReadSizeHint: nat)
      requires readBuffer.Valid() && !failed && readBuffer.numOccupiedBytes + bytesRead <= readBuffer.data.Length
      requires all == readBuffer.Occupied() +
                      readBuffer.data[readBuffer.numOccupiedBytes..readBuffer.numOccupiedBytes + bytesRead]
      modifies this`incomingHandles, this`dispatched, this`failed, readBuffer
      ensures var p := Parse(all, old(incomingHandles));
              readBuffer.Valid() && dispatched == old(dispatched) + p.messages && failed == !p.ok &&
              readBuffer.Occupied() == p.rest && incomingHandles == p.handles
      ensures ok == !failed
      ensures ok ==> nextReadSizeHint == Hint(Parse(all, old(incomingHandles)))
      ensures readBuffer.data == old(readBuffer.data) || fresh(readBuffer.data)
    {
      hide Parse, First, Hint;
      var didDispatchMessage := false;
      nextReadSizeHint := 0;
      readBuffer.Claim(bytesRead);
      ghost var p := Parse(all, incomingHandles);
      while |readBuffer.Occupied()| >= HEADER_SIZE
        invariant readBuffer.Valid() && !failed
        invariant Continues(p, Parse(readBuffer.Occupied(), incomingHandles), old(dispatched), dispatched)
        invariant readBuffer.data == old(readBuffer.data) || fresh(readBuffer.data)
        invariant |old(dispatched)| <= |dispatched| && (didDispatchMessage <==> |dispatched| > |old(dispatched)|)
        decreases |readBuffer.Occupied()|
      {
        var occupied := readBuffer.Occupied();
        ghost var arrived := incomingHandles;
        var numBytes, numHandles := NumBytes(occupied), NumHandles(occupied);
        if !HasMessage(occupied, incomingHandles) {
          ParseNone(occupied, incomingHandles, [], []);
          HintIs(p, occupied);
        }
        if numBytes < HEADER_SIZE || numBytes > MAX_CHANNEL_MESSAGE_SIZE {
          failed := true;
          return false, nextReadSizeHint;
        }
        if |occupied| < numBytes { return true, numBytes - |occupied|; }
        var handles: seq<Handle> := [];
        if numHandles > 0 {
          var got := GetReadPlatformHandles(numHandles);
          if got.None? { break; }
          handles := got.value;
        }
        ParseFirst(occupied, arrived);
        FirstIs(occupied, arrived, handles);
        ContinuesFirst(p, Delivery(occupied[HEADER_SIZE..numBytes], handles), Parse(occupied[numBytes..],
            incomingHandles),
                       old(dispatched), dispatched);
        dispatched := dispatched + [Delivery(occupied[HEADER_SIZE..numBytes], handles)];
        didDispatchMessage := true;
        readBuffer.Discard(numBytes);
      }
      if |readBuffer.Occupied()| < HEADER_SIZE {
        ParseNone(readBuffer.Occupied(), incomingHandles, [], []);
        HintIs(p, readBuffer.Occupied());
      }
      return true, if didDispatchMessage then 0 else READ_BUFFER_SIZE;
    }

    static lemma HintIs(p: Parsed, rest: seq<Byte>)
      requires p.rest == rest
      ensures Hint(p) == if |rest| >= HEADER_SIZE && NumBytes(rest) > |rest| then NumBytes(rest) - |rest|
                         else if p.messages != [] then 0 else READ_BUFFER_SIZE
    {
    }

    static lemma FirstIs(b: seq<Byte>, handles: seq<Handle>, taken: seq<Handle>)
      requires HasMessage(b, handles) && taken == handles[..NumHandles(b)]
      ensures First(b, handles) == Delivery(b[HEADER_SIZE..NumBytes(b)], taken)
    {
    }

    /** After some messages of p have been dispatched, q is still to come. */
    static predicate Continues(p: Parsed, q: Parsed, before: seq<Delivery>, now: seq<Delivery>) {
      p == q.(messages := p.messages) && before + p.messages == now + q.messages
    }

    static lemma ContinuesFirst(p: Parsed, m: Delivery, q: Parsed, before: seq<Delivery>, now: seq<Delivery>)
      requires Continues(p, Before(m, q), before, now)
      ensures Continues(p, q, before, now + [m])
    {
      assert now + ([m] + q.messages) == now + [m] + q.messages;
    }
  }
}
