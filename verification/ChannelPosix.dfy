/** The writing side of a channel on POSIX: messages are queued, and leave in as many pieces as
 the system takes. */
module ChannelWriters {
  import opened PortState
  import opened Channels

  /** What one call to the system does: it takes up to a number of bytes, would block, or fails. */
  datatype Result = Takes(n: nat) | WouldBlock | Fails

  /** The next n answers each take something. */
  predicate Flows(results: seq<Result>, n: nat) {
    n <= |results| && forall i :: 0 <= i < n ==> results[i].Takes? && results[i].n > 0
  }

  /** At most n answers were used up. */
  predicate Used(before: seq<Result>, after: seq<Result>, n: nat) {
    |before| - n <= |after| <= |before| && after == before[|before| - |after|..]
  }

  /** While the system goes on taking, the next answer takes something. */
  lemma StillTakes(results: seq<Result>, now: seq<Result>, used: nat, n: nat)
    requires Flows(results, n) && Used(results, now, used) && used < n
    ensures now != [] && now[0].Takes? && now[0].n > 0
  {
  }

  lemma UsesOne(results: seq<Result>, now: seq<Result>, used: nat, more: nat)
    requires Used(results, now, used) && now != [] && more > 0
    ensures Used(results, now[1..], used + more)
  {
  }

  lemma UsesMore(results: seq<Result>, now: seq<Result>, after: seq<Result>, used: nat, more: nat)
    requires Used(results, now, used) && Used(now, after, more)
    ensures Used(results, after, used + more)
  {
  }

  lemma FlowsOn(results: seq<Result>, now: seq<Result>, n: nat, used: nat, more: nat)
    requires Flows(results, n) && Used(results, now, used) && used + more <= n
    ensures Flows(now, more)
  {
  }

  /** All answers since took something. */
  predicate TookSince(before: seq<Result>, now: seq<Result>) {
    before <= now && forall i :: |before| <= i < |now| ==> now[i].Takes?
  }

  lemma NoneSent(results: seq<Result>, answers: seq<Result>, wire: seq<Byte>, all: seq<Byte>)
    ensures Used(results, results, 0) && TookSince(answers, answers) && Sending(wire, wire, all, all)
  {
  }

  /** The last answer was that the system would block. */
  predicate Blocked(answers: seq<Result>) {
    answers != [] && answers[|answers| - 1].WouldBlock?
  }

  /** All answers but the last took something, and the last is a failure unless it went well. */
  predicate LastDecides(before: seq<Result>, now: seq<Result>, ok: bool) {
    before < now && TookSince(before, now[..|now| - 1]) && (ok <==> !now[|now| - 1].Fails?)
  }

  lemma TookOneMore(before: seq<Result>, now: seq<Result>, r: Result)
    requires TookSince(before, now)
    ensures before <= now + [r] && (r.Takes? ==> TookSince(before, now + [r]))
    ensures LastDecides(before, now + [r], !r.Fails?) && (Blocked(now + [r]) <==> r.WouldBlock?)
    ensures Fails in now + [r] <==> r.Fails? || Fails in before
  {
    assert (now + [r])[..|now|] == now && now == before + now[|before|..] && Fails !in now[|before|..];
  }

  /** What was sent since and what is left are together all. */
  predicate Sending(was: seq<Byte>, wire: seq<Byte>, left: seq<Byte>, all: seq<Byte>) {
    was <= wire && wire + left == was + all
  }

  lemma SendsMore(was: seq<Byte>, wire: seq<Byte>, left: seq<Byte>, all: seq<Byte>, n: nat)
    requires Sending(was, wire, left, all) && n <= |left|
    ensures Sending(was, wire + left[..n], left[n..], all)
  {
    assert left == left[..n] + left[n..];
  }

  lemma SendsInStep(
    was: seq<Byte>, wire: seq<Byte>, first: seq<Byte>, rest: seq<Byte>, all: seq<Byte>, after: seq<Byte>,
        left: seq<Byte>)
    requires Sending(was, wire, first + rest, all) && after + left == wire + first && wire <= after
    ensures Sending(was, after, left + rest, all)
  {
    assert after + (left + rest) == (after + left) + rest == (wire + first) + rest == wire + (first + rest);
  }

  lemma SendsPart(
    was: seq<Byte>, wire: seq<Byte>, first: seq<Byte>, rest: seq<Byte>, all: seq<Byte>, after: seq<Byte>)
    requires Sending(was, wire, first + rest, all) && wire <= after <= wire + first
    ensures was <= after <= was + all
  {
    assert was + all == (wire + first) + rest;
  }

  lemma SendingIs(was: seq<Byte>, wire: seq<Byte>, left: seq<Byte>, all: seq<Byte>)
    requires Sending(was, wire, left, all)
    ensures was <= wire <= was + all && wire + left == was + all && |wire| - |was| == |all| - |left|
    ensures left == [] ==> wire == was + all
  {
    assert wire + left == was + all;
    assert left == [] ==> wire + left == wire;
  }

  /** The system's end of the stream.  `results` are the answers it will give, and it would block
      when they run out; `answers` are those it has given. */
  class Socket {
    var results: seq<Result>
    var wire: seq<Byte>
    ghost var answers: seq<Result>

    constructor (results: seq<Result>)
      ensures this.results == results && wire == [] && answers == []
    {
      this.results, wire, answers := results, [], [];
    }

    method Write(data: seq<Byte>) returns (r: Result)
      modifies this
      ensures old(results) == [] ==> results == [] && r == WouldBlock
      ensures old(results) != [] ==> results == old(results)[1..] && r == Bounded(old(results)[0], |data|)
      ensures answers == old(answers) + [r]
      ensures r.Takes? ==> r.n <= |data| && wire == old(wire) + data[..r.n]
      ensures !r.Takes? ==> wire == old(wire)
    {
      r := WouldBlock;
      if results != [] {
        r := Bounded(results[0], |data|);
        results := results[1..];
      }
      if r.Takes? { wire := wire + data[..r.n]; }
      answers := answers + [r];
    }
  }

  /** No more is taken than there is. */
  function Bounded(r: Result, n: nat): Result {
    if r.Takes? && r.n > n then Takes(n) else r
  }

  /** A message, from its first unsent byte on. */
  datatype MessageView = MessageView(message: seq<Byte>, offset: nat) {
    predicate Valid() { offset < |message| }

    function Data(): seq<Byte>
      requires Valid()
    {
      message[offset..]
    }
  }

  function Flatten(messages: seq<seq<Byte>>): seq<Byte> {
    if messages == [] then [] else messages[0] + Flatten(messages[1..])
  }

  lemma {:induction false} FlattenConcat(xs: seq<seq<Byte>>, ys: seq<seq<Byte>>)
    ensures Flatten(xs + ys) == Flatten(xs) + Flatten(ys)
    decreases |xs|
  {
    if xs == [] {
      assert xs + ys == ys;
    } else {
      assert (xs + ys)[1..] == xs[1..] + ys;
      FlattenConcat(xs[1..], ys);
    }
  }

  lemma FlattenLast(xs: seq<seq<Byte>>, y: seq<Byte>)
    ensures Flatten(xs + [y]) == Flatten(xs) + y
  {
    FlattenConcat(xs, [y]);
    assert Flatten([y]) == y + [];
  }

  /** The bytes still to be sent. */
  function Remaining(views: seq<MessageView>): seq<Byte>
    requires forall v :: v in views ==> v.Valid()
  {
    if views == [] then [] else views[0].Data() + Remaining(views[1..])
  }

  lemma RemainingOne(v: MessageView)
    requires v.Valid()
    ensures Remaining([v]) == v.Data()
  {
    assert Remaining([v]) == v.Data() + [];
  }

  lemma RemainingFirst(views: seq<MessageView>)
    requires views != [] && forall v :: v in views ==> v.Valid()
    ensures Remaining(views) == views[0].Data() + Remaining(views[1..])
  {
  }

  lemma RemainingNone(wire: seq<Byte>)
    ensures Remaining([]) == [] && wire + [] == wire && [] + wire == wire
  {
  }

  lemma Advanced(v: MessageView, n: nat)
    requires v.Valid() && n < |v.Data()|
    ensures var u := v.(offset := v.offset + n); u.Valid() && u.Data() == v.Data()[n..]
  {
  }

  lemma {:induction false} RemainingLast(views: seq<MessageView>, v: MessageView)
    requires v.Valid() && forall u :: u in views ==> u.Valid()
    ensures Remaining(views + [v]) == Remaining(views) + v.Data()
    decreases |views|
  {
    if views == [] {
      assert [] + [v] == [v];
    } else {
      assert (views + [v])[1..] == views[1..] + [v];
      RemainingLast(views[1..], v);
    }
  }

  class ChannelPosix {
    const socket: Socket
    var outgoingMessages: seq<MessageView>
    var rejectWrites: bool
    /** The messages that Write has not turned away. */
    ghost var written: seq<seq<Byte>>

    ghost predicate Queue()
      reads this
    {
      forall v :: v in outgoingMessages ==> v.Valid()
    }

    /** What is on the wire and what is queued are together all that was written, in order; after
        an error, what is on the wire is a prefix of it and nothing is queued. */
    ghost predicate Ordered()
      reads this, socket
      requires Queue()
    {
      if rejectWrites then socket.wire <= Flatten(written) && outgoingMessages == []
      else socket.wire + Remaining(outgoingMessages) == Flatten(written)
    }

    /** Writes are turned away once the system has failed, and only then; and messages wait only
        while its last answer is that it would block. */
    ghost predicate Answered()
      reads this, socket
    {
      (rejectWrites <==> Fails in socket.answers) && (outgoingMessages != [] ==> Blocked(socket.answers))
    }

    ghost predicate Valid()
      reads this, socket
    {
      Queue() && Ordered() && Answered()
    }

    constructor (socket: Socket)
      requires socket.wire == [] && socket.answers == []
      ensures Valid() && this.socket == socket && written == [] && !rejectWrites && outgoingMessages == []
    {
      this.socket, outgoingMessages, rejectWrites, written := socket, [], false, [];
    }

    method Write(message: seq<Byte>)
      requires Valid() && message != []
      modifies this, socket
      ensures Valid() && written == (if old(rejectWrites) then old(written) else old(written) + [message])
      ensures old(rejectWrites) ==> rejectWrites && socket.wire == old(socket.wire)
      ensures old(socket.wire) <= socket.wire && old(socket.answers) <= socket.answers
      ensures old(outgoingMessages) != [] ==>
                unchanged(socket) && outgoingMessages == old(outgoingMessages) + [MessageView(message, 0)]
      ensures old(!rejectWrites && outgoingMessages == [] && Flows(socket.results, |message|)) ==>
                !rejectWrites && outgoingMessages == [] && Used(old(socket.results), socket.results, |message|)
    {
      hide Flatten, Flows, Used, LastDecides, Blocked, Remaining;
      if rejectWrites { return; }
      FlattenLast(written, message);
      RemainingNone(socket.wire);
      written := written + [message];
      var view := MessageView(message, 0);
      assert view.Data() == message;
      if outgoingMessages == [] {
        var ok := WriteNoLock(view);
        if !ok { rejectWrites := true; }
      } else {
        RemainingLast(outgoingMessages, view);
        outgoingMessages := outgoingMessages + [view];
      }
    }

    /** Writes as much of the message as the system takes, in as many pieces as it likes.  Its last
        answer decides: if it would block, the message is queued from its first unsent byte on; if it
        took something, all is sent; and only if it failed is the rest given up. */
    method WriteNoLock(view: MessageView) returns (ok: bool)
      requires view.Valid() && outgoingMessages == []
      modifies this`outgoingMessages, socket
      ensures Queue() && old(socket.answers) <= socket.answers && old(socket.wire) <= socket.wire
      ensures LastDecides(old(socket.answers), socket.answers, ok)
      ensures Fails in socket.answers <==> !ok || Fails in old(socket.answers)
      ensures outgoingMessages == if !Blocked(socket.answers) then []
                                  else [view.(offset := view.offset + |socket.wire| - |old(socket.wire)|)]
      ensures ok ==> socket.wire + Remaining(outgoingMessages) == old(socket.wire) + view.Data()
      ensures !ok ==> socket.wire <= old(socket.wire) + view.Data() && outgoingMessages == []
      ensures Flows(old(socket.results), |view.Data()|) ==>
                ok && outgoingMessages == [] && Used(old(socket.results), socket.results, |view.Data()|)
    {
      hide Flows, Used, TookSince, LastDecides, Blocked, Sending, Remaining;
      var view' := view;
      var bytesWritten := 0;
      ghost var was, all, results := socket.wire, view.Data(), socket.results;
      NoneSent(results, socket.answers, was, all);
      while true
        invariant view'.Valid() && outgoingMessages == [] && bytesWritten < |view'.Data()|
        invariant view' == view.(offset := view'.offset)
        invariant view'.offset + bytesWritten == view.offset + |socket.wire| - |was|
        invariant was <= socket.wire && Sending(was, socket.wire, view'.Data()[bytesWritten..], all)
        invariant TookSince(old(socket.answers), socket.answers)
        invariant Flows(results, |all|) ==> Used(results, socket.results, |socket.wire| - |was|)
        decreases |socket.results|
      {
        Advanced(view', bytesWritten);
        view' := view'.(offset := view'.offset + bytesWritten);
        ghost var now, sent, rest, answers := socket.results, socket.wire, view'.Data(), socket.answers;
        SendingIs(was, sent, rest, all);
        if Flows(results, |all|) { StillTakes(results, now, |sent| - |was|, |all|); }
        var result := socket.Write(view'.Data());
        TookOneMore(old(socket.answers), answers, result);
        if !result.Takes? {
          if result.Fails? { return false; }
          outgoingMessages := [view'];
          RemainingOne(view');
          return true;
        }
        bytesWritten := result.n;
        if Flows(results, |all|) { UsesOne(results, now, |sent| - |was|, bytesWritten); }
        SendsMore(was, sent, rest, all, bytesWritten);
        SendingIs(was, socket.wire, rest[bytesWritten..], all);
        if bytesWritten >= |view'.Data()| {
          RemainingNone(socket.wire);
          return true;
        }
      }
    }

    /** If the system goes on taking bytes, everything written goes out. */
    method OnFileCanWriteWithoutBlocking()
      requires Valid()
      modifies this, socket
      ensures Valid() && written == old(written)
      ensures old(rejectWrites) ==> rejectWrites && socket.wire == old(socket.wire)
      ensures old(socket.wire) <= socket.wire && old(socket.answers) <= socket.answers
      ensures old(!rejectWrites && Flows(socket.results, |Remaining(outgoingMessages)|)) ==>
                !rejectWrites && outgoingMessages == [] && socket.wire == Flatten(written)
      ensures old(!rejectWrites && Flows(socket.results, |Remaining(outgoingMessages)|)) ==>
                Used(old(socket.results), socket.results, old(|Remaining(outgoingMessages)|))
    {
      var ok := FlushOutgoingMessagesNoLock();
      if !ok { rejectWrites := true; }
    }

    /** Sends what is queued, in order, until the system takes no more.  It fails if the system does. */
    method FlushOutgoingMessagesNoLock() returns (ok: bool)
      requires Queue()
      modifies this`outgoingMessages, socket
      ensures Queue() && old(socket.wire) <= socket.wire && old(socket.answers) <= socket.answers
      ensures Fails in socket.answers <==> !ok || Fails in old(socket.answers)
      ensures outgoingMessages != [] ==> Blocked(socket.answers)
      ensures ok ==> socket.wire + Remaining(outgoingMessages) == old(socket.wire + Remaining(outgoingMessages))
      ensures !ok ==> socket.wire <= old(socket.wire + Remaining(outgoingMessages)) && outgoingMessages == []
      ensures old(outgoingMessages) == [] ==> outgoingMessages == [] && unchanged(socket)
      ensures Flows(old(socket.results), old(|Remaining(outgoingMessages)|)) ==>
                ok && outgoingMessages == [] &&
                Used(old(socket.results), socket.results, old(|Remaining(outgoingMessages)|))
    {
      hide Flows, Used, TookSince, LastDecides, Blocked, Sending, Remaining;
      var messages := outgoingMessages;
      outgoingMessages := [];
      ghost var n, results := |Remaining(messages)|, socket.results;
      NoneSent(results, socket.answers, socket.wire, Remaining(messages));
      while messages != []
        invariant outgoingMessages == [] && forall v :: v in messages ==> v.Valid()
        invariant Sending(old(socket.wire), socket.wire, Remaining(messages), Remaining(old(outgoingMessages)))
        invariant old(outgoingMessages) == [] ==> messages == [] && unchanged(socket)
        invariant old(socket.answers) <= socket.answers
        invariant Fails in socket.answers <==> Fails in old(socket.answers)
        invariant |Remaining(messages)| <= n
        invariant Flows(results, n) ==> Used(results, socket.results, n - |Remaining(messages)|)
        decreases |messages|
      {
        ghost var wire, now, left := socket.wire, socket.results, |Remaining(messages)|;
        RemainingFirst(messages);
        if Flows(results, n) { FlowsOn(results, now, n, n - left, |messages[0].Data()|); }
        ghost var first, rest, all := messages[0].Data(), Remaining(messages[1..]), Remaining(old(outgoingMessages));
        ok := WriteNoLock(messages[0]);
        if !ok {
          SendsPart(old(socket.wire), wire, first, rest, all, socket.wire);
          return false;
        }
        SendsInStep(old(socket.wire), wire, first, rest, all, socket.wire, Remaining(outgoingMessages));
        if outgoingMessages != [] {
          RemainingOne(outgoingMessages[0]);
          outgoingMessages := [outgoingMessages[0]] + messages[1..];
          RemainingFirst(outgoingMessages);
          SendingIs(old(socket.wire), socket.wire, Remaining(outgoingMessages), all);
          return true;
        }
        RemainingNone(rest);
        if Flows(results, n) { UsesMore(results, now, socket.results, n - left, |messages[0].Data()|); }
        messages := messages[1..];
      }
      RemainingNone(socket.wire);
      SendingIs(old(socket.wire), socket.wire, [], Remaining(old(outgoingMessages)));
      return true;
    }
  }

  // ----- Whole runs -----

  /** What a channel is asked to do: write a message, or go on because the system can take more. */
  datatype Step = Send(message: seq<Byte>) | CanWrite

  /** The messages of a run. */
  function Messages(steps: seq<Step>): seq<seq<Byte>> {
    if steps == [] then [] else
    var (first, last) := (Messages(steps[..|steps| - 1]), steps[|steps| - 1]);
    if last.Send? then first + [last.message] else first
  }

  predicate AllSend(steps: seq<Step>) { forall i :: 0 <= i < |steps| && steps[i].Send? ==> steps[i].message != [] }

  /** How many bytes a step adds. */
  function Added(step: Step): nat { if step.Send? then |step.message| else 0 }

  lemma NoMessages(steps: seq<Step>, results: seq<Result>)
    ensures Messages(steps[..0]) == [] && Flatten([]) == [] && steps[..|steps|] == steps && Used(results, results, 0)
  {
  }

  lemma MessagesLast(steps: seq<Step>, i: nat)
    requires i < |steps|
    ensures Messages(steps[..i + 1]) == Messages(steps[..i]) + if steps[i].Send? then [steps[i].message] else []
    ensures |Flatten(Messages(steps[..i + 1]))| == |Flatten(Messages(steps[..i]))| + Added(steps[i])
  {
    assert steps[..i + 1][..i] == steps[..i];
    if steps[i].Send? { FlattenLast(Messages(steps[..i]), steps[i].message); }
  }

  lemma {:induction false} MessagesGrow(steps: seq<Step>, i: nat)
    requires i <= |steps|
    ensures |Flatten(Messages(steps[..i]))| <= |Flatten(Messages(steps))|
    decreases |steps| - i
  {
    if i < |steps| {
      MessagesLast(steps, i);
      MessagesGrow(steps, i + 1);
    } else {
      assert steps[..i] == steps;
    }
  }

  lemma WhatItIs(channel: ChannelPosix)
    requires channel.Valid()
    ensures channel.rejectWrites <==> Fails in channel.socket.answers
    ensures !channel.rejectWrites && channel.outgoingMessages == [] ==>
              channel.socket.wire == Flatten(channel.written)
  {
    RemainingNone(channel.socket.wire);
  }

  /** Over any run, writes are turned away if and only if the system has failed; until then every
      message is written, in order; and if the system goes on taking bytes, all of them are on the
      wire when the run ends. */
  method Use(channel: ChannelPosix, steps: seq<Step>)
    requires channel.Valid() && AllSend(steps)
    modifies channel, channel.socket
    ensures channel.Valid() && (channel.rejectWrites <==> Fails in channel.socket.answers)
    ensures !channel.rejectWrites ==> channel.written == old(channel.written) + Messages(steps)
    ensures old(channel.socket.wire) <= channel.socket.wire
    ensures old(!channel.rejectWrites && channel.outgoingMessages == []) &&
            Flows(old(channel.socket.results), |Flatten(Messages(steps))|) ==>
              !channel.rejectWrites && channel.socket.wire == Flatten(channel.written)
  {
    hide Flows, Used, Flatten, Messages, Remaining, ChannelPosix.Valid;
    ghost var results, n := channel.socket.results, |Flatten(Messages(steps))|;
    ghost var flows := !channel.rejectWrites && channel.outgoingMessages == [] && Flows(results, n);
    NoMessages(steps, results);
    for i := 0 to |steps|
      invariant channel.Valid() && old(channel.socket.wire) <= channel.socket.wire
      invariant !channel.rejectWrites ==> channel.written == old(channel.written) + Messages(steps[..i])
      invariant flows ==> !channel.rejectWrites && channel.outgoingMessages == []
      invariant flows ==> Used(results, channel.socket.results, |Flatten(Messages(steps[..i]))|)
    {
      ghost var now, used, more := channel.socket.results, |Flatten(Messages(steps[..i]))|, Added(steps[i]);
      MessagesLast(steps, i);
      MessagesGrow(steps, i + 1);
      if flows { FlowsOn(results, now, n, used, more); }
      Do(channel, steps[i]);
      if flows { UsesMore(results, now, channel.socket.results, used, more); }
    }
    WhatItIs(channel);
  }

  method Do(channel: ChannelPosix, step: Step)
    requires channel.Valid() && (step.Send? ==> step.message != [])
    modifies channel, channel.socket
    ensures channel.Valid() && old(channel.socket.wire) <= channel.socket.wire
    ensures !channel.rejectWrites ==>
              !old(channel.rejectWrites) &&
              channel.written == old(channel.written) + if step.Send? then [step.message] else []
    ensures old(!channel.rejectWrites && channel.outgoingMessages == []) &&
            Flows(old(channel.socket.results), Added(step)) ==>
              !channel.rejectWrites && channel.outgoingMessages == [] &&
              Used(old(channel.socket.results), channel.socket.results, Added(step))
  {
    hide Flows, Used, Flatten, Remaining, ChannelPosix.Valid;
    RemainingNone([]);
    if step.Send? { channel.Write(step.message); } else { channel.OnFileCanWriteWithoutBlocking(); }
  }

  // ----- From writer to reader -----

  /** A message as the writer lays it out: the header, then the payload. */
  function Serialize(payload: seq<Byte>, numHandles: nat): (b: seq<Byte>)
    requires |payload| + HEADER_SIZE < 0x1_0000_0000 && numHandles < 0x1_0000
    ensures |b| == HEADER_SIZE + |payload|
  {
    Little32(HEADER_SIZE + |payload|) + Little16(numHandles) + [0, 0] + payload
  }

  lemma SerializedHeader(payload: seq<Byte>, numHandles: nat, more: seq<Byte>)
    requires |payload| + HEADER_SIZE <= MAX_CHANNEL_MESSAGE_SIZE && numHandles < 0x1_0000
    ensures var b := Serialize(payload, numHandles) + more;
            NumBytes(b) == HEADER_SIZE + |payload| && NumHandles(b) == numHandles &&
            b[HEADER_SIZE..NumBytes(b)] == payload && b[NumBytes(b)..] == more
  {
    var size, count := Little32(HEADER_SIZE + |payload|), Little16(numHandles);
    var b := Serialize(payload, numHandles) + more;
    assert b[..4] == size && b[4..6] == count;
    LittleRoundTrip(HEADER_SIZE + |payload|);
    LittleRoundTrip(numHandles);
  }

  predicate Sendable(m: Delivery) {
    |m.payload| + HEADER_SIZE <= MAX_CHANNEL_MESSAGE_SIZE && |m.handles| < 0x1_0000
  }

  predicate AllSendable(ms: seq<Delivery>) {
    forall i :: 0 <= i < |ms| ==> Sendable(ms[i])
  }

  function Wire(ms: seq<Delivery>): seq<Byte>
    requires AllSendable(ms)
  {
    if ms == [] then [] else Serialize(ms[0].payload, |ms[0].handles|) + Wire(ms[1..])
  }

  function AllHandles(ms: seq<Delivery>): seq<Handle> {
    if ms == [] then [] else ms[0].handles + AllHandles(ms[1..])
  }

  lemma WireStarts(m: Delivery, w: seq<Byte>, handles: seq<Handle>)
    requires Sendable(m)
    ensures var b, hs := Serialize(m.payload, |m.handles|) + w, m.handles + handles;
            HasMessage(b, hs) && First(b, hs) == m && b[NumBytes(b)..] == w && hs[NumHandles(b)..] == handles
  {
    SerializedHeader(m.payload, |m.handles|, w);
    var hs := m.handles + handles;
    assert hs[..|m.handles|] == m.handles && hs[|m.handles|..] == handles;
  }

  /** Reading all that was written, with all the handles, gives back the messages. */
  lemma {:induction false} RoundTrip(ms: seq<Delivery>)
    requires AllSendable(ms)
    ensures Parse(Wire(ms), AllHandles(ms)) == Parsed(ms, [], [], true)
    decreases |ms|
  {
    if ms != [] {
      hide Parse, First, HasMessage, Serialize;
      var m, rest := ms[0], ms[1..];
      WireStarts(m, Wire(rest), AllHandles(rest));
      ParseFirst(Wire(ms), AllHandles(ms));
      RoundTrip(rest);
      assert ms == [m] + rest;
    }
  }

  function Payloads(ms: seq<Delivery>): seq<seq<Byte>> {
    seq(|ms|, i requires 0 <= i < |ms| => ms[i].payload)
  }

  /** A stream that starts with a message, and what follows it. */
  lemma StartsWith(m: Delivery, w: seq<Byte>, b: seq<Byte>, handles: seq<Handle>)
    requires Sendable(m) && b <= Serialize(m.payload, |m.handles|) + w
    ensures |b| >= HEADER_SIZE ==> GoodHeader(b)
    ensures HasMessage(b, handles) ==> First(b, handles).payload == m.payload && b[NumBytes(b)..] <= w
  {
    var whole := Serialize(m.payload, |m.handles|) + w;
    SerializedHeader(m.payload, |m.handles|, w);
    if |b| >= HEADER_SIZE {
      assert whole == b + whole[|b|..];
      MoreKeepsHeader(b, whole[|b|..]);
      if HasMessage(b, handles) {
        var n := NumBytes(b);
        assert b[HEADER_SIZE..n] == whole[HEADER_SIZE..n] && b[n..] == whole[n..][..|b| - n];
      }
    }
  }

  lemma PayloadsFirst(m: Delivery, d: Delivery, ms: seq<Delivery>, ds: seq<Delivery>)
    requires d.payload == m.payload && Payloads(ds) <= Payloads(ms)
    ensures Payloads([d] + ds) <= Payloads([m] + ms)
  {
    assert Payloads([d] + ds) == [d.payload] + Payloads(ds) && Payloads([m] + ms) == [m.payload] + Payloads(ms);
  }

  /** Reading any prefix of what was written, with any handles, gives payloads that are a prefix
      of those written, in order and unaltered. */
  lemma {:induction false} PrefixRoundTrip(ms: seq<Delivery>, b: seq<Byte>, handles: seq<Handle>)
    requires AllSendable(ms) && b <= Wire(ms)
    ensures Parse(b, handles).ok && Payloads(Parse(b, handles).messages) <= Payloads(ms)
    decreases |ms|
  {
    hide First, GoodHeader, Payloads, Serialize;
    if ms == [] {
      PayloadsNone(ms);
    } else {
      var rest := ms[1..];
      StartsWith(ms[0], Wire(rest), b, handles);
      if HasMessage(b, handles) {
        ParseFirst(b, handles);
        PrefixRoundTrip(rest, b[NumBytes(b)..], handles[NumHandles(b)..]);
        PayloadsFirst(ms[0], First(b, handles), rest, Parse(b[NumBytes(b)..], handles[NumHandles(b)..]).messages);
        assert ms == [ms[0]] + rest;
      } else {
        ParseNone(b, handles, [], []);
        PayloadsNone(ms);
      }
    }
  }

  lemma PayloadsNone(ms: seq<Delivery>)
    ensures Payloads([]) <= Payloads(ms)
  {
  }

  /** Whatever the system took of what a channel wrote, and in whatever pieces a reader has received
      some of it, no header is bad and the payloads dispatched are a prefix of those written. */
  lemma EndToEnd(channel: ChannelPosix, reader: Reader, ms: seq<Delivery>)
    requires channel.Valid() && AllSendable(ms) && Flatten(channel.written) == Wire(ms)
    requires reader.Valid() && reader.stream <= channel.socket.wire
    ensures !reader.failed && Payloads(reader.dispatched) <= Payloads(ms)
  {
    PrefixRoundTrip(ms, reader.stream, reader.streamHandles);
  }

  /** When all of it has arrived with its handles, the messages are those written. */
  lemma AllArrives(channel: ChannelPosix, reader: Reader, ms: seq<Delivery>)
    requires channel.Valid() && AllSendable(ms) && Flatten(channel.written) == Wire(ms)
    requires !channel.rejectWrites && channel.outgoingMessages == []
    requires reader.Valid() && reader.stream == channel.socket.wire && reader.streamHandles == AllHandles(ms)
    ensures !reader.failed && reader.dispatched == ms && reader.readBuffer.Occupied() == []
  {
    RoundTrip(ms);
    assert channel.socket.wire + [] == channel.socket.wire;
  }
}
