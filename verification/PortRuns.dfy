/** What the users of a pipe see over a whole run, and how the history variables follow it. */
module PortRuns {
  import opened PortState
  import opened PortSteps
  import opened PortInvariant
  import opened PortSending
  import opened PortSettled
  import opened PortDraining
  import opened PortUsing

  // ----- History only grows -----

  ghost predicate FreshNames(s: State) {
    (forall a :: a in s.h.pos ==> a.name < s.nextName) && (forall m :: m in s.h.chain ==> m.pipe < s.nextName)
  }

  ghost predicate Grows(h: History, h': History) {
    (forall a :: a in h.pos ==> a in h'.pos && h'.pos[a] == h.pos[a]) &&
    (forall m :: m in h.chain ==> m in h'.chain && h.chain[m] <= h'.chain[m]) && h.closed <= h'.closed
  }

  predicate SameLogs(h: History, h': History) { h'.sent == h.sent && h'.read == h.read }

  ghost predicate Later(s: State, t: State) {
    s.nextName <= t.nextName && (FreshNames(s) ==> FreshNames(t) && Grows(s.h, t.h)) && SameLogs(s.h, t.h)
  }

  lemma LaterOn(s: State, t: State, u: State)
    requires Later(s, t) && Later(t, u)
    ensures Later(s, u)
  {
  }

  lemma WillSendLater(s: State, a: Addr, node: nat)
    requires SendablePort(s, a)
    ensures Later(s, WillSendPort(s, a, node))
  {
  }

  lemma ForwardPortLater(s: State, x: Addr, k: nat, slot: nat)
    requires ForwardableSlot(s, x, k, slot)
    ensures Later(s, ForwardPort(s, x, k, slot))
  {
    hide Later;
    var z, node := s.ports[x].queue.pending[k].ports[slot], s.ports[x].peer.node;
    WillSendLater(s, z, node);
    SamePast(s, WillSendPort(s, z, node), ForwardPort(s, x, k, slot));
  }

  /** What `Later` speaks of is the same. */
  predicate SameHistory(t: State, u: State) {
    u.nextName == t.nextName && u.h.pos == t.h.pos && u.h.chain == t.h.chain && u.h.closed == t.h.closed &&
    SameLogs(t.h, u.h)
  }

  lemma SamePast(s: State, t: State, u: State)
    requires Later(s, t) && SameHistory(t, u)
    ensures Later(s, u)
  {
  }

  lemma {:induction false} ForwardPortsLater(s: State, x: Addr, k: nat, slot: nat)
    requires x in s.ports && k in s.ports[x].queue.pending
    ensures Later(s, ForwardPorts(s, x, k, slot))
    decreases |s.ports[x].queue.pending[k].ports| - slot
  {
    if slot < |s.ports[x].queue.pending[k].ports| && ForwardableSlot(s, x, k, slot) &&
       s.ports[x].queue.pending[k].ports[slot].name != s.ports[x].peer.name
    {
      hide Later;
      var t := ForwardPort(s, x, k, slot);
      ForwardPortLater(s, x, k, slot);
      ForwardPortsLater(t, x, k, slot + 1);
      LaterOn(s, t, ForwardPorts(t, x, k, slot + 1));
    }
  }

  lemma {:induction false} ForwardMessagesLater(s: State, x: Addr)
    ensures Later(s, ForwardMessages(s, x))
    decreases if x in s.ports then |s.ports[x].queue.pending| else 0
  {
    if x in s.ports && HasNext(s.ports[x]) {
      var t := ForwardPorts(s, x, s.ports[x].queue.next, 0);
      ForwardPortsLater(s, x, s.ports[x].queue.next, 0);
      if !t.crashed && Hoppable(t, x) {
        hide Later;
        SamePast(s, t, Hop(t, x));
        assert |Hop(t, x).ports[x].queue.pending| < |s.ports[x].queue.pending| by { HopShrinks(s, t, x); }
        ForwardMessagesLater(Hop(t, x), x);
        LaterOn(s, Hop(t, x), ForwardMessages(Hop(t, x), x));
      }
    }
  }

  lemma {:induction false} AcceptPortsLater(s: State, bs: seq<Addr>, ds: seq<Descriptor>)
    ensures Later(s, AcceptPorts(s, bs, ds))
    decreases |bs|
  {
    if bs != [] && ds != [] && !s.crashed {
      hide Later;
      var t := AcceptPort(s, bs[0], ds[0]);
      LaterSelf(s);
      SamePast(s, s, t);
      AcceptPortsLater(t, bs[1..], ds[1..]);
      LaterOn(s, t, AcceptPorts(t, bs[1..], ds[1..]));
    } else {
      LaterSelf(s);
    }
  }

  lemma LaterSelf(s: State)
    ensures Later(s, s) && Later(s, Crash(s))
  {
  }

  lemma ErasePortLater(s: State, a: Addr)
    requires SendablePort(s, a)
    ensures Later(s, ErasePort(s, a)) && |ErasePort(s, a).ports| < |s.ports|
  {
    assert ErasePort(s, a).ports.Keys == s.ports.Keys - {a};
    assert |s.ports.Keys - {a}| == |s.ports.Keys| - 1;
  }

  lemma {:induction false} ClosePortsLater(s: State, work: seq<Addr>)
    ensures Later(s, ClosePorts(s, work))
    decreases |s.ports|, |work|
  {
    hide Later;
    LaterSelf(s);
    if work != [] {
      if work[0] !in s.ports || !s.ports[work[0]].mode.Receiving? {
        ClosePortsLater(s, work[1..]);
      } else if SendablePort(s, work[0]) {
        var t, rest := ErasePort(s, work[0]), ReferencedPorts(s.ports[work[0]].queue.pending) + work[1..];
        ErasePortLater(s, work[0]);
        ClosePortsLater(t, rest);
        LaterOn(s, t, ClosePorts(t, rest));
      }
    }
  }

  lemma {:induction false} SendPortsLater(s: State, qs: seq<Addr>, node: nat)
    ensures Later(s, SendPorts(s, qs, node))
    decreases |qs|
  {
    hide Later;
    LaterSelf(s);
    if qs != [] && SendablePort(s, qs[0]) {
      var t := WillSendPort(s, qs[0], node);
      WillSendLater(s, qs[0], node);
      SendPortsLater(t, qs[1..], node);
      LaterOn(s, t, SendPorts(t, qs[1..], node));
    }
  }

  lemma {:induction false} ClaimPortsLater(s: State, bs: seq<Addr>)
    ensures ClaimPorts(s, bs).h == s.h && ClaimPorts(s, bs).nextName == s.nextName && ClaimPorts(s, bs).net == s.net
    decreases |bs|
  {
    if bs != [] && bs[0] in s.ports && s.ports[bs[0]].mode.Receiving? {
      ClaimPortsLater(s.(ports := s.ports[bs[0] := s.ports[bs[0]].(signalable := true)]), bs[1..]);
    }
  }

  lemma MaybeRemoveLater(s: State, x: Addr)
    ensures SameHistory(s, MaybeRemoveProxy(s, x))
  {
  }

  lemma OnUserMessageLater(s: State, id: nat)
    requires id in s.net && s.net[id].User?
    ensures Later(s, OnUserMessage(s, id))
  {
    hide Later;
    var x, msg := s.net[id].to, s.net[id].msg;
    var t := AcceptPorts(s, msg.ports, msg.descs);
    AcceptPortsLater(s, msg.ports, msg.descs);
    LaterSelf(t);
    LaterOn(s, t, Crash(t));
    if !t.crashed && Arriving(t, id) {
      assert id in t.net;
      if x in t.ports && x in s.ports && t.net[id].to == x && CanAcceptMoreMessages(t.ports[x]) {
        var u := Enqueue(t, id);
        SamePast(s, t, u);
        ForwardMessagesLater(u, x);
        var v := ForwardMessages(u, x);
        LaterOn(s, u, v);
        MaybeRemoveLater(v, x);
        SamePast(s, v, MaybeRemoveProxy(v, x));
      } else {
        var u := Discard(t, id);
        SamePast(s, t, u);
        ClosePortsLater(u, msg.ports);
        LaterOn(s, u, ClosePorts(u, msg.ports));
      }
    }
  }

  lemma ProxyLater(s: State, t: State, x: Addr)
    requires x in t.ports && Later(s, t)
    ensures var p := t.ports[x];
            Later(s, if p.removeOnLast then Post(MaybeRemoveProxy(t, x), ObserveClosure(p.peer, p.lastRecv))
                     else InitiateProxyRemoval(t, x))
  {
    hide Later;
    var p := t.ports[x];
    if p.removeOnLast {
      MaybeRemoveLater(t, x);
      SamePast(s, t, Post(MaybeRemoveProxy(t, x), ObserveClosure(p.peer, p.lastRecv)));
    } else {
      SamePast(s, t, InitiateProxyRemoval(t, x));
    }
  }

  lemma OnPortAcceptedLater(s: State, id: nat)
    requires id in s.net && s.net[id].PortAccepted?
    ensures Later(s, OnPortAccepted(s, id))
  {
    hide Later, ForwardMessages, MaybeRemoveProxy, InitiateProxyRemoval;
    var x := s.net[id].to;
    LaterSelf(s);
    if x in s.ports && s.ports[x].mode.Buffering? {
      var t := BecomeProxy(s, id);
      SamePast(s, s, t);
      ForwardMessagesLater(t, x);
      var u := ForwardMessages(t, x);
      LaterOn(s, t, u);
      if u.crashed || x !in u.ports { SamePast(s, u, Crash(u)); } else { ProxyLater(s, u, x); }
    }
  }

  lemma OnObserveProxyLater(s: State, id: nat)
    requires id in s.net && s.net[id].ObserveProxy?
    ensures SameHistory(s, OnObserveProxy(s, id))
  {
  }

  lemma OnObserveProxyAckLater(s: State, id: nat)
    requires id in s.net && s.net[id].ObserveProxyAck?
    ensures SameHistory(s, OnObserveProxyAck(s, id))
  {
    hide MaybeRemoveProxy, DropToken, ExpectLast, InitiateProxyRemoval;
    var e, t := s.net[id], DropToken(s, id, s.net[id].to);
    assert SameHistory(s, t) && t.ports == s.ports by { DropIsQuiet(s, id, e.to); }
    if e.to in s.ports {
      MaybeRemoveLater(ExpectLast(t, e.to, e.last), e.to);
      ExpectIsQuiet(t, e.to, e.last);
    }
  }

  lemma DropIsQuiet(s: State, id: nat, x: Addr)
    ensures SameHistory(s, DropToken(s, id, x)) && DropToken(s, id, x).ports == s.ports
  {
  }

  lemma ExpectIsQuiet(s: State, x: Addr, last: nat)
    requires x in s.ports
    ensures SameHistory(s, ExpectLast(s, x, last)) && SameHistory(s, InitiateProxyRemoval(s, x))
  {
  }

  lemma OnObserveClosureLater(s: State, id: nat)
    requires id in s.net && s.net[id].ObserveClosure?
    ensures SameHistory(s, OnObserveClosure(s, id))
  {
  }

  lemma HandleLater(s: State, id: nat)
    requires id in s.net
    ensures Later(s, Handle(s, id))
  {
    hide Later, SameHistory, OnUserMessage, OnPortAccepted, OnObserveProxy, OnObserveProxyAck, OnObserveClosure;
    LaterSelf(s);
    match s.net[id] {
      case User(_, _) => OnUserMessageLater(s, id);
      case PortAccepted(_) => OnPortAcceptedLater(s, id);
      case ObserveProxy(_, _, _) =>
        OnObserveProxyLater(s, id);
        SamePast(s, s, OnObserveProxy(s, id));
      case ObserveProxyAck(_, _) =>
        OnObserveProxyAckLater(s, id);
        SamePast(s, s, OnObserveProxyAck(s, id));
      case ObserveClosure(_, _) =>
        OnObserveClosureLater(s, id);
        SamePast(s, s, OnObserveClosure(s, id));
    }
  }

  // ----- What one call sends and reads -----

  /** What command c sends towards lane m: the bytes and the pipe ends, if the call succeeds. */
  ghost function SentBy(s: State, c: Command, m: LaneId): seq<Entry> {
    if c.Send? && MaySend(s, c.a, c.qs) && s.ports[c.a].nextSend < INVALID_SEQUENCE_NUM &&
       SendOutcome(s, c.a, c.qs) == Ok && c.a in s.h.pos && s.h.pos[c.a].lane.Other() == m
    then [Entry(c.payload, LanesOf(s.h, c.qs))]
    else []
  }

  /** What command c reads at the port that holds lane m. */
  ghost function ReadBy(s: State, c: Command, m: LaneId): seq<Entry> {
    if c.Get? && Held(s, c.a) && GetMessageOutcome(s, c.a).GotMessage? && c.a in s.h.pos && s.h.pos[c.a].lane == m
    then
      var msg := GetMessageOutcome(s, c.a).msg;
      [Entry(msg.payload, LanesOf(s.h, msg.ports))]
    else []
  }

  /** All that was sent towards lane m, joined over the ports that held the other side. */
  ghost function SentLog(cs: seq<Command>, m: LaneId): seq<Entry> {
    if cs == [] then [] else
    var init, last := cs[..|cs| - 1], cs[|cs| - 1];
    SentLog(init, m) + SentBy(Run(init), last, m)
  }

  /** All that was read at lane m, joined over the ports that held it. */
  ghost function ReadLog(cs: seq<Command>, m: LaneId): seq<Entry> {
    if cs == [] then [] else
    var init, last := cs[..|cs| - 1], cs[|cs| - 1];
    ReadLog(init, m) + ReadBy(Run(init), last, m)
  }

  lemma SendMessageLogs(s: State, a: Addr, payload: Payload, qs: seq<Addr>)
    requires Inv(s) && MaySend(s, a, qs) && s.ports[a].nextSend < INVALID_SEQUENCE_NUM
    ensures var t := SendMessage(s, a, payload, qs);
            Later(s, t.(h := t.h.(sent := s.h.sent))) &&
            if SendOutcome(s, a, qs) != Ok then t == s
            else a in s.h.pos && s.h.pos[a].lane.Other() in s.h.sent &&
                 t.h.sent == Sent(s.h.sent, s.h.pos[a].lane.Other(), Entry(payload, LanesOf(s.h, qs))) &&
                 t.h.read == s.h.read
  {
    hide Lanes, Chained, Named, Known, Ids, Receivers, Senders, Nexts, Ends, Travellers, Waiting, Targets, Numbers,
        Placement, Reading, Gone, Lasts, TravelLasts, Closures, Flights, Mail, Queues, Pending, FlyingCargo,
        QueuedCargo, Manifest, Unheld, AcceptTokens, Announcements, Acks, ParkedAcks, ProxyTokens, Heralds,
        Settling, Heralding, SentPort;
    if SendOutcome(s, a, qs) == Ok {
      hide Later;
      var node := s.ports[a].peer.node;
      var t, bs, ds := SendPorts(s, qs, node), NewAddrs(node, s.nextName, |qs|), Descriptors(s.ports, qs);
      SendPortsKeep(s, qs, node, {});
      SendPortsLater(s, qs, node);
      MayEmitAfter(s, t, a, qs);
      PortIsTracked(s, a);
      SameLanes(s, t, qs, node);
      var u := Emit(t, a, payload, bs, ds);
      SameSent(s, t);
      SamePast(s, t, u.(h := u.h.(sent := s.h.sent)));
    } else {
      LaterSelf(s);
    }
  }

  lemma SameSent(s: State, t: State)
    requires Later(s, t)
    ensures t.h.sent == s.h.sent && t.h.read == s.h.read
  {
  }

  lemma PortIsTracked(s: State, a: Addr)
    requires Base(s) && a in s.ports
    ensures a in s.h.pos && Tracked(s.h, a)
  {
    hide Lanes, Chained, Named, Ids;
    IsTracked(s, a);
  }

  lemma SameLanes(s: State, t: State, qs: seq<Addr>, node: nat)
    requires SentAway(s, t, qs, node)
    ensures LanesOf(t.h, NewAddrs(node, s.nextName, |qs|)) == LanesOf(s.h, qs)
  {
    forall i | 0 <= i < |qs|
      ensures LanesOf(t.h, NewAddrs(node, s.nextName, |qs|))[i] == LanesOf(s.h, qs)[i]
    {
      assert SentPort(s.ports, s.h.pos, t.h, qs[i], Addr(node, s.nextName + i));
    }
  }

  lemma GetMessageLogs(s: State, a: Addr)
    requires Inv(s) && Held(s, a)
    ensures var t, r := GetMessage(s, a), GetMessageOutcome(s, a);
            Later(s, t.(h := t.h.(read := s.h.read))) &&
            if !r.GotMessage? then t == s
            else a in s.h.pos && s.h.pos[a].lane in s.h.read && t.h.sent == s.h.sent &&
                 t.h.read == Sent(s.h.read, s.h.pos[a].lane, Entry(r.msg.payload, LanesOf(s.h, r.msg.ports)))
  {
    hide Lanes, Chained, Named, Known, Ids, Receivers, Senders, Nexts, Ends, Travellers, Waiting, Targets, Numbers,
        Placement, Reading, Gone, Lasts, TravelLasts, Closures, Flights, Mail, Queues, Pending, FlyingCargo,
        QueuedCargo, Manifest, Unheld, AcceptTokens, Announcements, Acks, ParkedAcks, ProxyTokens, Heralds,
        Settling, Heralding;
    LaterSelf(s);
    if GetMessageOutcome(s, a).GotMessage? {
      hide Later;
      CanHop(s, a);
      ClaimPortsLater(TakeMessage(s, a), GetMessageOutcome(s, a).msg.ports);
      var t := GetMessage(s, a);
      SamePast(s, s, t.(h := t.h.(read := s.h.read)));
    }
  }

  /** From s to t the logs of lane m grow by what was sent and read. */
  ghost predicate Logged(s: State, t: State, m: LaneId, more: seq<Entry>, got: seq<Entry>) {
    FreshNames(t) && Grows(s.h, t.h) &&
    if m in s.h.sent && m in s.h.read
    then m in t.h.sent && t.h.sent[m] == s.h.sent[m] + more && m in t.h.read && t.h.read[m] == s.h.read[m] + got
    else more == got == [] && (m in t.h.sent ==> m in t.h.read && t.h.sent[m] == t.h.read[m] == [NOTHING])
  }

  lemma LaterLogs(s: State, t: State, m: LaneId)
    requires FreshNames(s) && Later(s, t) && s.h.sent.Keys == s.h.read.Keys
    ensures Logged(s, t, m, [], [])
  {
    if m in s.h.sent { assert s.h.sent[m] == s.h.sent[m] + [] && s.h.read[m] == s.h.read[m] + []; }
  }

  lemma SendLogs(s: State, a: Addr, payload: Payload, qs: seq<Addr>, m: LaneId)
    requires Inv(s) && FreshNames(s) && s.h.sent.Keys == s.h.read.Keys
    requires MaySend(s, a, qs) && s.ports[a].nextSend < INVALID_SEQUENCE_NUM
    ensures Logged(s, SendMessage(s, a, payload, qs), m, SentBy(s, Send(a, payload, qs), m), [])
  {
    hide Inv, SendMessage;
    SendMessageLogs(s, a, payload, qs);
    LaterSelf(s);
    LaterLogs(s, s, m);
    var t := SendMessage(s, a, payload, qs);
    LaterLogs(s, t.(h := t.h.(sent := s.h.sent)), m);
  }

  lemma GetLogs(s: State, a: Addr, m: LaneId)
    requires Inv(s) && FreshNames(s) && s.h.sent.Keys == s.h.read.Keys && Held(s, a)
    ensures Logged(s, GetMessage(s, a), m, [], ReadBy(s, Get(a), m))
  {
    hide Inv, GetMessage;
    GetMessageLogs(s, a);
    LaterSelf(s);
    LaterLogs(s, s, m);
    var t := GetMessage(s, a);
    LaterLogs(s, t.(h := t.h.(read := s.h.read)), m);
  }

  lemma QuietLogs(s: State, c: Command, m: LaneId)
    requires Inv(s) && !c.Send? && !c.Get?
    ensures Logged(s, Step(s, c), m, SentBy(s, c, m), ReadBy(s, c, m))
  {
    hide Lanes, Chained, Named, Known, Ids, Receivers, Senders, Nexts, Ends, Travellers, Waiting, Targets, Numbers,
        Placement, Reading, Gone, Lasts, TravelLasts, Closures, Flights, Mail, Queues, Pending, FlyingCargo,
        QueuedCargo, Manifest, Unheld, AcceptTokens, Announcements, Acks, ParkedAcks, ProxyTokens, Heralds,
        Settling, Heralding, Logged, Later, FreshNames, CreatePortPair, SendMessage, GetMessage, ClosePort, Handle,
        Held, MaySend;
    StartsFresh(s);
    LogKeys(s);
    LaterSelf(s);
    LaterLogs(s, s, m);
    match c {
      case Create(node) => CreateLogs(s, node, m);
      case Close(a) =>
        CloseIsWork(s, a);
        ClosePortsLater(s, [a]);
        LaterLogs(s, ClosePort(s, a), m);
      case Deliver(id) =>
        if id in s.net {
          HandleLater(s, id);
          LaterLogs(s, Handle(s, id), m);
        }
    }
  }

  /** A step adds to the logs of a lane what its command sends and reads there. */
  lemma StepLogs(s: State, c: Command, m: LaneId)
    requires Inv(s)
    ensures Logged(s, Step(s, c), m, SentBy(s, c, m), ReadBy(s, c, m))
  {
    hide Lanes, Chained, Named, Known, Ids, Receivers, Senders, Nexts, Ends, Travellers, Waiting, Targets, Numbers,
        Placement, Reading, Gone, Lasts, TravelLasts, Closures, Flights, Mail, Queues, Pending, FlyingCargo,
        QueuedCargo, Manifest, Unheld, AcceptTokens, Announcements, Acks, ParkedAcks, ProxyTokens, Heralds,
        Settling, Heralding, Logged, Later, FreshNames, SendMessage, GetMessage;
    StartsFresh(s);
    LogKeys(s);
    LaterSelf(s);
    LaterLogs(s, s, m);
    match c {
      case Send(a, payload, qs) =>
        if MaySend(s, a, qs) && s.ports[a].nextSend < INVALID_SEQUENCE_NUM { SendLogs(s, a, payload, qs, m); }
      case Get(a) => if Held(s, a) { GetLogs(s, a, m); }
      case Create(_) => QuietLogs(s, c, m);
      case Close(_) => QuietLogs(s, c, m);
      case Deliver(_) => QuietLogs(s, c, m);
    }
  }

  lemma CloseIsWork(s: State, a: Addr)
    ensures ClosePort(s, a) == ClosePorts(s, [a])
  {
  }

  lemma LogKeys(s: State)
    requires Base(s)
    ensures s.h.sent.Keys == s.h.read.Keys == s.h.chain.Keys
  {
  }

  lemma StartsFresh(s: State)
    requires Base(s)
    ensures FreshNames(s)
  {
  }

  lemma CreateLogs(s: State, node: nat, m: LaneId)
    requires FreshNames(s) && s.h.sent.Keys == s.h.read.Keys == s.h.chain.Keys
    ensures Logged(s, CreatePortPair(s, node), m, [], [])
  {
    var t, l, l' := CreatePortPair(s, node), LaneId(s.nextName, false), LaneId(s.nextName, true);
    if m in s.h.sent { assert s.h.sent[m] == s.h.sent[m] + [] && s.h.read[m] == s.h.read[m] + []; }
    assert t.h.sent.Keys == s.h.sent.Keys + {l, l'} && t.h.read.Keys == s.h.read.Keys + {l, l'};
  }

  /** The history variables record exactly what the calls of the run sent and read. */
  lemma {:induction false} LogsAreHistory(cs: seq<Command>, m: LaneId)
    ensures var h := Run(cs).h;
            if m in h.sent && m in h.read
            then h.sent[m] == [NOTHING] + SentLog(cs, m) && h.read[m] == [NOTHING] + ReadLog(cs, m)
            else SentLog(cs, m) == ReadLog(cs, m) == []
    decreases |cs|
  {
    hide Lanes, Chained, Named, Known, Ids, Receivers, Senders, Nexts, Ends, Travellers, Waiting, Targets, Numbers,
        Placement, Reading, Gone, Lasts, TravelLasts, Closures, Flights, Mail, Queues, Pending, FlyingCargo,
        QueuedCargo, Manifest, Unheld, AcceptTokens, Announcements, Acks, ParkedAcks, ProxyTokens, Heralds,
        Settling, Heralding, Step, SentBy, ReadBy;
    if cs != [] {
      var init, c := cs[..|cs| - 1], cs[|cs| - 1];
      EveryRun(init);
      LogsAreHistory(init, m);
      StepLogs(Run(init), c, m);
      LogKeys(Run(init));
      EveryRun(cs);
      LogKeys(Run(cs));
    }
  }

  /** History only grows along a run. */
  lemma {:induction false} RunGrows(cs: seq<Command>, ds: seq<Command>)
    ensures Grows(Run(cs).h, Run(cs + ds).h)
    decreases |ds|
  {
    hide Inv, Step;
    if ds == [] {
      assert cs + ds == cs;
    } else {
      var init, c := ds[..|ds| - 1], ds[|ds| - 1];
      RunGrows(cs, init);
      assert (cs + ds)[..|cs + ds| - 1] == cs + init;
      EveryRun(cs + init);
      StepLogs(Run(cs + init), c, LaneId(0, false));
    }
  }
}
