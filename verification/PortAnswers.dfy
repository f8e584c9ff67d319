/** What the calls answer and do, over every run, in terms of what was sent and read: when a message
 is given out and which one, when one is accepted, and what creating and closing lead to. */
module PortAnswers {
  import opened PortState
  import opened PortSteps
  import opened PortInvariant
  import opened PortReading
  import opened PortSettled
  import opened PortDraining
  import opened PortClosing
  import opened PortDelivered
  import opened PortUsing
  import opened PortRuns
  import opened PortTheorems

  // ----- GetMessage -----

  /** The entry that is to be read next at lane m. */
  ghost predicate NextEntry(cs: seq<Command>, m: LaneId, e: Entry) {
    |ReadLog(cs, m)| < |SentLog(cs, m)| && e == SentLog(cs, m)[|ReadLog(cs, m)|]
  }

  /** A held port that receives gives out a message exactly when the next one has arrived in its queue;
      that one, and it is what was sent.  Otherwise it has no message, or reports that the peer is closed
      if it knows and all has been read.  A port that does not receive says so. */
  lemma GetAnswers(cs: seq<Command>, a: Addr)
    requires Held(Run(cs), a) && a in Run(cs).h.pos
    ensures var s, r := Run(cs), GetMessageOutcome(Run(cs), a);
            r.GetStateUnexpected? <==> !s.ports[a].mode.Receiving?
    ensures Run(cs).ports[a].mode.Receiving? ==>
              var s, r, m := Run(cs), GetMessageOutcome(Run(cs), a), Run(cs).h.pos[a].lane;
              var k, done := |ReadLog(cs, m)| + 1, s.ports[a].peerClosed && ReadLog(cs, m) == SentLog(cs, m);
              (r.GotMessage? <==> k in s.ports[a].queue.pending) &&
              (r.GetPeerClosed? <==> done) &&
              (r.NoMessage? <==> k !in s.ports[a].queue.pending && !done) &&
              (r.GotMessage? ==>
                 r.msg == s.ports[a].queue.pending[k] && r.msg.num == k &&
                 NextEntry(cs, m, Entry(r.msg.payload, LanesOf(s.h, r.msg.ports))))
  {
    hide Lanes, Chained, Named, Known, Ids, Receivers, Senders, Nexts, Ends, Travellers, Waiting, Targets, Numbers,
        Placement, Reading, Gone, Lasts, TravelLasts, Closures, Flights, Mail, Queues, Pending, FlyingCargo,
        QueuedCargo, Manifest, Unheld, AcceptTokens, Announcements, Acks, ParkedAcks, ProxyTokens, Heralds, Run,
        SentLog, ReadLog, Heralding, Settled, LanesOf;
    var s, m := Run(cs), Run(cs).h.pos[a].lane;
    EveryRun(cs);
    if s.ports[a].mode.Receiving? {
      KeysOf(cs, m);
      LogsAreHistory(cs, m);
      ToldFacts(s.ports, s.h.chain, s.h.nexts, s.h.routed, s.h.sent, s.h.place, s.h.read, s.h.closed, s.h.pos,
          s.h.transit, s.nextName, a);
      assert ReadLog(cs, m) == s.h.read[m][1..] && SentLog(cs, m) == s.h.sent[m][1..];
      PeerClosedIsExact(cs, a);
      var k := s.ports[a].queue.next;
      if k in s.ports[a].queue.pending {
        ReadsNext(s.ports, s.h.chain, s.h.nexts, s.h.routed, s.h.sent, s.h.place, s.h.read, s.h.closed, s.h.pos,
            s.nextName, a);
        LanesAre(s.h, s.ports[a].queue.pending[k].ports);
        ReadEntry(s.ports, s.h.chain, s.h.nexts, s.h.sent, s.h.place, s.h.pos, s.h.transit, s.h.cargo, a, m,
            s.h.pos[a].idx, k, LanesOf(s.h, s.ports[a].queue.pending[k].ports));
        NumberIs(s.ports, s.h.chain, s.h.sent, s.h.place, s.h.pos, a, k);
      }
    }
  }

  lemma LanesAre(h: History, bs: seq<Addr>)
    ensures |LanesOf(h, bs)| == |bs|
    ensures forall j :: 0 <= j < |bs| && bs[j] in h.pos ==> LanesOf(h, bs)[j] == h.pos[bs[j]].lane
  {
  }

  lemma NumberIs(ports: Ports, chain: Chains, sent: Logs, place: Places, pos: Positions, a: Addr, k: nat)
    requires a in ports && k in ports[a].queue.pending && Pending(ports, pos, place) &&
        Queues(ports, chain, sent, place) && Chained(chain, pos)
    ensures ports[a].queue.pending[k].num == k
  {
    assert place[pos[a].lane][k] == Queued(pos[a].idx);
  }

  /** The next message that has arrived is read, and nothing else is. */
  lemma GetReads(cs: seq<Command>, a: Addr, m: LaneId)
    requires Held(Run(cs), a) && Run(cs).ports[a].mode.Receiving? && a in Run(cs).h.pos
    ensures var s := Run(cs);
            if m == s.h.pos[a].lane && |ReadLog(cs, m)| + 1 in s.ports[a].queue.pending
            then |ReadLog(cs, m)| < |SentLog(cs, m)| &&
                 ReadLog(cs + [Get(a)], m) == ReadLog(cs, m) + [SentLog(cs, m)[|ReadLog(cs, m)|]]
            else ReadLog(cs + [Get(a)], m) == ReadLog(cs, m)
  {
    hide Run, GetMessageOutcome, LanesOf;
    GetAnswers(cs, a);
    assert (cs + [Get(a)])[..|cs|] == cs;
  }

  /** With nothing in flight, a port that is held and whose side has something to read gives the next
      message out. */
  lemma QuietGetReads(cs: seq<Command>, a: Addr)
    requires Held(Run(cs), a) && Run(cs).ports[a].mode.Receiving? && a in Run(cs).h.pos && Run(cs).net == map[]
    requires |ReadLog(cs, Run(cs).h.pos[a].lane)| < |SentLog(cs, Run(cs).h.pos[a].lane)|
    ensures var m := Run(cs).h.pos[a].lane;
            ReadLog(cs + [Get(a)], m) == ReadLog(cs, m) + [SentLog(cs, m)[|ReadLog(cs, m)|]]
  {
    hide Lanes, Chained, Named, Known, Ids, Receivers, Senders, Nexts, Ends, Travellers, Waiting, Targets, Numbers,
        Placement, Reading, Gone, Lasts, TravelLasts, Closures, Flights, Mail, Queues, Pending, FlyingCargo,
        QueuedCargo, Manifest, Unheld, AcceptTokens, Announcements, Acks, ParkedAcks, ProxyTokens, Heralds, Run,
        SentLog, ReadLog, Heralding, Settled;
    var s, m := Run(cs), Run(cs).h.pos[a].lane;
    EveryRun(cs);
    ReceivesAtEnd(s.ports, s.h.chain, s.h.routed, s.h.sent, s.h.closed, s.h.pos, a);
    NothingIsStranded(cs, m);
    GetReads(cs, a, m);
  }

  lemma ReceivesAtEnd(ports: Ports, chain: Chains, routed: Nums, sent: Logs, closed: set<LaneId>, pos: Positions,
      a: Addr)
    requires a in ports && ports[a].mode.Receiving? && Receivers(ports, pos, chain, routed, sent, closed) &&
        Chained(chain, pos)
    ensures a in pos && pos[a].lane in chain && pos[a].lane !in closed && |chain[pos[a].lane]| >= 1
    ensures a == EndOf(chain, pos[a].lane)
  {
    assert Receives(pos, chain, routed, sent, closed, a, ports[a]);
    assert chain[pos[a].lane][pos[a].idx] == a;
  }

  /** The ports of the message that was read are the reader's from then on. */
  lemma GetGivesPorts(cs: seq<Command>, a: Addr, b: Addr)
    requires Held(Run(cs), a) && GetMessageOutcome(Run(cs), a).GotMessage? && b in GetMessageOutcome(Run(cs),
        a).msg.ports
    ensures Held(Run(cs + [Get(a)]), b) && Run(cs + [Get(a)]).ports[b].mode.Receiving?
  {
    hide Lanes, Chained, Named, Known, Ids, Receivers, Senders, Nexts, Ends, Travellers, Waiting, Targets, Numbers,
        Placement, Reading, Gone, Lasts, TravelLasts, Closures, Flights, Mail, Queues, Pending, FlyingCargo,
        QueuedCargo, Manifest, Unheld, AcceptTokens, Announcements, Acks, ParkedAcks, ProxyTokens, Heralds, Run,
        Heralding, Settled, TakeMessage;
    assert (cs + [Get(a)])[..|cs|] == cs;
    NeverCrashes(cs + [Get(a)]);
    NextRun(cs, Get(a));
    var t, bs := TakeMessage(Run(cs), a), GetMessageOutcome(Run(cs), a).msg.ports;
    assert !ClaimPorts(t, bs).crashed;
    ClaimsAll(t, bs, b);
  }

  lemma NextRun(cs: seq<Command>, c: Command)
    ensures Run(cs + [c]) == Step(Run(cs), c)
  {
    assert (cs + [c])[..|cs|] == cs;
  }

  lemma {:induction false} ClaimsAll(s: State, bs: seq<Addr>, b: Addr)
    requires !ClaimPorts(s, bs).crashed
    ensures var t := ClaimPorts(s, bs);
            t.ports.Keys == s.ports.Keys &&
            (b in bs || (b in s.ports && s.ports[b].signalable && s.ports[b].mode.Receiving?) ==>
               b in t.ports && t.ports[b].signalable && t.ports[b].mode.Receiving?)
    decreases |bs|
  {
    if bs != [] {
      assert bs == [bs[0]] + bs[1..];
      ClaimsAll(s.(ports := s.ports[bs[0] := s.ports[bs[0]].(signalable := true)]), bs[1..], b);
    }
  }

  // ----- SendMessage -----

  /** A port that may be attached to a message for this peer. */
  predicate MayTravel(ports: Ports, peer: nat, q: Addr) {
    q in ports && ports[q].mode.Receiving? && q.name != peer
  }

  /** The first attached port that cannot travel. */
  ghost predicate FirstObstacle(ports: Ports, peer: nat, qs: seq<Addr>, i: nat) {
    i < |qs| && !MayTravel(ports, peer, qs[i]) && forall j :: 0 <= j < i ==> MayTravel(ports, peer, qs[j])
  }

  ghost predicate StuckByState(ports: Ports, peer: nat, qs: seq<Addr>) {
    exists i: nat :: FirstObstacle(ports, peer, qs, i) && qs[i] in ports && !ports[qs[i]].mode.Receiving?
  }

  ghost predicate StuckByPeer(ports: Ports, peer: nat, qs: seq<Addr>) {
    exists i: nat :: FirstObstacle(ports, peer, qs, i) && qs[i] in ports && ports[qs[i]].mode.Receiving?
  }

  lemma {:induction false} PortsAnswer(ports: Ports, peer: nat, qs: seq<Addr>)
    requires forall q :: q in qs ==> q in ports
    ensures var r := PortsOutcome(ports, peer, qs);
            (r == Ok <==> forall q :: q in qs ==> MayTravel(ports, peer, q)) &&
            (r == StateUnexpected <==> StuckByState(ports, peer, qs)) &&
            (r == CannotSendPeer <==> StuckByPeer(ports, peer, qs)) && r != PeerClosed && r != CannotSendSelf
    decreases |qs|
  {
    if qs != [] {
      var rest := qs[1..];
      assert qs == [qs[0]] + rest;
      if MayTravel(ports, peer, qs[0]) {
        PortsAnswer(ports, peer, rest);
        ObstaclesShift(ports, peer, qs);
      } else {
        ObstacleAtFront(ports, peer, qs);
      }
    } else {
      NoObstacle(ports, peer, qs);
    }
  }

  lemma NoObstacle(ports: Ports, peer: nat, qs: seq<Addr>)
    requires qs == []
    ensures !StuckByState(ports, peer, qs) && !StuckByPeer(ports, peer, qs)
  {
  }

  lemma ObstacleAtFront(ports: Ports, peer: nat, qs: seq<Addr>)
    requires qs != [] && qs[0] in ports && !MayTravel(ports, peer, qs[0])
    ensures StuckByState(ports, peer, qs) <==> !ports[qs[0]].mode.Receiving?
    ensures StuckByPeer(ports, peer, qs) <==> ports[qs[0]].mode.Receiving?
  {
    assert FirstObstacle(ports, peer, qs, 0);
    assert forall i: nat :: FirstObstacle(ports, peer, qs, i) ==> i == 0;
  }

  lemma ObstaclesShift(ports: Ports, peer: nat, qs: seq<Addr>)
    requires qs != [] && MayTravel(ports, peer, qs[0])
    ensures StuckByState(ports, peer, qs) <==> StuckByState(ports, peer, qs[1..])
    ensures StuckByPeer(ports, peer, qs) <==> StuckByPeer(ports, peer, qs[1..])
  {
    forall i: nat
      ensures FirstObstacle(ports, peer, qs[1..], i) <==> FirstObstacle(ports, peer, qs, i + 1)
    {
      ObstacleShifts(ports, peer, qs, i);
    }
    hide MayTravel;
    if i: nat :| FirstObstacle(ports, peer, qs, i) {
      assert i > 0 && FirstObstacle(ports, peer, qs[1..], i - 1) && qs[1..][i - 1] == qs[i];
    }
    if i: nat :| FirstObstacle(ports, peer, qs[1..], i) {
      assert FirstObstacle(ports, peer, qs, i + 1) && qs[i + 1] == qs[1..][i];
    }
    OnlyFirst(ports, peer, qs);
    OnlyFirst(ports, peer, qs[1..]);
  }

  lemma ObstacleShifts(ports: Ports, peer: nat, qs: seq<Addr>, i: nat)
    requires qs != [] && MayTravel(ports, peer, qs[0])
    ensures FirstObstacle(ports, peer, qs[1..], i) <==> FirstObstacle(ports, peer, qs, i + 1)
  {
    hide MayTravel;
    if FirstObstacle(ports, peer, qs, i + 1) {
      forall j | 0 <= j < i
        ensures MayTravel(ports, peer, qs[1..][j])
      {
        assert MayTravel(ports, peer, qs[j + 1]);
      }
    }
  }

  lemma OnlyFirst(ports: Ports, peer: nat, qs: seq<Addr>)
    ensures forall i: nat, j: nat :: FirstObstacle(ports, peer, qs, i) && FirstObstacle(ports, peer, qs, j) ==> i == j
  {
    hide MayTravel;
  }

  /** When a message is accepted, and what each refusal means. */
  lemma SendAnswers(s: State, a: Addr, qs: seq<Addr>)
    requires MaySend(s, a, qs)
    ensures var r, p := SendOutcome(s, a, qs), s.ports[a];
            var free := a !in qs && p.mode.Receiving? && !p.peerClosed;
            (r == Ok <==> free && forall q :: q in qs ==> MayTravel(s.ports, p.peer.name, q)) &&
            (r == CannotSendSelf <==> a in qs) &&
            (r == PeerClosed <==> a !in qs && p.mode.Receiving? && p.peerClosed) &&
            (r == CannotSendPeer <==> free && StuckByPeer(s.ports, p.peer.name, qs)) &&
            (r == StateUnexpected <==> (a !in qs && !p.mode.Receiving?) ||
                                       (free && StuckByState(s.ports, p.peer.name, qs)))
  {
    hide FirstObstacle, StuckByState, StuckByPeer, MayTravel;
    PortsAnswer(s.ports, s.ports[a].peer.name, qs);
  }

  /** The message can be sent, as far as the ports and the numbers go. */
  ghost predicate CanSend(cs: seq<Command>, a: Addr, qs: seq<Addr>) {
    var s := Run(cs);
    MaySend(s, a, qs) && a in s.h.pos && a !in qs && s.ports[a].mode.Receiving? && !s.ports[a].peerClosed &&
    (forall q :: q in qs ==> MayTravel(s.ports, s.ports[a].peer.name, q)) &&
    |SentLog(cs, s.h.pos[a].lane.Other())| + 1 < INVALID_SEQUENCE_NUM
  }

  /** Such a message is sent: it is added to the log of the other side and of no other, and it is on its
      way to the peer under the next number. */
  lemma SendAdds(cs: seq<Command>, a: Addr, payload: Payload, qs: seq<Addr>, m: LaneId)
    requires CanSend(cs, a, qs)
    ensures var s, t := Run(cs), Run(cs + [Send(a, payload, qs)]);
            SentLog(cs + [Send(a, payload, qs)], m) ==
            SentLog(cs, m) + (if m == s.h.pos[a].lane.Other() then [Entry(payload, LanesOf(s.h, qs))] else [])
    ensures var s, t := Run(cs), Run(cs + [Send(a, payload, qs)]);
            m == s.h.pos[a].lane.Other() ==>
              s.nextId !in s.net && s.nextId in t.net && t.net[s.nextId].User? &&
              t.net[s.nextId].to == s.ports[a].peer &&
              t.net[s.nextId].msg.num == |SentLog(cs, m)| + 1 && t.net[s.nextId].msg.payload == payload &&
              |t.net[s.nextId].msg.ports| == |qs|
  {
    hide Lanes, Chained, Named, Known, Ids, Receivers, Senders, Nexts, Ends, Travellers, Waiting, Targets, Numbers,
        Placement, Reading, Gone, Lasts, TravelLasts, Closures, Flights, Mail, Queues, Pending, FlyingCargo,
        QueuedCargo, Manifest, Unheld, AcceptTokens, Announcements, Acks, ParkedAcks, ProxyTokens, Heralds, Run,
        SentLog, ReadLog, Heralding, Settled, LanesOf, SendOutcome, MayTravel, SendMessage;
    var s, c := Run(cs), Send(a, payload, qs);
    var o := s.h.pos[a].lane.Other();
    EveryRun(cs);
    SendAnswers(s, a, qs);
    NextRun(cs, c);
    KeysOf(cs, o);
    LogsAreHistory(cs, o);
    NextNumber(s.ports, s.h.chain, s.h.routed, s.h.sent, s.h.closed, s.h.pos, a);
    LogsNext(cs, c, m);
    NeverCrashes(cs + [c]);
    IdsAreOld(cs);
    OldName(s.h.pos, s.nextName, a);
    SendPosts(s, a, payload, qs);
  }

  lemma OldName(pos: Positions, name: nat, a: Addr)
    requires a in pos && Named(pos, name)
    ensures a.name < name
  {
  }

  lemma NextNumber(ports: Ports, chain: Chains, routed: Nums, sent: Logs, closed: set<LaneId>, pos: Positions,
      a: Addr)
    requires a in ports && ports[a].mode.Receiving? && Receivers(ports, pos, chain, routed, sent, closed)
    ensures a in pos && pos[a].lane.Other() in chain && pos[a].lane.Other() in sent
    ensures ports[a].nextSend == |sent[pos[a].lane.Other()]|
  {
    assert Receives(pos, chain, routed, sent, closed, a, ports[a]);
  }

  lemma LogsNext(cs: seq<Command>, c: Command, m: LaneId)
    ensures SentLog(cs + [c], m) == SentLog(cs, m) + SentBy(Run(cs), c, m)
  {
    assert (cs + [c])[..|cs|] == cs;
  }

  lemma SendPosts(s: State, a: Addr, payload: Payload, qs: seq<Addr>)
    requires MaySend(s, a, qs) && SendOutcome(s, a, qs) == Ok && !SendMessage(s, a, payload, qs).crashed
    requires a !in qs && a.name < s.nextName
    ensures var t, p := SendMessage(s, a, payload, qs), s.ports[a];
            s.nextId in t.net && t.net[s.nextId].User? && t.net[s.nextId].to == p.peer &&
            t.net[s.nextId].msg.num == p.nextSend && t.net[s.nextId].msg.payload == payload &&
            |t.net[s.nextId].msg.ports| == |qs|
  {
    hide SendOutcome, SendPorts, WillSendPort;
    SendingKeeps(s, qs, s.ports[a].peer.node, a);
  }

  lemma {:induction false} SendingKeeps(s: State, qs: seq<Addr>, node: nat, a: Addr)
    requires a in s.ports && a !in qs && !SendPorts(s, qs, node).crashed && a.name < s.nextName
    ensures var t := SendPorts(s, qs, node);
            a in t.ports && t.ports[a] == s.ports[a] && t.nextId == s.nextId
    decreases |qs|
  {
    if qs != [] {
      assert qs == [qs[0]] + qs[1..];
      SendingKeeps(WillSendPort(s, qs[0], node), qs[1..], node, a);
    }
  }

  /** Any other message is refused, and nothing changes. */
  lemma SendRefused(cs: seq<Command>, a: Addr, payload: Payload, qs: seq<Addr>)
    requires a in Run(cs).h.pos && !CanSend(cs, a, qs)
    ensures Run(cs + [Send(a, payload, qs)]) == Run(cs)
  {
    hide Lanes, Chained, Named, Known, Ids, Receivers, Senders, Nexts, Ends, Travellers, Waiting, Targets, Numbers,
        Placement, Reading, Gone, Lasts, TravelLasts, Closures, Flights, Mail, Queues, Pending, FlyingCargo,
        QueuedCargo, Manifest, Unheld, AcceptTokens, Announcements, Acks, ParkedAcks, ProxyTokens, Heralds, Run,
        SentLog, ReadLog, Heralding, Settled, SendOutcome, MayTravel;
    var s := Run(cs);
    EveryRun(cs);
    NextRun(cs, Send(a, payload, qs));
    if MaySend(s, a, qs) {
      SendAnswers(s, a, qs);
      if s.ports[a].mode.Receiving? {
        var o := s.h.pos[a].lane.Other();
        KeysOf(cs, o);
        LogsAreHistory(cs, o);
        NextNumber(s.ports, s.h.chain, s.h.routed, s.h.sent, s.h.closed, s.h.pos, a);
      }
    }
  }

  // ----- CreatePortPair, ClosePort -----

  /** The two ports address each other, are held, and belong to a pipe of their own that is open and
      over which nothing was sent. */
  ghost predicate NewPipe(s: State, a: Addr, b: Addr) {
    Held(s, a) && Held(s, b) && a != b && s.ports[a] == NewPort(b) && s.ports[b] == NewPort(a) &&
    a in s.h.pos && b in s.h.pos && s.h.pos[b].lane == s.h.pos[a].lane.Other() &&
    s.h.pos[a].lane !in s.h.closed && s.h.pos[b].lane !in s.h.closed
  }

  lemma CreateMakesPipe(cs: seq<Command>, node: nat)
    ensures var s, t := Run(cs), Run(cs + [Create(node)]);
            exists a, b ::
              a !in s.ports && b !in s.ports && a.node == node && b.node == node && NewPipe(t, a, b) &&
              SentLog(cs + [Create(node)], t.h.pos[a].lane) == SentLog(cs + [Create(node)], t.h.pos[b].lane) == []
  {
    hide Lanes, Chained, Named, Known, Ids, Receivers, Senders, Nexts, Ends, Travellers, Waiting, Targets, Numbers,
        Placement, Reading, Gone, Lasts, TravelLasts, Closures, Flights, Mail, Queues, Pending, FlyingCargo,
        QueuedCargo, Manifest, Unheld, AcceptTokens, Announcements, Acks, ParkedAcks, ProxyTokens, Heralds, Run,
        SentLog, ReadLog, Heralding, Settled;
    var s, t := Run(cs), Run(cs + [Create(node)]);
    var a, b := Addr(node, s.nextName), Addr(node, s.nextName + 1);
    EveryRun(cs);
    NextRun(cs, Create(node));
    NamesUnused(s.ports, s.h.chain, s.h.nexts, s.h.routed, s.h.sent, s.h.place, s.h.read, s.h.closed, s.h.pos,
        s.h.transit, s.h.cargo, s.h.token, s.nextName, a, b);
    assert NewPipe(t, a, b);
    LogsAreHistory(cs + [Create(node)], t.h.pos[a].lane);
    LogsAreHistory(cs + [Create(node)], t.h.pos[b].lane);
    EmptyLog(SentLog(cs + [Create(node)], t.h.pos[a].lane));
    EmptyLog(SentLog(cs + [Create(node)], t.h.pos[b].lane));
  }

  lemma EmptyLog(log: seq<Entry>)
    requires [NOTHING] + log == [NOTHING]
    ensures log == []
  {
    assert |[NOTHING] + log| == 1 + |log|;
  }

  lemma NamesUnused(ports: Ports, chain: Chains, nexts: Nums, routed: Nums, sent: Logs, place: Places, read: Logs,
      closed: set<LaneId>, pos: Positions, transit: Transits, cargo: Cargos, token: Tokens, name: nat, a: Addr,
      b: Addr)
    requires a.name == name && b.name == name + 1 && Named(pos, name) && Known(ports, transit, cargo, token,
        pos) && Lanes(chain, nexts, routed, sent, place, read, closed, name)
    ensures a !in ports && b !in ports && LaneId(name, false) !in closed && LaneId(name, true) !in closed
  {
  }

  /** Closing a held port closes its side, for good, and the port is gone. */
  lemma CloseShuts(cs: seq<Command>, a: Addr)
    requires Held(Run(cs), a) && Run(cs).ports[a].mode.Receiving? && a in Run(cs).h.pos
    ensures var s, t := Run(cs), Run(cs + [Close(a)]);
            s.h.pos[a].lane in t.h.closed && a !in t.ports
  {
    hide Lanes, Chained, Named, Known, Ids, Receivers, Senders, Nexts, Ends, Travellers, Waiting, Targets, Numbers,
        Placement, Reading, Gone, Lasts, TravelLasts, Closures, Flights, Mail, Queues, Pending, FlyingCargo,
        QueuedCargo, Manifest, Unheld, AcceptTokens, Announcements, Acks, ParkedAcks, ProxyTokens, Heralds, Run,
        SentLog, ReadLog, Heralding, Settled, ErasePort;
    var s := Run(cs);
    EveryRun(cs);
    NextRun(cs, Close(a));
    IsTracked(s, a);
    EraseShrinks(s, a);
    Erased(s, a);
    assert [a][1..] == [];
    StaysShut(ErasePort(s, a), ReferencedPorts(s.ports[a].queue.pending) + [a][1..], a);
  }

  lemma Erased(s: State, a: Addr)
    requires SendablePort(s, a)
    ensures a !in ErasePort(s, a).ports && s.h.pos[a].lane in ErasePort(s, a).h.closed
  {
  }

  lemma {:induction false} StaysShut(s: State, work: seq<Addr>, a: Addr)
    requires a !in s.ports
    ensures var t := ClosePorts(s, work);
            s.h.closed <= t.h.closed && a !in t.ports
    decreases |s.ports|, |work|
  {
    if work != [] {
      if work[0] !in s.ports || !s.ports[work[0]].mode.Receiving? {
        StaysShut(s, work[1..], a);
      } else if SendablePort(s, work[0]) {
        EraseShrinks(s, work[0]);
        StaysShut(ErasePort(s, work[0]), ReferencedPorts(s.ports[work[0]].queue.pending) + work[1..], a);
      }
    }
  }
}
