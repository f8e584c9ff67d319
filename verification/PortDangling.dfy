/** A run in which a proxy that the sender has stopped addressing outlives its successor: its peer
 pointer then leads nowhere.  A port is sent on twice; the first proxy's acknowledgement is still on
 its way when the second proxy is removed. */
module PortDangling {
  import opened PortState
  import opened PortSteps
  import opened PortInvariant
  import opened PortSettled
  import opened PortDraining
  import opened PortUsing
  import opened PortRuns
  import opened PortDelivery

  /** The two ends of the pipe, the pipe that carries one of them, and the ports that follow it. */
  const A := Addr(0, 0)
  const B := Addr(0, 1)
  const C := Addr(0, 2)
  const D := Addr(0, 3)
  const E := Addr(0, 4)
  const F := Addr(0, 5)

  const FIRST := Descriptor(A, B, 1, 1, 0, false)
  const SECOND := Descriptor(A, E, 1, 1, 0, false)
  const M1 := Message(1, [], [E], [FIRST])
  const M2 := Message(2, [], [F], [SECOND])

  /** What the run has led to, as far as the program can see. */
  ghost predicate At(cs: seq<Command>, ports: Ports, net: Net, nextId: nat, nextName: nat) {
    var s := Run(cs);
    s.ports == ports && s.net == net && s.nextId == nextId && s.nextName == nextName
  }

  lemma RunOn(cs: seq<Command>, c: Command)
    ensures Run(cs + [c]) == Step(Run(cs), c)
  {
    assert (cs + [c])[..|cs|] == cs;
  }

  lemma RunTracks(cs: seq<Command>, a: Addr)
    requires a in Run(cs).ports
    ensures Tracked(Run(cs).h, a) && (HasNext(Run(cs).ports[a]) ==> Hoppable(Run(cs), a)) && !Run(cs).crashed
  {
    hide Lanes, Chained, Named, Known, Ids, Shape, Counting, Ending, Posting, Carrying, Tokening, Heralding,
        Settled, Run;
    EveryRun(cs);
    PortIsTracked(Run(cs), a);
    if HasNext(Run(cs).ports[a]) { CanHop(Run(cs), a); }
  }

  // ----- The ports after each step -----

  const P2: Ports := map[A := NewPort(B), B := NewPort(A), C := NewPort(D), D := NewPort(C)]
  const P3: Ports := P2[B := P2[B].(mode := Buffering, peer := E)][C := P2[C].(nextSend := 2)]
  const P4: Ports := P3[E := AcceptedPort(FIRST)][D := P3[D].(queue := Queue(1, map[1 := M1]))]
  const P5: Ports := P4[D := P4[D].(queue := Queue(2, map[]))][E := P4[E].(signalable := true)]
  const P6: Ports := P5[E := P5[E].(mode := Buffering, peer := F)][C := P5[C].(nextSend := 3)]
  const P7: Ports := P6[F := AcceptedPort(SECOND)][D := P6[D].(queue := Queue(2, map[2 := M2]))]
  const P8: Ports := P7[B := P7[B].(mode := Proxying)]
  const P9: Ports := P8[E := P8[E].(mode := Proxying)]
  const P12: Ports := P9[A := P9[A].(peer := E)]
  const P14: Ports := P12[A := P12[A].(peer := F)]
  const P15: Ports := P14 - {E}

  lemma Step2()
    ensures At([Create(0), Create(0)], P2, map[], 0, 4)
  {
    RunOn([], Create(0));
    RunOn([Create(0)], Create(0));
    assert [] + [Create(0)] == [Create(0)] && [Create(0)] + [Create(0)] == [Create(0), Create(0)];
    assert Run([]) == INIT;
    var s1 := CreatePortPair(INIT, 0);
    assert s1.ports == map[A := NewPort(B), B := NewPort(A)];
    assert CreatePortPair(s1, 0).ports == P2;
  }

  // ----- What the calls and handlers do here -----

  /** The visible part of a state. */
  ghost predicate Looks(s: State, ports: Ports, net: Net, nextId: nat, nextName: nat) {
    s.ports == ports && s.net == net && s.nextId == nextId && s.nextName == nextName
  }

  lemma SendsOne(s: State, a: Addr, q: Addr)
    requires MaySend(s, a, [q]) && a != q && SendablePort(s, a) && SendablePort(s, q) && !s.crashed
    requires !s.ports[a].peerClosed && !s.ports[q].peerClosed && !s.ports[q].removeOnLast
    requires q.name != s.ports[a].peer.name
    requires a.name < s.nextName
    ensures var b, d, p := Addr(s.ports[a].peer.node, s.nextName), DescriptorOf(q, s.ports[q]), s.ports[a];
            Looks(SendMessage(s, a, [], [q]),
                  s.ports[q := s.ports[q].(mode := Buffering, peer := b)][a := p.(nextSend := p.nextSend + 1)],
                  s.net[s.nextId := User(p.peer, Message(p.nextSend, [], [b], [d]))], s.nextId + 1, s.nextName + 1)
  {
    var node := s.ports[a].peer.node;
    var t := WillSendPort(s, q, node);
    assert SendOutcome(s, a, [q]) == Ok;
    assert SendPorts(s, [q], node) == t by { assert [q][1..] == []; }
    StillTracked(s, q, node, a);
    assert NewAddrs(node, s.nextName, 1) == [Addr(node, s.nextName)];
    assert Descriptors(s.ports, [q]) == [DescriptorOf(q, s.ports[q])];
  }

  lemma StillTracked(s: State, q: Addr, node: nat, a: Addr)
    requires SendablePort(s, q) && Tracked(s.h, a) && Addr(node, s.nextName) != a
    ensures Tracked(WillSendPort(s, q, node).h, a)
  {
  }

  lemma RunArrives(cs: seq<Command>, id: nat)
    requires id in Run(cs).net && Run(cs).net[id].User?
    ensures Arriving(Run(cs), id)
  {
    hide Lanes, Chained, Named, Known, Ids, Shape, Counting, Ending, Posting, Carrying, Tokening, Heralding,
        Settled, Run;
    EveryRun(cs);
    CanArrive(Run(cs), id);
  }

  lemma CarriesOne(s: State, id: nat, x: Addr, msg: Message, b: Addr, d: Descriptor)
    requires !s.crashed && id in s.net && id < s.nextId && s.net[id] == User(x, msg) && msg.ports == [b]
    requires msg.descs == [d]
    requires b !in s.ports && x in s.ports && x != b && s.ports[x].mode.Receiving? && CanAcceptMoreMessages(s.ports[x])
    requires Arriving(s, id)
    ensures var p := s.ports[x];
            Looks(OnUserMessage(s, id),
                  s.ports[b := AcceptedPort(d)][x := p.(queue := Queue(p.queue.next, p.queue.pending[msg.num := msg]))],
                  s.net[s.nextId := PortAccepted(d.referring)] - {id}, s.nextId + 1, s.nextName)
  {
    var t := AcceptPort(s, b, d);
    assert AcceptPorts(s, [b], [d]) == t by { assert [b][1..] == [] && [d][1..] == []; }
    assert Arriving(t, id);
  }

  lemma GetsOne(s: State, a: Addr, b: Addr)
    requires Held(s, a) && Readable(s, a) && CanAcceptMoreMessages(s.ports[a]) && !s.crashed
    requires s.ports[a].queue.pending[s.ports[a].queue.next].ports == [b] && b in s.ports && b != a
    requires s.ports[b].mode.Receiving?
    ensures Looks(GetMessage(s, a), s.ports[a := Popped(s.ports[a])][b := s.ports[b].(signalable := true)], s.net,
        s.nextId,
                  s.nextName)
  {
    var t := TakeMessage(s, a);
    assert [b][1..] == [];
    assert ClaimPorts(t, [b]) == t.(ports := t.ports[b := t.ports[b].(signalable := true)]);
  }

  lemma LandsOne(s: State, id: nat, x: Addr)
    requires !s.crashed && id in s.net && s.net[id] == PortAccepted(x) && x in s.ports && s.ports[x].mode.Buffering?
    requires s.ports[x].queue.pending == map[] && !s.ports[x].removeOnLast
    ensures var y := s.ports[x].peer;
            Looks(OnPortAccepted(s, id), s.ports[x := s.ports[x].(mode := Proxying)],
                  (s.net - {id})[s.nextId := ObserveProxy(y, x, y)], s.nextId + 1, s.nextName)
  {
    assert ForwardMessages(BecomeProxy(s, id), x) == BecomeProxy(s, id);
  }

  lemma RelaysOne(s: State, id: nat)
    requires id in s.net && s.net[id].ObserveProxy? && s.net[id].to in s.ports
    requires s.ports[s.net[id].to].peer != s.net[id].proxy
    ensures var e := s.net[id];
            Looks(OnObserveProxy(s, id), s.ports, (s.net - {id})[s.nextId := ObserveProxy(s.ports[e.to].peer,
                e.proxy, e.proxyTo)],
                  s.nextId + 1, s.nextName)
  {
  }

  lemma SkipsOne(s: State, id: nat)
    requires id in s.net && s.net[id].ObserveProxy? && s.net[id].to in s.ports
    requires s.ports[s.net[id].to].peer == s.net[id].proxy
    requires s.ports[s.net[id].to].mode.Receiving? && s.ports[s.net[id].to].nextSend == 1 && Tracked(s.h, s.net[id].to)
    ensures var e := s.net[id];
            Looks(OnObserveProxy(s, id), s.ports[e.to := s.ports[e.to].(peer := e.proxyTo)],
                  (s.net - {id})[s.nextId := ObserveProxyAck(e.proxy, 0)], s.nextId + 1, s.nextName)
  {
  }

  lemma RemovesOne(s: State, id: nat, x: Addr)
    requires id in s.net && s.net[id] == ObserveProxyAck(x, 0) && x in s.ports && s.ports[x].mode.Proxying?
    requires s.ports[x].queue.next == 1 && s.ports[x].parked.None?
    ensures Looks(OnObserveProxyAck(s, id), s.ports - {x}, s.net - {id}, s.nextId, s.nextName)
  {
  }

  // ----- The run -----

  lemma Step3(cs: seq<Command>)
    requires At(cs, P2, map[], 0, 4)
    ensures At(cs + [Send(C, [], [B])], P3, map[0 := User(D, M1)], 1, 5)
  {
    hide Run, Hoppable, Tracked, SendMessage;
    RunOn(cs, Send(C, [], [B]));
    RunTracks(cs, C);
    RunTracks(cs, B);
    SendsOne(Run(cs), C, B);
  }

  lemma Step4(cs: seq<Command>)
    requires At(cs, P3, map[0 := User(D, M1)], 1, 5)
    ensures At(cs + [Deliver(0)], P4, map[1 := PortAccepted(B)], 2, 5)
  {
    hide Run, Hoppable, Tracked, OnUserMessage;
    RunOn(cs, Deliver(0));
    RunTracks(cs, D);
    RunArrives(cs, 0);
    CarriesOne(Run(cs), 0, D, M1, E, FIRST);
  }

  lemma Step5(cs: seq<Command>)
    requires At(cs, P4, map[1 := PortAccepted(B)], 2, 5)
    ensures At(cs + [Get(D)], P5, map[1 := PortAccepted(B)], 2, 5)
  {
    hide Run, Hoppable, Tracked, GetMessage;
    RunOn(cs, Get(D));
    RunTracks(cs, D);
    GetsOne(Run(cs), D, E);
    assert map[1 := M1] - {1} == map[];
  }

  lemma Step6(cs: seq<Command>)
    requires At(cs, P5, map[1 := PortAccepted(B)], 2, 5)
    ensures At(cs + [Send(C, [], [E])], P6, map[1 := PortAccepted(B), 2 := User(D, M2)], 3, 6)
  {
    hide Run, Hoppable, Tracked, SendMessage;
    RunOn(cs, Send(C, [], [E]));
    RunTracks(cs, C);
    RunTracks(cs, E);
    SendsOne(Run(cs), C, E);
  }

  lemma Step7(cs: seq<Command>)
    requires At(cs, P6, map[1 := PortAccepted(B), 2 := User(D, M2)], 3, 6)
    ensures At(cs + [Deliver(2)], P7, map[1 := PortAccepted(B), 3 := PortAccepted(E)], 4, 6)
  {
    hide Run, Hoppable, Tracked, OnUserMessage;
    RunOn(cs, Deliver(2));
    RunTracks(cs, D);
    RunArrives(cs, 2);
    CarriesOne(Run(cs), 2, D, M2, F, SECOND);
  }

  lemma Step8(cs: seq<Command>)
    requires At(cs, P7, map[1 := PortAccepted(B), 3 := PortAccepted(E)], 4, 6)
    ensures At(cs + [Deliver(1)], P8, map[3 := PortAccepted(E), 4 := ObserveProxy(E, B, E)], 5, 6)
  {
    hide Run, Hoppable, Tracked, OnPortAccepted;
    RunOn(cs, Deliver(1));
    RunTracks(cs, B);
    LandsOne(Run(cs), 1, B);
  }

  lemma Step9(cs: seq<Command>)
    requires At(cs, P8, map[3 := PortAccepted(E), 4 := ObserveProxy(E, B, E)], 5, 6)
    ensures At(cs + [Deliver(3)], P9, map[4 := ObserveProxy(E, B, E), 5 := ObserveProxy(F, E, F)], 6, 6)
  {
    hide Run, Hoppable, Tracked, OnPortAccepted;
    RunOn(cs, Deliver(3));
    RunTracks(cs, E);
    LandsOne(Run(cs), 3, E);
  }

  /** The announcement of the first proxy goes on to the end, and to the other side. */
  lemma Step11(cs: seq<Command>)
    requires At(cs, P9, map[4 := ObserveProxy(E, B, E), 5 := ObserveProxy(F, E, F)], 6, 6)
    ensures At(cs + [Deliver(4)] + [Deliver(6)], P9, map[5 := ObserveProxy(F, E, F), 7 := ObserveProxy(A, B, E)], 8, 6)
  {
    hide Run, Hoppable, Tracked, OnObserveProxy;
    RunOn(cs, Deliver(4));
    RunOn(cs + [Deliver(4)], Deliver(6));
    RelaysOne(Run(cs), 4);
    assert At(cs + [Deliver(4)], P9, map[5 := ObserveProxy(F, E, F), 6 := ObserveProxy(F, B, E)], 7, 6);
    RelaysOne(Run(cs + [Deliver(4)]), 6);
  }

  /** The other side skips the first proxy, and its acknowledgement stays on its way. */
  lemma Step12(cs: seq<Command>)
    requires At(cs, P9, map[5 := ObserveProxy(F, E, F), 7 := ObserveProxy(A, B, E)], 8, 6)
    ensures At(cs + [Deliver(7)], P12, map[5 := ObserveProxy(F, E, F), 8 := ObserveProxyAck(B, 0)], 9, 6)
  {
    hide Run, Hoppable, Tracked, OnObserveProxy;
    RunOn(cs, Deliver(7));
    RunTracks(cs, A);
    SkipsOne(Run(cs), 7);
  }

  lemma Step14(cs: seq<Command>)
    requires At(cs, P12, map[5 := ObserveProxy(F, E, F), 8 := ObserveProxyAck(B, 0)], 9, 6)
    ensures At(cs + [Deliver(5)] + [Deliver(9)], P14, map[8 := ObserveProxyAck(B, 0), 10 := ObserveProxyAck(E, 0)],
        11, 6)
  {
    hide Run, Hoppable, Tracked, OnObserveProxy;
    RunOn(cs, Deliver(5));
    RunOn(cs + [Deliver(5)], Deliver(9));
    RelaysOne(Run(cs), 5);
    assert At(cs + [Deliver(5)], P12, map[8 := ObserveProxyAck(B, 0), 9 := ObserveProxy(A, E, F)], 10, 6);
    RunTracks(cs + [Deliver(5)], A);
    SkipsOne(Run(cs + [Deliver(5)]), 9);
  }

  /** The second proxy is acknowledged, and goes. */
  lemma Step15(cs: seq<Command>)
    requires At(cs, P14, map[8 := ObserveProxyAck(B, 0), 10 := ObserveProxyAck(E, 0)], 11, 6)
    ensures At(cs + [Deliver(10)], P15, map[8 := ObserveProxyAck(B, 0)], 11, 6)
  {
    hide Run, Hoppable, Tracked, OnObserveProxyAck;
    RunOn(cs, Deliver(10));
    RemovesOne(Run(cs), 10, E);
  }

  /** A proxy whose successor is gone: not every bypassed proxy leads into the ring. */
  lemma ProxyMayDangle() returns (cs: seq<Command>)
    ensures var s := Run(cs);
            B in s.ports && s.ports[B].mode.Proxying? && s.ports[B].peer == E && E !in s.ports && E !in s.h.transit &&
            (forall c :: c in cs ==> !c.Close?) && s.net == map[8 := ObserveProxyAck(B, 0)] &&
            A in s.ports && s.ports[A].mode.Receiving? && s.ports[A].peer == F && F in s.ports &&
                s.ports[F].mode.Receiving?
  {
    hide Run;
    cs := [Create(0), Create(0)];
    Step2();
    Step3(cs);
    cs := cs + [Send(C, [], [B])];
    Step4(cs);
    cs := cs + [Deliver(0)];
    Step5(cs);
    cs := cs + [Get(D)];
    Step6(cs);
    cs := cs + [Send(C, [], [E])];
    Step7(cs);
    cs := cs + [Deliver(2)];
    Step8(cs);
    cs := cs + [Deliver(1)];
    Step9(cs);
    cs := cs + [Deliver(3)];
    Step11(cs);
    cs := cs + [Deliver(4)] + [Deliver(6)];
    Step12(cs);
    cs := cs + [Deliver(7)];
    Step14(cs);
    cs := cs + [Deliver(5)] + [Deliver(9)];
    Step15(cs);
    cs := cs + [Deliver(10)];
    NotTravelling(cs, E);
  }

  /** A port that has landed is not on its way. */
  lemma NotTravelling(cs: seq<Command>, b: Addr)
    requires At(cs, P15, map[8 := ObserveProxyAck(B, 0)], 11, 6) && b == E
    ensures b !in Run(cs).h.transit
  {
    hide Run, Lanes, Chained, Named, Ids, Shape, Counting, Ending, Posting, Tokening, Heralding;
    EveryRun(cs);
  }
}
