/** The calls a user makes keep the invariant, so every reachable state has it. */
module PortUsing {
  import opened PortState
  import opened PortSteps
  import opened PortInvariant
  import opened PortTransfer
  import opened PortForward
  import opened PortSending
  import opened PortReading
  import opened PortCreating
  import opened PortSettled
  import opened PortDraining
  import opened PortHandlers
  import opened PortClosing
  import opened PortDelivery

  // ----- CreatePortPair -----

  lemma CreateSettles(ports: Ports, cargo: Cargos, a: Addr, b: Addr)
    requires a !in ports && b !in ports && Here(ports, {}) && Drained(ports, {}) && Claimed(ports, cargo, {})
    ensures var ports' := ports[a := NewPort(b)][b := NewPort(a)];
            Here(ports', {}) && Drained(ports', {}) && Claimed(ports', cargo, {})
  {
    var ports' := ports[a := NewPort(b)][b := NewPort(a)];
    forall c, k | c in ports' && k in ports'[c].queue.pending
      ensures AllHere(ports', ports'[c].queue.pending[k].ports)
    {
      assert AllHere(ports, ports[c].queue.pending[k].ports);
    }
  }

  lemma CreateKeeps(s: State, node: nat)
    requires Inv(s)
    ensures var t := CreatePortPair(s, node);
            Inv(t)
  {
    hide Lanes, Chained, Named, Known, Ids, Receivers, Senders, Nexts, Ends, Travellers, Waiting, Targets, Numbers,
        Placement, Reading, Gone, Lasts, TravelLasts, Closures, Flights, Mail, Queues, Pending, FlyingCargo,
        QueuedCargo, Manifest, Unheld, AcceptTokens, Announcements, Acks, ParkedAcks, ProxyTokens, Heralds, Here,
        Drained, Claimed;
    var a, b := Addr(node, s.nextName), Addr(node, s.nextName + 1);
    CreateTrunk(s, node);
    CreateRest(s, node);
    CreateFresh(s.h.chain, s.h.nexts, s.h.routed, s.h.sent, s.h.place, s.h.read, s.h.closed, s.h.pos, s.nextName, a,
        b, LaneId(s.nextName, false), LaneId(s.nextName, true));
    CreateKnown(s.ports, s.h.pos, s.h.transit, s.h.cargo, s.h.token, a, b, LaneId(s.nextName, false),
        LaneId(s.nextName, true));
    CreateSettles(s.ports, s.h.cargo, a, b);
  }

  // ----- The ports of a message are sent away -----

  /** From s to t only the ports qs were touched. */
  ghost predicate SentOnly(s: State, t: State, qs: seq<Addr>) {
    t.h.cargo == s.h.cargo && t.h.routed == s.h.routed && t.net == s.net && t.nextName == s.nextName + |qs| &&
    (forall c :: c in s.ports && c !in qs ==> c in t.ports && t.ports[c] == s.ports[c]) &&
    (forall c :: c in s.h.pos ==> c in t.h.pos && t.h.pos[c] == s.h.pos[c]) &&
    (forall b :: b in s.h.transit ==> b in t.h.transit && t.h.transit[b] == s.h.transit[b])
  }

  predicate SentPort(ports: Ports, pos: Positions, h: History, q: Addr, b: Addr) {
    q in ports && q in pos && b in h.transit && h.transit[b] == DescriptorOf(q, ports[q]) &&
    b in h.pos && h.pos[b] == Pos(pos[q].lane, pos[q].idx + 1)
  }

  /** Each of the ports qs was followed by a port with the next free name. */
  ghost predicate SentAway(s: State, t: State, qs: seq<Addr>, node: nat) {
    SentOnly(s, t, qs) &&
    forall i :: 0 <= i < |qs| ==> SentPort(s.ports, s.h.pos, t.h, qs[i], Addr(node, s.nextName + i))
  }

  predicate AllSendable(ports: Ports, qs: seq<Addr>) {
    Distinct(qs) && forall q :: q in qs ==> q in ports && ports[q].mode.Receiving? && ports[q].signalable
  }

  lemma SendOnly(s: State, t: State, u: State, qs: seq<Addr>)
    requires qs != [] && SentOnly(s, t, [qs[0]]) && SentOnly(t, u, qs[1..])
    ensures SentOnly(s, u, qs)
  {
    assert qs == [qs[0]] + qs[1..];
  }

  lemma SendFirst(s: State, a: Addr, node: nat)
    requires SendablePort(s, a) && Addr(node, s.nextName) !in s.h.pos && Addr(node, s.nextName) !in s.h.transit
    requires s.h.pos[a].idx + 1 == |s.h.chain[s.h.pos[a].lane]|
    ensures SentOnly(s, WillSendPort(s, a, node), [a])
    ensures SentPort(s.ports, s.h.pos, WillSendPort(s, a, node).h, a, Addr(node, s.nextName))
  {
  }

  lemma SendStep(s: State, t: State, u: State, qs: seq<Addr>, node: nat)
    requires qs != [] && SentOnly(s, t, [qs[0]]) && SentAway(t, u, qs[1..], node)
    requires SentPort(s.ports, s.h.pos, t.h, qs[0], Addr(node, s.nextName)) && AllSendable(s.ports, qs) &&
        s.ports.Keys <= s.h.pos.Keys
    ensures SentAway(s, u, qs, node)
  {
    hide SentPort, SentOnly;
    SendOnly(s, t, u, qs);
    SentBefore(s, t, u, qs, qs[0], Addr(node, s.nextName));
    forall i | 0 < i < |qs|
      ensures SentPort(s.ports, s.h.pos, u.h, qs[i], Addr(node, s.nextName + i))
    {
      SentLater(s, t, u, qs, i, node);
    }
  }

  lemma SentBefore(s: State, t: State, u: State, qs: seq<Addr>, q: Addr, b: Addr)
    requires SentPort(s.ports, s.h.pos, t.h, q, b) && qs != [] && SentOnly(t, u, qs[1..])
    ensures SentPort(s.ports, s.h.pos, u.h, q, b)
  {
  }

  lemma SentLater(s: State, t: State, u: State, qs: seq<Addr>, i: nat, node: nat)
    requires 0 < i < |qs| && AllSendable(s.ports, qs) && s.ports.Keys <= s.h.pos.Keys
    requires SentOnly(s, t, [qs[0]]) && SentAway(t, u, qs[1..], node)
    ensures SentPort(s.ports, s.h.pos, u.h, qs[i], Addr(node, s.nextName + i))
  {
    hide SentOnly, SentPort;
    var q := qs[1..][i - 1];
    assert q == qs[i] && q in qs && q != qs[0];
    SentLaterPort(s, t, u.h, qs[0], q, Addr(node, t.nextName + (i - 1))) by {
      assert SentPort(t.ports, t.h.pos, u.h, q, Addr(node, t.nextName + (i - 1)));
    }
    NextNameAfter(s, t, qs[0]);
  }

  lemma NextNameAfter(s: State, t: State, q: Addr)
    requires SentOnly(s, t, [q])
    ensures t.nextName == s.nextName + 1
  {
  }

  lemma SentLaterPort(s: State, t: State, h: History, q0: Addr, q: Addr, b: Addr)
    requires SentOnly(s, t, [q0]) && q != q0 && q in s.ports && q in s.h.pos && SentPort(t.ports, t.h.pos, h, q, b)
    ensures SentPort(s.ports, s.h.pos, h, q, b)
  {
    assert q !in [q0];
  }

  lemma SendNone(s: State, node: nat, todo: set<Addr>)
    ensures SentAway(s, s, [], node) && todo + SetOf(NewAddrs(node, s.nextName, 0)) == todo
  {
  }

  lemma WillSendSettles(s: State, a: Addr, node: nat, todo: set<Addr>)
    requires Settling(s, {}, {}, {}, todo) && SendablePort(s, a)
    ensures Settling(WillSendPort(s, a, node), {}, {}, {}, todo + {Addr(node, s.nextName)})
  {
    var t := WillSendPort(s, a, node);
    assert t.ports.Keys == s.ports.Keys;
    assert forall c :: c in s.ports ==> t.ports[c].queue == s.ports[c].queue;
  }

  lemma StillSendable(s: State, qs: seq<Addr>, node: nat)
    requires qs != [] && AllSendable(s.ports, qs) && SendablePort(s, qs[0])
    ensures AllSendable(WillSendPort(s, qs[0], node).ports, qs[1..])
  {
    assert qs == [qs[0]] + qs[1..];
  }

  lemma SendOneKeeps(s: State, a: Addr, node: nat, todo: set<Addr>)
    requires Core(s) && Heralding(s, {}) && Settling(s, {}, {}, {}, todo)
    requires a in s.ports && s.ports[a].mode.Receiving? && s.ports[a].signalable
    ensures SendablePort(s, a)
    ensures var t, b := WillSendPort(s, a, node), Addr(node, s.nextName);
            Core(t) && Heralding(t, {}) && Settling(t, {}, {}, {}, todo + {b}) && SentOnly(s, t, [a]) &&
            SentPort(s.ports, s.h.pos, t.h, a, b)
  {
    hide Lanes, Chained, Named, Known, Ids, Receivers, Senders, Nexts, Ends, Travellers, Waiting, Targets, Numbers,
        Placement, Reading, Gone, Lasts, TravelLasts, Closures, Flights, Mail, Queues, Pending, FlyingCargo,
        QueuedCargo, Manifest, Unheld, AcceptTokens, Announcements, Acks, ParkedAcks, ProxyTokens, Heralds,
        Settling, SentOnly;
    KnownPos(s.ports, s.h.pos, s.h.transit, s.h.cargo, s.h.token, a);
    IsTracked(s, a);
    var b := Addr(node, s.nextName);
    HeldIsFree(s.ports, s.h.cargo, a);
    EndFacts(s.ports, s.h.chain, s.h.nexts, s.h.routed, s.h.sent, s.h.place, s.h.read, s.h.closed, s.h.pos,
        s.nextName, a);
    LeaveNamed(s.h.chain, s.h.pos, s.nextName, s.h.pos[a].lane, b);
    FreshPort(s.ports, s.h.pos, s.h.transit, s.h.cargo, s.h.token, b);
    WillSendKeeps(s, a, node, {});
    WillSendSettles(s, a, node, todo);
    SendFirst(s, a, node);
  }

  lemma {:induction false} SendPortsKeep(s: State, qs: seq<Addr>, node: nat, todo: set<Addr>)
    requires Core(s) && Heralding(s, {}) && Settling(s, {}, {}, {}, todo) && AllSendable(s.ports, qs)
    ensures var t := SendPorts(s, qs, node);
            Core(t) && Heralding(t, {}) && SentAway(s, t, qs, node) &&
            Settling(t, {}, {}, {}, todo + SetOf(NewAddrs(node, s.nextName, |qs|)))
    decreases |qs|
  {
    hide Lanes, Chained, Named, Known, Ids, Receivers, Senders, Nexts, Ends, Travellers, Waiting, Targets, Numbers,
        Placement, Reading, Gone, Lasts, TravelLasts, Closures, Flights, Mail, Queues, Pending, FlyingCargo,
        QueuedCargo, Manifest, Unheld, AcceptTokens, Announcements, Acks, ParkedAcks, ProxyTokens, Heralds,
        Settling, Heralding, SentAway, SentOnly, SentPort, SetOf, NewAddrs;
    if qs == [] {
      SendNone(s, node, todo);
    } else {
      SendOneKeeps(s, qs[0], node, todo);
      var t, b := WillSendPort(s, qs[0], node), Addr(node, s.nextName);
      StillSendable(s, qs, node);
      SendPortsKeep(t, qs[1..], node, todo + {b});
      PortsHavePos(s.ports, s.h.pos, s.h.transit, s.h.cargo, s.h.token);
      SendStep(s, t, SendPorts(t, qs[1..], node), qs, node);
      NewAddrsStep(node, s.nextName, |qs|, todo);
    }
  }

  lemma PortsHavePos(ports: Ports, pos: Positions, transit: Transits, cargo: Cargos, token: Tokens)
    requires Known(ports, transit, cargo, token, pos)
    ensures ports.Keys <= pos.Keys
  {
  }

  lemma HeldIsFree(ports: Ports, cargo: Cargos, a: Addr)
    requires a in ports && ports[a].signalable && Unheld(ports, cargo)
    ensures a !in cargo
  {
  }

  lemma NewAddrsStep(node: nat, name: nat, n: nat, todo: set<Addr>)
    requires n > 0
    ensures todo + {Addr(node, name)} + SetOf(NewAddrs(node, name + 1, n - 1)) == todo + SetOf(NewAddrs(node, name,
        n))
  {
    var xs, ys := NewAddrs(node, name, n), NewAddrs(node, name + 1, n - 1);
    assert xs == [Addr(node, name)] + ys;
  }

  // ----- SendMessage -----

  lemma PeerIsTarget(ports: Ports, chain: Chains, routed: Nums, sent: Logs, closed: set<LaneId>, pos: Positions,
      a: Addr)
    requires a in ports && ports[a].mode.Receiving? && Receivers(ports, pos, chain, routed, sent, closed)
    ensures a in pos && var m := pos[a].lane.Other();
                        m in chain && m in routed && |routed[m]| < |chain[m]| &&
                        ports[a].peer == chain[m][|routed[m]|]
  {
  }

  /** The new name of a port that was sent away does not follow the port the message goes to. */
  lemma SentApart(s: State, t: State, a: Addr, q: Addr, b: Addr, m: LaneId)
    requires SentPort(s.ports, s.h.pos, t.h, q, b) && a in s.ports && q.name != s.ports[a].peer.name
    requires m in s.h.chain && m in s.h.routed && |s.h.routed[m]| < |s.h.chain[m]|
    requires s.ports[a].peer == s.h.chain[m][|s.h.routed[m]|] && Chained(s.h.chain, s.h.pos)
    ensures t.h.pos[b] != Pos(m, |s.h.routed[m]| + 1)
  {
  }

  lemma SentAttachable(s: State, t: State, a: Addr, qs: seq<Addr>, m: LaneId)
    requires MaySend(s, a, qs) && SendOutcome(s, a, qs) == Ok && SentAway(s, t, qs, s.ports[a].peer.node)
    requires a in s.h.pos && m in s.h.chain && m in s.h.routed
    requires |s.h.routed[m]| < |s.h.chain[m]| && s.ports[a].peer == s.h.chain[m][|s.h.routed[m]|]
    requires Chained(s.h.chain, s.h.pos) && Named(s.h.pos, s.nextName) && Known(s.ports, s.h.transit, s.h.cargo,
        s.h.token, s.h.pos)
    ensures Attachable(t.h.pos, t.h.transit, t.h.cargo, NewAddrs(s.ports[a].peer.node, s.nextName, |qs|),
                       Descriptors(s.ports, qs), s.ports[a].peer.node, m, |s.h.routed[m]|)
  {
    hide Chained, Known, Named;
    var node := s.ports[a].peer.node;
    var bs := NewAddrs(node, s.nextName, |qs|);
    forall i | 0 <= i < |qs|
      ensures bs[i] !in t.h.cargo && SentPort(s.ports, s.h.pos, t.h, qs[i], bs[i])
      ensures t.h.pos[bs[i]] != Pos(m, |s.h.routed[m]| + 1)
    {
      assert SentPort(s.ports, s.h.pos, t.h, qs[i], Addr(node, s.nextName + i));
      assert qs[i] in qs && qs[i].name != s.ports[a].peer.name;
      SentApart(s, t, a, qs[i], bs[i], m);
      NewName(s.ports, s.h.pos, s.h.transit, s.h.cargo, s.h.token, s.nextName, bs[i]);
    }
  }

  lemma NewName(ports: Ports, pos: Positions, transit: Transits, cargo: Cargos, token: Tokens, name: nat, b: Addr)
    requires Named(pos, name) && Known(ports, transit, cargo, token, pos) && b.name >= name
    ensures b !in cargo
  {
  }

  lemma EmitSettles(s: State, a: Addr, payload: Payload, bs: seq<Addr>, ds: seq<Descriptor>)
    requires Settling(s, {}, {}, {}, SetOf(bs)) && Emits(s, a, bs, ds) && Ids(s.net, s.nextId)
    ensures Settled(Emit(s, a, payload, bs, ds))
  {
    var m := s.h.pos[a].lane.Other();
    var t := Emit(s, a, payload, bs, ds);
    LoadLists(s.h.cargo, bs, m, s.ports[a].nextSend);
    assert forall b :: b in SetOf(bs) ==> b in t.h.cargo;
    assert t.ports.Keys == s.ports.Keys;
    assert forall c :: c in s.ports ==> Quiet(s.ports[c], t.ports[c]);
  }

  lemma MayEmitAfter(s: State, t: State, a: Addr, qs: seq<Addr>)
    requires Core(s) && Base(t) && MaySend(s, a, qs) && s.ports[a].nextSend < INVALID_SEQUENCE_NUM
    requires SendOutcome(s, a, qs) == Ok && SentAway(s, t, qs, s.ports[a].peer.node)
    ensures SendablePort(t, a) && Emits(t, a, NewAddrs(s.ports[a].peer.node, s.nextName, |qs|), Descriptors(s.ports,
        qs))
  {
    hide Lanes, Chained, Named, Known, Ids, Receivers, Senders, Nexts, Ends, Travellers, Waiting, Targets, Numbers,
        Placement, Reading, Gone, Lasts, TravelLasts, Closures, Flights, Mail, Queues, Pending, FlyingCargo,
        QueuedCargo, Manifest, Unheld, AcceptTokens, Announcements, Acks, ParkedAcks, ProxyTokens, Heralds,
        Attachable;
    PeerIsTarget(s.ports, s.h.chain, s.h.routed, s.h.sent, s.h.closed, s.h.pos, a);
    IsTracked(t, a);
    SentAttachable(s, t, a, qs, s.h.pos[a].lane.Other());
  }

  lemma EmitKeeps(s: State, a: Addr, payload: Payload, bs: seq<Addr>, ds: seq<Descriptor>)
    requires Core(s) && Heralding(s, {}) && Settling(s, {}, {}, {}, SetOf(bs)) && Emits(s, a, bs, ds)
    ensures var t := Emit(s, a, payload, bs, ds);
            Inv(t)
  {
    hide Lanes, Chained, Named, Known, Ids, Receivers, Senders, Nexts, Ends, Travellers, Waiting, Targets, Numbers,
        Placement, Reading, Gone, Lasts, TravelLasts, Closures, Flights, Mail, Queues, Pending, FlyingCargo,
        QueuedCargo, Manifest, Unheld, AcceptTokens, Announcements, Acks, ParkedAcks, ProxyTokens, Heralds,
        Settling, Heralding, Emits;
    EmitTrunk(s, a, payload, bs, ds);
    EmitRest(s, a, payload, bs, ds);
    EmitSettles(s, a, payload, bs, ds);
  }

  lemma SendMessageKeeps(s: State, a: Addr, payload: Payload, qs: seq<Addr>)
    requires Inv(s) && MaySend(s, a, qs) && s.ports[a].nextSend < INVALID_SEQUENCE_NUM
    ensures var t := SendMessage(s, a, payload, qs);
            Inv(t)
  {
    hide Lanes, Chained, Named, Known, Ids, Receivers, Senders, Nexts, Ends, Travellers, Waiting, Targets, Numbers,
        Placement, Reading, Gone, Lasts, TravelLasts, Closures, Flights, Mail, Queues, Pending, FlyingCargo,
        QueuedCargo, Manifest, Unheld, AcceptTokens, Announcements, Acks, ParkedAcks, ProxyTokens, Heralds,
        Settling, Heralding, SentAway, Emits;
    if SendOutcome(s, a, qs) == Ok {
      var node := s.ports[a].peer.node;
      var t, bs, ds := SendPorts(s, qs, node), NewAddrs(node, s.nextName, |qs|), Descriptors(s.ports, qs);
      SendPortsKeep(s, qs, node, {});
      assert {} + SetOf(bs) == SetOf(bs);
      MayEmitAfter(s, t, a, qs);
      EmitKeeps(t, a, payload, bs, ds);
    }
  }

  // ----- GetMessage -----

  lemma TakeSettles(s: State, a: Addr)
    requires Settled(s) && Readable(s, a) && Known(s.ports, s.h.transit, s.h.cargo, s.h.token, s.h.pos) &&
        QueuedCargo(s.ports, s.h.pos, s.h.transit, s.h.cargo, s.h.sent)
    ensures var t, bs := TakeMessage(s, a), s.ports[a].queue.pending[s.ports[a].queue.next].ports;
            Settling(t, {}, {}, {}, SetOf(bs)) && Unloaded(t.ports, t.h.transit, t.h.cargo, bs) &&
            AllHere(t.ports, bs)
  {
    var k := s.ports[a].queue.next;
    var bs := s.ports[a].queue.pending[k].ports;
    assert AllHere(s.ports, bs);
    assert Attached(s.ports, s.h.pos, s.h.transit, s.h.cargo, s.h.sent, s.h.pos[a].lane, k, s.h.pos[a].idx,
        s.ports[a].queue.pending[k]);
    var t := TakeMessage(s, a);
    assert t.ports.Keys == s.ports.Keys;
    forall c, j | c in t.ports && j in t.ports[c].queue.pending
      ensures AllHere(t.ports, t.ports[c].queue.pending[j].ports)
    {
      assert AllHere(s.ports, s.ports[c].queue.pending[j].ports);
    }
  }

  lemma ClaimSettles(s: State, bs: seq<Addr>)
    requires Settling(s, {}, {}, {}, SetOf(bs)) && Unloaded(s.ports, s.h.transit, s.h.cargo, bs)
    requires AllHere(s.ports, bs) && bs != []
    ensures var t := s.(ports := s.ports[bs[0] := s.ports[bs[0]].(signalable := true)]);
            Settling(t, {}, {}, {}, SetOf(bs[1..])) && Unloaded(t.ports, t.h.transit, t.h.cargo, bs[1..]) &&
            AllHere(t.ports, bs[1..])
  {
    assert bs == [bs[0]] + bs[1..];
    var t := s.(ports := s.ports[bs[0] := s.ports[bs[0]].(signalable := true)]);
    assert t.ports.Keys == s.ports.Keys;
    forall c, j | c in t.ports && j in t.ports[c].queue.pending
      ensures AllHere(t.ports, t.ports[c].queue.pending[j].ports)
    {
      assert AllHere(s.ports, s.ports[c].queue.pending[j].ports);
    }
  }

  lemma {:induction false} ClaimPortsKeep(s: State, bs: seq<Addr>)
    requires Core(s) && Heralding(s, {}) && Settling(s, {}, {}, {}, SetOf(bs))
    requires Unloaded(s.ports, s.h.transit, s.h.cargo, bs) && AllHere(s.ports, bs)
    ensures var t := ClaimPorts(s, bs);
            Inv(t)
    decreases |bs|
  {
    hide Lanes, Chained, Named, Known, Ids, Receivers, Senders, Nexts, Ends, Travellers, Waiting, Targets, Numbers,
        Placement, Reading, Gone, Lasts, TravelLasts, Closures, Flights, Mail, Queues, Pending, FlyingCargo,
        QueuedCargo, Manifest, Unheld, AcceptTokens, Announcements, Acks, ParkedAcks, ProxyTokens, Heralds,
        Settling, Heralding;
    if bs == [] {
      assert SetOf(bs) == {};
    } else {
      var q := s.ports[bs[0]].(signalable := true);
      ClaimKeeps(s, bs[0], q);
      ClaimSettles(s, bs);
      ClaimPortsKeep(s.(ports := s.ports[bs[0] := q]), bs[1..]);
    }
  }

  lemma GetMessageKeeps(s: State, a: Addr)
    requires Inv(s) && Held(s, a)
    ensures var t := GetMessage(s, a);
            Inv(t)
  {
    hide Lanes, Chained, Named, Known, Ids, Receivers, Senders, Nexts, Ends, Travellers, Waiting, Targets, Numbers,
        Placement, Reading, Gone, Lasts, TravelLasts, Closures, Flights, Mail, Queues, Pending, FlyingCargo,
        QueuedCargo, Manifest, Unheld, AcceptTokens, Announcements, Acks, ParkedAcks, ProxyTokens, Heralds,
        Settling, Heralding, Hoppable;
    if GetMessageOutcome(s, a).GotMessage? {
      CanHop(s, a);
      TakeTrunk(s, a);
      TakeRest(s, a);
      TakeSettles(s, a);
      ClaimPortsKeep(TakeMessage(s, a), s.ports[a].queue.pending[s.ports[a].queue.next].ports);
    }
  }

  // ----- ClosePort -----

  lemma StartClosing(s: State, a: Addr)
    requires Settled(s) && Known(s.ports, s.h.transit, s.h.cargo, s.h.token, s.h.pos) &&
        Unheld(s.ports, s.h.cargo) && Held(s, a) && s.ports[a].mode.Receiving?
    ensures Settling(s, {}, {}, {}, SetOf([a])) && Unloaded(s.ports, s.h.transit, s.h.cargo, [a])
  {
  }

  lemma ClosePortKeeps(s: State, a: Addr)
    requires Inv(s) && Held(s, a)
    ensures var t := ClosePort(s, a);
            Inv(t)
  {
    hide Lanes, Chained, Named, Known, Ids, Receivers, Senders, Nexts, Ends, Travellers, Waiting, Targets, Numbers,
        Placement, Reading, Gone, Lasts, TravelLasts, Closures, Flights, Mail, Queues, Pending, FlyingCargo,
        QueuedCargo, Manifest, Unheld, AcceptTokens, Announcements, Acks, ParkedAcks, ProxyTokens, Heralds,
        Settling, Heralding;
    if s.ports[a].mode.Receiving? {
      StartClosing(s, a);
      ClosePortsKeep(s, [a]);
    } else {
      assert ClosePorts(s, [a]) == ClosePorts(s, []);
    }
  }

  // ----- Every run -----

  lemma InitIsSound()
    ensures Base(INIT) && Shape(INIT) && Counting(INIT) && Ending(INIT)
  {
  }

  lemma InitIsFull()
    ensures Posting(INIT) && Carrying(INIT) && Tokening(INIT) && Heralding(INIT, {}) && Settled(INIT)
  {
  }

  lemma InitIsInv()
    ensures Inv(INIT)
  {
    hide Lanes, Chained, Named, Known, Ids, Receivers, Senders, Nexts, Ends, Travellers, Waiting, Targets, Numbers,
        Placement, Reading, Gone, Lasts, TravelLasts, Closures, Flights, Mail, Queues, Pending, FlyingCargo,
        QueuedCargo, Manifest, Unheld, AcceptTokens, Announcements, Acks, ParkedAcks, ProxyTokens, Heralds, Base,
        Shape, Counting, Ending, Posting, Carrying, Tokening, Heralding, Settled;
    InitIsSound();
    InitIsFull();
  }

  lemma HandleKeeps(s: State, id: nat)
    requires Inv(s) && id in s.net
    ensures var t := Handle(s, id);
            Inv(t)
  {
    hide Inv;
    match s.net[id]
    case User(_, _) => OnUserMessageKeeps(s, id);
    case PortAccepted(_) => OnPortAcceptedKeeps(s, id);
    case ObserveProxy(_, _, _) => OnObserveProxyKeeps(s, id);
    case ObserveProxyAck(_, _) => OnObserveProxyAckKeeps(s, id);
    case ObserveClosure(_, _) => OnObserveClosureInv(s, id);
  }

  lemma StepKeeps(s: State, c: Command)
    requires Inv(s)
    ensures var t := Step(s, c);
            Inv(t)
  {
    hide Inv;
    match c
    case Create(node) => CreateKeeps(s, node);
    case Send(a, payload, qs) =>
      if MaySend(s, a, qs) && s.ports[a].nextSend < INVALID_SEQUENCE_NUM { SendMessageKeeps(s, a, payload, qs); }
    case Get(a) => if Held(s, a) { GetMessageKeeps(s, a); }
    case Close(a) => if Held(s, a) { ClosePortKeeps(s, a); }
    case Deliver(id) => if id in s.net { HandleKeeps(s, id); }
  }

  /** Every state that any sequence of calls and deliveries leads to satisfies the invariant. */
  lemma {:induction false} EveryRun(cs: seq<Command>)
    ensures Inv(Run(cs))
    decreases |cs|
  {
    hide Inv;
    if cs == [] {
      InitIsInv();
    } else {
      EveryRun(cs[..|cs| - 1]);
      StepKeeps(Run(cs[..|cs| - 1]), cs[|cs| - 1]);
    }
  }
}
