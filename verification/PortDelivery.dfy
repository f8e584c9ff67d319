/** The delivery of a user message: its ports land, and it is queued, passed on or dropped. */
module PortDelivery {
  import opened PortState
  import opened PortSteps
  import opened PortInvariant
  import opened PortFrames
  import opened PortRemoval
  import opened PortMessages
  import opened PortArrival
  import opened PortSettled
  import opened PortDraining
  import opened PortHandlers
  import opened PortClosing

  // ----- The ports of the message land -----

  /** The ports from index j on are still on their way. */
  ghost predicate Landing(net: Net, transit: Transits, id: nat, j: nat) {
    id in net && net[id].User? && j <= |net[id].msg.ports| == |net[id].msg.descs| &&
    forall i :: j <= i < |net[id].msg.ports| ==> net[id].msg.ports[i] in transit
  }

  lemma LandingPort(ports: Ports, net: Net, sent: Logs, place: Places, pos: Positions, transit: Transits,
      cargo: Cargos, token: Tokens, id: nat, j: nat)
    requires Landing(net, transit, id, j) && j < |net[id].msg.ports| && FlyingCargo(net, ports, pos, transit, cargo,
        sent) && Mail(net, pos, place) && Known(ports, transit, cargo, token, pos)
    ensures var b := net[id].msg.ports[j];
            b in transit && transit[b] == net[id].msg.descs[j] && b in cargo && b !in ports &&
            cargo[b].lane in place && cargo[b].num < |place[cargo[b].lane]| &&
            place[cargo[b].lane][cargo[b].num].Flying? &&
            place[cargo[b].lane][cargo[b].num].id == id
  {
    var x := net[id].to;
    assert FlyingPorts(x.node, transit, net[id].msg);
    assert Attached(ports, pos, transit, cargo, sent, pos[x].lane, net[id].msg.num, pos[x].idx, net[id].msg);
  }

  lemma LandingGoesOn(ports: Ports, net: Net, sent: Logs, pos: Positions, transit: Transits, cargo: Cargos, id: nat,
      j: nat, id': nat, e: Event)
    requires Landing(net, transit, id, j) && j < |net[id].msg.ports| && FlyingCargo(net, ports, pos, transit, cargo,
        sent) && id' !in net
    ensures Landing(net[id' := e], transit - {net[id].msg.ports[j]}, id, j + 1)
  {
    var x := net[id].to;
    assert Attached(ports, pos, transit, cargo, sent, pos[x].lane, net[id].msg.num, pos[x].idx, net[id].msg);
  }

  /** Only the message that is being delivered has the port. */
  lemma LandAway(ports: Ports, net: Net, sent: Logs, place: Places, pos: Positions, transit: Transits,
      cargo: Cargos, id: nat, j: nat, id': nat, e: Event)
    requires Landing(net, transit, id, j) && j < |net[id].msg.ports| && FlyingCargo(net, ports, pos, transit, cargo,
        sent) && Mail(net, pos, place) && id' !in net && !e.User?
    requires Away(net, transit, {id})
    ensures Away(net[id' := e], transit - {net[id].msg.ports[j]}, {id})
  {
    var x, b := net[id].to, net[id].msg.ports[j];
    assert Attached(ports, pos, transit, cargo, sent, pos[x].lane, net[id].msg.num, pos[x].idx, net[id].msg);
    forall i | i in net && i != id && net[i].User?
      ensures b !in net[i].msg.ports
    {
      assert Attached(ports, pos, transit, cargo, sent, pos[net[i].to].lane, net[i].msg.num, pos[net[i].to].idx,
          net[i].msg);
    }
  }

  lemma AcceptSettles(s: State, id: nat, j: nat)
    requires Core(s) && Settling(s, {id}, {}, {}, {}) && Landing(s.net, s.h.transit, id, j) &&
        j < |s.net[id].msg.ports|
    ensures var t := AcceptPort(s, s.net[id].msg.ports[j], s.net[id].msg.descs[j]);
            Settling(t, {id}, {}, {}, {}) && Landing(t.net, t.h.transit, id, j + 1)
  {
    hide Lanes, Chained, Named, Known, Ids, Receivers, Senders, Nexts, Ends, Travellers, Waiting, Targets, Numbers,
        Placement, Reading, Gone, Lasts, TravelLasts, Closures, Flights, Mail, Queues, Pending, FlyingCargo,
        QueuedCargo, Manifest, Unheld, AcceptTokens, Announcements, Acks, ParkedAcks, ProxyTokens, Heralds;
    var b, d := s.net[id].msg.ports[j], s.net[id].msg.descs[j];
    var e := PortAccepted(d.referring);
    LandingPort(s.ports, s.net, s.h.sent, s.h.place, s.h.pos, s.h.transit, s.h.cargo, s.h.token, id, j);
    PostId(s.net, s.nextId, e);
    LandAway(s.ports, s.net, s.h.sent, s.h.place, s.h.pos, s.h.transit, s.h.cargo, id, j, s.nextId, e);
    LandingGoesOn(s.ports, s.net, s.h.sent, s.h.pos, s.h.transit, s.h.cargo, id, j, s.nextId, e);
    assert AcceptedPort(d).queue.pending == map[];
  }

  /** Every port of s is a port of t, unchanged. */
  predicate Extends(s: State, t: State) {
    s.ports.Keys <= t.ports.Keys && (forall a :: a in s.ports ==> t.ports[a] == s.ports[a]) &&
    (forall id :: id in s.net ==> id in t.net && t.net[id] == s.net[id]) &&
    t.h.pos == s.h.pos && t.h.place == s.h.place
  }

  lemma AcceptKeeps(s: State, id: nat, j: nat)
    requires Core(s) && Heralding(s, {}) && Settling(s, {id}, {}, {}, {})
    requires Landing(s.net, s.h.transit, id, j) && j < |s.net[id].msg.ports|
    ensures var t := AcceptPort(s, s.net[id].msg.ports[j], s.net[id].msg.descs[j]);
            Core(t) && Heralding(t, {}) && Settling(t, {id}, {}, {}, {}) && Landing(t.net, t.h.transit, id, j + 1) &&
            Extends(s, t) && t.ports.Keys == s.ports.Keys + {s.net[id].msg.ports[j]}
  {
    hide Lanes, Chained, Named, Known, Ids, Receivers, Senders, Nexts, Ends, Travellers, Waiting, Targets, Numbers,
        Placement, Reading, Gone, Lasts, TravelLasts, Closures, Flights, Mail, Queues, Pending, FlyingCargo,
        QueuedCargo, Manifest, Unheld, AcceptTokens, Announcements, Acks, ParkedAcks, ProxyTokens, Heralds, Settling;
    var b, d := s.net[id].msg.ports[j], s.net[id].msg.descs[j];
    LandingPort(s.ports, s.net, s.h.sent, s.h.place, s.h.pos, s.h.transit, s.h.cargo, s.h.token, id, j);
    PostId(s.net, s.nextId, PortAccepted(d.referring));
    AcceptShape(s, b, d);
    AcceptRest(s, b, d, {});
    AcceptSettles(s, id, j);
  }

  /** What is still to land, from index j of the message on. */
  predicate Remaining(net: Net, id: nat, j: nat, bs: seq<Addr>, ds: seq<Descriptor>) {
    id in net && net[id].User? && j <= |net[id].msg.ports| == |net[id].msg.descs| &&
    bs == net[id].msg.ports[j..] && ds == net[id].msg.descs[j..]
  }

  lemma {:induction false} AcceptPortsKeep(s: State, id: nat, j: nat, bs: seq<Addr>, ds: seq<Descriptor>)
    requires Core(s) && Heralding(s, {}) && Settling(s, {id}, {}, {}, {}) && Landing(s.net, s.h.transit, id, j)
    requires Remaining(s.net, id, j, bs, ds)
    ensures var t := AcceptPorts(s, bs, ds);
            Core(t) && Heralding(t, {}) && Settling(t, {id}, {}, {}, {}) && Extends(s, t) &&
            t.ports.Keys == s.ports.Keys + SetOf(bs)
    decreases |bs|
  {
    hide Lanes, Chained, Named, Known, Ids, Receivers, Senders, Nexts, Ends, Travellers, Waiting, Targets, Numbers,
        Placement, Reading, Gone, Lasts, TravelLasts, Closures, Flights, Mail, Queues, Pending, FlyingCargo,
        QueuedCargo, Manifest, Unheld, AcceptTokens, Announcements, Acks, ParkedAcks, ProxyTokens, Heralds,
        Settling, Heralding, AcceptPort, AcceptPorts, Extends;
    var msg := s.net[id].msg;
    if j < |msg.ports| {
      AcceptKeeps(s, id, j);
      var t := AcceptPort(s, msg.ports[j], msg.descs[j]);
      SameEvent(s, t, id);
      AcceptPortsKeep(t, id, j + 1, bs[1..], ds[1..]);
      AcceptNext(s, bs, ds);
      ExtendsOn(s, t, AcceptPorts(t, bs[1..], ds[1..]));
    } else {
      NoneLeft(s, bs, ds);
    }
  }

  lemma SameEvent(s: State, t: State, id: nat)
    requires Extends(s, t) && id in s.net
    ensures id in t.net && t.net[id] == s.net[id]
  {
  }

  lemma ExtendsOn(s: State, t: State, u: State)
    requires Extends(s, t) && Extends(t, u)
    ensures Extends(s, u)
  {
  }

  lemma AcceptNext(s: State, bs: seq<Addr>, ds: seq<Descriptor>)
    requires !s.crashed && bs != [] && ds != []
    ensures AcceptPorts(s, bs, ds) == AcceptPorts(AcceptPort(s, bs[0], ds[0]), bs[1..], ds[1..])
    ensures SetOf(bs) == {bs[0]} + SetOf(bs[1..])
  {
    assert bs == [bs[0]] + bs[1..];
  }

  lemma NoneLeft(s: State, bs: seq<Addr>, ds: seq<Descriptor>)
    requires bs == [] && ds == []
    ensures AcceptPorts(s, bs, ds) == s && Extends(s, s) && SetOf(bs) == {}
  {
  }

  // ----- The message reaches its port -----

  /** A message never arrives at a port that has had its last one. */
  lemma Acceptable(ports: Ports, net: Net, chain: Chains, nexts: Nums, routed: Nums, sent: Logs, place: Places,
      closed: set<LaneId>, pos: Positions, transit: Transits, id: nat, x: Addr, m: LaneId, i: nat, k: nat)
    requires IsMail(net, pos, place, id, x, m, i, k) && x in ports && Nexts(ports, pos, nexts) &&
        Lasts(ports, transit, pos, chain, routed, sent, closed) && Placement(chain, nexts, routed, sent, place,
        transit)
    ensures CanAcceptMoreMessages(ports[x])
  {
    assert PlacedWell(nexts[m], routed[m], |sent[m]|, k, i);
    if ports[x].peerClosed || ports[x].removeOnLast {
      assert LastFits(ports, transit, pos, chain, routed, sent, closed, x, ports[x]);
    }
  }

  /** The port a message is addressed to is not one that is on its way. */
  lemma AddresseeExists(net: Net, chain: Chains, nexts: Nums, routed: Nums, sent: Logs, place: Places,
      pos: Positions, transit: Transits, id: nat, x: Addr, m: LaneId, i: nat, k: nat)
    requires IsMail(net, pos, place, id, x, m, i, k) && Placement(chain, nexts, routed, sent, place, transit) &&
        Chained(chain, pos)
    ensures x !in transit
  {
  }

  lemma EnqueueSettles(s: State, id: nat)
    requires Settling(s, {id}, {}, {}, {}) && Arriving(s, id) && s.net[id].to in s.ports
    requires AllHere(s.ports, s.net[id].msg.ports)
    ensures Settling(Enqueue(s, id), {}, {}, {s.net[id].to}, {})
  {
    var t := Enqueue(s, id);
    assert forall a :: a in s.ports ==> a in t.ports;
  }

  lemma QueueUp(s: State, id: nat)
    requires Core(s) && Heralding(s, {}) && Settling(s, {id}, {}, {}, {}) && Arriving(s, id) &&
        s.net[id].to in s.ports
    requires AllHere(s.ports, s.net[id].msg.ports)
    ensures var x, u := s.net[id].to, Enqueue(s, id);
            var v := ForwardMessages(u, x);
            var t := if !u.ports[x].mode.Proxying? then u else if v.crashed then v else MaybeRemoveProxy(v, x);
            Inv(t)
  {
    hide Lanes, Chained, Named, Known, Ids, Receivers, Senders, Nexts, Ends, Travellers, Waiting, Targets, Numbers,
        Placement, Reading, Gone, Lasts, TravelLasts, Closures, Flights, Mail, Queues, Pending, FlyingCargo,
        QueuedCargo, Manifest, Unheld, AcceptTokens, Announcements, Acks, ParkedAcks, ProxyTokens, Heralds,
        Settling, Heralding;
    var x, u := s.net[id].to, Enqueue(s, id);
    EnqueueTrunk(s, id);
    EnqueueCarries(s, id);
    EnqueueSettles(s, id);
    if u.ports[x].mode.Proxying? {
      ForwardMessagesKeep(u, x, {});
      var v := ForwardMessages(u, x);
      MaybeRemoveKeeps(v, x, {});
      MaybeRemoveSettles(v, x);
    } else {
      NotDraining(u, x);
    }
  }

  lemma NotDraining(s: State, x: Addr)
    requires Settling(s, {}, {}, {x}, {}) && x in s.ports && !s.ports[x].mode.Proxying?
    ensures Settled(s)
  {
  }

  // ----- The message is dropped -----

  lemma DropUnloads(ports: Ports, net: Net, sent: Logs, pos: Positions, transit: Transits, cargo: Cargos,
      token: Tokens, id: nat)
    requires id in net && net[id].User? && FlyingCargo(net, ports, pos, transit, cargo, sent) &&
        Known(ports, transit, cargo, token, pos) && AllHere(ports, net[id].msg.ports)
    ensures Unloaded(ports, transit, Unload(cargo, net[id].msg.ports), net[id].msg.ports)
  {
    var x := net[id].to;
    assert Attached(ports, pos, transit, cargo, sent, pos[x].lane, net[id].msg.num, pos[x].idx, net[id].msg);
  }

  lemma DiscardSettles(s: State, id: nat)
    requires Settling(s, {id}, {}, {}, {}) && Arriving(s, id) && FlyingCargo(s.net, s.ports, s.h.pos, s.h.transit,
        s.h.cargo, s.h.sent) && Known(s.ports, s.h.transit, s.h.cargo, s.h.token, s.h.pos)
    requires AllHere(s.ports, s.net[id].msg.ports)
    ensures var t, work := Discard(s, id), s.net[id].msg.ports;
            Settling(t, {}, {}, {}, SetOf(work)) && Unloaded(t.ports, t.h.transit, t.h.cargo, work)
  {
    hide FlyingCargo;
    DropUnloads(s.ports, s.net, s.h.sent, s.h.pos, s.h.transit, s.h.cargo, s.h.token, id);
  }

  lemma DropAndClose(s: State, id: nat)
    requires Core(s) && Heralding(s, {}) && Settling(s, {id}, {}, {}, {}) && Arriving(s, id)
    requires s.net[id].to !in s.ports && AllHere(s.ports, s.net[id].msg.ports)
    ensures var t := ClosePorts(Discard(s, id), s.net[id].msg.ports);
            Inv(t)
  {
    hide Inv;
    DiscardKeeps(s, id);
    DiscardSettles(s, id);
    ClosePortsKeep(Discard(s, id), s.net[id].msg.ports);
  }

  // ----- OnUserMessage -----

  lemma CanArrive(s: State, id: nat)
    requires Core(s) && id in s.net && s.net[id].User?
    ensures Arriving(s, id)
  {
    hide Lanes, Chained, Named, Known, Ids, Receivers, Senders, Nexts, Ends, Travellers, Waiting, Targets, Numbers,
        Placement, Reading, Gone, Lasts, TravelLasts, Closures, Flights, Mail, Queues, Pending, FlyingCargo,
        QueuedCargo, Manifest, Unheld, AcceptTokens, Announcements, Acks, ParkedAcks, ProxyTokens, Heralds;
    MailIs(s.net, s.h.place, s.h.pos, id);
    IsTracked(s, s.net[id].to);
  }

  lemma StartLanding(s: State, id: nat)
    requires Settled(s) && FlyingCargo(s.net, s.ports, s.h.pos, s.h.transit, s.h.cargo, s.h.sent) &&
        id in s.net && s.net[id].User?
    ensures Settling(s, {id}, {}, {}, {}) && Landing(s.net, s.h.transit, id, 0)
  {
    assert FlyingPorts(s.net[id].to.node, s.h.transit, s.net[id].msg);
  }

  lemma OnUserMessageKeeps(s: State, id: nat)
    requires Inv(s) && id in s.net && s.net[id].User?
    ensures var t := OnUserMessage(s, id);
            Inv(t)
  {
    hide Lanes, Chained, Named, Known, Ids, Receivers, Senders, Nexts, Ends, Travellers, Waiting, Targets, Numbers,
        Placement, Reading, Gone, Lasts, TravelLasts, Closures, Flights, Mail, Queues, Pending, FlyingCargo,
        QueuedCargo, Manifest, Unheld, AcceptTokens, Announcements, Acks, ParkedAcks, ProxyTokens, Heralds,
        Settling, Heralding, Arriving;
    var x, msg := s.net[id].to, s.net[id].msg;
    StartLanding(s, id);
    AcceptPortsKeep(s, id, 0, msg.ports, msg.descs);
    var t := AcceptPorts(s, msg.ports, msg.descs);
    CanArrive(t, id);
    MailIs(s.net, s.h.place, s.h.pos, id);
    AddresseeExists(s.net, s.h.chain, s.h.nexts, s.h.routed, s.h.sent, s.h.place, s.h.pos, s.h.transit, id, x,
        s.h.pos[x].lane, s.h.pos[x].idx, msg.num);
    assert AllHere(t.ports, msg.ports);
    if x in s.ports {
      Acceptable(s.ports, s.net, s.h.chain, s.h.nexts, s.h.routed, s.h.sent, s.h.place, s.h.closed, s.h.pos,
          s.h.transit, id, x, s.h.pos[x].lane, s.h.pos[x].idx, msg.num);
      QueueUp(t, id);
    } else {
      NotOwnPort(s.net, s.h.transit, id);
      DropAndClose(t, id);
    }
  }

  lemma NotOwnPort(net: Net, transit: Transits, id: nat)
    requires Landing(net, transit, id, 0) && net[id].to !in transit
    ensures net[id].to !in net[id].msg.ports
  {
  }
}
