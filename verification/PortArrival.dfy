/** A port that travelled in a message comes into being where the message arrives. */
module PortArrival {
  import opened PortState
  import opened PortSteps
  import opened PortInvariant
  import opened PortFrames

  lemma LandKnown(ports: Ports, chain: Chains, nexts: Nums, routed: Nums, sent: Logs, closed: set<LaneId>,
      pos: Positions, transit: Transits, cargo: Cargos, token: Tokens, b: Addr, tok: Token)
    requires Known(ports, transit, cargo, token, pos) && Travellers(ports, transit, pos, chain, nexts, routed, sent,
        closed, token) && b in transit && Chained(chain, pos)
    ensures Known(ports[b := AcceptedPort(transit[b])], transit - {b}, cargo, token[transit[b].referring := tok], pos)
    ensures b !in ports && transit[b].referring in pos
  {
    assert Travels(ports, pos, chain, nexts, routed, sent, closed, token, b, transit[b]);
    assert ports[b := AcceptedPort(transit[b])].Keys == ports.Keys + {b};
    assert token[transit[b].referring := tok].Keys == token.Keys + {transit[b].referring};
  }

  lemma LandReceivers(ports: Ports, chain: Chains, nexts: Nums, routed: Nums, sent: Logs, closed: set<LaneId>,
      pos: Positions, transit: Transits, cargo: Cargos, token: Tokens, b: Addr)
    requires Known(ports, transit, cargo, token, pos) && Receivers(ports, pos, chain, routed, sent, closed) &&
        Travellers(ports, transit, pos, chain, nexts, routed, sent, closed, token) && b in transit
    ensures Receivers(ports[b := AcceptedPort(transit[b])], pos, chain, routed, sent, closed)
  {
    assert Travels(ports, pos, chain, nexts, routed, sent, closed, token, b, transit[b]);
  }

  lemma LandSenders(ports: Ports, chain: Chains, nexts: Nums, routed: Nums, sent: Logs, closed: set<LaneId>,
      pos: Positions, transit: Transits, cargo: Cargos, token: Tokens, b: Addr)
    requires Known(ports, transit, cargo, token, pos) && Senders(ports, pos, chain) &&
        Nexts(ports, pos, nexts) && Travellers(ports, transit, pos, chain, nexts, routed, sent, closed, token) &&
        b in transit
    ensures Senders(ports[b := AcceptedPort(transit[b])], pos, chain)
    ensures Nexts(ports[b := AcceptedPort(transit[b])], pos, nexts)
  {
    assert Travels(ports, pos, chain, nexts, routed, sent, closed, token, b, transit[b]);
  }

  lemma LandEnds(ports: Ports, chain: Chains, nexts: Nums, routed: Nums, sent: Logs, closed: set<LaneId>,
      pos: Positions, transit: Transits, cargo: Cargos, token: Tokens, b: Addr)
    requires Known(ports, transit, cargo, token, pos) && Ends(ports, transit, chain, closed) &&
        Travellers(ports, transit, pos, chain, nexts, routed, sent, closed, token) && b in transit &&
        Chained(chain, pos)
    ensures Ends(ports[b := AcceptedPort(transit[b])], transit - {b}, chain, closed)
  {
    assert Travels(ports, pos, chain, nexts, routed, sent, closed, token, b, transit[b]);
  }

  lemma LandTravellers(ports: Ports, chain: Chains, nexts: Nums, routed: Nums, sent: Logs, closed: set<LaneId>,
      pos: Positions, transit: Transits, cargo: Cargos, token: Tokens, b: Addr, tok: Token)
    requires Known(ports, transit, cargo, token, pos) && Travellers(ports, transit, pos, chain, nexts, routed, sent,
        closed, token) && Chained(chain, pos) && b in transit
    ensures Travellers(ports[b := AcceptedPort(transit[b])], transit - {b}, pos, chain, nexts, routed, sent, closed,
        token[transit[b].referring := tok])
  {
    assert Travels(ports, pos, chain, nexts, routed, sent, closed, token, b, transit[b]);
    forall c | c in transit && c != b
      ensures Travels(ports[b := AcceptedPort(transit[b])], pos, chain, nexts, routed, sent, closed,
          token[transit[b].referring := tok], c, transit[c])
    {
      assert Travels(ports, pos, chain, nexts, routed, sent, closed, token, c, transit[c]);
    }
  }

  /** b is the successor of r, which waits for it. */
  predicate Follows(ports: Ports, pos: Positions, chain: Chains, r: Addr, b: Addr) {
    r in ports && ports[r].mode.Buffering? && r in pos && b in pos && pos[b] == Pos(pos[r].lane, pos[r].idx + 1) &&
    pos[r].lane in chain && pos[r].idx + 1 < |chain[pos[r].lane]| && chain[pos[r].lane][pos[r].idx + 1] == b
  }

  lemma TravelFacts(ports: Ports, chain: Chains, nexts: Nums, routed: Nums, sent: Logs, closed: set<LaneId>,
      pos: Positions, transit: Transits, token: Tokens, b: Addr)
    requires b in transit && Travellers(ports, transit, pos, chain, nexts, routed, sent, closed, token) &&
        Chained(chain, pos)
    ensures Follows(ports, pos, chain, transit[b].referring, b) && transit[b].referring !in token
  {
    assert Travels(ports, pos, chain, nexts, routed, sent, closed, token, b, transit[b]);
  }

  lemma LandWaiting(ports: Ports, chain: Chains, pos: Positions, transit: Transits, token: Tokens, b: Addr, r: Addr,
      p: Port, id: nat)
    requires Follows(ports, pos, chain, r, b) && Waiting(ports, pos, chain, transit, token) &&
        Chained(chain, pos) && b !in ports && p.mode.Receiving?
    ensures Waiting(ports[b := p], pos, chain, transit - {b}, token[r := Accepting(id)])
  {
  }

  lemma LandTargets(chain: Chains, nexts: Nums, routed: Nums, sent: Logs, place: Places, transit: Transits, b: Addr)
    requires Targets(transit, chain, routed) && Placement(chain, nexts, routed, sent, place, transit)
    ensures Targets(transit - {b}, chain, routed) && Placement(chain, nexts, routed, sent, place, transit - {b})
  {
  }

  lemma LandSilent(ports: Ports, chain: Chains, closed: set<LaneId>, pos: Positions, transit: Transits,
      cargo: Cargos, token: Tokens, b: Addr)
    requires Known(ports, transit, cargo, token, pos) && b in transit
    ensures forall m :: EndKnows(ports, transit, chain, m) == EndKnows(ports[b := AcceptedPort(transit[b])],
        transit - {b}, chain, m)
    ensures forall m :: Silent(ports, transit, chain, closed, m) == Silent(ports[b := AcceptedPort(transit[b])],
        transit - {b}, chain, closed, m)
  {
  }

  lemma LandGone(ports: Ports, net: Net, chain: Chains, nexts: Nums, routed: Nums, sent: Logs, closed: set<LaneId>,
      pos: Positions, transit: Transits, cargo: Cargos, token: Tokens, b: Addr)
    requires Known(ports, transit, cargo, token, pos) && b in transit && Gone(ports, transit, chain, nexts, routed,
        sent, closed) && TravelLasts(ports, transit, pos, chain, sent, closed) && Closures(net, ports, transit, pos,
        chain, routed, sent, closed)
    ensures Gone(ports[b := AcceptedPort(transit[b])], transit - {b}, chain, nexts, routed, sent, closed)
    ensures TravelLasts(ports[b := AcceptedPort(transit[b])], transit - {b}, pos, chain, sent, closed)
    ensures Closures(net, ports[b := AcceptedPort(transit[b])], transit - {b}, pos, chain, routed, sent, closed)
  {
    LandSilent(ports, chain, closed, pos, transit, cargo, token, b);
  }

  lemma LandLasts(ports: Ports, chain: Chains, nexts: Nums, routed: Nums, sent: Logs, closed: set<LaneId>,
      pos: Positions, transit: Transits, cargo: Cargos, token: Tokens, b: Addr)
    requires Known(ports, transit, cargo, token, pos) && b in transit && Lasts(ports, transit, pos, chain, routed,
        sent, closed) && TravelLasts(ports, transit, pos, chain, sent, closed) && Travellers(ports, transit, pos,
        chain, nexts, routed, sent, closed, token) && Numbers(chain, nexts, routed, sent)
    ensures Lasts(ports[b := AcceptedPort(transit[b])], transit - {b}, pos, chain, routed, sent, closed)
  {
    LandSilent(ports, chain, closed, pos, transit, cargo, token, b);
    assert Travels(ports, pos, chain, nexts, routed, sent, closed, token, b, transit[b]);
    var m := pos[b].lane;
    assert LaneNumbers(|chain[m]|, nexts[m], routed[m], |sent[m]|);
  }

  lemma LandQueues(ports: Ports, chain: Chains, sent: Logs, place: Places, pos: Positions, transit: Transits, b: Addr)
    requires b !in ports && b in transit && Queues(ports, chain, sent, place) && Pending(ports, pos, place)
    ensures Queues(ports[b := AcceptedPort(transit[b])], chain, sent, place) &&
        Pending(ports[b := AcceptedPort(transit[b])], pos, place)
  {
  }

  lemma LandFlyingCargo(ports: Ports, net: Net, sent: Logs, pos: Positions, transit: Transits, cargo: Cargos,
      token: Tokens, b: Addr)
    requires Known(ports, transit, cargo, token, pos) && b in transit && FlyingCargo(net, ports, pos, transit,
        cargo, sent) && Unheld(ports, cargo)
    ensures FlyingCargo(net, ports[b := AcceptedPort(transit[b])], pos, transit - {b}, cargo, sent)
    ensures Unheld(ports[b := AcceptedPort(transit[b])], cargo)
  {
  }

  lemma LandAttached(ports: Ports, sent: Logs, pos: Positions, transit: Transits, cargo: Cargos, token: Tokens,
      b: Addr, m: LaneId, k: nat, at: nat, msg: Message)
    requires Known(ports, transit, cargo, token, pos) && b in transit && Attached(ports, pos, transit, cargo, sent,
        m, k, at, msg)
    ensures Attached(ports[b := AcceptedPort(transit[b])], pos, transit - {b}, cargo, sent, m, k, at, msg)
  {
  }

  lemma LandLanded(ports: Ports, b: Addr, p: Port, node: nat, msg: Message)
    requires LandedPorts(node, ports, msg) && b !in msg.ports
    ensures LandedPorts(node, ports[b := p], msg)
  {
  }

  /** A port that is landing is attached to the message that has just arrived, not to a queued one. */
  lemma LandQueuedCargo(ports: Ports, sent: Logs, place: Places, pos: Positions, transit: Transits, cargo: Cargos,
      token: Tokens, b: Addr)
    requires Known(ports, transit, cargo, token, pos) && b in transit && QueuedCargo(ports, pos, transit, cargo,
        sent) && Pending(ports, pos, place)
    requires b in cargo && cargo[b].lane in place && cargo[b].num < |place[cargo[b].lane]|
    requires place[cargo[b].lane][cargo[b].num].Flying?
    ensures QueuedCargo(ports[b := AcceptedPort(transit[b])], pos, transit - {b}, cargo, sent)
  {
    hide LandedPorts;
    var p := AcceptedPort(transit[b]);
    var ports' := ports[b := p];
    forall a, j | a in ports' && j in ports'[a].queue.pending
      ensures a in pos && LandedPorts(a.node, ports', ports'[a].queue.pending[j])
      ensures Attached(ports', pos, transit - {b}, cargo, sent, pos[a].lane, j, pos[a].idx,
          ports'[a].queue.pending[j])
    {
      assert Attached(ports, pos, transit, cargo, sent, pos[a].lane, j, pos[a].idx, ports[a].queue.pending[j]);
      LandAttached(ports, sent, pos, transit, cargo, token, b, pos[a].lane, j, pos[a].idx, ports[a].queue.pending[j]);
      LandLanded(ports, b, p, a.node, ports[a].queue.pending[j]);
    }
  }

  lemma LandManifest(ports: Ports, net: Net, chain: Chains, place: Places, transit: Transits, cargo: Cargos, b: Addr)
    requires b !in ports && b in transit && Manifest(net, ports, chain, cargo, place)
    ensures Manifest(net, ports[b := AcceptedPort(transit[b])], chain, cargo, place)
  {
    forall c | c in cargo
      ensures Listed(net, ports[b := AcceptedPort(transit[b])], chain, place, c, cargo[c])
    {
      assert Listed(net, ports, chain, place, c, cargo[c]);
    }
  }

  lemma LandAccepts(ports: Ports, net: Net, chain: Chains, pos: Positions, transit: Transits, token: Tokens,
      b: Addr, r: Addr, p: Port, id: nat, e: Event)
    requires Follows(ports, pos, chain, r, b) && r !in token && b !in ports && id !in net &&
        AcceptTokens(net, ports, transit, pos, chain, token)
    requires e == PortAccepted(r)
    ensures AcceptTokens(net[id := e], ports[b := p], transit - {b}, pos, chain, token[r := Accepting(id)])
  {
  }

  lemma LandEvents(net: Net, chain: Chains, routed: Nums, pos: Positions, token: Tokens, r: Addr, id: nat, e: Event)
    requires r !in token && id !in net && e.PortAccepted? && Announcements(net, pos, chain, token) &&
        Acks(net, pos, routed, token)
    ensures Announcements(net[id := e], pos, chain, token[r := Accepting(id)])
    ensures Acks(net[id := e], pos, routed, token[r := Accepting(id)])
  {
  }

  lemma LandProxyTokens(ports: Ports, chain: Chains, nexts: Nums, routed: Nums, sent: Logs, closed: set<LaneId>,
      pos: Positions, transit: Transits, token: Tokens, b: Addr, r: Addr, id: nat)
    requires r !in token && b in transit && b !in ports && ProxyTokens(ports, transit, pos, chain, token) &&
        ParkedAcks(ports, token) && Travellers(ports, transit, pos, chain, nexts, routed, sent, closed, token) &&
        Chained(chain, pos)
    ensures ProxyTokens(ports[b := AcceptedPort(transit[b])], transit - {b}, pos, chain, token[r := Accepting(id)])
    ensures ParkedAcks(ports[b := AcceptedPort(transit[b])], token[r := Accepting(id)])
  {
    assert Travels(ports, pos, chain, nexts, routed, sent, closed, token, b, transit[b]);
  }

  lemma LandHeralds(ports: Ports, net: Net, chain: Chains, nexts: Nums, routed: Nums, sent: Logs,
      closed: set<LaneId>, pos: Positions, transit: Transits, cargo: Cargos, token: Tokens, busy: set<Addr>, b: Addr)
    requires Known(ports, transit, cargo, token, pos) && b in transit && Heralds(net, ports, transit, chain, routed,
        closed, busy) && Travellers(ports, transit, pos, chain, nexts, routed, sent, closed, token) &&
        Chained(chain, pos)
    ensures Heralds(net, ports[b := AcceptedPort(transit[b])], transit - {b}, chain, routed, closed, busy)
  {
    LandSilent(ports, chain, closed, pos, transit, cargo, token, b);
    assert Travels(ports, pos, chain, nexts, routed, sent, closed, token, b, transit[b]);
    var ports', transit' := ports[b := AcceptedPort(transit[b])], transit - {b};
    forall m | m in chain && m !in closed && m.Other() in closed
      ensures HeraldLane(net, ports', transit', chain, busy, m, |routed[m]|)
    {
      assert HeraldLane(net, ports, transit, chain, busy, m, |routed[m]|);
      forall i | 0 <= i < |chain[m]|
        ensures Told(ports', transit', chain, m, i) == Told(ports, transit, chain, m, i)
      {
        assert pos[chain[m][i]] == Pos(m, i);
      }
    }
  }

  lemma ReferringFacts(ports: Ports, chain: Chains, nexts: Nums, routed: Nums, sent: Logs, closed: set<LaneId>,
      pos: Positions, transit: Transits, cargo: Cargos, token: Tokens, b: Addr)
    requires b in transit && Travellers(ports, transit, pos, chain, nexts, routed, sent, closed, token) &&
        Known(ports, transit, cargo, token, pos)
    ensures transit[b].referring !in token && b !in ports
  {
    assert Travels(ports, pos, chain, nexts, routed, sent, closed, token, b, transit[b]);
  }

  lemma AcceptShape(s: State, b: Addr, d: Descriptor)
    requires Core(s) && b in s.h.transit && d == s.h.transit[b]
    ensures var t := AcceptPort(s, b, d);
            Base(t) && Shape(t) && Tokening(t)
  {
    hide Lanes, Chained, Named, Known, Ids, Receivers, Senders, Nexts, Ends, Travellers, Waiting, Targets, Numbers,
        Placement, Reading, Gone, Lasts, TravelLasts, Closures, Flights, Mail, Queues, Pending, FlyingCargo,
        QueuedCargo, Manifest, Unheld, AcceptTokens, Announcements, Acks, ParkedAcks, ProxyTokens, Heralds;
    var e, r := PortAccepted(d.referring), d.referring;
    ReferringFacts(s.ports, s.h.chain, s.h.nexts, s.h.routed, s.h.sent, s.h.closed, s.h.pos, s.h.transit, s.h.cargo,
        s.h.token, b);
    PostId(s.net, s.nextId, e);
    LandKnown(s.ports, s.h.chain, s.h.nexts, s.h.routed, s.h.sent, s.h.closed, s.h.pos, s.h.transit, s.h.cargo,
        s.h.token, b, Accepting(s.nextId));
    LandReceivers(s.ports, s.h.chain, s.h.nexts, s.h.routed, s.h.sent, s.h.closed, s.h.pos, s.h.transit, s.h.cargo,
        s.h.token, b);
    LandSenders(s.ports, s.h.chain, s.h.nexts, s.h.routed, s.h.sent, s.h.closed, s.h.pos, s.h.transit, s.h.cargo,
        s.h.token, b);
    LandEnds(s.ports, s.h.chain, s.h.nexts, s.h.routed, s.h.sent, s.h.closed, s.h.pos, s.h.transit, s.h.cargo,
        s.h.token, b);
    LandTravellers(s.ports, s.h.chain, s.h.nexts, s.h.routed, s.h.sent, s.h.closed, s.h.pos, s.h.transit, s.h.cargo,
        s.h.token, b, Accepting(s.nextId));
    TravelFacts(s.ports, s.h.chain, s.h.nexts, s.h.routed, s.h.sent, s.h.closed, s.h.pos, s.h.transit, s.h.token, b);
    LandWaiting(s.ports, s.h.chain, s.h.pos, s.h.transit, s.h.token, b, r, AcceptedPort(d), s.nextId);
    LandTargets(s.h.chain, s.h.nexts, s.h.routed, s.h.sent, s.h.place, s.h.transit, b);
    LandAccepts(s.ports, s.net, s.h.chain, s.h.pos, s.h.transit, s.h.token, b, r, AcceptedPort(d), s.nextId, e);
    LandEvents(s.net, s.h.chain, s.h.routed, s.h.pos, s.h.token, r, s.nextId, e);
    LandProxyTokens(s.ports, s.h.chain, s.h.nexts, s.h.routed, s.h.sent, s.h.closed, s.h.pos, s.h.transit,
        s.h.token, b, r, s.nextId);
  }

  lemma AcceptRest(s: State, b: Addr, d: Descriptor, busy: set<Addr>)
    requires Core(s) && b in s.h.transit && d == s.h.transit[b] && Heralding(s, busy)
    requires b in s.h.cargo && s.h.cargo[b].lane in s.h.place && s.h.cargo[b].num < |s.h.place[s.h.cargo[b].lane]|
    requires s.h.place[s.h.cargo[b].lane][s.h.cargo[b].num].Flying?
    ensures var t := AcceptPort(s, b, d);
            Counting(t) && Ending(t) && Posting(t) && Carrying(t) && Heralding(t, busy)
  {
    hide Lanes, Chained, Named, Known, Ids, Receivers, Senders, Nexts, Ends, Travellers, Waiting, Targets, Numbers,
        Placement, Reading, Gone, Lasts, TravelLasts, Closures, Flights, Mail, Queues, Pending, FlyingCargo,
        QueuedCargo, Manifest, Unheld, AcceptTokens, Announcements, Acks, ParkedAcks, ProxyTokens, Heralds;
    var e, r, ports', transit' := PortAccepted(d.referring), d.referring, s.ports[b := AcceptedPort(d)],
        s.h.transit - {b};
    ReferringFacts(s.ports, s.h.chain, s.h.nexts, s.h.routed, s.h.sent, s.h.closed, s.h.pos, s.h.transit, s.h.cargo,
        s.h.token, b);
    PostId(s.net, s.nextId, e);
    LandTargets(s.h.chain, s.h.nexts, s.h.routed, s.h.sent, s.h.place, s.h.transit, b);
    LandGone(s.ports, s.net, s.h.chain, s.h.nexts, s.h.routed, s.h.sent, s.h.closed, s.h.pos, s.h.transit,
        s.h.cargo, s.h.token, b);
    LandLasts(s.ports, s.h.chain, s.h.nexts, s.h.routed, s.h.sent, s.h.closed, s.h.pos, s.h.transit, s.h.cargo,
        s.h.token, b);
    LandQueues(s.ports, s.h.chain, s.h.sent, s.h.place, s.h.pos, s.h.transit, b);
    LandFlyingCargo(s.ports, s.net, s.h.sent, s.h.pos, s.h.transit, s.h.cargo, s.h.token, b);
    LandQueuedCargo(s.ports, s.h.sent, s.h.place, s.h.pos, s.h.transit, s.h.cargo, s.h.token, b);
    LandManifest(s.ports, s.net, s.h.chain, s.h.place, s.h.transit, s.h.cargo, b);
    LandHeralds(s.ports, s.net, s.h.chain, s.h.nexts, s.h.routed, s.h.sent, s.h.closed, s.h.pos, s.h.transit,
        s.h.cargo, s.h.token, busy, b);
    PostOther(ports', s.net, s.h.chain, s.h.routed, s.h.sent, s.h.place, s.h.closed, s.h.pos, transit', s.h.cargo,
        s.nextId, e);
    PostHeralds(ports', s.net, s.h.chain, s.h.routed, s.h.closed, transit', busy, s.nextId, e);
  }
}
