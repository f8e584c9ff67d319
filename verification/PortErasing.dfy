/** A receiving port is erased when its user closes it. */
module PortErasing {
  import opened PortState
  import opened PortSteps
  import opened PortInvariant
  import opened PortFrames
  import opened PortClosure

  /** Port a, the open end of lane m, is in no message. */
  ghost predicate Closes(ports: Ports, pos: Positions, chain: Chains, cargo: Cargos, closed: set<LaneId>, a: Addr,
      m: LaneId, i: nat) {
    a in ports && ports[a].mode.Receiving? && a !in cargo && a in pos && pos[a] == Pos(m, i) && m !in closed &&
    m in chain && i + 1 == |chain[m]| && chain[m][i] == a
  }

  lemma EndCloses(ports: Ports, chain: Chains, nexts: Nums, routed: Nums, sent: Logs, place: Places, read: Logs,
      closed: set<LaneId>, pos: Positions, cargo: Cargos, name: nat, a: Addr)
    requires a in ports && ports[a].mode.Receiving? && a !in cargo && Receivers(ports, pos, chain, routed, sent,
        closed) && Chained(chain, pos) && Lanes(chain, nexts, routed, sent, place, read, closed, name)
    ensures a in pos && Closes(ports, pos, chain, cargo, closed, a, pos[a].lane, pos[a].idx) &&
        pos[a].lane in place && pos[a].lane in sent
    ensures pos[a].lane.Other() in chain && pos[a].lane.Other() in routed
  {
  }

  lemma CloseLanes(chain: Chains, nexts: Nums, routed: Nums, sent: Logs, place: Places, read: Logs,
      closed: set<LaneId>, name: nat, m: LaneId, i: nat)
    requires Lanes(chain, nexts, routed, sent, place, read, closed, name) && m in chain && m in place
    ensures Lanes(chain, nexts, routed, sent, Abandoned(place, m, i), read, closed + {m}, name)
  {
    assert Abandoned(place, m, i).Keys == place.Keys;
  }

  lemma CloseKnown(ports: Ports, place: Places, pos: Positions, transit: Transits, cargo: Cargos, token: Tokens,
      a: Addr, m: LaneId, i: nat)
    requires Known(ports, transit, cargo, token, pos) && Unheld(ports, cargo)
    ensures Known(ports - {a}, transit, Ashore(cargo, place, m, i), token, pos)
    ensures Unheld(ports - {a}, Ashore(cargo, place, m, i))
  {
  }

  lemma CloseReceivers(ports: Ports, chain: Chains, routed: Nums, sent: Logs, closed: set<LaneId>, pos: Positions,
      cargo: Cargos, a: Addr, m: LaneId, i: nat)
    requires Closes(ports, pos, chain, cargo, closed, a, m, i) && Receivers(ports, pos, chain, routed, sent,
        closed) && Chained(chain, pos)
    ensures Receivers(ports - {a}, pos, chain, routed, sent, closed + {m})
  {
  }

  lemma CloseSenders(ports: Ports, chain: Chains, nexts: Nums, closed: set<LaneId>, pos: Positions,
      transit: Transits, cargo: Cargos, token: Tokens, a: Addr, m: LaneId, i: nat)
    requires Closes(ports, pos, chain, cargo, closed, a, m, i) && Senders(ports, pos, chain) &&
        Nexts(ports, pos, nexts) && Waiting(ports, pos, chain, transit, token)
    ensures Senders(ports - {a}, pos, chain) && Nexts(ports - {a}, pos, nexts) && Waiting(ports - {a}, pos, chain,
        transit, token)
  {
  }

  lemma CloseEnds(ports: Ports, chain: Chains, closed: set<LaneId>, pos: Positions, transit: Transits,
      cargo: Cargos, token: Tokens, a: Addr, m: LaneId, i: nat)
    requires Closes(ports, pos, chain, cargo, closed, a, m, i) && Ends(ports, transit, chain, closed) &&
        Chained(chain, pos) && Known(ports, transit, cargo, token, pos)
    ensures Ends(ports - {a}, transit, chain, closed + {m})
  {
  }

  lemma CloseTravellers(ports: Ports, chain: Chains, nexts: Nums, routed: Nums, sent: Logs, closed: set<LaneId>,
      pos: Positions, transit: Transits, cargo: Cargos, token: Tokens, a: Addr, m: LaneId, i: nat)
    requires Closes(ports, pos, chain, cargo, closed, a, m, i) && Travellers(ports, transit, pos, chain, nexts,
        routed, sent, closed, token) && Chained(chain, pos) && Known(ports, transit, cargo, token, pos)
    ensures Travellers(ports - {a}, transit, pos, chain, nexts, routed, sent, closed + {m}, token)
  {
    forall b | b in transit
      ensures Travels(ports - {a}, pos, chain, nexts, routed, sent, closed + {m}, token, b, transit[b])
    {
      assert Travels(ports, pos, chain, nexts, routed, sent, closed, token, b, transit[b]);
      assert pos[b].lane != m;
    }
  }

  lemma ClosePlacement(chain: Chains, nexts: Nums, routed: Nums, sent: Logs, place: Places, read: Logs,
      closed: set<LaneId>, transit: Transits, m: LaneId, i: nat)
    requires Placement(chain, nexts, routed, sent, place, transit) && Reading(chain, nexts, sent, place, read,
        closed) && m in place
    ensures Placement(chain, nexts, routed, sent, Abandoned(place, m, i), transit)
    ensures Reading(chain, nexts, sent, Abandoned(place, m, i), read, closed + {m})
  {
  }

  lemma CloseSilent(ports: Ports, chain: Chains, closed: set<LaneId>, pos: Positions, transit: Transits,
      cargo: Cargos, a: Addr, m: LaneId, i: nat)
    requires Closes(ports, pos, chain, cargo, closed, a, m, i) && Chained(chain, pos)
    ensures forall l :: l != m ==> EndKnows(ports, transit, chain, l) == EndKnows(ports - {a}, transit, chain, l)
    ensures forall l :: Silent(ports, transit, chain, closed, l) ==> Silent(ports - {a}, transit, chain,
        closed + {m}, l)
  {
    forall l | l != m
      ensures EndKnows(ports, transit, chain, l) == EndKnows(ports - {a}, transit, chain, l)
    {
      if l in chain && |chain[l]| >= 1 { assert pos[EndOf(chain, l)].lane == l; }
    }
    assert m.Other().Other() == m;
  }

  lemma CloseGone(ports: Ports, chain: Chains, nexts: Nums, routed: Nums, sent: Logs, closed: set<LaneId>,
      pos: Positions, transit: Transits, cargo: Cargos, a: Addr, m: LaneId, i: nat)
    requires Closes(ports, pos, chain, cargo, closed, a, m, i) && Chained(chain, pos) && Gone(ports, transit, chain,
        nexts, routed, sent, closed)
    ensures Gone(ports - {a}, transit, chain, nexts, routed, sent, closed + {m})
  {
    CloseSilent(ports, chain, closed, pos, transit, cargo, a, m, i);
  }

  lemma CloseLasts(ports: Ports, net: Net, chain: Chains, routed: Nums, sent: Logs, closed: set<LaneId>,
      pos: Positions, transit: Transits, cargo: Cargos, a: Addr, m: LaneId, i: nat)
    requires Closes(ports, pos, chain, cargo, closed, a, m, i) && Chained(chain, pos) &&
        Lasts(ports, transit, pos, chain, routed, sent, closed) && TravelLasts(ports, transit, pos, chain, sent,
        closed) && Closures(net, ports, transit, pos, chain, routed, sent, closed)
    ensures Lasts(ports - {a}, transit, pos, chain, routed, sent, closed + {m}) && TravelLasts(ports - {a}, transit,
        pos, chain, sent, closed + {m})
    ensures Closures(net, ports - {a}, transit, pos, chain, routed, sent, closed + {m})
  {
    CloseSilent(ports, chain, closed, pos, transit, cargo, a, m, i);
  }

  /** The news of the closure fits the port the closed end addressed. */
  lemma CloseFits(ports: Ports, chain: Chains, nexts: Nums, routed: Nums, sent: Logs, place: Places, read: Logs,
      closed: set<LaneId>, pos: Positions, transit: Transits, cargo: Cargos, name: nat, a: Addr, m: LaneId, i: nat)
    requires Closes(ports, pos, chain, cargo, closed, a, m, i) && Chained(chain, pos) &&
        Receivers(ports, pos, chain, routed, sent, closed) && Lanes(chain, nexts, routed, sent, place, read, closed,
        name)
    ensures ports[a].nextSend >= 1
    ensures ClosureFits(ports - {a}, transit, pos, chain, routed, sent, closed + {m}, ports[a].peer,
        ports[a].nextSend - 1)
    ensures m.Other() in chain && m.Other() in routed && |routed[m.Other()]| < |chain[m.Other()]|
    ensures ports[a].peer == chain[m.Other()][|routed[m.Other()]|]
  {
    assert Receives(pos, chain, routed, sent, closed, a, ports[a]);
    assert m.Other().Other() == m;
  }

  lemma CloseFlights(net: Net, chain: Chains, sent: Logs, place: Places, pos: Positions, m: LaneId, i: nat)
    requires Flights(net, chain, sent, place) && Mail(net, pos, place) && m in place
    ensures Flights(net, chain, sent, Abandoned(place, m, i)) && Mail(net, pos, Abandoned(place, m, i))
  {
  }

  lemma CloseQueues(ports: Ports, chain: Chains, sent: Logs, place: Places, closed: set<LaneId>, pos: Positions,
      cargo: Cargos, a: Addr, m: LaneId, i: nat)
    requires Closes(ports, pos, chain, cargo, closed, a, m, i) && Chained(chain, pos) &&
        Queues(ports, chain, sent, place) && m in place
    ensures Queues(ports - {a}, chain, sent, Abandoned(place, m, i))
  {
    forall m', k | m' in place && 0 <= k < |place[m']| && Abandoned(place, m, i)[m'][k].Queued?
      ensures place[m'][k].Queued? && place[m'][k] == Abandoned(place, m, i)[m'][k] && chain[m'][place[m'][k].at] != a
    {
    }
  }

  lemma ClosePending(ports: Ports, chain: Chains, place: Places, closed: set<LaneId>, pos: Positions, cargo: Cargos,
      a: Addr, m: LaneId, i: nat)
    requires Closes(ports, pos, chain, cargo, closed, a, m, i) && Chained(chain, pos) &&
        Pending(ports, pos, place) && m in place
    ensures Pending(ports - {a}, pos, Abandoned(place, m, i))
  {
  }

  lemma CloseAttached(ports: Ports, chain: Chains, sent: Logs, place: Places, closed: set<LaneId>, pos: Positions,
      transit: Transits, cargo: Cargos, a: Addr, m: LaneId, i: nat, l: LaneId, k: nat, at: nat, msg: Message)
    requires Closes(ports, pos, chain, cargo, closed, a, m, i) && Attached(ports, pos, transit, cargo, sent, l, k,
        at, msg) && !Aboard(place, Cargo(l, k, 0), m, i)
    ensures Attached(ports - {a}, pos, transit, Ashore(cargo, place, m, i), sent, l, k, at, msg)
  {
  }

  lemma CloseFlyingCargo(ports: Ports, net: Net, chain: Chains, sent: Logs, place: Places, closed: set<LaneId>,
      pos: Positions, transit: Transits, cargo: Cargos, a: Addr, m: LaneId, i: nat)
    requires Closes(ports, pos, chain, cargo, closed, a, m, i) && Mail(net, pos, place) &&
        FlyingCargo(net, ports, pos, transit, cargo, sent)
    ensures FlyingCargo(net, ports - {a}, pos, transit, Ashore(cargo, place, m, i), sent)
  {
    hide Attached;
    forall j | j in net && net[j].User?
      ensures Attached(ports - {a}, pos, transit, Ashore(cargo, place, m, i), sent, pos[net[j].to].lane,
          net[j].msg.num, pos[net[j].to].idx, net[j].msg)
    {
      CloseAttached(ports, chain, sent, place, closed, pos, transit, cargo, a, m, i, pos[net[j].to].lane,
          net[j].msg.num, pos[net[j].to].idx, net[j].msg);
    }
  }

  lemma CloseQueuedCargo(ports: Ports, chain: Chains, sent: Logs, place: Places, closed: set<LaneId>,
      pos: Positions, transit: Transits, cargo: Cargos, a: Addr, m: LaneId, i: nat)
    requires Closes(ports, pos, chain, cargo, closed, a, m, i) && Pending(ports, pos, place) &&
        Chained(chain, pos) && QueuedCargo(ports, pos, transit, cargo, sent)
    ensures QueuedCargo(ports - {a}, pos, transit, Ashore(cargo, place, m, i), sent)
  {
    hide Attached;
    var ports' := ports - {a};
    forall c, j | c in ports' && j in ports'[c].queue.pending
      ensures LandedPorts(c.node, ports', ports'[c].queue.pending[j])
      ensures Attached(ports', pos, transit, Ashore(cargo, place, m, i), sent, pos[c].lane, j, pos[c].idx,
          ports'[c].queue.pending[j])
    {
      CloseAttached(ports, chain, sent, place, closed, pos, transit, cargo, a, m, i, pos[c].lane, j, pos[c].idx,
          ports[c].queue.pending[j]);
    }
  }

  lemma CloseManifest(ports: Ports, net: Net, chain: Chains, place: Places, closed: set<LaneId>, pos: Positions,
      cargo: Cargos, a: Addr, m: LaneId, i: nat)
    requires Closes(ports, pos, chain, cargo, closed, a, m, i) && Chained(chain, pos) && Manifest(net, ports, chain,
        cargo, place) && m in place
    ensures Manifest(net, ports - {a}, chain, Ashore(cargo, place, m, i), Abandoned(place, m, i))
  {
    forall b | b in Ashore(cargo, place, m, i)
      ensures Listed(net, ports - {a}, chain, Abandoned(place, m, i), b, cargo[b])
    {
      assert Listed(net, ports, chain, place, b, cargo[b]);
      var c := cargo[b];
      if place[c.lane][c.num].Queued? && chain[c.lane][place[c.lane][c.num].at] == a {
        assert pos[a] == Pos(c.lane, place[c.lane][c.num].at);
      }
    }
  }

  lemma CloseTokens(ports: Ports, net: Net, chain: Chains, closed: set<LaneId>, pos: Positions, transit: Transits,
      cargo: Cargos, token: Tokens, a: Addr, m: LaneId, i: nat)
    requires Closes(ports, pos, chain, cargo, closed, a, m, i) && AcceptTokens(net, ports, transit, pos, chain,
        token) && ParkedAcks(ports, token) && ProxyTokens(ports, transit, pos, chain, token)
    ensures AcceptTokens(net, ports - {a}, transit, pos, chain, token) && ParkedAcks(ports - {a}, token) &&
        ProxyTokens(ports - {a}, transit, pos, chain, token)
  {
  }

  /** Nobody on a lane has heard of a closure before its sender closes. */
  lemma NobodyTold(ports: Ports, chain: Chains, nexts: Nums, routed: Nums, sent: Logs, closed: set<LaneId>,
      pos: Positions, transit: Transits, l: LaneId, i: nat)
    requires l in chain && l in routed && |routed[l]| <= i < |chain[l]| && l !in closed && l.Other() !in closed
    requires Chained(chain, pos) && Gone(ports, transit, chain, nexts, routed, sent, closed) &&
        Lasts(ports, transit, pos, chain, routed, sent, closed) && TravelLasts(ports, transit, pos, chain, sent,
        closed)
    ensures !Told(ports, transit, chain, l, i)
  {
    assert !Silent(ports, transit, chain, closed, l);
    var x := chain[l][i];
    assert pos[x] == Pos(l, i);
    if i + 1 == |chain[l]| { assert EndOf(chain, l) == x; }
  }

  lemma CloseHeralds(ports: Ports, net: Net, chain: Chains, nexts: Nums, routed: Nums, sent: Logs,
      closed: set<LaneId>, pos: Positions, transit: Transits, cargo: Cargos, a: Addr, m: LaneId, i: nat, id: nat,
      e: Event)
    requires Closes(ports, pos, chain, cargo, closed, a, m, i) && Chained(chain, pos) &&
        Heralds(net, ports, transit, chain, routed, closed, {}) && Gone(ports, transit, chain, nexts, routed, sent,
        closed) && Lasts(ports, transit, pos, chain, routed, sent, closed) && TravelLasts(ports, transit, pos,
        chain, sent, closed) && Targets(transit, chain, routed)
    requires id !in net && e.ObserveClosure?
    requires m.Other() in chain && m.Other() in routed && |routed[m.Other()]| < |chain[m.Other()]|
    requires e.to == chain[m.Other()][|routed[m.Other()]|]
    ensures Heralds(net[id := e], ports - {a}, transit, chain, routed, closed + {m}, {})
  {
    var net', ports', closed' := net[id := e], ports - {a}, closed + {m};
    assert net'[id].to == e.to && ClosureInFlight(net', e.to);
    PostHeralds(ports, net, chain, routed, closed, transit, {}, id, e);
    CloseSilent(ports, chain, closed, pos, transit, cargo, a, m, i);
    forall l | l in chain && l !in closed' && l.Other() in closed'
      ensures HeraldLane(net', ports', transit, chain, {}, l, |routed[l]|)
    {
      forall j | 0 <= j < |chain[l]|
        ensures Told(ports', transit, chain, l, j) == Told(ports, transit, chain, l, j)
      {
        assert pos[chain[l][j]].lane == l;
      }
      if l.Other() == m {
        assert l == m.Other();
        forall j | |routed[l]| <= j < |chain[l]|
          ensures !Told(ports, transit, chain, l, j)
        {
          NobodyTold(ports, chain, nexts, routed, sent, closed, pos, transit, l, j);
        }
      } else {
        assert HeraldLane(net', ports, transit, chain, {}, l, |routed[l]|);
      }
    }
  }

  lemma EraseTrunk(s: State, a: Addr)
    requires Core(s) && Heralding(s, {}) && SendablePort(s, a) && a !in s.h.cargo
    ensures var t := ErasePort(s, a);
            Base(t) && Shape(t) && Ending(t) && Heralding(t, {})
  {
    hide Lanes, Chained, Named, Known, Ids, Receivers, Senders, Nexts, Ends, Travellers, Waiting, Targets, Numbers,
        Placement, Reading, Gone, Lasts, TravelLasts, Closures, Flights, Mail, Queues, Pending, FlyingCargo,
        QueuedCargo, Manifest, Unheld, AcceptTokens, Announcements, Acks, ParkedAcks, ProxyTokens, Heralds, Silent,
        ClosureFits;
    var m, i := s.h.pos[a].lane, s.h.pos[a].idx;
    EndCloses(s.ports, s.h.chain, s.h.nexts, s.h.routed, s.h.sent, s.h.place, s.h.read, s.h.closed, s.h.pos,
        s.h.cargo, s.nextName, a);
    CloseFits(s.ports, s.h.chain, s.h.nexts, s.h.routed, s.h.sent, s.h.place, s.h.read, s.h.closed, s.h.pos,
        s.h.transit, s.h.cargo, s.nextName, a, m, i);
    var ports', closed', e := s.ports - {a}, s.h.closed + {m}, ObserveClosure(s.ports[a].peer,
        s.ports[a].nextSend - 1);
    PostId(s.net, s.nextId, e);
    CloseLanes(s.h.chain, s.h.nexts, s.h.routed, s.h.sent, s.h.place, s.h.read, s.h.closed, s.nextName, m, i);
    CloseKnown(s.ports, s.h.place, s.h.pos, s.h.transit, s.h.cargo, s.h.token, a, m, i);
    CloseReceivers(s.ports, s.h.chain, s.h.routed, s.h.sent, s.h.closed, s.h.pos, s.h.cargo, a, m, i);
    CloseSenders(s.ports, s.h.chain, s.h.nexts, s.h.closed, s.h.pos, s.h.transit, s.h.cargo, s.h.token, a, m, i);
    CloseEnds(s.ports, s.h.chain, s.h.closed, s.h.pos, s.h.transit, s.h.cargo, s.h.token, a, m, i);
    CloseTravellers(s.ports, s.h.chain, s.h.nexts, s.h.routed, s.h.sent, s.h.closed, s.h.pos, s.h.transit,
        s.h.cargo, s.h.token, a, m, i);
    CloseGone(s.ports, s.h.chain, s.h.nexts, s.h.routed, s.h.sent, s.h.closed, s.h.pos, s.h.transit, s.h.cargo, a,
        m, i);
    CloseLasts(s.ports, s.net, s.h.chain, s.h.routed, s.h.sent, s.h.closed, s.h.pos, s.h.transit, s.h.cargo, a, m, i);
    PostClosures(ports', s.net, s.h.chain, s.h.routed, s.h.sent, closed', s.h.pos, s.h.transit, s.nextId, e);
    CloseHeralds(s.ports, s.net, s.h.chain, s.h.nexts, s.h.routed, s.h.sent, s.h.closed, s.h.pos, s.h.transit,
        s.h.cargo, a, m, i, s.nextId, e);
  }

  lemma EraseRest(s: State, a: Addr)
    requires Core(s) && SendablePort(s, a) && a !in s.h.cargo
    ensures var t := ErasePort(s, a);
            Counting(t) && Posting(t) && Carrying(t) && Tokening(t)
  {
    hide Lanes, Chained, Named, Known, Ids, Receivers, Senders, Nexts, Ends, Travellers, Waiting, Targets, Numbers,
        Placement, Reading, Gone, Lasts, TravelLasts, Closures, Flights, Mail, Queues, Pending, FlyingCargo,
        QueuedCargo, Manifest, Unheld, AcceptTokens, Announcements, Acks, ParkedAcks, ProxyTokens, Heralds,
        ClosureFits;
    var m, i := s.h.pos[a].lane, s.h.pos[a].idx;
    var ports', place', cargo' := s.ports - {a}, Abandoned(s.h.place, m, i), Ashore(s.h.cargo, s.h.place, m, i);
    EndCloses(s.ports, s.h.chain, s.h.nexts, s.h.routed, s.h.sent, s.h.place, s.h.read, s.h.closed, s.h.pos,
        s.h.cargo, s.nextName, a);
    CloseFits(s.ports, s.h.chain, s.h.nexts, s.h.routed, s.h.sent, s.h.place, s.h.read, s.h.closed, s.h.pos,
        s.h.transit, s.h.cargo, s.nextName, a, m, i);
    var closed', e := s.h.closed + {m}, ObserveClosure(s.ports[a].peer, s.ports[a].nextSend - 1);
    PostId(s.net, s.nextId, e);
    ClosePlacement(s.h.chain, s.h.nexts, s.h.routed, s.h.sent, s.h.place, s.h.read, s.h.closed, s.h.transit, m, i);
    CloseFlights(s.net, s.h.chain, s.h.sent, s.h.place, s.h.pos, m, i);
    CloseQueues(s.ports, s.h.chain, s.h.sent, s.h.place, s.h.closed, s.h.pos, s.h.cargo, a, m, i);
    ClosePending(s.ports, s.h.chain, s.h.place, s.h.closed, s.h.pos, s.h.cargo, a, m, i);
    CloseKnown(s.ports, s.h.place, s.h.pos, s.h.transit, s.h.cargo, s.h.token, a, m, i);
    CloseFlyingCargo(s.ports, s.net, s.h.chain, s.h.sent, s.h.place, s.h.closed, s.h.pos, s.h.transit, s.h.cargo, a,
        m, i);
    CloseQueuedCargo(s.ports, s.h.chain, s.h.sent, s.h.place, s.h.closed, s.h.pos, s.h.transit, s.h.cargo, a, m, i);
    CloseManifest(s.ports, s.net, s.h.chain, s.h.place, s.h.closed, s.h.pos, s.h.cargo, a, m, i);
    CloseTokens(s.ports, s.net, s.h.chain, s.h.closed, s.h.pos, s.h.transit, s.h.cargo, s.h.token, a, m, i);
    PostTokens(ports', s.net, s.h.chain, s.h.routed, s.h.pos, s.h.transit, s.h.token, s.nextId, e);
    CloseLasts(s.ports, s.net, s.h.chain, s.h.routed, s.h.sent, s.h.closed, s.h.pos, s.h.transit, s.h.cargo, a, m, i);
    PostOther(ports', s.net, s.h.chain, s.h.routed, s.h.sent, place', closed', s.h.pos, s.h.transit, cargo',
        s.nextId, e);
  }
}
