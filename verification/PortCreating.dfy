/** A new pipe: two ports that address each other. */
module PortCreating {
  import opened PortState
  import opened PortSteps
  import opened PortInvariant

  /** The names and the lanes of the new pipe are unused. */
  ghost predicate Creates(name: nat, a: Addr, b: Addr, l: LaneId, m: LaneId) {
    a.name == name && b.name == name + 1 && l == LaneId(name, false) && m == LaneId(name, true)
  }

  predicate Fresh(pos: Positions, chain: Chains, a: Addr, b: Addr, l: LaneId, m: LaneId) {
    a != b && a !in pos && b !in pos && l.Other() == m && m.Other() == l && l !in chain && m !in chain &&
    forall k :: k in chain ==> k.Other() in chain
  }

  lemma CreateFresh(chain: Chains, nexts: Nums, routed: Nums, sent: Logs, place: Places, read: Logs,
      closed: set<LaneId>, pos: Positions, name: nat, a: Addr, b: Addr, l: LaneId, m: LaneId)
    requires Creates(name, a, b, l, m) && Named(pos, name) && Lanes(chain, nexts, routed, sent, place, read, closed,
        name)
    ensures Fresh(pos, chain, a, b, l, m)
  {
  }

  lemma CreateLanes(chain: Chains, nexts: Nums, routed: Nums, sent: Logs, place: Places, read: Logs,
      closed: set<LaneId>, name: nat, a: Addr, b: Addr, l: LaneId, m: LaneId)
    requires Creates(name, a, b, l, m) && Lanes(chain, nexts, routed, sent, place, read, closed, name)
    ensures Lanes(chain[l := [a]][m := [b]], nexts[l := [1]][m := [1]], routed[l := []][m := []],
        sent[l := [NOTHING]][m := [NOTHING]], place[l := [Read]][m := [Read]], read[l := [NOTHING]][m := [NOTHING]],
        closed, name + 2)
  {
    CreateKeys(chain, nexts, routed, sent, place, read, a, b, l, m);
    assert l.Other() == m && m.Other() == l && l !in chain && m !in chain;
  }

  lemma CreateKeys(chain: Chains, nexts: Nums, routed: Nums, sent: Logs, place: Places, read: Logs, a: Addr,
      b: Addr, l: LaneId, m: LaneId)
    ensures chain[l := [a]][m := [b]].Keys == chain.Keys + {l, m}
    ensures nexts[l := [1]][m := [1]].Keys == nexts.Keys + {l, m}
    ensures routed[l := []][m := []].Keys == routed.Keys + {l, m}
    ensures sent[l := [NOTHING]][m := [NOTHING]].Keys == sent.Keys + {l, m}
    ensures place[l := [Read]][m := [Read]].Keys == place.Keys + {l, m}
    ensures read[l := [NOTHING]][m := [NOTHING]].Keys == read.Keys + {l, m}
  {
    assert chain[l := [a]][m := [b]].Keys == chain.Keys + {l, m};
    assert nexts[l := [1]][m := [1]].Keys == nexts.Keys + {l, m};
    assert routed[l := []][m := []].Keys == routed.Keys + {l, m};
    assert sent[l := [NOTHING]][m := [NOTHING]].Keys == sent.Keys + {l, m};
    assert place[l := [Read]][m := [Read]].Keys == place.Keys + {l, m};
    assert read[l := [NOTHING]][m := [NOTHING]].Keys == read.Keys + {l, m};
  }

  lemma CreateChained(chain: Chains, pos: Positions, a: Addr, b: Addr, l: LaneId, m: LaneId)
    requires Fresh(pos, chain, a, b, l, m) && Chained(chain, pos)
    ensures Chained(chain[l := [a]][m := [b]], pos[a := Pos(l, 0)][b := Pos(m, 0)])
  {
  }

  lemma CreateNamed(pos: Positions, name: nat, a: Addr, b: Addr, l: LaneId, m: LaneId)
    requires Creates(name, a, b, l, m) && Named(pos, name)
    ensures Named(pos[a := Pos(l, 0)][b := Pos(m, 0)], name + 2)
  {
  }

  lemma CreateKnown(ports: Ports, pos: Positions, transit: Transits, cargo: Cargos, token: Tokens, a: Addr, b: Addr,
      l: LaneId, m: LaneId)
    requires a !in pos && b !in pos && Known(ports, transit, cargo, token, pos)
    ensures Known(ports[a := NewPort(b)][b := NewPort(a)], transit, cargo, token, pos[a := Pos(l, 0)][b := Pos(m, 0)])
    ensures a !in ports && b !in ports && a !in transit && b !in transit && a !in cargo && b !in cargo
    ensures a !in token && b !in token
  {
    assert ports[a := NewPort(b)][b := NewPort(a)].Keys == ports.Keys + {a, b};
  }

  lemma CreateReceivers(ports: Ports, chain: Chains, routed: Nums, sent: Logs, closed: set<LaneId>, pos: Positions,
      a: Addr, b: Addr, l: LaneId, m: LaneId)
    requires Fresh(pos, chain, a, b, l, m) && Receivers(ports, pos, chain, routed, sent, closed) &&
        closed <= chain.Keys && Chained(chain, pos)
    ensures Receivers(ports[a := NewPort(b)][b := NewPort(a)], pos[a := Pos(l, 0)][b := Pos(m, 0)],
        chain[l := [a]][m := [b]], routed[l := []][m := []], sent[l := [NOTHING]][m := [NOTHING]], closed)
  {
    forall c | c in ports && ports[c].mode.Receiving? && c != a && c != b
      ensures Receives(pos[a := Pos(l, 0)][b := Pos(m, 0)], chain[l := [a]][m := [b]], routed[l := []][m := []],
          sent[l := [NOTHING]][m := [NOTHING]], closed, c, ports[c])
    {
      assert Receives(pos, chain, routed, sent, closed, c, ports[c]);
    }
  }

  lemma CreateSenders(ports: Ports, chain: Chains, pos: Positions, a: Addr, b: Addr, l: LaneId, m: LaneId)
    requires Fresh(pos, chain, a, b, l, m) && Senders(ports, pos, chain) && Chained(chain, pos)
    ensures Senders(ports[a := NewPort(b)][b := NewPort(a)], pos[a := Pos(l, 0)][b := Pos(m, 0)],
        chain[l := [a]][m := [b]])
  {
    var ports', pos' := ports[a := NewPort(b)][b := NewPort(a)], pos[a := Pos(l, 0)][b := Pos(m, 0)];
    forall c | c in ports' && !ports'[c].mode.Receiving?
      ensures c in ports && ports'[c] == ports[c] && pos'[c] == pos[c] && pos[c].lane != l && pos[c].lane != m
    {
    }
  }

  lemma CreateNexts(ports: Ports, chain: Chains, nexts: Nums, pos: Positions, a: Addr, b: Addr, l: LaneId, m: LaneId)
    requires Fresh(pos, chain, a, b, l, m) && Nexts(ports, pos, nexts) && nexts.Keys == chain.Keys
    ensures Nexts(ports[a := NewPort(b)][b := NewPort(a)], pos[a := Pos(l, 0)][b := Pos(m, 0)],
        nexts[l := [1]][m := [1]])
  {
  }

  lemma CreateEnds(ports: Ports, chain: Chains, closed: set<LaneId>, pos: Positions, transit: Transits, a: Addr,
      b: Addr, l: LaneId, m: LaneId)
    requires Fresh(pos, chain, a, b, l, m) && Ends(ports, transit, chain, closed) && Chained(chain, pos) &&
        closed <= chain.Keys
    ensures Ends(ports[a := NewPort(b)][b := NewPort(a)], transit, chain[l := [a]][m := [b]], closed)
  {
  }

  lemma CreateTravellers(ports: Ports, chain: Chains, nexts: Nums, routed: Nums, sent: Logs, closed: set<LaneId>,
      pos: Positions, transit: Transits, cargo: Cargos, token: Tokens, a: Addr, b: Addr, l: LaneId, m: LaneId)
    requires Fresh(pos, chain, a, b, l, m) && Travellers(ports, transit, pos, chain, nexts, routed, sent, closed,
        token) && Chained(chain, pos) && Known(ports, transit, cargo, token, pos)
    ensures Travellers(ports[a := NewPort(b)][b := NewPort(a)], transit, pos[a := Pos(l, 0)][b := Pos(m, 0)],
        chain[l := [a]][m := [b]], nexts[l := [1]][m := [1]], routed[l := []][m := []],
        sent[l := [NOTHING]][m := [NOTHING]], closed, token)
  {
    forall c | c in transit
      ensures Travels(ports[a := NewPort(b)][b := NewPort(a)], pos[a := Pos(l, 0)][b := Pos(m, 0)],
          chain[l := [a]][m := [b]], nexts[l := [1]][m := [1]], routed[l := []][m := []],
          sent[l := [NOTHING]][m := [NOTHING]], closed, token, c, transit[c])
    {
      assert Travels(ports, pos, chain, nexts, routed, sent, closed, token, c, transit[c]);
    }
  }

  lemma CreateWaiting(ports: Ports, chain: Chains, pos: Positions, transit: Transits, token: Tokens, a: Addr,
      b: Addr, l: LaneId, m: LaneId)
    requires Fresh(pos, chain, a, b, l, m) && Waiting(ports, pos, chain, transit, token) && Chained(chain, pos)
    ensures Waiting(ports[a := NewPort(b)][b := NewPort(a)], pos[a := Pos(l, 0)][b := Pos(m, 0)],
        chain[l := [a]][m := [b]], transit, token)
  {
  }

  lemma CreateTargets(chain: Chains, routed: Nums, transit: Transits, a: Addr, b: Addr, l: LaneId, m: LaneId)
    requires Targets(transit, chain, routed) && a !in transit && b !in transit
    ensures Targets(transit, chain[l := [a]][m := [b]], routed[l := []][m := []])
  {
  }

  lemma CreateNumbers(chain: Chains, nexts: Nums, routed: Nums, sent: Logs, a: Addr, b: Addr, l: LaneId, m: LaneId)
    requires Numbers(chain, nexts, routed, sent)
    ensures Numbers(chain[l := [a]][m := [b]], nexts[l := [1]][m := [1]], routed[l := []][m := []],
        sent[l := [NOTHING]][m := [NOTHING]])
  {
    assert LaneNumbers(1, [1], [], 1);
  }

  lemma CreatePlacement(chain: Chains, nexts: Nums, routed: Nums, sent: Logs, place: Places, pos: Positions,
      transit: Transits, a: Addr, b: Addr, l: LaneId, m: LaneId)
    requires Placement(chain, nexts, routed, sent, place, transit) && Fresh(pos, chain, a, b, l, m)
    ensures Placement(chain[l := [a]][m := [b]], nexts[l := [1]][m := [1]], routed[l := []][m := []],
        sent[l := [NOTHING]][m := [NOTHING]], place[l := [Read]][m := [Read]], transit)
  {
  }

  lemma CreateReading(chain: Chains, nexts: Nums, sent: Logs, place: Places, read: Logs, closed: set<LaneId>,
      a: Addr, b: Addr, l: LaneId, m: LaneId)
    requires Reading(chain, nexts, sent, place, read, closed)
    ensures Reading(chain[l := [a]][m := [b]], nexts[l := [1]][m := [1]], sent[l := [NOTHING]][m := [NOTHING]],
        place[l := [Read]][m := [Read]], read[l := [NOTHING]][m := [NOTHING]], closed)
  {
  }

  lemma CreateSilent(ports: Ports, chain: Chains, closed: set<LaneId>, pos: Positions, transit: Transits, a: Addr,
      b: Addr, l: LaneId, m: LaneId)
    requires Fresh(pos, chain, a, b, l, m) && Chained(chain, pos)
    ensures forall k :: Silent(ports, transit, chain, closed, k) ==> Silent(ports[a := NewPort(b)][b := NewPort(a)],
        transit, chain[l := [a]][m := [b]], closed, k)
  {
    forall k | EndKnows(ports, transit, chain, k)
      ensures EndKnows(ports[a := NewPort(b)][b := NewPort(a)], transit, chain[l := [a]][m := [b]], k)
    {
      assert pos[EndOf(chain, k)].lane == k;
    }
  }

  lemma CreateGone(ports: Ports, chain: Chains, nexts: Nums, routed: Nums, sent: Logs, closed: set<LaneId>,
      pos: Positions, transit: Transits, a: Addr, b: Addr, l: LaneId, m: LaneId)
    requires Fresh(pos, chain, a, b, l, m) && Chained(chain, pos) && Gone(ports, transit, chain, nexts, routed,
        sent, closed)
    ensures Gone(ports[a := NewPort(b)][b := NewPort(a)], transit, chain[l := [a]][m := [b]],
        nexts[l := [1]][m := [1]], routed[l := []][m := []], sent[l := [NOTHING]][m := [NOTHING]], closed)
  {
    CreateSilent(ports, chain, closed, pos, transit, a, b, l, m);
  }

  lemma CreateLasts(ports: Ports, chain: Chains, routed: Nums, sent: Logs, closed: set<LaneId>, pos: Positions,
      transit: Transits, a: Addr, b: Addr, l: LaneId, m: LaneId)
    requires Fresh(pos, chain, a, b, l, m) && Chained(chain, pos) && Lasts(ports, transit, pos, chain, routed, sent,
        closed)
    ensures Lasts(ports[a := NewPort(b)][b := NewPort(a)], transit, pos[a := Pos(l, 0)][b := Pos(m, 0)],
        chain[l := [a]][m := [b]], routed[l := []][m := []], sent[l := [NOTHING]][m := [NOTHING]], closed)
  {
    CreateSilent(ports, chain, closed, pos, transit, a, b, l, m);
  }

  lemma CreateTravelLasts(ports: Ports, net: Net, chain: Chains, routed: Nums, sent: Logs, closed: set<LaneId>,
      pos: Positions, transit: Transits, cargo: Cargos, token: Tokens, a: Addr, b: Addr, l: LaneId, m: LaneId)
    requires Fresh(pos, chain, a, b, l, m) && Chained(chain, pos) && Known(ports, transit, cargo, token, pos) &&
        TravelLasts(ports, transit, pos, chain, sent, closed) && Closures(net, ports, transit, pos, chain, routed,
        sent, closed)
    ensures TravelLasts(ports[a := NewPort(b)][b := NewPort(a)], transit, pos[a := Pos(l, 0)][b := Pos(m, 0)],
        chain[l := [a]][m := [b]], sent[l := [NOTHING]][m := [NOTHING]], closed)
    ensures Closures(net, ports[a := NewPort(b)][b := NewPort(a)], transit, pos[a := Pos(l, 0)][b := Pos(m, 0)],
        chain[l := [a]][m := [b]], routed[l := []][m := []], sent[l := [NOTHING]][m := [NOTHING]], closed)
  {
    CreateSilent(ports, chain, closed, pos, transit, a, b, l, m);
  }

  lemma CreateFlights(net: Net, chain: Chains, sent: Logs, place: Places, pos: Positions, a: Addr, b: Addr,
      l: LaneId, m: LaneId)
    requires Fresh(pos, chain, a, b, l, m) && Flights(net, chain, sent, place) && Mail(net, pos, place) &&
        place.Keys == chain.Keys
    ensures Flights(net, chain[l := [a]][m := [b]], sent[l := [NOTHING]][m := [NOTHING]],
        place[l := [Read]][m := [Read]])
    ensures Mail(net, pos[a := Pos(l, 0)][b := Pos(m, 0)], place[l := [Read]][m := [Read]])
  {
  }

  lemma CreateQueues(ports: Ports, chain: Chains, sent: Logs, place: Places, pos: Positions, a: Addr, b: Addr,
      l: LaneId, m: LaneId)
    requires Fresh(pos, chain, a, b, l, m) && Queues(ports, chain, sent, place) && Chained(chain, pos) &&
        a !in ports && b !in ports
    requires place.Keys == chain.Keys
    ensures Queues(ports[a := NewPort(b)][b := NewPort(a)], chain[l := [a]][m := [b]],
        sent[l := [NOTHING]][m := [NOTHING]], place[l := [Read]][m := [Read]])
  {
  }

  lemma CreatePending(ports: Ports, chain: Chains, place: Places, pos: Positions, a: Addr, b: Addr, l: LaneId,
      m: LaneId)
    requires Fresh(pos, chain, a, b, l, m) && Pending(ports, pos, place) && place.Keys == chain.Keys
    ensures Pending(ports[a := NewPort(b)][b := NewPort(a)], pos[a := Pos(l, 0)][b := Pos(m, 0)],
        place[l := [Read]][m := [Read]])
  {
  }

  lemma CreateAttached(ports: Ports, sent: Logs, pos: Positions, transit: Transits, cargo: Cargos, a: Addr, b: Addr,
      l: LaneId, m: LaneId, m': LaneId, k: nat, at: nat, msg: Message)
    requires a !in pos && b !in pos && a !in ports && b !in ports && Attached(ports, pos, transit, cargo, sent, m',
        k, at, msg) && m' != l && m' != m
    ensures Attached(ports[a := NewPort(b)][b := NewPort(a)], pos[a := Pos(l, 0)][b := Pos(m, 0)], transit, cargo,
        sent[l := [NOTHING]][m := [NOTHING]], m', k, at, msg)
  {
  }

  lemma CreateFlyingCargo(ports: Ports, net: Net, chain: Chains, sent: Logs, pos: Positions, transit: Transits,
      cargo: Cargos, a: Addr, b: Addr, l: LaneId, m: LaneId)
    requires Fresh(pos, chain, a, b, l, m) && Chained(chain, pos) && a !in ports && b !in ports &&
        FlyingCargo(net, ports, pos, transit, cargo, sent)
    ensures FlyingCargo(net, ports[a := NewPort(b)][b := NewPort(a)], pos[a := Pos(l, 0)][b := Pos(m, 0)], transit,
        cargo, sent[l := [NOTHING]][m := [NOTHING]])
  {
    hide Attached;
    forall j | j in net && net[j].User?
      ensures Attached(ports[a := NewPort(b)][b := NewPort(a)], pos[a := Pos(l, 0)][b := Pos(m, 0)], transit, cargo,
          sent[l := [NOTHING]][m := [NOTHING]], pos[net[j].to].lane, net[j].msg.num, pos[net[j].to].idx, net[j].msg)
    {
      CreateAttached(ports, sent, pos, transit, cargo, a, b, l, m, pos[net[j].to].lane, net[j].msg.num,
          pos[net[j].to].idx, net[j].msg);
    }
  }

  lemma CreateQueuedCargo(ports: Ports, chain: Chains, sent: Logs, pos: Positions, transit: Transits, cargo: Cargos,
      token: Tokens, a: Addr, b: Addr, l: LaneId, m: LaneId)
    requires Fresh(pos, chain, a, b, l, m) && Chained(chain, pos) && Known(ports, transit, cargo, token, pos) &&
        QueuedCargo(ports, pos, transit, cargo, sent)
    ensures QueuedCargo(ports[a := NewPort(b)][b := NewPort(a)], pos[a := Pos(l, 0)][b := Pos(m, 0)], transit,
        cargo, sent[l := [NOTHING]][m := [NOTHING]])
  {
    hide Attached, LandedPorts;
    var ports' := ports[a := NewPort(b)][b := NewPort(a)];
    forall c, j | c in ports' && j in ports'[c].queue.pending
      ensures c in pos && LandedPorts(c.node, ports', ports'[c].queue.pending[j])
      ensures Attached(ports', pos[a := Pos(l, 0)][b := Pos(m, 0)], transit, cargo,
          sent[l := [NOTHING]][m := [NOTHING]], pos[c].lane, j, pos[c].idx, ports'[c].queue.pending[j])
    {
      CreateAttached(ports, sent, pos, transit, cargo, a, b, l, m, pos[c].lane, j, pos[c].idx,
          ports[c].queue.pending[j]);
      CreateLanded(ports, sent, pos, transit, cargo, a, b, pos[c].lane, j, pos[c].idx, ports[c].queue.pending[j],
          c.node);
    }
  }

  lemma CreateLanded(ports: Ports, sent: Logs, pos: Positions, transit: Transits, cargo: Cargos, a: Addr, b: Addr,
      m: LaneId, k: nat, at: nat, msg: Message, node: nat)
    requires Attached(ports, pos, transit, cargo, sent, m, k, at, msg) && a !in pos && b !in pos &&
        LandedPorts(node, ports, msg)
    ensures LandedPorts(node, ports[a := NewPort(b)][b := NewPort(a)], msg)
  {
  }

  lemma CreateManifest(ports: Ports, net: Net, chain: Chains, place: Places, pos: Positions, cargo: Cargos, a: Addr,
      b: Addr, l: LaneId, m: LaneId)
    requires Fresh(pos, chain, a, b, l, m) && Manifest(net, ports, chain, cargo, place) && a !in ports &&
        b !in ports && a !in cargo && b !in cargo
    requires place.Keys == chain.Keys && Unheld(ports, cargo)
    ensures Manifest(net, ports[a := NewPort(b)][b := NewPort(a)], chain[l := [a]][m := [b]], cargo,
        place[l := [Read]][m := [Read]])
    ensures Unheld(ports[a := NewPort(b)][b := NewPort(a)], cargo)
  {
    forall c | c in cargo
      ensures Listed(net, ports[a := NewPort(b)][b := NewPort(a)], chain[l := [a]][m := [b]],
          place[l := [Read]][m := [Read]], c, cargo[c])
    {
      assert Listed(net, ports, chain, place, c, cargo[c]);
    }
  }

  lemma CreateAccepts(ports: Ports, net: Net, chain: Chains, pos: Positions, transit: Transits, token: Tokens,
      a: Addr, b: Addr, l: LaneId, m: LaneId)
    requires Fresh(pos, chain, a, b, l, m) && Chained(chain, pos) && a !in ports && b !in ports &&
        AcceptTokens(net, ports, transit, pos, chain, token)
    ensures AcceptTokens(net, ports[a := NewPort(b)][b := NewPort(a)], transit, pos[a := Pos(l, 0)][b := Pos(m, 0)],
        chain[l := [a]][m := [b]], token)
  {
  }

  lemma CreateEvents(net: Net, chain: Chains, routed: Nums, pos: Positions, token: Tokens, a: Addr, b: Addr,
      l: LaneId, m: LaneId)
    requires Fresh(pos, chain, a, b, l, m) && Announcements(net, pos, chain, token) &&
        Acks(net, pos, routed, token) && routed.Keys == chain.Keys
    ensures Announcements(net, pos[a := Pos(l, 0)][b := Pos(m, 0)], chain[l := [a]][m := [b]], token)
    ensures Acks(net, pos[a := Pos(l, 0)][b := Pos(m, 0)], routed[l := []][m := []], token)
  {
  }

  lemma CreateProxyTokens(ports: Ports, chain: Chains, pos: Positions, transit: Transits, token: Tokens, a: Addr,
      b: Addr, l: LaneId, m: LaneId)
    requires Fresh(pos, chain, a, b, l, m) && ProxyTokens(ports, transit, pos, chain, token) &&
        ParkedAcks(ports, token) && a !in token && b !in token
    ensures ProxyTokens(ports[a := NewPort(b)][b := NewPort(a)], transit, pos[a := Pos(l, 0)][b := Pos(m, 0)],
        chain[l := [a]][m := [b]], token)
    ensures ParkedAcks(ports[a := NewPort(b)][b := NewPort(a)], token)
  {
  }

  lemma CreateHeralds(ports: Ports, net: Net, chain: Chains, routed: Nums, closed: set<LaneId>, pos: Positions,
      transit: Transits, busy: set<Addr>, a: Addr, b: Addr, l: LaneId, m: LaneId)
    requires Fresh(pos, chain, a, b, l, m) && Heralds(net, ports, transit, chain, routed, closed, busy) &&
        Chained(chain, pos) && closed <= chain.Keys
    ensures Heralds(net, ports[a := NewPort(b)][b := NewPort(a)], transit, chain[l := [a]][m := [b]],
        routed[l := []][m := []], closed, busy)
  {
    hide HeraldLane, Chained;
    var ports', chain', routed' := ports[a := NewPort(b)][b := NewPort(a)], chain[l := [a]][m := [b]],
        routed[l := []][m := []];
    forall k | k in chain' && k !in closed && k.Other() in closed
      ensures k in chain && k != l && k != m
    {
      assert k.Other().Other() == k;
    }
    forall k | k in chain && k !in closed && k.Other() in closed
      ensures HeraldLane(net, ports', transit, chain', busy, k, |routed[k]|)
    {
      CreateHerald(ports, net, chain, pos, transit, busy, a, b, l, m, k, |routed[k]|);
    }
  }

  lemma CreateHerald(ports: Ports, net: Net, chain: Chains, pos: Positions, transit: Transits, busy: set<Addr>,
      a: Addr, b: Addr, l: LaneId, m: LaneId, k: LaneId, target: nat)
    requires Fresh(pos, chain, a, b, l, m) && Chained(chain, pos) && k in chain && target < |chain[k]|
    requires HeraldLane(net, ports, transit, chain, busy, k, target)
    ensures HeraldLane(net, ports[a := NewPort(b)][b := NewPort(a)], transit, chain[l := [a]][m := [b]], busy, k,
        target)
  {
    var ports', chain' := ports[a := NewPort(b)][b := NewPort(a)], chain[l := [a]][m := [b]];
    forall i | 0 <= i < |chain[k]|
      ensures Told(ports', transit, chain', k, i) == Told(ports, transit, chain, k, i) && chain[k][i] != a &&
          chain[k][i] != b
    {
      assert pos[chain[k][i]] == Pos(k, i);
    }
  }

  lemma KeysAgree(chain: Chains, nexts: Nums, routed: Nums, sent: Logs, place: Places, read: Logs,
      closed: set<LaneId>, name: nat)
    requires Lanes(chain, nexts, routed, sent, place, read, closed, name)
    ensures place.Keys == chain.Keys && routed.Keys == chain.Keys && nexts.Keys == chain.Keys && closed <= chain.Keys
  {
  }

  lemma CreateTrunk(s: State, node: nat)
    requires Core(s) && Heralding(s, {})
    ensures var t := CreatePortPair(s, node);
            Base(t) && Shape(t) && Counting(t) && Heralding(t, {})
  {
    hide Lanes, Chained, Named, Known, Ids, Receivers, Senders, Nexts, Ends, Travellers, Waiting, Targets, Numbers,
        Placement, Reading, Gone, Lasts, TravelLasts, Closures, Flights, Mail, Queues, Pending, FlyingCargo,
        QueuedCargo, Manifest, Unheld, AcceptTokens, Announcements, Acks, ParkedAcks, ProxyTokens, Heralds;
    var a, b := Addr(node, s.nextName), Addr(node, s.nextName + 1);
    var l, m := LaneId(s.nextName, false), LaneId(s.nextName, true);
    CreateFresh(s.h.chain, s.h.nexts, s.h.routed, s.h.sent, s.h.place, s.h.read, s.h.closed, s.h.pos, s.nextName, a,
        b, l, m);
    KeysAgree(s.h.chain, s.h.nexts, s.h.routed, s.h.sent, s.h.place, s.h.read, s.h.closed, s.nextName);
    CreateLanes(s.h.chain, s.h.nexts, s.h.routed, s.h.sent, s.h.place, s.h.read, s.h.closed, s.nextName, a, b, l, m);
    CreateChained(s.h.chain, s.h.pos, a, b, l, m);
    CreateNamed(s.h.pos, s.nextName, a, b, l, m);
    CreateKnown(s.ports, s.h.pos, s.h.transit, s.h.cargo, s.h.token, a, b, l, m);
    CreateReceivers(s.ports, s.h.chain, s.h.routed, s.h.sent, s.h.closed, s.h.pos, a, b, l, m);
    CreateSenders(s.ports, s.h.chain, s.h.pos, a, b, l, m);
    CreateNexts(s.ports, s.h.chain, s.h.nexts, s.h.pos, a, b, l, m);
    CreateEnds(s.ports, s.h.chain, s.h.closed, s.h.pos, s.h.transit, a, b, l, m);
    CreateTravellers(s.ports, s.h.chain, s.h.nexts, s.h.routed, s.h.sent, s.h.closed, s.h.pos, s.h.transit,
        s.h.cargo, s.h.token, a, b, l, m);
    CreateWaiting(s.ports, s.h.chain, s.h.pos, s.h.transit, s.h.token, a, b, l, m);
    CreateTargets(s.h.chain, s.h.routed, s.h.transit, a, b, l, m);
    CreateNumbers(s.h.chain, s.h.nexts, s.h.routed, s.h.sent, a, b, l, m);
    CreatePlacement(s.h.chain, s.h.nexts, s.h.routed, s.h.sent, s.h.place, s.h.pos, s.h.transit, a, b, l, m);
    CreateReading(s.h.chain, s.h.nexts, s.h.sent, s.h.place, s.h.read, s.h.closed, a, b, l, m);
    CreateHeralds(s.ports, s.net, s.h.chain, s.h.routed, s.h.closed, s.h.pos, s.h.transit, {}, a, b, l, m);
  }

  lemma CreateRest(s: State, node: nat)
    requires Core(s)
    ensures var t := CreatePortPair(s, node);
            Ending(t) && Posting(t) && Carrying(t) && Tokening(t)
  {
    hide Lanes, Chained, Named, Known, Ids, Receivers, Senders, Nexts, Ends, Travellers, Waiting, Targets, Numbers,
        Placement, Reading, Gone, Lasts, TravelLasts, Closures, Flights, Mail, Queues, Pending, FlyingCargo,
        QueuedCargo, Manifest, Unheld, AcceptTokens, Announcements, Acks, ParkedAcks, ProxyTokens, Heralds;
    var a, b := Addr(node, s.nextName), Addr(node, s.nextName + 1);
    var l, m := LaneId(s.nextName, false), LaneId(s.nextName, true);
    CreateFresh(s.h.chain, s.h.nexts, s.h.routed, s.h.sent, s.h.place, s.h.read, s.h.closed, s.h.pos, s.nextName, a,
        b, l, m);
    KeysAgree(s.h.chain, s.h.nexts, s.h.routed, s.h.sent, s.h.place, s.h.read, s.h.closed, s.nextName);
    CreateKnown(s.ports, s.h.pos, s.h.transit, s.h.cargo, s.h.token, a, b, l, m);
    CreateGone(s.ports, s.h.chain, s.h.nexts, s.h.routed, s.h.sent, s.h.closed, s.h.pos, s.h.transit, a, b, l, m);
    CreateLasts(s.ports, s.h.chain, s.h.routed, s.h.sent, s.h.closed, s.h.pos, s.h.transit, a, b, l, m);
    CreateTravelLasts(s.ports, s.net, s.h.chain, s.h.routed, s.h.sent, s.h.closed, s.h.pos, s.h.transit, s.h.cargo,
        s.h.token, a, b, l, m);
    CreateFlights(s.net, s.h.chain, s.h.sent, s.h.place, s.h.pos, a, b, l, m);
    CreateQueues(s.ports, s.h.chain, s.h.sent, s.h.place, s.h.pos, a, b, l, m);
    CreatePending(s.ports, s.h.chain, s.h.place, s.h.pos, a, b, l, m);
    CreateFlyingCargo(s.ports, s.net, s.h.chain, s.h.sent, s.h.pos, s.h.transit, s.h.cargo, a, b, l, m);
    CreateQueuedCargo(s.ports, s.h.chain, s.h.sent, s.h.pos, s.h.transit, s.h.cargo, s.h.token, a, b, l, m);
    CreateManifest(s.ports, s.net, s.h.chain, s.h.place, s.h.pos, s.h.cargo, a, b, l, m);
    CreateAccepts(s.ports, s.net, s.h.chain, s.h.pos, s.h.transit, s.h.token, a, b, l, m);
    CreateEvents(s.net, s.h.chain, s.h.routed, s.h.pos, s.h.token, a, b, l, m);
    CreateProxyTokens(s.ports, s.h.chain, s.h.pos, s.h.transit, s.h.token, a, b, l, m);
  }
}
