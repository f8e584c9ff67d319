/** What holds between handlers besides the core invariant: the ports inside a message in flight
 are still to land, those inside a queued message have landed, a proxy has passed on all it
 can, and a port that nobody holds is inside a message. */
module PortSettled {
  import opened PortState
  import opened PortSteps
  import opened PortInvariant

  /** The ports of messages in flight, except those being delivered, are on their way. */
  ghost predicate Away(net: Net, transit: Transits, ids: set<nat>) {
    forall id, i :: id in net && id !in ids && net[id].User? && 0 <= i < |net[id].msg.ports| ==>
                      net[id].msg.ports[i] in transit
  }

  predicate AllHere(ports: Ports, bs: seq<Addr>) {
    forall i :: 0 <= i < |bs| ==> bs[i] in ports
  }

  /** The ports of queued messages, except those being forwarded, have landed. */
  ghost predicate Here(ports: Ports, skip: set<(Addr, nat)>) {
    forall a, k :: a in ports && k in ports[a].queue.pending && (a, k) !in skip ==>
                     AllHere(ports, ports[a].queue.pending[k].ports)
  }

  ghost predicate Drained(ports: Ports, busy: set<Addr>) {
    forall a :: a in ports && ports[a].mode.Proxying? && a !in busy ==> !HasNext(ports[a])
  }

  ghost predicate Loaded(transit: Transits, cargo: Cargos, todo: set<Addr>) {
    forall b :: b in transit ==> b in cargo || b in todo
  }

  ghost predicate Claimed(ports: Ports, cargo: Cargos, todo: set<Addr>) {
    forall a :: a in ports && ports[a].mode.Receiving? && !ports[a].signalable ==> a in cargo || a in todo
  }

  /** The sets say what the running handler still has in hand: messages being delivered or
      forwarded, the proxy being drained, and ports not yet put in or taken out of a message. */
  ghost predicate Settling(s: State, ids: set<nat>, skip: set<(Addr, nat)>, busy: set<Addr>, todo: set<Addr>) {
    Away(s.net, s.h.transit, ids) && Here(s.ports, skip) && Drained(s.ports, busy) &&
    Loaded(s.h.transit, s.h.cargo, todo) && Claimed(s.ports, s.h.cargo, todo)
  }

  ghost predicate Settled(s: State) { Settling(s, {}, {}, {}, {}) }

  /** The invariant of every reachable state. */
  ghost predicate Inv(s: State) { Core(s) && Heralding(s, {}) && Settled(s) }

  // ----- Steps that move no message and no port -----

  predicate SameUser(net: Net, net': Net) {
    forall id :: id in net' && net'[id].User? ==> id in net && net[id] == net'[id]
  }

  /** As far as settling is concerned, a port did not change. */
  predicate Quiet(p: Port, q: Port) {
    p.queue == q.queue && p.mode == q.mode && p.signalable == q.signalable
  }

  lemma QuietSettles(s: State, t: State, ids: set<nat>, skip: set<(Addr, nat)>, busy: set<Addr>, todo: set<Addr>)
    requires Settling(s, ids, skip, busy, todo) && SameUser(s.net, t.net)
    requires t.h.transit == s.h.transit && t.h.cargo == s.h.cargo && t.ports.Keys == s.ports.Keys
    requires forall a :: a in s.ports ==> Quiet(s.ports[a], t.ports[a])
    ensures Settling(t, ids, skip, busy, todo)
  {
  }

  /** A port that is in no message is erased. */
  lemma GoneSettles(ports: Ports, sent: Logs, pos: Positions, transit: Transits, cargo: Cargos, busy: set<Addr>,
      x: Addr, skip: set<(Addr, nat)>, todo: set<Addr>)
    requires x in ports && x !in cargo && QueuedCargo(ports, pos, transit, cargo, sent) && Here(ports, skip) &&
        Drained(ports, busy)
    requires Claimed(ports, cargo, todo)
    ensures Here(ports - {x}, skip) && Drained(ports - {x}, busy) && Claimed(ports - {x}, cargo, todo)
  {
    forall a, k | a in ports - {x} && k in ports[a].queue.pending && (a, k) !in skip
      ensures AllHere(ports - {x}, ports[a].queue.pending[k].ports)
    {
      assert Attached(ports, pos, transit, cargo, sent, pos[a].lane, k, pos[a].idx, ports[a].queue.pending[k]);
      assert AllHere(ports, ports[a].queue.pending[k].ports);
    }
  }

  lemma NotCargo(ports: Ports, cargo: Cargos, x: Addr)
    requires x in ports && !ports[x].mode.Receiving? && Unheld(ports, cargo)
    ensures x !in cargo
  {
  }

  // ----- Tracked -----

  lemma TrackedPort(chain: Chains, nexts: Nums, routed: Nums, sent: Logs, place: Places, read: Logs,
      closed: set<LaneId>, pos: Positions, name: nat, a: Addr)
    requires a in pos && Lanes(chain, nexts, routed, sent, place, read, closed, name) && Chained(chain, pos)
    ensures a in pos && pos[a].lane in chain && pos[a].lane.Other() in chain && pos[a].idx < |chain[pos[a].lane]|
    ensures pos[a].lane in nexts && pos[a].lane in routed && pos[a].lane in sent && pos[a].lane in place &&
        pos[a].lane in read
    ensures |nexts[pos[a].lane]| == |chain[pos[a].lane]| && |place[pos[a].lane]| == |sent[pos[a].lane]|
  {
  }

  lemma IsTracked(s: State, a: Addr)
    requires Base(s) && a in s.h.pos
    ensures Tracked(s.h, a)
  {
    hide Lanes, Chained, Named, Known, Ids, Receivers, Senders, Nexts, Ends, Travellers, Waiting, Targets, Numbers,
        Placement, Reading, Gone, Lasts, TravelLasts, Closures, Flights, Mail, Queues, Pending, FlyingCargo,
        QueuedCargo, Manifest, Unheld, AcceptTokens, Announcements, Acks, ParkedAcks, ProxyTokens, Heralds;
    TrackedPort(s.h.chain, s.h.nexts, s.h.routed, s.h.sent, s.h.place, s.h.read, s.h.closed, s.h.pos, s.nextName, a);
    LanesOther(s, s.h.pos[a].lane);
    LanesOther(s, s.h.pos[a].lane.Other());
  }

  lemma LanesOther(s: State, l: LaneId)
    requires Base(s) && l in s.h.chain
    ensures TrackedLane(s.h, l) && l.Other() in s.h.chain
  {
  }
}
