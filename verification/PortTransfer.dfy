/** Sending a port away, and accepting it where it arrives. */
module PortTransfer {
  import opened PortState
  import opened PortSteps
  import opened PortInvariant

  // ----- WillSendPort -----

  /** Port a, the receiving end of lane l, is replaced by q and followed by b. */
  predicate Leaves(ports: Ports, pos: Positions, a: Addr, q: Port, l: LaneId, b: Addr) {
    a in ports && ports[a].mode.Receiving? && a in pos && pos[a].lane == l && b !in pos &&
    q == ports[a].(mode := Buffering, peer := b, removeOnLast := ports[a].removeOnLast || ports[a].peerClosed)
  }

  function Longer(chain: Chains, l: LaneId, b: Addr): Chains
    requires l in chain
  {
    chain[l := chain[l] + [b]]
  }

  function LongerNums(nums: Nums, l: LaneId, n: nat): Nums
    requires l in nums
  {
    nums[l := nums[l] + [n]]
  }

  function Followed(chain: Chains, pos: Positions, l: LaneId, b: Addr): Positions
    requires l in chain
  {
    pos[b := Pos(l, |chain[l]|)]
  }

  lemma LeaveLanes(chain: Chains, nexts: Nums, routed: Nums, sent: Logs, place: Places, read: Logs,
      closed: set<LaneId>, name: nat, l: LaneId, b: Addr, n: nat)
    requires Lanes(chain, nexts, routed, sent, place, read, closed, name) && l in chain
    ensures Lanes(Longer(chain, l, b), LongerNums(nexts, l, n), routed, sent, place, read, closed, name + 1)
  {
  }

  lemma LeaveNamed(chain: Chains, pos: Positions, name: nat, l: LaneId, b: Addr)
    requires Chained(chain, pos) && Named(pos, name) && l in chain && b.name == name
    ensures b !in pos
    ensures Chained(Longer(chain, l, b), Followed(chain, pos, l, b))
    ensures Named(Followed(chain, pos, l, b), name + 1)
  {
  }

  lemma LeaveKnown(ports: Ports, chain: Chains, pos: Positions, transit: Transits, cargo: Cargos, token: Tokens,
      a: Addr, q: Port, l: LaneId, b: Addr, d: Descriptor)
    requires Known(ports, transit, cargo, token, pos) && l in chain && Leaves(ports, pos, a, q, l, b)
    ensures Known(ports[a := q], transit[b := d], cargo, token, Followed(chain, pos, l, b))
  {
    assert ports[a := q].Keys == ports.Keys;
    assert transit[b := d].Keys == transit.Keys + {b};
    assert Followed(chain, pos, l, b).Keys == pos.Keys + {b};
  }

  lemma LeaveReceivers(ports: Ports, chain: Chains, routed: Nums, sent: Logs, closed: set<LaneId>, pos: Positions,
      a: Addr, q: Port, l: LaneId, b: Addr)
    requires Leaves(ports, pos, a, q, l, b) && l in chain && Chained(chain, pos) && Receivers(ports, pos, chain,
        routed, sent, closed)
    ensures Receivers(ports[a := q], Followed(chain, pos, l, b), Longer(chain, l, b), routed, sent, closed)
  {
  }

  lemma LeaveSenders(ports: Ports, chain: Chains, pos: Positions, a: Addr, q: Port, l: LaneId, b: Addr)
    requires Leaves(ports, pos, a, q, l, b) && l in chain && pos[a].idx + 1 == |chain[l]| &&
        Senders(ports, pos, chain)
    ensures Senders(ports[a := q], Followed(chain, pos, l, b), Longer(chain, l, b))
  {
  }

  lemma LeaveNexts(ports: Ports, chain: Chains, nexts: Nums, pos: Positions, a: Addr, q: Port, l: LaneId, b: Addr)
    requires Leaves(ports, pos, a, q, l, b) && l in chain && l in nexts && Nexts(ports, pos, nexts) &&
        |chain[l]| == |nexts[l]|
    ensures Nexts(ports[a := q], Followed(chain, pos, l, b), LongerNums(nexts, l, q.queue.next))
  {
  }

  lemma LeaveEnds(ports: Ports, chain: Chains, closed: set<LaneId>, pos: Positions, transit: Transits,
      cargo: Cargos, token: Tokens, a: Addr, q: Port, l: LaneId, b: Addr, d: Descriptor)
    requires Leaves(ports, pos, a, q, l, b) && l in chain && Chained(chain, pos) && Ends(ports, transit, chain,
        closed) && Known(ports, transit, cargo, token, pos) && l !in closed
    ensures Ends(ports[a := q], transit[b := d], Longer(chain, l, b), closed)
  {
  }

  lemma LeaveWaiting(ports: Ports, chain: Chains, pos: Positions, transit: Transits, token: Tokens, a: Addr,
      q: Port, l: LaneId, b: Addr, d: Descriptor)
    requires Leaves(ports, pos, a, q, l, b) && l in chain && pos[a].idx + 1 == |chain[l]| &&
        Chained(chain, pos) && Waiting(ports, pos, chain, transit, token)
    ensures Waiting(ports[a := q], Followed(chain, pos, l, b), Longer(chain, l, b), transit[b := d], token)
  {
  }

  lemma LeaveTargets(chain: Chains, routed: Nums, pos: Positions, transit: Transits, l: LaneId, b: Addr,
      d: Descriptor)
    requires b !in pos && l in chain && Chained(chain, pos) && Targets(transit, chain, routed)
    ensures Targets(transit[b := d], Longer(chain, l, b), routed)
  {
  }

  lemma LeaveTravellers(ports: Ports, chain: Chains, nexts: Nums, routed: Nums, sent: Logs, closed: set<LaneId>,
      pos: Positions, transit: Transits, cargo: Cargos, token: Tokens, a: Addr, q: Port, l: LaneId, b: Addr)
    requires Leaves(ports, pos, a, q, l, b) && l in chain && l in nexts && |nexts[l]| == |chain[l]| && a !in token
    requires Known(ports, transit, cargo, token, pos) && Chained(chain, pos) && Receivers(ports, pos, chain, routed,
        sent, closed) && Travellers(ports, transit, pos, chain, nexts, routed, sent, closed, token)
    ensures Travellers(ports[a := q], transit[b := DescriptorOf(a, ports[a])], Followed(chain, pos, l, b),
        Longer(chain, l, b), LongerNums(nexts, l, q.queue.next), routed, sent, closed, token)
  {
    forall b' | b' in transit
      ensures Travels(ports[a := q], Followed(chain, pos, l, b), Longer(chain, l, b), LongerNums(nexts, l,
          q.queue.next), routed, sent, closed, token, b', transit[b'])
    {
      assert Travels(ports, pos, chain, nexts, routed, sent, closed, token, b', transit[b']);
    }
    assert Receives(pos, chain, routed, sent, closed, a, ports[a]);
    var m := l.Other();
    assert m != l;
  }

  lemma LeaveNumbers(chain: Chains, nexts: Nums, routed: Nums, sent: Logs, l: LaneId, b: Addr)
    requires Numbers(chain, nexts, routed, sent) && l in chain && |chain[l]| >= 1
    ensures Numbers(Longer(chain, l, b), LongerNums(nexts, l, nexts[l][|chain[l]| - 1]), routed, sent)
  {
    var n := nexts[l] + [nexts[l][|chain[l]| - 1]];
    assert LaneNumbers(|chain[l]|, nexts[l], routed[l], |sent[l]|);
    assert Limit(routed[l], |sent[l]|, |chain[l]|) == |sent[l]|;
    assert Limit(routed[l], |sent[l]|, |chain[l]| - 1) <= |sent[l]|;
    assert LaneNumbers(|chain[l]| + 1, n, routed[l], |sent[l]|);
  }

  lemma LeavePlacement(chain: Chains, nexts: Nums, routed: Nums, sent: Logs, place: Places, pos: Positions,
      transit: Transits, l: LaneId, b: Addr, d: Descriptor, n: nat)
    requires Placement(chain, nexts, routed, sent, place, transit) && Chained(chain, pos) && l in chain &&
        l in nexts && b !in pos
    ensures Placement(Longer(chain, l, b), LongerNums(nexts, l, n), routed, sent, place, transit[b := d])
  {
    forall m, k | m in place && 0 <= k < |place[m]| && place[m][k].Placed()
      ensures PlacedWell(LongerNums(nexts, l, n)[m], routed[m], |sent[m]|, k, place[m][k].at)
    {
      assert PlacedWell(nexts[m], routed[m], |sent[m]|, k, place[m][k].at);
    }
  }

  lemma LeaveReading(chain: Chains, nexts: Nums, sent: Logs, place: Places, read: Logs, closed: set<LaneId>,
      l: LaneId, b: Addr)
    requires Reading(chain, nexts, sent, place, read, closed) && l in chain
    ensures Reading(Longer(chain, l, b), LongerNums(nexts, l, nexts[l][|chain[l]| - 1]), sent, place, read, closed)
  {
  }

  lemma LeaveSilent(ports: Ports, chain: Chains, closed: set<LaneId>, pos: Positions, transit: Transits,
      cargo: Cargos, token: Tokens, a: Addr, q: Port, l: LaneId, b: Addr, d: Descriptor)
    requires Leaves(ports, pos, a, q, l, b) && l in chain && pos[a].idx + 1 == |chain[l]| &&
        Chained(chain, pos) && Known(ports, transit, cargo, token, pos)
    requires d.peerClosed == ports[a].peerClosed
    ensures forall m :: EndKnows(ports, transit, chain, m) == EndKnows(ports[a := q], transit[b := d], Longer(chain,
        l, b), m)
    ensures forall m :: Silent(ports, transit, chain, closed, m) == Silent(ports[a := q], transit[b := d],
        Longer(chain, l, b), closed, m)
  {
    assert EndOf(chain, l) == a;
    forall m
      ensures EndKnows(ports, transit, chain, m) == EndKnows(ports[a := q], transit[b := d], Longer(chain, l, b), m)
    {
      if m in chain && m != l && |chain[m]| >= 1 {
        assert pos[EndOf(chain, m)].lane == m;
        assert EndOf(Longer(chain, l, b), m) == EndOf(chain, m);
      }
    }
  }

  lemma LeaveGone(ports: Ports, chain: Chains, nexts: Nums, routed: Nums, sent: Logs, closed: set<LaneId>,
      pos: Positions, transit: Transits, cargo: Cargos, token: Tokens, a: Addr, q: Port, l: LaneId, b: Addr,
      d: Descriptor, n: nat)
    requires Leaves(ports, pos, a, q, l, b) && l in chain && l in nexts && pos[a].idx + 1 == |chain[l]| &&
        Chained(chain, pos) && Known(ports, transit, cargo, token, pos)
    requires d.peerClosed == ports[a].peerClosed && Gone(ports, transit, chain, nexts, routed, sent, closed)
    ensures Gone(ports[a := q], transit[b := d], Longer(chain, l, b), LongerNums(nexts, l, n), routed, sent, closed)
  {
    LeaveSilent(ports, chain, closed, pos, transit, cargo, token, a, q, l, b, d);
  }

  lemma LeaveLasts(ports: Ports, chain: Chains, routed: Nums, sent: Logs, closed: set<LaneId>, pos: Positions,
      transit: Transits, cargo: Cargos, token: Tokens, a: Addr, q: Port, l: LaneId, b: Addr, d: Descriptor)
    requires Leaves(ports, pos, a, q, l, b) && l in chain && pos[a].idx + 1 == |chain[l]| &&
        Chained(chain, pos) && Known(ports, transit, cargo, token, pos)
    requires d.peerClosed == ports[a].peerClosed && Lasts(ports, transit, pos, chain, routed, sent, closed) &&
        Receivers(ports, pos, chain, routed, sent, closed)
    ensures Lasts(ports[a := q], transit[b := d], Followed(chain, pos, l, b), Longer(chain, l, b), routed, sent,
        closed)
  {
    LeaveSilent(ports, chain, closed, pos, transit, cargo, token, a, q, l, b, d);
  }

  lemma LeaveTravelLasts(ports: Ports, net: Net, chain: Chains, routed: Nums, sent: Logs, closed: set<LaneId>,
      pos: Positions, transit: Transits, cargo: Cargos, token: Tokens, a: Addr, q: Port, l: LaneId, b: Addr)
    requires Leaves(ports, pos, a, q, l, b) && l in chain && pos[a].idx + 1 == |chain[l]| &&
        Chained(chain, pos) && Known(ports, transit, cargo, token, pos)
    requires Lasts(ports, transit, pos, chain, routed, sent, closed) && TravelLasts(ports, transit, pos, chain,
        sent, closed) && Closures(net, ports, transit, pos, chain, routed, sent, closed)
    ensures TravelLasts(ports[a := q], transit[b := DescriptorOf(a, ports[a])], Followed(chain, pos, l, b),
        Longer(chain, l, b), sent, closed)
    ensures Closures(net, ports[a := q], transit[b := DescriptorOf(a, ports[a])], Followed(chain, pos, l, b),
        Longer(chain, l, b), routed, sent, closed)
  {
    LeaveSilent(ports, chain, closed, pos, transit, cargo, token, a, q, l, b, DescriptorOf(a, ports[a]));
  }

  lemma LeavePosting(ports: Ports, net: Net, chain: Chains, sent: Logs, place: Places, pos: Positions, a: Addr,
      q: Port, l: LaneId, b: Addr)
    requires Leaves(ports, pos, a, q, l, b) && l in chain && Flights(net, chain, sent, place) &&
        Mail(net, pos, place) && Pending(ports, pos, place)
    ensures Flights(net, Longer(chain, l, b), sent, place) && Mail(net, Followed(chain, pos, l, b), place)
    ensures Pending(ports[a := q], Followed(chain, pos, l, b), place)
  {
  }

  lemma LeaveQueues(ports: Ports, chain: Chains, sent: Logs, place: Places, pos: Positions, a: Addr, q: Port,
      l: LaneId, b: Addr)
    requires Leaves(ports, pos, a, q, l, b) && l in chain && Queues(ports, chain, sent, place)
    ensures Queues(ports[a := q], Longer(chain, l, b), sent, place)
  {
  }

  lemma LeaveAccepts(ports: Ports, net: Net, chain: Chains, pos: Positions, transit: Transits, token: Tokens,
      a: Addr, q: Port, l: LaneId, b: Addr, d: Descriptor)
    requires Leaves(ports, pos, a, q, l, b) && l in chain && Chained(chain, pos) &&
        AcceptTokens(net, ports, transit, pos, chain, token)
    ensures AcceptTokens(net, ports[a := q], transit[b := d], Followed(chain, pos, l, b), Longer(chain, l, b), token)
  {
  }

  lemma LeaveTokens(ports: Ports, net: Net, chain: Chains, routed: Nums, sent: Logs, closed: set<LaneId>,
      pos: Positions, token: Tokens, a: Addr, q: Port, l: LaneId, b: Addr)
    requires Leaves(ports, pos, a, q, l, b) && l in chain && Chained(chain, pos) && Announcements(net, pos, chain,
        token) && Acks(net, pos, routed, token) && ParkedAcks(ports, token) && Receivers(ports, pos, chain, routed,
        sent, closed)
    ensures Announcements(net, Followed(chain, pos, l, b), Longer(chain, l, b), token)
    ensures Acks(net, Followed(chain, pos, l, b), routed, token) && ParkedAcks(ports[a := q], token)
  {
  }

  lemma LeaveProxyTokens(ports: Ports, chain: Chains, pos: Positions, transit: Transits, token: Tokens, a: Addr,
      q: Port, l: LaneId, b: Addr, d: Descriptor)
    requires Leaves(ports, pos, a, q, l, b) && l in chain && Chained(chain, pos) && ProxyTokens(ports, transit, pos,
        chain, token)
    ensures ProxyTokens(ports[a := q], transit[b := d], Followed(chain, pos, l, b), Longer(chain, l, b), token)
  {
  }

  /** A receiving port owes nobody anything. */
  lemma EndHasNoToken(ports: Ports, net: Net, chain: Chains, pos: Positions, transit: Transits, token: Tokens,
      a: Addr)
    requires a in ports && ports[a].mode.Receiving? && AcceptTokens(net, ports, transit, pos, chain, token) &&
        ProxyTokens(ports, transit, pos, chain, token)
    ensures a !in token
  {
  }

  lemma LeaveHeralds(ports: Ports, net: Net, chain: Chains, routed: Nums, sent: Logs, closed: set<LaneId>,
      pos: Positions, transit: Transits, cargo: Cargos, token: Tokens, busy: set<Addr>, a: Addr, q: Port, l: LaneId,
      b: Addr, d: Descriptor)
    requires Leaves(ports, pos, a, q, l, b) && l in chain && pos[a].idx + 1 == |chain[l]| &&
        Chained(chain, pos) && Known(ports, transit, cargo, token, pos)
    requires d.peerClosed == ports[a].peerClosed && Heralds(net, ports, transit, chain, routed, closed, busy) &&
        Receivers(ports, pos, chain, routed, sent, closed)
    ensures Heralds(net, ports[a := q], transit[b := d], Longer(chain, l, b), routed, closed, busy)
  {
    LeaveSilent(ports, chain, closed, pos, transit, cargo, token, a, q, l, b, d);
    var ports', chain', transit' := ports[a := q], Longer(chain, l, b), transit[b := d];
    forall m | m in chain && m !in closed && m.Other() in closed
      ensures HeraldLane(net, ports', transit', chain', busy, m, |routed[m]|)
    {
      assert HeraldLane(net, ports, transit, chain, busy, m, |routed[m]|);
      forall i | 0 <= i < |chain[m]|
        ensures Told(ports', transit', chain', m, i) == Told(ports, transit, chain, m, i)
      {
        assert pos[chain[m][i]] == Pos(m, i);
      }
    }
  }

  /** The attached ports are others. */
  lemma LeaveCargo(ports: Ports, net: Net, chain: Chains, sent: Logs, pos: Positions, transit: Transits,
      cargo: Cargos, token: Tokens, a: Addr, q: Port, l: LaneId, b: Addr, d: Descriptor)
    requires Leaves(ports, pos, a, q, l, b) && l in chain && Known(ports, transit, cargo, token, pos) && a !in cargo
    requires FlyingCargo(net, ports, pos, transit, cargo, sent) && Unheld(ports, cargo)
    ensures FlyingCargo(net, ports[a := q], Followed(chain, pos, l, b), transit[b := d], cargo, sent)
    ensures Unheld(ports[a := q], cargo)
  {
  }

  lemma LeaveQueuedCargo(ports: Ports, chain: Chains, sent: Logs, pos: Positions, transit: Transits, cargo: Cargos,
      token: Tokens, a: Addr, q: Port, l: LaneId, b: Addr, d: Descriptor)
    requires Leaves(ports, pos, a, q, l, b) && l in chain && Known(ports, transit, cargo, token, pos) && a !in cargo
    requires QueuedCargo(ports, pos, transit, cargo, sent)
    ensures QueuedCargo(ports[a := q], Followed(chain, pos, l, b), transit[b := d], cargo, sent)
  {
  }

  lemma LeaveManifest(ports: Ports, net: Net, chain: Chains, place: Places, pos: Positions, cargo: Cargos, a: Addr,
      q: Port, l: LaneId, b: Addr)
    requires Leaves(ports, pos, a, q, l, b) && l in chain && Manifest(net, ports, chain, cargo, place)
    ensures Manifest(net, ports[a := q], Longer(chain, l, b), cargo, place)
  {
  }

  lemma EndFacts(ports: Ports, chain: Chains, nexts: Nums, routed: Nums, sent: Logs, place: Places, read: Logs,
      closed: set<LaneId>, pos: Positions, name: nat, a: Addr)
    requires a in ports && ports[a].mode.Receiving? && Receivers(ports, pos, chain, routed, sent, closed) &&
        Nexts(ports, pos, nexts) && Lanes(chain, nexts, routed, sent, place, read, closed, name)
    ensures a in pos && var l := pos[a].lane;
                        l in chain && l in nexts && pos[a].idx + 1 == |chain[l]| == |nexts[l]| && l !in closed &&
                        ports[a].queue.next == nexts[l][|chain[l]| - 1]
  {
  }

  lemma LeaveBase(s: State, a: Addr, node: nat)
    requires Base(s) && Shape(s) && SendablePort(s, a)
    ensures Base(WillSendPort(s, a, node))
  {
    hide Lanes, Chained, Named, Known, Ids, Receivers, Senders, Nexts, Ends, Travellers, Waiting, Targets, Numbers,
        Placement, Reading, Gone, Lasts, TravelLasts, Closures, Flights, Mail, Queues, Pending, FlyingCargo,
        QueuedCargo, Manifest, Unheld, AcceptTokens, Announcements, Acks, ParkedAcks, ProxyTokens, Heralds;
    var t, l, b := WillSendPort(s, a, node), s.h.pos[a].lane, Addr(node, s.nextName);
    var q, d := t.ports[a], DescriptorOf(a, s.ports[a]);
    EndFacts(s.ports, s.h.chain, s.h.nexts, s.h.routed, s.h.sent, s.h.place, s.h.read, s.h.closed, s.h.pos,
        s.nextName, a);
    LeaveNamed(s.h.chain, s.h.pos, s.nextName, l, b);
    LeaveLanes(s.h.chain, s.h.nexts, s.h.routed, s.h.sent, s.h.place, s.h.read, s.h.closed, s.nextName, l, b,
        q.queue.next);
    LeaveKnown(s.ports, s.h.chain, s.h.pos, s.h.transit, s.h.cargo, s.h.token, a, q, l, b, d);
  }

  lemma LeaveShape(s: State, a: Addr, node: nat)
    requires Base(s) && Shape(s) && Tokening(s) && SendablePort(s, a)
    ensures Shape(WillSendPort(s, a, node))
  {
    hide Lanes, Chained, Named, Known, Ids, Receivers, Senders, Nexts, Ends, Travellers, Waiting, Targets, Numbers,
        Placement, Reading, Gone, Lasts, TravelLasts, Closures, Flights, Mail, Queues, Pending, FlyingCargo,
        QueuedCargo, Manifest, Unheld, AcceptTokens, Announcements, Acks, ParkedAcks, ProxyTokens, Heralds;
    var t, l, b := WillSendPort(s, a, node), s.h.pos[a].lane, Addr(node, s.nextName);
    var q, d := t.ports[a], DescriptorOf(a, s.ports[a]);
    EndFacts(s.ports, s.h.chain, s.h.nexts, s.h.routed, s.h.sent, s.h.place, s.h.read, s.h.closed, s.h.pos,
        s.nextName, a);
    LeaveNamed(s.h.chain, s.h.pos, s.nextName, l, b);
    EndHasNoToken(s.ports, s.net, s.h.chain, s.h.pos, s.h.transit, s.h.token, a);
    LeaveReceivers(s.ports, s.h.chain, s.h.routed, s.h.sent, s.h.closed, s.h.pos, a, q, l, b);
    LeaveSenders(s.ports, s.h.chain, s.h.pos, a, q, l, b);
    LeaveNexts(s.ports, s.h.chain, s.h.nexts, s.h.pos, a, q, l, b);
    LeaveEnds(s.ports, s.h.chain, s.h.closed, s.h.pos, s.h.transit, s.h.cargo, s.h.token, a, q, l, b, d);
    LeaveWaiting(s.ports, s.h.chain, s.h.pos, s.h.transit, s.h.token, a, q, l, b, d);
    LeaveTargets(s.h.chain, s.h.routed, s.h.pos, s.h.transit, l, b, d);
    LeaveTravellers(s.ports, s.h.chain, s.h.nexts, s.h.routed, s.h.sent, s.h.closed, s.h.pos, s.h.transit,
        s.h.cargo, s.h.token, a, q, l, b);
  }

  lemma LeaveCounts(s: State, a: Addr, node: nat, busy: set<Addr>)
    requires Base(s) && Shape(s) && Counting(s) && Ending(s) && Posting(s) && Heralding(s, busy) && SendablePort(s, a)
    ensures var t := WillSendPort(s, a, node);
            Counting(t) && Ending(t) && Posting(t) && Heralding(t, busy)
  {
    hide Lanes, Chained, Named, Known, Ids, Receivers, Senders, Nexts, Ends, Travellers, Waiting, Targets, Numbers,
        Placement, Reading, Gone, Lasts, TravelLasts, Closures, Flights, Mail, Queues, Pending, FlyingCargo,
        QueuedCargo, Manifest, Unheld, AcceptTokens, Announcements, Acks, ParkedAcks, ProxyTokens, Heralds;
    var t, l, b := WillSendPort(s, a, node), s.h.pos[a].lane, Addr(node, s.nextName);
    var q, d := t.ports[a], DescriptorOf(a, s.ports[a]);
    EndFacts(s.ports, s.h.chain, s.h.nexts, s.h.routed, s.h.sent, s.h.place, s.h.read, s.h.closed, s.h.pos,
        s.nextName, a);
    LeaveNamed(s.h.chain, s.h.pos, s.nextName, l, b);
    LeaveNumbers(s.h.chain, s.h.nexts, s.h.routed, s.h.sent, l, b);
    LeavePlacement(s.h.chain, s.h.nexts, s.h.routed, s.h.sent, s.h.place, s.h.pos, s.h.transit, l, b, d,
        q.queue.next);
    LeaveReading(s.h.chain, s.h.nexts, s.h.sent, s.h.place, s.h.read, s.h.closed, l, b);
    LeaveGone(s.ports, s.h.chain, s.h.nexts, s.h.routed, s.h.sent, s.h.closed, s.h.pos, s.h.transit, s.h.cargo,
        s.h.token, a, q, l, b, d, q.queue.next);
    LeaveLasts(s.ports, s.h.chain, s.h.routed, s.h.sent, s.h.closed, s.h.pos, s.h.transit, s.h.cargo, s.h.token, a,
        q, l, b, d);
    LeaveTravelLasts(s.ports, s.net, s.h.chain, s.h.routed, s.h.sent, s.h.closed, s.h.pos, s.h.transit, s.h.cargo,
        s.h.token, a, q, l, b);
    LeavePosting(s.ports, s.net, s.h.chain, s.h.sent, s.h.place, s.h.pos, a, q, l, b);
    LeaveQueues(s.ports, s.h.chain, s.h.sent, s.h.place, s.h.pos, a, q, l, b);
    LeaveHeralds(s.ports, s.net, s.h.chain, s.h.routed, s.h.sent, s.h.closed, s.h.pos, s.h.transit, s.h.cargo,
        s.h.token, busy, a, q, l, b, d);
  }

  lemma LeaveTokening(s: State, a: Addr, node: nat)
    requires Base(s) && Shape(s) && Tokening(s) && SendablePort(s, a)
    ensures Tokening(WillSendPort(s, a, node))
  {
    hide Lanes, Chained, Named, Known, Ids, Receivers, Senders, Nexts, Ends, Travellers, Waiting, Targets, Numbers,
        Placement, Reading, Gone, Lasts, TravelLasts, Closures, Flights, Mail, Queues, Pending, FlyingCargo,
        QueuedCargo, Manifest, Unheld, AcceptTokens, Announcements, Acks, ParkedAcks, ProxyTokens, Heralds;
    var t, l, b := WillSendPort(s, a, node), s.h.pos[a].lane, Addr(node, s.nextName);
    var q, d := t.ports[a], DescriptorOf(a, s.ports[a]);
    LeaveNamed(s.h.chain, s.h.pos, s.nextName, l, b);
    LeaveAccepts(s.ports, s.net, s.h.chain, s.h.pos, s.h.transit, s.h.token, a, q, l, b, d);
    LeaveTokens(s.ports, s.net, s.h.chain, s.h.routed, s.h.sent, s.h.closed, s.h.pos, s.h.token, a, q, l, b);
    LeaveProxyTokens(s.ports, s.h.chain, s.h.pos, s.h.transit, s.h.token, a, q, l, b, d);
  }

  /** Sending away a port that is in no message. */
  lemma WillSendKeeps(s: State, a: Addr, node: nat, busy: set<Addr>)
    requires Core(s) && Heralding(s, busy) && SendablePort(s, a) && a !in s.h.cargo
    ensures var t := WillSendPort(s, a, node);
            Core(t) && Heralding(t, busy)
  {
    hide Lanes, Chained, Named, Known, Ids, Receivers, Senders, Nexts, Ends, Travellers, Waiting, Targets, Numbers,
        Placement, Reading, Gone, Lasts, TravelLasts, Closures, Flights, Mail, Queues, Pending, FlyingCargo,
        QueuedCargo, Manifest, Unheld, AcceptTokens, Announcements, Acks, ParkedAcks, ProxyTokens, Heralds;
    var t, l, b := WillSendPort(s, a, node), s.h.pos[a].lane, Addr(node, s.nextName);
    var q, d := t.ports[a], DescriptorOf(a, s.ports[a]);
    LeaveBase(s, a, node);
    LeaveShape(s, a, node);
    LeaveCounts(s, a, node, busy);
    LeaveTokening(s, a, node);
    LeaveNamed(s.h.chain, s.h.pos, s.nextName, l, b);
    LeaveCargo(s.ports, s.net, s.h.chain, s.h.sent, s.h.pos, s.h.transit, s.h.cargo, s.h.token, a, q, l, b, d);
    LeaveQueuedCargo(s.ports, s.h.chain, s.h.sent, s.h.pos, s.h.transit, s.h.cargo, s.h.token, a, q, l, b, d);
    LeaveManifest(s.ports, s.net, s.h.chain, s.h.place, s.h.pos, s.h.cargo, a, q, l, b);
  }
}
