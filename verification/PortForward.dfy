/** A proxy forwards the messages it was sent, in order, and with each the ports it carries. */
module PortForward {
  import opened PortState
  import opened PortSteps
  import opened PortInvariant
  import opened PortFrames
  import opened PortTransfer

  // ----- Only the queue of a port changes -----

  predicate Requeued(p: Port, q: Port) {
    q == p.(queue := q.queue)
  }

  lemma RequeueShape(ports: Ports, net: Net, chain: Chains, nexts: Nums, routed: Nums, sent: Logs,
      closed: set<LaneId>, pos: Positions, transit: Transits, cargo: Cargos, token: Tokens, x: Addr, q: Port)
    requires x in ports && Requeued(ports[x], q)
    requires Known(ports, transit, cargo, token, pos) && Receivers(ports, pos, chain, routed, sent, closed) &&
        Senders(ports, pos, chain) && Waiting(ports, pos, chain, transit, token) && Ends(ports, transit, chain,
        closed) && Travellers(ports, transit, pos, chain, nexts, routed, sent, closed, token)
    requires AcceptTokens(net, ports, transit, pos, chain, token) && ProxyTokens(ports, transit, pos, chain,
        token) && ParkedAcks(ports, token)
    ensures var ports' := ports[x := q];
            Known(ports', transit, cargo, token, pos) && Receivers(ports', pos, chain, routed, sent, closed) &&
            Senders(ports', pos, chain) && Waiting(ports', pos, chain, transit, token) &&
            Ends(ports', transit, chain, closed) && Travellers(ports', transit, pos, chain, nexts, routed, sent,
            closed, token) &&
            AcceptTokens(net, ports', transit, pos, chain, token) && ProxyTokens(ports', transit, pos, chain,
            token) && ParkedAcks(ports', token)
  {
    hide Lanes, Chained, Named, Known, Ids, Receivers, Senders, Nexts, Ends, Travellers, Waiting, Targets, Numbers,
        Placement, Reading, Gone, Lasts, TravelLasts, Closures, Flights, Mail, Queues, Pending, FlyingCargo,
        QueuedCargo, Manifest, Unheld, AcceptTokens, Announcements, Acks, ParkedAcks, ProxyTokens, Heralds;
    KeepKnown(ports, pos, transit, cargo, token, x, q);
    KeepReceivers(ports, chain, routed, sent, closed, pos, x, q);
    KeepSenders(ports, chain, pos, transit, token, x, q);
    KeepEnds(ports, chain, closed, transit, x, q);
    KeepTravellers(ports, chain, nexts, routed, sent, closed, pos, transit, token, x, q);
    KeepAcceptTokens(ports, net, chain, pos, transit, token, x, q);
    KeepProxyTokens(ports, chain, pos, transit, token, x, q);
  }

  lemma RequeueEnding(ports: Ports, net: Net, chain: Chains, nexts: Nums, routed: Nums, sent: Logs,
      closed: set<LaneId>, pos: Positions, transit: Transits, busy: set<Addr>, x: Addr, q: Port)
    requires x in ports && Requeued(ports[x], q)
    requires Gone(ports, transit, chain, nexts, routed, sent, closed) && Closures(net, ports, transit, pos, chain,
        routed, sent, closed) && Lasts(ports, transit, pos, chain, routed, sent, closed) &&
        TravelLasts(ports, transit, pos, chain, sent, closed) && Heralds(net, ports, transit, chain, routed, closed,
        busy)
    ensures Gone(ports[x := q], transit, chain, nexts, routed, sent, closed) && Closures(net, ports[x := q],
        transit, pos, chain, routed, sent, closed) && Lasts(ports[x := q], transit, pos, chain, routed, sent, closed)
    ensures TravelLasts(ports[x := q], transit, pos, chain, sent, closed) && Heralds(net, ports[x := q], transit,
        chain, routed, closed, busy)
  {
    hide Lanes, Chained, Named, Known, Ids, Receivers, Senders, Nexts, Ends, Travellers, Waiting, Targets, Numbers,
        Placement, Reading, Gone, Lasts, TravelLasts, Closures, Flights, Mail, Queues, Pending, FlyingCargo,
        QueuedCargo, Manifest, Unheld, AcceptTokens, Announcements, Acks, ParkedAcks, ProxyTokens, Heralds;
    KeepGone(ports, net, chain, nexts, routed, sent, closed, pos, transit, x, q);
    KeepLasts(ports, chain, routed, sent, closed, pos, transit, x, q);
    KeepHeralds(ports, net, chain, routed, closed, transit, busy, x, q);
  }

  // ----- ForwardPort -----

  /** In slot `slot` of message k at x, another port is written. */
  predicate Rewrites(ports: Ports, x: Addr, k: nat, slot: nat, b: Addr, d: Descriptor, y: Port) {
    x in ports && var q := ports[x].queue;
                  k in q.pending && slot < |q.pending[k].ports| == |q.pending[k].descs| &&
                  y == ports[x].(queue := q.(pending := q.pending[k := WithSlot(q.pending[k], slot, b, d)]))
  }

  /** It replaces z, which had landed. */
  predicate Reslots(ports: Ports, cargo: Cargos, x: Addr, k: nat, slot: nat, z: Addr, b: Addr, d: Descriptor,
      y: Port) {
    Rewrites(ports, x, k, slot, b, d, y) && !ports[x].mode.Receiving? && ports[x].queue.pending[k].ports[slot] == z &&
    z in ports && ports[z].mode.Receiving? && z in cargo
  }

  function Recargoed(cargo: Cargos, z: Addr, b: Addr): Cargos
    requires z in cargo
  {
    (cargo - {z})[b := cargo[z]]
  }

  lemma ReslotQueues(ports: Ports, chain: Chains, sent: Logs, place: Places, x: Addr, k: nat, slot: nat, b: Addr,
      d: Descriptor, y: Port)
    requires Rewrites(ports, x, k, slot, b, d, y) && Queues(ports, chain, sent, place)
    ensures Queues(ports[x := y], chain, sent, place)
  {
  }

  lemma ReslotPending(ports: Ports, place: Places, pos: Positions, x: Addr, k: nat, slot: nat, b: Addr,
      d: Descriptor, y: Port)
    requires Rewrites(ports, x, k, slot, b, d, y) && Pending(ports, pos, place)
    ensures Pending(ports[x := y], pos, place)
  {
  }

  lemma ReslotKnown(ports: Ports, pos: Positions, transit: Transits, cargo: Cargos, token: Tokens, z: Addr, b: Addr)
    requires Known(ports, transit, cargo, token, pos) && z in cargo && b in pos
    ensures Known(ports, transit, Recargoed(cargo, z, b), token, pos)
  {
  }

  /** A port queued at x is attached to nothing in flight. */
  lemma ReslotFlying(ports: Ports, net: Net, chain: Chains, sent: Logs, place: Places, pos: Positions,
      transit: Transits, cargo: Cargos, token: Tokens, x: Addr, k: nat, slot: nat, z: Addr, b: Addr, d: Descriptor,
      y: Port, w: Port, l: LaneId)
    requires Reslots(ports, cargo, x, k, slot, z, b, d, y) && Known(ports, transit, cargo, token, pos) &&
        Pending(ports, pos, place) && Mail(net, pos, place)
    requires FlyingCargo(net, ports, pos, transit, cargo, sent) && QueuedCargo(ports, pos, transit, cargo,
        sent) && Leaves(ports, pos, z, w, l, b) && l in chain
    ensures FlyingCargo(net, ports[z := w][x := y], Followed(chain, pos, l, b), transit[b := d], Recargoed(cargo, z,
        b), sent)
  {
    assert Attached(ports, pos, transit, cargo, sent, pos[x].lane, k, pos[x].idx, ports[x].queue.pending[k]);
    assert cargo[z] == Cargo(pos[x].lane, k, slot);
    forall id, i | id in net && net[id].User? && 0 <= i < |net[id].msg.ports|
      ensures net[id].msg.ports[i] in cargo && net[id].msg.ports[i] != z && net[id].msg.ports[i] != b
    {
      assert Attached(ports, pos, transit, cargo, sent, pos[net[id].to].lane, net[id].msg.num, pos[net[id].to].idx,
          net[id].msg);
    }
  }

  /** The attachments of another message are as they were. */
  lemma ReslotOthers(ports: Ports, chain: Chains, sent: Logs, pos: Positions, transit: Transits, cargo: Cargos,
      token: Tokens, z: Addr, w: Port, b: Addr, d: Descriptor, x: Addr, y: Port, l: LaneId,
                      m: LaneId, k: nat, at: nat, msg: Message)
    requires Attached(ports, pos, transit, cargo, sent, m, k, at, msg) && Leaves(ports, pos, z, w, l, b) &&
        l in chain && Known(ports, transit, cargo, token, pos) && z in cargo
    requires x in ports && y == ports[x].(queue := y.queue) && x != z
    requires cargo[z].lane != m || cargo[z].num != k
    ensures Attached(ports[z := w][x := y], Followed(chain, pos, l, b), transit[b := d], Recargoed(cargo, z, b),
        sent, m, k, at, msg)
    ensures forall i :: 0 <= i < |msg.ports| ==> msg.ports[i] != b && msg.ports[i] != z
  {
  }

  lemma ReslotOwn(ports: Ports, chain: Chains, sent: Logs, pos: Positions, transit: Transits, cargo: Cargos,
      token: Tokens, x: Addr, k: nat, slot: nat, z: Addr, b: Addr, d: Descriptor, y: Port, w: Port, l: LaneId)
    requires Reslots(ports, cargo, x, k, slot, z, b, d, y) && Known(ports, transit, cargo, token, pos) && x in pos
    requires Attached(ports, pos, transit, cargo, sent, pos[x].lane, k, pos[x].idx, ports[x].queue.pending[k])
    requires LandedPorts(x.node, ports, ports[x].queue.pending[k])
    requires Leaves(ports, pos, z, w, l, b) && l in chain && pos[z].idx + 1 == |chain[l]| && pos[z] != pos[x]
    ensures Attached(ports[z := w][x := y], Followed(chain, pos, l, b), transit[b := d], Recargoed(cargo, z, b),
        sent, pos[x].lane, k, pos[x].idx, y.queue.pending[k])
    ensures LandedPorts(x.node, ports[z := w][x := y], y.queue.pending[k])
  {
    var msg := ports[x].queue.pending[k];
    forall i | 0 <= i < |msg.ports| && i != slot
      ensures msg.ports[i] != z && msg.ports[i] != b
    {
      assert cargo[msg.ports[i]] == Cargo(pos[x].lane, k, i);
    }
  }

  lemma ReslotQueued(ports: Ports, chain: Chains, sent: Logs, place: Places, pos: Positions, transit: Transits,
      cargo: Cargos, token: Tokens, x: Addr, k: nat, slot: nat, z: Addr, b: Addr, d: Descriptor, y: Port, w: Port,
      l: LaneId)
    requires Reslots(ports, cargo, x, k, slot, z, b, d, y) && Known(ports, transit, cargo, token, pos) &&
        Chained(chain, pos) && Pending(ports, pos, place)
    requires QueuedCargo(ports, pos, transit, cargo, sent) && Leaves(ports, pos, z, w, l, b) && l in chain &&
        pos[z].idx + 1 == |chain[l]|
    ensures QueuedCargo(ports[z := w][x := y], Followed(chain, pos, l, b), transit[b := d], Recargoed(cargo, z, b),
        sent)
  {
    hide Attached, LandedPorts, Pending, Known, Chained;
    var ports', pos', transit', cargo' := ports[z := w][x := y], Followed(chain, pos, l, b), transit[b := d],
        Recargoed(cargo, z, b);
    CargoOf(ports, chain, sent, pos, transit, cargo, token, x, k, slot, z, b, d, y);
    ReslotOwn(ports, chain, sent, pos, transit, cargo, token, x, k, slot, z, b, d, y, w, l);
    forall a, j | a in ports' && j in ports'[a].queue.pending && (a != x || j != k)
      ensures a in pos && LandedPorts(a.node, ports', ports'[a].queue.pending[j])
      ensures Attached(ports', pos', transit', cargo', sent, pos[a].lane, j, pos[a].idx, ports'[a].queue.pending[j])
    {
      if pos[a].lane == pos[x].lane && j == k { SameQueue(ports, chain, place, pos, x, a, k); }
      ReslotOthers(ports, chain, sent, pos, transit, cargo, token, z, w, b, d, x, y, l, pos[a].lane, j, pos[a].idx,
          ports[a].queue.pending[j]);
      ReslotLanded(ports, x, z, w, y, b, a.node, ports[a].queue.pending[j]);
    }
  }

  lemma ReslotLanded(ports: Ports, x: Addr, z: Addr, w: Port, y: Port, b: Addr, node: nat, msg: Message)
    requires x in ports && z in ports && LandedPorts(node, ports, msg)
    ensures LandedPorts(node, ports[z := w][x := y], msg)
  {
  }

  lemma CargoOf(ports: Ports, chain: Chains, sent: Logs, pos: Positions, transit: Transits, cargo: Cargos,
      token: Tokens, x: Addr, k: nat, slot: nat, z: Addr, b: Addr, d: Descriptor, y: Port)
    requires Reslots(ports, cargo, x, k, slot, z, b, d, y) && QueuedCargo(ports, pos, transit, cargo, sent) &&
        Chained(chain, pos) && Known(ports, transit, cargo, token, pos)
    ensures x in pos && z in pos && pos[z] != pos[x] && cargo[z] == Cargo(pos[x].lane, k, slot)
  {
    assert Attached(ports, pos, transit, cargo, sent, pos[x].lane, k, pos[x].idx, ports[x].queue.pending[k]);
  }

  /** A message is queued at one port only. */
  lemma SameQueue(ports: Ports, chain: Chains, place: Places, pos: Positions, x: Addr, a: Addr, k: nat)
    requires x in ports && a in ports && k in ports[x].queue.pending && k in ports[a].queue.pending &&
        Chained(chain, pos)
    requires x in pos && a in pos && pos[x].lane == pos[a].lane && Pending(ports, pos, place)
    ensures x == a
  {
  }

  lemma ReslotManifest(ports: Ports, net: Net, chain: Chains, place: Places, pos: Positions, cargo: Cargos, x: Addr,
      k: nat, slot: nat, z: Addr, b: Addr, d: Descriptor, y: Port, w: Port, l: LaneId)
    requires Reslots(ports, cargo, x, k, slot, z, b, d, y) && Pending(ports, pos, place) &&
        Manifest(net, ports, chain, cargo, place) && Chained(chain, pos)
    requires Leaves(ports, pos, z, w, l, b) && l in chain && x in pos && cargo[z] == Cargo(pos[x].lane, k, slot)
    ensures Manifest(net, ports[z := w][x := y], Longer(chain, l, b), Recargoed(cargo, z, b), place)
  {
    assert Listed(net, ports, chain, place, z, cargo[z]);
    assert place[pos[x].lane][k] == Queued(pos[x].idx);
    forall c | c in cargo && c != z
      ensures Listed(net, ports[z := w][x := y], Longer(chain, l, b), place, c, cargo[c])
    {
      ReslotListed(ports, net, chain, place, cargo, x, k, slot, z, b, d, y, w, l, c);
    }
  }

  lemma ReslotListed(ports: Ports, net: Net, chain: Chains, place: Places, cargo: Cargos, x: Addr, k: nat,
      slot: nat, z: Addr, b: Addr, d: Descriptor, y: Port, w: Port, l: LaneId, c: Addr)
    requires Reslots(ports, cargo, x, k, slot, z, b, d, y) && l in chain && w.queue == ports[z].queue
    requires c in cargo && c != z && Listed(net, ports, chain, place, c, cargo[c])
    ensures Listed(net, ports[z := w][x := y], Longer(chain, l, b), place, c, cargo[c])
  {
  }

  lemma ReslotUnheld(ports: Ports, cargo: Cargos, x: Addr, z: Addr, b: Addr, y: Port, w: Port)
    requires Unheld(ports, cargo) && x in ports && z in ports && z in cargo && b !in ports &&
        y == ports[x].(queue := y.queue) && x != z
    ensures Unheld(ports[z := w][x := y], Recargoed(cargo, z, b))
  {
    forall a | a in ports[z := w][x := y] && a in Recargoed(cargo, z, b)
      ensures a != z && a != b && a in ports && a in cargo
    {
    }
  }

  lemma ForwardPortTrunk(s: State, x: Addr, k: nat, slot: nat, busy: set<Addr>)
    requires Core(s) && Heralding(s, busy) && ForwardableSlot(s, x, k, slot) && !s.ports[x].mode.Receiving?
    requires s.ports[x].queue.pending[k].ports[slot] in s.h.cargo
    ensures var t := ForwardPort(s, x, k, slot);
            Base(t) && Shape(t) && Counting(t) && Ending(t) && Posting(t) && Tokening(t) && Heralding(t, busy)
  {
    hide Lanes, Chained, Named, Known, Ids, Receivers, Senders, Nexts, Ends, Travellers, Waiting, Targets, Numbers,
        Placement, Reading, Gone, Lasts, TravelLasts, Closures, Flights, Mail, Queues, Pending, FlyingCargo,
        QueuedCargo, Manifest, Unheld, AcceptTokens, Announcements, Acks, ParkedAcks, ProxyTokens, Heralds;
    var z, node := s.ports[x].queue.pending[k].ports[slot], s.ports[x].peer.node;
    var b, d, u := Addr(node, s.nextName), DescriptorOf(z, s.ports[z]), ForwardPort(s, x, k, slot);
    var t, y := WillSendPort(s, z, node), u.ports[x];
    LeaveBase(s, z, node);
    LeaveShape(s, z, node);
    LeaveCounts(s, z, node, busy);
    LeaveTokening(s, z, node);
    RequeueShape(t.ports, t.net, t.h.chain, t.h.nexts, t.h.routed, t.h.sent, t.h.closed, t.h.pos, t.h.transit,
        t.h.cargo, t.h.token, x, y);
    KeepNexts(t.ports, t.h.nexts, t.h.pos, x, y);
    RequeueEnding(t.ports, t.net, t.h.chain, t.h.nexts, t.h.routed, t.h.sent, t.h.closed, t.h.pos, t.h.transit,
        busy, x, y);
    ReslotQueues(t.ports, t.h.chain, t.h.sent, t.h.place, x, k, slot, b, d, y);
    ReslotPending(t.ports, t.h.place, t.h.pos, x, k, slot, b, d, y);
    ReslotKnown(u.ports, t.h.pos, t.h.transit, t.h.cargo, t.h.token, z, b);
  }

  lemma ForwardPortCargo(s: State, x: Addr, k: nat, slot: nat)
    requires Core(s) && ForwardableSlot(s, x, k, slot) && !s.ports[x].mode.Receiving?
    requires s.ports[x].queue.pending[k].ports[slot] in s.h.cargo
    ensures Carrying(ForwardPort(s, x, k, slot))
  {
    hide Lanes, Chained, Named, Known, Ids, Receivers, Senders, Nexts, Ends, Travellers, Waiting, Targets, Numbers,
        Placement, Reading, Gone, Lasts, TravelLasts, Closures, Flights, Mail, Queues, Pending, FlyingCargo,
        QueuedCargo, Manifest, Unheld, AcceptTokens, Announcements, Acks, ParkedAcks, ProxyTokens, Heralds;
    var z, node := s.ports[x].queue.pending[k].ports[slot], s.ports[x].peer.node;
    var b, d, u := Addr(node, s.nextName), DescriptorOf(z, s.ports[z]), ForwardPort(s, x, k, slot);
    var l, w, y := s.h.pos[z].lane, WillSendPort(s, z, node).ports[z], u.ports[x];
    EndFacts(s.ports, s.h.chain, s.h.nexts, s.h.routed, s.h.sent, s.h.place, s.h.read, s.h.closed, s.h.pos,
        s.nextName, z);
    LeaveNamed(s.h.chain, s.h.pos, s.nextName, l, b);
    CargoOf(s.ports, s.h.chain, s.h.sent, s.h.pos, s.h.transit, s.h.cargo, s.h.token, x, k, slot, z, b, d, y);
    FreshPort(s.ports, s.h.pos, s.h.transit, s.h.cargo, s.h.token, b);
    ReslotFlying(s.ports, s.net, s.h.chain, s.h.sent, s.h.place, s.h.pos, s.h.transit, s.h.cargo, s.h.token, x, k,
        slot, z, b, d, y, w, l);
    ReslotQueued(s.ports, s.h.chain, s.h.sent, s.h.place, s.h.pos, s.h.transit, s.h.cargo, s.h.token, x, k, slot, z,
        b, d, y, w, l);
    ReslotManifest(s.ports, s.net, s.h.chain, s.h.place, s.h.pos, s.h.cargo, x, k, slot, z, b, d, y, w, l);
    ReslotUnheld(s.ports, s.h.cargo, x, z, b, y, w);
  }

  lemma FreshPort(ports: Ports, pos: Positions, transit: Transits, cargo: Cargos, token: Tokens, b: Addr)
    requires Known(ports, transit, cargo, token, pos) && b !in pos
    ensures b !in ports && b !in transit && b !in cargo && b !in token
  {
  }
}
