/** A proxy forwards all the messages it can. */
module PortDraining {
  import opened PortState
  import opened PortSteps
  import opened PortInvariant
  import opened PortTransfer
  import opened PortForward
  import opened PortMessages
  import opened PortSettled

  /** While a proxy forwards, only its queue changes; its pending numbers shrink. */
  ghost predicate Onward(s: State, t: State, x: Addr) {
    x in s.ports && x in t.ports && Requeued(s.ports[x], t.ports[x]) && t.h.token == s.h.token &&
    x in s.h.pos && x in t.h.pos && t.h.pos[x] == s.h.pos[x]
  }

  // ----- One port of the message -----

  /** The port in a slot that has not been sent on is a receiving port that is listed there. */
  lemma SlotFacts(ports: Ports, chain: Chains, sent: Logs, pos: Positions, transit: Transits, cargo: Cargos,
      token: Tokens, name: nat, x: Addr, k: nat, slot: nat)
    requires Chained(chain, pos) && Senders(ports, pos, chain) && Known(ports, transit, cargo, token, pos) &&
        Named(pos, name) && QueuedCargo(ports, pos, transit, cargo, sent) && Waiting(ports, pos, chain, transit,
        token)
    requires x in ports && !ports[x].mode.Receiving? && k in ports[x].queue.pending
    requires slot < |ports[x].queue.pending[k].ports| && ports[x].queue.pending[k].ports[slot] in ports
    ensures var z := ports[x].queue.pending[k].ports[slot];
            z in cargo && z in pos && x in pos && ports[z].mode.Receiving? && z.name != ports[x].peer.name &&
            pos[z] != Pos(pos[x].lane, pos[x].idx + 1) && z !in transit
    ensures |ports[x].queue.pending[k].ports| == |ports[x].queue.pending[k].descs|
  {
    AwayFacts(ports, chain, pos, transit, token, x);
    assert Attached(ports, pos, transit, cargo, sent, pos[x].lane, k, pos[x].idx, ports[x].queue.pending[k]);
    assert LandedPorts(x.node, ports, ports[x].queue.pending[k]);
  }

  /** The slot that is written next joins those that have been sent on. */
  lemma SentOnGrows(ports: Ports, chain: Chains, pos: Positions, transit: Transits, x: Addr, k: nat, slot: nat,
      z: Addr, b: Addr, d: Descriptor, y: Port, w: Port, l: LaneId)
    requires AllSentOn(ports, pos, transit, x, k, slot) && Rewrites(ports, x, k, slot, b, d, y) &&
        Leaves(ports, pos, z, w, l, b) && l in chain
    requires z == ports[x].queue.pending[k].ports[slot] && x != z && b.node == ports[x].peer.node
    requires pos[z].idx + 1 == |chain[l]| && pos[z] != Pos(pos[x].lane, pos[x].idx + 1)
    ensures AllSentOn(ports[z := w][x := y], Followed(chain, pos, l, b), transit[b := d], x, k, slot + 1)
  {
  }

  lemma ForwardPortSettles(s: State, x: Addr, k: nat, slot: nat)
    requires Settling(s, {}, {(x, k)}, {x}, {}) && ForwardableSlot(s, x, k, slot)
    requires Known(s.ports, s.h.transit, s.h.cargo, s.h.token, s.h.pos) &&
        x != s.ports[x].queue.pending[k].ports[slot] && s.ports[x].queue.pending[k].ports[slot] in s.h.cargo
    ensures Settling(ForwardPort(s, x, k, slot), {}, {(x, k)}, {x}, {})
  {
  }

  lemma ForwardPortKeeps(s: State, x: Addr, k: nat, slot: nat, busy: set<Addr>)
    requires Core(s) && Heralding(s, busy) && ForwardableSlot(s, x, k, slot) && s.ports[x].mode.Proxying?
    requires AllSentOn(s.ports, s.h.pos, s.h.transit, x, k, slot) && Settling(s, {}, {(x, k)}, {x}, {})
    ensures var t := ForwardPort(s, x, k, slot);
            Core(t) && Heralding(t, busy) && AllSentOn(t.ports, t.h.pos, t.h.transit, x, k, slot + 1) &&
            Settling(t, {}, {(x, k)}, {x}, {}) &&
            Onward(s, t, x) && t.ports.Keys == s.ports.Keys && t.ports[x].queue.next == s.ports[x].queue.next
  {
    hide Lanes, Chained, Named, Known, Ids, Receivers, Senders, Nexts, Ends, Travellers, Waiting, Targets, Numbers,
        Placement, Reading, Gone, Lasts, TravelLasts, Closures, Flights, Mail, Queues, Pending, FlyingCargo,
        QueuedCargo, Manifest, Unheld, AcceptTokens, Announcements, Acks, ParkedAcks, ProxyTokens, Heralds,
        AllSentOn, Settling;
    var z, node := s.ports[x].queue.pending[k].ports[slot], s.ports[x].peer.node;
    var b, d, y := Addr(node, s.nextName), DescriptorOf(z, s.ports[z]), ForwardPort(s, x, k, slot).ports[x];
    var w, l := WillSendPort(s, z, node).ports[z], s.h.pos[z].lane;
    SlotFacts(s.ports, s.h.chain, s.h.sent, s.h.pos, s.h.transit, s.h.cargo, s.h.token, s.nextName, x, k, slot);
    ForwardPortTrunk(s, x, k, slot, busy);
    ForwardPortCargo(s, x, k, slot);
    EndFacts(s.ports, s.h.chain, s.h.nexts, s.h.routed, s.h.sent, s.h.place, s.h.read, s.h.closed, s.h.pos,
        s.nextName, z);
    LeaveNamed(s.h.chain, s.h.pos, s.nextName, l, b);
    SentOnGrows(s.ports, s.h.chain, s.h.pos, s.h.transit, x, k, slot, z, b, d, y, w, l);
    ForwardPortSettles(s, x, k, slot);
  }

  // ----- All ports of the message -----

  /** The slots from `slot` on hold ports that have landed. */
  predicate RestHere(ports: Ports, x: Addr, k: nat, slot: nat) {
    x in ports && k in ports[x].queue.pending &&
    forall i :: slot <= i < |ports[x].queue.pending[k].ports| ==> ports[x].queue.pending[k].ports[i] in ports
  }

  lemma ForwardPortsKeep(s: State, x: Addr, k: nat, slot: nat, busy: set<Addr>)
    requires Core(s) && Heralding(s, busy) && x in s.ports && s.ports[x].mode.Proxying?
    requires AllSentOn(s.ports, s.h.pos, s.h.transit, x, k, slot) && RestHere(s.ports, x, k, slot) &&
        Settling(s, {}, {(x, k)}, {x}, {})
    ensures var t := ForwardPorts(s, x, k, slot);
            Core(t) && Heralding(t, busy) && Settling(t, {}, {(x, k)}, {x}, {}) && Onward(s, t, x) &&
            AllSentOn(t.ports, t.h.pos, t.h.transit, x, k, |t.ports[x].queue.pending[k].ports|)
    decreases |s.ports[x].queue.pending[k].ports| - slot
  {
    hide Lanes, Chained, Named, Known, Ids, Receivers, Senders, Nexts, Ends, Travellers, Waiting, Targets, Numbers,
        Placement, Reading, Gone, Lasts, TravelLasts, Closures, Flights, Mail, Queues, Pending, FlyingCargo,
        QueuedCargo, Manifest, Unheld, AcceptTokens, Announcements, Acks, ParkedAcks, ProxyTokens, Heralds,
        Settling, Heralding;
    var ports := s.ports[x].queue.pending[k].ports;
    if slot >= |ports| {
    } else {
      SlotFacts(s.ports, s.h.chain, s.h.sent, s.h.pos, s.h.transit, s.h.cargo, s.h.token, s.nextName, x, k, slot);
      IsTracked(s, ports[slot]);
      ForwardPortKeeps(s, x, k, slot, busy);
      var t := ForwardPort(s, x, k, slot);
      ForwardPortsKeep(t, x, k, slot + 1, busy);
    }
  }

  // ----- All messages -----

  lemma CanHop(s: State, x: Addr)
    requires Core(s) && x in s.ports && HasNext(s.ports[x])
    ensures Hoppable(s, x)
  {
    hide Lanes, Chained, Named, Known, Ids, Receivers, Senders, Nexts, Ends, Travellers, Waiting, Targets, Numbers,
        Placement, Reading, Gone, Lasts, TravelLasts, Closures, Flights, Mail, Queues, Pending, FlyingCargo,
        QueuedCargo, Manifest, Unheld, AcceptTokens, Announcements, Acks, ParkedAcks, ProxyTokens, Heralds;
    NextIs(s.ports, s.h.nexts, s.h.place, s.h.pos, x);
    IsTracked(s, x);
  }

  lemma HopSettles(s: State, x: Addr, k: nat)
    requires Hoppable(s, x) && s.ports[x].queue.next == k && Settling(s, {}, {(x, k)}, {x}, {})
    requires AllSentOn(s.ports, s.h.pos, s.h.transit, x, k, |s.ports[x].queue.pending[k].ports|)
    ensures Settling(Hop(s, x), {}, {}, {x}, {})
  {
  }

  lemma HopKeeps(s: State, x: Addr, busy: set<Addr>)
    requires Core(s) && Heralding(s, busy) && Hoppable(s, x) && s.ports[x].mode.Proxying?
    requires AllSentOn(s.ports, s.h.pos, s.h.transit, x, s.ports[x].queue.next,
        |s.ports[x].queue.pending[s.ports[x].queue.next].ports|)
    requires Settling(s, {}, {(x, s.ports[x].queue.next)}, {x}, {})
    ensures var t := Hop(s, x);
            Core(t) && Heralding(t, busy) && Settling(t, {}, {}, {x}, {}) && Onward(s, t, x)
  {
    hide Lanes, Chained, Named, Known, Ids, Receivers, Senders, Nexts, Ends, Travellers, Waiting, Targets, Numbers,
        Placement, Reading, Gone, Lasts, TravelLasts, Closures, Flights, Mail, Queues, Pending, FlyingCargo,
        QueuedCargo, Manifest, Unheld, AcceptTokens, Announcements, Acks, ParkedAcks, ProxyTokens, Heralds,
        AllSentOn, Settling;
    HopTrunk(s, x, busy);
    HopCounts(s, x);
    HopCarries(s, x);
    HopSettles(s, x, s.ports[x].queue.next);
  }

  lemma StartForwarding(s: State, x: Addr, k: nat)
    requires QueuedCargo(s.ports, s.h.pos, s.h.transit, s.h.cargo, s.h.sent) && Settling(s, {}, {}, {x}, {}) &&
        x in s.ports && k in s.ports[x].queue.pending
    ensures Settling(s, {}, {(x, k)}, {x}, {}) && AllSentOn(s.ports, s.h.pos, s.h.transit, x, k, 0) &&
        RestHere(s.ports, x, k, 0)
  {
    assert LandedPorts(x.node, s.ports, s.ports[x].queue.pending[k]);
    assert AllHere(s.ports, s.ports[x].queue.pending[k].ports);
  }

  lemma ForwardMessagesKeep(s: State, x: Addr, busy: set<Addr>)
    requires Core(s) && Heralding(s, busy) && x in s.ports && s.ports[x].mode.Proxying? && x in s.h.pos
    requires Settling(s, {}, {}, {x}, {})
    ensures var t := ForwardMessages(s, x);
            Core(t) && Heralding(t, busy) && Settled(t) && Onward(s, t, x)
    decreases |s.ports[x].queue.pending|
  {
    hide Lanes, Chained, Named, Known, Ids, Receivers, Senders, Nexts, Ends, Travellers, Waiting, Targets, Numbers,
        Placement, Reading, Gone, Lasts, TravelLasts, Closures, Flights, Mail, Queues, Pending, FlyingCargo,
        QueuedCargo, Manifest, Unheld, AcceptTokens, Announcements, Acks, ParkedAcks, ProxyTokens, Heralds,
        Heralding, AllSentOn, Hoppable;
    if HasNext(s.ports[x]) {
      hide Settling;
      var k := s.ports[x].queue.next;
      StartForwarding(s, x, k);
      ForwardPortsKeep(s, x, k, 0, busy);
      var t := ForwardPorts(s, x, k, 0);
      CanHop(t, x);
      HopKeeps(t, x, busy);
      HopShrinks(s, t, x);
      ForwardMessagesKeep(Hop(t, x), x, busy);
    }
  }

  lemma HopShrinks(s: State, t: State, x: Addr)
    requires x in s.ports && x in t.ports && Hoppable(t, x) &&
        t.ports[x].queue.pending.Keys == s.ports[x].queue.pending.Keys
    ensures |Hop(t, x).ports[x].queue.pending| < |s.ports[x].queue.pending|
  {
    var k := t.ports[x].queue.next;
    assert Hop(t, x).ports[x].queue.pending.Keys == s.ports[x].queue.pending.Keys - {k};
    assert |s.ports[x].queue.pending.Keys - {k}| == |s.ports[x].queue.pending.Keys| - 1;
  }
}
