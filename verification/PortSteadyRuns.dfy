/** Every run is steady: whatever is closed, open pipes keep their obligations on record. */
module PortSteadyRuns {
  import opened PortState
  import opened PortSteps
  import opened PortInvariant
  import opened PortFrames
  import opened PortProxy
  import opened PortRemoval
  import opened PortClosure
  import opened PortTransfer
  import opened PortForward
  import opened PortMessages
  import opened PortSending
  import opened PortArrival
  import opened PortReading
  import opened PortCreating
  import opened PortSettled
  import opened PortDraining
  import opened PortHandlers
  import opened PortClosing
  import opened PortDelivery
  import opened PortUsing
  import opened PortRuns
  import opened PortTheorems
  import opened PortSteady

  // ----- A port lands -----

  lemma AcceptSteadyParts(ports: Ports, net: Net, chain: Chains, routed: Nums, closed: set<LaneId>, pos: Positions,
      transit: Transits, token: Tokens, busy: set<Addr>, b: Addr, id: nat, e: Event, r: Addr)
    requires b in transit && r == transit[b].referring && b !in ports && r !in token && r in ports
    requires BothOpen(closed, pos, r) ==> !ports[r].removeOnLast
    requires id !in net && e == PortAccepted(r) && Bypassed(ports, net, routed, closed, pos, token) &&
        Obliged(ports, closed, pos, token) && Rounds(net, pos) && Persists(ports, chain, closed, pos, token, busy)
    ensures var ports', net', token' := ports[b := AcceptedPort(transit[b])], net[id := e], token[r := Accepting(id)];
            Bypassed(ports', net', routed, closed, pos, token') && Obliged(ports', closed, pos, token') &&
            Rounds(net', pos) && Persists(ports', chain, closed, pos, token', busy)
  {
  }

  lemma AcceptRecorded(ports: Ports, net: Net, closed: set<LaneId>, pos: Positions, transit: Transits,
      token: Tokens, b: Addr, id: nat, e: Event, r: Addr)
    requires b in transit && b !in ports && r !in token && id !in net && e == PortAccepted(r) &&
        Recorded(ports, net, closed, pos, token) && Tidy(ports, closed, pos, {})
    ensures Recorded(ports[b := AcceptedPort(transit[b])], net[id := e], closed, pos, token[r := Accepting(id)])
    ensures Tidy(ports[b := AcceptedPort(transit[b])], closed, pos, {})
  {
    forall c | ParkedSomewhere(ports, c)
      ensures ParkedSomewhere(ports[b := AcceptedPort(transit[b])], c)
    {
      var a :| a in ports && ports[a].parked == Some(c);
      assert ports[b := AcceptedPort(transit[b])][a].parked == Some(c);
    }
  }

  lemma ReferringWaits(ports: Ports, chain: Chains, nexts: Nums, routed: Nums, sent: Logs, closed: set<LaneId>,
      pos: Positions, transit: Transits, token: Tokens, b: Addr)
    requires b in transit && Travellers(ports, transit, pos, chain, nexts, routed, sent, closed, token) &&
        Lasts(ports, transit, pos, chain, routed, sent, closed)
    ensures var r := transit[b].referring;
            r in ports && (BothOpen(closed, pos, r) ==> !ports[r].removeOnLast)
  {
    assert Travels(ports, pos, chain, nexts, routed, sent, closed, token, b, transit[b]);
    if BothOpen(closed, pos, transit[b].referring) { NobodyTold(ports, chain, routed, sent, closed, pos, transit,
        transit[b].referring); }
  }

  lemma AcceptPortSteady(s: State, b: Addr, d: Descriptor)
    requires Core(s) && Steady(s, {}, {}) && b in s.h.transit && d == s.h.transit[b]
    ensures Steady(AcceptPort(s, b, d), {}, {})
  {
    hide Lanes, Chained, Named, Known, Ids, Receivers, Senders, Nexts, Ends, Travellers, Waiting, Targets, Numbers,
        Placement, Reading, Gone, Lasts, TravelLasts, Closures, Flights, Mail, Queues, Pending, FlyingCargo,
        QueuedCargo, Manifest, Unheld, AcceptTokens, Announcements, Acks, ParkedAcks, ProxyTokens, Heralds,
        Bypassed, Obliged, Rounds, Persists, Tidy, Recorded;
    var e, r := PortAccepted(d.referring), d.referring;
    ReferringFacts(s.ports, s.h.chain, s.h.nexts, s.h.routed, s.h.sent, s.h.closed, s.h.pos, s.h.transit, s.h.cargo,
        s.h.token, b);
    ReferringWaits(s.ports, s.h.chain, s.h.nexts, s.h.routed, s.h.sent, s.h.closed, s.h.pos, s.h.transit, s.h.token,
        b);
    PostId(s.net, s.nextId, e);
    AcceptSteadyParts(s.ports, s.net, s.h.chain, s.h.routed, s.h.closed, s.h.pos, s.h.transit, s.h.token, {}, b,
        s.nextId, e, r);
    AcceptRecorded(s.ports, s.net, s.h.closed, s.h.pos, s.h.transit, s.h.token, b, s.nextId, e, r);
  }

  lemma {:induction false} AcceptPortsSteady(s: State, id: nat, j: nat, bs: seq<Addr>, ds: seq<Descriptor>)
    requires Core(s) && Heralding(s, {}) && Settling(s, {id}, {}, {}, {}) && Landing(s.net, s.h.transit, id, j)
    requires Remaining(s.net, id, j, bs, ds) && Steady(s, {}, {})
    ensures Steady(AcceptPorts(s, bs, ds), {}, {})
    decreases |bs|
  {
    hide Lanes, Chained, Named, Known, Ids, Receivers, Senders, Nexts, Ends, Travellers, Waiting, Targets, Numbers,
        Placement, Reading, Gone, Lasts, TravelLasts, Closures, Flights, Mail, Queues, Pending, FlyingCargo,
        QueuedCargo, Manifest, Unheld, AcceptTokens, Announcements, Acks, ParkedAcks, ProxyTokens, Heralds,
        Settling, Heralding, AcceptPort, AcceptPorts, Extends, Steady;
    var msg := s.net[id].msg;
    if j < |msg.ports| {
      AcceptKeeps(s, id, j);
      var t := AcceptPort(s, msg.ports[j], msg.descs[j]);
      LandingPort(s.ports, s.net, s.h.sent, s.h.place, s.h.pos, s.h.transit, s.h.cargo, s.h.token, id, j);
      AcceptPortSteady(s, msg.ports[j], msg.descs[j]);
      SameEvent(s, t, id);
      AcceptPortsSteady(t, id, j + 1, bs[1..], ds[1..]);
      AcceptNext(s, bs, ds);
    } else {
      NoneLeft(s, bs, ds);
    }
  }

  // ----- A proxy forwards -----

  lemma ForwardPortLives(s: State, x: Addr, k: nat, slot: nat, untidy: set<Addr>)
    requires ForwardableSlot(s, x, k, slot)
    ensures var t := WillSendPort(s, s.ports[x].queue.pending[k].ports[slot], s.ports[x].peer.node);
            SameLives(t, ForwardPort(s, x, k, slot), untidy)
  {
    var t, u := WillSendPort(s, s.ports[x].queue.pending[k].ports[slot], s.ports[x].peer.node), ForwardPort(s, x, k,
        slot);
    MessageLives(t, u, x, u.ports[x], untidy);
  }

  lemma MessageLives(t: State, u: State, x: Addr, q: Port, untidy: set<Addr>)
    requires x in t.ports && u.ports == t.ports[x := q] && Requeued(t.ports[x], q) &&
        q.queue.next == t.ports[x].queue.next
    requires u.net == t.net && u.h == t.h.(cargo := u.h.cargo)
    ensures SameLives(t, u, untidy)
  {
  }

  lemma ForwardPortSteady(s: State, x: Addr, k: nat, slot: nat, busy: set<Addr>, untidy: set<Addr>)
    requires Core(s) && Steady(s, busy, untidy) && ForwardableSlot(s, x, k, slot)
    ensures Steady(ForwardPort(s, x, k, slot), busy, untidy)
  {
    hide Lanes, Chained, Named, Known, Ids, Receivers, Senders, Nexts, Ends, Travellers, Waiting, Targets, Numbers,
        Placement, Reading, Gone, Lasts, TravelLasts, Closures, Flights, Mail, Queues, Pending, FlyingCargo,
        QueuedCargo, Manifest, Unheld, AcceptTokens, Announcements, Acks, ParkedAcks, ProxyTokens, Heralds, Steady,
        SameLives;
    var z, node := s.ports[x].queue.pending[k].ports[slot], s.ports[x].peer.node;
    WillSendSteady(s, z, node, busy, untidy);
    LeaveBase(s, z, node);
    ForwardPortLives(s, x, k, slot, untidy);
    QuietSteady(WillSendPort(s, z, node), ForwardPort(s, x, k, slot), busy, untidy);
  }

  lemma {:induction false} ForwardPortsSteady(s: State, x: Addr, k: nat, slot: nat, busy: set<Addr>,
      busy': set<Addr>, untidy: set<Addr>)
    requires Core(s) && Heralding(s, busy) && x in s.ports && s.ports[x].mode.Proxying?
    requires AllSentOn(s.ports, s.h.pos, s.h.transit, x, k, slot) && RestHere(s.ports, x, k, slot) &&
        Settling(s, {}, {(x, k)}, {x}, {})
    requires Steady(s, busy', untidy)
    ensures Steady(ForwardPorts(s, x, k, slot), busy', untidy)
    decreases |s.ports[x].queue.pending[k].ports| - slot
  {
    hide Lanes, Chained, Named, Known, Ids, Receivers, Senders, Nexts, Ends, Travellers, Waiting, Targets, Numbers,
        Placement, Reading, Gone, Lasts, TravelLasts, Closures, Flights, Mail, Queues, Pending, FlyingCargo,
        QueuedCargo, Manifest, Unheld, AcceptTokens, Announcements, Acks, ParkedAcks, ProxyTokens, Heralds,
        Settling, Heralding, Steady;
    var ports := s.ports[x].queue.pending[k].ports;
    if slot < |ports| {
      SlotFacts(s.ports, s.h.chain, s.h.sent, s.h.pos, s.h.transit, s.h.cargo, s.h.token, s.nextName, x, k, slot);
      IsTracked(s, ports[slot]);
      ForwardPortKeeps(s, x, k, slot, busy);
      ForwardPortSteady(s, x, k, slot, busy', untidy);
      ForwardPortsSteady(ForwardPort(s, x, k, slot), x, k, slot + 1, busy, busy', untidy);
    }
  }

  lemma HopSteady(s: State, x: Addr, busy: set<Addr>)
    requires Core(s) && Steady(s, busy, {x}) && Hoppable(s, x)
    ensures Steady(Hop(s, x), busy, {x})
  {
    hide Lanes, Chained, Named, Known, Ids, Receivers, Senders, Nexts, Ends, Travellers, Waiting, Targets, Numbers,
        Placement, Reading, Gone, Lasts, TravelLasts, Closures, Flights, Mail, Queues, Pending, FlyingCargo,
        QueuedCargo, Manifest, Unheld, AcceptTokens, Announcements, Acks, ParkedAcks, ProxyTokens, Heralds, Steady;
    PostId(s.net, s.nextId, User(s.ports[x].peer, s.ports[x].queue.pending[s.ports[x].queue.next]));
    QuietSteady(s, Hop(s, x), busy, {x});
  }

  lemma {:induction false} ForwardMessagesSteady(s: State, x: Addr, busy: set<Addr>, busy': set<Addr>)
    requires Core(s) && Heralding(s, busy) && x in s.ports && s.ports[x].mode.Proxying? && x in s.h.pos
    requires Settling(s, {}, {}, {x}, {}) && Steady(s, busy', {x})
    ensures Steady(ForwardMessages(s, x), busy', {x})
    decreases |s.ports[x].queue.pending|
  {
    hide Lanes, Chained, Named, Known, Ids, Receivers, Senders, Nexts, Ends, Travellers, Waiting, Targets, Numbers,
        Placement, Reading, Gone, Lasts, TravelLasts, Closures, Flights, Mail, Queues, Pending, FlyingCargo,
        QueuedCargo, Manifest, Unheld, AcceptTokens, Announcements, Acks, ParkedAcks, ProxyTokens, Heralds,
        Heralding, AllSentOn, Hoppable, Steady;
    if HasNext(s.ports[x]) {
      hide Settling;
      var k := s.ports[x].queue.next;
      StartForwarding(s, x, k);
      ForwardPortsKeep(s, x, k, 0, busy);
      ForwardPortsSteady(s, x, k, 0, busy, busy', {x});
      var t := ForwardPorts(s, x, k, 0);
      CanHop(t, x);
      HopKeeps(t, x, busy);
      HopSteady(t, x, busy');
      HopShrinks(s, t, x);
      ForwardMessagesSteady(Hop(t, x), x, busy, busy');
    }
  }

  // ----- The handlers -----

  lemma TidyEnough(s: State, busy: set<Addr>, untidy: set<Addr>)
    requires Steady(s, busy, {})
    ensures Steady(s, busy, untidy)
  {
  }

  lemma TidyAnyway(s: State, x: Addr, busy: set<Addr>)
    requires Steady(s, busy, {x}) && x in s.ports && (!s.ports[x].mode.Proxying? || !s.ports[x].removeOnLast)
    ensures Steady(s, busy, {})
  {
  }

  lemma EnqueueSteady(s: State, id: nat)
    requires Core(s) && Steady(s, {}, {}) && Arriving(s, id) && s.net[id].to in s.ports
    ensures Steady(Enqueue(s, id), {}, {})
  {
    hide Lanes, Chained, Named, Known, Ids, Receivers, Senders, Nexts, Ends, Travellers, Waiting, Targets, Numbers,
        Placement, Reading, Gone, Lasts, TravelLasts, Closures, Flights, Mail, Queues, Pending, FlyingCargo,
        QueuedCargo, Manifest, Unheld, AcceptTokens, Announcements, Acks, ParkedAcks, ProxyTokens, Heralds, Steady;
    QuietSteady(s, Enqueue(s, id), {}, {});
  }

  lemma QueueUpSteady(s: State, id: nat)
    requires Core(s) && Heralding(s, {}) && Settling(s, {id}, {}, {}, {}) && Arriving(s, id) &&
        s.net[id].to in s.ports
    requires AllHere(s.ports, s.net[id].msg.ports) && Steady(s, {}, {})
    ensures var x, u := s.net[id].to, Enqueue(s, id);
            var v := ForwardMessages(u, x);
            Steady(if !u.ports[x].mode.Proxying? then u else if v.crashed then v else MaybeRemoveProxy(v, x), {}, {})
  {
    hide Lanes, Chained, Named, Known, Ids, Receivers, Senders, Nexts, Ends, Travellers, Waiting, Targets, Numbers,
        Placement, Reading, Gone, Lasts, TravelLasts, Closures, Flights, Mail, Queues, Pending, FlyingCargo,
        QueuedCargo, Manifest, Unheld, AcceptTokens, Announcements, Acks, ParkedAcks, ProxyTokens, Heralds,
        Settling, Heralding, Steady;
    var x, u := s.net[id].to, Enqueue(s, id);
    EnqueueTrunk(s, id);
    EnqueueCarries(s, id);
    EnqueueSettles(s, id);
    EnqueueSteady(s, id);
    if u.ports[x].mode.Proxying? {
      TidyEnough(u, {}, {x});
      ForwardMessagesKeep(u, x, {});
      ForwardMessagesSteady(u, x, {}, {});
      MaybeRemoveSteady(ForwardMessages(u, x), x, {});
    }
  }

  // ----- Closing -----

  lemma {:induction false} ClosePortsSteady(s: State, work: seq<Addr>)
    requires Core(s) && Heralding(s, {}) && Settling(s, {}, {}, {}, SetOf(work))
    requires Unloaded(s.ports, s.h.transit, s.h.cargo, work) && Steady(s, {}, {})
    ensures Steady(ClosePorts(s, work), {}, {})
    decreases |s.ports|, |work|
  {
    hide Lanes, Chained, Named, Known, Ids, Receivers, Senders, Nexts, Ends, Travellers, Waiting, Targets, Numbers,
        Placement, Reading, Gone, Lasts, TravelLasts, Closures, Flights, Mail, Queues, Pending, FlyingCargo,
        QueuedCargo, Manifest, Unheld, AcceptTokens, Announcements, Acks, ParkedAcks, ProxyTokens, Heralds,
        Settling, Heralding, Steady, Unloaded, ErasePort, ReferencedPorts;
    if work != [] {
      if work[0] !in s.ports {
        SkipWork(s, work);
        ClosePortsSteady(s, work[1..]);
      } else {
        FirstReceives(s.ports, s.h.transit, s.h.cargo, work);
        KnownPos(s.ports, s.h.pos, s.h.transit, s.h.cargo, s.h.token, work[0]);
        IsTracked(s, work[0]);
        EraseKeeps(s, work);
        EraseShrinks(s, work[0]);
        EraseSteady(s, work[0]);
        ClosePortsSteady(ErasePort(s, work[0]), ReferencedPorts(s.ports[work[0]].queue.pending) + work[1..]);
      }
    }
  }

  lemma FirstReceives(ports: Ports, transit: Transits, cargo: Cargos, work: seq<Addr>)
    requires Unloaded(ports, transit, cargo, work) && work != [] && work[0] in ports
    ensures ports[work[0]].mode.Receiving?
  {
  }

  lemma DropAndCloseSteady(s: State, id: nat)
    requires Core(s) && Heralding(s, {}) && Settling(s, {id}, {}, {}, {}) && Arriving(s, id)
    requires s.net[id].to !in s.ports && AllHere(s.ports, s.net[id].msg.ports) && Steady(s, {}, {})
    ensures Steady(ClosePorts(Discard(s, id), s.net[id].msg.ports), {}, {})
  {
    hide Lanes, Chained, Named, Known, Ids, Receivers, Senders, Nexts, Ends, Travellers, Waiting, Targets, Numbers,
        Placement, Reading, Gone, Lasts, TravelLasts, Closures, Flights, Mail, Queues, Pending, FlyingCargo,
        QueuedCargo, Manifest, Unheld, AcceptTokens, Announcements, Acks, ParkedAcks, ProxyTokens, Heralds,
        Settling, Heralding, Steady;
    DiscardKeeps(s, id);
    DiscardSettles(s, id);
    QuietSteady(s, Discard(s, id), {}, {});
    ClosePortsSteady(Discard(s, id), s.net[id].msg.ports);
  }

  lemma OnUserMessageSteady(s: State, id: nat)
    requires Inv(s) && id in s.net && s.net[id].User? && Steady(s, {}, {})
    ensures Steady(OnUserMessage(s, id), {}, {})
  {
    hide Lanes, Chained, Named, Known, Ids, Receivers, Senders, Nexts, Ends, Travellers, Waiting, Targets, Numbers,
        Placement, Reading, Gone, Lasts, TravelLasts, Closures, Flights, Mail, Queues, Pending, FlyingCargo,
        QueuedCargo, Manifest, Unheld, AcceptTokens, Announcements, Acks, ParkedAcks, ProxyTokens, Heralds,
        Settling, Heralding, Arriving, Steady;
    var x, msg := s.net[id].to, s.net[id].msg;
    StartLanding(s, id);
    AcceptPortsKeep(s, id, 0, msg.ports, msg.descs);
    AcceptPortsSteady(s, id, 0, msg.ports, msg.descs);
    var t := AcceptPorts(s, msg.ports, msg.descs);
    CanArrive(t, id);
    MailIs(s.net, s.h.place, s.h.pos, id);
    AddresseeExists(s.net, s.h.chain, s.h.nexts, s.h.routed, s.h.sent, s.h.place, s.h.pos, s.h.transit, id, x,
        s.h.pos[x].lane, s.h.pos[x].idx, msg.num);
    assert AllHere(t.ports, msg.ports);
    if x in s.ports {
      Acceptable(s.ports, s.net, s.h.chain, s.h.nexts, s.h.routed, s.h.sent, s.h.place, s.h.closed, s.h.pos,
          s.h.transit, id, x, s.h.pos[x].lane, s.h.pos[x].idx, msg.num);
      QueueUpSteady(t, id);
    } else {
      NotOwnPort(s.net, s.h.transit, id);
      DropAndCloseSteady(t, id);
    }
  }

  // ----- Acceptance -----

  lemma OnPortAcceptedSteady(s: State, id: nat)
    requires Inv(s) && id in s.net && s.net[id].PortAccepted? && Steady(s, {}, {})
    ensures Steady(OnPortAccepted(s, id), {}, {})
  {
    hide Lanes, Chained, Named, Known, Ids, Receivers, Senders, Nexts, Ends, Travellers, Waiting, Targets, Numbers,
        Placement, Reading, Gone, Lasts, TravelLasts, Closures, Flights, Mail, Queues, Pending, FlyingCargo,
        QueuedCargo, Manifest, Unheld, AcceptTokens, Announcements, Acks, ParkedAcks, ProxyTokens, Heralds,
        Heralding, Settled, Steady, Left, BothOpen, BecomeProxy, ForwardMessages, InitiateProxyRemoval;
    var x := s.net[id].to;
    AcceptedFacts(s.ports, s.net, s.h.chain, s.h.pos, s.h.transit, s.h.cargo, s.h.token, id);
    BecomeProxySettles(s, id) by { assert Settled(s); }
    BecomeProxyKeeps(s, id);
    BecomeProxySteady(s, id);
    BecomesProxy(s, id);
    var t := BecomeProxy(s, id);
    var u := ForwardMessages(t, x);
    ForwardMessagesKeep(t, x, {x});
    ForwardOnSteady(t, x);
    if u.ports[x].removeOnLast {
      RetireSteady(u, x);
    } else {
      TidyAnyway(u, x, {x});
      AnnounceSteady(u, x);
    }
  }

  lemma BecomesProxy(s: State, id: nat)
    requires id in s.net && s.net[id].PortAccepted? && s.net[id].to in s.ports
    ensures var x, t := s.net[id].to, BecomeProxy(s, id);
            x in t.ports && t.ports[x].removeOnLast == s.ports[x].removeOnLast && t.h.routed == s.h.routed &&
            t.h.pos == s.h.pos && t.h.closed == s.h.closed
  {
  }

  lemma ForwardOnSteady(t: State, x: Addr)
    requires Core(t) && Heralding(t, {x}) && Settling(t, {}, {}, {x}, {}) && Steady(t, {x}, {})
    requires x in t.ports && t.ports[x].mode.Proxying? && x in t.h.pos
    ensures var u := ForwardMessages(t, x);
            Steady(u, {x}, {x}) && u.h.routed == t.h.routed && u.h.closed == t.h.closed &&
            (BothOpen(t.h.closed, t.h.pos, x) == BothOpen(u.h.closed, u.h.pos, x)) &&
            (Left(t.h.routed, t.h.pos, x) == Left(u.h.routed, u.h.pos, x))
  {
    hide Lanes, Chained, Named, Known, Ids, Receivers, Senders, Nexts, Ends, Travellers, Waiting, Targets, Numbers,
        Placement, Reading, Gone, Lasts, TravelLasts, Closures, Flights, Mail, Queues, Pending, FlyingCargo,
        QueuedCargo, Manifest, Unheld, AcceptTokens, Announcements, Acks, ParkedAcks, ProxyTokens, Heralds,
        Heralding, Settling, Steady;
    TidyEnough(t, {x}, {x});
    ForwardMessagesSteady(t, x, {x}, {x});
    NotLeftByForwarding(t, x);
    ForwardMessagesLater(t, x);
    NamesAreFresh(t.h.chain, t.h.nexts, t.h.routed, t.h.sent, t.h.place, t.h.read, t.h.closed, t.h.pos, t.nextName);
  }

  lemma NamesAreFresh(chain: Chains, nexts: Nums, routed: Nums, sent: Logs, place: Places, read: Logs,
      closed: set<LaneId>, pos: Positions, name: nat)
    requires Named(pos, name) && Lanes(chain, nexts, routed, sent, place, read, closed, name)
    ensures (forall a :: a in pos ==> a.name < name) && (forall m :: m in chain ==> m.pipe < name)
  {
  }

  /** A proxy that knows of a closure belongs to a pipe that is not open. */
  lemma RetireSteady(s: State, x: Addr)
    requires Core(s) && Heralding(s, {x}) && Settled(s) && Steady(s, {x}, {x}) && x in s.ports
    requires s.ports[x].mode.Proxying? && s.ports[x].removeOnLast && !BothOpen(s.h.closed, s.h.pos, x)
    ensures Steady(Post(MaybeRemoveProxy(s, x), ObserveClosure(s.ports[x].peer, s.ports[x].lastRecv)), {}, {})
  {
    hide Lanes, Chained, Named, Known, Ids, Receivers, Senders, Nexts, Ends, Travellers, Waiting, Targets, Numbers,
        Placement, Reading, Gone, Lasts, TravelLasts, Closures, Flights, Mail, Queues, Pending, FlyingCargo,
        QueuedCargo, Manifest, Unheld, AcceptTokens, Announcements, Acks, ParkedAcks, ProxyTokens, Heralds,
        Heralding, Settled, Steady;
    MaybeRemoveSteady(s, x, {x});
    MaybeRemoveKeeps(s, x, {x});
    var t := MaybeRemoveProxy(s, x);
    assert t.h.closed == s.h.closed && t.h.pos == s.h.pos;
    PostNewsSteady(t, ObserveClosure(s.ports[x].peer, s.ports[x].lastRecv), {x}, {});
    NothingAsked(Post(t, ObserveClosure(s.ports[x].peer, s.ports[x].lastRecv)), x, {x}, {});
    assert {x} - {x} == {} && {} - {x} == {};
  }

  /** Forwarding does not change whom the sender addresses. */
  lemma ForwardPortRouted(s: State, x: Addr, k: nat, slot: nat)
    requires ForwardableSlot(s, x, k, slot)
    ensures var t := ForwardPort(s, x, k, slot);
            t.h.routed == s.h.routed && t.h.closed == s.h.closed && x in t.ports && k in t.ports[x].queue.pending &&
            |t.ports[x].queue.pending[k].ports| == |s.ports[x].queue.pending[k].ports|
  {
  }

  lemma {:induction false} ForwardPortsRouted(s: State, x: Addr, k: nat, slot: nat)
    requires x in s.ports && k in s.ports[x].queue.pending
    ensures ForwardPorts(s, x, k, slot).h.routed == s.h.routed && ForwardPorts(s, x, k, slot).h.closed == s.h.closed
    decreases |s.ports[x].queue.pending[k].ports| - slot
  {
    hide ForwardPort;
    if slot < |s.ports[x].queue.pending[k].ports| && ForwardableSlot(s, x, k, slot) &&
       s.ports[x].queue.pending[k].ports[slot].name != s.ports[x].peer.name
    {
      ForwardPortRouted(s, x, k, slot);
      ForwardPortsRouted(ForwardPort(s, x, k, slot), x, k, slot + 1);
    }
  }

  lemma {:induction false} NotLeftByForwarding(s: State, x: Addr)
    ensures ForwardMessages(s, x).h.routed == s.h.routed && ForwardMessages(s, x).h.closed == s.h.closed
    decreases if x in s.ports then |s.ports[x].queue.pending| else 0
  {
    if x in s.ports && HasNext(s.ports[x]) {
      var t := ForwardPorts(s, x, s.ports[x].queue.next, 0);
      ForwardPortsRouted(s, x, s.ports[x].queue.next, 0);
      if !t.crashed && Hoppable(t, x) {
        HopShrinks(s, t, x);
        NotLeftByForwarding(Hop(t, x), x);
      }
    }
  }

  lemma OnObserveProxySteady(s: State, id: nat)
    requires Inv(s) && id in s.net && s.net[id].ObserveProxy? && Steady(s, {}, {})
    ensures Steady(OnObserveProxy(s, id), {}, {})
  {
    hide Lanes, Chained, Named, Known, Ids, Receivers, Senders, Nexts, Ends, Travellers, Waiting, Targets, Numbers,
        Placement, Reading, Gone, Lasts, TravelLasts, Closures, Flights, Mail, Queues, Pending, FlyingCargo,
        QueuedCargo, Manifest, Unheld, AcceptTokens, Announcements, Acks, ParkedAcks, ProxyTokens, Heralds, Settled,
        Heralding, Steady;
    var e := s.net[id];
    AnnouncedFacts(s.ports, s.net, s.h.chain, s.h.routed, s.h.sent, s.h.closed, s.h.pos, s.h.transit, s.h.cargo,
        s.h.token, id);
    IsTracked(s, e.to);
    if e.to !in s.ports {
      DropProxySteady(s, id);
    } else if s.ports[e.to].peer != e.proxy {
      RelaySteady(s, id);
    } else if !s.ports[e.to].mode.Receiving? {
      ParkAckSteady(s, id);
    } else {
      SkipProxySteady(s, id);
    }
  }

  lemma AckedSteady(s: State, id: nat)
    requires Core(s) && Steady(s, {}, {}) && id in s.net && s.net[id].ObserveProxyAck? && s.net[id].to in s.ports
    requires s.net[id].to in s.h.token
    ensures Steady(ExpectLast(DropToken(s, id, s.net[id].to), s.net[id].to, s.net[id].last), {}, {s.net[id].to})
  {
    hide Lanes, Chained, Named, Known, Ids, Receivers, Senders, Nexts, Ends, Travellers, Waiting, Targets, Numbers,
        Placement, Reading, Gone, Lasts, TravelLasts, Closures, Flights, Mail, Queues, Pending, FlyingCargo,
        QueuedCargo, Manifest, Unheld, AcceptTokens, Announcements, Acks, ParkedAcks, ProxyTokens, Heralds,
        Bypassed, Obliged, Rounds, Persists, Tidy, Recorded;
    var x := s.net[id].to;
    AckedParts(s.ports, s.net, s.h.chain, s.h.routed, s.h.closed, s.h.pos, s.h.token, id, x, ExpectLast(DropToken(s,
        id, x), x, s.net[id].last).ports[x]);
  }

  lemma AgainSteady(s: State, id: nat)
    requires Core(s) && Steady(s, {}, {}) && id in s.net && s.net[id].ObserveProxyAck? && s.net[id].to in s.ports
    requires s.net[id].last == INVALID_SEQUENCE_NUM && s.ports[s.net[id].to].mode.Proxying?
    ensures Steady(DropToken(s, id, s.net[id].to), {s.net[id].to}, {})
    ensures BothOpen(s.h.closed, s.h.pos, s.net[id].to) ==>
              !Left(s.h.routed, s.h.pos, s.net[id].to) && !s.ports[s.net[id].to].removeOnLast
  {
    hide Lanes, Chained, Named, Known, Ids, Receivers, Senders, Nexts, Ends, Travellers, Waiting, Targets, Numbers,
        Placement, Reading, Gone, Lasts, TravelLasts, Closures, Flights, Mail, Queues, Pending, FlyingCargo,
        QueuedCargo, Manifest, Unheld, AcceptTokens, Announcements, Acks, ParkedAcks, ProxyTokens, Heralds,
        Bypassed, Obliged, Rounds, Persists, Tidy, Recorded, Left, BothOpen;
    var x := s.net[id].to;
    TokenIsProxys(s.net, s.h.chain, s.h.routed, s.h.pos, s.h.token, id);
    if BothOpen(s.h.closed, s.h.pos, x) { NotLeftYet(s.ports, s.net, s.h.routed, s.h.closed, s.h.pos, s.h.token, x); }
    DropSteady(s.ports, s.net, s.h.chain, s.h.routed, s.h.closed, s.h.pos, s.h.token, id, x);
  }

  /** An acknowledgement only misses its proxy in a pipe that is not open. */
  lemma LostAckSteady(s: State, id: nat)
    requires Core(s) && Steady(s, {}, {}) && id in s.net && s.net[id].ObserveProxyAck? && s.net[id].to !in s.ports
    ensures Steady(DropToken(s, id, s.net[id].to), {}, {})
  {
    hide Lanes, Chained, Named, Known, Ids, Receivers, Senders, Nexts, Ends, Travellers, Waiting, Targets, Numbers,
        Placement, Reading, Gone, Lasts, TravelLasts, Closures, Flights, Mail, Queues, Pending, FlyingCargo,
        QueuedCargo, Manifest, Unheld, AcceptTokens, Announcements, Acks, ParkedAcks, ProxyTokens, Heralds,
        Bypassed, Obliged, Rounds, Persists, Tidy, Recorded, Left, BothOpen;
    var x, t := s.net[id].to, DropToken(s, id, s.net[id].to);
    TokenIsProxys(s.net, s.h.chain, s.h.routed, s.h.pos, s.h.token, id);
    if BothOpen(s.h.closed, s.h.pos, x) { ObligedPort(s.ports, s.h.closed, s.h.pos, s.h.token, x); }
    DropSteady(s.ports, s.net, s.h.chain, s.h.routed, s.h.closed, s.h.pos, s.h.token, id, x);
    GonePersists(s.ports, s.h.chain, s.h.closed, s.h.pos, t.h.token, x);
  }

  lemma GonePersists(ports: Ports, chain: Chains, closed: set<LaneId>, pos: Positions, token: Tokens, x: Addr)
    requires x !in ports && Persists(ports, chain, closed, pos, token, {x})
    ensures Persists(ports, chain, closed, pos, token, {})
  {
  }

  lemma OnObserveProxyAckSteady(s: State, id: nat)
    requires Inv(s) && id in s.net && s.net[id].ObserveProxyAck? && Steady(s, {}, {})
    ensures Steady(OnObserveProxyAck(s, id), {}, {})
  {
    hide Lanes, Chained, Named, Known, Ids, Receivers, Senders, Nexts, Ends, Travellers, Waiting, Targets, Numbers,
        Placement, Reading, Gone, Lasts, TravelLasts, Closures, Flights, Mail, Queues, Pending, FlyingCargo,
        QueuedCargo, Manifest, Unheld, AcceptTokens, Announcements, Acks, ParkedAcks, ProxyTokens, Heralds, Settled,
        Heralding, Left, BothOpen;
    var e, x := s.net[id], s.net[id].to;
    var t := DropToken(s, id, x);
    AckedFacts(s.ports, s.net, s.h.chain, s.h.routed, s.h.pos, s.h.transit, s.h.token, id);
    TokenIsProxys(s.net, s.h.chain, s.h.routed, s.h.pos, s.h.token, id);
    assert Heralding(s, {});
    DropTokenKeeps(s, id, x);
    if x !in s.ports {
      LostAckSteady(s, id);
    } else {
      hide Steady;
      if e.last == INVALID_SEQUENCE_NUM {
        AgainSteady(s, id);
        AnnounceSteady(t, x);
      } else {
        IsTracked(s, x);
        AckedSteady(s, id);
        ExpectLastKeeps(t, x, e.last);
        MaybeRemoveSteady(ExpectLast(t, x, e.last), x, {});
      }
    }
  }

  // ----- The calls -----

  lemma {:induction false} SendPortsSteady(s: State, qs: seq<Addr>, node: nat, todo: set<Addr>)
    requires Core(s) && Heralding(s, {}) && Settling(s, {}, {}, {}, todo) && AllSendable(s.ports, qs)
    requires Steady(s, {}, {})
    ensures Steady(SendPorts(s, qs, node), {}, {})
    decreases |qs|
  {
    hide Lanes, Chained, Named, Known, Ids, Receivers, Senders, Nexts, Ends, Travellers, Waiting, Targets, Numbers,
        Placement, Reading, Gone, Lasts, TravelLasts, Closures, Flights, Mail, Queues, Pending, FlyingCargo,
        QueuedCargo, Manifest, Unheld, AcceptTokens, Announcements, Acks, ParkedAcks, ProxyTokens, Heralds,
        Settling, Heralding, SentOnly, SentPort, Steady;
    if qs != [] {
      SendOneKeeps(s, qs[0], node, todo);
      WillSendSteady(s, qs[0], node, {}, {});
      StillSendable(s, qs, node);
      SendPortsSteady(WillSendPort(s, qs[0], node), qs[1..], node, todo + {Addr(node, s.nextName)});
    }
  }

  lemma EmitSteady(s: State, a: Addr, payload: Payload, bs: seq<Addr>, ds: seq<Descriptor>)
    requires Core(s) && Steady(s, {}, {}) && Emits(s, a, bs, ds)
    ensures Steady(Emit(s, a, payload, bs, ds), {}, {})
  {
    hide Lanes, Chained, Named, Known, Ids, Receivers, Senders, Nexts, Ends, Travellers, Waiting, Targets, Numbers,
        Placement, Reading, Gone, Lasts, TravelLasts, Closures, Flights, Mail, Queues, Pending, FlyingCargo,
        QueuedCargo, Manifest, Unheld, AcceptTokens, Announcements, Acks, ParkedAcks, ProxyTokens, Heralds, Steady,
        Attachable;
    PostId(s.net, s.nextId, User(s.ports[a].peer, Message(s.ports[a].nextSend, payload, bs, ds)));
    QuietSteady(s, Emit(s, a, payload, bs, ds), {}, {});
  }

  lemma SendMessageSteady(s: State, a: Addr, payload: Payload, qs: seq<Addr>)
    requires Inv(s) && MaySend(s, a, qs) && s.ports[a].nextSend < INVALID_SEQUENCE_NUM && Steady(s, {}, {})
    ensures Steady(SendMessage(s, a, payload, qs), {}, {})
  {
    hide Lanes, Chained, Named, Known, Ids, Receivers, Senders, Nexts, Ends, Travellers, Waiting, Targets, Numbers,
        Placement, Reading, Gone, Lasts, TravelLasts, Closures, Flights, Mail, Queues, Pending, FlyingCargo,
        QueuedCargo, Manifest, Unheld, AcceptTokens, Announcements, Acks, ParkedAcks, ProxyTokens, Heralds,
        Settling, Heralding, SentAway, Emits, Steady;
    if SendOutcome(s, a, qs) == Ok {
      var node := s.ports[a].peer.node;
      SendPortsKeep(s, qs, node, {});
      SendPortsSteady(s, qs, node, {});
      MayEmitAfter(s, SendPorts(s, qs, node), a, qs);
      EmitSteady(SendPorts(s, qs, node), a, payload, NewAddrs(node, s.nextName, |qs|), Descriptors(s.ports, qs));
    }
  }

  function Signalled(s: State, a: Addr): State
    requires a in s.ports
  {
    s.(ports := s.ports[a := s.ports[a].(signalable := true)])
  }

  lemma SignalLives(s: State, a: Addr)
    requires a in s.ports
    ensures SameLives(s, Signalled(s, a), {})
  {
  }

  lemma {:induction false} ClaimPortsLive(s: State, bs: seq<Addr>)
    ensures SameLives(s, ClaimPorts(s, bs), {}) && ClaimPorts(s, bs).h == s.h
    decreases |bs|
  {
    if bs != [] && bs[0] in s.ports && s.ports[bs[0]].mode.Receiving? {
      hide SameLives;
      var t := Signalled(s, bs[0]);
      SignalLives(s, bs[0]);
      ClaimPortsLive(t, bs[1..]);
      SameLivesThrough(s, t, ClaimPorts(t, bs[1..]));
    }
  }

  lemma SameLivesThrough(s: State, t: State, u: State)
    requires SameLives(s, t, {}) && SameLives(t, u, {}) && t.h == s.h
    ensures SameLives(s, u, {})
  {
  }

  lemma GetMessageSteady(s: State, a: Addr)
    requires Inv(s) && Held(s, a) && Steady(s, {}, {})
    ensures Steady(GetMessage(s, a), {}, {})
  {
    hide Lanes, Chained, Named, Known, Ids, Receivers, Senders, Nexts, Ends, Travellers, Waiting, Targets, Numbers,
        Placement, Reading, Gone, Lasts, TravelLasts, Closures, Flights, Mail, Queues, Pending, FlyingCargo,
        QueuedCargo, Manifest, Unheld, AcceptTokens, Announcements, Acks, ParkedAcks, ProxyTokens, Heralds, Settled,
        Heralding, Hoppable, Steady, SameLives;
    if GetMessageOutcome(s, a).GotMessage? {
      CanHop(s, a);
      TakeTrunk(s, a) by { assert Heralding(s, {}); }
      TakeLives(s, a);
      QuietSteady(s, TakeMessage(s, a), {}, {});
      var bs := s.ports[a].queue.pending[s.ports[a].queue.next].ports;
      ClaimPortsLive(TakeMessage(s, a), bs);
      QuietSteady(TakeMessage(s, a), ClaimPorts(TakeMessage(s, a), bs), {}, {});
    }
  }

  lemma TakeLives(s: State, a: Addr)
    requires Readable(s, a)
    ensures SameLives(s, TakeMessage(s, a), {})
  {
  }

  lemma CreateLives(s: State, node: nat)
    requires Base(s)
    ensures SameLives(s, CreatePortPair(s, node), {})
  {
    hide Lanes, Chained, Named, Known, Ids, Receivers, Senders, Nexts, Ends, Travellers, Waiting, Targets, Numbers,
        Placement, Reading, Gone, Lasts, TravelLasts, Closures, Flights, Mail, Queues, Pending, FlyingCargo,
        QueuedCargo, Manifest, Unheld, AcceptTokens, Announcements, Acks, ParkedAcks, ProxyTokens, Heralds;
    var a, b, l, m := Addr(node, s.nextName), Addr(node, s.nextName + 1), LaneId(s.nextName, false),
        LaneId(s.nextName, true);
    CreateFresh(s.h.chain, s.h.nexts, s.h.routed, s.h.sent, s.h.place, s.h.read, s.h.closed, s.h.pos, s.nextName, a,
        b, l, m);
    CreateKnown(s.ports, s.h.pos, s.h.transit, s.h.cargo, s.h.token, a, b, l, m);
    KeysAgree(s.h.chain, s.h.nexts, s.h.routed, s.h.sent, s.h.place, s.h.read, s.h.closed, s.nextName);
    UnusedLives(s, node, a, b, l, m);
  }

  lemma UnusedLives(s: State, node: nat, a: Addr, b: Addr, l: LaneId, m: LaneId)
    requires a == Addr(node, s.nextName) && b == Addr(node, s.nextName + 1)
    requires l == LaneId(s.nextName, false) && m == LaneId(s.nextName, true)
    requires a !in s.ports && b !in s.ports && a !in s.h.pos && b !in s.h.pos && l !in s.h.chain && m !in s.h.chain
    requires l !in s.h.routed && m !in s.h.routed
    ensures SameLives(s, CreatePortPair(s, node), {})
  {
    var t := CreatePortPair(s, node);
    assert LaterLanes(s.h, t.h);
    assert t.ports.Keys == s.ports.Keys + {a, b};
  }

  lemma OnObserveClosureSteady(s: State, id: nat)
    requires Inv(s) && id in s.net && s.net[id].ObserveClosure? && Steady(s, {}, {})
    ensures Steady(OnObserveClosure(s, id), {}, {})
  {
    hide Lanes, Chained, Named, Known, Ids, Receivers, Senders, Nexts, Ends, Travellers, Waiting, Targets, Numbers,
        Placement, Reading, Gone, Lasts, TravelLasts, Closures, Flights, Mail, Queues, Pending, FlyingCargo,
        QueuedCargo, Manifest, Unheld, AcceptTokens, Announcements, Acks, ParkedAcks, ProxyTokens, Heralds, Settled,
        Heralding, Bypassed, Obliged, Rounds, Persists, Tidy, Recorded, BothOpen;
    var e, x := s.net[id], s.net[id].to;
    NewsIsOfClosure(s.ports, s.net, s.h.chain, s.h.routed, s.h.sent, s.h.closed, s.h.pos, s.h.transit, id);
    if x !in s.ports {
      IgnoredSteady(s.ports, s.net, s.h.routed, s.h.closed, s.h.pos, s.h.token, id);
    } else {
      var t := NoteClosure(Take(s, id), x, e.last);
      NewsSteady(s.ports, s.net, s.h.chain, s.h.routed, s.h.closed, s.h.pos, s.h.token, {}, id, x, t.ports[x], {});
      assert {} + {x} == {x};
      NoteClosureKeeps(s, id);
      var p := s.ports[x];
      var last := if !p.mode.Receiving? then e.last else if p.nextSend == 0 then 0 else p.nextSend - 1;
      ToldSteady(t, x, ObserveClosure(p.peer, last));
    }
  }

  /** After the news is noted the port may go, and the news is passed on. */
  lemma ToldSteady(t: State, x: Addr, e: Event)
    requires Core(t) && Steady(t, {}, {x}) && x in t.ports && !BothOpen(t.h.closed, t.h.pos, x) && e.ObserveClosure?
    ensures Steady(Post(if t.ports[x].mode.Proxying? then MaybeRemoveProxy(t, x) else t, e), {}, {})
  {
    hide Lanes, Chained, Named, Known, Ids, Receivers, Senders, Nexts, Ends, Travellers, Waiting, Targets, Numbers,
        Placement, Reading, Gone, Lasts, TravelLasts, Closures, Flights, Mail, Queues, Pending, FlyingCargo,
        QueuedCargo, Manifest, Unheld, AcceptTokens, Announcements, Acks, ParkedAcks, ProxyTokens, Heralds, Steady,
        BothOpen;
    assert {} - {x} == {} && {x} - {x} == {};
    if t.ports[x].mode.Proxying? {
      MaybeRemoveSteady(t, x, {});
      MaybeRemoveIds(t, x);
      PostNewsSteady(MaybeRemoveProxy(t, x), e, {}, {});
    } else {
      NothingAsked(t, x, {}, {x});
      PostNewsSteady(t, e, {}, {});
    }
  }

  lemma MaybeRemoveIds(s: State, x: Addr)
    requires Ids(s.net, s.nextId)
    ensures Ids(MaybeRemoveProxy(s, x).net, MaybeRemoveProxy(s, x).nextId)
  {
  }

  lemma HandleSteady(s: State, id: nat)
    requires Inv(s) && id in s.net && Steady(s, {}, {})
    ensures Steady(Handle(s, id), {}, {})
  {
    hide Inv, Steady, OnUserMessage, OnPortAccepted, OnObserveProxy, OnObserveProxyAck, OnObserveClosure;
    match s.net[id]
    case User(_, _) => OnUserMessageSteady(s, id);
    case PortAccepted(_) => OnPortAcceptedSteady(s, id);
    case ObserveProxy(_, _, _) => OnObserveProxySteady(s, id);
    case ObserveProxyAck(_, _) => OnObserveProxyAckSteady(s, id);
    case ObserveClosure(_, _) => OnObserveClosureSteady(s, id);
  }

  lemma ClosePortSteady(s: State, a: Addr)
    requires Inv(s) && Held(s, a) && Steady(s, {}, {})
    ensures Steady(ClosePort(s, a), {}, {})
  {
    hide Lanes, Chained, Named, Known, Ids, Receivers, Senders, Nexts, Ends, Travellers, Waiting, Targets, Numbers,
        Placement, Reading, Gone, Lasts, TravelLasts, Closures, Flights, Mail, Queues, Pending, FlyingCargo,
        QueuedCargo, Manifest, Unheld, AcceptTokens, Announcements, Acks, ParkedAcks, ProxyTokens, Heralds,
        Settling, Heralding, Steady;
    if s.ports[a].mode.Receiving? {
      StartClosing(s, a);
      ClosePortsSteady(s, [a]);
    } else {
      CloseDoesNothing(s, a);
    }
  }

  lemma StepSteady(s: State, c: Command)
    requires Inv(s) && Steady(s, {}, {})
    ensures Steady(Step(s, c), {}, {})
  {
    hide Lanes, Chained, Named, Known, Ids, Receivers, Senders, Nexts, Ends, Travellers, Waiting, Targets, Numbers,
        Placement, Reading, Gone, Lasts, TravelLasts, Closures, Flights, Mail, Queues, Pending, FlyingCargo,
        QueuedCargo, Manifest, Unheld, AcceptTokens, Announcements, Acks, ParkedAcks, ProxyTokens, Heralds, Settled,
        Heralding, Steady, CreatePortPair, SendMessage, GetMessage, Handle, ClosePort;
    match c {
      case Create(node) =>
        CreateLives(s, node);
        QuietSteady(s, CreatePortPair(s, node), {}, {});
      case Send(a, payload, qs) =>
        if MaySend(s, a, qs) && s.ports[a].nextSend < INVALID_SEQUENCE_NUM { SendMessageSteady(s, a, payload, qs); }
      case Get(a) => if Held(s, a) { GetMessageSteady(s, a); }
      case Close(a) => if Held(s, a) { ClosePortSteady(s, a); }
      case Deliver(id) => if id in s.net { HandleSteady(s, id); }
    }
  }

  lemma CloseDoesNothing(s: State, a: Addr)
    requires a in s.ports && !s.ports[a].mode.Receiving?
    ensures ClosePort(s, a) == s
  {
    assert ClosePorts(s, [a]) == ClosePorts(s, []);
  }

  lemma InitSteady()
    ensures Steady(INIT, {}, {})
  {
  }

  /** Every run is steady. */
  lemma {:induction false} EveryRunSteady(cs: seq<Command>)
    ensures Steady(Run(cs), {}, {})
    decreases |cs|
  {
    hide Inv, Steady, Step;
    if cs == [] {
      InitSteady();
    } else {
      var init, c := cs[..|cs| - 1], cs[|cs| - 1];
      assert cs == init + [c];
      EveryRun(init);
      EveryRunSteady(init);
      StepSteady(Run(init), c);
    }
  }

  // ----- Which bypassed ports are left -----

  /** The port at index j has yet to pass on a message that was routed to it. */
  predicate MoreToCome(nexts: Nums, routed: Nums, m: LaneId, j: nat) {
    m in nexts && m in routed && j < |nexts[m]| && j < |routed[m]| && nexts[m][j] < routed[m][j]
  }

  /** The acknowledgement that tells the port its last number is on its way. */
  ghost predicate LastOnItsWay(net: Net, x: Addr) {
    exists id :: id in net && net[id].ObserveProxyAck? && net[id].to == x && net[id].last != INVALID_SEQUENCE_NUM
  }

  /** In an open pipe, a port the sender has stopped addressing is there exactly as long as it has a
      message to pass on, or has not been told that it has none. */
  lemma BypassedIsHere(cs: seq<Command>, m: LaneId, j: nat)
    requires var h := Run(cs).h;
             m in h.chain && m in h.routed && j < |h.routed[m]| && j < |h.chain[m]| && m !in h.closed &&
             m.Other() !in h.closed
    ensures var s := Run(cs);
            s.h.chain[m][j] in s.ports <==>
            MoreToCome(s.h.nexts, s.h.routed, m, j) || LastOnItsWay(s.net, s.h.chain[m][j])
  {
    hide Lanes, Chained, Named, Known, Ids, Receivers, Senders, Nexts, Ends, Travellers, Waiting, Targets, Numbers,
        Placement, Reading, Gone, Lasts, TravelLasts, Closures, Flights, Mail, Queues, Pending, FlyingCargo,
        QueuedCargo, Manifest, Unheld, AcceptTokens, Announcements, Acks, ParkedAcks, ProxyTokens, Heralds,
        Heralding, Settled, Run, Bypassed, Obliged, Rounds, Persists, Tidy, Recorded, MoreToCome, LastOnItsWay;
    EveryRun(cs);
    EveryRunSteady(cs);
    var s := Run(cs);
    LanesAgree(s.h.chain, s.h.nexts, s.h.routed, s.h.sent, s.h.place, s.h.read, s.h.closed, s.nextName, m);
    if s.h.chain[m][j] in s.ports { HereBecause(s.ports, s.net, s.h.chain, s.h.nexts, s.h.routed, s.h.sent,
        s.h.closed, s.h.pos, s.h.transit, s.h.token, m, j); } else { GoneBecause(s.ports, s.net, s.h.chain,
        s.h.nexts, s.h.routed, s.h.sent, s.h.closed, s.h.pos, s.h.transit, s.h.token, m, j); }
  }

  lemma HereBecause(ports: Ports, net: Net, chain: Chains, nexts: Nums, routed: Nums, sent: Logs,
      closed: set<LaneId>, pos: Positions, transit: Transits, token: Tokens, m: LaneId, j: nat)
    requires m in chain && m in routed && j < |routed[m]| < |chain[m]| && m !in closed && m.Other() !in closed
    requires chain[m][j] in ports && Bypassed(ports, net, routed, closed, pos, token) &&
        Tidy(ports, closed, pos, {}) && Recorded(ports, net, closed, pos, token) && Chained(chain, pos) &&
        Receivers(ports, pos, chain, routed, sent, closed) && Lasts(ports, transit, pos, chain, routed, sent,
        closed) && Nexts(ports, pos, nexts) && Numbers(chain, nexts, routed, sent)
    ensures MoreToCome(nexts, routed, m, j) || LastOnItsWay(net, chain[m][j])
  {
    var x := chain[m][j];
    assert pos[x] == Pos(m, j) && Left(routed, pos, x) && BothOpen(closed, pos, x);
    assert !ports[x].mode.Receiving?;
    NobodyTold(ports, chain, routed, sent, closed, pos, transit, x);
    if ports[x].removeOnLast {
      assert LastFits(ports, transit, pos, chain, routed, sent, closed, x, ports[x]) && !Done(ports, x);
      assert LaneNumbers(|chain[m]|, nexts[m], routed[m], |sent[m]|);
    }
  }

  lemma GoneBecause(ports: Ports, net: Net, chain: Chains, nexts: Nums, routed: Nums, sent: Logs,
      closed: set<LaneId>, pos: Positions, transit: Transits, token: Tokens, m: LaneId, j: nat)
    requires m in chain && m in routed && j < |routed[m]| < |chain[m]| && m !in closed && m.Other() !in closed
    requires chain[m][j] !in ports && Obliged(ports, closed, pos, token) && Chained(chain, pos) &&
        Gone(ports, transit, chain, nexts, routed, sent, closed) && Acks(net, pos, routed, token)
    ensures !MoreToCome(nexts, routed, m, j) && !LastOnItsWay(net, chain[m][j])
  {
    assert pos[chain[m][j]] == Pos(m, j);
  }

  /** So a bypassed port of an open pipe leads into the ring exactly when this holds of every port in
      between. */
  lemma BypassedLeadsInWhen(cs: seq<Command>, m: LaneId, i: nat)
    requires var h := Run(cs).h;
             m in h.chain && m in h.routed && i <= |h.routed[m]| < |h.chain[m]| && m !in h.closed &&
             m.Other() !in h.closed
    ensures var s := Run(cs);
            Walk(s.ports, s.h.transit, s.h.chain[m][i],
            |s.h.routed[m]| - i) == Some(s.h.chain[m][|s.h.routed[m]|]) <==>
            forall j :: i <= j < |s.h.routed[m]| ==>
                          MoreToCome(s.h.nexts, s.h.routed, m, j) || LastOnItsWay(s.net, s.h.chain[m][j])
  {
    hide Run, Walk, MoreToCome, LastOnItsWay;
    BypassedLeadsInExactly(cs, m, i);
    forall j | i <= j < |Run(cs).h.routed[m]|
      ensures Run(cs).h.chain[m][j] in Run(cs).ports <==>
              MoreToCome(Run(cs).h.nexts, Run(cs).h.routed, m, j) || LastOnItsWay(Run(cs).net, Run(cs).h.chain[m][j])
    {
      BypassedIsHere(cs, m, j);
    }
  }
}
