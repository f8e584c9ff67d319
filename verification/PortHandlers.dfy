/** The handlers of the events by which proxies come and go, and closure spreads, keep the
 invariant. */
module PortHandlers {
  import opened PortState
  import opened PortSteps
  import opened PortInvariant
  import opened PortProxy
  import opened PortRemoval
  import opened PortClosure
  import opened PortSettled
  import opened PortDraining

  // ----- MaybeRemoveProxy -----

  lemma MaybeRemoveSettles(s: State, x: Addr)
    requires Core(s) && Settled(s) && x in s.ports && s.ports[x].mode.Proxying?
    ensures Settled(MaybeRemoveProxy(s, x))
  {
    hide Lanes, Chained, Named, Known, Ids, Receivers, Senders, Nexts, Ends, Travellers, Waiting, Targets, Numbers,
        Placement, Reading, Gone, Lasts, TravelLasts, Closures, Flights, Mail, Queues, Pending, FlyingCargo,
        QueuedCargo, Manifest, Unheld, AcceptTokens, Announcements, Acks, ParkedAcks, ProxyTokens, Heralds;
    NotCargo(s.ports, s.h.cargo, x);
    GoneSettles(s.ports, s.h.sent, s.h.pos, s.h.transit, s.h.cargo, {}, x, {}, {});
  }

  // ----- OnPortAccepted -----

  lemma BecomeProxySettles(s: State, id: nat)
    requires Settled(s) && id in s.net && s.net[id].PortAccepted? && s.net[id].to in s.ports
    requires s.ports[s.net[id].to].mode.Buffering?
    ensures Settling(BecomeProxy(s, id), {}, {}, {s.net[id].to}, {})
  {
  }

  lemma AcceptedFacts(ports: Ports, net: Net, chain: Chains, pos: Positions, transit: Transits, cargo: Cargos,
      token: Tokens, id: nat)
    requires id in net && net[id].PortAccepted? && AcceptTokens(net, ports, transit, pos, chain, token) &&
        Known(ports, transit, cargo, token, pos)
    ensures net[id].to in ports && ports[net[id].to].mode.Buffering? && net[id].to in pos
  {
  }

  /** A port that is to be removed when it has forwarded the last message, although it has only
      just learned of its successor, was told that the other side closed. */
  lemma BufferedLast(ports: Ports, chain: Chains, routed: Nums, sent: Logs, closed: set<LaneId>, pos: Positions,
      transit: Transits, x: Addr)
    requires Lasts(ports, transit, pos, chain, routed, sent, closed) && x in ports && ports[x].mode.Buffering? &&
        ports[x].removeOnLast
    ensures ports[x].peerClosed
  {
  }

  lemma LastIsClosure(ports: Ports, chain: Chains, routed: Nums, sent: Logs, closed: set<LaneId>, pos: Positions,
      transit: Transits, x: Addr)
    requires Lasts(ports, transit, pos, chain, routed, sent, closed) && x in ports && ports[x].removeOnLast &&
        ports[x].peerClosed
    ensures x in pos && ClosureFits(ports, transit, pos, chain, routed, sent, closed, x, ports[x].lastRecv)
  {
  }

  /** A proxy that has not been told of the closure has nothing to pass on. */
  lemma NotBusy(ports: Ports, net: Net, chain: Chains, routed: Nums, closed: set<LaneId>, pos: Positions,
      transit: Transits, x: Addr)
    requires Heralds(net, ports, transit, chain, routed, closed, {x}) && x in ports &&
        !ports[x].mode.Receiving? && !ports[x].removeOnLast && Chained(chain, pos) && Senders(ports, pos, chain)
    ensures Heralds(net, ports, transit, chain, routed, closed, {})
  {
    forall m | m in chain && m !in closed && m.Other() in closed
      ensures HeraldLane(net, ports, transit, chain, {}, m, |routed[m]|)
    {
      assert HeraldLane(net, ports, transit, chain, {x}, m, |routed[m]|);
      forall i | 0 <= i < |chain[m]| && chain[m][i] == x
        ensures i + 1 < |chain[m]| && !Told(ports, transit, chain, m, i)
      {
        assert pos[x] == Pos(m, i);
      }
    }
  }

  lemma OnPortAcceptedKeeps(s: State, id: nat)
    requires Inv(s) && id in s.net && s.net[id].PortAccepted?
    ensures var t := OnPortAccepted(s, id);
            Inv(t)
  {
    hide Lanes, Chained, Named, Known, Ids, Receivers, Senders, Nexts, Ends, Travellers, Waiting, Targets, Numbers,
        Placement, Reading, Gone, Lasts, TravelLasts, Closures, Flights, Mail, Queues, Pending, FlyingCargo,
        QueuedCargo, Manifest, Unheld, AcceptTokens, Announcements, Acks, ParkedAcks, ProxyTokens, Heralds,
        Heralding, Settled;
    var x := s.net[id].to;
    AcceptedFacts(s.ports, s.net, s.h.chain, s.h.pos, s.h.transit, s.h.cargo, s.h.token, id);
    BecomeProxySettles(s, id) by { assert Settled(s); }
    BecomeProxyKeeps(s, id);
    var t, u := BecomeProxy(s, id), ForwardMessages(BecomeProxy(s, id), x);
    ForwardMessagesKeep(t, x, {x});
    if u.ports[x].removeOnLast {
      BufferedLast(s.ports, s.h.chain, s.h.routed, s.h.sent, s.h.closed, s.h.pos, s.h.transit, x);
      RetireProxy(u, x);
    } else {
      AnnounceProxy(u, x);
    }
  }

  lemma AnnounceProxy(s: State, x: Addr)
    requires Core(s) && Heralding(s, {x}) && Settled(s)
    requires x in s.ports && s.ports[x].mode.Proxying? && !s.ports[x].removeOnLast && x in s.h.pos && x !in s.h.token
    ensures var t := InitiateProxyRemoval(s, x);
            Inv(t)
  {
    hide Lanes, Chained, Named, Known, Ids, Receivers, Senders, Nexts, Ends, Travellers, Waiting, Targets, Numbers,
        Placement, Reading, Gone, Lasts, TravelLasts, Closures, Flights, Mail, Queues, Pending, FlyingCargo,
        QueuedCargo, Manifest, Unheld, AcceptTokens, Announcements, Acks, ParkedAcks, ProxyTokens, Heralds;
    NotBusy(s.ports, s.net, s.h.chain, s.h.routed, s.h.closed, s.h.pos, s.h.transit, x);
    InitiateKeeps(s, x, {});
    QuietSettles(s, InitiateProxyRemoval(s, x), {}, {}, {}, {});
  }

  /** A proxy that was closed behind its back passes the news on and goes when it is done. */
  lemma RetireProxy(s: State, x: Addr)
    requires Core(s) && Heralding(s, {x}) && Settled(s) && x in s.ports && s.ports[x].mode.Proxying?
    requires s.ports[x].removeOnLast && s.ports[x].peerClosed
    ensures var t := Post(MaybeRemoveProxy(s, x), ObserveClosure(s.ports[x].peer, s.ports[x].lastRecv));
            Inv(t)
  {
    hide Lanes, Chained, Named, Known, Ids, Receivers, Senders, Nexts, Ends, Travellers, Waiting, Targets, Numbers,
        Placement, Reading, Gone, Lasts, TravelLasts, Closures, Flights, Mail, Queues, Pending, FlyingCargo,
        QueuedCargo, Manifest, Unheld, AcceptTokens, Announcements, Acks, ParkedAcks, ProxyTokens, Heralds,
        ClosureFits;
    var y, last := s.ports[x].peer, s.ports[x].lastRecv;
    LastIsClosure(s.ports, s.h.chain, s.h.routed, s.h.sent, s.h.closed, s.h.pos, s.h.transit, x);
    FitsSuccessor(s.ports, s.h.chain, s.h.nexts, s.h.routed, s.h.sent, s.h.closed, s.h.pos, s.h.transit, x, last);
    SuccessorOf(s.ports, s.h.chain, s.h.routed, s.h.sent, s.h.closed, s.h.pos, x);
    MaybeRemoveKeeps(s, x, {x});
    MaybeRemoveFits(s, x, y, last);
    MaybeRemoveSettles(s, x);
    PassOnKeeps(MaybeRemoveProxy(s, x), x, y, last);
  }

  // ----- OnObserveProxy -----

  lemma AnnouncedFacts(ports: Ports, net: Net, chain: Chains, routed: Nums, sent: Logs, closed: set<LaneId>,
      pos: Positions, transit: Transits, cargo: Cargos, token: Tokens, id: nat)
    requires id in net && net[id].ObserveProxy? && Announcements(net, pos, chain, token) &&
        Receivers(ports, pos, chain, routed, sent, closed) && Known(ports, transit, cargo, token, pos)
    ensures net[id].proxy in pos && net[id].to in pos
    ensures net[id].to in ports ==> net[id].to !in transit
    ensures net[id].to in ports && ports[net[id].to].mode.Receiving? ==> ports[net[id].to].parked.None?
  {
  }

  lemma OnObserveProxyKeeps(s: State, id: nat)
    requires Inv(s) && id in s.net && s.net[id].ObserveProxy?
    ensures var t := OnObserveProxy(s, id);
            Inv(t)
  {
    hide Lanes, Chained, Named, Known, Ids, Receivers, Senders, Nexts, Ends, Travellers, Waiting, Targets, Numbers,
        Placement, Reading, Gone, Lasts, TravelLasts, Closures, Flights, Mail, Queues, Pending, FlyingCargo,
        QueuedCargo, Manifest, Unheld, AcceptTokens, Announcements, Acks, ParkedAcks, ProxyTokens, Heralds, Settling;
    var e, t := s.net[id], OnObserveProxy(s, id);
    AnnouncedFacts(s.ports, s.net, s.h.chain, s.h.routed, s.h.sent, s.h.closed, s.h.pos, s.h.transit, s.h.cargo,
        s.h.token, id);
    IsTracked(s, e.to);
    if e.to !in s.ports {
      DropTokenKeeps(s, id, e.proxy);
    } else if s.ports[e.to].peer != e.proxy {
      RelayKeeps(s, id);
    } else if !s.ports[e.to].mode.Receiving? {
      ParkKeeps(s, id);
    } else {
      SkipProxyKeeps(s, id);
    }
    QuietSettles(s, t, {}, {}, {}, {});
  }

  // ----- OnObserveProxyAck -----

  lemma AckedFacts(ports: Ports, net: Net, chain: Chains, routed: Nums, pos: Positions, transit: Transits,
      token: Tokens, id: nat)
    requires id in net && net[id].ObserveProxyAck? && Acks(net, pos, routed, token) && ProxyTokens(ports, transit,
        pos, chain, token)
    ensures net[id].to in pos && (net[id].to in ports ==> ports[net[id].to].mode.Proxying?)
    ensures net[id].last != INVALID_SEQUENCE_NUM ==>
              var m, i := pos[net[id].to].lane, pos[net[id].to].idx;
              m in routed && i < |routed[m]| && net[id].last + 1 == routed[m][i]
  {
  }

  lemma OnObserveProxyAckKeeps(s: State, id: nat)
    requires Inv(s) && id in s.net && s.net[id].ObserveProxyAck?
    ensures var t := OnObserveProxyAck(s, id);
            Inv(t)
  {
    hide Lanes, Chained, Named, Known, Ids, Receivers, Senders, Nexts, Ends, Travellers, Waiting, Targets, Numbers,
        Placement, Reading, Gone, Lasts, TravelLasts, Closures, Flights, Mail, Queues, Pending, FlyingCargo,
        QueuedCargo, Manifest, Unheld, AcceptTokens, Announcements, Acks, ParkedAcks, ProxyTokens, Heralds, Settling;
    var e := s.net[id];
    var t := DropToken(s, id, e.to);
    AckedFacts(s.ports, s.net, s.h.chain, s.h.routed, s.h.pos, s.h.transit, s.h.token, id);
    DropTokenKeeps(s, id, e.to);
    QuietSettles(s, t, {}, {}, {}, {});
    if e.to in s.ports {
      if e.last == INVALID_SEQUENCE_NUM {
        InitiateKeeps(t, e.to, {});
        QuietSettles(t, InitiateProxyRemoval(t, e.to), {}, {}, {}, {});
      } else {
        IsTracked(s, e.to);
        var u := ExpectLast(t, e.to, e.last);
        ExpectLastKeeps(t, e.to, e.last);
        QuietSettles(t, u, {}, {}, {}, {});
        MaybeRemoveKeeps(u, e.to, {});
        MaybeRemoveSettles(u, e.to);
      }
    }
  }

  // ----- OnObserveClosure -----

  lemma OnObserveClosureSettles(s: State, id: nat)
    requires Inv(s) && id in s.net && s.net[id].ObserveClosure?
    ensures Settled(OnObserveClosure(s, id))
  {
    hide Lanes, Chained, Named, Known, Ids, Receivers, Senders, Nexts, Ends, Travellers, Waiting, Targets, Numbers,
        Placement, Reading, Gone, Lasts, TravelLasts, Closures, Flights, Mail, Queues, Pending, FlyingCargo,
        QueuedCargo, Manifest, Unheld, AcceptTokens, Announcements, Acks, ParkedAcks, ProxyTokens, Heralds,
        Settling, ClosureFits;
    var x, last, v := s.net[id].to, s.net[id].last, OnObserveClosure(s, id);
    if x !in s.ports {
      QuietSettles(s, v, {}, {}, {}, {});
    } else {
      var t := NoteClosure(Take(s, id), x, last);
      NoteClosureKeeps(s, id);
      QuietSettles(s, t, {}, {}, {}, {});
      if s.ports[x].mode.Proxying? {
        MaybeRemoveSettles(t, x);
        QuietSettles(MaybeRemoveProxy(t, x), v, {}, {}, {}, {});
      } else {
        QuietSettles(t, v, {}, {}, {}, {});
      }
    }
  }

  lemma OnObserveClosureInv(s: State, id: nat)
    requires Inv(s) && id in s.net && s.net[id].ObserveClosure?
    ensures var t := OnObserveClosure(s, id);
            Inv(t)
  {
    hide Lanes, Chained, Named, Known, Ids, Receivers, Senders, Nexts, Ends, Travellers, Waiting, Targets, Numbers,
        Placement, Reading, Gone, Lasts, TravelLasts, Closures, Flights, Mail, Queues, Pending, FlyingCargo,
        QueuedCargo, Manifest, Unheld, AcceptTokens, Announcements, Acks, ParkedAcks, ProxyTokens, Heralds, Settled,
        Heralding;
    assert Heralding(s, {});
    OnObserveClosureKeeps(s, id);
    OnObserveClosureSettles(s, id);
  }
}
