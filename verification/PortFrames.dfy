/**
 Which parts of the invariant a step cannot disturb: a port changed in fields a part does not
 read, an event taken from the net, an event added to it.
 */
module PortFrames {
  import opened PortState
  import opened PortInvariant

  // ----- One port changes -----

  lemma KeepReceivers(ports: Ports, chain: Chains, routed: Nums, sent: Logs, closed: set<LaneId>, pos: Positions,
      a: Addr, q: Port)
    requires Receivers(ports, pos, chain, routed, sent, closed) && a in ports
    requires q.mode.Receiving? ==> q == ports[a].(lastRecv := q.lastRecv, queue := q.queue,
        signalable := q.signalable, peerClosed := q.peerClosed)
    ensures Receivers(ports[a := q], pos, chain, routed, sent, closed)
  {
  }

  lemma KeepEnds(ports: Ports, chain: Chains, closed: set<LaneId>, transit: Transits, a: Addr, q: Port)
    requires a in ports && q.mode.Receiving? == ports[a].mode.Receiving? && Ends(ports, transit, chain, closed)
    ensures Ends(ports[a := q], transit, chain, closed)
  {
  }

  lemma KeepTravellers(ports: Ports, chain: Chains, nexts: Nums, routed: Nums, sent: Logs, closed: set<LaneId>,
      pos: Positions, transit: Transits, token: Tokens, a: Addr, q: Port)
    requires a in ports && q.mode == ports[a].mode && Travellers(ports, transit, pos, chain, nexts, routed, sent,
        closed, token)
    ensures Travellers(ports[a := q], transit, pos, chain, nexts, routed, sent, closed, token)
  {
  }

  lemma KeepAcceptTokens(ports: Ports, net: Net, chain: Chains, pos: Positions, transit: Transits, token: Tokens,
      a: Addr, q: Port)
    requires a in ports && q.mode == ports[a].mode && AcceptTokens(net, ports, transit, pos, chain, token)
    ensures AcceptTokens(net, ports[a := q], transit, pos, chain, token)
  {
  }

  lemma KeepSenders(ports: Ports, chain: Chains, pos: Positions, transit: Transits, token: Tokens, a: Addr, q: Port)
    requires a in ports && q.mode == ports[a].mode && (q.mode.Receiving? || q.peer == ports[a].peer)
    requires Senders(ports, pos, chain) && Waiting(ports, pos, chain, transit, token)
    ensures Senders(ports[a := q], pos, chain) && Waiting(ports[a := q], pos, chain, transit, token)
  {
  }

  lemma KeepProxyTokens(ports: Ports, chain: Chains, pos: Positions, transit: Transits, token: Tokens, a: Addr,
      q: Port)
    requires a in ports && q.mode == ports[a].mode && (q.parked.Some? ==> q.peer == ports[a].peer) &&
        q.parked == ports[a].parked
    requires ProxyTokens(ports, transit, pos, chain, token) && ParkedAcks(ports, token)
    ensures ProxyTokens(ports[a := q], transit, pos, chain, token) && ParkedAcks(ports[a := q], token)
  {
  }

  lemma KeepNexts(ports: Ports, nexts: Nums, pos: Positions, a: Addr, q: Port)
    requires a in ports && q.queue.next == ports[a].queue.next && Nexts(ports, pos, nexts)
    ensures Nexts(ports[a := q], pos, nexts)
  {
  }

  lemma KeepLasts(ports: Ports, chain: Chains, routed: Nums, sent: Logs, closed: set<LaneId>, pos: Positions,
      transit: Transits, a: Addr, q: Port)
    requires a in ports && q.mode.Receiving? == ports[a].mode.Receiving? &&
        (q.mode.Buffering? ==> ports[a].mode.Buffering?)
    requires q.lastRecv == ports[a].lastRecv
    requires q.removeOnLast == ports[a].removeOnLast && q.peerClosed == ports[a].peerClosed
    requires Lasts(ports, transit, pos, chain, routed, sent, closed)
    ensures Lasts(ports[a := q], transit, pos, chain, routed, sent, closed)
  {
  }

  lemma KeepGone(ports: Ports, net: Net, chain: Chains, nexts: Nums, routed: Nums, sent: Logs, closed: set<LaneId>,
      pos: Positions, transit: Transits, a: Addr, q: Port)
    requires a in ports && q.peerClosed == ports[a].peerClosed && Gone(ports, transit, chain, nexts, routed, sent,
        closed) && Closures(net, ports, transit, pos, chain, routed, sent, closed) && TravelLasts(ports, transit,
        pos, chain, sent, closed)
    ensures Gone(ports[a := q], transit, chain, nexts, routed, sent, closed) && Closures(net, ports[a := q],
        transit, pos, chain, routed, sent, closed) && TravelLasts(ports[a := q], transit, pos, chain, sent, closed)
  {
  }

  lemma KeepHeralds(ports: Ports, net: Net, chain: Chains, routed: Nums, closed: set<LaneId>, transit: Transits,
      busy: set<Addr>, a: Addr, q: Port)
    requires a in ports && q.mode == ports[a].mode
    requires q.removeOnLast == ports[a].removeOnLast && q.peerClosed == ports[a].peerClosed
    requires Heralds(net, ports, transit, chain, routed, closed, busy)
    ensures Heralds(net, ports[a := q], transit, chain, routed, closed, busy)
  {
  }

  lemma KeepQueues(ports: Ports, chain: Chains, sent: Logs, place: Places, a: Addr, q: Port)
    requires a in ports && q.queue.pending == ports[a].queue.pending && Queues(ports, chain, sent, place)
    ensures Queues(ports[a := q], chain, sent, place)
  {
  }

  lemma KeepPending(ports: Ports, place: Places, pos: Positions, a: Addr, q: Port)
    requires a in ports && q.queue.pending == ports[a].queue.pending && Pending(ports, pos, place)
    ensures Pending(ports[a := q], pos, place)
  {
  }

  lemma KeepManifest(ports: Ports, net: Net, chain: Chains, place: Places, cargo: Cargos, a: Addr, q: Port)
    requires a in ports && q.queue.pending == ports[a].queue.pending && Manifest(net, ports, chain, cargo, place)
    ensures Manifest(net, ports[a := q], chain, cargo, place)
  {
  }

  lemma KeepFlyingCargo(ports: Ports, net: Net, sent: Logs, pos: Positions, transit: Transits, cargo: Cargos,
      a: Addr, q: Port)
    requires a in ports && q.mode.Receiving? == ports[a].mode.Receiving? && q.signalable == ports[a].signalable
    requires FlyingCargo(net, ports, pos, transit, cargo, sent) && Unheld(ports, cargo)
    ensures FlyingCargo(net, ports[a := q], pos, transit, cargo, sent) && Unheld(ports[a := q], cargo)
  {
  }

  lemma KeepQueuedCargo(ports: Ports, sent: Logs, pos: Positions, transit: Transits, cargo: Cargos, a: Addr, q: Port)
    requires a in ports && q.mode.Receiving? == ports[a].mode.Receiving? && q.signalable == ports[a].signalable
    requires q.queue.pending == ports[a].queue.pending
    requires QueuedCargo(ports, pos, transit, cargo, sent)
    ensures QueuedCargo(ports[a := q], pos, transit, cargo, sent)
  {
  }

  lemma KeepKnown(ports: Ports, pos: Positions, transit: Transits, cargo: Cargos, token: Tokens, a: Addr, q: Port)
    requires a in ports && Known(ports, transit, cargo, token, pos)
    ensures Known(ports[a := q], transit, cargo, token, pos)
  {
    assert ports[a := q].Keys == ports.Keys;
  }

  lemma KnownToken(ports: Ports, pos: Positions, transit: Transits, cargo: Cargos, token: Tokens, x: Addr, tok: Token)
    requires x in pos && Known(ports, transit, cargo, token, pos)
    ensures Known(ports, transit, cargo, token[x := tok], pos)
  {
    assert token[x := tok].Keys == token.Keys + {x};
  }

  lemma KnownNoToken(ports: Ports, pos: Positions, transit: Transits, cargo: Cargos, token: Tokens, x: Addr)
    requires Known(ports, transit, cargo, token, pos)
    ensures Known(ports, transit, cargo, token - {x}, pos)
  {
  }

  lemma PostId(net: Net, nextId: nat, e: Event)
    requires Ids(net, nextId)
    ensures Ids(net[nextId := e], nextId + 1) && nextId !in net
  {
  }

  lemma TakeId(net: Net, nextId: nat, id: nat)
    requires Ids(net, nextId)
    ensures Ids(net - {id}, nextId) && nextId !in net && nextId !in net - {id}
  {
  }

  /** A change that only concerns how far a port has come on its way to removal. */
  lemma KeepPort(ports: Ports, net: Net, chain: Chains, nexts: Nums, routed: Nums, sent: Logs, place: Places,
      closed: set<LaneId>, pos: Positions, transit: Transits, cargo: Cargos, token: Tokens, a: Addr, q: Port)
    requires a in ports && !q.mode.Receiving? && !ports[a].mode.Receiving?
    requires q == ports[a].(mode := q.mode, lastRecv := q.lastRecv, parked := q.parked,
        removeOnLast := q.removeOnLast)
    requires Known(ports, transit, cargo, token, pos) && Receivers(ports, pos, chain, routed, sent, closed) &&
        Nexts(ports, pos, nexts) && Ends(ports, transit, chain, closed) && Gone(ports, transit, chain, nexts,
        routed, sent, closed) && Closures(net, ports, transit, pos, chain, routed, sent, closed) &&
        TravelLasts(ports, transit, pos, chain, sent, closed) && Queues(ports, chain, sent, place) &&
        Pending(ports, pos, place) &&
             Manifest(net, ports, chain, cargo, place)
    ensures Known(ports[a := q], transit, cargo, token, pos) && Receivers(ports[a := q], pos, chain, routed, sent,
        closed) && Nexts(ports[a := q], pos, nexts)
    ensures Ends(ports[a := q], transit, chain, closed) && Gone(ports[a := q], transit, chain, nexts, routed, sent,
        closed) && Closures(net, ports[a := q], transit, pos, chain, routed, sent, closed)
    ensures TravelLasts(ports[a := q], transit, pos, chain, sent, closed)
    ensures Queues(ports[a := q], chain, sent, place) && Pending(ports[a := q], pos, place) &&
        Manifest(net, ports[a := q], chain, cargo, place)
  {
    hide Lanes, Chained, Named, Known, Ids, Receivers, Senders, Nexts, Ends, Travellers, Waiting, Targets, Numbers,
        Placement, Reading, Gone, Lasts, TravelLasts, Closures, Flights, Mail, Queues, Pending, FlyingCargo,
        QueuedCargo, Manifest, Unheld, AcceptTokens, Announcements, Acks, ParkedAcks, ProxyTokens, Heralds;
    KeepKnown(ports, pos, transit, cargo, token, a, q);
    KeepReceivers(ports, chain, routed, sent, closed, pos, a, q);
    KeepNexts(ports, nexts, pos, a, q);
    KeepEnds(ports, chain, closed, transit, a, q);
    KeepGone(ports, net, chain, nexts, routed, sent, closed, pos, transit, a, q);
    KeepQueues(ports, chain, sent, place, a, q);
    KeepPending(ports, place, pos, a, q);
    KeepManifest(ports, net, chain, place, cargo, a, q);
  }

  /** A receiving port addresses another port. */
  lemma KeepSkip(ports: Ports, net: Net, chain: Chains, nexts: Nums, routed: Nums, sent: Logs, place: Places,
      closed: set<LaneId>, pos: Positions, transit: Transits, cargo: Cargos, token: Tokens, a: Addr, q: Port)
    requires a in ports && q.mode.Receiving? && q == ports[a].(peer := q.peer) && ports[a].mode.Receiving?
    requires Known(ports, transit, cargo, token, pos) && Senders(ports, pos, chain) &&
        Waiting(ports, pos, chain, transit, token) && Nexts(ports, pos, nexts) && Ends(ports, transit, chain,
        closed) && Gone(ports, transit, chain, nexts, routed, sent, closed) && Closures(net, ports, transit, pos,
        chain, routed, sent, closed) && Lasts(ports, transit, pos, chain, routed, sent, closed) &&
        TravelLasts(ports, transit, pos, chain, sent, closed)
    requires Queues(ports, chain, sent, place) && Pending(ports, pos, place) && Manifest(net, ports, chain, cargo,
        place) && FlyingCargo(net, ports, pos, transit, cargo, sent) && QueuedCargo(ports, pos, transit, cargo,
        sent) && Unheld(ports, cargo)
    ensures Known(ports[a := q], transit, cargo, token, pos) && Senders(ports[a := q], pos, chain) &&
        Waiting(ports[a := q], pos, chain, transit, token)
    ensures Nexts(ports[a := q], pos, nexts) && Ends(ports[a := q], transit, chain, closed) &&
        Gone(ports[a := q], transit, chain, nexts, routed, sent, closed)
    ensures Closures(net, ports[a := q], transit, pos, chain, routed, sent, closed) && Lasts(ports[a := q], transit,
        pos, chain, routed, sent, closed) && TravelLasts(ports[a := q], transit, pos, chain, sent, closed)
    ensures Queues(ports[a := q], chain, sent, place) && Pending(ports[a := q], pos, place) &&
        Manifest(net, ports[a := q], chain, cargo, place)
    ensures FlyingCargo(net, ports[a := q], pos, transit, cargo, sent) && QueuedCargo(ports[a := q], pos, transit,
        cargo, sent) && Unheld(ports[a := q], cargo)
  {
    hide Lanes, Chained, Named, Known, Ids, Receivers, Senders, Nexts, Ends, Travellers, Waiting, Targets, Numbers,
        Placement, Reading, Gone, Lasts, TravelLasts, Closures, Flights, Mail, Queues, Pending, FlyingCargo,
        QueuedCargo, Manifest, Unheld, AcceptTokens, Announcements, Acks, ParkedAcks, ProxyTokens, Heralds;
    KeepKnown(ports, pos, transit, cargo, token, a, q);
    KeepSenders(ports, chain, pos, transit, token, a, q);
    KeepNexts(ports, nexts, pos, a, q);
    KeepEnds(ports, chain, closed, transit, a, q);
    KeepGone(ports, net, chain, nexts, routed, sent, closed, pos, transit, a, q);
    KeepLasts(ports, chain, routed, sent, closed, pos, transit, a, q);
    KeepQueues(ports, chain, sent, place, a, q);
    KeepPending(ports, place, pos, a, q);
    KeepManifest(ports, net, chain, place, cargo, a, q);
    KeepFlyingCargo(ports, net, sent, pos, transit, cargo, a, q);
    KeepQueuedCargo(ports, sent, pos, transit, cargo, a, q);
  }

  // ----- An event that is not a user message is taken or posted -----

  lemma TakeFlights(net: Net, chain: Chains, sent: Logs, place: Places, id: nat)
    requires id in net && !net[id].User? && Flights(net, chain, sent, place)
    ensures Flights(net - {id}, chain, sent, place)
  {
  }

  lemma TakeMail(ports: Ports, net: Net, chain: Chains, routed: Nums, sent: Logs, place: Places,
      closed: set<LaneId>, pos: Positions, transit: Transits, id: nat)
    requires Mail(net, pos, place) && Closures(net, ports, transit, pos, chain, routed, sent, closed)
    ensures Mail(net - {id}, pos, place) && Closures(net - {id}, ports, transit, pos, chain, routed, sent, closed)
  {
  }

  lemma TakeFlyingCargo(ports: Ports, net: Net, sent: Logs, pos: Positions, transit: Transits, cargo: Cargos, id: nat)
    requires FlyingCargo(net, ports, pos, transit, cargo, sent)
    ensures FlyingCargo(net - {id}, ports, pos, transit, cargo, sent)
  {
  }

  lemma TakeManifest(ports: Ports, net: Net, chain: Chains, place: Places, cargo: Cargos, id: nat)
    requires id in net && !net[id].User? && Manifest(net, ports, chain, cargo, place)
    ensures Manifest(net - {id}, ports, chain, cargo, place)
  {
  }

  lemma TakeHeralds(ports: Ports, net: Net, chain: Chains, routed: Nums, closed: set<LaneId>, transit: Transits,
      busy: set<Addr>, id: nat)
    requires id in net && !net[id].ObserveClosure? && Heralds(net, ports, transit, chain, routed, closed, busy)
    ensures Heralds(net - {id}, ports, transit, chain, routed, closed, busy)
  {
    forall a | ClosureInFlight(net, a)
      ensures ClosureInFlight(net - {id}, a)
    {
      var j :| j in net && net[j].ObserveClosure? && net[j].to == a;
      assert j in net - {id};
    }
  }

  lemma PostFlights(net: Net, chain: Chains, sent: Logs, place: Places, id: nat, e: Event)
    requires id !in net && Flights(net, chain, sent, place)
    ensures Flights(net[id := e], chain, sent, place)
  {
  }

  lemma PostMail(net: Net, place: Places, pos: Positions, id: nat, e: Event)
    requires id !in net && !e.User? && Mail(net, pos, place)
    ensures Mail(net[id := e], pos, place)
  {
  }

  lemma PostFlyingCargo(ports: Ports, net: Net, sent: Logs, pos: Positions, transit: Transits, cargo: Cargos,
      id: nat, e: Event)
    requires id !in net && !e.User? && FlyingCargo(net, ports, pos, transit, cargo, sent)
    ensures FlyingCargo(net[id := e], ports, pos, transit, cargo, sent)
  {
  }

  lemma PostManifest(ports: Ports, net: Net, chain: Chains, place: Places, cargo: Cargos, id: nat, e: Event)
    requires id !in net && Manifest(net, ports, chain, cargo, place)
    ensures Manifest(net[id := e], ports, chain, cargo, place)
  {
  }

  lemma PostHeralds(ports: Ports, net: Net, chain: Chains, routed: Nums, closed: set<LaneId>, transit: Transits,
      busy: set<Addr>, id: nat, e: Event)
    requires id !in net && Heralds(net, ports, transit, chain, routed, closed, busy)
    ensures Heralds(net[id := e], ports, transit, chain, routed, closed, busy)
  {
    forall a | ClosureInFlight(net, a)
      ensures ClosureInFlight(net[id := e], a)
    {
      var j :| j in net && net[j].ObserveClosure? && net[j].to == a;
      assert j in net[id := e];
    }
  }

  lemma PostClosures(ports: Ports, net: Net, chain: Chains, routed: Nums, sent: Logs, closed: set<LaneId>,
      pos: Positions, transit: Transits, id: nat, e: Event)
    requires id !in net && Closures(net, ports, transit, pos, chain, routed, sent, closed)
    requires e.ObserveClosure? ==> ClosureFits(ports, transit, pos, chain, routed, sent, closed, e.to, e.last)
    ensures Closures(net[id := e], ports, transit, pos, chain, routed, sent, closed)
  {
  }

  lemma TakeOther(ports: Ports, net: Net, chain: Chains, routed: Nums, sent: Logs, place: Places,
      closed: set<LaneId>, pos: Positions, transit: Transits, cargo: Cargos, nextId: nat, id: nat)
    requires id in net && !net[id].User? && Ids(net, nextId) && Flights(net, chain, sent, place) &&
        Mail(net, pos, place) && Closures(net, ports, transit, pos, chain, routed, sent, closed) &&
        FlyingCargo(net, ports, pos, transit, cargo, sent) && Manifest(net, ports, chain, cargo, place)
    ensures Ids(net - {id}, nextId) && nextId !in net && Flights(net - {id}, chain, sent, place) &&
        Mail(net - {id}, pos, place)
    ensures Closures(net - {id}, ports, transit, pos, chain, routed, sent, closed) && FlyingCargo(net - {id}, ports,
        pos, transit, cargo, sent) && Manifest(net - {id}, ports, chain, cargo, place)
  {
    hide Lanes, Chained, Named, Known, Ids, Receivers, Senders, Nexts, Ends, Travellers, Waiting, Targets, Numbers,
        Placement, Reading, Gone, Lasts, TravelLasts, Closures, Flights, Mail, Queues, Pending, FlyingCargo,
        QueuedCargo, Manifest, Unheld, AcceptTokens, Announcements, Acks, ParkedAcks, ProxyTokens, Heralds;
    TakeId(net, nextId, id);
    TakeFlights(net, chain, sent, place, id);
    TakeMail(ports, net, chain, routed, sent, place, closed, pos, transit, id);
    TakeFlyingCargo(ports, net, sent, pos, transit, cargo, id);
    TakeManifest(ports, net, chain, place, cargo, id);
  }

  lemma PostOther(ports: Ports, net: Net, chain: Chains, routed: Nums, sent: Logs, place: Places,
      closed: set<LaneId>, pos: Positions, transit: Transits, cargo: Cargos, id: nat, e: Event)
    requires id !in net && !e.User? && Flights(net, chain, sent, place) && Mail(net, pos, place) &&
        Closures(net, ports, transit, pos, chain, routed, sent, closed) && FlyingCargo(net, ports, pos, transit,
        cargo, sent) && Manifest(net, ports, chain, cargo, place)
    requires e.ObserveClosure? ==> ClosureFits(ports, transit, pos, chain, routed, sent, closed, e.to, e.last)
    ensures Flights(net[id := e], chain, sent, place) && Mail(net[id := e], pos, place) &&
        Closures(net[id := e], ports, transit, pos, chain, routed, sent, closed)
    ensures FlyingCargo(net[id := e], ports, pos, transit, cargo, sent) && Manifest(net[id := e], ports, chain,
        cargo, place)
  {
    hide Lanes, Chained, Named, Known, Ids, Receivers, Senders, Nexts, Ends, Travellers, Waiting, Targets, Numbers,
        Placement, Reading, Gone, Lasts, TravelLasts, Closures, Flights, Mail, Queues, Pending, FlyingCargo,
        QueuedCargo, Manifest, Unheld, AcceptTokens, Announcements, Acks, ParkedAcks, ProxyTokens, Heralds,
        ClosureFits;
    PostFlights(net, chain, sent, place, id, e);
    PostMail(net, place, pos, id, e);
    PostClosures(ports, net, chain, routed, sent, closed, pos, transit, id, e);
    PostFlyingCargo(ports, net, sent, pos, transit, cargo, id, e);
    PostManifest(ports, net, chain, place, cargo, id, e);
  }

  lemma SwapEvent(ports: Ports, net: Net, chain: Chains, routed: Nums, sent: Logs, place: Places,
      closed: set<LaneId>, pos: Positions, transit: Transits, cargo: Cargos, nextId: nat, id: nat, e: Event)
    requires id in net && !net[id].User? && !e.User? && !e.ObserveClosure?
    requires Ids(net, nextId) && Flights(net, chain, sent, place) && Mail(net, pos, place) &&
        Closures(net, ports, transit, pos, chain, routed, sent, closed) && FlyingCargo(net, ports, pos, transit,
        cargo, sent) && Manifest(net, ports, chain, cargo, place)
    ensures Flights((net - {id})[nextId := e], chain, sent, place) && Mail((net - {id})[nextId := e], pos, place)
    ensures Closures((net - {id})[nextId := e], ports, transit, pos, chain, routed, sent, closed) &&
        FlyingCargo((net - {id})[nextId := e], ports, pos, transit, cargo, sent)
    ensures Manifest((net - {id})[nextId := e], ports, chain, cargo, place)
  {
    hide Lanes, Chained, Named, Known, Ids, Receivers, Senders, Nexts, Ends, Travellers, Waiting, Targets, Numbers,
        Placement, Reading, Gone, Lasts, TravelLasts, Closures, Flights, Mail, Queues, Pending, FlyingCargo,
        QueuedCargo, Manifest, Unheld, AcceptTokens, Announcements, Acks, ParkedAcks, ProxyTokens, Heralds,
        ClosureFits;
    TakeOther(ports, net, chain, routed, sent, place, closed, pos, transit, cargo, nextId, id);
    PostOther(ports, net - {id}, chain, routed, sent, place, closed, pos, transit, cargo, nextId, e);
  }
}
