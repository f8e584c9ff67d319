/** The announcement of a proxy on its way round the cycle, its acknowledgement, and the
 removal of the proxy. */
module PortRemoval {
  import opened PortState
  import opened PortSteps
  import opened PortInvariant
  import opened PortFrames
  import opened PortProxy

  lemma PeerKnown(ports: Ports, chain: Chains, routed: Nums, sent: Logs, closed: set<LaneId>, pos: Positions, x: Addr)
    requires Chained(chain, pos) && Receivers(ports, pos, chain, routed, sent, closed) &&
        Senders(ports, pos, chain) && x in ports
    ensures ports[x].peer in pos
  {
  }

  /** The obligation of a proxy takes another form. */
  lemma Retoken(ports: Ports, net: Net, chain: Chains, nexts: Nums, routed: Nums, sent: Logs, closed: set<LaneId>,
      pos: Positions, transit: Transits, cargo: Cargos, token: Tokens, x: Addr, tok: Token)
    requires x in token && x in pos && !token[x].Accepting? && !tok.Accepting?
    requires Known(ports, transit, cargo, token, pos) && Travellers(ports, transit, pos, chain, nexts, routed, sent,
        closed, token) && Waiting(ports, pos, chain, transit, token) && AcceptTokens(net, ports, transit, pos,
        chain, token)
    ensures Known(ports, transit, cargo, token[x := tok], pos) && Travellers(ports, transit, pos, chain, nexts,
        routed, sent, closed, token[x := tok]) && Waiting(ports, pos, chain, transit, token[x := tok])
    ensures AcceptTokens(net, ports, transit, pos, chain, token[x := tok])
  {
    hide Lanes, Chained, Named, Known, Ids, Receivers, Senders, Nexts, Ends, Travellers, Waiting, Targets, Numbers,
        Placement, Reading, Gone, Lasts, TravelLasts, Closures, Flights, Mail, Queues, Pending, FlyingCargo,
        QueuedCargo, Manifest, Unheld, AcceptTokens, Announcements, Acks, ParkedAcks, ProxyTokens, Heralds;
    KnownToken(ports, pos, transit, cargo, token, x, tok);
    SwapWaiting(ports, chain, pos, transit, token, x, tok);
    SwapTravellers(ports, chain, nexts, routed, sent, closed, pos, transit, token, x, tok);
    RetokenAccepts(ports, net, chain, pos, transit, token, x, tok);
  }

  lemma SwapTravellers(ports: Ports, chain: Chains, nexts: Nums, routed: Nums, sent: Logs, closed: set<LaneId>,
      pos: Positions, transit: Transits, token: Tokens, x: Addr, tok: Token)
    requires x in token && Travellers(ports, transit, pos, chain, nexts, routed, sent, closed, token)
    ensures Travellers(ports, transit, pos, chain, nexts, routed, sent, closed, token[x := tok])
  {
  }

  lemma RetokenAccepts(ports: Ports, net: Net, chain: Chains, pos: Positions, transit: Transits, token: Tokens,
      x: Addr, tok: Token)
    requires x in token && !token[x].Accepting? && !tok.Accepting? && AcceptTokens(net, ports, transit, pos, chain,
        token)
    ensures AcceptTokens(net, ports, transit, pos, chain, token[x := tok])
  {
  }

  lemma SwapAccepts(ports: Ports, net: Net, chain: Chains, pos: Positions, transit: Transits, token: Tokens,
      id: nat, id': nat, e: Event)
    requires id in net && !net[id].PortAccepted? && !e.PortAccepted? && id' !in net &&
        AcceptTokens(net, ports, transit, pos, chain, token)
    ensures AcceptTokens(net - {id}, ports, transit, pos, chain, token) && AcceptTokens((net - {id})[id' := e],
        ports, transit, pos, chain, token)
  {
  }

  lemma PostAccepts(ports: Ports, net: Net, chain: Chains, pos: Positions, transit: Transits, token: Tokens,
      id: nat, e: Event)
    requires !e.PortAccepted? && id !in net && AcceptTokens(net, ports, transit, pos, chain, token)
    ensures AcceptTokens(net[id := e], ports, transit, pos, chain, token)
  {
  }

  // ----- RelayObserveProxy -----

  lemma RelayTokens(net: Net, chain: Chains, routed: Nums, pos: Positions, token: Tokens, id: nat, id': nat,
      y: Addr, e: Event)
    requires id in net && net[id].ObserveProxy? && id' !in net && y in pos
    requires e == ObserveProxy(y, net[id].proxy, net[id].proxyTo)
    requires Announcements(net, pos, chain, token) && Acks(net, pos, routed, token)
    ensures Announcements((net - {id})[id' := e], pos, chain, token[net[id].proxy := Observing(id')])
    ensures Acks((net - {id})[id' := e], pos, routed, token[net[id].proxy := Observing(id')])
  {
  }

  lemma RelayKeeps(s: State, id: nat)
    requires Core(s) && Heralding(s, {}) && id in s.net && s.net[id].ObserveProxy? && s.net[id].to in s.ports
    ensures var t := RelayObserveProxy(s, id);
            Core(t) && Heralding(t, {})
  {
    hide Lanes, Chained, Named, Known, Ids, Receivers, Senders, Nexts, Ends, Travellers, Waiting, Targets, Numbers,
        Placement, Reading, Gone, Lasts, TravelLasts, Closures, Flights, Mail, Queues, Pending, FlyingCargo,
        QueuedCargo, Manifest, Unheld, AcceptTokens, Announcements, Acks, ParkedAcks, ProxyTokens, Heralds;
    var x, y, p := s.net[id].to, s.ports[s.net[id].to].peer, s.net[id].proxy;
    var e, tok := ObserveProxy(y, p, s.net[id].proxyTo), Observing(s.nextId);
    PeerKnown(s.ports, s.h.chain, s.h.routed, s.h.sent, s.h.closed, s.h.pos, x);
    TokenIsProxys(s.net, s.h.chain, s.h.routed, s.h.pos, s.h.token, id);
    TokensKnown(s.ports, s.h.pos, s.h.transit, s.h.cargo, s.h.token, p);
    TakeId(s.net, s.nextId, id);
    PostId(s.net - {id}, s.nextId, e);
    RelayTokens(s.net, s.h.chain, s.h.routed, s.h.pos, s.h.token, id, s.nextId, y, e);
    Retoken(s.ports, s.net, s.h.chain, s.h.nexts, s.h.routed, s.h.sent, s.h.closed, s.h.pos, s.h.transit, s.h.cargo,
        s.h.token, p, tok);
    RetokenProxies(s.ports, s.h.chain, s.h.pos, s.h.transit, s.h.token, id, p, tok);
    SwapAccepts(s.ports, s.net, s.h.chain, s.h.pos, s.h.transit, s.h.token[p := tok], id, s.nextId, e);
    SwapEvent(s.ports, s.net, s.h.chain, s.h.routed, s.h.sent, s.h.place, s.h.closed, s.h.pos, s.h.transit,
        s.h.cargo, s.nextId, id, e);
    TakeHeralds(s.ports, s.net, s.h.chain, s.h.routed, s.h.closed, s.h.transit, {}, id);
    PostHeralds(s.ports, s.net - {id}, s.h.chain, s.h.routed, s.h.closed, s.h.transit, {}, s.nextId, e);
  }

  lemma TokensKnown(ports: Ports, pos: Positions, transit: Transits, cargo: Cargos, token: Tokens, x: Addr)
    requires Known(ports, transit, cargo, token, pos) && x in token
    ensures x in pos
  {
  }

  // ----- ParkAck -----

  predicate Parks(ports: Ports, net: Net, id: nat, x: Addr, q: Port) {
    id in net && net[id].ObserveProxy? && net[id].to == x && x in ports && !ports[x].mode.Receiving? &&
    ports[x].peer == net[id].proxy && q == ports[x].(parked := Some(net[id].proxy))
  }

  lemma ParkTokens(ports: Ports, net: Net, chain: Chains, routed: Nums, pos: Positions, token: Tokens, id: nat,
      x: Addr, q: Port)
    requires Parks(ports, net, id, x, q) && Announcements(net, pos, chain, token) && Acks(net, pos, routed, token)
    ensures Announcements(net - {id}, pos, chain, token[net[id].proxy := Parked])
    ensures Acks(net - {id}, pos, routed, token[net[id].proxy := Parked])
  {
  }

  lemma ParkProxies(ports: Ports, net: Net, chain: Chains, pos: Positions, transit: Transits, token: Tokens,
      id: nat, x: Addr, q: Port)
    requires Parks(ports, net, id, x, q) && Announcements(net, pos, chain, token) && ProxyTokens(ports, transit,
        pos, chain, token) && ParkedAcks(ports, token)
    ensures ParkedAcks(ports[x := q], token[net[id].proxy := Parked])
    ensures ProxyTokens(ports[x := q], transit, pos, chain, token[net[id].proxy := Parked])
  {
  }

  lemma TakeAccepts(ports: Ports, net: Net, chain: Chains, pos: Positions, transit: Transits, token: Tokens, id: nat)
    requires id in net && !net[id].PortAccepted? && AcceptTokens(net, ports, transit, pos, chain, token)
    ensures AcceptTokens(net - {id}, ports, transit, pos, chain, token)
  {
  }

  /** A sent-away port changes in what only concerns its removal. */
  lemma KeepAway(ports: Ports, net: Net, chain: Chains, nexts: Nums, routed: Nums, sent: Logs, place: Places,
      closed: set<LaneId>, pos: Positions, transit: Transits, cargo: Cargos, token: Tokens, x: Addr, q: Port)
    requires x in ports && !ports[x].mode.Receiving? && q.mode == ports[x].mode
    requires q == ports[x].(lastRecv := q.lastRecv, parked := q.parked, removeOnLast := q.removeOnLast)
    requires Known(ports, transit, cargo, token, pos) && Receivers(ports, pos, chain, routed, sent, closed) &&
        Nexts(ports, pos, nexts) && Ends(ports, transit, chain, closed) && Gone(ports, transit, chain, nexts,
        routed, sent, closed) && Closures(net, ports, transit, pos, chain, routed, sent, closed) &&
        TravelLasts(ports, transit, pos, chain, sent, closed) && Queues(ports, chain, sent, place) &&
        Pending(ports, pos, place) && Manifest(net, ports, chain, cargo, place)
    requires Senders(ports, pos, chain) && Waiting(ports, pos, chain, transit, token) &&
        Travellers(ports, transit, pos, chain, nexts, routed, sent, closed, token) &&
        AcceptTokens(net, ports, transit, pos, chain, token) && FlyingCargo(net, ports, pos, transit, cargo,
        sent) && Unheld(ports, cargo) && QueuedCargo(ports, pos, transit, cargo, sent)
    ensures Known(ports[x := q], transit, cargo, token, pos) && Receivers(ports[x := q], pos, chain, routed, sent,
        closed) && Nexts(ports[x := q], pos, nexts)
    ensures Ends(ports[x := q], transit, chain, closed) && Gone(ports[x := q], transit, chain, nexts, routed, sent,
        closed) && Closures(net, ports[x := q], transit, pos, chain, routed, sent, closed)
    ensures TravelLasts(ports[x := q], transit, pos, chain, sent, closed) && Queues(ports[x := q], chain, sent,
        place) && Pending(ports[x := q], pos, place)
    ensures Manifest(net, ports[x := q], chain, cargo, place) && Senders(ports[x := q], pos, chain) &&
        Waiting(ports[x := q], pos, chain, transit, token)
    ensures Travellers(ports[x := q], transit, pos, chain, nexts, routed, sent, closed, token) &&
        AcceptTokens(net, ports[x := q], transit, pos, chain, token)
    ensures FlyingCargo(net, ports[x := q], pos, transit, cargo, sent) && Unheld(ports[x := q], cargo) &&
        QueuedCargo(ports[x := q], pos, transit, cargo, sent)
  {
    hide Lanes, Chained, Named, Known, Ids, Receivers, Senders, Nexts, Ends, Travellers, Waiting, Targets, Numbers,
        Placement, Reading, Gone, Lasts, TravelLasts, Closures, Flights, Mail, Queues, Pending, FlyingCargo,
        QueuedCargo, Manifest, Unheld, AcceptTokens, Announcements, Acks, ParkedAcks, ProxyTokens, Heralds;
    KeepPort(ports, net, chain, nexts, routed, sent, place, closed, pos, transit, cargo, token, x, q);
    KeepSenders(ports, chain, pos, transit, token, x, q);
    KeepTravellers(ports, chain, nexts, routed, sent, closed, pos, transit, token, x, q);
    KeepAcceptTokens(ports, net, chain, pos, transit, token, x, q);
    KeepFlyingCargo(ports, net, sent, pos, transit, cargo, x, q);
    KeepQueuedCargo(ports, sent, pos, transit, cargo, x, q);
  }

  lemma ParkKeeps(s: State, id: nat)
    requires Core(s) && Heralding(s, {}) && id in s.net && s.net[id].ObserveProxy? && s.net[id].to in s.ports
    requires !s.ports[s.net[id].to].mode.Receiving? && s.ports[s.net[id].to].peer == s.net[id].proxy
    ensures var t := ParkAck(s, id);
            Core(t) && Heralding(t, {})
  {
    hide Lanes, Chained, Named, Known, Ids, Receivers, Senders, Nexts, Ends, Travellers, Waiting, Targets, Numbers,
        Placement, Reading, Gone, Lasts, TravelLasts, Closures, Flights, Mail, Queues, Pending, FlyingCargo,
        QueuedCargo, Manifest, Unheld, AcceptTokens, Announcements, Acks, ParkedAcks, ProxyTokens, Heralds;
    var x, p, t := s.net[id].to, s.net[id].proxy, ParkAck(s, id);
    var q := t.ports[x];
    TokenIsProxys(s.net, s.h.chain, s.h.routed, s.h.pos, s.h.token, id);
    TokensKnown(s.ports, s.h.pos, s.h.transit, s.h.cargo, s.h.token, p);
    KeepAway(s.ports, s.net, s.h.chain, s.h.nexts, s.h.routed, s.h.sent, s.h.place, s.h.closed, s.h.pos,
        s.h.transit, s.h.cargo, s.h.token, x, q);
    KeepLasts(s.ports, s.h.chain, s.h.routed, s.h.sent, s.h.closed, s.h.pos, s.h.transit, x, q);
    KeepHeralds(s.ports, s.net, s.h.chain, s.h.routed, s.h.closed, s.h.transit, {}, x, q);
    ParkTokens(s.ports, s.net, s.h.chain, s.h.routed, s.h.pos, s.h.token, id, x, q);
    ParkProxies(s.ports, s.net, s.h.chain, s.h.pos, s.h.transit, s.h.token, id, x, q);
    Retoken(s.ports[x := q], s.net, s.h.chain, s.h.nexts, s.h.routed, s.h.sent, s.h.closed, s.h.pos, s.h.transit,
        s.h.cargo, s.h.token, p, Parked);
    TakeAccepts(s.ports[x := q], s.net, s.h.chain, s.h.pos, s.h.transit, s.h.token[p := Parked], id);
    TakeOther(s.ports[x := q], s.net, s.h.chain, s.h.routed, s.h.sent, s.h.place, s.h.closed, s.h.pos, s.h.transit,
        s.h.cargo, s.nextId, id);
    TakeHeralds(s.ports[x := q], s.net, s.h.chain, s.h.routed, s.h.closed, s.h.transit, {}, id);
  }

  // ----- DropToken: an announcement or acknowledgement whose port has gone, or that is acted on -----

  predicate Concerns(net: Net, id: nat, x: Addr) {
    id in net && ((net[id].ObserveProxy? && net[id].proxy == x) || (net[id].ObserveProxyAck? && net[id].to == x))
  }

  lemma DropEvents(net: Net, chain: Chains, routed: Nums, pos: Positions, token: Tokens, id: nat, x: Addr)
    requires Concerns(net, id, x) && Announcements(net, pos, chain, token) && Acks(net, pos, routed, token)
    ensures Announcements(net - {id}, pos, chain, token - {x}) && Acks(net - {id}, pos, routed, token - {x})
  {
  }

  lemma DropProxies(ports: Ports, net: Net, chain: Chains, routed: Nums, pos: Positions, transit: Transits,
      token: Tokens, id: nat, x: Addr)
    requires Concerns(net, id, x) && Announcements(net, pos, chain, token) && Acks(net, pos, routed, token) &&
        ProxyTokens(ports, transit, pos, chain, token) && ParkedAcks(ports, token)
    ensures ProxyTokens(ports, transit, pos, chain, token - {x}) && ParkedAcks(ports, token - {x})
  {
  }

  lemma DropWaiting(ports: Ports, chain: Chains, nexts: Nums, routed: Nums, sent: Logs, closed: set<LaneId>,
      pos: Positions, transit: Transits, token: Tokens, x: Addr)
    requires Waiting(ports, pos, chain, transit, token) && Travellers(ports, transit, pos, chain, nexts, routed,
        sent, closed, token) && x in token && !token[x].Accepting?
    ensures Waiting(ports, pos, chain, transit, token - {x}) && Travellers(ports, transit, pos, chain, nexts,
        routed, sent, closed, token - {x})
  {
  }

  lemma DropAccepts(ports: Ports, net: Net, chain: Chains, pos: Positions, transit: Transits, token: Tokens,
      id: nat, x: Addr)
    requires id in net && !net[id].PortAccepted? && x in token && !token[x].Accepting? &&
        AcceptTokens(net, ports, transit, pos, chain, token)
    ensures AcceptTokens(net - {id}, ports, transit, pos, chain, token - {x})
  {
  }

  lemma DropTokenParts(ports: Ports, net: Net, chain: Chains, nexts: Nums, routed: Nums, sent: Logs,
      closed: set<LaneId>, pos: Positions, transit: Transits, cargo: Cargos, token: Tokens, id: nat, x: Addr)
    requires Concerns(net, id, x) && Known(ports, transit, cargo, token, pos) && Announcements(net, pos, chain,
        token) && Acks(net, pos, routed, token) && ProxyTokens(ports, transit, pos, chain, token) &&
        ParkedAcks(ports, token) && Waiting(ports, pos, chain, transit, token)
    requires Travellers(ports, transit, pos, chain, nexts, routed, sent, closed, token) &&
        AcceptTokens(net, ports, transit, pos, chain, token)
    ensures var token' := token - {x};
            Known(ports, transit, cargo, token', pos) && Announcements(net - {id}, pos, chain, token') &&
            Acks(net - {id}, pos, routed, token') && ProxyTokens(ports, transit, pos, chain, token') &&
            ParkedAcks(ports, token') &&
            Waiting(ports, pos, chain, transit, token') && Travellers(ports, transit, pos, chain, nexts, routed,
            sent, closed, token') && AcceptTokens(net - {id}, ports, transit, pos, chain, token')
  {
    hide Lanes, Chained, Named, Known, Ids, Receivers, Senders, Nexts, Ends, Travellers, Waiting, Targets, Numbers,
        Placement, Reading, Gone, Lasts, TravelLasts, Closures, Flights, Mail, Queues, Pending, FlyingCargo,
        QueuedCargo, Manifest, Unheld, AcceptTokens, Announcements, Acks, ParkedAcks, ProxyTokens, Heralds;
    TokenIsProxys(net, chain, routed, pos, token, id);
    KnownNoToken(ports, pos, transit, cargo, token, x);
    DropEvents(net, chain, routed, pos, token, id, x);
    DropProxies(ports, net, chain, routed, pos, transit, token, id, x);
    DropWaiting(ports, chain, nexts, routed, sent, closed, pos, transit, token, x);
    DropAccepts(ports, net, chain, pos, transit, token, id, x);
  }

  lemma DropTokenKeeps(s: State, id: nat, x: Addr)
    requires Core(s) && Heralding(s, {}) && Concerns(s.net, id, x)
    ensures var t := DropToken(s, id, x);
            Core(t) && Heralding(t, {})
  {
    hide Lanes, Chained, Named, Known, Ids, Receivers, Senders, Nexts, Ends, Travellers, Waiting, Targets, Numbers,
        Placement, Reading, Gone, Lasts, TravelLasts, Closures, Flights, Mail, Queues, Pending, FlyingCargo,
        QueuedCargo, Manifest, Unheld, AcceptTokens, Announcements, Acks, ParkedAcks, ProxyTokens, Heralds;
    DropTokenParts(s.ports, s.net, s.h.chain, s.h.nexts, s.h.routed, s.h.sent, s.h.closed, s.h.pos, s.h.transit,
        s.h.cargo, s.h.token, id, x);
    TakeOther(s.ports, s.net, s.h.chain, s.h.routed, s.h.sent, s.h.place, s.h.closed, s.h.pos, s.h.transit,
        s.h.cargo, s.nextId, id);
    TakeHeralds(s.ports, s.net, s.h.chain, s.h.routed, s.h.closed, s.h.transit, {}, id);
  }

  // ----- ExpectLast -----

  lemma ExpectLasts(ports: Ports, chain: Chains, routed: Nums, sent: Logs, closed: set<LaneId>, pos: Positions,
      transit: Transits, x: Addr, q: Port)
    requires x in ports && ports[x].mode.Proxying? && Lasts(ports, transit, pos, chain, routed, sent, closed) &&
        Chained(chain, pos) && Senders(ports, pos, chain)
    requires q == ports[x].(removeOnLast := true, lastRecv := q.lastRecv)
    requires x in pos && var m, i := pos[x].lane, pos[x].idx;
                         m in routed && m in sent && i < |routed[m]| && q.lastRecv + 1 == routed[m][i]
    ensures Lasts(ports[x := q], transit, pos, chain, routed, sent, closed)
  {
  }

  lemma ExpectHeralds(ports: Ports, net: Net, chain: Chains, routed: Nums, closed: set<LaneId>, pos: Positions,
      transit: Transits, busy: set<Addr>, x: Addr, q: Port)
    requires x in ports && !ports[x].mode.Receiving? && Heralds(net, ports, transit, chain, routed, closed,
        busy) && Chained(chain, pos) && Senders(ports, pos, chain)
    requires q == ports[x].(removeOnLast := true, lastRecv := q.lastRecv)
    requires x in pos && pos[x].lane in routed && pos[x].idx < |routed[pos[x].lane]|
    ensures Heralds(net, ports[x := q], transit, chain, routed, closed, busy)
  {
    forall m | m in chain && m !in closed && m.Other() in closed
      ensures HeraldLane(net, ports[x := q], transit, chain, busy, m, |routed[m]|)
    {
      assert HeraldLane(net, ports, transit, chain, busy, m, |routed[m]|);
      assert forall i :: |routed[m]| <= i < |chain[m]| ==> chain[m][i] != x;
    }
  }

  lemma ExpectLastKeeps(s: State, x: Addr, last: nat)
    requires Core(s) && Heralding(s, {}) && x in s.ports && s.ports[x].mode.Proxying? && x in s.h.pos
    requires s.h.pos[x].lane in s.h.routed && s.h.pos[x].lane in s.h.sent
    requires s.h.pos[x].idx < |s.h.routed[s.h.pos[x].lane]|
    requires last + 1 == s.h.routed[s.h.pos[x].lane][s.h.pos[x].idx]
    ensures var t := ExpectLast(s, x, last);
            Core(t) && Heralding(t, {})
  {
    hide Lanes, Chained, Named, Known, Ids, Receivers, Senders, Nexts, Ends, Travellers, Waiting, Targets, Numbers,
        Placement, Reading, Gone, Lasts, TravelLasts, Closures, Flights, Mail, Queues, Pending, FlyingCargo,
        QueuedCargo, Manifest, Unheld, AcceptTokens, Announcements, Acks, ParkedAcks, ProxyTokens, Heralds;
    var q := ExpectLast(s, x, last).ports[x];
    KeepAway(s.ports, s.net, s.h.chain, s.h.nexts, s.h.routed, s.h.sent, s.h.place, s.h.closed, s.h.pos,
        s.h.transit, s.h.cargo, s.h.token, x, q);
    KeepProxyTokens(s.ports, s.h.chain, s.h.pos, s.h.transit, s.h.token, x, q);
    ExpectLasts(s.ports, s.h.chain, s.h.routed, s.h.sent, s.h.closed, s.h.pos, s.h.transit, x, q);
    ExpectHeralds(s.ports, s.net, s.h.chain, s.h.routed, s.h.closed, s.h.pos, s.h.transit, {}, x, q);
  }

  // ----- MaybeRemoveProxy -----

  predicate Done(ports: Ports, x: Addr) {
    x in ports && ports[x].mode.Proxying? && ports[x].removeOnLast && !CanAcceptMoreMessages(ports[x])
  }

  lemma RemoveShape(ports: Ports, chain: Chains, nexts: Nums, routed: Nums, sent: Logs, closed: set<LaneId>,
      pos: Positions, transit: Transits, cargo: Cargos, token: Tokens, x: Addr)
    requires Done(ports, x) && Known(ports, transit, cargo, token, pos) && Receivers(ports, pos, chain, routed,
        sent, closed) && Senders(ports, pos, chain) && Nexts(ports, pos, nexts)
    ensures Known(ports - {x}, transit, cargo, token, pos) && Receivers(ports - {x}, pos, chain, routed, sent,
        closed) && Senders(ports - {x}, pos, chain)
    ensures Nexts(ports - {x}, pos, nexts)
  {
  }

  lemma RemoveEnds(ports: Ports, chain: Chains, closed: set<LaneId>, pos: Positions, transit: Transits, x: Addr)
    requires Done(ports, x) && Chained(chain, pos) && Senders(ports, pos, chain) && Ends(ports, transit, chain,
        closed)
    ensures Ends(ports - {x}, transit, chain, closed)
  {
  }

  lemma RemoveTravellers(ports: Ports, chain: Chains, nexts: Nums, routed: Nums, sent: Logs, closed: set<LaneId>,
      pos: Positions, transit: Transits, token: Tokens, x: Addr)
    requires Done(ports, x) && Travellers(ports, transit, pos, chain, nexts, routed, sent, closed, token)
    ensures Travellers(ports - {x}, transit, pos, chain, nexts, routed, sent, closed, token)
  {
  }

  lemma RemoveWaiting(ports: Ports, chain: Chains, pos: Positions, transit: Transits, token: Tokens, x: Addr)
    requires Waiting(ports, pos, chain, transit, token)
    ensures Waiting(ports - {x}, pos, chain, transit, token)
  {
  }

  /** The proxy has passed on everything that is ever addressed to it. */
  lemma DoneIsFinal(ports: Ports, chain: Chains, nexts: Nums, routed: Nums, sent: Logs, closed: set<LaneId>,
      pos: Positions, transit: Transits, x: Addr)
    requires Done(ports, x) && Nexts(ports, pos, nexts) && Lasts(ports, transit, pos, chain, routed, sent,
        closed) && Numbers(chain, nexts, routed, sent) && Chained(chain, pos)
    ensures x in pos && pos[x].lane in routed && pos[x].lane in sent && pos[x].lane in nexts &&
            pos[x].idx < |nexts[pos[x].lane]| &&
            nexts[pos[x].lane][pos[x].idx] == Limit(routed[pos[x].lane], |sent[pos[x].lane]|, pos[x].idx) &&
            Final(ports, transit, chain, closed, routed, pos[x].lane, pos[x].idx)
  {
    assert LaneNumbers(|chain[pos[x].lane]|, nexts[pos[x].lane], routed[pos[x].lane], |sent[pos[x].lane]|);
  }

  lemma RemoveSilent(ports: Ports, chain: Chains, closed: set<LaneId>, pos: Positions, transit: Transits, x: Addr)
    requires x in ports && Chained(chain, pos) && Senders(ports, pos, chain) && !ports[x].mode.Receiving?
    ensures forall m :: m in chain ==> EndKnows(ports, transit, chain, m) == EndKnows(ports - {x}, transit, chain, m)
    ensures forall m :: Silent(ports, transit, chain, closed, m) == Silent(ports - {x}, transit, chain, closed, m)
  {
  }

  lemma RemoveGone(ports: Ports, chain: Chains, nexts: Nums, routed: Nums, sent: Logs, closed: set<LaneId>,
      pos: Positions, transit: Transits, x: Addr)
    requires Done(ports, x) && Chained(chain, pos) && Senders(ports, pos, chain) && Gone(ports, transit, chain,
        nexts, routed, sent, closed) && Numbers(chain, nexts, routed, sent)
    requires x in pos && pos[x].lane in routed && pos[x].lane in sent && pos[x].lane in nexts
    requires pos[x].idx < |nexts[pos[x].lane]|
    requires nexts[pos[x].lane][pos[x].idx] == Limit(routed[pos[x].lane], |sent[pos[x].lane]|, pos[x].idx)
    requires Final(ports, transit, chain, closed, routed, pos[x].lane, pos[x].idx)
    ensures Gone(ports - {x}, transit, chain, nexts, routed, sent, closed)
  {
    RemoveSilent(ports, chain, closed, pos, transit, x);
  }

  lemma RemoveLasts(ports: Ports, net: Net, chain: Chains, routed: Nums, sent: Logs, closed: set<LaneId>,
      pos: Positions, transit: Transits, x: Addr)
    requires Done(ports, x) && Chained(chain, pos) && Senders(ports, pos, chain) &&
        Lasts(ports, transit, pos, chain, routed, sent, closed) && TravelLasts(ports, transit, pos, chain, sent,
        closed) && Closures(net, ports, transit, pos, chain, routed, sent, closed)
    ensures Lasts(ports - {x}, transit, pos, chain, routed, sent, closed) && TravelLasts(ports - {x}, transit, pos,
        chain, sent, closed) && Closures(net, ports - {x}, transit, pos, chain, routed, sent, closed)
  {
    RemoveSilent(ports, chain, closed, pos, transit, x);
  }

  lemma NothingQueued(chain: Chains, nexts: Nums, routed: Nums, sent: Logs, place: Places, pos: Positions,
      transit: Transits, x: Addr, m: LaneId, k: nat)
    requires Placement(chain, nexts, routed, sent, place, transit) && Chained(chain, pos) && m in place &&
        k < |place[m]| && place[m][k].Queued?
    requires x in pos && pos[x].lane in routed && pos[x].lane in sent && pos[x].lane in nexts
    requires pos[x].idx < |nexts[pos[x].lane]|
    requires nexts[pos[x].lane][pos[x].idx] == Limit(routed[pos[x].lane], |sent[pos[x].lane]|, pos[x].idx)
    ensures m in chain && place[m][k].at < |chain[m]| && chain[m][place[m][k].at] != x
  {
  }

  lemma RemoveQueues(ports: Ports, chain: Chains, nexts: Nums, routed: Nums, sent: Logs, place: Places,
      pos: Positions, transit: Transits, x: Addr)
    requires x in ports && Placement(chain, nexts, routed, sent, place, transit) && Chained(chain, pos) &&
        Queues(ports, chain, sent, place) && Pending(ports, pos, place)
    requires x in pos && pos[x].lane in routed && pos[x].lane in sent && pos[x].lane in nexts
    requires pos[x].idx < |nexts[pos[x].lane]|
    requires nexts[pos[x].lane][pos[x].idx] == Limit(routed[pos[x].lane], |sent[pos[x].lane]|, pos[x].idx)
    ensures Queues(ports - {x}, chain, sent, place) && Pending(ports - {x}, pos, place)
  {
    forall m, k | m in place && 0 <= k < |place[m]| && place[m][k].Queued?
      ensures chain[m][place[m][k].at] != x
    {
      NothingQueued(chain, nexts, routed, sent, place, pos, transit, x, m, k);
    }
  }

  lemma RemoveManifest(ports: Ports, net: Net, chain: Chains, nexts: Nums, routed: Nums, sent: Logs, place: Places,
      pos: Positions, transit: Transits, cargo: Cargos, x: Addr)
    requires x in ports && Placement(chain, nexts, routed, sent, place, transit) && Chained(chain, pos) &&
        Manifest(net, ports, chain, cargo, place)
    requires x in pos && pos[x].lane in routed && pos[x].lane in sent && pos[x].lane in nexts
    requires pos[x].idx < |nexts[pos[x].lane]|
    requires nexts[pos[x].lane][pos[x].idx] == Limit(routed[pos[x].lane], |sent[pos[x].lane]|, pos[x].idx)
    ensures Manifest(net, ports - {x}, chain, cargo, place)
  {
    forall b | b in cargo && place[cargo[b].lane][cargo[b].num].Queued?
      ensures chain[cargo[b].lane][place[cargo[b].lane][cargo[b].num].at] != x
    {
      var m, k := cargo[b].lane, cargo[b].num;
      NothingQueued(chain, nexts, routed, sent, place, pos, transit, x, m, k);
    }
  }

  lemma RemoveCargo(ports: Ports, net: Net, sent: Logs, pos: Positions, transit: Transits, cargo: Cargos, x: Addr)
    requires x in ports && !ports[x].mode.Receiving? && FlyingCargo(net, ports, pos, transit, cargo, sent) &&
        Unheld(ports, cargo)
    ensures FlyingCargo(net, ports - {x}, pos, transit, cargo, sent) && Unheld(ports - {x}, cargo)
  {
  }

  lemma RemoveQueuedCargo(ports: Ports, sent: Logs, pos: Positions, transit: Transits, cargo: Cargos, x: Addr)
    requires x in ports && !ports[x].mode.Receiving? && QueuedCargo(ports, pos, transit, cargo, sent)
    ensures QueuedCargo(ports - {x}, pos, transit, cargo, sent)
  {
  }

  lemma RemoveTokens(ports: Ports, net: Net, chain: Chains, pos: Positions, transit: Transits, token: Tokens, x: Addr)
    requires x in ports && ports[x].mode.Proxying? && AcceptTokens(net, ports, transit, pos, chain, token) &&
        ParkedAcks(ports, token) && ProxyTokens(ports, transit, pos, chain, token)
    ensures AcceptTokens(net, ports - {x}, transit, pos, chain, token) && ParkedAcks(ports - {x}, token) &&
        ProxyTokens(ports - {x}, transit, pos, chain, token)
  {
  }

  lemma RemoveHeralds(ports: Ports, net: Net, chain: Chains, routed: Nums, closed: set<LaneId>, pos: Positions,
      transit: Transits, busy: set<Addr>, x: Addr)
    requires x in ports && ports[x].mode.Proxying? && ports[x].removeOnLast && Chained(chain, pos) &&
        Senders(ports, pos, chain) && Heralds(net, ports, transit, chain, routed, closed, busy)
    ensures Heralds(net, ports - {x}, transit, chain, routed, closed, busy)
  {
    RemoveSilent(ports, chain, closed, pos, transit, x);
    forall m | m in chain && m !in closed && m.Other() in closed
      ensures HeraldLane(net, ports - {x}, transit, chain, busy, m, |routed[m]|)
    {
      assert HeraldLane(net, ports, transit, chain, busy, m, |routed[m]|);
      forall i | 0 <= i < |chain[m]|
        ensures Told(ports - {x}, transit, chain, m, i) == Told(ports, transit, chain, m, i)
      {
      }
    }
  }

  lemma RemoveParts(ports: Ports, net: Net, chain: Chains, nexts: Nums, routed: Nums, sent: Logs, place: Places,
      closed: set<LaneId>, pos: Positions, transit: Transits, cargo: Cargos, x: Addr)
    requires Done(ports, x) && Chained(chain, pos) && Senders(ports, pos, chain) && Nexts(ports, pos, nexts) &&
        Lasts(ports, transit, pos, chain, routed, sent, closed) && Numbers(chain, nexts, routed, sent) &&
        Gone(ports, transit, chain, nexts, routed, sent, closed) && TravelLasts(ports, transit, pos, chain, sent,
        closed) && Closures(net, ports, transit, pos, chain, routed, sent, closed)
    requires Placement(chain, nexts, routed, sent, place, transit) && Queues(ports, chain, sent, place) &&
        Pending(ports, pos, place) && Manifest(net, ports, chain, cargo, place)
    ensures Gone(ports - {x}, transit, chain, nexts, routed, sent, closed) && Lasts(ports - {x}, transit, pos,
        chain, routed, sent, closed) && TravelLasts(ports - {x}, transit, pos, chain, sent, closed)
    ensures Closures(net, ports - {x}, transit, pos, chain, routed, sent, closed) &&
        Queues(ports - {x}, chain, sent, place) && Pending(ports - {x}, pos, place)
    ensures Manifest(net, ports - {x}, chain, cargo, place)
  {
    hide Lanes, Chained, Named, Known, Ids, Receivers, Senders, Nexts, Ends, Travellers, Waiting, Targets, Numbers,
        Placement, Reading, Gone, Lasts, TravelLasts, Closures, Flights, Mail, Queues, Pending, FlyingCargo,
        QueuedCargo, Manifest, Unheld, AcceptTokens, Announcements, Acks, ParkedAcks, ProxyTokens, Heralds, Silent,
        EndKnows, Final;
    DoneIsFinal(ports, chain, nexts, routed, sent, closed, pos, transit, x);
    RemoveGone(ports, chain, nexts, routed, sent, closed, pos, transit, x);
    RemoveLasts(ports, net, chain, routed, sent, closed, pos, transit, x);
    RemoveQueues(ports, chain, nexts, routed, sent, place, pos, transit, x);
    RemoveManifest(ports, net, chain, nexts, routed, sent, place, pos, transit, cargo, x);
  }

  lemma EraseProxyKeeps(s: State, x: Addr, busy: set<Addr>)
    requires Core(s) && Heralding(s, busy) && Done(s.ports, x)
    ensures var t := s.(ports := s.ports - {x});
            Core(t) && Heralding(t, busy)
  {
    hide Lanes, Chained, Named, Known, Ids, Receivers, Senders, Nexts, Ends, Travellers, Waiting, Targets, Numbers,
        Placement, Reading, Gone, Lasts, TravelLasts, Closures, Flights, Mail, Queues, Pending, FlyingCargo,
        QueuedCargo, Manifest, Unheld, AcceptTokens, Announcements, Acks, ParkedAcks, ProxyTokens, Heralds, Silent,
        EndKnows, Final;
    RemoveShape(s.ports, s.h.chain, s.h.nexts, s.h.routed, s.h.sent, s.h.closed, s.h.pos, s.h.transit, s.h.cargo,
        s.h.token, x);
    RemoveEnds(s.ports, s.h.chain, s.h.closed, s.h.pos, s.h.transit, x);
    RemoveTravellers(s.ports, s.h.chain, s.h.nexts, s.h.routed, s.h.sent, s.h.closed, s.h.pos, s.h.transit,
        s.h.token, x);
    RemoveWaiting(s.ports, s.h.chain, s.h.pos, s.h.transit, s.h.token, x);
    RemoveParts(s.ports, s.net, s.h.chain, s.h.nexts, s.h.routed, s.h.sent, s.h.place, s.h.closed, s.h.pos,
        s.h.transit, s.h.cargo, x);
    RemoveCargo(s.ports, s.net, s.h.sent, s.h.pos, s.h.transit, s.h.cargo, x);
    RemoveQueuedCargo(s.ports, s.h.sent, s.h.pos, s.h.transit, s.h.cargo, x);
    RemoveTokens(s.ports, s.net, s.h.chain, s.h.pos, s.h.transit, s.h.token, x);
    RemoveHeralds(s.ports, s.net, s.h.chain, s.h.routed, s.h.closed, s.h.pos, s.h.transit, busy, x);
  }

  // ----- The parked acknowledgement is sent -----

  lemma UnparkTokens(net: Net, chain: Chains, routed: Nums, pos: Positions, token: Tokens, y: Addr, id: nat, e: Event)
    requires y in token && token[y] == Parked && id !in net && e == ObserveProxyAck(y, INVALID_SEQUENCE_NUM)
    requires Announcements(net, pos, chain, token) && Acks(net, pos, routed, token) && y in pos &&
        pos[y].lane in routed
    ensures Announcements(net[id := e], pos, chain, token[y := Acking(id)])
    ensures Acks(net[id := e], pos, routed, token[y := Acking(id)])
  {
  }

  lemma UnparkProxies(ports: Ports, chain: Chains, pos: Positions, transit: Transits, token: Tokens, y: Addr,
      tok: Token)
    requires y in token && token[y] == Parked && !tok.Accepting? && ProxyTokens(ports, transit, pos, chain,
        token) && ParkedAcks(ports, token)
    requires forall a :: a in ports && ports[a].parked.Some? ==> ports[a].parked.value != y
    ensures ProxyTokens(ports, transit, pos, chain, token[y := tok]) && ParkedAcks(ports, token[y := tok])
  {
  }

  lemma OnlyOneParks(ports: Ports, chain: Chains, routed: Nums, sent: Logs, closed: set<LaneId>, pos: Positions,
      token: Tokens, x: Addr, y: Addr)
    requires x in ports && ports[x].parked == Some(y)
    requires Chained(chain, pos) && Receivers(ports, pos, chain, routed, sent, closed) &&
        Senders(ports, pos, chain) && ParkedAcks(ports, token)
    ensures forall a :: a in ports && a != x && ports[a].parked.Some? ==> ports[a].parked.value != y
    ensures y in token && token[y] == Parked && y in pos && pos[y].lane in chain
  {
  }

  lemma UnparkKeeps(s: State, y: Addr, busy: set<Addr>)
    requires Core(s) && Heralding(s, busy) && y in s.h.token && s.h.token[y] == Parked
    requires y in s.h.pos && s.h.pos[y].lane in s.h.routed
    requires forall a :: a in s.ports && s.ports[a].parked.Some? ==> s.ports[a].parked.value != y
    ensures var t := Post(s.(h := s.h.(token := s.h.token[y := Acking(s.nextId)])),
                          ObserveProxyAck(y, INVALID_SEQUENCE_NUM));
            Core(t) && Heralding(t, busy)
  {
    hide Lanes, Chained, Named, Known, Ids, Receivers, Senders, Nexts, Ends, Travellers, Waiting, Targets, Numbers,
        Placement, Reading, Gone, Lasts, TravelLasts, Closures, Flights, Mail, Queues, Pending, FlyingCargo,
        QueuedCargo, Manifest, Unheld, AcceptTokens, Announcements, Acks, ParkedAcks, ProxyTokens, Heralds;
    var e, tok := ObserveProxyAck(y, INVALID_SEQUENCE_NUM), Acking(s.nextId);
    PostId(s.net, s.nextId, e);
    UnparkTokens(s.net, s.h.chain, s.h.routed, s.h.pos, s.h.token, y, s.nextId, e);
    UnparkProxies(s.ports, s.h.chain, s.h.pos, s.h.transit, s.h.token, y, tok);
    Retoken(s.ports, s.net, s.h.chain, s.h.nexts, s.h.routed, s.h.sent, s.h.closed, s.h.pos, s.h.transit, s.h.cargo,
        s.h.token, y, tok);
    PostAccepts(s.ports, s.net, s.h.chain, s.h.pos, s.h.transit, s.h.token[y := tok], s.nextId, e);
    PostOther(s.ports, s.net, s.h.chain, s.h.routed, s.h.sent, s.h.place, s.h.closed, s.h.pos, s.h.transit,
        s.h.cargo, s.nextId, e);
    PostHeralds(s.ports, s.net, s.h.chain, s.h.routed, s.h.closed, s.h.transit, busy, s.nextId, e);
  }

  lemma LanesAgree(chain: Chains, nexts: Nums, routed: Nums, sent: Logs, place: Places, read: Logs,
      closed: set<LaneId>, name: nat, m: LaneId)
    requires Lanes(chain, nexts, routed, sent, place, read, closed, name) && m in chain
    ensures m in nexts && m in routed && m in sent && m in place && m in read && m.Other() in chain
    ensures |nexts[m]| == |chain[m]| && |place[m]| == |sent[m]| && |routed[m]| < |chain[m]|
  {
  }

  lemma MaybeRemoveKeeps(s: State, x: Addr, busy: set<Addr>)
    requires Core(s) && Heralding(s, busy) && x in s.ports && s.ports[x].mode.Proxying?
    ensures var t := MaybeRemoveProxy(s, x);
            Core(t) && Heralding(t, busy)
  {
    hide Lanes, Chained, Named, Known, Ids, Receivers, Senders, Nexts, Ends, Travellers, Waiting, Targets, Numbers,
        Placement, Reading, Gone, Lasts, TravelLasts, Closures, Flights, Mail, Queues, Pending, FlyingCargo,
        QueuedCargo, Manifest, Unheld, AcceptTokens, Announcements, Acks, ParkedAcks, ProxyTokens, Heralds;
    if s.ports[x].removeOnLast && !CanAcceptMoreMessages(s.ports[x]) {
      EraseProxyKeeps(s, x, busy);
      if s.ports[x].parked.Some? {
        var y := s.ports[x].parked.value;
        OnlyOneParks(s.ports, s.h.chain, s.h.routed, s.h.sent, s.h.closed, s.h.pos, s.h.token, x, y);
        LanesAgree(s.h.chain, s.h.nexts, s.h.routed, s.h.sent, s.h.place, s.h.read, s.h.closed, s.nextName,
            s.h.pos[y].lane);
        UnparkKeeps(s.(ports := s.ports - {x}), y, busy);
      }
    }
  }
}
