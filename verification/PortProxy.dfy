/** The life of a proxy: it learns that its successor exists, announces itself, is acknowledged
 and is removed. */
module PortProxy {
  import opened PortState
  import opened PortSteps
  import opened PortInvariant
  import opened PortFrames

  // ----- BecomeProxy -----

  predicate Buffers(ports: Ports, net: Net, id: nat, x: Addr, q: Port) {
    id in net && net[id] == PortAccepted(x) && x in ports && ports[x].mode.Buffering? &&
    q == ports[x].(mode := Proxying)
  }

  lemma ProxySenders(ports: Ports, net: Net, chain: Chains, pos: Positions, transit: Transits, token: Tokens,
      id: nat, x: Addr, q: Port)
    requires Buffers(ports, net, id, x, q) && AcceptTokens(net, ports, transit, pos, chain, token) &&
        Senders(ports, pos, chain) && Waiting(ports, pos, chain, transit, token) && Chained(chain, pos)
    ensures Senders(ports[x := q], pos, chain)
    ensures Waiting(ports[x := q], pos, chain, transit, token - {x})
  {
  }

  lemma ProxyTravellers(ports: Ports, net: Net, chain: Chains, nexts: Nums, routed: Nums, sent: Logs,
      closed: set<LaneId>, pos: Positions, transit: Transits, token: Tokens, id: nat, x: Addr, q: Port)
    requires Buffers(ports, net, id, x, q) && AcceptTokens(net, ports, transit, pos, chain, token) &&
        Travellers(ports, transit, pos, chain, nexts, routed, sent, closed, token) && Chained(chain, pos)
    ensures Travellers(ports[x := q], transit, pos, chain, nexts, routed, sent, closed, token - {x})
  {
  }

  lemma ProxyAcceptTokens(ports: Ports, net: Net, chain: Chains, pos: Positions, transit: Transits, token: Tokens,
      id: nat, x: Addr, q: Port)
    requires Buffers(ports, net, id, x, q) && AcceptTokens(net, ports, transit, pos, chain, token)
    ensures AcceptTokens(net - {id}, ports[x := q], transit, pos, chain, token - {x})
  {
  }

  lemma ProxyProxyTokens(ports: Ports, net: Net, chain: Chains, pos: Positions, transit: Transits, token: Tokens,
      id: nat, x: Addr, q: Port)
    requires Buffers(ports, net, id, x, q) && AcceptTokens(net, ports, transit, pos, chain, token) &&
        ProxyTokens(ports, transit, pos, chain, token) && ParkedAcks(ports, token)
    ensures ProxyTokens(ports[x := q], transit, pos, chain, token - {x})
    ensures ParkedAcks(ports[x := q], token - {x})
  {
  }

  lemma ProxyEvents(ports: Ports, net: Net, chain: Chains, routed: Nums, pos: Positions, transit: Transits,
      token: Tokens, id: nat, x: Addr, q: Port)
    requires Buffers(ports, net, id, x, q) && AcceptTokens(net, ports, transit, pos, chain, token) &&
        Announcements(net, pos, chain, token) && Acks(net, pos, routed, token)
    ensures Announcements(net - {id}, pos, chain, token - {x})
    ensures Acks(net - {id}, pos, routed, token - {x})
  {
  }

  lemma ProxyHeralds(ports: Ports, net: Net, chain: Chains, routed: Nums, closed: set<LaneId>, transit: Transits,
      busy: set<Addr>, id: nat, x: Addr, q: Port)
    requires Buffers(ports, net, id, x, q) && Heralds(net, ports, transit, chain, routed, closed, busy)
    ensures Heralds(net - {id}, ports[x := q], transit, chain, routed, closed, busy + {x})
  {
    TakeHeralds(ports, net, chain, routed, closed, transit, busy, id);
  }

  lemma BecomeProxyKeeps(s: State, id: nat)
    requires Core(s) && id in s.net && s.net[id].PortAccepted? && Heralding(s, {})
    requires s.net[id].to in s.ports && s.ports[s.net[id].to].mode.Buffering?
    ensures var x, t := s.net[id].to, BecomeProxy(s, id);
            Core(t) && Heralding(t, {x}) && x in t.ports && t.ports[x].mode.Proxying? && x !in t.h.token
  {
    hide Lanes, Chained, Named, Known, Ids, Receivers, Senders, Nexts, Ends, Travellers, Waiting, Targets, Numbers,
        Placement, Reading, Gone, Lasts, TravelLasts, Closures, Flights, Mail, Queues, Pending, FlyingCargo,
        QueuedCargo, Manifest, Unheld, AcceptTokens, Announcements, Acks, ParkedAcks, ProxyTokens, Heralds;
    var x, t := s.net[id].to, BecomeProxy(s, id);
    var q := t.ports[x];
    ProxySenders(s.ports, s.net, s.h.chain, s.h.pos, s.h.transit, s.h.token, id, x, q);
    ProxyTravellers(s.ports, s.net, s.h.chain, s.h.nexts, s.h.routed, s.h.sent, s.h.closed, s.h.pos, s.h.transit,
        s.h.token, id, x, q);
    ProxyAcceptTokens(s.ports, s.net, s.h.chain, s.h.pos, s.h.transit, s.h.token, id, x, q);
    ProxyProxyTokens(s.ports, s.net, s.h.chain, s.h.pos, s.h.transit, s.h.token, id, x, q);
    ProxyEvents(s.ports, s.net, s.h.chain, s.h.routed, s.h.pos, s.h.transit, s.h.token, id, x, q);
    ProxyHeralds(s.ports, s.net, s.h.chain, s.h.routed, s.h.closed, s.h.transit, {}, id, x, q);
    assert {x} == {} + {x};
    KeepPort(s.ports, s.net, s.h.chain, s.h.nexts, s.h.routed, s.h.sent, s.h.place, s.h.closed, s.h.pos,
        s.h.transit, s.h.cargo, s.h.token, x, q);
    KeepLasts(s.ports, s.h.chain, s.h.routed, s.h.sent, s.h.closed, s.h.pos, s.h.transit, x, q);
    KeepFlyingCargo(s.ports, s.net, s.h.sent, s.h.pos, s.h.transit, s.h.cargo, x, q);
    KeepQueuedCargo(s.ports, s.h.sent, s.h.pos, s.h.transit, s.h.cargo, x, q);
    KnownNoToken(s.ports[x := q], s.h.pos, s.h.transit, s.h.cargo, s.h.token, x);
    TakeOther(s.ports[x := q], s.net, s.h.chain, s.h.routed, s.h.sent, s.h.place, s.h.closed, s.h.pos, s.h.transit,
        s.h.cargo, s.nextId, id);
  }

  // ----- InitiateProxyRemoval -----

  lemma AnnounceTokens(ports: Ports, net: Net, chain: Chains, routed: Nums, pos: Positions, token: Tokens, id: nat,
      x: Addr, e: Event)
    requires x in ports && ports[x].mode.Proxying? && x !in token && id !in net
    requires e == ObserveProxy(ports[x].peer, x, ports[x].peer)
    requires Chained(chain, pos) && Senders(ports, pos, chain) && Announcements(net, pos, chain, token) &&
        Acks(net, pos, routed, token)
    ensures Announcements(net[id := e], pos, chain, token[x := Observing(id)])
    ensures Acks(net[id := e], pos, routed, token[x := Observing(id)])
  {
  }

  lemma AnnounceProxyTokens(ports: Ports, chain: Chains, pos: Positions, transit: Transits, token: Tokens, x: Addr,
      tok: Token)
    requires x in ports && ports[x].mode.Proxying? && x !in token && Waiting(ports, pos, chain, transit,
        token) && ProxyTokens(ports, transit, pos, chain, token) && ParkedAcks(ports, token)
    ensures ProxyTokens(ports, transit, pos, chain, token[x := tok]) && ParkedAcks(ports, token[x := tok])
  {
  }

  lemma AnnounceTravellers(ports: Ports, chain: Chains, nexts: Nums, routed: Nums, sent: Logs, closed: set<LaneId>,
      pos: Positions, transit: Transits, token: Tokens, x: Addr, tok: Token)
    requires x in ports && ports[x].mode.Proxying? && Travellers(ports, transit, pos, chain, nexts, routed, sent,
        closed, token)
    ensures Travellers(ports, transit, pos, chain, nexts, routed, sent, closed, token[x := tok])
  {
  }

  lemma AnnounceWaiting(ports: Ports, chain: Chains, pos: Positions, transit: Transits, token: Tokens, x: Addr,
      tok: Token)
    requires x in ports && ports[x].mode.Proxying? && Waiting(ports, pos, chain, transit, token)
    ensures Waiting(ports, pos, chain, transit, token[x := tok])
  {
  }

  lemma AnnounceAcceptTokens(ports: Ports, net: Net, chain: Chains, pos: Positions, transit: Transits,
      token: Tokens, id: nat, x: Addr, e: Event, tok: Token)
    requires x !in token && id !in net && !e.PortAccepted? && !tok.Accepting? && AcceptTokens(net, ports, transit,
        pos, chain, token)
    ensures AcceptTokens(net[id := e], ports, transit, pos, chain, token[x := tok])
  {
  }

  lemma InitiateKeeps(s: State, x: Addr, busy: set<Addr>)
    requires Core(s) && Heralding(s, busy) && x in s.ports && s.ports[x].mode.Proxying? && x !in s.h.token
    requires x in s.h.pos
    ensures var t := InitiateProxyRemoval(s, x);
            Core(t) && Heralding(t, busy)
  {
    hide Lanes, Chained, Named, Known, Ids, Receivers, Senders, Nexts, Ends, Travellers, Waiting, Targets, Numbers,
        Placement, Reading, Gone, Lasts, TravelLasts, Closures, Flights, Mail, Queues, Pending, FlyingCargo,
        QueuedCargo, Manifest, Unheld, AcceptTokens, Announcements, Acks, ParkedAcks, ProxyTokens, Heralds,
        ClosureFits;
    var e := ObserveProxy(s.ports[x].peer, x, s.ports[x].peer);
    PostId(s.net, s.nextId, e);
    AnnounceTokens(s.ports, s.net, s.h.chain, s.h.routed, s.h.pos, s.h.token, s.nextId, x, e);
    AnnounceProxyTokens(s.ports, s.h.chain, s.h.pos, s.h.transit, s.h.token, x, Observing(s.nextId));
    AnnounceTravellers(s.ports, s.h.chain, s.h.nexts, s.h.routed, s.h.sent, s.h.closed, s.h.pos, s.h.transit,
        s.h.token, x, Observing(s.nextId));
    AnnounceWaiting(s.ports, s.h.chain, s.h.pos, s.h.transit, s.h.token, x, Observing(s.nextId));
    AnnounceAcceptTokens(s.ports, s.net, s.h.chain, s.h.pos, s.h.transit, s.h.token, s.nextId, x, e,
        Observing(s.nextId));
    KnownToken(s.ports, s.h.pos, s.h.transit, s.h.cargo, s.h.token, x, Observing(s.nextId));
    PostOther(s.ports, s.net, s.h.chain, s.h.routed, s.h.sent, s.h.place, s.h.closed, s.h.pos, s.h.transit,
        s.h.cargo, s.nextId, e);
    PostHeralds(s.ports, s.net, s.h.chain, s.h.routed, s.h.closed, s.h.transit, busy, s.nextId, e);
  }

  // ----- OnObserveProxy at the port that addresses the proxy -----

  predicate Skips(ports: Ports, net: Net, pos: Positions, id: nat, a: Addr, q: Port, m: LaneId) {
    id in net && net[id].ObserveProxy? && net[id].to == a && a in ports && ports[a].mode.Receiving? &&
    ports[a].peer == net[id].proxy && ports[a].parked.None? && a in pos && m == pos[a].lane.Other() &&
        q == ports[a].(peer := net[id].proxyTo)
  }

  /** The proxy is the sender's current target, and its successor exists. */
  lemma SkipTarget(ports: Ports, net: Net, chain: Chains, routed: Nums, sent: Logs, closed: set<LaneId>,
      pos: Positions, transit: Transits, token: Tokens, id: nat, a: Addr, q: Port, m: LaneId)
    requires Skips(ports, net, pos, id, a, q, m) && Chained(chain, pos) && Receivers(ports, pos, chain, routed,
        sent, closed) && Announcements(net, pos, chain, token) && ProxyTokens(ports, transit, pos, chain, token)
    ensures m in chain && m in routed && |routed[m]| + 1 < |chain[m]| && q.peer == chain[m][|routed[m]| + 1] &&
            q.peer !in transit && net[id].proxy == chain[m][|routed[m]|]
  {
  }

  lemma SkipReceivers(ports: Ports, net: Net, chain: Chains, routed: Nums, sent: Logs, closed: set<LaneId>,
      pos: Positions, id: nat, a: Addr, q: Port, m: LaneId)
    requires Skips(ports, net, pos, id, a, q, m) && Chained(chain, pos) && Receivers(ports, pos, chain, routed,
        sent, closed)
    requires m in chain && m in routed && |routed[m]| + 1 < |chain[m]| && q.peer == chain[m][|routed[m]| + 1]
    ensures Receivers(ports[a := q], pos, chain, routed[m := routed[m] + [q.nextSend]], sent, closed)
  {
  }

  lemma SkipTravellers(ports: Ports, net: Net, chain: Chains, nexts: Nums, routed: Nums, sent: Logs,
      closed: set<LaneId>, pos: Positions, transit: Transits, token: Tokens, id: nat, a: Addr, q: Port, m: LaneId,
      x: Addr, tok: Token)
    requires Skips(ports, net, pos, id, a, q, m) && Chained(chain, pos) && Receivers(ports, pos, chain, routed,
        sent, closed) && Travellers(ports, transit, pos, chain, nexts, routed, sent, closed, token) &&
        m in routed && a !in transit
    requires x in token
    ensures Travellers(ports[a := q], transit, pos, chain, nexts, routed[m := routed[m] + [q.nextSend]], sent,
        closed, token[x := tok])
  {
  }

  lemma SkipTargets(chain: Chains, routed: Nums, transit: Transits, m: LaneId, n: nat)
    requires Targets(transit, chain, routed) && m in chain && m in routed && |routed[m]| + 1 < |chain[m]|
    requires chain[m][|routed[m]| + 1] !in transit
    ensures Targets(transit, chain, routed[m := routed[m] + [n]])
  {
  }

  lemma SkipNumbers(chain: Chains, nexts: Nums, routed: Nums, sent: Logs, m: LaneId)
    requires Numbers(chain, nexts, routed, sent) && m in chain && |routed[m]| + 1 < |chain[m]|
    ensures Numbers(chain, nexts, routed[m := routed[m] + [|sent[m]|]], sent)
  {
    var r, r' := routed[m], routed[m] + [|sent[m]|];
    assert forall i :: 0 <= i < |chain[m]| ==> Limit(r', |sent[m]|, i) == Limit(r, |sent[m]|, i);
    assert LaneNumbers(|chain[m]|, nexts[m], r', |sent[m]|) by {
      assert LaneNumbers(|chain[m]|, nexts[m], r, |sent[m]|);
      assert 1 <= nexts[m][|r|] <= |sent[m]|;
    }
  }

  lemma SkipPlacement(chain: Chains, nexts: Nums, routed: Nums, sent: Logs, place: Places, transit: Transits,
      m: LaneId)
    requires Placement(chain, nexts, routed, sent, place, transit) && m in routed && m in sent
    ensures Placement(chain, nexts, routed[m := routed[m] + [|sent[m]|]], sent, place, transit)
  {
  }

  lemma SkipGone(ports: Ports, chain: Chains, nexts: Nums, routed: Nums, sent: Logs, closed: set<LaneId>,
      transit: Transits, m: LaneId)
    requires Gone(ports, transit, chain, nexts, routed, sent, closed) && m in routed && m in sent
    ensures Gone(ports, transit, chain, nexts, routed[m := routed[m] + [|sent[m]|]], sent, closed)
  {
  }

  lemma SkipLasts(ports: Ports, chain: Chains, routed: Nums, sent: Logs, closed: set<LaneId>, pos: Positions,
      transit: Transits, m: LaneId)
    requires Lasts(ports, transit, pos, chain, routed, sent, closed) && m in routed && m in sent
    ensures Lasts(ports, transit, pos, chain, routed[m := routed[m] + [|sent[m]|]], sent, closed)
  {
  }

  lemma SkipClosures(ports: Ports, net: Net, chain: Chains, routed: Nums, sent: Logs, closed: set<LaneId>,
      pos: Positions, transit: Transits, m: LaneId)
    requires Closures(net, ports, transit, pos, chain, routed, sent, closed) && m in routed && m in sent
    ensures Closures(net, ports, transit, pos, chain, routed[m := routed[m] + [|sent[m]|]], sent, closed)
  {
  }

  lemma SkipAcks(ports: Ports, net: Net, chain: Chains, routed: Nums, pos: Positions, token: Tokens, id: nat,
      id': nat, a: Addr, q: Port, m: LaneId, e: Event)
    requires Skips(ports, net, pos, id, a, q, m) && Chained(chain, pos) && Announcements(net, pos, chain,
        token) && Acks(net, pos, routed, token) && id' !in net
    requires m in chain && m in routed && |routed[m]| < |chain[m]| && net[id].proxy == chain[m][|routed[m]|]
    requires q.nextSend >= 1 && e == ObserveProxyAck(net[id].proxy, q.nextSend - 1)
    ensures Acks((net - {id})[id' := e], pos, routed[m := routed[m] + [q.nextSend]],
        token[net[id].proxy := Acking(id')])
  {
  }

  lemma SkipAnnouncements(net: Net, chain: Chains, pos: Positions, token: Tokens, id: nat, id': nat, e: Event)
    requires id in net && net[id].ObserveProxy? && Announcements(net, pos, chain, token) && id' !in net &&
        e.ObserveProxyAck?
    ensures Announcements((net - {id})[id' := e], pos, chain, token[net[id].proxy := Acking(id')])
  {
  }

  lemma RetokenProxies(ports: Ports, chain: Chains, pos: Positions, transit: Transits, token: Tokens, id: nat,
      x: Addr, tok: Token)
    requires x in token && token[x] == Observing(id) && !tok.Accepting? && ProxyTokens(ports, transit, pos, chain,
        token) && ParkedAcks(ports, token)
    ensures ProxyTokens(ports, transit, pos, chain, token[x := tok]) && ParkedAcks(ports, token[x := tok])
  {
  }

  lemma SwapAcceptTokens(ports: Ports, net: Net, chain: Chains, pos: Positions, transit: Transits, token: Tokens,
      id: nat, id': nat, x: Addr, e: Event, tok: Token)
    requires id in net && id' !in net && !net[id].PortAccepted? && !e.PortAccepted? &&
        AcceptTokens(net, ports, transit, pos, chain, token)
    requires x in token && !token[x].Accepting? && !tok.Accepting?
    ensures AcceptTokens((net - {id})[id' := e], ports, transit, pos, chain, token[x := tok])
  {
  }

  lemma SkipHeralds(ports: Ports, net: Net, chain: Chains, routed: Nums, sent: Logs, closed: set<LaneId>,
      pos: Positions, transit: Transits, busy: set<Addr>, id: nat, a: Addr, q: Port, m: LaneId, n: nat)
    requires Skips(ports, net, pos, id, a, q, m) && Heralds(net, ports, transit, chain, routed, closed, busy) &&
        Receivers(ports, pos, chain, routed, sent, closed) && m in routed
    ensures Heralds(net, ports[a := q], transit, chain, routed[m := routed[m] + [n]], closed, busy)
  {
    KeepHeralds(ports, net, chain, routed, closed, transit, busy, a, q);
    assert m.Other() == pos[a].lane;
  }

  lemma SkipLanes(chain: Chains, nexts: Nums, routed: Nums, sent: Logs, place: Places, read: Logs,
      closed: set<LaneId>, name: nat, m: LaneId, n: nat)
    requires Lanes(chain, nexts, routed, sent, place, read, closed, name) && m in chain &&
        |routed[m]| + 1 < |chain[m]|
    ensures Lanes(chain, nexts, routed[m := routed[m] + [n]], sent, place, read, closed, name)
  {
    assert routed[m := routed[m] + [n]].Keys == routed.Keys;
  }

  lemma SwapWaiting(ports: Ports, chain: Chains, pos: Positions, transit: Transits, token: Tokens, x: Addr,
      tok: Token)
    requires Waiting(ports, pos, chain, transit, token) && x in token && !token[x].Accepting?
    ensures Waiting(ports, pos, chain, transit, token[x := tok])
  {
  }

  lemma TokenIsProxys(net: Net, chain: Chains, routed: Nums, pos: Positions, token: Tokens, id: nat)
    requires Announcements(net, pos, chain, token) && Acks(net, pos, routed, token) && id in net
    ensures net[id].ObserveProxy? ==> net[id].proxy in token && token[net[id].proxy] == Observing(id)
    ensures net[id].ObserveProxyAck? ==> net[id].to in token && token[net[id].to] == Acking(id)
  {
  }

  lemma NextSendIsLength(ports: Ports, chain: Chains, routed: Nums, sent: Logs, closed: set<LaneId>, pos: Positions,
      a: Addr)
    requires Receivers(ports, pos, chain, routed, sent, closed) && a in ports && ports[a].mode.Receiving?
    ensures var m := pos[a].lane.Other(); m in sent && m in routed && ports[a].nextSend == |sent[m]|
  {
  }

  lemma SentIsPositive(chain: Chains, nexts: Nums, routed: Nums, sent: Logs, place: Places, read: Logs,
      closed: set<LaneId>, name: nat, m: LaneId)
    requires Lanes(chain, nexts, routed, sent, place, read, closed, name) && m in sent
    ensures |sent[m]| >= 1
  {
  }

  lemma SkipProxyKeeps(s: State, id: nat)
    requires Core(s) && Heralding(s, {}) && id in s.net && s.net[id].ObserveProxy? && s.net[id].to in s.ports
    requires Tracked(s.h, s.net[id].to) && s.ports[s.net[id].to].mode.Receiving?
    requires s.ports[s.net[id].to].parked.None?
    requires s.ports[s.net[id].to].peer == s.net[id].proxy && s.net[id].proxy in s.h.pos &&
        s.net[id].to !in s.h.transit
    ensures var t := SkipProxy(s, id);
            Core(t) && Heralding(t, {})
  {
    hide Lanes, Chained, Named, Known, Ids, Receivers, Senders, Nexts, Ends, Travellers, Waiting, Targets, Numbers,
        Placement, Reading, Gone, Lasts, TravelLasts, Closures, Flights, Mail, Queues, Pending, FlyingCargo,
        QueuedCargo, Manifest, Unheld, AcceptTokens, Announcements, Acks, ParkedAcks, ProxyTokens, Heralds;
    var a, x, t := s.net[id].to, s.net[id].proxy, SkipProxy(s, id);
    var m, q := s.h.pos[a].lane.Other(), t.ports[a];
    var n, tok := q.nextSend, Acking(s.nextId);
    SkipTarget(s.ports, s.net, s.h.chain, s.h.routed, s.h.sent, s.h.closed, s.h.pos, s.h.transit, s.h.token, id, a,
        q, m);
    NextSendIsLength(s.ports, s.h.chain, s.h.routed, s.h.sent, s.h.closed, s.h.pos, a);
    SentIsPositive(s.h.chain, s.h.nexts, s.h.routed, s.h.sent, s.h.place, s.h.read, s.h.closed, s.nextName, m);
    TokenIsProxys(s.net, s.h.chain, s.h.routed, s.h.pos, s.h.token, id);
    var e := ObserveProxyAck(x, n - 1);
    TakeId(s.net, s.nextId, id);
    PostId(s.net - {id}, s.nextId, e);
    SkipLanes(s.h.chain, s.h.nexts, s.h.routed, s.h.sent, s.h.place, s.h.read, s.h.closed, s.nextName, m, n);
    SkipReceivers(s.ports, s.net, s.h.chain, s.h.routed, s.h.sent, s.h.closed, s.h.pos, id, a, q, m);
    SkipTravellers(s.ports, s.net, s.h.chain, s.h.nexts, s.h.routed, s.h.sent, s.h.closed, s.h.pos, s.h.transit,
        s.h.token, id, a, q, m, x, tok);
    SkipTargets(s.h.chain, s.h.routed, s.h.transit, m, n);
    SkipNumbers(s.h.chain, s.h.nexts, s.h.routed, s.h.sent, m);
    SkipPlacement(s.h.chain, s.h.nexts, s.h.routed, s.h.sent, s.h.place, s.h.transit, m);
    KeepSkip(s.ports, s.net, s.h.chain, s.h.nexts, s.h.routed, s.h.sent, s.h.place, s.h.closed, s.h.pos,
        s.h.transit, s.h.cargo, s.h.token, a, q);
    SkipGone(s.ports[a := q], s.h.chain, s.h.nexts, s.h.routed, s.h.sent, s.h.closed, s.h.transit, m);
    SkipLasts(s.ports[a := q], s.h.chain, s.h.routed, s.h.sent, s.h.closed, s.h.pos, s.h.transit, m);
    SkipClosures(s.ports[a := q], s.net, s.h.chain, s.h.routed, s.h.sent, s.h.closed, s.h.pos, s.h.transit, m);
    SkipAcks(s.ports, s.net, s.h.chain, s.h.routed, s.h.pos, s.h.token, id, s.nextId, a, q, m, e);
    SkipAnnouncements(s.net, s.h.chain, s.h.pos, s.h.token, id, s.nextId, e);
    KeepProxyTokens(s.ports, s.h.chain, s.h.pos, s.h.transit, s.h.token, a, q);
    RetokenProxies(s.ports[a := q], s.h.chain, s.h.pos, s.h.transit, s.h.token, id, x, tok);
    KeepAcceptTokens(s.ports, s.net, s.h.chain, s.h.pos, s.h.transit, s.h.token, a, q);
    SwapAcceptTokens(s.ports[a := q], s.net, s.h.chain, s.h.pos, s.h.transit, s.h.token, id, s.nextId, x, e, tok);
    SkipHeralds(s.ports, s.net, s.h.chain, s.h.routed, s.h.sent, s.h.closed, s.h.pos, s.h.transit, {}, id, a, q, m,
        n);
    KnownToken(s.ports[a := q], s.h.pos, s.h.transit, s.h.cargo, s.h.token, x, tok);
    SwapWaiting(s.ports[a := q], s.h.chain, s.h.pos, s.h.transit, s.h.token, x, tok);
    SwapEvent(s.ports[a := q], s.net, s.h.chain, t.h.routed, s.h.sent, s.h.place, s.h.closed, s.h.pos, s.h.transit,
        s.h.cargo, s.nextId, id, e);
    TakeHeralds(s.ports[a := q], s.net, s.h.chain, t.h.routed, s.h.closed, s.h.transit, {}, id);
    PostHeralds(s.ports[a := q], s.net - {id}, s.h.chain, t.h.routed, s.h.closed, s.h.transit, {}, s.nextId, e);
  }
}
