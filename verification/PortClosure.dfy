/** News that a side has closed travels along the chain of the other side, and on along its own. */
module PortClosure {
  import opened PortState
  import opened PortSteps
  import opened PortInvariant
  import opened PortFrames
  import opened PortRemoval

  // ----- A closure event is posted -----

  lemma PostTokens(ports: Ports, net: Net, chain: Chains, routed: Nums, pos: Positions, transit: Transits,
      token: Tokens, id: nat, e: Event)
    requires id !in net && e.ObserveClosure? && AcceptTokens(net, ports, transit, pos, chain, token) &&
        Announcements(net, pos, chain, token) && Acks(net, pos, routed, token)
    ensures AcceptTokens(net[id := e], ports, transit, pos, chain, token) && Announcements(net[id := e], pos, chain,
        token) && Acks(net[id := e], pos, routed, token)
  {
  }

  lemma PostClosureKeeps(s: State, y: Addr, last: nat, busy: set<Addr>)
    requires Core(s) && Heralding(s, busy) && ClosureFits(s.ports, s.h.transit, s.h.pos, s.h.chain, s.h.routed,
        s.h.sent, s.h.closed, y, last)
    ensures var t := Post(s, ObserveClosure(y, last));
            Core(t) && Heralding(t, busy)
  {
    hide Lanes, Chained, Named, Known, Ids, Receivers, Senders, Nexts, Ends, Travellers, Waiting, Targets, Numbers,
        Placement, Reading, Gone, Lasts, TravelLasts, Closures, Flights, Mail, Queues, Pending, FlyingCargo,
        QueuedCargo, Manifest, Unheld, AcceptTokens, Announcements, Acks, ParkedAcks, ProxyTokens, Heralds,
        ClosureFits;
    var e := ObserveClosure(y, last);
    PostId(s.net, s.nextId, e);
    PostTokens(s.ports, s.net, s.h.chain, s.h.routed, s.h.pos, s.h.transit, s.h.token, s.nextId, e);
    PostOther(s.ports, s.net, s.h.chain, s.h.routed, s.h.sent, s.h.place, s.h.closed, s.h.pos, s.h.transit,
        s.h.cargo, s.nextId, e);
    PostHeralds(s.ports, s.net, s.h.chain, s.h.routed, s.h.closed, s.h.transit, busy, s.nextId, e);
  }

  /** Passing the news to its successor discharges a busy port. */
  lemma PassedOn(ports: Ports, net: Net, chain: Chains, routed: Nums, closed: set<LaneId>, pos: Positions,
      transit: Transits, id: nat, x: Addr, e: Event)
    requires Heralds(net, ports, transit, chain, routed, closed, {x}) && Chained(chain, pos) && x in pos &&
        e.ObserveClosure? && id !in net
    requires pos[x].idx + 1 < |chain[pos[x].lane]| ==> e.to == chain[pos[x].lane][pos[x].idx + 1]
    ensures Heralds(net[id := e], ports, transit, chain, routed, closed, {})
  {
    PostHeralds(ports, net, chain, routed, closed, transit, {x}, id, e);
    assert net[id := e][id].to == e.to && id in net[id := e];
    assert ClosureInFlight(net[id := e], e.to);
    forall m | m in chain && m !in closed && m.Other() in closed
      ensures HeraldLane(net[id := e], ports, transit, chain, {}, m, |routed[m]|)
    {
      assert HeraldLane(net[id := e], ports, transit, chain, {x}, m, |routed[m]|);
    }
  }

  // ----- NoteClosure -----

  predicate Notes(p: Port, q: Port, last: nat) {
    q == p.(peerClosed := true, lastRecv := last, removeOnLast := p.removeOnLast || !p.mode.Receiving?)
  }

  lemma NoteSilent(ports: Ports, chain: Chains, closed: set<LaneId>, transit: Transits, x: Addr, q: Port)
    requires x in ports && q.peerClosed
    ensures forall m :: Silent(ports, transit, chain, closed, m) ==> Silent(ports[x := q], transit, chain, closed, m)
  {
  }

  lemma NoteGone(ports: Ports, net: Net, chain: Chains, nexts: Nums, routed: Nums, sent: Logs, closed: set<LaneId>,
      pos: Positions, transit: Transits, x: Addr, q: Port)
    requires x in ports && q.peerClosed && Gone(ports, transit, chain, nexts, routed, sent, closed) &&
        TravelLasts(ports, transit, pos, chain, sent, closed) && Closures(net, ports, transit, pos, chain, routed,
        sent, closed)
    ensures Gone(ports[x := q], transit, chain, nexts, routed, sent, closed) && TravelLasts(ports[x := q], transit,
        pos, chain, sent, closed) && Closures(net, ports[x := q], transit, pos, chain, routed, sent, closed)
  {
    NoteSilent(ports, chain, closed, transit, x, q);
  }

  lemma NoteLasts(ports: Ports, chain: Chains, routed: Nums, sent: Logs, closed: set<LaneId>, pos: Positions,
      transit: Transits, x: Addr, q: Port, last: nat)
    requires x in ports && Notes(ports[x], q, last) && Lasts(ports, transit, pos, chain, routed, sent, closed) &&
        ClosureFits(ports, transit, pos, chain, routed, sent, closed, x, last)
    ensures Lasts(ports[x := q], transit, pos, chain, routed, sent, closed)
  {
    NoteSilent(ports, chain, closed, transit, x, q);
  }

  lemma NoteHeralds(ports: Ports, net: Net, chain: Chains, routed: Nums, sent: Logs, closed: set<LaneId>,
      pos: Positions, transit: Transits, id: nat, x: Addr, q: Port, last: nat)
    requires id in net && net[id] == ObserveClosure(x, last) && x in ports && Notes(ports[x], q, last)
    requires Chained(chain, pos) && Receivers(ports, pos, chain, routed, sent, closed) &&
        Senders(ports, pos, chain) && Heralds(net, ports, transit, chain, routed, closed, {})
    ensures Heralds(net - {id}, ports[x := q], transit, chain, routed, closed, {x})
  {
    forall m | m in chain && m !in closed && m.Other() in closed
      ensures HeraldLane(net - {id}, ports[x := q], transit, chain, {x}, m, |routed[m]|)
    {
      assert HeraldLane(net, ports, transit, chain, {}, m, |routed[m]|);
      NoteHerald(ports, net, chain, routed, sent, closed, pos, transit, id, x, q, last, m, |routed[m]|);
    }
  }

  lemma NoteHerald(ports: Ports, net: Net, chain: Chains, routed: Nums, sent: Logs, closed: set<LaneId>,
      pos: Positions, transit: Transits, id: nat, x: Addr, q: Port, last: nat, m: LaneId, target: nat)
    requires id in net && net[id] == ObserveClosure(x, last) && x in ports && Notes(ports[x], q, last)
    requires Chained(chain, pos) && Receivers(ports, pos, chain, routed, sent, closed) &&
        Senders(ports, pos, chain) && m in chain && target < |chain[m]|
    requires HeraldLane(net, ports, transit, chain, {}, m, target)
    ensures HeraldLane(net - {id}, ports[x := q], transit, chain, {x}, m, target)
  {
    forall i | 0 <= i < |chain[m]|
      ensures Told(ports, transit, chain, m, i) ==> Told(ports[x := q], transit, chain, m, i)
      ensures chain[m][i] == x ==> Told(ports[x := q], transit, chain, m, i)
      ensures chain[m][i] != x ==> Told(ports[x := q], transit, chain, m, i) == Told(ports, transit, chain, m, i)
    {
    }
    forall a | ClosureInFlight(net, a) && a != x
      ensures ClosureInFlight(net - {id}, a)
    {
      var j :| j in net && net[j].ObserveClosure? && net[j].to == a;
      assert j in net - {id};
    }
  }

  lemma FitsOf(ports: Ports, net: Net, chain: Chains, routed: Nums, sent: Logs, closed: set<LaneId>, pos: Positions,
      transit: Transits, id: nat)
    requires Closures(net, ports, transit, pos, chain, routed, sent, closed) && id in net && net[id].ObserveClosure?
    ensures ClosureFits(ports, transit, pos, chain, routed, sent, closed, net[id].to, net[id].last) &&
        net[id].to in pos
  {
  }

  lemma TakeTokens(ports: Ports, net: Net, chain: Chains, routed: Nums, pos: Positions, transit: Transits,
      token: Tokens, id: nat)
    requires id in net && net[id].ObserveClosure? && AcceptTokens(net, ports, transit, pos, chain, token) &&
        Announcements(net, pos, chain, token) && Acks(net, pos, routed, token)
    ensures AcceptTokens(net - {id}, ports, transit, pos, chain, token) && Announcements(net - {id}, pos, chain,
        token) && Acks(net - {id}, pos, routed, token)
  {
  }

  lemma NoteParts(ports: Ports, net: Net, chain: Chains, nexts: Nums, routed: Nums, sent: Logs, place: Places,
      closed: set<LaneId>, pos: Positions, transit: Transits, cargo: Cargos, token: Tokens, x: Addr, q: Port,
      last: nat)
    requires x in ports && Notes(ports[x], q, last)
    requires Known(ports, transit, cargo, token, pos) && Receivers(ports, pos, chain, routed, sent, closed) &&
        Senders(ports, pos, chain) && Nexts(ports, pos, nexts) && Ends(ports, transit, chain, closed) &&
        Travellers(ports, transit, pos, chain, nexts, routed, sent, closed, token) &&
        Waiting(ports, pos, chain, transit, token)
    requires Queues(ports, chain, sent, place) && Pending(ports, pos, place) && Manifest(net, ports, chain, cargo,
        place) && FlyingCargo(net, ports, pos, transit, cargo, sent) && Unheld(ports, cargo) &&
        QueuedCargo(ports, pos, transit, cargo, sent)
    requires AcceptTokens(net, ports, transit, pos, chain, token) && ParkedAcks(ports, token) &&
        ProxyTokens(ports, transit, pos, chain, token)
    ensures var ports' := ports[x := q];
            Known(ports', transit, cargo, token, pos) && Receivers(ports', pos, chain, routed, sent, closed) &&
            Senders(ports', pos, chain) && Nexts(ports', pos, nexts) &&
            Ends(ports', transit, chain, closed) && Travellers(ports', transit, pos, chain, nexts, routed, sent,
            closed, token) && Waiting(ports', pos, chain, transit, token) && Queues(ports', chain, sent, place) &&
            Pending(ports', pos, place) && Manifest(net, ports', chain, cargo, place) &&
            FlyingCargo(net, ports', pos, transit, cargo, sent) &&
            Unheld(ports', cargo) && QueuedCargo(ports', pos, transit, cargo, sent) &&
            AcceptTokens(net, ports', transit, pos, chain, token) &&
            ParkedAcks(ports', token) && ProxyTokens(ports', transit, pos, chain, token)
  {
    hide Lanes, Chained, Named, Known, Ids, Receivers, Senders, Nexts, Ends, Travellers, Waiting, Targets, Numbers,
        Placement, Reading, Gone, Lasts, TravelLasts, Closures, Flights, Mail, Queues, Pending, FlyingCargo,
        QueuedCargo, Manifest, Unheld, AcceptTokens, Announcements, Acks, ParkedAcks, ProxyTokens, Heralds;
    KeepKnown(ports, pos, transit, cargo, token, x, q);
    KeepReceivers(ports, chain, routed, sent, closed, pos, x, q);
    KeepSenders(ports, chain, pos, transit, token, x, q);
    KeepNexts(ports, nexts, pos, x, q);
    KeepEnds(ports, chain, closed, transit, x, q);
    KeepTravellers(ports, chain, nexts, routed, sent, closed, pos, transit, token, x, q);
    KeepQueues(ports, chain, sent, place, x, q);
    KeepPending(ports, place, pos, x, q);
    KeepManifest(ports, net, chain, place, cargo, x, q);
    KeepFlyingCargo(ports, net, sent, pos, transit, cargo, x, q);
    KeepQueuedCargo(ports, sent, pos, transit, cargo, x, q);
    KeepAcceptTokens(ports, net, chain, pos, transit, token, x, q);
    KeepProxyTokens(ports, chain, pos, transit, token, x, q);
  }

  lemma NoteClosureKeeps(s: State, id: nat)
    requires Core(s) && Heralding(s, {}) && id in s.net && s.net[id].ObserveClosure? && s.net[id].to in s.ports
    ensures var t := NoteClosure(Take(s, id), s.net[id].to, s.net[id].last);
            Core(t) && Heralding(t, {s.net[id].to}) &&
            ClosureFits(t.ports, t.h.transit, t.h.pos, t.h.chain, t.h.routed, t.h.sent, t.h.closed, s.net[id].to,
            s.net[id].last)
  {
    hide Lanes, Chained, Named, Known, Ids, Receivers, Senders, Nexts, Ends, Travellers, Waiting, Targets, Numbers,
        Placement, Reading, Gone, Lasts, TravelLasts, Closures, Flights, Mail, Queues, Pending, FlyingCargo,
        QueuedCargo, Manifest, Unheld, AcceptTokens, Announcements, Acks, ParkedAcks, ProxyTokens, Heralds,
        ClosureFits;
    var x, last := s.net[id].to, s.net[id].last;
    var q := NoteClosure(Take(s, id), x, last).ports[x];
    var ports' := s.ports[x := q];
    FitsOf(s.ports, s.net, s.h.chain, s.h.routed, s.h.sent, s.h.closed, s.h.pos, s.h.transit, id);
    NoteParts(s.ports, s.net, s.h.chain, s.h.nexts, s.h.routed, s.h.sent, s.h.place, s.h.closed, s.h.pos,
        s.h.transit, s.h.cargo, s.h.token, x, q, last);
    NoteGone(s.ports, s.net, s.h.chain, s.h.nexts, s.h.routed, s.h.sent, s.h.closed, s.h.pos, s.h.transit, x, q);
    NoteLasts(s.ports, s.h.chain, s.h.routed, s.h.sent, s.h.closed, s.h.pos, s.h.transit, x, q, last);
    FitsOf(ports', s.net, s.h.chain, s.h.routed, s.h.sent, s.h.closed, s.h.pos, s.h.transit, id);
    NoteHeralds(s.ports, s.net, s.h.chain, s.h.routed, s.h.sent, s.h.closed, s.h.pos, s.h.transit, id, x, q, last);
    TakeOther(ports', s.net, s.h.chain, s.h.routed, s.h.sent, s.h.place, s.h.closed, s.h.pos, s.h.transit,
        s.h.cargo, s.nextId, id);
    TakeTokens(ports', s.net, s.h.chain, s.h.routed, s.h.pos, s.h.transit, s.h.token, id);
  }

  // ----- What is passed on fits its receiver -----

  /** A sent-away port passes the news to its successor unchanged. */
  lemma FitsSuccessor(ports: Ports, chain: Chains, nexts: Nums, routed: Nums, sent: Logs, closed: set<LaneId>,
      pos: Positions, transit: Transits, x: Addr, last: nat)
    requires x in ports && !ports[x].mode.Receiving? && ClosureFits(ports, transit, pos, chain, routed, sent,
        closed, x, last)
    requires Chained(chain, pos) && Senders(ports, pos, chain) && Numbers(chain, nexts, routed, sent)
    ensures ClosureFits(ports, transit, pos, chain, routed, sent, closed, ports[x].peer, last)
  {
    var m, i := pos[x].lane, pos[x].idx;
    assert LaneNumbers(|chain[m]|, nexts[m], routed[m], |sent[m]|);
    assert pos[ports[x].peer] == Pos(m, i + 1);
    assert Limit(routed[m], |sent[m]|, i + 1) == |sent[m]|;
  }

  /** The end that has learned of the closure tells the ports behind the closed side that it
      will not send any more. */
  lemma FitsBeyond(ports: Ports, chain: Chains, nexts: Nums, routed: Nums, sent: Logs, place: Places, read: Logs,
      closed: set<LaneId>, pos: Positions, transit: Transits, name: nat, x: Addr)
    requires x in ports && ports[x].mode.Receiving? && ports[x].peerClosed
    requires Chained(chain, pos) && Receivers(ports, pos, chain, routed, sent, closed) &&
        Lasts(ports, transit, pos, chain, routed, sent, closed) && Lanes(chain, nexts, routed, sent, place, read,
        closed, name)
    ensures ports[x].nextSend >= 1 && ClosureFits(ports, transit, pos, chain, routed, sent, closed, ports[x].peer,
        ports[x].nextSend - 1)
  {
    var l := pos[x].lane;
    var m := l.Other();
    assert m.Other() == l && EndOf(chain, l) == x;
    assert Silent(ports, transit, chain, closed, l);
    assert pos[ports[x].peer] == Pos(m, |routed[m]|);
  }

  lemma RemovalKeepsFits(ports: Ports, chain: Chains, routed: Nums, sent: Logs, closed: set<LaneId>, pos: Positions,
      transit: Transits, x: Addr, y: Addr, last: nat)
    requires x in ports && !ports[x].mode.Receiving? && Chained(chain, pos) && Senders(ports, pos, chain) &&
        ClosureFits(ports, transit, pos, chain, routed, sent, closed, y, last)
    ensures ClosureFits(ports - {x}, transit, pos, chain, routed, sent, closed, y, last)
  {
    RemoveSilent(ports, chain, closed, pos, transit, x);
  }

  // ----- The news reaches a name without a port -----

  lemma DropHeralds(ports: Ports, net: Net, chain: Chains, nexts: Nums, routed: Nums, sent: Logs,
      closed: set<LaneId>, pos: Positions, transit: Transits, token: Tokens, id: nat)
    requires id in net && net[id].ObserveClosure? && net[id].to !in ports && net[id].to in pos
    requires Chained(chain, pos) && Ends(ports, transit, chain, closed) && Travellers(ports, transit, pos, chain,
        nexts, routed, sent, closed, token) && Heralds(net, ports, transit, chain, routed, closed, {})
    ensures Heralds(net - {id}, ports, transit, chain, routed, closed, {})
  {
    var x := net[id].to;
    forall m | m in chain && m !in closed && m.Other() in closed
      ensures HeraldLane(net - {id}, ports, transit, chain, {}, m, |routed[m]|)
    {
      assert HeraldLane(net, ports, transit, chain, {}, m, |routed[m]|);
      forall a | ClosureInFlight(net, a) && a != x
        ensures ClosureInFlight(net - {id}, a)
      {
        var j :| j in net && net[j].ObserveClosure? && net[j].to == a;
        assert j in net - {id};
      }
      forall i | 0 <= i < |chain[m]| && chain[m][i] == x
        ensures i + 1 < |chain[m]| ==> Told(ports, transit, chain, m, i)
        ensures i + 1 == |chain[m]| ==> x in transit && i > 0 && chain[m][i - 1] in ports
        ensures i + 1 == |chain[m]| ==> ports[chain[m][i - 1]].mode.Buffering?
      {
        if i + 1 == |chain[m]| {
          assert EndOf(chain, m) == x;
          assert Travels(ports, pos, chain, nexts, routed, sent, closed, token, x, transit[x]);
        }
      }
    }
  }

  lemma DropClosureKeeps(s: State, id: nat)
    requires Core(s) && Heralding(s, {}) && id in s.net && s.net[id].ObserveClosure? && s.net[id].to !in s.ports
    ensures var t := Take(s, id);
            Core(t) && Heralding(t, {})
  {
    hide Lanes, Chained, Named, Known, Ids, Receivers, Senders, Nexts, Ends, Travellers, Waiting, Targets, Numbers,
        Placement, Reading, Gone, Lasts, TravelLasts, Closures, Flights, Mail, Queues, Pending, FlyingCargo,
        QueuedCargo, Manifest, Unheld, AcceptTokens, Announcements, Acks, ParkedAcks, ProxyTokens, Heralds,
        ClosureFits;
    FitsOf(s.ports, s.net, s.h.chain, s.h.routed, s.h.sent, s.h.closed, s.h.pos, s.h.transit, id);
    DropHeralds(s.ports, s.net, s.h.chain, s.h.nexts, s.h.routed, s.h.sent, s.h.closed, s.h.pos, s.h.transit,
        s.h.token, id);
    TakeOther(s.ports, s.net, s.h.chain, s.h.routed, s.h.sent, s.h.place, s.h.closed, s.h.pos, s.h.transit,
        s.h.cargo, s.nextId, id);
    TakeTokens(s.ports, s.net, s.h.chain, s.h.routed, s.h.pos, s.h.transit, s.h.token, id);
  }

  // ----- OnObserveClosure -----

  lemma SuccessorOf(ports: Ports, chain: Chains, routed: Nums, sent: Logs, closed: set<LaneId>, pos: Positions,
      x: Addr)
    requires x in ports && Chained(chain, pos) && Receivers(ports, pos, chain, routed, sent, closed) &&
        Senders(ports, pos, chain)
    ensures x in pos && pos[x].lane in chain
    ensures ports[x].mode.Receiving? ==> pos[x].idx + 1 == |chain[pos[x].lane]|
    ensures !ports[x].mode.Receiving? ==> pos[x].idx + 1 < |chain[pos[x].lane]| &&
                                          ports[x].peer == chain[pos[x].lane][pos[x].idx + 1]
  {
  }

  lemma PassOnKeeps(s: State, x: Addr, y: Addr, last: nat)
    requires Core(s) && Heralding(s, {x}) && ClosureFits(s.ports, s.h.transit, s.h.pos, s.h.chain, s.h.routed,
        s.h.sent, s.h.closed, y, last) && x in s.h.pos && s.h.pos[x].lane in s.h.chain
    requires s.h.pos[x].idx + 1 < |s.h.chain[s.h.pos[x].lane]| ==> y == s.h.chain[s.h.pos[x].lane][s.h.pos[x].idx + 1]
    ensures var t := Post(s, ObserveClosure(y, last));
            Core(t) && Heralding(t, {})
  {
    hide Lanes, Chained, Named, Known, Ids, Receivers, Senders, Nexts, Ends, Travellers, Waiting, Targets, Numbers,
        Placement, Reading, Gone, Lasts, TravelLasts, Closures, Flights, Mail, Queues, Pending, FlyingCargo,
        QueuedCargo, Manifest, Unheld, AcceptTokens, Announcements, Acks, ParkedAcks, ProxyTokens, Heralds,
        ClosureFits;
    PostClosureKeeps(s, y, last, {x});
    PostId(s.net, s.nextId, ObserveClosure(y, last));
    PassedOn(s.ports, s.net, s.h.chain, s.h.routed, s.h.closed, s.h.pos, s.h.transit, s.nextId, x, ObserveClosure(y,
        last));
  }

  lemma OnObserveClosureKeeps(s: State, id: nat)
    requires Core(s) && Heralding(s, {}) && id in s.net && s.net[id].ObserveClosure?
    ensures var t := OnObserveClosure(s, id);
            Core(t) && Heralding(t, {})
  {
    hide Lanes, Chained, Named, Known, Ids, Receivers, Senders, Nexts, Ends, Travellers, Waiting, Targets, Numbers,
        Placement, Reading, Gone, Lasts, TravelLasts, Closures, Flights, Mail, Queues, Pending, FlyingCargo,
        QueuedCargo, Manifest, Unheld, AcceptTokens, Announcements, Acks, ParkedAcks, ProxyTokens, Heralds,
        ClosureFits;
    var x, last := s.net[id].to, s.net[id].last;
    if x !in s.ports {
      DropClosureKeeps(s, id);
    } else {
      NoteClosureKeeps(s, id);
      FitsOf(s.ports, s.net, s.h.chain, s.h.routed, s.h.sent, s.h.closed, s.h.pos, s.h.transit, id);
      SuccessorOf(s.ports, s.h.chain, s.h.routed, s.h.sent, s.h.closed, s.h.pos, x);
      var t := NoteClosure(Take(s, id), x, last);
      var y := s.ports[x].peer;
      if s.ports[x].mode.Receiving? {
        FitsBeyond(t.ports, t.h.chain, t.h.nexts, t.h.routed, t.h.sent, t.h.place, t.h.read, t.h.closed, t.h.pos,
            t.h.transit, t.nextName, x);
        PassOnKeeps(t, x, y, t.ports[x].nextSend - 1);
      } else {
        FitsSuccessor(t.ports, t.h.chain, t.h.nexts, t.h.routed, t.h.sent, t.h.closed, t.h.pos, t.h.transit, x, last);
        if s.ports[x].mode.Proxying? {
          MaybeRemoveKeeps(t, x, {x});
          MaybeRemoveFits(t, x, y, last);
          PassOnKeeps(MaybeRemoveProxy(t, x), x, y, last);
        } else {
          PassOnKeeps(t, x, y, last);
        }
      }
    }
  }

  lemma MaybeRemoveFits(s: State, x: Addr, y: Addr, last: nat)
    requires Core(s) && x in s.ports && s.ports[x].mode.Proxying? && ClosureFits(s.ports, s.h.transit, s.h.pos,
        s.h.chain, s.h.routed, s.h.sent, s.h.closed, y, last)
    ensures var t := MaybeRemoveProxy(s, x);
            ClosureFits(t.ports, t.h.transit, t.h.pos, t.h.chain, t.h.routed, t.h.sent, t.h.closed, y, last) &&
            t.h.pos == s.h.pos && t.h.chain == s.h.chain
  {
    hide Lanes, Chained, Named, Known, Ids, Receivers, Senders, Nexts, Ends, Travellers, Waiting, Targets, Numbers,
        Placement, Reading, Gone, Lasts, TravelLasts, Closures, Flights, Mail, Queues, Pending, FlyingCargo,
        QueuedCargo, Manifest, Unheld, AcceptTokens, Announcements, Acks, ParkedAcks, ProxyTokens, Heralds,
        ClosureFits;
    RemovalKeepsFits(s.ports, s.h.chain, s.h.routed, s.h.sent, s.h.closed, s.h.pos, s.h.transit, x, y, last);
  }
}
