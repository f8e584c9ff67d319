/** What holds besides the invariant of a pipe whose two sides are open, whatever has been closed
 elsewhere: what a proxy still has to do is always on record. */
module PortSteady {
  import opened PortState
  import opened PortSteps
  import opened PortInvariant
  import opened PortFrames
  import opened PortProxy
  import opened PortRemoval
  import opened PortTransfer
  import opened PortTheorems

  /** The proxy's acknowledgement is on its way, with the last number. */
  predicate ValidAck(net: Net, tok: Token) {
    tok.Acking? && tok.id in net && net[tok.id].ObserveProxyAck? && net[tok.id].last != INVALID_SEQUENCE_NUM
  }

  /** The sender has stopped addressing the port. */
  predicate Left(routed: Nums, pos: Positions, a: Addr) {
    a in pos && pos[a].lane in routed && pos[a].idx < |routed[pos[a].lane]|
  }

  /** Neither side of the port's pipe has been closed. */
  predicate BothOpen(closed: set<LaneId>, pos: Positions, a: Addr) {
    a in pos && pos[a].lane !in closed && pos[a].lane.Other() !in closed
  }

  /** A port the sender has stopped addressing has been told so, or is about to be. */
  ghost predicate Bypassed(ports: Ports, net: Net, routed: Nums, closed: set<LaneId>, pos: Positions, token: Tokens) {
    forall a ::
      a in ports && !ports[a].mode.Receiving? && Left(routed, pos, a) && BothOpen(closed, pos, a) ==>
        ports[a].removeOnLast || (a in token && ValidAck(net, token[a]))
  }

  /** What has an obligation is there, and has not been told its last number. */
  ghost predicate Obliged(ports: Ports, closed: set<LaneId>, pos: Positions, token: Tokens) {
    forall a :: a in token && BothOpen(closed, pos, a) ==> a in ports && !ports[a].removeOnLast
  }

  /** The announcement of a proxy goes round its own pipe. */
  ghost predicate Rounds(net: Net, pos: Positions) {
    forall id :: id in net && net[id].ObserveProxy? ==>
                   net[id].to in pos && net[id].proxy in pos && net[id].to != net[id].proxy &&
                   pos[net[id].to].lane.pipe == pos[net[id].proxy].lane.pipe
  }

  /** The pipe has been transferred at most once, in all. */
  predicate Short(chain: Chains, m: LaneId) {
    m in chain && m.Other() in chain && |chain[m]| + |chain[m.Other()]| <= 3
  }

  predicate OfShort(chain: Chains, pos: Positions, a: Addr) {
    a in pos && Short(chain, pos[a].lane)
  }

  /** The proxy of such a pipe never loses its obligation before it is told its last number. */
  ghost predicate Persists(
    ports: Ports, chain: Chains, closed: set<LaneId>, pos: Positions, token: Tokens, busy: set<Addr>)
  {
    forall a ::
      a in ports && ports[a].mode.Proxying? && !ports[a].removeOnLast && a !in busy && OfShort(chain, pos, a) &&
      BothOpen(closed, pos, a) ==>
        a in token
  }

  /** A proxy that is done has been removed. */
  ghost predicate Tidy(ports: Ports, closed: set<LaneId>, pos: Positions, untidy: set<Addr>) {
    forall a :: a in ports && a !in untidy && BothOpen(closed, pos, a) ==> !Done(ports, a)
  }

  /** Every obligation is an event on its way, or parked at a port. */
  ghost predicate Recorded(ports: Ports, net: Net, closed: set<LaneId>, pos: Positions, token: Tokens) {
    forall a :: a in token && BothOpen(closed, pos, a) ==>
                  match token[a]
                  case Accepting(id) => id in net && net[id] == PortAccepted(a)
                  case Observing(id) => id in net && net[id].ObserveProxy? && net[id].proxy == a
                  case Acking(id) => id in net && net[id].ObserveProxyAck? && net[id].to == a
                  case Parked => ParkedSomewhere(ports, a)
  }

  ghost predicate ParkedSomewhere(ports: Ports, a: Addr) {
    exists b :: b in ports && ports[b].parked == Some(a)
  }

  ghost predicate Steady(s: State, busy: set<Addr>, untidy: set<Addr>) {
    Bypassed(s.ports, s.net, s.h.routed, s.h.closed, s.h.pos, s.h.token) && Obliged(s.ports, s.h.closed, s.h.pos,
        s.h.token) && Rounds(s.net, s.h.pos) && Persists(s.ports, s.h.chain, s.h.closed, s.h.pos, s.h.token,
        busy) && Tidy(s.ports, s.h.closed, s.h.pos, untidy) && Recorded(s.ports, s.net, s.h.closed, s.h.pos,
        s.h.token)
  }

  // ----- Open pipes -----

  /** In an open pipe nobody has been told of a closure. */
  lemma NobodyTold(ports: Ports, chain: Chains, routed: Nums, sent: Logs, closed: set<LaneId>, pos: Positions,
      transit: Transits, a: Addr)
    requires BothOpen(closed, pos, a) && Lasts(ports, transit, pos, chain, routed, sent, closed) && a in ports
    ensures !ports[a].peerClosed && (ports[a].removeOnLast ==> !ports[a].mode.Buffering?)
  {
    assert !Silent(ports, transit, chain, closed, pos[a].lane);
    if ports[a].peerClosed || ports[a].removeOnLast { assert LastFits(ports, transit, pos, chain, routed, sent,
        closed, a, ports[a]); }
  }

  // ----- Steps that leave obligations alone -----

  predicate SameLife(p: Port, q: Port) {
    q == p.(peer := q.peer, nextSend := q.nextSend, queue := q.queue, signalable := q.signalable)
  }

  /** Ports that were there are as far as they were; new ones receive. */
  ghost predicate SameLives(s: State, t: State, untidy: set<Addr>) {
    SameControl(s.net, t.net) && LaterLanes(s.h, t.h) && t.h.token == s.h.token && s.ports.Keys <= t.ports.Keys &&
    s.h.closed <= t.h.closed &&
    (forall a :: a in s.ports ==> SameLife(s.ports[a], t.ports[a])) &&
    (forall a :: a in s.ports && s.ports[a].mode.Proxying? && a !in untidy ==>
                   t.ports[a].queue.next == s.ports[a].queue.next) &&
    (forall a :: a in t.ports && a !in s.ports ==> t.ports[a].mode.Receiving?)
  }

  /** Only user messages differ. */
  predicate SameControl(net: Net, net': Net) {
    (forall id :: id in net && !net[id].User? ==> id in net' && net'[id] == net[id]) &&
    (forall id :: id in net' && !net'[id].User? ==> id in net && net'[id] == net[id])
  }

  predicate LaterLanes(h: History, h': History) {
    (forall a :: a in h.pos ==> a in h'.pos && h'.pos[a] == h.pos[a]) &&
    (forall m :: m in h.routed ==> m in h'.routed && h'.routed[m] == h.routed[m]) &&
    (forall m :: m in h.chain ==> m in h'.chain && |h.chain[m]| <= |h'.chain[m]|)
  }

  /** Nothing changes for a port that was there. */
  lemma SamePlace(s: State, h: History, a: Addr)
    requires Base(s) && LaterLanes(s.h, h) && a in s.ports
    ensures Left(h.routed, h.pos, a) == Left(s.h.routed, s.h.pos, a)
    ensures OfShort(h.chain, h.pos, a) ==> OfShort(s.h.chain, s.h.pos, a)
    ensures s.h.closed <= h.closed && BothOpen(h.closed, h.pos, a) ==> BothOpen(s.h.closed, s.h.pos, a)
  {
    hide Named, Ids;
  }

  lemma QuietBypassed(s: State, t: State, busy: set<Addr>, untidy: set<Addr>)
    requires Steady(s, busy, untidy) && Base(s) && SameLives(s, t, untidy)
    ensures Bypassed(t.ports, t.net, t.h.routed, t.h.closed, t.h.pos, t.h.token) && Persists(t.ports, t.h.chain,
        t.h.closed, t.h.pos, t.h.token, busy)
  {
    hide Lanes, Chained, Named, Known, Ids, Receivers, Senders, Nexts, Ends, Travellers, Waiting, Targets, Numbers,
        Placement, Reading, Gone, Lasts, TravelLasts, Closures, Flights, Mail, Queues, Pending, FlyingCargo,
        QueuedCargo, Manifest, Unheld, AcceptTokens, Announcements, Acks, ParkedAcks, ProxyTokens, Heralds, Left,
        OfShort, LaterLanes, BothOpen;
    forall a | a in s.ports
      ensures Left(t.h.routed, t.h.pos, a) == Left(s.h.routed, s.h.pos, a)
      ensures OfShort(t.h.chain, t.h.pos, a) ==> OfShort(s.h.chain, s.h.pos, a)
      ensures BothOpen(t.h.closed, t.h.pos, a) ==> BothOpen(s.h.closed, s.h.pos, a)
    {
      SamePlace(s, t.h, a);
    }
  }

  lemma QuietRest(s: State, t: State, busy: set<Addr>, untidy: set<Addr>)
    requires Steady(s, busy, untidy) && SameLives(s, t, untidy) && Known(s.ports, s.h.transit, s.h.cargo, s.h.token,
        s.h.pos)
    ensures Obliged(t.ports, t.h.closed, t.h.pos, t.h.token) && Rounds(t.net, t.h.pos) &&
        Tidy(t.ports, t.h.closed, t.h.pos, untidy) && Recorded(t.ports, t.net, t.h.closed, t.h.pos, t.h.token)
  {
    assert forall a :: a in s.h.pos && BothOpen(t.h.closed, t.h.pos, a) ==> BothOpen(s.h.closed, s.h.pos, a);
    forall a | ParkedSomewhere(s.ports, a)
      ensures ParkedSomewhere(t.ports, a)
    {
      var b :| b in s.ports && s.ports[b].parked == Some(a);
      assert t.ports[b].parked == Some(a);
    }
  }

  lemma QuietSteady(s: State, t: State, busy: set<Addr>, untidy: set<Addr>)
    requires Steady(s, busy, untidy) && Base(s) && SameLives(s, t, untidy)
    ensures Steady(t, busy, untidy)
  {
    hide Lanes, Chained, Named, Known, Ids, Receivers, Senders, Nexts, Ends, Travellers, Waiting, Targets, Numbers,
        Placement, Reading, Gone, Lasts, TravelLasts, Closures, Flights, Mail, Queues, Pending, FlyingCargo,
        QueuedCargo, Manifest, Unheld, AcceptTokens, Announcements, Acks, ParkedAcks, ProxyTokens, Heralds,
        Bypassed, Obliged, Rounds, Persists, Tidy, Recorded, SameLives;
    QuietBypassed(s, t, busy, untidy);
    QuietRest(s, t, busy, untidy);
  }

  // ----- A port is sent away -----

  /** The end of a lane has not been left by the sender. */
  lemma EndIsNotLeft(ports: Ports, chain: Chains, nexts: Nums, routed: Nums, sent: Logs, place: Places, read: Logs,
      closed: set<LaneId>, pos: Positions, name: nat, a: Addr)
    requires a in ports && ports[a].mode.Receiving? && Receivers(ports, pos, chain, routed, sent, closed) &&
        Lanes(chain, nexts, routed, sent, place, read, closed, name)
    ensures !Left(routed, pos, a)
  {
  }

  lemma LeaveBypassed(ports: Ports, net: Net, chain: Chains, routed: Nums, closed: set<LaneId>, pos: Positions,
      transit: Transits, cargo: Cargos, token: Tokens, a: Addr, q: Port, l: LaneId, b: Addr)
    requires Leaves(ports, pos, a, q, l, b) && l in chain && Bypassed(ports, net, routed, closed, pos, token) &&
        !Left(routed, pos, a) && Known(ports, transit, cargo, token, pos)
    ensures Bypassed(ports[a := q], net, routed, closed, Followed(chain, pos, l, b), token)
  {
  }

  lemma LeavePersists(ports: Ports, chain: Chains, closed: set<LaneId>, pos: Positions, transit: Transits,
      cargo: Cargos, token: Tokens, busy: set<Addr>, a: Addr, q: Port, l: LaneId, b: Addr)
    requires Leaves(ports, pos, a, q, l, b) && l in chain && Persists(ports, chain, closed, pos, token, busy) &&
        Known(ports, transit, cargo, token, pos) && l.Other() != l
    ensures Persists(ports[a := q], Longer(chain, l, b), closed, Followed(chain, pos, l, b), token, busy)
  {
    forall c | c in ports && OfShort(Longer(chain, l, b), Followed(chain, pos, l, b), c)
      ensures OfShort(chain, pos, c)
    {
    }
  }

  lemma LeaveRest(ports: Ports, net: Net, chain: Chains, closed: set<LaneId>, pos: Positions, transit: Transits,
      cargo: Cargos, token: Tokens, a: Addr, q: Port, l: LaneId, b: Addr, untidy: set<Addr>)
    requires Leaves(ports, pos, a, q, l, b) && l in chain && a !in token && Obliged(ports, closed, pos, token) &&
        Rounds(net, pos) && Tidy(ports, closed, pos, untidy)
    requires Recorded(ports, net, closed, pos, token) && Known(ports, transit, cargo, token, pos)
    ensures var pos' := Followed(chain, pos, l, b);
            Obliged(ports[a := q], closed, pos', token) && Rounds(net, pos') && Tidy(ports[a := q], closed, pos',
            untidy) &&
            Recorded(ports[a := q], net, closed, pos', token)
  {
    KeepParked(ports, net, closed, pos, token, a, q);
  }

  lemma KeepParked(ports: Ports, net: Net, closed: set<LaneId>, pos: Positions, token: Tokens, a: Addr, q: Port)
    requires a in ports && q.parked == ports[a].parked && Recorded(ports, net, closed, pos, token)
    ensures Recorded(ports[a := q], net, closed, pos, token)
  {
    forall c | ParkedSomewhere(ports, c)
      ensures ParkedSomewhere(ports[a := q], c)
    {
      var b :| b in ports && ports[b].parked == Some(c);
      assert ports[a := q][b].parked == Some(c);
    }
  }

  lemma WillSendSteady(s: State, a: Addr, node: nat, busy: set<Addr>, untidy: set<Addr>)
    requires Core(s) && Steady(s, busy, untidy) && SendablePort(s, a)
    ensures Steady(WillSendPort(s, a, node), busy, untidy)
  {
    hide Lanes, Chained, Named, Known, Ids, Receivers, Senders, Nexts, Ends, Travellers, Waiting, Targets, Numbers,
        Placement, Reading, Gone, Lasts, TravelLasts, Closures, Flights, Mail, Queues, Pending, FlyingCargo,
        QueuedCargo, Manifest, Unheld, AcceptTokens, Announcements, Acks, ParkedAcks, ProxyTokens, Heralds,
        Bypassed, Obliged, Rounds, Persists, Tidy, Recorded, Left;
    var t, l, b := WillSendPort(s, a, node), s.h.pos[a].lane, Addr(node, s.nextName);
    var q := t.ports[a];
    EndFacts(s.ports, s.h.chain, s.h.nexts, s.h.routed, s.h.sent, s.h.place, s.h.read, s.h.closed, s.h.pos,
        s.nextName, a);
    LeaveNamed(s.h.chain, s.h.pos, s.nextName, l, b);
    EndIsNotLeft(s.ports, s.h.chain, s.h.nexts, s.h.routed, s.h.sent, s.h.place, s.h.read, s.h.closed, s.h.pos,
        s.nextName, a);
    EndHasNoToken(s.ports, s.net, s.h.chain, s.h.pos, s.h.transit, s.h.token, a);
    LeaveBypassed(s.ports, s.net, s.h.chain, s.h.routed, s.h.closed, s.h.pos, s.h.transit, s.h.cargo, s.h.token, a,
        q, l, b);
    LeavePersists(s.ports, s.h.chain, s.h.closed, s.h.pos, s.h.transit, s.h.cargo, s.h.token, busy, a, q, l, b);
    LeaveRest(s.ports, s.net, s.h.chain, s.h.closed, s.h.pos, s.h.transit, s.h.cargo, s.h.token, a, q, l, b, untidy);
  }

  // ----- A proxy is removed -----

  lemma RemoveSteady(ports: Ports, net: Net, chain: Chains, routed: Nums, closed: set<LaneId>, pos: Positions,
      token: Tokens, busy: set<Addr>, x: Addr, untidy: set<Addr>)
    requires Done(ports, x) && Bypassed(ports, net, routed, closed, pos, token) && Obliged(ports, closed, pos,
        token) && Persists(ports, chain, closed, pos, token, busy) && Tidy(ports, closed, pos, untidy + {x})
    ensures Bypassed(ports - {x}, net, routed, closed, pos, token) && Obliged(ports - {x}, closed, pos, token) &&
        Persists(ports - {x}, chain, closed, pos, token, busy)
    ensures Tidy(ports - {x}, closed, pos, untidy)
  {
  }

  /** What was parked at a removed proxy is on its way. */
  lemma RemoveRecorded(ports: Ports, net: Net, closed: set<LaneId>, pos: Positions, token: Tokens, x: Addr, id: nat,
      e: Event)
    requires x in ports && Recorded(ports, net, closed, pos, token) && Obliged(ports, closed, pos, token) &&
        ports[x].removeOnLast && id !in net
    requires ports[x].parked.Some? ==> e == ObserveProxyAck(ports[x].parked.value, INVALID_SEQUENCE_NUM)
    ensures ports[x].parked.None? ==> Recorded(ports - {x}, net, closed, pos, token)
    ensures ports[x].parked.Some? ==>
              Recorded(ports - {x}, net[id := e], closed, pos, token[ports[x].parked.value := Acking(id)])
  {
    forall a | ParkedSomewhere(ports, a) && ports[x].parked != Some(a)
      ensures ParkedSomewhere(ports - {x}, a)
    {
      var b :| b in ports && ports[b].parked == Some(a);
      assert (ports - {x})[b].parked == Some(a);
    }
  }

  lemma UnparkSteady(ports: Ports, net: Net, chain: Chains, routed: Nums, closed: set<LaneId>, pos: Positions,
      token: Tokens, busy: set<Addr>, y: Addr, id: nat, e: Event)
    requires y in token && token[y] == Parked && id !in net && e.ObserveProxyAck? && Bypassed(ports, net, routed,
        closed, pos, token) && Obliged(ports, closed, pos, token) && Persists(ports, chain, closed, pos, token,
        busy) && Rounds(net, pos)
    ensures Bypassed(ports, net[id := e], routed, closed, pos, token[y := Acking(id)]) &&
        Obliged(ports, closed, pos, token[y := Acking(id)])
    ensures Persists(ports, chain, closed, pos, token[y := Acking(id)], busy) && Rounds(net[id := e], pos)
  {
  }

  lemma MaybeRemoveSteady(s: State, x: Addr, busy: set<Addr>)
    requires Core(s) && Steady(s, busy, {x}) && x in s.ports && s.ports[x].mode.Proxying?
    ensures Steady(MaybeRemoveProxy(s, x), busy, {})
  {
    hide Lanes, Chained, Named, Known, Ids, Receivers, Senders, Nexts, Ends, Travellers, Waiting, Targets, Numbers,
        Placement, Reading, Gone, Lasts, TravelLasts, Closures, Flights, Mail, Queues, Pending, FlyingCargo,
        QueuedCargo, Manifest, Unheld, AcceptTokens, Announcements, Acks, ParkedAcks, ProxyTokens, Heralds,
        Bypassed, Obliged, Rounds, Persists, Recorded;
    if s.ports[x].removeOnLast && !CanAcceptMoreMessages(s.ports[x]) {
      hide Tidy;
      assert {} + {x} == {x};
      RemoveSteady(s.ports, s.net, s.h.chain, s.h.routed, s.h.closed, s.h.pos, s.h.token, busy, x, {});
      var e := if s.ports[x].parked.Some? then ObserveProxyAck(s.ports[x].parked.value,
          INVALID_SEQUENCE_NUM) else ObserveClosure(x, 0);
      PostId(s.net, s.nextId, e);
      RemoveRecorded(s.ports, s.net, s.h.closed, s.h.pos, s.h.token, x, s.nextId, e);
      if s.ports[x].parked.Some? {
        OnlyOneParks(s.ports, s.h.chain, s.h.routed, s.h.sent, s.h.closed, s.h.pos, s.h.token, x,
            s.ports[x].parked.value);
        UnparkSteady(s.ports - {x}, s.net, s.h.chain, s.h.routed, s.h.closed, s.h.pos, s.h.token, busy,
            s.ports[x].parked.value, s.nextId, e);
      }
    }
  }

  // ----- A proxy comes into being and announces itself -----

  /** What still owes an announcement has not been left by the sender. */
  lemma NotLeftYet(ports: Ports, net: Net, routed: Nums, closed: set<LaneId>, pos: Positions, token: Tokens, a: Addr)
    requires a in token && !ValidAck(net, token[a]) && Bypassed(ports, net, routed, closed, pos, token) &&
        Obliged(ports, closed, pos, token) && BothOpen(closed, pos, a)
    requires a in ports ==> !ports[a].mode.Receiving?
    ensures a in ports && !Left(routed, pos, a) && !ports[a].removeOnLast
  {
  }

  lemma ProxySteady(ports: Ports, net: Net, chain: Chains, routed: Nums, closed: set<LaneId>, pos: Positions,
      transit: Transits, token: Tokens, id: nat, x: Addr, q: Port)
    requires Buffers(ports, net, id, x, q) && Bypassed(ports, net, routed, closed, pos, token) &&
        Obliged(ports, closed, pos, token) && Persists(ports, chain, closed, pos, token, {}) &&
        Tidy(ports, closed, pos, {}) && AcceptTokens(net, ports, transit, pos, chain, token)
    ensures Bypassed(ports[x := q], net - {id}, routed, closed, pos, token - {x})
    ensures Obliged(ports[x := q], closed, pos, token - {x}) && Tidy(ports[x := q], closed, pos, {})
    ensures Persists(ports[x := q], chain, closed, pos, token - {x}, {x})
    ensures BothOpen(closed, pos, x) ==> !Left(routed, pos, x) && !ports[x].removeOnLast
  {
    if BothOpen(closed, pos, x) { NotLeftYet(ports, net, routed, closed, pos, token, x); }
  }

  lemma ProxyRecorded(ports: Ports, net: Net, closed: set<LaneId>, pos: Positions, token: Tokens, id: nat, x: Addr,
      q: Port)
    requires Buffers(ports, net, id, x, q) && Recorded(ports, net, closed, pos, token) && Rounds(net, pos)
    ensures Recorded(ports[x := q], net - {id}, closed, pos, token - {x}) && Rounds(net - {id}, pos)
  {
    KeepParked(ports, net, closed, pos, token, x, q);
  }

  lemma BecomeProxySteady(s: State, id: nat)
    requires Core(s) && Steady(s, {}, {}) && id in s.net && s.net[id].PortAccepted? && s.net[id].to in s.ports
    requires s.ports[s.net[id].to].mode.Buffering?
    ensures Steady(BecomeProxy(s, id), {s.net[id].to}, {})
    ensures BothOpen(s.h.closed, s.h.pos, s.net[id].to) ==>
              !Left(s.h.routed, s.h.pos, s.net[id].to) && !s.ports[s.net[id].to].removeOnLast
  {
    hide Lanes, Chained, Named, Known, Ids, Receivers, Senders, Nexts, Ends, Travellers, Waiting, Targets, Numbers,
        Placement, Reading, Gone, Lasts, TravelLasts, Closures, Flights, Mail, Queues, Pending, FlyingCargo,
        QueuedCargo, Manifest, Unheld, AcceptTokens, Announcements, Acks, ParkedAcks, ProxyTokens, Heralds,
        Bypassed, Rounds, Persists, Tidy, Recorded;
    var x := s.net[id].to;
    var q := BecomeProxy(s, id).ports[x];
    ProxySteady(s.ports, s.net, s.h.chain, s.h.routed, s.h.closed, s.h.pos, s.h.transit, s.h.token, id, x, q);
    ProxyRecorded(s.ports, s.net, s.h.closed, s.h.pos, s.h.token, id, x, q);
    HasAcceptToken(s.ports, s.net, s.h.chain, s.h.pos, s.h.transit, s.h.token, id);
  }

  lemma HasAcceptToken(ports: Ports, net: Net, chain: Chains, pos: Positions, transit: Transits, token: Tokens,
      id: nat)
    requires AcceptTokens(net, ports, transit, pos, chain, token) && id in net && net[id].PortAccepted?
    ensures net[id].to in token && token[net[id].to].Accepting?
  {
  }

  lemma AnnounceParts(ports: Ports, net: Net, chain: Chains, routed: Nums, closed: set<LaneId>, pos: Positions,
      token: Tokens, x: Addr, id: nat, e: Event)
    requires x in ports && x !in token && id !in net
    requires BothOpen(closed, pos, x) ==> !Left(routed, pos, x) && !ports[x].removeOnLast
    requires e == ObserveProxy(ports[x].peer, x, ports[x].peer) && !ports[x].mode.Receiving? &&
        Chained(chain, pos) && Senders(ports, pos, chain)
    requires Bypassed(ports, net, routed, closed, pos, token) && Obliged(ports, closed, pos, token) &&
        Persists(ports, chain, closed, pos, token, {x}) && Recorded(ports, net, closed, pos, token) &&
        Rounds(net, pos)
    ensures var token' := token[x := Observing(id)];
            Bypassed(ports, net[id := e], routed, closed, pos, token') && Obliged(ports, closed, pos, token') &&
            Persists(ports, chain, closed, pos, token', {}) &&
            Recorded(ports, net[id := e], closed, pos, token') && Rounds(net[id := e], pos)
  {
    SuccessorIs(ports, chain, pos, x);
  }

  lemma SuccessorIs(ports: Ports, chain: Chains, pos: Positions, x: Addr)
    requires x in ports && !ports[x].mode.Receiving? && Chained(chain, pos) && Senders(ports, pos, chain)
    ensures x in pos && ports[x].peer in pos && pos[ports[x].peer] == Pos(pos[x].lane, pos[x].idx + 1)
  {
  }

  lemma AnnounceSteady(s: State, x: Addr)
    requires Core(s) && Steady(s, {x}, {}) && x in s.ports && s.ports[x].mode.Proxying? && x !in s.h.token
    requires BothOpen(s.h.closed, s.h.pos, x) ==> !Left(s.h.routed, s.h.pos, x) && !s.ports[x].removeOnLast
    ensures Steady(InitiateProxyRemoval(s, x), {}, {})
  {
    hide Lanes, Chained, Named, Known, Ids, Receivers, Senders, Nexts, Ends, Travellers, Waiting, Targets, Numbers,
        Placement, Reading, Gone, Lasts, TravelLasts, Closures, Flights, Mail, Queues, Pending, FlyingCargo,
        QueuedCargo, Manifest, Unheld, AcceptTokens, Announcements, Acks, ParkedAcks, ProxyTokens, Heralds,
        Bypassed, Rounds, Persists, Tidy, Recorded, Obliged, Left;
    var e := ObserveProxy(s.ports[x].peer, x, s.ports[x].peer);
    PostId(s.net, s.nextId, e);
    AnnounceParts(s.ports, s.net, s.h.chain, s.h.routed, s.h.closed, s.h.pos, s.h.token, x, s.nextId, e);
  }

  // ----- The announcement goes round -----

  lemma SkipSteady(ports: Ports, net: Net, chain: Chains, routed: Nums, closed: set<LaneId>, pos: Positions,
      token: Tokens, id: nat, id': nat, a: Addr, q: Port, m: LaneId, e: Event)
    requires Skips(ports, net, pos, id, a, q, m) && id' !in net && m in chain && m in routed &&
        |routed[m]| < |chain[m]|
    requires net[id].proxy == chain[m][|routed[m]|] && e.ObserveProxyAck? && e.last != INVALID_SEQUENCE_NUM &&
        Chained(chain, pos)
    requires net[id].proxy in token && Bypassed(ports, net, routed, closed, pos, token) &&
        Obliged(ports, closed, pos, token)
    ensures var token', routed' := token[net[id].proxy := Acking(id')], routed[m := routed[m] + [q.nextSend]];
            Bypassed(ports[a := q], (net - {id})[id' := e], routed', closed, pos, token') &&
            Obliged(ports[a := q], closed, pos, token')
  {
    var token', routed' := token[net[id].proxy := Acking(id')], routed[m := routed[m] + [q.nextSend]];
    forall c | c in ports && Left(routed', pos, c) && c != net[id].proxy
      ensures Left(routed, pos, c)
    {
      assert chain[pos[c].lane][pos[c].idx] == c;
    }
  }

  lemma RetokenSteady(ports: Ports, net: Net, chain: Chains, closed: set<LaneId>, pos: Positions, token: Tokens,
      busy: set<Addr>, id: nat, id': nat, x: Addr, e: Event, tok: Token)
    requires id in net && net[id].ObserveProxy? && net[id].proxy == x && x in token &&
        token[x] == Observing(id) && id' !in net
    requires Recorded(ports, net, closed, pos, token) && Rounds(net, pos) && Persists(ports, chain, closed, pos,
        token, busy)
    requires (tok == Observing(id') && e.ObserveProxy? && e.proxy == x && e.to in pos && x in pos && e.to != x &&
              pos[e.to].lane.pipe == pos[x].lane.pipe) ||
             (tok == Acking(id') && e.ObserveProxyAck? && e.to == x)
    ensures var net', token' := (net - {id})[id' := e], token[x := tok];
            Recorded(ports, net', closed, pos, token') && Rounds(net', pos) && Persists(ports, chain, closed, pos,
            token', busy)
  {
  }

  lemma SkipProxySteady(s: State, id: nat)
    requires Core(s) && Steady(s, {}, {}) && id in s.net && s.net[id].ObserveProxy? && s.net[id].to in s.ports
    requires Tracked(s.h, s.net[id].to) && s.ports[s.net[id].to].mode.Receiving?
    requires s.ports[s.net[id].to].parked.None? && s.ports[s.net[id].to].peer == s.net[id].proxy
    ensures Steady(SkipProxy(s, id), {}, {})
  {
    hide Lanes, Chained, Named, Known, Ids, Receivers, Senders, Nexts, Ends, Travellers, Waiting, Targets, Numbers,
        Placement, Reading, Gone, Lasts, TravelLasts, Closures, Flights, Mail, Queues, Pending, FlyingCargo,
        QueuedCargo, Manifest, Unheld, AcceptTokens, Announcements, Acks, ParkedAcks, ProxyTokens, Heralds,
        Bypassed, Rounds, Persists, Recorded, Obliged, Left;
    var a, x, t := s.net[id].to, s.net[id].proxy, SkipProxy(s, id);
    var m, q, tok := s.h.pos[a].lane.Other(), t.ports[a], Acking(s.nextId);
    SkipTarget(s.ports, s.net, s.h.chain, s.h.routed, s.h.sent, s.h.closed, s.h.pos, s.h.transit, s.h.token, id, a,
        q, m);
    NextSendIsLength(s.ports, s.h.chain, s.h.routed, s.h.sent, s.h.closed, s.h.pos, a);
    SentIsPositive(s.h.chain, s.h.nexts, s.h.routed, s.h.sent, s.h.place, s.h.read, s.h.closed, s.nextName, m);
    SentFits(s.h.chain, s.h.nexts, s.h.routed, s.h.sent, s.h.place, s.h.read, s.h.closed, s.nextName, m);
    TokenIsProxys(s.net, s.h.chain, s.h.routed, s.h.pos, s.h.token, id);
    var e := ObserveProxyAck(x, q.nextSend - 1);
    PostId(s.net, s.nextId, e);
    SkipSteady(s.ports, s.net, s.h.chain, s.h.routed, s.h.closed, s.h.pos, s.h.token, id, s.nextId, a, q, m, e);
    RetokenSteady(s.ports, s.net, s.h.chain, s.h.closed, s.h.pos, s.h.token, {}, id, s.nextId, x, e, tok);
    KeepParked(s.ports, t.net, s.h.closed, s.h.pos, t.h.token, a, q);
    KeepPersists(s.ports, s.h.chain, s.h.closed, s.h.pos, t.h.token, {}, a, q);
  }

  lemma SentFits(chain: Chains, nexts: Nums, routed: Nums, sent: Logs, place: Places, read: Logs,
      closed: set<LaneId>, name: nat, m: LaneId)
    requires Lanes(chain, nexts, routed, sent, place, read, closed, name) && m in sent
    ensures |sent[m]| <= INVALID_SEQUENCE_NUM
  {
  }

  lemma KeepPersists(ports: Ports, chain: Chains, closed: set<LaneId>, pos: Positions, token: Tokens,
      busy: set<Addr>, a: Addr, q: Port)
    requires a in ports && q.mode == ports[a].mode && q.removeOnLast == ports[a].removeOnLast &&
        Persists(ports, chain, closed, pos, token, busy)
    ensures Persists(ports[a := q], chain, closed, pos, token, busy)
  {
  }

  lemma RelaySteady(s: State, id: nat)
    requires Core(s) && Steady(s, {}, {}) && id in s.net && s.net[id].ObserveProxy? && s.net[id].to in s.ports
    requires s.ports[s.net[id].to].peer != s.net[id].proxy
    ensures Steady(RelayObserveProxy(s, id), {}, {})
  {
    hide Lanes, Chained, Named, Known, Ids, Receivers, Senders, Nexts, Ends, Travellers, Waiting, Targets, Numbers,
        Placement, Reading, Gone, Lasts, TravelLasts, Closures, Flights, Mail, Queues, Pending, FlyingCargo,
        QueuedCargo, Manifest, Unheld, AcceptTokens, Announcements, Acks, ParkedAcks, ProxyTokens, Heralds,
        Bypassed, Persists, Recorded, Left;
    var y, x := s.ports[s.net[id].to].peer, s.net[id].proxy;
    var e := ObserveProxy(y, x, s.net[id].proxyTo);
    PostId(s.net, s.nextId, e);
    TokenIsProxys(s.net, s.h.chain, s.h.routed, s.h.pos, s.h.token, id);
    PeerInPipe(s.ports, s.h.chain, s.h.routed, s.h.sent, s.h.closed, s.h.pos, s.net[id].to);
    RetokenSteady(s.ports, s.net, s.h.chain, s.h.closed, s.h.pos, s.h.token, {}, id, s.nextId, x, e,
        Observing(s.nextId));
    StillAnnounced(s.ports, s.net, s.h.chain, s.h.routed, s.h.closed, s.h.pos, s.h.transit, s.h.token, id, s.nextId,
        x, e, Observing(s.nextId));
  }

  lemma PeerInPipe(ports: Ports, chain: Chains, routed: Nums, sent: Logs, closed: set<LaneId>, pos: Positions,
      a: Addr)
    requires a in ports && Chained(chain, pos) && Receivers(ports, pos, chain, routed, sent, closed) &&
        Senders(ports, pos, chain)
    ensures a in pos && ports[a].peer in pos && pos[ports[a].peer].lane.pipe == pos[a].lane.pipe
  {
  }

  lemma StillAnnounced(ports: Ports, net: Net, chain: Chains, routed: Nums, closed: set<LaneId>, pos: Positions,
      transit: Transits, token: Tokens, id: nat, id': nat, x: Addr, e: Event, tok: Token)
    requires id in net && net[id].ObserveProxy? && x in token && token[x] == Observing(id) && id' !in net
    requires Bypassed(ports, net, routed, closed, pos, token) && Obliged(ports, closed, pos, token) &&
        ProxyTokens(ports, transit, pos, chain, token)
    ensures Bypassed(ports, (net - {id})[id' := e], routed, closed, pos, token[x := tok]) &&
        Obliged(ports, closed, pos, token[x := tok])
    ensures Bypassed(ports, net - {id}, routed, closed, pos, token[x := tok])
  {
    if BothOpen(closed, pos, x) { NotLeftYet(ports, net, routed, closed, pos, token, x); }
  }

  lemma ParkSteadyParts(ports: Ports, net: Net, closed: set<LaneId>, pos: Positions, token: Tokens, id: nat,
      x: Addr, a: Addr, q: Port)
    requires id in net && net[id].ObserveProxy? && net[id].proxy == x && x in token && token[x] == Observing(id)
    requires a in ports && ports[a].parked.None? && q == ports[a].(parked := Some(x)) &&
        Recorded(ports, net, closed, pos, token) && Rounds(net, pos) && Tidy(ports, closed, pos, {})
    ensures Recorded(ports[a := q], net - {id}, closed, pos, token[x := Parked]) && Rounds(net - {id}, pos)
    ensures Tidy(ports[a := q], closed, pos, {})
  {
    forall c | ParkedSomewhere(ports, c)
      ensures ParkedSomewhere(ports[a := q], c)
    {
      var b :| b in ports && ports[b].parked == Some(c);
      assert ports[a := q][b].parked == Some(c);
    }
    assert ports[a := q][a].parked == Some(x);
  }

  lemma ParkSteadyPorts(ports: Ports, net: Net, chain: Chains, routed: Nums, closed: set<LaneId>, pos: Positions,
      token: Tokens, busy: set<Addr>, a: Addr, q: Port, x: Addr)
    requires a in ports && q == ports[a].(parked := q.parked) && x in token && Bypassed(ports, net, routed, closed,
        pos, token) && Obliged(ports, closed, pos, token) && Persists(ports, chain, closed, pos, token, busy)
    ensures Bypassed(ports[a := q], net, routed, closed, pos, token) && Obliged(ports[a := q], closed, pos, token)
    ensures Persists(ports[a := q], chain, closed, pos, token[x := Parked], busy)
  {
  }

  lemma ParkAckSteady(s: State, id: nat)
    requires Core(s) && Steady(s, {}, {}) && id in s.net && s.net[id].ObserveProxy? && s.net[id].to in s.ports
    requires s.ports[s.net[id].to].peer == s.net[id].proxy
    ensures Steady(ParkAck(s, id), {}, {})
  {
    hide Lanes, Chained, Named, Known, Ids, Receivers, Senders, Nexts, Ends, Travellers, Waiting, Targets, Numbers,
        Placement, Reading, Gone, Lasts, TravelLasts, Closures, Flights, Mail, Queues, Pending, FlyingCargo,
        QueuedCargo, Manifest, Unheld, AcceptTokens, Announcements, Acks, ParkedAcks, ProxyTokens, Heralds,
        Bypassed, Rounds, Persists, Tidy, Recorded, Obliged, Left;
    var a, x, t := s.net[id].to, s.net[id].proxy, ParkAck(s, id);
    var q := t.ports[a];
    TokenIsProxys(s.net, s.h.chain, s.h.routed, s.h.pos, s.h.token, id);
    TokenIsUnique(s.ports, s.net, s.h.chain, s.h.routed, s.h.pos, s.h.token, id, x);
    ParkSteadyParts(s.ports, s.net, s.h.closed, s.h.pos, s.h.token, id, x, a, q);
    ParkSteadyPorts(s.ports, s.net, s.h.chain, s.h.routed, s.h.closed, s.h.pos, s.h.token, {}, a, q, x);
    StillAnnounced(t.ports, s.net, s.h.chain, s.h.routed, s.h.closed, s.h.pos, s.h.transit, s.h.token, id, s.nextId,
        x, s.net[id], Parked) by {
      KeepProxyTokensToo(s.ports, s.h.chain, s.h.pos, s.h.transit, s.h.token, a, q);
      PostId(s.net, s.nextId, s.net[id]);
    }
  }

  lemma ObligedPort(ports: Ports, closed: set<LaneId>, pos: Positions, token: Tokens, x: Addr)
    requires x in token && Obliged(ports, closed, pos, token) && BothOpen(closed, pos, x)
    ensures x in ports && !ports[x].removeOnLast
  {
  }

  lemma KeepProxyTokensToo(ports: Ports, chain: Chains, pos: Positions, transit: Transits, token: Tokens, a: Addr,
      q: Port)
    requires a in ports && q.mode == ports[a].mode && ProxyTokens(ports, transit, pos, chain, token)
    ensures ProxyTokens(ports[a := q], transit, pos, chain, token)
  {
  }

  // ----- A token is dropped -----

  lemma DropSteady(ports: Ports, net: Net, chain: Chains, routed: Nums, closed: set<LaneId>, pos: Positions,
      token: Tokens, id: nat, x: Addr)
    requires Concerns(net, id, x) && x in token && Announcements(net, pos, chain, token) &&
        Acks(net, pos, routed, token) && Bypassed(ports, net, routed, closed, pos, token) &&
        Obliged(ports, closed, pos, token) && Rounds(net, pos)
    requires Persists(ports, chain, closed, pos, token, {}) && Recorded(ports, net, closed, pos, token) &&
        (BothOpen(closed, pos, x) ==> !Left(routed, pos, x))
    ensures var token' := token - {x};
            Bypassed(ports, net - {id}, routed, closed, pos, token') && Obliged(ports, closed, pos, token') &&
            Rounds(net - {id}, pos) &&
            Persists(ports, chain, closed, pos, token', {x}) && Recorded(ports, net - {id}, closed, pos, token')
  {
  }

  /** In a pipe that was transferred once, the announcement of its proxy can only be at an end. */
  lemma AtAnEnd(net: Net, chain: Chains, nexts: Nums, routed: Nums, sent: Logs, place: Places, read: Logs,
      closed: set<LaneId>, pos: Positions, token: Tokens, name: nat, id: nat)
    requires id in net && net[id].ObserveProxy? && Rounds(net, pos) && Announcements(net, pos, chain, token) &&
        Chained(chain, pos)
    requires Lanes(chain, nexts, routed, sent, place, read, closed, name) && OfShort(chain, pos, net[id].proxy)
    ensures var x, y := net[id].proxy, net[id].to;
            x in token && !token[x].Accepting? && y in pos && x in pos && pos[y].lane in chain &&
            |chain[pos[y].lane]| >= 1 && EndOf(chain, pos[y].lane) == y &&
            (pos[y].idx == 0 || y == chain[pos[x].lane][pos[x].idx + 1])
  {
    var x, y := net[id].proxy, net[id].to;
    var m := pos[x].lane;
    assert |chain[m]| == 2 && pos[x].idx == 0 && chain[m][0] == x;
    assert pos[y].lane == m || pos[y].lane == m.Other();
    assert chain[pos[y].lane][pos[y].idx] == y;
  }

  lemma FirstIsHere(ports: Ports, chain: Chains, nexts: Nums, routed: Nums, sent: Logs, closed: set<LaneId>,
      pos: Positions, transit: Transits, token: Tokens, y: Addr)
    requires y in pos && pos[y].idx == 0 && Travellers(ports, transit, pos, chain, nexts, routed, sent, closed, token)
    ensures y !in transit
  {
    assert y in transit ==> Travels(ports, pos, chain, nexts, routed, sent, closed, token, y, transit[y]);
  }

  /** So it always finds a port. */
  lemma FindsNext(ports: Ports, net: Net, chain: Chains, nexts: Nums, routed: Nums, sent: Logs, place: Places,
      read: Logs, closed: set<LaneId>, pos: Positions, transit: Transits, token: Tokens, name: nat, id: nat)
    requires id in net && net[id].ObserveProxy? && Rounds(net, pos) && Announcements(net, pos, chain, token) &&
        ProxyTokens(ports, transit, pos, chain, token) && Chained(chain, pos) && Ends(ports, transit, chain, closed)
    requires Travellers(ports, transit, pos, chain, nexts, routed, sent, closed, token) &&
        Lanes(chain, nexts, routed, sent, place, read, closed, name) && OfShort(chain, pos, net[id].proxy) &&
        BothOpen(closed, pos, net[id].proxy)
    ensures net[id].to in ports
  {
    hide Announcements, Chained, Travellers, Lanes, OfShort;
    var y := net[id].to;
    AtAnEnd(net, chain, nexts, routed, sent, place, read, closed, pos, token, name, id);
    assert pos[y].lane == pos[net[id].proxy].lane || pos[y].lane == pos[net[id].proxy].lane.Other();
    if pos[y].idx == 0 { FirstIsHere(ports, chain, nexts, routed, sent, closed, pos, transit, token, y); }
  }

  lemma NotShortPersists(ports: Ports, chain: Chains, closed: set<LaneId>, pos: Positions, token: Tokens, x: Addr)
    requires Persists(ports, chain, closed, pos, token, {x}) && !(OfShort(chain, pos, x) && BothOpen(closed, pos, x))
    ensures Persists(ports, chain, closed, pos, token, {})
  {
  }

  lemma DropProxySteady(s: State, id: nat)
    requires Core(s) && Steady(s, {}, {}) && id in s.net && s.net[id].ObserveProxy? && s.net[id].to !in s.ports
    ensures Steady(DropToken(s, id, s.net[id].proxy), {}, {})
  {
    hide Lanes, Chained, Named, Known, Ids, Receivers, Senders, Nexts, Ends, Travellers, Waiting, Targets, Numbers,
        Placement, Reading, Gone, Lasts, TravelLasts, Closures, Flights, Mail, Queues, Pending, FlyingCargo,
        QueuedCargo, Manifest, Unheld, AcceptTokens, Announcements, Acks, ParkedAcks, ProxyTokens, Heralds,
        Bypassed, Rounds, Persists, Tidy, Recorded, Obliged, Left, OfShort, BothOpen;
    var x, t := s.net[id].proxy, DropToken(s, id, s.net[id].proxy);
    TokenIsProxys(s.net, s.h.chain, s.h.routed, s.h.pos, s.h.token, id);
    if BothOpen(s.h.closed, s.h.pos, x) {
      TokenAway(s.ports, s.h.chain, s.h.pos, s.h.transit, s.h.token, x);
      NotLeftYet(s.ports, s.net, s.h.routed, s.h.closed, s.h.pos, s.h.token, x);
      if OfShort(s.h.chain, s.h.pos, x) { FindsNext(s.ports, s.net, s.h.chain, s.h.nexts, s.h.routed, s.h.sent,
          s.h.place, s.h.read, s.h.closed, s.h.pos, s.h.transit, s.h.token, s.nextName, id); }
    }
    DropSteady(s.ports, s.net, s.h.chain, s.h.routed, s.h.closed, s.h.pos, s.h.token, id, x);
    NotShortPersists(s.ports, s.h.chain, s.h.closed, s.h.pos, t.h.token, x);
  }

  lemma TokenAway(ports: Ports, chain: Chains, pos: Positions, transit: Transits, token: Tokens, x: Addr)
    requires x in token && !token[x].Accepting? && ProxyTokens(ports, transit, pos, chain, token)
    ensures x in ports ==> ports[x].mode.Proxying?
  {
  }

  lemma AckedParts(ports: Ports, net: Net, chain: Chains, routed: Nums, closed: set<LaneId>, pos: Positions,
      token: Tokens, id: nat, x: Addr, q: Port)
    requires Concerns(net, id, x) && x in token && Announcements(net, pos, chain, token) &&
        Acks(net, pos, routed, token) && x in ports && Bypassed(ports, net, routed, closed, pos, token) &&
        Obliged(ports, closed, pos, token) && Rounds(net, pos)
    requires Persists(ports, chain, closed, pos, token, {}) && Recorded(ports, net, closed, pos, token) &&
        Tidy(ports, closed, pos, {})
    requires q == ports[x].(removeOnLast := true, lastRecv := q.lastRecv)
    ensures var token', ports' := token - {x}, ports[x := q];
            Bypassed(ports', net - {id}, routed, closed, pos, token') && Obliged(ports', closed, pos, token') &&
            Rounds(net - {id}, pos) && Persists(ports', chain, closed, pos, token', {}) &&
            Tidy(ports', closed, pos, {x}) &&
            Recorded(ports', net - {id}, closed, pos, token')
  {
    KeepParked(ports, net, closed, pos, token, x, q);
  }

  // ----- A side is closed -----

  lemma ShutParts(ports: Ports, net: Net, chain: Chains, routed: Nums, closed: set<LaneId>, pos: Positions,
      transit: Transits, cargo: Cargos, token: Tokens, busy: set<Addr>, a: Addr, id: nat, e: Event,
      closed': set<LaneId>)
    requires a in ports && ports[a].parked.None? && a in pos && closed' == closed + {pos[a].lane} &&
        id !in net && e.ObserveClosure?
    requires Bypassed(ports, net, routed, closed, pos, token) && Obliged(ports, closed, pos, token) &&
        Rounds(net, pos) && Persists(ports, chain, closed, pos, token, busy) && Known(ports, transit, cargo, token,
        pos)
    ensures var ports', net' := ports - {a}, net[id := e];
            Bypassed(ports', net', routed, closed', pos, token) && Obliged(ports', closed', pos, token) &&
            Rounds(net', pos) && Persists(ports', chain, closed', pos, token, busy)
  {
    assert forall c :: BothOpen(closed', pos, c) ==> BothOpen(closed, pos, c) && c != a;
  }

  lemma ShutRecorded(ports: Ports, net: Net, closed: set<LaneId>, pos: Positions, token: Tokens, a: Addr, id: nat,
      e: Event, closed': set<LaneId>)
    requires a in ports && ports[a].parked.None? && a in pos && closed' == closed + {pos[a].lane} &&
        id !in net && e.ObserveClosure?
    requires Recorded(ports, net, closed, pos, token) && Tidy(ports, closed, pos, {})
    ensures Recorded(ports - {a}, net[id := e], closed', pos, token) && Tidy(ports - {a}, closed', pos, {})
  {
    assert forall c :: BothOpen(closed', pos, c) ==> BothOpen(closed, pos, c);
    forall c | ParkedSomewhere(ports, c)
      ensures ParkedSomewhere(ports - {a}, c)
    {
      var b :| b in ports && ports[b].parked == Some(c);
      assert (ports - {a})[b].parked == Some(c);
    }
  }

  lemma ParksNothing(ports: Ports, chain: Chains, routed: Nums, sent: Logs, closed: set<LaneId>, pos: Positions,
      a: Addr)
    requires a in ports && ports[a].mode.Receiving? && Receivers(ports, pos, chain, routed, sent, closed)
    ensures ports[a].parked.None? && a in pos
  {
  }

  lemma EraseSteady(s: State, a: Addr)
    requires Core(s) && Steady(s, {}, {}) && SendablePort(s, a)
    ensures Steady(ErasePort(s, a), {}, {})
  {
    hide Lanes, Chained, Named, Known, Ids, Receivers, Senders, Nexts, Ends, Travellers, Waiting, Targets, Numbers,
        Placement, Reading, Gone, Lasts, TravelLasts, Closures, Flights, Mail, Queues, Pending, FlyingCargo,
        QueuedCargo, Manifest, Unheld, AcceptTokens, Announcements, Acks, ParkedAcks, ProxyTokens, Heralds,
        Bypassed, Obliged, Rounds, Persists, Tidy, Recorded;
    var p := s.ports[a];
    var e := ObserveClosure(p.peer, if p.nextSend == 0 then 0 else p.nextSend - 1);
    var closed' := s.h.closed + {s.h.pos[a].lane};
    PostId(s.net, s.nextId, e);
    ParksNothing(s.ports, s.h.chain, s.h.routed, s.h.sent, s.h.closed, s.h.pos, a);
    ShutParts(s.ports, s.net, s.h.chain, s.h.routed, s.h.closed, s.h.pos, s.h.transit, s.h.cargo, s.h.token, {}, a,
        s.nextId, e, closed');
    ShutRecorded(s.ports, s.net, s.h.closed, s.h.pos, s.h.token, a, s.nextId, e, closed');
  }

  // ----- News of a closure -----

  /** News of a closure only comes to a pipe with a closed side. */
  lemma NewsIsOfClosure(ports: Ports, net: Net, chain: Chains, routed: Nums, sent: Logs, closed: set<LaneId>,
      pos: Positions, transit: Transits, id: nat)
    requires id in net && net[id].ObserveClosure? && Closures(net, ports, transit, pos, chain, routed, sent, closed)
    ensures !BothOpen(closed, pos, net[id].to)
  {
    var m := pos[net[id].to].lane;
    assert Silent(ports, transit, chain, closed, m);
    assert m.Other().Other() == m;
  }

  /** What a port of such a pipe is told concerns no other port. */
  lemma NewsSteady(ports: Ports, net: Net, chain: Chains, routed: Nums, closed: set<LaneId>, pos: Positions,
      token: Tokens, busy: set<Addr>, id: nat, x: Addr, q: Port, untidy: set<Addr>)
    requires id in net && net[id].ObserveClosure? && x in ports && !BothOpen(closed, pos, x)
    requires q == ports[x].(peerClosed := q.peerClosed, lastRecv := q.lastRecv, removeOnLast := q.removeOnLast)
    requires Bypassed(ports, net, routed, closed, pos, token) && Obliged(ports, closed, pos, token) &&
        Rounds(net, pos) && Persists(ports, chain, closed, pos, token, busy) &&
        Tidy(ports, closed, pos, untidy) && Recorded(ports, net, closed, pos, token)
    ensures var ports', net' := ports[x := q], net - {id};
            Bypassed(ports', net', routed, closed, pos, token) && Obliged(ports', closed, pos, token) &&
            Rounds(net', pos) && Persists(ports', chain, closed, pos, token, busy) &&
            Tidy(ports', closed, pos, untidy + {x}) && Recorded(ports', net', closed, pos, token)
  {
    KeepParked(ports, net, closed, pos, token, x, q);
  }

  lemma IgnoredSteady(ports: Ports, net: Net, routed: Nums, closed: set<LaneId>, pos: Positions, token: Tokens,
      id: nat)
    requires id in net && net[id].ObserveClosure? && Bypassed(ports, net, routed, closed, pos, token) &&
        Rounds(net, pos) && Recorded(ports, net, closed, pos, token)
    ensures Bypassed(ports, net - {id}, routed, closed, pos, token) && Rounds(net - {id}, pos) &&
        Recorded(ports, net - {id}, closed, pos, token)
  {
  }

  lemma NewsPosted(ports: Ports, net: Net, routed: Nums, closed: set<LaneId>, pos: Positions, token: Tokens,
      id: nat, e: Event)
    requires id !in net && e.ObserveClosure? && Bypassed(ports, net, routed, closed, pos, token) &&
        Rounds(net, pos) && Recorded(ports, net, closed, pos, token)
    ensures Bypassed(ports, net[id := e], routed, closed, pos, token) && Rounds(net[id := e], pos) &&
        Recorded(ports, net[id := e], closed, pos, token)
  {
  }

  lemma PostNewsSteady(s: State, e: Event, busy: set<Addr>, untidy: set<Addr>)
    requires Ids(s.net, s.nextId) && Steady(s, busy, untidy) && e.ObserveClosure?
    ensures Steady(Post(s, e), busy, untidy)
  {
    hide Ids, Bypassed, Obliged, Rounds, Persists, Tidy, Recorded;
    PostId(s.net, s.nextId, e);
    NewsPosted(s.ports, s.net, s.h.routed, s.h.closed, s.h.pos, s.h.token, s.nextId, e);
  }

  /** Nothing is asked of a port whose pipe has a closed side. */
  lemma NothingAsked(s: State, x: Addr, busy: set<Addr>, untidy: set<Addr>)
    requires Steady(s, busy, untidy) && !BothOpen(s.h.closed, s.h.pos, x)
    ensures Steady(s, busy - {x}, untidy - {x})
  {
  }
}
