/** A message moves: it is forwarded, arrives, is taken by its reader, or is dropped. */
module PortMessages {
  import opened PortState
  import opened PortSteps
  import opened PortInvariant
  import opened PortFrames
  import opened PortRemoval
  import opened PortForward

  // ----- The next message leaves a queue -----

  /** Message k is the next one at port x, which is at index i of lane m. */
  ghost predicate IsNext(ports: Ports, pos: Positions, nexts: Nums, place: Places, x: Addr, m: LaneId, i: nat,
      k: nat) {
    x in ports && x in pos && pos[x] == Pos(m, i) && ports[x].queue.next == k && k in ports[x].queue.pending &&
    m in nexts && i < |nexts[m]| && nexts[m][i] == k && m in place && k < |place[m]| && place[m][k] == Queued(i)
  }

  lemma NextIs(ports: Ports, nexts: Nums, place: Places, pos: Positions, x: Addr)
    requires x in ports && HasNext(ports[x]) && Nexts(ports, pos, nexts) && Pending(ports, pos, place)
    ensures x in pos && IsNext(ports, pos, nexts, place, x, pos[x].lane, pos[x].idx, ports[x].queue.next)
  {
  }

  lemma AdvanceNumbers(chain: Chains, nexts: Nums, routed: Nums, sent: Logs, place: Places, transit: Transits,
      m: LaneId, i: nat, k: nat)
    requires Numbers(chain, nexts, routed, sent) && Placement(chain, nexts, routed, sent, place, transit) &&
        m in nexts && m in place && i < |nexts[m]| && nexts[m][i] == k
    requires k < |place[m]| && place[m][k] == Queued(i)
    ensures Numbers(chain, nexts[m := Set(nexts[m], i, k + 1)], routed, sent)
  {
    var n, n' := nexts[m], Set(nexts[m], i, k + 1);
    assert PlacedWell(n, routed[m], |sent[m]|, k, i);
    assert LaneNumbers(|chain[m]|, n, routed[m], |sent[m]|);
    AdvanceLane(|chain[m]|, n, routed[m], |sent[m]|, i, k);
  }

  lemma AdvanceLane(n: nat, nexts: seq<nat>, routed: seq<nat>, total: nat, i: nat, k: nat)
    requires LaneNumbers(n, nexts, routed, total) && i < n && nexts[i] == k && PlacedWell(nexts, routed, total, k, i)
    ensures LaneNumbers(n, Set(nexts, i, k + 1), routed, total)
  {
  }

  /** A younger port has a limit at least as high. */
  lemma LimitGrows(n: nat, nexts: seq<nat>, routed: seq<nat>, total: nat, i: nat, j: nat)
    requires LaneNumbers(n, nexts, routed, total) && i <= j
    ensures Limit(routed, total, i) <= Limit(routed, total, j) <= total
  {
  }

  lemma StaysPlaced(nexts: seq<nat>, routed: seq<nat>, total: nat, i: nat, k: nat, k': nat, at: nat)
    requires i < |nexts| && nexts[i] == k && PlacedWell(nexts, routed, total, k', at) && k' != k
    ensures PlacedWell(Set(nexts, i, k + 1), routed, total, k', at)
  {
  }

  lemma MovesOn(n: nat, nexts: seq<nat>, routed: seq<nat>, total: nat, i: nat, k: nat)
    requires LaneNumbers(n, nexts, routed, total) && i + 1 < n && nexts[i] == k && PlacedWell(nexts, routed, total,
        k, i)
    ensures PlacedWell(Set(nexts, i, k + 1), routed, total, k, i + 1)
  {
    LimitGrows(n, nexts, routed, total, i, i + 1);
    var nexts' := Set(nexts, i, k + 1);
    forall j | 0 <= j < i + 1 && k < Limit(routed, total, j)
      ensures k < nexts'[j]
    {
    }
  }

  lemma HopPlacement(chain: Chains, nexts: Nums, routed: Nums, sent: Logs, place: Places, transit: Transits,
      m: LaneId, i: nat, k: nat, id: nat)
    requires Numbers(chain, nexts, routed, sent) && Placement(chain, nexts, routed, sent, place, transit) &&
        m in chain && m in place && m in nexts && i + 1 < |chain[m]| && nexts[m][i] == k
    requires k < |place[m]| && place[m][k] == Queued(i) && chain[m][i + 1] !in transit
    ensures Placement(chain, nexts[m := Set(nexts[m], i, k + 1)], routed, sent, place[m := place[m][k := Flying(id,
        i + 1)]], transit)
  {
    assert LaneNumbers(|chain[m]|, nexts[m], routed[m], |sent[m]|);
    assert PlacedWell(nexts[m], routed[m], |sent[m]|, k, i);
    MovesOn(|chain[m]|, nexts[m], routed[m], |sent[m]|, i, k);
    forall k' | 0 <= k' < |place[m]| && place[m][k'].Placed() && k' != k
      ensures PlacedWell(Set(nexts[m], i, k + 1), routed[m], |sent[m]|, k', place[m][k'].at)
    {
      StaysPlaced(nexts[m], routed[m], |sent[m]|, i, k, k', place[m][k'].at);
    }
  }

  lemma ReadPlacement(chain: Chains, nexts: Nums, routed: Nums, sent: Logs, place: Places, transit: Transits,
      m: LaneId, i: nat, k: nat)
    requires Placement(chain, nexts, routed, sent, place, transit) && m in place && m in nexts &&
        i < |nexts[m]| && nexts[m][i] == k && k < |place[m]|
    ensures Placement(chain, nexts[m := Set(nexts[m], i, k + 1)], routed, sent, place[m := place[m][k := Read]],
        transit)
  {
    forall k' | 0 <= k' < |place[m]| && place[m][k'].Placed() && k' != k
      ensures PlacedWell(Set(nexts[m], i, k + 1), routed[m], |sent[m]|, k', place[m][k'].at)
    {
      StaysPlaced(nexts[m], routed[m], |sent[m]|, i, k, k', place[m][k'].at);
    }
  }

  lemma HopReading(chain: Chains, nexts: Nums, sent: Logs, place: Places, read: Logs, closed: set<LaneId>,
      m: LaneId, i: nat, k: nat, p: Place)
    requires Reading(chain, nexts, sent, place, read, closed) && m in chain && m in nexts && m in place &&
        i + 1 < |chain[m]| && i < |nexts[m]| && k < |place[m]|
    requires place[m][k].Placed() && p.Placed()
    ensures Reading(chain, nexts[m := Set(nexts[m], i, k + 1)], sent, place[m := place[m][k := p]], read, closed)
  {
  }

  lemma PopNexts(ports: Ports, chain: Chains, nexts: Nums, place: Places, pos: Positions, x: Addr, m: LaneId,
      i: nat, k: nat, q: Port)
    requires IsNext(ports, pos, nexts, place, x, m, i, k) && Nexts(ports, pos, nexts) && q.queue.next == k + 1 &&
        Chained(chain, pos)
    ensures Nexts(ports[x := q], pos, nexts[m := Set(nexts[m], i, k + 1)])
  {
  }

  lemma HopTravellers(ports: Ports, chain: Chains, nexts: Nums, routed: Nums, sent: Logs, closed: set<LaneId>,
      pos: Positions, transit: Transits, token: Tokens, m: LaneId, i: nat, k: nat)
    requires Travellers(ports, transit, pos, chain, nexts, routed, sent, closed, token) && m in chain &&
        m in nexts && i + 1 < |chain[m]| && i < |nexts[m]|
    ensures Travellers(ports, transit, pos, chain, nexts[m := Set(nexts[m], i, k + 1)], routed, sent, closed, token)
  {
  }

  lemma AdvanceGone(ports: Ports, chain: Chains, nexts: Nums, routed: Nums, sent: Logs, closed: set<LaneId>,
      pos: Positions, transit: Transits, x: Addr, m: LaneId, i: nat, k: nat)
    requires Gone(ports, transit, chain, nexts, routed, sent, closed) && Chained(chain, pos) && x in ports &&
        x in pos && pos[x] == Pos(m, i) && m in nexts && i < |nexts[m]|
    ensures Gone(ports, transit, chain, nexts[m := Set(nexts[m], i, k + 1)], routed, sent, closed)
  {
  }

  lemma AdvanceLanes(chain: Chains, nexts: Nums, routed: Nums, sent: Logs, place: Places, read: Logs,
      closed: set<LaneId>, name: nat, m: LaneId, i: nat, k: nat, p: Place)
    requires Lanes(chain, nexts, routed, sent, place, read, closed, name) && m in nexts && i < |nexts[m]| &&
        m in place && k < |place[m]|
    ensures Lanes(chain, nexts[m := Set(nexts[m], i, k + 1)], routed, sent, place[m := place[m][k := p]], read,
        closed, name)
  {
    assert nexts[m := Set(nexts[m], i, k + 1)].Keys == nexts.Keys;
    assert place[m := place[m][k := p]].Keys == place.Keys;
  }

  lemma HopFlights(ports: Ports, net: Net, chain: Chains, nexts: Nums, sent: Logs, place: Places, pos: Positions,
      x: Addr, m: LaneId, i: nat, k: nat, id: nat, e: Event)
    requires IsNext(ports, pos, nexts, place, x, m, i, k) && Chained(chain, pos) &&
        Flights(net, chain, sent, place) && Queues(ports, chain, sent, place) && id !in net && m in chain &&
        i + 1 < |chain[m]|
    requires e == User(chain[m][i + 1], ports[x].queue.pending[k])
    ensures Flights(net[id := e], chain, sent, place[m := place[m][k := Flying(id, i + 1)]])
  {
    assert chain[m][i] == x;
  }

  lemma HopMail(ports: Ports, net: Net, chain: Chains, nexts: Nums, place: Places, pos: Positions, x: Addr,
      m: LaneId, i: nat, k: nat, id: nat, e: Event)
    requires IsNext(ports, pos, nexts, place, x, m, i, k) && Chained(chain, pos) && Mail(net, pos, place) &&
        id !in net && m in chain && i + 1 < |chain[m]|
    requires e == User(chain[m][i + 1], ports[x].queue.pending[k]) && ports[x].queue.pending[k].num == k
    ensures Mail(net[id := e], pos, place[m := place[m][k := Flying(id, i + 1)]])
  {
  }

  lemma PopQueues(ports: Ports, chain: Chains, nexts: Nums, sent: Logs, place: Places, pos: Positions, x: Addr,
      m: LaneId, i: nat, k: nat, q: Port, p: Place)
    requires IsNext(ports, pos, nexts, place, x, m, i, k) && Chained(chain, pos) &&
        Queues(ports, chain, sent, place) && q.queue.pending == ports[x].queue.pending - {k} && !p.Queued?
    ensures Queues(ports[x := q], chain, sent, place[m := place[m][k := p]])
  {
  }

  lemma PopPending(ports: Ports, chain: Chains, nexts: Nums, place: Places, pos: Positions, x: Addr, m: LaneId,
      i: nat, k: nat, q: Port, p: Place)
    requires IsNext(ports, pos, nexts, place, x, m, i, k) && Chained(chain, pos) && Pending(ports, pos, place) &&
        q.queue.pending == ports[x].queue.pending - {k}
    ensures Pending(ports[x := q], pos, place[m := place[m][k := p]])
  {
    forall a, j | a in ports && j in ports[a].queue.pending && pos[a].lane == m && j == k
      ensures a == x
    {
      SameQueue(ports, chain, place, pos, x, a, k);
    }
  }

  lemma NumberOf(ports: Ports, chain: Chains, nexts: Nums, sent: Logs, place: Places, pos: Positions, x: Addr,
      m: LaneId, i: nat, k: nat)
    requires IsNext(ports, pos, nexts, place, x, m, i, k) && Chained(chain, pos) && Queues(ports, chain, sent, place)
    ensures Carries(ports[x].queue.pending[k], k, sent[m][k]) && m in chain && i < |chain[m]| && chain[m][i] == x
  {
  }

  // ----- Hop -----

  /** Every port attached to message k at x has been sent on, to the node of x's successor. */
  ghost predicate AllSentOn(ports: Ports, pos: Positions, transit: Transits, x: Addr, k: nat, slots: nat) {
    x in ports && x in pos && k in ports[x].queue.pending &&
    var msg := ports[x].queue.pending[k];
    slots <= |msg.ports| == |msg.descs| &&
    forall i :: 0 <= i < slots ==>
                  var b := msg.ports[i];
                  b.node == ports[x].peer.node && b in transit && transit[b] == msg.descs[i] &&
                  b in pos && pos[b] != Pos(pos[x].lane, pos[x].idx + 2)
  }

  lemma HopCargo(ports: Ports, net: Net, chain: Chains, nexts: Nums, sent: Logs, place: Places, pos: Positions,
      transit: Transits, cargo: Cargos, x: Addr, m: LaneId, i: nat, k: nat, q: Port, id: nat, e: Event)
    requires IsNext(ports, pos, nexts, place, x, m, i, k) && Chained(chain, pos) && FlyingCargo(net, ports, pos,
        transit, cargo, sent) && QueuedCargo(ports, pos, transit, cargo, sent) && id !in net && m in chain &&
        i + 1 < |chain[m]|
    requires ports[x].peer == chain[m][i + 1] && ports[x].queue.pending[k].num == k
    requires AllSentOn(ports, pos, transit, x, k, |ports[x].queue.pending[k].ports|)
    requires e == User(chain[m][i + 1], ports[x].queue.pending[k])
    ensures FlyingCargo(net[id := e], ports, pos, transit, cargo, sent)
  {
    assert Attached(ports, pos, transit, cargo, sent, m, k, i, ports[x].queue.pending[k]);
    assert Attached(ports, pos, transit, cargo, sent, m, k, i + 1, e.msg);
  }

  lemma PopQueuedCargo(ports: Ports, net: Net, sent: Logs, pos: Positions, transit: Transits, cargo: Cargos,
      x: Addr, q: Port, k: nat)
    requires x in ports && q == ports[x].(queue := q.queue) && q.queue.pending == ports[x].queue.pending - {k}
    requires QueuedCargo(ports, pos, transit, cargo, sent) && FlyingCargo(net, ports, pos, transit, cargo,
        sent) && Unheld(ports, cargo)
    ensures QueuedCargo(ports[x := q], pos, transit, cargo, sent) && FlyingCargo(net, ports[x := q], pos, transit,
        cargo, sent) && Unheld(ports[x := q], cargo)
  {
    hide Attached, LandedPorts;
    KeepFlyingCargo(ports, net, sent, pos, transit, cargo, x, q);
    var ports' := ports[x := q];
    forall a, j | a in ports' && j in ports'[a].queue.pending
      ensures a in pos && LandedPorts(a.node, ports', ports'[a].queue.pending[j])
      ensures Attached(ports', pos, transit, cargo, sent, pos[a].lane, j, pos[a].idx, ports'[a].queue.pending[j])
    {
      RequeueAttached(ports, sent, pos, transit, cargo, x, q, pos[a].lane, j, pos[a].idx, ports[a].queue.pending[j]);
      RequeueLanded(ports, x, q, a.node, ports[a].queue.pending[j]);
    }
  }

  lemma HopManifest(ports: Ports, net: Net, chain: Chains, nexts: Nums, place: Places, pos: Positions,
      cargo: Cargos, x: Addr, m: LaneId, i: nat, k: nat, q: Port, id: nat, e: Event)
    requires IsNext(ports, pos, nexts, place, x, m, i, k) && Chained(chain, pos) && Manifest(net, ports, chain,
        cargo, place) && id !in net
    requires q.queue.pending == ports[x].queue.pending - {k} && e.User? && e.msg == ports[x].queue.pending[k]
    ensures Manifest(net[id := e], ports[x := q], chain, cargo, place[m := place[m][k := Flying(id, i + 1)]])
  {
    forall c | c in cargo
      ensures Listed(net[id := e], ports[x := q], chain, place[m := place[m][k := Flying(id, i + 1)]], c, cargo[c])
    {
      assert Listed(net, ports, chain, place, c, cargo[c]);
    }
  }

  lemma PostUserTokens(net: Net, chain: Chains, routed: Nums, pos: Positions, token: Tokens, id: nat, e: Event)
    requires id !in net && e.User? && Announcements(net, pos, chain, token) && Acks(net, pos, routed, token)
    ensures Announcements(net[id := e], pos, chain, token) && Acks(net[id := e], pos, routed, token)
  {
  }

  lemma PostUser(ports: Ports, net: Net, chain: Chains, routed: Nums, sent: Logs, closed: set<LaneId>,
      pos: Positions, transit: Transits, token: Tokens, nextId: nat, busy: set<Addr>, e: Event)
    requires e.User? && Ids(net, nextId) && AcceptTokens(net, ports, transit, pos, chain, token) &&
        Announcements(net, pos, chain, token) && Acks(net, pos, routed, token) && Closures(net, ports, transit, pos,
        chain, routed, sent, closed) && Heralds(net, ports, transit, chain, routed, closed, busy)
    ensures var net' := net[nextId := e];
            nextId !in net && Ids(net', nextId + 1) && AcceptTokens(net', ports, transit, pos, chain, token) &&
            Announcements(net', pos, chain, token) && Acks(net', pos, routed, token) &&
            Closures(net', ports, transit, pos, chain, routed, sent, closed) && Heralds(net', ports, transit, chain,
            routed, closed, busy)
  {
    hide Lanes, Chained, Named, Known, Ids, Receivers, Senders, Nexts, Ends, Travellers, Waiting, Targets, Numbers,
        Placement, Reading, Gone, Lasts, TravelLasts, Closures, Flights, Mail, Queues, Pending, FlyingCargo,
        QueuedCargo, Manifest, Unheld, AcceptTokens, Announcements, Acks, ParkedAcks, ProxyTokens, Heralds,
        ClosureFits;
    PostId(net, nextId, e);
    PostAccepts(ports, net, chain, pos, transit, token, nextId, e);
    PostUserTokens(net, chain, routed, pos, token, nextId, e);
    PostClosures(ports, net, chain, routed, sent, closed, pos, transit, nextId, e);
    PostHeralds(ports, net, chain, routed, closed, transit, busy, nextId, e);
  }

  lemma HopTrunk(s: State, x: Addr, busy: set<Addr>)
    requires Core(s) && Heralding(s, busy) && Hoppable(s, x) && s.ports[x].mode.Proxying?
    ensures var t := Hop(s, x);
            Base(t) && Shape(t) && Ending(t) && Tokening(t) && Heralding(t, busy)
  {
    hide Lanes, Chained, Named, Known, Ids, Receivers, Senders, Nexts, Ends, Travellers, Waiting, Targets, Numbers,
        Placement, Reading, Gone, Lasts, TravelLasts, Closures, Flights, Mail, Queues, Pending, FlyingCargo,
        QueuedCargo, Manifest, Unheld, AcceptTokens, Announcements, Acks, ParkedAcks, ProxyTokens, Heralds;
    var m, i, k, q := s.h.pos[x].lane, s.h.pos[x].idx, s.ports[x].queue.next, Popped(s.ports[x]);
    var ports', e := s.ports[x := q], User(s.ports[x].peer, s.ports[x].queue.pending[k]);
    NextIs(s.ports, s.h.nexts, s.h.place, s.h.pos, x);
    AwayFacts(s.ports, s.h.chain, s.h.pos, s.h.transit, s.h.token, x);
    RequeueShape(s.ports, s.net, s.h.chain, s.h.nexts, s.h.routed, s.h.sent, s.h.closed, s.h.pos, s.h.transit,
        s.h.cargo, s.h.token, x, q);
    RequeueEnding(s.ports, s.net, s.h.chain, s.h.nexts, s.h.routed, s.h.sent, s.h.closed, s.h.pos, s.h.transit,
        busy, x, q);
    PopNexts(s.ports, s.h.chain, s.h.nexts, s.h.place, s.h.pos, x, m, i, k, q);
    HopTravellers(ports', s.h.chain, s.h.nexts, s.h.routed, s.h.sent, s.h.closed, s.h.pos, s.h.transit, s.h.token,
        m, i, k);
    AdvanceGone(ports', s.h.chain, s.h.nexts, s.h.routed, s.h.sent, s.h.closed, s.h.pos, s.h.transit, x, m, i, k);
    AdvanceLanes(s.h.chain, s.h.nexts, s.h.routed, s.h.sent, s.h.place, s.h.read, s.h.closed, s.nextName, m, i, k,
        Flying(s.nextId, i + 1));
    PostUser(ports', s.net, s.h.chain, s.h.routed, s.h.sent, s.h.closed, s.h.pos, s.h.transit, s.h.token, s.nextId,
        busy, e);
  }

  lemma AwayFacts(ports: Ports, chain: Chains, pos: Positions, transit: Transits, token: Tokens, x: Addr)
    requires x in ports && !ports[x].mode.Receiving? && Senders(ports, pos, chain) &&
        Waiting(ports, pos, chain, transit, token) && Chained(chain, pos)
    ensures x in pos && pos[x].lane in chain && pos[x].idx + 1 < |chain[pos[x].lane]|
    ensures chain[pos[x].lane][pos[x].idx] == x && ports[x].peer == chain[pos[x].lane][pos[x].idx + 1]
    ensures ports[x].mode.Proxying? ==> ports[x].peer !in transit
    ensures ports[x].peer in pos && pos[ports[x].peer] == Pos(pos[x].lane, pos[x].idx + 1)
  {
  }

  lemma HopCounts(s: State, x: Addr)
    requires Core(s) && Hoppable(s, x) && s.ports[x].mode.Proxying?
    requires AllSentOn(s.ports, s.h.pos, s.h.transit, x, s.ports[x].queue.next,
        |s.ports[x].queue.pending[s.ports[x].queue.next].ports|)
    ensures var t := Hop(s, x);
            Counting(t) && Posting(t)
  {
    hide Lanes, Chained, Named, Known, Ids, Receivers, Senders, Nexts, Ends, Travellers, Waiting, Targets, Numbers,
        Placement, Reading, Gone, Lasts, TravelLasts, Closures, Flights, Mail, Queues, Pending, FlyingCargo,
        QueuedCargo, Manifest, Unheld, AcceptTokens, Announcements, Acks, ParkedAcks, ProxyTokens, Heralds, AllSentOn;
    var m, i, k, q := s.h.pos[x].lane, s.h.pos[x].idx, s.ports[x].queue.next, Popped(s.ports[x]);
    var e, id := User(s.ports[x].peer, s.ports[x].queue.pending[k]), s.nextId;
    NextIs(s.ports, s.h.nexts, s.h.place, s.h.pos, x);
    AwayFacts(s.ports, s.h.chain, s.h.pos, s.h.transit, s.h.token, x);
    NumberOf(s.ports, s.h.chain, s.h.nexts, s.h.sent, s.h.place, s.h.pos, x, m, i, k);
    PostId(s.net, s.nextId, e);
    AdvanceNumbers(s.h.chain, s.h.nexts, s.h.routed, s.h.sent, s.h.place, s.h.transit, m, i, k);
    HopPlacement(s.h.chain, s.h.nexts, s.h.routed, s.h.sent, s.h.place, s.h.transit, m, i, k, id);
    HopReading(s.h.chain, s.h.nexts, s.h.sent, s.h.place, s.h.read, s.h.closed, m, i, k, Flying(id, i + 1));
    HopFlights(s.ports, s.net, s.h.chain, s.h.nexts, s.h.sent, s.h.place, s.h.pos, x, m, i, k, id, e);
    HopMail(s.ports, s.net, s.h.chain, s.h.nexts, s.h.place, s.h.pos, x, m, i, k, id, e);
    PopQueues(s.ports, s.h.chain, s.h.nexts, s.h.sent, s.h.place, s.h.pos, x, m, i, k, q, Flying(id, i + 1));
    PopPending(s.ports, s.h.chain, s.h.nexts, s.h.place, s.h.pos, x, m, i, k, q, Flying(id, i + 1));
  }

  lemma HopCarries(s: State, x: Addr)
    requires Core(s) && Hoppable(s, x) && s.ports[x].mode.Proxying?
    requires AllSentOn(s.ports, s.h.pos, s.h.transit, x, s.ports[x].queue.next,
        |s.ports[x].queue.pending[s.ports[x].queue.next].ports|)
    ensures Carrying(Hop(s, x))
  {
    hide Lanes, Chained, Named, Known, Ids, Receivers, Senders, Nexts, Ends, Travellers, Waiting, Targets, Numbers,
        Placement, Reading, Gone, Lasts, TravelLasts, Closures, Flights, Mail, Queues, Pending, FlyingCargo,
        QueuedCargo, Manifest, Unheld, AcceptTokens, Announcements, Acks, ParkedAcks, ProxyTokens, Heralds, AllSentOn;
    var m, i, k, q := s.h.pos[x].lane, s.h.pos[x].idx, s.ports[x].queue.next, Popped(s.ports[x]);
    var e, id := User(s.ports[x].peer, s.ports[x].queue.pending[k]), s.nextId;
    NextIs(s.ports, s.h.nexts, s.h.place, s.h.pos, x);
    AwayFacts(s.ports, s.h.chain, s.h.pos, s.h.transit, s.h.token, x);
    NumberOf(s.ports, s.h.chain, s.h.nexts, s.h.sent, s.h.place, s.h.pos, x, m, i, k);
    PostId(s.net, s.nextId, e);
    HopCargo(s.ports, s.net, s.h.chain, s.h.nexts, s.h.sent, s.h.place, s.h.pos, s.h.transit, s.h.cargo, x, m, i, k,
        q, id, e);
    PopQueuedCargo(s.ports, s.net, s.h.sent, s.h.pos, s.h.transit, s.h.cargo, x, q, k);
    KeepFlyingCargo(s.ports, s.net[id := e], s.h.sent, s.h.pos, s.h.transit, s.h.cargo, x, q);
    HopManifest(s.ports, s.net, s.h.chain, s.h.nexts, s.h.place, s.h.pos, s.h.cargo, x, m, i, k, q, id, e);
  }

  // ----- Enqueue -----

  /** Message k of lane m is in flight as event id, to index i of the lane. */
  ghost predicate IsMail(net: Net, pos: Positions, place: Places, id: nat, x: Addr, m: LaneId, i: nat, k: nat) {
    id in net && net[id].User? && net[id].to == x && x in pos && pos[x] == Pos(m, i) && net[id].msg.num == k &&
    m in place && k < |place[m]| && place[m][k] == Flying(id, i)
  }

  lemma MailIs(net: Net, place: Places, pos: Positions, id: nat)
    requires id in net && net[id].User? && Mail(net, pos, place)
    ensures var x := net[id].to;
            x in pos && IsMail(net, pos, place, id, x, pos[x].lane, pos[x].idx, net[id].msg.num)
  {
  }

  lemma MovePlace(chain: Chains, nexts: Nums, routed: Nums, sent: Logs, place: Places, transit: Transits, m: LaneId,
      k: nat, p: Place)
    requires Placement(chain, nexts, routed, sent, place, transit) && m in place && k < |place[m]| &&
        place[m][k].Placed()
    requires p.Placed() ==> p.at == place[m][k].at
    ensures Placement(chain, nexts, routed, sent, place[m := place[m][k := p]], transit)
  {
  }

  lemma MoveReading(chain: Chains, nexts: Nums, sent: Logs, place: Places, read: Logs, closed: set<LaneId>,
      m: LaneId, k: nat, p: Place)
    requires Reading(chain, nexts, sent, place, read, closed) && m in place && k < |place[m]| && place[m][k].Placed()
    requires !p.Read? && (p.Lost? ==> m in closed)
    ensures Reading(chain, nexts, sent, place[m := place[m][k := p]], read, closed)
  {
  }

  lemma MoveLanes(chain: Chains, nexts: Nums, routed: Nums, sent: Logs, place: Places, read: Logs,
      closed: set<LaneId>, name: nat, m: LaneId, k: nat, p: Place)
    requires Lanes(chain, nexts, routed, sent, place, read, closed, name) && m in place && k < |place[m]|
    ensures Lanes(chain, nexts, routed, sent, place[m := place[m][k := p]], read, closed, name)
  {
    assert place[m := place[m][k := p]].Keys == place.Keys;
  }

  lemma ArriveFlights(net: Net, chain: Chains, sent: Logs, place: Places, pos: Positions, id: nat, x: Addr,
      m: LaneId, i: nat, k: nat, p: Place)
    requires IsMail(net, pos, place, id, x, m, i, k) && Flights(net, chain, sent, place) &&
        Chained(chain, pos) && !p.Flying?
    ensures Flights(net - {id}, chain, sent, place[m := place[m][k := p]])
  {
  }

  lemma ArriveMail(net: Net, chain: Chains, place: Places, pos: Positions, id: nat, x: Addr, m: LaneId, i: nat,
      k: nat, p: Place)
    requires IsMail(net, pos, place, id, x, m, i, k) && Mail(net, pos, place) && Chained(chain, pos)
    ensures Mail(net - {id}, pos, place[m := place[m][k := p]])
  {
  }

  predicate Enqueues(ports: Ports, net: Net, id: nat, x: Addr, k: nat, q: Port) {
    x in ports && id in net && net[id].User? &&
    q == ports[x].(queue := ports[x].queue.(pending := ports[x].queue.pending[k := net[id].msg]))
  }

  lemma ArriveQueues(ports: Ports, net: Net, chain: Chains, sent: Logs, place: Places, pos: Positions, id: nat,
      x: Addr, m: LaneId, i: nat, k: nat, q: Port)
    requires IsMail(net, pos, place, id, x, m, i, k) && Queues(ports, chain, sent, place) &&
        Flights(net, chain, sent, place) && Chained(chain, pos) && Enqueues(ports, net, id, x, k, q)
    ensures Queues(ports[x := q], chain, sent, place[m := place[m][k := Queued(i)]])
  {
  }

  lemma ArrivePending(ports: Ports, net: Net, place: Places, pos: Positions, id: nat, x: Addr, m: LaneId, i: nat,
      k: nat, q: Port)
    requires IsMail(net, pos, place, id, x, m, i, k) && Pending(ports, pos, place) && Enqueues(ports, net, id, x, k,
        q)
    ensures Pending(ports[x := q], pos, place[m := place[m][k := Queued(i)]])
  {
  }

  lemma ArriveQueuedCargo(ports: Ports, net: Net, sent: Logs, place: Places, pos: Positions, transit: Transits,
      cargo: Cargos, id: nat, x: Addr, m: LaneId, i: nat, k: nat, q: Port)
    requires IsMail(net, pos, place, id, x, m, i, k) && FlyingCargo(net, ports, pos, transit, cargo, sent) &&
        QueuedCargo(ports, pos, transit, cargo, sent) && Enqueues(ports, net, id, x, k, q)
    ensures QueuedCargo(ports[x := q], pos, transit, cargo, sent)
  {
    hide Attached, LandedPorts, FlyingPorts;
    var ports' := ports[x := q];
    AttachedOf(ports, net, sent, place, pos, transit, cargo, id, x, m, i, k);
    RequeueAttached(ports, sent, pos, transit, cargo, x, q, m, k, i, net[id].msg);
    FlyingLands(ports, transit, x, q, net[id].msg);
    forall a, j | a in ports' && j in ports'[a].queue.pending && (a != x || j != k)
      ensures a in pos && LandedPorts(a.node, ports', ports'[a].queue.pending[j])
      ensures Attached(ports', pos, transit, cargo, sent, pos[a].lane, j, pos[a].idx, ports'[a].queue.pending[j])
    {
      RequeueAttached(ports, sent, pos, transit, cargo, x, q, pos[a].lane, j, pos[a].idx, ports[a].queue.pending[j]);
      RequeueLanded(ports, x, q, a.node, ports[a].queue.pending[j]);
    }
  }

  lemma RequeueAttached(ports: Ports, sent: Logs, pos: Positions, transit: Transits, cargo: Cargos, x: Addr,
      q: Port, m: LaneId, k: nat, at: nat, msg: Message)
    requires Attached(ports, pos, transit, cargo, sent, m, k, at, msg) && x in ports && Requeued(ports[x], q)
    ensures Attached(ports[x := q], pos, transit, cargo, sent, m, k, at, msg)
  {
  }

  lemma RequeueLanded(ports: Ports, x: Addr, q: Port, node: nat, msg: Message)
    requires LandedPorts(node, ports, msg) && x in ports
    ensures LandedPorts(node, ports[x := q], msg)
  {
  }

  lemma FlyingLands(ports: Ports, transit: Transits, x: Addr, q: Port, msg: Message)
    requires FlyingPorts(x.node, transit, msg)
    ensures LandedPorts(x.node, ports[x := q], msg)
  {
  }

  lemma ArriveManifest(ports: Ports, net: Net, chain: Chains, sent: Logs, place: Places, pos: Positions,
      cargo: Cargos, id: nat, x: Addr, m: LaneId, i: nat, k: nat, q: Port)
    requires IsMail(net, pos, place, id, x, m, i, k) && Chained(chain, pos) && Manifest(net, ports, chain, cargo,
        place) && Flights(net, chain, sent, place) && Enqueues(ports, net, id, x, k, q) && m in chain
    requires i < |chain[m]| && chain[m][i] == x
    ensures Manifest(net - {id}, ports[x := q], chain, cargo, place[m := place[m][k := Queued(i)]])
  {
    forall c | c in cargo
      ensures Listed(net - {id}, ports[x := q], chain, place[m := place[m][k := Queued(i)]], c, cargo[c])
    {
      assert Listed(net, ports, chain, place, c, cargo[c]);
      var l, n := cargo[c].lane, cargo[c].num;
      if place[l][n].Flying? && place[l][n].id == id {
        assert l == m && n == k;
      }
    }
  }

  lemma ChainHas(chain: Chains, pos: Positions, x: Addr)
    requires x in pos && Chained(chain, pos)
    ensures pos[x].lane in chain && pos[x].idx < |chain[pos[x].lane]| && chain[pos[x].lane][pos[x].idx] == x
  {
  }

  lemma TakeUser(ports: Ports, net: Net, chain: Chains, routed: Nums, sent: Logs, closed: set<LaneId>,
      pos: Positions, transit: Transits, token: Tokens, nextId: nat, busy: set<Addr>, id: nat)
    requires id in net && net[id].User? && Ids(net, nextId) && AcceptTokens(net, ports, transit, pos, chain,
        token) && Announcements(net, pos, chain, token) && Acks(net, pos, routed, token) &&
        Closures(net, ports, transit, pos, chain, routed, sent, closed) && Heralds(net, ports, transit, chain,
        routed, closed, busy)
    ensures var net' := net - {id};
            Ids(net', nextId) && AcceptTokens(net', ports, transit, pos, chain, token) &&
            Announcements(net', pos, chain, token) && Acks(net', pos, routed, token) &&
            Closures(net', ports, transit, pos, chain, routed, sent, closed) && Heralds(net', ports, transit, chain,
            routed, closed, busy)
  {
    hide Lanes, Chained, Named, Known, Ids, Receivers, Senders, Nexts, Ends, Travellers, Waiting, Targets, Numbers,
        Placement, Reading, Gone, Lasts, TravelLasts, Closures, Flights, Mail, Queues, Pending, FlyingCargo,
        QueuedCargo, Manifest, Unheld, AcceptTokens, Announcements, Acks, ParkedAcks, ProxyTokens, Heralds,
        ClosureFits;
    TakeId(net, nextId, id);
    TakeAccepts(ports, net, chain, pos, transit, token, id);
    TakeUserTokens(net, chain, routed, pos, token, id);
    TakeClosures(ports, net, chain, routed, sent, closed, pos, transit, id);
    TakeHeralds(ports, net, chain, routed, closed, transit, busy, id);
  }

  lemma TakeUserTokens(net: Net, chain: Chains, routed: Nums, pos: Positions, token: Tokens, id: nat)
    requires id in net && net[id].User? && Announcements(net, pos, chain, token) && Acks(net, pos, routed, token)
    ensures Announcements(net - {id}, pos, chain, token) && Acks(net - {id}, pos, routed, token)
  {
  }

  lemma TakeClosures(ports: Ports, net: Net, chain: Chains, routed: Nums, sent: Logs, closed: set<LaneId>,
      pos: Positions, transit: Transits, id: nat)
    requires Closures(net, ports, transit, pos, chain, routed, sent, closed)
    ensures Closures(net - {id}, ports, transit, pos, chain, routed, sent, closed)
  {
  }

  lemma EnqueueTrunk(s: State, id: nat)
    requires Core(s) && Heralding(s, {}) && Arriving(s, id) && s.net[id].to in s.ports
    ensures var t := Enqueue(s, id);
            Base(t) && Shape(t) && Counting(t) && Ending(t) && Posting(t) && Tokening(t) && Heralding(t, {})
  {
    hide Lanes, Chained, Named, Known, Ids, Receivers, Senders, Nexts, Ends, Travellers, Waiting, Targets, Numbers,
        Placement, Reading, Gone, Lasts, TravelLasts, Closures, Flights, Mail, Queues, Pending, FlyingCargo,
        QueuedCargo, Manifest, Unheld, AcceptTokens, Announcements, Acks, ParkedAcks, ProxyTokens, Heralds;
    var x, k := s.net[id].to, s.net[id].msg.num;
    var m, i, q := s.h.pos[x].lane, s.h.pos[x].idx, Enqueue(s, id).ports[x];
    var ports' := s.ports[x := q];
    MailIs(s.net, s.h.place, s.h.pos, id);
    RequeueShape(s.ports, s.net, s.h.chain, s.h.nexts, s.h.routed, s.h.sent, s.h.closed, s.h.pos, s.h.transit,
        s.h.cargo, s.h.token, x, q);
    KeepNexts(s.ports, s.h.nexts, s.h.pos, x, q);
    RequeueEnding(s.ports, s.net, s.h.chain, s.h.nexts, s.h.routed, s.h.sent, s.h.closed, s.h.pos, s.h.transit, {},
        x, q);
    TakeUser(ports', s.net, s.h.chain, s.h.routed, s.h.sent, s.h.closed, s.h.pos, s.h.transit, s.h.token, s.nextId,
        {}, id);
    MoveLanes(s.h.chain, s.h.nexts, s.h.routed, s.h.sent, s.h.place, s.h.read, s.h.closed, s.nextName, m, k,
        Queued(i));
    MovePlace(s.h.chain, s.h.nexts, s.h.routed, s.h.sent, s.h.place, s.h.transit, m, k, Queued(i));
    MoveReading(s.h.chain, s.h.nexts, s.h.sent, s.h.place, s.h.read, s.h.closed, m, k, Queued(i));
    ArriveFlights(s.net, s.h.chain, s.h.sent, s.h.place, s.h.pos, id, x, m, i, k, Queued(i));
    ArriveMail(s.net, s.h.chain, s.h.place, s.h.pos, id, x, m, i, k, Queued(i));
    ArriveQueues(s.ports, s.net, s.h.chain, s.h.sent, s.h.place, s.h.pos, id, x, m, i, k, q);
    ArrivePending(s.ports, s.net, s.h.place, s.h.pos, id, x, m, i, k, q);
  }

  lemma EnqueueCarries(s: State, id: nat)
    requires Core(s) && Arriving(s, id) && s.net[id].to in s.ports
    ensures Carrying(Enqueue(s, id))
  {
    hide Lanes, Chained, Named, Known, Ids, Receivers, Senders, Nexts, Ends, Travellers, Waiting, Targets, Numbers,
        Placement, Reading, Gone, Lasts, TravelLasts, Closures, Flights, Mail, Queues, Pending, FlyingCargo,
        QueuedCargo, Manifest, Unheld, AcceptTokens, Announcements, Acks, ParkedAcks, ProxyTokens, Heralds;
    var x, k := s.net[id].to, s.net[id].msg.num;
    var m, i, q := s.h.pos[x].lane, s.h.pos[x].idx, Enqueue(s, id).ports[x];
    MailIs(s.net, s.h.place, s.h.pos, id);
    ChainHas(s.h.chain, s.h.pos, x);
    KeepFlyingCargo(s.ports, s.net, s.h.sent, s.h.pos, s.h.transit, s.h.cargo, x, q);
    TakeFlyingCargo(s.ports[x := q], s.net, s.h.sent, s.h.pos, s.h.transit, s.h.cargo, id);
    ArriveQueuedCargo(s.ports, s.net, s.h.sent, s.h.place, s.h.pos, s.h.transit, s.h.cargo, id, x, m, i, k, q);
    ArriveManifest(s.ports, s.net, s.h.chain, s.h.sent, s.h.place, s.h.pos, s.h.cargo, id, x, m, i, k, q);
  }

  // ----- Discard -----

  lemma DiscardCargo(ports: Ports, net: Net, chain: Chains, sent: Logs, place: Places, pos: Positions,
      transit: Transits, cargo: Cargos, id: nat, x: Addr, m: LaneId, i: nat, k: nat)
    requires IsMail(net, pos, place, id, x, m, i, k) && FlyingCargo(net, ports, pos, transit, cargo, sent) &&
        Mail(net, pos, place) && Chained(chain, pos)
    ensures FlyingCargo(net - {id}, ports, pos, transit, Unload(cargo, net[id].msg.ports), sent)
  {
    var msg := net[id].msg;
    assert Attached(ports, pos, transit, cargo, sent, m, k, i, msg);
    forall j | j in net - {id} && net[j].User?
      ensures Attached(ports, pos, transit, Unload(cargo, msg.ports), sent, pos[net[j].to].lane, net[j].msg.num,
          pos[net[j].to].idx, net[j].msg)
    {
      assert Attached(ports, pos, transit, cargo, sent, pos[net[j].to].lane, net[j].msg.num, pos[net[j].to].idx,
          net[j].msg);
      OtherMessage(cargo, m, k, msg, pos[net[j].to].lane, net[j].msg.num, net[j].msg);
    }
  }

  /** The ports of two messages are different ports. */
  lemma OtherMessage(cargo: Cargos, m: LaneId, k: nat, msg: Message, m': LaneId, k': nat, msg': Message)
    requires m != m' || k != k'
    requires forall i :: 0 <= i < |msg.ports| ==> msg.ports[i] in cargo && cargo[msg.ports[i]] == Cargo(m, k, i)
    requires forall i :: 0 <= i < |msg'.ports| ==> msg'.ports[i] in cargo && cargo[msg'.ports[i]] == Cargo(m', k', i)
    ensures forall i :: 0 <= i < |msg'.ports| ==>
                          msg'.ports[i] in Unload(cargo, msg.ports) &&
                          Unload(cargo, msg.ports)[msg'.ports[i]] == cargo[msg'.ports[i]]
  {
  }

  lemma UnloadQueued(ports: Ports, sent: Logs, pos: Positions, transit: Transits, cargo: Cargos, m: LaneId, k: nat,
      at: nat, msg: Message)
    requires QueuedCargo(ports, pos, transit, cargo, sent) && Attached(ports, pos, transit, cargo, sent, m, k, at,
        msg)
    requires forall a :: a in ports && k in ports[a].queue.pending ==> a in pos && pos[a].lane != m
    ensures QueuedCargo(ports, pos, transit, Unload(cargo, msg.ports), sent)
  {
    forall a, j | a in ports && j in ports[a].queue.pending
      ensures Attached(ports, pos, transit, Unload(cargo, msg.ports), sent, pos[a].lane, j, pos[a].idx,
          ports[a].queue.pending[j])
    {
      assert Attached(ports, pos, transit, cargo, sent, pos[a].lane, j, pos[a].idx, ports[a].queue.pending[j]);
      OtherMessage(cargo, m, k, msg, pos[a].lane, j, ports[a].queue.pending[j]);
    }
  }

  lemma UnloadManifest(ports: Ports, net: Net, chain: Chains, sent: Logs, place: Places, pos: Positions,
      transit: Transits, cargo: Cargos, m: LaneId, k: nat, at: nat, msg: Message, net': Net, ports': Ports,
      place': Places)
    requires Manifest(net, ports, chain, cargo, place) && Attached(ports, pos, transit, cargo, sent, m, k, at, msg)
    requires forall c :: c in cargo && (cargo[c].lane != m || cargo[c].num != k) && Listed(net, ports, chain, place,
        c, cargo[c]) ==>
                           Listed(net', ports', chain, place', c, cargo[c])
    requires forall c :: c in cargo && cargo[c].lane == m && cargo[c].num == k ==> c in msg.ports
    ensures Manifest(net', ports', chain, Unload(cargo, msg.ports), place')
  {
  }

  /** The cargo of a message is what its ports say. */
  lemma CargoIsAttached(ports: Ports, net: Net, chain: Chains, place: Places, pos: Positions, cargo: Cargos,
      id: nat, x: Addr, m: LaneId, i: nat, k: nat)
    requires IsMail(net, pos, place, id, x, m, i, k) && Manifest(net, ports, chain, cargo, place)
    ensures forall c :: c in cargo && cargo[c].lane == m && cargo[c].num == k ==> c in net[id].msg.ports
  {
    forall c | c in cargo && cargo[c].lane == m && cargo[c].num == k
      ensures c in net[id].msg.ports
    {
      assert Listed(net, ports, chain, place, c, cargo[c]);
    }
  }

  lemma DiscardManifest(ports: Ports, net: Net, chain: Chains, sent: Logs, place: Places, pos: Positions,
      transit: Transits, cargo: Cargos, id: nat, x: Addr, m: LaneId, i: nat, k: nat)
    requires IsMail(net, pos, place, id, x, m, i, k) && Manifest(net, ports, chain, cargo, place) &&
        FlyingCargo(net, ports, pos, transit, cargo, sent) && Mail(net, pos, place) && Chained(chain, pos) &&
        Flights(net, chain, sent, place)
    ensures Manifest(net - {id}, ports, chain, Unload(cargo, net[id].msg.ports), place[m := place[m][k := Lost]])
  {
    var net', place' := net - {id}, place[m := place[m][k := Lost]];
    assert Attached(ports, pos, transit, cargo, sent, m, k, i, net[id].msg);
    CargoIsAttached(ports, net, chain, place, pos, cargo, id, x, m, i, k);
    forall c | c in cargo && (cargo[c].lane != m || cargo[c].num != k) && Listed(net, ports, chain, place, c,
        cargo[c])
      ensures Listed(net', ports, chain, place', c, cargo[c])
    {
      var p := place[cargo[c].lane][cargo[c].num];
      assert !(p.Flying? && p.id == id);
    }
    UnloadManifest(ports, net, chain, sent, place, pos, transit, cargo, m, k, i, net[id].msg, net', ports, place');
  }

  lemma DiscardQueues(ports: Ports, net: Net, chain: Chains, sent: Logs, place: Places, pos: Positions, id: nat,
      x: Addr, m: LaneId, i: nat, k: nat)
    requires IsMail(net, pos, place, id, x, m, i, k) && Queues(ports, chain, sent, place) &&
        Pending(ports, pos, place)
    ensures Queues(ports, chain, sent, place[m := place[m][k := Lost]]) &&
        Pending(ports, pos, place[m := place[m][k := Lost]])
    ensures forall a :: a in ports && k in ports[a].queue.pending ==> a in pos && pos[a].lane != m
  {
  }

  lemma KnownUnload(ports: Ports, pos: Positions, transit: Transits, cargo: Cargos, token: Tokens, bs: seq<Addr>)
    requires Known(ports, transit, cargo, token, pos) && Unheld(ports, cargo)
    ensures Known(ports, transit, Unload(cargo, bs), token, pos) && Unheld(ports, Unload(cargo, bs))
  {
  }

  /** A message that no port takes was sent to a side that has closed. */
  lemma MissingIsClosed(ports: Ports, net: Net, chain: Chains, nexts: Nums, routed: Nums, sent: Logs, place: Places,
      closed: set<LaneId>, pos: Positions, transit: Transits, id: nat, x: Addr, m: LaneId, i: nat, k: nat)
    requires IsMail(net, pos, place, id, x, m, i, k) && x !in ports && Chained(chain, pos) &&
        Placement(chain, nexts, routed, sent, place, transit) && Gone(ports, transit, chain, nexts, routed, sent,
        closed) && Ends(ports, transit, chain, closed)
    ensures m in closed && m in chain && i + 1 == |chain[m]|
  {
    assert PlacedWell(nexts[m], routed[m], |sent[m]|, k, i);
    assert chain[m][i] == x && x !in transit;
    if i + 1 == |chain[m]| { assert EndOf(chain, m) == x; }
  }

  lemma DiscardKeeps(s: State, id: nat)
    requires Core(s) && Heralding(s, {}) && Arriving(s, id) && s.net[id].to !in s.ports
    ensures var t := Discard(s, id);
            Core(t) && Heralding(t, {})
  {
    hide Lanes, Chained, Named, Known, Ids, Receivers, Senders, Nexts, Ends, Travellers, Waiting, Targets, Numbers,
        Placement, Reading, Gone, Lasts, TravelLasts, Closures, Flights, Mail, Queues, Pending, FlyingCargo,
        QueuedCargo, Manifest, Unheld, AcceptTokens, Announcements, Acks, ParkedAcks, ProxyTokens, Heralds, Attached;
    var x, k, msg := s.net[id].to, s.net[id].msg.num, s.net[id].msg;
    var m, i := s.h.pos[x].lane, s.h.pos[x].idx;
    MailIs(s.net, s.h.place, s.h.pos, id);
    MissingIsClosed(s.ports, s.net, s.h.chain, s.h.nexts, s.h.routed, s.h.sent, s.h.place, s.h.closed, s.h.pos,
        s.h.transit, id, x, m, i, k);
    KnownUnload(s.ports, s.h.pos, s.h.transit, s.h.cargo, s.h.token, msg.ports);
    TakeUser(s.ports, s.net, s.h.chain, s.h.routed, s.h.sent, s.h.closed, s.h.pos, s.h.transit, s.h.token, s.nextId,
        {}, id);
    MoveLanes(s.h.chain, s.h.nexts, s.h.routed, s.h.sent, s.h.place, s.h.read, s.h.closed, s.nextName, m, k, Lost);
    MovePlace(s.h.chain, s.h.nexts, s.h.routed, s.h.sent, s.h.place, s.h.transit, m, k, Lost);
    MoveReading(s.h.chain, s.h.nexts, s.h.sent, s.h.place, s.h.read, s.h.closed, m, k, Lost);
    ArriveFlights(s.net, s.h.chain, s.h.sent, s.h.place, s.h.pos, id, x, m, i, k, Lost);
    ArriveMail(s.net, s.h.chain, s.h.place, s.h.pos, id, x, m, i, k, Lost);
    DiscardQueues(s.ports, s.net, s.h.chain, s.h.sent, s.h.place, s.h.pos, id, x, m, i, k);
    DiscardCargo(s.ports, s.net, s.h.chain, s.h.sent, s.h.place, s.h.pos, s.h.transit, s.h.cargo, id, x, m, i, k);
    AttachedOf(s.ports, s.net, s.h.sent, s.h.place, s.h.pos, s.h.transit, s.h.cargo, id, x, m, i, k);
    UnloadQueued(s.ports, s.h.sent, s.h.pos, s.h.transit, s.h.cargo, m, k, i, msg);
    DiscardManifest(s.ports, s.net, s.h.chain, s.h.sent, s.h.place, s.h.pos, s.h.transit, s.h.cargo, id, x, m, i, k);
  }

  lemma AttachedOf(ports: Ports, net: Net, sent: Logs, place: Places, pos: Positions, transit: Transits,
      cargo: Cargos, id: nat, x: Addr, m: LaneId, i: nat, k: nat)
    requires IsMail(net, pos, place, id, x, m, i, k) && FlyingCargo(net, ports, pos, transit, cargo, sent)
    ensures Attached(ports, pos, transit, cargo, sent, m, k, i, net[id].msg) && FlyingPorts(x.node, transit,
        net[id].msg)
  {
  }
}
