/** When no event is in flight, everything has arrived. */
module PortDelivered {
  import opened PortState
  import opened PortSteps
  import opened PortInvariant
  import opened PortSettled

  lemma CargoHasLanded(ports: Ports, net: Net, chain: Chains, place: Places, cargo: Cargos, b: Addr)
    requires net == map[] && b in cargo && Manifest(net, ports, chain, cargo, place) && Here(ports, {})
    ensures b in ports
  {
    assert Listed(net, ports, chain, place, b, cargo[b]);
    var c := cargo[b];
    var x := chain[c.lane][place[c.lane][c.num].at];
    assert AllHere(ports, ports[x].queue.pending[c.num].ports);
  }

  /** No port is on its way. */
  lemma NoneTravels(ports: Ports, net: Net, chain: Chains, place: Places, pos: Positions, transit: Transits,
      cargo: Cargos, token: Tokens)
    requires net == map[] && Loaded(transit, cargo, {}) && Manifest(net, ports, chain, cargo, place) &&
        Here(ports, {}) && Known(ports, transit, cargo, token, pos)
    ensures transit == map[]
  {
    forall b
      ensures b !in transit
    {
      if b in cargo { CargoHasLanded(ports, net, chain, place, cargo, b); }
    }
  }

  /** No port waits for word from its successor. */
  lemma NoneBuffers(ports: Ports, net: Net, chain: Chains, pos: Positions, transit: Transits, token: Tokens, a: Addr)
    requires net == map[] && transit == map[] && Waiting(ports, pos, chain, transit, token) &&
        AcceptTokens(net, ports, transit, pos, chain, token)
    ensures a in ports ==> !ports[a].mode.Buffering?
  {
  }

  /** The ports of a lane that come before its end are proxies that have passed on all they can. */
  ghost predicate AllPassedOn(ports: Ports, chain: Chains, m: LaneId) {
    m in chain && forall i :: 0 <= i < |chain[m]| - 1 && chain[m][i] in ports ==> !HasNext(ports[chain[m][i]])
  }

  lemma AllDrained(ports: Ports, net: Net, chain: Chains, routed: Nums, sent: Logs, closed: set<LaneId>,
      pos: Positions, transit: Transits, token: Tokens, m: LaneId)
    requires net == map[] && transit == map[] && Waiting(ports, pos, chain, transit, token) &&
        AcceptTokens(net, ports, transit, pos, chain, token) && Drained(ports, {}) && Receivers(ports, pos, chain,
        routed, sent, closed) && Chained(chain, pos)
    requires m in chain
    ensures AllPassedOn(ports, chain, m)
  {
    forall i | 0 <= i < |chain[m]| - 1 && chain[m][i] in ports
      ensures !HasNext(ports[chain[m][i]])
    {
      NoneBuffers(ports, net, chain, pos, transit, token, chain[m][i]);
      assert pos[chain[m][i]] == Pos(m, i);
    }
  }

  /** The first message a port before the end still wants is not queued at or before that port. */
  lemma WaitsAtNext(ports: Ports, chain: Chains, nexts: Nums, sent: Logs, place: Places, pos: Positions, m: LaneId,
      k: nat, at: nat)
    requires AllPassedOn(ports, chain, m) && Queues(ports, chain, sent, place) && Nexts(ports, pos, nexts) &&
        Chained(chain, pos)
    requires m in place && k < |place[m]| && place[m][k] == Queued(at) && at + 1 < |chain[m]|
    ensures m in nexts && at < |nexts[m]| && nexts[m][at] != k
  {
    assert pos[chain[m][at]] == Pos(m, at);
  }

  /** A message that has not been read is queued at its lane's end. */
  lemma WaitsAtEnd(ports: Ports, net: Net, chain: Chains, nexts: Nums, routed: Nums, sent: Logs, place: Places,
      read: Logs, closed: set<LaneId>, pos: Positions, transit: Transits, m: LaneId, k: nat)
    requires net == map[] && AllPassedOn(ports, chain, m) && Flights(net, chain, sent, place) &&
        Queues(ports, chain, sent, place) && Placement(chain, nexts, routed, sent, place, transit) &&
        Numbers(chain, nexts, routed, sent) && Reading(chain, nexts, sent, place, read, closed)
    requires Nexts(ports, pos, nexts) && Chained(chain, pos) && m !in closed && m in place && k < |place[m]| &&
        !place[m][k].Read?
    ensures m in chain && place[m][k] == Queued(|chain[m]| - 1)
  {
    assert place[m][k].Queued?;
    var at, n, r, total := place[m][k].at, nexts[m], routed[m], |sent[m]|;
    assert LaneNumbers(|chain[m]|, n, r, total);
    assert PlacedWell(n, r, total, k, at);
    if at + 1 < |chain[m]| {
      var k0 := n[at];
      assert place[m][k0].Queued?;
      assert PlacedWell(n, r, total, k0, place[m][k0].at);
      WaitsAtNext(ports, chain, nexts, sent, place, pos, m, k0, place[m][k0].at);
    }
  }

  lemma NewsArrives(ports: Ports, net: Net, chain: Chains, routed: Nums, pos: Positions, transit: Transits,
      token: Tokens, m: LaneId, i: nat)
    requires net == map[] && transit == map[] && Waiting(ports, pos, chain, transit, token) &&
        AcceptTokens(net, ports, transit, pos, chain, token) && m in chain && m in routed
    requires |routed[m]| <= i < |chain[m]| && HeraldLane(net, ports, transit, chain, {}, m, |routed[m]|)
    ensures Told(ports, transit, chain, m, i)
    decreases i
  {
    if i > |routed[m]| {
      NewsArrives(ports, net, chain, routed, pos, transit, token, m, i - 1);
      NoneBuffers(ports, net, chain, pos, transit, token, chain[m][i - 1]);
    }
  }

  lemma EndIsHere(ports: Ports, chain: Chains, nexts: Nums, sent: Logs, place: Places, read: Logs,
      closed: set<LaneId>, pos: Positions, transit: Transits, m: LaneId)
    requires transit == map[] && Ends(ports, transit, chain, closed) && m in chain && m !in closed &&
        Nexts(ports, pos, nexts) && Chained(chain, pos) && Reading(chain, nexts, sent, place, read, closed)
    ensures |chain[m]| >= 1 && EndOf(chain, m) in ports && ports[EndOf(chain, m)].mode.Receiving?
    ensures m in read && ports[EndOf(chain, m)].queue.next == |read[m]|
    ensures EndOf(chain, m) in pos && pos[EndOf(chain, m)] == Pos(m, |chain[m]| - 1)
  {
  }

  /** The queue at the end of lane m holds exactly what was sent and not yet read. */
  ghost predicate QueueIsRest(q: Queue, sent: seq<Entry>, read: seq<Entry>) {
    q.next == |read| <= |sent| && (forall k :: k in q.pending <==> |read| <= k < |sent|) &&
    forall k :: k in q.pending ==> Carries(q.pending[k], k, sent[k])
  }

  lemma RestIsQueued(ports: Ports, net: Net, chain: Chains, nexts: Nums, routed: Nums, sent: Logs, place: Places,
      read: Logs, closed: set<LaneId>, pos: Positions, transit: Transits, m: LaneId)
    requires net == map[] && transit == map[] && AllPassedOn(ports, chain, m) &&
        Flights(net, chain, sent, place) && Queues(ports, chain, sent, place) && Placement(chain, nexts, routed,
        sent, place, transit) && Pending(ports, pos, place)
    requires Numbers(chain, nexts, routed, sent) && Reading(chain, nexts, sent, place, read, closed) &&
        Nexts(ports, pos, nexts) && Chained(chain, pos) && Ends(ports, transit, chain, closed) && m in chain &&
        m !in closed
    ensures |chain[m]| >= 1 && EndOf(chain, m) in ports && m in sent && m in read
    ensures QueueIsRest(ports[EndOf(chain, m)].queue, sent[m], read[m])
  {
    hide AllPassedOn, Placement, Numbers, Nexts, Ends, Pending, Flights, Reading, Queues, Chained;
    EndIsHere(ports, chain, nexts, sent, place, read, closed, pos, transit, m);
    ReadFits(chain, nexts, sent, place, read, closed, m);
    var q := ports[EndOf(chain, m)].queue;
    forall k: nat | |read[m]| <= k < |sent[m]|
      ensures k in q.pending && Carries(q.pending[k], k, sent[m][k])
    {
      NotReadYet(chain, nexts, sent, place, read, closed, m, k);
      WaitsAtEnd(ports, net, chain, nexts, routed, sent, place, read, closed, pos, transit, m, k);
      QueuedIs(ports, chain, sent, place, m, k);
    }
    forall k | k in q.pending
      ensures |read[m]| <= k < |sent[m]|
    {
      PendingAtEnd(ports, chain, nexts, routed, sent, place, read, closed, pos, transit, m, k);
    }
  }

  lemma ReadFits(chain: Chains, nexts: Nums, sent: Logs, place: Places, read: Logs, closed: set<LaneId>, m: LaneId)
    requires Reading(chain, nexts, sent, place, read, closed) && m in chain
    ensures m in sent && m in read && m in place && |read[m]| <= |sent[m]| == |place[m]|
  {
  }

  lemma NotReadYet(chain: Chains, nexts: Nums, sent: Logs, place: Places, read: Logs, closed: set<LaneId>,
      m: LaneId, k: nat)
    requires Reading(chain, nexts, sent, place, read, closed) && m in chain && m in read && m in sent &&
        |read[m]| <= k < |sent[m]|
    ensures m in place && k < |place[m]| && !place[m][k].Read?
  {
  }

  lemma QueuedIs(ports: Ports, chain: Chains, sent: Logs, place: Places, m: LaneId, k: nat)
    requires Queues(ports, chain, sent, place) && m in chain && |chain[m]| >= 1 && m in place && k < |place[m]|
    requires place[m][k] == Queued(|chain[m]| - 1)
    ensures m in sent && k < |sent[m]| && EndOf(chain, m) in ports
    ensures k in ports[EndOf(chain, m)].queue.pending
    ensures Carries(ports[EndOf(chain, m)].queue.pending[k], k, sent[m][k])
  {
  }

  lemma PendingAtEnd(ports: Ports, chain: Chains, nexts: Nums, routed: Nums, sent: Logs, place: Places, read: Logs,
      closed: set<LaneId>, pos: Positions, transit: Transits, m: LaneId, k: nat)
    requires Pending(ports, pos, place) && Placement(chain, nexts, routed, sent, place, transit) &&
        Reading(chain, nexts, sent, place, read, closed) && Chained(chain, pos) && m in chain && |chain[m]| >= 1
    requires EndOf(chain, m) in ports && k in ports[EndOf(chain, m)].queue.pending
    ensures m in read && m in sent && |read[m]| <= k < |sent[m]|
  {
    assert pos[EndOf(chain, m)] == Pos(m, |chain[m]| - 1);
    assert place[m][k] == Queued(|chain[m]| - 1);
    assert PlacedWell(nexts[m], routed[m], |sent[m]|, k, |chain[m]| - 1);
  }
}
