/** A message is numbered and handed to the transport by the end that sends it. */
module PortSending {
  import opened PortState
  import opened PortSteps
  import opened PortInvariant
  import opened PortFrames
  import opened PortMessages

  /** The end of lane m.Other() may send one more message, number k, to index t of lane m. */
  ghost predicate MayEmit(ports: Ports, pos: Positions, chain: Chains, routed: Nums, sent: Logs, closed: set<LaneId>,
                          a: Addr, m: LaneId, t: nat, k: nat)
  {
    a in ports && ports[a].mode.Receiving? && !ports[a].peerClosed && a in pos && pos[a].lane == m.Other() &&
    m.Other() in chain && pos[a].idx + 1 == |chain[m.Other()]| && m.Other() !in closed &&
    m in chain && m in routed && m in sent && t == |routed[m]| && k == |sent[m]| && k < INVALID_SEQUENCE_NUM &&
    t < |chain[m]| && ports[a].peer == chain[m][t] && ports[a].nextSend == k
  }

  lemma EndMayEmit(ports: Ports, chain: Chains, routed: Nums, sent: Logs, closed: set<LaneId>, pos: Positions,
      a: Addr)
    requires a in ports && ports[a].mode.Receiving? && Receivers(ports, pos, chain, routed, sent, closed) &&
        !ports[a].peerClosed
    requires ports[a].nextSend < INVALID_SEQUENCE_NUM
    ensures a in pos && var m := pos[a].lane.Other();
                        m in routed && MayEmit(ports, pos, chain, routed, sent, closed, a, m, |routed[m]|,
                        ports[a].nextSend)
  {
  }

  function Sent(sent: Logs, m: LaneId, e: Entry): Logs
    requires m in sent
  {
    sent[m := sent[m] + [e]]
  }

  function Launched(place: Places, m: LaneId, p: Place): Places
    requires m in place
  {
    place[m := place[m] + [p]]
  }

  lemma EmitLanes(ports: Ports, chain: Chains, nexts: Nums, routed: Nums, sent: Logs, place: Places, read: Logs,
      closed: set<LaneId>, pos: Positions, name: nat, a: Addr, m: LaneId, t: nat, k: nat, e: Entry, p: Place)
    requires MayEmit(ports, pos, chain, routed, sent, closed, a, m, t, k) && Lanes(chain, nexts, routed, sent,
        place, read, closed, name) && m in place
    ensures Lanes(chain, nexts, routed, Sent(sent, m, e), Launched(place, m, p), read, closed, name)
  {
    assert Sent(sent, m, e).Keys == sent.Keys;
    assert Launched(place, m, p).Keys == place.Keys;
  }

  lemma EmitReceivers(ports: Ports, chain: Chains, routed: Nums, sent: Logs, closed: set<LaneId>, pos: Positions,
      a: Addr, m: LaneId, t: nat, k: nat, e: Entry, q: Port)
    requires MayEmit(ports, pos, chain, routed, sent, closed, a, m, t, k) && Receivers(ports, pos, chain, routed,
        sent, closed) && Chained(chain, pos) && q == ports[a].(nextSend := k + 1)
    ensures Receivers(ports[a := q], pos, chain, routed, Sent(sent, m, e), closed)
  {
    forall b | b in ports && ports[b].mode.Receiving? && b != a
      ensures Receives(pos, chain, routed, Sent(sent, m, e), closed, b, ports[b])
    {
      assert Receives(pos, chain, routed, sent, closed, b, ports[b]);
      assert pos[b].lane != m.Other();
      assert pos[b].lane.Other().Other() == pos[b].lane;
    }
    assert Receives(pos, chain, routed, sent, closed, a, ports[a]);
  }

  lemma EmitTravellers(ports: Ports, chain: Chains, nexts: Nums, routed: Nums, sent: Logs, closed: set<LaneId>,
      pos: Positions, transit: Transits, cargo: Cargos, token: Tokens, a: Addr, m: LaneId, t: nat, k: nat, e: Entry)
    requires MayEmit(ports, pos, chain, routed, sent, closed, a, m, t, k) && Travellers(ports, transit, pos, chain,
        nexts, routed, sent, closed, token) && Chained(chain, pos) && Known(ports, transit, cargo, token, pos)
    ensures Travellers(ports, transit, pos, chain, nexts, routed, Sent(sent, m, e), closed, token)
  {
    forall b | b in transit
      ensures Travels(ports, pos, chain, nexts, routed, Sent(sent, m, e), closed, token, b, transit[b])
    {
      assert Travels(ports, pos, chain, nexts, routed, sent, closed, token, b, transit[b]);
      assert pos[b].lane != m.Other();
      assert pos[b].lane.Other().Other() == pos[b].lane;
    }
  }

  lemma EmitLane(n: nat, nexts: seq<nat>, routed: seq<nat>, total: nat)
    requires LaneNumbers(n, nexts, routed, total)
    ensures LaneNumbers(n, nexts, routed, total + 1)
  {
    forall i | 0 <= i < n
      ensures Limit(routed, total, i) <= Limit(routed, total + 1, i)
    {
    }
    forall i, j | 0 <= i < j < n && nexts[i] < Limit(routed, total + 1, i)
      ensures nexts[j] <= nexts[i]
    {
      if i >= |routed| { assert nexts[j] <= Limit(routed, total, j) == total; }
    }
  }

  lemma EmitNumbers(chain: Chains, nexts: Nums, routed: Nums, sent: Logs, m: LaneId, e: Entry)
    requires Numbers(chain, nexts, routed, sent) && m in chain
    ensures Numbers(chain, nexts, routed, Sent(sent, m, e))
  {
    EmitLane(|chain[m]|, nexts[m], routed[m], |sent[m]|);
  }

  lemma EmitPlaced(nexts: seq<nat>, routed: seq<nat>, total: nat, k: nat, at: nat)
    requires PlacedWell(nexts, routed, total, k, at) && k < total
    ensures PlacedWell(nexts, routed, total + 1, k, at)
  {
    forall j | 0 <= j < at && k < Limit(routed, total + 1, j)
      ensures k < nexts[j]
    {
      assert k < Limit(routed, total, j);
    }
  }

  lemma EmitPlacement(ports: Ports, chain: Chains, nexts: Nums, routed: Nums, sent: Logs, place: Places,
      closed: set<LaneId>, pos: Positions, transit: Transits, a: Addr, m: LaneId, t: nat, k: nat, e: Entry, id: nat)
    requires MayEmit(ports, pos, chain, routed, sent, closed, a, m, t, k) && Numbers(chain, nexts, routed,
        sent) && Placement(chain, nexts, routed, sent, place, transit) && Targets(transit, chain, routed) &&
        m in place && |place[m]| == |sent[m]|
    ensures Placement(chain, nexts, routed, Sent(sent, m, e), Launched(place, m, Flying(id, t)), transit)
  {
    assert LaneNumbers(|chain[m]|, nexts[m], routed[m], |sent[m]|);
    forall j | 0 <= j < |place[m]| && place[m][j].Placed()
      ensures PlacedWell(nexts[m], routed[m], |sent[m]| + 1, j, place[m][j].at)
    {
      EmitPlaced(nexts[m], routed[m], |sent[m]|, j, place[m][j].at);
    }
    assert nexts[m][t] <= Limit(routed[m], |sent[m]|, t) == k;
    assert PlacedWell(nexts[m], routed[m], |sent[m]| + 1, k, t);
  }

  lemma EmitReading(chain: Chains, nexts: Nums, sent: Logs, place: Places, read: Logs, closed: set<LaneId>,
      m: LaneId, e: Entry, p: Place)
    requires Reading(chain, nexts, sent, place, read, closed) && m in chain && m in sent && m in place && p.Flying?
    ensures Reading(chain, nexts, Sent(sent, m, e), Launched(place, m, p), read, closed)
  {
    assert Sent(sent, m, e)[m][..|read[m]|] == sent[m][..|read[m]|];
  }

  /** As long as its end may send, a direction is not silent. */
  lemma EmitNotSilent(ports: Ports, chain: Chains, routed: Nums, sent: Logs, closed: set<LaneId>, pos: Positions,
      transit: Transits, cargo: Cargos, token: Tokens, a: Addr, m: LaneId, t: nat, k: nat)
    requires MayEmit(ports, pos, chain, routed, sent, closed, a, m, t, k) && Chained(chain, pos) &&
        Known(ports, transit, cargo, token, pos)
    ensures !Silent(ports, transit, chain, closed, m)
  {
    assert EndOf(chain, m.Other()) == a;
  }

  lemma EmitGone(ports: Ports, net: Net, chain: Chains, nexts: Nums, routed: Nums, sent: Logs, closed: set<LaneId>,
      pos: Positions, transit: Transits, cargo: Cargos, token: Tokens, a: Addr, m: LaneId, t: nat, k: nat, e: Entry)
    requires MayEmit(ports, pos, chain, routed, sent, closed, a, m, t, k) && Chained(chain, pos) &&
        Known(ports, transit, cargo, token, pos) && Gone(ports, transit, chain, nexts, routed, sent, closed) &&
        Closures(net, ports, transit, pos, chain, routed, sent, closed)
    ensures Gone(ports, transit, chain, nexts, routed, Sent(sent, m, e), closed) && Closures(net, ports, transit,
        pos, chain, routed, Sent(sent, m, e), closed)
  {
    EmitNotSilent(ports, chain, routed, sent, closed, pos, transit, cargo, token, a, m, t, k);
  }

  lemma EmitLasts(ports: Ports, chain: Chains, routed: Nums, sent: Logs, closed: set<LaneId>, pos: Positions,
      transit: Transits, cargo: Cargos, token: Tokens, a: Addr, m: LaneId, t: nat, k: nat, e: Entry)
    requires MayEmit(ports, pos, chain, routed, sent, closed, a, m, t, k) && Chained(chain, pos) &&
        Known(ports, transit, cargo, token, pos) && Lasts(ports, transit, pos, chain, routed, sent, closed) &&
        TravelLasts(ports, transit, pos, chain, sent, closed)
    ensures Lasts(ports, transit, pos, chain, routed, Sent(sent, m, e), closed) && TravelLasts(ports, transit, pos,
        chain, Sent(sent, m, e), closed)
  {
    EmitNotSilent(ports, chain, routed, sent, closed, pos, transit, cargo, token, a, m, t, k);
  }

  lemma EmitFlights(ports: Ports, net: Net, chain: Chains, routed: Nums, sent: Logs, place: Places,
      closed: set<LaneId>, pos: Positions, a: Addr, m: LaneId, t: nat, k: nat, e: Entry, id: nat, ev: Event)
    requires MayEmit(ports, pos, chain, routed, sent, closed, a, m, t, k) && Flights(net, chain, sent, place) &&
        m in place && |place[m]| == |sent[m]| && id !in net
    requires ev.User? && ev.to == chain[m][t] && Carries(ev.msg, k, e)
    ensures Flights(net[id := ev], chain, Sent(sent, m, e), Launched(place, m, Flying(id, t)))
  {
  }

  lemma EmitMail(net: Net, chain: Chains, place: Places, pos: Positions, m: LaneId, t: nat, k: nat, id: nat,
      ev: Event)
    requires Mail(net, pos, place) && Chained(chain, pos) && m in place && |place[m]| == k && id !in net &&
        m in chain && t < |chain[m]|
    requires ev.User? && ev.to == chain[m][t] && ev.msg.num == k
    ensures Mail(net[id := ev], pos, Launched(place, m, Flying(id, t)))
  {
  }

  lemma EmitQueues(ports: Ports, chain: Chains, sent: Logs, place: Places, pos: Positions, m: LaneId, e: Entry,
      p: Place)
    requires Queues(ports, chain, sent, place) && Pending(ports, pos, place) && m in place && m in sent && p.Flying?
    ensures Queues(ports, chain, Sent(sent, m, e), Launched(place, m, p)) && Pending(ports, pos, Launched(place, m,
        p))
  {
  }

  /** Each loaded port is listed under its own slot, and nothing else changes. */
  lemma {:induction false} LoadLists(cargo: Cargos, bs: seq<Addr>, l: LaneId, num: nat)
    requires Distinct(bs)
    ensures Load(cargo, bs, l, num).Keys == cargo.Keys + (set b | b in bs)
    ensures forall i :: 0 <= i < |bs| ==> Load(cargo, bs, l, num)[bs[i]] == Cargo(l, num, i)
    ensures forall c :: c in cargo && c !in bs ==> Load(cargo, bs, l, num)[c] == cargo[c]
    decreases |bs|
  {
    if bs != [] {
      var n := |bs| - 1;
      LoadLists(cargo, bs[..n], l, num);
      LoadLast(Load(cargo, bs[..n], l, num), cargo, bs, l, num);
    }
  }

  lemma LoadLast(init: Cargos, cargo: Cargos, bs: seq<Addr>, l: LaneId, num: nat)
    requires bs != [] && Distinct(bs)
    requires var n := |bs| - 1;
             init.Keys == cargo.Keys + (set b | b in bs[..n]) &&
             (forall i :: 0 <= i < n ==> init[bs[..n][i]] == Cargo(l, num, i)) &&
             (forall c :: c in cargo && c !in bs[..n] ==> init[c] == cargo[c])
    ensures var last := init[bs[|bs| - 1] := Cargo(l, num, |bs| - 1)];
            last.Keys == cargo.Keys + (set b | b in bs) &&
            (forall i :: 0 <= i < |bs| ==> last[bs[i]] == Cargo(l, num, i)) &&
            (forall c :: c in cargo && c !in bs ==> last[c] == cargo[c])
  {
    var n := |bs| - 1;
    assert bs == bs[..n] + [bs[n]];
    assert forall i :: 0 <= i < n ==> bs[..n][i] == bs[i];
  }

  /** The ports to be attached are on their way, and in no message yet. */
  ghost predicate Attachable(pos: Positions, transit: Transits, cargo: Cargos, bs: seq<Addr>, ds: seq<Descriptor>,
                             node: nat, m: LaneId, t: nat)
  {
    |bs| == |ds| && Distinct(bs) &&
    forall i :: 0 <= i < |bs| ==>
                  bs[i].node == node && bs[i] in transit && transit[bs[i]] == ds[i] && bs[i] !in cargo &&
                  bs[i] in pos && pos[bs[i]] != Pos(m, t + 1)
  }

  lemma EmitKnown(ports: Ports, pos: Positions, transit: Transits, cargo: Cargos, token: Tokens, bs: seq<Addr>,
      ds: seq<Descriptor>, node: nat, m: LaneId, t: nat, k: nat)
    requires Known(ports, transit, cargo, token, pos) && Unheld(ports, cargo) && Attachable(pos, transit, cargo, bs,
        ds, node, m, t)
    ensures Known(ports, transit, Load(cargo, bs, m, k), token, pos) && Unheld(ports, Load(cargo, bs, m, k))
  {
    LoadLists(cargo, bs, m, k);
  }

  lemma EmitAttached(ports: Ports, sent: Logs, pos: Positions, transit: Transits, cargo: Cargos, bs: seq<Addr>,
      ds: seq<Descriptor>, node: nat, m: LaneId, t: nat, k: nat, e: Entry,
                      m': LaneId, k': nat, at: nat, msg: Message)
    requires Attached(ports, pos, transit, cargo, sent, m', k', at, msg) && Attachable(pos, transit, cargo, bs, ds,
        node, m, t) && m in sent
    ensures Attached(ports, pos, transit, Load(cargo, bs, m, k), Sent(sent, m, e), m', k', at, msg)
  {
    LoadLists(cargo, bs, m, k);
  }

  lemma EmitFlyingCargo(ports: Ports, net: Net, sent: Logs, pos: Positions, transit: Transits, cargo: Cargos,
      bs: seq<Addr>, ds: seq<Descriptor>, m: LaneId, t: nat, k: nat, e: Entry, id: nat, ev: Event)
    requires FlyingCargo(net, ports, pos, transit, cargo, sent) && id !in net && m in sent && k == |sent[m]| &&
        ev.User? && ev.msg == Message(k, e.payload, bs, ds)
    requires Attachable(pos, transit, cargo, bs, ds, ev.to.node, m, t) && ev.to in pos && pos[ev.to] == Pos(m, t)
    requires |e.ends| == |bs| && forall i :: 0 <= i < |bs| ==> e.ends[i] == pos[bs[i]].lane
    ensures FlyingCargo(net[id := ev], ports, pos, transit, Load(cargo, bs, m, k), Sent(sent, m, e))
  {
    hide Attachable;
    forall j | j in net && net[j].User?
      ensures Attached(ports, pos, transit, Load(cargo, bs, m, k), Sent(sent, m, e), pos[net[j].to].lane,
          net[j].msg.num, pos[net[j].to].idx, net[j].msg)
    {
      EmitAttached(ports, sent, pos, transit, cargo, bs, ds, ev.to.node, m, t, k, e, pos[net[j].to].lane,
          net[j].msg.num, pos[net[j].to].idx, net[j].msg);
    }
    EmitNewAttached(ports, sent, pos, transit, cargo, bs, ds, ev.to.node, m, t, k, e);
  }

  lemma EmitNewAttached(ports: Ports, sent: Logs, pos: Positions, transit: Transits, cargo: Cargos, bs: seq<Addr>,
      ds: seq<Descriptor>, node: nat, m: LaneId, t: nat, k: nat, e: Entry)
    requires m in sent && k == |sent[m]| && Attachable(pos, transit, cargo, bs, ds, node, m, t)
    requires |e.ends| == |bs| && forall i :: 0 <= i < |bs| ==> e.ends[i] == pos[bs[i]].lane
    ensures Attached(ports, pos, transit, Load(cargo, bs, m, k), Sent(sent, m, e), m, k, t, Message(k, e.payload,
        bs, ds))
    ensures FlyingPorts(node, transit, Message(k, e.payload, bs, ds))
  {
    LoadLists(cargo, bs, m, k);
  }

  lemma EmitQueuedCargo(ports: Ports, sent: Logs, pos: Positions, transit: Transits, cargo: Cargos, bs: seq<Addr>,
      ds: seq<Descriptor>, node: nat, m: LaneId, t: nat, k: nat, e: Entry)
    requires QueuedCargo(ports, pos, transit, cargo, sent) && m in sent && Attachable(pos, transit, cargo, bs, ds,
        node, m, t)
    ensures QueuedCargo(ports, pos, transit, Load(cargo, bs, m, k), Sent(sent, m, e))
  {
    hide Attachable, Attached;
    forall a, j | a in ports && j in ports[a].queue.pending
      ensures Attached(ports, pos, transit, Load(cargo, bs, m, k), Sent(sent, m, e), pos[a].lane, j, pos[a].idx,
          ports[a].queue.pending[j])
    {
      EmitAttached(ports, sent, pos, transit, cargo, bs, ds, node, m, t, k, e, pos[a].lane, j, pos[a].idx,
          ports[a].queue.pending[j]);
    }
  }

  lemma EmitManifest(ports: Ports, net: Net, chain: Chains, place: Places, pos: Positions, transit: Transits,
      cargo: Cargos, bs: seq<Addr>, ds: seq<Descriptor>, node: nat, m: LaneId, t: nat, k: nat, id: nat, ev: Event)
    requires Manifest(net, ports, chain, cargo, place) && m in place && |place[m]| == k && id !in net &&
        ev.User? && ev.msg.ports == bs
    requires Attachable(pos, transit, cargo, bs, ds, node, m, t)
    ensures Manifest(net[id := ev], ports, chain, Load(cargo, bs, m, k), Launched(place, m, Flying(id, t)))
  {
    LoadLists(cargo, bs, m, k);
    var net', place', cargo' := net[id := ev], Launched(place, m, Flying(id, t)), Load(cargo, bs, m, k);
    forall c | c in cargo'
      ensures Listed(net', ports, chain, place', c, cargo'[c])
    {
      if c in bs {
        var i :| 0 <= i < |bs| && bs[i] == c;
      } else {
        assert Listed(net, ports, chain, place, c, cargo[c]);
      }
    }
  }

  lemma KeepNextSend(ports: Ports, net: Net, chain: Chains, nexts: Nums, routed: Nums, sent: Logs,
      closed: set<LaneId>, pos: Positions, transit: Transits, cargo: Cargos, token: Tokens, busy: set<Addr>,
      a: Addr, q: Port)
    requires a in ports && q == ports[a].(nextSend := q.nextSend)
    requires Known(ports, transit, cargo, token, pos) && Senders(ports, pos, chain) &&
        Waiting(ports, pos, chain, transit, token) && Nexts(ports, pos, nexts) && Ends(ports, transit, chain,
        closed) && Travellers(ports, transit, pos, chain, nexts, routed, sent, closed, token) &&
        Gone(ports, transit, chain, nexts, routed, sent, closed) && Closures(net, ports, transit, pos, chain,
        routed, sent, closed) && Lasts(ports, transit, pos, chain, routed, sent, closed) &&
        TravelLasts(ports, transit, pos, chain, sent, closed)
    requires AcceptTokens(net, ports, transit, pos, chain, token) && ProxyTokens(ports, transit, pos, chain,
        token) && ParkedAcks(ports, token) && Heralds(net, ports, transit, chain, routed, closed, busy)
    ensures var ports' := ports[a := q];
            Known(ports', transit, cargo, token, pos) && Senders(ports', pos, chain) && Waiting(ports', pos, chain,
            transit, token) && Nexts(ports', pos, nexts) &&
            Ends(ports', transit, chain, closed) && Travellers(ports', transit, pos, chain, nexts, routed, sent,
            closed, token) && Gone(ports', transit, chain, nexts, routed, sent, closed) &&
            Closures(net, ports', transit, pos, chain, routed, sent, closed) &&
            Lasts(ports', transit, pos, chain, routed, sent, closed) && TravelLasts(ports', transit, pos, chain,
            sent, closed) && AcceptTokens(net, ports', transit, pos, chain, token) &&
            ProxyTokens(ports', transit, pos, chain, token) && ParkedAcks(ports', token) &&
            Heralds(net, ports', transit, chain, routed, closed, busy)
  {
    hide Lanes, Chained, Named, Known, Ids, Receivers, Senders, Nexts, Ends, Travellers, Waiting, Targets, Numbers,
        Placement, Reading, Gone, Lasts, TravelLasts, Closures, Flights, Mail, Queues, Pending, FlyingCargo,
        QueuedCargo, Manifest, Unheld, AcceptTokens, Announcements, Acks, ParkedAcks, ProxyTokens, Heralds;
    KeepKnown(ports, pos, transit, cargo, token, a, q);
    KeepSenders(ports, chain, pos, transit, token, a, q);
    KeepNexts(ports, nexts, pos, a, q);
    KeepEnds(ports, chain, closed, transit, a, q);
    KeepTravellers(ports, chain, nexts, routed, sent, closed, pos, transit, token, a, q);
    KeepGone(ports, net, chain, nexts, routed, sent, closed, pos, transit, a, q);
    KeepLasts(ports, chain, routed, sent, closed, pos, transit, a, q);
    KeepAcceptTokens(ports, net, chain, pos, transit, token, a, q);
    KeepProxyTokens(ports, chain, pos, transit, token, a, q);
    KeepHeralds(ports, net, chain, routed, closed, transit, busy, a, q);
  }

  lemma KeepContents(ports: Ports, net: Net, chain: Chains, sent: Logs, place: Places, pos: Positions,
      transit: Transits, cargo: Cargos, a: Addr, q: Port)
    requires a in ports && q == ports[a].(nextSend := q.nextSend, peer := q.peer)
    requires Queues(ports, chain, sent, place) && Pending(ports, pos, place) && Manifest(net, ports, chain, cargo,
        place) && FlyingCargo(net, ports, pos, transit, cargo, sent) && QueuedCargo(ports, pos, transit, cargo,
        sent) && Unheld(ports, cargo)
    ensures var ports' := ports[a := q];
            Queues(ports', chain, sent, place) && Pending(ports', pos, place) && Manifest(net, ports', chain, cargo,
            place) &&
            FlyingCargo(net, ports', pos, transit, cargo, sent) && QueuedCargo(ports', pos, transit, cargo,
            sent) && Unheld(ports', cargo)
  {
    hide Lanes, Chained, Named, Known, Ids, Receivers, Senders, Nexts, Ends, Travellers, Waiting, Targets, Numbers,
        Placement, Reading, Gone, Lasts, TravelLasts, Closures, Flights, Mail, Queues, Pending, FlyingCargo,
        QueuedCargo, Manifest, Unheld, AcceptTokens, Announcements, Acks, ParkedAcks, ProxyTokens, Heralds;
    KeepQueues(ports, chain, sent, place, a, q);
    KeepPending(ports, place, pos, a, q);
    KeepManifest(ports, net, chain, place, cargo, a, q);
    KeepFlyingCargo(ports, net, sent, pos, transit, cargo, a, q);
    KeepQueuedCargo(ports, sent, pos, transit, cargo, a, q);
  }

  /** What the end of a lane must be able to do for a message to be sent. */
  ghost predicate Emits(s: State, a: Addr, bs: seq<Addr>, ds: seq<Descriptor>) {
    SendablePort(s, a) && !s.ports[a].peerClosed && s.ports[a].nextSend < INVALID_SEQUENCE_NUM &&
    var m := s.h.pos[a].lane.Other();
    m in s.h.routed &&
    Attachable(s.h.pos, s.h.transit, s.h.cargo, bs, ds, s.ports[a].peer.node, m, |s.h.routed[m]|)
  }

  lemma EmitTrunk(s: State, a: Addr, payload: Payload, bs: seq<Addr>, ds: seq<Descriptor>)
    requires Core(s) && Heralding(s, {}) && Emits(s, a, bs, ds)
    ensures var t := Emit(s, a, payload, bs, ds);
            Base(t) && Shape(t) && Ending(t) && Tokening(t) && Heralding(t, {})
  {
    hide Lanes, Chained, Named, Known, Ids, Receivers, Senders, Nexts, Ends, Travellers, Waiting, Targets, Numbers,
        Placement, Reading, Gone, Lasts, TravelLasts, Closures, Flights, Mail, Queues, Pending, FlyingCargo,
        QueuedCargo, Manifest, Unheld, AcceptTokens, Announcements, Acks, ParkedAcks, ProxyTokens, Heralds,
        Attachable, MayEmit;
    var t := Emit(s, a, payload, bs, ds);
    var m, k, q := s.h.pos[a].lane.Other(), s.ports[a].nextSend, t.ports[a];
    var r, e, p := |s.h.routed[m]|, Entry(payload, LanesOf(s.h, bs)), Flying(s.nextId, |s.h.routed[m]|);
    var ports', ev := s.ports[a := q], User(s.ports[a].peer, Message(k, payload, bs, ds));
    EndMayEmit(s.ports, s.h.chain, s.h.routed, s.h.sent, s.h.closed, s.h.pos, a);
    KeepNextSend(s.ports, s.net, s.h.chain, s.h.nexts, s.h.routed, s.h.sent, s.h.closed, s.h.pos, s.h.transit,
        s.h.cargo, s.h.token, {}, a, q);
    EmitLanes(s.ports, s.h.chain, s.h.nexts, s.h.routed, s.h.sent, s.h.place, s.h.read, s.h.closed, s.h.pos,
        s.nextName, a, m, r, k, e, p);
    EmitKnown(ports', s.h.pos, s.h.transit, s.h.cargo, s.h.token, bs, ds, s.ports[a].peer.node, m, r,
        k) by { KeepContents(s.ports, s.net, s.h.chain, s.h.sent, s.h.place, s.h.pos, s.h.transit, s.h.cargo, a, q); }
    EmitReceivers(s.ports, s.h.chain, s.h.routed, s.h.sent, s.h.closed, s.h.pos, a, m, r, k, e, q);
    EmitTravellers(s.ports, s.h.chain, s.h.nexts, s.h.routed, s.h.sent, s.h.closed, s.h.pos, s.h.transit, s.h.cargo,
        s.h.token, a, m, r, k, e);
    KeepTravellers(s.ports, s.h.chain, s.h.nexts, s.h.routed, t.h.sent, s.h.closed, s.h.pos, s.h.transit, s.h.token,
        a, q);
    EmitGone(s.ports, s.net, s.h.chain, s.h.nexts, s.h.routed, s.h.sent, s.h.closed, s.h.pos, s.h.transit,
        s.h.cargo, s.h.token, a, m, r, k, e);
    KeepGone(s.ports, s.net, s.h.chain, s.h.nexts, s.h.routed, t.h.sent, s.h.closed, s.h.pos, s.h.transit, a,
        q) by { EmitLasts(s.ports, s.h.chain, s.h.routed, s.h.sent, s.h.closed, s.h.pos, s.h.transit, s.h.cargo,
        s.h.token, a, m, r, k, e); }
    EmitLasts(s.ports, s.h.chain, s.h.routed, s.h.sent, s.h.closed, s.h.pos, s.h.transit, s.h.cargo, s.h.token, a,
        m, r, k, e);
    KeepLasts(s.ports, s.h.chain, s.h.routed, t.h.sent, s.h.closed, s.h.pos, s.h.transit, a, q);
    PostUser(ports', s.net, s.h.chain, s.h.routed, t.h.sent, s.h.closed, s.h.pos, s.h.transit, s.h.token, s.nextId,
        {}, ev);
  }

  lemma EmitRest(s: State, a: Addr, payload: Payload, bs: seq<Addr>, ds: seq<Descriptor>)
    requires Core(s) && Emits(s, a, bs, ds)
    ensures var t := Emit(s, a, payload, bs, ds);
            Counting(t) && Posting(t) && Carrying(t)
  {
    hide Lanes, Chained, Named, Known, Ids, Receivers, Senders, Nexts, Ends, Travellers, Waiting, Targets, Numbers,
        Placement, Reading, Gone, Lasts, TravelLasts, Closures, Flights, Mail, Queues, Pending, FlyingCargo,
        QueuedCargo, Manifest, Unheld, AcceptTokens, Announcements, Acks, ParkedAcks, ProxyTokens, Heralds,
        Attachable, MayEmit;
    var t := Emit(s, a, payload, bs, ds);
    var m, k, q := s.h.pos[a].lane.Other(), s.ports[a].nextSend, t.ports[a];
    var r, e, p := |s.h.routed[m]|, Entry(payload, LanesOf(s.h, bs)), Flying(s.nextId, |s.h.routed[m]|);
    var ev, node := User(s.ports[a].peer, Message(k, payload, bs, ds)), s.ports[a].peer.node;
    EndMayEmit(s.ports, s.h.chain, s.h.routed, s.h.sent, s.h.closed, s.h.pos, a);
    EmitFacts(s.ports, s.h.chain, s.h.nexts, s.h.routed, s.h.sent, s.h.place, s.h.read, s.h.closed, s.h.pos,
        s.nextName, a, m, r, k);
    AttachableEnds(s.h, bs, ds, node, m, r);
    PostId(s.net, s.nextId, ev);
    EmitNumbers(s.h.chain, s.h.nexts, s.h.routed, s.h.sent, m, e);
    EmitPlacement(s.ports, s.h.chain, s.h.nexts, s.h.routed, s.h.sent, s.h.place, s.h.closed, s.h.pos, s.h.transit,
        a, m, r, k, e, s.nextId);
    EmitReading(s.h.chain, s.h.nexts, s.h.sent, s.h.place, s.h.read, s.h.closed, m, e, p);
    EmitContents(s, a, payload, bs, ds);
  }

  lemma EmitFacts(ports: Ports, chain: Chains, nexts: Nums, routed: Nums, sent: Logs, place: Places, read: Logs,
      closed: set<LaneId>, pos: Positions, name: nat, a: Addr, m: LaneId, t: nat, k: nat)
    requires MayEmit(ports, pos, chain, routed, sent, closed, a, m, t, k) && Lanes(chain, nexts, routed, sent,
        place, read, closed, name) && Chained(chain, pos)
    ensures m in chain && m in place && m in sent && t < |chain[m]| && |place[m]| == |sent[m]| == k
    ensures ports[a].peer == chain[m][t] && ports[a].peer in pos && pos[ports[a].peer] == Pos(m, t)
  {
  }

  lemma AttachableEnds(h: History, bs: seq<Addr>, ds: seq<Descriptor>, node: nat, m: LaneId, t: nat)
    requires Attachable(h.pos, h.transit, h.cargo, bs, ds, node, m, t)
    ensures |LanesOf(h, bs)| == |bs| == |ds|
    ensures forall i :: 0 <= i < |bs| ==> bs[i] in h.pos && LanesOf(h, bs)[i] == h.pos[bs[i]].lane
  {
  }

  lemma EmitContents(s: State, a: Addr, payload: Payload, bs: seq<Addr>, ds: seq<Descriptor>)
    requires Core(s) && Emits(s, a, bs, ds)
    ensures var t := Emit(s, a, payload, bs, ds);
            Posting(t) && Carrying(t)
  {
    hide Lanes, Chained, Named, Known, Ids, Receivers, Senders, Nexts, Ends, Travellers, Waiting, Targets, Numbers,
        Placement, Reading, Gone, Lasts, TravelLasts, Closures, Flights, Mail, Queues, Pending, FlyingCargo,
        QueuedCargo, Manifest, Unheld, AcceptTokens, Announcements, Acks, ParkedAcks, ProxyTokens, Heralds,
        Attachable, MayEmit;
    var t := Emit(s, a, payload, bs, ds);
    var m, k, q := s.h.pos[a].lane.Other(), s.ports[a].nextSend, t.ports[a];
    var r, e, p := |s.h.routed[m]|, Entry(payload, LanesOf(s.h, bs)), Flying(s.nextId, |s.h.routed[m]|);
    var ports', ev, node := s.ports[a := q], User(s.ports[a].peer, Message(k, payload, bs, ds)), s.ports[a].peer.node;
    EndMayEmit(s.ports, s.h.chain, s.h.routed, s.h.sent, s.h.closed, s.h.pos, a);
    EmitFacts(s.ports, s.h.chain, s.h.nexts, s.h.routed, s.h.sent, s.h.place, s.h.read, s.h.closed, s.h.pos,
        s.nextName, a, m, r, k);
    AttachableEnds(s.h, bs, ds, node, m, r);
    PostId(s.net, s.nextId, ev);
    KeepContents(s.ports, s.net, s.h.chain, s.h.sent, s.h.place, s.h.pos, s.h.transit, s.h.cargo, a, q);
    EmitFlights(s.ports, s.net, s.h.chain, s.h.routed, s.h.sent, s.h.place, s.h.closed, s.h.pos, a, m, r, k, e,
        s.nextId, ev);
    EmitMail(s.net, s.h.chain, s.h.place, s.h.pos, m, r, k, s.nextId, ev);
    EmitQueues(ports', s.h.chain, s.h.sent, s.h.place, s.h.pos, m, e, p);
    EmitKnown(ports', s.h.pos, s.h.transit, s.h.cargo, s.h.token, bs, ds, node, m, r, k) by { KeepKnown(s.ports,
        s.h.pos, s.h.transit, s.h.cargo, s.h.token, a, q); }
    EmitFlyingCargo(ports', s.net, s.h.sent, s.h.pos, s.h.transit, s.h.cargo, bs, ds, m, r, k, e, s.nextId, ev);
    EmitQueuedCargo(ports', s.h.sent, s.h.pos, s.h.transit, s.h.cargo, bs, ds, node, m, r, k, e);
    EmitManifest(ports', s.net, s.h.chain, s.h.place, s.h.pos, s.h.transit, s.h.cargo, bs, ds, node, m, r, k,
        s.nextId, ev);
  }
}
