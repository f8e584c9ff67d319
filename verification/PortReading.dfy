/** A message is read at the end of a lane, and the ports it carries go to the reader. */
module PortReading {
  import opened PortState
  import opened PortSteps
  import opened PortInvariant
  import opened PortFrames
  import opened PortForward
  import opened PortMessages

  // ----- TakeMessage -----

  /** Port x, the receiving end of lane m, reads message k. */
  ghost predicate Reads(ports: Ports, pos: Positions, chain: Chains, nexts: Nums, place: Places,
                        x: Addr, m: LaneId, i: nat, k: nat)
  {
    IsNext(ports, pos, nexts, place, x, m, i, k) && ports[x].mode.Receiving? && m in chain &&
        i + 1 == |chain[m]| == |nexts[m]| && chain[m][i] == x
  }

  lemma ReadsNext(ports: Ports, chain: Chains, nexts: Nums, routed: Nums, sent: Logs, place: Places, read: Logs,
      closed: set<LaneId>, pos: Positions, name: nat, x: Addr)
    requires x in ports && ports[x].mode.Receiving? && HasNext(ports[x])
    requires Nexts(ports, pos, nexts) && Pending(ports, pos, place) && Receivers(ports, pos, chain, routed, sent,
        closed) && Lanes(chain, nexts, routed, sent, place, read, closed, name) && Chained(chain, pos)
    ensures x in pos && pos[x].lane !in closed && Reads(ports, pos, chain, nexts, place, x, pos[x].lane, pos[x].idx,
        ports[x].queue.next)
  {
  }

  lemma ReadLanes(chain: Chains, nexts: Nums, routed: Nums, sent: Logs, place: Places, read: Logs,
      closed: set<LaneId>, name: nat, m: LaneId, i: nat, k: nat, e: Entry)
    requires Lanes(chain, nexts, routed, sent, place, read, closed, name) && m in read && m in nexts &&
        i < |nexts[m]| && m in place && k < |place[m]|
    ensures Lanes(chain, nexts[m := Set(nexts[m], i, k + 1)], routed, sent, place[m := place[m][k := Read]],
        read[m := read[m] + [e]], closed, name)
  {
    AdvanceLanes(chain, nexts, routed, sent, place, read, closed, name, m, i, k, Read);
    assert read[m := read[m] + [e]].Keys == read.Keys;
  }

  /** The end of lane m is here, so no port of lane m is on its way. */
  lemma ReadTravellers(ports: Ports, chain: Chains, nexts: Nums, routed: Nums, sent: Logs, place: Places,
      closed: set<LaneId>, pos: Positions, transit: Transits, cargo: Cargos, token: Tokens, x: Addr, m: LaneId,
      i: nat, k: nat)
    requires Reads(ports, pos, chain, nexts, place, x, m, i, k) && Travellers(ports, transit, pos, chain, nexts,
        routed, sent, closed, token) && Known(ports, transit, cargo, token, pos) && Chained(chain, pos)
    ensures Travellers(ports, transit, pos, chain, nexts[m := Set(nexts[m], i, k + 1)], routed, sent, closed, token)
  {
    forall b | b in transit
      ensures Travels(ports, pos, chain, nexts[m := Set(nexts[m], i, k + 1)], routed, sent, closed, token, b,
          transit[b])
    {
      assert Travels(ports, pos, chain, nexts, routed, sent, closed, token, b, transit[b]);
      assert pos[b].lane != m;
    }
  }

  lemma ReadReading(ports: Ports, chain: Chains, nexts: Nums, sent: Logs, place: Places, read: Logs,
      closed: set<LaneId>, pos: Positions, x: Addr, m: LaneId, i: nat, k: nat)
    requires Reads(ports, pos, chain, nexts, place, x, m, i, k) && Reading(chain, nexts, sent, place, read,
        closed) && m in read && m in sent && k < |sent[m]|
    ensures Reading(chain, nexts[m := Set(nexts[m], i, k + 1)], sent, place[m := place[m][k := Read]],
        read[m := read[m] + [sent[m][k]]], closed)
  {
    assert sent[m][..k + 1] == sent[m][..k] + [sent[m][k]];
  }

  lemma ReadMail(ports: Ports, net: Net, chain: Chains, nexts: Nums, sent: Logs, place: Places, pos: Positions,
      x: Addr, m: LaneId, i: nat, k: nat)
    requires Reads(ports, pos, chain, nexts, place, x, m, i, k) && Mail(net, pos, place) &&
        Flights(net, chain, sent, place)
    ensures Mail(net, pos, place[m := place[m][k := Read]]) &&
        Flights(net, chain, sent, place[m := place[m][k := Read]])
  {
  }

  /** What is read is the entry that was sent under this number. */
  lemma ReadEntry(ports: Ports, chain: Chains, nexts: Nums, sent: Logs, place: Places, pos: Positions,
      transit: Transits, cargo: Cargos, x: Addr, m: LaneId, i: nat, k: nat, lanes: seq<LaneId>)
    requires Reads(ports, pos, chain, nexts, place, x, m, i, k) && Queues(ports, chain, sent, place) &&
        QueuedCargo(ports, pos, transit, cargo, sent)
    requires var bs := ports[x].queue.pending[k].ports;
             |lanes| == |bs| && forall j :: 0 <= j < |bs| && bs[j] in pos ==> lanes[j] == pos[bs[j]].lane
    ensures m in sent && k < |sent[m]| && sent[m][k] == Entry(ports[x].queue.pending[k].payload, lanes)
  {
    var msg := ports[x].queue.pending[k];
    assert Carries(msg, k, sent[m][k]);
    assert Attached(ports, pos, transit, cargo, sent, m, k, i, msg);
    assert lanes == sent[m][k].ends;
  }

  lemma UnloadFlying(ports: Ports, net: Net, sent: Logs, place: Places, pos: Positions, transit: Transits,
      cargo: Cargos, m: LaneId, k: nat, at: nat, msg: Message)
    requires FlyingCargo(net, ports, pos, transit, cargo, sent) && Attached(ports, pos, transit, cargo, sent, m, k,
        at, msg) && Mail(net, pos, place)
    requires m in place && k < |place[m]| && !place[m][k].Flying?
    ensures FlyingCargo(net, ports, pos, transit, Unload(cargo, msg.ports), sent)
  {
    forall j | j in net && net[j].User?
      ensures Attached(ports, pos, transit, Unload(cargo, msg.ports), sent, pos[net[j].to].lane, net[j].msg.num,
          pos[net[j].to].idx, net[j].msg)
    {
      assert Attached(ports, pos, transit, cargo, sent, pos[net[j].to].lane, net[j].msg.num, pos[net[j].to].idx,
          net[j].msg);
      OtherMessage(cargo, m, k, msg, pos[net[j].to].lane, net[j].msg.num, net[j].msg);
    }
  }

  lemma PoppedElsewhere(ports: Ports, chain: Chains, nexts: Nums, place: Places, pos: Positions, x: Addr, m: LaneId,
      i: nat, k: nat, q: Port)
    requires IsNext(ports, pos, nexts, place, x, m, i, k) && Chained(chain, pos) && Pending(ports, pos, place) &&
        q.queue.pending == ports[x].queue.pending - {k}
    ensures var ports' := ports[x := q];
            forall a :: a in ports' && k in ports'[a].queue.pending ==> a in pos && pos[a].lane != m
  {
    var ports' := ports[x := q];
    forall a | a in ports' && k in ports'[a].queue.pending
      ensures a in pos && pos[a].lane != m
    {
      if pos[a].lane == m { SameQueue(ports, chain, place, pos, x, a, k); }
    }
  }

  lemma ReadManifest(ports: Ports, net: Net, chain: Chains, nexts: Nums, sent: Logs, place: Places, pos: Positions,
      transit: Transits, cargo: Cargos, x: Addr, m: LaneId, i: nat, k: nat, q: Port)
    requires Reads(ports, pos, chain, nexts, place, x, m, i, k) && Chained(chain, pos) &&
        Manifest(net, ports, chain, cargo, place) && QueuedCargo(ports, pos, transit, cargo, sent)
    requires q.queue.pending == ports[x].queue.pending - {k}
    ensures Manifest(net, ports[x := q], chain, Unload(cargo, ports[x].queue.pending[k].ports),
        place[m := place[m][k := Read]])
  {
    var ports', place' := ports[x := q], place[m := place[m][k := Read]];
    var msg := ports[x].queue.pending[k];
    assert Attached(ports, pos, transit, cargo, sent, m, k, i, msg);
    forall c | c in cargo && (cargo[c].lane != m || cargo[c].num != k) && Listed(net, ports, chain, place, c,
        cargo[c])
      ensures Listed(net, ports', chain, place', c, cargo[c])
    {
      var p := place[cargo[c].lane][cargo[c].num];
      if p.Queued? && chain[cargo[c].lane][p.at] == x {
        assert pos[x] == Pos(cargo[c].lane, p.at);
      }
    }
    forall c | c in cargo && cargo[c].lane == m && cargo[c].num == k
      ensures c in msg.ports
    {
      assert Listed(net, ports, chain, place, c, cargo[c]);
    }
    UnloadManifest(ports, net, chain, sent, place, pos, transit, cargo, m, k, i, msg, net, ports', place');
  }

  lemma TakeTrunk(s: State, x: Addr)
    requires Core(s) && Heralding(s, {}) && Readable(s, x)
    ensures var t := TakeMessage(s, x);
            Base(t) && Shape(t) && Ending(t) && Tokening(t) && Heralding(t, {})
  {
    hide Lanes, Chained, Named, Known, Ids, Receivers, Senders, Nexts, Ends, Travellers, Waiting, Targets, Numbers,
        Placement, Reading, Gone, Lasts, TravelLasts, Closures, Flights, Mail, Queues, Pending, FlyingCargo,
        QueuedCargo, Manifest, Unheld, AcceptTokens, Announcements, Acks, ParkedAcks, ProxyTokens, Heralds;
    var m, i, k, q := s.h.pos[x].lane, s.h.pos[x].idx, s.ports[x].queue.next, Popped(s.ports[x]);
    var ports', e := s.ports[x := q], Entry(s.ports[x].queue.pending[k].payload, LanesOf(s.h,
        s.ports[x].queue.pending[k].ports));
    ReadsNext(s.ports, s.h.chain, s.h.nexts, s.h.routed, s.h.sent, s.h.place, s.h.read, s.h.closed, s.h.pos,
        s.nextName, x);
    RequeueShape(s.ports, s.net, s.h.chain, s.h.nexts, s.h.routed, s.h.sent, s.h.closed, s.h.pos, s.h.transit,
        s.h.cargo, s.h.token, x, q);
    RequeueEnding(s.ports, s.net, s.h.chain, s.h.nexts, s.h.routed, s.h.sent, s.h.closed, s.h.pos, s.h.transit, {},
        x, q);
    PopNexts(s.ports, s.h.chain, s.h.nexts, s.h.place, s.h.pos, x, m, i, k, q);
    ReadTravellers(s.ports, s.h.chain, s.h.nexts, s.h.routed, s.h.sent, s.h.place, s.h.closed, s.h.pos, s.h.transit,
        s.h.cargo, s.h.token, x, m, i, k);
    KeepTravellers(s.ports, s.h.chain, TakeMessage(s, x).h.nexts, s.h.routed, s.h.sent, s.h.closed, s.h.pos,
        s.h.transit, s.h.token, x, q);
    AdvanceGone(ports', s.h.chain, s.h.nexts, s.h.routed, s.h.sent, s.h.closed, s.h.pos, s.h.transit, x, m, i, k);
    ReadLanes(s.h.chain, s.h.nexts, s.h.routed, s.h.sent, s.h.place, s.h.read, s.h.closed, s.nextName, m, i, k, e);
    KnownUnload(ports', s.h.pos, s.h.transit, s.h.cargo, s.h.token,
        s.ports[x].queue.pending[k].ports) by { KeepFlyingCargo(s.ports, s.net, s.h.sent, s.h.pos, s.h.transit,
        s.h.cargo, x, q); }
  }

  lemma TakeRest(s: State, x: Addr)
    requires Core(s) && Readable(s, x)
    ensures var t := TakeMessage(s, x);
            Counting(t) && Posting(t) && Carrying(t)
  {
    hide Lanes, Chained, Named, Known, Ids, Receivers, Senders, Nexts, Ends, Travellers, Waiting, Targets, Numbers,
        Placement, Reading, Gone, Lasts, TravelLasts, Closures, Flights, Mail, Queues, Pending, FlyingCargo,
        QueuedCargo, Manifest, Unheld, AcceptTokens, Announcements, Acks, ParkedAcks, ProxyTokens, Heralds;
    var m, i, k, q := s.h.pos[x].lane, s.h.pos[x].idx, s.ports[x].queue.next, Popped(s.ports[x]);
    var msg := s.ports[x].queue.pending[k];
    ReadsNext(s.ports, s.h.chain, s.h.nexts, s.h.routed, s.h.sent, s.h.place, s.h.read, s.h.closed, s.h.pos,
        s.nextName, x);
    ReadEntry(s.ports, s.h.chain, s.h.nexts, s.h.sent, s.h.place, s.h.pos, s.h.transit, s.h.cargo, x, m, i, k,
        LanesOf(s.h, msg.ports));
    AdvanceNumbers(s.h.chain, s.h.nexts, s.h.routed, s.h.sent, s.h.place, s.h.transit, m, i, k);
    ReadPlacement(s.h.chain, s.h.nexts, s.h.routed, s.h.sent, s.h.place, s.h.transit, m, i, k);
    ReadReading(s.ports, s.h.chain, s.h.nexts, s.h.sent, s.h.place, s.h.read, s.h.closed, s.h.pos, x, m, i, k);
    ReadMail(s.ports, s.net, s.h.chain, s.h.nexts, s.h.sent, s.h.place, s.h.pos, x, m, i, k);
    PopQueues(s.ports, s.h.chain, s.h.nexts, s.h.sent, s.h.place, s.h.pos, x, m, i, k, q, Read);
    PopPending(s.ports, s.h.chain, s.h.nexts, s.h.place, s.h.pos, x, m, i, k, q, Read);
    TakeCargo(s, x);
  }

  lemma TakeCargo(s: State, x: Addr)
    requires Core(s) && Readable(s, x)
    ensures Carrying(TakeMessage(s, x))
  {
    hide Lanes, Chained, Named, Known, Ids, Receivers, Senders, Nexts, Ends, Travellers, Waiting, Targets, Numbers,
        Placement, Reading, Gone, Lasts, TravelLasts, Closures, Flights, Mail, Queues, Pending, FlyingCargo,
        QueuedCargo, Manifest, Unheld, AcceptTokens, Announcements, Acks, ParkedAcks, ProxyTokens, Heralds, Attached;
    var m, i, k, q := s.h.pos[x].lane, s.h.pos[x].idx, s.ports[x].queue.next, Popped(s.ports[x]);
    var msg, ports' := s.ports[x].queue.pending[k], s.ports[x := q];
    ReadsNext(s.ports, s.h.chain, s.h.nexts, s.h.routed, s.h.sent, s.h.place, s.h.read, s.h.closed, s.h.pos,
        s.nextName, x);
    QueuedOf(s.ports, s.h.sent, s.h.pos, s.h.transit, s.h.cargo, x, k);
    PopQueuedCargo(s.ports, s.net, s.h.sent, s.h.pos, s.h.transit, s.h.cargo, x, q, k);
    RequeueAttached(s.ports, s.h.sent, s.h.pos, s.h.transit, s.h.cargo, x, q, m, k, i, msg);
    PoppedElsewhere(s.ports, s.h.chain, s.h.nexts, s.h.place, s.h.pos, x, m, i, k, q);
    UnloadQueued(ports', s.h.sent, s.h.pos, s.h.transit, s.h.cargo, m, k, i, msg);
    UnloadFlying(ports', s.net, s.h.sent, s.h.place, s.h.pos, s.h.transit, s.h.cargo, m, k, i, msg);
    KnownUnload(ports', s.h.pos, s.h.transit, s.h.cargo, s.h.token, msg.ports) by { KeepKnown(s.ports, s.h.pos,
        s.h.transit, s.h.cargo, s.h.token, x, q); }
    ReadManifest(s.ports, s.net, s.h.chain, s.h.nexts, s.h.sent, s.h.place, s.h.pos, s.h.transit, s.h.cargo, x, m,
        i, k, q);
  }

  lemma QueuedOf(ports: Ports, sent: Logs, pos: Positions, transit: Transits, cargo: Cargos, x: Addr, k: nat)
    requires QueuedCargo(ports, pos, transit, cargo, sent) && x in ports && k in ports[x].queue.pending
    ensures x in pos && Attached(ports, pos, transit, cargo, sent, pos[x].lane, k, pos[x].idx,
        ports[x].queue.pending[k])
    ensures LandedPorts(x.node, ports, ports[x].queue.pending[k])
  {
  }

  // ----- ClaimPorts -----

  predicate Claims(ports: Ports, cargo: Cargos, b: Addr, q: Port) {
    b in ports && ports[b].mode.Receiving? && b !in cargo && q == ports[b].(signalable := true)
  }

  lemma ClaimCargo(ports: Ports, net: Net, sent: Logs, pos: Positions, transit: Transits, cargo: Cargos, b: Addr,
      q: Port)
    requires Claims(ports, cargo, b, q) && FlyingCargo(net, ports, pos, transit, cargo, sent) &&
        QueuedCargo(ports, pos, transit, cargo, sent) && Unheld(ports, cargo)
    ensures FlyingCargo(net, ports[b := q], pos, transit, cargo, sent) && QueuedCargo(ports[b := q], pos, transit,
        cargo, sent) && Unheld(ports[b := q], cargo)
  {
  }

  lemma ClaimParts(ports: Ports, net: Net, chain: Chains, nexts: Nums, routed: Nums, sent: Logs, place: Places,
      closed: set<LaneId>, pos: Positions, transit: Transits, cargo: Cargos, token: Tokens, b: Addr, q: Port)
    requires b in ports && q == ports[b].(signalable := true)
    requires Known(ports, transit, cargo, token, pos) && Receivers(ports, pos, chain, routed, sent, closed) &&
        Senders(ports, pos, chain) && Waiting(ports, pos, chain, transit, token) && Nexts(ports, pos, nexts) &&
        Ends(ports, transit, chain, closed) && Travellers(ports, transit, pos, chain, nexts, routed, sent, closed,
        token)
    requires Queues(ports, chain, sent, place) && Pending(ports, pos, place) && Manifest(net, ports, chain, cargo,
        place) && AcceptTokens(net, ports, transit, pos, chain, token) && ProxyTokens(ports, transit, pos, chain,
        token) && ParkedAcks(ports, token)
    ensures var ports' := ports[b := q];
            Known(ports', transit, cargo, token, pos) && Receivers(ports', pos, chain, routed, sent, closed) &&
            Senders(ports', pos, chain) && Waiting(ports', pos, chain, transit, token) &&
            Nexts(ports', pos, nexts) && Ends(ports', transit, chain, closed) && Travellers(ports', transit, pos,
            chain, nexts, routed, sent, closed, token) && Queues(ports', chain, sent, place) &&
            Pending(ports', pos, place) && Manifest(net, ports', chain, cargo, place) &&
            AcceptTokens(net, ports', transit, pos, chain, token) &&
            ProxyTokens(ports', transit, pos, chain, token) && ParkedAcks(ports', token)
  {
    hide Lanes, Chained, Named, Known, Ids, Receivers, Senders, Nexts, Ends, Travellers, Waiting, Targets, Numbers,
        Placement, Reading, Gone, Lasts, TravelLasts, Closures, Flights, Mail, Queues, Pending, FlyingCargo,
        QueuedCargo, Manifest, Unheld, AcceptTokens, Announcements, Acks, ParkedAcks, ProxyTokens, Heralds;
    KeepKnown(ports, pos, transit, cargo, token, b, q);
    KeepReceivers(ports, chain, routed, sent, closed, pos, b, q);
    KeepSenders(ports, chain, pos, transit, token, b, q);
    KeepNexts(ports, nexts, pos, b, q);
    KeepEnds(ports, chain, closed, transit, b, q);
    KeepTravellers(ports, chain, nexts, routed, sent, closed, pos, transit, token, b, q);
    KeepQueues(ports, chain, sent, place, b, q);
    KeepPending(ports, place, pos, b, q);
    KeepManifest(ports, net, chain, place, cargo, b, q);
    KeepAcceptTokens(ports, net, chain, pos, transit, token, b, q);
    KeepProxyTokens(ports, chain, pos, transit, token, b, q);
  }

  lemma ClaimKeeps(s: State, b: Addr, q: Port)
    requires Core(s) && Heralding(s, {}) && Claims(s.ports, s.h.cargo, b, q)
    ensures var t := s.(ports := s.ports[b := q]);
            Core(t) && Heralding(t, {})
  {
    hide Lanes, Chained, Named, Known, Ids, Receivers, Senders, Nexts, Ends, Travellers, Waiting, Targets, Numbers,
        Placement, Reading, Gone, Lasts, TravelLasts, Closures, Flights, Mail, Queues, Pending, FlyingCargo,
        QueuedCargo, Manifest, Unheld, AcceptTokens, Announcements, Acks, ParkedAcks, ProxyTokens, Heralds;
    ClaimParts(s.ports, s.net, s.h.chain, s.h.nexts, s.h.routed, s.h.sent, s.h.place, s.h.closed, s.h.pos,
        s.h.transit, s.h.cargo, s.h.token, b, q);
    ClaimCargo(s.ports, s.net, s.h.sent, s.h.pos, s.h.transit, s.h.cargo, b, q);
    KeepLasts(s.ports, s.h.chain, s.h.routed, s.h.sent, s.h.closed, s.h.pos, s.h.transit, b, q);
    KeepGone(s.ports, s.net, s.h.chain, s.h.nexts, s.h.routed, s.h.sent, s.h.closed, s.h.pos, s.h.transit, b, q);
    KeepHeralds(s.ports, s.net, s.h.chain, s.h.routed, s.h.closed, s.h.transit, {}, b, q);
  }
}
