/** Delivering user messages, and the word that a port has landed, makes progress too; so delivery
 ends, and a pipe that was transferred once is then as short as it was. */
module PortArrivals {
  import opened PortState
  import opened PortSteps
  import opened PortInvariant
  import opened PortProxy
  import opened PortForward
  import opened PortMessages
  import opened PortSettled
  import opened PortDraining
  import opened PortHandlers
  import opened PortClosing
  import opened PortDelivery
  import opened PortSteady
  import opened PortSteadyRuns
  import opened PortProgress

  // ----- Forwarding -----

  /** The messages at a port carry nothing. */
  ghost predicate Plain(ports: Ports, x: Addr) {
    x in ports && forall k :: k in ports[x].queue.pending ==> ports[x].queue.pending[k].ports == []
  }

  function FirstOr(bs: seq<Addr>, b: Addr): Addr { if bs == [] then b else bs[0] }

  lemma PlainQueue(ports: Ports, chain: Chains, sent: Logs, pos: Positions, transit: Transits, cargo: Cargos, x: Addr)
    requires Direct(chain, cargo) && QueuedCargo(ports, pos, transit, cargo, sent) && x in ports &&
        !ports[x].mode.Receiving? && Senders(ports, pos, chain)
    ensures Plain(ports, x)
  {
    forall k | k in ports[x].queue.pending
      ensures ports[x].queue.pending[k].ports == []
    {
      var msg := ports[x].queue.pending[k];
      assert Attached(ports, pos, transit, cargo, sent, pos[x].lane, k, pos[x].idx, msg);
      assert msg.ports == [] || FirstOr(msg.ports, x) in cargo;
    }
  }

  /** Only messages at x have moved, each to a later port. */
  ghost predicate OnlyForwarded(s: State, t: State, x: Addr) {
    x in s.ports && x in t.ports && t.ports == s.ports[x := t.ports[x]] && Requeued(s.ports[x], t.ports[x]) &&
    t.h == s.h.(nexts := t.h.nexts, place := t.h.place) &&
    HopsLeft(t.h.chain, t.h.place) <= HopsLeft(s.h.chain, s.h.place) &&
    (t == s || HopsLeft(t.h.chain, t.h.place) < HopsLeft(s.h.chain, s.h.place))
  }

  lemma ForwardedOn(s: State, t: State, u: State, x: Addr)
    requires OnlyForwarded(s, t, x) && OnlyForwarded(t, u, x)
    ensures OnlyForwarded(s, u, x)
  {
    hide HopsLeft;
  }

  lemma HopIsCloser(chain: Chains, place: Places, m: LaneId, k: nat, i: nat, id: nat)
    requires m in chain && m in place && k < |place[m]| && place[m][k] == Queued(i) && i + 1 < |chain[m]|
    ensures HopsLeft(chain, place[m := place[m][k := Flying(id, i + 1)]]) < HopsLeft(chain, place)
  {
    var before, after := HopsLeft(chain, place), HopsLeft(chain, place[m := place[m][k := Flying(id, i + 1)]]);
    assert (m, k, i + 1) in before && (m, k, i + 1) !in after;
  }

  lemma HopForwards(s: State, x: Addr)
    requires Core(s) && Hoppable(s, x) && s.ports[x].mode.Proxying?
    ensures OnlyForwarded(s, Hop(s, x), x)
  {
    hide Lanes, Chained, Named, Known, Ids, Receivers, Senders, Nexts, Ends, Travellers, Waiting, Targets, Numbers,
        Placement, Reading, Gone, Lasts, TravelLasts, Closures, Flights, Mail, Queues, Pending, FlyingCargo,
        QueuedCargo, Manifest, Unheld, AcceptTokens, Announcements, Acks, ParkedAcks, ProxyTokens, Heralds, HopsLeft;
    NextIs(s.ports, s.h.nexts, s.h.place, s.h.pos, x);
    AwayFacts(s.ports, s.h.chain, s.h.pos, s.h.transit, s.h.token, x);
    HopIsCloser(s.h.chain, s.h.place, s.h.pos[x].lane, s.ports[x].queue.next, s.h.pos[x].idx, s.nextId);
  }

  lemma {:induction false} ForwardDirect(s: State, x: Addr, busy: set<Addr>)
    requires Core(s) && Heralding(s, busy) && x in s.ports && s.ports[x].mode.Proxying? && x in s.h.pos
    requires Settling(s, {}, {}, {x}, {}) && Direct(s.h.chain, s.h.cargo)
    ensures OnlyForwarded(s, ForwardMessages(s, x), x)
    decreases |s.ports[x].queue.pending|
  {
    hide Lanes, Chained, Named, Known, Ids, Receivers, Senders, Nexts, Ends, Travellers, Waiting, Targets, Numbers,
        Placement, Reading, Gone, Lasts, TravelLasts, Closures, Flights, Mail, Queues, Pending, FlyingCargo,
        QueuedCargo, Manifest, Unheld, AcceptTokens, Announcements, Acks, ParkedAcks, ProxyTokens, Heralds,
        Heralding, Hoppable, HopsLeft, OnlyForwarded, Direct;
    if HasNext(s.ports[x]) {
      hide Settling;
      var k := s.ports[x].queue.next;
      StartForwarding(s, x, k);
      PlainQueue(s.ports, s.h.chain, s.h.sent, s.h.pos, s.h.transit, s.h.cargo, x);
      assert ForwardPorts(s, x, k, 0) == s;
      CanHop(s, x);
      HopKeeps(s, x, busy);
      HopForwards(s, x);
      HopShrinks(s, s, x);
      SameLanesDirect(s, Hop(s, x), x);
      ForwardDirect(Hop(s, x), x, busy);
      ForwardedOn(s, Hop(s, x), ForwardMessages(Hop(s, x), x), x);
    } else {
      ForwardsNothing(s, x);
    }
  }

  lemma SameLanesDirect(s: State, t: State, x: Addr)
    requires OnlyForwarded(s, t, x) && Direct(s.h.chain, s.h.cargo)
    ensures Direct(t.h.chain, t.h.cargo)
  {
  }

  lemma ForwardsNothing(s: State, x: Addr)
    requires x in s.ports
    ensures OnlyForwarded(s, s, x)
  {
  }

  // ----- A message without ports -----

  lemma SamePortsMeasure(s: State, t: State)
    requires t.ports.Keys == s.ports.Keys && (forall a :: a in s.ports ==> t.ports[a].mode == s.ports[a].mode)
    requires t.h.transit == s.h.transit
    ensures var a, b := MeasureOf(t), MeasureOf(s);
            a.travelling == b.travelling && a.buffering == b.buffering && a.away == b.away
  {
    assert BufferingPorts(t.ports) == BufferingPorts(s.ports) && AwayPorts(t.ports) == AwayPorts(s.ports);
  }

  /** Arriving does not bring a message nearer, but it is no longer in flight. */
  lemma ArrivingMeasure(s: State, id: nat)
    requires Arriving(s, id) && s.net[id].to in s.ports && Mail(s.net, s.h.pos, s.h.place)
    ensures var a, b := MeasureOf(Enqueue(s, id)), MeasureOf(s);
            a.travelling == b.travelling && a.buffering == b.buffering && a.away == b.away && a.hops == b.hops &&
            a.flying < b.flying
  {
    var t := Enqueue(s, id);
    SamePortsMeasure(s, t);
    SameHops(s.h.chain, s.h.place, s.h.pos[s.net[id].to].lane, s.net[id].msg.num, s.h.pos[s.net[id].to].idx);
    assert UserIds(t.net) == UserIds(s.net) - {id} && id in UserIds(s.net);
    SubsetSize(UserIds(t.net), UserIds(s.net));
  }

  lemma SameHops(chain: Chains, place: Places, m: LaneId, k: nat, i: nat)
    requires m in place && k < |place[m]| && place[m][k].Placed() && place[m][k].at == i
    ensures HopsLeft(chain, place[m := place[m][k := Queued(i)]]) == HopsLeft(chain, place)
  {
    var before, after := HopsLeft(chain, place), HopsLeft(chain, place[m := place[m][k := Queued(i)]]);
    forall m', k', i'
      ensures (m', k', i') in before <==> (m', k', i') in after
    {
    }
  }

  lemma ForwardedMeasure(s: State, u: State, v: State, x: Addr)
    requires Below(MeasureOf(u), MeasureOf(s)) && OnlyForwarded(u, v, x)
    requires var a, b := MeasureOf(u), MeasureOf(s);
             a.travelling == b.travelling && a.buffering == b.buffering && a.away == b.away && a.hops == b.hops
    ensures Below(MeasureOf(v), MeasureOf(s))
  {
    SamePortsMeasure(u, v);
    if v != u { SubsetSize(HopsLeft(v.h.chain, v.h.place), HopsLeft(u.h.chain, u.h.place)); }
  }

  lemma UserPlain(s: State, id: nat)
    requires Inv(s) && Direct(s.h.chain, s.h.cargo) && id in s.net && s.net[id].User? && s.net[id].msg.ports == []
    requires Arriving(s, id) && s.net[id].to in s.ports && CanAcceptMoreMessages(s.ports[s.net[id].to])
    ensures Progresses(s, OnUserMessage(s, id))
  {
    hide Lanes, Chained, Named, Known, Ids, Receivers, Senders, Nexts, Ends, Travellers, Waiting, Targets, Numbers,
        Placement, Reading, Gone, Lasts, TravelLasts, Closures, Flights, Mail, Queues, Pending, FlyingCargo,
        QueuedCargo, Manifest, Unheld, AcceptTokens, Announcements, Acks, ParkedAcks, ProxyTokens, Heralds,
        Heralding, Settling, Arriving, MeasureOf, OnlyForwarded;
    var x, u := s.net[id].to, Enqueue(s, id);
    StartLanding(s, id);
    KnownPos(s.ports, s.h.pos, s.h.transit, s.h.cargo, s.h.token, x);
    ArrivingMeasure(s, id);
    if u.ports[x].mode.Proxying? {
      EnqueueTrunk(s, id);
      EnqueueCarries(s, id);
      EnqueueSettles(s, id);
      ForwardDirect(u, x, {});
      ForwardMessagesKeep(u, x, {});
      var v := ForwardMessages(u, x);
      ForwardedMeasure(s, u, v, x);
      ForwardedFacts(u, v, x);
      SameCarried(s.h, v.h);
      MaybeRemoveProgress(s, v, x);
    } else {
      SameCarried(s.h, u.h);
    }
  }

  lemma ForwardedFacts(u: State, v: State, x: Addr)
    requires OnlyForwarded(u, v, x)
    ensures v.h.chain == u.h.chain && v.h.closed == u.h.closed && v.h.cargo == u.h.cargo && v.h.pos == u.h.pos
    ensures x in u.ports && x in v.ports
    ensures v.ports[x].mode == u.ports[x].mode && v.ports[x].removeOnLast == u.ports[x].removeOnLast
    ensures v.h.transit == u.h.transit
  {
  }

  // ----- A message with ports -----

  lemma {:induction false} LandingMeasure(s: State, bs: seq<Addr>, ds: seq<Descriptor>)
    requires !AcceptPorts(s, bs, ds).crashed && |bs| == |ds|
    ensures var t := AcceptPorts(s, bs, ds);
            t.h.transit == s.h.transit - SetOf(bs) && t.h.cargo == s.h.cargo && t.h.chain == s.h.chain &&
            t.h.closed == s.h.closed && t.h.pos == s.h.pos
    decreases |bs|
  {
    if bs != [] && !s.crashed {
      LandingMeasure(AcceptPort(s, bs[0], ds[0]), bs[1..], ds[1..]);
      assert SetOf(bs) == {bs[0]} + SetOf(bs[1..]) by { assert bs == [bs[0]] + bs[1..]; }
      assert s.h.transit - SetOf(bs) == s.h.transit - {bs[0]} - SetOf(bs[1..]);
    } else {
      CrashLasts(s, bs, ds);
      assert s.h.transit - {} == s.h.transit;
    }
  }

  lemma CrashLasts(s: State, bs: seq<Addr>, ds: seq<Descriptor>)
    ensures s.crashed || bs == [] || ds == [] ==> AcceptPorts(s, bs, ds) == s
  {
  }

  lemma FewerTravel(s: State, t: State, b: Addr)
    requires b in s.h.transit && t.h.transit.Keys < s.h.transit.Keys
    ensures Below(MeasureOf(t), MeasureOf(s))
  {
    SubsetSize(t.h.transit.Keys, s.h.transit.Keys);
  }

  /** A message with ports travels on a side that was never transferred, so it has reached the end. */
  lemma CarrierIsEnd(ports: Ports, net: Net, chain: Chains, sent: Logs, pos: Positions, transit: Transits,
      cargo: Cargos, id: nat)
    requires id in net && net[id].User? && net[id].msg.ports != [] && net[id].to in ports &&
        Direct(chain, cargo) && FlyingCargo(net, ports, pos, transit, cargo, sent) && Senders(ports, pos, chain)
    ensures ports[net[id].to].mode.Receiving? && net[id].msg.ports[0] in cargo
  {
    var m, b := pos[net[id].to].lane, net[id].msg.ports[0];
    assert Attached(ports, pos, transit, cargo, sent, m, net[id].msg.num, pos[net[id].to].idx, net[id].msg);
    assert b in cargo && cargo[b] == Cargo(m, net[id].msg.num, 0);
    assert |chain[m]| == 1;
  }

  lemma UserLands(s: State, id: nat)
    requires Inv(s) && Direct(s.h.chain, s.h.cargo) && id in s.net && s.net[id].User? && s.net[id].msg.ports != []
    requires s.net[id].to in s.ports && CanAcceptMoreMessages(s.ports[s.net[id].to])
    ensures Progresses(s, OnUserMessage(s, id))
  {
    hide Lanes, Chained, Named, Known, Ids, Receivers, Senders, Nexts, Ends, Travellers, Waiting, Targets, Numbers,
        Placement, Reading, Gone, Lasts, TravelLasts, Closures, Flights, Mail, Queues, Pending, FlyingCargo,
        QueuedCargo, Manifest, Unheld, AcceptTokens, Announcements, Acks, ParkedAcks, ProxyTokens, Heralds,
        Heralding, Settling, Arriving, MeasureOf, Below, AcceptPorts, Extends, FewerCarried;
    var x, msg := s.net[id].to, s.net[id].msg;
    StartLanding(s, id);
    AcceptPortsKeep(s, id, 0, msg.ports, msg.descs);
    var t := AcceptPorts(s, msg.ports, msg.descs);
    CanArrive(t, id) by { SameEvent(s, t, id); }
    SameEvent(s, t, id);
    SamePort(s, t, x);
    CarrierIsEnd(s.ports, s.net, s.h.chain, s.h.sent, s.h.pos, s.h.transit, s.h.cargo, id);
    LandingMeasure(s, msg.ports, msg.descs);
    assert msg.ports[0] in s.h.transit && msg.ports[0] in SetOf(msg.ports);
    FewerTravel(s, Enqueue(t, id), msg.ports[0]);
    SameCarried(s.h, Enqueue(t, id).h);
  }

  lemma SamePort(s: State, t: State, x: Addr)
    requires Extends(s, t) && x in s.ports
    ensures x in t.ports && t.ports[x] == s.ports[x]
  {
  }

  // ----- A message that no port takes -----

  /** Closing the ports of a message only closes sides whose ends were in messages. */
  lemma {:induction false} ClosingCarried(s: State, work: seq<Addr>, carried: set<Addr>)
    requires Core(s) && Heralding(s, {}) && Settling(s, {}, {}, {}, SetOf(work))
    requires Unloaded(s.ports, s.h.transit, s.h.cargo, work) && SetOf(work) <= carried && s.h.cargo.Keys <= carried
    ensures CarriedClose(s.h, ClosePorts(s, work).h, carried)
    decreases |s.ports|, |work|
  {
    hide Lanes, Chained, Named, Known, Ids, Receivers, Senders, Nexts, Ends, Travellers, Waiting, Targets, Numbers,
        Placement, Reading, Gone, Lasts, TravelLasts, Closures, Flights, Mail, Queues, Pending, FlyingCargo,
        QueuedCargo, Manifest, Unheld, AcceptTokens, Announcements, Acks, ParkedAcks, ProxyTokens, Heralds,
        Settling, Heralding, Unloaded, ErasePort, ReferencedPorts, CarriedClose;
    if work == [] {
      ClosesNothing(s.h, carried);
    } else if work[0] !in s.ports {
      SkipWork(s, work);
      ClosingCarried(s, work[1..], carried);
    } else {
      FirstReceives(s.ports, s.h.transit, s.h.cargo, work);
      KnownPos(s.ports, s.h.pos, s.h.transit, s.h.cargo, s.h.token, work[0]);
      IsTracked(s, work[0]);
      var t, rest := ErasePort(s, work[0]), ReferencedPorts(s.ports[work[0]].queue.pending) + work[1..];
      EraseKeeps(s, work);
      EraseShrinks(s, work[0]);
      EraseCarried(s, work[0], carried) by { assert work[0] in SetOf(work); }
      RestCarried(s.ports, s.h.sent, s.h.pos, s.h.transit, s.h.cargo, work, carried);
      ClosingCarried(t, rest, carried);
      CarriedThrough(s.h, t.h, ClosePorts(t, rest).h, carried);
    }
  }

  /** From h to h' only sides of carried ports were closed, and no port was put in a message. */
  ghost predicate CarriedClose(h: History, h': History, carried: set<Addr>) {
    h'.chain == h.chain && h'.pos == h.pos && h'.transit == h.transit && h.closed <= h'.closed &&
    (forall l :: l in h'.closed && l !in h.closed ==> exists b :: b in carried && b in h.pos && h.pos[b].lane == l) &&
    (forall b :: b in h'.cargo ==> b in h.cargo && h'.cargo[b] == h.cargo[b])
  }

  lemma ClosesNothing(h: History, carried: set<Addr>)
    ensures CarriedClose(h, h, carried)
  {
  }

  lemma CarriedThrough(h: History, h': History, h'': History, carried: set<Addr>)
    requires CarriedClose(h, h', carried) && CarriedClose(h', h'', carried)
    ensures CarriedClose(h, h'', carried)
  {
  }

  lemma EraseCarried(s: State, a: Addr, carried: set<Addr>)
    requires SendablePort(s, a) && a in carried
    ensures CarriedClose(s.h, ErasePort(s, a).h, carried) && ErasePort(s, a).h.cargo.Keys <= s.h.cargo.Keys
  {
  }

  lemma RestCarried(ports: Ports, sent: Logs, pos: Positions, transit: Transits, cargo: Cargos, work: seq<Addr>,
      carried: set<Addr>)
    requires work != [] && work[0] in ports && QueuedCargo(ports, pos, transit, cargo, sent) &&
        SetOf(work) <= carried && cargo.Keys <= carried
    ensures SetOf(ReferencedPorts(ports[work[0]].queue.pending) + work[1..]) <= carried
  {
    var pending := ports[work[0]].queue.pending;
    forall b | b in ReferencedPorts(pending)
      ensures b in carried
    {
      ReferencedAreAttached(pending, b);
      var k :| k in pending && b in pending[k].ports;
      assert Attached(ports, pos, transit, cargo, sent, pos[work[0]].lane, k, pos[work[0]].idx, pending[k]);
    }
    forall b | b in work[1..]
      ensures b in carried
    {
      assert b in SetOf(work);
    }
  }

  /** What is in a message in flight is carried. */
  lemma FlyingCarried(ports: Ports, net: Net, sent: Logs, pos: Positions, transit: Transits, cargo: Cargos, id: nat)
    requires id in net && net[id].User? && FlyingCargo(net, ports, pos, transit, cargo, sent)
    ensures SetOf(net[id].msg.ports) <= cargo.Keys
  {
    assert Attached(ports, pos, transit, cargo, sent, pos[net[id].to].lane, net[id].msg.num, pos[net[id].to].idx,
        net[id].msg);
  }

  lemma FewerByClosing(h: History, h': History)
    requires CarriedClose(h, h', h.cargo.Keys) && (NoneDoomed(h) ==> h'.closed == h.closed)
    ensures FewerCarried(h, h')
  {
  }

  /** A message that is dropped is no longer in flight. */
  lemma DropMeasure(s: State, id: nat)
    requires Arriving(s, id)
    ensures Below(MeasureOf(Discard(s, id)), MeasureOf(s))
  {
    var t := Discard(s, id);
    SamePortsMeasure(s, t);
    FewerHops(s.h.chain, s.h.place, s.h.pos[s.net[id].to].lane, s.net[id].msg.num);
    assert UserIds(t.net) == UserIds(s.net) - {id} && id in UserIds(s.net);
    SubsetSize(UserIds(t.net), UserIds(s.net));
  }

  lemma FewerHops(chain: Chains, place: Places, m: LaneId, k: nat)
    requires m in place && k < |place[m]|
    ensures |HopsLeft(chain, place[m := place[m][k := Lost]])| <= |HopsLeft(chain, place)|
  {
    SubsetSize(HopsLeft(chain, place[m := place[m][k := Lost]]), HopsLeft(chain, place));
  }

  lemma DiscardCarried(s: State, t: State, id: nat)
    requires Arriving(t, id) && t.h.cargo == s.h.cargo && t.h.chain == s.h.chain && t.h.closed == s.h.closed &&
        t.h.pos == s.h.pos
    ensures CarriedClose(s.h.(transit := t.h.transit), Discard(t, id).h, s.h.cargo.Keys)
    ensures Discard(t, id).h.cargo.Keys <= s.h.cargo.Keys && Discard(t, id).h.transit == t.h.transit
  {
  }

  lemma FewerSame(h: History, transit: Transits, h': History)
    requires FewerCarried(h.(transit := transit), h')
    ensures FewerCarried(h, h')
  {
  }

  lemma StillAway(s: State, t: State, carried: set<Addr>)
    requires CarriedClose(s.h, t.h, carried)
    ensures t.h.transit == s.h.transit
  {
  }

  /** A message that no port takes is for a side that has been closed. */
  lemma DroppedIsDoomed(ports: Ports, net: Net, chain: Chains, nexts: Nums, routed: Nums, sent: Logs, place: Places,
      closed: set<LaneId>, pos: Positions, transit: Transits, cargo: Cargos, id: nat, b: Addr)
    requires id in net && net[id].User? && net[id].to !in ports && Mail(net, pos, place) &&
        Chained(chain, pos) && Placement(chain, nexts, routed, sent, place, transit) && Gone(ports, transit, chain,
        nexts, routed, sent, closed) && Ends(ports, transit, chain, closed) && FlyingCargo(net, ports, pos, transit,
        cargo, sent)
    ensures net[id].to in pos && pos[net[id].to].lane in closed
    ensures b in net[id].msg.ports ==> b in cargo && cargo[b].lane in closed
  {
    var x := net[id].to;
    MailIs(net, place, pos, id);
    MissingIsClosed(ports, net, chain, nexts, routed, sent, place, closed, pos, transit, id, x, pos[x].lane,
        pos[x].idx, net[id].msg.num);
    assert Attached(ports, pos, transit, cargo, sent, pos[x].lane, net[id].msg.num, pos[x].idx, net[id].msg);
  }

  lemma ClosesNone(s: State, id: nat, v: State)
    requires Core(s) && id in s.net && s.net[id].User? && s.net[id].to !in s.ports && v == OnUserMessage(s, id)
    requires Arriving(AcceptPorts(s, s.net[id].msg.ports, s.net[id].msg.descs), id)
    ensures s.net[id].msg.ports != [] ==> !NoneDoomed(s.h)
    ensures s.net[id].msg.ports == [] ==> v.h.closed == s.h.closed
  {
    hide Lanes, Chained, Named, Known, Ids, Receivers, Senders, Nexts, Ends, Travellers, Waiting, Targets, Numbers,
        Placement, Reading, Gone, Lasts, TravelLasts, Closures, Flights, Mail, Queues, Pending, FlyingCargo,
        QueuedCargo, Manifest, Unheld, AcceptTokens, Announcements, Acks, ParkedAcks, ProxyTokens, Heralds;
    var msg := s.net[id].msg;
    if msg.ports == [] {
      CrashLasts(s, msg.ports, msg.descs);
    } else {
      DroppedIsDoomed(s.ports, s.net, s.h.chain, s.h.nexts, s.h.routed, s.h.sent, s.h.place, s.h.closed, s.h.pos,
          s.h.transit, s.h.cargo, id, msg.ports[0]);
    }
  }

  lemma UserDropped(s: State, id: nat)
    requires Inv(s) && id in s.net && s.net[id].User? && s.net[id].to !in s.ports
    ensures Progresses(s, OnUserMessage(s, id))
  {
    hide Lanes, Chained, Named, Known, Ids, Receivers, Senders, Nexts, Ends, Travellers, Waiting, Targets, Numbers,
        Placement, Reading, Gone, Lasts, TravelLasts, Closures, Flights, Mail, Queues, Pending, FlyingCargo,
        QueuedCargo, Manifest, Unheld, AcceptTokens, Announcements, Acks, ParkedAcks, ProxyTokens, Heralds,
        Heralding, Settling, Arriving, MeasureOf, Below, AcceptPorts, Extends, CarriedClose, FewerCarried, Discard;
    var msg := s.net[id].msg;
    StartLanding(s, id);
    AcceptPortsKeep(s, id, 0, msg.ports, msg.descs);
    var t := AcceptPorts(s, msg.ports, msg.descs);
    CanArrive(t, id) by { SameEvent(s, t, id); }
    SameEvent(s, t, id);
    FlyingCarried(s.ports, s.net, s.h.sent, s.h.pos, s.h.transit, s.h.cargo, id);
    MailIs(s.net, s.h.place, s.h.pos, id);
    AddresseeExists(s.net, s.h.chain, s.h.nexts, s.h.routed, s.h.sent, s.h.place, s.h.pos, s.h.transit, id,
        s.net[id].to, s.h.pos[s.net[id].to].lane, s.h.pos[s.net[id].to].idx, msg.num);
    NotOwnPort(s.net, s.h.transit, id);
    assert AllHere(t.ports, msg.ports);
    LandingMeasure(s, msg.ports, msg.descs);
    DiscardKeeps(t, id);
    DiscardSettles(t, id);
    var u := Discard(t, id);
    DiscardCarried(s, t, id);
    ClosingCarried(u, msg.ports, s.h.cargo.Keys);
    var v := ClosePorts(u, msg.ports);
    CarriedThrough(s.h.(transit := t.h.transit), u.h, v.h, s.h.cargo.Keys);
    ClosesNone(s, id, v);
    FewerByClosing(s.h.(transit := t.h.transit), v.h);
    FewerSame(s.h, t.h.transit, v.h);
    if msg.ports == [] {
      CanArrive(s, id);
      CrashLasts(s, msg.ports, msg.descs);
      DropMeasure(s, id);
    } else {
      assert msg.ports[0] in s.h.transit && msg.ports[0] in SetOf(msg.ports);
      StillAway(u, v, s.h.cargo.Keys);
      FewerTravel(s, v, msg.ports[0]);
    }
  }

  lemma UserProgress(s: State, id: nat)
    requires Inv(s) && Direct(s.h.chain, s.h.cargo) && id in s.net && s.net[id].User?
    ensures Progresses(s, OnUserMessage(s, id))
  {
    hide Lanes, Chained, Named, Known, Ids, Receivers, Senders, Nexts, Ends, Travellers, Waiting, Targets, Numbers,
        Placement, Reading, Gone, Lasts, TravelLasts, Closures, Flights, Mail, Queues, Pending, FlyingCargo,
        QueuedCargo, Manifest, Unheld, AcceptTokens, Announcements, Acks, ParkedAcks, ProxyTokens, Heralds,
        Heralding, Settled, Arriving, Progresses, Direct;
    var x := s.net[id].to;
    CanArrive(s, id);
    MailIs(s.net, s.h.place, s.h.pos, id);
    if x !in s.ports {
      UserDropped(s, id);
    } else {
      Acceptable(s.ports, s.net, s.h.chain, s.h.nexts, s.h.routed, s.h.sent, s.h.place, s.h.closed, s.h.pos,
          s.h.transit, id, x, s.h.pos[x].lane, s.h.pos[x].idx, s.net[id].msg.num);
      if s.net[id].msg.ports == [] { UserPlain(s, id); } else { UserLands(s, id); }
    }
  }

  // ----- A port learns that its successor has landed -----

  lemma AcceptedProgress(s: State, id: nat)
    requires Inv(s) && Direct(s.h.chain, s.h.cargo) && id in s.net && s.net[id].PortAccepted?
    ensures Progresses(s, OnPortAccepted(s, id))
  {
    hide Lanes, Chained, Named, Known, Ids, Receivers, Senders, Nexts, Ends, Travellers, Waiting, Targets, Numbers,
        Placement, Reading, Gone, Lasts, TravelLasts, Closures, Flights, Mail, Queues, Pending, FlyingCargo,
        QueuedCargo, Manifest, Unheld, AcceptTokens, Announcements, Acks, ParkedAcks, ProxyTokens, Heralds,
        Heralding, Settled, MeasureOf, Below, OnlyForwarded, FewerCarried, MaybeRemoveProxy;
    var x := s.net[id].to;
    AcceptedFacts(s.ports, s.net, s.h.chain, s.h.pos, s.h.transit, s.h.cargo, s.h.token, id);
    BecomeProxySettles(s, id) by { assert Settled(s); }
    BecomeProxyKeeps(s, id);
    var t := BecomeProxy(s, id);
    ForwardDirect(t, x, {x});
    ForwardMessagesKeep(t, x, {x});
    var u := ForwardMessages(t, x);
    ForwardedFacts(t, u, x);
    ForwardedModes(t, u, x);
    RemovesAtMost(u, x);
    FewerBuffer(s, t, OnPortAccepted(s, id), x);
    SameCarried(s.h, OnPortAccepted(s, id).h);
  }

  lemma RemovesAtMost(u: State, x: Addr)
    ensures var v := MaybeRemoveProxy(u, x);
            v.ports.Keys <= u.ports.Keys && (forall a :: a in v.ports ==> v.ports[a] == u.ports[a]) &&
            v.h == u.h.(token := v.h.token)
  {
  }

  lemma ForwardedModes(u: State, v: State, x: Addr)
    requires OnlyForwarded(u, v, x)
    ensures v.ports.Keys == u.ports.Keys && forall a :: a in u.ports ==> v.ports[a].mode == u.ports[a].mode
  {
  }

  lemma FewerBuffer(s: State, t: State, u: State, x: Addr)
    requires x in s.ports && s.ports[x].mode.Buffering? && t.ports == s.ports[x := s.ports[x].(mode := Proxying)]
    requires u.ports.Keys <= t.ports.Keys && forall a :: a in u.ports ==> u.ports[a].mode == t.ports[a].mode
    requires u.h.transit == s.h.transit
    ensures Below(MeasureOf(u), MeasureOf(s))
  {
    assert BufferingPorts(u.ports) <= BufferingPorts(s.ports) - {x} && x in BufferingPorts(s.ports);
    SubsetSize(BufferingPorts(u.ports), BufferingPorts(s.ports));
  }

  lemma HandleProgress(s: State, id: nat)
    requires Inv(s) && Steady(s, {}, {}) && Direct(s.h.chain, s.h.cargo) && id in s.net
    ensures Progresses(s, Handle(s, id))
  {
    hide Lanes, Chained, Named, Known, Ids, Receivers, Senders, Nexts, Ends, Travellers, Waiting, Targets, Numbers,
        Placement, Reading, Gone, Lasts, TravelLasts, Closures, Flights, Mail, Queues, Pending, FlyingCargo,
        QueuedCargo, Manifest, Unheld, AcceptTokens, Announcements, Acks, ParkedAcks, ProxyTokens, Heralds, Settled,
        Heralding, Steady, Progresses, OnUserMessage, OnPortAccepted, OnObserveProxy, OnObserveProxyAck,
         OnObserveClosure;
    match s.net[id]
    case User(_, _) => UserProgress(s, id);
    case PortAccepted(_) => AcceptedProgress(s, id);
    case ObserveProxy(_, _, _) => ObserveProgress(s, id);
    case ObserveProxyAck(_, _) => AckProgress(s, id);
    case ObserveClosure(_, _) => ClosureProgress(s, id);
  }
}
