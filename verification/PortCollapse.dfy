/** Delivery ends whatever is delivered first, and leaves a pipe that was transferred once with two
 ports that address each other. */
module PortCollapse {
  import opened PortState
  import opened PortSteps
  import opened PortInvariant
  import opened PortRemoval
  import opened PortClosure
  import opened PortMessages
  import opened PortSettled
  import opened PortUsing
  import opened PortRuns
  import opened PortDelivered
  import opened PortTheorems
  import opened PortSteady
  import opened PortSteadyRuns
  import opened PortProgress
  import opened PortArrivals

  // ----- Delivery ends -----

  /** Chooses the next event to deliver, in the light of all that has happened. */
  type Schedule = seq<Command> -> nat

  ghost predicate Picks(pick: Schedule) {
    forall cs :: Run(cs).net != map[] ==> pick(cs) in Run(cs).net
  }

  lemma DeliveryProgresses(cs: seq<Command>, id: nat)
    requires Direct(Run(cs).h.chain, Run(cs).h.cargo) && id in Run(cs).net
    ensures Progresses(Run(cs), Run(cs + [Deliver(id)]))
    ensures Direct(Run(cs + [Deliver(id)]).h.chain, Run(cs + [Deliver(id)]).h.cargo)
  {
    hide Inv, Steady, Progresses, Handle, Direct;
    EveryRun(cs);
    EveryRunSteady(cs);
    assert (cs + [Deliver(id)])[..|cs|] == cs;
    HandleProgress(Run(cs), id);
    StaysDirect(Run(cs), Run(cs + [Deliver(id)]));
  }

  lemma StaysDirect(s: State, t: State)
    requires Progresses(s, t) && Direct(s.h.chain, s.h.cargo)
    ensures Direct(t.h.chain, t.h.cargo)
  {
    hide Below, MeasureOf;
  }

  /** The run, with deliveries until nothing is in flight.  That there is such a run, for every
      schedule, is what the measure shows. */
  ghost function DeliverAll(cs: seq<Command>, pick: Schedule): seq<Command>
    requires Direct(Run(cs).h.chain, Run(cs).h.cargo) && Picks(pick)
    decreases MeasureOf(Run(cs)).travelling, MeasureOf(Run(cs)).buffering, MeasureOf(Run(cs)).away,
              MeasureOf(Run(cs)).hops, MeasureOf(Run(cs)).flying, MeasureOf(Run(cs)).chores
  {
    if Run(cs).net == map[] then cs else
    DeliveryProgresses(cs, pick(cs));
    DeliverAll(cs + [Deliver(pick(cs))], pick)
  }

  /** The rest of the run only delivers. */
  predicate OnlyDelivers(cs: seq<Command>, ds: seq<Command>) {
    cs <= ds && forall i :: |cs| <= i < |ds| ==> ds[i].Deliver?
  }

  /** However events are delivered, delivery ends with nothing in flight; it moves no port to a new
      place, and closes no side but one whose end is inside a message. */
  lemma {:induction false} DeliveryEnds(cs: seq<Command>, pick: Schedule)
    requires Direct(Run(cs).h.chain, Run(cs).h.cargo) && Picks(pick)
    ensures var ds := DeliverAll(cs, pick);
            Run(ds).net == map[] && OnlyDelivers(cs, ds) && FewerCarried(Run(cs).h, Run(ds).h)
    decreases MeasureOf(Run(cs)).travelling, MeasureOf(Run(cs)).buffering, MeasureOf(Run(cs)).away,
              MeasureOf(Run(cs)).hops, MeasureOf(Run(cs)).flying, MeasureOf(Run(cs)).chores
  {
    hide Run, MeasureOf, Direct, Picks, FewerCarried;
    if Run(cs).net != map[] {
      var next := cs + [Deliver(pick(cs))];
      PicksOne(cs, pick);
      DeliveryProgresses(cs, pick(cs));
      DeliveryEnds(next, pick);
      CarriedOn(Run(cs).h, Run(next).h, Run(DeliverAll(next, pick)).h);
    } else {
      SameCarried(Run(cs).h, Run(cs).h);
    }
  }

  lemma CarriedOn(h: History, h': History, h'': History)
    requires FewerCarried(h, h') && FewerCarried(h', h'')
    ensures FewerCarried(h, h'')
  {
    assert CarriedLanes(h') <= CarriedLanes(h);
  }

  lemma PicksOne(cs: seq<Command>, pick: Schedule)
    requires Picks(pick) && Run(cs).net != map[]
    ensures pick(cs) in Run(cs).net
  {
  }

  // ----- What is left of a proxy -----

  lemma NothingOwed(ports: Ports, net: Net, chain: Chains, routed: Nums, sent: Logs, closed: set<LaneId>,
      pos: Positions, token: Tokens, x: Addr)
    requires net == map[] && Recorded(ports, net, closed, pos, token) && ParkedAcks(ports, token) &&
        Receivers(ports, pos, chain, routed, sent, closed) && Senders(ports, pos, chain) && Chained(chain, pos)
    requires BothOpen(closed, pos, x) && pos[x].idx == 0
    ensures x !in token
  {
    if x in token {
      assert token[x].Parked?;
      var b :| b in ports && ports[b].parked == Some(x);
      ParkedAtPredecessor(ports, chain, routed, sent, closed, pos, token, b, x);
    }
  }

  lemma ParkedAtPredecessor(ports: Ports, chain: Chains, routed: Nums, sent: Logs, closed: set<LaneId>,
      pos: Positions, token: Tokens, b: Addr, x: Addr)
    requires b in ports && ports[b].parked == Some(x) && ParkedAcks(ports, token) && Receivers(ports, pos, chain,
        routed, sent, closed) && Senders(ports, pos, chain) && Chained(chain, pos)
    ensures x in pos && pos[x].idx > 0
  {
  }

  /** A proxy that knows its last number and is still there has yet to pass on a message. */
  lemma StillExpects(ports: Ports, chain: Chains, nexts: Nums, routed: Nums, sent: Logs, closed: set<LaneId>,
      pos: Positions, transit: Transits, x: Addr)
    requires x in ports && ports[x].mode.Proxying? && ports[x].removeOnLast && Tidy(ports, closed, pos, {}) &&
        Lasts(ports, transit, pos, chain, routed, sent, closed) && Nexts(ports, pos, nexts) &&
        Numbers(chain, nexts, routed, sent)
    requires Chained(chain, pos) && BothOpen(closed, pos, x)
    ensures var m, i := pos[x].lane, pos[x].idx;
            m in nexts && m in routed && m in sent && i < |nexts[m]| && nexts[m][i] < Limit(routed[m], |sent[m]|, i)
  {
    assert LastFits(ports, transit, pos, chain, routed, sent, closed, x, ports[x]);
    var m := pos[x].lane;
    assert LaneNumbers(|chain[m]|, nexts[m], routed[m], |sent[m]|);
    assert !Done(ports, x);
  }

  /** When all has arrived, no port before the end has a message to pass on. */
  lemma ExpectsNothing(ports: Ports, net: Net, chain: Chains, nexts: Nums, routed: Nums, sent: Logs, place: Places,
      read: Logs, closed: set<LaneId>, pos: Positions, transit: Transits, m: LaneId, i: nat)
    requires net == map[] && AllPassedOn(ports, chain, m) && Flights(net, chain, sent, place) &&
        Queues(ports, chain, sent, place) && Placement(chain, nexts, routed, sent, place, transit) &&
        Numbers(chain, nexts, routed, sent) && Reading(chain, nexts, sent, place, read, closed)
    requires Nexts(ports, pos, nexts) && Chained(chain, pos) && m !in closed && m in nexts && i < |nexts[m]| &&
        i + 1 < |chain[m]|
    ensures m in routed && m in sent && nexts[m][i] == Limit(routed[m], |sent[m]|, i)
  {
    assert LaneNumbers(|chain[m]|, nexts[m], routed[m], |sent[m]|);
    var k := nexts[m][i];
    if k < Limit(routed[m], |sent[m]|, i) {
      LimitGrows(|chain[m]|, nexts[m], routed[m], |sent[m]|, i, i);
      assert !place[m][k].Read?;
      WaitsAtEnd(ports, net, chain, nexts, routed, sent, place, read, closed, pos, transit, m, k);
    }
  }

  /** The proxy of a pipe that was transferred once is gone. */
  lemma ProxyIsGone(s: State, x: Addr)
    requires Inv(s) && Steady(s, {}, {}) && s.net == map[] && BothOpen(s.h.closed, s.h.pos, x)
    requires Short(s.h.chain, s.h.pos[x].lane) && s.h.pos[x].idx + 1 < |s.h.chain[s.h.pos[x].lane]|
    ensures x !in s.ports
  {
    hide Lanes, Chained, Named, Known, Ids, Receivers, Senders, Nexts, Ends, Travellers, Waiting, Targets, Numbers,
        Placement, Reading, Gone, Lasts, TravelLasts, Closures, Flights, Mail, Queues, Pending, FlyingCargo,
        QueuedCargo, Manifest, Unheld, AcceptTokens, Announcements, Acks, ParkedAcks, ProxyTokens, Heralds,
        Heralding, Bypassed, Obliged, Rounds, Tidy, Recorded, AllPassedOn, Here, Loaded, Claimed, Drained, Away;
    var m := s.h.pos[x].lane;
    ShortFirst(s.h.chain, s.h.nexts, s.h.routed, s.h.sent, s.h.place, s.h.read, s.h.closed, s.h.pos, s.nextName, x);
    QuietFacts(s.ports, s.net, s.h.chain, s.h.routed, s.h.sent, s.h.place, s.h.closed, s.h.pos, s.h.transit,
        s.h.cargo, s.h.token, m);
    if x in s.ports {
      SuccessorOf(s.ports, s.h.chain, s.h.routed, s.h.sent, s.h.closed, s.h.pos, x);
      NoneBuffers(s.ports, s.net, s.h.chain, s.h.pos, s.h.transit, s.h.token, x);
      NothingOwed(s.ports, s.net, s.h.chain, s.h.routed, s.h.sent, s.h.closed, s.h.pos, s.h.token, x);
      assert s.ports[x].removeOnLast;
      StillExpects(s.ports, s.h.chain, s.h.nexts, s.h.routed, s.h.sent, s.h.closed, s.h.pos, s.h.transit, x);
      ExpectsNothing(s.ports, s.net, s.h.chain, s.h.nexts, s.h.routed, s.h.sent, s.h.place, s.h.read, s.h.closed,
          s.h.pos, s.h.transit, m, 0);
    }
  }

  lemma ShortFirst(chain: Chains, nexts: Nums, routed: Nums, sent: Logs, place: Places, read: Logs,
      closed: set<LaneId>, pos: Positions, name: nat, x: Addr)
    requires x in pos && Short(chain, pos[x].lane) && pos[x].idx + 1 < |chain[pos[x].lane]| &&
        Lanes(chain, nexts, routed, sent, place, read, closed, name)
    ensures pos[x].idx == 0 && |chain[pos[x].lane]| == 2 && |chain[pos[x].lane.Other()]| == 1
  {
  }

  // ----- The pipe is as short as it was -----

  /** The ends of the two sides are here and address each other, and no other port of the pipe is left. */
  ghost predicate FacesEnd(ports: Ports, chain: Chains, pos: Positions, m: LaneId) {
    m in chain && m.Other() in chain && |chain[m]| >= 1 && |chain[m.Other()]| >= 1 &&
    var a, b := EndOf(chain, m), EndOf(chain, m.Other());
    a in ports && ports[a].mode.Receiving? && ports[a].peer == b &&
    forall x :: x in ports && x in pos && pos[x].lane == m ==> x == a
  }

  /** With no port before the end, the sender addresses the end. */
  lemma TargetsEnd(ports: Ports, chain: Chains, nexts: Nums, routed: Nums, sent: Logs, closed: set<LaneId>,
      pos: Positions, transit: Transits, m: LaneId)
    requires m !in closed && m.Other() !in closed && Gone(ports, transit, chain, nexts, routed, sent, closed) &&
        Chained(chain, pos) && m in chain && m in routed && |routed[m]| < |chain[m]| <= 2
    requires forall x :: x in pos && pos[x].lane == m && pos[x].idx + 1 < |chain[m]| ==> x !in ports
    ensures |routed[m]| + 1 == |chain[m]|
  {
    assert !Silent(ports, transit, chain, closed, m);
    assert pos[chain[m][0]] == Pos(m, 0);
  }

  lemma AddressesEnd(ports: Ports, chain: Chains, nexts: Nums, routed: Nums, sent: Logs, place: Places, read: Logs,
      closed: set<LaneId>, pos: Positions, transit: Transits, name: nat, m: LaneId)
    requires m !in closed && m.Other() !in closed && transit == map[] && Gone(ports, transit, chain, nexts, routed,
        sent, closed) && Receivers(ports, pos, chain, routed, sent, closed) && Ends(ports, transit, chain,
        closed) && Chained(chain, pos) && Lanes(chain, nexts, routed, sent, place, read, closed, name)
    requires m in chain && (forall x :: x in pos && pos[x].lane == m && pos[x].idx + 1 < |chain[m]| ==> x !in ports)
    requires forall x :: x in pos && pos[x].lane == m.Other() && pos[x].idx + 1 < |chain[m.Other()]| ==> x !in ports
    requires Short(chain, m)
    ensures FacesEnd(ports, chain, pos, m)
  {
    hide Gone, Lanes, Receivers, Ends, Chained;
    var o := m.Other();
    assert o.Other() == m;
    LanesAgree(chain, nexts, routed, sent, place, read, closed, name, m);
    LanesAgree(chain, nexts, routed, sent, place, read, closed, name, o);
    EndAddresses(ports, chain, routed, sent, closed, pos, transit, m);
    TargetsEnd(ports, chain, nexts, routed, sent, closed, pos, transit, o);
    forall x | x in ports && x in pos && pos[x].lane == m
      ensures x == EndOf(chain, m)
    {
      ChainHas(chain, pos, x);
    }
  }

  lemma EndAddresses(ports: Ports, chain: Chains, routed: Nums, sent: Logs, closed: set<LaneId>, pos: Positions,
      transit: Transits, m: LaneId)
    requires m !in closed && transit == map[] && Receivers(ports, pos, chain, routed, sent, closed) &&
        Ends(ports, transit, chain, closed) && Chained(chain, pos) && m in chain
    ensures |chain[m]| >= 1 && EndOf(chain, m) in ports && ports[EndOf(chain, m)].mode.Receiving?
    ensures m.Other() in chain && m.Other() in routed && |routed[m.Other()]| < |chain[m.Other()]|
    ensures ports[EndOf(chain, m)].peer == chain[m.Other()][|routed[m.Other()]|]
  {
    assert pos[EndOf(chain, m)] == Pos(m, |chain[m]| - 1);
  }

  /** While ports travel only over sides that were never transferred, delivery ends, in whatever order
      events arrive and whatever has been closed elsewhere.  Then a pipe that was transferred at most
      once and is open has no proxy left, its two ends address each other, and what was sent to each
      and not yet read is in its queue. */
  lemma OpenPipeCollapses(cs: seq<Command>, pick: Schedule, m: LaneId)
    requires Direct(Run(cs).h.chain, Run(cs).h.cargo) && Picks(pick) && Short(Run(cs).h.chain, m)
    requires var h := Run(DeliverAll(cs, pick)).h; m !in h.closed && m.Other() !in h.closed
    ensures var ds := DeliverAll(cs, pick);
            var t := Run(ds);
            t.net == map[] && OnlyDelivers(cs, ds) && FacesEnd(t.ports, t.h.chain, t.h.pos, m) &&
            QueueIsRest(t.ports[EndOf(t.h.chain, m)].queue, [NOTHING] + SentLog(ds, m), [NOTHING] + ReadLog(ds, m))
  {
    hide Lanes, Chained, Named, Known, Ids, Receivers, Senders, Nexts, Ends, Travellers, Waiting, Targets, Numbers,
        Placement, Reading, Gone, Lasts, TravelLasts, Closures, Flights, Mail, Queues, Pending, FlyingCargo,
        QueuedCargo, Manifest, Unheld, AcceptTokens, Announcements, Acks, ParkedAcks, ProxyTokens, Heralds,
        Heralding, Settled, Steady, Run, SentLog, ReadLog, QueueIsRest, Picks, Direct, FacesEnd;
    DeliveryEnds(cs, pick);
    var ds := DeliverAll(cs, pick);
    var t := Run(ds);
    EveryRun(ds);
    EveryRunSteady(ds);
    NothingIsStranded(ds, m);
    forall x | x in t.h.pos && (t.h.pos[x].lane == m || t.h.pos[x].lane == m.Other()) &&
               t.h.pos[x].idx + 1 < |t.h.chain[t.h.pos[x].lane]|
      ensures x !in t.ports
    {
      assert m.Other().Other() == m;
      ProxyIsGone(t, x);
    }
    NobodyTravels(t);
    AddressesEnd(t.ports, t.h.chain, t.h.nexts, t.h.routed, t.h.sent, t.h.place, t.h.read, t.h.closed, t.h.pos,
        t.h.transit, t.nextName, m);
  }

  /** An open side whose end is in no message, or any open side if no message with ports is for a closed
      side. */
  ghost predicate SafeSide(h: History, m: LaneId) {
    m in h.chain && m !in h.closed && |h.chain[m]| >= 1 && (EndOf(h.chain, m) !in h.cargo || NoneDoomed(h))
  }

  /** Such a side stays open while events are delivered. */
  lemma SideStaysOpen(cs: seq<Command>, pick: Schedule, m: LaneId)
    requires Direct(Run(cs).h.chain, Run(cs).h.cargo) && Picks(pick)
    requires SafeSide(Run(cs).h, m)
    ensures m !in Run(DeliverAll(cs, pick)).h.closed
  {
    hide Lanes, Chained, Named, Known, Ids, Receivers, Senders, Nexts, Ends, Travellers, Waiting, Targets, Numbers,
        Placement, Reading, Gone, Lasts, TravelLasts, Closures, Flights, Mail, Queues, Pending, FlyingCargo,
        QueuedCargo, Manifest, Unheld, AcceptTokens, Announcements, Acks, ParkedAcks, ProxyTokens, Heralds,
        Heralding, Settled, Run, Picks, Direct, NoneDoomed;
    DeliveryEnds(cs, pick);
    EveryRun(cs);
    var s := Run(cs);
    forall b | b in s.h.cargo && b in s.h.pos && s.h.pos[b].lane == m
      ensures b == EndOf(s.h.chain, m)
    {
      CarriedIsEnd(s.ports, s.net, s.h.chain, s.h.nexts, s.h.routed, s.h.sent, s.h.place, s.h.closed, s.h.pos,
          s.h.transit, s.h.cargo, s.h.token, b);
    }
  }

  /** A port in a message is the end of its lane. */
  lemma CarriedIsEnd(ports: Ports, net: Net, chain: Chains, nexts: Nums, routed: Nums, sent: Logs, place: Places,
      closed: set<LaneId>, pos: Positions, transit: Transits, cargo: Cargos, token: Tokens, b: Addr)
    requires b in cargo && b in pos && Manifest(net, ports, chain, cargo, place) && FlyingCargo(net, ports, pos,
        transit, cargo, sent) && QueuedCargo(ports, pos, transit, cargo, sent) && Chained(chain, pos) &&
        Receivers(ports, pos, chain, routed, sent, closed) && Travellers(ports, transit, pos, chain, nexts, routed,
        sent, closed, token)
    ensures pos[b].lane in chain && |chain[pos[b].lane]| >= 1 && b == EndOf(chain, pos[b].lane)
  {
    hide Receivers, Travellers;
    CarriedHere(ports, net, chain, sent, place, pos, transit, cargo, b);
    assert chain[pos[b].lane][pos[b].idx] == b;
    if b in transit { TravellerIsLast(ports, chain, nexts, routed, sent, closed, pos, transit, token,
        b); } else { ReceiverIsLast(ports, chain, routed, sent, closed, pos, b); }
  }

  lemma CarriedHere(ports: Ports, net: Net, chain: Chains, sent: Logs, place: Places, pos: Positions,
      transit: Transits, cargo: Cargos, b: Addr)
    requires b in cargo && Manifest(net, ports, chain, cargo, place) && FlyingCargo(net, ports, pos, transit, cargo,
        sent) && QueuedCargo(ports, pos, transit, cargo, sent)
    ensures b in transit || (b in ports && ports[b].mode.Receiving?)
  {
    var c := cargo[b];
    assert Listed(net, ports, chain, place, b, c);
    match place[c.lane][c.num] {
      case Flying(id, at) => assert Attached(ports, pos, transit, cargo, sent, pos[net[id].to].lane,
          net[id].msg.num, pos[net[id].to].idx, net[id].msg);
      case Queued(at) =>
        var a := chain[c.lane][at];
        assert Attached(ports, pos, transit, cargo, sent, pos[a].lane, c.num, pos[a].idx,
            ports[a].queue.pending[c.num]);
    }
  }

  lemma TravellerIsLast(ports: Ports, chain: Chains, nexts: Nums, routed: Nums, sent: Logs, closed: set<LaneId>,
      pos: Positions, transit: Transits, token: Tokens, b: Addr)
    requires b in transit && Travellers(ports, transit, pos, chain, nexts, routed, sent, closed, token)
    ensures b in pos && pos[b].lane in chain && pos[b].idx + 1 == |chain[pos[b].lane]|
  {
    assert Travels(ports, pos, chain, nexts, routed, sent, closed, token, b, transit[b]);
  }

  lemma ReceiverIsLast(ports: Ports, chain: Chains, routed: Nums, sent: Logs, closed: set<LaneId>, pos: Positions,
      b: Addr)
    requires b in ports && ports[b].mode.Receiving? && Receivers(ports, pos, chain, routed, sent, closed)
    ensures b in pos && pos[b].lane in chain && pos[b].idx + 1 == |chain[pos[b].lane]|
  {
    assert Receives(pos, chain, routed, sent, closed, b, ports[b]);
  }

  lemma NobodyTravels(s: State)
    requires Inv(s) && s.net == map[]
    ensures s.h.transit == map[]
  {
    hide Lanes, Chained, Named, Known, Ids, Receivers, Senders, Nexts, Ends, Travellers, Waiting, Targets, Numbers,
        Placement, Reading, Gone, Lasts, TravelLasts, Closures, Flights, Mail, Queues, Pending, FlyingCargo,
        QueuedCargo, Manifest, Unheld, AcceptTokens, Announcements, Acks, ParkedAcks, ProxyTokens, Heralds,
        Heralding, Here, Loaded, Drained, Claimed, Away;
    NoneTravels(s.ports, s.net, s.h.chain, s.h.place, s.h.pos, s.h.transit, s.h.cargo, s.h.token);
  }

  /** So a pipe that was transferred at most once, with both sides open, collapses: whatever is closed
      elsewhere, and in whatever order events arrive. */
  lemma SingleTransferCollapses(cs: seq<Command>, pick: Schedule, m: LaneId)
    requires Direct(Run(cs).h.chain, Run(cs).h.cargo) && Picks(pick) && Short(Run(cs).h.chain, m)
    requires SafeSide(Run(cs).h, m) && SafeSide(Run(cs).h, m.Other())
    ensures var ds := DeliverAll(cs, pick);
            var t, o := Run(ds), m.Other();
            t.net == map[] && OnlyDelivers(cs, ds) &&
            FacesEnd(t.ports, t.h.chain, t.h.pos, m) && FacesEnd(t.ports, t.h.chain, t.h.pos, o) &&
            QueueIsRest(t.ports[EndOf(t.h.chain, m)].queue, [NOTHING] + SentLog(ds, m), [NOTHING] + ReadLog(ds, m)) &&
            QueueIsRest(t.ports[EndOf(t.h.chain, o)].queue, [NOTHING] + SentLog(ds, o), [NOTHING] + ReadLog(ds, o))
  {
    hide Run, SentLog, ReadLog, QueueIsRest, Picks, Direct, SafeSide;
    assert m.Other().Other() == m;
    SideStaysOpen(cs, pick, m);
    SideStaysOpen(cs, pick, m.Other());
    OpenPipeCollapses(cs, pick, m);
    OpenPipeCollapses(cs, pick, m.Other());
  }
}
