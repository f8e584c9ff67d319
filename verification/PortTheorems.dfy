/** What the protocol promises, for every run: any sequence of calls by users who hold the ports
 they name, and of deliveries in any order. */
module PortTheorems {
  import opened PortState
  import opened PortSteps
  import opened PortInvariant
  import opened PortRemoval
  import opened PortClosure
  import opened PortForward
  import opened PortMessages
  import opened PortSettled
  import opened PortClosing
  import opened PortUsing
  import opened PortRuns
  import opened PortDelivered

  // ----- No check fails -----

  /** No CHECK or DCHECK of a handler fails, and no handler meets a missing port. */
  lemma NeverCrashes(cs: seq<Command>)
    ensures !Run(cs).crashed
  {
    hide Lanes, Chained, Named, Known, Ids, Receivers, Senders, Nexts, Ends, Travellers, Waiting, Targets, Numbers,
        Placement, Reading, Gone, Lasts, TravelLasts, Closures, Flights, Mail, Queues, Pending, FlyingCargo,
        QueuedCargo, Manifest, Unheld, AcceptTokens, Announcements, Acks, ParkedAcks, ProxyTokens, Heralds, Run,
        SentLog, ReadLog, Heralding, Settled, Shape, Counting, Ending, Posting, Carrying, Tokening;
    EveryRun(cs);
  }

  lemma IdsAreOld(cs: seq<Command>)
    ensures forall id :: id in Run(cs).net ==> id < Run(cs).nextId
  {
    hide Run, Lanes, Chained, Named, Known, Heralding, Settled, Shape, Counting, Ending, Posting, Carrying, Tokening;
    EveryRun(cs);
  }

  // ----- Nothing is lost, duplicated or reordered -----

  /** What was read at one side of a pipe, joined over all the ports that have held it, is a
      prefix of what was sent from the other side. */
  lemma ReadIsPrefixOfSent(cs: seq<Command>, m: LaneId)
    ensures ReadLog(cs, m) <= SentLog(cs, m)
  {
    hide Base, Shape, Ending, Posting, Carrying, Tokening, Heralding, Settled, Placement, Numbers;
    EveryRun(cs);
    LogsAreHistory(cs, m);
    var h := Run(cs).h;
    KeysOf(cs, m);
    if m in h.sent {
      PrefixOf(h.chain, h.nexts, h.sent, h.place, h.read, h.closed, m);
      assert ReadLog(cs, m) == h.read[m][1..] && SentLog(cs, m) == h.sent[m][1..];
      assert h.read[m][1..] == h.sent[m][1..|h.read[m]|];
    }
  }

  lemma PrefixOf(chain: Chains, nexts: Nums, sent: Logs, place: Places, read: Logs, closed: set<LaneId>, m: LaneId)
    requires Reading(chain, nexts, sent, place, read, closed) && m in chain
    ensures m in read && m in sent && |read[m]| <= |sent[m]| && read[m] == sent[m][..|read[m]|]
  {
  }

  lemma KeysOf(cs: seq<Command>, m: LaneId)
    ensures var h := Run(cs).h;
            (m in h.sent <==> m in h.chain) && (m in h.read <==> m in h.chain)
  {
    hide Shape, Counting, Ending, Posting, Carrying, Tokening, Heralding, Settled;
    EveryRun(cs);
  }

  // ----- When nothing is in flight, everything has arrived -----

  lemma QuietFacts(ports: Ports, net: Net, chain: Chains, routed: Nums, sent: Logs, place: Places,
      closed: set<LaneId>, pos: Positions, transit: Transits, cargo: Cargos, token: Tokens, m: LaneId)
    requires net == map[] && Loaded(transit, cargo, {}) && Manifest(net, ports, chain, cargo, place) &&
        Here(ports, {}) && Known(ports, transit, cargo, token, pos) && Waiting(ports, pos, chain, transit,
        token) && AcceptTokens(net, ports, transit, pos, chain, token)
    requires Drained(ports, {}) && Receivers(ports, pos, chain, routed, sent, closed) && Chained(chain, pos) &&
        m in chain
    ensures transit == map[] && AllPassedOn(ports, chain, m)
  {
    hide Lanes, Chained, Named, Known, Ids, Receivers, Senders, Nexts, Ends, Travellers, Waiting, Targets, Numbers,
        Placement, Reading, Gone, Lasts, TravelLasts, Closures, Flights, Mail, Queues, Pending, FlyingCargo,
        QueuedCargo, Manifest, Unheld, AcceptTokens, Announcements, Acks, ParkedAcks, ProxyTokens, Heralds, Loaded,
        Here, Drained, AllPassedOn;
    NoneTravels(ports, net, chain, place, pos, transit, cargo, token);
    AllDrained(ports, net, chain, routed, sent, closed, pos, transit, token, m);
  }

  /** With no event in flight, the end of an open side is a receiving port whose queue holds
      exactly the messages that were sent and not yet read; and it knows if the other side closed. */
  lemma NothingIsStranded(cs: seq<Command>, m: LaneId)
    requires Run(cs).net == map[] && m in Run(cs).h.chain && m !in Run(cs).h.closed
    ensures var s := Run(cs);
            |s.h.chain[m]| >= 1 && EndOf(s.h.chain, m) in s.ports &&
            s.ports[EndOf(s.h.chain, m)].mode.Receiving? &&
            QueueIsRest(s.ports[EndOf(s.h.chain, m)].queue, [NOTHING] + SentLog(cs, m), [NOTHING] + ReadLog(cs, m)) &&
            (m.Other() in s.h.closed ==> s.ports[EndOf(s.h.chain, m)].peerClosed)
  {
    hide Lanes, Chained, Named, Known, Ids, Receivers, Senders, Nexts, Ends, Travellers, Waiting, Targets, Numbers,
        Placement, Reading, Gone, Lasts, TravelLasts, Closures, Flights, Mail, Queues, Pending, FlyingCargo,
        QueuedCargo, Manifest, Unheld, AcceptTokens, Announcements, Acks, ParkedAcks, ProxyTokens, Heralds, Run,
        SentLog, ReadLog, QueueIsRest, AllPassedOn;
    var s := Run(cs);
    EveryRun(cs);
    KeysOf(cs, m);
    LogsAreHistory(cs, m);
    QuietFacts(s.ports, s.net, s.h.chain, s.h.routed, s.h.sent, s.h.place, s.h.closed, s.h.pos, s.h.transit,
        s.h.cargo, s.h.token, m);
    EndIsHere(s.ports, s.h.chain, s.h.nexts, s.h.sent, s.h.place, s.h.read, s.h.closed, s.h.pos, s.h.transit, m);
    RestIsQueued(s.ports, s.net, s.h.chain, s.h.nexts, s.h.routed, s.h.sent, s.h.place, s.h.read, s.h.closed,
        s.h.pos, s.h.transit, m);
    if m.Other() in s.h.closed {
      EndLearns(s.ports, s.net, s.h.chain, s.h.routed, s.h.closed, s.h.pos, s.h.transit, s.h.token, m);
    }
  }

  lemma EndLearns(ports: Ports, net: Net, chain: Chains, routed: Nums, closed: set<LaneId>, pos: Positions,
      transit: Transits, token: Tokens, m: LaneId)
    requires net == map[] && transit == map[] && Waiting(ports, pos, chain, transit, token) &&
        AcceptTokens(net, ports, transit, pos, chain, token) && Heralds(net, ports, transit, chain, routed, closed,
        {}) && m in chain
    requires m !in closed && m.Other() in closed && |chain[m]| >= 1
    ensures EndOf(chain, m) in ports && ports[EndOf(chain, m)].peerClosed
  {
    NewsArrives(ports, net, chain, routed, pos, transit, token, m, |chain[m]| - 1);
  }

  // ----- Proxies -----

  /** A user message in flight is on its way to a port that exists, or to a side that has closed. */
  lemma InFlightIsExpected(cs: seq<Command>, id: nat)
    requires id in Run(cs).net && Run(cs).net[id].User?
    ensures var s, x := Run(cs), Run(cs).net[id].to;
            x in s.h.pos && (x in s.ports || s.h.pos[x].lane in s.h.closed)
  {
    hide Lanes, Chained, Named, Known, Ids, Receivers, Senders, Nexts, Ends, Travellers, Waiting, Targets, Numbers,
        Placement, Reading, Gone, Lasts, TravelLasts, Closures, Flights, Mail, Queues, Pending, FlyingCargo,
        QueuedCargo, Manifest, Unheld, AcceptTokens, Announcements, Acks, ParkedAcks, ProxyTokens, Heralds, Run,
        SentLog, ReadLog, Heralding, Settled;
    var s, x := Run(cs), Run(cs).net[id].to;
    EveryRun(cs);
    MailIs(s.net, s.h.place, s.h.pos, id);
    if x !in s.ports { MissingIsClosed(s.ports, s.net, s.h.chain, s.h.nexts, s.h.routed, s.h.sent, s.h.place,
        s.h.closed, s.h.pos, s.h.transit, id, x, s.h.pos[x].lane, s.h.pos[x].idx, s.net[id].msg.num); }
  }

  /** While both sides are open, a proxy that is gone was told the last number routed to it, has
      passed on every number below, and no message is at it or on its way to it. */
  lemma GoneIsDone(ports: Ports, chain: Chains, nexts: Nums, routed: Nums, sent: Logs, place: Places,
      closed: set<LaneId>, transit: Transits, m: LaneId, i: nat)
    requires Gone(ports, transit, chain, nexts, routed, sent, closed) && Placement(chain, nexts, routed, sent,
        place, transit) && m in chain && i < |chain[m]| - 1 && chain[m][i] !in ports
    requires m !in closed && m.Other() !in closed
    ensures m in routed && m in nexts && i < |nexts[m]| && i < |routed[m]| && nexts[m][i] == routed[m][i]
    ensures m in place ==> forall k :: 0 <= k < |place[m]| && place[m][k].Placed() ==> place[m][k].at != i
  {
    if m in place {
      forall k | 0 <= k < |place[m]| && place[m][k].Placed()
        ensures place[m][k].at != i
      {
        assert PlacedWell(nexts[m], routed[m], |sent[m]|, k, place[m][k].at);
      }
    }
  }

  lemma ErasedProxyIsDone(cs: seq<Command>, m: LaneId, i: nat)
    requires var s := Run(cs); m in s.h.chain && i < |s.h.chain[m]| - 1 && s.h.chain[m][i] !in s.ports &&
                               m !in s.h.closed && m.Other() !in s.h.closed
    ensures var h := Run(cs).h;
            m in h.routed && m in h.nexts && m in h.place && i < |h.nexts[m]| && i < |h.routed[m]| &&
            h.nexts[m][i] == h.routed[m][i] &&
            forall k :: 0 <= k < |h.place[m]| && h.place[m][k].Placed() ==> h.place[m][k].at != i
  {
    hide Lanes, Chained, Named, Known, Ids, Receivers, Senders, Nexts, Ends, Travellers, Waiting, Targets, Numbers,
        Placement, Reading, Gone, Lasts, TravelLasts, Closures, Flights, Mail, Queues, Pending, FlyingCargo,
        QueuedCargo, Manifest, Unheld, AcceptTokens, Announcements, Acks, ParkedAcks, ProxyTokens, Heralds, Run,
        SentLog, ReadLog, Heralding, Settled;
    EveryRun(cs);
    var s := Run(cs);
    GoneIsDone(s.ports, s.h.chain, s.h.nexts, s.h.routed, s.h.sent, s.h.place, s.h.closed, s.h.transit, m, i);
    LanesAgree(s.h.chain, s.h.nexts, s.h.routed, s.h.sent, s.h.place, s.h.read, s.h.closed, s.nextName, m);
  }

  /** Once a port has been sent away, its peer is its successor, and stays so for the rest of the run. */
  lemma ProxyPeerIsFixed(cs: seq<Command>, ds: seq<Command>, x: Addr)
    requires x in Run(cs).ports && !Run(cs).ports[x].mode.Receiving? && x in Run(cs + ds).ports
    ensures !Run(cs + ds).ports[x].mode.Receiving? && Run(cs + ds).ports[x].peer == Run(cs).ports[x].peer
  {
    hide Lanes, Chained, Named, Known, Ids, Receivers, Senders, Nexts, Ends, Travellers, Waiting, Targets, Numbers,
        Placement, Reading, Gone, Lasts, TravelLasts, Closures, Flights, Mail, Queues, Pending, FlyingCargo,
        QueuedCargo, Manifest, Unheld, AcceptTokens, Announcements, Acks, ParkedAcks, ProxyTokens, Heralds, Run,
        SentLog, ReadLog, Heralding, Settled;
    EveryRun(cs);
    EveryRun(cs + ds);
    RunGrows(cs, ds);
    var s, t := Run(cs), Run(cs + ds);
    SuccessorOf(s.ports, s.h.chain, s.h.routed, s.h.sent, s.h.closed, s.h.pos, x);
    SuccessorOf(t.ports, t.h.chain, t.h.routed, t.h.sent, t.h.closed, t.h.pos, x);
  }

  /** A proxy has at most one announcement or acknowledgement, in flight or parked at a port; and a port
      that is asked to park one has none. */
  lemma OneRemovalToken(cs: seq<Command>, x: Addr)
    ensures var s := Run(cs);
            (forall id, id' :: Concerns(s.net, id, x) && Concerns(s.net, id', x) ==> id == id') &&
            (forall a, b :: ParkedAt(s.ports, a, x) && ParkedAt(s.ports, b, x) ==> a == b) &&
            (forall id, a :: Concerns(s.net, id, x) ==> !ParkedAt(s.ports, a, x)) &&
            (forall id :: Concerns(s.net, id, x) && AsksToPark(s.ports, s.net[id],
            x) ==> s.ports[s.net[id].to].parked.None?)
  {
    hide Lanes, Chained, Named, Known, Ids, Receivers, Senders, Nexts, Ends, Travellers, Waiting, Targets, Numbers,
        Placement, Reading, Gone, Lasts, TravelLasts, Closures, Flights, Mail, Queues, Pending, FlyingCargo,
        QueuedCargo, Manifest, Unheld, AcceptTokens, Announcements, Acks, ParkedAcks, ProxyTokens, Heralds, Run,
        SentLog, ReadLog, Heralding, Settled;
    EveryRun(cs);
    var s := Run(cs);
    ParkedOnce(s.ports, s.h.chain, s.h.routed, s.h.sent, s.h.closed, s.h.pos, s.h.token, x);
    forall id | Concerns(s.net, id, x)
      ensures forall id' :: Concerns(s.net, id', x) ==> id == id'
      ensures forall a :: !ParkedAt(s.ports, a, x)
      ensures AsksToPark(s.ports, s.net[id], x) ==> s.ports[s.net[id].to].parked.None?
    {
      TokenIsUnique(s.ports, s.net, s.h.chain, s.h.routed, s.h.pos, s.h.token, id, x);
    }
  }

  /** The event comes to a port that addresses the proxy. */
  predicate AsksToPark(ports: Ports, e: Event, x: Addr) {
    e.ObserveProxy? && e.to in ports && ports[e.to].peer == x
  }

  predicate ParkedAt(ports: Ports, a: Addr, x: Addr) {
    a in ports && ports[a].parked == Some(x)
  }

  lemma ParkedOnce(ports: Ports, chain: Chains, routed: Nums, sent: Logs, closed: set<LaneId>, pos: Positions,
      token: Tokens, x: Addr)
    requires Chained(chain, pos) && Receivers(ports, pos, chain, routed, sent, closed) &&
        Senders(ports, pos, chain) && ParkedAcks(ports, token)
    ensures forall a, b :: ParkedAt(ports, a, x) && ParkedAt(ports, b, x) ==> a == b
  {
    forall a, b | ParkedAt(ports, a, x) && ParkedAt(ports, b, x)
      ensures a == b
    {
      OnlyOneParks(ports, chain, routed, sent, closed, pos, token, a, x);
    }
  }

  lemma TokenIsUnique(ports: Ports, net: Net, chain: Chains, routed: Nums, pos: Positions, token: Tokens, id: nat,
      x: Addr)
    requires Concerns(net, id, x) && Announcements(net, pos, chain, token) && Acks(net, pos, routed, token) &&
        ParkedAcks(ports, token)
    ensures forall id' :: Concerns(net, id', x) ==> id' == id
    ensures forall a :: a in ports && ports[a].parked.Some? ==> ports[a].parked.value != x
    ensures net[id].ObserveProxy? ==>
              net[id].to in ports && ports[net[id].to].peer == x ==> ports[net[id].to].parked.None?
  {
  }

  // ----- The ring of peers -----

  /** Where a port points; a port on its way points where its descriptor says. */
  function Peer(ports: Ports, transit: Transits, x: Addr): Option<Addr> {
    if x in ports then Some(ports[x].peer) else if x in transit then Some(transit[x].peer) else None
  }

  predicate IsEnd(ports: Ports, transit: Transits, x: Addr) {
    x in transit || (x in ports && ports[x].mode.Receiving?)
  }

  /** From the port the end of m.Other() addresses to the end of m. */
  function Arc(chain: Chains, routed: Nums, m: LaneId): seq<Addr> {
    if m in chain && m in routed && |routed[m]| < |chain[m]| then chain[m][|routed[m]|..] else []
  }

  /** A proxy the sender may still address is here, and points at its successor. */
  lemma ArcPeers(ports: Ports, chain: Chains, nexts: Nums, routed: Nums, sent: Logs, closed: set<LaneId>,
      pos: Positions, transit: Transits, m: LaneId, i: nat)
    requires m in chain && m !in closed && m.Other() !in closed && m in routed && |routed[m]| <= i < |chain[m]| - 1
    requires Gone(ports, transit, chain, nexts, routed, sent, closed) && Receivers(ports, pos, chain, routed, sent,
        closed) && Senders(ports, pos, chain) && Chained(chain, pos)
    ensures chain[m][i] in ports && !ports[chain[m][i]].mode.Receiving?
    ensures Peer(ports, transit, chain[m][i]) == Some(chain[m][i + 1])
  {
    hide Receivers, Senders;
    assert pos[chain[m][i]] == Pos(m, i);
    SuccessorOf(ports, chain, routed, sent, closed, pos, chain[m][i]);
  }

  /** The end of a lane points at the start of the other arc. */
  lemma ArcEnd(ports: Ports, chain: Chains, nexts: Nums, routed: Nums, sent: Logs, closed: set<LaneId>,
      pos: Positions, transit: Transits, cargo: Cargos, token: Tokens, m: LaneId)
    requires m in chain && m.Other() in chain && m !in closed && m.Other() in routed &&
        |routed[m.Other()]| < |chain[m.Other()]|
    requires Ends(ports, transit, chain, closed) && Receivers(ports, pos, chain, routed, sent, closed) &&
        Travellers(ports, transit, pos, chain, nexts, routed, sent, closed, token) && Chained(chain, pos) &&
        Known(ports, transit, cargo, token, pos) && |chain[m]| >= 1
    ensures var x := EndOf(chain, m);
            IsEnd(ports, transit, x) && Peer(ports, transit, x) == Some(chain[m.Other()][|routed[m.Other()]|])
  {
    var x := EndOf(chain, m);
    assert pos[x].lane == m;
    if x in transit { assert Travels(ports, pos, chain, nexts, routed, sent, closed, token, x, transit[x]); }
  }

  /** While both sides of a pipe are open, the peer pointers form one ring, which has exactly two
      ends: the port of each side that receives or is on its way. */
  lemma PeersFormRing(cs: seq<Command>, m: LaneId)
    requires var h := Run(cs).h; m in h.chain && m !in h.closed && m.Other() !in h.closed
    ensures var s := Run(cs);
            var a, b := Arc(s.h.chain, s.h.routed, m), Arc(s.h.chain, s.h.routed, m.Other());
            var ring := a + b;
            |a| >= 1 && |b| >= 1 && Distinct(ring) &&
            (forall i :: 0 <= i < |ring| ==>
                           Peer(s.ports, s.h.transit, ring[i]) == Some(ring[if i + 1 < |ring| then i + 1 else 0])) &&
            (forall i :: 0 <= i < |ring| ==>
                           (IsEnd(s.ports, s.h.transit, ring[i]) <==> i == |a| - 1 || i == |ring| - 1))
  {
    hide Lanes, Chained, Named, Known, Ids, Receivers, Senders, Nexts, Ends, Travellers, Waiting, Targets, Numbers,
        Placement, Reading, Gone, Lasts, TravelLasts, Closures, Flights, Mail, Queues, Pending, FlyingCargo,
        QueuedCargo, Manifest, Unheld, AcceptTokens, Announcements, Acks, ParkedAcks, ProxyTokens, Heralds, Run,
        SentLog, ReadLog, Heralding, Settled, Peer, IsEnd;
    EveryRun(cs);
    var s := Run(cs);
    LanesAgree(s.h.chain, s.h.nexts, s.h.routed, s.h.sent, s.h.place, s.h.read, s.h.closed, s.nextName, m);
    LanesAgree(s.h.chain, s.h.nexts, s.h.routed, s.h.sent, s.h.place, s.h.read, s.h.closed, s.nextName, m.Other());
    assert m.Other().Other() == m;
    RingOf(s.ports, s.h.chain, s.h.nexts, s.h.routed, s.h.sent, s.h.closed, s.h.pos, s.h.transit, s.h.cargo,
        s.h.token, m);
  }

  lemma AwayIsNoEnd(ports: Ports, pos: Positions, transit: Transits, cargo: Cargos, token: Tokens, x: Addr)
    requires Known(ports, transit, cargo, token, pos) && x in ports && !ports[x].mode.Receiving?
    ensures !IsEnd(ports, transit, x)
  {
  }

  lemma RingOf(ports: Ports, chain: Chains, nexts: Nums, routed: Nums, sent: Logs, closed: set<LaneId>,
      pos: Positions, transit: Transits, cargo: Cargos, token: Tokens, m: LaneId)
    requires m in chain && m.Other() in chain && m !in closed && m.Other() !in closed && m in routed &&
        m.Other() in routed
    requires |routed[m]| < |chain[m]| && |routed[m.Other()]| < |chain[m.Other()]|
    requires Gone(ports, transit, chain, nexts, routed, sent, closed) && Receivers(ports, pos, chain, routed, sent,
        closed) && Senders(ports, pos, chain) && Ends(ports, transit, chain, closed) &&
        Travellers(ports, transit, pos, chain, nexts, routed, sent, closed, token) && Chained(chain, pos) &&
        Known(ports, transit, cargo, token, pos)
    ensures var a, b := Arc(chain, routed, m), Arc(chain, routed, m.Other());
            var ring := a + b;
            |a| >= 1 && |b| >= 1 && Distinct(ring) &&
            (forall i :: 0 <= i < |ring| ==>
                           Peer(ports, transit, ring[i]) == Some(ring[if i + 1 < |ring| then i + 1 else 0])) &&
            (forall i :: 0 <= i < |ring| ==>
                           (IsEnd(ports, transit, ring[i]) <==> i == |a| - 1 || i == |ring| - 1))
  {
    hide Gone, Receivers, Senders, Ends, Travellers, Known, Peer, IsEnd;
    var n, a, b := m.Other(), Arc(chain, routed, m), Arc(chain, routed, m.Other());
    var ring := a + b;
    RingDistinct(chain, routed, pos, m);
    assert n.Other() == m;
    forall i | 0 <= i < |ring|
      ensures Peer(ports, transit, ring[i]) == Some(ring[if i + 1 < |ring| then i + 1 else 0])
      ensures IsEnd(ports, transit, ring[i]) <==> i == |a| - 1 || i == |ring| - 1
    {
      if i < |a| {
        if i + 1 < |a| {
          ArcPeers(ports, chain, nexts, routed, sent, closed, pos, transit, m, i + |routed[m]|);
          AwayIsNoEnd(ports, pos, transit, cargo, token, ring[i]);
        } else {
          ArcEnd(ports, chain, nexts, routed, sent, closed, pos, transit, cargo, token, m);
        }
      } else {
        if i + 1 < |ring| {
          ArcPeers(ports, chain, nexts, routed, sent, closed, pos, transit, n, i - |a| + |routed[n]|);
          AwayIsNoEnd(ports, pos, transit, cargo, token, ring[i]);
        } else {
          ArcEnd(ports, chain, nexts, routed, sent, closed, pos, transit, cargo, token, n);
        }
      }
    }
  }

  lemma RingDistinct(chain: Chains, routed: Nums, pos: Positions, m: LaneId)
    requires Chained(chain, pos)
    ensures Distinct(Arc(chain, routed, m) + Arc(chain, routed, m.Other()))
  {
    var ring := Arc(chain, routed, m) + Arc(chain, routed, m.Other());
    forall i | 0 <= i < |ring|
      ensures ring[i] in pos
      ensures i < |Arc(chain, routed, m)| ==> pos[ring[i]] == Pos(m, i + |routed[m]|)
      ensures i >= |Arc(chain, routed, m)| ==>
                pos[ring[i]] == Pos(m.Other(), i - |Arc(chain, routed, m)| + |routed[m.Other()]|)
    {
    }
  }

  /** The port that is n steps along the peer pointers from x. */
  function Walk(ports: Ports, transit: Transits, x: Addr, n: nat): Option<Addr>
    decreases n
  {
    if n == 0 then Some(x) else
    match Peer(ports, transit, x)
    case Some(y) => Walk(ports, transit, y, n - 1)
    case None => None
  }

  /** A proxy that the sender has stopped addressing, but for which messages are still to come,
      leads along the peer pointers to the start of the arc. */
  lemma BypassedProxyLeadsIn(cs: seq<Command>, m: LaneId, i: nat)
    requires var s := Run(cs); m in s.h.chain && m in s.h.routed && i < |s.h.routed[m]| && i < |s.h.chain[m]| &&
                               s.h.chain[m][i] in s.ports &&
                               s.ports[s.h.chain[m][i]].queue.next < s.h.routed[m][i]
    requires m !in Run(cs).h.closed
    ensures var s := Run(cs);
            |s.h.routed[m]| < |s.h.chain[m]| &&
            Walk(s.ports, s.h.transit, s.h.chain[m][i], |s.h.routed[m]| - i) == Some(s.h.chain[m][|s.h.routed[m]|])
  {
    hide Lanes, Chained, Named, Known, Ids, Receivers, Senders, Nexts, Ends, Travellers, Waiting, Targets, Numbers,
        Placement, Reading, Gone, Lasts, TravelLasts, Closures, Flights, Mail, Queues, Pending, FlyingCargo,
        QueuedCargo, Manifest, Unheld, AcceptTokens, Announcements, Acks, ParkedAcks, ProxyTokens, Heralds, Run,
        SentLog, ReadLog, Heralding, Settled, Walk;
    EveryRun(cs);
    var s := Run(cs);
    LanesAgree(s.h.chain, s.h.nexts, s.h.routed, s.h.sent, s.h.place, s.h.read, s.h.closed, s.nextName, m);
    NextOf(s.ports, s.h.chain, s.h.nexts, s.h.pos, m, i);
    WalkOn(s.ports, s.h.chain, s.h.nexts, s.h.routed, s.h.sent, s.h.closed, s.h.pos, s.h.transit, m, i, i);
  }

  lemma NextOf(ports: Ports, chain: Chains, nexts: Nums, pos: Positions, m: LaneId, i: nat)
    requires Nexts(ports, pos, nexts) && Chained(chain, pos) && m in chain && i < |chain[m]| && chain[m][i] in ports
    ensures m in nexts && i < |nexts[m]| && ports[chain[m][i]].queue.next == nexts[m][i]
  {
    assert pos[chain[m][i]] == Pos(m, i);
  }

  lemma WalkOn(ports: Ports, chain: Chains, nexts: Nums, routed: Nums, sent: Logs, closed: set<LaneId>,
      pos: Positions,
               transit: Transits, m: LaneId, i: nat, j: nat)
    requires m in chain && m in nexts && m in routed && m in sent && i <= j <= |routed[m]| < |chain[m]|
    requires i < |nexts[m]| && i < |routed[m]| && nexts[m][i] < routed[m][i] && chain[m][i] in ports
    requires Numbers(chain, nexts, routed, sent) && Gone(ports, transit, chain, nexts, routed, sent, closed) &&
        Chained(chain, pos) && Receivers(ports, pos, chain, routed, sent, closed) && Senders(ports, pos, chain)
    ensures Walk(ports, transit, chain[m][j], |routed[m]| - j) == Some(chain[m][|routed[m]|])
    decreases |routed[m]| - j
  {
    if j < |routed[m]| {
      StillThere(ports, chain, nexts, routed, sent, closed, pos, transit, m, i, j);
      WalkOn(ports, chain, nexts, routed, sent, closed, pos, transit, m, i, j + 1);
    }
  }

  /** No port after one that still has messages to come is gone. */
  lemma StillThere(ports: Ports, chain: Chains, nexts: Nums, routed: Nums, sent: Logs, closed: set<LaneId>,
      pos: Positions, transit: Transits, m: LaneId, i: nat, j: nat)
    requires m in chain && m in nexts && m in routed && m in sent && i <= j < |routed[m]| < |chain[m]|
    requires i < |nexts[m]| && i < |routed[m]| && nexts[m][i] < routed[m][i] && chain[m][i] in ports
    requires Numbers(chain, nexts, routed, sent) && Gone(ports, transit, chain, nexts, routed, sent, closed) &&
        Chained(chain, pos) && Receivers(ports, pos, chain, routed, sent, closed) && Senders(ports, pos, chain)
    ensures chain[m][j] in ports && ports[chain[m][j]].peer == chain[m][j + 1]
  {
    hide Receivers, Senders;
    var x := chain[m][j];
    assert pos[x] == Pos(m, j);
    StillWants(|chain[m]|, nexts[m], routed[m], |sent[m]|, i, j);
    assert x in ports;
    SuccessorOf(ports, chain, routed, sent, closed, pos, x);
  }

  lemma StillWants(n: nat, nexts: seq<nat>, routed: seq<nat>, total: nat, i: nat, j: nat)
    requires LaneNumbers(n, nexts, routed, total) && i <= j < |routed| && nexts[i] < routed[i]
    ensures nexts[j] < Limit(routed, total, j)
  {
  }

  /** Exactly when no port in between has been removed, a port leads to the start of the arc. */
  lemma BypassedLeadsInExactly(cs: seq<Command>, m: LaneId, i: nat)
    requires var h := Run(cs).h; m in h.chain && m in h.routed && i <= |h.routed[m]| < |h.chain[m]|
    ensures var s := Run(cs);
            Walk(s.ports, s.h.transit, s.h.chain[m][i],
            |s.h.routed[m]| - i) == Some(s.h.chain[m][|s.h.routed[m]|]) <==>
            forall j :: i <= j < |s.h.routed[m]| ==> s.h.chain[m][j] in s.ports
  {
    hide Lanes, Chained, Named, Known, Ids, Receivers, Senders, Nexts, Ends, Travellers, Waiting, Targets, Numbers,
        Placement, Reading, Gone, Lasts, TravelLasts, Closures, Flights, Mail, Queues, Pending, FlyingCargo,
        QueuedCargo, Manifest, Unheld, AcceptTokens, Announcements, Acks, ParkedAcks, ProxyTokens, Heralds, Run,
        Heralding, Settled, Walk;
    EveryRun(cs);
    var s := Run(cs);
    WalkExactly(s, m, i);
  }

  lemma WalkExactly(s: State, m: LaneId, i: nat)
    requires Base(s) && Shape(s) && m in s.h.chain && m in s.h.routed && i <= |s.h.routed[m]| < |s.h.chain[m]|
    ensures Walk(s.ports, s.h.transit, s.h.chain[m][i],
        |s.h.routed[m]| - i) == Some(s.h.chain[m][|s.h.routed[m]|]) <==>
            forall j :: i <= j < |s.h.routed[m]| ==> s.h.chain[m][j] in s.ports
    decreases |s.h.routed[m]| - i
  {
    hide Lanes, Chained, Named, Known, Ids, Receivers, Senders, Nexts, Ends, Travellers, Waiting, Targets, Numbers,
        Placement, Reading, Gone, Lasts, TravelLasts, Closures, Flights, Mail, Queues, Pending, FlyingCargo,
        QueuedCargo, Manifest, Unheld, AcceptTokens, Announcements, Acks, ParkedAcks, ProxyTokens, Heralds;
    if i < |s.h.routed[m]| {
      PointsOn(s.ports, s.h.chain, s.h.nexts, s.h.routed, s.h.sent, s.h.closed, s.h.pos, s.h.transit, s.h.token, m,
          i);
      WalkExactly(s, m, i + 1);
    }
  }

  /** A port before the end points at its successor, or is gone. */
  lemma PointsOn(ports: Ports, chain: Chains, nexts: Nums, routed: Nums, sent: Logs, closed: set<LaneId>,
      pos: Positions, transit: Transits, token: Tokens, m: LaneId, i: nat)
    requires m in chain && i + 1 < |chain[m]| && Chained(chain, pos) && Receivers(ports, pos, chain, routed, sent,
        closed) && Senders(ports, pos, chain) && Travellers(ports, transit, pos, chain, nexts, routed, sent, closed,
        token)
    ensures Peer(ports, transit, chain[m][i]) == if chain[m][i] in ports then Some(chain[m][i + 1]) else None
  {
    var x := chain[m][i];
    assert pos[x] == Pos(m, i);
    assert x in transit ==> Travels(ports, pos, chain, nexts, routed, sent, closed, token, x, transit[x]);
  }

  /** A user message that is on its way to a port that exists has a number that the port still wants and
      does not have: what a message queue asks of those that fill it. */
  lemma ArrivalsAreFresh(cs: seq<Command>, id: nat)
    requires id in Run(cs).net && Run(cs).net[id].User? && Run(cs).net[id].to in Run(cs).ports
    ensures var s := Run(cs);
            var q, msg := s.ports[s.net[id].to].queue, s.net[id].msg;
            msg.num >= q.next && msg.num !in q.pending && Wanted(q)
  {
    hide Lanes, Chained, Named, Known, Ids, Receivers, Senders, Nexts, Ends, Travellers, Waiting, Targets, Numbers,
        Placement, Reading, Gone, Lasts, TravelLasts, Closures, Flights, Mail, Queues, Pending, FlyingCargo,
        QueuedCargo, Manifest, Unheld, AcceptTokens, Announcements, Acks, ParkedAcks, ProxyTokens, Heralds, Run,
        SentLog, ReadLog, Heralding, Settled;
    EveryRun(cs);
    var s := Run(cs);
    FreshAt(s.ports, s.net, s.h.chain, s.h.nexts, s.h.routed, s.h.sent, s.h.place, s.h.pos, s.h.transit, id);
  }

  /** What is queued is still wanted, and listed under its own number. */
  predicate Wanted(q: Queue) {
    forall k :: k in q.pending ==> k >= q.next && q.pending[k].num == k
  }

  lemma FreshAt(ports: Ports, net: Net, chain: Chains, nexts: Nums, routed: Nums, sent: Logs, place: Places,
      pos: Positions, transit: Transits, id: nat)
    requires id in net && net[id].User? && net[id].to in ports && Mail(net, pos, place) &&
        Pending(ports, pos, place) && Placement(chain, nexts, routed, sent, place, transit) &&
        Nexts(ports, pos, nexts) && Queues(ports, chain, sent, place) && Chained(chain, pos)
    ensures var q, msg := ports[net[id].to].queue, net[id].msg;
            msg.num >= q.next && msg.num !in q.pending && Wanted(q)
  {
    var x := net[id].to;
    var m, i := pos[x].lane, pos[x].idx;
    forall k | k in ports[x].queue.pending
      ensures k >= ports[x].queue.next && ports[x].queue.pending[k].num == k
    {
      assert place[m][k] == Queued(i);
      assert PlacedWell(nexts[m], routed[m], |sent[m]|, k, i);
    }
  }

  // ----- Closure -----

  /** GetMessage reports that the peer is closed exactly when the port has been told and all that
      was sent has been read; and a port is only told when the other side has closed. */
  lemma PeerClosedIsExact(cs: seq<Command>, a: Addr)
    requires Held(Run(cs), a) && Run(cs).ports[a].mode.Receiving? && a in Run(cs).h.pos
    ensures var s, m := Run(cs), Run(cs).h.pos[a].lane;
            (GetMessageOutcome(s, a).GetPeerClosed? <==> s.ports[a].peerClosed && ReadLog(cs, m) == SentLog(cs, m)) &&
            (s.ports[a].peerClosed ==> m.Other() in s.h.closed)
  {
    hide Lanes, Chained, Named, Known, Ids, Receivers, Senders, Nexts, Ends, Travellers, Waiting, Targets, Numbers,
        Placement, Reading, Gone, Lasts, TravelLasts, Closures, Flights, Mail, Queues, Pending, FlyingCargo,
        QueuedCargo, Manifest, Unheld, AcceptTokens, Announcements, Acks, ParkedAcks, ProxyTokens, Heralds, Run,
        SentLog, ReadLog, Heralding, Settled, Silent, Final;
    EveryRun(cs);
    var s, m := Run(cs), Run(cs).h.pos[a].lane;
    KeysOf(cs, m);
    LogsAreHistory(cs, m);
    ToldFacts(s.ports, s.h.chain, s.h.nexts, s.h.routed, s.h.sent, s.h.place, s.h.read, s.h.closed, s.h.pos,
        s.h.transit, s.nextName, a);
    assert ReadLog(cs, m) == s.h.read[m][1..] && SentLog(cs, m) == s.h.sent[m][1..];
  }

  lemma ToldFacts(ports: Ports, chain: Chains, nexts: Nums, routed: Nums, sent: Logs, place: Places, read: Logs,
      closed: set<LaneId>, pos: Positions, transit: Transits, name: nat, a: Addr)
    requires a in ports && ports[a].mode.Receiving? && Receivers(ports, pos, chain, routed, sent, closed) &&
        Nexts(ports, pos, nexts) && Lasts(ports, transit, pos, chain, routed, sent, closed) &&
        Reading(chain, nexts, sent, place, read, closed) && Chained(chain, pos) && Lanes(chain, nexts, routed, sent,
        place, read, closed, name)
    ensures a in pos && var m := pos[a].lane;
                        m in chain && m in sent && m in read && ports[a].queue.next == |read[m]| &&
                        !ports[a].removeOnLast &&
                        |read[m]| <= |sent[m]| && read[m] == sent[m][..|read[m]|] && |read[m]| >= 1 &&
                        (ports[a].peerClosed ==> ports[a].lastRecv + 1 == |sent[m]| && m.Other() in closed)
  {
    if ports[a].peerClosed {
      assert LastFits(ports, transit, pos, chain, routed, sent, closed, a, ports[a]);
      assert Silent(ports, transit, chain, closed, pos[a].lane);
    }
  }

  /** Every acknowledgement and closure event that is on its way to a port, and every one it has
      acted on, carries the same last number: the last one ever routed to it. */
  lemma LastNumbersAgree(cs: seq<Command>, x: Addr, id: nat)
    requires var s := Run(cs); id in s.net && s.net[id].to == x && TellsLast(s.net[id])
    ensures var s := Run(cs);
            (forall id' ::
               id' in s.net && s.net[id'].to == x && TellsLast(s.net[id']) ==> s.net[id'].last == s.net[id].last) &&
            (x in s.ports && s.ports[x].removeOnLast ==> s.ports[x].lastRecv == s.net[id].last)
  {
    hide Lanes, Chained, Named, Known, Ids, Receivers, Senders, Nexts, Ends, Travellers, Waiting, Targets, Numbers,
        Placement, Reading, Gone, Lasts, TravelLasts, Closures, Flights, Mail, Queues, Pending, FlyingCargo,
        QueuedCargo, Manifest, Unheld, AcceptTokens, Announcements, Acks, ParkedAcks, ProxyTokens, Heralds, Run,
        SentLog, ReadLog, Heralding, Settled;
    EveryRun(cs);
    var s := Run(cs);
    forall id' | id' in s.net && s.net[id'].to == x && TellsLast(s.net[id'])
      ensures LastIs(s.h.pos, s.h.routed, s.h.sent, x, s.net[id'].last)
    {
      TellsLimit(s.ports, s.net, s.h.chain, s.h.nexts, s.h.routed, s.h.sent, s.h.place, s.h.read, s.h.closed,
          s.h.pos, s.h.transit, s.h.token, s.nextName, x, id');
    }
    if x in s.ports && s.ports[x].removeOnLast { ExpectsLimit(s.ports, s.h.chain, s.h.routed, s.h.sent, s.h.closed,
        s.h.pos, s.h.transit, x); }
  }

  predicate TellsLast(e: Event) {
    e.ObserveClosure? || (e.ObserveProxyAck? && e.last != INVALID_SEQUENCE_NUM)
  }

  ghost predicate LastIs(pos: Positions, routed: Nums, sent: Logs, x: Addr, last: nat) {
    x in pos && pos[x].lane in routed && pos[x].lane in sent &&
    last + 1 == Limit(routed[pos[x].lane], |sent[pos[x].lane]|, pos[x].idx)
  }

  lemma TellsLimit(ports: Ports, net: Net, chain: Chains, nexts: Nums, routed: Nums, sent: Logs, place: Places,
      read: Logs, closed: set<LaneId>, pos: Positions, transit: Transits, token: Tokens, name: nat, x: Addr, id: nat)
    requires id in net && net[id].to == x && TellsLast(net[id]) && Closures(net, ports, transit, pos, chain, routed,
        sent, closed) && Acks(net, pos, routed, token) && Chained(chain, pos) && Lanes(chain, nexts, routed, sent,
        place, read, closed, name)
    ensures LastIs(pos, routed, sent, x, net[id].last)
  {
  }

  lemma ExpectsLimit(ports: Ports, chain: Chains, routed: Nums, sent: Logs, closed: set<LaneId>, pos: Positions,
      transit: Transits, x: Addr)
    requires x in ports && ports[x].removeOnLast && Lasts(ports, transit, pos, chain, routed, sent, closed)
    ensures LastIs(pos, routed, sent, x, ports[x].lastRecv)
  {
  }

  // ----- Ports inside messages -----

  predicate IsSlot(ports: Ports, a: Addr, k: nat, i: nat) {
    a in ports && k in ports[a].queue.pending && i < |ports[a].queue.pending[k].ports|
  }

  /** Every port attached to a queued message is here, receives, is held by nobody, and is
      attached to no other queued message and in no other slot. */
  lemma AttachedPortsAreHere(cs: seq<Command>, a: Addr, k: nat, i: nat)
    requires IsSlot(Run(cs).ports, a, k, i)
    ensures var ports := Run(cs).ports;
            var b := ports[a].queue.pending[k].ports[i];
            b in ports && ports[b].mode.Receiving? && !ports[b].signalable && b.node == a.node &&
            forall a': Addr, k': nat, i': nat ::
              IsSlot(ports, a', k', i') && ports[a'].queue.pending[k'].ports[i'] == b ==> (a', k', i') == (a, k, i)
  {
    hide Lanes, Chained, Named, Known, Ids, Receivers, Senders, Nexts, Ends, Travellers, Waiting, Targets, Numbers,
        Placement, Reading, Gone, Lasts, TravelLasts, Closures, Flights, Mail, Queues, Pending, FlyingCargo,
        QueuedCargo, Manifest, Unheld, AcceptTokens, Announcements, Acks, ParkedAcks, ProxyTokens, Heralds, Run,
        SentLog, ReadLog, Heralding, Attached, LandedPorts;
    EveryRun(cs);
    var s := Run(cs);
    assert AllHere(s.ports, s.ports[a].queue.pending[k].ports);
    SlotIs(s.ports, s.h.sent, s.h.pos, s.h.transit, s.h.cargo, s.h.token, a, k, i);
    var b := s.ports[a].queue.pending[k].ports[i];
    forall a': Addr, k': nat, i': nat | IsSlot(s.ports, a', k', i') && s.ports[a'].queue.pending[k'].ports[i'] == b
      ensures a' == a && k' == k && i' == i
    {
      SlotIs(s.ports, s.h.sent, s.h.pos, s.h.transit, s.h.cargo, s.h.token, a', k', i');
      SameQueue(s.ports, s.h.chain, s.h.place, s.h.pos, a, a', k);
    }
  }

  lemma SlotIs(ports: Ports, sent: Logs, pos: Positions, transit: Transits, cargo: Cargos, token: Tokens, a: Addr,
      k: nat, i: nat)
    requires a in ports && k in ports[a].queue.pending && i < |ports[a].queue.pending[k].ports| &&
        QueuedCargo(ports, pos, transit, cargo, sent) && Known(ports, transit, cargo, token, pos)
    ensures var b := ports[a].queue.pending[k].ports[i];
            a in pos && b in cargo && cargo[b] == Cargo(pos[a].lane, k, i) &&
            (b in ports ==> ports[b].mode.Receiving? && !ports[b].signalable && b.node == a.node)
  {
    assert Attached(ports, pos, transit, cargo, sent, pos[a].lane, k, pos[a].idx, ports[a].queue.pending[k]);
    assert LandedPorts(a.node, ports, ports[a].queue.pending[k]);
  }

  /** A receiving port is held by a user or is inside a message that nobody has read. */
  lemma NoPortIsForgotten(cs: seq<Command>, b: Addr)
    requires b in Run(cs).ports && Run(cs).ports[b].mode.Receiving? && !Run(cs).ports[b].signalable
    ensures var s := Run(cs);
            (exists id :: id in s.net && s.net[id].User? && b in s.net[id].msg.ports) ||
            (exists a :: a in s.ports && AttachedTo(s.ports[a].queue.pending, b))
  {
    hide Lanes, Chained, Named, Known, Ids, Receivers, Senders, Nexts, Ends, Travellers, Waiting, Targets, Numbers,
        Placement, Reading, Gone, Lasts, TravelLasts, Closures, Flights, Mail, Queues, Pending, FlyingCargo,
        QueuedCargo, Manifest, Unheld, AcceptTokens, Announcements, Acks, ParkedAcks, ProxyTokens, Heralds, Run,
        SentLog, ReadLog, Heralding;
    EveryRun(cs);
    var s := Run(cs);
    CargoIsSomewhere(s.ports, s.net, s.h.chain, s.h.place, s.h.cargo, b);
  }

  lemma CargoIsSomewhere(ports: Ports, net: Net, chain: Chains, place: Places, cargo: Cargos, b: Addr)
    requires b in cargo && Manifest(net, ports, chain, cargo, place)
    ensures (exists id :: id in net && net[id].User? && b in net[id].msg.ports) ||
            (exists a :: a in ports && AttachedTo(ports[a].queue.pending, b))
  {
    assert Listed(net, ports, chain, place, b, cargo[b]);
    var c := cargo[b];
    match place[c.lane][c.num] {
      case Flying(id, at) => assert b in net[id].msg.ports;
      case Queued(at) =>
        var a := chain[c.lane][at];
        assert c.num in ports[a].queue.pending && b in ports[a].queue.pending[c.num].ports;
        assert AttachedTo(ports[a].queue.pending, b);
    }
  }
}
